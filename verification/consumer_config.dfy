/** The consumer configuration record shared by both `KafkaKtorConsumerBuilder` variants, with the
    operations whose code the two variants share word for word: the copy-and-assign of
    `configure`, the merge with the plugin-level values, fail-fast validation, and the property
    map built by `createKafkaConsumer`. The variants differ in the type of the extra-property keys,
    which is the type parameter `X` here. */
module ConsumerConfigs {
  import opened Wrappers
  import opened Common

  /** `KtorKafkaConsumerConfig`: every field but `id`, `topics` and `extraProperties` is nullable. */
  datatype ConsumerConfig<X(==)> = ConsumerConfig(
    id: string,
    bootstrapServers: Option<string>,
    groupId: Option<string>,
    keyDeserializer: Option<ClassRef>,
    valueDeserializer: Option<ClassRef>,
    topics: seq<string>,
    extraProperties: map<X, Value>)

  /** A freshly constructed config; `id` stands for the random UUID the constructor draws. */
  function DefaultConfig<X(==)>(id: string): ConsumerConfig<X>
  {
    ConsumerConfig(id, None, None, None, None, [], map[])
  }

  /** What a `configure { }` block does to one field: leaves it alone or assigns it. */
  datatype Assign<T> = Keep | Set(value: T) {
    function Apply(old_: T): T
    {
      match this
      case Keep => old_
      case Set(v) => v
    }

    /** Running `this` and then `later`: the later assignment wins. */
    function Then(later: Assign<T>): Assign<T>
    {
      if later.Set? then later else this
    }
  }

  /** The effect of a `configure { }` block: which fields it assigns, and to what. */
  datatype ConfigUpdate<X(==)> = ConfigUpdate(
    id: Assign<string>,
    bootstrapServers: Assign<Option<string>>,
    groupId: Assign<Option<string>>,
    keyDeserializer: Assign<Option<ClassRef>>,
    valueDeserializer: Assign<Option<ClassRef>>,
    topics: Assign<seq<string>>,
    extraProperties: Assign<map<X, Value>>)
  {
    /** The block that runs `this` block's assignments and then `later`'s. */
    function Then(later: ConfigUpdate<X>): ConfigUpdate<X>
    {
      ConfigUpdate(
        id.Then(later.id),
        bootstrapServers.Then(later.bootstrapServers),
        groupId.Then(later.groupId),
        keyDeserializer.Then(later.keyDeserializer),
        valueDeserializer.Then(later.valueDeserializer),
        topics.Then(later.topics),
        extraProperties.Then(later.extraProperties))
    }
  }

  /** `config.copy().apply(block)`: the block runs on a copy, so every field it leaves alone keeps
      its previous value and every field it assigns takes the assigned value. */
  function Configure<X(==)>(c: ConsumerConfig<X>, u: ConfigUpdate<X>): (r: ConsumerConfig<X>)
    ensures u.id.Keep? ==> r.id == c.id
    ensures u.bootstrapServers.Keep? ==> r.bootstrapServers == c.bootstrapServers
    ensures u.groupId.Keep? ==> r.groupId == c.groupId
    ensures u.keyDeserializer.Keep? ==> r.keyDeserializer == c.keyDeserializer
    ensures u.valueDeserializer.Keep? ==> r.valueDeserializer == c.valueDeserializer
    ensures u.topics.Keep? ==> r.topics == c.topics
    ensures u.extraProperties.Keep? ==> r.extraProperties == c.extraProperties
    ensures u.id.Set? ==> r.id == u.id.value
    ensures u.bootstrapServers.Set? ==> r.bootstrapServers == u.bootstrapServers.value
    ensures u.groupId.Set? ==> r.groupId == u.groupId.value
    ensures u.keyDeserializer.Set? ==> r.keyDeserializer == u.keyDeserializer.value
    ensures u.valueDeserializer.Set? ==> r.valueDeserializer == u.valueDeserializer.value
    ensures u.topics.Set? ==> r.topics == u.topics.value
    ensures u.extraProperties.Set? ==> r.extraProperties == u.extraProperties.value
  {
    ConsumerConfig(
      u.id.Apply(c.id),
      u.bootstrapServers.Apply(c.bootstrapServers),
      u.groupId.Apply(c.groupId),
      u.keyDeserializer.Apply(c.keyDeserializer),
      u.valueDeserializer.Apply(c.valueDeserializer),
      u.topics.Apply(c.topics),
      u.extraProperties.Apply(c.extraProperties))
  }

  /** Two `configure { }` calls in a row act like one block doing both, the second one's
      assignments winning. */
  lemma ConfigureTwice<X>(c: ConsumerConfig<X>, u1: ConfigUpdate<X>, u2: ConfigUpdate<X>)
    ensures Configure(Configure(c, u1), u2) == Configure(c, u1.Then(u2))
  {
  }

  /** The plugin-level values a builder is constructed with (`pluginConfig`). */
  datatype PluginDefaults = PluginDefaults(bootstrapServers: Option<string>, groupId: Option<string>)

  /** The first step of `requireValidConfig`: `pluginConfig.x ?: config.x` for the bootstrap
      servers and the group id. The plugin value wins whenever it is non-null; the consumer's own
      value is used only when the plugin value is null. Every other field is kept. */
  function Merge<X(==)>(p: PluginDefaults, c: ConsumerConfig<X>): (m: ConsumerConfig<X>)
    ensures p.bootstrapServers.Some? ==> m.bootstrapServers == p.bootstrapServers
    ensures p.bootstrapServers.None? ==> m.bootstrapServers == c.bootstrapServers
    ensures p.groupId.Some? ==> m.groupId == p.groupId
    ensures p.groupId.None? ==> m.groupId == c.groupId
    ensures m.(bootstrapServers := c.bootstrapServers, groupId := c.groupId) == c
  {
    c.(bootstrapServers := p.bootstrapServers.OrElse(c.bootstrapServers),
       groupId := p.groupId.OrElse(c.groupId))
  }

  /** Merging a merged config again changes nothing, so `build` storing the merged config back
      into the builder makes a second `build` see the same config. */
  lemma MergeIdempotent<X>(p: PluginDefaults, c: ConsumerConfig<X>)
    ensures Merge(p, Merge(p, c)) == Merge(p, c)
  {
  }

  /** A worked example of `Merge`'s contract: the consumer's own bootstrap servers and group id
      are ignored when the plugin supplies them, although the class comment of the newer builder
      calls the plugin values fallbacks. */
  lemma PluginValueWins()
    ensures var c := DefaultConfig<string>("c").(bootstrapServers := Some("own:9092"), groupId := Some("own"));
            var m := Merge(PluginDefaults(Some("plugin:9092"), Some("plugin")), c);
            m.bootstrapServers == Some("plugin:9092") && m.groupId == Some("plugin")
  {
  }

  const ErrMissingBootstrapServers := "Missing bootstrap servers configuration."
  const ErrMissingGroupId := "Missing consumer group ID."
  const ErrNoTopics := "No topics specified."
  const ErrMissingKeyDeserializer := "Missing key deserializer."
  const ErrMissingValueDeserializer := "Missing value deserializer."
  const ErrListenerNull := "Kafka consumer listener can not be null"

  /** Every field validation asks for is present. */
  predicate IsComplete<X(==)>(c: ConsumerConfig<X>)
  {
    && c.bootstrapServers.Some?
    && c.groupId.Some?
    && |c.topics| > 0
    && c.keyDeserializer.Some?
    && c.valueDeserializer.Some?
  }

  /** `validateConfigurationParameters`: fail-fast in the order bootstrap servers, group id,
      topics, key deserializer, value deserializer. Each message is reported exactly when its
      field is the first missing one, so a later missing field never masks an earlier one. */
  function Validate<X(==)>(c: ConsumerConfig<X>): (r: Outcome<string>)
    ensures r == Fail(ErrMissingBootstrapServers) <==> c.bootstrapServers.None?
    ensures r == Fail(ErrMissingGroupId) <==> c.bootstrapServers.Some? && c.groupId.None?
    ensures r == Fail(ErrNoTopics) <==>
      c.bootstrapServers.Some? && c.groupId.Some? && |c.topics| == 0
    ensures r == Fail(ErrMissingKeyDeserializer) <==>
      c.bootstrapServers.Some? && c.groupId.Some? && |c.topics| > 0 && c.keyDeserializer.None?
    ensures r == Fail(ErrMissingValueDeserializer) <==>
      c.bootstrapServers.Some? && c.groupId.Some? && |c.topics| > 0 && c.keyDeserializer.Some?
      && c.valueDeserializer.None?
    ensures r.Pass? <==> IsComplete(c)
  {
    if c.bootstrapServers.None? then Fail(ErrMissingBootstrapServers)
    else if c.groupId.None? then Fail(ErrMissingGroupId)
    else if |c.topics| == 0 then Fail(ErrNoTopics)
    else if c.keyDeserializer.None? then Fail(ErrMissingKeyDeserializer)
    else if c.valueDeserializer.None? then Fail(ErrMissingValueDeserializer)
    else Pass
  }

  /** `requireValidConfig`: merge, then validate; on success the merged config is returned. */
  function RequireValidConfig<X(==)>(p: PluginDefaults, c: ConsumerConfig<X>): (r: Result<ConsumerConfig<X>, string>)
    ensures r.Success? <==> IsComplete(Merge(p, c))
    ensures r.Success? ==> r.value == Merge(p, c)
    ensures r.Failure? ==> Validate(Merge(p, c)) == Fail(r.error)
  {
    var m := Merge(p, c);
    match Validate(m)
    case Pass => Success(m)
    case Fail(e) => Failure(e)
  }

  /** The property map of `createKafkaConsumer`: four `put`s, a `putIfAbsent` of
      `auto.offset.reset`, then `putAll` of the extra properties. The extras are written last and
      win over every base key they share; `auto.offset.reset` is "earliest" unless the extras
      supply it. */
  function ClientProperties(bootstrapServers: string, groupId: string, keyDeserializer: ClassRef,
                            valueDeserializer: ClassRef, extras: Props): (p: Props)
    ensures p.Keys == {BootstrapServersKey, GroupIdKey, KeyDeserializerKey, ValueDeserializerKey,
                       AutoOffsetResetKey} + extras.Keys
    ensures forall k :: k in extras ==> p[k] == extras[k]
    ensures BootstrapServersKey !in extras ==> p[BootstrapServersKey] == Text(bootstrapServers)
    ensures GroupIdKey !in extras ==> p[GroupIdKey] == Text(groupId)
    ensures KeyDeserializerKey !in extras ==> p[KeyDeserializerKey] == ClassValue(keyDeserializer)
    ensures ValueDeserializerKey !in extras ==> p[ValueDeserializerKey] == ClassValue(valueDeserializer)
    ensures AutoOffsetResetKey !in extras ==> p[AutoOffsetResetKey] == Earliest
  {
    var base := map[BootstrapServersKey := Text(bootstrapServers),
                    GroupIdKey := Text(groupId),
                    KeyDeserializerKey := ClassValue(keyDeserializer),
                    ValueDeserializerKey := ClassValue(valueDeserializer)];
    PutAll(PutIfAbsent(base, AutoOffsetResetKey, Earliest), extras)
  }
}
