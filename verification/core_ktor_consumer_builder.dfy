/** `KafkaKtorConsumerBuilder` of the `core.builder` package. It shares the merge and the
    validation with the newer builder, but its extra properties are keyed by `ConsumerConfig`
    objects and its `property` discards the map it computes. */
module CoreKtorConsumerBuilder {
  import opened Wrappers
  import opened Common
  import CC = ConsumerConfigs
  import opened CoreRegistration

  /** The config; an extra-property key is the reference of a `ConsumerConfig` object. */
  type Config = CC.ConsumerConfig<nat>

  datatype Builder = Builder(plugin: CC.PluginDefaults, config: Config, listener: Option<ListenerRef>)

  /** A new builder; `id` stands for the random UUID of the fresh config. */
  function NewBuilder(plugin: CC.PluginDefaults, id: string): Builder
  {
    Builder(plugin, CC.DefaultConfig(id), None)
  }

  /** `configure { }`: only the config changes, by the block's assignments. */
  function Configure(b: Builder, u: CC.ConfigUpdate<nat>): (r: Builder)
    ensures r.plugin == b.plugin && r.listener == b.listener
    ensures r.config == CC.Configure(b.config, u)
  {
    b.(config := CC.Configure(b.config, u))
  }

  /** `listener { }`: replaces the listener. */
  function SetListener(b: Builder, l: ListenerRef): Builder
  {
    b.(listener := Some(l))
  }

  /** `property(props)`: `config.extraProperties.plus(props)` builds a new map and drops it, so
      the builder, its extra properties included, is left exactly as it was. */
  function Property(b: Builder, props: map<nat, Value>): (r: Builder)
    ensures r.config.extraProperties == b.config.extraProperties
    ensures r == b
  {
    var discarded := b.config.extraProperties + props;
    b
  }

  /** The `ConsumerConfig`-keyed extra properties as keys of `java.util.Properties`. */
  function ObjectKeys(m: map<nat, Value>): (p: Props)
    ensures forall k :: k in p <==> k.ConfigObject? && k.ref in m
    ensures forall r :: r in m ==> p[ConfigObject(r)] == m[r]
  {
    map r | r in m :: ConfigObject(r) := m[r]
  }

  /** The property map of `createKafkaConsumer`. The extra keys are objects, never equal to the
      string keys, so `putAll` cannot override a base key here: the five base entries, and
      "earliest" for `auto.offset.reset`, always survive. */
  function CreateKafkaConsumerProps(c: Config): (p: Props)
    requires c.bootstrapServers.Some? && c.groupId.Some?
    requires c.keyDeserializer.Some? && c.valueDeserializer.Some?
    ensures p.Keys == {BootstrapServersKey, GroupIdKey, KeyDeserializerKey, ValueDeserializerKey,
                       AutoOffsetResetKey} + ObjectKeys(c.extraProperties).Keys
    ensures p[BootstrapServersKey] == Text(c.bootstrapServers.value)
    ensures p[GroupIdKey] == Text(c.groupId.value)
    ensures p[KeyDeserializerKey] == ClassValue(c.keyDeserializer.value)
    ensures p[ValueDeserializerKey] == ClassValue(c.valueDeserializer.value)
    ensures p[AutoOffsetResetKey] == Earliest
    ensures forall r :: ConfigObject(r) in p <==> r in c.extraProperties
    ensures forall r :: r in c.extraProperties ==> p[ConfigObject(r)] == c.extraProperties[r]
  {
    var extras := ObjectKeys(c.extraProperties);
    var p := CC.ClientProperties(c.bootstrapServers.value, c.groupId.value, c.keyDeserializer.value,
                                 c.valueDeserializer.value, extras);
    assert forall r :: ConfigObject(r) in p <==> ConfigObject(r) in extras by {
      forall r ensures ConfigObject(r) in p <==> ConfigObject(r) in extras {
        ObjectKeyIsNoBaseKey(p, extras, r);
      }
    }
    p
  }

  /** An object key is none of the five named base keys, so it is in the client's map exactly
      when it is among the extras. */
  lemma ObjectKeyIsNoBaseKey(p: Props, extras: Props, r: nat)
    requires p.Keys == {BootstrapServersKey, GroupIdKey, KeyDeserializerKey, ValueDeserializerKey,
                        AutoOffsetResetKey} + extras.Keys
    ensures ConfigObject(r) in p <==> ConfigObject(r) in extras
  {
    assert ConfigObject(r) !in {BootstrapServersKey, GroupIdKey, KeyDeserializerKey, ValueDeserializerKey,
                                AutoOffsetResetKey};
  }

  /** The builder after `build` and what `build` returned or threw. */
  datatype Built = Built(builder: Builder, result: Result<ConsumerRegistration, string>)

  /** `build`: validation of the merged config first (a failure leaves the builder untouched and
      names the first missing field), then the merged config is stored and the listener checked.
      A registration carries the config's id, the listener and exactly the configured topics. */
  function Build(b: Builder): (r: Built)
    ensures var m := CC.Merge(b.plugin, b.config);
            !CC.IsComplete(m) ==> r.builder == b && r.result == Failure(CC.Validate(m).error)
    ensures var m := CC.Merge(b.plugin, b.config);
            CC.IsComplete(m) ==> r.builder == b.(config := m)
    ensures r.result == Failure(CC.ErrListenerNull) <==>
      CC.IsComplete(CC.Merge(b.plugin, b.config)) && b.listener.None?
    ensures r.result.Success? <==> CC.IsComplete(CC.Merge(b.plugin, b.config)) && b.listener.Some?
    ensures r.result.Success? ==>
      var reg := r.result.value;
      && reg.id == b.config.id
      && reg.listener == b.listener.value
      && reg.consumer.topics == b.config.topics
      && reg.consumer.props == CreateKafkaConsumerProps(CC.Merge(b.plugin, b.config))
  {
    match CC.RequireValidConfig(b.plugin, b.config)
    case Failure(e) => Built(b, Failure(e))
    case Success(c) =>
      var b' := b.(config := c);
      match b.listener
      case None => Built(b', Failure(CC.ErrListenerNull))
      case Some(l) =>
        Built(b', Success(ConsumerRegistration(c.id, CoreConsumer(CreateKafkaConsumerProps(c), c.topics), l)))
  }

  /** The client's object keys are exactly the builder's extra-property keys, with their
      values. */
  lemma ClientObjectKeysAreExtras(b: Builder)
    ensures var r := Build(b).result;
            r.Success? ==>
              && (forall k :: ConfigObject(k) in r.value.consumer.props <==> k in b.config.extraProperties)
              && (forall k :: k in b.config.extraProperties ==>
                    r.value.consumer.props[ConfigObject(k)] == b.config.extraProperties[k])
  {
    var c := CC.Merge(b.plugin, b.config);
    assert c.extraProperties == b.config.extraProperties;
  }

  /** Extra properties given through `property` never reach the client: building after it is
      building without it, and a key only `props` names is missing from the client's map. */
  lemma PropertyIsLost(b: Builder, props: map<nat, Value>)
    ensures Build(Property(b, props)) == Build(b)
    ensures var r := Build(Property(b, props)).result;
            r.Success? ==> forall k :: k in props && k !in b.config.extraProperties ==>
              ConfigObject(k) !in r.value.consumer.props
  {
    assert Property(b, props) == b;
    ClientObjectKeysAreExtras(b);
  }

  /** One call the `consumer { }` block makes on the builder. */
  datatype Step =
    | ConfigureStep(u: CC.ConfigUpdate<nat>)
    | ListenerStep(l: ListenerRef)
    | PropertyStep(props: map<nat, Value>)

  /** Runs a block's calls in order; no block can change the plugin values. */
  function ApplySteps(b: Builder, steps: seq<Step>): (r: Builder)
    ensures r.plugin == b.plugin
    decreases |steps|
  {
    if |steps| == 0 then b
    else
      var b' := match steps[0]
        case ConfigureStep(u) => Configure(b, u)
        case ListenerStep(l) => SetListener(b, l)
        case PropertyStep(props) => Property(b, props);
      ApplySteps(b', steps[1..])
  }
}
