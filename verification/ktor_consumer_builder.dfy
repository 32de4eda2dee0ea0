/** `KafkaKtorConsumerBuilder` of the `consumer.builder` package: extra properties are keyed by
    strings, `property` merges them in, and `build` stores the merged config back into the builder
    before checking the listener. */
module KtorConsumerBuilder {
  import opened Wrappers
  import opened Common
  import CC = ConsumerConfigs
  import ConsumerRunner

  type Config = CC.ConsumerConfig<string>

  /** `KtorKafkaConsumerSpec`: the consumer's id, its listener and the runner built for it. */
  datatype ConsumerSpec = ConsumerSpec(id: string, consumer: ConsumerRunner.Runner, listener: ListenerRef)

  /** The builder's state: the plugin values it was constructed with, its private config and its
      listener. */
  datatype Builder = Builder(plugin: CC.PluginDefaults, config: Config, listener: Option<ListenerRef>)

  /** A new builder; `id` stands for the random UUID of the fresh config. */
  function NewBuilder(plugin: CC.PluginDefaults, id: string): Builder
  {
    Builder(plugin, CC.DefaultConfig(id), None)
  }

  /** `configure { }`: only the config changes, by the block's assignments. */
  function Configure(b: Builder, u: CC.ConfigUpdate<string>): (r: Builder)
    ensures r.plugin == b.plugin && r.listener == b.listener
    ensures r.config == CC.Configure(b.config, u)
  {
    b.(config := CC.Configure(b.config, u))
  }

  /** `listener { }`: replaces the listener. */
  function SetListener(b: Builder, l: ListenerRef): Builder
  {
    b.(listener := Some(l))
  }

  /** `property(props)`: `extraProperties + props`, the new values winning on shared keys; every
      other field of the config is unchanged. */
  function Property(b: Builder, props: map<string, Value>): (r: Builder)
    ensures r.config.extraProperties.Keys == b.config.extraProperties.Keys + props.Keys
    ensures forall k :: k in props ==> r.config.extraProperties[k] == props[k]
    ensures forall k :: k in b.config.extraProperties && k !in props ==>
      r.config.extraProperties[k] == b.config.extraProperties[k]
    ensures r.config.(extraProperties := b.config.extraProperties) == b.config
    ensures r.plugin == b.plugin && r.listener == b.listener
  {
    b.(config := b.config.(extraProperties := b.config.extraProperties + props))
  }

  /** `property(vararg pairs)`: `pairs.toMap()` merged in, so of several pairs with one key the
      last wins, and it also wins over an earlier value of that key. */
  function PropertyPairs(b: Builder, pairs: seq<(string, Value)>): (r: Builder)
    ensures forall k :: LastValue(pairs, k).Some? ==>
      k in r.config.extraProperties && r.config.extraProperties[k] == LastValue(pairs, k).value
    ensures forall k :: k in b.config.extraProperties && LastValue(pairs, k).None? ==>
      k in r.config.extraProperties && r.config.extraProperties[k] == b.config.extraProperties[k]
    ensures forall k :: k in r.config.extraProperties ==>
      k in b.config.extraProperties || LastValue(pairs, k).Some?
    ensures r.config.(extraProperties := b.config.extraProperties) == b.config
  {
    Property(b, PutPairs(map[], pairs))
  }

  /** The string-keyed extra properties as keys of `java.util.Properties`. */
  function NamedKeys(m: map<string, Value>): (p: Props)
    ensures forall k :: k in p <==> k.Named? && k.name in m
    ensures forall s :: s in m ==> p[Named(s)] == m[s]
  {
    map s | s in m :: Named(s) := m[s]
  }

  /** The property map `createKafkaConsumer` gives `KafkaConsumer`; the config has passed
      validation, so no `null` reaches `Properties.put`. */
  function CreateKafkaConsumerProps(c: Config): (p: Props)
    requires c.bootstrapServers.Some? && c.groupId.Some?
    requires c.keyDeserializer.Some? && c.valueDeserializer.Some?
    ensures p.Keys == {BootstrapServersKey, GroupIdKey, KeyDeserializerKey, ValueDeserializerKey,
                       AutoOffsetResetKey} + NamedKeys(c.extraProperties).Keys
    ensures forall s :: s in c.extraProperties ==> p[Named(s)] == c.extraProperties[s]
    ensures "auto.offset.reset" !in c.extraProperties ==> p[AutoOffsetResetKey] == Earliest
    ensures "bootstrap.servers" !in c.extraProperties ==>
      p[BootstrapServersKey] == Text(c.bootstrapServers.value)
    ensures "group.id" !in c.extraProperties ==> p[GroupIdKey] == Text(c.groupId.value)
    ensures "key.deserializer" !in c.extraProperties ==>
      p[KeyDeserializerKey] == ClassValue(c.keyDeserializer.value)
    ensures "value.deserializer" !in c.extraProperties ==>
      p[ValueDeserializerKey] == ClassValue(c.valueDeserializer.value)
  {
    CC.ClientProperties(c.bootstrapServers.value, c.groupId.value, c.keyDeserializer.value,
                        c.valueDeserializer.value, NamedKeys(c.extraProperties))
  }

  /** The builder after `build` and what `build` returned or threw. */
  datatype Built = Built(builder: Builder, result: Result<ConsumerSpec, string>)

  /** `build`: `config = requireValidConfig()` first, so a config failure leaves the builder
      untouched and reports the first missing field; otherwise the merged config is stored, and
      only then is a missing listener reported. With everything present the spec carries the
      config's id, the listener, and a new idle runner on exactly the configured topics. */
  function Build(b: Builder): (r: Built)
    ensures var m := CC.Merge(b.plugin, b.config);
            !CC.IsComplete(m) ==> r.builder == b && r.result == Failure(CC.Validate(m).error)
    ensures var m := CC.Merge(b.plugin, b.config);
            CC.IsComplete(m) ==> r.builder == b.(config := m)
    ensures r.result == Failure(CC.ErrListenerNull) <==>
      CC.IsComplete(CC.Merge(b.plugin, b.config)) && b.listener.None?
    ensures r.result.Success? <==> CC.IsComplete(CC.Merge(b.plugin, b.config)) && b.listener.Some?
    ensures r.result.Success? ==>
      var s := r.result.value;
      && s.id == b.config.id
      && s.listener == b.listener.value
      && s.consumer.topics == b.config.topics
      && !s.consumer.running && s.consumer.job.None?
      && s.consumer.handle.subscriptions == [] && s.consumer.handle.closeCount == 0
      && s.consumer.handle.props == CreateKafkaConsumerProps(CC.Merge(b.plugin, b.config))
  {
    match CC.RequireValidConfig(b.plugin, b.config)
    case Failure(e) => Built(b, Failure(e))
    case Success(c) =>
      var b' := b.(config := c);
      match b.listener
      case None => Built(b', Failure(CC.ErrListenerNull))
      case Some(l) =>
        Built(b', Success(ConsumerSpec(c.id, ConsumerRunner.NewRunner(CreateKafkaConsumerProps(c), c.topics), l)))
  }

  /** Because `build` stores the merged config and merging is idempotent, building the stored
      builder again gives the same builder and the same outcome. */
  lemma BuildAgain(b: Builder)
    ensures Build(Build(b).builder) == Build(b)
  {
    CC.MergeIdempotent(b.plugin, b.config);
  }

  /** One call the `consumer { }` block makes on the builder. */
  datatype Step =
    | ConfigureStep(u: CC.ConfigUpdate<string>)
    | ListenerStep(l: ListenerRef)
    | PropertyStep(props: map<string, Value>)
    | PropertyPairsStep(pairs: seq<(string, Value)>)

  /** Runs a block's calls in order. The plugin values are a private constructor argument, so no
      block can change them. */
  function ApplySteps(b: Builder, steps: seq<Step>): (r: Builder)
    ensures r.plugin == b.plugin
    decreases |steps|
  {
    if |steps| == 0 then b
    else
      var b' := match steps[0]
        case ConfigureStep(u) => Configure(b, u)
        case ListenerStep(l) => SetListener(b, l)
        case PropertyStep(props) => Property(b, props)
        case PropertyPairsStep(pairs) => PropertyPairs(b, pairs);
      ApplySteps(b', steps[1..])
  }

  /** The builder test cases: with no plugin values, a config missing one field fails on that
      field, a complete config without a listener fails on the listener, and a complete config
      with a listener builds. */
  lemma BuilderTestCases()
    ensures var b0 := NewBuilder(CC.PluginDefaults(None, None), "id");
            var sd := Some(ClassRef("StringDeserializer"));
            var all := CC.ConfigUpdate(CC.Keep, CC.Set(Some("localhost:9092")), CC.Set(Some("group")),
                                       CC.Set(sd), CC.Set(sd), CC.Set(["topic"]), CC.Keep);
            && Build(Configure(b0, all)).result == Failure(CC.ErrListenerNull)
            && Build(Configure(b0, all.(bootstrapServers := CC.Keep))).result
               == Failure(CC.ErrMissingBootstrapServers)
            && Build(Configure(b0, all.(groupId := CC.Keep))).result == Failure(CC.ErrMissingGroupId)
            && Build(Configure(b0, all.(topics := CC.Set([])))).result == Failure(CC.ErrNoTopics)
            && Build(Configure(b0, all.(keyDeserializer := CC.Keep, valueDeserializer := CC.Keep))).result
               == Failure(CC.ErrMissingKeyDeserializer)
            && Build(SetListener(Configure(b0, all), ListenerRef("l"))).result.Success?
  {
  }
}
