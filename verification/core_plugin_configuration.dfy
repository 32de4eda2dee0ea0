/** `KtorKafkaPluginConfiguration` of the `plugin.config` package: a builder holding the
    plugin-wide bootstrap servers and group id, which the install block may reassign, and the
    registrations its `consumer { }` blocks add; `build` freezes them into an immutable
    configuration. */
module CorePluginConfiguration {
  import opened Wrappers
  import opened Common
  import opened CoreRegistration
  import CC = ConsumerConfigs
  import CB = CoreKtorConsumerBuilder
  import PluginConfiguration

  /** The application environment's paths of the two plugin values. */
  const BootstrapServersPath: string := "ktor.kafka.bootstrap_servers"
  const GroupIdPath: string := "ktor.kafka.groupId"

  /** The built configuration: a fixed list of registrations. */
  datatype Configuration = Configuration(kafkaRegistrations: seq<ConsumerRegistration>)

  /** `getKafkaRegistration`. */
  function GetKafkaRegistration(c: Configuration): seq<ConsumerRegistration>
  {
    c.kafkaRegistrations
  }

  datatype Builder = Builder(bootstrapServers: Option<string>, groupId: Option<string>,
                             registrations: seq<ConsumerRegistration>)

  /** The builder's constructor: `propertyOrNull(path)?.getString()` for both plugin values. */
  function NewBuilder(settings: map<string, string>): (b: Builder)
    ensures b.bootstrapServers.Some? <==> BootstrapServersPath in settings
    ensures b.bootstrapServers.Some? ==> b.bootstrapServers.value == settings[BootstrapServersPath]
    ensures b.groupId.Some? <==> GroupIdPath in settings
    ensures b.groupId.Some? ==> b.groupId.value == settings[GroupIdPath]
    ensures b.registrations == []
  {
    Builder(PluginConfiguration.TryGetString(settings, BootstrapServersPath),
            PluginConfiguration.TryGetString(settings, GroupIdPath), [])
  }

  /** Assignments the install block may make to the two `var`s. */
  function SetBootstrapServers(b: Builder, v: Option<string>): Builder
  {
    b.(bootstrapServers := v)
  }

  function SetGroupId(b: Builder, v: Option<string>): Builder
  {
    b.(groupId := v)
  }

  /** What a `consumer { }` block's builder produces under the plugin values the builder holds at
      the time of the call. */
  function BuildBlock(b: Builder, id: string, block: seq<CB.Step>): Result<ConsumerRegistration, string>
  {
    CB.Build(CB.ApplySteps(CB.NewBuilder(CC.PluginDefaults(b.bootstrapServers, b.groupId), id), block)).result
  }

  /** `consumer { }`: the registration is added when it builds; when `build` throws, the builder is
      left as it was. */
  function Consumer(b: Builder, id: string, block: seq<CB.Step>): (r: Result<Builder, string>)
    ensures r.Success? <==> BuildBlock(b, id, block).Success?
    ensures r.Failure? ==> r.error == BuildBlock(b, id, block).error
    ensures r.Success? ==> r.value == b.(registrations := b.registrations + [BuildBlock(b, id, block).value])
  {
    match BuildBlock(b, id, block)
    case Failure(e) => Failure(e)
    case Success(reg) => Success(b.(registrations := b.registrations + [reg]))
  }

  /** `build`: a copy of the registrations added so far. */
  function Build(b: Builder): (c: Configuration)
    ensures GetKafkaRegistration(c) == b.registrations
  {
    Configuration(b.registrations)
  }

  /** A configuration built earlier is not affected by later `consumer { }` calls: its
      registrations stay a prefix of what the builder holds. */
  lemma BuiltConfigurationIsSnapshot(b: Builder, id: string, block: seq<CB.Step>)
    ensures Consumer(b, id, block).Success? ==>
            var later := Build(Consumer(b, id, block).value);
            && GetKafkaRegistration(Build(b)) < GetKafkaRegistration(later)
            && |GetKafkaRegistration(later)| == |GetKafkaRegistration(Build(b))| + 1
  {
  }

  /** The plugin values are read when `consumer { }` runs: reassigning the bootstrap servers
      afterwards leaves the registrations already added untouched, and a registration added
      after the reassignment is built with the new value, whatever its block configures. */
  lemma BootstrapServersReadAtCallTime(b: Builder, v: string, id: string, block: seq<CB.Step>)
    ensures Consumer(SetBootstrapServers(b, Some(v)), id, block).Success? ==>
            var b' := Consumer(SetBootstrapServers(b, Some(v)), id, block).value;
            && b'.registrations[..|b.registrations|] == b.registrations
            && b'.registrations[|b.registrations|].consumer.props[BootstrapServersKey] == Text(v)
  {
    var b1 := SetBootstrapServers(b, Some(v));
    var inner := CB.ApplySteps(CB.NewBuilder(CC.PluginDefaults(b1.bootstrapServers, b1.groupId), id), block);
    assert inner.plugin.bootstrapServers == Some(v);
  }
}
