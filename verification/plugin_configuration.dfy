/** `KtorKafkaPluginConfiguration` of the `config` package: the plugin-wide bootstrap servers and
    group id, read from the application config, and the list of consumer specs that each
    `consumer { }` block appends to. */
module PluginConfiguration {
  import opened Wrappers
  import opened Common
  import CC = ConsumerConfigs
  import KB = KtorConsumerBuilder

  /** The application config's paths of the two plugin values. */
  const BootstrapServersPath: string := "bootstrap_servers"
  const GroupIdPath: string := "groupId"

  /** `tryGetString`: the value at a path, or `null` when the path is absent. */
  function TryGetString(settings: map<string, string>, path: string): (r: Option<string>)
    ensures r.Some? <==> path in settings
    ensures r.Some? ==> r.value == settings[path]
  {
    if path in settings then Some(settings[path]) else None
  }

  datatype PluginConfiguration = PluginConfiguration(
    bootstrapServers: Option<string>,
    groupId: Option<string>,
    registrationsMutable: seq<KB.ConsumerSpec>)

  /** The constructor: both plugin values looked up in the application config, no registrations. */
  function FromApplicationConfig(settings: map<string, string>): (pc: PluginConfiguration)
    ensures pc.bootstrapServers == (if BootstrapServersPath in settings then Some(settings[BootstrapServersPath]) else None)
    ensures pc.groupId == (if GroupIdPath in settings then Some(settings[GroupIdPath]) else None)
    ensures pc.registrationsMutable == []
  {
    PluginConfiguration(TryGetString(settings, BootstrapServersPath), TryGetString(settings, GroupIdPath), [])
  }

  /** `registrations`: a copy of the list, taken when read. */
  function Registrations(pc: PluginConfiguration): seq<KB.ConsumerSpec>
  {
    pc.registrationsMutable
  }

  /** The plugin values a new builder is constructed with. */
  function Defaults(pc: PluginConfiguration): CC.PluginDefaults
  {
    CC.PluginDefaults(pc.bootstrapServers, pc.groupId)
  }

  /** What a `consumer { }` block's builder produces under the plugin values `d`: the fresh
      builder (with `id` for its random UUID), the block's calls applied, then `build`. */
  function BuildBlock(d: CC.PluginDefaults, id: string, block: seq<KB.Step>): Result<KB.ConsumerSpec, string>
  {
    KB.Build(KB.ApplySteps(KB.NewBuilder(d, id), block)).result
  }

  /** `registrationsMutable += builder.build()`: a spec that was built is appended and nothing
      else changes; an exception from `build` leaves the configuration as it was. */
  function Append(pc: PluginConfiguration, built: Result<KB.ConsumerSpec, string>): (r: Result<PluginConfiguration, string>)
    ensures r.Success? <==> built.Success?
    ensures r.Failure? ==> r.error == built.error
    ensures r.Success? ==>
      && Defaults(r.value) == Defaults(pc)
      && r.value.registrationsMutable == pc.registrationsMutable + [built.value]
  {
    match built
    case Failure(e) => Failure(e)
    case Success(spec) => Success(pc.(registrationsMutable := pc.registrationsMutable + [spec]))
  }

  /** `consumer { }`: the block's spec, built under this configuration's plugin values, appended. */
  function Consumer(pc: PluginConfiguration, id: string, block: seq<KB.Step>): Result<PluginConfiguration, string>
  {
    Append(pc, BuildBlock(Defaults(pc), id, block))
  }

  /** An install block's `consumer { }` calls, in order; the first one that throws ends the block. */
  function ConsumerAll(pc: PluginConfiguration, blocks: seq<(string, seq<KB.Step>)>): Result<PluginConfiguration, string>
    decreases |blocks|
  {
    if |blocks| == 0 then Success(pc)
    else match Consumer(pc, blocks[0].0, blocks[0].1)
      case Failure(e) => Failure(e)
      case Success(pc') => ConsumerAll(pc', blocks[1..])
  }

  /** The specs of a series of blocks, all built under the plugin values `d`. */
  function BuildAll(d: CC.PluginDefaults, blocks: seq<(string, seq<KB.Step>)>): (rs: seq<Result<KB.ConsumerSpec, string>>)
    ensures |rs| == |blocks|
    ensures forall i :: 0 <= i < |blocks| ==> rs[i] == BuildBlock(d, blocks[i].0, blocks[i].1)
    decreases |blocks|
  {
    if |blocks| == 0 then [] else [BuildBlock(d, blocks[0].0, blocks[0].1)] + BuildAll(d, blocks[1..])
  }

  /** Built specs appended one at a time, stopping at the first exception. */
  function AppendAll(pc: PluginConfiguration, built: seq<Result<KB.ConsumerSpec, string>>): Result<PluginConfiguration, string>
    decreases |built|
  {
    if |built| == 0 then Success(pc)
    else match Append(pc, built[0])
      case Failure(e) => Failure(e)
      case Success(pc') => AppendAll(pc', built[1..])
  }

  /** Running the blocks one `consumer { }` call at a time is appending their specs, each built
      under the unchanged plugin values. */
  lemma {:induction false} ConsumerAllIsAppendAll(pc: PluginConfiguration, blocks: seq<(string, seq<KB.Step>)>)
    ensures ConsumerAll(pc, blocks) == AppendAll(pc, BuildAll(Defaults(pc), blocks))
    decreases |blocks|
  {
    if |blocks| > 0 {
      var built := BuildAll(Defaults(pc), blocks);
      assert built[1..] == BuildAll(Defaults(pc), blocks[1..]);
      match Append(pc, built[0])
      case Failure(e) =>
      case Success(pc1) =>
        ConsumerAllIsAppendAll(pc1, blocks[1..]);
    }
  }

  /** When every spec was built, the registrations are the earlier ones followed by the specs in
      order, and the plugin values are unchanged. */
  lemma {:induction false} AppendAllInOrder(pc: PluginConfiguration, built: seq<Result<KB.ConsumerSpec, string>>)
    requires forall i :: 0 <= i < |built| ==> built[i].Success?
    ensures AppendAll(pc, built).Success?
    ensures var pc' := AppendAll(pc, built).value;
            && Defaults(pc') == Defaults(pc)
            && |Registrations(pc')| == |Registrations(pc)| + |built|
            && Registrations(pc) == Registrations(pc')[..|Registrations(pc)|]
            && forall i :: 0 <= i < |built| ==> Registrations(pc')[|Registrations(pc)| + i] == built[i].value
    decreases |built|
  {
    if |built| > 0 {
      var pc1 := Append(pc, built[0]).value;
      AppendAllInOrder(pc1, built[1..]);
      var pc' := AppendAll(pc, built).value;
      var n := |Registrations(pc)|;
      forall i | 0 <= i < |built|
        ensures Registrations(pc')[n + i] == built[i].value
      {
        if i > 0 {
          assert built[1..][i - 1] == built[i];
          assert n + i == |Registrations(pc1)| + (i - 1);
        }
      }
    }
  }

  /** The first spec that failed to build decides: the whole series fails with its error. */
  lemma {:induction false} AppendAllFirstFailure(pc: PluginConfiguration, built: seq<Result<KB.ConsumerSpec, string>>, j: nat)
    requires j < |built| && built[j].Failure?
    requires forall i :: 0 <= i < j ==> built[i].Success?
    ensures AppendAll(pc, built) == Failure(built[j].error)
    decreases j
  {
    if j > 0 {
      var pc1 := Append(pc, built[0]).value;
      assert forall i :: 0 <= i < j - 1 ==> built[1..][i] == built[i + 1];
      AppendAllFirstFailure(pc1, built[1..], j - 1);
    }
  }

  /** A series of `consumer { }` blocks that all build grows the registrations by one spec per
      block, in block order, and leaves the plugin values alone. */
  lemma ConsumerAllAppendsInOrder(pc: PluginConfiguration, blocks: seq<(string, seq<KB.Step>)>)
    requires forall i :: 0 <= i < |blocks| ==> BuildBlock(Defaults(pc), blocks[i].0, blocks[i].1).Success?
    ensures ConsumerAll(pc, blocks).Success?
    ensures var pc' := ConsumerAll(pc, blocks).value;
            && Defaults(pc') == Defaults(pc)
            && |Registrations(pc')| == |Registrations(pc)| + |blocks|
            && Registrations(pc) == Registrations(pc')[..|Registrations(pc)|]
            && forall i :: 0 <= i < |blocks| ==>
                 Registrations(pc')[|Registrations(pc)| + i] == BuildBlock(Defaults(pc), blocks[i].0, blocks[i].1).value
  {
    ConsumerAllIsAppendAll(pc, blocks);
    AppendAllInOrder(pc, BuildAll(Defaults(pc), blocks));
  }

  /** In a series of `consumer { }` blocks the first block that does not build decides: the
      series fails with that block's error. */
  lemma ConsumerAllFirstFailure(pc: PluginConfiguration, blocks: seq<(string, seq<KB.Step>)>, j: nat)
    requires j < |blocks| && BuildBlock(Defaults(pc), blocks[j].0, blocks[j].1).Failure?
    requires forall i :: 0 <= i < j ==> BuildBlock(Defaults(pc), blocks[i].0, blocks[i].1).Success?
    ensures ConsumerAll(pc, blocks) == Failure(BuildBlock(Defaults(pc), blocks[j].0, blocks[j].1).error)
  {
    ConsumerAllIsAppendAll(pc, blocks);
    AppendAllFirstFailure(pc, BuildAll(Defaults(pc), blocks), j);
  }

  /** A plugin-wide bootstrap servers value reaches every consumer built under it, whatever its
      block configures, unless the block sets `bootstrap.servers` as an extra property. */
  lemma PluginBootstrapServersWin(pc: PluginConfiguration, id: string, block: seq<KB.Step>)
    requires pc.bootstrapServers.Some?
    ensures BuildBlock(Defaults(pc), id, block).Success? &&
            "bootstrap.servers" !in KB.ApplySteps(KB.NewBuilder(Defaults(pc), id), block).config.extraProperties ==>
              BuildBlock(Defaults(pc), id, block).value.consumer.handle.props[BootstrapServersKey] == Text(pc.bootstrapServers.value)
  {
  }
}
