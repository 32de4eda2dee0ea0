/** `KtorKafkaConsumerManager` of the `consumer.manager` package: a `putIfAbsent` registry of
    consumers, a `computeIfAbsent` table of launched jobs, and a one-shot `isStopped` flag guarding
    `stop`. A launched job runs at once and calls `startListening` on its consumer; the calls the
    manager makes are logged per consumer id. */
module ConsumerManager {
  import opened Wrappers
  import opened Common
  import CR = ConsumerRunner
  import KtorConsumerBuilder
  import Registry

  /** `KtorKafkaConsumerWrapper`: a runner and its listener. */
  datatype Wrapper = Wrapper(consumer: CR.Runner, listener: ListenerRef)

  datatype Manager = Manager(
    consumers: map<string, Wrapper>,
    jobs: set<string>,
    isStopped: bool,
    startCalls: multiset<string>,
    stopCalls: multiset<string>,
    cancelled: multiset<string>,
    failures: set<string>)

  function NewManager(): Manager
  {
    Manager(map[], {}, false, multiset{}, multiset{}, multiset{}, {})
  }

  /** `toWrapper`. */
  function ToWrapper(spec: KtorConsumerBuilder.ConsumerSpec): Wrapper
  {
    Wrapper(spec.consumer, spec.listener)
  }

  /** `register`: the spec is inserted only when its id is absent; a duplicate id leaves the
      existing entry, the map's size and everything else unchanged. */
  function Register(m: Manager, spec: KtorConsumerBuilder.ConsumerSpec): (r: Manager)
    ensures spec.id in m.consumers ==> r == m
    ensures spec.id !in m.consumers ==> r == m.(consumers := m.consumers[spec.id := ToWrapper(spec)])
    ensures |r.consumers| == |m.consumers| + (if spec.id in m.consumers then 0 else 1)
  {
    m.(consumers := Registry.Insert(m.consumers, spec.id, ToWrapper(spec)))
  }

  /** A wrapper after its job called `startListening`. */
  function Started(w: Wrapper): Wrapper
  {
    w.(consumer := CR.StartListening(w.consumer))
  }

  /** `start`: a job is launched, and `startListening` called, only for the consumers without a
      job; every consumer has a job afterwards. */
  function Start(m: Manager): (r: Manager)
    ensures r.consumers.Keys == m.consumers.Keys
    ensures r.jobs == m.jobs + m.consumers.Keys
    ensures forall id :: id in m.consumers && id !in m.jobs ==>
      r.startCalls[id] == m.startCalls[id] + 1 && r.consumers[id] == Started(m.consumers[id])
    ensures forall id :: id !in m.consumers || id in m.jobs ==> r.startCalls[id] == m.startCalls[id]
    ensures forall id :: id in m.consumers && id in m.jobs ==> r.consumers[id] == m.consumers[id]
    ensures r.isStopped == m.isStopped && r.stopCalls == m.stopCalls
    ensures r.cancelled == m.cancelled && r.failures == m.failures
  {
    var unstarted := m.consumers.Keys - m.jobs;
    m.(consumers := map id | id in m.consumers :: if id in unstarted then Started(m.consumers[id]) else m.consumers[id],
       jobs := m.jobs + unstarted,
       startCalls := m.startCalls + multiset(unstarted))
  }

  /** `stop`: only the first call takes effect; later calls return the manager unchanged. The
      effective call stops every registered consumer once, cancels and joins every job once,
      records the jobs whose cancellation threw (`failing`) instead of throwing, and empties the
      job table. */
  function Stop(m: Manager, failing: set<string>): (r: Manager)
    ensures m.isStopped ==> r == m
    ensures r.isStopped
    ensures r.consumers.Keys == m.consumers.Keys
    ensures !m.isStopped ==>
      && r.jobs == {}
      && (forall id :: id in m.consumers ==>
            && r.stopCalls[id] == m.stopCalls[id] + 1
            && !r.consumers[id].consumer.running
            && r.consumers[id].consumer == CR.StopListening(m.consumers[id].consumer))
      && (forall id :: id !in m.consumers ==> r.stopCalls[id] == m.stopCalls[id])
      && (forall id :: r.cancelled[id] == m.cancelled[id] + (if id in m.jobs then 1 else 0))
      && r.failures == m.failures + (m.jobs * failing)
      && r.startCalls == m.startCalls
  {
    if m.isStopped then m
    else
      m.(isStopped := true,
         consumers := map id | id in m.consumers :: m.consumers[id].(consumer := CR.StopListening(m.consumers[id].consumer)),
         stopCalls := m.stopCalls + multiset(m.consumers.Keys),
         cancelled := m.cancelled + multiset(m.jobs),
         failures := m.failures + (m.jobs * failing),
         jobs := {})
  }

  /** A second `start` launches nothing new. */
  lemma StartIsIdempotent(m: Manager)
    ensures Start(Start(m)) == Start(m)
  {
    var m1 := Start(m);
    assert m1.consumers.Keys - m1.jobs == {};
    assert multiset(m1.consumers.Keys - m1.jobs) == multiset{};
  }

  /** A second `stop` does nothing, whichever cancellations would fail. */
  lemma StopIsOneShot(m: Manager, failing: set<string>, failing': set<string>)
    ensures Stop(Stop(m, failing), failing') == Stop(m, failing)
  {
  }

  /** A call the plugin makes on the manager. */
  datatype Op = RegisterOp(spec: KtorConsumerBuilder.ConsumerSpec) | StartOp | StopOp(failing: set<string>)

  function Step(m: Manager, op: Op): Manager
  {
    match op
    case RegisterOp(spec) => Register(m, spec)
    case StartOp => Start(m)
    case StopOp(failing) => Stop(m, failing)
  }

  function Run(m: Manager, ops: seq<Op>): Manager
    decreases |ops|
  {
    if |ops| == 0 then m else Run(Step(m, ops[0]), ops[1..])
  }

  /** No operation removes a consumer: the registry only grows. */
  lemma {:induction false} RegistryOnlyGrows(m: Manager, ops: seq<Op>)
    ensures m.consumers.Keys <= Run(m, ops).consumers.Keys
    decreases |ops|
  {
    if |ops| > 0 {
      RegistryOnlyGrows(Step(m, ops[0]), ops[1..]);
    }
  }

  /** `isStopped` is never reset, and once it is set no later call stops a consumer again. */
  lemma {:induction false} StoppedStaysStopped(m: Manager, ops: seq<Op>)
    requires m.isStopped
    ensures Run(m, ops).isStopped
    ensures Run(m, ops).stopCalls == m.stopCalls
    decreases |ops|
  {
    if |ops| > 0 {
      StoppedStaysStopped(Step(m, ops[0]), ops[1..]);
    }
  }

  /** `start` does not look at `isStopped`: after the effective stop has emptied the job table, a
      `start` launches a job for every consumer again. */
  lemma StartAfterStopRelaunches(m: Manager, failing: set<string>)
    requires !m.isStopped
    ensures var m1 := Stop(Start(m), failing);
            forall id :: id in m.consumers ==> Start(m1).startCalls[id] == m1.startCalls[id] + 1
  {
  }

  /** Helper: running a non-empty list of calls is running the rest after the first. */
  lemma RunFirst(m: Manager, ops: seq<Op>)
    requires |ops| > 0
    ensures Run(m, ops) == Run(Step(m, ops[0]), ops[1..])
  {
  }

  /** Helper for the scenario below: a list of five calls is the five calls applied one at a
      time. */
  lemma {:induction false} RunFiveSteps(m: Manager, a: Op, b: Op, c: Op, d: Op, e: Op)
    ensures Run(m, [a, b, c, d, e]) == Step(Step(Step(Step(Step(m, a), b), c), d), e)
  {
    var ops := [a, b, c, d, e];
    var m1 := Step(m, a);
    var m2 := Step(m1, b);
    var m3 := Step(m2, c);
    var m4 := Step(m3, d);
    RunFirst(m, ops);
    assert ops[1..] == [b, c, d, e];
    RunFirst(m1, [b, c, d, e]);
    assert [b, c, d, e][1..] == [c, d, e];
    RunFirst(m2, [c, d, e]);
    assert [c, d, e][1..] == [d, e];
    RunFirst(m3, [d, e]);
    assert [d, e][1..] == [e];
    RunFirst(m4, [e]);
    assert [e][1..] == [];
  }

  /** The manager test: one spec registered twice, `start`, then `stop` twice. The consumer is
      registered once, `startListening` runs once and `stopListening` runs once. */
  lemma ManagerTestScenario(consumer: CR.Runner, l: ListenerRef, failing: set<string>)
    ensures var spec := KtorConsumerBuilder.ConsumerSpec("consumer-1", consumer, l);
            var m := Run(NewManager(), [RegisterOp(spec), RegisterOp(spec), StartOp, StopOp(failing), StopOp(failing)]);
            && |m.consumers| == 1
            && m.startCalls == multiset{"consumer-1"}
            && m.stopCalls == multiset{"consumer-1"}
            && m.jobs == {}
  {
    var spec := KtorConsumerBuilder.ConsumerSpec("consumer-1", consumer, l);
    RunFiveSteps(NewManager(), RegisterOp(spec), RegisterOp(spec), StartOp, StopOp(failing), StopOp(failing));
    var m1 := Register(NewManager(), spec);
    assert Register(m1, spec) == m1;
    assert m1.consumers.Keys == {"consumer-1"};
    var m3 := Start(m1);
    assert m3.startCalls == multiset{"consumer-1"} by {
      assert m1.consumers.Keys - m1.jobs == {"consumer-1"};
    }
    StopIsOneShot(m3, failing, failing);
  }
}
