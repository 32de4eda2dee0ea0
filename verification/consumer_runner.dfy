/** `KtorKafkaConsumer` of the `consumer` package: a Kafka consumer handle, its topics, an
    `isRunning` flag set by compare-and-set, and the job its poll loop runs in. The job is a
    recorded launch; the loop itself is a function over the poll results it sees. */
module ConsumerRunner {
  import opened Wrappers
  import opened Common

  /** The Kafka `Consumer` handle, reduced to the properties it was built from and a log of the
      calls the runner makes on it. */
  datatype Handle = Handle(props: Props, subscriptions: seq<seq<string>>, closeCount: nat)

  /** A launched poll-loop job; `ordinal` numbers the launches of one runner. */
  datatype Job = Job(ordinal: nat, cancelled: bool)

  datatype Runner = Runner(
    handle: Handle,
    topics: seq<string>,
    running: bool,
    job: Option<Job>,
    launches: nat)

  /** `KtorKafkaConsumer(kafkaConsumer, topics)` around a newly built handle. */
  function NewRunner(props: Props, topics: seq<string>): Runner
  {
    Runner(Handle(props, [], 0), topics, false, None, 0)
  }

  /** `startListening`: when `isRunning` is already set the call is a no-op; otherwise it sets
      the flag, subscribes the handle once to the configured topics and launches one job. */
  function StartListening(r: Runner): (r': Runner)
    ensures r.running ==> r' == r
    ensures !r.running ==>
      && r'.running
      && r'.handle.subscriptions == r.handle.subscriptions + [r.topics]
      && r'.handle.closeCount == r.handle.closeCount
      && r'.handle.props == r.handle.props
      && r'.topics == r.topics
      && r'.launches == r.launches + 1
      && r'.job == Some(Job(r.launches, false))
  {
    if r.running then r
    else
      r.(running := true,
         handle := r.handle.(subscriptions := r.handle.subscriptions + [r.topics]),
         job := Some(Job(r.launches, false)),
         launches := r.launches + 1)
  }

  /** `stopListening`: always clears the flag and cancels the job if there is one; it never
      touches the handle, so it is safe before any start and safe to repeat. */
  function StopListening(r: Runner): (r': Runner)
    ensures !r'.running
    ensures r'.handle == r.handle && r'.topics == r.topics && r'.launches == r.launches
    ensures r.job.None? ==> r'.job.None?
    ensures r.job.Some? ==> r'.job == Some(r.job.value.(cancelled := true))
  {
    r.(running := false,
       job := match r.job
              case None => None
              case Some(j) => Some(j.(cancelled := true)))
  }

  /** `cleanup`: close the handle, clear the flag. */
  function Cleanup(r: Runner): Runner
  {
    r.(handle := r.handle.(closeCount := r.handle.closeCount + 1), running := false)
  }

  datatype Record<K, V> = Record(key: K, value: V)

  /** One iteration of the poll loop as the runner sees it: the poll returned `records` and the
      listener accepted every one of them; or the listener threw on `failing`, after accepting
      `delivered` and before reaching `rest`; or the poll itself threw. */
  datatype PollStep<K, V> =
    | Polled(records: seq<Record<K, V>>)
    | ListenerThrew(delivered: seq<Record<K, V>>, failing: Record<K, V>, rest: seq<Record<K, V>>)
    | PollThrew
  {
    /** The records the poll returned. */
    function Batch(): seq<Record<K, V>>
    {
      match this
      case Polled(rs) => rs
      case ListenerThrew(d, f, rest) => d + [f] + rest
      case PollThrew => []
    }

    /** The records the listener was called with in this iteration. */
    function Reached(): seq<Record<K, V>>
    {
      match this
      case Polled(rs) => rs
      case ListenerThrew(d, f, _) => d + [f]
      case PollThrew => []
    }
  }

  /** Every record polled in `steps`, batch after batch, each batch in poll order. */
  function Flatten<K, V>(steps: seq<PollStep<K, V>>): seq<Record<K, V>>
  {
    if |steps| == 0 then [] else steps[0].Batch() + Flatten(steps[1..])
  }

  /** The index of the first iteration that threw, or `|steps|` when none did. */
  function FirstThrow<K, V>(steps: seq<PollStep<K, V>>): (i: nat)
    ensures i <= |steps|
    ensures forall j :: 0 <= j < i ==> steps[j].Polled?
    ensures i < |steps| ==> !steps[i].Polled?
  {
    if |steps| == 0 || !steps[0].Polled? then 0 else 1 + FirstThrow(steps[1..])
  }

  /** How the loop ended: the listener calls made, and whether an exception ended it. */
  datatype LoopExit<K, V> = LoopExit(calls: seq<Record<K, V>>, threw: bool)

  /** `processRecords` over the iterations that saw `isRunning` set: the listener is called once
      per record, in poll order, batch after batch, until an exception from the poll or the
      listener ends the loop. Without an exception the listener sees every polled record. */
  function ProcessRecords<K, V>(steps: seq<PollStep<K, V>>): (e: LoopExit<K, V>)
    ensures e.threw <==> FirstThrow(steps) < |steps|
    ensures !e.threw ==> e.calls == Flatten(steps)
  {
    if |steps| == 0 then LoopExit([], false)
    else
      match steps[0]
      case Polled(rs) =>
        var e := ProcessRecords(steps[1..]);
        LoopExit(rs + e.calls, e.threw)
      case ListenerThrew(d, f, _) => LoopExit(d + [f], true)
      case PollThrew => LoopExit([], true)
  }

  /** When an exception ends the loop, the listener has seen exactly the records of the
      iterations before the first throwing one, then the records that iteration reached; in
      every case it has seen a prefix of the polled records. */
  lemma {:induction false} ProcessRecordsStopsAtFirstThrow<K, V>(steps: seq<PollStep<K, V>>)
    ensures var e := ProcessRecords(steps);
            e.threw ==> e.calls == Flatten(steps[..FirstThrow(steps)]) + steps[FirstThrow(steps)].Reached()
    ensures ProcessRecords(steps).calls <= Flatten(steps)
  {
    if |steps| > 0 {
      FlattenCons(steps);
      match steps[0]
      case Polled(rs) =>
        ProcessRecordsStopsAtFirstThrow(steps[1..]);
        PrefixUnderConcat(rs, ProcessRecords(steps[1..]).calls, Flatten(steps[1..]));
        if ProcessRecords(steps).threw {
          PolledThenThrew(steps, rs);
        }
      case ListenerThrew(d, f, rest) =>
        assert steps[..0] == [];
        assert Flatten(steps)[..|d + [f]|] == d + [f];
      case PollThrew =>
        assert steps[..0] == [];
    }
  }

  /** Helper: the threw case of a first iteration that polled normally, given the fact for the
      remaining iterations. */
  lemma PolledThenThrew<K, V>(steps: seq<PollStep<K, V>>, rs: seq<Record<K, V>>)
    requires |steps| > 0 && steps[0] == Polled(rs)
    requires var e := ProcessRecords(steps[1..]);
             e.threw && e.calls == Flatten(steps[1..][..FirstThrow(steps[1..])]) + steps[1..][FirstThrow(steps[1..])].Reached()
    ensures var e := ProcessRecords(steps);
            e.calls == Flatten(steps[..FirstThrow(steps)]) + steps[FirstThrow(steps)].Reached()
  {
    var e1 := ProcessRecords(steps[1..]);
    var k := FirstThrow(steps[1..]);
    assert FirstThrow(steps) == 1 + k;
    assert steps[1 + k] == steps[1..][k];
    calc {
      ProcessRecords(steps).calls;
      rs + e1.calls;
      rs + (Flatten(steps[1..][..k]) + steps[1..][k].Reached());
      { ConcatAssoc(rs, Flatten(steps[1..][..k]), steps[1..][k].Reached()); }
      (rs + Flatten(steps[1..][..k])) + steps[1..][k].Reached();
      { FlattenUnfold(steps, k); }
      Flatten(steps[..1 + k]) + steps[1 + k].Reached();
    }
  }

  /** Helper: concatenation is associative. */
  lemma ConcatAssoc<T>(a: seq<T>, b: seq<T>, c: seq<T>)
    ensures a + (b + c) == (a + b) + c
  {
  }

  /** Helper: unfolds `Flatten` once. */
  lemma FlattenCons<K, V>(steps: seq<PollStep<K, V>>)
    requires |steps| > 0
    ensures Flatten(steps) == steps[0].Batch() + Flatten(steps[1..])
  {
  }

  /** Helper: a common head keeps a prefix a prefix. */
  lemma PrefixUnderConcat<T>(a: seq<T>, b: seq<T>, c: seq<T>)
    requires b <= c
    ensures a + b <= a + c
  {
    assert (a + c)[..|a + b|] == a + b;
  }

  /** Helper: unfolds `Flatten` once on a prefix of `steps`. */
  lemma FlattenUnfold<K, V>(steps: seq<PollStep<K, V>>, k: nat)
    requires k < |steps|
    ensures Flatten(steps[..k + 1]) == steps[0].Batch() + Flatten(steps[1..][..k])
  {
    assert steps[..k + 1][1..] == steps[1..][..k];
  }

  /** The runner after its job ended, the listener calls the job made, and whether it logged an
      error. */
  datatype JobRun<K, V> = JobRun(runner: Runner, calls: seq<Record<K, V>>, errorLogged: bool)

  /** The launched job: `try { processRecords } catch { log } finally { cleanup }`. Whether the
      loop ends normally or by an exception, the exception is logged and not rethrown, the handle
      is closed exactly once and `isRunning` is cleared. The loop tests `isRunning` before every
      poll, so a job that starts with the flag clear polls nothing. */
  function RunJob<K, V>(r: Runner, steps: seq<PollStep<K, V>>): (j: JobRun<K, V>)
    requires r.running || |steps| == 0
    ensures j.calls <= Flatten(steps)
    ensures j.errorLogged <==> exists i :: 0 <= i < |steps| && !steps[i].Polled?
    ensures !j.errorLogged ==> j.calls == Flatten(steps)
    ensures !j.runner.running
    ensures j.runner.handle.closeCount == r.handle.closeCount + 1
    ensures j.runner.handle.subscriptions == r.handle.subscriptions
    ensures j.runner.(running := r.running, handle := r.handle) == r
  {
    var e := ProcessRecords(steps);
    ProcessRecordsStopsAtFirstThrow(steps);
    JobRun(Cleanup(r), e.calls, e.threw)
  }

  /** A second `startListening` on a running consumer subscribes nothing and launches nothing. */
  lemma StartIsIdempotent(r: Runner)
    ensures StartListening(StartListening(r)) == StartListening(r)
    ensures |StartListening(StartListening(r)).handle.subscriptions| <= |r.handle.subscriptions| + 1
  {
  }

  /** `stopListening` repeated is the same as once, and before any start it closes nothing. */
  lemma StopIsIdempotent(r: Runner)
    ensures StopListening(StopListening(r)) == StopListening(r)
    ensures StopListening(r).handle.closeCount == r.handle.closeCount
  {
  }

  /** Once the job has cleaned up, `isRunning` is clear, so a later `startListening` takes
      effect again: it subscribes once more and launches a new job. */
  lemma RestartAfterJobExit<K, V>(r: Runner, steps: seq<PollStep<K, V>>)
    ensures var r' := RunJob(StartListening(r), steps).runner;
            && StartListening(r').running
            && StartListening(r').handle.subscriptions == r'.handle.subscriptions + [r.topics]
            && StartListening(r').launches == r'.launches + 1
  {
  }

  /** The end-to-end scenario: one consumer on ["orders"] is started, started again, its job
      sees one batch of two records, and it is stopped twice. The listener sees both records in
      poll order, no error is logged, the handle is subscribed once and closed once, and the
      consumer ends stopped. */
  lemma EndToEndScenario()
    ensures var r0 := NewRunner(map[], ["orders"]);
            var r1 := StartListening(StartListening(r0));
            var steps := [Polled([Record("a", "1"), Record("b", "2")])];
            var j := RunJob(r1, steps);
            var r2 := StopListening(StopListening(j.runner));
            && j.calls == [Record("a", "1"), Record("b", "2")]
            && !j.errorLogged
            && r2.handle.subscriptions == [["orders"]]
            && r2.handle.closeCount == 1
            && !r2.running
            && r2.launches == 1
  {
    var steps := [Polled([Record("a", "1"), Record("b", "2")])];
    assert Flatten(steps) == [Record("a", "1"), Record("b", "2")] by {
      assert steps[1..] == [];
    }
  }
}
