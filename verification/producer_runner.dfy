/** `KtorKafkaProducer` of the `core.producer` package: a Kafka producer handle, a fixed topic and
    an `isClose` flag. Its guarded `send` uses `compareAndSet(false, true)`, so the first send
    itself sets the flag: this model keeps that behaviour (`SendRecord`) and, beside it, the
    evidently intended check-only guard (`SendRecordIntended`). */
module ProducerRunner {
  import opened Wrappers
  import opened Common

  /** `ProducerRecord(topic, message)` has no key; `ProducerRecord(topic, key, message)` has one. */
  datatype ProducerRecord<K, V> = ProducerRecord(topic: string, key: Option<K>, value: V)

  /** The Kafka `Producer` handle: the properties it was built from and a log of the calls made on
      it. */
  datatype Handle<K, V> = Handle(props: Props, sent: seq<ProducerRecord<K, V>>, closeCount: nat)

  datatype Producer<K, V> = Producer(handle: Handle<K, V>, topic: string, isClose: bool, scopeCancelled: bool)

  /** `KtorKafkaProducer(kafkaProducer, topic)` around a newly built handle. */
  function NewProducer<K, V>(props: Props, topic: string): Producer<K, V>
  {
    Producer(Handle(props, [], 0), topic, false, false)
  }

  /** What a `send` call came to; none of them is an exception thrown to the caller. */
  datatype SendOutcome = Dropped | Dispatched | FailureLogged

  /** The guarded `send(record, callback)` as written: when `compareAndSet(false, true)` fails the
      record is dropped with a warning; when it succeeds the flag is now set and the record is
      handed to the handle, a failure of the handle being caught and logged. */
  function SendRecord<K, V>(p: Producer<K, V>, rec: ProducerRecord<K, V>, handleThrows: bool): (r: (Producer<K, V>, SendOutcome))
    ensures p.isClose ==> r == (p, Dropped)
    ensures !p.isClose ==>
      && r.0.isClose
      && r.0.handle.sent == p.handle.sent + [rec]
      && r.0.handle.(sent := p.handle.sent) == p.handle
      && r.0.topic == p.topic && r.0.scopeCancelled == p.scopeCancelled
      && r.1 == (if handleThrows then FailureLogged else Dispatched)
  {
    if p.isClose then (p, Dropped)
    else
      var p' := p.(isClose := true, handle := p.handle.(sent := p.handle.sent + [rec]));
      (p', if handleThrows then FailureLogged else Dispatched)
  }

  /** `send(message)`: a record for the configured topic with no key. */
  function Send<K, V>(p: Producer<K, V>, message: V, handleThrows: bool): (r: (Producer<K, V>, SendOutcome))
    ensures !p.isClose ==> r.0.handle.sent == p.handle.sent + [ProducerRecord(p.topic, None, message)]
    ensures p.isClose ==> r == (p, Dropped)
  {
    SendRecord(p, ProducerRecord(p.topic, None, message), handleThrows)
  }

  /** `send(message, key)`: a record for the configured topic with that key. */
  function SendKeyed<K, V>(p: Producer<K, V>, message: V, key: K, handleThrows: bool): (r: (Producer<K, V>, SendOutcome))
    ensures !p.isClose ==> r.0.handle.sent == p.handle.sent + [ProducerRecord(p.topic, Some(key), message)]
    ensures p.isClose ==> r == (p, Dropped)
  {
    SendRecord(p, ProducerRecord(p.topic, Some(key), message), handleThrows)
  }

  /** `close`: sets the flag, closes the handle on every call, cancels the scope. */
  function Close<K, V>(p: Producer<K, V>): (r: Producer<K, V>)
    ensures r.isClose && r.scopeCancelled
    ensures r.handle.closeCount == p.handle.closeCount + 1
    ensures r.handle.sent == p.handle.sent && r.handle.props == p.handle.props && r.topic == p.topic
  {
    p.(isClose := true, scopeCancelled := true, handle := p.handle.(closeCount := p.handle.closeCount + 1))
  }

  /** A call a client makes on the producer. */
  datatype Op<K, V> =
    | SendOp(message: V, handleThrows: bool)
    | SendKeyedOp(message: V, key: K, handleThrows: bool)
    | SendRecordOp(rec: ProducerRecord<K, V>, handleThrows: bool)
    | CloseOp

  function Step<K, V>(p: Producer<K, V>, op: Op<K, V>): Producer<K, V>
  {
    match op
    case SendOp(m, t) => Send(p, m, t).0
    case SendKeyedOp(m, k, t) => SendKeyed(p, m, k, t).0
    case SendRecordOp(rec, t) => SendRecord(p, rec, t).0
    case CloseOp => Close(p)
  }

  /** The producer after the calls `ops`, in order. */
  function Run<K, V>(p: Producer<K, V>, ops: seq<Op<K, V>>): Producer<K, V>
    decreases |ops|
  {
    if |ops| == 0 then p else Run(Step(p, ops[0]), ops[1..])
  }

  /** The number of `close` calls in `ops`. */
  function CloseCalls<K, V>(ops: seq<Op<K, V>>): nat
  {
    if |ops| == 0 then 0 else (if ops[0].CloseOp? then 1 else 0) + CloseCalls(ops[1..])
  }

  /** At most one record has reached the handle, and once one has, the flag is set. */
  ghost predicate AtMostOneSent<K, V>(p: Producer<K, V>)
  {
    |p.handle.sent| <= 1 && (|p.handle.sent| == 1 ==> p.isClose)
  }

  lemma {:induction false} RunKeepsAtMostOneSent<K, V>(p: Producer<K, V>, ops: seq<Op<K, V>>)
    requires AtMostOneSent(p)
    ensures AtMostOneSent(Run(p, ops))
    decreases |ops|
  {
    if |ops| > 0 {
      RunKeepsAtMostOneSent(Step(p, ops[0]), ops[1..]);
    }
  }

  /** Whatever calls are made, a producer hands at most one record to its handle: the first
      `send` marks it closed. */
  lemma AtMostOneRecordEverSent<K, V>(props: Props, topic: string, ops: seq<Op<K, V>>)
    ensures |Run(NewProducer<K, V>(props, topic), ops).handle.sent| <= 1
  {
    RunKeepsAtMostOneSent(NewProducer<K, V>(props, topic), ops);
  }

  /** Once the flag is set, by `close` or by a first `send`, no later call sends anything. */
  lemma {:induction false} NothingSentOnceClosed<K, V>(p: Producer<K, V>, ops: seq<Op<K, V>>)
    requires p.isClose
    ensures Run(p, ops).handle.sent == p.handle.sent
    ensures Run(p, ops).isClose
    decreases |ops|
  {
    if |ops| > 0 {
      NothingSentOnceClosed(Step(p, ops[0]), ops[1..]);
    }
  }

  /** Every `close` call closes the handle again. */
  lemma {:induction false} EveryCloseClosesHandle<K, V>(p: Producer<K, V>, ops: seq<Op<K, V>>)
    ensures Run(p, ops).handle.closeCount == p.handle.closeCount + CloseCalls(ops)
    decreases |ops|
  {
    if |ops| > 0 {
      EveryCloseClosesHandle(Step(p, ops[0]), ops[1..]);
    }
  }

  /** Two sends on a new producer: the first is dispatched, the second dropped. */
  lemma SecondSendDropped(props: Props, topic: string)
    ensures var p0 := NewProducer<string, string>(props, topic);
            var s1 := Send(p0, "m1", false);
            var s2 := Send(s1.0, "m2", false);
            && s1.1 == Dispatched && s2.1 == Dropped
            && s2.0.handle.sent == [ProducerRecord(topic, None, "m1")]
  {
  }

  /** The guard the close flag evidently was meant to be: read the flag, drop the record when it
      is set, and otherwise send without touching the flag. */
  function SendRecordIntended<K, V>(p: Producer<K, V>, rec: ProducerRecord<K, V>, handleThrows: bool): (r: (Producer<K, V>, SendOutcome))
    ensures p.isClose ==> r == (p, Dropped)
    ensures !p.isClose ==> r.0 == p.(handle := p.handle.(sent := p.handle.sent + [rec]))
    ensures !p.isClose ==> r.1 != Dropped
  {
    if p.isClose then (p, Dropped)
    else (p.(handle := p.handle.(sent := p.handle.sent + [rec])), if handleThrows then FailureLogged else Dispatched)
  }

  /** The record a send call builds; `None` for `close`. */
  function RecordOf<K, V>(topic: string, op: Op<K, V>): Option<ProducerRecord<K, V>>
  {
    match op
    case SendOp(m, _) => Some(ProducerRecord(topic, None, m))
    case SendKeyedOp(m, k, _) => Some(ProducerRecord(topic, Some(k), m))
    case SendRecordOp(rec, _) => Some(rec)
    case CloseOp => None
  }

  function StepIntended<K, V>(p: Producer<K, V>, op: Op<K, V>): Producer<K, V>
  {
    match RecordOf(p.topic, op)
    case Some(rec) => SendRecordIntended(p, rec, op.handleThrows).0
    case None => Close(p)
  }

  function RunIntended<K, V>(p: Producer<K, V>, ops: seq<Op<K, V>>): Producer<K, V>
    decreases |ops|
  {
    if |ops| == 0 then p else RunIntended(StepIntended(p, ops[0]), ops[1..])
  }

  /** The records of the send calls in `ops`, in order. */
  function Records<K, V>(topic: string, ops: seq<Op<K, V>>): seq<ProducerRecord<K, V>>
  {
    if |ops| == 0 then []
    else (match RecordOf(topic, ops[0]) case Some(rec) => [rec] case None => []) + Records(topic, ops[1..])
  }

  /** With the intended guard an open producer sends every record of every send call, in order,
      until it is closed. */
  lemma {:induction false} IntendedSendsEveryRecord<K, V>(p: Producer<K, V>, ops: seq<Op<K, V>>)
    requires !p.isClose
    requires forall i :: 0 <= i < |ops| ==> !ops[i].CloseOp?
    ensures RunIntended(p, ops).handle.sent == p.handle.sent + Records(p.topic, ops)
    ensures !RunIntended(p, ops).isClose
    decreases |ops|
  {
    if |ops| > 0 {
      var p' := StepIntended(p, ops[0]);
      assert p'.handle.sent == p.handle.sent + Records(p.topic, ops[..1]);
      IntendedSendsEveryRecord(p', ops[1..]);
    }
  }

  /** With the intended guard, too, nothing is sent after `close`. */
  lemma {:induction false} IntendedNothingSentAfterClose<K, V>(p: Producer<K, V>, ops: seq<Op<K, V>>)
    requires p.isClose
    ensures RunIntended(p, ops).handle.sent == p.handle.sent
    decreases |ops|
  {
    if |ops| > 0 {
      IntendedNothingSentAfterClose(StepIntended(p, ops[0]), ops[1..]);
    }
  }
}
