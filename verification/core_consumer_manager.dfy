/** `KtorKafkaConsumerManager` of the `core.consumer.manager` package: a plain map where the first
    `create` of an id wins, and `startAll`/`stopAll` with no guard at all. Each launched task is
    logged by consumer id, as is each `stopListening` call. */
module CoreConsumerManager {
  import opened Common
  import opened CoreRegistration
  import Registry

  /** `KafkaConsumerWrapper`: a consumer and its listener. */
  datatype CoreWrapper = CoreWrapper(consumer: CoreConsumer, listener: ListenerRef)

  datatype Manager = Manager(consumers: map<string, CoreWrapper>, launches: multiset<string>, stopCalls: multiset<string>)

  function NewManager(): Manager
  {
    Manager(map[], multiset{}, multiset{})
  }

  /** `create`: a no-op when the id is already present, so the first registration wins. */
  function Create(m: Manager, id: string, consumer: CoreConsumer, listener: ListenerRef): (r: Manager)
    ensures id in m.consumers ==> r == m
    ensures id !in m.consumers ==> r.consumers == m.consumers[id := CoreWrapper(consumer, listener)]
    ensures r.launches == m.launches && r.stopCalls == m.stopCalls
  {
    m.(consumers := Registry.Insert(m.consumers, id, CoreWrapper(consumer, listener)))
  }

  /** The registrations as `create` calls, in order. */
  function CreateAll(m: Manager, regs: seq<ConsumerRegistration>): Manager
    decreases |regs|
  {
    if |regs| == 0 then m
    else CreateAll(Create(m, regs[0].id, regs[0].consumer, regs[0].listener), regs[1..])
  }

  /** Helper: the registrations as the (id, wrapper) pairs `create` inserts, in call order. */
  function Entries(regs: seq<ConsumerRegistration>): (es: seq<(string, CoreWrapper)>)
    ensures |es| == |regs|
    ensures forall i :: 0 <= i < |regs| ==> es[i] == (regs[i].id, CoreWrapper(regs[i].consumer, regs[i].listener))
  {
    if |regs| == 0 then [] else [(regs[0].id, CoreWrapper(regs[0].consumer, regs[0].listener))] + Entries(regs[1..])
  }

  lemma {:induction false} CreateAllIsInsertAll(m: Manager, regs: seq<ConsumerRegistration>)
    ensures CreateAll(m, regs).consumers == Registry.InsertAll(m.consumers, Entries(regs))
    ensures CreateAll(m, regs).launches == m.launches
    decreases |regs|
  {
    if |regs| > 0 {
      assert Entries(regs)[1..] == Entries(regs[1..]);
      CreateAllIsInsertAll(Create(m, regs[0].id, regs[0].consumer, regs[0].listener), regs[1..]);
    }
  }

  /** After any series of `create` calls the map holds exactly one entry per distinct id: the
      first consumer created under it. */
  lemma OneEntryPerId(regs: seq<ConsumerRegistration>)
    ensures var m := CreateAll(NewManager(), regs);
            && m.consumers.Keys == Registry.Ids(Entries(regs))
            && forall id :: id in m.consumers ==> m.consumers[id] == Registry.FirstFor(Entries(regs), id).value
  {
    CreateAllIsInsertAll(NewManager(), regs);
    Registry.InsertAllKeepsEarlier(map[], Entries(regs));
    Registry.FirstRegistrationWins(map[], Entries(regs));
  }

  /** `startAll`: one task per registered consumer, on every call. */
  function StartAll(m: Manager): (r: Manager)
    ensures forall id :: r.launches[id] == m.launches[id] + (if id in m.consumers then 1 else 0)
    ensures r.consumers == m.consumers && r.stopCalls == m.stopCalls
  {
    m.(launches := m.launches + multiset(m.consumers.Keys))
  }

  /** `stopAll`: `stopListening` on every registered consumer, on every call. */
  function StopAll(m: Manager): (r: Manager)
    ensures forall id :: r.stopCalls[id] == m.stopCalls[id] + (if id in m.consumers then 1 else 0)
    ensures r.consumers == m.consumers && r.launches == m.launches
  {
    m.(stopCalls := m.stopCalls + multiset(m.consumers.Keys))
  }

  /** Nothing guards `startAll` or `stopAll`: two calls launch every consumer twice and stop every
      consumer twice. */
  lemma NoGuard(m: Manager)
    ensures forall id :: id in m.consumers ==> StartAll(StartAll(m)).launches[id] == m.launches[id] + 2
    ensures forall id :: id in m.consumers ==> StopAll(StopAll(m)).stopCalls[id] == m.stopCalls[id] + 2
  {
  }
}
