/** `KtorKafkaProducerManager` of the `core.registration.manager` package: a plain map where the
    first `create` of an id wins, and an unguarded `closeAll`. */
module CoreProducerManager {
  import opened ProducerRunner
  import Registry

  datatype Manager<K, V> = Manager(producers: map<string, Producer<K, V>>)

  /** `create`: a no-op when the id is already present, so the first producer wins. */
  function Create<K, V>(m: Manager<K, V>, id: string, p: Producer<K, V>): (r: Manager<K, V>)
    ensures id in m.producers ==> r == m
    ensures id !in m.producers ==> r.producers == m.producers[id := p]
    ensures |r.producers| == |m.producers| + (if id in m.producers then 0 else 1)
  {
    Manager(Registry.Insert(m.producers, id, p))
  }

  /** The producers as `create` calls, in order. */
  function CreateAll<K, V>(m: Manager<K, V>, entries: seq<(string, Producer<K, V>)>): Manager<K, V>
    decreases |entries|
  {
    if |entries| == 0 then m else CreateAll(Create(m, entries[0].0, entries[0].1), entries[1..])
  }

  /** After any series of `create` calls the map holds exactly one producer per distinct id: the
      first one created under it. */
  lemma {:induction false} OneProducerPerId<K, V>(m: Manager<K, V>, entries: seq<(string, Producer<K, V>)>)
    ensures CreateAll(m, entries).producers == Registry.InsertAll(m.producers, entries)
    ensures CreateAll(m, entries).producers.Keys == m.producers.Keys + Registry.Ids(entries)
    ensures forall id :: id !in m.producers && id in Registry.Ids(entries) ==>
      CreateAll(m, entries).producers[id] == Registry.FirstFor(entries, id).value
    decreases |entries|
  {
    if |entries| > 0 {
      OneProducerPerId(Create(m, entries[0].0, entries[0].1), entries[1..]);
    }
    Registry.InsertAllKeepsEarlier(m.producers, entries);
    Registry.FirstRegistrationWins(m.producers, entries);
  }

  /** `closeAll`: `close` on every registered producer; no entry is removed. */
  function CloseAll<K, V>(m: Manager<K, V>): (r: Manager<K, V>)
    ensures r.producers.Keys == m.producers.Keys
    ensures forall id :: id in m.producers ==> r.producers[id] == Close(m.producers[id])
  {
    Manager(map id | id in m.producers :: Close(m.producers[id]))
  }

  /** Since `closeAll` keeps its entries, a second call closes every handle again; and after it no
      send on any registered producer reaches a handle. */
  lemma CloseAllTwice<K, V>(m: Manager<K, V>)
    ensures forall id :: id in m.producers ==>
      && CloseAll(CloseAll(m)).producers[id].handle.closeCount == m.producers[id].handle.closeCount + 2
      && CloseAll(CloseAll(m)).producers[id].isClose
  {
  }

  /** After `closeAll`, whatever calls follow, no registered producer sends another record. */
  lemma NothingSentAfterCloseAll<K, V>(m: Manager<K, V>, id: string, ops: seq<Op<K, V>>)
    requires id in m.producers
    ensures Run(CloseAll(m).producers[id], ops).handle.sent == m.producers[id].handle.sent
  {
    NothingSentOnceClosed(CloseAll(m).producers[id], ops);
  }
}
