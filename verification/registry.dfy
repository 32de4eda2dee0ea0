/** An id-keyed registry where the first registration of an id wins: the `putIfAbsent` of the
    newer consumer manager and the `containsKey`-then-`set` of the older managers. */
module Registry {
  import opened Wrappers

  /** Registers `v` under `id` unless `id` is taken; a duplicate leaves the map as it was. */
  function Insert<V>(m: map<string, V>, id: string, v: V): (r: map<string, V>)
    ensures id in m ==> r == m
    ensures id !in m ==> r == m[id := v]
    ensures r.Keys == m.Keys + {id}
    ensures |r| == |m| + (if id in m then 0 else 1)
  {
    if id in m then m else m[id := v]
  }

  /** The ids of `entries`. */
  function Ids<V>(entries: seq<(string, V)>): set<string>
  {
    if |entries| == 0 then {} else {entries[0].0} + Ids(entries[1..])
  }

  /** The value of the first entry with this id, if any. */
  function FirstFor<V>(entries: seq<(string, V)>, id: string): (r: Option<V>)
    ensures r.Some? <==> id in Ids(entries)
  {
    if |entries| == 0 then None
    else if entries[0].0 == id then Some(entries[0].1)
    else FirstFor(entries[1..], id)
  }

  /** Registers `entries` one after another. */
  function InsertAll<V>(m: map<string, V>, entries: seq<(string, V)>): map<string, V>
    decreases |entries|
  {
    if |entries| == 0 then m else InsertAll(Insert(m, entries[0].0, entries[0].1), entries[1..])
  }

  /** A series of registrations adds exactly the ids registered and never changes the value of
      an id that was already present. */
  lemma {:induction false} InsertAllKeepsEarlier<V>(m: map<string, V>, entries: seq<(string, V)>)
    ensures InsertAll(m, entries).Keys == m.Keys + Ids(entries)
    ensures forall id :: id in m ==> InsertAll(m, entries)[id] == m[id]
    decreases |entries|
  {
    if |entries| > 0 {
      InsertAllKeepsEarlier(Insert(m, entries[0].0, entries[0].1), entries[1..]);
    }
  }

  /** After a series of registrations a new id holds the value of its first registration. */
  lemma {:induction false} FirstRegistrationWins<V>(m: map<string, V>, entries: seq<(string, V)>)
    ensures forall id :: id !in m && FirstFor(entries, id).Some? ==>
      id in InsertAll(m, entries) && InsertAll(m, entries)[id] == FirstFor(entries, id).value
    decreases |entries|
  {
    InsertAllKeepsEarlier(m, entries);
    if |entries| > 0 {
      var id0 := entries[0].0;
      var m' := Insert(m, id0, entries[0].1);
      var r := InsertAll(m, entries);
      assert r == InsertAll(m', entries[1..]);
      InsertAllKeepsEarlier(m', entries[1..]);
      FirstRegistrationWins(m', entries[1..]);
      forall id | id !in m && FirstFor(entries, id).Some?
        ensures r[id] == FirstFor(entries, id).value
      {
        if id != id0 {
          assert id !in m';
          assert FirstFor(entries, id) == FirstFor(entries[1..], id);
        }
      }
    }
  }
}
