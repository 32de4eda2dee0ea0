/** Values shared by the builders and runners: references that stand for Kotlin objects the
    lifecycle layer only passes around, and the `java.util.Properties` map handed to the Kafka
    client constructors. */
module Common {
  import opened Wrappers

  /** A (de)serializer class, as `KClass<out Deserializer<K>>` or `serializer::class.java`. */
  datatype ClassRef = ClassRef(name: string)

  /** A user listener `(K, V) -> Unit`; the lifecycle layer only stores and forwards it. */
  datatype ListenerRef = ListenerRef(name: string)

  /** A key of `java.util.Properties`. Kafka's string constants such as "group.id" are `Named`;
      a `ConsumerConfig` or `ProducerConfig` object used as a key is a `ConfigObject`, which equals
      other `ConfigObject`s of the same `ref` only and never a string key. */
  datatype PropKey = Named(name: string) | ConfigObject(ref: nat)

  /** A property value: a string, a class, or any other object. */
  datatype Value = Text(s: string) | ClassValue(c: ClassRef) | Opaque(ref: nat)

  type Props = map<PropKey, Value>

  // The string values of Kafka's `ConsumerConfig`/`ProducerConfig` key constants.
  const BootstrapServersKey: PropKey := Named("bootstrap.servers")
  const GroupIdKey: PropKey := Named("group.id")
  const KeyDeserializerKey: PropKey := Named("key.deserializer")
  const ValueDeserializerKey: PropKey := Named("value.deserializer")
  const AutoOffsetResetKey: PropKey := Named("auto.offset.reset")
  const KeySerializerKey: PropKey := Named("key.serializer")
  const ValueSerializerKey: PropKey := Named("value.serializer")

  /** The value both consumer property maps give `auto.offset.reset`. */
  const Earliest: Value := Text("earliest")

  /** `Properties.putIfAbsent`: an existing mapping is kept. */
  function PutIfAbsent(p: Props, k: PropKey, v: Value): (r: Props)
    ensures r.Keys == p.Keys + {k}
    ensures k in p ==> r[k] == p[k]
    ensures k !in p ==> r[k] == v
    ensures forall j :: j in p && j != k ==> r[j] == p[j]
  {
    if k in p then p else p[k := v]
  }

  /** `Properties.putAll`: every mapping of `extras` is written over `p`. */
  function PutAll(p: Props, extras: Props): (r: Props)
    ensures r.Keys == p.Keys + extras.Keys
    ensures forall k :: k in extras ==> r[k] == extras[k]
    ensures forall k :: k in p && k !in extras ==> r[k] == p[k]
  {
    p + extras
  }

  /** The value of the last pair in `pairs` whose key is `k`, if any. */
  function LastValue<K(==,!new), V>(pairs: seq<(K, V)>, k: K): Option<V>
  {
    if |pairs| == 0 then None
    else if pairs[|pairs| - 1].0 == k then Some(pairs[|pairs| - 1].1)
    else LastValue(pairs[..|pairs| - 1], k)
  }

  /** Writes `pairs` into `m` one after another, as `forEach { put(it.first, it.second) }` and
      Kotlin's `toMap()` do: for a key that occurs several times the last pair wins. */
  function PutPairs<K(==,!new), V>(m: map<K, V>, pairs: seq<(K, V)>): (r: map<K, V>)
    ensures forall k :: k in r <==> k in m || LastValue(pairs, k).Some?
    ensures forall k :: LastValue(pairs, k).Some? ==> r[k] == LastValue(pairs, k).value
    ensures forall k :: k in m && LastValue(pairs, k).None? ==> r[k] == m[k]
  {
    if |pairs| == 0 then m
    else
      var last := pairs[|pairs| - 1];
      PutPairs(m, pairs[..|pairs| - 1])[last.0 := last.1]
  }
}
