/** The property maps of `createConsumer` and `createProducer` in `common.utils`. The Kafka client
    constructors they pass the maps to are not part of this model. */
module Utils {
  import opened Wrappers
  import opened Common
  import CC = ConsumerConfigs

  /** `createConsumer`: exactly five keys, with `auto.offset.reset` set to "earliest" by a plain
      `put`, whatever else is known. The deserializers are instances; their classes are stored. */
  function ConsumerProps(bootstrapServers: string, groupId: string, valueDeserializer: ClassRef,
                         keyDeserializer: ClassRef): (p: Props)
    ensures p.Keys == {BootstrapServersKey, GroupIdKey, KeyDeserializerKey, ValueDeserializerKey,
                       AutoOffsetResetKey}
    ensures |p| == 5
    ensures p[BootstrapServersKey] == Text(bootstrapServers)
    ensures p[GroupIdKey] == Text(groupId)
    ensures p[KeyDeserializerKey] == ClassValue(keyDeserializer)
    ensures p[ValueDeserializerKey] == ClassValue(valueDeserializer)
    ensures p[AutoOffsetResetKey] == Earliest
  {
    map[BootstrapServersKey := Text(bootstrapServers),
        GroupIdKey := Text(groupId),
        KeyDeserializerKey := ClassValue(keyDeserializer),
        ValueDeserializerKey := ClassValue(valueDeserializer),
        AutoOffsetResetKey := Earliest]
  }

  /** With no extra properties, the builders' `createKafkaConsumer` map (whose
      `putIfAbsent` meets an absent key) and `createConsumer`'s map are the same map. */
  lemma ConsumerPropsAgreeWithBuilder(bootstrapServers: string, groupId: string,
                                      valueDeserializer: ClassRef, keyDeserializer: ClassRef)
    ensures ConsumerProps(bootstrapServers, groupId, valueDeserializer, keyDeserializer)
         == CC.ClientProperties(bootstrapServers, groupId, keyDeserializer, valueDeserializer, map[])
  {
  }

  /** The `Pair<ProducerConfig, Any>` arguments as property pairs: each key is a `ProducerConfig`
      object. */
  function ObjectPairs(extras: seq<(nat, Value)>): (ps: seq<(PropKey, Value)>)
    ensures |ps| == |extras|
    ensures forall i :: 0 <= i < |extras| ==> ps[i] == (ConfigObject(extras[i].0), extras[i].1)
  {
    if |extras| == 0 then []
    else ObjectPairs(extras[..|extras| - 1]) + [(ConfigObject(extras[|extras| - 1].0), extras[|extras| - 1].1)]
  }

  /** The last pair for a `ProducerConfig` object is the last pair for its key, and no pair has a
      string key. */
  lemma {:induction false} LastValueObjectPairs(extras: seq<(nat, Value)>, k: PropKey)
    ensures k.ConfigObject? ==> LastValue(ObjectPairs(extras), k) == LastValue(extras, k.ref)
    ensures k.Named? ==> LastValue(ObjectPairs(extras), k).None?
  {
    if |extras| > 0 {
      var init := extras[..|extras| - 1];
      assert ObjectPairs(extras)[..|extras| - 1] == ObjectPairs(init);
      LastValueObjectPairs(init, k);
    }
  }

  /** `createProducer`: the bootstrap servers and the serializer classes under their string keys,
      then every extra pair in order. The extra keys are `ProducerConfig` objects, never equal to
      a string key, so the three base entries always survive; among the extras the last pair for
      a key wins. */
  function ProducerProps(bootstrapServers: string, keySerializer: ClassRef, valueSerializer: ClassRef,
                         extras: seq<(nat, Value)>): (p: Props)
    ensures forall k :: k in p <==>
      k in {BootstrapServersKey, KeySerializerKey, ValueSerializerKey}
      || (k.ConfigObject? && LastValue(extras, k.ref).Some?)
    ensures p[BootstrapServersKey] == Text(bootstrapServers)
    ensures p[KeySerializerKey] == ClassValue(keySerializer)
    ensures p[ValueSerializerKey] == ClassValue(valueSerializer)
    ensures forall r :: LastValue(extras, r).Some? ==> p[ConfigObject(r)] == LastValue(extras, r).value
  {
    var base := map[BootstrapServersKey := Text(bootstrapServers),
                    KeySerializerKey := ClassValue(keySerializer),
                    ValueSerializerKey := ClassValue(valueSerializer)];
    var ps := ObjectPairs(extras);
    forall k ensures LastValue(ps, k) == (if k.ConfigObject? then LastValue(extras, k.ref) else None) {
      LastValueObjectPairs(extras, k);
    }
    PutPairs(base, ps)
  }

  /** With no extra pairs the producer map has exactly the three base keys. */
  lemma ProducerPropsWithoutExtras(bootstrapServers: string, keySerializer: ClassRef, valueSerializer: ClassRef)
    ensures ProducerProps(bootstrapServers, keySerializer, valueSerializer, []).Keys
         == {BootstrapServersKey, KeySerializerKey, ValueSerializerKey}
  {
  }
}
