/** `ProducerBuilder` of the `core.builder` package: plain nullable fields and a prebuilt producer
    that skips every check. */
module CoreProducerBuilder {
  import opened Wrappers
  import opened Common
  import opened ProducerRunner
  import Utils

  /** `KtorKafkaProducerRegistration`. */
  datatype ProducerRegistration<K, V> = ProducerRegistration(id: string, producer: Producer<K, V>)

  datatype Builder<K, V> = Builder(
    id: string,
    ktorKafkaProducer: Option<Producer<K, V>>,
    bootstrapServers: Option<string>,
    topic: Option<string>,
    keySerializer: Option<ClassRef>,
    valueSerializer: Option<ClassRef>)

  /** The field defaults; `id` stands for the random UUID. */
  function NewBuilder<K, V>(id: string): Builder<K, V>
  {
    Builder(id, None, None, None, None, None)
  }

  const ErrNoValueSerializer := "Either producer or valueSerializer must be provided"
  const ErrNoKeySerializer := "Either producer or keySerializer must be provided"
  const ErrNoBootstrapServers := "Either producer, bootstrapServers, or kafka.bootstrapServers in environment must be provided"
  const ErrNoTopic := "Either producer or topic must be provided"

  /** `build`: a prebuilt producer gives (id, producer) with no other check. Otherwise the checks
      are fail-fast in the order value serializer, key serializer, bootstrap servers, topic, and a
      success carries the id and a new open producer on the topic, over the `createProducer` map. */
  function Build<K, V>(b: Builder<K, V>): (r: Result<ProducerRegistration<K, V>, string>)
    ensures b.ktorKafkaProducer.Some? ==> r == Success(ProducerRegistration(b.id, b.ktorKafkaProducer.value))
    ensures r == Failure(ErrNoValueSerializer) <==> b.ktorKafkaProducer.None? && b.valueSerializer.None?
    ensures r == Failure(ErrNoKeySerializer) <==>
      b.ktorKafkaProducer.None? && b.valueSerializer.Some? && b.keySerializer.None?
    ensures r == Failure(ErrNoBootstrapServers) <==>
      b.ktorKafkaProducer.None? && b.valueSerializer.Some? && b.keySerializer.Some?
      && b.bootstrapServers.None?
    ensures r == Failure(ErrNoTopic) <==>
      b.ktorKafkaProducer.None? && b.valueSerializer.Some? && b.keySerializer.Some?
      && b.bootstrapServers.Some? && b.topic.None?
    ensures r.Success? <==>
      b.ktorKafkaProducer.Some?
      || (b.valueSerializer.Some? && b.keySerializer.Some? && b.bootstrapServers.Some? && b.topic.Some?)
    ensures r.Success? && b.ktorKafkaProducer.None? ==>
      && r.value.id == b.id
      && r.value.producer.topic == b.topic.value
      && !r.value.producer.isClose
      && r.value.producer.handle.sent == [] && r.value.producer.handle.closeCount == 0
      && r.value.producer.handle.props
         == Utils.ProducerProps(b.bootstrapServers.value, b.keySerializer.value, b.valueSerializer.value, [])
  {
    if b.ktorKafkaProducer.Some? then Success(ProducerRegistration(b.id, b.ktorKafkaProducer.value))
    else if b.valueSerializer.None? then Failure(ErrNoValueSerializer)
    else if b.keySerializer.None? then Failure(ErrNoKeySerializer)
    else if b.bootstrapServers.None? then Failure(ErrNoBootstrapServers)
    else if b.topic.None? then Failure(ErrNoTopic)
    else
      var props := Utils.ProducerProps(b.bootstrapServers.value, b.keySerializer.value, b.valueSerializer.value, []);
      Success(ProducerRegistration(b.id, NewProducer(props, b.topic.value)))
  }

  /** A fresh builder fails on the value serializer, checked before the key serializer. */
  lemma FreshBuilderFailsOnValueSerializer<K, V>(id: string)
    ensures Build(NewBuilder<K, V>(id)) == Failure(ErrNoValueSerializer)
    ensures Build(NewBuilder<K, V>(id).(valueSerializer := Some(ClassRef("s")))) == Failure(ErrNoKeySerializer)
  {
  }
}
