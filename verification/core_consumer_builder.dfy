/** `ConsumerBuilder` of the `core.builder` package: plain nullable fields, the listener checked
    first, and a prebuilt consumer that skips every other check. */
module CoreConsumerBuilder {
  import opened Wrappers
  import opened Common
  import opened CoreRegistration
  import Utils

  datatype Builder = Builder(
    id: string,
    bootstrapServers: Option<string>,
    groupId: Option<string>,
    topics: seq<string>,
    consumer: Option<CoreConsumer>,
    valueDeserializer: Option<ClassRef>,
    keyDeserializer: Option<ClassRef>,
    listener: Option<ListenerRef>)

  /** The field defaults; `id` stands for the random UUID. */
  function NewBuilder(id: string): Builder
  {
    Builder(id, None, None, [], None, None, None, None)
  }

  /** `listener { }`. */
  function SetListener(b: Builder, l: ListenerRef): Builder
  {
    b.(listener := Some(l))
  }

  const ErrNoListener := "No listener provided. Please define a listener using the listener { } function"
  const ErrNoBootstrapServers := "Bootstrap servers configuration is missing. Please provide the Kafka broker addresses"
  const ErrNoGroupId := "Consumer group ID is missing. Please specify a group ID for this consumer"
  const ErrNoTopics := "No topics specified. Please provide at least one topic to subscribe to"
  const ErrNoKeyDeserializer := "Key deserializer is missing. Please provide a deserializer for the message keys"
  const ErrNoValueDeserializer := "Value deserializer is missing. Please provide a deserializer for the message values"

  /** The fields a build without a prebuilt consumer needs. */
  predicate HasClientFields(b: Builder)
  {
    b.bootstrapServers.Some? && b.groupId.Some? && |b.topics| > 0
    && b.keyDeserializer.Some? && b.valueDeserializer.Some?
  }

  /** `build`: a missing listener fails first, whatever else is set. With a listener and a
      prebuilt consumer the registration is (id, consumer, listener) and nothing else is looked at.
      Otherwise the checks are fail-fast in the order bootstrap servers, group id, topics, key
      deserializer, value deserializer, and a success carries the id, exactly the topics and the
      `createConsumer` property map. */
  function Build(b: Builder): (r: Result<ConsumerRegistration, string>)
    ensures r == Failure(ErrNoListener) <==> b.listener.None?
    ensures b.listener.Some? && b.consumer.Some? ==>
      r == Success(ConsumerRegistration(b.id, b.consumer.value, b.listener.value))
    ensures r == Failure(ErrNoBootstrapServers) <==>
      b.listener.Some? && b.consumer.None? && b.bootstrapServers.None?
    ensures r == Failure(ErrNoGroupId) <==>
      b.listener.Some? && b.consumer.None? && b.bootstrapServers.Some? && b.groupId.None?
    ensures r == Failure(ErrNoTopics) <==>
      b.listener.Some? && b.consumer.None? && b.bootstrapServers.Some? && b.groupId.Some?
      && |b.topics| == 0
    ensures r == Failure(ErrNoKeyDeserializer) <==>
      b.listener.Some? && b.consumer.None? && b.bootstrapServers.Some? && b.groupId.Some?
      && |b.topics| > 0 && b.keyDeserializer.None?
    ensures r == Failure(ErrNoValueDeserializer) <==>
      b.listener.Some? && b.consumer.None? && b.bootstrapServers.Some? && b.groupId.Some?
      && |b.topics| > 0 && b.keyDeserializer.Some? && b.valueDeserializer.None?
    ensures r.Success? <==> b.listener.Some? && (b.consumer.Some? || HasClientFields(b))
    ensures r.Success? && b.consumer.None? ==>
      && r.value.id == b.id
      && r.value.listener == b.listener.value
      && r.value.consumer.topics == b.topics
      && r.value.consumer.props == Utils.ConsumerProps(b.bootstrapServers.value, b.groupId.value,
                                                       b.valueDeserializer.value, b.keyDeserializer.value)
  {
    if b.listener.None? then Failure(ErrNoListener)
    else if b.consumer.Some? then Success(ConsumerRegistration(b.id, b.consumer.value, b.listener.value))
    else if b.bootstrapServers.None? then Failure(ErrNoBootstrapServers)
    else if b.groupId.None? then Failure(ErrNoGroupId)
    else if |b.topics| == 0 then Failure(ErrNoTopics)
    else if b.keyDeserializer.None? then Failure(ErrNoKeyDeserializer)
    else if b.valueDeserializer.None? then Failure(ErrNoValueDeserializer)
    else
      var props := Utils.ConsumerProps(b.bootstrapServers.value, b.groupId.value,
                                       b.valueDeserializer.value, b.keyDeserializer.value);
      Success(ConsumerRegistration(b.id, CoreConsumer(props, b.topics), b.listener.value))
  }

  /** A fresh builder given only a listener fails on the bootstrap servers, since every other
      field defaults to null or empty. */
  lemma FreshBuilderFailsOnBootstrapServers(id: string, l: ListenerRef)
    ensures Build(SetListener(NewBuilder(id), l)) == Failure(ErrNoBootstrapServers)
  {
  }

  /** The prebuilt consumer short-circuits even when every client field is missing. */
  lemma PrebuiltConsumerSkipsChecks(id: string, c: CoreConsumer, l: ListenerRef)
    ensures Build(SetListener(NewBuilder(id).(consumer := Some(c)), l)) == Success(ConsumerRegistration(id, c, l))
  {
  }
}
