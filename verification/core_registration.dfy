/** The registration records of the `core` packages (`common.model.KafkaRegistration`). */
module CoreRegistration {
  import opened Common

  /** A `core.consumer.KtorKafkaConsumer`. That class is not part of this model: a consumer is
      the property map its handle was built from and its topics. */
  datatype CoreConsumer = CoreConsumer(props: Props, topics: seq<string>)

  /** `KtorKafkaConsumerRegistration`. */
  datatype ConsumerRegistration = ConsumerRegistration(id: string, consumer: CoreConsumer, listener: ListenerRef)
}
