# ktor-kafka-plugin lifecycle and configuration core, in Dafny

This project models the part of the ktor-kafka-plugin that turns configuration blocks into
Kafka clients and runs them. It covers:

- the consumer builders: both `KafkaKtorConsumerBuilder` variants, the `core` `ConsumerBuilder`
  and the `core` `ProducerBuilder`. They merge the plugin-wide bootstrap servers and group id
  into each client's config, validate it fail-fast, and assemble the client's property map;
- the property maps that `createConsumer` and `createProducer` hand to the Kafka clients;
- the `KtorKafkaConsumer` runner: a compare-and-set `isRunning` flag, one subscribe and one
  launched poll job per start, a poll loop that stops at the first exception, and `cleanup`;
- the `core` `KtorKafkaProducer`: its send guard and `close`;
- the three managers. In each, the first registration of an id wins. The newer consumer
  manager has a launched-job table and a one-shot `stop`; the `core` managers have no guard;
- the two `KtorKafkaPluginConfiguration` classes, which collect the built consumers.

Every operation is a pure function over immutable state records. A Kafka client handle is the
property map it was built from plus a log of the calls made on it: subscriptions, records sent,
close count. A coroutine launch is a recorded job. A poll loop is a function over the finite
sequence of poll results it sees. A thrown exception is a `Failure` carrying the exception's
message.

Modules, one per source file plus shared pieces:

- `Wrappers`: `Option`, `Result`, `Outcome`.
- `Common`: property keys and values, `put`, `putIfAbsent`, `putAll`, and `toMap` over pairs.
- `ConsumerConfigs`: the consumer config record, `configure`, the merge, and validation.
- `KtorConsumerBuilder` and `CoreKtorConsumerBuilder`: the two `KafkaKtorConsumerBuilder`s.
- `Utils`: `createConsumer` and `createProducer`.
- `ConsumerRunner`: `KtorKafkaConsumer`.
- `CoreRegistration`: the `core` registration records.
- `CoreConsumerBuilder`: the `core` `ConsumerBuilder`.
- `ProducerRunner`: `KtorKafkaProducer`.
- `CoreProducerBuilder`: the `core` `ProducerBuilder`.
- `Registry`: first-wins insertion.
- `ConsumerManager`, `CoreConsumerManager`, `CoreProducerManager`: the three managers.
- `PluginConfiguration` and `CorePluginConfiguration`: the two plugin configurations.

Where the code and its own comments disagree, the model follows the code:

- Merge precedence. `requireValidConfig` evaluates `pluginConfig.x ?: config.x`, so a plugin-wide
  value overrides the per-client one. The builder's class doc comment
  (`consumer/builder/KafkaKtorConsumerBuilder.kt:19-20`) calls the plugin values fallbacks; the
  code makes them win. `ConsumerConfigs.Merge` is plugin-wins.
- Extra-property keys in the `core` builder and in `createProducer`. The keys are
  `ConsumerConfig`/`ProducerConfig` objects, not the string constants. In a
  `java.util.Properties` they are never equal to `"bootstrap.servers"` and the like, so these
  extras can never override a base entry. They are modelled as `PropKey.ConfigObject` keys.
  Only the string-keyed extras of the `consumer.builder` variant can override base entries.
- `core` `property()`. `config.extraProperties.plus(props)` discards its result, so the call
  changes nothing. `CoreKtorConsumerBuilder.Property` is the identity.

## Model

| member | source | states |
|---|---|---|
| Common.PutIfAbsent | src/main/kotlin/com/fsociety/ktor/kafka/consumer/builder/KafkaKtorConsumerBuilder.kt:86 | the key is added with the given value only when absent; an existing value and every other entry are kept |
| Common.PutAll | src/main/kotlin/com/fsociety/ktor/kafka/consumer/builder/KafkaKtorConsumerBuilder.kt:87 | every extra entry is present with its value, and every other entry keeps its earlier value |
| Common.PutPairs | src/main/kotlin/com/fsociety/ktor/kafka/consumer/builder/KafkaKtorConsumerBuilder.kt:40-42 | `pairs.toMap()` merged in: the key set is the old keys plus the paired keys, the last pair for a key wins, and unpaired keys keep their values |
| ConsumerConfigs.Configure | src/main/kotlin/com/fsociety/ktor/kafka/consumer/builder/KafkaKtorConsumerBuilder.kt:28-30 | a `configure` block changes exactly the fields it assigns, to the values assigned; every other field keeps its value |
| ConsumerConfigs.ConfigureTwice | src/main/kotlin/com/fsociety/ktor/kafka/consumer/builder/KafkaKtorConsumerBuilder.kt:28-30 | two `configure` blocks in a row equal one block doing both, the later assignment winning per field |
| ConsumerConfigs.Merge | src/main/kotlin/com/fsociety/ktor/kafka/consumer/builder/KafkaKtorConsumerBuilder.kt:58-61 | a plugin-wide bootstrap servers or group id that is set replaces the client's, an unset one leaves the client's; no other field changes |
| ConsumerConfigs.MergeIdempotent | src/main/kotlin/com/fsociety/ktor/kafka/consumer/builder/KafkaKtorConsumerBuilder.kt:45 | merging an already merged config changes nothing, so storing the merged config back is harmless |
| ConsumerConfigs.PluginValueWins | src/main/kotlin/com/fsociety/ktor/kafka/consumer/builder/KafkaKtorConsumerBuilder.kt:58-61 | with plugin-wide and per-client bootstrap servers and group id all set, the merged config holds the plugin's values |
| ConsumerConfigs.Validate | src/main/kotlin/com/fsociety/ktor/kafka/consumer/builder/KafkaKtorConsumerBuilder.kt:68-78 | each of the five error messages is reported exactly when its field is the first missing one, in source order; validation passes exactly when all five are present |
| ConsumerConfigs.RequireValidConfig | src/main/kotlin/com/fsociety/ktor/kafka/consumer/builder/KafkaKtorConsumerBuilder.kt:57-66 | returns the merged config when it is complete and otherwise fails with the validation message of the merged config |
| ConsumerConfigs.ClientProperties | src/main/kotlin/com/fsociety/ktor/kafka/consumer/builder/KafkaKtorConsumerBuilder.kt:80-89 | the keys are the four base keys, `auto.offset.reset` and the extras; an extra always wins, and otherwise each base key holds its value and `auto.offset.reset` is `earliest` |
| ConsumerRunner.StartListening | src/main/kotlin/com/fsociety/ktor/kafka/consumer/KtorKafkaConsumer.kt:33-48 | on a running consumer nothing changes; otherwise the flag is set, the handle is subscribed once to the topics, and one new job is launched |
| ConsumerRunner.StopListening | src/main/kotlin/com/fsociety/ktor/kafka/consumer/KtorKafkaConsumer.kt:50-54 | the flag is cleared and the job, if any, is cancelled; the handle is never touched |
| ConsumerRunner.ProcessRecords | src/main/kotlin/com/fsociety/ktor/kafka/consumer/KtorKafkaConsumer.kt:56-63 | the loop ends with an exception exactly when some iteration's poll or listener call threw; otherwise the listener has seen every polled record, batch after batch, in poll order |
| ConsumerRunner.ProcessRecordsStopsAtFirstThrow | src/main/kotlin/com/fsociety/ktor/kafka/consumer/KtorKafkaConsumer.kt:56-63 | after an exception the listener has seen exactly the records before the first throwing iteration, plus those that iteration reached; in every case a prefix of the polled records |
| ConsumerRunner.RunJob | src/main/kotlin/com/fsociety/ktor/kafka/consumer/KtorKafkaConsumer.kt:39-47 | a job polls only while the flag is set; however the loop ends, the handle is closed exactly once and the flag cleared; the listener sees a prefix of the polled records, all of them unless some step threw, and an error is logged exactly when some step threw |
| ConsumerRunner.StartIsIdempotent | src/main/kotlin/com/fsociety/ktor/kafka/consumer/KtorKafkaConsumer.kt:34-37 | a second `startListening` changes nothing: one subscription and one job per start |
| ConsumerRunner.StopIsIdempotent | src/main/kotlin/com/fsociety/ktor/kafka/consumer/KtorKafkaConsumer.kt:50-54 | a second `stopListening` changes nothing, and stopping never closes the handle |
| ConsumerRunner.RestartAfterJobExit | src/main/kotlin/com/fsociety/ktor/kafka/consumer/KtorKafkaConsumer.kt:65-68 | once a job has ended, `cleanup` has cleared the flag, so a new `startListening` subscribes again and launches a second job |
| ConsumerRunner.EndToEndScenario | src/main/kotlin/com/fsociety/ktor/kafka/consumer/KtorKafkaConsumer.kt:33-68 | started twice, a job that polls one batch of two records, then stopped twice: the listener sees both records in order, no error is logged, the handle is subscribed once and closed once, one job was launched, and the consumer ends stopped |
| KtorConsumerBuilder.Configure | src/main/kotlin/com/fsociety/ktor/kafka/consumer/builder/KafkaKtorConsumerBuilder.kt:28-30 | only the config changes, by the block's assignments |
| KtorConsumerBuilder.Property | src/main/kotlin/com/fsociety/ktor/kafka/consumer/builder/KafkaKtorConsumerBuilder.kt:36-38 | the extras become old extras plus the new ones, new values winning on shared keys; nothing else in the config changes |
| KtorConsumerBuilder.PropertyPairs | src/main/kotlin/com/fsociety/ktor/kafka/consumer/builder/KafkaKtorConsumerBuilder.kt:40-42 | the last pair for a key wins over earlier pairs and over an earlier value; unpaired keys are kept; no other key appears |
| KtorConsumerBuilder.NamedKeys | src/main/kotlin/com/fsociety/ktor/kafka/consumer/builder/KafkaKtorConsumerBuilder.kt:87 | string-keyed extras become exactly the named property keys, with their values |
| KtorConsumerBuilder.CreateKafkaConsumerProps | src/main/kotlin/com/fsociety/ktor/kafka/consumer/builder/KafkaKtorConsumerBuilder.kt:80-89 | the client's property keys, and every value: the extras under their names, and the bootstrap servers, group id, both deserializers and `earliest` unless a string extra of the same name overrides it |
| KtorConsumerBuilder.Build | src/main/kotlin/com/fsociety/ktor/kafka/consumer/builder/KafkaKtorConsumerBuilder.kt:44-55 | a config failure leaves the builder as it was and names the first missing field. Otherwise the merged config is stored. The listener error occurs exactly when the config is complete and no listener is set. A spec carries the id, the listener, and an idle runner on the configured topics with the client properties |
| KtorConsumerBuilder.BuildAgain | src/main/kotlin/com/fsociety/ktor/kafka/consumer/builder/KafkaKtorConsumerBuilder.kt:44-46 | building the builder that `build` left behind gives the same builder and outcome again |
| KtorConsumerBuilder.ApplySteps | src/main/kotlin/com/fsociety/ktor/kafka/consumer/builder/KafkaKtorConsumerBuilder.kt:22-26 | no call of a consumer block can change the plugin values the builder was constructed with |
| KtorConsumerBuilder.BuilderTestCases | src/test/kotlin/com/fsociety/ktor/kafka/consumer/builder/KafkaKtorConsumerBuilderTest.kt:13-92 | the six test cases: each missing field, the missing listener, and the successful build |
| Utils.ConsumerProps | src/main/kotlin/com/fsociety/ktor/kafka/common/utils/Utils.kt:17-34 | exactly five entries: the four arguments under their keys and `auto.offset.reset` = `earliest` |
| Utils.ConsumerPropsAgreeWithBuilder | src/main/kotlin/com/fsociety/ktor/kafka/common/utils/Utils.kt:23-32 | `createConsumer`'s map equals the builder's client map with no extras |
| Utils.LastValueObjectPairs | src/main/kotlin/com/fsociety/ktor/kafka/common/utils/Utils.kt:40-48 | keying the pairs by config objects keeps the last value per object and gives no string key a value |
| Utils.ProducerProps | src/main/kotlin/com/fsociety/ktor/kafka/common/utils/Utils.kt:36-51 | the three base entries always hold their arguments; each extra object key holds the last value given for it; no other key appears |
| Utils.ProducerPropsWithoutExtras | src/main/kotlin/com/fsociety/ktor/kafka/common/utils/Utils.kt:42-45 | without extras the map has exactly the three base keys |
| CoreKtorConsumerBuilder.Configure | src/main/kotlin/com/fsociety/ktor/kafka/core/builder/KafkaKtorConsumerBuilder.kt:18-20 | only the config changes, by the block's assignments |
| CoreKtorConsumerBuilder.Property | src/main/kotlin/com/fsociety/ktor/kafka/core/builder/KafkaKtorConsumerBuilder.kt:26-28 | the builder is unchanged: the merged map is discarded |
| CoreKtorConsumerBuilder.ObjectKeys | src/main/kotlin/com/fsociety/ktor/kafka/core/builder/KafkaKtorConsumerBuilder.kt:73 | object-keyed extras become exactly the config-object property keys, with their values |
| CoreKtorConsumerBuilder.CreateKafkaConsumerProps | src/main/kotlin/com/fsociety/ktor/kafka/core/builder/KafkaKtorConsumerBuilder.kt:66-75 | the base values and `earliest` always hold, since no object key equals a base key; every extra appears under its object key |
| CoreKtorConsumerBuilder.Build | src/main/kotlin/com/fsociety/ktor/kafka/core/builder/KafkaKtorConsumerBuilder.kt:30-41 | same validation, storing and listener order as the newer builder; a registration carries the id, the listener, the topics and the client properties |
| CoreKtorConsumerBuilder.ClientObjectKeysAreExtras | src/main/kotlin/com/fsociety/ktor/kafka/core/builder/KafkaKtorConsumerBuilder.kt:66-75 | a built client's object keys are exactly the builder's extra-property keys, with their values |
| CoreKtorConsumerBuilder.PropertyIsLost | src/main/kotlin/com/fsociety/ktor/kafka/core/builder/KafkaKtorConsumerBuilder.kt:26-28 | building after `property(props)` equals building without it, and no key of `props` that was not already an extra reaches the client |
| CoreKtorConsumerBuilder.ApplySteps | src/main/kotlin/com/fsociety/ktor/kafka/core/builder/KafkaKtorConsumerBuilder.kt:11-14 | no call of a consumer block can change the plugin values |
| CoreConsumerBuilder.Build | src/main/kotlin/com/fsociety/ktor/kafka/core/builder/ConsumerBuilder.kt:28-67 | the listener is checked first. A prebuilt consumer is then returned as is. Otherwise each message is reported exactly when its field is the first missing one. Success holds exactly when a listener is set and either a prebuilt consumer or all client fields are present, and carries `createConsumer`'s map |
| CoreConsumerBuilder.FreshBuilderFailsOnBootstrapServers | src/main/kotlin/com/fsociety/ktor/kafka/core/builder/ConsumerBuilder.kt:14-39 | a fresh builder with only a listener fails on the bootstrap servers |
| CoreConsumerBuilder.PrebuiltConsumerSkipsChecks | src/main/kotlin/com/fsociety/ktor/kafka/core/builder/ConsumerBuilder.kt:33-35 | with a listener and a prebuilt consumer the registration is that consumer, whatever else is missing |
| ProducerRunner.SendRecord | src/main/kotlin/com/fsociety/ktor/kafka/core/producer/KtorKafkaProducer.kt:46-58 | as written: a closed producer drops the record; an open one is marked closed and hands the record to the handle, logging a handle failure |
| ProducerRunner.Send | src/main/kotlin/com/fsociety/ktor/kafka/core/producer/KtorKafkaProducer.kt:21-24 | an open producer sends a keyless record on its topic; a closed one drops it |
| ProducerRunner.SendKeyed | src/main/kotlin/com/fsociety/ktor/kafka/core/producer/KtorKafkaProducer.kt:26-29 | an open producer sends a keyed record on its topic; a closed one drops it |
| ProducerRunner.Close | src/main/kotlin/com/fsociety/ktor/kafka/core/producer/KtorKafkaProducer.kt:60-64 | the producer is marked closed, the handle is closed once more, and the scope is cancelled; sent records are kept |
| ProducerRunner.RunKeepsAtMostOneSent | src/main/kotlin/com/fsociety/ktor/kafka/core/producer/KtorKafkaProducer.kt:47-50 | the invariant that an open producer has sent nothing and a closed one at most one record survives every call |
| ProducerRunner.AtMostOneRecordEverSent | src/main/kotlin/com/fsociety/ktor/kafka/core/producer/KtorKafkaProducer.kt:19-58 | as written, a new producer hands at most one record to Kafka over any sequence of calls |
| ProducerRunner.NothingSentOnceClosed | src/main/kotlin/com/fsociety/ktor/kafka/core/producer/KtorKafkaProducer.kt:47-50 | once closed, no sequence of calls sends another record and the producer stays closed |
| ProducerRunner.EveryCloseClosesHandle | src/main/kotlin/com/fsociety/ktor/kafka/core/producer/KtorKafkaProducer.kt:60-64 | `close` has no guard: the handle's close count grows by exactly the number of `close` calls |
| ProducerRunner.SecondSendDropped | src/main/kotlin/com/fsociety/ktor/kafka/core/producer/KtorKafkaProducer.kt:47 | two sends on a new producer: the first is dispatched, the second is dropped |
| ProducerRunner.SendRecordIntended | src/main/kotlin/com/fsociety/ktor/kafka/core/producer/KtorKafkaProducer.kt:47-50 | corrected guard: an open producer sends every record and stays open; a closed one drops it |
| ProducerRunner.IntendedSendsEveryRecord | src/main/kotlin/com/fsociety/ktor/kafka/core/producer/KtorKafkaProducer.kt:21-58 | with the corrected guard and no `close`, the handle receives exactly the records of all sends, in order |
| ProducerRunner.IntendedNothingSentAfterClose | src/main/kotlin/com/fsociety/ktor/kafka/core/producer/KtorKafkaProducer.kt:47-64 | with the corrected guard, nothing is sent after `close` |
| CoreProducerBuilder.Build | src/main/kotlin/com/fsociety/ktor/kafka/core/builder/ProducerBuilder.kt:22-54 | a prebuilt producer is returned as is. Otherwise each message is reported exactly when its field is the first missing one, in source order. A built producer is open on the topic, with `createProducer`'s map and no extras |
| CoreProducerBuilder.FreshBuilderFailsOnValueSerializer | src/main/kotlin/com/fsociety/ktor/kafka/core/builder/ProducerBuilder.kt:13-33 | a fresh builder fails on the value serializer, and with only that set it fails on the key serializer |
| Registry.Insert | src/main/kotlin/com/fsociety/ktor/kafka/consumer/manager/KtorKafkaConsumerManager.kt:29-36 | an absent id is added; a present id leaves the map unchanged; the size grows by one exactly when the id was absent |
| Registry.InsertAllKeepsEarlier | src/main/kotlin/com/fsociety/ktor/kafka/consumer/manager/KtorKafkaConsumerManager.kt:29-36 | a series of insertions adds exactly the inserted ids and never changes the value of an id already present |
| Registry.FirstRegistrationWins | src/main/kotlin/com/fsociety/ktor/kafka/consumer/manager/KtorKafkaConsumerManager.kt:29-36 | after any series of insertions, an id that was not present holds the value of its first insertion; later duplicates are dropped |
| ConsumerManager.Register | src/main/kotlin/com/fsociety/ktor/kafka/consumer/manager/KtorKafkaConsumerManager.kt:29-36 | a duplicate id changes nothing; a new id adds its wrapper and grows the registry by one |
| ConsumerManager.Start | src/main/kotlin/com/fsociety/ktor/kafka/consumer/manager/KtorKafkaConsumerManager.kt:38-46 | only consumers without a job are started, once each; afterwards every consumer has a job |
| ConsumerManager.Stop | src/main/kotlin/com/fsociety/ktor/kafka/consumer/manager/KtorKafkaConsumerManager.kt:48-70 | only the first call acts: it stops every consumer once and cancels every job once. A failing cancellation is recorded, not thrown. The job table is emptied |
| ConsumerManager.StartIsIdempotent | src/main/kotlin/com/fsociety/ktor/kafka/consumer/manager/KtorKafkaConsumerManager.kt:41-44 | a second `start` changes nothing |
| ConsumerManager.StopIsOneShot | src/main/kotlin/com/fsociety/ktor/kafka/consumer/manager/KtorKafkaConsumerManager.kt:49-52 | a second `stop` changes nothing, whatever would fail |
| ConsumerManager.RegistryOnlyGrows | src/main/kotlin/com/fsociety/ktor/kafka/consumer/manager/KtorKafkaConsumerManager.kt:24-70 | no sequence of calls removes a consumer |
| ConsumerManager.StoppedStaysStopped | src/main/kotlin/com/fsociety/ktor/kafka/consumer/manager/KtorKafkaConsumerManager.kt:49-52 | once stopped, the manager stays stopped and never stops a consumer again |
| ConsumerManager.StartAfterStopRelaunches | src/main/kotlin/com/fsociety/ktor/kafka/consumer/manager/KtorKafkaConsumerManager.kt:38-69 | `start` ignores `isStopped`: after the effective stop, a `start` starts every consumer again |
| ConsumerManager.ManagerTestScenario | src/test/kotlin/com/fsociety/ktor/kafka/consumer/manager/KtorKafkaConsumerManagerTest.kt:14-41 | register twice, start, stop twice: one consumer, started once, stopped once, no jobs left |
| CoreConsumerManager.Create | src/main/kotlin/com/fsociety/ktor/kafka/core/consumer/manager/KtorKafkaConsumerManager.kt:13-24 | a present id changes nothing; an absent id is added with its consumer and listener |
| CoreConsumerManager.OneEntryPerId | src/main/kotlin/com/fsociety/ktor/kafka/core/consumer/manager/KtorKafkaConsumerManager.kt:13-24 | after any series of `create` calls there is one entry per distinct id, the first one created |
| CoreConsumerManager.StartAll | src/main/kotlin/com/fsociety/ktor/kafka/core/consumer/manager/KtorKafkaConsumerManager.kt:26-34 | every registered consumer is launched once more, on every call |
| CoreConsumerManager.StopAll | src/main/kotlin/com/fsociety/ktor/kafka/core/consumer/manager/KtorKafkaConsumerManager.kt:36-42 | every registered consumer is stopped once more, on every call |
| CoreConsumerManager.NoGuard | src/main/kotlin/com/fsociety/ktor/kafka/core/consumer/manager/KtorKafkaConsumerManager.kt:26-42 | two `startAll` calls launch each consumer twice, and two `stopAll` calls stop each twice |
| CoreProducerManager.Create | src/main/kotlin/com/fsociety/ktor/kafka/core/registration/manager/KtorKafkaProducerManager.kt:10-20 | a present id changes nothing; an absent id is added and the size grows by one |
| CoreProducerManager.OneProducerPerId | src/main/kotlin/com/fsociety/ktor/kafka/core/registration/manager/KtorKafkaProducerManager.kt:10-20 | after any series of `create` calls, each new id holds the first producer created under it |
| CoreProducerManager.CloseAll | src/main/kotlin/com/fsociety/ktor/kafka/core/registration/manager/KtorKafkaProducerManager.kt:22-27 | every producer is closed, and no entry is removed |
| CoreProducerManager.CloseAllTwice | src/main/kotlin/com/fsociety/ktor/kafka/core/registration/manager/KtorKafkaProducerManager.kt:22-27 | a second `closeAll` closes every handle again: two more closes per producer |
| CoreProducerManager.NothingSentAfterCloseAll | src/main/kotlin/com/fsociety/ktor/kafka/core/registration/manager/KtorKafkaProducerManager.kt:22-27 | after `closeAll`, no sequence of calls makes a registered producer send |
| PluginConfiguration.TryGetString | src/main/kotlin/com/fsociety/ktor/kafka/config/KtorKafkaPluginConfiguration.kt:24-25 | a value is found exactly when the path is present, and it is the value at that path |
| PluginConfiguration.FromApplicationConfig | src/main/kotlin/com/fsociety/ktor/kafka/config/KtorKafkaPluginConfiguration.kt:21-29 | the plugin values are those at `bootstrap_servers` and `groupId`, and no consumer is registered |
| PluginConfiguration.Append | src/main/kotlin/com/fsociety/ktor/kafka/config/KtorKafkaPluginConfiguration.kt:37 | a built spec is appended and nothing else changes; a build failure leaves the configuration unchanged |
| PluginConfiguration.ConsumerAllAppendsInOrder | src/main/kotlin/com/fsociety/ktor/kafka/config/KtorKafkaPluginConfiguration.kt:31-38 | when every block builds, the earlier registrations are kept and one spec per block follows, in block order |
| PluginConfiguration.ConsumerAllFirstFailure | src/main/kotlin/com/fsociety/ktor/kafka/config/KtorKafkaPluginConfiguration.kt:31-38 | the first block that does not build ends the series with that block's error |
| PluginConfiguration.PluginBootstrapServersWin | src/main/kotlin/com/fsociety/ktor/kafka/config/KtorKafkaPluginConfiguration.kt:32-36 | a plugin-wide bootstrap servers value reaches the built client, whatever the block configures, unless a string extra names `bootstrap.servers` |
| CorePluginConfiguration.NewBuilder | src/main/kotlin/com/fsociety/ktor/kafka/plugin/config/KtorKafkaPluginConfiguration.kt:13-17 | the plugin values are those at `ktor.kafka.bootstrap_servers` and `ktor.kafka.groupId`, and no consumer is registered |
| CorePluginConfiguration.Consumer | src/main/kotlin/com/fsociety/ktor/kafka/plugin/config/KtorKafkaPluginConfiguration.kt:19-27 | a registration is added exactly when the block builds; a failure leaves the builder unchanged |
| CorePluginConfiguration.Build | src/main/kotlin/com/fsociety/ktor/kafka/plugin/config/KtorKafkaPluginConfiguration.kt:29-31 | the configuration's registrations are those added so far |
| CorePluginConfiguration.BuiltConfigurationIsSnapshot | src/main/kotlin/com/fsociety/ktor/kafka/plugin/config/KtorKafkaPluginConfiguration.kt:29-31 | a configuration built earlier is a strict prefix of one built after another `consumer` call |
| CorePluginConfiguration.BootstrapServersReadAtCallTime | src/main/kotlin/com/fsociety/ktor/kafka/plugin/config/KtorKafkaPluginConfiguration.kt:16-27 | reassigning the bootstrap servers keeps earlier registrations and gives the next registration the new value |

## Left out

- Kafka client construction and I/O. `KafkaConsumer(props)`, `KafkaProducer(props)`, and real
  subscribe, poll, send and close are not modelled. A handle is its property map plus a log of
  calls. Poll results are a finite sequence given as a parameter, and the 100 ms poll timeout
  does not appear.
- Coroutines and concurrency. `launch`, `cancel`, `cancelAndJoin`, dispatchers and the
  thread-safety of `ConcurrentHashMap` and `AtomicBoolean` are not modelled. Each
  compare-and-set is a sequential guard. A job launched by the newer manager runs at once and
  calls `startListening`, as it does on an unconfined dispatcher. Whether a cancellation
  throws is a parameter.
- ConsumerRunner.RunJob: the loop is modelled from the poll iterations it actually performs,
  each of which saw `isRunning` set. A `stopListening` that arrives while the loop runs is seen
  as the end of that sequence. A job cancelled by `stopListening` before it is dispatched never
  runs its body, so its `finally` never runs and the handle is never closed; that case is not
  modelled, and `RunJob` always closes the handle once. The job catches only `Exception`: every
  throwing step is modelled as one, logged and swallowed. A listener or poll that throws an
  `Error` (an `AssertionError`, a `NotImplementedError` from `TODO()`) is not modelled. In the
  program such a throw is not logged; `finally` still closes the handle, the `Error` escapes the
  job and cancels the consumer's own scope, and every later `startListening` sets the flag but
  launches a job that never runs.
- ProducerRunner.SendRecord: `send` hands the record to the client inside a launched coroutine.
  A `close()` that cancels the scope before that coroutine is dispatched drops the record. The
  model appends the record to the handle's sent log at the time of the call.
- ConsumerRunner.RestartAfterJobExit: the real Kafka client throws `IllegalStateException` on
  `subscribe` after `close`, so in the program the second `startListening` leaves `isRunning`
  set with no job. The abstract handle accepts any call, so the lemma shows only the flag logic
  of the source.
- ConsumerManager.StartAfterStopRelaunches: the same gap. A relaunched job calls
  `startListening` on a consumer whose handle its earlier job has closed, which the real client
  refuses. The lemma states what the manager code itself does.
- CoreKtorConsumerBuilder.ClientObjectKeysAreExtras: the real `KafkaConsumer(Properties)`
  rejects a property map with non-string keys, so a `core` build with any `ConsumerConfig`-keyed
  extra throws when the client is constructed. The lemma describes the map the source hands to
  the client. The same holds for `Utils.ProducerProps` with `ProducerConfig`-keyed extras.
- Object identity. Producers and consumers are values. One object registered under two ids
  becomes two independent copies, so `CoreProducerManager.CloseAll` closes each copy once, where
  the program would close the one shared producer twice per call. The same holds for the
  consumer managers.
- `src/main/kotlin/com/fsociety/ktor/kafka/core/consumer/KtorKafkaConsumer.kt` is not part of
  this model. A `core` consumer is only the property map and topics it was built with, and
  `CoreConsumerManager` records `startListening` and `stopListening` calls instead of running
  them.
- The producer's completion callback and every log line: logging has no effect on state. The
  newer manager records failed job cancellations as a set instead of logging them.
- Random ids. `UUID.randomUUID()` is an `id` parameter of every builder constructor.
- Ktor glue. The plugin hooks, `KafkaRegistrationHandler` and the JSON serializers are not
  modelled. `ApplicationConfig` and `ApplicationEnvironment` are a map from path to string.
- Listeners, deserializers and serializers are opaque names, `ListenerRef` and `ClassRef`.
  Record keys and values are type parameters.
- PluginConfiguration.Consumer, CorePluginConfiguration.Consumer: a block is the list of builder
  calls it makes (`configure`, `listener`, `property`). Arbitrary Kotlin code in a block is not
  modelled.

## Findings

| source | as written | input that shows it | evidently intended | confidence | as-written member | corrected member |
|---|---|---|---|---|---|---|
| src/main/kotlin/com/fsociety/ktor/kafka/core/producer/KtorKafkaProducer.kt:47 | `send` guards with `isClose.compareAndSet(false, true)`, so the first send also marks the producer closed | two `send` calls on a new producer: the first record is dispatched, the second is dropped with "Producer is closed" | drop only when already closed (a plain read of `isClose`), so every send on an open producer is dispatched | high; not executed | ProducerRunner.SecondSendDropped | ProducerRunner.IntendedSendsEveryRecord |
