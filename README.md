# TauCode.Mq.Testing in-memory brokers, modelled in Dafny

TauCode.Mq.Testing lets tests publish and subscribe without a real message queue. The
repository holds two revisions of its in-memory broker side by side. They are modelled
separately here.

- **`TestMqMedia`**, the queued, tag-keyed broker (`mq_media.dfy`, on top of `tags.dfy`,
  `registry.dfy`, `dispatch.dfy` and `package.dfy`).
  - Subscriptions are kept in a dictionary keyed by the tag `"[" + type full name + ":" +
    (topic ?? "") + "]"`.
  - Each `MediaSubscription` maps a fresh id to a handler.
  - `Publish` validates its arguments, serializes the message and appends a
    `MessagePackage` to a FIFO queue.
  - Dispatch takes one package and snapshots the topic-less handler list and, when the
    package has a topic, that topic's list. It then runs every handler in order, each
    inside its own try/catch.
  - Disposing a `SubscriptionHandle` removes its own (tag, id) entry once.
- **`TestMessageMedia`**, the older synchronous broker (`message_media.dfy`, on top of
  `message_media_spec.dfy`).
  - Subscriptions are kept in a dictionary keyed by message type.
  - Each `Subscription` holds a null-topic handler list and a topic → handler-list
    dictionary.
  - `Publish` calls the handlers directly, in registration order, with no catch around
    them.

Modelling choices:

- **Null and exceptions.** A C# `null` argument is `None`. A thrown exception is a
  `Failure`/`Fail` value carrying an `Error` (`ArgumentNull`, `Argument`, `Serialization`,
  `DuplicateKey`, `HandlerException`), with the parameter names and messages the source uses.
- **Handlers and their outcome.** A handler is an abstract id, `HandlerId`. Whether invoking
  it completes or throws is given by an oracle `(HandlerId, Message) -> bool`.
- **Serialization.** JSON encoding and decoding are an abstract `Encoder`, which may fail,
  and an abstract `Decoder`, which may fail. The encoder and decoder are fixed per media.
- **Fresh ids.** `Guid.NewGuid()` becomes a `freshId` parameter. A clash with an existing key
  is modelled as the `DuplicateKey` error that `Dictionary.Add` throws. It is not ruled out
  by a precondition.
- **Queue.** The background queue is a `seq<MessagePackage>` field. `DispatchNext` is the
  worker's step: it pops the head and dispatches it.
- **Dispatch trace.** Dispatch returns a trace: one `Invocation` per handler turn, recording
  whether the turn was handled, the handler threw, or decoding failed. This trace replaces
  the logger output.
- **Mutable state.** The source mutates objects in place, so the mutable entities are classes
  (`MediaSubscription`, `TestMqMedia`, `SubscriptionHandle`, `Subscription`,
  `TestMessageMedia`) with `modifies` frames.
- **Value specification.** Each media keeps a ghost value of its registry: `table`, or `view`
  for the older media. Its `Valid()` ties that value to the objects. The operations are
  proved against pure functions over that value (`Register`, `Unregister`, `DispatchTrace`,
  `AddNullTopic`, `AddTopic`, `InvokeInOrder`), and the routing and append-only properties
  are lemmas about those functions.
- **Immutable package.** `MessagePackage` (src/TauCode.Mq.Testing/MessagePackage.cs:5-20)
  is an immutable envelope, so it is the datatype `Package.MessagePackage`. Its three
  fields are stored as given, and `None` as the topic means "no topic". A datatype has no
  contract of its own, so it has no row below; `MqMedia.Prepare` states what a published
  package holds.

Two behaviours of the code deserve mention.

- **Empty-string topic.** `Subscribe(type, handler, topic)` refuses an empty topic, but
  `Publish` takes `message.Topic` unchecked. A message whose topic is `""` therefore gets a
  topic tag equal to the topic-less tag, and every topic-less handler runs twice.
  `EmptyTopicDeliversTwice` states this.
- **Unescaped separator.** The tag does not escape ':'. Keys are therefore distinct only for
  type names without ':', which the C# compiler guarantees for full names.
  `TagsCollideWithoutPlainNames` exhibits a collision when the guarantee fails, and
  `TagInjective` proves injectivity when it holds.

Source paths below are relative to the repository root.

## Model

| member | source | states |
|---|---|---|
| Tags.BuildTag | src/TauCode.Mq.Testing/TestMqMedia.cs:154-159 | the tag is `"[" + type name + ":" + (topic, or "" when null) + "]"`; every tag starts with '[', ends with ']' and is its two parts plus three characters long |
| Tags.NullTopicIsEmptyTopic | src/TauCode.Mq.Testing/TestMqMedia.cs:156 | a null topic and the empty topic give the same tag |
| Tags.TagIsNotSentinel | src/TauCode.Mq.Testing/TestMqMedia.cs:99 | no string BuildTag produces equals the sentinel `"<non_existing_tag>"` |
| Tags.SeparatorPosition | src/TauCode.Mq.Testing/TestMqMedia.cs:158 | for a type name without ':', the first ':' of the tag follows the type name, and the slices around it recover type name and topic |
| Tags.TagInjective | src/TauCode.Mq.Testing/TestMqMedia.cs:154-159 | for type names without ':', equal tags mean equal type names and equal topic texts |
| Tags.TagsDiffer | src/TauCode.Mq.Testing/TestMqMedia.cs:154-159 | distinct (type, topic text) keys with plain type names never share a registry entry |
| Tags.TagsCollideWithoutPlainNames | src/TauCode.Mq.Testing/TestMqMedia.cs:158 | with ':' inside a type name, two different keys give the same tag |
| Registry.Without | src/TauCode.Mq.Testing/TestMqMedia.cs:41-44 | removing an id leaves exactly the other ids and never grows the list |
| Registry.WithoutAbsent | src/TauCode.Mq.Testing/TestMqMedia.cs:41-44 | removing an absent id changes nothing |
| Registry.WithoutPresent | src/TauCode.Mq.Testing/TestMqMedia.cs:41-44 | removing a present id drops exactly the one entry holding it, keeping the order of the rest |
| Registry.WithoutKeeps | src/TauCode.Mq.Testing/TestMqMedia.cs:41-44 | every entry with another id survives a removal |
| Registry.WithoutSubset | src/TauCode.Mq.Testing/TestMqMedia.cs:41-44 | a removal adds no entry |
| Registry.WithoutUnique | src/TauCode.Mq.Testing/TestMqMedia.cs:41-44 | a removal keeps the dictionary's keys distinct |
| Registry.WithoutSplitLast | src/TauCode.Mq.Testing/TestMqMedia.cs:31-44 | removing the id just appended restores the list from before the append |
| Registry.AppendUnique | src/TauCode.Mq.Testing/TestMqMedia.cs:31-37 | adding an entry under a fresh id keeps the keys distinct |
| Registry.IdsOfCons | src/TauCode.Mq.Testing/TestMqMedia.cs:17 | the keys of a list with one more entry in front are that id plus the rest's keys |
| Registry.Touch | src/TauCode.Mq.Testing/TestMqMedia.cs:80-85 | find-or-create adds the tag with no handlers only when absent and leaves every existing entry as it was |
| Registry.TouchWellFormed | src/TauCode.Mq.Testing/TestMqMedia.cs:80-85 | find-or-create keeps every handler dictionary's keys distinct |
| Registry.Register | src/TauCode.Mq.Testing/TestMqMedia.cs:74-90 | subscribing adds the tag if needed and leaves every other tag's entries unchanged |
| Registry.RegisterAfterTouch | src/TauCode.Mq.Testing/TestMqMedia.cs:80-87 | adding the handler after the find-or-create step is the same as registering |
| Registry.RegisterAppendsOne | src/TauCode.Mq.Testing/TestMqMedia.cs:31-37 | a registration under a fresh id appends exactly that handler at the end of its tag's list, adds exactly that id, and keeps the table well formed |
| Registry.Unregister | src/TauCode.Mq.Testing/TestMqMedia.cs:145-152 | unsubscribing keeps the set of tags and leaves every other tag's entries unchanged |
| Registry.RegisterThenUnregister | src/TauCode.Mq.Testing/TestMqMedia.cs:145-152 | unsubscribing with its own id undoes a subscription, except that the created subscription record stays |
| Registry.UnregisterRemovesOnlyOwn | src/TauCode.Mq.Testing/TestMqMedia.cs:145-152 | afterwards the id is gone, every other entry of the tag remains, nothing is added, no tag is removed even when emptied, and the table stays well formed |
| Registry.UnregisterIdempotent | src/TauCode.Mq.Testing/TestMqMedia.cs:145-152 | a second unsubscribe with the same (tag, id) changes nothing |
| Dispatch.Recipients | src/TauCode.Mq.Testing/TestMqMedia.cs:98-116 | the snapshot dispatch iterates: the handlers under `BuildTag(type, null)`, then those under the topic tag, or under the sentinel when the package has no topic; a missing subscription gives no handlers (its properties: NoTopicReachesOnlyTopicless, TopicReachesBoth, EmptyTopicDeliversTwice, OtherKeysIrrelevant) |
| Dispatch.Deliver | src/TauCode.Mq.Testing/TestMqMedia.cs:118-129 | one handler's turn: a decode failure is caught, otherwise the handler is invoked on the decoded copy, and Handled exactly when it completes |
| Dispatch.DeliverAll | src/TauCode.Mq.Testing/TestMqMedia.cs:118-142 | the turns of a handler list, one after the other (its properties: DeliverAllAt, DeliverAllAppend) |
| Dispatch.DispatchTrace | src/TauCode.Mq.Testing/TestMqMedia.cs:96-143 | one package's dispatch: the turns of its recipients in snapshot order (its properties: PublishedMessageReachesRecipients, and DispatchMessagePackage is proved equal to it) |
| Dispatch.DeliverAllAt | src/TauCode.Mq.Testing/TestMqMedia.cs:118-142 | every handler of the snapshot gets its own turn, in order, whatever happened at the others |
| Dispatch.DeliverAllAppend | src/TauCode.Mq.Testing/TestMqMedia.cs:118-142 | the two loops one after the other equal one loop over the concatenated snapshot |
| Dispatch.TouchKeepsTags | src/TauCode.Mq.Testing/TestMqMedia.cs:83-84 | a subscription record is stored under its own tag, so every registry key stays a tag |
| Dispatch.ReplaceKeepsShape | src/TauCode.Mq.Testing/TestMqMedia.cs:31-44 | replacing a registered tag's handler list by one with distinct ids keeps every key a tag and every dictionary's keys distinct |
| Dispatch.NoTopicReachesOnlyTopicless | src/TauCode.Mq.Testing/TestMqMedia.cs:98-104 | a package without a topic reaches exactly the type's topic-less handlers |
| Dispatch.TopicReachesBoth | src/TauCode.Mq.Testing/TestMqMedia.cs:98-116 | a package with a non-empty topic reaches the topic-less handlers, then that topic's, from two distinct entries |
| Dispatch.EmptyTopicDeliversTwice | src/TauCode.Mq.Testing/TestMqMedia.cs:98-116 | a package whose topic is "" reaches the topic-less handlers twice |
| Dispatch.OtherKeysIrrelevant | src/TauCode.Mq.Testing/TestMqMedia.cs:111-115 | for type names without ':', handlers of another type, or of another non-empty topic, never receive the package |
| Dispatch.TopicAndTopiclessSubscribers | test/TauCode.Mq.Testing.Tests/TestMessagePublisherTests.cs:88-138 | with one topic-less and one topic subscriber, a package with the topic reaches both in that order, a package without a topic only the topic-less one |
| MqMedia.Prepare | src/TauCode.Mq.Testing/TestMqMedia.cs:165-183 | Publish fails exactly on a null type, a null message, a runtime-type mismatch or a serializer failure, with the source's exception for each; otherwise the package carries the type, the encoded payload and the message's own topic |
| MqMedia.PublishedMessageReachesRecipients | src/TauCode.Mq.Testing/TestMqMedia.cs:118-142 | with a round-tripping codec, each recipient gets a copy equal to the published message, and is Handled exactly when it completes |
| MqMedia.MediaSubscription.constructor | src/TauCode.Mq.Testing/TestMqMedia.cs:19-25 | stores type and topic, computes the tag with BuildTag, starts with no handlers |
| MqMedia.MediaSubscription.AddHandler | src/TauCode.Mq.Testing/TestMqMedia.cs:31-37 | a fresh id is appended with its handler and returned; an existing id throws and changes nothing |
| MqMedia.MediaSubscription.GetHandlers | src/TauCode.Mq.Testing/TestMqMedia.cs:39 | the snapshot `_handlers.Values.ToList()` holds one handler per entry, in entry order |
| MqMedia.MediaSubscription.RemoveHandler | src/TauCode.Mq.Testing/TestMqMedia.cs:41-44 | returns true exactly when the id was present, and drops that id only |
| MqMedia.TestMqMedia.constructor | src/TauCode.Mq.Testing/TestMqMedia.cs:60-68 | starts with no subscriptions and an empty queue |
| MqMedia.TestMqMedia.SubscribeImpl | src/TauCode.Mq.Testing/TestMqMedia.cs:74-90 | the tag's subscription exists afterwards, every existing MediaSubscription object stays under its tag, and the tag's record is newly allocated only when it had none; under a fresh id exactly one handler is registered and a new, live handle bound to (this, tag, id) is returned; on a clash Dictionary.Add throws after the record was created; queue unchanged |
| MqMedia.TestMqMedia.FindOrCreate | src/TauCode.Mq.Testing/TestMqMedia.cs:80-85 | returns the tag's existing subscription and changes nothing when there is one; otherwise a fresh one, added under its tag with every other entry of the map unchanged |
| MqMedia.TestMqMedia.NewSubscription | src/TauCode.Mq.Testing/TestMqMedia.cs:83-84 | a new, empty subscription is added under its own tag and nothing else changes |
| MqMedia.TestMqMedia.AddTo | src/TauCode.Mq.Testing/TestMqMedia.cs:87 | adding to a registered subscription is `Register` on the registry, or nothing on a clash |
| MqMedia.TestMqMedia.Subscribe | src/TauCode.Mq.Testing/TestMqMedia.cs:186-199 | a null type or handler throws and changes nothing; otherwise SubscribeImpl under `BuildTag(type, null)`, keeping every existing record object |
| MqMedia.TestMqMedia.SubscribeTopic | src/TauCode.Mq.Testing/TestMqMedia.cs:201-219 | a null type or handler, or a null or empty topic, throws with the source's message and changes nothing; otherwise SubscribeImpl under the topic's tag, keeping every existing record object |
| MqMedia.TestMqMedia.Unsubscribe | src/TauCode.Mq.Testing/TestMqMedia.cs:145-152 | the registry becomes `Unregister(tag, id)`, the subscription records and queue are unchanged, and the call is logged |
| MqMedia.TestMqMedia.Publish | src/TauCode.Mq.Testing/TestMqMedia.cs:165-184 | on success exactly one package is appended at the tail of the queue; on every error the queue is unchanged and the error reaches the caller |
| MqMedia.TestMqMedia.DeliverEach | src/TauCode.Mq.Testing/TestMqMedia.cs:118-129 | one foreach loop produces one turn per handler, each caught on its own |
| MqMedia.TestMqMedia.DispatchMessagePackage | src/TauCode.Mq.Testing/TestMqMedia.cs:96-143 | the trace is the topic-less snapshot's turns followed by the topic snapshot's turns, and the registry is not changed |
| MqMedia.TestMqMedia.DispatchNext | src/TauCode.Mq.Testing/TestMqMedia.cs:96-143 | an empty queue does nothing; otherwise the head package is removed and dispatched against the registry |
| MqMedia.SubscriptionHandle.constructor | src/TauCode.Mq.Testing/SubscriptionHandle.cs:18-23 | stores media, tag and id, which are constants thereafter, and starts undisposed |
| MqMedia.SubscriptionHandle.Dispose | src/TauCode.Mq.Testing/SubscriptionHandle.cs:30-39 | the first call unsubscribes its own (tag, id) exactly once and marks the handle disposed; a later call changes nothing |
| MessageMediaSpec.HandledBy | src/TauCode.Mq.Testing/TestMessageMedia.cs:40-63 | the handlers one Handle call runs: the null-topic list, then, with a topic, that topic's list if it has one |
| MessageMediaSpec.Recipients | src/TauCode.Mq.Testing/TestMessageMedia.cs:93-109 | the handlers a publish runs: those of the runtime type's Subscription, none when it has none (its properties: NullTopicSubscriberReached, TopicSubscriberReachedOnlyByTopic, UnsubscribedTypeCallsNothing) |
| MessageMediaSpec.InvokeInOrder | src/TauCode.Mq.Testing/TestMessageMedia.cs:40-63 | handlers run in order until the first that throws: the run is a prefix, throws exactly when some handler throws, is complete when none does, ends at the throwing handler, and every earlier handler completed |
| MessageMediaSpec.InvokeConcat | src/TauCode.Mq.Testing/TestMessageMedia.cs:48-63 | the topic list runs after the null-topic list only when that list did not throw |
| MessageMediaSpec.FirstFailureEndsRun | src/TauCode.Mq.Testing/TestMessageMedia.cs:42-45 | when the first throwing handler is at position i, exactly the first i + 1 handlers were invoked |
| MessageMediaSpec.Reported | src/TauCode.Mq.Testing/TestMessageMedia.cs:42-45 | a publish fails exactly when a handler threw, with that handler's exception |
| MessageMediaSpec.AddNullTopic | src/TauCode.Mq.Testing/TestMessageMedia.cs:124-131 | the registry after Subscribe(type, handler): the type's Subscription, created if absent, with the handler at the end of its null-topic list (its properties: SubscribeIsAppendOnly, NullTopicSubscriberReached) |
| MessageMediaSpec.AddTopic | src/TauCode.Mq.Testing/TestMessageMedia.cs:151-158 | the registry after Subscribe(type, handler, topic): the type's Subscription and that topic's list, each created if absent, with the handler at the end of that list (its properties: SubscribeIsAppendOnly, TopicSubscriberReachedOnlyByTopic) |
| MessageMediaSpec.Touch | src/TauCode.Mq.Testing/TestMessageMedia.cs:124-129 | find-or-create adds an empty Subscription only when the type has none and leaves every other entry as it was |
| MessageMediaSpec.AddAfterTouch | src/TauCode.Mq.Testing/TestMessageMedia.cs:124-131 | adding the handler after the find-or-create step is the same as subscribing |
| MessageMediaSpec.SubscribeIsAppendOnly | src/TauCode.Mq.Testing/TestMessageMedia.cs:23-38 | either Subscribe keeps every existing registration, in order |
| MessageMediaSpec.NullTopicSubscriberReached | src/TauCode.Mq.Testing/TestMessageMedia.cs:112-132 | a topic-less subscriber joins the end of the null-topic list and is reached by publishes with or without a topic |
| MessageMediaSpec.TopicSubscriberReachedOnlyByTopic | src/TauCode.Mq.Testing/TestMessageMedia.cs:134-159 | a topic subscriber joins the end of that topic's list, and the recipients of every other publish, of that type or of any other, are unchanged |
| MessageMediaSpec.UnsubscribedTypeCallsNothing | src/TauCode.Mq.Testing/TestMessageMedia.cs:93-96 | a publish of a type without a subscription invokes nothing |
| MessageMediaSpec.TwoTopicsAndTopicless | tests/TauCode.Mq.Testing.Tests/TestMessageMediaTests.cs:15-44 | with a topic-less subscriber and one per topic, a publish without a topic reaches the topic-less one, and a publish with a topic reaches it and then that topic's subscriber only |
| MessageMedia.Subscription.constructor | src/TauCode.Mq.Testing/TestMessageMedia.cs:14-19 | stores the type and starts with no handlers |
| MessageMedia.Subscription.AddHandler | src/TauCode.Mq.Testing/TestMessageMedia.cs:23-26 | appends to the null-topic list only |
| MessageMedia.Subscription.AddTopicHandler | src/TauCode.Mq.Testing/TestMessageMedia.cs:28-38 | appends to that topic's list, created when absent, and to nothing else |
| MessageMedia.Subscription.Handle | src/TauCode.Mq.Testing/TestMessageMedia.cs:40-46 | runs the null-topic handlers in order, stopping at the first that throws |
| MessageMedia.Subscription.HandleTopic | src/TauCode.Mq.Testing/TestMessageMedia.cs:48-63 | runs the null-topic handlers, then that topic's, in order, stopping at the first that throws |
| MessageMedia.InvokeEach | src/TauCode.Mq.Testing/TestMessageMedia.cs:42-45 | the foreach loop with no catch is `InvokeInOrder` |
| MessageMedia.TestMessageMedia.constructor | src/TauCode.Mq.Testing/TestMessageMedia.cs:76-79 | starts with no subscriptions |
| MessageMedia.TestMessageMedia.PublishTopic | src/TauCode.Mq.Testing/TestMessageMedia.cs:81-97 | a null message, then a null topic, throws and invokes nothing; otherwise the runtime type's null-topic and topic handlers run in order until one throws |
| MessageMedia.TestMessageMedia.Publish | src/TauCode.Mq.Testing/TestMessageMedia.cs:99-110 | a null message throws and invokes nothing; otherwise only the runtime type's null-topic handlers run in order until one throws |
| MessageMedia.TestMessageMedia.FindOrCreate | src/TauCode.Mq.Testing/TestMessageMedia.cs:124-129 | returns the type's existing Subscription and changes nothing when there is one; otherwise a fresh one, added under the type with every other entry of the map unchanged |
| MessageMedia.TestMessageMedia.AddNullTopicTo | src/TauCode.Mq.Testing/TestMessageMedia.cs:131 | the registry becomes `AddNullTopic` of the type and handler, and the map of Subscription objects is unchanged |
| MessageMedia.TestMessageMedia.AddTopicTo | src/TauCode.Mq.Testing/TestMessageMedia.cs:158 | the registry becomes `AddTopic` of the type, handler and topic, and the map of Subscription objects is unchanged |
| MessageMedia.TestMessageMedia.Subscribe | src/TauCode.Mq.Testing/TestMessageMedia.cs:112-132 | a null type, then a null handler, throws and changes nothing, objects included; otherwise the handler is appended to the type's null-topic list, every existing Subscription object is kept, and the type's is new only when it had none |
| MessageMedia.TestMessageMedia.SubscribeTopic | src/TauCode.Mq.Testing/TestMessageMedia.cs:134-159 | a null type, handler or topic throws, in that order, and changes nothing, objects included; otherwise the handler is appended to that topic's list only, every existing Subscription object is kept, and the type's is new only when it had none |

## Left out

- Concurrency. This covers `lock (_lock)`, `async`/`await`, the `MessageQueue` background
  worker, its start and stop, and cancellation. The queue is a sequence, and `DispatchNext`
  is the worker's step taken explicitly.
- JSON serialization. `JsonConvert.SerializeObject` and `DeserializeObject` are an abstract
  encoder and decoder that may fail, and a message's payload is an abstract property map.
- `ILogger.LogError`. The dispatch trace records each caught failure instead.
- `Guid.NewGuid()`. It becomes a caller-supplied `freshId`.
- `TestMqMedia.Dispose`. It only disposes the worker.
- Type identity. A message type is its full name; `Type` equality is name equality.
- `MessageQueue.cs` and `TestMessageSubscriber.cs`, including the consumer-side validation
  and lifecycle in `MessageSubscriberBase`. These are not part of this model.
- `TestMessagePublisher.cs`, `TestMqMediaExtensions.cs` and `ITestMqMedia.cs`. These are a
  forwarder, generic casts and an interface, and are not part of this model.
- Overload names. The C# overloads carry distinct names here:
  - `Subscribe`/`SubscribeTopic` and `Publish`/`PublishTopic` on the media;
  - `AddHandler`/`AddTopicHandler` and `Handle`/`HandleTopic` on `Subscription`.
- MqMedia.MediaSubscription.GetHandlers: `Dictionary.Values` enumeration order is modelled as
  insertion order. .NET does not promise this once entries have been removed.
- MqMedia.TestMqMedia.DispatchMessagePackage: handlers are oracles and cannot re-enter the
  media. The snapshot taken under the lock is therefore not exercised against a subscribe
  or unsubscribe made during dispatch.
- MessageMedia.Subscription.HandleTopic: the topic lists are not snapshotted. Re-entrant
  subscription from inside a handler is not modelled, for the same reason.
- MessageMediaSpec.InvokeInOrder: a handler's outcome is a fixed function of the handler and
  the message, so it cannot depend on the handler's own history or on what earlier handlers
  did. Handler side effects are not modelled. This holds for TestMessageMedia.Publish and
  TestMessageMedia.PublishTopic, and for the dispatch of the queued media. MqMedia.PublishedMessageReachesRecipients
  and Dispatch.EmptyTopicDeliversTwice rely on it.
- MessageMedia.TestMessageMedia.Publish and MessageMedia.TestMessageMedia.PublishTopic: the
  older media passes one mutable message object to every handler, so a mutation by one
  handler is seen by the next. The model hands every handler the same immutable value. It
  therefore does not capture the difference from the queued media, which decodes a fresh
  copy for each handler.
