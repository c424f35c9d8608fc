/** TestMqMedia.DispatchMessagePackage as values: which handlers a package reaches, and
    what happens at each of them. */
module Dispatch {
  import opened Results
  import opened Messages
  import opened Package
  import opened Tags
  import opened Registry

  /** What one handler's turn came to. A decode failure and a handler exception are both
      caught and logged; neither reaches the publisher or the next handler. */
  datatype Attempt = Handled(message: Message) | HandlerFailed(message: Message) | DecodeFailed

  datatype Invocation = Invocation(handler: HandlerId, attempt: Attempt)

  /** The tag of the package type's topic-less subscription. */
  function AllTag(package: MessagePackage): string {
    BuildTag(package.messageType, None)
  }

  /** The tag of the package's topic subscription; the sentinel when it has no topic. */
  function TopicTag(package: MessagePackage): string {
    if package.topic.None? then NonExistingTag else BuildTag(package.messageType, package.topic)
  }

  /** The snapshot dispatch iterates: all topic-less handlers, then all topic handlers. */
  function Recipients(table: Table, package: MessagePackage): seq<HandlerId> {
    HandlersOf(Lookup(table, AllTag(package))) + HandlersOf(Lookup(table, TopicTag(package)))
  }

  /** One handler's turn: decode a fresh copy of the message, then invoke the handler. */
  function Deliver(handler: HandlerId, package: MessagePackage, decode: Decoder, invoke: HandlerOracle): (inv: Invocation)
    ensures inv.handler == handler
    ensures inv.attempt.DecodeFailed? <==> decode(package.messageJson, package.messageType).None?
    ensures !inv.attempt.DecodeFailed? ==>
      && Some(inv.attempt.message) == decode(package.messageJson, package.messageType)
      && (inv.attempt.Handled? <==> invoke(handler, inv.attempt.message))
  {
    match decode(package.messageJson, package.messageType)
    case None => Invocation(handler, DecodeFailed)
    case Some(message) =>
      Invocation(handler, if invoke(handler, message) then Handled(message) else HandlerFailed(message))
  }

  /** The turns of a list of handlers, taken one after the other. */
  function DeliverAll(handlers: seq<HandlerId>, package: MessagePackage, decode: Decoder, invoke: HandlerOracle): seq<Invocation>
  {
    if handlers == [] then []
    else DeliverAll(handlers[..|handlers| - 1], package, decode, invoke)
         + [Deliver(handlers[|handlers| - 1], package, decode, invoke)]
  }

  /** The whole dispatch of one package against the registry. */
  function DispatchTrace(table: Table, package: MessagePackage, decode: Decoder, invoke: HandlerOracle): seq<Invocation> {
    DeliverAll(Recipients(table, package), package, decode, invoke)
  }

  /** Every handler gets its turn, in order, whatever happened at the others: a failure
      does not stop its siblings. */
  lemma {:induction false} DeliverAllAt(handlers: seq<HandlerId>, package: MessagePackage, decode: Decoder, invoke: HandlerOracle)
    ensures |DeliverAll(handlers, package, decode, invoke)| == |handlers|
    ensures forall i :: 0 <= i < |handlers| ==>
      DeliverAll(handlers, package, decode, invoke)[i] == Deliver(handlers[i], package, decode, invoke)
  {
    if handlers != [] {
      var init := handlers[..|handlers| - 1];
      DeliverAllAt(init, package, decode, invoke);
      forall i | 0 <= i < |handlers| - 1
        ensures DeliverAll(handlers, package, decode, invoke)[i] == Deliver(handlers[i], package, decode, invoke)
      {
        assert init[i] == handlers[i];
      }
    }
  }

  /** Running two lists one after the other is running their concatenation. */
  lemma {:induction false} DeliverAllAppend(first: seq<HandlerId>, second: seq<HandlerId>, package: MessagePackage, decode: Decoder, invoke: HandlerOracle)
    ensures DeliverAll(first + second, package, decode, invoke)
         == DeliverAll(first, package, decode, invoke) + DeliverAll(second, package, decode, invoke)
  {
    if second == [] {
      assert first + second == first;
    } else {
      var init := second[..|second| - 1];
      assert (first + second)[..|first + second| - 1] == first + init;
      DeliverAllAppend(first, init, package, decode, invoke);
    }
  }

  /** Every key of the registry is a tag BuildTag produced. */
  ghost predicate KeysAreTags(table: Table) {
    forall tag :: tag in table ==> IsTag(tag)
  }

  /** Creating the subscription of a tag keeps the registry keyed by tags only. */
  lemma TouchKeepsTags(table: Table, tag: string)
    requires KeysAreTags(table) && IsTag(tag)
    ensures KeysAreTags(Touch(table, tag))
  {
  }

  /** Replacing the handler list of a registered tag by one with distinct ids keeps the
      registry keyed by tags and well formed. */
  lemma ReplaceKeepsShape(table: Table, tag: string, entries: seq<Entry>)
    requires KeysAreTags(table) && WellFormed(table) && tag in table && UniqueIds(entries)
    ensures KeysAreTags(table[tag := entries]) && WellFormed(table[tag := entries])
  {
  }

  /** A package without a topic looks up the sentinel, which is never a key, so it reaches
      exactly the topic-less handlers of its type. */
  lemma NoTopicReachesOnlyTopicless(table: Table, package: MessagePackage)
    requires KeysAreTags(table) && package.topic.None?
    ensures Recipients(table, package) == HandlersOf(Lookup(table, AllTag(package)))
  {
    if NonExistingTag in table {
      TagIsNotSentinel(NonExistingTag);
    }
    assert Lookup(table, TopicTag(package)) == [];
  }

  /** A package with a non-empty topic reaches the topic-less handlers of its type and then
      the handlers of that topic, two distinct registry entries. */
  lemma TopicReachesBoth(table: Table, package: MessagePackage, topic: string)
    requires package.topic == Some(topic) && topic != ""
    ensures TopicTag(package) != AllTag(package)
    ensures Recipients(table, package)
         == HandlersOf(Lookup(table, AllTag(package))) + HandlersOf(Lookup(table, BuildTag(package.messageType, Some(topic))))
  {
  }

  /** A package whose topic is the empty string looks the topic-less tag up twice, so each
      topic-less handler gets two turns. */
  lemma EmptyTopicDeliversTwice(table: Table, package: MessagePackage)
    requires package.topic == Some("")
    ensures var all := HandlersOf(Lookup(table, AllTag(package)));
      Recipients(table, package) == all + all
  {
    NullTopicIsEmptyTopic(package.messageType);
  }

  /** Handlers registered under any other type, or under another non-empty topic, are
      never reached: rewriting their entry does not change the recipients. */
  lemma OtherKeysIrrelevant(table: Table, package: MessagePackage, messageType: TypeName, topic: Option<string>, entries: seq<Entry>)
    requires PlainTypeName(messageType) && PlainTypeName(package.messageType)
    requires messageType != package.messageType
      || (TopicText(topic) != "" && (package.topic.None? || TopicText(topic) != package.topic.value))
    ensures Recipients(table[BuildTag(messageType, topic) := entries], package) == Recipients(table, package)
  {
    var tag := BuildTag(messageType, topic);
    TagsDiffer(messageType, topic, package.messageType, None);
    if package.topic.None? {
      assert IsTag(tag);
      TagIsNotSentinel(tag);
    } else {
      TagsDiffer(messageType, topic, package.messageType, package.topic);
    }
  }

  /** One topic-less and one topic subscriber of the same type: a package with that topic
      reaches both, first the topic-less one; a package without a topic reaches that one only. */
  lemma TopicAndTopiclessSubscribers(messageType: TypeName, topic: string, json: string, all: HandlerId, topical: HandlerId)
    requires topic != ""
    ensures var table := Register(Register(map[], BuildTag(messageType, None), "1", all), BuildTag(messageType, Some(topic)), "2", topical);
      && Recipients(table, MessagePackage(messageType, json, Some(topic))) == [all, topical]
      && Recipients(table, MessagePackage(messageType, json, None)) == [all]
  {
    var allTag := BuildTag(messageType, None);
    var topicTag := BuildTag(messageType, Some(topic));
    assert |allTag| < |topicTag|;
    var table := Register(Register(map[], allTag, "1", all), topicTag, "2", topical);
    assert Lookup(table, allTag) == [Entry("1", all)];
    assert Lookup(table, topicTag) == [Entry("2", topical)];
    assert HandlersOf([Entry("1", all)]) == [all];
    assert HandlersOf([Entry("2", topical)]) == [topical];
    assert IsTag(allTag) && IsTag(topicTag);
    NoTopicReachesOnlyTopicless(table, MessagePackage(messageType, json, None));
  }
}
