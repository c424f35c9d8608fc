/** TestMqMedia: the queued broker. Subscriptions are kept per tag, each a
    MediaSubscription whose handler dictionary maps a fresh id to a callback; Publish
    validates, encodes and enqueues a MessagePackage; dispatch takes one package and runs
    every matching handler, each inside its own try/catch. SubscriptionHandle lives here
    too, since it and the media refer to each other. */
module MqMedia {
  import opened Results
  import opened Messages
  import opened Package
  import opened Tags
  import opened Registry
  import opened Dispatch

  /** Publish's checks and encoding, in the order the source makes them. */
  function Prepare(messageType: Option<TypeName>, message: Option<Message>, encode: Encoder): (r: Result<MessagePackage, Error>)
    ensures r.Failure? <==>
      || messageType.None? || message.None?
      || message.value.runtimeType != messageType.value
      || encode(message.value).Failure?
    ensures messageType.None? ==> r == Failure(ArgumentNull("messageType"))
    ensures messageType.Some? && message.None? ==> r == Failure(ArgumentNull("message"))
    ensures messageType.Some? && message.Some? && message.value.runtimeType != messageType.value ==>
      r == Failure(Argument("Message type mismatch", "message"))
    ensures messageType.Some? && message.Some? && message.value.runtimeType == messageType.value
            && encode(message.value).Failure? ==>
      r == Failure(Serialization(encode(message.value).error))
    ensures r.Success? ==>
      && r.value.messageType == messageType.value == message.value.runtimeType
      && Success(r.value.messageJson) == encode(message.value)
      && r.value.topic == message.value.topic
  {
    if messageType.None? then Failure(ArgumentNull("messageType"))
    else if message.None? then Failure(ArgumentNull("message"))
    else if message.value.runtimeType != messageType.value then Failure(Argument("Message type mismatch", "message"))
    else match encode(message.value)
      case Failure(reason) => Failure(Serialization(reason))
      case Success(json) => Success(MessagePackage(messageType.value, json, message.value.topic))
  }

  /** The serializer and deserializer agree: whatever encodes decodes back to itself. */
  ghost predicate RoundTrips(encode: Encoder, decode: Decoder) {
    forall m :: encode(m).Success? ==> decode(encode(m).value, m.runtimeType) == Some(m)
  }

  /** With a round-tripping codec, every handler a published message reaches is handed a
      copy equal to that message, and Handled exactly when the handler completes. */
  lemma PublishedMessageReachesRecipients(
      table: Table, messageType: TypeName, message: Message, encode: Encoder, decode: Decoder, invoke: HandlerOracle)
    requires RoundTrips(encode, decode)
    requires Prepare(Some(messageType), Some(message), encode).Success?
    ensures var package := Prepare(Some(messageType), Some(message), encode).value;
      var recipients := Recipients(table, package);
      var trace := DispatchTrace(table, package, decode, invoke);
      && |trace| == |recipients|
      && forall i :: 0 <= i < |trace| ==>
        && trace[i].handler == recipients[i]
        && trace[i].attempt == (if invoke(recipients[i], message) then Handled(message) else HandlerFailed(message))
  {
    var package := Prepare(Some(messageType), Some(message), encode).value;
    assert decode(package.messageJson, package.messageType) == Some(message);
    DeliverAllAt(Recipients(table, package), package, decode, invoke);
  }

  /** TestMqMedia.MediaSubscription: one subscription key and its handler dictionary. */
  class MediaSubscription {
    const messageType: TypeName
    const topic: Option<string>
    const tag: string
    var entries: seq<Entry>

    ghost predicate Valid()
      reads this
    {
      UniqueIds(entries)
    }

    constructor (messageType: TypeName, topic: Option<string>)
      ensures Valid()
      ensures this.messageType == messageType && this.topic == topic && tag == BuildTag(messageType, topic)
      ensures entries == []
    {
      this.messageType := messageType;
      this.topic := topic;
      this.tag := BuildTag(messageType, topic);
      entries := [];
    }

    /** `_handlers.Add(id, handler)`, with `id` standing for the new Guid; an id already
        present throws, as Dictionary.Add does. */
    method AddHandler(id: string, handler: HandlerId) returns (r: Result<string, Error>)
      requires Valid()
      modifies this
      ensures Valid()
      ensures id in IdsOf(old(entries)) ==> r == Failure(DuplicateKey(id)) && entries == old(entries)
      ensures id !in IdsOf(old(entries)) ==> r == Success(id) && entries == old(entries) + [Entry(id, handler)]
    {
      if id in IdsOf(entries) {
        return Failure(DuplicateKey(id));
      }
      AppendUnique(entries, Entry(id, handler));
      entries := entries + [Entry(id, handler)];
      r := Success(id);
    }

    /** A copy of the callbacks, in enumeration order. */
    function GetHandlers(): (handlers: seq<HandlerId>)
      reads this
      ensures |handlers| == |entries|
      ensures forall i :: 0 <= i < |entries| ==> handlers[i] == entries[i].handler
    {
      HandlersOf(entries)
    }

    /** `_handlers.Remove(id)`: true when the id was there. */
    method RemoveHandler(id: string) returns (removed: bool)
      requires Valid()
      modifies this
      ensures Valid()
      ensures removed <==> id in IdsOf(old(entries))
      ensures entries == Without(old(entries), id)
    {
      removed := id in IdsOf(entries);
      WithoutUnique(entries, id);
      entries := Without(entries, id);
    }
  }

  class TestMqMedia {
    const encode: Encoder
    const decode: Decoder
    var subscriptions: map<string, MediaSubscription>
    /** The worker's queue of packages awaiting dispatch, head first. */
    var queue: seq<MessagePackage>
    /** Every Unsubscribe call, in order. */
    ghost var unsubscribeCalls: seq<(string, string)>
    /** The registry's contents: each tag's handler entries. */
    ghost var table: Table

    ghost predicate Valid()
      reads this, subscriptions.Values
    {
      && subscriptions.Keys == table.Keys
      && KeysAreTags(table)
      && WellFormed(table)
      && forall tag :: tag in subscriptions ==>
        subscriptions[tag].tag == tag && subscriptions[tag].entries == table[tag]
    }

    constructor (encode: Encoder, decode: Decoder)
      ensures Valid()
      ensures this.encode == encode && this.decode == decode
      ensures subscriptions == map[] && table == map[] && queue == [] && unsubscribeCalls == []
    {
      table := map[];
      this.encode := encode;
      this.decode := decode;
      subscriptions := map[];
      queue := [];
      unsubscribeCalls := [];
    }

    /** The state SubscribeImpl leaves: the tag's subscription exists, and either the
        handler was added under the fresh id and a live handle for (tag, id) came back,
        or the id was taken and Dictionary.Add threw. */
    twostate predicate Subscribed(new r: Result<SubscriptionHandle, Error>, tag: string, handler: HandlerId, freshId: string)
      reads this, if r.Success? then {r.value} else {}
    {
      && queue == old(queue) && unsubscribeCalls == old(unsubscribeCalls)
      && subscriptions.Keys == old(subscriptions.Keys) + {tag}
      && (forall t :: t in old(subscriptions) ==> subscriptions[t] == old(subscriptions[t]))
      && (tag !in old(subscriptions) ==> fresh(subscriptions[tag]))
      && if freshId !in IdsOf(Lookup(old(table), tag)) then
           && table == Register(old(table), tag, freshId, handler)
           && r.Success? && fresh(r.value)
           && r.value.media == this && r.value.tag == tag && r.value.id == freshId && !r.value.isDisposed
         else
           table == Touch(old(table), tag) && r == Failure(DuplicateKey(freshId))
    }

    /** Nothing changed. */
    twostate predicate Untouched()
      reads this
    {
      && subscriptions == old(subscriptions) && table == old(table)
      && queue == old(queue) && unsubscribeCalls == old(unsubscribeCalls)
    }

    method SubscribeImpl(messageType: TypeName, handler: HandlerId, topic: Option<string>, freshId: string)
      returns (r: Result<SubscriptionHandle, Error>)
      requires Valid()
      modifies this, subscriptions.Values
      ensures Valid()
      ensures Subscribed(r, BuildTag(messageType, topic), handler, freshId)
    {
      var tag := BuildTag(messageType, topic);
      var subscription := FindOrCreate(messageType, topic);
      RegisterAfterTouch(old(table), tag, freshId, handler);
      var added := AddTo(subscription, freshId, handler);
      if added.Failure? {
        return Failure(added.error);
      }
      var handle := new SubscriptionHandle(this, tag, added.value);
      r := Success(handle);
    }

    /** `subscription.AddHandler(handler)` on a subscription of the registry. */
    method AddTo(subscription: MediaSubscription, freshId: string, handler: HandlerId) returns (r: Result<string, Error>)
      requires Valid()
      requires subscription.tag in subscriptions && subscriptions[subscription.tag] == subscription
      modifies this, subscription
      ensures Valid()
      ensures subscriptions == old(subscriptions)
      ensures queue == old(queue) && unsubscribeCalls == old(unsubscribeCalls)
      ensures freshId in IdsOf(old(table)[subscription.tag]) ==>
        r == Failure(DuplicateKey(freshId)) && table == old(table)
      ensures freshId !in IdsOf(old(table)[subscription.tag]) ==>
        r == Success(freshId) && table == Register(old(table), subscription.tag, freshId, handler)
    {
      var tag := subscription.tag;
      assert forall t :: t in subscriptions && t != tag ==> subscriptions[t] != subscription;
      r := subscription.AddHandler(freshId, handler);
      ReplaceKeepsShape(table, tag, subscription.entries);
      table := table[tag := subscription.entries];
    }

    /** The find-or-create step of SubscribeImpl: `_subscriptions.GetValueOrDefault(tag)`,
        and a new MediaSubscription added under its own tag when there was none. */
    method FindOrCreate(messageType: TypeName, topic: Option<string>) returns (subscription: MediaSubscription)
      requires Valid()
      modifies this
      ensures Valid()
      ensures queue == old(queue) && unsubscribeCalls == old(unsubscribeCalls)
      ensures subscriptions.Keys == old(subscriptions.Keys) + {BuildTag(messageType, topic)}
      ensures table == Touch(old(table), BuildTag(messageType, topic))
      ensures subscription == subscriptions[BuildTag(messageType, topic)]
      ensures BuildTag(messageType, topic) in old(subscriptions) ==>
        subscription == old(subscriptions[BuildTag(messageType, topic)]) && subscriptions == old(subscriptions)
      ensures (BuildTag(messageType, topic)) !in old(subscriptions) ==>
        fresh(subscription) && subscriptions == old(subscriptions)[(BuildTag(messageType, topic)) := subscription]
      ensures forall t :: t in subscriptions && t != subscription.tag ==> subscriptions[t] != subscription
    {
      var tag := BuildTag(messageType, topic);
      if tag in subscriptions {
        subscription := subscriptions[tag];
      } else {
        subscription := NewSubscription(messageType, topic);
      }
    }

    /** The create branch of the find-or-create step: a new MediaSubscription, added
        under its own tag with no handlers yet. */
    method NewSubscription(messageType: TypeName, topic: Option<string>) returns (subscription: MediaSubscription)
      requires Valid() && BuildTag(messageType, topic) !in subscriptions
      modifies this
      ensures Valid()
      ensures queue == old(queue) && unsubscribeCalls == old(unsubscribeCalls)
      ensures subscriptions == old(subscriptions)[BuildTag(messageType, topic) := subscription]
      ensures table == Touch(old(table), BuildTag(messageType, topic))
      ensures fresh(subscription) && subscription.tag == BuildTag(messageType, topic)
    {
      var tag := BuildTag(messageType, topic);
      subscription := new MediaSubscription(messageType, topic);
      assert IsTag(tag);
      TouchKeepsTags(table, tag);
      TouchWellFormed(table, tag);
      subscriptions := subscriptions[tag := subscription];
      table := Touch(table, tag);
    }

    /** Subscribe(messageType, handler): the topic-less key. */
    method Subscribe(messageType: Option<TypeName>, handler: Option<HandlerId>, freshId: string)
      returns (r: Result<SubscriptionHandle, Error>)
      requires Valid()
      modifies this, subscriptions.Values
      ensures Valid()
      ensures messageType.None? ==> r == Failure(ArgumentNull("messageType")) && Untouched()
      ensures messageType.Some? && handler.None? ==> r == Failure(ArgumentNull("handler")) && Untouched()
      ensures messageType.Some? && handler.Some? ==>
        Subscribed(r, BuildTag(messageType.value, None), handler.value, freshId)
    {
      if messageType.None? {
        return Failure(ArgumentNull("messageType"));
      }
      if handler.None? {
        return Failure(ArgumentNull("handler"));
      }
      r := SubscribeImpl(messageType.value, handler.value, None, freshId);
    }

    /** Subscribe(messageType, handler, topic): a null or empty topic is refused. */
    method SubscribeTopic(messageType: Option<TypeName>, handler: Option<HandlerId>, topic: Option<string>, freshId: string)
      returns (r: Result<SubscriptionHandle, Error>)
      requires Valid()
      modifies this, subscriptions.Values
      ensures Valid()
      ensures messageType.None? ==> r == Failure(ArgumentNull("messageType")) && Untouched()
      ensures messageType.Some? && handler.None? ==> r == Failure(ArgumentNull("handler")) && Untouched()
      ensures messageType.Some? && handler.Some? && (topic.None? || topic.value == "") ==>
        r == Failure(Argument("'topic' cannot be null or empty.", "topic")) && Untouched()
      ensures messageType.Some? && handler.Some? && topic.Some? && topic.value != "" ==>
        Subscribed(r, BuildTag(messageType.value, topic), handler.value, freshId)
    {
      if messageType.None? {
        return Failure(ArgumentNull("messageType"));
      }
      if handler.None? {
        return Failure(ArgumentNull("handler"));
      }
      if topic.None? || topic.value == "" {
        return Failure(Argument("'topic' cannot be null or empty.", "topic"));
      }
      r := SubscribeImpl(messageType.value, handler.value, topic, freshId);
    }

    /** Unsubscribe(tag, id): an unknown tag or id changes nothing, and the subscription
        record stays even when emptied. */
    method Unsubscribe(tag: string, id: string)
      requires Valid()
      modifies this, subscriptions.Values
      ensures Valid()
      ensures subscriptions == old(subscriptions) && queue == old(queue)
      ensures table == Unregister(old(table), tag, id)
      ensures unsubscribeCalls == old(unsubscribeCalls) + [(tag, id)]
    {
      if tag in subscriptions {
        var subscription := subscriptions[tag];
        assert forall t :: t in subscriptions && t != tag ==> subscriptions[t].tag != subscription.tag;
        var _ := subscription.RemoveHandler(id);
        ReplaceKeepsShape(table, tag, subscription.entries);
        table := table[tag := subscription.entries];
      }
      unsubscribeCalls := unsubscribeCalls + [(tag, id)];
    }

    /** Publish(messageType, message): validate, encode, enqueue. An encoding failure
        reaches the caller and nothing is enqueued. */
    method Publish(messageType: Option<TypeName>, message: Option<Message>) returns (r: Outcome<Error>)
      requires Valid()
      modifies this
      ensures Valid()
      ensures subscriptions == old(subscriptions) && unsubscribeCalls == old(unsubscribeCalls)
      ensures match Prepare(messageType, message, encode)
        case Success(package) => r == Pass && queue == old(queue) + [package]
        case Failure(e) => r == Fail(e) && queue == old(queue)
    {
      if messageType.None? {
        return Fail(ArgumentNull("messageType"));
      }
      if message.None? {
        return Fail(ArgumentNull("message"));
      }
      if message.value.runtimeType != messageType.value {
        return Fail(Argument("Message type mismatch", "message"));
      }
      var json := encode(message.value);
      if json.Failure? {
        return Fail(Serialization(json.error));
      }
      queue := queue + [MessagePackage(messageType.value, json.value, message.value.topic)];
      r := Pass;
    }

    /** One foreach loop of dispatch: each handler in its own try/catch. */
    method DeliverEach(handlers: seq<HandlerId>, package: MessagePackage, invoke: HandlerOracle)
      returns (trace: seq<Invocation>)
      ensures trace == DeliverAll(handlers, package, decode, invoke)
    {
      trace := [];
      for i := 0 to |handlers|
        invariant trace == DeliverAll(handlers[..i], package, decode, invoke)
      {
        var handler := handlers[i];
        var attempt: Attempt;
        var decoded := decode(package.messageJson, package.messageType);
        if decoded.None? {
          attempt := DecodeFailed;   // caught and logged
        } else if invoke(handler, decoded.value) {
          attempt := Handled(decoded.value);
        } else {
          attempt := HandlerFailed(decoded.value);   // caught and logged
        }
        trace := trace + [Invocation(handler, attempt)];
        assert handlers[..i + 1][..i] == handlers[..i];
      }
      assert handlers[..|handlers|] == handlers;
    }

    /** DispatchMessagePackage: snapshot the topic-less and the topic handler lists, then
        run the first list and then the second. */
    method DispatchMessagePackage(package: MessagePackage, invoke: HandlerOracle) returns (trace: seq<Invocation>)
      requires Valid()
      ensures trace == DispatchTrace(table, package, decode, invoke)
    {
      var allTag := BuildTag(package.messageType, None);
      var topicTag := NonExistingTag;
      if package.topic.Some? {
        topicTag := BuildTag(package.messageType, package.topic);
      }
      var allHandlers: seq<HandlerId> := [];
      var topicHandlers: seq<HandlerId> := [];
      if allTag in subscriptions {
        allHandlers := subscriptions[allTag].GetHandlers();
      }
      if topicTag in subscriptions {
        topicHandlers := subscriptions[topicTag].GetHandlers();
      }
      var allTrace := DeliverEach(allHandlers, package, invoke);
      var topicTrace := DeliverEach(topicHandlers, package, invoke);
      trace := allTrace + topicTrace;
      DeliverAllAppend(allHandlers, topicHandlers, package, decode, invoke);
    }

    /** The worker's step: take the head package, if any, and dispatch it. */
    method DispatchNext(invoke: HandlerOracle) returns (trace: Option<seq<Invocation>>)
      requires Valid()
      modifies this
      ensures Valid()
      ensures subscriptions == old(subscriptions) && unsubscribeCalls == old(unsubscribeCalls)
      ensures old(queue) == [] ==> trace == None && queue == []
      ensures old(queue) != [] ==>
        && queue == old(queue)[1..]
        && trace == Some(DispatchTrace(table, old(queue)[0], decode, invoke))
    {
      if queue == [] {
        return None;
      }
      var package := queue[0];
      queue := queue[1..];
      var delivered := DispatchMessagePackage(package, invoke);
      trace := Some(delivered);
    }
  }

  /** SubscriptionHandle: disposing it unsubscribes its own (tag, id), once. */
  class SubscriptionHandle {
    const media: TestMqMedia
    const tag: string
    const id: string
    var isDisposed: bool

    constructor (media: TestMqMedia, tag: string, id: string)
      ensures this.media == media && this.tag == tag && this.id == id && !isDisposed
    {
      this.media := media;
      this.tag := tag;
      this.id := id;
      isDisposed := false;
    }

    method Dispose()
      requires media.Valid()
      modifies this, media, media.subscriptions.Values
      ensures media.Valid() && isDisposed
      ensures media.subscriptions == old(media.subscriptions) && media.queue == old(media.queue)
      ensures old(isDisposed) ==>
        media.table == old(media.table) && media.unsubscribeCalls == old(media.unsubscribeCalls)
      ensures !old(isDisposed) ==>
        && media.table == Unregister(old(media.table), tag, id)
        && media.unsubscribeCalls == old(media.unsubscribeCalls) + [(tag, id)]
    {
      if isDisposed {
        return;
      }
      media.Unsubscribe(tag, id);
      isDisposed := true;
    }
  }
}
