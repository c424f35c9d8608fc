/** TestMessageMedia's registry as a value, and what one synchronous publish does. */
module MessageMediaSpec {
  import opened Results
  import opened Messages

  /** One Subscription: its null-topic handler list and its topic -> handler-list dictionary. */
  datatype SubscriptionView = SubscriptionView(nullTopic: seq<HandlerId>, topics: map<string, seq<HandlerId>>)

  /** `_subscriptions`, keyed by message type. */
  type View = map<TypeName, SubscriptionView>

  /** The handlers of one topic; none when the topic has no list yet. */
  function TopicList(subscription: SubscriptionView, topic: string): seq<HandlerId> {
    if topic in subscription.topics then subscription.topics[topic] else []
  }

  /** The handlers a Subscription's Handle calls, in the order it calls them: the null-topic
      list, then, for Handle(message, topic), that topic's list. */
  function HandledBy(subscription: SubscriptionView, topic: Option<string>): seq<HandlerId> {
    subscription.nullTopic + (if topic.Some? then TopicList(subscription, topic.value) else [])
  }

  /** The handlers a publish of a message of `messageType` calls: none when the type has
      no subscription. */
  function Recipients(view: View, messageType: TypeName, topic: Option<string>): seq<HandlerId> {
    if messageType in view then HandledBy(view[messageType], topic) else []
  }

  /** The invoked handlers of one publish, and whether one of them threw. */
  datatype Run = Run(invoked: seq<HandlerId>, threw: bool)

  /** Call the handlers in order with no catch: the first exception stops the rest. */
  function InvokeInOrder(handlers: seq<HandlerId>, message: Message, invoke: HandlerOracle): (run: Run)
    ensures run.invoked <= handlers
    ensures run.threw <==> exists i :: 0 <= i < |handlers| && !invoke(handlers[i], message)
    ensures !run.threw ==> run.invoked == handlers
    ensures run.threw ==> |run.invoked| > 0 && !invoke(run.invoked[|run.invoked| - 1], message)
    ensures forall i :: 0 <= i < |run.invoked| - 1 ==> invoke(run.invoked[i], message)
  {
    if handlers == [] then Run([], false)
    else if !invoke(handlers[0], message) then Run([handlers[0]], true)
    else
      var rest := InvokeInOrder(handlers[1..], message, invoke);
      assert forall i :: 0 < i < |handlers| ==> handlers[i] == handlers[1..][i - 1];
      Run([handlers[0]] + rest.invoked, rest.threw)
  }

  /** Two lists in a row: the second runs only when the first did not throw. */
  lemma {:induction false} InvokeConcat(first: seq<HandlerId>, second: seq<HandlerId>, message: Message, invoke: HandlerOracle)
    ensures var a := InvokeInOrder(first, message, invoke);
      var b := InvokeInOrder(second, message, invoke);
      InvokeInOrder(first + second, message, invoke)
        == if a.threw then a else Run(first + b.invoked, b.threw)
  {
    if first != [] {
      assert (first + second)[1..] == first[1..] + second;
      InvokeConcat(first[1..], second, message, invoke);
    } else {
      assert first + second == second;
    }
  }

  /** The first throwing handler ends the run: when every handler before position `i`
      completes and the one at `i` throws, exactly the first `i + 1` handlers were invoked. */
  lemma FirstFailureEndsRun(handlers: seq<HandlerId>, i: nat, message: Message, invoke: HandlerOracle)
    requires i < |handlers| && !invoke(handlers[i], message)
    requires forall j :: 0 <= j < i ==> invoke(handlers[j], message)
    ensures InvokeInOrder(handlers, message, invoke) == Run(handlers[..i + 1], true)
  {
    var run := InvokeInOrder(handlers, message, invoke);
    var k := |run.invoked|;
    assert run.threw;
    assert forall j :: 0 <= j < k ==> run.invoked[j] == handlers[j];
    assert invoke(handlers[k - 1], message) == invoke(run.invoked[k - 1], message);
    assert i < k ==> invoke(run.invoked[i], message) == invoke(handlers[i], message);
    assert k == i + 1;
    assert run.invoked == handlers[..k];
  }

  /** The exception a publish reports: the throwing handler's, when one threw. */
  function Reported(run: Run): (r: Outcome<Error>)
    requires run.threw ==> |run.invoked| > 0
    ensures r.Fail? <==> run.threw
    ensures r.Fail? ==> r.error == HandlerException(run.invoked[|run.invoked| - 1])
  {
    if run.threw then Fail(HandlerException(run.invoked[|run.invoked| - 1])) else Pass
  }

  /** The registry after `Subscribe(messageType, handler)`: the handler appended to the
      type's null-topic list, the Subscription created if absent. */
  function AddNullTopic(view: View, messageType: TypeName, handler: HandlerId): View {
    var s := if messageType in view then view[messageType] else SubscriptionView([], map[]);
    view[messageType := s.(nullTopic := s.nullTopic + [handler])]
  }

  /** The registry after `Subscribe(messageType, handler, topic)`: the handler appended to
      that topic's list, the list and the Subscription created if absent. */
  function AddTopic(view: View, messageType: TypeName, handler: HandlerId, topic: string): View {
    var s := if messageType in view then view[messageType] else SubscriptionView([], map[]);
    view[messageType := s.(topics := s.topics[topic := TopicList(s, topic) + [handler]])]
  }

  /** The registry after the find-or-create step of either Subscribe: an empty
      Subscription for the type when it had none. */
  function Touch(view: View, messageType: TypeName): (result: View)
    ensures result.Keys == view.Keys + {messageType}
    ensures forall t :: t in view ==> result[t] == view[t]
    ensures messageType !in view ==> result[messageType] == SubscriptionView([], map[])
  {
    if messageType in view then view else view[messageType := SubscriptionView([], map[])]
  }

  /** Either Subscribe after the find-or-create step is that Subscribe. */
  lemma AddAfterTouch(view: View, messageType: TypeName, handler: HandlerId, topic: string)
    ensures AddNullTopic(Touch(view, messageType), messageType, handler) == AddNullTopic(view, messageType, handler)
    ensures AddTopic(Touch(view, messageType), messageType, handler, topic) == AddTopic(view, messageType, handler, topic)
  {
  }

  /** `after` holds every registration of `before`, in the same order, possibly followed by more. */
  ghost predicate Extends(after: View, before: View) {
    forall t :: t in before ==>
      && t in after
      && before[t].nullTopic <= after[t].nullTopic
      && forall p :: p in before[t].topics ==> p in after[t].topics && before[t].topics[p] <= after[t].topics[p]
  }

  /** Subscribing is append-only: nothing registered is removed or reordered. */
  lemma SubscribeIsAppendOnly(view: View, messageType: TypeName, handler: HandlerId, topic: string)
    ensures Extends(AddNullTopic(view, messageType, handler), view)
    ensures Extends(AddTopic(view, messageType, handler, topic), view)
  {
  }

  /** A topic-less subscription is reached by every later publish of its type, with or
      without a topic, after the handlers already there. */
  lemma NullTopicSubscriberReached(view: View, messageType: TypeName, handler: HandlerId, topic: Option<string>)
    ensures var after := AddNullTopic(view, messageType, handler);
      var before := if messageType in view then view[messageType].nullTopic else [];
      && Recipients(after, messageType, None) == before + [handler]
      && Recipients(after, messageType, topic)[..|before| + 1] == before + [handler]
  {
  }

  /** A topic subscription is reached only by publishes with that topic: it goes to the end
      of that topic's list, and the recipients of every other publish are unchanged. */
  lemma TopicSubscriberReachedOnlyByTopic(view: View, messageType: TypeName, handler: HandlerId, topic: string, other: Option<string>)
    requires other != Some(topic)
    ensures Recipients(AddTopic(view, messageType, handler, topic), messageType, Some(topic))
         == Recipients(view, messageType, Some(topic)) + [handler]
    ensures Recipients(AddTopic(view, messageType, handler, topic), messageType, other)
         == Recipients(view, messageType, other)
    ensures forall t, o :: t != messageType ==>
      Recipients(AddTopic(view, messageType, handler, topic), t, o) == Recipients(view, t, o)
  {
  }

  /** Publishing a type nobody subscribed to calls nothing. */
  lemma UnsubscribedTypeCallsNothing(view: View, messageType: TypeName, topic: Option<string>, message: Message, invoke: HandlerOracle)
    requires messageType !in view
    ensures InvokeInOrder(Recipients(view, messageType, topic), message, invoke) == Run([], false)
  {
  }

  /** One topic-less subscriber and one subscriber each for two topics: a publish without
      a topic reaches the topic-less one, a publish with a topic reaches it and then that
      topic's subscriber, and never the other topic's. */
  lemma TwoTopicsAndTopicless(messageType: TypeName, all: HandlerId, summer: HandlerId, winter: HandlerId)
    ensures var view := AddTopic(AddTopic(AddNullTopic(map[], messageType, all), messageType, summer, "summer"), messageType, winter, "winter");
      && Recipients(view, messageType, None) == [all]
      && Recipients(view, messageType, Some("summer")) == [all, summer]
      && Recipients(view, messageType, Some("winter")) == [all, winter]
  {
    var v1 := AddNullTopic(map[], messageType, all);
    var v2 := AddTopic(v1, messageType, summer, "summer");
    assert v2[messageType].topics["summer"] == [summer];
    var v3 := AddTopic(v2, messageType, winter, "winter");
    assert v3[messageType].topics["summer"] == [summer];
    assert v3[messageType].topics["winter"] == [winter];
  }
}
