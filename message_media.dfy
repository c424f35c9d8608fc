/** TestMessageMedia: the older, synchronous broker. One Subscription per message type
    holds a null-topic handler list and a topic -> handler-list dictionary; Publish calls
    the handlers directly, in registration order, with no catch around them. */
module MessageMedia {
  import opened Results
  import opened Messages
  import opened MessageMediaSpec

  /** TestMessageMedia.Subscription. */
  class Subscription {
    const messageType: TypeName
    var nullTopicHandlers: seq<HandlerId>
    var topicHandlers: map<string, seq<HandlerId>>

    function View(): SubscriptionView
      reads this
    {
      SubscriptionView(nullTopicHandlers, topicHandlers)
    }

    constructor (messageType: TypeName)
      ensures this.messageType == messageType && View() == SubscriptionView([], map[])
    {
      this.messageType := messageType;
      nullTopicHandlers := [];
      topicHandlers := map[];
    }

    /** AddHandler(handler): append to the null-topic list. */
    method AddHandler(handler: HandlerId)
      modifies this
      ensures nullTopicHandlers == old(nullTopicHandlers) + [handler]
      ensures topicHandlers == old(topicHandlers)
    {
      nullTopicHandlers := nullTopicHandlers + [handler];
    }

    /** AddHandler(handler, topic): append to that topic's list, creating it if absent. */
    method AddTopicHandler(handler: HandlerId, topic: string)
      modifies this
      ensures nullTopicHandlers == old(nullTopicHandlers)
      ensures topicHandlers == old(topicHandlers)[topic := TopicList(old(View()), topic) + [handler]]
    {
      var list: seq<HandlerId>;
      if topic in topicHandlers {
        list := topicHandlers[topic];
      } else {
        list := [];
        topicHandlers := topicHandlers[topic := list];
      }
      topicHandlers := topicHandlers[topic := list + [handler]];
    }

    /** Handle(message): the null-topic handlers only. */
    method Handle(message: Message, invoke: HandlerOracle) returns (run: Run)
      ensures run == InvokeInOrder(HandledBy(View(), None), message, invoke)
    {
      assert HandledBy(View(), None) == nullTopicHandlers;
      run := InvokeEach(nullTopicHandlers, message, invoke);
    }

    /** Handle(message, topic): the null-topic handlers, then that topic's, if it has a list. */
    method HandleTopic(message: Message, topic: string, invoke: HandlerOracle) returns (run: Run)
      ensures run == InvokeInOrder(HandledBy(View(), Some(topic)), message, invoke)
    {
      InvokeConcat(nullTopicHandlers, TopicList(View(), topic), message, invoke);
      run := InvokeEach(nullTopicHandlers, message, invoke);
      if run.threw {
        return;
      }
      if topic in topicHandlers {
        var rest := InvokeEach(topicHandlers[topic], message, invoke);
        run := Run(run.invoked + rest.invoked, rest.threw);
      }
    }
  }

  /** One foreach loop over a handler list; an exception leaves the loop at once. */
  method InvokeEach(handlers: seq<HandlerId>, message: Message, invoke: HandlerOracle) returns (run: Run)
    ensures run == InvokeInOrder(handlers, message, invoke)
  {
    for i := 0 to |handlers|
      invariant forall j :: 0 <= j < i ==> invoke(handlers[j], message)
    {
      if !invoke(handlers[i], message) {
        FirstFailureEndsRun(handlers, i, message, invoke);
        return Run(handlers[..i + 1], true);
      }
    }
    run := Run(handlers, false);
  }

  class TestMessageMedia {
    var subscriptions: map<TypeName, Subscription>
    /** The registry's contents, as a value. */
    ghost var view: View

    /** Each Subscription sits under its own message type and shows the view's contents. */
    ghost predicate Valid()
      reads this, subscriptions.Values
    {
      && subscriptions.Keys == view.Keys
      && forall t :: t in subscriptions ==>
           subscriptions[t].messageType == t && subscriptions[t].View() == view[t]
    }

    constructor ()
      ensures Valid() && view == map[]
    {
      subscriptions := map[];
      view := map[];
    }

    /** Publish(message, topic): a null message or topic throws; otherwise the Subscription
        of the message's runtime type, if any, handles it. */
    method PublishTopic(message: Option<Message>, topic: Option<string>, invoke: HandlerOracle)
      returns (invoked: seq<HandlerId>, r: Outcome<Error>)
      requires Valid()
      ensures message.None? ==> invoked == [] && r == Fail(ArgumentNull("message"))
      ensures message.Some? && topic.None? ==> invoked == [] && r == Fail(ArgumentNull("topic"))
      ensures message.Some? && topic.Some? ==>
        var run := InvokeInOrder(Recipients(view, message.value.runtimeType, topic), message.value, invoke);
        invoked == run.invoked && r == Reported(run)
    {
      if message.None? {
        return [], Fail(ArgumentNull("message"));
      }
      if topic.None? {
        return [], Fail(ArgumentNull("topic"));
      }
      var messageType := message.value.runtimeType;
      var run := Run([], false);
      if messageType in subscriptions {
        run := subscriptions[messageType].HandleTopic(message.value, topic.value, invoke);
      }
      invoked, r := run.invoked, Reported(run);
    }

    /** Publish(message): a null message throws; otherwise only the null-topic handlers of
        the message's runtime type are called. */
    method Publish(message: Option<Message>, invoke: HandlerOracle) returns (invoked: seq<HandlerId>, r: Outcome<Error>)
      requires Valid()
      ensures message.None? ==> invoked == [] && r == Fail(ArgumentNull("message"))
      ensures message.Some? ==>
        var run := InvokeInOrder(Recipients(view, message.value.runtimeType, None), message.value, invoke);
        invoked == run.invoked && r == Reported(run)
    {
      if message.None? {
        return [], Fail(ArgumentNull("message"));
      }
      var messageType := message.value.runtimeType;
      var run := Run([], false);
      if messageType in subscriptions {
        run := subscriptions[messageType].Handle(message.value, invoke);
      }
      invoked, r := run.invoked, Reported(run);
    }

    /** The type's Subscription, created and added when absent. */
    method FindOrCreate(messageType: TypeName) returns (subscription: Subscription)
      requires Valid()
      modifies this
      ensures Valid()
      ensures messageType in subscriptions && subscription == subscriptions[messageType]
      ensures messageType in old(subscriptions) ==>
        subscription == old(subscriptions[messageType]) && subscriptions == old(subscriptions)
      ensures messageType !in old(subscriptions) ==>
        fresh(subscription) && subscriptions == old(subscriptions)[messageType := subscription]
      ensures view == Touch(old(view), messageType)
    {
      if messageType in subscriptions {
        subscription := subscriptions[messageType];
      } else {
        subscription := new Subscription(messageType);
        subscriptions := subscriptions[messageType := subscription];
        view := Touch(view, messageType);
      }
    }

    /** `subscription.AddHandler(handler)` on a Subscription of the registry. */
    method AddNullTopicTo(subscription: Subscription, handler: HandlerId)
      requires Valid()
      requires subscription.messageType in subscriptions && subscriptions[subscription.messageType] == subscription
      modifies this, subscription
      ensures Valid()
      ensures subscriptions == old(subscriptions)
      ensures view == AddNullTopic(old(view), subscription.messageType, handler)
    {
      subscription.AddHandler(handler);
      view := view[subscription.messageType := subscription.View()];
    }

    /** `subscription.AddHandler(handler, topic)` on a Subscription of the registry. */
    method AddTopicTo(subscription: Subscription, handler: HandlerId, topic: string)
      requires Valid()
      requires subscription.messageType in subscriptions && subscriptions[subscription.messageType] == subscription
      modifies this, subscription
      ensures Valid()
      ensures subscriptions == old(subscriptions)
      ensures view == AddTopic(old(view), subscription.messageType, handler, topic)
    {
      subscription.AddTopicHandler(handler, topic);
      view := view[subscription.messageType := subscription.View()];
    }

    /** The map of Subscriptions after a successful Subscribe: every existing Subscription
        is kept, and the type's is new only when it had none. */
    twostate predicate Registered(messageType: TypeName)
      reads this
    {
      && subscriptions.Keys == old(subscriptions.Keys) + {messageType}
      && (forall t :: t in old(subscriptions) ==> subscriptions[t] == old(subscriptions[t]))
      && (messageType !in old(subscriptions) ==> fresh(subscriptions[messageType]))
    }

    /** Subscribe(messageType, handler): a null type or handler throws; otherwise the
        handler joins the end of the type's null-topic list. */
    method Subscribe(messageType: Option<TypeName>, handler: Option<HandlerId>) returns (r: Outcome<Error>)
      requires Valid()
      modifies this, subscriptions.Values
      ensures Valid()
      ensures messageType.None? ==>
        r == Fail(ArgumentNull("messageType")) && view == old(view) && subscriptions == old(subscriptions)
      ensures messageType.Some? && handler.None? ==>
        r == Fail(ArgumentNull("handler")) && view == old(view) && subscriptions == old(subscriptions)
      ensures messageType.Some? && handler.Some? ==>
        && r == Pass && view == AddNullTopic(old(view), messageType.value, handler.value)
        && Registered(messageType.value)
    {
      if messageType.None? {
        return Fail(ArgumentNull("messageType"));
      }
      if handler.None? {
        return Fail(ArgumentNull("handler"));
      }
      var subscription := FindOrCreate(messageType.value);
      AddAfterTouch(old(view), messageType.value, handler.value, "");
      AddNullTopicTo(subscription, handler.value);
      r := Pass;
    }

    /** Subscribe(messageType, handler, topic): a null type, handler or topic throws;
        otherwise the handler joins the end of that topic's list only. */
    method SubscribeTopic(messageType: Option<TypeName>, handler: Option<HandlerId>, topic: Option<string>)
      returns (r: Outcome<Error>)
      requires Valid()
      modifies this, subscriptions.Values
      ensures Valid()
      ensures messageType.None? ==>
        r == Fail(ArgumentNull("messageType")) && view == old(view) && subscriptions == old(subscriptions)
      ensures messageType.Some? && handler.None? ==>
        r == Fail(ArgumentNull("handler")) && view == old(view) && subscriptions == old(subscriptions)
      ensures messageType.Some? && handler.Some? && topic.None? ==>
        r == Fail(ArgumentNull("topic")) && view == old(view) && subscriptions == old(subscriptions)
      ensures messageType.Some? && handler.Some? && topic.Some? ==>
        && r == Pass && view == AddTopic(old(view), messageType.value, handler.value, topic.value)
        && Registered(messageType.value)
    {
      if messageType.None? {
        return Fail(ArgumentNull("messageType"));
      }
      if handler.None? {
        return Fail(ArgumentNull("handler"));
      }
      if topic.None? {
        return Fail(ArgumentNull("topic"));
      }
      var subscription := FindOrCreate(messageType.value);
      AddAfterTouch(old(view), messageType.value, handler.value, topic.value);
      AddTopicTo(subscription, handler.value, topic.value);
      r := Pass;
    }
  }
}
