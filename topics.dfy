/** The static publish/subscribe registry of the WebSocket contexts
    (framework/core/context/ws.ts and packages/core/core/context/ws.ts, which agree):
    a topic maps to the set of contexts subscribed to it. Contexts are values of a type
    with equality (their object identity); a `send` is recorded as a delivery. */
module Topics {

  /** `_subscribe`: the topic's set, created on first use, gains the context. */
  function Subscribed<C>(topics: map<string, set<C>>, topic: string, c: C): (r: map<string, set<C>>)
    ensures r.Keys == topics.Keys + {topic}
    ensures r[topic] == (if topic in topics then topics[topic] else {}) + {c}
    ensures forall t :: t in topics && t != topic ==> r[t] == topics[t]
  {
    topics[topic := (if topic in topics then topics[topic] else {}) + {c}]
  }

  /** `_unsubscribe`: an unknown topic is left alone; a known one loses the context and
      stays, even when it becomes empty. */
  function Unsubscribed<C>(topics: map<string, set<C>>, topic: string, c: C): (r: map<string, set<C>>)
    ensures r.Keys == topics.Keys
    ensures topic in topics ==> r[topic] == topics[topic] - {c}
    ensures forall t :: t in topics && t != topic ==> r[t] == topics[t]
  {
    if topic in topics then topics[topic := topics[topic] - {c}] else topics
  }

  /** One message handed to a context's `send`. */
  datatype Delivery<C, M> = Delivery(to: C, message: M)

  function Deliveries<C, M>(to: seq<C>, message: M): (d: seq<Delivery<C, M>>)
    ensures |d| == |to| && forall i :: 0 <= i < |to| ==> d[i] == Delivery(to[i], message)
  {
    seq(|to|, i requires 0 <= i < |to| => Delivery(to[i], message))
  }

  predicate Distinct<C(==)>(s: seq<C>)
  {
    forall i, j :: 0 <= i < j < |s| ==> s[i] != s[j]
  }

  /** The registry shared by all contexts of a server. */
  class TopicRegistry<C(==), M> {
    var topics: map<string, set<C>>
    /** Every `send` made by `_publish`, in order. */
    var sent: seq<Delivery<C, M>>

    constructor()
      ensures topics == map[] && sent == []
    {
      topics := map[];
      sent := [];
    }

    method Subscribe(topic: string, c: C)
      modifies this
      ensures topics == Subscribed(old(topics), topic, c) && sent == old(sent)
    {
      if topic !in topics {
        topics := topics[topic := {}];
      }
      topics := topics[topic := topics[topic] + {c}];
    }

    method Unsubscribe(topic: string, c: C)
      modifies this
      ensures topics == Unsubscribed(old(topics), topic, c) && sent == old(sent)
    {
      if topic in topics {
        topics := topics[topic := topics[topic] - {c}];
      }
    }

    /** `_publish`: one `send` of `message` to each current subscriber, in the set's
        iteration order `order`, and none for an unknown topic. */
    method Publish(topic: string, message: M) returns (order: seq<C>)
      modifies this
      ensures topics == old(topics)
      ensures topic !in topics ==> order == []
      ensures topic in topics ==> Distinct(order) && |order| == |topics[topic]|
                                  && forall c :: c in order <==> c in topics[topic]
      ensures sent == old(sent) + Deliveries(order, message)
    {
      order := [];
      if topic in topics {
        var subscribers := topics[topic];
        var todo := subscribers;
        while todo != {}
          invariant topics == old(topics)
          invariant todo <= subscribers
          invariant forall c :: c in order <==> c in subscribers && c !in todo
          invariant Distinct(order) && |order| + |todo| == |subscribers|
          invariant sent == old(sent) + Deliveries(order, message)
          decreases |todo|
        {
          var c :| c in todo;
          sent := sent + [Delivery(c, message)];
          order := order + [c];
          todo := todo - {c};
        }
        assert forall c :: c in order <==> c in subscribers;
      }
    }
  }

  // ---------------------------------------------------------------------------
  // Properties

  /** Subscribing twice leaves one membership: the second call changes nothing. */
  lemma SubscribeIdempotent<C>(topics: map<string, set<C>>, topic: string, c: C)
    ensures Subscribed(Subscribed(topics, topic, c), topic, c) == Subscribed(topics, topic, c)
  {
  }

  /** Unsubscribing from an unknown topic changes nothing. */
  lemma UnsubscribeUnknown<C>(topics: map<string, set<C>>, topic: string, c: C)
    requires topic !in topics
    ensures Unsubscribed(topics, topic, c) == topics
  {
  }

  /** Unsubscribing undoes a subscription of a context that was not yet subscribed, and
      never removes the topic itself. */
  lemma UnsubscribeAfterSubscribe<C>(topics: map<string, set<C>>, topic: string, c: C)
    requires topic in topics && c !in topics[topic]
    ensures Unsubscribed(Subscribed(topics, topic, c), topic, c) == topics
  {
    var r := Unsubscribed(Subscribed(topics, topic, c), topic, c);
    assert r[topic] == topics[topic];
  }

  /** Subscriptions to different topics, or of different contexts, commute. */
  lemma SubscribeCommutes<C>(topics: map<string, set<C>>, t1: string, c1: C, t2: string, c2: C)
    ensures Subscribed(Subscribed(topics, t1, c1), t2, c2) == Subscribed(Subscribed(topics, t2, c2), t1, c1)
  {
    var a := Subscribed(Subscribed(topics, t1, c1), t2, c2);
    var b := Subscribed(Subscribed(topics, t2, c2), t1, c1);
    assert a.Keys == b.Keys;
    forall t | t in a ensures a[t] == b[t] {
    }
  }
}
