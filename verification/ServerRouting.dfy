/** Routing and the topics together: a client's request to subscribe or unsubscribe reaches the topic
    that the search over the bound patterns finds, in whatever order the map is iterated that time. */
module ServerRouting {
  import opened Wrappers
  import opened TopicText
  import opened TopicPattern
  import opened TopicSubs

  type States = map<string, State>

  /** Each bound topic has its subscribers. */
  ghost predicate IsRouted(topics: map<string, Pattern>, states: States) {
    && states.Keys == topics.Keys
    && forall raw | raw in topics :: IsSubscribers(Names(topics[raw].path), states[raw].subs)
  }

  /** A request for a topic that is not bound is refused. */
  function AddTopicSub(topics: map<string, Pattern>, order: seq<string>, states: States, req: Topic, c: Conn): States
    requires states.Keys == topics.Keys && forall raw | raw in order :: raw in topics
  {
    match FindInOrder(topics, order, req)
    case None => states
    case Some((raw, params)) => states[raw := Added(states[raw], c, params)]
  }

  function RemoveTopicSub(topics: map<string, Pattern>, order: seq<string>, states: States, req: Topic, c: Conn): States
    requires states.Keys == topics.Keys && forall raw | raw in order :: raw in topics
  {
    match FindInOrder(topics, order, req)
    case None => states
    case Some((raw, params)) => states[raw := Removed(states[raw], c, params)]
  }

  lemma AddKeepsRouted(topics: map<string, Pattern>, order: seq<string>, states: States, req: Topic, c: Conn)
    requires IsRouted(topics, states) && forall raw | raw in order :: raw in topics
    ensures IsRouted(topics, AddTopicSub(topics, order, states, req, c))
  {
    if FindInOrder(topics, order, req).Some? {
      var (raw, params) := FindInOrder(topics, order, req).value;
      FoundParams(topics, order, req);
      AddKeepsSubscribers(Names(topics[raw].path), states[raw], c, params);
    }
  }

  /** A subscription adds the one it finds a topic for, and no other. */
  lemma AddsExactly(topics: map<string, Pattern>, order: seq<string>, states: States, req: Topic, c: Conn,
                    raw: string, d: Conn, p: Params)
    requires IsRouted(topics, states) && raw in topics && forall r | r in order :: r in topics
    ensures Holds(AddTopicSub(topics, order, states, req, c)[raw].subs, d, p)
       <==> Holds(states[raw].subs, d, p) || (FindInOrder(topics, order, req) == Some((raw, p)) && d == c)
  {
    if FindInOrder(topics, order, req).Some? {
      var (found, params) := FindInOrder(topics, order, req).value;
      HoldsAfterAdd(states[found], c, params, d, p);
    }
  }

  /** An unsubscription takes away the one subscription it finds, and no other. */
  lemma RemovesExactly(topics: map<string, Pattern>, order: seq<string>, states: States, req: Topic, c: Conn,
                       raw: string, d: Conn, p: Params)
    requires IsRouted(topics, states) && raw in topics && forall r | r in order :: r in topics
    ensures Holds(RemoveTopicSub(topics, order, states, req, c)[raw].subs, d, p)
       <==> Holds(states[raw].subs, d, p) && !(FindInOrder(topics, order, req) == Some((raw, p)) && d == c)
  {
    if FindInOrder(topics, order, req).Some? {
      var (found, params) := FindInOrder(topics, order, req).value;
      if found == raw && c in states[raw].subs {
        HoldsAfterRemove(Names(topics[raw].path), states[raw].subs, c, params, d, p);
      }
    }
  }

  /** The search looks at the operation and the path only. */
  lemma {:induction false} SameSearch(topics: map<string, Pattern>, order: seq<string>, req: Topic, other: Topic)
    requires forall raw | raw in order :: raw in topics
    requires other.operation == req.operation && other.path == req.path
    ensures FindInOrder(topics, order, other) == FindInOrder(topics, order, req)
  {
    if order != [] {
      SameSearch(topics, order[1..], req, other);
    }
  }

  /** At most one bound pattern fits the request. */
  predicate FitsAtMostOne(topics: map<string, Pattern>, req: Topic) {
    forall a, b | a in topics && b in topics && Fits(topics[a], req) && Fits(topics[b], req) :: a == b
  }

  /** What a client's unsubscription asks for that has the text of its subscription. */
  function UnsubOf(req: Topic): Topic {
    req.(descriptor := "unsub")
  }

  /** Subscribing under one iteration order and unsubscribing with the same text under another leaves the
      connection without the subscription. */
  ghost predicate IsUndone(topics: map<string, Pattern>, states: States, req: Topic, c: Conn,
                           first: seq<string>, second: seq<string>)
    requires states.Keys == topics.Keys && Enumerates(first, topics) && Enumerates(second, topics)
  {
    var after := RemoveTopicSub(topics, second, AddTopicSub(topics, first, states, req, c), UnsubOf(req), c);
    match FindInOrder(topics, first, req)
    case None => true
    case Some((raw, params)) => !Holds(after[raw].subs, c, params)
  }

  lemma UndoneWhenSame(topics: map<string, Pattern>, states: States, req: Topic, c: Conn,
                       first: seq<string>, second: seq<string>)
    requires IsRouted(topics, states) && Enumerates(first, topics) && Enumerates(second, topics)
    ensures IsUndone(topics, states, req, c, first, second)
       <==> FindInOrder(topics, first, req) == FindInOrder(topics, second, req) || FindInOrder(topics, first, req).None?
  {
    SameSearch(topics, second, req, UnsubOf(req));
    if FindInOrder(topics, first, req).Some? {
      var (raw, params) := FindInOrder(topics, first, req).value;
      var added := AddTopicSub(topics, first, states, req, c);
      AddKeepsRouted(topics, first, states, req, c);
      HoldsAfterAdd(states[raw], c, params, c, params);
      RemovesExactly(topics, second, added, UnsubOf(req), c, raw, c, params);
    }
  }

  /** An unsubscription with the text of a subscription removes that subscription under all iteration
      orders if and only if at most one bound pattern fits; otherwise it may reach another topic. */
  lemma UnsubscriptionUndoesExactly(topics: map<string, Pattern>, states: States, req: Topic, c: Conn)
    requires IsRouted(topics, states)
    ensures (forall first, second | Enumerates(first, topics) && Enumerates(second, topics) ::
               IsUndone(topics, states, req, c, first, second))
       <==> FitsAtMostOne(topics, req)
  {
    if FitsAtMostOne(topics, req) {
      forall first, second | Enumerates(first, topics) && Enumerates(second, topics)
        ensures IsUndone(topics, states, req, c, first, second)
      {
        UndoneWhenSame(topics, states, req, c, first, second);
      }
    } else {
      var a, b :| a in topics && b in topics && Fits(topics[a], req) && Fits(topics[b], req) && a != b;
      var first := EnumerationFrom(topics, a);
      var second := EnumerationFrom(topics, b);
      UndoneWhenSame(topics, states, req, c, first, second);
    }
  }

  /** So every client's unsubscription undoes its subscription exactly when no two bound patterns overlap. */
  lemma AllUndoneIffNoOverlap(topics: map<string, Pattern>)
    requires IsBound(topics)
    ensures (forall raw | ParseTopic(raw).Parsed? :: FitsAtMostOne(topics, ParseTopic(raw).topic)) <==> HasNoOverlap(topics)
  {
    if HasNoOverlap(topics) {
      forall raw | ParseTopic(raw).Parsed? ensures FitsAtMostOne(topics, ParseTopic(raw).topic) {
        var req := ParseTopic(raw).topic;
        forall a, b | a in topics && b in topics && Fits(topics[a], req) && Fits(topics[b], req) ensures a == b {
          assert Overlap(topics[a], topics[b]);
        }
      }
    } else {
      var a, b :| a in topics && b in topics && a != b && Overlap(topics[a], topics[b]);
      var raw := OverlapIsAmbiguous(topics, a, b);
      assert !FitsAtMostOne(topics, ParseTopic(raw).topic);
    }
  }

  /** The text of such an unsubscription. */
  lemma UnsubText(raw: string)
    requires ParseTopic(raw).Parsed? && raw[|raw| - 1] != '@'
    ensures ParseTopic(Print(UnsubOf(ParseTopic(raw).topic))) == Parsed(UnsubOf(ParseTopic(raw).topic))
  {
    PrintOfParse(raw);
    ParseOfPrint(UnsubOf(ParseTopic(raw).topic));
  }
}
