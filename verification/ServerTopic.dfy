/** A bound topic of the server as an object: subscribing, unsubscribing, dropping and publishing.
    Each method runs under the topic's lock. The changes are those of the module TopicSubs. */
module ServerTopic {
  import opened Wrappers
  import opened TopicPattern
  import opened TopicSubs
  import TopicText

  /** A middleware or filter: it sees the connection, the parameters added to its context, and the
      formatted topic. */
  type Filter = (Conn, Params, string) -> bool

  /** What encoding an event under a topic text gives: the bytes or an error. */
  type Encoded(==, !new)

  datatype Delivery = Delivery(conn: Conn, params: Params, topic: string, data: Encoded)

  /** What an optional filter selects: everything when there is none. */
  function SelectionOf(filter: Option<Filter>, p: Pattern): Selection {
    (c, params) => filter.None? || filter.value(c, params, Formatted(p, params))
  }

  predicate AcceptedBy(middlewares: seq<Filter>, c: Conn, params: Params, text: string) {
    forall i | 0 <= i < |middlewares| :: middlewares[i](c, params, text)
  }

  type Job = (Conn, Params)

  /** How often the connection is listed with the parameters. */
  function Listed(subs: Subscribers, job: Job): nat {
    if job.0 in subs then multiset(subs[job.0])[job.1] else 0
  }

  /** The delivery a subscription gets when all middlewares accept it. */
  predicate IsOwed(p: Pattern, encode: string -> Encoded, middlewares: seq<Filter>, d: Delivery) {
    && d.topic == Formatted(p, d.params)
    && d.data == encode(d.topic)
    && AcceptedBy(middlewares, d.conn, d.params, d.topic)
  }

  /** Exactly the owed deliveries of some jobs were made, one for each job. */
  ghost predicate IsSent(p: Pattern, encode: string -> Encoded, middlewares: seq<Filter>, jobs: multiset<Job>,
                         sent: seq<Delivery>) {
    forall d :: multiset(sent)[d] == if IsOwed(p, encode, middlewares, d) then jobs[(d.conn, d.params)] else 0
  }

  /** Each topic of a delivery was encoded, once, and no other text. */
  ghost predicate IsEncodedOnce(sent: seq<Delivery>, encoded: seq<string>) {
    && (forall i, j | 0 <= i < j < |encoded| :: encoded[i] != encoded[j])
    && (forall d | d in sent :: d.topic in encoded)
    && forall text | text in encoded :: exists d | d in sent :: d.topic == text
  }

  ghost predicate AreJobs(subs: Subscribers, jobs: multiset<Job>) {
    forall job :: jobs[job] == Listed(subs, job)
  }

  ghost predicate IsPublished(p: Pattern, subs: Subscribers, encode: string -> Encoded, middlewares: seq<Filter>,
                              sent: seq<Delivery>, encoded: seq<string>) {
    && (forall d :: multiset(sent)[d] == if IsOwed(p, encode, middlewares, d) then Listed(subs, (d.conn, d.params)) else 0)
    && IsEncodedOnce(sent, encoded)
  }

  /** Runs the middlewares in order, up to the first that refuses. */
  method RunMiddlewares(middlewares: seq<Filter>, c: Conn, params: Params, text: string) returns (accepted: bool)
    ensures accepted == AcceptedBy(middlewares, c, params, text)
    ensures accepted <==> forall i | 0 <= i < |middlewares| :: middlewares[i](c, params, text)
  {
    for i := 0 to |middlewares|
      invariant forall j | 0 <= j < i :: middlewares[j](c, params, text)
    {
      if !middlewares[i](c, params, text) {
        return false;
      }
    }
    accepted := true;
  }

  /** One goroutine for each subscription. */
  method Launch(subs: Subscribers) returns (jobs: multiset<Job>)
    ensures AreJobs(subs, jobs)
  {
    jobs := multiset{};
    var rest := subs.Keys;
    while rest != {}
      invariant rest <= subs.Keys
      invariant forall job :: jobs[job] == if job.0 in rest then 0 else Listed(subs, job)
    {
      var c :| c in rest;
      var pp := subs[c];
      rest := rest - {c};
      for i := 0 to |pp|
        invariant forall job: Job | job.0 == c :: jobs[job] == multiset(pp[..i])[job.1]
        invariant forall job: Job | job.0 != c :: jobs[job] == if job.0 in rest then 0 else Listed(subs, job)
      {
        assert pp[..i + 1] == pp[..i] + [pp[i]];
        jobs := jobs + multiset{(c, pp[i])};
      }
      assert pp[..|pp|] == pp;
    }
  }

  /** The encodings kept so far. */
  ghost predicate IsMemo(presets: map<string, Encoded>, encode: string -> Encoded, encoded: seq<string>) {
    forall text :: (text in presets <==> text in encoded) && (text in presets ==> presets[text] == encode(text))
  }

  /** Sends an event to the subscriptions. The goroutines run in any order; the encoding is kept per
      topic text. */
  method Publish(p: Pattern, subs: Subscribers, encode: string -> Encoded, middlewares: seq<Filter>)
    returns (sent: seq<Delivery>, encoded: seq<string>)
    ensures IsPublished(p, subs, encode, middlewares, sent, encoded)
  {
    sent, encoded := [], [];
    var presets: map<string, Encoded> := map[];
    var pending := Launch(subs);
    ghost var done: multiset<Job> := multiset{};
    while pending != multiset{}
      invariant AreJobs(subs, done + pending)
      invariant IsSent(p, encode, middlewares, done, sent)
      invariant IsEncodedOnce(sent, encoded) && IsMemo(presets, encode, encoded)
      decreases |pending|
    {
      var job :| job in pending;
      JobMoves(subs, done, pending, job);
      sent, encoded, presets := RunJob(p, job, encode, middlewares, sent, encoded, presets, done);
      pending, done := pending - multiset{job}, done + multiset{job};
    }
  }

  lemma JobMoves(subs: Subscribers, done: multiset<Job>, pending: multiset<Job>, job: Job)
    requires AreJobs(subs, done + pending) && job in pending
    ensures AreJobs(subs, (done + multiset{job}) + (pending - multiset{job}))
  {
    assert (done + multiset{job}) + (pending - multiset{job}) == done + pending;
  }

  /** The delivery of a job is the only one owed to it. */
  lemma SentMore(p: Pattern, encode: string -> Encoded, middlewares: seq<Filter>, done: multiset<Job>,
                 sent: seq<Delivery>, job: Job)
    requires IsSent(p, encode, middlewares, done, sent)
    ensures var text := Formatted(p, job.1);
      IsSent(p, encode, middlewares, done + multiset{job},
             if AcceptedBy(middlewares, job.0, job.1, text)
             then sent + [Delivery(job.0, job.1, text, encode(text))] else sent)
  {
  }

  lemma MemoMore(presets: map<string, Encoded>, encode: string -> Encoded, encoded: seq<string>, text: string)
    requires IsMemo(presets, encode, encoded)
    ensures text !in presets ==> IsMemo(presets[text := encode(text)], encode, encoded + [text])
  {
  }

  lemma EncodedMore(sent: seq<Delivery>, encoded: seq<string>, d: Delivery)
    requires IsEncodedOnce(sent, encoded)
    ensures IsEncodedOnce(sent + [d], if d.topic in encoded then encoded else encoded + [d.topic])
  {
    var more := if d.topic in encoded then encoded else encoded + [d.topic];
    assert d in sent + [d];
    forall text | text in more ensures exists e | e in sent + [d] :: e.topic == text {
      if text in encoded {
        var e :| e in sent && e.topic == text;
        assert e in sent + [d];
      }
    }
  }

  /** One goroutine. */
  method RunJob(p: Pattern, job: Job, encode: string -> Encoded, middlewares: seq<Filter>, sent: seq<Delivery>,
                encoded: seq<string>, presets: map<string, Encoded>, ghost done: multiset<Job>)
    returns (sent': seq<Delivery>, encoded': seq<string>, presets': map<string, Encoded>)
    requires IsSent(p, encode, middlewares, done, sent)
    requires IsEncodedOnce(sent, encoded) && IsMemo(presets, encode, encoded)
    ensures IsSent(p, encode, middlewares, done + multiset{job}, sent')
    ensures IsEncodedOnce(sent', encoded') && IsMemo(presets', encode, encoded')
  {
    SentMore(p, encode, middlewares, done, sent, job);
    sent', encoded', presets' := sent, encoded, presets;
    var text := Format(p, job.1);
    var accepted := RunMiddlewares(middlewares, job.0, job.1, text);
    if accepted {
      MemoMore(presets, encode, encoded, text);
      if text !in presets {
        presets' := presets[text := encode(text)];
        encoded' := encoded + [text];
      }
      var d := Delivery(job.0, job.1, text, presets'[text]);
      EncodedMore(sent, encoded, d);
      sent' := sent + [d];
    }
  }

  /** To well-formed subscribers each owed delivery is made exactly once. */
  lemma PublishedOnce(names: set<string>, p: Pattern, subs: Subscribers, encode: string -> Encoded,
                      middlewares: seq<Filter>, sent: seq<Delivery>, encoded: seq<string>, d: Delivery)
    requires IsSubscribers(names, subs) && IsPublished(p, subs, encode, middlewares, sent, encoded)
    ensures multiset(sent)[d] == if Holds(subs, d.conn, d.params) && IsOwed(p, encode, middlewares, d) then 1 else 0
  {
    if d.conn in subs {
      DistinctCounts(subs[d.conn], d.params);
    }
  }

  /** What a client subscribed to with its own text it is sent under that text, with only the descriptor
      changed, exactly when the middlewares accept it. */
  lemma SubscriberHearsOwnTopic(raw: string, p: Pattern, s: State, c: Conn, encode: string -> Encoded,
                                middlewares: seq<Filter>, sent: seq<Delivery>, encoded: seq<string>)
    requires TopicText.ParseTopic(raw).Parsed? && raw[|raw| - 1] != '@'
    requires Fits(p, TopicText.ParseTopic(raw).topic) && Consistent(p.path, TopicText.ParseTopic(raw).topic.path)
    requires var params := Captured(p.path, TopicText.ParseTopic(raw).topic.path);
      IsPublished(Under(p, "pub"), Added(s, c, params).subs, encode, middlewares, sent, encoded)
    ensures var req := TopicText.ParseTopic(raw).topic;
      var params, own := Captured(p.path, req.path), TopicText.Print(req.(descriptor := "pub"));
      && (Delivery(c, params, own, encode(own)) in sent <==>
            forall i | 0 <= i < |middlewares| :: middlewares[i](c, params, own))
  {
    var req := TopicText.ParseTopic(raw).topic;
    var params, own := Captured(p.path, req.path), TopicText.Print(req.(descriptor := "pub"));
    var d := Delivery(c, params, own, encode(own));
    SubToPub(raw, p, "pub");
    HoldsAfterAdd(s, c, params, c, params);
    assert d in sent <==> multiset(sent)[d] > 0;
    assert IsOwed(Under(p, "pub"), encode, middlewares, d) <==> AcceptedBy(middlewares, c, params, own);
  }

  /** Each topic text of a delivery was encoded once, and no other text was. */
  lemma EncodedOnce(sent: seq<Delivery>, encoded: seq<string>)
    requires IsEncodedOnce(sent, encoded)
    ensures forall text :: multiset(encoded)[text] == if exists d | d in sent :: d.topic == text then 1 else 0
  {
    forall text ensures multiset(encoded)[text] == if exists d | d in sent :: d.topic == text then 1 else 0 {
      DistinctCounts(encoded, text);
    }
  }

  /** An optional filter is one more middleware. */
  lemma AcceptedByMore(middlewares: seq<Filter>, filter: Option<Filter>, c: Conn, params: Params, text: string)
    ensures AcceptedBy(middlewares + (if filter.Some? then [filter.value] else []), c, params, text) <==>
      && (forall i | 0 <= i < |middlewares| :: middlewares[i](c, params, text))
      && (filter.Some? ==> filter.value(c, params, text))
  {
    var all := middlewares + (if filter.Some? then [filter.value] else []);
    assert forall i | 0 <= i < |middlewares| :: all[i] == middlewares[i];
    assert filter.Some? ==> all[|middlewares|] == filter.value;
  }

  lemma PublishedThrough(names: set<string>, p: Pattern, subs: Subscribers, encode: string -> Encoded,
                         middlewares: seq<Filter>, filter: Option<Filter>, sent: seq<Delivery>, encoded: seq<string>,
                         d: Delivery)
    requires IsSubscribers(names, subs)
    requires IsPublished(p, subs, encode, middlewares + (if filter.Some? then [filter.value] else []), sent, encoded)
    ensures multiset(sent)[d] ==
      if && Holds(subs, d.conn, d.params)
         && d.topic == Formatted(p, d.params) && d.data == encode(d.topic)
         && (forall i | 0 <= i < |middlewares| :: middlewares[i](d.conn, d.params, d.topic))
         && (filter.Some? ==> filter.value(d.conn, d.params, d.topic))
      then 1 else 0
  {
    PublishedOnce(names, p, subs, encode, middlewares + (if filter.Some? then [filter.value] else []), sent, encoded, d);
    AcceptedByMore(middlewares, filter, d.conn, d.params, d.topic);
  }

  class LiveTopic {
    const pattern: Pattern
    const middlewares: seq<Filter>
    var subs: Subscribers
    ghost var log: seq<Event>

    ghost predicate Valid()
      reads this
    {
      && (pattern.hasPlaceholders <==> Names(pattern.path) != {})
      && IsSubscribers(Names(pattern.path), subs)
    }

    ghost function Value(): State
      reads this
    {
      State(subs, log)
    }

    constructor (t: TopicText.Topic, middlewares: seq<Filter>)
      ensures Valid() && Value() == UNBOUND && pattern == PatternOf(t) && this.middlewares == middlewares
    {
      var p := NewPattern(t);
      PatternNames(t);
      pattern := p;
      this.middlewares := middlewares;
      subs, log := map[], [];
    }

    method AddSub(c: Conn, params: Params)
      requires Valid() && params.Keys == Names(pattern.path)
      modifies this
      ensures Valid()
      ensures Value() == Added(old(Value()), c, params)
      ensures forall d, q :: Holds(subs, d, q) <==> Holds(old(subs), d, q) || (d == c && q == params)
    {
      var pp: seq<Params> := [];
      if c in subs {
        pp := subs[c];
        if !pattern.hasPlaceholders {
          NoNamesNoChoice(pp[0], params);
          return;
        }
        for i := 0 to |pp|
          invariant Value() == old(Value()) && params !in pp[..i]
        {
          assert pp[..i + 1] == pp[..i] + [pp[i]];
          SameKeysEqual(params, pp[i]);
          if AreParamsEqual(params, pp[i]) {
            return;
          }
        }
        assert pp[..|pp|] == pp;
      }
      AddKeepsSubscribers(Names(pattern.path), Value(), c, params);
      if subs == map[] {
        log := log + [FirstSub];
      }
      subs := subs[c := pp + [params]];
      log := log + [Sub(c, params)];
    }

    method RemoveSub(c: Conn, params: Params)
      requires Valid() && params.Keys == Names(pattern.path)
      modifies this
      ensures Valid()
      ensures Value() == Removed(old(Value()), c, params)
      ensures forall d, q :: Holds(subs, d, q) <==> Holds(old(subs), d, q) && !(d == c && q == params)
    {
      if c !in subs {
        return;
      }
      forall d, q {
        HoldsAfterRemove(Names(pattern.path), subs, c, params, d, q);
      }
      RemoveKeepsSubscribers(Names(pattern.path), Value(), c, params);
      if pattern.hasPlaceholders {
        var pp := RemoveParams(subs[c], params, Names(pattern.path));
        subs := if pp == [] then subs - {c} else subs[c := pp];
      } else {
        OnlyOne(subs[c], params);
        subs := subs - {c};
      }
      log := log + [Unsub(c, params)];
      if subs == map[] {
        log := log + [LastUnsub];
      }
    }

    method RemoveConn(c: Conn)
      requires Valid()
      modifies this
      ensures Valid()
      ensures Value() == ConnRemoved(old(Value()), c)
      ensures forall d, q :: Holds(subs, d, q) <==> Holds(old(subs), d, q) && d != c
    {
      if c !in subs {
        return;
      }
      var pp := subs[c];
      for i := 0 to |pp|
        invariant log == old(log) + Unsubs(c, pp)[..i]
      {
        log := log + [Unsub(c, pp[i])];
      }
      assert Unsubs(c, pp)[..|pp|] == Unsubs(c, pp);
      subs := subs - {c};
      if subs == map[] {
        log := log + [LastUnsub];
      }
    }

    /** Sends an event under the descriptor `pub` to the subscriptions that the middlewares and the
        filter accept. */
    method PublishMany(encode: string -> Encoded, filter: Option<Filter>)
      returns (sent: seq<Delivery>, encoded: seq<string>)
      requires Valid()
      ensures IsPublished(Under(pattern, "pub"), subs, encode,
                          middlewares + (if filter.Some? then [filter.value] else []), sent, encoded)
      ensures forall d ::
        multiset(sent)[d] ==
          if && Holds(subs, d.conn, d.params)
             && d.topic == Formatted(Under(pattern, "pub"), d.params) && d.data == encode(d.topic)
             && (forall i | 0 <= i < |middlewares| :: middlewares[i](d.conn, d.params, d.topic))
             && (filter.Some? ==> filter.value(d.conn, d.params, d.topic))
          then 1 else 0
      ensures forall text :: multiset(encoded)[text] == if exists d | d in sent :: d.topic == text then 1 else 0
    {
      var all := middlewares;
      if filter.Some? {
        all := all + [filter.value];
      }
      assert all == middlewares + (if filter.Some? then [filter.value] else []);
      sent, encoded := Publish(Under(pattern, "pub"), subs, encode, all);
      EncodedOnce(sent, encoded);
      forall d {
        PublishedThrough(Names(pattern.path), Under(pattern, "pub"), subs, encode, middlewares, filter, sent, encoded, d);
      }
    }

    /** Removes the selected subscriptions and tells each under the descriptor `drop`. */
    method DropMany(encode: string -> Encoded, filter: Option<Filter>)
      returns (sent: seq<Delivery>, encoded: seq<string>)
      requires Valid()
      modifies this
      ensures Valid()
      ensures IsDropped(old(Value()), SelectionOf(filter, pattern), Value())
      ensures IsPublished(Under(pattern, "drop"), AllPicked(old(subs), SelectionOf(filter, pattern), true),
                          encode, [], sent, encoded)
      ensures forall c, q ::
        Holds(subs, c, q) <==>
          Holds(old(subs), c, q) && filter.Some? && !filter.value(c, q, Formatted(pattern, q))
      ensures forall d ::
        multiset(sent)[d] ==
          if && Holds(old(subs), d.conn, d.params)
             && (filter.None? || filter.value(d.conn, d.params, Formatted(pattern, d.params)))
             && d.topic == Formatted(Under(pattern, "drop"), d.params) && d.data == encode(d.topic)
          then 1 else 0
      ensures forall text :: multiset(encoded)[text] == if exists d | d in sent :: d.topic == text then 1 else 0
    {
      ghost var selected := SelectionOf(filter, pattern);
      var dropped, events := DropSubs(filter);
      if subs == map[] && dropped != map[] {
        log := log + [LastUnsub];
      }
      if subs == map[] {
        EmptiedByDrop(old(subs), selected);
      }
      AllPickedKeeps(Names(pattern.path), old(subs), selected, false);
      AllPickedKeeps(Names(pattern.path), old(subs), selected, true);
      sent, encoded := Publish(Under(pattern, "drop"), dropped, encode, []);
      EncodedOnce(sent, encoded);
      forall d {
        PublishedOnce(Names(pattern.path), Under(pattern, "drop"), dropped, encode, [], sent, encoded, d);
      }
    }

    /** The loop over the connections, in any order. */
    method DropSubs(filter: Option<Filter>) returns (dropped: Subscribers, ghost events: seq<Event>)
      requires Valid()
      modifies this
      ensures subs == AllPicked(old(subs), SelectionOf(filter, pattern), false)
      ensures dropped == AllPicked(old(subs), SelectionOf(filter, pattern), true)
      ensures forall c, q ::
        && (Holds(dropped, c, q) <==>
              Holds(old(subs), c, q) && (filter.None? || filter.value(c, q, Formatted(pattern, q))))
        && (Holds(subs, c, q) <==>
              Holds(old(subs), c, q) && filter.Some? && !filter.value(c, q, Formatted(pattern, q)))
      ensures log == old(log) + events && ListsUnsubs(events, dropped)
    {
      ghost var selected := SelectionOf(filter, pattern);
      dropped, events := map[], [];
      var rest := subs.Keys;
      while rest != {}
        invariant rest <= old(subs).Keys
        invariant subs == KeptSoFar(old(subs), selected, rest)
        invariant dropped == DroppedSoFar(old(subs), selected, rest)
        invariant log == old(log) + events && ListsUnsubs(events, dropped)
      {
        var c :| c in rest;
        assert subs[c] == old(subs)[c];
        var out, retained := DropParams(c, subs[c], filter);
        Reassociate(old(log), events, Unsubs(c, out));
        ListsMore(events, dropped, c, out);
        SoFarNext(old(subs), selected, rest, c);
        rest, events := rest - {c}, events + Unsubs(c, out);
        if out != [] {
          dropped := dropped[c := out];
        }
        subs := if retained == [] then subs - {c} else subs[c := retained];
      }
      SoFarWhole(old(subs), selected);
      SelectionHolds(Names(pattern.path), old(subs), filter, pattern);
    }

    /** The loop over the parameter maps of one connection. */
    method DropParams(c: Conn, pp: seq<Params>, filter: Option<Filter>)
      returns (dropped: seq<Params>, retained: seq<Params>)
      modifies this`log
      ensures dropped == Picked(c, pp, SelectionOf(filter, pattern), true)
      ensures retained == Picked(c, pp, SelectionOf(filter, pattern), false)
      ensures log == old(log) + Unsubs(c, dropped)
    {
      ghost var selected := SelectionOf(filter, pattern);
      dropped, retained := [], [];
      for i := 0 to |pp|
        invariant dropped == Picked(c, pp[..i], selected, true)
        invariant retained == Picked(c, pp[..i], selected, false)
        invariant log == old(log) + Unsubs(c, dropped)
      {
        assert pp[..i + 1][..i] == pp[..i];
        var text := Format(pattern, pp[i]);
        if filter.None? || filter.value(c, pp[i], text) {
          assert Unsubs(c, dropped + [pp[i]]) == Unsubs(c, dropped) + [Unsub(c, pp[i])];
          dropped := dropped + [pp[i]];
          log := log + [Unsub(c, pp[i])];
        } else {
          retained := retained + [pp[i]];
        }
      }
      assert pp[..|pp|] == pp;
    }
  }

  /** What a drop takes and keeps. */
  lemma SelectionHolds(names: set<string>, subs: Subscribers, filter: Option<Filter>, p: Pattern)
    requires IsSubscribers(names, subs)
    ensures forall c, q ::
      Holds(AllPicked(subs, SelectionOf(filter, p), true), c, q) <==>
        Holds(subs, c, q) && (filter.None? || filter.value(c, q, Formatted(p, q)))
    ensures forall c, q ::
      Holds(AllPicked(subs, SelectionOf(filter, p), false), c, q) <==>
        Holds(subs, c, q) && filter.Some? && !filter.value(c, q, Formatted(p, q))
  {
    forall c, q
      ensures Holds(AllPicked(subs, SelectionOf(filter, p), true), c, q) <==>
        Holds(subs, c, q) && SelectionOf(filter, p)(c, q)
      ensures Holds(AllPicked(subs, SelectionOf(filter, p), false), c, q) <==>
        Holds(subs, c, q) && !SelectionOf(filter, p)(c, q)
    {
      AllPickedHolds(names, subs, SelectionOf(filter, p), true, c, q);
      AllPickedHolds(names, subs, SelectionOf(filter, p), false, c, q);
    }
  }

  /** The subscribers while a drop still has connections to visit. */
  function KeptSoFar(subs: Subscribers, selected: Selection, rest: set<Conn>): Subscribers {
    map c | c in subs && (c in rest || Picked(c, subs[c], selected, false) != []) ::
      if c in rest then subs[c] else Picked(c, subs[c], selected, false)
  }

  function DroppedSoFar(subs: Subscribers, selected: Selection, rest: set<Conn>): Subscribers {
    map c | c in subs && c !in rest && Picked(c, subs[c], selected, true) != [] :: Picked(c, subs[c], selected, true)
  }

  lemma SoFarWhole(subs: Subscribers, selected: Selection)
    ensures KeptSoFar(subs, selected, {}) == AllPicked(subs, selected, false)
    ensures DroppedSoFar(subs, selected, {}) == AllPicked(subs, selected, true)
  {
  }

  lemma SoFarNext(subs: Subscribers, selected: Selection, rest: set<Conn>, c: Conn)
    requires c in subs && c in rest
    ensures KeptSoFar(subs, selected, rest - {c})
         == WithList(KeptSoFar(subs, selected, rest), c, Picked(c, subs[c], selected, false))
    ensures var out := Picked(c, subs[c], selected, true);
      DroppedSoFar(subs, selected, rest - {c})
        == if out == [] then DroppedSoFar(subs, selected, rest) else DroppedSoFar(subs, selected, rest)[c := out]
  {
  }

  lemma Reassociate(a: seq<Event>, b: seq<Event>, c: seq<Event>)
    ensures (a + b) + c == a + (b + c)
  {
  }

  lemma ListsMore(events: seq<Event>, dropped: Subscribers, c: Conn, out: seq<Params>)
    requires ListsUnsubs(events, dropped) && c !in dropped
    ensures ListsUnsubs(events + Unsubs(c, out), if out == [] then dropped else dropped[c := out])
  {
    forall e
      ensures var all := if out == [] then dropped else dropped[c := out];
        multiset(events + Unsubs(c, out))[e]
          == if e.Unsub? && e.conn in all then multiset(all[e.conn])[e.params] else 0
    {
      UnsubsHold(c, out, e);
    }
  }

  lemma UnsubsHold(c: Conn, pp: seq<Params>, e: Event)
    ensures multiset(Unsubs(c, pp))[e] == if e.Unsub? && e.conn == c then multiset(pp)[e.params] else 0
  {
    if e.Unsub? {
      UnsubsCount(c, pp, e.conn, e.params);
    } else if e in Unsubs(c, pp) {
      assert false;
    }
  }

  /** A drop empties the topic by dropping something exactly when there was something. */
  lemma EmptiedByDrop(subs: Subscribers, selected: Selection)
    requires forall c | c in subs :: subs[c] != []
    requires AllPicked(subs, selected, false) == map[]
    ensures AllPicked(subs, selected, true) != map[] <==> subs != map[]
  {
    if subs != map[] {
      var c :| c in subs;
      PickedPartition(c, subs[c], selected);
      assert c !in AllPicked(subs, selected, false);
      assert subs[c][0] in multiset(subs[c]);
      assert c in AllPicked(subs, selected, true);
    }
  }

  lemma PatternNames(t: TopicText.Topic)
    ensures PatternOf(t).hasPlaceholders <==> Names(PatternOf(t).path) != {}
  {
    var p := PatternOf(t);
    if p.hasPlaceholders {
      var e :| e in t.path && IsPlaceholderText(e);
      var i :| 0 <= i < |t.path| && t.path[i] == e;
      assert p.path[i].value in Names(p.path);
    }
    if Names(p.path) != {} {
      var name :| name in Names(p.path);
      var i :| 0 <= i < |p.path| && p.path[i].placeholder && p.path[i].value == name;
      assert t.path[i] in t.path;
    }
  }

  /** On maps with the same keys the one-directional comparison is equality. */
  lemma SameKeysEqual(p: Params, q: Params)
    requires p.Keys == q.Keys
    ensures AreParamsEqual(p, q) <==> p == q
  {
  }

  lemma NoNamesNoChoice(p: Params, q: Params)
    requires p.Keys == q.Keys == {}
    ensures p == q
  {
  }

  /** Without placeholders a connection holds the one empty parameter map. */
  lemma OnlyOne(pp: seq<Params>, p: Params)
    requires pp != [] && p.Keys == {}
    requires forall q | q in pp :: q.Keys == {}
    requires forall i, j | 0 <= i < j < |pp| :: pp[i] != pp[j]
    ensures pp == [p] && SwapRemoved(pp, p) == []
  {
    NoNamesNoChoice(pp[0], p);
    if |pp| > 1 {
      NoNamesNoChoice(pp[0], pp[1]);
    }
  }

  /** Swap removal in a list of parameter maps. */
  method RemoveParams(pp: seq<Params>, params: Params, ghost names: set<string>) returns (rest: seq<Params>)
    requires params.Keys == names && forall q | q in pp :: q.Keys == names
    ensures rest == SwapRemoved(pp, params)
  {
    rest := pp;
    for i := 0 to |pp|
      invariant rest == pp && forall j | 0 <= j < i :: pp[j] != params
    {
      SameKeysEqual(params, pp[i]);
      if AreParamsEqual(params, pp[i]) {
        assert FirstIndex(pp, params) == i;
        rest := rest[i := rest[|rest| - 1]];
        rest := rest[..|rest| - 1];
        return;
      }
    }
  }
}
