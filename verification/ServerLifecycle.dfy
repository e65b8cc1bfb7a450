/** The lifecycle of server connections: registration, requests and closings, step by step. */
module ServerLifecycle {
  import opened TopicSubs

  // A connection is closed by its reader, its writer and others. A closing shuts it first: no request can
  // be read from then on. It then goes through the topics one at a time under the router's read lock, so
  // topics are bound between closings only.

  /** The identity of one call of the closing procedure. */
  type Closing = nat

  /** Before the topics, in the middle of them, before the deletion from the pool, finished. */
  datatype Stage = Called | Removing(visited: set<string>) | Deleting | Finished

  datatype Closer = Closer(conn: Conn, stage: Stage)

  /** A reader reads a request, handles it and reads the next. It ends with a closing of its own. */
  datatype Reader = Registered | Reading | Handling | Leaving(closing: Closing) | Terminated

  datatype World = World(
    conns: set<Conn>,
    shut: set<Conn>,
    topics: map<string, set<Conn>>,
    readers: map<Conn, Reader>,
    closers: map<Closing, Closer>)

  const INITIAL := World({}, {}, map[], map[], map[])

  datatype Action =
    | Register(conn: Conn)
    | StartReader(conn: Conn)
    | Bind(topic: string)
    | ReaderReads(conn: Conn)
    | ReaderIgnores(conn: Conn)
    | ReaderAdds(conn: Conn, topic: string)
    // the connection stays in the topic unless these were its last parameters there
    | ReaderRemoves(conn: Conn, topic: string, last: bool)
    | Drop(topic: string, dropped: set<Conn>)
    | ReaderLeaves(conn: Conn, closing: Closing)
    // the writer, or a call that closes selected connections
    | OtherCloses(conn: Conn, closing: Closing)
    | EnterRouter(closing: Closing)
    | RemoveFromTopic(closing: Closing, topic: string)
    | LeaveRouter(closing: Closing)
    | DeleteConn(closing: Closing)
    | ReaderTerminates(conn: Conn)

  predicate IsReader(w: World, c: Conn, r: Reader) {
    c in w.readers && w.readers[c] == r
  }

  predicate IsAt(w: World, id: Closing, stage: Stage) {
    id in w.closers && w.closers[id].stage == stage
  }

  ghost predicate Enabled(w: World, a: Action) {
    match a
    case Register(c) => c !in w.readers
    case StartReader(c) => IsReader(w, c, Registered)
    // the router is locked for writing
    case Bind(t) => t !in w.topics && forall id | id in w.closers :: !w.closers[id].stage.Removing?
    case ReaderReads(c) => IsReader(w, c, Reading) && c !in w.shut
    // the request is not valid, or finds no topic
    case ReaderIgnores(c) => IsReader(w, c, Handling)
    case ReaderAdds(c, t) => IsReader(w, c, Handling) && t in w.topics
    case ReaderRemoves(c, t, _) => IsReader(w, c, Handling) && t in w.topics
    case Drop(t, _) => t in w.topics
    // a read fails, or handling a request panics
    case ReaderLeaves(c, id) => (IsReader(w, c, Reading) || IsReader(w, c, Handling)) && id !in w.closers
    case OtherCloses(c, id) => c in w.readers && id !in w.closers
    case EnterRouter(id) => IsAt(w, id, Called)
    case RemoveFromTopic(id, t) =>
      id in w.closers && w.closers[id].stage.Removing? && t in w.topics && t !in w.closers[id].stage.visited
    case LeaveRouter(id) => IsAt(w, id, Removing(w.topics.Keys))
    case DeleteConn(id) => IsAt(w, id, Deleting)
    case ReaderTerminates(c) =>
      c in w.readers && w.readers[c].Leaving? && IsAt(w, w.readers[c].closing, Finished)
  }

  function AtStage(w: World, id: Closing, stage: Stage): World
    requires id in w.closers
  {
    w.(closers := w.closers[id := w.closers[id].(stage := stage)])
  }

  function Next(w: World, a: Action): World
    requires Enabled(w, a)
  {
    match a
    case Register(c) => w.(conns := w.conns + {c}, readers := w.readers[c := Registered])
    case StartReader(c) => w.(readers := w.readers[c := Reading])
    case Bind(t) => w.(topics := w.topics[t := {}])
    case ReaderReads(c) => w.(readers := w.readers[c := Handling])
    case ReaderIgnores(c) => w.(readers := w.readers[c := Reading])
    case ReaderAdds(c, t) =>
      w.(topics := w.topics[t := w.topics[t] + {c}], readers := w.readers[c := Reading])
    case ReaderRemoves(c, t, last) =>
      w.(topics := w.topics[t := if last then w.topics[t] - {c} else w.topics[t]], readers := w.readers[c := Reading])
    case Drop(t, dropped) => w.(topics := w.topics[t := w.topics[t] - dropped])
    case ReaderLeaves(c, id) =>
      w.(readers := w.readers[c := Leaving(id)], closers := w.closers[id := Closer(c, Called)])
    case OtherCloses(c, id) => w.(closers := w.closers[id := Closer(c, Called)])
    // the connection was shut just before
    case EnterRouter(id) => AtStage(w.(shut := w.shut + {w.closers[id].conn}), id, Removing({}))
    case RemoveFromTopic(id, t) =>
      var c := w.closers[id];
      AtStage(w.(topics := w.topics[t := w.topics[t] - {c.conn}]), id, Removing(c.stage.visited + {t}))
    case LeaveRouter(id) => AtStage(w, id, Deleting)
    case DeleteConn(id) => AtStage(w.(conns := w.conns - {w.closers[id].conn}), id, Finished)
    case ReaderTerminates(c) => w.(readers := w.readers[c := Terminated])
  }

  // ---------------------------------------------------------------- the invariant

  ghost predicate IsInNoTopic(w: World, c: Conn) {
    forall t | t in w.topics :: c !in w.topics[t]
  }

  ghost predicate IsGone(w: World, c: Conn) {
    IsInNoTopic(w, c) && c !in w.conns
  }

  /** How far the reader's own closing has got. */
  ghost predicate IsClearedBy(w: World, c: Conn, stage: Stage) {
    match stage
    case Called => true
    case Removing(visited) => visited <= w.topics.Keys && forall t | t in visited :: c !in w.topics[t]
    case Deleting => IsInNoTopic(w, c)
    case Finished => IsGone(w, c)
  }

  ghost predicate IsReaderSafe(w: World, c: Conn)
    requires c in w.readers
  {
    match w.readers[c]
    case Leaving(id) => id in w.closers && w.closers[id].conn == c && IsClearedBy(w, c, w.closers[id].stage)
    case Terminated => IsGone(w, c)
    case _ => true
  }

  ghost predicate Inv(w: World) {
    && (forall c | c in w.readers :: IsReaderSafe(w, c))
    && (forall t, c | t in w.topics && c in w.topics[t] :: c in w.readers)
    && (forall id | id in w.closers :: w.closers[id].conn in w.readers)
  }

  lemma NextKeepsReader(w: World, a: Action, c: Conn)
    requires Inv(w) && Enabled(w, a) && c in Next(w, a).readers
    ensures IsReaderSafe(Next(w, a), c)
  {
    var r := Next(w, a);
    if c in w.readers {
      assert IsReaderSafe(w, c);
    }
  }

  lemma NextKeepsInv(w: World, a: Action)
    requires Inv(w) && Enabled(w, a)
    ensures Inv(Next(w, a))
  {
    var r := Next(w, a);
    forall c | c in r.readers ensures IsReaderSafe(r, c) {
      NextKeepsReader(w, a, c);
    }
  }

  // ---------------------------------------------------------------- runs

  ghost predicate CanRun(actions: seq<Action>)
    decreases |actions|, 0
  {
    actions == [] ||
    (CanRun(actions[..|actions| - 1]) && Enabled(Run(actions[..|actions| - 1]), actions[|actions| - 1]))
  }

  ghost function Run(actions: seq<Action>): World
    requires CanRun(actions)
    decreases |actions|, 1
  {
    if actions == [] then INITIAL
    else Next(Run(actions[..|actions| - 1]), actions[|actions| - 1])
  }

  lemma {:induction false} RunKeepsInv(actions: seq<Action>)
    requires CanRun(actions)
    ensures Inv(Run(actions))
  {
    if actions != [] {
      RunKeepsInv(actions[..|actions| - 1]);
      NextKeepsInv(Run(actions[..|actions| - 1]), actions[|actions| - 1]);
    }
  }

  /** In every run a connection whose reader has terminated is in no topic and not in the pool, and
      no further step brings it back. */
  lemma {:induction false} TerminatedIsGone(actions: seq<Action>, c: Conn)
    requires CanRun(actions) && IsReader(Run(actions), c, Terminated)
    ensures IsGone(Run(actions), c)
    ensures forall a | Enabled(Run(actions), a) :: IsReader(Next(Run(actions), a), c, Terminated)
  {
    RunKeepsInv(actions);
    var w := Run(actions);
    assert IsReaderSafe(w, c);
    forall a | Enabled(w, a) ensures IsReader(Next(w, a), c, Terminated) {
      NextStaysTerminated(w, a, c);
    }
  }

  lemma NextStaysTerminated(w: World, a: Action, c: Conn)
    requires IsReader(w, c, Terminated) && Enabled(w, a)
    ensures IsReader(Next(w, a), c, Terminated)
  {
  }

  lemma Extend(actions: seq<Action>, a: Action)
    requires CanRun(actions) && Enabled(Run(actions), a)
    ensures CanRun(actions + [a]) && Run(actions + [a]) == Next(Run(actions), a)
  {
    assert (actions + [a])[..|actions|] == actions;
  }

  // ---------------------------------------------------------------- what is in a topic and in the pool

  predicate IsIn(w: World, c: Conn, t: string) {
    t in w.topics && c in w.topics[t]
  }

  /** The action takes the connection out of the topic, whether or not it is in there. */
  predicate TakesOut(w: World, a: Action, c: Conn, t: string) {
    || (a.ReaderRemoves? && a.conn == c && a.topic == t && a.last)
    || (a.Drop? && a.topic == t && c in a.dropped)
    || (a.RemoveFromTopic? && a.topic == t && a.closing in w.closers && w.closers[a.closing].conn == c)
  }

  lemma NextInTopic(w: World, a: Action, c: Conn, t: string)
    requires Enabled(w, a)
    ensures IsIn(Next(w, a), c, t) <==> a == ReaderAdds(c, t) || (IsIn(w, c, t) && !TakesOut(w, a, c, t))
  {
  }

  /** The reader subscribed the connection to the topic, and nothing took it out since. */
  ghost predicate IsAddedSince(actions: seq<Action>, c: Conn, t: string)
    requires CanRun(actions)
  {
    if actions == [] then false
    else
      var before, last := actions[..|actions| - 1], actions[|actions| - 1];
      last == ReaderAdds(c, t) || (IsAddedSince(before, c, t) && !TakesOut(Run(before), last, c, t))
  }

  /** In every run a connection is in a topic exactly when its reader subscribed it there and nothing
      took it out afterwards: neither its own last unsubscription nor a drop nor a closing. */
  lemma {:induction false} InTopicExactly(actions: seq<Action>, c: Conn, t: string)
    requires CanRun(actions)
    ensures IsIn(Run(actions), c, t) <==> IsAddedSince(actions, c, t)
  {
    if actions != [] {
      InTopicExactly(actions[..|actions| - 1], c, t);
      NextInTopic(Run(actions[..|actions| - 1]), actions[|actions| - 1], c, t);
    }
  }

  /** In every run a connection is in the pool exactly when it was registered and no closing of it has
      finished, and it is shut exactly when a closing of it has got past its first stage. */
  lemma {:induction false} InPoolExactly(actions: seq<Action>, c: Conn)
    requires CanRun(actions)
    ensures var w := Run(actions);
      && (c in w.readers <==> Register(c) in actions)
      && (c in w.conns <==>
            Register(c) in actions && forall id | id in w.closers && w.closers[id].conn == c :: w.closers[id].stage != Finished)
      && (c in w.shut <==> exists id :: id in w.closers && w.closers[id].conn == c && w.closers[id].stage != Called)
  {
    if actions != [] {
      var n := |actions| - 1;
      RunKeepsInv(actions[..n]);
      InPoolExactly(actions[..n], c);
      NextInPool(Run(actions[..n]), actions[n], c);
      assert actions == actions[..n] + [actions[n]];
    }
  }

  ghost predicate HasFinished(w: World, c: Conn) {
    exists id :: id in w.closers && w.closers[id].conn == c && w.closers[id].stage == Finished
  }

  ghost predicate HasEntered(w: World, c: Conn) {
    exists id :: id in w.closers && w.closers[id].conn == c && w.closers[id].stage != Called
  }

  lemma NextFinished(w: World, a: Action, c: Conn)
    requires Enabled(w, a)
    ensures HasFinished(Next(w, a), c) <==> HasFinished(w, c) || (a.DeleteConn? && w.closers[a.closing].conn == c)
  {
    var r := Next(w, a);
    if id :| id in w.closers && w.closers[id].conn == c && w.closers[id].stage == Finished {
      assert id in r.closers && r.closers[id] == w.closers[id];
    }
    if a.DeleteConn? {
      assert r.closers[a.closing].stage == Finished;
    }
    if id :| id in r.closers && r.closers[id].conn == c && r.closers[id].stage == Finished {
      assert id in w.closers && (r.closers[id] == w.closers[id] || (a.DeleteConn? && id == a.closing));
    }
  }

  lemma NextEntered(w: World, a: Action, c: Conn)
    requires Enabled(w, a)
    ensures HasEntered(Next(w, a), c) <==> HasEntered(w, c) || (a.EnterRouter? && w.closers[a.closing].conn == c)
  {
    var r := Next(w, a);
    if id :| id in w.closers && w.closers[id].conn == c && w.closers[id].stage != Called {
      assert id in r.closers && r.closers[id].conn == c && r.closers[id].stage != Called;
    }
    if a.EnterRouter? {
      assert r.closers[a.closing].stage != Called;
    }
    if id :| id in r.closers && r.closers[id].conn == c && r.closers[id].stage != Called {
      assert id in w.closers && w.closers[id].conn == c;
      assert w.closers[id].stage != Called || (a.EnterRouter? && id == a.closing);
    }
  }

  lemma NextInPool(w: World, a: Action, c: Conn)
    requires Enabled(w, a)
    requires forall id | id in w.closers :: w.closers[id].conn in w.readers
    requires c in w.conns <==> c in w.readers && !HasFinished(w, c)
    requires c in w.shut <==> HasEntered(w, c)
    ensures var r := Next(w, a);
      && (c in r.readers <==> c in w.readers || a == Register(c))
      && (c in r.conns <==> c in r.readers && !HasFinished(r, c))
      && (c in r.shut <==> HasEntered(r, c))
  {
    NextFinished(w, a, c);
    NextEntered(w, a, c);
  }

  // ---------------------------------------------------------------- when a connection may come back

  /** The reader holds a request, or it may still read one. */
  predicate MayAdd(w: World, c: Conn) {
    || IsReader(w, c, Handling)
    || (c !in w.shut && (IsReader(w, c, Registered) || IsReader(w, c, Reading)))
  }

  /** The reader gets no further request, and the connection is out of every topic. */
  ghost predicate StaysOut(w: World, c: Conn) {
    c in w.readers && !MayAdd(w, c) && IsInNoTopic(w, c)
  }

  lemma NextStaysOut(w: World, a: Action, c: Conn)
    requires StaysOut(w, c) && Enabled(w, a)
    ensures StaysOut(Next(w, a), c)
  {
  }

  lemma {:induction false} RunStaysOut(actions: seq<Action>, more: seq<Action>, c: Conn)
    requires CanRun(actions) && StaysOut(Run(actions), c) && CanRun(actions + more)
    ensures StaysOut(Run(actions + more), c)
  {
    if more == [] {
      assert actions + more == actions;
    } else {
      var n := |more| - 1;
      assert (actions + more)[..|actions + more| - 1] == actions + more[..n];
      RunStaysOut(actions, more[..n], c);
      NextStaysOut(Run(actions + more[..n]), more[n], c);
    }
  }

  ghost predicate ComesBack(actions: seq<Action>, more: seq<Action>, c: Conn, t: string) {
    CanRun(actions + more) && var w := Run(actions + more); t in w.topics && c in w.topics[t]
  }

  lemma ComesBackLater(actions: seq<Action>, a: Action, more: seq<Action>, c: Conn, t: string)
    requires ComesBack(actions + [a], more, c, t)
    ensures ComesBack(actions, [a] + more, c, t)
  {
    assert actions + [a] + more == actions + ([a] + more);
  }

  /** The reader gets as far as its next subscription. */
  lemma {:induction false} RunComesBack(actions: seq<Action>, c: Conn, t: string) returns (more: seq<Action>)
    requires CanRun(actions) && MayAdd(Run(actions), c) && t in Run(actions).topics
    ensures ComesBack(actions, more, c, t)
    decreases match Run(actions).readers[c] { case Registered => 2 case Reading => 1 case _ => 0 }
  {
    var r := Run(actions).readers[c];
    if r == Handling {
      Extend(actions, ReaderAdds(c, t));
      more := [ReaderAdds(c, t)];
    } else {
      var a := if r == Registered then StartReader(c) else ReaderReads(c);
      Extend(actions, a);
      more := RunComesBack(actions + [a], c, t);
      ComesBackLater(actions, a, more, c, t);
      more := [a] + more;
    }
  }

  /** A connection that is in no topic can come into a topic again exactly when its reader holds a
      request, or when nobody has shut the connection and its reader has not begun to leave. */
  lemma MayComeBackExactly(actions: seq<Action>, c: Conn, t: string)
    requires CanRun(actions) && IsInNoTopic(Run(actions), c)
    requires c in Run(actions).readers && t in Run(actions).topics
    ensures (exists more :: ComesBack(actions, more, c, t)) <==> MayAdd(Run(actions), c)
  {
    if MayAdd(Run(actions), c) {
      var more := RunComesBack(actions, c, t);
    } else {
      forall more | CanRun(actions + more) ensures !ComesBack(actions, more, c, t) {
        RunStaysOut(actions, more, c);
      }
    }
  }

  /** How many subscriptions of the connection some actions make. */
  function Adds(actions: seq<Action>, c: Conn): nat {
    if actions == [] then 0
    else
      var last := actions[|actions| - 1];
      Adds(actions[..|actions| - 1], c) + (if last.ReaderAdds? && last.conn == c then 1 else 0)
  }

  function Held(w: World, c: Conn): nat {
    if IsReader(w, c, Handling) then 1 else 0
  }

  lemma NextStaysShut(w: World, a: Action, c: Conn)
    requires Inv(w) && c in w.shut && c in w.readers && Enabled(w, a)
    ensures var r := Next(w, a);
      && c in r.shut && c in r.readers
      && Held(r, c) + (if a.ReaderAdds? && a.conn == c then 1 else 0) <= Held(w, c)
  {
  }

  /** Once the connection is shut, its reader subscribes it at most once more, and only with a request
      it already holds. */
  lemma {:induction false} ShutAddsAtMostOnce(actions: seq<Action>, more: seq<Action>, c: Conn)
    requires CanRun(actions) && CanRun(actions + more)
    requires c in Run(actions).shut && c in Run(actions).readers
    ensures c in Run(actions + more).shut && c in Run(actions + more).readers
    ensures Adds(more, c) + Held(Run(actions + more), c) <= Held(Run(actions), c)
  {
    if more == [] {
      assert actions + more == actions;
    } else {
      var n := |more| - 1;
      assert (actions + more)[..|actions + more| - 1] == actions + more[..n];
      ShutAddsAtMostOnce(actions, more[..n], c);
      RunKeepsInv(actions + more[..n]);
      NextStaysShut(Run(actions + more[..n]), more[n], c);
    }
  }

  // ---------------------------------------------------------------- closing by others is not enough

  lemma RunToHandling(c: Conn, t: string) returns (actions: seq<Action>)
    ensures CanRun(actions)
    ensures Run(actions) == World({c}, {}, map[t := {}], map[c := Handling], map[])
  {
    Extend([], Bind(t));
    actions := [] + [Bind(t)];
    Extend(actions, Register(c));
    actions := actions + [Register(c)];
    Extend(actions, StartReader(c));
    actions := actions + [StartReader(c)];
    Extend(actions, ReaderReads(c));
    actions := actions + [ReaderReads(c)];
    assert Run(actions).readers == map[c := Handling];
  }

  lemma RunToRemoving(c: Conn, t: string) returns (actions: seq<Action>)
    ensures CanRun(actions)
    ensures Run(actions) == World({c}, {c}, map[t := {}], map[c := Handling], map[0 := Closer(c, Removing({}))])
  {
    actions := RunToHandling(c, t);
    Extend(actions, OtherCloses(c, 0));
    actions := actions + [OtherCloses(c, 0)];
    assert Run(actions).closers == map[0 := Closer(c, Called)];
    Extend(actions, EnterRouter(0));
    actions := actions + [EnterRouter(0)];
    assert Run(actions).closers == map[0 := Closer(c, Removing({}))];
  }

  lemma RunToRemoved(c: Conn, t: string) returns (actions: seq<Action>)
    ensures CanRun(actions)
    ensures Run(actions) == World({c}, {c}, map[t := {}], map[c := Handling], map[0 := Closer(c, Removing({t}))])
  {
    actions := RunToRemoving(c, t);
    Extend(actions, RemoveFromTopic(0, t));
    actions := actions + [RemoveFromTopic(0, t)];
    var none: set<Conn> := {};
    assert none - {c} == none && {} + {t} == {t};
    assert Run(actions).topics == map[t := none];
    assert Run(actions).closers == map[0 := Closer(c, Removing({t}))];
  }

  lemma RunToClosed(c: Conn, t: string) returns (actions: seq<Action>)
    ensures CanRun(actions)
    ensures Run(actions) == World({}, {c}, map[t := {}], map[c := Handling], map[0 := Closer(c, Finished)])
  {
    actions := RunToRemoved(c, t);
    assert Run(actions).topics.Keys == {t};
    Extend(actions, LeaveRouter(0));
    actions := actions + [LeaveRouter(0)];
    Extend(actions, DeleteConn(0));
    actions := actions + [DeleteConn(0)];
    assert Run(actions).conns == {} && Run(actions).closers == map[0 := Closer(c, Finished)];
  }

  /** Another caller may finish closing a connection while its reader holds a request; the reader then
      subscribes it once more. */
  lemma ClosedMaySubscribe(c: Conn, t: string) returns (actions: seq<Action>)
    ensures CanRun(actions)
    ensures var w := Run(actions);
      && IsAt(w, 0, Finished) && w.closers[0].conn == c
      && c !in w.conns && t in w.topics && c in w.topics[t]
  {
    actions := RunToClosed(c, t);
    Extend(actions, ReaderAdds(c, t));
    actions := actions + [ReaderAdds(c, t)];
  }
}
