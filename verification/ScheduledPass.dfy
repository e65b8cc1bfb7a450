/** One pass of the reconnect loop as a function of its schedule: what others do at each of its points,
    what happens to each payload, and which batch the keeper hands out. Under any schedule a pass is a
    path of protocol steps; under the uninterrupted one it is a full pass. */
module ScheduledPass {
  import opened GroupedSubs
  import opened ServerPeer
  import opened Resubscription
  import opened FullPass

  /** What others do between two steps of the pass. */
  datatype Event =
    | CallSubscribe(topic: string, keys: seq<Key>)
    | CallUnsubscribe(topic: string, keys: seq<Key>)
    | CallUnsubscribeAll
    | LoseConnection
    | HandleMessage(verdict: bool)

  /** What happens to a payload besides finding the connection closed: the formatter produces no
      message, the request fails before or after it was written, or it is answered and the formatter
      confirms or ignores the answer. `cancelled` says that the keeper asks for a pause between payloads
      and that the context ends in the one after this payload. */
  datatype Reply = Reply(kind: ReplyKind, cancelled: bool)
  datatype ReplyKind = NoMessage | FailsUnwritten | FailsUnanswered | Answered(accepts: bool)

  /** What happens around one payload: what others do before it, what happens to it, and what others do
      during its request. */
  datatype Plan = Plan(before: seq<Event>, reply: Reply, during: seq<Event>)

  /** What others do while a lost connection is reopened, whether that succeeds, what others do before
      the payloads are taken, and the plan of each payload. */
  datatype Schedule = Schedule(opening: seq<Event>, reopens: bool, taking: seq<Event>, plans: nat -> Plan)

  // ---------------------------------------------------------------- the pass

  function Happened(w: World, e: Event): (r: World)
    ensures r.phase == w.phase && r.wire == w.wire
  {
    match e
    case CallSubscribe(topic, keys) => w.(subs := DoSubscribe(w.subs, topic, keys))
    case CallUnsubscribe(topic, keys) => w.(subs := DoUnsubscribe(w.subs, topic, keys))
    case CallUnsubscribeAll => w.(subs := DoUnsubscribeAll(w.subs))
    case LoseConnection => w.(open := false)
    case HandleMessage(verdict) =>
      if w.open && |w.verdicts| < |w.wire| then w.(verdicts := w.verdicts + [verdict]) else w
  }

  function Interfered(w: World, events: seq<Event>): (r: World)
    ensures r.phase == w.phase && r.wire == w.wire
  {
    if events == [] then w
    else Happened(Interfered(w, events[..|events| - 1]), events[|events| - 1])
  }

  /** The answer arrived, the server had accepted the message, and the formatter says so too. */
  predicate IsConfirmed(w: World, kind: ReplyKind) {
    kind == Answered(true) && |w.verdicts| == |w.wire| > 0 && w.verdicts[|w.verdicts| - 1]
  }

  /** The end of the wait for a response. */
  function Awaited(w: World, kind: ReplyKind): World
    requires IsAtPayload(w, true)
  {
    var p := Current(w);
    Advance(if IsConfirmed(w, kind) then w.(subs := DoConfirm(w.subs, p.subbed, p.topic, p.id, p.keys)) else w)
  }

  function Written(w: World): World
    requires IsAtPayload(w, false)
  {
    w.(wire := w.wire + [MsgOf(Current(w))], phase := w.phase.(waiting := true))
  }

  function Delivered(w: World, kind: ReplyKind, events: seq<Event>): World
    requires IsAtPayload(w, false)
  {
    if kind == NoMessage then Advance(w)
    else if !w.open then w.(phase := Idle)
    else if kind == FailsUnwritten then Advance(w)
    else Awaited(Interfered(Written(w), events), kind)
  }

  /** The world after the current payload, before the pause. */
  function Handled(w: World, plan: Plan): World
    requires IsAtPayload(w, false)
  {
    Delivered(Interfered(w, plan.before), plan.reply.kind, plan.during)
  }

  /** The context ends at the pause; there is one after every payload that was tried but the last. */
  predicate IsCancelled(w: World, reply: Reply)
    requires w.phase.Passing?
  {
    reply.kind != NoMessage && w.phase.at + 1 < |w.phase.batch| && reply.cancelled
  }

  function Paused(w: World, cancelled: bool): World {
    if cancelled && w.phase != Idle then w.(phase := Idle) else w
  }

  /** One turn of the loop over the payloads, and the pause before the next payload. */
  function Turn(w: World, plan: Plan): (r: World)
    requires IsAtPayload(w, false)
    ensures r.phase == Idle || r.phase == Advance(w).phase
  {
    Paused(Handled(w, plan), IsCancelled(w, plan.reply))
  }

  function Turns(w: World, schedule: Schedule): (r: World)
    requires w.phase.Passing? && !w.phase.waiting
    ensures r.phase == Idle
    decreases |w.phase.batch| - w.phase.at
  {
    if w.phase.at >= |w.phase.batch| then w.(phase := Idle)
    else
      var v := Turn(w, schedule.plans(w.phase.at));
      if v.phase == Idle then v else Turns(v, schedule)
  }

  /** A new connection has an empty history. */
  function Reopened(w: World, opens: bool): World {
    if opens then w.(open := true, wire := [], verdicts := [], phase := Ready) else w.(phase := Idle)
  }

  /** Checking the connection, and reopening a lost one after a reset of the keeper. */
  function Opened(w: World, schedule: Schedule): World {
    if w.open then w.(phase := Ready)
    else
      Reopened(Interfered(w.(subs := DoResetAll(w.subs), phase := Opening), schedule.opening), schedule.reopens)
  }

  /** The pass gets as far as taking the payloads. */
  predicate TakesPayloads(w: World, schedule: Schedule) {
    w.phase == Idle && (w.open || schedule.reopens)
  }

  /** The world in which it takes them. */
  function BeforeTaking(w: World, schedule: Schedule): World {
    Interfered(Opened(w, schedule), schedule.taking)
  }

  /** The batch is one the keeper may hand out there. */
  ghost predicate IsTaken(w: World, schedule: Schedule, batch: seq<Payload>) {
    TakesPayloads(w, schedule) ==> IsBatch(BeforeTaking(w, schedule).subs, batch)
  }

  /** The world after a pass. A pass that finds another one running does nothing. */
  function Pass(w: World, schedule: Schedule, batch: seq<Payload>): World {
    if w.phase != Idle then w
    else if !TakesPayloads(w, schedule) then Opened(w, schedule)
    else Turns(BeforeTaking(w, schedule).(phase := Passing(batch, 0, false)), schedule)
  }

  // ---------------------------------------------------------------- what the pass does

  /** The step of the protocol that an event is. */
  function ActionOf(e: Event): Action {
    match e
    case CallSubscribe(topic, keys) => UserSubscribe(topic, keys)
    case CallUnsubscribe(topic, keys) => UserUnsubscribe(topic, keys)
    case CallUnsubscribeAll => UserUnsubscribeAll
    case LoseConnection => Lose
    case HandleMessage(verdict) => Handle(verdict)
  }

  /** An event takes its step, unless there is no connection or no message for it; events happen one
      after the other. */
  lemma EventsAreSteps(w: World, e: Event, more: seq<Event>)
    ensures Enabled(w, ActionOf(e)) ==> Interfered(w, [e]) == Next(w, ActionOf(e))
    ensures !Enabled(w, ActionOf(e)) ==> Interfered(w, [e]) == w
    ensures Interfered(w, []) == w
    ensures Interfered(w, [e] + more) == Interfered(Interfered(w, [e]), more)
  {
    assert [e][..0] == [];
    InterferedConcat(w, [e], more);
  }

  lemma {:induction false} InterferedConcat(w: World, events: seq<Event>, more: seq<Event>)
    ensures Interfered(w, events + more) == Interfered(Interfered(w, events), more)
  {
    if more == [] {
      assert events + more == events;
    } else {
      InterferedConcat(w, events, more[..|more| - 1]);
      assert (events + more)[..|events + more| - 1] == events + more[..|more| - 1];
    }
  }

  lemma {:induction false} InterferedStaysClosed(w: World, events: seq<Event>)
    requires !w.open
    ensures !Interfered(w, events).open
  {
    if events != [] {
      InterferedStaysClosed(w, events[..|events| - 1]);
    }
  }

  /** The pass goes on exactly when the connection was open or could be reopened; a reopened connection
      has no history, and the keeper was reset before anybody else acted. */
  lemma OpenedExactly(w: World, schedule: Schedule)
    requires w.phase == Idle
    ensures var r := Opened(w, schedule);
      && (w.open ==> r == w.(phase := Ready))
      && (!w.open ==> r.open == schedule.reopens && r.phase == if schedule.reopens then Ready else Idle)
      && (!w.open && schedule.reopens ==> r.wire == [] && r.verdicts == [])
      && (!w.open ==> r.subs == Interfered(Next(w, CheckClosed), schedule.opening).subs)
  {
    if !w.open {
      InterferedStaysClosed(Next(w, CheckClosed), schedule.opening);
    }
  }

  /** Exactly when a turn ends the pass: the payload had a message, and the connection was found closed or
      the pause after it, which there is after every payload but the last, was cancelled. */
  lemma TurnEndsExactly(w: World, plan: Plan)
    requires IsAtPayload(w, false)
    ensures var r := Turn(w, plan);
      && (r.phase == Idle <==>
            plan.reply.kind != NoMessage
            && (!Interfered(w, plan.before).open || (w.phase.at < |w.phase.batch| - 1 && plan.reply.cancelled)))
      && (r.phase != Idle ==> r.phase == Passing(w.phase.batch, w.phase.at + 1, false))
  {
  }

  /** A message is written: there is one, the connection is open, and writing does not fail. */
  predicate IsWritten(w: World, plan: Plan) {
    plan.reply.kind != NoMessage && plan.reply.kind != FailsUnwritten && Interfered(w, plan.before).open
  }

  /** A turn that writes no message changes nothing but the place in the batch. */
  lemma TurnWritesNothing(w: World, plan: Plan)
    requires IsAtPayload(w, false) && !IsWritten(w, plan)
    ensures Turn(w, plan) == Interfered(w, plan.before).(phase := Turn(w, plan).phase)
  {
  }

  lemma AwaitedActsExactly(u: World, kind: ReplyKind)
    requires IsAtPayload(u, true)
    ensures var p, r := Current(u), Awaited(u, kind);
      && r.wire == u.wire && r.verdicts == u.verdicts && r.open == u.open
      && r.subs == if kind == Answered(true) && |u.verdicts| == |u.wire| > 0 && u.verdicts[|u.verdicts| - 1]
                   then DoConfirm(u.subs, p.subbed, p.topic, p.id, p.keys) else u.subs
  {
  }

  /** A turn that writes one writes the current payload's, and confirms the payload exactly when the
      message was handled and accepted and the formatter accepts the answer. */
  lemma {:induction false} TurnActsExactly(w: World, plan: Plan)
    requires IsAtPayload(w, false) && IsWritten(w, plan)
    ensures var p, before, r := Current(w), Interfered(w, plan.before), Turn(w, plan);
      && Enabled(before, Send)
      && var u := Interfered(Next(before, Send), plan.during);
         && r.wire == u.wire == w.wire + [MsgOf(p)]
         && r.verdicts == u.verdicts && r.open == u.open
         && r.subs == if plan.reply.kind == Answered(true) && |u.verdicts| == |u.wire| > 0 && u.verdicts[|u.verdicts| - 1]
                      then DoConfirm(u.subs, p.subbed, p.topic, p.id, p.keys) else u.subs
  {
    var before := Interfered(w, plan.before);
    assert Next(before, Send) == Written(before);
    AwaitedActsExactly(Interfered(Written(before), plan.during), plan.reply.kind);
  }

  /** After a cancelled pause no further message is written. */
  lemma CancelledPassStops(w: World, schedule: Schedule)
    requires IsAtPayload(w, false) && w.phase.at < |w.phase.batch| - 1
    requires var reply := schedule.plans(w.phase.at).reply; reply.kind != NoMessage && reply.cancelled
    ensures Turns(w, schedule) == Turn(w, schedule.plans(w.phase.at))
    ensures |Turns(w, schedule).wire| <= |w.wire| + 1
  {
    var plan := schedule.plans(w.phase.at);
    TurnEndsExactly(w, plan);
    if IsWritten(w, plan) {
      TurnActsExactly(w, plan);
    } else {
      TurnWritesNothing(w, plan);
    }
  }

  /** Without one, and with the connection open, the pass goes on to the next payload. */
  lemma UncancelledPassGoesOn(w: World, schedule: Schedule)
    requires IsAtPayload(w, false) && Interfered(w, schedule.plans(w.phase.at).before).open
    requires !schedule.plans(w.phase.at).reply.cancelled
    ensures var r := Turn(w, schedule.plans(w.phase.at));
      && r.phase == Passing(w.phase.batch, w.phase.at + 1, false)
      && Turns(w, schedule) == Turns(r, schedule)
  {
    TurnEndsExactly(w, schedule.plans(w.phase.at));
  }

  // ---------------------------------------------------------------- paths of protocol steps

  /** The actions lead from one world to another. */
  ghost predicate Path(w: World, actions: seq<Action>, r: World)
    decreases |actions|
  {
    if actions == [] then r == w
    else Enabled(w, actions[0]) && Path(Next(w, actions[0]), actions[1..], r)
  }

  lemma StepThen(w: World, a: Action, rest: seq<Action>, r: World)
    requires Enabled(w, a) && Path(Next(w, a), rest, r)
    ensures Path(w, [a] + rest, r)
  {
    assert ([a] + rest)[1..] == rest;
  }

  lemma RegroupFirst(actions: seq<Action>, more: seq<Action>)
    requires actions != []
    ensures [actions[0]] + (actions[1..] + more) == actions + more
  {
  }

  lemma {:induction false} PathThen(w: World, actions: seq<Action>, m: World, more: seq<Action>, r: World)
    requires Path(w, actions, m) && Path(m, more, r)
    ensures Path(w, actions + more, r)
    decreases |actions|
  {
    if actions == [] {
      assert [] + more == more;
    } else {
      PathThen(Next(w, actions[0]), actions[1..], m, more, r);
      StepThen(w, actions[0], actions[1..] + more, r);
      RegroupFirst(actions, more);
    }
  }

  lemma OneStep(w: World, a: Action)
    requires Enabled(w, a)
    ensures Path(w, [a], Next(w, a))
  {
    assert [a][1..] == [];
  }

  /** A path from a reachable world stays among the reachable worlds. */
  lemma {:induction false} PathIsRun(start: seq<Action>, actions: seq<Action>, r: World)
    requires CanRun(start) && Path(Run(start), actions, r)
    ensures CanRun(start + actions) && Run(start + actions) == r
    decreases |actions|
  {
    if actions == [] {
      assert start + actions == start;
    } else {
      Extend(start, actions[0]);
      PathIsRun(start + [actions[0]], actions[1..], r);
      Regroup(start, actions);
    }
  }

  lemma Regroup(start: seq<Action>, actions: seq<Action>)
    requires actions != []
    ensures (start + [actions[0]]) + actions[1..] == start + actions
  {
  }

  lemma HappenedIsPath(w: World, e: Event) returns (path: seq<Action>)
    ensures Path(w, path, Happened(w, e))
  {
    if (e.LoseConnection? && !w.open) || (e.HandleMessage? && !(w.open && |w.verdicts| < |w.wire|)) {
      return [];
    }
    var a := match e
      case CallSubscribe(topic, keys) => UserSubscribe(topic, keys)
      case CallUnsubscribe(topic, keys) => UserUnsubscribe(topic, keys)
      case CallUnsubscribeAll => UserUnsubscribeAll
      case LoseConnection => Lose
      case HandleMessage(verdict) => Handle(verdict);
    OneStep(w, a);
    path := [a];
  }

  lemma {:induction false} InterferedIsPath(w: World, events: seq<Event>) returns (path: seq<Action>)
    ensures Path(w, path, Interfered(w, events))
  {
    path := [];
    if events != [] {
      var n := |events| - 1;
      path := InterferedIsPath(w, events[..n]);
      var last := HappenedIsPath(Interfered(w, events[..n]), events[n]);
      PathThen(w, path, Interfered(w, events[..n]), last, Interfered(w, events));
      path := path + last;
    }
  }

  lemma AwaitedIsStep(w: World, kind: ReplyKind) returns (a: Action)
    requires IsAtPayload(w, true)
    ensures Enabled(w, a) && Next(w, a) == Awaited(w, kind)
  {
    a := if IsConfirmed(w, kind) then Respond(true) else ResponseFails;
  }

  lemma RequestIsPath(w: World, kind: ReplyKind, events: seq<Event>) returns (path: seq<Action>)
    requires IsAtPayload(w, false) && w.open
    ensures Path(w, path, Awaited(Interfered(Written(w), events), kind))
  {
    OneStep(w, Send);
    var m := Interfered(Written(w), events);
    var middle := InterferedIsPath(Written(w), events);
    PathThen(w, [Send], Written(w), middle, m);
    var a := AwaitedIsStep(m, kind);
    OneStep(m, a);
    PathThen(w, [Send] + middle, m, [a], Next(m, a));
    path := [Send] + middle + [a];
  }

  lemma DeliveredIsPath(w: World, kind: ReplyKind, events: seq<Event>) returns (path: seq<Action>)
    requires IsAtPayload(w, false)
    ensures Path(w, path, Delivered(w, kind, events))
  {
    if kind != NoMessage && w.open && kind != FailsUnwritten {
      path := RequestIsPath(w, kind, events);
    } else {
      var a := if kind == NoMessage then Skip else if !w.open then FindClosed else SendFails;
      OneStep(w, a);
      path := [a];
    }
  }

  lemma HandledIsPath(w: World, plan: Plan) returns (path: seq<Action>)
    requires IsAtPayload(w, false)
    ensures Path(w, path, Handled(w, plan))
  {
    var m := Interfered(w, plan.before);
    var first := InterferedIsPath(w, plan.before);
    var more := DeliveredIsPath(m, plan.reply.kind, plan.during);
    var v := Handled(w, plan);
    PathThen(w, first, m, more, v);
    path := first + more;
  }

  lemma TurnIsPath(w: World, plan: Plan) returns (path: seq<Action>)
    requires IsAtPayload(w, false)
    ensures Path(w, path, Turn(w, plan))
  {
    path := HandledIsPath(w, plan);
    var v := Handled(w, plan);
    if v != Turn(w, plan) {
      OneStep(v, Cancel);
      PathThen(w, path, v, [Cancel], Turn(w, plan));
      path := path + [Cancel];
    }
  }

  lemma {:induction false} TurnsArePath(w: World, schedule: Schedule) returns (path: seq<Action>)
    requires w.phase.Passing? && !w.phase.waiting
    ensures Path(w, path, Turns(w, schedule))
    decreases |w.phase.batch| - w.phase.at
  {
    if w.phase.at >= |w.phase.batch| {
      OneStep(w, EndPass);
      return [EndPass];
    }
    var plan := schedule.plans(w.phase.at);
    path := TurnIsPath(w, plan);
    var v := Turn(w, plan);
    if v.phase != Idle {
      var more := TurnsArePath(v, schedule);
      PathThen(w, path, v, more, Turns(v, schedule));
      path := path + more;
    }
  }

  lemma OpenedIsPath(w: World, schedule: Schedule) returns (path: seq<Action>)
    requires w.phase == Idle
    ensures Path(w, path, Opened(w, schedule))
  {
    if w.open {
      OneStep(w, CheckOpen);
      return [CheckOpen];
    }
    OneStep(w, CheckClosed);
    var closed := Next(w, CheckClosed);
    var m := Interfered(closed, schedule.opening);
    var middle := InterferedIsPath(closed, schedule.opening);
    PathThen(w, [CheckClosed], closed, middle, m);
    var a := if schedule.reopens then Reopen else ReopenFails;
    OneStep(m, a);
    PathThen(w, [CheckClosed] + middle, m, [a], Next(m, a));
    path := [CheckClosed] + middle + [a];
  }

  lemma TakingIsPath(w: World, schedule: Schedule, batch: seq<Payload>) returns (path: seq<Action>)
    requires TakesPayloads(w, schedule) && IsTaken(w, schedule, batch)
    ensures Path(w, path, BeforeTaking(w, schedule).(phase := Passing(batch, 0, false)))
  {
    path := OpenedIsPath(w, schedule);
    var more := InterferedIsPath(Opened(w, schedule), schedule.taking);
    var m := BeforeTaking(w, schedule);
    PathThen(w, path, Opened(w, schedule), more, m);
    OneStep(m, TakePayloads(batch));
    PathThen(w, path + more, m, [TakePayloads(batch)], Next(m, TakePayloads(batch)));
    path := path + more + [TakePayloads(batch)];
  }

  /** Under any schedule a pass is a path of protocol steps. */
  lemma PassIsPath(w: World, schedule: Schedule, batch: seq<Payload>) returns (path: seq<Action>)
    requires IsTaken(w, schedule, batch)
    ensures Path(w, path, Pass(w, schedule, batch))
  {
    if w.phase != Idle {
      path := [];
    } else if !TakesPayloads(w, schedule) {
      path := OpenedIsPath(w, schedule);
    } else {
      path := TakingIsPath(w, schedule, batch);
      var m := BeforeTaking(w, schedule).(phase := Passing(batch, 0, false));
      var more := TurnsArePath(m, schedule);
      PathThen(w, path, m, more, Turns(m, schedule));
      path := path + more;
    }
  }

  /** A pass from a reachable world ends in a reachable world, so what holds of all runs holds after it. */
  lemma PassIsRun(start: seq<Action>, schedule: Schedule, batch: seq<Payload>) returns (more: seq<Action>)
    requires CanRun(start) && IsTaken(Run(start), schedule, batch)
    ensures CanRun(start + more) && Run(start + more) == Pass(Run(start), schedule, batch)
  {
    more := PassIsPath(Run(start), schedule, batch);
    PathIsRun(start, more, Pass(Run(start), schedule, batch));
  }

  // ---------------------------------------------------------------- the uninterrupted schedule

  /** The connection reopens, the server accepts every message, every response is accepted, and nobody
      else does anything. */
  ghost predicate IsUninterrupted(schedule: Schedule) {
    && schedule.opening == [] && schedule.reopens && schedule.taking == []
    && forall i :: schedule.plans(i) == UNDISTURBED
  }

  const UNDISTURBED := Plan([], Reply(Answered(true), false), [HandleMessage(true)])

  lemma TurnIsDelivery(w: World)
    requires CanDeliver(w) && w.phase.at < |w.phase.batch|
    ensures Turn(w, UNDISTURBED) == Deliver(w)
  {
    assert [HandleMessage(true)][..0] == [];
    assert Interfered(Written(w), [HandleMessage(true)]) == Next(Next(w, Send), Handle(true));
  }

  lemma {:induction false} TurnsAreDeliveries(w: World, schedule: Schedule)
    requires CanDeliver(w) && forall i | i >= w.phase.at :: schedule.plans(i) == UNDISTURBED
    ensures Turns(w, schedule) == Next(DeliverRest(w), EndPass)
    decreases |w.phase.batch| - w.phase.at
  {
    if w.phase.at < |w.phase.batch| {
      TurnIsDelivery(w);
      TurnsAreDeliveries(Deliver(w), schedule);
    }
  }

  /** Without interruption a pass on a lost connection is a full reconnect pass ... */
  lemma UninterruptedReconnect(w: World, schedule: Schedule, batch: seq<Payload>)
    requires Inv(w) && w.phase == Idle && !w.open && IsUninterrupted(schedule)
    requires IsTaken(w, schedule, batch)
    ensures IsBatch(DoResetAll(w.subs), batch)
    ensures Pass(w, schedule, batch) == AfterReconnect(w, batch)
  {
    var ready := Reconnected(w);
    assert BeforeTaking(w, schedule) == ready;
    NextKeepsInv(ready, TakePayloads(batch));
    TurnsAreDeliveries(Next(ready, TakePayloads(batch)), schedule);
  }

  /** ... and a pass on an open one settles every waiting key. */
  lemma UninterruptedOpenPass(w: World, schedule: Schedule, batch: seq<Payload>)
    requires Inv(w) && w.phase == Idle && w.open && |w.verdicts| == |w.wire| && IsUninterrupted(schedule)
    requires IsTaken(w, schedule, batch)
    ensures IsBatch(w.subs, batch)
    ensures Pass(w, schedule, batch) == AfterOpenPass(w, batch)
  {
    var ready := Next(w, CheckOpen);
    NextKeepsInv(w, CheckOpen);
    assert BeforeTaking(w, schedule) == ready;
    NextKeepsInv(ready, TakePayloads(batch));
    TurnsAreDeliveries(Next(ready, TakePayloads(batch)), schedule);
  }

  // ---------------------------------------------------------------- messages still under way

  function Handles(verdicts: seq<bool>): seq<Event> {
    seq(|verdicts|, i requires 0 <= i < |verdicts| => HandleMessage(verdicts[i]))
  }

  lemma {:induction false} InterferedHandles(w: World, verdicts: seq<bool>)
    requires w.open && |w.verdicts| + |verdicts| <= |w.wire|
    ensures Interfered(w, Handles(verdicts)) == CaughtUp(w, verdicts)
  {
    if verdicts == [] {
      assert w.verdicts + verdicts == w.verdicts;
    } else {
      var n := |verdicts| - 1;
      InterferedHandles(w, verdicts[..n]);
      assert Handles(verdicts)[..n] == Handles(verdicts[..n]);
      assert w.verdicts + verdicts == w.verdicts + verdicts[..n] + [verdicts[n]];
    }
  }

  /** Nobody interrupts the pass, but the server handles messages of earlier passes, in whatever way,
      before it handles the first message of this one. */
  ghost predicate IsLate(schedule: Schedule, late: seq<bool>) {
    && schedule.taking == []
    && schedule.plans(0) == Plan([], Reply(Answered(true), false), Handles(late + [true]))
    && forall i | i > 0 :: schedule.plans(i) == UNDISTURBED
  }

  lemma LateTurn(w: World, late: seq<bool>)
    requires Inv(w) && w.open && IsAtPayload(w, false) && |w.verdicts| + |late| == |w.wire|
    requires CanDeliver(CaughtUp(w, late))
    ensures Turn(w, Plan([], Reply(Answered(true), false), Handles(late + [true]))) == Deliver(CaughtUp(w, late))
  {
    InterferedHandles(Written(w), late + [true]);
    assert w.verdicts + (late + [true]) == w.verdicts + late + [true];
  }

  /** A pass over a batch that starts with messages of timed-out requests still under way ends as if the
      server had handled them before. */
  lemma LateOpenPass(w: World, schedule: Schedule, batch: seq<Payload>, late: seq<bool>)
    requires Inv(w) && w.phase == Idle && w.open && |w.verdicts| + |late| == |w.wire|
    requires IsLate(schedule, late) && batch != [] && IsTaken(w, schedule, batch)
    ensures IsBatch(w.subs, batch) && Inv(CaughtUp(w, late))
    ensures Pass(w, schedule, batch) == AfterOpenPass(CaughtUp(w, late), batch)
  {
    CaughtUpKeepsInv(w, late);
    var v, ready := CaughtUp(w, late), Next(w, CheckOpen);
    assert BeforeTaking(w, schedule) == ready;
    NextKeepsInv(w, CheckOpen);
    NextKeepsInv(ready, TakePayloads(batch));
    NextKeepsInv(v, CheckOpen);
    NextKeepsInv(Next(v, CheckOpen), TakePayloads(batch));
    var taken := Next(ready, TakePayloads(batch));
    LateTurn(taken, late);
    TurnsAreDeliveries(Deliver(CaughtUp(taken, late)), schedule);
  }
}
