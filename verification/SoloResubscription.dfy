/** The resubscription protocol with a solo keeper. A payload is the subscription itself: the message
    is made from its direction when it is sent, and the direction is read once more when the response
    arrives. Payloads are confirmed automatically; the server never drops a subscription on its own. */
module SoloResubscription {
  import opened Wrappers
  import opened SoloSubs
  import opened ServerPeer

  datatype Phase = NotStarted | Idle | Opening | Ready | Passing(batch: seq<nat>, at: nat) | Waiting(batch: seq<nat>, at: nat)

  datatype World = World(subs: Subs, open: bool, phase: Phase, wire: seq<Msg<string>>, verdicts: seq<bool>)

  const INITIAL := World(EMPTY, false, NotStarted, [], [])

  datatype Action =
    | UserSubscribe(topic: string)
    | UserUnsubscribe(topic: string)
    | UserUnsubscribeLocal(topic: string)
    | UserUnsubscribeAll
    | Lose
    | Handle(verdict: bool)
    | Start
    | CheckOpen
    | CheckClosed
    | Reopen
    | ReopenFails
    | TakePayloads(taken: seq<nat>)
    | Skip
    | FindClosed
    | SendFails
    | Send
    | ResponseFails
    | Respond(confirmed: bool)
    | Cancel
    | EndPass

  predicate IsAtPayload(w: World) {
    w.phase.Passing? && w.phase.at < |w.phase.batch| && w.phase.batch[w.phase.at] < |w.subs.data|
  }

  predicate IsWaiting(w: World) {
    w.phase.Waiting? && w.phase.at < |w.phase.batch| && w.phase.batch[w.phase.at] < |w.subs.data|
  }

  /** The subscription the pass is at, as it is now. */
  function Current(w: World): Sub
    requires IsAtPayload(w) || IsWaiting(w)
  {
    w.subs.data[w.phase.batch[w.phase.at]]
  }

  function MsgOf(sub: Sub): Msg<string> {
    Msg(sub.subbed, {sub.topic})
  }

  ghost predicate Enabled(w: World, a: Action) {
    match a
    case UserSubscribe(_) | UserUnsubscribe(_) | UserUnsubscribeLocal(_) | UserUnsubscribeAll => true
    case Lose => w.open
    case Handle(_) => w.open && |w.verdicts| < |w.wire|
    case Start => w.phase == NotStarted
    case CheckOpen => w.phase == Idle && w.open
    case CheckClosed => w.phase == Idle && !w.open
    case Reopen | ReopenFails => w.phase == Opening
    case TakePayloads(taken) => w.phase == Ready && IsBatch(w.subs, taken)
    case Skip | SendFails => IsAtPayload(w)
    case FindClosed => IsAtPayload(w) && !w.open
    case Send => IsAtPayload(w) && w.open
    case ResponseFails => IsWaiting(w)
    case Respond(confirmed) =>
      && IsWaiting(w) && |w.verdicts| == |w.wire| > 0
      && (confirmed ==> w.verdicts[|w.verdicts| - 1])
    case Cancel => w.phase.Passing?
    case EndPass => w.phase.Passing? && w.phase.at >= |w.phase.batch|
  }

  function Next(w: World, a: Action): World
    requires Enabled(w, a)
  {
    match a
    case UserSubscribe(t) => w.(subs := DoSubscribe(w.subs, t))
    case UserUnsubscribe(t) => w.(subs := DoUnsubscribe(w.subs, t))
    case UserUnsubscribeLocal(t) => w.(subs := DoUnsubscribeLocal(w.subs, t))
    case UserUnsubscribeAll => w.(subs := DoUnsubscribeAll(w.subs))
    case Lose => w.(open := false)
    case Handle(verdict) => w.(verdicts := w.verdicts + [verdict])
    case Start => w.(open := true, phase := Idle)
    case CheckOpen => w.(phase := Ready)
    case CheckClosed => w.(subs := DoResetAll(w.subs), phase := Opening)
    case Reopen => w.(open := true, phase := Ready, wire := [], verdicts := [])
    case ReopenFails | FindClosed | Cancel | EndPass => w.(phase := Idle)
    case TakePayloads(taken) => w.(phase := Passing(taken, 0))
    case Skip | SendFails | ResponseFails => w.(phase := Passing(w.phase.batch, w.phase.at + 1))
    case Send => w.(wire := w.wire + [MsgOf(Current(w))], phase := Waiting(w.phase.batch, w.phase.at))
    case Respond(confirmed) =>
      var r := w.(phase := Passing(w.phase.batch, w.phase.at + 1));
      // the closure reads the direction again
      if confirmed then
        r.(subs := DoConfirm(w.subs, Current(w).subbed, Current(w).topic, w.phase.batch[w.phase.at]))
      else r
  }

  // ---------------------------------------------------------------- the invariant

  /** The subscriptions still to be delivered exist, wait for a message, are of different topics, and
      no topic of a waiting unsubscription among them is live. */
  ghost predicate IsAhead(s: Subs, batch: seq<nat>, at: nat) {
    && (forall j | at <= j < |batch| :: batch[j] < |s.data| && !s.data[batch[j]].confirmed)
    && (forall i, j | at <= i < j < |batch| :: s.data[batch[i]].topic != s.data[batch[j]].topic)
    && (forall j | at <= j < |batch| && !s.data[batch[j]].subbed :: !IsLive(s, s.data[batch[j]].topic))
  }

  ghost predicate AllSafe(w: World)
    requires |w.verdicts| <= |w.wire|
  {
    forall t | IsLive(w.subs, t) :: IsSafe(w.wire, w.verdicts, t)
  }

  ghost predicate Inv(w: World) {
    && IsSubs(w.subs)
    && |w.verdicts| <= |w.wire|
    && (w.open ==> AllSafe(w))
    && (w.phase == NotStarted || w.phase == Opening ==> !w.open && forall t :: !IsLive(w.subs, t))
    && (w.phase == NotStarted ==> w.wire == [])
    && (w.phase.Passing? ==> IsAhead(w.subs, w.phase.batch, w.phase.at))
    && (w.phase.Waiting? ==>
         && IsAhead(w.subs, w.phase.batch, w.phase.at)
         && IsWaiting(w)
         && |w.wire| > 0 && w.wire[|w.wire| - 1] == MsgOf(Current(w)))
  }

  lemma QuietKeepsInv(w: World, r: Subs)
    requires Inv(w) && IsQuiet(w.subs, r)
    ensures Inv(w.(subs := r))
  {
  }

  lemma TakePayloadsKeepsInv(w: World, taken: seq<nat>)
    requires Inv(w) && Enabled(w, TakePayloads(taken))
    ensures Inv(Next(w, TakePayloads(taken)))
  {
    var s := w.subs;
    forall j | 0 <= j < |taken|
      ensures taken[j] < |s.data| && !s.data[taken[j]].confirmed
      ensures s.data[taken[j]].topic in s.topics && s.topics[s.data[taken[j]].topic] == taken[j]
    {
      assert taken[j] in taken;
      var t :| t in s.topics && s.topics[t] == taken[j];
    }
  }

  lemma SendKeepsInv(w: World)
    requires Inv(w) && Enabled(w, Send)
    ensures Inv(Next(w, Send))
  {
    var msg := MsgOf(Current(w));
    forall t | IsLive(w.subs, t) ensures IsSafe(w.wire + [msg], w.verdicts, t) {
      SafeAfterSending(w.wire, w.verdicts, msg, t);
    }
  }

  lemma HandleKeepsInv(w: World, verdict: bool)
    requires Inv(w) && Enabled(w, Handle(verdict))
    ensures Inv(Next(w, Handle(verdict)))
  {
    forall t | IsLive(w.subs, t) ensures IsSafe(w.wire, w.verdicts + [verdict], t) {
      SafeAfterHandling(w.wire, w.verdicts, verdict, t);
    }
  }

  lemma RespondKeepsInv(w: World)
    requires Inv(w) && Enabled(w, Respond(true))
    ensures Inv(Next(w, Respond(true)))
  {
    var c, id := Current(w), w.phase.batch[w.phase.at];
    var r := Next(w, Respond(true)).subs;
    forall t | IsLive(r, t)
      ensures IsLive(w.subs, t) || (c.subbed && t == c.topic)
      ensures w.open ==> IsSafe(w.wire, w.verdicts, t)
    {
      if !IsLive(w.subs, t) {
        assert r.topics[t] == id;
        SafeAfterAccepted(w.wire, w.verdicts, t);
      }
    }
  }

  /** Every step of the protocol keeps the invariant. */
  lemma NextKeepsInv(w: World, a: Action)
    requires Inv(w) && Enabled(w, a)
    ensures Inv(Next(w, a))
  {
    match a
    case UserSubscribe(t) =>
      SubscribeIsQuiet(w.subs, t);
      QuietKeepsInv(w, DoSubscribe(w.subs, t));
    case UserUnsubscribe(t) =>
      UnsubscribeIsQuiet(w.subs, t);
      QuietKeepsInv(w, DoUnsubscribe(w.subs, t));
    case UserUnsubscribeLocal(t) =>
      UnsubscribeLocalIsQuiet(w.subs, t);
      QuietKeepsInv(w, DoUnsubscribeLocal(w.subs, t));
    case UserUnsubscribeAll =>
      UnsubscribeAllIsQuiet(w.subs);
      QuietKeepsInv(w, DoUnsubscribeAll(w.subs));
    case CheckClosed => ResetAllIsQuiet(w.subs);
    case Handle(verdict) => HandleKeepsInv(w, verdict);
    case TakePayloads(taken) => TakePayloadsKeepsInv(w, taken);
    case Send => SendKeepsInv(w);
    case Respond(confirmed) =>
      if confirmed {
        RespondKeepsInv(w);
      }
    case _ =>
  }

  // ---------------------------------------------------------------- runs

  ghost predicate CanRun(actions: seq<Action>)
    decreases |actions|, 0
  {
    actions == [] ||
    (CanRun(actions[..|actions| - 1]) && Enabled(Run(actions[..|actions| - 1]), actions[|actions| - 1]))
  }

  ghost function Run(actions: seq<Action>): World
    requires CanRun(actions)
    decreases |actions|, 1
  {
    if actions == [] then INITIAL
    else Next(Run(actions[..|actions| - 1]), actions[|actions| - 1])
  }

  lemma {:induction false} RunKeepsInv(actions: seq<Action>)
    requires CanRun(actions)
    ensures Inv(Run(actions))
  {
    if actions != [] {
      RunKeepsInv(actions[..|actions| - 1]);
      NextKeepsInv(Run(actions[..|actions| - 1]), actions[|actions| - 1]);
    }
  }

  /** In every run, when a response arrives, the direction its closure reads is the direction of the
      message that was sent. */
  lemma DirectionIsKept(actions: seq<Action>)
    requires CanRun(actions) && Run(actions).phase.Waiting?
    ensures var w := Run(actions);
      && IsWaiting(w) && |w.wire| > 0
      && w.wire[|w.wire| - 1].subbed == Current(w).subbed
      && w.wire[|w.wire| - 1].items == {Current(w).topic}
      && !Current(w).confirmed
  {
    RunKeepsInv(actions);
  }

  /** In every run, while the connection is open, the server holds every confirmed subscription. */
  lemma {:induction false} ConfirmedIsServed(actions: seq<Action>)
    requires CanRun(actions)
    ensures var w := Run(actions);
      |w.verdicts| <= |w.wire| &&
      (w.open ==> forall t | IsLive(w.subs, t) :: t in Served(w.wire, w.verdicts))
  {
    RunKeepsInv(actions);
    var w := Run(actions);
    if w.open {
      forall t | IsLive(w.subs, t) ensures t in Served(w.wire, w.verdicts) {
        assert IsSafe(w.wire, w.verdicts, t);
      }
    }
  }

  // ---------------------------------------------------------------- the connection of a run

  /** A connection was made, and it was not lost since. */
  function IsConnected(actions: seq<Action>): bool {
    if actions == [] then false
    else
      match actions[|actions| - 1]
      case Start | Reopen => true
      case Lose => false
      case _ => IsConnected(actions[..|actions| - 1])
  }

  /** How many messages were sent on the last connection. */
  function Sends(actions: seq<Action>): nat {
    if actions == [] || actions[|actions| - 1].Reopen? then 0
    else Sends(actions[..|actions| - 1]) + (if actions[|actions| - 1].Send? then 1 else 0)
  }

  /** What the server made of the messages of the last connection, as far as it got. */
  function Verdicts(actions: seq<Action>): seq<bool> {
    if actions == [] || actions[|actions| - 1].Reopen? then []
    else
      var last := actions[|actions| - 1];
      Verdicts(actions[..|actions| - 1]) + (if last.Handle? then [last.verdict] else [])
  }

  lemma NextConnection(w: World, a: Action)
    requires Enabled(w, a)
    ensures var r := Next(w, a);
      && r.open == (a.Start? || a.Reopen? || (w.open && !a.Lose?))
      && |r.wire| == (if a.Reopen? then 0 else if a.Send? then |w.wire| + 1 else |w.wire|)
      && r.verdicts == (if a.Reopen? then [] else if a.Handle? then w.verdicts + [a.verdict] else w.verdicts)
  {
  }

  /** In every run the connection is what the actions made of it. */
  lemma {:induction false} ConnectionExactly(actions: seq<Action>)
    requires CanRun(actions)
    ensures var w := Run(actions);
      && w.open == IsConnected(actions)
      && |w.wire| == Sends(actions)
      && w.verdicts == Verdicts(actions)
  {
    if actions != [] {
      ConnectionExactly(actions[..|actions| - 1]);
      NextConnection(Run(actions[..|actions| - 1]), actions[|actions| - 1]);
    }
  }

  // ---------------------------------------------------------------- the place of the pass in a run

  /** The last step of the client's constructor or of its loop. */
  function LastPassStep(actions: seq<Action>): Option<Action> {
    if actions == [] then None
    else
      match actions[|actions| - 1]
      case UserSubscribe(_) | UserUnsubscribe(_) | UserUnsubscribeLocal(_) | UserUnsubscribeAll | Lose | Handle(_) => LastPassStep(actions[..|actions| - 1])
      case a => Some(a)
  }

  /** How many payloads were tried since the last batch was taken. */
  function Tried(actions: seq<Action>): nat {
    if actions == [] || actions[|actions| - 1].TakePayloads? then 0
    else
      var a := actions[|actions| - 1];
      Tried(actions[..|actions| - 1]) + (if a.Skip? || a.SendFails? || a.ResponseFails? || a.Respond? then 1 else 0)
  }

  predicate LeavesIdle(a: Action) {
    a.Start? || a.ReopenFails? || a.FindClosed? || a.Cancel? || a.EndPass?
  }

  /** The phase by the last step of the pass and the number of payloads tried. */
  predicate IsPhaseAfter(phase: Phase, last: Option<Action>, tried: nat) {
    && (phase == NotStarted <==> last.None?)
    && (phase == Idle <==> last.Some? && LeavesIdle(last.value))
    && (phase == Opening <==> last == Some(CheckClosed))
    && (phase == Ready <==> last == Some(CheckOpen) || last == Some(Reopen))
    && (phase.Waiting? <==> last == Some(Send))
    && (phase.Passing? || phase.Waiting? ==> phase.at == tried)
    && (last.Some? && last.value.TakePayloads? ==> phase.Passing? && phase.batch == last.value.taken)
  }

  lemma NextPhase(w: World, a: Action, last: Option<Action>, tried: nat)
    requires Enabled(w, a) && IsPhaseAfter(w.phase, last, tried)
    ensures a.UserSubscribe? || a.UserUnsubscribe? || a.UserUnsubscribeLocal? || a.UserUnsubscribeAll? || a.Lose? || a.Handle? ==>
      IsPhaseAfter(Next(w, a).phase, last, tried)
    ensures a.TakePayloads? ==> IsPhaseAfter(Next(w, a).phase, Some(a), 0)
    ensures a.Skip? || a.SendFails? || a.ResponseFails? || a.Respond? ==>
      IsPhaseAfter(Next(w, a).phase, Some(a), tried + 1)
    ensures a.Start? || a.CheckOpen? || a.CheckClosed? || a.Reopen? || a.ReopenFails? || a.FindClosed? || a.Send?
            || a.Cancel? || a.EndPass? ==>
      IsPhaseAfter(Next(w, a).phase, Some(a), tried)
  {
  }

  /** In every run the pass is where its last step and the payloads it tried have brought it. */
  lemma {:induction false} PhaseExactly(actions: seq<Action>)
    requires CanRun(actions)
    ensures IsPhaseAfter(Run(actions).phase, LastPassStep(actions), Tried(actions))
  {
    if actions != [] {
      var n := |actions| - 1;
      PhaseExactly(actions[..n]);
      NextPhase(Run(actions[..n]), actions[n], LastPassStep(actions[..n]), Tried(actions[..n]));
    }
  }

  // ---------------------------------------------------------------- what the caller asked for

  /** What an action does to the flag a caller would keep for one topic. */
  function Flagged(flag: bool, a: Action, t: string): bool {
    match a
    case UserSubscribe(topic) => flag || topic == t
    case UserUnsubscribe(topic) => flag && topic != t
    case UserUnsubscribeLocal(topic) => flag && topic != t
    case UserUnsubscribeAll => false
    case _ => flag
  }

  function Flag(actions: seq<Action>, t: string): bool {
    if actions == [] then false
    else Flagged(Flag(actions[..|actions| - 1], t), actions[|actions| - 1], t)
  }

  predicate IsSubbed(s: Subs, t: string) {
    HasTopic(s, t) && s.data[s.topics[t]].subbed
  }

  /** The keeper ignores the caller's subscription while an unsubscription is pending, or loses it to
      a response to an unsubscription that was forgotten locally. */
  ghost predicate IsLossy(w: World, a: Action)
    requires Enabled(w, a)
  {
    match a
    case UserSubscribe(t) => HasTopic(w.subs, t) && IsPending(w.subs.data[w.subs.topics[t]])
    case Respond(confirmed) => confirmed && !Current(w).subbed && IsSubbed(w.subs, Current(w).topic)
    case _ => false
  }

  /** One step: the stored subscriptions go on following the caller's flags exactly when the step is
      not one of those two. */
  lemma StepFollowsFlags(w: World, before: seq<Action>, a: Action)
    requires Inv(w) && Enabled(w, a)
    requires forall t :: IsSubbed(w.subs, t) == Flag(before, t)
    ensures (forall t :: IsSubbed(Next(w, a).subs, t) == Flag(before + [a], t)) <==> !IsLossy(w, a)
  {
    var r := Next(w, a).subs;
    assert (before + [a])[..|before|] == before;
    forall t ensures Flag(before + [a], t) == Flagged(Flag(before, t), a, t) {
    }
    if IsLossy(w, a) {
      var t := if a.UserSubscribe? then a.topic else Current(w).topic;
      assert IsSubbed(r, t) != Flagged(Flag(before, t), a, t);
    } else {
      forall t ensures IsSubbed(r, t) == Flagged(IsSubbed(w.subs, t), a, t) {
        StepFollowsFlag(w, a, t);
      }
    }
  }

  lemma StepFollowsFlag(w: World, a: Action, t: string)
    requires Inv(w) && Enabled(w, a) && !IsLossy(w, a)
    ensures IsSubbed(Next(w, a).subs, t) == Flagged(IsSubbed(w.subs, t), a, t)
  {
    match a
    case UserUnsubscribeAll => NothingSubbedAfterAll(w.subs, t);
    case CheckClosed => SubbedAfterReset(w.subs, t);
    case Respond(confirmed) =>
      if confirmed {
        SubbedAfterConfirm(w.subs, w.phase.batch[w.phase.at], t);
      }
    case _ =>
  }

  lemma NothingSubbedAfterAll(s: Subs, t: string)
    requires IsSubs(s)
    ensures !IsSubbed(DoUnsubscribeAll(s), t)
  {
    if t in s.topics {
      assert s.topics[t] in s.topics.Values;
    }
  }

  lemma SubbedAfterReset(s: Subs, t: string)
    requires IsSubs(s)
    ensures IsSubbed(DoResetAll(s), t) == IsSubbed(s, t)
  {
    if t in s.topics {
      assert s.topics[t] in s.topics.Values;
    }
  }

  lemma SubbedAfterConfirm(s: Subs, id: nat, t: string)
    requires IsSubs(s) && id < |s.data| && (s.data[id].subbed || !IsSubbed(s, s.data[id].topic))
    ensures IsSubbed(DoConfirm(s, s.data[id].subbed, s.data[id].topic, id), t) == IsSubbed(s, t)
  {
  }

  ghost predicate FollowsThroughout(actions: seq<Action>)
    requires CanRun(actions)
  {
    && (forall t :: IsSubbed(Run(actions).subs, t) == Flag(actions, t))
    && (actions != [] ==> FollowsThroughout(actions[..|actions| - 1]))
  }

  ghost predicate IsLosslessThroughout(actions: seq<Action>)
    requires CanRun(actions)
  {
    actions != [] ==>
      && IsLosslessThroughout(actions[..|actions| - 1])
      && !IsLossy(Run(actions[..|actions| - 1]), actions[|actions| - 1])
  }

  /** The stored subscriptions are what the caller asked for all along a run exactly when no call of
      the run is ignored and no response removes a newer subscription. */
  lemma {:induction false} FlagsAreFollowed(actions: seq<Action>)
    requires CanRun(actions)
    ensures FollowsThroughout(actions) <==> IsLosslessThroughout(actions)
  {
    if actions != [] {
      var before, a := actions[..|actions| - 1], actions[|actions| - 1];
      FlagsAreFollowed(before);
      if FollowsThroughout(before) {
        RunKeepsInv(before);
        StepFollowsFlags(Run(before), before, a);
        assert before + [a] == actions;
      }
    }
  }

  // ---------------------------------------------------------------- a stale confirmation

  lemma Extend(actions: seq<Action>, a: Action)
    requires CanRun(actions) && Enabled(Run(actions), a)
    ensures CanRun(actions + [a]) && Run(actions + [a]) == Next(Run(actions), a)
  {
    assert (actions + [a])[..|actions|] == actions;
  }

  /** A world with one subscription ever made. */
  function One(t: string, sub: Sub, phase: Phase, wire: seq<Msg<string>>, verdicts: seq<bool>, wakes: nat): World {
    World(Subs(map[t := 0], [sub], wakes), true, phase, wire, verdicts)
  }

  lemma RunToSubscription(t: string) returns (actions: seq<Action>)
    ensures CanRun(actions)
    ensures Run(actions) == One(t, Sub(t, false, true), Idle, [], [], 1)
  {
    Extend([], Start);
    actions := [] + [Start];
    Extend(actions, UserSubscribe(t));
    actions := actions + [UserSubscribe(t)];
    assert Run(actions).subs == One(t, Sub(t, false, true), Idle, [], [], 1).subs;
  }

  lemma RunToPass(t: string) returns (actions: seq<Action>)
    ensures CanRun(actions)
    ensures Run(actions) == One(t, Sub(t, false, true), Passing([0], 0), [], [], 1)
  {
    actions := RunToSubscription(t);
    OneBatch(t, Sub(t, false, true), 1);
    Extend(actions, CheckOpen);
    actions := actions + [CheckOpen];
    Extend(actions, TakePayloads([0]));
    actions := actions + [TakePayloads([0])];
  }

  lemma OneBatch(t: string, sub: Sub, wakes: nat)
    requires !sub.confirmed
    ensures IsBatch(Subs(map[t := 0], [sub], wakes), [0])
  {
    assert map[t := 0][t] == 0;
  }

  lemma RunThroughPass(before: seq<Action>) returns (actions: seq<Action>)
    requires CanRun(before) && Run(before).open && IsAtPayload(Run(before)) && |Run(before).wire| == |Run(before).verdicts|
    ensures CanRun(actions)
    ensures var w, r := Run(before), Run(actions); var c := Current(w);
      && r.open && r.phase == Passing(w.phase.batch, w.phase.at + 1)
      && r.wire == w.wire + [MsgOf(c)] && r.verdicts == w.verdicts + [true]
      && r.subs == DoConfirm(w.subs, c.subbed, c.topic, w.phase.batch[w.phase.at])
  {
    Extend(before, Send);
    actions := before + [Send];
    Extend(actions, Handle(true));
    actions := actions + [Handle(true)];
    Extend(actions, Respond(true));
    actions := actions + [Respond(true)];
  }

  /** The topic was subscribed and confirmed. */
  lemma RunToConfirmed(t: string) returns (actions: seq<Action>)
    ensures CanRun(actions)
    ensures Run(actions) == One(t, Sub(t, true, true), Idle, [Msg(true, {t})], [true], 1)
  {
    actions := RunToPass(t);
    actions := RunThroughPass(actions);
    assert Run(actions).subs == Subs(map[t := 0], [Sub(t, true, true)], 1);
    Extend(actions, EndPass);
    actions := actions + [EndPass];
  }

  /** It was unsubscribed, and the pass has taken its message. */
  lemma RunToUnsubscription(t: string) returns (actions: seq<Action>)
    ensures CanRun(actions)
    ensures Run(actions) == One(t, Sub(t, false, false), Passing([0], 0), [Msg(true, {t})], [true], 2)
  {
    actions := RunToConfirmed(t);
    Extend(actions, UserUnsubscribe(t));
    actions := actions + [UserUnsubscribe(t)];
    assert Run(actions).subs == Subs(map[t := 0], [Sub(t, false, false)], 2);
    OneBatch(t, Sub(t, false, false), 2);
    Extend(actions, CheckOpen);
    actions := actions + [CheckOpen];
    Extend(actions, TakePayloads([0]));
    actions := actions + [TakePayloads([0])];
  }

  /** The topic is forgotten locally and subscribed once more before that message is answered: the
      answer removes the new subscription, because it removes by topic. Nothing is left to send. */
  lemma StaleConfirmationDropsSubscription(t: string) returns (actions: seq<Action>, last: nat)
    ensures CanRun(actions) && last < |actions| && actions[last] == UserSubscribe(t)
    ensures forall i | last < i < |actions| ::
      !(actions[i].UserUnsubscribe? || actions[i].UserUnsubscribeLocal? || actions[i].UserUnsubscribeAll?)
    ensures var w := Run(actions);
      && !HasTopic(w.subs, t)
      && |w.verdicts| <= |w.wire| && t !in Served(w.wire, w.verdicts)
  {
    actions := RunToUnsubscription(t);
    Extend(actions, UserUnsubscribeLocal(t));
    actions := actions + [UserUnsubscribeLocal(t)];
    last := |actions|;
    Extend(actions, UserSubscribe(t));
    actions := actions + [UserSubscribe(t)];
    Extend(actions, Send);
    actions := actions + [Send];
    Extend(actions, Handle(true));
    actions := actions + [Handle(true)];
    Extend(actions, Respond(true));
    actions := actions + [Respond(true)];
  }
}
