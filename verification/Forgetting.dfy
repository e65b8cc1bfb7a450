/** When the server holds nothing that the keeper does not know. */
module Forgetting {
  import opened Wrappers
  import opened GroupedSubs
  import opened ServerPeer
  import opened Resubscription

  // A call that forgets an unconfirmed key sends no unsubscription. One step keeps the property exactly
  // when it does not break it by one of four guards on the world before the step, and a run has the
  // property throughout exactly when no step of it does. A caller that forgets no key the server may
  // hold, and no key still to be delivered, is always safe, and then every confirmation is harmless; two
  // runs show what a careless caller loses.

  // ---------------------------------------------------------------- forgetting a key

  /** An unsubscription forgets a key of the topic exactly when the key is unconfirmed and its count
      does not exceed the number of times the call lists it. */
  lemma UnsubscribeForgetsExactly(s: Subs, topic: string, keys: seq<Key>, k: Key)
    requires IsSubs(s) && SlotOf(s, topic, k).Some?
    ensures SlotOf(DoUnsubscribe(s, topic, keys), topic, k).None? <==>
      !SlotOf(s, topic, k).value.confirmed && 0 < SlotOf(s, topic, k).value.count <= multiset(keys)[k]
  {
    var slot, n := SlotOf(s, topic, k), multiset(keys)[k];
    SlotAfterUnsubscribe(s, topic, keys, topic, k);
    if !slot.value.confirmed && slot.value.count <= n {
      if slot.value.count > 0 {
        UnconfirmedIsForgotten(n, slot);
      } else {
        PendingStays(n, slot);
      }
    } else if !slot.value.confirmed {
      UnconfirmedCountsDown(n, slot);
    } else {
      ConfirmedStays(n, slot);
    }
  }

  lemma {:induction false} PendingStays(n: nat, slot: Slot)
    requires slot == Some(Entry(false, 0))
    ensures Times(Unsubscribe, n, slot) == slot
  {
    if n > 0 {
      PendingStays(n - 1, slot);
    }
  }

  lemma {:induction false} ConfirmedStays(n: nat, slot: Slot)
    requires IsLive(slot)
    ensures Times(Unsubscribe, n, slot)
         == Some(Entry(slot.value.count > n, if slot.value.count > n then slot.value.count - n else 0))
  {
    if n > 0 {
      ConfirmedStays(n - 1, slot);
    }
  }

  /** The server holds the item, or a subscription for it is under way. */
  ghost predicate IsKnown(w: World, item: Item) {
    && |w.verdicts| <= |w.wire|
    && (|| item in Served(w.wire, w.verdicts)
        || exists j | |w.verdicts| <= j < |w.wire| && w.wire[j].subbed :: item in w.wire[j].items)
  }

  /** The item is in a payload that the current pass has still to deliver. */
  ghost predicate IsAhead(w: World, item: Item) {
    && w.phase.Passing?
    && exists j | w.phase.at <= j < |w.phase.batch| ::
         w.phase.batch[j].topic == item.0 && item.1 in w.phase.batch[j].keys
  }

  predicate IsUserCall(a: Action) {
    a.UserSubscribe? || a.UserUnsubscribe? || a.UserUnsubscribeAll?
  }

  /** The call drops the key's entry without a message. */
  predicate Drops(a: Action, t: string, k: Key, slot: Slot) {
    match a
    case UserUnsubscribe(topic, keys) =>
      t == topic && slot.Some? && !slot.value.confirmed && 0 < slot.value.count <= multiset(keys)[k]
    case UserUnsubscribeAll => slot == Some(Entry(false, 1))
    case _ => false
  }

  /** Exactly these guards make a call forget a key. */
  lemma CallDropsExactly(w: World, a: Action, t: string, k: Key)
    requires IsSubs(w.subs) && Enabled(w, a) && IsUserCall(a)
    requires SlotOf(w.subs, t, k).Some?
    ensures SlotOf(Next(w, a).subs, t, k).None? <==> Drops(a, t, k, SlotOf(w.subs, t, k))
  {
    var slot := SlotOf(w.subs, t, k);
    match a
    case UserSubscribe(topic, keys) =>
      SlotAfterSubscribe(w.subs, topic, keys, t, k);
      if multiset(keys)[k] > 0 {
        SubscribedSlot(multiset(keys)[k], slot);
      }
    case UserUnsubscribe(topic, keys) =>
      if t == topic {
        UnsubscribeForgetsExactly(w.subs, topic, keys, k);
      } else {
        SlotAfterUnsubscribe(w.subs, topic, keys, t, k);
      }
    case UserUnsubscribeAll =>
      SlotAfterOnAll(Clear, w.subs, t, k);
      assert IsSlot(slot);
  }

  /** A call forgets a key that the server of the open connection may hold, or that the current pass
      has still to deliver. */
  ghost predicate Forgets(w: World, a: Action) {
    && IsUserCall(a)
    && exists t, k | Drops(a, t, k, SlotOf(w.subs, t, k)) ::
         (w.open && IsKnown(w, (t, k))) || IsAhead(w, (t, k))
  }

  ghost predicate ForgetsNothing(actions: seq<Action>)
    requires CanRun(actions)
  {
    actions != [] ==>
      && ForgetsNothing(actions[..|actions| - 1])
      && !Forgets(Run(actions[..|actions| - 1]), actions[|actions| - 1])
  }

  // ---------------------------------------------------------------- the invariant of such runs

  ghost predicate HasSlot(s: Subs, item: Item) {
    SlotOf(s, item.0, item.1).Some?
  }

  ghost predicate KnownHaveSlots(w: World) {
    forall item | IsKnown(w, item) :: HasSlot(w.subs, item)
  }

  /** The payload's topic map is stored, and it has an entry for each key of the payload. */
  ghost predicate IsIntact(s: Subs, p: Payload) {
    IsStored(s, p) && forall k | k in p.keys :: SlotOf(s, p.topic, k).Some?
  }

  /** The payloads that are still to be delivered find their topic maps and their keys. */
  ghost predicate IsAheadIntact(w: World) {
    w.phase.Passing? ==> forall j | w.phase.at <= j < |w.phase.batch| ::
      w.phase.batch[j].keys != [] && IsIntact(w.subs, w.phase.batch[j])
  }

  /** What may be held by the server, or is still to be delivered, has an entry. */
  ghost predicate Tidy(w: World) {
    Inv(w) && (w.open ==> KnownHaveSlots(w)) && IsAheadIntact(w)
  }

  lemma UserCallKeepsIntact(w: World, a: Action, j: nat)
    requires Tidy(w) && Enabled(w, a) && IsUserCall(a) && !Forgets(w, a)
    requires w.phase.Passing? && w.phase.at <= j < |w.phase.batch|
    ensures IsIntact(Next(w, a).subs, w.phase.batch[j])
  {
    var p, r := w.phase.batch[j], Next(w, a).subs;
    assert IsIntact(w.subs, p);
    forall k | k in p.keys ensures SlotOf(r, p.topic, k).Some? {
      assert IsAhead(w, (p.topic, k));
      CallDropsExactly(w, a, p.topic, k);
    }
    assert SlotOf(r, p.topic, p.keys[0]).Some?;
    assert p.topic in r.topics && r.topics[p.topic] == p.id;
  }

  lemma ForgettingIsUntidy(w: World, a: Action)
    requires Tidy(w) && Enabled(w, a) && IsUserCall(a) && Forgets(w, a)
    ensures !Tidy(Next(w, a))
  {
    var r := Next(w, a);
    var t, k :| Drops(a, t, k, SlotOf(w.subs, t, k)) && ((w.open && IsKnown(w, (t, k))) || IsAhead(w, (t, k)));
    CallDropsExactly(w, a, t, k);
    if IsAhead(w, (t, k)) {
      var j :| w.phase.at <= j < |w.phase.batch| && w.phase.batch[j].topic == t && k in w.phase.batch[j].keys;
      assert !IsIntact(r.subs, w.phase.batch[j]);
    } else {
      assert IsKnown(r, (t, k)) && !HasSlot(r.subs, (t, k));
    }
  }

  lemma UserCallKeepsKnown(w: World, a: Action)
    requires Tidy(w) && Enabled(w, a) && IsUserCall(a) && !Forgets(w, a) && w.open
    ensures KnownHaveSlots(Next(w, a))
  {
    var r := Next(w, a);
    forall item | IsKnown(r, item) ensures HasSlot(r.subs, item) {
      assert IsKnown(w, item) && HasSlot(w.subs, item) && item == (item.0, item.1);
      CallDropsExactly(w, a, item.0, item.1);
    }
  }

  /** A call keeps everything tidy exactly when it forgets nothing that matters. */
  lemma UserCallKeepsTidy(w: World, a: Action)
    requires Tidy(w) && Enabled(w, a) && IsUserCall(a)
    ensures Tidy(Next(w, a)) <==> !Forgets(w, a)
  {
    NextKeepsInv(w, a);
    if Forgets(w, a) {
      ForgettingIsUntidy(w, a);
    } else {
      if w.open {
        UserCallKeepsKnown(w, a);
      }
      if w.phase.Passing? {
        forall j | w.phase.at <= j < |w.phase.batch| ensures IsIntact(Next(w, a).subs, w.phase.batch[j]) {
          UserCallKeepsIntact(w, a, j);
        }
      }
    }
  }

  lemma SendKeepsTidy(w: World)
    requires Tidy(w) && Enabled(w, Send)
    ensures Tidy(Next(w, Send))
  {
    NextKeepsInv(w, Send);
    var r, p := Next(w, Send), Current(w);
    ServedOfPrefix(w.wire, [MsgOf(p)], w.verdicts);
    forall item | IsKnown(r, item) ensures HasSlot(r.subs, item) {
      if !IsKnown(w, item) {
        var j :| |r.verdicts| <= j < |r.wire| && r.wire[j].subbed && item in r.wire[j].items;
        assert j == |w.wire|;
        assert IsIntact(w.subs, p);
      }
    }
  }

  lemma HandleKeepsTidy(w: World, verdict: bool)
    requires Tidy(w) && Enabled(w, Handle(verdict))
    ensures Tidy(Next(w, Handle(verdict)))
  {
    NextKeepsInv(w, Handle(verdict));
    var r, n := Next(w, Handle(verdict)), |w.verdicts|;
    assert r.verdicts[..n] == w.verdicts;
    forall item | IsKnown(r, item) ensures HasSlot(r.subs, item) {
      assert IsKnown(w, item) by {
        if item in Served(r.wire, r.verdicts) && item !in Served(w.wire, w.verdicts) {
          assert w.wire[n].subbed && item in w.wire[n].items;
        }
      }
    }
  }

  lemma TakePayloadsKeepsTidy(w: World, taken: seq<Payload>)
    requires Tidy(w) && Enabled(w, TakePayloads(taken))
    ensures Tidy(Next(w, TakePayloads(taken)))
  {
    NextKeepsInv(w, TakePayloads(taken));
    forall j | 0 <= j < |taken| ensures taken[j].keys != [] && IsIntact(w.subs, taken[j]) {
      assert IsPayload(w.subs, taken[j]);
    }
  }

  lemma {:induction false} ConfirmationForgets(subbed: bool, n: nat, slot: Slot)
    requires slot.Some? && Times(if subbed then ConfirmSub else ConfirmUnsub, n, slot).None?
    ensures !subbed && n > 0
  {
    if n > 0 {
      var op := if subbed then ConfirmSub else ConfirmUnsub;
      if Times(op, n - 1, slot).None? {
        ConfirmationForgets(subbed, n - 1, slot);
      }
    }
  }

  /** A confirmation through the stored map forgets only keys of an unsubscription payload. */
  lemma ForgottenByResponse(w: World, t: string, k: Key)
    requires Inv(w) && IsAheadIntact(w) && Enabled(w, Respond(true))
    requires SlotOf(w.subs, t, k).Some? && SlotOf(Next(w, Respond(true)).subs, t, k).None?
    ensures !Current(w).subbed && t == Current(w).topic && k in Current(w).keys
  {
    var c := Current(w);
    assert c in w.phase.batch && IsIntact(w.subs, c);
    SlotAfterConfirm(w.subs, c.subbed, c.topic, c.id, c.keys, t, k);
    if t == c.topic {
      ConfirmationForgets(c.subbed, multiset(c.keys)[k], SlotOf(w.subs, t, k));
    }
  }

  lemma RespondKeepsIntact(w: World, j: nat)
    requires Inv(w) && IsAheadIntact(w) && Enabled(w, Respond(true))
    requires w.phase.at < j < |w.phase.batch|
    ensures IsIntact(Next(w, Respond(true)).subs, w.phase.batch[j])
  {
    var c, p, r := Current(w), w.phase.batch[j], Next(w, Respond(true)).subs;
    assert IsIntact(w.subs, p) && IsIntact(w.subs, c);
    forall k | k in p.keys ensures SlotOf(r, p.topic, k).Some? {
      if SlotOf(r, p.topic, k).None? {
        ForgottenByResponse(w, p.topic, k);
      }
    }
    assert SlotOf(r, p.topic, p.keys[0]).Some?;
    assert r.topics.Keys <= w.subs.topics.Keys;
  }

  lemma RespondKeepsTidy(w: World)
    requires Tidy(w) && Enabled(w, Respond(true))
    ensures Tidy(Next(w, Respond(true)))
  {
    NextKeepsInv(w, Respond(true));
    var r, c := Next(w, Respond(true)), Current(w);
    forall j | r.phase.at <= j < |r.phase.batch| ensures IsIntact(r.subs, r.phase.batch[j]) {
      RespondKeepsIntact(w, j);
    }
    if w.open {
      forall item | IsKnown(r, item) ensures HasSlot(r.subs, item) {
        assert item in Served(w.wire, w.verdicts);
        assert IsKnown(w, item) && HasSlot(w.subs, item);
        assert item == (item.0, item.1);
        if SlotOf(r.subs, item.0, item.1).None? {
          ForgottenByResponse(w, item.0, item.1);
        }
      }
    }
  }

  lemma NextKeepsTidy(w: World, a: Action)
    requires Tidy(w) && Enabled(w, a)
    ensures Tidy(Next(w, a)) <==> !Forgets(w, a)
  {
    NextKeepsInv(w, a);
    match a
    case UserSubscribe(_, _) | UserUnsubscribe(_, _) | UserUnsubscribeAll => UserCallKeepsTidy(w, a);
    case Send => SendKeepsTidy(w);
    case Handle(verdict) => HandleKeepsTidy(w, verdict);
    case TakePayloads(taken) => TakePayloadsKeepsTidy(w, taken);
    case Respond(confirmed) =>
      if confirmed {
        RespondKeepsTidy(w);
      }
    case _ =>
  }

  // ---------------------------------------------------------------- main result

  ghost predicate TidyThroughout(actions: seq<Action>)
    requires CanRun(actions)
  {
    Tidy(Run(actions)) && (actions != [] ==> TidyThroughout(actions[..|actions| - 1]))
  }

  /** Everything that may be held by the server has an entry all along a run exactly when no call
      forgets a key that matters. Then every confirmation is harmless. */
  lemma {:induction false} TidyIffNothingForgotten(actions: seq<Action>)
    requires CanRun(actions)
    ensures TidyThroughout(actions) <==> ForgetsNothing(actions)
    ensures ForgetsNothing(actions) ==> IsHarmlessThroughout(actions)
  {
    if actions != [] {
      var before, a := actions[..|actions| - 1], actions[|actions| - 1];
      TidyIffNothingForgotten(before);
      if TidyThroughout(before) {
        NextKeepsTidy(Run(before), a);
        if a == Respond(true) {
          assert IsIntact(Run(before).subs, Current(Run(before)));
        }
      }
    }
  }

  /** In such a run the server of an open connection holds only keys the keeper has an entry for, and
      the stored counts are the plain counters. */
  lemma ServedIsKept(actions: seq<Action>)
    requires CanRun(actions) && ForgetsNothing(actions)
    ensures var w := Run(actions);
      && |w.verdicts| <= |w.wire|
      && (w.open ==> forall t, k | (t, k) in Served(w.wire, w.verdicts) :: SlotOf(w.subs, t, k).Some?)
    ensures AgreesThroughout(actions)
  {
    TidyIffNothingForgotten(actions);
    CountsAreTallies(actions);
    var w := Run(actions);
    if w.open {
      forall t, k | (t, k) in Served(w.wire, w.verdicts) ensures SlotOf(w.subs, t, k).Some? {
        assert IsKnown(w, (t, k)) && HasSlot(w.subs, (t, k));
      }
    }
  }

  // ---------------------------------------------------------------- exactly when the property is kept

  /** The server of an open connection holds only keys the keeper has an entry for. */
  ghost predicate IsServedKept(w: World) {
    && |w.verdicts| <= |w.wire|
    && (w.open ==> forall item | item in Served(w.wire, w.verdicts) :: HasSlot(w.subs, item))
  }

  /** What breaks the property on an open connection: a call drops a key the server holds, the server
      accepts a subscription of a key that has been dropped, or a response arrives through a removed
      topic map while the server holds a key of the topic. */
  ghost predicate Breaks(w: World, a: Action)
    requires Enabled(w, a) && |w.verdicts| <= |w.wire|
  {
    w.open &&
    match a
    case UserUnsubscribe(_, _) | UserUnsubscribeAll =>
      exists t, k | (t, k) in Served(w.wire, w.verdicts) :: Drops(a, t, k, SlotOf(w.subs, t, k))
    case Handle(verdict) =>
      var msg := w.wire[|w.verdicts|];
      verdict && msg.subbed && exists item | item in msg.items :: !HasSlot(w.subs, item)
    case Respond(confirmed) =>
      confirmed && !IsStored(w.subs, Current(w)) && exists k :: (Current(w).topic, k) in Served(w.wire, w.verdicts)
    case _ => false
  }

  lemma UserCallKeepsServed(w: World, a: Action)
    requires Inv(w) && IsServedKept(w) && Enabled(w, a) && IsUserCall(a)
    ensures IsServedKept(Next(w, a)) <==> !Breaks(w, a)
  {
    var r := Next(w, a);
    if w.open {
      forall item | item in Served(w.wire, w.verdicts)
        ensures HasSlot(r.subs, item) <==> !Drops(a, item.0, item.1, SlotOf(w.subs, item.0, item.1))
      {
        assert HasSlot(w.subs, item);
        CallDropsExactly(w, a, item.0, item.1);
      }
    }
  }

  lemma HandleKeepsServed(w: World, verdict: bool)
    requires Inv(w) && IsServedKept(w) && Enabled(w, Handle(verdict))
    ensures IsServedKept(Next(w, Handle(verdict))) <==> !Breaks(w, Handle(verdict))
  {
    var r := Next(w, Handle(verdict));
    assert r.verdicts[..|w.verdicts|] == w.verdicts;
  }

  /** A response through the stored map drops only what the server has just given up. */
  lemma StoredResponseKeepsServed(w: World, item: Item)
    requires Inv(w) && IsServedKept(w) && Enabled(w, Respond(true)) && w.open
    requires IsStored(w.subs, Current(w)) && item in Served(w.wire, w.verdicts)
    ensures HasSlot(Next(w, Respond(true)).subs, item)
  {
    var c, t, k := Current(w), item.0, item.1;
    assert c in w.phase.batch && HasSlot(w.subs, item) && item == (t, k);
    SlotAfterConfirm(w.subs, c.subbed, c.topic, c.id, c.keys, t, k);
    if t == c.topic && SlotOf(Next(w, Respond(true)).subs, t, k).None? {
      ConfirmationForgets(c.subbed, multiset(c.keys)[k], SlotOf(w.subs, t, k));
    }
  }

  lemma RespondKeepsServed(w: World)
    requires Inv(w) && IsServedKept(w) && Enabled(w, Respond(true))
    ensures IsServedKept(Next(w, Respond(true))) <==> !Breaks(w, Respond(true))
  {
    var c, r := Current(w), Next(w, Respond(true));
    assert c in w.phase.batch;
    if w.open {
      forall item | item in Served(w.wire, w.verdicts)
        ensures HasSlot(r.subs, item) <==> IsStored(w.subs, c) || item.0 != c.topic
      {
        assert HasSlot(w.subs, item);
        if IsStored(w.subs, c) {
          StoredResponseKeepsServed(w, item);
        } else {
          SlotAfterConfirm(w.subs, c.subbed, c.topic, c.id, c.keys, item.0, item.1);
        }
      }
      forall item | item in Served(w.wire, w.verdicts) ensures item == (item.0, item.1) {
      }
    }
  }

  /** One step keeps the property exactly when it does not break it. */
  lemma StepKeepsServed(w: World, a: Action)
    requires Inv(w) && IsServedKept(w) && Enabled(w, a)
    ensures IsServedKept(Next(w, a)) <==> !Breaks(w, a)
  {
    match a
    case UserSubscribe(_, _) | UserUnsubscribe(_, _) | UserUnsubscribeAll => UserCallKeepsServed(w, a);
    case Handle(verdict) => HandleKeepsServed(w, verdict);
    case Send => ServedOfPrefix(w.wire, [MsgOf(Current(w))], w.verdicts);
    case Respond(confirmed) =>
      if confirmed {
        RespondKeepsServed(w);
      }
    case _ =>
  }

  ghost predicate IsServedKeptThroughout(actions: seq<Action>)
    requires CanRun(actions)
  {
    IsServedKept(Run(actions)) && (actions != [] ==> IsServedKeptThroughout(actions[..|actions| - 1]))
  }

  ghost predicate BreaksNowhere(actions: seq<Action>)
    requires CanRun(actions)
  {
    actions != [] ==>
      && BreaksNowhere(actions[..|actions| - 1])
      && var w := Run(actions[..|actions| - 1]);
         |w.verdicts| <= |w.wire| && !Breaks(w, actions[|actions| - 1])
  }

  /** All along a run the server of an open connection holds only keys with an entry exactly when no
      step of the run breaks that. */
  lemma {:induction false} ServedIsKeptExactly(actions: seq<Action>)
    requires CanRun(actions)
    ensures IsServedKeptThroughout(actions) <==> BreaksNowhere(actions)
  {
    if actions != [] {
      var before, a := actions[..|actions| - 1], actions[|actions| - 1];
      ServedIsKeptExactly(before);
      RunKeepsInv(before);
      if IsServedKeptThroughout(before) {
        StepKeepsServed(Run(before), a);
      }
    }
  }

  // ---------------------------------------------------------------- runs that forget

  lemma TallyThen(actions: seq<Action>, a: Action)
    ensures forall t, k :: Tally(actions + [a], t, k) == Counted(Tally(actions, t, k), a, t, k)
  {
    assert (actions + [a])[..|actions|] == actions;
  }

  lemma OneKey(op: SlotOp, vv: TopicData, k: Key)
    ensures Each(op, vv, [k]) == Put(vv, k, Apply(op, Get(vv, k)))
  {
    assert [k][..0] == [];
  }

  function OnePayload(t: string, k: Key): Payload {
    Payload(t, true, [k], 0)
  }

  lemma OneBatch(s: Subs, t: string, k: Key)
    requires s.topics == map[t := 0] && s.data == [map[k := Entry(false, 1)]]
    ensures IsBatch(s, [OnePayload(t, k)])
  {
    assert DataOf(s, t) == map[k := Entry(false, 1)];
    assert Waiting(DataOf(s, t), true) == {k};
    assert Waiting(DataOf(s, t), false) == {};
    assert IsPayload(s, OnePayload(t, k));
    assert OnePayload(t, k) in [OnePayload(t, k)];
  }

  lemma RunToBatch(t: string, k: Key) returns (actions: seq<Action>)
    ensures CanRun(actions) && Tally(actions, t, k) == 1
    ensures var w := Run(actions);
      && w.subs.topics == map[t := 0] && w.subs.data == [map[k := Entry(false, 1)]]
      && w.open && w.phase == Passing([OnePayload(t, k)], 0, false) && w.wire == [] && w.verdicts == []
  {
    Extend([], Start);
    TallyThen([], Start);
    OneKey(Subscribe, map[], k);
    Extend([] + [Start], UserSubscribe(t, [k]));
    TallyThen([] + [Start], UserSubscribe(t, [k]));
    actions := [] + [Start] + [UserSubscribe(t, [k])];
    OneBatch(Run(actions).subs, t, k);
    Extend(actions, CheckOpen);
    TallyThen(actions, CheckOpen);
    Extend(actions + [CheckOpen], TakePayloads([OnePayload(t, k)]));
    TallyThen(actions + [CheckOpen], TakePayloads([OnePayload(t, k)]));
    actions := actions + [CheckOpen] + [TakePayloads([OnePayload(t, k)])];
  }

  lemma RunToAccepted(t: string, k: Key) returns (actions: seq<Action>)
    ensures CanRun(actions) && Tally(actions, t, k) == 1
    ensures var w := Run(actions);
      && w.subs.topics == map[t := 0] && w.subs.data == [map[k := Entry(false, 1)]]
      && w.open && w.phase == Passing([OnePayload(t, k)], 0, true)
      && w.wire == [MsgOf(OnePayload(t, k))] && w.verdicts == [true]
  {
    actions := RunToBatch(t, k);
    Extend(actions, Send);
    TallyThen(actions, Send);
    actions := actions + [Send];
    Extend(actions, Handle(true));
    TallyThen(actions, Handle(true));
    actions := actions + [Handle(true)];
  }

  lemma ForgetOne(s: Subs, t: string, k: Key)
    requires s.topics == map[t := 0] && s.data == [map[k := Entry(false, 1)]]
    ensures DoUnsubscribe(s, t, [k]).topics == map[] && DoUnsubscribe(s, t, [k]).data == [map[]]
  {
    OneKey(Unsubscribe, map[k := Entry(false, 1)], k);
  }

  /** A key is subscribed and its accepted message unanswered when the caller unsubscribes: the
      keeper forgets the key. */
  lemma RunToForgotten(t: string, k: Key) returns (actions: seq<Action>)
    ensures CanRun(actions) && Tally(actions, t, k) == 0
    ensures var w := Run(actions);
      && w.subs.topics == map[] && w.subs.data == [map[]]
      && w.open && w.phase == Passing([OnePayload(t, k)], 0, true)
      && w.wire == [MsgOf(OnePayload(t, k))] && w.verdicts == [true]
  {
    actions := RunToAccepted(t, k);
    ForgetOne(Run(actions).subs, t, k);
    Extend(actions, UserUnsubscribe(t, [k]));
    TallyThen(actions, UserUnsubscribe(t, [k]));
    actions := actions + [UserUnsubscribe(t, [k])];
  }

  lemma AcceptedIsServed(t: string, k: Key)
    ensures (t, k) in Served([MsgOf(OnePayload(t, k))], [true])
  {
    assert (t, k) in [MsgOf(OnePayload(t, k))][0].items;
    ServedWhenAllAccepted([MsgOf(OnePayload(t, k))], [true], (t, k));
  }

  /** Then the server keeps the key, and the keeper has nothing to send. */
  lemma ForgottenKeyStaysServed(t: string, k: Key) returns (actions: seq<Action>)
    ensures CanRun(actions)
    ensures var w := Run(actions);
      && w.open && w.phase == Idle && |w.verdicts| <= |w.wire|
      && (t, k) in Served(w.wire, w.verdicts)
      && SlotOf(w.subs, t, k) == None
      && forall rest | IsBatch(w.subs, rest) :: rest == []
  {
    actions := RunToForgotten(t, k);
    AcceptedIsServed(t, k);
    EachOfEmpty(ConfirmSub, [k]);
    Extend(actions, Respond(true));
    actions := actions + [Respond(true)];
    Extend(actions, EndPass);
    actions := actions + [EndPass];
    NothingToSend(Run(actions).subs);
  }

  /** A subscription made before the response: the late confirmation through the old, empty topic map
      removes the new one, and the caller's subscription is lost. */
  lemma LateConfirmationDropsSubscription(t: string, k: Key) returns (actions: seq<Action>)
    ensures CanRun(actions)
    ensures Tally(actions, t, k) == 1
    ensures SlotOf(Run(actions).subs, t, k) == None
  {
    actions := RunToForgotten(t, k);
    Extend(actions, UserSubscribe(t, [k]));
    TallyThen(actions, UserSubscribe(t, [k]));
    actions := actions + [UserSubscribe(t, [k])];
    assert Run(actions).subs.data[0] == map[];
    EachOfEmpty(ConfirmSub, [k]);
    Extend(actions, Respond(true));
    TallyThen(actions, Respond(true));
    actions := actions + [Respond(true)];
  }
}
