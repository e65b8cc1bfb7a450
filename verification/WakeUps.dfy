/** Wake-ups over a pass. Subscribing a key whose unsubscription is pending runs no change function, so a
    pass may end with a subscription to send that nobody is woken for. A pass that confirms all its
    payloads, with no change function run since it took them, ends like that exactly when such a call
    was made during the pass and the key not dropped again. */
module WakeUps {
  import opened Wrappers
  import opened GroupedSubs
  import opened ServerPeer
  import opened Resubscription
  import opened Forgetting
  import opened FullPass

  /** The call subscribes a key whose unsubscription is pending. */
  ghost predicate Revives(w: World, a: Action, t: string, k: Key) {
    a.UserSubscribe? && a.topic == t && k in a.keys && SlotOf(w.subs, t, k) == Some(Entry(false, 0))
  }

  /** Such a call leaves a subscription to send, and runs the change functions only for another key. */
  lemma RevivedWaits(s: Subs, t: string, keys: seq<Key>, k: Key)
    requires IsSubs(s) && k in keys && SlotOf(s, t, k) == Some(Entry(false, 0))
    ensures var r := DoSubscribe(s, t, keys);
      && SlotOf(r, t, k) == Some(Entry(false, multiset(keys)[k]))
      && ((forall x | x in keys :: x == k) ==> r.wakes == s.wakes)
  {
    SlotAfterSubscribe(s, t, keys, t, k);
    SubscribedSlot(multiset(keys)[k], SlotOf(s, t, k));
    if forall x | x in keys :: x == k {
      EachAt(Subscribe, DataOf(s, t), keys, k);
    }
  }

  /** The keys revived so far: a call revived them, and no later call dropped them. */
  ghost function RevivedNext(w: World, a: Action, revived: iset<Item>): iset<Item> {
    iset item: Item | Revives(w, a, item.0, item.1)
      || (item in revived && !Drops(a, item.0, item.1, SlotOf(w.subs, item.0, item.1)))
  }

  /** What can happen in a pass that confirms all its payloads. */
  predicate IsConfirming(a: Action) {
    IsUserCall(a) || a.Lose? || a.Handle? || a.Send? || a == Respond(true)
  }

  // ---------------------------------------------------------------- one key

  /** What has become of a key since the payloads were taken, as long as no change function ran. */
  predicate IsOnTrack(start: Slot, delivered: bool, revived: bool, slot: Slot) {
    match start
    case None => slot.None? && !revived
    case Some(e) =>
      if e.confirmed then slot.Some? && slot.value.confirmed && !revived
      else if e.count > 0 then
        !revived && (slot.Some? ==> slot.value.confirmed == delivered && slot.value.count > 0)
      else
        && (revived <==> CountOf(slot) > 0)
        && (slot.Some? ==> !slot.value.confirmed)
        && (slot.Some? && delivered ==> slot.value.count > 0)
  }

  lemma SubscribeOnTrack(start: Slot, delivered: bool, revived: bool, slot: Slot, n: nat)
    requires IsSlot(slot) && IsSlot(start) && IsOnTrack(start, delivered, revived, slot) && n > 0
    requires !NeedsMessage(slot, Times(Subscribe, n, slot))
    ensures IsOnTrack(start, delivered, revived || slot == Some(Entry(false, 0)), Times(Subscribe, n, slot))
  {
    SubscribedSlot(n, slot);
  }

  /** The slot after unsubscriptions, whatever it was. */
  lemma UnsubscribedExactly(n: nat, slot: Slot)
    requires IsSlot(slot)
    ensures Times(Unsubscribe, n, slot)
         == if slot.None? then None
            else if slot.value.confirmed then
              Some(Entry(slot.value.count > n, if slot.value.count > n then slot.value.count - n else 0))
            else if slot.value.count == 0 then slot
            else if slot.value.count > n then Some(Entry(false, slot.value.count - n))
            else None
  {
    if slot.None? {
      AbsentStays(Unsubscribe, n);
    } else if slot.value.confirmed {
      ConfirmedStays(n, slot);
    } else if slot.value.count == 0 {
      PendingStays(n, slot);
    } else if slot.value.count > n {
      UnconfirmedCountsDown(n, slot);
    } else {
      UnconfirmedIsForgotten(n, slot);
    }
  }

  lemma UnsubscribeOnTrack(start: Slot, delivered: bool, revived: bool, slot: Slot, n: nat)
    requires IsSlot(slot) && IsSlot(start) && IsOnTrack(start, delivered, revived, slot)
    requires !NeedsMessage(slot, Times(Unsubscribe, n, slot))
    ensures IsOnTrack(start, delivered,
                      revived && !(slot.Some? && !slot.value.confirmed && 0 < slot.value.count <= n),
                      Times(Unsubscribe, n, slot))
  {
    UnsubscribedExactly(n, slot);
  }

  lemma ClearOnTrack(start: Slot, delivered: bool, revived: bool, slot: Slot)
    requires IsSlot(slot) && IsSlot(start) && IsOnTrack(start, delivered, revived, slot)
    requires !(CountOf(slot) > 0 && Apply(Clear, slot) == Some(Entry(false, 0)))
    ensures IsOnTrack(start, delivered, revived && slot != Some(Entry(false, 1)), Apply(Clear, slot))
  {
  }

  /** The confirmation of its payload. */
  lemma ConfirmOnTrack(start: Slot, revived: bool, slot: Slot)
    requires start.Some? && !start.value.confirmed && IsOnTrack(start, false, revived, slot)
    ensures IsOnTrack(start, true, revived, Apply(if start.value.count > 0 then ConfirmSub else ConfirmUnsub, slot))
  {
  }

  // ---------------------------------------------------------------- one step

  lemma CallOnTrack(w: World, a: Action, t: string, k: Key, start: Slot, delivered: bool, revived: bool)
    requires Inv(w) && IsUserCall(a) && IsSlot(start)
    requires Next(w, a).subs.wakes == w.subs.wakes
    requires IsOnTrack(start, delivered, revived, SlotOf(w.subs, t, k))
    ensures var slot := SlotOf(w.subs, t, k);
      IsOnTrack(start, delivered, Revives(w, a, t, k) || (revived && !Drops(a, t, k, slot)), SlotOf(Next(w, a).subs, t, k))
  {
    var slot := SlotOf(w.subs, t, k);
    assert IsSlot(slot);
    match a
    case UserSubscribe(topic, keys) =>
      SlotAfterSubscribe(w.subs, topic, keys, t, k);
      SubscribeWakesExactly(w.subs, topic, keys);
      assert !NeedsMessage(slot, SlotOf(Next(w, a).subs, t, k));
      if t == topic && multiset(keys)[k] > 0 {
        SubscribeOnTrack(start, delivered, revived, slot, multiset(keys)[k]);
      }
    case UserUnsubscribe(topic, keys) =>
      SlotAfterUnsubscribe(w.subs, topic, keys, t, k);
      UnsubscribeWakesExactly(w.subs, topic, keys);
      assert !NeedsMessage(slot, SlotOf(Next(w, a).subs, t, k));
      if t == topic {
        UnsubscribeOnTrack(start, delivered, revived, slot, multiset(keys)[k]);
      }
    case UserUnsubscribeAll =>
      SlotAfterOnAll(Clear, w.subs, t, k);
      UnsubscribeAllWakesExactly(w.subs);
      assert !(CountOf(slot) > 0 && SlotOf(Next(w, a).subs, t, k) == Some(Entry(false, 0)));
      ClearOnTrack(start, delivered, revived, slot);
  }

  /** The topic still has the map it had when the payloads were taken, or it has no keys. */
  ghost predicate IsSameMap(s: Subs, r: Subs, t: string) {
    (t in s.topics && t in r.topics && s.topics[t] == r.topics[t]) || forall k :: SlotOf(r, t, k).None?
  }

  lemma CallKeepsMap(s: Subs, w: World, a: Action, t: string)
    requires Inv(w) && IsUserCall(a) && Next(w, a).subs.wakes == w.subs.wakes
    requires IsSameMap(s, w.subs, t)
    ensures IsSameMap(s, Next(w, a).subs, t)
  {
    var r := Next(w, a).subs;
    if forall k :: SlotOf(w.subs, t, k).None? {
      forall k ensures SlotOf(r, t, k).None? {
        CallOnTrack(w, a, t, k, None, false, false);
      }
    } else if a.UserUnsubscribeAll? && t !in r.topics {
      assert forall k :: SlotOf(r, t, k).None?;
    }
  }

  /** The world at some point of the pass, against the keeper when the payloads were taken. */
  ghost predicate IsTracked(s: Subs, w: World, batch: seq<Payload>, revived: iset<Item>) {
    && w.phase.Passing? && w.phase.batch == batch && w.phase.at <= |batch|
    && (forall t, k :: IsOnTrack(SlotOf(s, t, k), IsConfirmedBy(batch[..w.phase.at], t, k), (t, k) in revived,
                                 SlotOf(w.subs, t, k)))
    && forall t :: IsSameMap(s, w.subs, t)
  }

  /** A response through the captured map: the keys of the payload are settled, the others stay. */
  lemma RespondOnTrack(s: Subs, w: World, t: string, k: Key, revived: bool)
    requires Inv(w) && Enabled(w, Respond(true))
    requires IsSubs(s) && IsBatch(s, w.phase.batch) && IsSameMap(s, w.subs, t)
    requires IsOnTrack(SlotOf(s, t, k), IsConfirmedBy(w.phase.batch[..w.phase.at], t, k), revived, SlotOf(w.subs, t, k))
    ensures IsOnTrack(SlotOf(s, t, k), IsConfirmedBy(w.phase.batch[..w.phase.at + 1], t, k), revived,
                      SlotOf(Next(w, Respond(true)).subs, t, k))
  {
    var batch, at, c := w.phase.batch, w.phase.at, Current(w);
    assert c in batch && IsPayload(s, c);
    ConfirmedByNext(batch, at, t, k);
    SlotAfterConfirm(w.subs, c.subbed, c.topic, c.id, c.keys, t, k);
    if t == c.topic {
      ListingCounts(c.keys, Waiting(DataOf(s, t), c.subbed), k);
      if k in c.keys {
        KeysSettleOnce(s, batch, at, k);
        ConfirmOnTrack(SlotOf(s, t, k), revived, SlotOf(w.subs, t, k));
        var op := if c.subbed then ConfirmSub else ConfirmUnsub;
        assert Times(op, 1, SlotOf(w.subs, t, k)) == Apply(op, Times(op, 0, SlotOf(w.subs, t, k)));
      }
    }
  }

  lemma RespondKeepsMap(s: Subs, w: World, t: string)
    requires Inv(w) && Enabled(w, Respond(true)) && IsSubs(s) && IsBatch(s, w.phase.batch)
    requires IsSameMap(s, w.subs, t)
    ensures IsSameMap(s, Next(w, Respond(true)).subs, t)
  {
    var c, r := Current(w), Next(w, Respond(true)).subs;
    assert c in w.phase.batch && IsPayload(s, c);
    if t !in r.topics {
      assert forall k :: SlotOf(r, t, k).None?;
    } else {
      assert t in w.subs.topics && w.subs.topics[t] == r.topics[t];
      forall k ensures SlotOf(w.subs, t, k).None? ==> SlotOf(r, t, k).None? {
        SlotAfterConfirm(w.subs, c.subbed, c.topic, c.id, c.keys, t, k);
        AbsentStays(if c.subbed then ConfirmSub else ConfirmUnsub, multiset(c.keys)[k]);
      }
    }
  }

  // ---------------------------------------------------------------- the pass

  lemma CallKeepsTracked(s: Subs, w: World, batch: seq<Payload>, revived: iset<Item>, a: Action)
    requires Inv(w) && IsSubs(s) && IsUserCall(a) && Next(w, a).subs.wakes == w.subs.wakes
    requires IsTracked(s, w, batch, revived)
    ensures IsTracked(s, Next(w, a), batch, RevivedNext(w, a, revived))
  {
    forall t, k
      ensures IsOnTrack(SlotOf(s, t, k), IsConfirmedBy(batch[..w.phase.at], t, k),
                        (t, k) in RevivedNext(w, a, revived), SlotOf(Next(w, a).subs, t, k))
    {
      assert IsSlot(SlotOf(s, t, k));
      CallOnTrack(w, a, t, k, SlotOf(s, t, k), IsConfirmedBy(batch[..w.phase.at], t, k), (t, k) in revived);
    }
    forall t ensures IsSameMap(s, Next(w, a).subs, t) {
      CallKeepsMap(s, w, a, t);
    }
  }

  lemma RespondKeepsTracked(s: Subs, w: World, batch: seq<Payload>, revived: iset<Item>)
    requires Inv(w) && IsSubs(s) && IsBatch(s, batch) && Enabled(w, Respond(true))
    requires IsTracked(s, w, batch, revived)
    ensures IsTracked(s, Next(w, Respond(true)), batch, revived)
  {
    forall t, k
      ensures IsOnTrack(SlotOf(s, t, k), IsConfirmedBy(batch[..w.phase.at + 1], t, k), (t, k) in revived,
                        SlotOf(Next(w, Respond(true)).subs, t, k))
    {
      RespondOnTrack(s, w, t, k, (t, k) in revived);
    }
    forall t ensures IsSameMap(s, Next(w, Respond(true)).subs, t) {
      RespondKeepsMap(s, w, t);
    }
  }

  /** One step of a pass that confirms its payloads, without waking. */
  lemma StepKeepsTracked(s: Subs, w: World, batch: seq<Payload>, revived: iset<Item>, a: Action)
    requires Inv(w) && IsSubs(s) && IsBatch(s, batch) && Enabled(w, a) && IsConfirming(a)
    requires Next(w, a).subs.wakes == w.subs.wakes
    requires IsTracked(s, w, batch, revived)
    ensures IsTracked(s, Next(w, a), batch, RevivedNext(w, a, revived))
  {
    if IsUserCall(a) {
      CallKeepsTracked(s, w, batch, revived, a);
    } else {
      assert RevivedNext(w, a, revived) == revived;
      if a == Respond(true) {
        RespondKeepsTracked(s, w, batch, revived);
      } else {
        assert Next(w, a).subs == w.subs;
      }
    }
  }

  lemma TakenIsTracked(w: World, batch: seq<Payload>)
    requires IsSubs(w.subs) && w.phase == Passing(batch, 0, false)
    ensures IsTracked(w.subs, w, batch, iset{})
  {
    forall t, k ensures IsOnTrack(SlotOf(w.subs, t, k), false, false, SlotOf(w.subs, t, k)) {
      assert IsSlot(SlotOf(w.subs, t, k));
    }
  }

  /** The actions lead from each world to the next. */
  ghost predicate IsTrace(worlds: seq<World>, during: seq<Action>) {
    && |worlds| == |during| + 1
    && forall i | 0 <= i < |during| :: Enabled(worlds[i], during[i]) && worlds[i + 1] == Next(worlds[i], during[i])
  }

  /** The keys revived by the first actions of a pass. */
  ghost function Revived(worlds: seq<World>, during: seq<Action>, n: nat): iset<Item>
    requires n <= |during| < |worlds|
  {
    if n == 0 then iset{} else RevivedNext(worlds[n - 1], during[n - 1], Revived(worlds, during, n - 1))
  }

  lemma WakesNeverFall(w: World, a: Action)
    requires Enabled(w, a)
    ensures w.subs.wakes <= Next(w, a).subs.wakes
  {
  }

  lemma {:induction false} TraceWakes(worlds: seq<World>, during: seq<Action>, i: nat)
    requires IsTrace(worlds, during) && i <= |during|
    ensures worlds[i].subs.wakes <= worlds[|during|].subs.wakes
    decreases |during| - i
  {
    if i < |during| {
      WakesNeverFall(worlds[i], during[i]);
      TraceWakes(worlds, during, i + 1);
    }
  }

  /** The pass took the batch in the first of the worlds, it confirmed all of it by the last one, and no
      change function ran in between. */
  ghost predicate IsQuietPass(worlds: seq<World>, batch: seq<Payload>, during: seq<Action>) {
    && IsTrace(worlds, during)
    && Inv(worlds[0]) && IsBatch(worlds[0].subs, batch) && worlds[0].phase == Passing(batch, 0, false)
    && (forall a | a in during :: IsConfirming(a))
    && worlds[|during|].phase == Passing(batch, |batch|, false)
    && worlds[|during|].subs.wakes == worlds[0].subs.wakes
  }

  lemma {:induction false} PassIsTracked(worlds: seq<World>, batch: seq<Payload>, during: seq<Action>, n: nat)
    requires IsQuietPass(worlds, batch, during) && n <= |during|
    ensures Inv(worlds[n]) && worlds[n].subs.wakes == worlds[0].subs.wakes
    ensures IsTracked(worlds[0].subs, worlds[n], batch, Revived(worlds, during, n))
  {
    if n == 0 {
      TakenIsTracked(worlds[0], batch);
    } else {
      PassIsTracked(worlds, batch, during, n - 1);
      WakesNeverFall(worlds[n - 1], during[n - 1]);
      TraceWakes(worlds, during, n);
      NextKeepsInv(worlds[n - 1], during[n - 1]);
      StepKeepsTracked(worlds[0].subs, worlds[n - 1], batch, Revived(worlds, during, n - 1), during[n - 1]);
    }
  }

  lemma TrackedToTheEnd(s: Subs, w: World, batch: seq<Payload>, revived: iset<Item>)
    requires IsSubs(s) && IsBatch(s, batch) && IsTracked(s, w, batch, revived) && w.phase.at == |batch|
    ensures forall t, k :: (t, k) in revived <==> SlotOf(w.subs, t, k).Some? && !SlotOf(w.subs, t, k).value.confirmed
  {
    assert batch[..|batch|] == batch;
    forall t, k ensures (t, k) in revived <==> SlotOf(w.subs, t, k).Some? && !SlotOf(w.subs, t, k).value.confirmed {
      BatchCoversWaiting(s, batch, t, k);
      assert IsOnTrack(SlotOf(s, t, k), IsConfirmedBy(batch, t, k), (t, k) in revived, SlotOf(w.subs, t, k));
      assert IsSlot(SlotOf(s, t, k));
    }
  }

  lemma WorkIsWaiting(s: Subs, rest: seq<Payload>, waiting: iset<Item>)
    requires IsSubs(s) && IsBatch(s, rest)
    requires forall t, k :: (t, k) in waiting <==> SlotOf(s, t, k).Some? && !SlotOf(s, t, k).value.confirmed
    ensures rest != [] <==> waiting != iset{}
  {
    if rest != [] {
      var p := rest[0];
      assert p in rest && IsPayload(s, p) && p.keys[0] in p.keys;
      assert IsConfirmedBy(rest, p.topic, p.keys[0]);
      BatchCoversWaiting(s, rest, p.topic, p.keys[0]);
      assert (p.topic, p.keys[0]) in waiting;
    } else {
      forall item: Item ensures item !in waiting {
        assert item == (item.0, item.1);
        BatchCoversWaiting(s, rest, item.0, item.1);
      }
    }
  }

  /** After such a pass something is left to send if and only if a call of the pass subscribed a key
      whose unsubscription was pending, and no later call dropped the key. */
  lemma {:induction false} WorkWithoutWakeUp(worlds: seq<World>, batch: seq<Payload>, during: seq<Action>, rest: seq<Payload>)
    requires IsQuietPass(worlds, batch, during) && IsBatch(worlds[|during|].subs, rest)
    ensures rest != [] <==> Revived(worlds, during, |during|) != iset{}
  {
    PassIsTracked(worlds, batch, during, |during|);
    TrackedToTheEnd(worlds[0].subs, worlds[|during|], batch, Revived(worlds, during, |during|));
    WorkIsWaiting(worlds[|during|].subs, rest, Revived(worlds, during, |during|));
  }

  // ---------------------------------------------------------------- such a pass

  function UnsubPayload(t: string, k: Key): Payload {
    Payload(t, false, [k], 0)
  }

  /** A keeper with one topic and one key. */
  predicate IsOne(s: Subs, t: string, k: Key, e: Entry) {
    s.topics == map[t := 0] && s.data == [map[k := e]]
  }

  lemma OneEntry(op: SlotOp, k: Key, e: Entry, r: Entry)
    requires Apply(op, Some(e)) == Some(r)
    ensures Each(op, map[k := e], [k]) == map[k := r]
  {
    OneKey(op, map[k := e], k);
    assert map[k := e][k := r] == map[k := r];
  }

  lemma ConfirmOne(s: Subs, subbed: bool, t: string, k: Key, e: Entry, r: Entry)
    requires IsOne(s, t, k, e) && Apply(if subbed then ConfirmSub else ConfirmUnsub, Some(e)) == Some(r)
    ensures IsOne(DoConfirm(s, subbed, t, 0, [k]), t, k, r) && DoConfirm(s, subbed, t, 0, [k]).wakes == s.wakes
  {
    assert s.data[0] == map[k := e];
    OneEntry(if subbed then ConfirmSub else ConfirmUnsub, k, e, r);
    assert k in map[k := r];
    assert s.data[0 := map[k := r]] == [map[k := r]];
  }

  lemma UnsubscribeOne(s: Subs, t: string, k: Key)
    requires IsOne(s, t, k, Entry(true, 1))
    ensures IsOne(DoUnsubscribe(s, t, [k]), t, k, Entry(false, 0))
  {
    assert DataOf(s, t) == map[k := Entry(true, 1)];
    OneEntry(Unsubscribe, k, Entry(true, 1), Entry(false, 0));
  }

  lemma SubscribeOne(s: Subs, t: string, k: Key)
    requires IsOne(s, t, k, Entry(false, 0))
    ensures IsOne(DoSubscribe(s, t, [k]), t, k, Entry(false, 1)) && DoSubscribe(s, t, [k]).wakes == s.wakes
  {
    OneEntry(Subscribe, k, Entry(false, 0), Entry(false, 1));
  }

  /** The key was subscribed, confirmed and unsubscribed; its unsubscription is about to be taken. */
  lemma RunToPending(t: string, k: Key) returns (actions: seq<Action>)
    ensures CanRun(actions)
    ensures var w := Run(actions);
      && IsOne(w.subs, t, k, Entry(false, 0))
      && w.open && w.phase == Ready && |w.wire| == |w.verdicts|
  {
    actions := RunToAccepted(t, k);
    ConfirmOne(Run(actions).subs, true, t, k, Entry(false, 1), Entry(true, 1));
    Extend(actions, Respond(true));
    actions := actions + [Respond(true)];
    Extend(actions, EndPass);
    actions := actions + [EndPass];
    UnsubscribeOne(Run(actions).subs, t, k);
    Extend(actions, UserUnsubscribe(t, [k]));
    actions := actions + [UserUnsubscribe(t, [k])];
    Extend(actions, CheckOpen);
    actions := actions + [CheckOpen];
  }

  lemma UnsubBatch(s: Subs, t: string, k: Key)
    requires IsOne(s, t, k, Entry(false, 0))
    ensures IsBatch(s, [UnsubPayload(t, k)])
  {
    assert DataOf(s, t) == map[k := Entry(false, 0)];
    assert Waiting(DataOf(s, t), false) == {k};
    assert Waiting(DataOf(s, t), true) == {};
    assert IsPayload(s, UnsubPayload(t, k));
    assert UnsubPayload(t, k) in [UnsubPayload(t, k)];
  }

  /** What happens in the pass. */
  function Reviving(t: string, k: Key): seq<Action> {
    [UserSubscribe(t, [k]), Send, Handle(true), Respond(true)]
  }

  /** The confirmation of an unsubscription skips a key that was subscribed meanwhile. */
  lemma SkippedByResponse(w: World, t: string, k: Key) returns (r: World)
    requires IsOne(w.subs, t, k, Entry(false, 1)) && Enabled(w, Respond(true))
    requires w.phase == Passing([UnsubPayload(t, k)], 0, true)
    ensures r == Next(w, Respond(true)) && r.phase == Passing([UnsubPayload(t, k)], 1, false)
    ensures r.subs.wakes == w.subs.wakes && SlotOf(r.subs, t, k) == Some(Entry(false, 1))
  {
    ConfirmOne(w.subs, false, t, k, Entry(false, 1), Entry(false, 1));
    r := Next(w, Respond(true));
    assert DataOf(r.subs, t) == map[k := Entry(false, 1)];
  }

  /** The worlds of the pass: the key is subscribed while its unsubscription waits to be sent, and the
      confirmation skips it. */
  lemma ReviveOne(w: World, t: string, k: Key) returns (worlds: seq<World>)
    requires Inv(w) && IsOne(w.subs, t, k, Entry(false, 0)) && IsBatch(w.subs, [UnsubPayload(t, k)])
    requires w.open && w.phase == Passing([UnsubPayload(t, k)], 0, false) && |w.wire| == |w.verdicts|
    ensures |worlds| == 5 && worlds[0] == w && IsQuietPass(worlds, [UnsubPayload(t, k)], Reviving(t, k))
    ensures SlotOf(worlds[4].subs, t, k) == Some(Entry(false, 1))
  {
    SubscribeOne(w.subs, t, k);
    var subscribed := Next(w, UserSubscribe(t, [k]));
    var handled := AnsweredMeanwhile(subscribed, t, k);
    var answered := SkippedByResponse(handled, t, k);
    worlds := [w, subscribed, Next(subscribed, Send), handled, answered];
  }

  /** The unsubscription is sent and accepted. */
  lemma AnsweredMeanwhile(w: World, t: string, k: Key) returns (r: World)
    requires w.open && w.phase == Passing([UnsubPayload(t, k)], 0, false) && |w.wire| == |w.verdicts|
    ensures Enabled(w, Send) && Enabled(Next(w, Send), Handle(true)) && r == Next(Next(w, Send), Handle(true))
    ensures r.subs == w.subs && r.phase == Passing([UnsubPayload(t, k)], 0, true) && Enabled(r, Respond(true))
  {
    r := Next(Next(w, Send), Handle(true));
  }

  /** A pending key is subscribed once more during the pass that sends its unsubscription: the pass ends
      with its subscription to send, and no change function ran since the payloads were taken. */
  lemma PendingIsNotWokenFor(t: string, k: Key) returns (actions: seq<Action>, worlds: seq<World>)
    ensures CanRun(actions) && |worlds| == 5 && worlds[0] == Run(actions)
    ensures IsQuietPass(worlds, [UnsubPayload(t, k)], Reviving(t, k))
    ensures SlotOf(worlds[4].subs, t, k) == Some(Entry(false, 1))
  {
    actions := RunToPending(t, k);
    UnsubBatch(Run(actions).subs, t, k);
    Extend(actions, TakePayloads([UnsubPayload(t, k)]));
    actions := actions + [TakePayloads([UnsubPayload(t, k)])];
    RunKeepsInv(actions);
    worlds := ReviveOne(Run(actions), t, k);
  }
}
