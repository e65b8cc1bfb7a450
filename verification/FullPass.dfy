/** Passes of the reconnect loop that nothing interrupts: every message is accepted and every response
    confirms. */
module FullPass {
  import opened Wrappers
  import opened GroupedSubs
  import opened ServerPeer
  import opened Resubscription
  import opened Forgetting

  // ---------------------------------------------------------------- delivering without interruption

  /** The pass is between two payloads, and everything sent was handled. */
  ghost predicate CanDeliver(w: World) {
    Inv(w) && w.open && w.phase.Passing? && !w.phase.waiting && |w.verdicts| == |w.wire|
  }

  /** Sending a payload, the server accepting it and the response confirming it. */
  ghost function Deliver(w: World): (r: World)
    requires CanDeliver(w) && w.phase.at < |w.phase.batch|
    ensures CanDeliver(r) && r.phase == Advance(w).phase
  {
    NextKeepsInv(w, Send);
    var sent := Next(w, Send);
    NextKeepsInv(sent, Handle(true));
    var handled := Next(sent, Handle(true));
    NextKeepsInv(handled, Respond(true));
    Next(handled, Respond(true))
  }

  /** Delivering the rest of the batch. */
  ghost function DeliverRest(w: World): (r: World)
    requires CanDeliver(w)
    ensures CanDeliver(r) && r.phase.batch == w.phase.batch && r.phase.at >= |w.phase.batch|
    decreases |w.phase.batch| - w.phase.at
  {
    if w.phase.at >= |w.phase.batch| then w else DeliverRest(Deliver(w))
  }

  /** A pass over a batch, from the moment the payloads are taken to the end of the loop. */
  ghost function DeliverBatch(w: World, batch: seq<Payload>): (r: World)
    requires Inv(w) && w.open && w.phase == Ready && |w.verdicts| == |w.wire| && IsBatch(w.subs, batch)
    ensures Inv(r) && r.open && r.phase == Idle
  {
    NextKeepsInv(w, TakePayloads(batch));
    var done := DeliverRest(Next(w, TakePayloads(batch)));
    NextKeepsInv(done, EndPass);
    Next(done, EndPass)
  }

  // ---------------------------------------------------------------- after a loss

  ghost predicate IsConfirmedBy(batch: seq<Payload>, t: string, k: Key) {
    exists p | p in batch :: p.topic == t && k in p.keys
  }

  /** The keeper after the first payloads of a batch of subscriptions were confirmed. */
  ghost predicate AreConfirmed(s: Subs, batch: seq<Payload>, n: nat, r: Subs)
    requires n <= |batch|
  {
    && IsSubs(r)
    && r.topics == s.topics && |r.data| == |s.data|
    && forall t, k :: SlotOf(r, t, k)
         == if IsConfirmedBy(batch[..n], t, k) then Apply(ConfirmSub, SlotOf(s, t, k)) else SlotOf(s, t, k)
  }

  /** The world after the first payloads of a batch of subscriptions were delivered. */
  ghost predicate IsDelivered(s: Subs, batch: seq<Payload>, n: nat, w: World)
    requires n <= |batch|
  {
    && Inv(w) && w.open && w.phase == Passing(batch, n, false)
    && |w.wire| == |w.verdicts| == n
    && (forall i | 0 <= i < n :: w.wire[i] == MsgOf(batch[i]) && w.verdicts[i])
    && AreConfirmed(s, batch, n, w.subs)
  }

  /** A batch of subscription payloads only, for a keeper where nothing is confirmed. */
  ghost predicate IsResubscription(s: Subs, batch: seq<Payload>) {
    && IsSubs(s)
    && IsBatch(s, batch)
    && (forall p | p in batch :: p.subbed)
    && (forall t, k :: SlotOf(s, t, k).Some? ==> !SlotOf(s, t, k).value.confirmed && CountOf(SlotOf(s, t, k)) > 0)
  }

  lemma ConfirmNext(s: Subs, batch: seq<Payload>, n: nat, r: Subs)
    requires IsResubscription(s, batch) && n < |batch| && AreConfirmed(s, batch, n, r)
    ensures batch[n].id < |r.data|
    ensures AreConfirmed(s, batch, n + 1, DoConfirm(r, true, batch[n].topic, batch[n].id, batch[n].keys))
  {
    var p := batch[n];
    assert p in batch && IsPayload(s, p);
    var q := DoConfirm(r, true, p.topic, p.id, p.keys);
    ConfirmKeeps(r, true, p.topic, p.id, p.keys);
    forall t, k
      ensures SlotOf(q, t, k)
           == if IsConfirmedBy(batch[..n + 1], t, k) then Apply(ConfirmSub, SlotOf(s, t, k)) else SlotOf(s, t, k)
    {
      SlotAfterConfirm(r, true, p.topic, p.id, p.keys, t, k);
      ConfirmedByNext(batch, n, t, k);
      OtherTopicsBefore(s, batch, n, k);
      ListingCounts(p.keys, Waiting(DataOf(s, p.topic), true), k);
      assert Times(ConfirmSub, 1, SlotOf(r, t, k)) == Apply(ConfirmSub, Times(ConfirmSub, 0, SlotOf(r, t, k)));
    }
    FirstKeyStays(s, batch, n, q);
  }

  lemma FirstKeyStays(s: Subs, batch: seq<Payload>, n: nat, q: Subs)
    requires IsResubscription(s, batch) && n < |batch|
    requires var k := batch[n].keys; k != [] ==>
      IsConfirmedBy(batch[..n + 1], batch[n].topic, k[0]) ==>
      SlotOf(q, batch[n].topic, k[0]) == Apply(ConfirmSub, SlotOf(s, batch[n].topic, k[0]))
    ensures batch[n].topic in q.topics
  {
    var p := batch[n];
    assert p in batch && IsPayload(s, p);
    assert p.keys[0] in Waiting(DataOf(s, p.topic), true);
    assert batch[..n + 1][n] == p;
  }

  lemma DeliverNext(s: Subs, batch: seq<Payload>, n: nat, w: World)
    requires IsResubscription(s, batch) && n < |batch| && IsDelivered(s, batch, n, w)
    ensures IsDelivered(s, batch, n + 1, Deliver(w))
  {
    ConfirmNext(s, batch, n, w.subs);
  }

  lemma ConfirmedByNext(batch: seq<Payload>, n: nat, t: string, k: Key)
    requires n < |batch|
    ensures IsConfirmedBy(batch[..n + 1], t, k)
       <==> IsConfirmedBy(batch[..n], t, k) || (batch[n].topic == t && k in batch[n].keys)
  {
    assert batch[..n + 1] == batch[..n] + [batch[n]];
  }

  lemma OtherTopicsBefore(s: Subs, batch: seq<Payload>, n: nat, k: Key)
    requires IsResubscription(s, batch) && n < |batch|
    ensures !IsConfirmedBy(batch[..n], batch[n].topic, k)
  {
    forall j | 0 <= j < n ensures batch[j].topic != batch[n].topic {
      assert batch[j] in batch && batch[n] in batch;
    }
  }

  lemma {:induction false} DeliverAll(s: Subs, batch: seq<Payload>, n: nat, w: World)
    requires IsResubscription(s, batch) && n <= |batch| && IsDelivered(s, batch, n, w)
    ensures IsDelivered(s, batch, |batch|, DeliverRest(w))
    decreases |batch| - n
  {
    if n < |batch| {
      DeliverNext(s, batch, n, w);
      DeliverAll(s, batch, n + 1, Deliver(w));
    }
  }

  ghost predicate IsWanted(s: Subs, item: Item) {
    CountOf(SlotOf(s, item.0, item.1)) > 0
  }

  lemma SlotsAfterReset(s: Subs)
    requires IsSubs(s)
    ensures IsSubs(DoResetAll(s))
    ensures forall t, k :: SlotOf(DoResetAll(s), t, k) == Apply(Reset, SlotOf(s, t, k))
  {
    OnAllKeeps(Reset, s);
    forall t, k ensures SlotOf(DoResetAll(s), t, k) == Apply(Reset, SlotOf(s, t, k)) {
      SlotAfterOnAll(Reset, s, t, k);
    }
  }

  /** The batch taken after a reset holds subscription payloads only. */
  lemma BatchAfterReset(s: Subs, batch: seq<Payload>)
    requires IsSubs(s) && IsBatch(DoResetAll(s), batch)
    ensures IsResubscription(DoResetAll(s), batch)
  {
    var r := DoResetAll(s);
    SlotsAfterReset(s);
    forall p | p in batch ensures p.subbed {
      assert IsPayload(r, p);
      assert p.keys[0] in Waiting(DataOf(r, p.topic), p.subbed);
      assert SlotOf(r, p.topic, p.keys[0]).Some?;
    }
  }

  /** It covers the wanted keys ... */
  lemma BatchCoversWanted(s: Subs, batch: seq<Payload>, t: string, k: Key)
    requires IsSubs(s) && IsBatch(DoResetAll(s), batch)
    ensures IsConfirmedBy(batch, t, k) <==> IsWanted(s, (t, k))
  {
    var r := DoResetAll(s);
    BatchAfterReset(s, batch);
    SlotAfterOnAll(Reset, s, t, k);
    if IsConfirmedBy(batch, t, k) {
      var p :| p in batch && p.topic == t && k in p.keys;
      assert IsPayload(r, p);
      assert k in Waiting(DataOf(r, t), true);
    }
    if IsWanted(s, (t, k)) {
      assert k in Waiting(DataOf(r, t), true);
      var p :| p in batch && p.topic == t && p.subbed == true;
      assert IsPayload(r, p);
    }
  }

  /** ... and no item is in two of its payloads. */
  lemma BatchIsDisjoint(s: Subs, batch: seq<Payload>, i: nat, j: nat, item: Item)
    requires IsSubs(s) && IsBatch(DoResetAll(s), batch)
    requires i < |batch| && j < |batch|
    requires item in MsgOf(batch[i]).items && item in MsgOf(batch[j]).items
    ensures i == j
  {
    BatchAfterReset(s, batch);
    assert batch[i] in batch && batch[j] in batch;
  }

  /** The messages are subscriptions, and each wanted item is in exactly one of them. */
  ghost predicate SubscribesWantedOnce(s: Subs, wire: seq<Msg<Item>>) {
    && (forall i | 0 <= i < |wire| :: wire[i].subbed)
    && (forall item :: IsWanted(s, item) <==> exists i | 0 <= i < |wire| :: item in wire[i].items)
    && forall i, j, item | 0 <= i < |wire| && 0 <= j < |wire| && item in wire[i].items && item in wire[j].items :: i == j
  }

  lemma BatchSubscribesWantedOnce(s: Subs, batch: seq<Payload>, wire: seq<Msg<Item>>)
    requires IsSubs(s) && IsBatch(DoResetAll(s), batch)
    requires |wire| == |batch| && forall i | 0 <= i < |batch| :: wire[i] == MsgOf(batch[i])
    ensures SubscribesWantedOnce(s, wire)
  {
    BatchAfterReset(s, batch);
    forall i | 0 <= i < |wire| ensures wire[i].subbed {
      assert batch[i] in batch;
    }
    forall item ensures IsWanted(s, item) <==> exists i | 0 <= i < |wire| :: item in wire[i].items {
      BatchCoversWanted(s, batch, item.0, item.1);
      assert item == (item.0, item.1);
      if IsConfirmedBy(batch, item.0, item.1) {
        var p :| p in batch && p.topic == item.0 && item.1 in p.keys;
        var i :| 0 <= i < |batch| && batch[i] == p;
        assert item in wire[i].items;
      }
    }
    forall i, j, item | 0 <= i < |wire| && 0 <= j < |wire| && item in wire[i].items && item in wire[j].items
      ensures i == j
    {
      BatchIsDisjoint(s, batch, i, j, item);
    }
  }

  lemma {:induction false} ServedAreWanted(s: Subs, wire: seq<Msg<Item>>, verdicts: seq<bool>)
    requires |wire| == |verdicts| && SubscribesWantedOnce(s, wire)
    requires forall i | 0 <= i < |wire| :: verdicts[i]
    ensures forall item :: item in Served(wire, verdicts) <==> IsWanted(s, item)
  {
    forall item ensures item in Served(wire, verdicts) <==> IsWanted(s, item) {
      ServedWhenAllAccepted(wire, verdicts, item);
    }
  }

  /** The world a pass on a lost connection is in once it is reopened. */
  ghost function Reconnected(w: World): (r: World)
    requires Inv(w) && w.phase == Idle && !w.open
    ensures Inv(r) && r == World(DoResetAll(w.subs), true, Ready, [], [])
  {
    NextKeepsInv(w, CheckClosed);
    NextKeepsInv(Next(w, CheckClosed), Reopen);
    Next(Next(w, CheckClosed), Reopen)
  }

  /** The world a pass ends in when it starts on a lost connection and nothing interrupts it. */
  ghost function AfterReconnect(w: World, batch: seq<Payload>): (r: World)
    requires Inv(w) && w.phase == Idle && !w.open
    requires IsBatch(DoResetAll(w.subs), batch)
    ensures Inv(r) && r.open && r.phase == Idle
  {
    DeliverBatch(Reconnected(w), batch)
  }

  lemma AfterReconnectDelivered(w: World, batch: seq<Payload>)
    requires Inv(w) && w.phase == Idle && !w.open
    requires IsBatch(DoResetAll(w.subs), batch)
    ensures var r := AfterReconnect(w, batch);
      && |r.wire| == |r.verdicts| == |batch|
      && (forall i | 0 <= i < |batch| :: r.wire[i] == MsgOf(batch[i]) && r.verdicts[i])
      && AreConfirmed(DoResetAll(w.subs), batch, |batch|, r.subs)
  {
    var ready := Reconnected(w);
    NextKeepsInv(ready, TakePayloads(batch));
    var taken := Next(ready, TakePayloads(batch));
    BatchAfterReset(w.subs, batch);
    NoneConfirmed(ready.subs, batch);
    DeliverAll(ready.subs, batch, 0, taken);
    assert AfterReconnect(w, batch) == Next(DeliverRest(taken), EndPass);
  }

  lemma NoneConfirmed(s: Subs, batch: seq<Payload>)
    requires IsSubs(s)
    ensures AreConfirmed(s, batch, 0, s)
  {
  }

  lemma SlotWhenAllConfirmed(s: Subs, batch: seq<Payload>, r: Subs, t: string, k: Key)
    requires IsSubs(s) && IsBatch(DoResetAll(s), batch)
    requires AreConfirmed(DoResetAll(s), batch, |batch|, r)
    ensures CountOf(SlotOf(r, t, k)) == CountOf(SlotOf(s, t, k))
    ensures SlotOf(r, t, k).Some? ==> SlotOf(r, t, k).value.confirmed
  {
    assert batch[..|batch|] == batch;
    BatchCoversWanted(s, batch, t, k);
    SlotAfterOnAll(Reset, s, t, k);
  }

  /** After a loss, a pass that nothing interrupts subscribes each wanted key in exactly one message
      of the new connection. It sends no unsubscription, keeps every count, and leaves nothing to
      send; the server then holds exactly the wanted keys. */
  lemma ReconnectPass(w: World, batch: seq<Payload>)
    requires Inv(w) && w.phase == Idle && !w.open
    requires IsBatch(DoResetAll(w.subs), batch)
    ensures var r := AfterReconnect(w, batch);
      && r.open
      && SubscribesWantedOnce(w.subs, r.wire)
      && (forall item :: item in Served(r.wire, r.verdicts) <==> IsWanted(w.subs, item))
      && (forall t, k :: CountOf(SlotOf(r.subs, t, k)) == CountOf(SlotOf(w.subs, t, k)))
      && (forall rest | IsBatch(r.subs, rest) :: rest == [])
  {
    var r := AfterReconnect(w, batch);
    AfterReconnectDelivered(w, batch);
    BatchSubscribesWantedOnce(w.subs, batch, r.wire);
    ServedAreWanted(w.subs, r.wire, r.verdicts);
    forall t, k
      ensures CountOf(SlotOf(r.subs, t, k)) == CountOf(SlotOf(w.subs, t, k))
      ensures SlotOf(r.subs, t, k).Some? ==> SlotOf(r.subs, t, k).value.confirmed
    {
      SlotWhenAllConfirmed(w.subs, batch, r.subs, t, k);
    }
    NothingToSend(r.subs);
  }

  // ---------------------------------------------------------------- on an open connection

  /** What the confirmation of its payload makes of a waiting key. */
  function Settled(slot: Slot): Slot {
    if CountOf(slot) > 0 then Some(Entry(true, CountOf(slot))) else None
  }

  function Messages(batch: seq<Payload>, n: nat): seq<Msg<Item>>
    requires n <= |batch|
  {
    seq(n, i requires 0 <= i < n => MsgOf(batch[i]))
  }

  /** The world after the first payloads of a batch of both directions were delivered. */
  ghost predicate IsSettling(start: World, batch: seq<Payload>, n: nat, w: World)
    requires n <= |batch| && |start.verdicts| <= |start.wire|
  {
    && CanDeliver(w) && IsAheadIntact(w) && w.phase == Passing(batch, n, false)
    && w.wire == start.wire + Messages(batch, n)
    && (forall t, k :: SlotOf(w.subs, t, k)
          == if IsConfirmedBy(batch[..n], t, k) then Settled(SlotOf(start.subs, t, k)) else SlotOf(start.subs, t, k))
    && (forall t, k :: (t, k) in Served(w.wire, w.verdicts)
          <==> if IsConfirmedBy(batch[..n], t, k) then IsWanted(start.subs, (t, k))
               else (t, k) in Served(start.wire, start.verdicts))
  }

  lemma DeliverKeepsIntact(w: World)
    requires CanDeliver(w) && IsAheadIntact(w) && w.phase.at < |w.phase.batch|
    ensures IsAheadIntact(Deliver(w))
  {
    NextKeepsInv(w, Send);
    var sent := Next(w, Send);
    NextKeepsInv(sent, Handle(true));
    var handled := Next(sent, Handle(true));
    forall j | w.phase.at < j < |w.phase.batch| ensures IsIntact(Deliver(w).subs, w.phase.batch[j]) {
      RespondKeepsIntact(handled, j);
    }
  }

  lemma ServedAfterDelivery(w: World)
    requires CanDeliver(w) && w.phase.at < |w.phase.batch|
    ensures var msg, r := MsgOf(Current(w)), Deliver(w);
      && r.wire == w.wire + [msg]
      && Served(r.wire, r.verdicts)
         == if msg.subbed then Served(w.wire, w.verdicts) + msg.items else Served(w.wire, w.verdicts) - msg.items
  {
    var r := Deliver(w);
    assert r.verdicts == w.verdicts + [true];
    assert r.verdicts[..|w.verdicts|] == w.verdicts;
    ServedOfPrefix(w.wire, [MsgOf(Current(w))], w.verdicts);
  }

  /** Its keys were not settled by an earlier payload. */
  lemma KeysSettleOnce(s: Subs, batch: seq<Payload>, n: nat, k: Key)
    requires IsSubs(s) && IsBatch(s, batch) && n < |batch| && k in batch[n].keys
    ensures !IsConfirmedBy(batch[..n], batch[n].topic, k)
  {
    assert batch[n] in batch && IsPayload(s, batch[n]);
    forall j | 0 <= j < n && batch[j].topic == batch[n].topic ensures k !in batch[j].keys {
      assert batch[j] in batch && IsPayload(s, batch[j]);
    }
  }

  /** The delivery confirms through the stored map. */
  lemma SlotAfterStoredConfirm(w: World, t: string, k: Key)
    requires CanDeliver(w) && IsAheadIntact(w) && w.phase.at < |w.phase.batch|
    ensures var p := Current(w);
      SlotOf(Deliver(w).subs, t, k)
      == if t != p.topic then SlotOf(w.subs, t, k)
         else Times(if p.subbed then ConfirmSub else ConfirmUnsub, multiset(p.keys)[k], SlotOf(w.subs, t, k))
  {
    var p := Current(w);
    assert IsIntact(w.subs, p);
    SlotAfterConfirm(w.subs, p.subbed, p.topic, p.id, p.keys, t, k);
  }

  lemma SlotAfterDelivery(start: World, batch: seq<Payload>, n: nat, w: World, t: string, k: Key)
    requires IsSubs(start.subs) && IsBatch(start.subs, batch) && |start.verdicts| <= |start.wire|
    requires n < |batch| && IsSettling(start, batch, n, w)
    ensures SlotOf(Deliver(w).subs, t, k)
         == if t == batch[n].topic && k in batch[n].keys then Settled(SlotOf(start.subs, t, k)) else SlotOf(w.subs, t, k)
  {
    var p := batch[n];
    assert p in batch && IsPayload(start.subs, p);
    SlotAfterStoredConfirm(w, t, k);
    ListingCounts(p.keys, Waiting(DataOf(start.subs, p.topic), p.subbed), k);
    if t == p.topic && k in p.keys {
      KeysSettleOnce(start.subs, batch, n, k);
      OnceSettles(p.subbed, SlotOf(w.subs, t, k));
    }
  }

  lemma OnceSettles(subbed: bool, slot: Slot)
    requires slot.Some? && !slot.value.confirmed && (slot.value.count > 0) == subbed
    ensures Times(if subbed then ConfirmSub else ConfirmUnsub, 1, slot) == Settled(slot)
  {
    var op := if subbed then ConfirmSub else ConfirmUnsub;
    assert Times(op, 1, slot) == Apply(op, Times(op, 0, slot));
  }

  lemma SettleNext(start: World, batch: seq<Payload>, n: nat, w: World)
    requires IsSubs(start.subs) && IsBatch(start.subs, batch) && |start.verdicts| <= |start.wire|
    requires n < |batch| && IsSettling(start, batch, n, w)
    ensures IsSettling(start, batch, n + 1, Deliver(w))
  {
    var p, r := batch[n], Deliver(w);
    assert p in batch && IsPayload(start.subs, p);
    DeliverKeepsIntact(w);
    ServedAfterDelivery(w);
    assert Messages(batch, n + 1) == Messages(batch, n) + [MsgOf(p)];
    forall t, k
      ensures SlotOf(r.subs, t, k)
           == if IsConfirmedBy(batch[..n + 1], t, k) then Settled(SlotOf(start.subs, t, k)) else SlotOf(start.subs, t, k)
      ensures (t, k) in Served(r.wire, r.verdicts)
         <==> if IsConfirmedBy(batch[..n + 1], t, k) then IsWanted(start.subs, (t, k))
              else (t, k) in Served(start.wire, start.verdicts)
    {
      ConfirmedByNext(batch, n, t, k);
      SlotAfterDelivery(start, batch, n, w, t, k);
      assert (t, k) in MsgOf(p).items <==> t == p.topic && k in p.keys;
      if t == p.topic && k in p.keys {
        assert k in Waiting(DataOf(start.subs, t), p.subbed);
      }
    }
  }

  lemma {:induction false} SettleAll(start: World, batch: seq<Payload>, n: nat, w: World)
    requires IsSubs(start.subs) && IsBatch(start.subs, batch) && |start.verdicts| <= |start.wire|
    requires n <= |batch| && IsSettling(start, batch, n, w)
    ensures IsSettling(start, batch, |batch|, DeliverRest(w))
    decreases |batch| - n
  {
    if n < |batch| {
      SettleNext(start, batch, n, w);
      SettleAll(start, batch, n + 1, Deliver(w));
    }
  }

  /** The batch covers exactly the waiting keys. */
  lemma BatchCoversWaiting(s: Subs, batch: seq<Payload>, t: string, k: Key)
    requires IsSubs(s) && IsBatch(s, batch)
    ensures IsConfirmedBy(batch, t, k) <==> SlotOf(s, t, k).Some? && !SlotOf(s, t, k).value.confirmed
  {
    if IsConfirmedBy(batch, t, k) {
      var p :| p in batch && p.topic == t && k in p.keys;
      assert IsPayload(s, p);
      assert k in Waiting(DataOf(s, t), p.subbed);
    }
    if SlotOf(s, t, k).Some? && !SlotOf(s, t, k).value.confirmed {
      var subbed := SlotOf(s, t, k).value.count > 0;
      assert k in Waiting(DataOf(s, t), subbed);
      var p :| p in batch && p.topic == t && p.subbed == subbed;
      assert IsPayload(s, p);
    }
  }

  /** The world a pass ends in when it finds the connection open and nothing interrupts it. */
  ghost function AfterOpenPass(w: World, batch: seq<Payload>): (r: World)
    requires Inv(w) && w.phase == Idle && w.open && |w.verdicts| == |w.wire| && IsBatch(w.subs, batch)
    ensures Inv(r) && r.open && r.phase == Idle
  {
    NextKeepsInv(w, CheckOpen);
    DeliverBatch(Next(w, CheckOpen), batch)
  }

  lemma TakenIsSettling(w: World, batch: seq<Payload>)
    requires Inv(w) && w.phase == Idle && w.open && |w.verdicts| == |w.wire| && IsBatch(w.subs, batch)
    ensures IsSettling(w, batch, 0, Next(Next(w, CheckOpen), TakePayloads(batch)))
  {
    NextKeepsInv(w, CheckOpen);
    NextKeepsInv(Next(w, CheckOpen), TakePayloads(batch));
    forall j | 0 <= j < |batch| ensures batch[j].keys != [] && IsIntact(w.subs, batch[j]) {
      assert IsPayload(w.subs, batch[j]);
    }
  }

  lemma OpenPassSettles(w: World, batch: seq<Payload>)
    requires Inv(w) && w.phase == Idle && w.open && |w.verdicts| == |w.wire| && IsBatch(w.subs, batch)
    ensures var r := AfterOpenPass(w, batch);
      && r.wire == w.wire + Messages(batch, |batch|) && |r.verdicts| == |r.wire|
      && (forall t, k :: SlotOf(r.subs, t, k)
            == if IsConfirmedBy(batch, t, k) then Settled(SlotOf(w.subs, t, k)) else SlotOf(w.subs, t, k))
      && (forall t, k :: (t, k) in Served(r.wire, r.verdicts)
            <==> if IsConfirmedBy(batch, t, k) then IsWanted(w.subs, (t, k)) else (t, k) in Served(w.wire, w.verdicts))
  {
    var taken := Next(Next(w, CheckOpen), TakePayloads(batch));
    TakenIsSettling(w, batch);
    SettleAll(w, batch, 0, taken);
    assert AfterOpenPass(w, batch) == Next(DeliverRest(taken), EndPass);
    assert batch[..|batch|] == batch;
  }

  /** The server holds an item that the keeper does not know. */
  ghost predicate IsStray(w: World, item: Item) {
    |w.verdicts| <= |w.wire| && item in Served(w.wire, w.verdicts) && !HasSlot(w.subs, item)
  }

  /** On an open connection such a pass sends one message for each payload of the batch, in order. It
      keeps every count and leaves nothing to send; the server then holds exactly the keys with a
      positive count and what it already held without the keeper's knowledge. */
  lemma OpenPass(w: World, batch: seq<Payload>)
    requires Inv(w) && w.phase == Idle && w.open && |w.verdicts| == |w.wire| && IsBatch(w.subs, batch)
    ensures var r := AfterOpenPass(w, batch);
      && r.wire == w.wire + Messages(batch, |batch|) && |r.verdicts| == |r.wire|
      && (forall item :: item in Served(r.wire, r.verdicts) <==> IsWanted(w.subs, item) || IsStray(w, item))
      && (forall t, k :: CountOf(SlotOf(r.subs, t, k)) == CountOf(SlotOf(w.subs, t, k)))
      && (forall rest | IsBatch(r.subs, rest) :: rest == [])
  {
    var r := AfterOpenPass(w, batch);
    OpenPassSettles(w, batch);
    forall t, k
      ensures (t, k) in Served(r.wire, r.verdicts) <==> IsWanted(w.subs, (t, k)) || IsStray(w, (t, k))
      ensures CountOf(SlotOf(r.subs, t, k)) == CountOf(SlotOf(w.subs, t, k))
      ensures SlotOf(r.subs, t, k).Some? ==> SlotOf(r.subs, t, k).value.confirmed
    {
      BatchCoversWaiting(w.subs, batch, t, k);
      if !IsConfirmedBy(batch, t, k) {
        ServedUnlessStray(w, t, k);
      }
    }
    forall item ensures item in Served(r.wire, r.verdicts) <==> IsWanted(w.subs, item) || IsStray(w, item) {
      assert item == (item.0, item.1);
    }
    NothingToSend(r.subs);
  }

  /** Of a key that waits for no message the server knows what the keeper knows, or it is stray. */
  lemma ServedUnlessStray(w: World, t: string, k: Key)
    requires Inv(w) && w.open
    requires SlotOf(w.subs, t, k).None? || SlotOf(w.subs, t, k).value.confirmed
    ensures (t, k) in Served(w.wire, w.verdicts) <==> IsWanted(w.subs, (t, k)) || IsStray(w, (t, k))
  {
    if SlotOf(w.subs, t, k).Some? {
      assert IsSlot(SlotOf(w.subs, t, k)) && IsLive(SlotOf(w.subs, t, k));
      assert IsSafe(w.wire, w.verdicts, (t, k));
    }
  }

  /** After such a pass the server holds exactly the keys with a positive count if and only if it held
      only what the keeper knew. */
  lemma OpenPassIsExact(w: World, batch: seq<Payload>)
    requires Inv(w) && w.phase == Idle && w.open && |w.verdicts| == |w.wire| && IsBatch(w.subs, batch)
    ensures var r := AfterOpenPass(w, batch);
      |r.verdicts| <= |r.wire| &&
      ((forall item :: item in Served(r.wire, r.verdicts) <==> IsWanted(w.subs, item)) <==> IsServedKept(w))
  {
    var r := AfterOpenPass(w, batch);
    OpenPass(w, batch);
    forall item | IsStray(w, item) ensures item in Served(r.wire, r.verdicts) && !IsWanted(w.subs, item) {
      assert !HasSlot(w.subs, item);
    }
    if IsServedKept(w) {
      forall item ensures !IsStray(w, item) {
      }
    } else {
      var item :| item in Served(w.wire, w.verdicts) && !HasSlot(w.subs, item);
      assert IsStray(w, item);
    }
  }

  // ---------------------------------------------------------------- messages still under way

  /** The server has handled the messages that were still under way. */
  function CaughtUp(w: World, late: seq<bool>): World {
    w.(verdicts := w.verdicts + late)
  }

  lemma {:induction false} CaughtUpKeepsInv(w: World, late: seq<bool>)
    requires Inv(w) && w.open && |w.verdicts| + |late| <= |w.wire|
    ensures Inv(CaughtUp(w, late))
  {
    if late == [] {
      assert w.verdicts + late == w.verdicts;
    } else {
      var n := |late| - 1;
      CaughtUpKeepsInv(w, late[..n]);
      HandleKeepsInv(CaughtUp(w, late[..n]), late[n]);
      assert w.verdicts + late == w.verdicts + late[..n] + [late[n]];
    }
  }
}
