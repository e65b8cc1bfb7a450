/** Passes of a solo keeper's reconnect loop that nothing interrupts: every message is accepted and every
    response confirms. A pass that reopens a lost connection subscribes each wanted topic in exactly one
    message and leaves the server with exactly the wanted topics. A pass on an open connection sends one
    message for each payload, in order, and leaves the server with the wanted topics and with what it
    already held without the keeper's knowledge. */
module SoloFullPass {
  import opened SoloSubs
  import opened ServerPeer
  import opened SoloResubscription
  import opened SoloForgetting

  /** The pass is between two payloads, and everything sent was handled. */
  ghost predicate CanDeliver(w: World) {
    Inv(w) && w.open && w.phase.Passing? && |w.verdicts| == |w.wire|
  }

  /** Sending a payload, the server accepting it and the response confirming it. */
  ghost function Deliver(w: World): (r: World)
    requires CanDeliver(w) && w.phase.at < |w.phase.batch|
    ensures CanDeliver(r) && r.phase == Passing(w.phase.batch, w.phase.at + 1)
  {
    NextKeepsInv(w, Send);
    var sent := Next(w, Send);
    NextKeepsInv(sent, Handle(true));
    var handled := Next(sent, Handle(true));
    NextKeepsInv(handled, Respond(true));
    Next(handled, Respond(true))
  }

  /** What one delivery changes. */
  lemma DeliveredParts(w: World)
    requires CanDeliver(w) && w.phase.at < |w.phase.batch|
    ensures IsAtPayload(w)
    ensures var c, r := Current(w), Deliver(w);
      && r.wire == w.wire + [MsgOf(c)] && r.verdicts == w.verdicts + [true]
      && r.subs == DoConfirm(w.subs, c.subbed, c.topic, w.phase.batch[w.phase.at])
  {
  }

  ghost function DeliverRest(w: World): (r: World)
    requires CanDeliver(w)
    ensures CanDeliver(r) && r.phase.batch == w.phase.batch && r.phase.at >= |w.phase.batch|
    decreases |w.phase.batch| - w.phase.at
  {
    if w.phase.at >= |w.phase.batch| then w else DeliverRest(Deliver(w))
  }

  /** The world a pass on a lost connection is in once it has taken the payloads. */
  ghost function Taken(w: World, batch: seq<nat>): (r: World)
    requires Inv(w) && w.phase == Idle && !w.open && IsBatch(DoResetAll(w.subs), batch)
    ensures CanDeliver(r) && r == World(DoResetAll(w.subs), true, Passing(batch, 0), [], [])
  {
    NextKeepsInv(w, CheckClosed);
    var closed := Next(w, CheckClosed);
    NextKeepsInv(closed, Reopen);
    NextKeepsInv(Next(closed, Reopen), TakePayloads(batch));
    Next(Next(closed, Reopen), TakePayloads(batch))
  }

  /** The world the pass ends in. */
  ghost function AfterReconnect(w: World, batch: seq<nat>): (r: World)
    requires Inv(w) && w.phase == Idle && !w.open && IsBatch(DoResetAll(w.subs), batch)
    ensures Inv(r) && r.open && r.phase == Idle
  {
    var done := DeliverRest(Taken(w, batch));
    NextKeepsInv(done, EndPass);
    Next(done, EndPass)
  }

  // ---------------------------------------------------------------- what is delivered

  /** Every stored subscription is subscribed and waits for its message. */
  ghost predicate IsReset(s: Subs) {
    IsSubs(s) && forall t | t in s.topics :: IsSubbed(s, t) && !s.data[s.topics[t]].confirmed
  }

  lemma ResetIsReset(s: Subs)
    requires IsSubs(s)
    ensures IsReset(DoResetAll(s))
    ensures forall t :: IsSubbed(DoResetAll(s), t) <==> IsSubbed(s, t)
  {
    ResetAllIsQuiet(s);
    forall t | t in s.topics ensures s.topics[t] in s.topics.Values {
    }
  }

  function Confirmed(s: Subs, ids: seq<nat>): Subs {
    s.(data := seq(|s.data|, i requires 0 <= i < |s.data| =>
         if i in ids then s.data[i].(confirmed := true) else s.data[i]))
  }

  /** The payload with this place in the batch is the stored subscription of its topic. */
  lemma PayloadIsStored(s: Subs, batch: seq<nat>, i: nat) returns (t: string)
    requires IsReset(s) && IsBatch(s, batch) && i < |batch|
    ensures t in s.topics && s.topics[t] == batch[i] && batch[i] < |s.data|
    ensures s.data[batch[i]] == Sub(t, false, true)
  {
    assert batch[i] in batch;
    t :| t in s.topics && s.topics[t] == batch[i];
    assert IsSubbed(s, t);
  }

  /** The world after the first payloads of the batch were delivered. */
  ghost predicate IsDelivered(s: Subs, batch: seq<nat>, n: nat, w: World)
    requires n <= |batch|
  {
    && CanDeliver(w) && w.phase == Passing(batch, n)
    && |w.wire| == n
    && (forall i | 0 <= i < n :: batch[i] < |s.data| && w.wire[i] == MsgOf(s.data[batch[i]]) && w.verdicts[i])
    && w.subs == Confirmed(s, batch[..n])
  }

  lemma DeliverNext(s: Subs, batch: seq<nat>, n: nat, w: World)
    requires IsReset(s) && IsBatch(s, batch) && n < |batch| && IsDelivered(s, batch, n, w)
    ensures IsDelivered(s, batch, n + 1, Deliver(w))
  {
    var t := PayloadIsStored(s, batch, n);
    ConfirmNext(s, batch, n, t);
    DeliveredParts(w);
    assert Current(w) == Sub(t, false, true);
  }

  lemma ConfirmNext(s: Subs, batch: seq<nat>, n: nat, t: string)
    requires IsBatch(s, batch) && n < |batch| && batch[n] < |s.data| && s.data[batch[n]] == Sub(t, false, true)
    ensures Confirmed(s, batch[..n]).data[batch[n]] == s.data[batch[n]]
    ensures DoConfirm(Confirmed(s, batch[..n]), true, t, batch[n]) == Confirmed(s, batch[..n + 1])
  {
    assert batch[..n + 1] == batch[..n] + [batch[n]];
    assert batch[n] !in batch[..n];
    assert DoConfirm(Confirmed(s, batch[..n]), true, t, batch[n]).data == Confirmed(s, batch[..n + 1]).data;
  }

  lemma {:induction false} DeliverAll(s: Subs, batch: seq<nat>, n: nat, w: World)
    requires IsReset(s) && IsBatch(s, batch) && n <= |batch| && IsDelivered(s, batch, n, w)
    ensures IsDelivered(s, batch, |batch|, DeliverRest(w))
    decreases |batch| - n
  {
    if n < |batch| {
      DeliverNext(s, batch, n, w);
      DeliverAll(s, batch, n + 1, Deliver(w));
    }
  }

  lemma AfterReconnectDelivered(w: World, batch: seq<nat>)
    requires Inv(w) && w.phase == Idle && !w.open && IsBatch(DoResetAll(w.subs), batch)
    ensures var s, r := DoResetAll(w.subs), AfterReconnect(w, batch);
      && |r.wire| == |r.verdicts| == |batch|
      && (forall i | 0 <= i < |batch| :: batch[i] < |s.data| && r.wire[i] == MsgOf(s.data[batch[i]]) && r.verdicts[i])
      && r.subs == Confirmed(s, batch)
  {
    var s := DoResetAll(w.subs);
    ResetIsReset(w.subs);
    assert Confirmed(s, []).data == s.data;
    DeliverAll(s, batch, 0, Taken(w, batch));
    assert batch[..|batch|] == batch;
  }

  // ---------------------------------------------------------------- main result

  /** The messages are subscriptions, and each wanted topic is in exactly one of them. */
  ghost predicate SubscribesOnce(s: Subs, wire: seq<Msg<string>>) {
    && (forall i | 0 <= i < |wire| :: wire[i].subbed)
    && (forall t :: IsSubbed(s, t) <==> exists i | 0 <= i < |wire| :: t in wire[i].items)
    && forall i, j, t | 0 <= i < |wire| && 0 <= j < |wire| && t in wire[i].items && t in wire[j].items :: i == j
  }

  lemma BatchSubscribesOnce(s: Subs, batch: seq<nat>, wire: seq<Msg<string>>)
    requires IsReset(s) && IsBatch(s, batch) && |wire| == |batch|
    requires forall i | 0 <= i < |batch| :: batch[i] < |s.data| && wire[i] == MsgOf(s.data[batch[i]])
    ensures SubscribesOnce(s, wire)
  {
    forall i | 0 <= i < |wire|
      ensures wire[i].subbed
      ensures forall t :: t in wire[i].items <==> t in s.topics && s.topics[t] == batch[i]
    {
      var t := PayloadIsStored(s, batch, i);
    }
    forall t ensures IsSubbed(s, t) <==> exists i | 0 <= i < |wire| :: t in wire[i].items {
      if IsSubbed(s, t) {
        assert s.topics[t] in batch;
        var i :| 0 <= i < |batch| && batch[i] == s.topics[t];
        assert t in wire[i].items;
      }
    }
  }

  lemma ConfirmedIsLive(s: Subs, batch: seq<nat>, t: string)
    requires IsReset(s) && IsBatch(s, batch)
    ensures t in s.topics ==> s.topics[t] in batch && IsLive(Confirmed(s, batch), t)
    ensures IsSubbed(Confirmed(s, batch), t) <==> IsSubbed(s, t)
  {
  }

  lemma NothingToSend(s: Subs)
    requires forall t | t in s.topics :: IsLive(s, t)
    ensures forall rest | IsBatch(s, rest) :: rest == []
  {
    forall rest: seq<nat> | rest != [] ensures !IsBatch(s, rest) {
      assert rest[0] in rest;
    }
  }

  /** After a loss, a pass that nothing interrupts subscribes each stored subscribed topic in exactly one
      message of the new connection and sends no unsubscription. It keeps what is subscribed and leaves
      nothing to send; the server then holds exactly the subscribed topics. */
  lemma ReconnectPass(w: World, batch: seq<nat>)
    requires Inv(w) && w.phase == Idle && !w.open && IsBatch(DoResetAll(w.subs), batch)
    ensures var r := AfterReconnect(w, batch);
      && SubscribesOnce(w.subs, r.wire)
      && |r.verdicts| == |r.wire|
      && (forall t :: t in Served(r.wire, r.verdicts) <==> IsSubbed(w.subs, t))
      && (forall t :: IsSubbed(r.subs, t) <==> IsSubbed(w.subs, t))
      && (forall rest | IsBatch(r.subs, rest) :: rest == [])
  {
    var s, r := DoResetAll(w.subs), AfterReconnect(w, batch);
    ResetIsReset(w.subs);
    AfterReconnectDelivered(w, batch);
    BatchSubscribesOnce(s, batch, r.wire);
    forall t
      ensures IsSubbed(r.subs, t) <==> IsSubbed(w.subs, t)
      ensures t in r.subs.topics ==> IsLive(r.subs, t)
      ensures t in Served(r.wire, r.verdicts) <==> IsSubbed(w.subs, t)
    {
      ConfirmedIsLive(s, batch, t);
      ServedWhenAllAccepted(r.wire, r.verdicts, t);
    }
    NothingToSend(r.subs);
  }

  // ---------------------------------------------------------------- on an open connection

  /** The topic's message is in the given part of a batch. */
  predicate IsAmong(s: Subs, ids: seq<nat>, t: string) {
    HasTopic(s, t) && s.topics[t] in ids
  }

  /** The keeper after the given payloads were confirmed: subscriptions are confirmed, and topics with a
      pending unsubscription are gone. */
  function Settled(s: Subs, ids: seq<nat>): Subs {
    Subs(map t | t in s.topics && !(IsAmong(s, ids, t) && !s.data[s.topics[t]].subbed) :: s.topics[t],
         Confirmed(s, ids).data, s.wakes)
  }

  lemma StoredPayload(s: Subs, batch: seq<nat>, i: nat) returns (t: string)
    requires IsSubs(s) && IsBatch(s, batch) && i < |batch|
    ensures t in s.topics && s.topics[t] == batch[i] && batch[i] < |s.data|
    ensures s.data[batch[i]].topic == t && !s.data[batch[i]].confirmed
  {
    assert batch[i] in batch;
    t :| t in s.topics && s.topics[t] == batch[i];
  }

  function Messages(s: Subs, batch: seq<nat>, n: nat): seq<Msg<string>>
    requires n <= |batch| && forall id | id in batch :: id < |s.data|
  {
    seq(n, i requires 0 <= i < n => assert batch[i] in batch; MsgOf(s.data[batch[i]]))
  }

  ghost predicate IsSettling(start: World, batch: seq<nat>, n: nat, w: World)
    requires n <= |batch| && |start.verdicts| <= |start.wire| && IsBatch(start.subs, batch)
  {
    && CanDeliver(w) && w.phase == Passing(batch, n)
    && w.subs == Settled(start.subs, batch[..n])
    && w.wire == start.wire + Messages(start.subs, batch, n)
    && forall t :: t in Served(w.wire, w.verdicts)
         <==> if IsAmong(start.subs, batch[..n], t) then IsSubbed(start.subs, t) else t in Served(start.wire, start.verdicts)
  }

  lemma SettleSubs(s: Subs, batch: seq<nat>, n: nat, t: string)
    requires IsSubs(s) && IsBatch(s, batch) && n < |batch| && batch[n] < |s.data|
    requires t in s.topics && s.topics[t] == batch[n] && s.data[batch[n]].topic == t && !s.data[batch[n]].confirmed
    ensures Settled(s, batch[..n]).data[batch[n]] == s.data[batch[n]]
    ensures DoConfirm(Settled(s, batch[..n]), s.data[batch[n]].subbed, t, batch[n]) == Settled(s, batch[..n + 1])
  {
    assert batch[..n + 1] == batch[..n] + [batch[n]];
    assert batch[n] !in batch[..n];
    var r := DoConfirm(Settled(s, batch[..n]), s.data[batch[n]].subbed, t, batch[n]);
    assert r.data == Settled(s, batch[..n + 1]).data;
    forall u | u in s.topics && s.topics[u] == batch[n] ensures u == t {
    }
    assert r.topics == Settled(s, batch[..n + 1]).topics;
  }

  lemma ServedAfterDelivery(w: World)
    requires CanDeliver(w) && w.phase.at < |w.phase.batch|
    ensures IsAtPayload(w)
    ensures var msg, r := MsgOf(Current(w)), Deliver(w);
      && r.wire == w.wire + [msg]
      && Served(r.wire, r.verdicts)
         == if msg.subbed then Served(w.wire, w.verdicts) + msg.items else Served(w.wire, w.verdicts) - msg.items
  {
    var r := Deliver(w);
    assert r.verdicts == w.verdicts + [true];
    assert r.verdicts[..|w.verdicts|] == w.verdicts;
    ServedOfPrefix(w.wire, [MsgOf(Current(w))], w.verdicts);
  }

  lemma AmongNext(s: Subs, batch: seq<nat>, n: nat, t: string, u: string)
    requires IsSubs(s) && n < |batch| && t in s.topics && s.topics[t] == batch[n]
    ensures IsAmong(s, batch[..n + 1], u) <==> IsAmong(s, batch[..n], u) || u == t
  {
    assert batch[..n + 1] == batch[..n] + [batch[n]];
    assert IsAmong(s, batch[..n + 1], u) && s.topics[u] == batch[n] ==> s.data[batch[n]].topic == u;
  }

  lemma SettleServed(start: World, batch: seq<nat>, n: nat, w: World, t: string, u: string)
    requires IsSubs(start.subs) && IsBatch(start.subs, batch) && |start.verdicts| <= |start.wire|
    requires n < |batch| && IsSettling(start, batch, n, w)
    requires t in start.subs.topics && start.subs.topics[t] == batch[n] && IsAtPayload(w)
    requires Current(w) == start.subs.data[start.subs.topics[t]]
    ensures u in Served(Deliver(w).wire, Deliver(w).verdicts)
       <==> if IsAmong(start.subs, batch[..n + 1], u) then IsSubbed(start.subs, u)
            else u in Served(start.wire, start.verdicts)
  {
    ServedAfterDelivery(w);
    AmongNext(start.subs, batch, n, t, u);
  }

  lemma MessagesNext(wire: seq<Msg<string>>, s: Subs, batch: seq<nat>, n: nat)
    requires IsBatch(s, batch) && n < |batch| && batch[n] < |s.data|
    ensures wire + Messages(s, batch, n + 1) == wire + Messages(s, batch, n) + [MsgOf(s.data[batch[n]])]
  {
  }

  lemma SettleState(start: World, batch: seq<nat>, n: nat, w: World) returns (t: string)
    requires IsSubs(start.subs) && IsBatch(start.subs, batch) && |start.verdicts| <= |start.wire|
    requires n < |batch| && IsSettling(start, batch, n, w)
    ensures t in start.subs.topics && start.subs.topics[t] == batch[n] && IsAtPayload(w)
    ensures Current(w) == start.subs.data[start.subs.topics[t]]
    ensures Deliver(w).subs == Settled(start.subs, batch[..n + 1])
    ensures Deliver(w).wire == start.wire + Messages(start.subs, batch, n + 1)
  {
    var s := start.subs;
    t := StoredPayload(s, batch, n);
    SettleSubs(s, batch, n, t);
    DeliveredParts(w);
    MessagesNext(start.wire, s, batch, n);
  }

  lemma SettleNext(start: World, batch: seq<nat>, n: nat, w: World)
    requires IsSubs(start.subs) && IsBatch(start.subs, batch) && |start.verdicts| <= |start.wire|
    requires n < |batch| && IsSettling(start, batch, n, w)
    ensures IsSettling(start, batch, n + 1, Deliver(w))
  {
    var s, r := start.subs, Deliver(w);
    var t := SettleState(start, batch, n, w);
    forall u
      ensures u in Served(r.wire, r.verdicts)
         <==> if IsAmong(s, batch[..n + 1], u) then IsSubbed(s, u) else u in Served(start.wire, start.verdicts)
    {
      SettleServed(start, batch, n, w, t, u);
    }
  }

  lemma {:induction false} SettleAll(start: World, batch: seq<nat>, n: nat, w: World)
    requires IsSubs(start.subs) && IsBatch(start.subs, batch) && |start.verdicts| <= |start.wire|
    requires n <= |batch| && IsSettling(start, batch, n, w)
    ensures IsSettling(start, batch, |batch|, DeliverRest(w))
    decreases |batch| - n
  {
    if n < |batch| {
      SettleNext(start, batch, n, w);
      SettleAll(start, batch, n + 1, Deliver(w));
    }
  }

  /** The world the pass has reached when it has taken the payloads of an open connection. */
  ghost function TakenOpen(w: World, batch: seq<nat>): (r: World)
    requires Inv(w) && w.phase == Idle && w.open && |w.verdicts| == |w.wire| && IsBatch(w.subs, batch)
    ensures CanDeliver(r) && r == w.(phase := Passing(batch, 0))
  {
    NextKeepsInv(w, CheckOpen);
    NextKeepsInv(Next(w, CheckOpen), TakePayloads(batch));
    Next(Next(w, CheckOpen), TakePayloads(batch))
  }

  ghost function AfterOpenPass(w: World, batch: seq<nat>): (r: World)
    requires Inv(w) && w.phase == Idle && w.open && |w.verdicts| == |w.wire| && IsBatch(w.subs, batch)
    ensures Inv(r) && r.open && r.phase == Idle
  {
    var done := DeliverRest(TakenOpen(w, batch));
    NextKeepsInv(done, EndPass);
    Next(done, EndPass)
  }

  /** The server holds a topic that the keeper does not have. */
  ghost predicate IsStray(w: World, t: string) {
    |w.verdicts| <= |w.wire| && t in Served(w.wire, w.verdicts) && !HasTopic(w.subs, t)
  }

  lemma OpenPassSettles(w: World, batch: seq<nat>)
    requires Inv(w) && w.phase == Idle && w.open && |w.verdicts| == |w.wire| && IsBatch(w.subs, batch)
    ensures var r := AfterOpenPass(w, batch);
      && r.subs == Settled(w.subs, batch)
      && r.wire == w.wire + Messages(w.subs, batch, |batch|) && |r.verdicts| == |r.wire|
      && forall t :: t in Served(r.wire, r.verdicts)
           <==> if IsAmong(w.subs, batch, t) then IsSubbed(w.subs, t) else t in Served(w.wire, w.verdicts)
  {
    var s := w.subs;
    assert Settled(s, []).data == s.data && Settled(s, []).topics == s.topics;
    SettleAll(w, batch, 0, TakenOpen(w, batch));
    assert batch[..|batch|] == batch;
  }

  /** After the pass the topic is live if it was subscribed, and gone otherwise. */
  lemma SettledTopic(w: World, batch: seq<nat>, t: string)
    requires Inv(w) && w.open && IsBatch(w.subs, batch)
    ensures HasTopic(Settled(w.subs, batch), t) <==> IsSubbed(w.subs, t)
    ensures IsSubbed(w.subs, t) ==> IsLive(Settled(w.subs, batch), t)
    ensures (if IsAmong(w.subs, batch, t) then IsSubbed(w.subs, t) else t in Served(w.wire, w.verdicts))
       <==> IsSubbed(w.subs, t) || IsStray(w, t)
  {
    if IsLive(w.subs, t) {
      assert IsSafe(w.wire, w.verdicts, t);
    }
  }

  /** On an open connection such a pass sends one message for each payload, in order. It keeps what is
      subscribed and leaves nothing to send; the server then holds exactly the subscribed topics and what
      it already held without the keeper's knowledge. */
  lemma OpenPass(w: World, batch: seq<nat>)
    requires Inv(w) && w.phase == Idle && w.open && |w.verdicts| == |w.wire| && IsBatch(w.subs, batch)
    ensures var r := AfterOpenPass(w, batch);
      && r.wire == w.wire + Messages(w.subs, batch, |batch|) && |r.verdicts| == |r.wire|
      && (forall t :: t in Served(r.wire, r.verdicts) <==> IsSubbed(w.subs, t) || IsStray(w, t))
      && (forall t :: IsSubbed(r.subs, t) <==> IsSubbed(w.subs, t))
      && (forall rest | IsBatch(r.subs, rest) :: rest == [])
  {
    var r := AfterOpenPass(w, batch);
    OpenPassSettles(w, batch);
    forall t
      ensures t in Served(r.wire, r.verdicts) <==> IsSubbed(w.subs, t) || IsStray(w, t)
      ensures IsSubbed(r.subs, t) <==> IsSubbed(w.subs, t)
      ensures t in r.subs.topics ==> IsLive(r.subs, t)
    {
      SettledTopic(w, batch, t);
    }
    NothingToSend(r.subs);
  }

  /** After such a pass the server holds exactly the subscribed topics if and only if it held only topics
      the keeper had. */
  lemma OpenPassIsExact(w: World, batch: seq<nat>)
    requires Inv(w) && w.phase == Idle && w.open && |w.verdicts| == |w.wire| && IsBatch(w.subs, batch)
    ensures var r := AfterOpenPass(w, batch);
      |r.verdicts| <= |r.wire| &&
      ((forall t :: t in Served(r.wire, r.verdicts) <==> IsSubbed(w.subs, t)) <==> IsServedKept(w))
  {
    OpenPass(w, batch);
    if IsServedKept(w) {
      forall t ensures !IsStray(w, t) {
      }
    } else {
      var t :| t in Served(w.wire, w.verdicts) && !HasTopic(w.subs, t);
      assert IsStray(w, t) && !IsSubbed(w.subs, t);
      var r := AfterOpenPass(w, batch);
      assert t in Served(r.wire, r.verdicts);
    }
  }
}
