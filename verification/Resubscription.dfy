/** The client's resubscription protocol with a grouped keeper: user calls, the serialized reconnect
    pass, the connection and the server, interleaved step by step. Payloads are confirmed
    automatically; the server never drops a subscription on its own. */
module Resubscription {
  import opened Wrappers
  import opened GroupedSubs
  import opened ServerPeer

  type Item = (string, Key)

  /** Where the reconnect loop is. `Passing` has a frozen batch; it is about to send payload `at`, or
      waits for its response. */
  datatype Phase = NotStarted | Idle | Opening | Ready | Passing(batch: seq<Payload>, at: nat, waiting: bool)

  datatype World = World(subs: Subs, open: bool, phase: Phase, wire: seq<Msg<Item>>, verdicts: seq<bool>)

  const INITIAL := World(EMPTY, false, NotStarted, [], [])

  datatype Action =
    // user calls
    | UserSubscribe(topic: string, keys: seq<Key>)
    | UserUnsubscribe(topic: string, keys: seq<Key>)
    | UserUnsubscribeAll
    // environment
    | Lose
    | Handle(verdict: bool)
    // the client's constructor and the passes of its loop
    | Start
    | CheckOpen
    | CheckClosed
    | Reopen
    | ReopenFails
    | TakePayloads(taken: seq<Payload>)
    | Skip
    | FindClosed
    | SendFails
    | Send
    | ResponseFails
    | Respond(confirmed: bool)
    | Cancel
    | EndPass

  function MsgOf(p: Payload): Msg<Item> {
    Msg(p.subbed, set k | k in p.keys :: (p.topic, k))
  }

  predicate IsAtPayload(w: World, waiting: bool) {
    w.phase.Passing? && w.phase.at < |w.phase.batch| && w.phase.waiting == waiting
  }

  /** The payload the pass is at. */
  function Current(w: World): Payload
    requires w.phase.Passing? && w.phase.at < |w.phase.batch|
  {
    w.phase.batch[w.phase.at]
  }

  ghost predicate Enabled(w: World, a: Action) {
    match a
    case UserSubscribe(_, _) | UserUnsubscribe(_, _) | UserUnsubscribeAll => true
    case Lose => w.open
    case Handle(_) => w.open && |w.verdicts| < |w.wire|
    case Start => w.phase == NotStarted
    case CheckOpen => w.phase == Idle && w.open
    case CheckClosed => w.phase == Idle && !w.open
    case Reopen | ReopenFails => w.phase == Opening
    case TakePayloads(taken) => w.phase == Ready && IsBatch(w.subs, taken)
    case Skip | SendFails => IsAtPayload(w, false)
    case FindClosed => IsAtPayload(w, false) && !w.open
    case Send => IsAtPayload(w, false) && w.open
    case ResponseFails => IsAtPayload(w, true)
    // responses follow the order of the messages, and a formatter accepts only what the server accepted
    case Respond(confirmed) =>
      && IsAtPayload(w, true) && |w.verdicts| == |w.wire| > 0
      && (confirmed ==> w.verdicts[|w.verdicts| - 1])
    case Cancel => w.phase.Passing? && !w.phase.waiting
    case EndPass => w.phase.Passing? && w.phase.at >= |w.phase.batch|
  }

  function Advance(w: World): World
    requires w.phase.Passing?
  {
    w.(phase := Passing(w.phase.batch, w.phase.at + 1, false))
  }

  function Next(w: World, a: Action): World
    requires Enabled(w, a)
  {
    match a
    case UserSubscribe(topic, keys) => w.(subs := DoSubscribe(w.subs, topic, keys))
    case UserUnsubscribe(topic, keys) => w.(subs := DoUnsubscribe(w.subs, topic, keys))
    case UserUnsubscribeAll => w.(subs := DoUnsubscribeAll(w.subs))
    case Lose => w.(open := false)
    case Handle(verdict) => w.(verdicts := w.verdicts + [verdict])
    case Start => w.(open := true, phase := Idle)
    case CheckOpen => w.(phase := Ready)
    case CheckClosed => w.(subs := DoResetAll(w.subs), phase := Opening)
    case Reopen => w.(open := true, phase := Ready, wire := [], verdicts := [])
    case ReopenFails | FindClosed | Cancel | EndPass => w.(phase := Idle)
    case TakePayloads(taken) => w.(phase := Passing(taken, 0, false))
    case Skip | SendFails | ResponseFails => Advance(w)
    case Send => w.(wire := w.wire + [MsgOf(Current(w))], phase := w.phase.(waiting := true))
    case Respond(confirmed) =>
      if confirmed then
        var p := Current(w);
        Advance(w.(subs := DoConfirm(w.subs, p.subbed, p.topic, p.id, p.keys)))
      else Advance(w)
  }

  // ---------------------------------------------------------------- the invariant

  predicate IsStored(s: Subs, p: Payload) {
    p.topic in s.topics && s.topics[p.topic] == p.id
  }

  /** A captured topic map is still stored under its topic, or it is stored nowhere and empty. */
  ghost predicate IsCaptured(s: Subs, p: Payload) {
    && p.id < |s.data|
    && (forall t | t in s.topics && s.topics[t] == p.id :: t == p.topic)
    && (IsStored(s, p) || s.data[p.id] == map[])
  }

  /** Payloads of one topic share their topic map, and no key is in two payloads of a topic. */
  ghost predicate IsFrozen(batch: seq<Payload>) {
    forall i, j | 0 <= i < |batch| && 0 <= j < |batch| && i != j && batch[i].topic == batch[j].topic ::
      batch[i].id == batch[j].id && forall k | k in batch[i].keys :: k !in batch[j].keys
  }

  ghost predicate NothingLive(s: Subs) {
    forall t, k :: !IsLive(SlotOf(s, t, k))
  }

  /** No key of an unsubscription payload that is still to be confirmed is live. */
  ghost predicate NothingLiveAhead(s: Subs, batch: seq<Payload>, at: nat) {
    forall j, k | at <= j < |batch| && !batch[j].subbed && k in batch[j].keys ::
      !IsLive(SlotOf(s, batch[j].topic, k))
  }

  ghost predicate AllSafe(w: World)
    requires |w.verdicts| <= |w.wire|
  {
    forall t, k | IsLive(SlotOf(w.subs, t, k)) :: IsSafe(w.wire, w.verdicts, (t, k))
  }

  ghost predicate Inv(w: World) {
    && IsSubs(w.subs)
    && |w.verdicts| <= |w.wire|
    && (w.open ==> AllSafe(w))
    && (w.phase == NotStarted || w.phase == Opening ==> !w.open && NothingLive(w.subs))
    && (w.phase == NotStarted ==> w.wire == [])
    && (w.phase.Passing? ==>
         && IsFrozen(w.phase.batch)
         && (forall p | p in w.phase.batch :: IsCaptured(w.subs, p))
         && NothingLiveAhead(w.subs, w.phase.batch, w.phase.at)
         && (w.phase.waiting ==>
               && w.phase.at < |w.phase.batch|
               && |w.wire| > 0 && w.wire[|w.wire| - 1] == MsgOf(Current(w))))
  }

  // ---------------------------------------------------------------- what a change of the keeper keeps

  /** The keeper changed without making a key live and without disturbing captured topic maps. */
  ghost predicate IsQuiet(s: Subs, r: Subs) {
    && IsSubs(r)
    && (forall t, k | IsLive(SlotOf(r, t, k)) :: IsLive(SlotOf(s, t, k)))
    && (forall p | IsCaptured(s, p) :: IsCaptured(r, p))
  }

  lemma QuietKeepsInv(w: World, r: Subs)
    requires Inv(w) && IsQuiet(w.subs, r)
    ensures Inv(w.(subs := r))
  {
  }

  lemma {:induction false} TimesIsQuiet(op: SlotOp, n: nat, slot: Slot)
    requires op == Subscribe || op == Unsubscribe
    requires IsLive(Times(op, n, slot))
    ensures IsLive(slot)
  {
    if n > 0 {
      TimesIsQuiet(op, n - 1, slot);
    }
  }

  lemma SubscribeIsQuiet(s: Subs, topic: string, keys: seq<Key>)
    requires IsSubs(s)
    ensures IsQuiet(s, DoSubscribe(s, topic, keys))
  {
    SubscribeKeeps(s, topic, keys);
    var r := DoSubscribe(s, topic, keys);
    forall t, k | IsLive(SlotOf(r, t, k)) ensures IsLive(SlotOf(s, t, k)) {
      SlotAfterSubscribe(s, topic, keys, t, k);
      if t == topic {
        TimesIsQuiet(Subscribe, multiset(keys)[k], SlotOf(s, t, k));
      }
    }
    forall p | IsCaptured(s, p) ensures IsCaptured(r, p) {
    }
  }

  lemma UnsubscribeIsQuiet(s: Subs, topic: string, keys: seq<Key>)
    requires IsSubs(s)
    ensures IsQuiet(s, DoUnsubscribe(s, topic, keys))
  {
    UnsubscribeKeeps(s, topic, keys);
    var r := DoUnsubscribe(s, topic, keys);
    forall t, k | IsLive(SlotOf(r, t, k)) ensures IsLive(SlotOf(s, t, k)) {
      SlotAfterUnsubscribe(s, topic, keys, t, k);
      if t == topic {
        TimesIsQuiet(Unsubscribe, multiset(keys)[k], SlotOf(s, t, k));
      }
    }
    forall p | IsCaptured(s, p) ensures IsCaptured(r, p) {
    }
  }

  lemma OnAllIsQuiet(op: SlotOp, s: Subs)
    requires IsSubs(s) && (op == Clear || op == Reset)
    ensures IsQuiet(s, OnAll(op, s))
  {
    OnAllKeeps(op, s);
    var r := OnAll(op, s);
    forall t, k | IsLive(SlotOf(r, t, k)) ensures IsLive(SlotOf(s, t, k)) {
      SlotAfterOnAll(op, s, t, k);
    }
    forall p | IsCaptured(s, p) ensures IsCaptured(r, p) {
      if IsStored(s, p) && !IsStored(r, p) {
        assert Empties(op, s, p.topic);
        assert p.id in s.topics.Values;
        assert r.data[p.id] == All(op, DataOf(s, p.topic));
      }
    }
  }

  lemma UnsubscribeAllIsQuiet(s: Subs)
    requires IsSubs(s)
    ensures IsQuiet(s, DoUnsubscribeAll(s))
  {
    OnAllIsQuiet(Clear, s);
    var r, q := OnAll(Clear, s), DoUnsubscribeAll(s);
    forall t, k ensures SlotOf(q, t, k) == SlotOf(r, t, k) {
    }
    forall p ensures IsCaptured(q, p) == IsCaptured(r, p) {
    }
  }

  /** A confirmation through a captured topic map disturbs no captured topic map. */
  lemma ConfirmKeepsCaptured(s: Subs, c: Payload, p: Payload)
    requires IsSubs(s) && IsCaptured(s, c) && IsCaptured(s, p)
    requires c.topic == p.topic ==> c.id == p.id
    ensures IsCaptured(DoConfirm(s, c.subbed, c.topic, c.id, c.keys), p)
  {
    if s.data[c.id] == map[] {
      EachOfEmpty(if c.subbed then ConfirmSub else ConfirmUnsub, c.keys);
    }
  }

  lemma {:induction false} ConfirmedSlot(subbed: bool, n: nat, slot: Slot)
    requires IsLive(Times(if subbed then ConfirmSub else ConfirmUnsub, n, slot))
    ensures IsLive(slot) || (subbed && n > 0)
  {
    if n > 0 && IsLive(Times(if subbed then ConfirmSub else ConfirmUnsub, n - 1, slot)) {
      ConfirmedSlot(subbed, n - 1, slot);
    }
  }

  /** Only keys of the confirmed payload become live, and only by a subscription. */
  lemma LiveAfterConfirm(s: Subs, c: Payload, t: string, k: Key)
    requires IsSubs(s) && IsCaptured(s, c)
    requires IsLive(SlotOf(DoConfirm(s, c.subbed, c.topic, c.id, c.keys), t, k))
    ensures IsLive(SlotOf(s, t, k)) || (c.subbed && t == c.topic && k in c.keys)
  {
    SlotAfterConfirm(s, c.subbed, c.topic, c.id, c.keys, t, k);
    if t == c.topic && IsStored(s, c) {
      ConfirmedSlot(c.subbed, multiset(c.keys)[k], SlotOf(s, t, k));
    }
  }

  // ---------------------------------------------------------------- every step keeps the invariant

  lemma TakePayloadsKeepsInv(w: World, taken: seq<Payload>)
    requires Inv(w) && Enabled(w, TakePayloads(taken))
    ensures Inv(Next(w, TakePayloads(taken)))
  {
    forall j, k | 0 <= j < |taken| && !taken[j].subbed && k in taken[j].keys
      ensures !IsLive(SlotOf(w.subs, taken[j].topic, k))
    {
      assert IsPayload(w.subs, taken[j]);
    }
    forall i, j | 0 <= i < |taken| && 0 <= j < |taken| && i != j && taken[i].topic == taken[j].topic
      ensures taken[i].id == taken[j].id && forall k | k in taken[i].keys :: k !in taken[j].keys
    {
      assert IsPayload(w.subs, taken[i]) && IsPayload(w.subs, taken[j]);
      assert taken[i].subbed != taken[j].subbed;
    }
  }

  lemma SendKeepsInv(w: World)
    requires Inv(w) && Enabled(w, Send)
    ensures Inv(Next(w, Send))
  {
    var p := Current(w);
    forall t, k | IsLive(SlotOf(w.subs, t, k))
      ensures IsSafe(w.wire + [MsgOf(p)], w.verdicts, (t, k))
    {
      SafeAfterSending(w.wire, w.verdicts, MsgOf(p), (t, k));
    }
  }

  lemma RespondKeepsSafe(w: World)
    requires Inv(w) && Enabled(w, Respond(true)) && w.open
    ensures AllSafe(Next(w, Respond(true)))
  {
    var c, r := Current(w), Next(w, Respond(true)).subs;
    assert c in w.phase.batch;
    forall t, k | IsLive(SlotOf(r, t, k)) ensures IsSafe(w.wire, w.verdicts, (t, k)) {
      LiveAfterConfirm(w.subs, c, t, k);
      if !IsLive(SlotOf(w.subs, t, k)) {
        SafeAfterAccepted(w.wire, w.verdicts, (t, k));
      }
    }
  }

  lemma RespondKeepsInv(w: World)
    requires Inv(w) && Enabled(w, Respond(true))
    ensures Inv(Next(w, Respond(true)))
  {
    var c := Current(w);
    assert c in w.phase.batch;
    var batch, at := w.phase.batch, w.phase.at;
    var r := DoConfirm(w.subs, c.subbed, c.topic, c.id, c.keys);
    ConfirmKeeps(w.subs, c.subbed, c.topic, c.id, c.keys);
    if w.open {
      RespondKeepsSafe(w);
    }
    forall p | p in batch ensures IsCaptured(r, p) {
      var j :| 0 <= j < |batch| && batch[j] == p;
      ConfirmKeepsCaptured(w.subs, c, p);
    }
    forall j, k | at + 1 <= j < |batch| && !batch[j].subbed && k in batch[j].keys
      ensures !IsLive(SlotOf(r, batch[j].topic, k))
    {
      if IsLive(SlotOf(r, batch[j].topic, k)) {
        LiveAfterConfirm(w.subs, c, batch[j].topic, k);
      }
    }
  }

  lemma HandleKeepsInv(w: World, verdict: bool)
    requires Inv(w) && Enabled(w, Handle(verdict))
    ensures Inv(Next(w, Handle(verdict)))
  {
    forall t, k | IsLive(SlotOf(w.subs, t, k))
      ensures IsSafe(w.wire, w.verdicts + [verdict], (t, k))
    {
      SafeAfterHandling(w.wire, w.verdicts, verdict, (t, k));
    }
  }

  lemma CheckClosedKeepsInv(w: World)
    requires Inv(w) && Enabled(w, CheckClosed)
    ensures Inv(Next(w, CheckClosed))
  {
    OnAllKeeps(Reset, w.subs);
    forall t, k ensures !IsLive(SlotOf(DoResetAll(w.subs), t, k)) {
      SlotAfterOnAll(Reset, w.subs, t, k);
    }
  }

  /** Every step of the protocol keeps the invariant. */
  lemma NextKeepsInv(w: World, a: Action)
    requires Inv(w) && Enabled(w, a)
    ensures Inv(Next(w, a))
  {
    match a
    case UserSubscribe(topic, keys) =>
      SubscribeIsQuiet(w.subs, topic, keys);
      QuietKeepsInv(w, DoSubscribe(w.subs, topic, keys));
    case UserUnsubscribe(topic, keys) =>
      UnsubscribeIsQuiet(w.subs, topic, keys);
      QuietKeepsInv(w, DoUnsubscribe(w.subs, topic, keys));
    case UserUnsubscribeAll =>
      UnsubscribeAllIsQuiet(w.subs);
      QuietKeepsInv(w, DoUnsubscribeAll(w.subs));
    case Handle(verdict) => HandleKeepsInv(w, verdict);
    case CheckClosed => CheckClosedKeepsInv(w);
    case TakePayloads(taken) => TakePayloadsKeepsInv(w, taken);
    case Send => SendKeepsInv(w);
    case Respond(confirmed) =>
      if confirmed {
        RespondKeepsInv(w);
      }
    case _ =>
  }

  // ---------------------------------------------------------------- runs

  /** The actions can be taken one after the other from the start. */
  ghost predicate CanRun(actions: seq<Action>)
    decreases |actions|, 0
  {
    actions == [] ||
    (CanRun(actions[..|actions| - 1]) && Enabled(Run(actions[..|actions| - 1]), actions[|actions| - 1]))
  }

  /** The world a run ends in. */
  ghost function Run(actions: seq<Action>): World
    requires CanRun(actions)
    decreases |actions|, 1
  {
    if actions == [] then INITIAL
    else Next(Run(actions[..|actions| - 1]), actions[|actions| - 1])
  }

  /** Whatever the interleaving, every reachable world satisfies the invariant. */
  lemma {:induction false} RunKeepsInv(actions: seq<Action>)
    requires CanRun(actions)
    ensures Inv(Run(actions))
  {
    if actions != [] {
      RunKeepsInv(actions[..|actions| - 1]);
      NextKeepsInv(Run(actions[..|actions| - 1]), actions[|actions| - 1]);
    }
  }

  /** A run goes on with any enabled action. */
  lemma Extend(actions: seq<Action>, a: Action)
    requires CanRun(actions) && Enabled(Run(actions), a)
    ensures CanRun(actions + [a]) && Run(actions + [a]) == Next(Run(actions), a)
  {
    assert (actions + [a])[..|actions|] == actions;
  }

  /** In every run, while the connection is open, the server holds every confirmed subscription. */
  lemma ConfirmedIsServed(actions: seq<Action>)
    requires CanRun(actions)
    ensures var w := Run(actions);
      |w.verdicts| <= |w.wire| &&
      (w.open ==> forall t, k | IsLive(SlotOf(w.subs, t, k)) :: (t, k) in Served(w.wire, w.verdicts))
  {
    var w := Run(actions);
    RunKeepsInv(actions);
    if w.open {
      forall t, k | IsLive(SlotOf(w.subs, t, k)) ensures (t, k) in Served(w.wire, w.verdicts) {
        assert IsSafe(w.wire, w.verdicts, (t, k));
      }
    }
  }

  /** In every run the topic map of each payload of the current batch is the stored one or is empty;
      once it is not stored, no step stores or fills it again. */
  lemma {:induction false} CapturedMapsAreStoredOrEmpty(actions: seq<Action>, a: Action, p: Payload)
    requires CanRun(actions) && Run(actions).phase.Passing? && p in Run(actions).phase.batch
    requires Enabled(Run(actions), a)
    ensures var s, r := Run(actions).subs, Next(Run(actions), a).subs;
      && p.id < |s.data| <= |r.data|
      && (IsStored(s, p) || s.data[p.id] == map[])
      && (!IsStored(s, p) ==> !IsStored(r, p) && r.data[p.id] == map[])
  {
    var w := Run(actions);
    RunKeepsInv(actions);
    NextKeepsCaptured(w, a, p);
    if !IsStored(w.subs, p) {
      NextStoresNoOldMap(w, a, p);
    }
  }

  lemma NextKeepsCaptured(w: World, a: Action, p: Payload)
    requires Inv(w) && Enabled(w, a) && w.phase.Passing? && p in w.phase.batch
    ensures IsCaptured(Next(w, a).subs, p) && |w.subs.data| <= |Next(w, a).subs.data|
  {
    match a
    case UserSubscribe(topic, keys) => SubscribeIsQuiet(w.subs, topic, keys);
    case UserUnsubscribe(topic, keys) => UnsubscribeIsQuiet(w.subs, topic, keys);
    case UserUnsubscribeAll => UnsubscribeAllIsQuiet(w.subs);
    case Respond(confirmed) =>
      if confirmed {
        assert Current(w) in w.phase.batch;
        ConfirmKeepsCaptured(w.subs, Current(w), p);
      }
    case _ =>
  }

  lemma NextStoresNoOldMap(w: World, a: Action, p: Payload)
    requires Inv(w) && Enabled(w, a) && w.phase.Passing? && p in w.phase.batch && !IsStored(w.subs, p)
    ensures !IsStored(Next(w, a).subs, p)
  {
    assert IsCaptured(w.subs, p);
  }

  // ---------------------------------------------------------------- the connection of a run

  /** A connection was made, and it was not lost since. */
  function IsConnected(actions: seq<Action>): bool {
    if actions == [] then false
    else
      match actions[|actions| - 1]
      case Start | Reopen => true
      case Lose => false
      case _ => IsConnected(actions[..|actions| - 1])
  }

  /** How many messages were sent on the last connection. */
  function Sends(actions: seq<Action>): nat {
    if actions == [] || actions[|actions| - 1].Reopen? then 0
    else Sends(actions[..|actions| - 1]) + (if actions[|actions| - 1].Send? then 1 else 0)
  }

  /** What the server made of the messages of the last connection, as far as it got. */
  function Verdicts(actions: seq<Action>): seq<bool> {
    if actions == [] || actions[|actions| - 1].Reopen? then []
    else
      var last := actions[|actions| - 1];
      Verdicts(actions[..|actions| - 1]) + (if last.Handle? then [last.verdict] else [])
  }

  lemma NextConnection(w: World, a: Action)
    requires Enabled(w, a)
    ensures var r := Next(w, a);
      && r.open == (a.Start? || a.Reopen? || (w.open && !a.Lose?))
      && |r.wire| == (if a.Reopen? then 0 else if a.Send? then |w.wire| + 1 else |w.wire|)
      && r.verdicts == (if a.Reopen? then [] else if a.Handle? then w.verdicts + [a.verdict] else w.verdicts)
  {
  }

  /** In every run the connection is what the actions made of it. */
  lemma {:induction false} ConnectionExactly(actions: seq<Action>)
    requires CanRun(actions)
    ensures var w := Run(actions);
      && w.open == IsConnected(actions)
      && |w.wire| == Sends(actions)
      && w.verdicts == Verdicts(actions)
  {
    if actions != [] {
      ConnectionExactly(actions[..|actions| - 1]);
      NextConnection(Run(actions[..|actions| - 1]), actions[|actions| - 1]);
    }
  }

  // ---------------------------------------------------------------- reference counts

  /** What an action does to the plain counter a caller would keep for one key. */
  function Counted(n: nat, a: Action, t: string, k: Key): nat {
    match a
    case UserSubscribe(topic, keys) => if topic == t then n + multiset(keys)[k] else n
    case UserUnsubscribe(topic, keys) =>
      if topic != t then n else if n > multiset(keys)[k] then n - multiset(keys)[k] else 0
    case UserUnsubscribeAll => 0
    case _ => n
  }

  function Tally(actions: seq<Action>, t: string, k: Key): nat {
    if actions == [] then 0
    else Counted(Tally(actions[..|actions| - 1], t, k), actions[|actions| - 1], t, k)
  }

  /** A confirmation finds its topic map stored, or finds nothing subscribed under its topic. */
  ghost predicate IsHarmless(w: World, a: Action)
    requires Enabled(w, a)
  {
    a == Respond(true) ==>
      IsStored(w.subs, Current(w)) || forall k :: CountOf(SlotOf(w.subs, Current(w).topic, k)) == 0
  }

  lemma {:induction false} ConfirmationKeepsCount(op: SlotOp, n: nat, slot: Slot)
    requires op == ConfirmSub || op == ConfirmUnsub
    ensures CountOf(Times(op, n, slot)) == CountOf(slot)
  {
    if n > 0 {
      ConfirmationKeepsCount(op, n - 1, slot);
    }
  }

  lemma ClearedCount(slot: Slot)
    requires IsSlot(slot)
    ensures CountOf(Apply(Clear, slot)) == 0
  {
  }

  /** One step changes each count as the plain counter does, for every key exactly when the step is
      harmless. */
  lemma StepCounts(w: World, actions: seq<Action>, a: Action)
    requires Inv(w) && Enabled(w, a)
    requires forall t, k :: CountOf(SlotOf(w.subs, t, k)) == Tally(actions, t, k)
    ensures (forall t, k :: CountOf(SlotOf(Next(w, a).subs, t, k)) == Tally(actions + [a], t, k))
       <==> IsHarmless(w, a)
  {
    var r := Next(w, a).subs;
    assert (actions + [a])[..|actions|] == actions;
    if a == Respond(true) && !IsHarmless(w, a) {
      var c := Current(w);
      var k :| CountOf(SlotOf(w.subs, c.topic, k)) != 0;
      assert c in w.phase.batch;
      SlotAfterConfirm(w.subs, c.subbed, c.topic, c.id, c.keys, c.topic, k);
      assert CountOf(SlotOf(r, c.topic, k)) != Tally(actions + [a], c.topic, k);
    } else {
      forall t, k ensures CountOf(SlotOf(r, t, k)) == Tally(actions + [a], t, k) {
        StepCount(w, a, t, k);
      }
    }
  }

  lemma StepCount(w: World, a: Action, t: string, k: Key)
    requires Inv(w) && Enabled(w, a) && IsHarmless(w, a)
    ensures CountOf(SlotOf(Next(w, a).subs, t, k)) == Counted(CountOf(SlotOf(w.subs, t, k)), a, t, k)
  {
    match a
    case UserSubscribe(_, _) | UserUnsubscribe(_, _) | UserUnsubscribeAll => UserCallCounts(w.subs, a, t, k);
    case CheckClosed => SlotAfterOnAll(Reset, w.subs, t, k);
    case Respond(confirmed) =>
      if confirmed {
        RespondKeepsCount(w, t, k);
      }
    case _ =>
  }

  lemma UserCallCounts(s: Subs, a: Action, t: string, k: Key)
    requires IsSubs(s)
    ensures a.UserSubscribe? ==> CountOf(SlotOf(DoSubscribe(s, a.topic, a.keys), t, k)) == Counted(CountOf(SlotOf(s, t, k)), a, t, k)
    ensures a.UserUnsubscribe? ==> CountOf(SlotOf(DoUnsubscribe(s, a.topic, a.keys), t, k)) == Counted(CountOf(SlotOf(s, t, k)), a, t, k)
    ensures a.UserUnsubscribeAll? ==> CountOf(SlotOf(DoUnsubscribeAll(s), t, k)) == 0
  {
    var slot := SlotOf(s, t, k);
    assert IsSlot(slot);
    if a.UserSubscribe? {
      SlotAfterSubscribe(s, a.topic, a.keys, t, k);
      if multiset(a.keys)[k] > 0 {
        SubscribedSlot(multiset(a.keys)[k], slot);
      }
    } else if a.UserUnsubscribe? {
      SlotAfterUnsubscribe(s, a.topic, a.keys, t, k);
      UnsubscribedSlot(multiset(a.keys)[k], slot);
    } else if a.UserUnsubscribeAll? {
      SlotAfterOnAll(Clear, s, t, k);
      ClearedCount(slot);
    }
  }

  lemma RespondKeepsCount(w: World, t: string, k: Key)
    requires Inv(w) && Enabled(w, Respond(true)) && IsHarmless(w, Respond(true))
    ensures CountOf(SlotOf(Next(w, Respond(true)).subs, t, k)) == CountOf(SlotOf(w.subs, t, k))
  {
    var c := Current(w);
    assert c in w.phase.batch;
    SlotAfterConfirm(w.subs, c.subbed, c.topic, c.id, c.keys, t, k);
    ConfirmationKeepsCount(if c.subbed then ConfirmSub else ConfirmUnsub, multiset(c.keys)[k], SlotOf(w.subs, t, k));
  }

  ghost predicate CountsAgree(actions: seq<Action>)
    requires CanRun(actions)
  {
    forall t, k :: CountOf(SlotOf(Run(actions).subs, t, k)) == Tally(actions, t, k)
  }

  ghost predicate AgreesThroughout(actions: seq<Action>)
    requires CanRun(actions)
  {
    CountsAgree(actions) && (actions != [] ==> AgreesThroughout(actions[..|actions| - 1]))
  }

  ghost predicate IsHarmlessThroughout(actions: seq<Action>)
    requires CanRun(actions)
  {
    actions != [] ==>
      && IsHarmlessThroughout(actions[..|actions| - 1])
      && IsHarmless(Run(actions[..|actions| - 1]), actions[|actions| - 1])
  }

  /** The stored counts are the plain counters all along a run exactly when every confirmation of the
      run is harmless. */
  lemma {:induction false} CountsAreTallies(actions: seq<Action>)
    requires CanRun(actions)
    ensures AgreesThroughout(actions) <==> IsHarmlessThroughout(actions)
  {
    if actions != [] {
      var before, a := actions[..|actions| - 1], actions[|actions| - 1];
      CountsAreTallies(before);
      if AgreesThroughout(before) {
        assert CountsAgree(before);
        RunKeepsInv(before);
        StepCounts(Run(before), before, a);
        assert before + [a] == actions;
      }
    }
  }

  // ---------------------------------------------------------------- nothing left to send

  lemma NothingToSend(s: Subs)
    requires IsSubs(s)
    requires forall t, k :: SlotOf(s, t, k).Some? ==> SlotOf(s, t, k).value.confirmed
    ensures forall rest | IsBatch(s, rest) :: rest == []
  {
    forall rest | IsBatch(s, rest) ensures rest == [] {
      if rest != [] {
        assert rest[0] in rest;
        NotAPayload(s, rest[0]);
      }
    }
  }

  lemma NotAPayload(s: Subs, p: Payload)
    requires IsSubs(s)
    requires forall t, k :: SlotOf(s, t, k).Some? ==> SlotOf(s, t, k).value.confirmed
    ensures !IsPayload(s, p)
  {
    if p.topic in s.topics && p.keys != [] {
      var k := p.keys[0];
      assert SlotOf(s, p.topic, k).Some? ==> SlotOf(s, p.topic, k).value.confirmed;
      assert k in p.keys && k !in Waiting(DataOf(s, p.topic), p.subbed);
    }
  }
}
