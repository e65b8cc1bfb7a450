/** The state of the grouped subscription keeper as a value: which topic map is stored under each
    topic, what every topic map ever created holds, and how often the change functions ran.
    Topic maps have identities, because payloads go on referring to them after they were removed
    from the keeper. */
module GroupedSubs {
  import opened Wrappers

  /** Any comparable key type. */
  type Key(==, !new)

  /** A subscription of one key. An unconfirmed entry waits for a subscription message when its
      count is positive and for an unsubscription message when it is zero. */
  datatype Entry = Entry(confirmed: bool, count: nat)

  type Slot = Option<Entry>
  type TopicData = map<Key, Entry>

  // ---------------------------------------------------------------- one key

  datatype SlotOp = Subscribe | Unsubscribe | Clear | ConfirmSub | ConfirmUnsub | Reset

  /** What an operation does to one key of a topic. */
  function Apply(op: SlotOp, slot: Slot): Slot {
    match slot
    case None => if op == Subscribe then Some(Entry(false, 1)) else None
    case Some(e) =>
      match op
      case Subscribe => Some(Entry(e.confirmed && e.count > 0, e.count + 1))
      case Unsubscribe | Clear =>
        if (e.count == 1 && !e.confirmed) || (e.count == 0 && e.confirmed) then None
        else if e.count == 0 then slot
        else
          var count := if op == Clear then 0 else e.count - 1;
          Some(Entry(e.confirmed && count > 0, count))
      case ConfirmSub => if e.count > 0 then Some(Entry(true, e.count)) else slot
      case ConfirmUnsub => if e.count == 0 && !e.confirmed then None else slot
      case Reset => if e.count == 0 then None else Some(Entry(false, e.count))
  }

  function Times(op: SlotOp, n: nat, slot: Slot): Slot {
    if n == 0 then slot else Apply(op, Times(op, n - 1, slot))
  }

  function Get(vv: TopicData, k: Key): Slot {
    if k in vv then Some(vv[k]) else None
  }

  function Put(vv: TopicData, k: Key, slot: Slot): TopicData {
    if slot.Some? then vv[k := slot.value] else vv - {k}
  }

  // ---------------------------------------------------------------- one topic map

  /** An operation on a list of keys, in order, duplicates included. */
  function Each(op: SlotOp, vv: TopicData, keys: seq<Key>): TopicData {
    if keys == [] then vv
    else
      var n := |keys| - 1;
      var before := Each(op, vv, keys[..n]);
      Put(before, keys[n], Apply(op, Get(before, keys[n])))
  }

  /** An operation on every key a topic map holds. */
  function All(op: SlotOp, vv: TopicData): TopicData {
    map k | k in vv && Apply(op, Some(vv[k])).Some? :: Apply(op, Some(vv[k])).value
  }

  /** An operation on every key a topic map holds but the listed ones. */
  function AllBut(op: SlotOp, vv: TopicData, keys: seq<Key>): TopicData {
    map k | k in vv && (k in keys || Apply(op, Some(vv[k])).Some?) ::
      if k in keys then vv[k] else Apply(op, Some(vv[k])).value
  }

  /** A list of keys acts on each key on its own, as often as the list holds it: the order of
      the list does not matter. */
  lemma {:induction false} EachAt(op: SlotOp, vv: TopicData, keys: seq<Key>, k: Key)
    ensures Get(Each(op, vv, keys), k) == Times(op, multiset(keys)[k], Get(vv, k))
  {
    if keys != [] {
      var n := |keys| - 1;
      assert keys == keys[..n] + [keys[n]];
      EachAt(op, vv, keys[..n], k);
    }
  }

  lemma GetDetermines(vv: TopicData, ww: TopicData)
    requires forall k :: Get(vv, k) == Get(ww, k)
    ensures vv == ww
  {
    forall k ensures k in vv <==> k in ww {
      assert Get(vv, k) == Get(ww, k);
    }
    forall k | k in vv ensures vv[k] == ww[k] {
      assert Get(vv, k) == Get(ww, k);
    }
  }

  ghost predicate IsListing(keys: seq<Key>, of: set<Key>) {
    && (forall k :: k in keys <==> k in of)
    && forall i, j | 0 <= i < j < |keys| :: keys[i] != keys[j]
  }

  lemma {:induction false} ListingCounts(keys: seq<Key>, of: set<Key>, k: Key)
    requires IsListing(keys, of)
    ensures multiset(keys)[k] == if k in of then 1 else 0
  {
    if keys != [] {
      var n := |keys| - 1;
      assert keys == keys[..n] + [keys[n]];
      assert IsListing(keys[..n], of - {keys[n]}) by {
        forall x ensures x in keys[..n] <==> x in of - {keys[n]} {
          if x in of - {keys[n]} {
            assert x in keys;
          }
        }
      }
      ListingCounts(keys[..n], of - {keys[n]}, k);
    }
  }

  /** Any listing of a topic map's keys makes a list operation act on the whole map. */
  lemma EachOfListing(op: SlotOp, vv: TopicData, keys: seq<Key>)
    requires IsListing(keys, vv.Keys) && op != Subscribe
    ensures Each(op, vv, keys) == All(op, vv)
  {
    forall k ensures Get(Each(op, vv, keys), k) == Get(All(op, vv), k) {
      EachAt(op, vv, keys, k);
      ListingCounts(keys, vv.Keys, k);
      assert Times(op, 1, Get(vv, k)) == Apply(op, Times(op, 0, Get(vv, k)));
    }
    GetDetermines(Each(op, vv, keys), All(op, vv));
  }

  lemma EachOfOthers(op: SlotOp, vv: TopicData, keys: seq<Key>, others: seq<Key>)
    requires IsListing(others, vv.Keys - (set x | x in keys)) && op != Subscribe
    ensures Each(op, vv, others) == AllBut(op, vv, keys)
  {
    forall k ensures Get(Each(op, vv, others), k) == Get(AllBut(op, vv, keys), k) {
      EachAt(op, vv, others, k);
      ListingCounts(others, vv.Keys - (set x | x in keys), k);
      assert Times(op, 1, Get(vv, k)) == Apply(op, Times(op, 0, Get(vv, k)));
    }
    GetDetermines(Each(op, vv, others), AllBut(op, vv, keys));
  }

  // ---------------------------------------------------------------- waking the reconnect loop

  /** An absent or confirmed key became an unconfirmed entry: a message has to be sent. */
  predicate NeedsMessage(before: Slot, after: Slot) {
    (before.None? || before.value.confirmed) && after.Some? && !after.value.confirmed
  }

  predicate SubscribeWakes(vv: TopicData, keys: seq<Key>) {
    exists k | k in keys :: NeedsMessage(Get(vv, k), Get(Each(Subscribe, vv, keys), k))
  }

  /** A key that was subscribed is now waiting for an unsubscription message. */
  predicate UnsubscribeWakes(before: TopicData, after: TopicData) {
    exists k | k in before && k in after :: before[k].count > 0 && after[k].count == 0
  }

  // ---------------------------------------------------------------- the keeper

  datatype Subs = Subs(topics: map<string, nat>, data: seq<TopicData>, wakes: nat)

  /** Every stored identity exists and is stored once; nothing is confirmed with count zero. */
  ghost predicate IsSubs(s: Subs) {
    && (forall t | t in s.topics :: s.topics[t] < |s.data|)
    && (forall t, u | t in s.topics && u in s.topics && t != u :: s.topics[t] != s.topics[u])
    && (forall i, k | 0 <= i < |s.data| && k in s.data[i] :: s.data[i][k].confirmed ==> s.data[i][k].count > 0)
  }

  const EMPTY := Subs(map[], [], 0)

  function DataOf(s: Subs, topic: string): TopicData {
    if HasTopic(s, topic) then s.data[s.topics[topic]] else map[]
  }

  function SlotOf(s: Subs, topic: string, k: Key): Slot {
    Get(DataOf(s, topic), k)
  }

  function CountOf(slot: Slot): nat {
    if slot.Some? then slot.value.count else 0
  }

  predicate IsLive(slot: Slot) {
    slot.Some? && slot.value.confirmed && slot.value.count > 0
  }

  function Woken(s: Subs, wakes: bool): Subs {
    if wakes then s.(wakes := s.wakes + 1) else s
  }

  /** A topic map replaced; an emptied one makes the topic disappear. */
  function Stored(s: Subs, topic: string, id: nat, vv: TopicData): Subs
    requires id < |s.data|
  {
    Subs(if vv == map[] then s.topics - {topic} else s.topics, s.data[id := vv], s.wakes)
  }

  /** The topic has a topic map; under IsSubs every stored topic does. */
  predicate HasTopic(s: Subs, topic: string) {
    topic in s.topics && s.topics[topic] < |s.data|
  }

  function WithTopic(s: Subs, topic: string): (r: Subs)
    ensures HasTopic(r, topic)
  {
    if HasTopic(s, topic) then s
    else Subs(s.topics[topic := |s.data|], s.data + [map[]], s.wakes)
  }

  function DoSubscribe(s: Subs, topic: string, keys: seq<Key>): Subs {
    var s1 := WithTopic(s, topic);
    var id := s1.topics[topic];
    var vv := s1.data[id];
    Woken(s1.(data := s1.data[id := Each(Subscribe, vv, keys)]), SubscribeWakes(vv, keys))
  }

  function DoUnsubscribe(s: Subs, topic: string, keys: seq<Key>): Subs {
    if !HasTopic(s, topic) then s
    else
      var vv := DataOf(s, topic);
      var ww := Each(Unsubscribe, vv, keys);
      Woken(Stored(s, topic, s.topics[topic], ww), UnsubscribeWakes(vv, ww))
  }

  /** Confirming through a topic map: when the map is empty afterwards the topic is removed, even
      if another map is stored under it by now. */
  function DoConfirm(s: Subs, subbed: bool, topic: string, id: nat, keys: seq<Key>): Subs {
    if id < |s.data| then
      Stored(s, topic, id, Each(if subbed then ConfirmSub else ConfirmUnsub, s.data[id], keys))
    else s
  }

  /** A manual confirmation acts through the stored map, if there is one. */
  function DoConfirmSub(s: Subs, topic: string, keys: seq<Key>): Subs {
    if HasTopic(s, topic) then DoConfirm(s, true, topic, s.topics[topic], keys) else s
  }

  /** With `invert` every key of the topic but the listed ones is confirmed. */
  function DoConfirmUnsub(s: Subs, topic: string, invert: bool, keys: seq<Key>): Subs {
    if !HasTopic(s, topic) then s
    else if invert then Stored(s, topic, s.topics[topic], AllBut(ConfirmUnsub, DataOf(s, topic), keys))
    else DoConfirm(s, false, topic, s.topics[topic], keys)
  }

  /** The operation leaves the topic without keys, so the topic is removed. */
  predicate Empties(op: SlotOp, s: Subs, topic: string) {
    All(op, DataOf(s, topic)) == map[]
  }

  /** An operation on every key of every stored topic. */
  function OnAll(op: SlotOp, s: Subs): Subs {
    Subs(map t | t in s.topics && !Empties(op, s, t) :: s.topics[t],
         seq(|s.data|, i requires 0 <= i < |s.data| =>
           if i in s.topics.Values then All(op, s.data[i]) else s.data[i]),
         s.wakes)
  }

  predicate ClearWakes(s: Subs, topic: string) {
    UnsubscribeWakes(DataOf(s, topic), All(Clear, DataOf(s, topic)))
  }

  predicate AnyWakes(s: Subs, topics: set<string>) {
    exists t | t in topics :: ClearWakes(s, t)
  }

  function DoUnsubscribeAll(s: Subs): Subs {
    Woken(OnAll(Clear, s),
          AnyWakes(s, s.topics.Keys))
  }

  function DoResetAll(s: Subs): Subs {
    OnAll(Reset, s)
  }

  // ---------------------------------------------------------------- what each operation does to a key

  lemma SlotAfterSubscribe(s: Subs, topic: string, keys: seq<Key>, t: string, k: Key)
    requires IsSubs(s)
    ensures SlotOf(DoSubscribe(s, topic, keys), t, k)
         == if t == topic then Times(Subscribe, multiset(keys)[k], SlotOf(s, t, k)) else SlotOf(s, t, k)
  {
    EachAt(Subscribe, DataOf(s, topic), keys, k);
  }

  lemma SlotAfterUnsubscribe(s: Subs, topic: string, keys: seq<Key>, t: string, k: Key)
    requires IsSubs(s)
    ensures SlotOf(DoUnsubscribe(s, topic, keys), t, k)
         == if t == topic then Times(Unsubscribe, multiset(keys)[k], SlotOf(s, t, k)) else SlotOf(s, t, k)
  {
    EachAt(Unsubscribe, DataOf(s, topic), keys, k);
    AbsentStays(Unsubscribe, multiset(keys)[k]);
  }

  lemma {:induction false} AbsentStays(op: SlotOp, n: nat)
    requires op != Subscribe
    ensures Times(op, n, None) == None
  {
    if n > 0 {
      AbsentStays(op, n - 1);
    }
  }

  lemma SlotAfterOnAll(op: SlotOp, s: Subs, t: string, k: Key)
    requires IsSubs(s) && op != Subscribe
    ensures SlotOf(OnAll(op, s), t, k) == Apply(op, SlotOf(s, t, k))
  {
    if t in s.topics {
      assert s.topics[t] in s.topics.Values;
      assert Get(All(op, DataOf(s, t)), k) == Apply(op, SlotOf(s, t, k));
    }
  }

  /** Confirming through the stored map changes only listed keys of that topic; confirming
      through an empty map that is not stored makes the whole topic disappear. */
  lemma SlotAfterConfirm(s: Subs, subbed: bool, topic: string, id: nat, keys: seq<Key>, t: string, k: Key)
    requires IsSubs(s) && id < |s.data|
    requires (topic in s.topics && s.topics[topic] == id) || s.data[id] == map[]
    ensures var op := if subbed then ConfirmSub else ConfirmUnsub;
      SlotOf(DoConfirm(s, subbed, topic, id, keys), t, k)
      == if t != topic then SlotOf(s, t, k)
         else if topic in s.topics && s.topics[topic] == id then Times(op, multiset(keys)[k], SlotOf(s, t, k))
         else None
  {
    var op := if subbed then ConfirmSub else ConfirmUnsub;
    EachAt(op, s.data[id], keys, k);
    AbsentStays(op, multiset(keys)[k]);
    if s.data[id] == map[] {
      EachOfEmpty(op, keys);
    }
  }

  lemma {:induction false} EachOfEmpty(op: SlotOp, keys: seq<Key>)
    requires op != Subscribe
    ensures Each(op, map[], keys) == map[]
  {
    if keys != [] {
      EachOfEmpty(op, keys[..|keys| - 1]);
    }
  }

  // ---------------------------------------------------------------- which topics are stored

  /** A subscription stores its topic, under a new topic map when it had none; the other topics keep theirs. */
  lemma TopicsAfterSubscribe(s: Subs, topic: string, keys: seq<Key>, t: string)
    requires IsSubs(s)
    ensures var r := DoSubscribe(s, topic, keys);
      && (t in r.topics <==> t in s.topics || t == topic)
      && (t in r.topics ==> r.topics[t] == if t in s.topics then s.topics[t] else |s.data|)
  {
  }

  /** An unsubscription removes its topic exactly when no key is left in it. */
  lemma TopicsAfterUnsubscribe(s: Subs, topic: string, keys: seq<Key>, t: string)
    requires IsSubs(s)
    ensures var r := DoUnsubscribe(s, topic, keys);
      && (t in r.topics <==> t in s.topics && (t == topic ==> exists k :: SlotOf(r, t, k).Some?))
      && (t in r.topics ==> r.topics[t] == s.topics[t])
  {
    if t == topic && t in s.topics {
      var r, vv := DoUnsubscribe(s, topic, keys), Each(Unsubscribe, DataOf(s, t), keys);
      KeyOfMap(vv);
      forall k | vv != map[] ensures SlotOf(r, t, k) == Get(vv, k) {
      }
    }
  }

  /** Clearing or resetting everything removes exactly the topics in which no key is left. */
  lemma TopicsAfterOnAll(op: SlotOp, s: Subs, t: string)
    requires IsSubs(s) && op != Subscribe
    ensures var r := OnAll(op, s);
      && (t in r.topics <==> t in s.topics && exists k :: Apply(op, SlotOf(s, t, k)).Some?)
      && (t in r.topics ==> r.topics[t] == s.topics[t])
  {
    if t in s.topics {
      var vv := All(op, DataOf(s, t));
      KeyOfMap(vv);
      forall k ensures Get(vv, k) == Apply(op, SlotOf(s, t, k)) {
      }
    }
  }

  lemma KeyOfMap(vv: TopicData)
    ensures vv != map[] <==> exists k :: Get(vv, k).Some?
  {
    if vv != map[] {
      var k :| k in vv;
      assert Get(vv, k).Some?;
    }
  }

  // ---------------------------------------------------------------- what every operation keeps

  predicate IsSlot(slot: Slot) {
    slot.Some? && slot.value.confirmed ==> slot.value.count > 0
  }

  lemma {:induction false} TimesKeepsSlot(op: SlotOp, n: nat, slot: Slot)
    requires IsSlot(slot)
    ensures IsSlot(Times(op, n, slot))
  {
    if n > 0 {
      TimesKeepsSlot(op, n - 1, slot);
    }
  }

  lemma EachKeepsSlots(op: SlotOp, vv: TopicData, keys: seq<Key>)
    requires forall k | k in vv :: vv[k].confirmed ==> vv[k].count > 0
    ensures forall k | k in Each(op, vv, keys) :: Each(op, vv, keys)[k].confirmed ==> Each(op, vv, keys)[k].count > 0
  {
    forall k | k in Each(op, vv, keys) ensures IsSlot(Get(Each(op, vv, keys), k)) {
      EachAt(op, vv, keys, k);
      TimesKeepsSlot(op, multiset(keys)[k], Get(vv, k));
    }
  }

  lemma SubscribeKeeps(s: Subs, topic: string, keys: seq<Key>)
    requires IsSubs(s)
    ensures IsSubs(DoSubscribe(s, topic, keys))
  {
    EachKeepsSlots(Subscribe, DataOf(s, topic), keys);
  }

  lemma UnsubscribeKeeps(s: Subs, topic: string, keys: seq<Key>)
    requires IsSubs(s)
    ensures IsSubs(DoUnsubscribe(s, topic, keys))
  {
    EachKeepsSlots(Unsubscribe, DataOf(s, topic), keys);
  }

  lemma ConfirmKeeps(s: Subs, subbed: bool, topic: string, id: nat, keys: seq<Key>)
    requires IsSubs(s) && id < |s.data|
    ensures IsSubs(DoConfirm(s, subbed, topic, id, keys))
  {
    EachKeepsSlots(if subbed then ConfirmSub else ConfirmUnsub, s.data[id], keys);
  }

  lemma OnAllKeeps(op: SlotOp, s: Subs)
    requires IsSubs(s)
    ensures IsSubs(OnAll(op, s))
  {
    var r := OnAll(op, s);
    forall i, k | 0 <= i < |r.data| && k in r.data[i]
      ensures r.data[i][k].confirmed ==> r.data[i][k].count > 0
    {
      assert k in s.data[i];
    }
  }

  // ---------------------------------------------------------------- no lost wake-up

  lemma {:induction false} SubscribedSlot(n: nat, slot: Slot)
    requires n > 0
    ensures Times(Subscribe, n, slot)
         == Some(Entry(slot.Some? && slot.value.confirmed && slot.value.count > 0, CountOf(slot) + n))
  {
    if n > 1 {
      SubscribedSlot(n - 1, slot);
    } else {
      assert Times(Subscribe, 1, slot) == Apply(Subscribe, Times(Subscribe, 0, slot));
    }
  }

  lemma {:induction false} UnsubscribedSlot(n: nat, slot: Slot)
    requires IsSlot(slot)
    ensures CountOf(Times(Unsubscribe, n, slot)) == if CountOf(slot) > n then CountOf(slot) - n else 0
    ensures Times(Unsubscribe, n, slot).Some? ==>
      slot.Some? && Times(Unsubscribe, n, slot).value.confirmed == (slot.value.confirmed && slot.value.count > n)
  {
    if n > 0 {
      UnsubscribedSlot(n - 1, slot);
    }
  }

  /** A subscription runs the change functions exactly when some key now needs a message. */
  lemma SubscribeWakesExactly(s: Subs, topic: string, keys: seq<Key>)
    requires IsSubs(s)
    ensures DoSubscribe(s, topic, keys).wakes == s.wakes + 1
       <==> exists t, k :: NeedsMessage(SlotOf(s, t, k), SlotOf(DoSubscribe(s, topic, keys), t, k))
  {
    var s' := DoSubscribe(s, topic, keys);
    forall t, k | NeedsMessage(SlotOf(s, t, k), SlotOf(s', t, k))
      ensures t == topic && k in keys
    {
      SlotAfterSubscribe(s, topic, keys, t, k);
    }
    if s'.wakes == s.wakes + 1 {
      var k :| k in keys && NeedsMessage(Get(DataOf(s, topic), k), Get(Each(Subscribe, DataOf(s, topic), keys), k));
      assert NeedsMessage(SlotOf(s, topic, k), SlotOf(s', topic, k));
    }
  }

  /** An unsubscription runs the change functions exactly when some key now needs a message: the
      early return on an emptied topic discards nothing. */
  lemma UnsubscribeWakesExactly(s: Subs, topic: string, keys: seq<Key>)
    requires IsSubs(s)
    ensures DoUnsubscribe(s, topic, keys).wakes == s.wakes + 1
       <==> exists t, k :: NeedsMessage(SlotOf(s, t, k), SlotOf(DoUnsubscribe(s, topic, keys), t, k))
  {
    var s' := DoUnsubscribe(s, topic, keys);
    forall t, k
      ensures NeedsMessage(SlotOf(s, t, k), SlotOf(s', t, k))
         <==> t == topic && SlotOf(s', t, k).Some? && CountOf(SlotOf(s, t, k)) > 0 && CountOf(SlotOf(s', t, k)) == 0
    {
      SlotAfterUnsubscribe(s, topic, keys, t, k);
      UnsubscribedSlot(multiset(keys)[k], SlotOf(s, t, k));
      if t == topic && CountOf(SlotOf(s, t, k)) > 0 && CountOf(SlotOf(s', t, k)) == 0
         && !SlotOf(s, t, k).value.confirmed {
        UnconfirmedIsForgotten(multiset(keys)[k], SlotOf(s, t, k));
      }
    }
    if topic in s.topics {
      var vv, ww := DataOf(s, topic), Each(Unsubscribe, DataOf(s, topic), keys);
      if UnsubscribeWakes(vv, ww) {
        var k :| k in vv && k in ww && vv[k].count > 0 && ww[k].count == 0;
        assert NeedsMessage(SlotOf(s, topic, k), SlotOf(s', topic, k));
      }
    }
  }

  /** Without a confirmation a count never stops at zero: the key is forgotten instead. */
  lemma {:induction false} UnconfirmedIsForgotten(n: nat, slot: Slot)
    requires slot.Some? && !slot.value.confirmed && 0 < slot.value.count <= n
    ensures Times(Unsubscribe, n, slot) == None
  {
    UnsubscribedSlot(n - 1, slot);
    if slot.value.count < n {
      UnconfirmedIsForgotten(n - 1, slot);
    } else {
      UnconfirmedCountsDown(n - 1, slot);
    }
  }

  lemma {:induction false} UnconfirmedCountsDown(n: nat, slot: Slot)
    requires slot.Some? && !slot.value.confirmed && n < slot.value.count
    ensures Times(Unsubscribe, n, slot) == Some(Entry(false, slot.value.count - n))
  {
    if n > 0 {
      UnconfirmedCountsDown(n - 1, slot);
    }
  }

  lemma ClearWakesExactly(s: Subs, t: string)
    ensures t in s.topics && ClearWakes(s, t)
       <==> exists k :: CountOf(SlotOf(s, t, k)) > 0 && Apply(Clear, SlotOf(s, t, k)) == Some(Entry(false, 0))
  {
    var vv := DataOf(s, t);
    var ww := All(Clear, vv);
    forall k ensures Get(ww, k) == Apply(Clear, SlotOf(s, t, k)) {
    }
    if k :| k in vv && k in ww && vv[k].count > 0 && ww[k].count == 0 {
      assert Apply(Clear, SlotOf(s, t, k)) == Some(Entry(false, 0));
    }
  }

  /** Unsubscribing from everything runs the change functions exactly when some subscribed key is
      left waiting for an unsubscription message. */
  lemma UnsubscribeAllWakesExactly(s: Subs)
    requires IsSubs(s)
    ensures var s' := DoUnsubscribeAll(s);
      && (s'.wakes == s.wakes + 1 <==>
           exists t, k :: CountOf(SlotOf(s, t, k)) > 0 && SlotOf(s', t, k) == Some(Entry(false, 0)))
      && forall t, k :: NeedsMessage(SlotOf(s, t, k), SlotOf(s', t, k)) ==> s'.wakes == s.wakes + 1
  {
    var s' := DoUnsubscribeAll(s);
    forall t, k ensures SlotOf(s', t, k) == Apply(Clear, SlotOf(s, t, k)) {
      SlotAfterOnAll(Clear, s, t, k);
    }
    forall t {
      ClearWakesExactly(s, t);
    }
    assert s'.wakes == s.wakes + 1 <==> exists t :: t in s.topics && ClearWakes(s, t);
  }

  /** A call runs each change function at most once, and resets and confirmations run none. */
  lemma WakesAtMostOnce(s: Subs, subbed: bool, topic: string, id: nat, invert: bool, keys: seq<Key>)
    ensures DoSubscribe(s, topic, keys).wakes in {s.wakes, s.wakes + 1}
    ensures DoUnsubscribe(s, topic, keys).wakes in {s.wakes, s.wakes + 1}
    ensures DoUnsubscribeAll(s).wakes in {s.wakes, s.wakes + 1}
    ensures DoResetAll(s).wakes == s.wakes
    ensures DoConfirm(s, subbed, topic, id, keys).wakes == s.wakes
    ensures DoConfirmSub(s, topic, keys).wakes == s.wakes
    ensures DoConfirmUnsub(s, topic, invert, keys).wakes == s.wakes
  {
  }

  // ---------------------------------------------------------------- manual confirmations

  lemma {:induction false} ConfirmedSlot(subbed: bool, n: nat, slot: Slot)
    ensures Times(if subbed then ConfirmSub else ConfirmUnsub, n, slot)
         == if n == 0 then slot
            else if subbed && CountOf(slot) > 0 then Some(Entry(true, CountOf(slot)))
            else if !subbed && slot == Some(Entry(false, 0)) then None
            else slot
  {
    if n > 0 {
      ConfirmedSlot(subbed, n - 1, slot);
    }
  }

  /** A manual confirmation of subscriptions confirms exactly the listed keys that are subscribed. */
  lemma ManualConfirmSub(s: Subs, topic: string, keys: seq<Key>, t: string, k: Key)
    requires IsSubs(s)
    ensures SlotOf(DoConfirmSub(s, topic, keys), t, k)
         == if t == topic && k in keys && CountOf(SlotOf(s, t, k)) > 0 then Some(Entry(true, CountOf(SlotOf(s, t, k))))
            else SlotOf(s, t, k)
  {
    ConfirmedSlot(true, multiset(keys)[k], SlotOf(s, t, k));
    if HasTopic(s, topic) {
      SlotAfterConfirm(s, true, topic, s.topics[topic], keys, t, k);
    }
  }

  /** A manual confirmation of unsubscriptions forgets exactly the waiting keys that are listed, or
      with `invert` those that are not. */
  lemma ManualConfirmUnsub(s: Subs, topic: string, invert: bool, keys: seq<Key>, t: string, k: Key)
    requires IsSubs(s)
    ensures SlotOf(DoConfirmUnsub(s, topic, invert, keys), t, k)
         == if t == topic && (k in keys) != invert && SlotOf(s, t, k) == Some(Entry(false, 0)) then None
            else SlotOf(s, t, k)
  {
    ConfirmedSlot(false, multiset(keys)[k], SlotOf(s, t, k));
    if HasTopic(s, topic) && !invert {
      SlotAfterConfirm(s, false, topic, s.topics[topic], keys, t, k);
    }
  }

  // ---------------------------------------------------------------- payloads

  /** A payload keeps its direction, its keys and the identity of the topic map they came from. */
  datatype Payload = Payload(topic: string, subbed: bool, keys: seq<Key>, id: nat)

  /** The keys that wait for a message of one direction. */
  function Waiting(vv: TopicData, subbed: bool): set<Key> {
    set k | k in vv && !vv[k].confirmed && (vv[k].count > 0) == subbed
  }

  ghost predicate IsPayload(s: Subs, p: Payload) {
    && p.topic in s.topics
    && p.id == s.topics[p.topic]
    && p.keys != []
    && IsListing(p.keys, Waiting(DataOf(s, p.topic), p.subbed))
  }

  ghost predicate AreDistinct(pp: seq<Payload>) {
    forall i, j | 0 <= i < j < |pp| :: pp[i].topic != pp[j].topic || pp[i].subbed != pp[j].subbed
  }

  /** One payload per topic and direction that has waiting keys, in any order. */
  ghost predicate IsBatch(s: Subs, pp: seq<Payload>) {
    && (forall p | p in pp :: IsPayload(s, p))
    && AreDistinct(pp)
    && forall t, subbed | t in s.topics && Waiting(DataOf(s, t), subbed) != {} ::
         exists p | p in pp :: p.topic == t && p.subbed == subbed
  }
}
