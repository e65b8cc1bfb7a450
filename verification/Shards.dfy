/** The sharded store of grouped subscriptions as a value: a call is split by the hashes of its keys,
    and each part goes to the keeper its keys belong to. The store refines one keeper. */
module Shards {
  import opened Wrappers
  import opened GroupedSubs

  /** How many keepers there are, and the formatter's hash. */
  datatype Layout = Layout(size: nat, hash: Key -> nat)

  predicate IsLayout(l: Layout) {
    l.size > 0
  }

  /** The keeper a key belongs to. */
  function Shard(l: Layout, k: Key): (i: nat)
    requires IsLayout(l)
    ensures i < l.size
    ensures l.hash(k) == l.hash(k) / l.size * l.size + i
  {
    l.hash(k) % l.size
  }

  /** The listed keys that belong to one keeper, in their order, duplicates included. */
  function Group(l: Layout, keys: seq<Key>, i: nat): seq<Key>
    requires IsLayout(l)
  {
    if keys == [] then []
    else
      var n := |keys| - 1;
      Group(l, keys[..n], i) + (if Shard(l, keys[n]) == i then [keys[n]] else [])
  }

  lemma {:induction false} GroupCounts(l: Layout, keys: seq<Key>, i: nat, k: Key)
    requires IsLayout(l)
    ensures multiset(Group(l, keys, i))[k] == if Shard(l, k) == i then multiset(keys)[k] else 0
  {
    if keys != [] {
      var n := |keys| - 1;
      assert keys == keys[..n] + [keys[n]];
      GroupCounts(l, keys[..n], i, k);
    }
  }

  lemma GroupHolds(l: Layout, keys: seq<Key>, i: nat, k: Key)
    requires IsLayout(l)
    ensures k in Group(l, keys, i) <==> Shard(l, k) == i && k in keys
  {
    GroupCounts(l, keys, i, k);
    assert k in Group(l, keys, i) <==> k in multiset(Group(l, keys, i));
    assert k in keys <==> k in multiset(keys);
  }

  // ---------------------------------------------------------------- calls

  datatype Call =
    | Subscribe(topic: string, keys: seq<Key>)
    | Unsubscribe(topic: string, keys: seq<Key>)
    | UnsubscribeAll
    | ConfirmSub(topic: string, keys: seq<Key>)
    | ConfirmUnsub(topic: string, invert: bool, keys: seq<Key>)

  /** What a call does to one keeper. */
  function Do(s: Subs, c: Call): Subs {
    match c
    case Subscribe(topic, keys) => DoSubscribe(s, topic, keys)
    case Unsubscribe(topic, keys) => DoUnsubscribe(s, topic, keys)
    case UnsubscribeAll => DoUnsubscribeAll(s)
    case ConfirmSub(topic, keys) => DoConfirmSub(s, topic, keys)
    case ConfirmUnsub(topic, invert, keys) => DoConfirmUnsub(s, topic, invert, keys)
  }

  /** The call does not visit the keeper: it lists keys, and none belongs to the keeper. */
  predicate Skips(l: Layout, c: Call, i: nat)
    requires IsLayout(l)
  {
    !c.UnsubscribeAll? && Group(l, c.keys, i) == []
  }

  /** What a call on the store does to one of its keepers. */
  function DoShard(l: Layout, s: Subs, c: Call, i: nat): Subs
    requires IsLayout(l)
  {
    if c.UnsubscribeAll? then Do(s, c)
    else if Group(l, c.keys, i) == [] then s
    else Do(s, c.(keys := Group(l, c.keys, i)))
  }

  function DoShards(l: Layout, shards: seq<Subs>, c: Call): seq<Subs>
    requires IsLayout(l)
  {
    seq(|shards|, i requires 0 <= i < |shards| => DoShard(l, shards[i], c, i))
  }

  /** What a call does to one key of one keeper. */
  function AtSlot(c: Call, t: string, k: Key, slot: Slot): Slot {
    if c.UnsubscribeAll? then Apply(Clear, slot)
    else if t != c.topic then slot
    else
      match c
      case Subscribe(_, keys) => Times(SlotOp.Subscribe, multiset(keys)[k], slot)
      case Unsubscribe(_, keys) => Times(SlotOp.Unsubscribe, multiset(keys)[k], slot)
      case ConfirmSub(_, keys) => Times(SlotOp.ConfirmSub, multiset(keys)[k], slot)
      case ConfirmUnsub(_, invert, keys) =>
        if !invert then Times(SlotOp.ConfirmUnsub, multiset(keys)[k], slot)
        else if k in keys then slot
        else Apply(SlotOp.ConfirmUnsub, slot)
  }

  lemma SlotAfterConfirmStored(s: Subs, subbed: bool, topic: string, keys: seq<Key>, t: string, k: Key)
    requires IsSubs(s) && HasTopic(s, topic)
    ensures var op := if subbed then SlotOp.ConfirmSub else SlotOp.ConfirmUnsub;
      SlotOf(DoConfirm(s, subbed, topic, s.topics[topic], keys), t, k)
      == if t == topic then Times(op, multiset(keys)[k], SlotOf(s, t, k)) else SlotOf(s, t, k)
  {
    SlotAfterConfirm(s, subbed, topic, s.topics[topic], keys, t, k);
  }

  lemma SlotAfterCall(s: Subs, c: Call, t: string, k: Key)
    requires IsSubs(s)
    ensures SlotOf(Do(s, c), t, k) == AtSlot(c, t, k, SlotOf(s, t, k))
  {
    match c
    case Subscribe(topic, keys) => SlotAfterSubscribe(s, topic, keys, t, k);
    case Unsubscribe(topic, keys) => SlotAfterUnsubscribe(s, topic, keys, t, k);
    case UnsubscribeAll => SlotAfterOnAll(Clear, s, t, k);
    case ConfirmSub(topic, keys) =>
      AbsentStays(SlotOp.ConfirmSub, multiset(keys)[k]);
      if HasTopic(s, topic) {
        SlotAfterConfirmStored(s, true, topic, keys, t, k);
      }
    case ConfirmUnsub(topic, invert, keys) =>
      AbsentStays(SlotOp.ConfirmUnsub, multiset(keys)[k]);
      if HasTopic(s, topic) && !invert {
        SlotAfterConfirmStored(s, false, topic, keys, t, k);
      }
  }

  lemma CallKeeps(s: Subs, c: Call)
    requires IsSubs(s)
    ensures IsSubs(Do(s, c))
  {
    match c
    case Subscribe(topic, keys) => SubscribeKeeps(s, topic, keys);
    case Unsubscribe(topic, keys) => UnsubscribeKeeps(s, topic, keys);
    case UnsubscribeAll => OnAllKeeps(Clear, s);
    case ConfirmSub(topic, keys) =>
      if HasTopic(s, topic) {
        ConfirmKeeps(s, true, topic, s.topics[topic], keys);
      }
    case ConfirmUnsub(topic, invert, keys) =>
      if HasTopic(s, topic) && !invert {
        ConfirmKeeps(s, false, topic, s.topics[topic], keys);
      }
  }

  // ---------------------------------------------------------------- refinement

  /** The keeper holds the keys that belong to it, exactly as one keeper would, and no others. */
  ghost predicate IsPart(l: Layout, s: Subs, one: Subs, i: nat)
    requires IsLayout(l)
  {
    forall t, k :: SlotOf(s, t, k) == if Shard(l, k) == i then SlotOf(one, t, k) else None
  }

  ghost predicate Refines(l: Layout, shards: seq<Subs>, one: Subs) {
    && IsLayout(l) && |shards| == l.size
    && IsSubs(one)
    && forall i | 0 <= i < |shards| :: IsSubs(shards[i]) && IsPart(l, shards[i], one, i)
  }

  /** The call visits every keeper it has something to do for. Only an inverted confirmation may
      fail to: it says something about keys that are not listed. */
  ghost predicate Reaches(l: Layout, one: Subs, c: Call)
    requires IsLayout(l)
  {
    c.ConfirmUnsub? && c.invert ==>
      forall k | SlotOf(one, c.topic, k) == Some(Entry(false, 0)) :: k in c.keys || !Skips(l, c, Shard(l, k))
  }

  lemma ShardKeeps(l: Layout, s: Subs, c: Call, i: nat)
    requires IsLayout(l) && IsSubs(s)
    ensures IsSubs(DoShard(l, s, c, i))
  {
    CallKeeps(s, if c.UnsubscribeAll? then c else c.(keys := Group(l, c.keys, i)));
  }

  lemma SlotAfterShard(l: Layout, s: Subs, c: Call, i: nat, t: string, k: Key)
    requires IsLayout(l) && IsSubs(s) && (Shard(l, k) == i || SlotOf(s, t, k).None?)
    ensures SlotOf(DoShard(l, s, c, i), t, k)
         == if Shard(l, k) != i then None
            else if Skips(l, c, i) && c.ConfirmUnsub? && c.invert then SlotOf(s, t, k)
            else AtSlot(c, t, k, SlotOf(s, t, k))
  {
    if c.UnsubscribeAll? {
      SlotAfterCall(s, c, t, k);
    } else {
      var part := c.(keys := Group(l, c.keys, i));
      SlotAfterCall(s, part, t, k);
      GroupCounts(l, c.keys, i, k);
      GroupHolds(l, c.keys, i, k);
      AbsentStays(SlotOp.Unsubscribe, multiset(c.keys)[k]);
    }
  }

  /** A key after a call on the store, by what one keeper would have. */
  lemma SlotAfterShards(l: Layout, shards: seq<Subs>, one: Subs, c: Call, i: nat, t: string, k: Key)
    requires Refines(l, shards, one) && i < |shards|
    ensures SlotOf(DoShards(l, shards, c)[i], t, k)
         == if Shard(l, k) != i then None
            else if Skips(l, c, i) && c.ConfirmUnsub? && c.invert then SlotOf(one, t, k)
            else SlotOf(Do(one, c), t, k)
  {
    assert IsPart(l, shards[i], one, i);
    SlotAfterShard(l, shards[i], c, i, t, k);
    SlotAfterCall(one, c, t, k);
  }

  /** A skipped key keeps its slot, which is what one keeper does unless the key waits for the
      confirmation. */
  lemma SkippedSlot(l: Layout, one: Subs, c: Call, t: string, k: Key)
    requires IsLayout(l) && IsSubs(one) && c.ConfirmUnsub? && c.invert
    ensures SlotOf(Do(one, c), t, k) == SlotOf(one, t, k)
       <==> t != c.topic || k in c.keys || SlotOf(one, t, k) != Some(Entry(false, 0))
  {
    SlotAfterCall(one, c, t, k);
  }

  /** One call: the store goes on refining the one keeper exactly when the call reaches every keeper
      it should. Every call but an inverted confirmation does. */
  lemma CallRefines(l: Layout, shards: seq<Subs>, one: Subs, c: Call)
    requires Refines(l, shards, one)
    ensures Refines(l, DoShards(l, shards, c), Do(one, c)) <==> Reaches(l, one, c)
  {
    var shards', one' := DoShards(l, shards, c), Do(one, c);
    CallKeeps(one, c);
    forall i | 0 <= i < |shards| ensures IsSubs(shards'[i]) {
      ShardKeeps(l, shards[i], c, i);
    }
    if Reaches(l, one, c) {
      forall i | 0 <= i < |shards| ensures IsPart(l, shards'[i], one', i) {
        forall t, k ensures SlotOf(shards'[i], t, k) == if Shard(l, k) == i then SlotOf(one', t, k) else None {
          SlotAfterShards(l, shards, one, c, i, t, k);
          if c.ConfirmUnsub? && c.invert {
            SkippedSlot(l, one, c, t, k);
          }
        }
      }
    } else {
      var k :| SlotOf(one, c.topic, k) == Some(Entry(false, 0)) && k !in c.keys && Skips(l, c, Shard(l, k));
      SlotAfterShards(l, shards, one, c, Shard(l, k), c.topic, k);
      SkippedSlot(l, one, c, c.topic, k);
      assert SlotOf(shards'[Shard(l, k)], c.topic, k) != SlotOf(one', c.topic, k);
      assert !IsPart(l, shards'[Shard(l, k)], one', Shard(l, k));
    }
  }

  // ---------------------------------------------------------------- runs

  function KeeperAfter(calls: seq<Call>): Subs {
    if calls == [] then EMPTY
    else Do(KeeperAfter(calls[..|calls| - 1]), calls[|calls| - 1])
  }

  function ShardsAfter(l: Layout, calls: seq<Call>): seq<Subs>
    requires IsLayout(l)
  {
    if calls == [] then seq(l.size, i => EMPTY)
    else DoShards(l, ShardsAfter(l, calls[..|calls| - 1]), calls[|calls| - 1])
  }

  ghost predicate RefinesThroughout(l: Layout, calls: seq<Call>)
    requires IsLayout(l)
  {
    && Refines(l, ShardsAfter(l, calls), KeeperAfter(calls))
    && (calls != [] ==> RefinesThroughout(l, calls[..|calls| - 1]))
  }

  ghost predicate ReachesThroughout(l: Layout, calls: seq<Call>)
    requires IsLayout(l)
  {
    calls != [] ==>
      && ReachesThroughout(l, calls[..|calls| - 1])
      && Reaches(l, KeeperAfter(calls[..|calls| - 1]), calls[|calls| - 1])
  }

  /** The store refines one keeper all along a sequence of calls exactly when every call reaches the
      keepers it should; without inverted confirmations it always does. */
  lemma {:induction false} StoreRefinesKeeper(l: Layout, calls: seq<Call>)
    requires IsLayout(l)
    ensures RefinesThroughout(l, calls) <==> ReachesThroughout(l, calls)
    ensures (forall c | c in calls :: !(c.ConfirmUnsub? && c.invert)) ==> RefinesThroughout(l, calls)
  {
    if calls != [] {
      var before, c := calls[..|calls| - 1], calls[|calls| - 1];
      StoreRefinesKeeper(l, before);
      if RefinesThroughout(l, before) {
        CallRefines(l, ShardsAfter(l, before), KeeperAfter(before), c);
      }
    }
  }

  function PendingCalls(t: string, k: Key): seq<Call> {
    [Call.Subscribe(t, [k]), Call.ConfirmSub(t, [k]), Call.Unsubscribe(t, [k])]
  }

  /** Subscribed, confirmed and unsubscribed, the key waits for an unsubscription message. */
  lemma PendingSlot(t: string, k: Key)
    ensures SlotOf(KeeperAfter(PendingCalls(t, k)), t, k) == Some(Entry(false, 0))
  {
    var c0, c1, c2 := Call.Subscribe(t, [k]), Call.ConfirmSub(t, [k]), Call.Unsubscribe(t, [k]);
    var s0 := Do(EMPTY, c0);
    var s1 := Do(s0, c1);
    OneMore([], c0);
    OneMore([c0], c1);
    OneMore([c0, c1], c2);
    assert [] + [c0] == [c0] && [c0] + [c1] == [c0, c1] && [c0, c1] + [c2] == PendingCalls(t, k);
    OnceAtSlot(EMPTY, c0, SlotOp.Subscribe, k);
    OnceAtSlot(s0, c1, SlotOp.ConfirmSub, k);
    OnceAtSlot(s1, c2, SlotOp.Unsubscribe, k);
  }

  lemma OneMore(calls: seq<Call>, c: Call)
    ensures KeeperAfter(calls + [c]) == Do(KeeperAfter(calls), c)
  {
    assert (calls + [c])[..|calls|] == calls;
  }

  /** A call with one key applies its operation to that key once. */
  lemma OnceAtSlot(s: Subs, c: Call, op: SlotOp, k: Key)
    requires IsSubs(s) && !c.UnsubscribeAll? && c.keys == [k]
    requires match op
      case Subscribe => c.Subscribe?
      case Unsubscribe => c.Unsubscribe?
      case ConfirmSub => c.ConfirmSub?
      case _ => false
    ensures IsSubs(Do(s, c)) && SlotOf(Do(s, c), c.topic, k) == Apply(op, SlotOf(s, c.topic, k))
  {
    CallKeeps(s, c);
    SlotAfterCall(s, c, c.topic, k);
    assert multiset([k])[k] == 1;
    assert Times(op, 1, SlotOf(s, c.topic, k)) == Apply(op, Times(op, 0, SlotOf(s, c.topic, k)));
  }

  /** A call the store gets wrong: the keeper of a key that waits owns no listed key, so an inverted
      confirmation leaves the key waiting, while one keeper would forget it. */
  lemma InvertedConfirmationMisses(l: Layout, t: string, waiting: Key, listed: Key)
    requires IsLayout(l) && Shard(l, waiting) != Shard(l, listed)
    ensures var calls := PendingCalls(t, waiting) + [Call.ConfirmUnsub(t, true, [listed])];
      !Refines(l, ShardsAfter(l, calls), KeeperAfter(calls))
  {
    var before, c := PendingCalls(t, waiting), Call.ConfirmUnsub(t, true, [listed]);
    assert (before + [c])[..3] == before;
    StoreRefinesKeeper(l, before);
    PendingSlot(t, waiting);
    GroupHolds(l, [listed], Shard(l, waiting), listed);
    assert Skips(l, c, Shard(l, waiting));
    CallRefines(l, ShardsAfter(l, before), KeeperAfter(before), c);
  }

  // ---------------------------------------------------------------- the keepers together

  /** Everything a keeper holds, by topic and key. */
  function Flat(s: Subs): map<(string, Key), Entry> {
    map t, k | t in s.topics && k in DataOf(s, t) :: (t, k) := DataOf(s, t)[k]
  }

  function Together(shards: seq<Subs>): map<(string, Key), Entry> {
    if shards == [] then map[]
    else Together(shards[..|shards| - 1]) + Flat(shards[|shards| - 1])
  }

  function Lookup(m: map<(string, Key), Entry>, t: string, k: Key): Slot {
    if (t, k) in m then Some(m[(t, k)]) else None
  }

  lemma FlatAt(s: Subs, t: string, k: Key)
    ensures Lookup(Flat(s), t, k) == SlotOf(s, t, k)
  {
  }

  lemma {:induction false} TogetherAt(l: Layout, shards: seq<Subs>, one: Subs, n: nat, t: string, k: Key)
    requires Refines(l, shards, one) && n <= |shards|
    ensures Lookup(Together(shards[..n]), t, k) == if Shard(l, k) < n then SlotOf(one, t, k) else None
  {
    if n > 0 {
      TogetherAt(l, shards, one, n - 1, t, k);
      assert shards[..n][..n - 1] == shards[..n - 1];
      FlatAt(shards[n - 1], t, k);
      assert IsPart(l, shards[n - 1], one, n - 1);
    }
  }

  /** The keepers of a store that refines one keeper hold disjoint parts of what that keeper holds,
      and together all of it. */
  lemma ShardsMakeOne(l: Layout, shards: seq<Subs>, one: Subs)
    requires Refines(l, shards, one)
    ensures Together(shards) == Flat(one)
    ensures forall i, j | 0 <= i < j < |shards| :: Flat(shards[i]).Keys !! Flat(shards[j]).Keys
  {
    assert shards[..|shards|] == shards;
    forall item: (string, Key)
      ensures Lookup(Together(shards), item.0, item.1) == Lookup(Flat(one), item.0, item.1)
    {
      TogetherAt(l, shards, one, |shards|, item.0, item.1);
      FlatAt(one, item.0, item.1);
    }
    SameLookups(Together(shards), Flat(one));
    forall i, j, item | 0 <= i < j < |shards| && item in Flat(shards[i]) ensures item !in Flat(shards[j]) {
      FlatAt(shards[i], item.0, item.1);
      FlatAt(shards[j], item.0, item.1);
      assert IsPart(l, shards[i], one, i) && IsPart(l, shards[j], one, j);
    }
  }

  lemma SameLookups(m: map<(string, Key), Entry>, n: map<(string, Key), Entry>)
    requires forall item: (string, Key) :: Lookup(m, item.0, item.1) == Lookup(n, item.0, item.1)
    ensures m == n
  {
    forall item: (string, Key)
      ensures item in m <==> item in n
      ensures item in m && item in n ==> m[item] == n[item]
    {
      assert item == (item.0, item.1);
      assert Lookup(m, item.0, item.1) == Lookup(n, item.0, item.1);
    }
  }

  // ---------------------------------------------------------------- waking

  /** The call makes the key wait for a message it has to be woken for. */
  predicate WakesFor(c: Call, before: Slot, after: Slot) {
    match c
    case Subscribe(_, _) | Unsubscribe(_, _) => NeedsMessage(before, after)
    case UnsubscribeAll => CountOf(before) > 0 && after == Some(Entry(false, 0))
    case ConfirmSub(_, _) | ConfirmUnsub(_, _, _) => false
  }

  predicate Wakes(s: Subs, r: Subs) {
    r.wakes == s.wakes + 1
  }

  lemma CallWakes(s: Subs, c: Call)
    requires IsSubs(s)
    ensures Wakes(s, Do(s, c)) <==> exists t, k :: WakesFor(c, SlotOf(s, t, k), SlotOf(Do(s, c), t, k))
  {
    match c
    case Subscribe(topic, keys) =>
      SubscribeWakesExactly(s, topic, keys);
      WakesForNeeds(s, c);
    case Unsubscribe(topic, keys) =>
      UnsubscribeWakesExactly(s, topic, keys);
      WakesForNeeds(s, c);
    case UnsubscribeAll => UnsubscribeAllWakesExactly(s);
    case _ =>
  }

  lemma WakesForNeeds(s: Subs, c: Call)
    requires c.Subscribe? || c.Unsubscribe?
    ensures (exists t, k :: WakesFor(c, SlotOf(s, t, k), SlotOf(Do(s, c), t, k)))
       <==> exists t, k :: NeedsMessage(SlotOf(s, t, k), SlotOf(Do(s, c), t, k))
  {
    if t, k :| NeedsMessage(SlotOf(s, t, k), SlotOf(Do(s, c), t, k)) {
      assert WakesFor(c, SlotOf(s, t, k), SlotOf(Do(s, c), t, k));
    }
  }

  lemma ShardWakes(l: Layout, s: Subs, c: Call, i: nat)
    requires IsLayout(l) && IsSubs(s)
    ensures Wakes(s, DoShard(l, s, c, i))
       <==> exists t, k :: WakesFor(c, SlotOf(s, t, k), SlotOf(DoShard(l, s, c, i), t, k))
  {
    if c.UnsubscribeAll? {
      CallWakes(s, c);
    } else if Group(l, c.keys, i) != [] {
      CallWakes(s, c.(keys := Group(l, c.keys, i)));
    }
  }

  /** No wake-up is lost by splitting a call: some keeper of the store wakes its reconnect loop
      exactly when the one keeper would. */
  lemma StoreWakes(l: Layout, shards: seq<Subs>, one: Subs, c: Call)
    requires Refines(l, shards, one)
    ensures (exists i | 0 <= i < |shards| :: Wakes(shards[i], DoShards(l, shards, c)[i])) <==> Wakes(one, Do(one, c))
  {
    CallWakes(one, c);
    forall i | 0 <= i < |shards|
      ensures Wakes(shards[i], DoShards(l, shards, c)[i])
         <==> exists t, k :: Shard(l, k) == i && WakesFor(c, SlotOf(one, t, k), SlotOf(Do(one, c), t, k))
    {
      PartWakes(l, shards, one, c, i);
    }
    if t, k :| WakesFor(c, SlotOf(one, t, k), SlotOf(Do(one, c), t, k)) {
      assert Wakes(shards[Shard(l, k)], DoShards(l, shards, c)[Shard(l, k)]);
    }
  }

  lemma PartWakes(l: Layout, shards: seq<Subs>, one: Subs, c: Call, i: nat)
    requires Refines(l, shards, one) && i < |shards|
    ensures Wakes(shards[i], DoShards(l, shards, c)[i])
       <==> exists t, k :: Shard(l, k) == i && WakesFor(c, SlotOf(one, t, k), SlotOf(Do(one, c), t, k))
  {
    var s, s' := shards[i], DoShards(l, shards, c)[i];
    ShardWakes(l, s, c, i);
    assert IsPart(l, s, one, i);
    forall t, k
      ensures WakesFor(c, SlotOf(s, t, k), SlotOf(s', t, k))
         <==> Shard(l, k) == i && WakesFor(c, SlotOf(one, t, k), SlotOf(Do(one, c), t, k))
    {
      SlotAfterShards(l, shards, one, c, i, t, k);
    }
  }
}
