/** The sharded store of grouped subscriptions as an object over keepers on the heap: each call derives
    the groups of its keys and hands each group to its keeper, in any order. The keepers are different
    objects and share no topic map, so visiting one leaves the values of the others alone; `Footprint`
    collects all that a call may change, and each visit adds to it only maps that are new. A keeper that
    no key of a call belongs to is not visited at all. */
module ShardedStore {
  import opened GroupedSubs
  import opened GroupedSubKeeper
  import opened Shards

  class Store {
    var keepers: seq<Keeper>
    const hash: Key -> nat

    ghost function Footprint(): (f: set<object>)
      reads this, keepers
      ensures forall i | 0 <= i < |keepers| :: keepers[i] in f && forall m | m in keepers[i].maps :: m in f
    {
      var shards: set<object> := set s | s in keepers;
      var maps: set<object> := set s, m | s in keepers && m in s.maps :: m;
      shards + maps
    }

    ghost predicate Valid()
      reads this, keepers, Footprint()
    {
      && (forall i | 0 <= i < |keepers| :: keepers[i].Valid())
      && (forall i, j | 0 <= i < j < |keepers| :: keepers[i] != keepers[j])
    }

    ghost function States(): seq<Subs>
      reads this, keepers, Footprint()
    {
      seq(|keepers|, i requires 0 <= i < |keepers| reads this, keepers, Footprint() => keepers[i].State())
    }

    function Shape(): Layout
      reads this
    {
      Layout(|keepers|, hash)
    }

    constructor (size: nat, hash: Key -> nat)
      ensures Valid() && Shape() == Layout(size, hash)
      ensures States() == seq(size, i => EMPTY)
    {
      this.hash := hash;
      keepers := [];
      new;
      for i := 0 to size
        invariant |keepers| == i && fresh(Footprint())
        invariant forall j | 0 <= j < i :: keepers[j].Valid() && keepers[j].State() == EMPTY
        invariant forall j, k | 0 <= j < k < i :: keepers[j] != keepers[k]
      {
        var keeper := new Keeper();
        keepers := keepers + [keeper];
      }
    }

    /** The listed keys of each keeper that has any. */
    method DeriveKeyGroups(keys: seq<Key>) returns (groups: map<nat, seq<Key>>)
      requires IsLayout(Shape())
      ensures AreGroups(Shape(), keys, groups)
      ensures forall i, k | i in groups ::
        multiset(groups[i])[k] == if hash(k) % |keepers| == i then multiset(keys)[k] else 0
      ensures forall k | k in keys :: hash(k) % |keepers| in groups
    {
      groups := map[];
      for n := 0 to |keys|
        invariant AreGroups(Shape(), keys[..n], groups)
      {
        var index := hash(keys[n]) % |keepers|;
        assert keys[..n + 1][..n] == keys[..n];
        groups := groups[index := (if index in groups then groups[index] else []) + [keys[n]]];
      }
      assert keys[..|keys|] == keys;
      GroupsCount(Shape(), keys, groups);
    }

    /** The part of a call that one keeper gets. */
    method Visit(i: nat, c: Call)
      requires Valid() && i < |keepers|
      modifies Footprint()
      ensures Valid() && keepers == old(keepers) && fresh(Footprint() - old(Footprint()))
      ensures States() == old(States())[i := Do(old(States())[i], c)]
    {
      VisitKeeper(i, c);
      FootprintGrows(i);
    }

    /** The other keepers share nothing with the visited one. */
    method VisitKeeper(i: nat, c: Call)
      requires Valid() && i < |keepers|
      modifies keepers[i], keepers[i].maps
      ensures Valid() && keepers == old(keepers) && keepers[i].Grows()
      ensures States() == old(States())[i := Do(old(States())[i], c)]
    {
      CallKeeper(keepers[i], c);
    }

    /** Visiting one keeper adds only fresh topic maps to the store. */
    twostate lemma FootprintGrows(i: nat)
      requires keepers == old(keepers) && i < |keepers| && keepers[i].Grows()
      requires forall s | s in keepers && s != keepers[i] :: s.maps == old(s.maps)
      ensures fresh(Footprint() - old(Footprint()))
    {
      forall o | o in Footprint() && o !in old(Footprint()) ensures fresh(o) {
        var s, m :| s in keepers && m in s.maps && m == o;
        assert s == keepers[i];
      }
    }

    method VisitGroup(i: nat, c: Call, groups: map<nat, seq<Key>>, ghost before: seq<Subs>, ghost rest: set<nat>)
      requires Valid() && IsLayout(Shape()) && !c.UnsubscribeAll?
      requires AreGroups(Shape(), c.keys, groups) && i in rest && i in groups
      requires |before| == |keepers| && States() == DoneBut(Shape(), before, c, rest)
      modifies Footprint()
      ensures Valid() && keepers == old(keepers) && fresh(Footprint() - old(Footprint()))
      ensures States() == DoneBut(Shape(), before, c, rest - {i})
    {
      DoneButNext(Shape(), before, c, groups, rest, i);
      Visit(i, c.(keys := groups[i]));
    }

    /** Hands each group of a call's keys to its keeper. */
    method VisitGroups(c: Call)
      requires Valid() && IsLayout(Shape()) && !c.UnsubscribeAll?
      modifies Footprint()
      ensures Valid() && keepers == old(keepers)
      ensures States() == DoShards(Shape(), old(States()), c)
    {
      ghost var before := States();
      var groups := DeriveKeyGroups(c.keys);
      var rest := groups.Keys;
      UnlistedStay(Shape(), before, c, groups);
      while rest != {}
        invariant Valid() && keepers == old(keepers)
        invariant rest <= groups.Keys
        invariant fresh(Footprint() - old(Footprint()))
        invariant States() == DoneBut(Shape(), before, c, rest)
      {
        var i :| i in rest;
        VisitGroup(i, c, groups, before, rest);
        rest := rest - {i};
      }
    }

    method Subscribe(topic: string, keys: seq<Key>)
      requires Valid() && IsLayout(Shape())
      modifies Footprint()
      ensures Valid() && keepers == old(keepers)
      ensures States() == DoShards(Shape(), old(States()), Call.Subscribe(topic, keys))
      ensures forall i | 0 <= i < |keepers| :: var part := Group(Shape(), keys, i);
        States()[i] == if part == [] then old(States())[i] else DoSubscribe(old(States())[i], topic, part)
    {
      VisitGroups(Call.Subscribe(topic, keys));
    }

    method UnsubscribeAll()
      requires Valid() && IsLayout(Shape())
      modifies Footprint()
      ensures Valid() && keepers == old(keepers)
      ensures States() == DoShards(Shape(), old(States()), Call.UnsubscribeAll)
      ensures forall i | 0 <= i < |keepers| :: States()[i] == DoUnsubscribeAll(old(States())[i])
    {
      ghost var before := States();
      UpToWhole(Shape(), before);
      for i := 0 to |keepers|
        invariant Valid() && keepers == old(keepers)
        invariant fresh(Footprint() - old(Footprint()))
        invariant States() == UpTo(before, i)
      {
        UpToNext(before, i);
        Visit(i, Call.UnsubscribeAll);
      }
    }

    method Unsubscribe(topic: string, keys: seq<Key>)
      requires Valid() && IsLayout(Shape())
      modifies Footprint()
      ensures Valid() && keepers == old(keepers)
      ensures States() == DoShards(Shape(), old(States()), Call.Unsubscribe(topic, keys))
      ensures forall i | 0 <= i < |keepers| :: var part := Group(Shape(), keys, i);
        States()[i] == if part == [] then old(States())[i] else DoUnsubscribe(old(States())[i], topic, part)
    {
      VisitGroups(Call.Unsubscribe(topic, keys));
    }

    method ConfirmSub(topic: string, keys: seq<Key>)
      requires Valid() && IsLayout(Shape())
      modifies Footprint()
      ensures Valid() && keepers == old(keepers)
      ensures States() == DoShards(Shape(), old(States()), Call.ConfirmSub(topic, keys))
      ensures forall i | 0 <= i < |keepers| :: var part := Group(Shape(), keys, i);
        States()[i] == if part == [] then old(States())[i] else DoConfirmSub(old(States())[i], topic, part)
    {
      VisitGroups(Call.ConfirmSub(topic, keys));
    }

    method ConfirmUnsub(topic: string, invert: bool, keys: seq<Key>)
      requires Valid() && IsLayout(Shape())
      modifies Footprint()
      ensures Valid() && keepers == old(keepers)
      ensures States() == DoShards(Shape(), old(States()), Call.ConfirmUnsub(topic, invert, keys))
      ensures forall i | 0 <= i < |keepers| :: var part := Group(Shape(), keys, i);
        States()[i] == if part == [] then old(States())[i] else DoConfirmUnsub(old(States())[i], topic, invert, part)
    {
      VisitGroups(Call.ConfirmUnsub(topic, invert, keys));
    }
  }

  method CallKeeper(keeper: Keeper, c: Call)
    requires keeper.Valid()
    modifies keeper, keeper.maps
    ensures keeper.Valid() && keeper.Grows()
    ensures keeper.State() == Do(old(keeper.State()), c)
  {
    match c {
      case Subscribe(topic, keys) => keeper.Subscribe(topic, keys);
      case Unsubscribe(topic, keys) => keeper.Unsubscribe(topic, keys);
      case UnsubscribeAll => keeper.UnsubscribeAll();
      case ConfirmSub(topic, keys) => keeper.ConfirmSub(topic, keys);
      case ConfirmUnsub(topic, invert, keys) => keeper.ConfirmUnsub(topic, invert, keys);
    }
  }

  /** The groups of a list of keys, by the keeper they belong to. */
  ghost predicate AreGroups(l: Layout, keys: seq<Key>, groups: map<nat, seq<Key>>)
    requires IsLayout(l)
  {
    && (forall i | i in groups :: i < l.size && groups[i] != [])
    && forall i: nat | i < l.size :: Group(l, keys, i) == if i in groups then groups[i] else []
  }

  /** The groups by the hashes themselves. */
  lemma GroupsCount(l: Layout, keys: seq<Key>, groups: map<nat, seq<Key>>)
    requires IsLayout(l) && AreGroups(l, keys, groups)
    ensures forall i, k | i in groups ::
      multiset(groups[i])[k] == if l.hash(k) % l.size == i then multiset(keys)[k] else 0
    ensures forall k | k in keys :: l.hash(k) % l.size in groups
  {
    forall i, k | i in groups
      ensures multiset(groups[i])[k] == if l.hash(k) % l.size == i then multiset(keys)[k] else 0
    {
      GroupCounts(l, keys, i, k);
    }
    forall k | k in keys ensures l.hash(k) % l.size in groups {
      GroupHolds(l, keys, l.hash(k) % l.size, k);
    }
  }

  /** The store while some keepers are still to be visited. */
  ghost function DoneBut(l: Layout, shards: seq<Subs>, c: Call, rest: set<nat>): seq<Subs>
    requires IsLayout(l)
  {
    seq(|shards|, i requires 0 <= i < |shards| => if i in rest then shards[i] else DoShard(l, shards[i], c, i))
  }

  lemma UnlistedStay(l: Layout, shards: seq<Subs>, c: Call, groups: map<nat, seq<Key>>)
    requires IsLayout(l) && |shards| == l.size && !c.UnsubscribeAll? && AreGroups(l, c.keys, groups)
    ensures DoneBut(l, shards, c, groups.Keys) == shards
  {
    forall i | 0 <= i < |shards| && i !in groups ensures DoShard(l, shards[i], c, i) == shards[i] {
      assert Group(l, c.keys, i) == [];
    }
  }

  lemma DoneButNext(l: Layout, shards: seq<Subs>, c: Call, groups: map<nat, seq<Key>>, rest: set<nat>, i: nat)
    requires IsLayout(l) && |shards| == l.size && !c.UnsubscribeAll? && AreGroups(l, c.keys, groups)
    requires i in rest && i in groups
    ensures var now := DoneBut(l, shards, c, rest);
      DoneBut(l, shards, c, rest - {i}) == now[i := Do(now[i], c.(keys := groups[i]))]
  {
    assert Group(l, c.keys, i) == groups[i];
  }

  /** The store while an unsubscription from everything still has keepers to visit. */
  ghost function UpTo(shards: seq<Subs>, n: nat): seq<Subs> {
    seq(|shards|, i requires 0 <= i < |shards| => if i < n then DoUnsubscribeAll(shards[i]) else shards[i])
  }

  lemma UpToWhole(l: Layout, shards: seq<Subs>)
    requires IsLayout(l)
    ensures UpTo(shards, 0) == shards
    ensures UpTo(shards, |shards|) == DoShards(l, shards, Call.UnsubscribeAll)
  {
  }

  lemma UpToNext(shards: seq<Subs>, i: nat)
    requires i < |shards|
    ensures var now := UpTo(shards, i);
      UpTo(shards, i + 1) == now[i := Do(now[i], Call.UnsubscribeAll)]
  {
  }
}
