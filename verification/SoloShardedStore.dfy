/** The sharded store of solo subscriptions as an object over keepers on the heap: each call goes to the
    keeper its topic belongs to, and only clearing everything goes to all of them. The keepers are
    different objects and share no subscription, so visiting one leaves the values of the others alone;
    `Footprint` collects all that a call may change, and each visit adds to it only subscriptions that
    are new. */
module SoloShardedStore {
  import opened SoloSubs
  import opened SoloSubKeeper
  import opened SoloShards

  /** The loop over the bytes of a topic. */
  method DeriveTopicIndex(topic: string, total: nat) returns (index: nat)
    requires total > 0
    ensures index == TopicIndex(topic, total)
    ensures index == Sum(Bytes(topic)) % total
  {
    var bytes, key := Bytes(topic), 0;
    for i := 0 to |bytes|
      invariant key == Sum(bytes[..i])
    {
      assert bytes[..i + 1][..i] == bytes[..i];
      key := key + bytes[i];
    }
    assert bytes[..|bytes|] == bytes;
    index := key % total;
  }

  class Store {
    var keepers: seq<Keeper>

    ghost function Footprint(): (f: set<object>)
      reads this, keepers
      ensures forall i | 0 <= i < |keepers| :: keepers[i] in f && forall m | m in keepers[i].all :: m in f
    {
      var shards: set<object> := set s | s in keepers;
      var subs: set<object> := set s, m | s in keepers && m in s.all :: m;
      shards + subs
    }

    ghost predicate Valid()
      reads this, keepers, Footprint()
    {
      && keepers != []
      && (forall i | 0 <= i < |keepers| :: keepers[i].Valid())
      && (forall i, j | 0 <= i < j < |keepers| :: keepers[i] != keepers[j])
    }

    ghost function States(): seq<Subs>
      reads this, keepers, Footprint()
    {
      seq(|keepers|, i requires 0 <= i < |keepers| reads this, keepers, Footprint() => keepers[i].State())
    }

    constructor (size: nat)
      requires size > 0
      ensures Valid() && States() == seq(size, i => EMPTY)
    {
      keepers := [];
      new;
      for i := 0 to size
        invariant |keepers| == i && fresh(Footprint())
        invariant forall j | 0 <= j < i :: keepers[j].Valid() && keepers[j].State() == EMPTY
        invariant forall j, k | 0 <= j < k < i :: keepers[j] != keepers[k]
      {
        var keeper := new Keeper();
        keepers := keepers + [keeper];
      }
    }

    /** The other keepers share nothing with the visited one. */
    method VisitKeeper(i: nat, c: Call)
      requires Valid() && i < |keepers|
      modifies keepers[i], keepers[i].all
      ensures Valid() && keepers == old(keepers) && keepers[i].Grows()
      ensures States() == old(States())[i := Do(old(States())[i], c)]
    {
      CallKeeper(keepers[i], c);
    }

    /** Visiting one keeper adds only fresh subscriptions to the store. */
    twostate lemma FootprintGrows(i: nat)
      requires keepers == old(keepers) && i < |keepers| && keepers[i].Grows()
      requires forall s | s in keepers && s != keepers[i] :: s.all == old(s.all)
      ensures fresh(Footprint() - old(Footprint()))
    {
      forall o | o in Footprint() && o !in old(Footprint()) ensures fresh(o) {
        var s, m :| s in keepers && m in s.all && m == o;
        assert s == keepers[i];
      }
    }

    /** The part of a call that one keeper gets. */
    method Visit(i: nat, c: Call)
      requires Valid() && i < |keepers|
      modifies Footprint()
      ensures Valid() && keepers == old(keepers) && fresh(Footprint() - old(Footprint()))
      ensures States() == old(States())[i := Do(old(States())[i], c)]
    {
      VisitKeeper(i, c);
      FootprintGrows(i);
    }

    method UnsubscribeAll()
      requires Valid()
      modifies Footprint()
      ensures Valid() && keepers == old(keepers)
      ensures States() == DoShards(old(States()), Call.UnsubscribeAll)
      ensures forall i | 0 <= i < |keepers| :: States()[i] == DoUnsubscribeAll(old(States())[i])
    {
      ghost var before := States();
      UpToWhole(before);
      for i := 0 to |keepers|
        invariant Valid() && keepers == old(keepers)
        invariant fresh(Footprint() - old(Footprint()))
        invariant States() == UpTo(before, i)
      {
        UpToNext(before, i);
        Visit(i, Call.UnsubscribeAll);
      }
    }

    method Subscribe(topic: string)
      requires Valid()
      modifies Footprint()
      ensures Valid() && keepers == old(keepers)
      ensures var i := TopicIndex(topic, |keepers|);
        States() == old(States())[i := DoSubscribe(old(States())[i], topic)]
    {
      OneShard(States(), Call.Subscribe(topic));
      Dispatch(Call.Subscribe(topic));
    }

    method Unsubscribe(topic: string)
      requires Valid()
      modifies Footprint()
      ensures Valid() && keepers == old(keepers)
      ensures var i := TopicIndex(topic, |keepers|);
        States() == old(States())[i := DoUnsubscribe(old(States())[i], topic)]
    {
      OneShard(States(), Call.Unsubscribe(topic));
      Dispatch(Call.Unsubscribe(topic));
    }

    method UnsubscribeLocal(topic: string)
      requires Valid()
      modifies Footprint()
      ensures Valid() && keepers == old(keepers)
      ensures var i := TopicIndex(topic, |keepers|);
        States() == old(States())[i := DoUnsubscribeLocal(old(States())[i], topic)]
    {
      OneShard(States(), Call.UnsubscribeLocal(topic));
      Dispatch(Call.UnsubscribeLocal(topic));
    }

    method ConfirmSub(topic: string)
      requires Valid()
      modifies Footprint()
      ensures Valid() && keepers == old(keepers)
      ensures var i := TopicIndex(topic, |keepers|);
        States() == old(States())[i := DoConfirmStored(old(States())[i], true, topic)]
    {
      OneShard(States(), Call.ConfirmSub(topic));
      Dispatch(Call.ConfirmSub(topic));
    }

    method ConfirmUnsub(topic: string)
      requires Valid()
      modifies Footprint()
      ensures Valid() && keepers == old(keepers)
      ensures var i := TopicIndex(topic, |keepers|);
        States() == old(States())[i := DoConfirmStored(old(States())[i], false, topic)]
    {
      OneShard(States(), Call.ConfirmUnsub(topic));
      Dispatch(Call.ConfirmUnsub(topic));
    }

    /** A call about one topic: a subscription, an unsubscription, local or not, or a confirmation. */
    method Dispatch(c: Call)
      requires Valid() && !c.UnsubscribeAll?
      modifies Footprint()
      ensures Valid() && keepers == old(keepers)
      ensures States() == DoShards(old(States()), c)
    {
      var i := DeriveTopicIndex(c.topic, |keepers|);
      OneShard(States(), c);
      Visit(i, c);
    }
  }

  method CallKeeper(keeper: Keeper, c: Call)
    requires keeper.Valid()
    modifies keeper, keeper.all
    ensures keeper.Valid() && keeper.Grows()
    ensures keeper.State() == Do(old(keeper.State()), c)
  {
    match c {
      case Subscribe(topic) => keeper.Subscribe(topic);
      case Unsubscribe(topic) => keeper.Unsubscribe(topic);
      case UnsubscribeLocal(topic) => keeper.UnsubscribeLocal(topic);
      case UnsubscribeAll => keeper.UnsubscribeAll();
      case ConfirmSub(topic) => keeper.ConfirmSub(topic);
      case ConfirmUnsub(topic) => keeper.ConfirmUnsub(topic);
    }
  }

  lemma OneShard(shards: seq<Subs>, c: Call)
    requires shards != [] && !c.UnsubscribeAll?
    ensures var i := TopicIndex(c.topic, |shards|); DoShards(shards, c) == shards[i := Do(shards[i], c)]
  {
  }

  /** The store while an unsubscription from everything still has keepers to visit. */
  ghost function UpTo(shards: seq<Subs>, n: nat): seq<Subs> {
    seq(|shards|, i requires 0 <= i < |shards| => if i < n then DoUnsubscribeAll(shards[i]) else shards[i])
  }

  lemma UpToWhole(shards: seq<Subs>)
    requires shards != []
    ensures UpTo(shards, 0) == shards
    ensures UpTo(shards, |shards|) == DoShards(shards, Call.UnsubscribeAll)
  {
  }

  lemma UpToNext(shards: seq<Subs>, i: nat)
    requires i < |shards|
    ensures var now := UpTo(shards, i);
      UpTo(shards, i + 1) == now[i := Do(now[i], Call.UnsubscribeAll)]
  {
  }
}
