/** The grouped subscription keeper as an object whose topic maps are shared with payloads, so a topic map
    that was removed from the keeper may still be changed through one. The ghost field `maps` lists every
    topic map ever made; a map's identity is its position in that list, and `State` is the keeper's value,
    read off the heap. Each method runs under the keeper's lock, so it is one atomic step; each is proved
    to change the keeper's value exactly as the module GroupedSubs says. A loop over keys or topics picks
    any of those that remain, so its result does not depend on the order of a map iteration. */
module GroupedSubKeeper {
  import opened Wrappers
  import opened GroupedSubs

  /** A topic map on the heap: the keeper that made it and its place among that keeper's maps. */
  class TopicMap {
    var entries: TopicData
    ghost const owner: Keeper
    ghost const id: nat

    constructor (ghost owner: Keeper, ghost id: nat)
      ensures entries == map[] && this.owner == owner && this.id == id
    {
      entries := map[];
      this.owner := owner;
      this.id := id;
    }
  }

  /** A payload refers to the topic map it was made from. */
  datatype GroupedPayload = GroupedPayload(topic: string, subbed: bool, keys: seq<Key>, topicData: TopicMap)

  ghost function PayloadValue(p: GroupedPayload): Payload {
    Payload(p.topic, p.subbed, p.keys, p.topicData.id)
  }

  ghost function PayloadValues(pp: seq<GroupedPayload>): seq<Payload> {
    seq(|pp|, i requires 0 <= i < |pp| => PayloadValue(pp[i]))
  }

  method ListKeys(of: set<Key>) returns (keys: seq<Key>)
    ensures IsListing(keys, of)
  {
    keys := [];
    var rest := of;
    while rest != {}
      invariant rest <= of
      invariant IsListing(keys, of - rest)
    {
      var k :| k in rest;
      keys := keys + [k];
      rest := rest - {k};
    }
  }

  lemma ListingIsEmpty(keys: seq<Key>, of: set<Key>)
    requires IsListing(keys, of)
    ensures keys == [] <==> of == {}
  {
    if keys != [] {
      assert keys[0] in of;
    }
  }

  class Keeper {
    var subs: map<string, TopicMap>
    var wakes: nat
    ghost var maps: seq<TopicMap>

    ghost predicate Owns(m: TopicMap)
      reads this
    {
      m.id < |maps| && maps[m.id] == m
    }

    /** Identities are positions in the list of all topic maps of this keeper. */
    ghost predicate Wired()
      reads this
    {
      && (forall i | 0 <= i < |maps| :: maps[i].id == i && maps[i].owner == this)
      && (forall t | t in subs :: Owns(subs[t]))
    }

    ghost predicate Valid()
      reads this, maps
    {
      Wired() && IsSubs(State())
    }

    ghost function State(): Subs
      reads this, maps
    {
      Subs(map t | t in subs :: subs[t].id,
           seq(|maps|, i requires 0 <= i < |maps| reads this, maps => maps[i].entries),
           wakes)
    }

    /** The topic maps only grow, and the new ones are fresh. */
    twostate predicate Grows()
      reads this
    {
      old(maps) <= maps && forall i | |old(maps)| <= i < |maps| :: fresh(maps[i])
    }

    constructor ()
      ensures Valid() && State() == EMPTY && maps == []
    {
      subs := map[];
      wakes := 0;
      maps := [];
    }

    /** Only one topic map changed. */
    twostate lemma StateAfterChange(vv: TopicMap)
      requires Wired() && Owns(vv)
      requires maps == old(maps) && subs == old(subs) && wakes == old(wakes)
      requires forall m | m in maps && m != vv :: m.entries == old(m.entries)
      ensures State() == old(State()).(data := old(State()).data[vv.id := vv.entries])
    {
    }

    /** The topic map stored under a topic, created when there is none. */
    method TopicMapOf(topic: string) returns (vv: TopicMap)
      requires Valid()
      modifies this
      ensures Wired() && Grows() && wakes == old(wakes)
      ensures State() == WithTopic(old(State()), topic)
      ensures topic in subs && subs[topic] == vv
    {
      if topic !in subs {
        vv := new TopicMap(this, |maps|);
        maps := maps + [vv];
        subs := subs[topic := vv];
      }
      vv := subs[topic];
      assert State() == WithTopic(old(State()), topic);
    }

    /** Removes whatever is stored under the topic when the given topic map is empty. */
    method DropEmptied(topic: string, vv: TopicMap)
      requires Wired() && Owns(vv)
      modifies this`subs
      ensures Wired()
      ensures State() == Stored(old(State()), topic, vv.id, vv.entries)
    {
      if vv.entries == map[] {
        subs := subs - {topic};
      }
      assert State() == Stored(old(State()), topic, vv.id, vv.entries);
    }

    /** Runs the change functions. */
    method ExecFns()
      requires Wired()
      modifies this`wakes
      ensures Wired() && State() == Woken(old(State()), true)
    {
      wakes := wakes + 1;
      assert State() == Woken(old(State()), true);
    }

    method Subscribe(topic: string, keys: seq<Key>)
      requires Valid()
      modifies this, maps
      ensures Valid() && Grows()
      ensures State() == DoSubscribe(old(State()), topic, keys)
    {
      ghost var before := State();
      var vv := TopicMapOf(topic);
      label mapped:
      var ok := SubscribeKeys(vv, keys);
      StateAfterChange@mapped(vv);
      if ok {
        ExecFns();
      }
      SubscribeKeeps(before, topic, keys);
    }

    method Unsubscribe(topic: string, keys: seq<Key>)
      requires Valid()
      modifies this, maps
      ensures Valid() && maps == old(maps)
      ensures State() == DoUnsubscribe(old(State()), topic, keys)
    {
      if topic !in subs {
        return;
      }
      ghost var before := State();
      var updated := UnsubscribeFrom(topic, keys, subs[topic], false);
      if updated {
        ExecFns();
      }
      UnsubscribeKeeps(before, topic, keys);
    }

    /** The shared body of the unsubscriptions: an emptied topic is removed, and then nothing is
        reported. */
    method UnsubscribeFrom(topic: string, keys: seq<Key>, vv: TopicMap, decrMax: bool) returns (updated: bool)
      requires Valid() && topic in subs && subs[topic] == vv
      modifies this`subs, vv
      ensures Valid()
      ensures var op := if decrMax then SlotOp.Clear else SlotOp.Unsubscribe;
        && vv.entries == Each(op, old(vv.entries), keys)
        && State() == Stored(old(State()), topic, vv.id, vv.entries)
      ensures updated == UnsubscribeWakes(old(vv.entries), vv.entries)
    {
      ghost var before := State();
      assert before.data[vv.id] == vv.entries;
      updated := UnsubscribeKeys(vv, keys, decrMax);
      StateAfterChange(vv);
      EachKeepsSlots(if decrMax then SlotOp.Clear else SlotOp.Unsubscribe, before.data[vv.id], keys);
      if vv.entries == map[] {
        updated := false;
      }
      DropEmptied(topic, vv);
    }

    method UnsubscribeTopic(topic: string) returns (updated: bool)
      requires Valid() && topic in subs
      modifies this`subs, subs[topic]
      ensures Valid()
      ensures State() == Stored(old(State()), topic, old(State()).topics[topic],
                                All(SlotOp.Clear, DataOf(old(State()), topic)))
      ensures updated == ClearWakes(old(State()), topic)
    {
      assert DataOf(State(), topic) == subs[topic].entries;
      var keys := ListKeys(subs[topic].entries.Keys);
      EachOfListing(SlotOp.Clear, subs[topic].entries, keys);
      updated := UnsubscribeFrom(topic, keys, subs[topic], true);
    }

    method ResetTopic(topic: string)
      requires Valid() && topic in subs
      modifies this`subs, subs[topic]
      ensures Valid()
      ensures State() == Stored(old(State()), topic, old(State()).topics[topic],
                                All(SlotOp.Reset, DataOf(old(State()), topic)))
    {
      var vv := subs[topic];
      ghost var before := State();
      assert DataOf(before, topic) == vv.entries;
      ResetKeys(vv);
      StateAfterChange(vv);
      DropEmptied(topic, vv);
    }

    method UnsubscribeAll()
      requires Valid()
      modifies this, maps
      ensures Valid() && maps == old(maps)
      ensures State() == DoUnsubscribeAll(old(State()))
    {
      ghost var before := State();
      var ok := UnsubscribeTopics();
      if ok {
        ExecFns();
      }
      OnAllKeeps(SlotOp.Clear, before);
    }

    method UnsubscribeTopics() returns (ok: bool)
      requires Valid()
      modifies this`subs, maps
      ensures Valid()
      ensures State() == OnAll(SlotOp.Clear, old(State()))
      ensures ok == AnyWakes(old(State()), old(State()).topics.Keys)
    {
      ghost var before := State();
      ok := false;
      var rest := subs.Keys;
      ghost var done: set<string> := {};
      PartlyNone(SlotOp.Clear, before);
      while rest != {}
        invariant Valid()
        invariant rest !! done && rest + done == before.topics.Keys
        invariant State() == Partly(SlotOp.Clear, before, done)
        invariant ok == AnyWakes(before, done)
      {
        var t :| t in rest;
        var updated := UnsubscribeNext(t, before, done);
        ok := ok || updated;
        rest, done := rest - {t}, done + {t};
      }
      assert done == before.topics.Keys;
      PartlyWhole(SlotOp.Clear, before);
    }

    method UnsubscribeNext(t: string, ghost before: Subs, ghost done: set<string>) returns (updated: bool)
      requires Valid() && IsSubs(before) && t in before.topics && t !in done
      requires State() == Partly(SlotOp.Clear, before, done)
      modifies this`subs, maps
      ensures Valid() && State() == Partly(SlotOp.Clear, before, done + {t})
      ensures AnyWakes(before, done + {t}) <==> AnyWakes(before, done) || updated
    {
      PartlyNext(SlotOp.Clear, before, done, t);
      SameTopicWakes(before, State(), t);
      MoreWakes(before, done, t);
      updated := UnsubscribeTopic(t);
    }

    method ResetNext(t: string, ghost before: Subs, ghost done: set<string>)
      requires Valid() && IsSubs(before) && t in before.topics && t !in done
      requires State() == Partly(SlotOp.Reset, before, done)
      modifies this`subs, maps
      ensures Valid() && State() == Partly(SlotOp.Reset, before, done + {t})
    {
      PartlyNext(SlotOp.Reset, before, done, t);
      ResetTopic(t);
    }

    method ResetAll()
      requires Valid()
      modifies this, maps
      ensures Valid() && maps == old(maps)
      ensures State() == DoResetAll(old(State()))
    {
      ghost var before := State();
      var rest := subs.Keys;
      ghost var done: set<string> := {};
      PartlyNone(SlotOp.Reset, before);
      while rest != {}
        invariant Valid() && maps == old(maps)
        invariant rest !! done && rest + done == before.topics.Keys
        invariant State() == Partly(SlotOp.Reset, before, done)
      {
        var t :| t in rest;
        ResetNext(t, before, done);
        rest, done := rest - {t}, done + {t};
      }
      assert done == before.topics.Keys;
      PartlyWhole(SlotOp.Reset, before);
      OnAllKeeps(SlotOp.Reset, before);
    }

    /** Confirming through a topic map that may not be stored any more. */
    method Confirm(subbed: bool, topic: string, vv: TopicMap, keys: seq<Key>)
      requires Valid() && Owns(vv)
      modifies this, vv
      ensures Valid() && maps == old(maps)
      ensures State() == DoConfirm(old(State()), subbed, topic, vv.id, keys)
    {
      ghost var before := State();
      assert before.data[vv.id] == vv.entries;
      ConfirmKeys(vv, subbed, keys);
      StateAfterChange(vv);
      DropEmptied(topic, vv);
      ConfirmKeeps(before, subbed, topic, vv.id, keys);
      assert State() == DoConfirm(before, subbed, topic, vv.id, keys);
    }

    method ConfirmSub(topic: string, keys: seq<Key>)
      requires Valid()
      modifies this, maps
      ensures Valid() && maps == old(maps)
      ensures State() == DoConfirmSub(old(State()), topic, keys)
    {
      if topic in subs {
        Confirm(true, topic, subs[topic], keys);
      }
    }

    /** With `invert` every key but the listed ones is confirmed. */
    method ConfirmUnsub(topic: string, invert: bool, keys: seq<Key>)
      requires Valid()
      modifies this, maps
      ensures Valid() && maps == old(maps)
      ensures State() == DoConfirmUnsub(old(State()), topic, invert, keys)
    {
      if topic !in subs {
        return;
      }
      var confirmed := keys;
      if invert {
        assert DataOf(State(), topic) == subs[topic].entries;
        confirmed := ListKeys(subs[topic].entries.Keys - (set k | k in keys));
        EachOfOthers(SlotOp.ConfirmUnsub, subs[topic].entries, keys, confirmed);
      }
      Confirm(false, topic, subs[topic], confirmed);
    }

    /** The confirmation closure of a payload, once the formatter accepted the response. */
    method Acknowledge(p: GroupedPayload)
      requires Valid() && Owns(p.topicData)
      modifies this, p.topicData
      ensures Valid() && maps == old(maps)
      ensures State() == DoConfirm(old(State()), p.subbed, p.topic, p.topicData.id, p.keys)
    {
      Confirm(p.subbed, p.topic, p.topicData, p.keys);
    }

    method Payloads() returns (res: seq<GroupedPayload>)
      requires Valid()
      ensures IsBatch(State(), PayloadValues(res))
      ensures forall p | p in res :: Owns(p.topicData)
    {
      res := [];
      var rest := subs.Keys;
      ghost var done: set<string> := {};
      while rest != {}
        invariant rest !! done && rest + done == subs.Keys
        invariant forall p | p in res :: Owns(p.topicData)
        invariant IsBatchOf(State(), PayloadValues(res), done)
      {
        var t :| t in rest;
        var added := TopicPayloads(t);
        assert PayloadValues(res + added) == PayloadValues(res) + PayloadValues(added);
        BatchGrows(State(), PayloadValues(res), PayloadValues(added), done, t);
        res := res + added;
        rest, done := rest - {t}, done + {t};
      }
    }

    /** The payloads of one topic: at most one for each direction. */
    method TopicPayloads(topic: string) returns (res: seq<GroupedPayload>)
      requires Valid() && topic in subs
      ensures IsBatchOf(State(), PayloadValues(res), {topic})
      ensures forall p | p in res :: Owns(p.topicData)
    {
      var vv := subs[topic];
      assert DataOf(State(), topic) == vv.entries;
      var subKeys, unsubKeys := WaitingKeys(vv);
      ListingIsEmpty(subKeys, Waiting(vv.entries, true));
      ListingIsEmpty(unsubKeys, Waiting(vv.entries, false));
      res := [];
      if subKeys != [] {
        res := res + [GroupedPayload(topic, true, subKeys, vv)];
      }
      if unsubKeys != [] {
        res := res + [GroupedPayload(topic, false, unsubKeys, vv)];
      }
      ghost var values := PayloadValues(res);
      assert subKeys != [] ==> values[0] == Payload(topic, true, subKeys, vv.id);
      assert unsubKeys != [] ==> values[|values| - 1] == Payload(topic, false, unsubKeys, vv.id);
    }

    /** The confirmed keys of a topic. */
    method TopicKeys(topic: string) returns (keys: seq<Key>)
      requires Valid()
      ensures IsListing(keys, set k | k in DataOf(State(), topic) && IsLive(SlotOf(State(), topic, k)))
      ensures forall k ::
        k in keys <==> SlotOf(State(), topic, k).Some? &&
                       SlotOf(State(), topic, k).value.confirmed && SlotOf(State(), topic, k).value.count > 0
    {
      keys := [];
      if topic !in subs {
        return;
      }
      var vv := subs[topic].entries;
      assert DataOf(State(), topic) == vv;
      keys := ListKeys(set k | k in vv && vv[k].count > 0 && vv[k].confirmed);
    }
  }

  // ---------------------------------------------------------------- loops over one topic map

  predicate IsFresh(slot: Slot) {
    slot.None? || (slot.value.count == 0 && slot.value.confirmed)
  }

  predicate AnyFresh(vv: TopicData, keys: seq<Key>) {
    exists k | k in keys :: IsFresh(Get(vv, k))
  }

  lemma SubscribeWakesForFreshKeys(vv: TopicData, keys: seq<Key>)
    ensures SubscribeWakes(vv, keys) <==> AnyFresh(vv, keys)
  {
    forall k | k in keys
      ensures NeedsMessage(Get(vv, k), Get(Each(SlotOp.Subscribe, vv, keys), k)) <==> IsFresh(Get(vv, k))
    {
      EachAt(SlotOp.Subscribe, vv, keys, k);
      SubscribedSlot(multiset(keys)[k], Get(vv, k));
    }
  }

  /** After the keys so far, only a key that was fresh at the start and is not among them is fresh. */
  lemma FreshSoFar(vv: TopicData, keys: seq<Key>, k: Key)
    ensures IsFresh(Get(Each(SlotOp.Subscribe, vv, keys), k)) <==> IsFresh(Get(vv, k)) && k !in keys
  {
    EachAt(SlotOp.Subscribe, vv, keys, k);
    if k in keys {
      SubscribedSlot(multiset(keys)[k], Get(vv, k));
    }
  }

  /** The next key of a subscription: whether it sets the flag, and what it makes of the map. */
  lemma SubscribeNext(vv: TopicData, keys: seq<Key>, i: nat)
    requires i < |keys|
    ensures var now := Each(SlotOp.Subscribe, vv, keys[..i]);
      && Each(SlotOp.Subscribe, vv, keys[..i + 1]) == Put(now, keys[i], Apply(SlotOp.Subscribe, Get(now, keys[i])))
      && (AnyFresh(vv, keys[..i + 1]) <==> AnyFresh(vv, keys[..i]) || IsFresh(Get(now, keys[i])))
  {
    assert keys[..i + 1][..i] == keys[..i];
    assert keys[..i + 1] == keys[..i] + [keys[i]];
    FreshSoFar(vv, keys[..i], keys[i]);
  }

  /** The loop of a subscription over its keys. */
  method SubscribeKeys(vv: TopicMap, keys: seq<Key>) returns (ok: bool)
    modifies vv
    ensures vv.entries == Each(SlotOp.Subscribe, old(vv.entries), keys)
    ensures ok == SubscribeWakes(old(vv.entries), keys)
  {
    ok := false;
    for i := 0 to |keys|
      invariant vv.entries == Each(SlotOp.Subscribe, old(vv.entries), keys[..i])
      invariant ok == AnyFresh(old(vv.entries), keys[..i])
    {
      SubscribeNext(old(vv.entries), keys, i);
      var v := Entry(false, 0);
      if keys[i] in vv.entries {
        v := vv.entries[keys[i]];
      }
      if keys[i] !in vv.entries || (v.count == 0 && v.confirmed) {
        ok := true;
        v := v.(confirmed := false);
      }
      vv.entries := vv.entries[keys[i] := v.(count := v.count + 1)];
    }
    assert keys[..|keys|] == keys;
    SubscribeWakesForFreshKeys(old(vv.entries), keys);
  }

  /** What the entries are while an unsubscription runs. */
  ghost predicate IsUnder(now: TopicData, start: TopicData) {
    forall k | k in now :: IsSlot(Some(now[k])) && k in start && now[k].count <= start[k].count
  }

  lemma UnsubscribeStep(op: SlotOp, start: TopicData, now: TopicData, k: Key)
    requires op == SlotOp.Unsubscribe || op == SlotOp.Clear
    requires IsUnder(now, start)
    ensures var next := Put(now, k, Apply(op, Get(now, k)));
      && IsUnder(next, start)
      && (UnsubscribeWakes(start, next) <==>
            UnsubscribeWakes(start, now) || (k in next && now[k].count > 0 && next[k].count == 0))
  {
    var next := Put(now, k, Apply(op, Get(now, k)));
    if k in next && now[k].count > 0 && next[k].count == 0 {
      assert k in start && k in next;
    }
  }

  /** One key of an unsubscription. */
  method UnsubscribeKey(vv: TopicMap, key: Key, decrMax: bool) returns (updated: bool)
    modifies vv
    ensures vv.entries == Put(old(vv.entries), key,
                              Apply(if decrMax then SlotOp.Clear else SlotOp.Unsubscribe, Get(old(vv.entries), key)))
    ensures updated == (key in old(vv.entries) && key in vv.entries && old(vv.entries)[key].count > 0
                        && vv.entries[key].count == 0)
  {
    updated := false;
    if key !in vv.entries {
      return;
    }
    var v := vv.entries[key];
    if (v.count == 1 && !v.confirmed) || (v.count == 0 && v.confirmed) {
      vv.entries := vv.entries - {key};
      return;
    } else if v.count == 0 {
      return;
    }
    v := v.(count := if decrMax then 0 else v.count - 1);
    if v.count == 0 {
      v := v.(confirmed := false);
      updated := true;
    }
    vv.entries := vv.entries[key := v];
  }

  /** The loop of an unsubscription over its keys. */
  method UnsubscribeKeys(vv: TopicMap, keys: seq<Key>, decrMax: bool) returns (updated: bool)
    requires IsUnder(vv.entries, vv.entries)
    modifies vv
    ensures vv.entries == Each(if decrMax then SlotOp.Clear else SlotOp.Unsubscribe, old(vv.entries), keys)
    ensures updated == UnsubscribeWakes(old(vv.entries), vv.entries)
  {
    ghost var op := if decrMax then SlotOp.Clear else SlotOp.Unsubscribe;
    updated := false;
    for i := 0 to |keys|
      invariant vv.entries == Each(op, old(vv.entries), keys[..i])
      invariant IsUnder(vv.entries, old(vv.entries))
      invariant updated == UnsubscribeWakes(old(vv.entries), vv.entries)
    {
      assert keys[..i + 1][..i] == keys[..i];
      UnsubscribeStep(op, old(vv.entries), vv.entries, keys[i]);
      var marked := UnsubscribeKey(vv, keys[i], decrMax);
      updated := updated || marked;
    }
    assert keys[..|keys|] == keys;
  }

  /** The loop of a confirmation over its keys. */
  method ConfirmKeys(vv: TopicMap, subbed: bool, keys: seq<Key>)
    modifies vv
    ensures vv.entries == Each(if subbed then SlotOp.ConfirmSub else SlotOp.ConfirmUnsub, old(vv.entries), keys)
  {
    ghost var op := if subbed then SlotOp.ConfirmSub else SlotOp.ConfirmUnsub;
    for i := 0 to |keys|
      invariant vv.entries == Each(op, old(vv.entries), keys[..i])
    {
      assert keys[..i + 1][..i] == keys[..i];
      if keys[i] !in vv.entries {
        continue;
      }
      var v := vv.entries[keys[i]];
      if v.confirmed || (v.count > 0 && !subbed) || (v.count == 0 && subbed) {
        continue;
      }
      v := v.(confirmed := true);
      if v.count == 0 {
        vv.entries := vv.entries - {keys[i]};
      } else {
        vv.entries := vv.entries[keys[i] := v];
      }
    }
    assert keys[..|keys|] == keys;
  }

  /** The loop of a reset over the keys of one topic. */
  method ResetKeys(vv: TopicMap)
    modifies vv
    ensures vv.entries == All(SlotOp.Reset, old(vv.entries))
  {
    var rest := vv.entries.Keys;
    while rest != {}
      invariant rest <= old(vv.entries).Keys
      invariant forall k | k in rest :: Get(vv.entries, k) == Get(old(vv.entries), k)
      invariant forall k | k !in rest :: Get(vv.entries, k) == Get(All(SlotOp.Reset, old(vv.entries)), k)
    {
      var k :| k in rest;
      assert Get(vv.entries, k).Some?;
      var v := vv.entries[k].(confirmed := false);
      if v.count == 0 {
        vv.entries := vv.entries - {k};
      } else {
        vv.entries := vv.entries[k := v];
      }
      rest := rest - {k};
    }
    GetDetermines(vv.entries, All(SlotOp.Reset, old(vv.entries)));
  }

  /** The keys of one topic that wait for a message, per direction. */
  method WaitingKeys(vv: TopicMap) returns (subKeys: seq<Key>, unsubKeys: seq<Key>)
    ensures IsListing(subKeys, Waiting(vv.entries, true))
    ensures IsListing(unsubKeys, Waiting(vv.entries, false))
  {
    subKeys, unsubKeys := [], [];
    var rest := vv.entries.Keys;
    while rest != {}
      invariant rest <= vv.entries.Keys
      invariant IsListing(subKeys, Waiting(vv.entries, true) - rest)
      invariant IsListing(unsubKeys, Waiting(vv.entries, false) - rest)
    {
      var k :| k in rest;
      rest := rest - {k};
      var v := vv.entries[k];
      if v.confirmed {
        continue;
      }
      if v.count == 0 {
        unsubKeys := unsubKeys + [k];
        continue;
      }
      subKeys := subKeys + [k];
    }
  }

  // ---------------------------------------------------------------- loops over the topics

  ghost predicate IsIdOf(s: Subs, topics: set<string>, id: nat) {
    exists t | t in topics && t in s.topics :: s.topics[t] == id
  }

  /** An operation on every key of some of the topics. */
  ghost function Partly(op: SlotOp, s: Subs, done: set<string>): Subs {
    Subs(map t | t in s.topics && !(t in done && Empties(op, s, t)) :: s.topics[t],
         seq(|s.data|, i requires 0 <= i < |s.data| =>
           if IsIdOf(s, done, i) then All(op, s.data[i]) else s.data[i]),
         s.wakes)
  }

  lemma PartlyNone(op: SlotOp, s: Subs)
    ensures Partly(op, s, {}) == s
  {
  }

  lemma PartlyNextData(op: SlotOp, s: Subs, done: set<string>, t: string)
    requires IsSubs(s) && t in s.topics && t !in done
    ensures Partly(op, s, done).data[s.topics[t]] == DataOf(s, t)
    ensures Partly(op, s, done + {t}).data == Partly(op, s, done).data[s.topics[t] := All(op, DataOf(s, t))]
  {
    assert !IsIdOf(s, done, s.topics[t]);
    forall i: nat | i < |s.data|
      ensures IsIdOf(s, done + {t}, i) <==> IsIdOf(s, done, i) || i == s.topics[t]
    {
      if IsIdOf(s, done, i) {
        var u :| u in done && u in s.topics && s.topics[u] == i;
        assert u in done + {t};
      }
      if i == s.topics[t] {
        assert t in done + {t};
      }
    }
  }

  lemma PartlyNextTopics(op: SlotOp, s: Subs, done: set<string>, t: string)
    requires t in s.topics && t !in done
    ensures Partly(op, s, done + {t}).topics
         == if Empties(op, s, t) then Partly(op, s, done).topics - {t} else Partly(op, s, done).topics
  {
  }

  lemma PartlyNext(op: SlotOp, s: Subs, done: set<string>, t: string)
    requires IsSubs(s) && t in s.topics && t !in done
    ensures var p := Partly(op, s, done);
      && t in p.topics && p.topics[t] == s.topics[t]
      && DataOf(p, t) == DataOf(s, t)
      && Partly(op, s, done + {t}) == Stored(p, t, s.topics[t], All(op, DataOf(s, t)))
  {
    PartlyNextData(op, s, done, t);
    PartlyNextTopics(op, s, done, t);
  }

  lemma MoreWakes(s: Subs, done: set<string>, t: string)
    ensures AnyWakes(s, done + {t}) <==> AnyWakes(s, done) || ClearWakes(s, t)
  {
    assert t in done + {t};
  }

  lemma SameTopicWakes(s: Subs, r: Subs, topic: string)
    requires DataOf(s, topic) == DataOf(r, topic)
    ensures ClearWakes(s, topic) == ClearWakes(r, topic)
  {
  }

  lemma PartlyWhole(op: SlotOp, s: Subs)
    requires IsSubs(s)
    ensures Partly(op, s, s.topics.Keys) == OnAll(op, s)
  {
    var p, q := Partly(op, s, s.topics.Keys), OnAll(op, s);
    forall i | 0 <= i < |s.data| ensures p.data[i] == q.data[i] {
      if i in s.topics.Values {
        var t :| t in s.topics && s.topics[t] == i;
        assert t in s.topics.Keys;
      }
    }
  }

  /** A batch of the payloads of some of the topics. */
  ghost predicate IsBatchOf(s: Subs, pp: seq<Payload>, done: set<string>) {
    && (forall p | p in pp :: IsPayload(s, p) && p.topic in done)
    && AreDistinct(pp)
    && forall t, subbed | t in done && t in s.topics && Waiting(DataOf(s, t), subbed) != {} ::
         exists p | p in pp :: p.topic == t && p.subbed == subbed
  }

  lemma BatchGrows(s: Subs, pp: seq<Payload>, added: seq<Payload>, done: set<string>, t: string)
    requires IsBatchOf(s, pp, done) && t in s.topics && t !in done
    requires IsBatchOf(s, added, {t})
    ensures IsBatchOf(s, pp + added, done + {t})
  {
    forall u, subbed | u in done + {t} && u in s.topics && Waiting(DataOf(s, u), subbed) != {}
      ensures exists p | p in pp + added :: p.topic == u && p.subbed == subbed
    {
      if u == t {
        var p :| p in added && p.topic == u && p.subbed == subbed;
        assert p in pp + added;
      } else {
        var p :| p in pp && p.topic == u && p.subbed == subbed;
        assert p in pp + added;
      }
    }
  }
}
