/** The solo subscription keeper as an object: its subscriptions are shared with the payloads, so a
    subscription that was removed from the keeper may still be confirmed through one. The ghost field
    `all` lists every subscription ever made; a subscription's identity is its position in that list, and
    `State` is the keeper's value, read off the heap. Each method runs under the keeper's lock and changes
    that value as the module SoloSubs says. A loop over the topics picks any of those that remain, so its
    result does not depend on the order of a map iteration. */
module SoloSubKeeper {
  import opened SoloSubs

  class SoloSub {
    const keeper: Keeper
    const topic: string
    var confirmed: bool
    var subbed: bool // read only while not confirmed
    ghost const id: nat

    constructor (keeper: Keeper, topic: string, ghost id: nat)
      ensures this.keeper == keeper && this.topic == topic && !confirmed && subbed && this.id == id
    {
      this.keeper, this.topic := keeper, topic;
      confirmed, subbed := false, true;
      this.id := id;
    }

    ghost function Value(): Sub
      reads this
    {
      Sub(topic, confirmed, subbed)
    }
  }

  class Keeper {
    var subs: map<string, SoloSub>
    var wakes: nat
    ghost var all: seq<SoloSub>

    ghost predicate Owns(sub: SoloSub)
      reads this
    {
      sub.id < |all| && all[sub.id] == sub
    }

    /** Identities are positions in the list of all subscriptions of this keeper. */
    ghost predicate Wired()
      reads this
    {
      && (forall i | 0 <= i < |all| :: all[i].id == i && all[i].keeper == this)
      && (forall t | t in subs :: Owns(subs[t]) && subs[t].topic == t)
    }

    ghost predicate Valid()
      reads this, all
    {
      Wired() && IsSubs(State())
    }

    ghost function State(): Subs
      reads this, all
    {
      Subs(map t | t in subs :: subs[t].id,
           seq(|all|, i requires 0 <= i < |all| reads this, all => all[i].Value()),
           wakes)
    }

    /** The list of subscriptions only grows, and the new ones are fresh. */
    twostate predicate Grows()
      reads this
    {
      old(all) <= all && forall i | |old(all)| <= i < |all| :: fresh(all[i])
    }

    constructor ()
      ensures Valid() && State() == EMPTY && all == []
    {
      subs, wakes, all := map[], 0, [];
    }

    /** The subscriptions that wait for a message. */
    method Payloads() returns (res: seq<SoloSub>)
      requires Valid()
      ensures IsBatch(State(), seq(|res|, i requires 0 <= i < |res| => res[i].id))
      ensures forall sub | sub in res :: Owns(sub)
    {
      res := [];
      var rest := subs.Keys;
      while rest != {}
        invariant rest <= subs.Keys
        invariant forall sub | sub in res :: Owns(sub) && !sub.confirmed && sub.topic in subs.Keys - rest && subs[sub.topic] == sub
        invariant forall t | t in subs.Keys - rest && !subs[t].confirmed :: subs[t] in res
        invariant forall i, j | 0 <= i < j < |res| :: res[i] != res[j]
      {
        var t :| t in rest;
        rest := rest - {t};
        if !subs[t].confirmed {
          res := res + [subs[t]];
        }
      }
      ghost var ids := seq(|res|, i requires 0 <= i < |res| => res[i].id);
      forall id | id in ids ensures id in State().topics.Values && id < |all| && !State().data[id].confirmed {
        var i :| 0 <= i < |ids| && ids[i] == id;
        assert res[i] in res && State().topics[res[i].topic] == id;
      }
      forall i, j | 0 <= i < j < |ids| ensures ids[i] != ids[j] {
        assert Owns(res[i]) && Owns(res[j]);
      }
      forall t | t in subs && !State().data[State().topics[t]].confirmed ensures State().topics[t] in ids {
        var i :| 0 <= i < |res| && res[i] == subs[t];
        assert ids[i] == State().topics[t];
      }
    }

    method Subscribe(topic: string)
      requires Valid()
      modifies this
      ensures Valid()
      ensures Grows()
      ensures State() == DoSubscribe(old(State()), topic)
    {
      ghost var before := State();
      if topic in subs && !(!subs[topic].subbed && subs[topic].confirmed) {
        return;
      }
      Store(topic);
      wakes := wakes + 1;
      assert State() == DoSubscribe(before, topic);
      SubscribeIsQuiet(before, topic);
    }

    /** A fresh subscription replaces whatever is stored under the topic. */
    method Store(topic: string)
      requires Wired()
      modifies this`subs, this`all
      ensures Wired() && Grows()
      ensures State() == Subs(old(State()).topics[topic := |old(all)|], old(State()).data + [Sub(topic, false, true)], wakes)
    {
      ghost var before := State();
      var sub := new SoloSub(this, topic, |all|);
      all := all + [sub];
      subs := subs[topic := sub];
      assert State().data == before.data + [Sub(topic, false, true)];
    }

    method UnsubscribeLocal(topic: string)
      requires Valid()
      modifies this`subs
      ensures Valid()
      ensures State() == DoUnsubscribeLocal(old(State()), topic)
    {
      ghost var before := State();
      subs := subs - {topic};
      assert State() == DoUnsubscribeLocal(before, topic);
    }

    method Unsubscribe(topic: string)
      requires Valid()
      modifies this, all
      ensures Valid() && all == old(all)
      ensures State() == DoUnsubscribe(old(State()), topic)
    {
      if topic !in subs {
        return;
      }
      ghost var before := State();
      var updated := UnsubscribeOne(topic, subs[topic]);
      if updated {
        wakes := wakes + 1;
      }
      UnsubscribeIsQuiet(before, topic);
      assert State() == DoUnsubscribe(before, topic);
    }

    /** Deletes the subscription when no message is needed, marks it otherwise. */
    method UnsubscribeOne(topic: string, sub: SoloSub) returns (updated: bool)
      requires Wired() && topic in subs && subs[topic] == sub && sub.topic == topic
      modifies this`subs, sub
      ensures Wired()
      ensures updated == IsLive(old(State()), topic)
      ensures State().(wakes := 0) == DoUnsubscribe(old(State()), topic).(wakes := 0)
    {
      ghost var before := State();
      updated := false;
      if (sub.subbed && !sub.confirmed) || (!sub.subbed && sub.confirmed) {
        subs := subs - {topic};
      } else if sub.subbed || sub.confirmed {
        sub.confirmed := false;
        sub.subbed := false;
        updated := true;
      }
      assert State().data == DoUnsubscribe(before, topic).data;
    }

    method UnsubscribeAll()
      requires Valid()
      modifies this, all
      ensures Valid() && all == old(all)
      ensures State() == DoUnsubscribeAll(old(State()))
    {
      ghost var before := State();
      var ok := UnsubscribeTopics();
      ClearedEnds(before);
      if ok {
        ExecFns();
      }
      UnsubscribeAllIsQuiet(before);
    }

    /** Runs the change functions. */
    method ExecFns()
      requires Wired()
      modifies this`wakes
      ensures Wired() && State() == old(State()).(wakes := old(State()).wakes + 1)
    {
      wakes := wakes + 1;
      assert State() == old(State()).(wakes := old(State()).wakes + 1);
    }

    method UnsubscribeTopics() returns (ok: bool)
      requires Valid()
      modifies this`subs, all
      ensures Wired()
      ensures State() == ClearedSoFar(old(State()), {})
      ensures wakes == old(wakes) && ok == AnyLive(old(State()), {})
    {
      ghost var before := State();
      ok := false;
      var rest := subs.Keys;
      ClearedEnds(before);
      while rest != {}
        invariant Wired() && all == old(all) && wakes == old(wakes)
        invariant rest <= before.topics.Keys
        invariant State() == ClearedSoFar(before, rest)
        invariant ok == AnyLive(before, rest)
      {
        var t :| t in rest;
        var updated := UnsubscribeNext(t, before, rest);
        ok := ok || updated;
        rest := rest - {t};
      }
    }

    method UnsubscribeNext(t: string, ghost before: Subs, ghost rest: set<string>) returns (updated: bool)
      requires Wired() && IsSubs(before) && t in before.topics && t in rest
      requires State() == ClearedSoFar(before, rest)
      modifies this`subs, all
      ensures Wired() && all == old(all) && wakes == old(wakes)
      ensures State() == ClearedSoFar(before, rest - {t})
      ensures AnyLive(before, rest - {t}) <==> AnyLive(before, rest) || updated
    {
      ClearedNext(before, rest, t);
      updated := UnsubscribeOne(t, subs[t]);
    }

    method ResetAll()
      requires Valid()
      modifies this`subs, all
      ensures Valid() && all == old(all)
      ensures State() == DoResetAll(old(State()))
    {
      ghost var before := State();
      var rest := subs.Keys;
      ResetEnds(before);
      while rest != {}
        invariant Wired() && all == old(all)
        invariant rest <= before.topics.Keys
        invariant State() == ResetSoFar(before, rest)
      {
        var t :| t in rest;
        ResetOneOf(t, before, rest);
        rest := rest - {t};
      }
      ResetEnds(before);
      ResetAllIsQuiet(before);
    }

    method ResetOneOf(t: string, ghost before: Subs, ghost rest: set<string>)
      requires Wired() && IsSubs(before) && t in before.topics && t in rest
      requires State() == ResetSoFar(before, rest)
      modifies this`subs, all
      ensures Wired() && all == old(all)
      ensures State() == ResetSoFar(before, rest - {t})
    {
      ResetNext(before, rest, t);
      ResetOne(t, subs[t]);
    }

    method ResetOne(topic: string, sub: SoloSub)
      requires Wired() && topic in subs && subs[topic] == sub
      modifies this`subs, sub
      ensures Wired()
      ensures State() == ResetTopic(old(State()), topic)
    {
      ghost var before := State();
      sub.confirmed := false;
      if !sub.subbed {
        subs := subs - {topic};
      }
      assert State().data == ResetTopic(before, topic).data;
    }

    /** The confirmation through a reference. */
    method Confirm(subbed: bool, topic: string, sub: SoloSub)
      requires Valid() && Owns(sub) && sub.topic == topic
      modifies this`subs, sub
      ensures Valid()
      ensures State() == DoConfirm(old(State()), subbed, topic, sub.id)
    {
      if sub.confirmed || sub.subbed != subbed {
        return;
      }
      ghost var before := State();
      sub.confirmed := true;
      if !subbed {
        subs := subs - {topic};
      }
      assert State() == DoConfirm(before, subbed, topic, sub.id);
      ConfirmKeeps(before, subbed, sub.id);
    }

    /** The confirmation closure of a payload: the direction is read when the response arrives. */
    method Acknowledge(sub: SoloSub)
      requires Valid() && Owns(sub)
      modifies this`subs, sub
      ensures Valid()
      ensures State() == DoConfirm(old(State()), old(sub.subbed), sub.topic, sub.id)
    {
      Confirm(sub.subbed, sub.topic, sub);
    }

    method ConfirmSub(topic: string)
      requires Valid()
      modifies this`subs, all
      ensures Valid()
      ensures State() == DoConfirmStored(old(State()), true, topic)
    {
      if topic in subs {
        Confirm(true, topic, subs[topic]);
      }
    }

    method ConfirmUnsub(topic: string)
      requires Valid()
      modifies this`subs, all
      ensures Valid()
      ensures State() == DoConfirmStored(old(State()), false, topic)
    {
      if topic in subs {
        Confirm(false, topic, subs[topic]);
      }
    }
  }

  /** A confirmation of a subscription of its own topic keeps the keeper well-formed. */
  lemma ConfirmKeeps(s: Subs, subbed: bool, id: nat)
    requires IsSubs(s) && id < |s.data|
    ensures IsSubs(DoConfirm(s, subbed, s.data[id].topic, id))
  {
  }

  // ---------------------------------------------------------------- loops over the topics

  /** The keeper while an unsubscription from everything still has topics to visit. */
  ghost function ClearedSoFar(s: Subs, rest: set<string>): Subs {
    Subs(map t | t in s.topics && (t in rest || !HasTopic(s, t) || !IsForgettable(s.data[s.topics[t]])) :: s.topics[t],
         seq(|s.data|, i requires 0 <= i < |s.data| =>
           if i in s.topics.Values && s.data[i].topic !in rest && s.data[i].subbed && s.data[i].confirmed
           then Sub(s.data[i].topic, false, false) else s.data[i]),
         s.wakes)
  }

  ghost predicate AnyLive(s: Subs, rest: set<string>) {
    exists t | t in s.topics && t !in rest :: IsLive(s, t)
  }

  /** With every topic still to be visited nothing has changed, and with none all has. */
  lemma ClearedEnds(s: Subs)
    requires IsSubs(s)
    ensures ClearedSoFar(s, s.topics.Keys) == s && !AnyLive(s, s.topics.Keys)
    ensures DoUnsubscribeAll(s) == ClearedSoFar(s, {}).(wakes := s.wakes + (if AnyLive(s, {}) then 1 else 0))
  {
    forall i | 0 <= i < |s.data| && i in s.topics.Values ensures s.data[i].topic in s.topics.Keys {
      var t :| t in s.topics && s.topics[t] == i;
    }
    var c, d := ClearedSoFar(s, {}), DoUnsubscribeAll(s);
    assert c.topics == d.topics;
    assert c.data == d.data;
    assert AnyLive(s, {}) <==> exists t | t in s.topics :: IsLive(s, t);
  }

  lemma ClearedNext(s: Subs, rest: set<string>, t: string)
    requires IsSubs(s) && t in s.topics && t in rest
    ensures var c := ClearedSoFar(s, rest);
      && t in c.topics && c.topics[t] == s.topics[t] && c.data[s.topics[t]] == s.data[s.topics[t]]
      && ClearedSoFar(s, rest - {t}) == DoUnsubscribe(c, t).(wakes := s.wakes)
    ensures AnyLive(s, rest - {t}) <==> AnyLive(s, rest) || IsLive(ClearedSoFar(s, rest), t)
  {
    var c, d := ClearedSoFar(s, rest), ClearedSoFar(s, rest - {t});
    assert s.topics[t] in s.topics.Values;
    forall i | 0 <= i < |s.data| && i in s.topics.Values && s.data[i].topic == t ensures i == s.topics[t] {
      var u :| u in s.topics && s.topics[u] == i;
    }
    assert d.data == DoUnsubscribe(c, t).data;
    assert d.topics == DoUnsubscribe(c, t).topics;
  }

  ghost function ResetTopic(s: Subs, t: string): Subs
    requires HasTopic(s, t)
  {
    Subs(if s.data[s.topics[t]].subbed then s.topics else s.topics - {t},
         s.data[s.topics[t] := s.data[s.topics[t]].(confirmed := false)], s.wakes)
  }

  /** The keeper while a reset still has topics to visit. */
  ghost function ResetSoFar(s: Subs, rest: set<string>): Subs {
    Subs(map t | t in s.topics && (t in rest || !HasTopic(s, t) || s.data[s.topics[t]].subbed) :: s.topics[t],
         seq(|s.data|, i requires 0 <= i < |s.data| =>
           if i in s.topics.Values && s.data[i].topic !in rest then s.data[i].(confirmed := false) else s.data[i]),
         s.wakes)
  }

  lemma ResetEnds(s: Subs)
    requires IsSubs(s)
    ensures ResetSoFar(s, s.topics.Keys) == s && DoResetAll(s) == ResetSoFar(s, {})
  {
    forall i | 0 <= i < |s.data| && i in s.topics.Values ensures s.data[i].topic in s.topics.Keys {
      var t :| t in s.topics && s.topics[t] == i;
    }
    assert DoResetAll(s).data == ResetSoFar(s, {}).data;
  }

  lemma ResetNext(s: Subs, rest: set<string>, t: string)
    requires IsSubs(s) && t in s.topics && t in rest
    ensures var c := ResetSoFar(s, rest);
      && HasTopic(c, t) && c.topics[t] == s.topics[t] && c.data[s.topics[t]] == s.data[s.topics[t]]
      && ResetSoFar(s, rest - {t}) == ResetTopic(c, t)
  {
    var c, d := ResetSoFar(s, rest), ResetSoFar(s, rest - {t});
    assert s.topics[t] in s.topics.Values;
    forall i | 0 <= i < |s.data| && i in s.topics.Values && s.data[i].topic == t ensures i == s.topics[t] {
      var u :| u in s.topics && s.topics[u] == i;
    }
    assert d.data == ResetTopic(c, t).data;
    assert d.topics == ResetTopic(c, t).topics;
  }
}
