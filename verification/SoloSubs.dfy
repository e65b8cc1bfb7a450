/** The state of the solo subscription keeper as a value: one subscription per topic, stored by
    reference, so that payloads go on referring to a subscription that is no longer stored. */
module SoloSubs {
  import opened Wrappers

  datatype Sub = Sub(topic: string, confirmed: bool, subbed: bool)

  /** Which subscription is stored under each topic, every subscription ever made, and how often the
      change functions ran. */
  datatype Subs = Subs(topics: map<string, nat>, data: seq<Sub>, wakes: nat)

  const EMPTY := Subs(map[], [], 0)

  /** A stored subscription is of its topic, and an unsubscription is not confirmed while stored. */
  ghost predicate IsSubs(s: Subs) {
    forall t | t in s.topics ::
      && s.topics[t] < |s.data|
      && s.data[s.topics[t]].topic == t
      && (s.data[s.topics[t]].confirmed ==> s.data[s.topics[t]].subbed)
  }

  predicate HasTopic(s: Subs, t: string) {
    t in s.topics && s.topics[t] < |s.data|
  }

  function SubOf(s: Subs, t: string): Option<Sub> {
    if HasTopic(s, t) then Some(s.data[s.topics[t]]) else None
  }

  /** The topic is subscribed and the server is known to have accepted that. */
  predicate IsLive(s: Subs, t: string) {
    HasTopic(s, t) && s.data[s.topics[t]].subbed && s.data[s.topics[t]].confirmed
  }

  function DoSubscribe(s: Subs, t: string): Subs {
    if HasTopic(s, t) && !(s.data[s.topics[t]].confirmed && !s.data[s.topics[t]].subbed) then s
    else Subs(s.topics[t := |s.data|], s.data + [Sub(t, false, true)], s.wakes + 1)
  }

  function DoUnsubscribeLocal(s: Subs, t: string): Subs {
    s.(topics := s.topics - {t})
  }

  /** No message is needed to be rid of the subscription. */
  predicate IsForgettable(sub: Sub) {
    (sub.subbed && !sub.confirmed) || (!sub.subbed && sub.confirmed)
  }

  predicate IsPending(sub: Sub) {
    !sub.subbed && !sub.confirmed
  }

  function DoUnsubscribe(s: Subs, t: string): Subs {
    if !HasTopic(s, t) || IsPending(s.data[s.topics[t]]) then s
    else if IsForgettable(s.data[s.topics[t]]) then s.(topics := s.topics - {t})
    else s.(data := s.data[s.topics[t] := Sub(s.data[s.topics[t]].topic, false, false)], wakes := s.wakes + 1)
  }

  function DoUnsubscribeAll(s: Subs): Subs {
    Subs(map t | t in s.topics && HasTopic(s, t) && !IsForgettable(s.data[s.topics[t]]) :: s.topics[t],
         seq(|s.data|, i requires 0 <= i < |s.data| =>
           if i in s.topics.Values && s.data[i].subbed && s.data[i].confirmed
           then Sub(s.data[i].topic, false, false) else s.data[i]),
         s.wakes + (if exists t | t in s.topics :: IsLive(s, t) then 1 else 0))
  }

  function DoResetAll(s: Subs): Subs {
    Subs(map t | t in s.topics && HasTopic(s, t) && s.data[s.topics[t]].subbed :: s.topics[t],
         seq(|s.data|, i requires 0 <= i < |s.data| =>
           if i in s.topics.Values then s.data[i].(confirmed := false) else s.data[i]),
         s.wakes)
  }

  /** Confirming through a reference; an unsubscription removes whatever is stored under its topic. */
  function DoConfirm(s: Subs, subbed: bool, topic: string, id: nat): Subs {
    if id >= |s.data| || s.data[id].confirmed || s.data[id].subbed != subbed then s
    else
      s.(data := s.data[id := s.data[id].(confirmed := true)],
         topics := if subbed then s.topics else s.topics - {topic})
  }

  /** A manual confirmation acts through the stored subscription, if there is one. */
  function DoConfirmStored(s: Subs, subbed: bool, topic: string): Subs {
    if HasTopic(s, topic) then DoConfirm(s, subbed, topic, s.topics[topic]) else s
  }

  /** The stored subscriptions that wait for a message, each once, in any order. */
  ghost predicate IsBatch(s: Subs, ids: seq<nat>) {
    && (forall id | id in ids :: id in s.topics.Values && id < |s.data| && !s.data[id].confirmed)
    && (forall i, j | 0 <= i < j < |ids| :: ids[i] != ids[j])
    && forall t | HasTopic(s, t) && !s.data[s.topics[t]].confirmed :: s.topics[t] in ids
  }

  /** A subscription takes effect exactly when no unsubscription of the topic is pending: then the call
      is ignored. */
  lemma SubscribeTakesEffect(s: Subs, t: string)
    requires IsSubs(s)
    ensures var r := DoSubscribe(s, t);
      (HasTopic(r, t) && r.data[r.topics[t]].subbed) <==> !(HasTopic(s, t) && IsPending(s.data[s.topics[t]]))
    ensures HasTopic(s, t) ==> DoSubscribe(s, t) == s
  {
  }

  // ---------------------------------------------------------------- waking the reconnect loop

  /** The topic waits for a message and did not before. */
  predicate NeedsMessage(before: Option<Sub>, after: Option<Sub>) {
    (before.None? || before.value.confirmed) && after.Some? && !after.value.confirmed
  }

  /** A subscription runs the change functions, once, exactly when its topic was not stored, and it
      waits for a message then. */
  lemma SubscribeWakesExactly(s: Subs, t: string)
    requires IsSubs(s)
    ensures DoSubscribe(s, t).wakes == s.wakes + (if t in s.topics then 0 else 1)
    ensures t !in s.topics <==> exists u :: NeedsMessage(SubOf(s, u), SubOf(DoSubscribe(s, t), u))
  {
    if t !in s.topics {
      assert NeedsMessage(SubOf(s, t), SubOf(DoSubscribe(s, t), t));
    }
  }

  /** An unsubscription runs the change functions, once, exactly when its topic was live, and it waits
      for a message then. */
  lemma UnsubscribeWakesExactly(s: Subs, t: string)
    requires IsSubs(s)
    ensures DoUnsubscribe(s, t).wakes == s.wakes + (if IsLive(s, t) then 1 else 0)
    ensures IsLive(s, t) <==> exists u :: NeedsMessage(SubOf(s, u), SubOf(DoUnsubscribe(s, t), u))
  {
    if IsLive(s, t) {
      assert NeedsMessage(SubOf(s, t), SubOf(DoUnsubscribe(s, t), t));
    }
    forall u | NeedsMessage(SubOf(s, u), SubOf(DoUnsubscribe(s, t), u)) ensures u == t && IsLive(s, t) {
      assert SubOf(s, u).Some? ==> s.data[s.topics[u]].topic == u;
    }
  }

  /** Unsubscribing from everything runs the change functions, once, exactly when some topic was live,
      and that topic waits for a message then. */
  lemma UnsubscribeAllWakesExactly(s: Subs)
    requires IsSubs(s)
    ensures DoUnsubscribeAll(s).wakes == s.wakes + (if exists t :: IsLive(s, t) then 1 else 0)
    ensures forall t :: NeedsMessage(SubOf(s, t), SubOf(DoUnsubscribeAll(s), t)) <==> IsLive(s, t)
  {
    forall t ensures NeedsMessage(SubOf(s, t), SubOf(DoUnsubscribeAll(s), t)) <==> IsLive(s, t) {
      if t in s.topics {
        assert s.topics[t] in s.topics.Values;
      }
    }
  }

  /** The other operations run no change function. */
  lemma OthersDoNotWake(s: Subs, t: string, subbed: bool, id: nat)
    ensures DoUnsubscribeLocal(s, t).wakes == s.wakes
    ensures DoResetAll(s).wakes == s.wakes
    ensures DoConfirm(s, subbed, t, id).wakes == s.wakes
    ensures DoConfirmStored(s, subbed, t).wakes == s.wakes
  {
  }

  /** Local unsubscription forgets the topic and nothing else. A manual confirmation makes a subscribed
      topic confirmed and makes a pending one forgotten, each in its own direction only. */
  lemma LocalAndManual(s: Subs, t: string, u: string)
    requires IsSubs(s)
    ensures SubOf(DoUnsubscribeLocal(s, t), u) == if u == t then None else SubOf(s, u)
    ensures SubOf(DoConfirmStored(s, true, t), u)
         == if u == t && SubOf(s, u).Some? && SubOf(s, u).value.subbed then Some(Sub(u, true, true)) else SubOf(s, u)
    ensures SubOf(DoConfirmStored(s, false, t), u)
         == if u == t && SubOf(s, u) == Some(Sub(u, false, false)) then None else SubOf(s, u)
  {
    assert u in s.topics && t in s.topics && s.topics[u] == s.topics[t] ==> u == t;
  }

  // ---------------------------------------------------------------- what an operation does not do

  /** What an operation of the keeper does not do: it makes no topic live, and it changes no
      subscription that waits for a message. */
  ghost predicate IsQuiet(s: Subs, r: Subs) {
    && IsSubs(r)
    && |s.data| <= |r.data|
    && (forall t | IsLive(r, t) :: IsLive(s, t))
    && (forall i | 0 <= i < |s.data| :: r.data[i].topic == s.data[i].topic)
    && (forall i | 0 <= i < |s.data| && !s.data[i].confirmed :: r.data[i] == s.data[i])
  }

  lemma SubscribeIsQuiet(s: Subs, t: string)
    requires IsSubs(s)
    ensures IsQuiet(s, DoSubscribe(s, t))
  {
  }

  lemma UnsubscribeLocalIsQuiet(s: Subs, t: string)
    requires IsSubs(s)
    ensures IsQuiet(s, DoUnsubscribeLocal(s, t))
  {
  }

  lemma UnsubscribeIsQuiet(s: Subs, t: string)
    requires IsSubs(s)
    ensures IsQuiet(s, DoUnsubscribe(s, t))
  {
  }

  lemma UnsubscribeAllIsQuiet(s: Subs)
    requires IsSubs(s)
    ensures IsQuiet(s, DoUnsubscribeAll(s))
    ensures forall t :: SubOf(DoUnsubscribeAll(s), t) == SubOf(DoUnsubscribe(s, t), t)
  {
    forall t | t in s.topics ensures s.topics[t] in s.topics.Values {
    }
  }

  lemma ResetAllIsQuiet(s: Subs)
    requires IsSubs(s)
    ensures IsQuiet(s, DoResetAll(s))
    ensures forall t :: !IsLive(DoResetAll(s), t)
  {
    forall t | t in s.topics ensures s.topics[t] in s.topics.Values {
    }
  }
}
