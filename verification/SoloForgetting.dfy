/** Exactly when the server holds only topics the solo keeper has: what breaks that are the calls that
    delete a subscription the server holds, and the server accepting a subscription that was deleted
    meanwhile. A response never does. */
module SoloForgetting {
  import opened SoloSubs
  import opened ServerPeer
  import opened SoloResubscription

  /** The server of an open connection holds only topics the keeper has. */
  ghost predicate IsServedKept(w: World) {
    && |w.verdicts| <= |w.wire|
    && (w.open ==> forall t | t in Served(w.wire, w.verdicts) :: HasTopic(w.subs, t))
  }

  /** The unsubscription deletes the topic without a message. */
  predicate IsDeleted(s: Subs, t: string) {
    HasTopic(s, t) && IsForgettable(s.data[s.topics[t]])
  }

  ghost predicate Breaks(w: World, a: Action)
    requires Enabled(w, a) && |w.verdicts| <= |w.wire|
  {
    w.open &&
    match a
    case UserUnsubscribe(t) => t in Served(w.wire, w.verdicts) && IsDeleted(w.subs, t)
    case UserUnsubscribeLocal(t) => t in Served(w.wire, w.verdicts)
    case UserUnsubscribeAll => exists t | t in Served(w.wire, w.verdicts) :: IsDeleted(w.subs, t)
    case Handle(verdict) =>
      var msg := w.wire[|w.verdicts|];
      verdict && msg.subbed && exists t | t in msg.items :: !HasTopic(w.subs, t)
    case _ => false
  }

  lemma ClearingKeepsServed(w: World)
    requires Inv(w) && IsServedKept(w)
    ensures IsServedKept(Next(w, UserUnsubscribeAll)) <==> !Breaks(w, UserUnsubscribeAll)
  {
    forall t | t in w.subs.topics
      ensures HasTopic(DoUnsubscribeAll(w.subs), t) <==> !IsDeleted(w.subs, t)
    {
    }
  }

  lemma HandleKeepsServed(w: World, verdict: bool)
    requires Inv(w) && IsServedKept(w) && Enabled(w, Handle(verdict))
    ensures IsServedKept(Next(w, Handle(verdict))) <==> !Breaks(w, Handle(verdict))
  {
    assert Next(w, Handle(verdict)).verdicts[..|w.verdicts|] == w.verdicts;
  }

  /** The server has just given up what a confirmed unsubscription deletes. */
  lemma RespondKeepsServed(w: World)
    requires Inv(w) && IsServedKept(w) && Enabled(w, Respond(true))
    ensures IsServedKept(Next(w, Respond(true)))
  {
    var c := Current(w);
    assert w.wire[|w.verdicts| - 1] == MsgOf(c);
    if !c.subbed {
      assert c.topic !in Served(w.wire, w.verdicts);
    }
  }

  /** One step keeps the property exactly when it does not break it. */
  lemma StepKeepsServed(w: World, a: Action)
    requires Inv(w) && IsServedKept(w) && Enabled(w, a)
    ensures IsServedKept(Next(w, a)) <==> !Breaks(w, a)
  {
    match a
    case UserUnsubscribeAll => ClearingKeepsServed(w);
    case Handle(verdict) => HandleKeepsServed(w, verdict);
    case Send => ServedOfPrefix(w.wire, [MsgOf(Current(w))], w.verdicts);
    case Respond(confirmed) =>
      if confirmed {
        RespondKeepsServed(w);
      }
    case _ =>
  }

  ghost predicate IsServedKeptThroughout(actions: seq<Action>)
    requires CanRun(actions)
  {
    IsServedKept(Run(actions)) && (actions != [] ==> IsServedKeptThroughout(actions[..|actions| - 1]))
  }

  ghost predicate BreaksNowhere(actions: seq<Action>)
    requires CanRun(actions)
  {
    actions != [] ==>
      && BreaksNowhere(actions[..|actions| - 1])
      && var w := Run(actions[..|actions| - 1]);
         |w.verdicts| <= |w.wire| && !Breaks(w, actions[|actions| - 1])
  }

  /** All along a run the server of an open connection holds only topics the keeper has exactly when no
      step of the run breaks that. */
  lemma {:induction false} ServedIsKeptExactly(actions: seq<Action>)
    requires CanRun(actions)
    ensures IsServedKeptThroughout(actions) <==> BreaksNowhere(actions)
  {
    if actions != [] {
      var before, a := actions[..|actions| - 1], actions[|actions| - 1];
      ServedIsKeptExactly(before);
      RunKeepsInv(before);
      if IsServedKeptThroughout(before) {
        StepKeepsServed(Run(before), a);
      }
    }
  }
}
