/** The server as the reconnecting client sees it: it handles the messages of one connection in the
    order they were sent, accepts or refuses each, and holds the set of accepted subscriptions. */
module ServerPeer {

  /** A (un)subscription message for a set of items. */
  datatype Msg<T> = Msg(subbed: bool, items: set<T>)

  /** What the server holds after handling as many messages as there are verdicts. */
  function Served<T>(wire: seq<Msg<T>>, verdicts: seq<bool>): set<T>
    requires |verdicts| <= |wire|
  {
    if verdicts == [] then {}
    else
      var n := |verdicts| - 1;
      var held := Served(wire, verdicts[..n]);
      if !verdicts[n] then held
      else if wire[n].subbed then held + wire[n].items
      else held - wire[n].items
  }

  /** The item is held and no message still under way takes it away. */
  ghost predicate IsSafe<T>(wire: seq<Msg<T>>, verdicts: seq<bool>, item: T)
    requires |verdicts| <= |wire|
  {
    && item in Served(wire, verdicts)
    && forall j | |verdicts| <= j < |wire| && !wire[j].subbed :: item !in wire[j].items
  }

  /** Messages sent later do not matter to what was handled already. */
  lemma {:induction false} ServedOfPrefix<T>(wire: seq<Msg<T>>, more: seq<Msg<T>>, verdicts: seq<bool>)
    requires |verdicts| <= |wire|
    ensures Served(wire + more, verdicts) == Served(wire, verdicts)
  {
    if verdicts != [] {
      ServedOfPrefix(wire, more, verdicts[..|verdicts| - 1]);
    }
  }

  lemma SafeAfterSending<T>(wire: seq<Msg<T>>, verdicts: seq<bool>, msg: Msg<T>, item: T)
    requires |verdicts| <= |wire| && IsSafe(wire, verdicts, item)
    requires msg.subbed || item !in msg.items
    ensures IsSafe(wire + [msg], verdicts, item)
  {
    ServedOfPrefix(wire, [msg], verdicts);
  }

  lemma SafeAfterHandling<T>(wire: seq<Msg<T>>, verdicts: seq<bool>, verdict: bool, item: T)
    requires |verdicts| < |wire| && IsSafe(wire, verdicts, item)
    ensures IsSafe(wire, verdicts + [verdict], item)
  {
    assert (verdicts + [verdict])[..|verdicts|] == verdicts;
  }

  /** Once everything is handled, the items of an accepted last subscription are safe. */
  lemma SafeAfterAccepted<T>(wire: seq<Msg<T>>, verdicts: seq<bool>, item: T)
    requires |verdicts| == |wire| > 0 && verdicts[|wire| - 1]
    requires wire[|wire| - 1].subbed && item in wire[|wire| - 1].items
    ensures IsSafe(wire, verdicts, item)
  {
  }

  lemma {:induction false} ServedWhenAllAccepted<T>(wire: seq<Msg<T>>, verdicts: seq<bool>, item: T)
    requires |verdicts| <= |wire|
    requires forall i | 0 <= i < |verdicts| :: verdicts[i] && wire[i].subbed
    ensures item in Served(wire, verdicts) <==> exists i | 0 <= i < |verdicts| :: item in wire[i].items
  {
    if verdicts != [] {
      ServedWhenAllAccepted(wire, verdicts[..|verdicts| - 1], item);
    }
  }
}
