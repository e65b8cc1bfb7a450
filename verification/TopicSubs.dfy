/** The subscribers of one server topic as a value: the parameter maps each connection is subscribed
    with, and the log of the events handed to the topic's event functions. The order in which the
    functions' goroutines run is not promised; the log is the order in which they were started. */
module TopicSubs {
  import opened TopicPattern

  /** The identity of a connection. */
  type Conn(==, !new)

  datatype Event = FirstSub | LastUnsub | Sub(conn: Conn, params: Params) | Unsub(conn: Conn, params: Params)

  type Subscribers = map<Conn, seq<Params>>

  datatype State = State(subs: Subscribers, log: seq<Event>)

  const UNBOUND := State(map[], [])

  /** Every listed connection holds some parameter maps, all different, each with exactly the
      pattern's placeholders as keys. */
  ghost predicate IsSubscribers(names: set<string>, subs: Subscribers) {
    forall c | c in subs ::
      && subs[c] != []
      && (forall p | p in subs[c] :: p.Keys == names)
      && forall i, j | 0 <= i < j < |subs[c]| :: subs[c][i] != subs[c][j]
  }

  predicate Holds(subs: Subscribers, c: Conn, p: Params) {
    c in subs && p in subs[c]
  }

  // ---------------------------------------------------------------- comparing parameters

  /** The one-directional comparison of the server. */
  predicate AreParamsEqual(p: Params, q: Params) {
    forall k | k in p :: k in q && q[k] == p[k]
  }

  /** It is equality exactly when the second map has no further key. */
  lemma ParamsEqualExactly(p: Params, q: Params)
    requires AreParamsEqual(p, q)
    ensures p == q <==> q.Keys <= p.Keys
  {
  }

  // ---------------------------------------------------------------- the operations

  function Added(s: State, c: Conn, p: Params): State {
    if Holds(s.subs, c, p) then s
    else
      var first := if s.subs == map[] then [FirstSub] else [];
      State(s.subs[c := (if c in s.subs then s.subs[c] else []) + [p]], s.log + first + [Sub(c, p)])
  }

  /** Removal of the first occurrence by moving the last element into its place. */
  function SwapRemoved<T(==)>(pp: seq<T>, p: T): seq<T> {
    if p !in pp then pp
    else
      var i := FirstIndex(pp, p);
      pp[i := pp[|pp| - 1]][..|pp| - 1]
  }

  function FirstIndex<T(==)>(pp: seq<T>, p: T): (i: nat)
    requires p in pp
    ensures i < |pp| && pp[i] == p
    ensures forall k | 0 <= k < i :: pp[k] != p
  {
    if pp[0] == p then 0 else FirstIndex(pp[1..], p) + 1
  }

  function WithList(subs: Subscribers, c: Conn, pp: seq<Params>): Subscribers {
    if pp == [] then subs - {c} else subs[c := pp]
  }

  function IfEmptied(subs: Subscribers): seq<Event> {
    if subs == map[] then [LastUnsub] else []
  }

  function Removed(s: State, c: Conn, p: Params): State {
    if c !in s.subs then s
    else
      var subs := WithList(s.subs, c, SwapRemoved(s.subs[c], p));
      State(subs, s.log + [Unsub(c, p)] + IfEmptied(subs))
  }

  function Unsubs(c: Conn, pp: seq<Params>): seq<Event> {
    seq(|pp|, i requires 0 <= i < |pp| => Unsub(c, pp[i]))
  }

  function ConnRemoved(s: State, c: Conn): State {
    if c !in s.subs then s
    else State(s.subs - {c}, s.log + Unsubs(c, s.subs[c]) + IfEmptied(s.subs - {c}))
  }

  /** Which parameter maps of which connections a drop selects. */
  type Selection = (Conn, Params) -> bool

  /** The parameter maps with the given answer, in their order. */
  function Picked(c: Conn, pp: seq<Params>, selected: Selection, answer: bool): seq<Params> {
    if pp == [] then []
    else
      var n := |pp| - 1;
      var front := Picked(c, pp[..n], selected, answer);
      if selected(c, pp[n]) == answer then front + [pp[n]] else front
  }

  /** Each connection's picked parameter maps; connections without any are left out. */
  function AllPicked(subs: Subscribers, selected: Selection, answer: bool): Subscribers {
    map c | c in subs && Picked(c, subs[c], selected, answer) != [] :: Picked(c, subs[c], selected, answer)
  }

  /** The events list exactly the unsubscriptions of the given lists, once each, in any order. */
  ghost predicate ListsUnsubs(events: seq<Event>, dropped: Subscribers) {
    forall e :: multiset(events)[e]
      == if e.Unsub? && e.conn in dropped then multiset(dropped[e.conn])[e.params] else 0
  }

  /** A drop, whatever the order of the map iteration. */
  ghost predicate IsDropped(s: State, selected: Selection, r: State) {
    && r.subs == AllPicked(s.subs, selected, false)
    && s.log <= r.log
    && exists events :: ListsUnsubs(events, AllPicked(s.subs, selected, true))
         && r.log == s.log + events + (if s.subs != map[] then IfEmptied(r.subs) else [])
  }

  // ---------------------------------------------------------------- lemmas about lists

  lemma PartsAround<T>(pp: seq<T>, i: nat)
    requires i < |pp| - 1
    ensures pp == pp[..i] + [pp[i]] + pp[i + 1..|pp| - 1] + [pp[|pp| - 1]]
  {
  }

  lemma PartsSwapped<T>(pp: seq<T>, i: nat)
    requires i < |pp| - 1
    ensures pp[i := pp[|pp| - 1]][..|pp| - 1] == pp[..i] + [pp[|pp| - 1]] + pp[i + 1..|pp| - 1]
  {
  }

  lemma ExchangedContents<T>(a: seq<T>, p: T, b: seq<T>, last: T)
    ensures multiset(a + [last] + b) == multiset(a + [p] + b + [last]) - multiset{p}
  {
    assert multiset(a + [p] + b + [last]) == multiset(a) + multiset{p} + multiset(b) + multiset{last};
    assert multiset(a + [last] + b) == multiset(a) + multiset{last} + multiset(b);
  }

  lemma SwapRemovedContents<T>(pp: seq<T>, p: T)
    requires p in pp
    ensures multiset(SwapRemoved(pp, p)) == multiset(pp) - multiset{p}
  {
    var i, n := FirstIndex(pp, p), |pp| - 1;
    if i == n {
      assert pp == pp[..n] + [p];
    } else {
      PartsAround(pp, i);
      PartsSwapped(pp, i);
      ExchangedContents(pp[..i], p, pp[i + 1..n], pp[n]);
    }
  }

  /** One occurrence less of the removed element, everything else as before. */
  lemma SwapRemovedCounts<T>(pp: seq<T>, q: T, p: T)
    ensures multiset(SwapRemoved(pp, q))[p] == multiset(pp)[p] - (if p == q && q in pp then 1 else 0)
    ensures p in SwapRemoved(pp, q) <==> multiset(SwapRemoved(pp, q))[p] > 0
    ensures p in pp <==> multiset(pp)[p] > 0
  {
    if q in pp {
      SwapRemovedContents(pp, q);
    }
  }

  lemma {:induction false} DistinctCounts<T>(pp: seq<T>, p: T)
    requires forall i, j | 0 <= i < j < |pp| :: pp[i] != pp[j]
    ensures multiset(pp)[p] == if p in pp then 1 else 0
  {
    if pp != [] {
      var n := |pp| - 1;
      assert pp == pp[..n] + [pp[n]];
      DistinctCounts(pp[..n], p);
    }
  }

  lemma {:induction false} CountsAreDistinct(pp: seq<Params>)
    requires forall p :: multiset(pp)[p] <= 1
    ensures forall i, j | 0 <= i < j < |pp| :: pp[i] != pp[j]
  {
    if pp != [] {
      var n := |pp| - 1;
      assert pp == pp[..n] + [pp[n]];
      forall p ensures multiset(pp[..n])[p] <= 1 {
        assert multiset(pp)[p] <= 1;
      }
      CountsAreDistinct(pp[..n]);
      assert multiset(pp)[pp[n]] <= 1;
    }
  }

  /** What is picked keeps its multiplicity, the rest is gone. */
  lemma {:induction false} PickedCounts(c: Conn, pp: seq<Params>, selected: Selection, answer: bool, p: Params)
    ensures multiset(Picked(c, pp, selected, answer))[p]
         == if selected(c, p) == answer then multiset(pp)[p] else 0
  {
    if pp != [] {
      assert pp == pp[..|pp| - 1] + [pp[|pp| - 1]];
      PickedCounts(c, pp[..|pp| - 1], selected, answer, p);
    }
  }

  /** Picking looks at one parameter map after the other and keeps their order. */
  lemma {:induction false} PickedOfConcat(c: Conn, pp: seq<Params>, qq: seq<Params>, selected: Selection, answer: bool)
    ensures Picked(c, pp + qq, selected, answer)
         == Picked(c, pp, selected, answer) + Picked(c, qq, selected, answer)
  {
    if qq == [] {
      assert pp + qq == pp;
    } else {
      var n := |qq| - 1;
      PickedOfConcat(c, pp, qq[..n], selected, answer);
      assert (pp + qq)[..|pp + qq| - 1] == pp + qq[..n];
    }
  }

  lemma PickedOfOne(c: Conn, p: Params, selected: Selection, answer: bool)
    ensures Picked(c, [p], selected, answer) == if selected(c, p) == answer then [p] else []
  {
    assert [p][..0] == [];
  }

  /** Dropped and kept together are the old contents. */
  lemma PickedPartition(c: Conn, pp: seq<Params>, selected: Selection)
    ensures multiset(Picked(c, pp, selected, true)) + multiset(Picked(c, pp, selected, false)) == multiset(pp)
  {
    forall p
      ensures (multiset(Picked(c, pp, selected, true)) + multiset(Picked(c, pp, selected, false)))[p] == multiset(pp)[p]
    {
      PickedCounts(c, pp, selected, true, p);
      PickedCounts(c, pp, selected, false, p);
    }
  }

  /** A list with the elements of a well-formed one, possibly fewer, is well-formed. */
  lemma SublistIsSubscriber(names: set<string>, subs: Subscribers, c: Conn, qq: seq<Params>)
    requires IsSubscribers(names, subs) && c in subs
    requires forall p :: multiset(qq)[p] <= multiset(subs[c])[p]
    ensures forall p | p in qq :: p.Keys == names
    ensures forall i, j | 0 <= i < j < |qq| :: qq[i] != qq[j]
  {
    forall p ensures multiset(qq)[p] <= 1 {
      DistinctCounts(subs[c], p);
    }
    CountsAreDistinct(qq);
    forall p | p in qq ensures p.Keys == names {
      assert multiset(qq)[p] > 0;
      assert p in subs[c];
    }
  }

  lemma AllPickedHolds(names: set<string>, subs: Subscribers, selected: Selection, answer: bool, c: Conn, p: Params)
    requires IsSubscribers(names, subs)
    ensures Holds(AllPicked(subs, selected, answer), c, p) <==> Holds(subs, c, p) && selected(c, p) == answer
  {
    if c in subs {
      PickedCounts(c, subs[c], selected, answer, p);
      assert p in subs[c] <==> multiset(subs[c])[p] > 0;
      assert p in Picked(c, subs[c], selected, answer) <==> multiset(Picked(c, subs[c], selected, answer))[p] > 0;
    }
  }

  lemma AllPickedKeeps(names: set<string>, subs: Subscribers, selected: Selection, answer: bool)
    requires IsSubscribers(names, subs)
    ensures IsSubscribers(names, AllPicked(subs, selected, answer))
  {
    forall c | c in AllPicked(subs, selected, answer)
      ensures var qq := Picked(c, subs[c], selected, answer);
        && (forall p | p in qq :: p.Keys == names)
        && forall i, j | 0 <= i < j < |qq| :: qq[i] != qq[j]
    {
      forall p ensures multiset(Picked(c, subs[c], selected, answer))[p] <= multiset(subs[c])[p] {
        PickedCounts(c, subs[c], selected, answer, p);
      }
      SublistIsSubscriber(names, subs, c, Picked(c, subs[c], selected, answer));
    }
  }

  // ---------------------------------------------------------------- runs

  datatype Op =
    | Add(conn: Conn, params: Params)
    | Remove(conn: Conn, params: Params)
    | RemoveConn(conn: Conn)
    | Drop(selected: Selection)

  /** One operation of the topic. The router only passes parameters captured by the pattern. */
  ghost predicate Step(names: set<string>, s: State, op: Op, r: State) {
    match op
    case Add(c, p) => p.Keys == names && r == Added(s, c, p)
    case Remove(c, p) => p.Keys == names && r == Removed(s, c, p)
    case RemoveConn(c) => r == ConnRemoved(s, c)
    case Drop(selected) => IsDropped(s, selected, r)
  }

  ghost predicate IsRun(names: set<string>, states: seq<State>, ops: seq<Op>) {
    && |states| == |ops| + 1
    && states[0] == UNBOUND
    && forall i | 0 <= i < |ops| :: Step(names, states[i], ops[i], states[i + 1])
  }

  /** The first-sub and last-unsub events of a log. */
  function Marks(log: seq<Event>): seq<Event> {
    if log == [] then []
    else
      var n := |log| - 1;
      if log[n].FirstSub? || log[n].LastUnsub? then Marks(log[..n]) + [log[n]] else Marks(log[..n])
  }

  predicate Alternates(marks: seq<Event>) {
    forall i | 0 <= i < |marks| :: marks[i] == if i % 2 == 0 then FirstSub else LastUnsub
  }

  /** The marks alternate, and the topic has subscribers exactly after a first-sub event. */
  ghost predicate IsMarked(s: State) {
    Alternates(Marks(s.log)) && (s.subs != map[] <==> |Marks(s.log)| % 2 == 1)
  }

  lemma {:induction false} MarksOfConcat(log: seq<Event>, more: seq<Event>)
    ensures Marks(log + more) == Marks(log) + Marks(more)
  {
    if more == [] {
      assert log + more == log;
    } else {
      var n := |more| - 1;
      MarksOfConcat(log, more[..n]);
      assert (log + more)[..|log + more| - 1] == log + more[..n];
    }
  }

  lemma {:induction false} NoMarks(events: seq<Event>)
    requires forall e | e in events :: e.Sub? || e.Unsub?
    ensures Marks(events) == []
  {
    if events != [] {
      NoMarks(events[..|events| - 1]);
      assert events[|events| - 1] in events;
    }
  }

  lemma OneMark(e: Event)
    ensures Marks([e]) == if e.FirstSub? || e.LastUnsub? then [e] else []
  {
    assert [e][..0] == [];
  }

  /** Unsubscription events, followed by a last-unsub event when the topic was emptied. */
  lemma MarkedAfterUnsubs(s: State, events: seq<Event>, subs: Subscribers)
    requires IsMarked(s) && s.subs != map[]
    requires forall e | e in events :: e.Sub? || e.Unsub?
    ensures IsMarked(State(subs, s.log + events + IfEmptied(subs)))
  {
    MarksAfterUnsubs(s.log, events, subs);
  }

  lemma MarksAfterUnsubs(log: seq<Event>, events: seq<Event>, subs: Subscribers)
    requires forall e | e in events :: e.Sub? || e.Unsub?
    ensures Marks(log + events + IfEmptied(subs)) == Marks(log) + IfEmptied(subs)
  {
    NoMarks(events);
    MarksOfConcat(log, events);
    assert Marks(log + events) == Marks(log);
    MarksOfConcat(log + events, IfEmptied(subs));
    OneMark(LastUnsub);
    assert Marks(IfEmptied(subs)) == IfEmptied(subs);
  }

  lemma MarksOfAdd(log: seq<Event>, first: bool, c: Conn, p: Params)
    ensures Marks(log + (if first then [FirstSub] else []) + [Sub(c, p)])
         == if first then Marks(log) + [FirstSub] else Marks(log)
  {
    var more := if first then [FirstSub] else [];
    MarksOfConcat(log, more);
    MarksOfConcat(log + more, [Sub(c, p)]);
    OneMark(FirstSub);
    OneMark(Sub(c, p));
  }

  lemma MarkedAfterAdd(s: State, c: Conn, p: Params)
    requires IsMarked(s)
    ensures IsMarked(Added(s, c, p))
  {
    if !Holds(s.subs, c, p) {
      MarksOfAdd(s.log, s.subs == map[], c, p);
      assert c in Added(s, c, p).subs;
    }
  }

  lemma DroppedHaveNoMarks(events: seq<Event>, dropped: Subscribers)
    requires ListsUnsubs(events, dropped)
    ensures forall e | e in events :: e.Unsub?
  {
    forall e | e in events ensures e.Unsub? {
      assert multiset(events)[e] > 0;
    }
  }

  lemma StepKeepsMarks(names: set<string>, s: State, op: Op, r: State)
    requires IsSubscribers(names, s.subs) && IsMarked(s) && Step(names, s, op, r)
    ensures IsMarked(r)
  {
    match op
    case Add(c, p) => MarkedAfterAdd(s, c, p);
    case Remove(c, p) =>
      if c in s.subs {
        MarkedAfterUnsubs(s, [Unsub(c, p)], r.subs);
      }
    case RemoveConn(c) =>
      if c in s.subs {
        MarkedAfterUnsubs(s, Unsubs(c, s.subs[c]), r.subs);
      }
    case Drop(selected) =>
      var events :| ListsUnsubs(events, AllPicked(s.subs, selected, true))
        && r.log == s.log + events + (if s.subs != map[] then IfEmptied(r.subs) else []);
      DroppedHaveNoMarks(events, AllPicked(s.subs, selected, true));
      if s.subs != map[] {
        MarkedAfterUnsubs(s, events, r.subs);
      } else {
        NoMarks(events);
        MarksOfConcat(s.log, events);
        assert r.log == s.log + events;
      }
  }

  lemma AddKeepsSubscribers(names: set<string>, s: State, c: Conn, p: Params)
    requires IsSubscribers(names, s.subs) && p.Keys == names
    ensures IsSubscribers(names, Added(s, c, p).subs)
  {
  }

  lemma WithListIsSubscribers(names: set<string>, subs: Subscribers, c: Conn, pp: seq<Params>)
    requires IsSubscribers(names, subs)
    requires forall p | p in pp :: p.Keys == names
    requires forall i, j | 0 <= i < j < |pp| :: pp[i] != pp[j]
    ensures IsSubscribers(names, WithList(subs, c, pp))
  {
  }

  lemma RemoveKeepsSubscribers(names: set<string>, s: State, c: Conn, p: Params)
    requires IsSubscribers(names, s.subs)
    ensures IsSubscribers(names, Removed(s, c, p).subs)
  {
    if c in s.subs && p in s.subs[c] {
      var rest := SwapRemoved(s.subs[c], p);
      forall q ensures multiset(rest)[q] <= multiset(s.subs[c])[q] {
        SwapRemovedCounts(s.subs[c], p, q);
      }
      SublistIsSubscriber(names, s.subs, c, rest);
      WithListIsSubscribers(names, s.subs, c, rest);
    }
  }

  lemma StepKeepsSubscribers(names: set<string>, s: State, op: Op, r: State)
    requires IsSubscribers(names, s.subs) && Step(names, s, op, r)
    ensures IsSubscribers(names, r.subs)
  {
    match op
    case Add(c, p) => AddKeepsSubscribers(names, s, c, p);
    case Remove(c, p) => RemoveKeepsSubscribers(names, s, c, p);
    case RemoveConn(c) =>
    case Drop(selected) => AllPickedKeeps(names, s.subs, selected, false);
  }

  /** In every run the stored lists are well-formed, and first-sub and last-unsub events strictly
      alternate, starting with first-sub; the topic has subscribers exactly when the last of them is
      a first-sub event. */
  lemma {:induction false} RunKeeps(names: set<string>, states: seq<State>, ops: seq<Op>)
    requires IsRun(names, states, ops)
    ensures IsSubscribers(names, states[|ops|].subs) && IsMarked(states[|ops|])
  {
    if ops != [] {
      var n := |ops| - 1;
      RunKeeps(names, states[..n + 1], ops[..n]);
      StepKeepsSubscribers(names, states[n], ops[n], states[n + 1]);
      StepKeepsMarks(names, states[n], ops[n], states[n + 1]);
    }
  }

  // ---------------------------------------------------------------- conservation of events

  /** Sub events minus unsub events of a pair. */
  function Balance(log: seq<Event>, c: Conn, p: Params): int {
    multiset(log)[Sub(c, p)] as int - multiset(log)[Unsub(c, p)] as int
  }

  function AsNumber(b: bool): int {
    if b then 1 else 0
  }

  /** The connection was subscribed and asked to remove parameters it did not hold. */
  predicate IsMiss(s: State, op: Op, c: Conn, p: Params) {
    op.Remove? && op.conn == c && op.params == p && c in s.subs && p !in s.subs[c]
  }

  function Misses(states: seq<State>, ops: seq<Op>, c: Conn, p: Params): nat
    requires |states| == |ops| + 1
  {
    if ops == [] then 0
    else
      var n := |ops| - 1;
      Misses(states[..n + 1], ops[..n], c, p) + (if IsMiss(states[n], ops[n], c, p) then 1 else 0)
  }

  lemma BalanceOfConcat(log: seq<Event>, more: seq<Event>, c: Conn, p: Params)
    ensures Balance(log + more, c, p) == Balance(log, c, p) + Balance(more, c, p)
  {
    assert multiset(log + more) == multiset(log) + multiset(more);
  }

  lemma {:induction false} UnsubsCount(c: Conn, pp: seq<Params>, d: Conn, p: Params)
    ensures multiset(Unsubs(c, pp))[Unsub(d, p)] == if c == d then multiset(pp)[p] else 0
    ensures multiset(Unsubs(c, pp))[Sub(d, p)] == 0
  {
    if pp != [] {
      var n := |pp| - 1;
      UnsubsCount(c, pp[..n], d, p);
      assert pp == pp[..n] + [pp[n]];
      assert Unsubs(c, pp) == Unsubs(c, pp[..n]) + [Unsub(c, pp[n])];
    }
  }

  /** Swap removal takes away exactly one element, of exactly one list. */
  lemma HoldsAfterRemove(names: set<string>, subs: Subscribers, c: Conn, q: Params, d: Conn, p: Params)
    requires IsSubscribers(names, subs) && c in subs
    ensures Holds(WithList(subs, c, SwapRemoved(subs[c], q)), d, p) <==> Holds(subs, d, p) && !(d == c && p == q)
  {
    SwapRemovedCounts(subs[c], q, p);
    DistinctCounts(subs[c], p);
  }

  lemma RemoveBalances(names: set<string>, s: State, c: Conn, q: Params, d: Conn, p: Params)
    requires IsSubscribers(names, s.subs)
    ensures Balance(Removed(s, c, q).log, d, p) - Balance(s.log, d, p)
         == AsNumber(Holds(Removed(s, c, q).subs, d, p)) - AsNumber(Holds(s.subs, d, p))
            - AsNumber(IsMiss(s, Remove(c, q), d, p))
  {
    if c in s.subs {
      var subs := Removed(s, c, q).subs;
      BalanceOfConcat(s.log, [Unsub(c, q)], d, p);
      BalanceOfConcat(s.log + [Unsub(c, q)], IfEmptied(subs), d, p);
      HoldsAfterRemove(names, s.subs, c, q, d, p);
    }
  }

  lemma HoldsAfterAdd(s: State, c: Conn, q: Params, d: Conn, p: Params)
    ensures Holds(Added(s, c, q).subs, d, p) <==> Holds(s.subs, d, p) || (d == c && p == q)
  {
  }

  lemma AddBalances(s: State, c: Conn, q: Params, d: Conn, p: Params)
    ensures Balance(Added(s, c, q).log, d, p) - Balance(s.log, d, p)
         == AsNumber(Holds(Added(s, c, q).subs, d, p)) - AsNumber(Holds(s.subs, d, p))
  {
    HoldsAfterAdd(s, c, q, d, p);
    if !Holds(s.subs, c, q) {
      var first := if s.subs == map[] then [FirstSub] else [];
      BalanceOfConcat(s.log, first, d, p);
      BalanceOfConcat(s.log + first, [Sub(c, q)], d, p);
    }
  }

  lemma RemoveConnBalances(names: set<string>, s: State, c: Conn, d: Conn, p: Params)
    requires IsSubscribers(names, s.subs)
    ensures Balance(ConnRemoved(s, c).log, d, p) - Balance(s.log, d, p)
         == AsNumber(Holds(ConnRemoved(s, c).subs, d, p)) - AsNumber(Holds(s.subs, d, p))
  {
    if c in s.subs {
      BalanceOfConcat(s.log, Unsubs(c, s.subs[c]), d, p);
      BalanceOfConcat(s.log + Unsubs(c, s.subs[c]), IfEmptied(s.subs - {c}), d, p);
      UnsubsCount(c, s.subs[c], d, p);
      DistinctCounts(s.subs[c], p);
    }
  }

  lemma DropBalances(names: set<string>, s: State, selected: Selection, r: State, d: Conn, p: Params)
    requires IsSubscribers(names, s.subs) && IsDropped(s, selected, r)
    ensures Balance(r.log, d, p) - Balance(s.log, d, p)
         == AsNumber(Holds(r.subs, d, p)) - AsNumber(Holds(s.subs, d, p))
  {
    var dropped := AllPicked(s.subs, selected, true);
    var events :| ListsUnsubs(events, dropped)
      && r.log == s.log + events + (if s.subs != map[] then IfEmptied(r.subs) else []);
    BalanceOfConcat(s.log, events, d, p);
    BalanceOfConcat(s.log + events, if s.subs != map[] then IfEmptied(r.subs) else [], d, p);
    AllPickedHolds(names, s.subs, selected, true, d, p);
    AllPickedHolds(names, s.subs, selected, false, d, p);
    AllPickedKeeps(names, s.subs, selected, true);
    assert multiset(events)[Sub(d, p)] == 0;
    if d in dropped {
      DistinctCounts(dropped[d], p);
    }
  }

  lemma StepBalances(names: set<string>, s: State, op: Op, r: State, c: Conn, p: Params)
    requires IsSubscribers(names, s.subs) && Step(names, s, op, r)
    ensures Balance(r.log, c, p) - Balance(s.log, c, p)
         == AsNumber(Holds(r.subs, c, p)) - AsNumber(Holds(s.subs, c, p)) - AsNumber(IsMiss(s, op, c, p))
  {
    match op
    case Add(d, q) => AddBalances(s, d, q, c, p);
    case Remove(d, q) => RemoveBalances(names, s, d, q, c, p);
    case RemoveConn(d) => RemoveConnBalances(names, s, d, c, p);
    case Drop(selected) => DropBalances(names, s, selected, r, c, p);
  }

  // ---------------------------------------------------------------- what one operation does

  /** Adding gives the pair, removing takes it, removing a connection takes all its pairs, and a drop
      takes the selected ones; no other pair changes. */
  lemma StepHolds(names: set<string>, s: State, op: Op, r: State, c: Conn, p: Params)
    requires IsSubscribers(names, s.subs) && Step(names, s, op, r)
    ensures Holds(r.subs, c, p) <==>
      match op
      case Add(d, q) => Holds(s.subs, c, p) || (c == d && p == q)
      case Remove(d, q) => Holds(s.subs, c, p) && !(c == d && p == q)
      case RemoveConn(d) => Holds(s.subs, c, p) && c != d
      case Drop(selected) => Holds(s.subs, c, p) && !selected(c, p)
  {
    match op
    case Add(d, q) => HoldsAfterAdd(s, d, q, c, p);
    case Remove(d, q) =>
      if d in s.subs {
        HoldsAfterRemove(names, s.subs, d, q, c, p);
      }
    case RemoveConn(d) =>
    case Drop(selected) => AllPickedHolds(names, s.subs, selected, false, c, p);
  }

  /** The lists of the connections that an operation does not name stay the same, order included. */
  lemma OthersKeepLists(names: set<string>, s: State, op: Op, r: State, c: Conn)
    requires Step(names, s, op, r) && !op.Drop? && c != op.conn
    ensures c in r.subs <==> c in s.subs
    ensures c in s.subs ==> r.subs[c] == s.subs[c]
  {
  }

  /** How often an operation's event functions are started for a pair. */
  predicate LogsPair(s: State, op: Op, r: State, c: Conn, p: Params) {
    && multiset(r.log)[Sub(c, p)] as int - multiset(s.log)[Sub(c, p)] as int
         == AsNumber(op.Add? && op.conn == c && op.params == p && !Holds(s.subs, c, p))
    && multiset(r.log)[Unsub(c, p)] as int - multiset(s.log)[Unsub(c, p)] as int
         == (match op
             case Add(_, _) => 0
             case Remove(d, q) => AsNumber(d == c && q == p && c in s.subs)
             case RemoveConn(d) => AsNumber(d == c && Holds(s.subs, c, p))
             case Drop(selected) => AsNumber(Holds(s.subs, c, p) && selected(c, p)))
  }

  lemma EventCountOfConcat(log: seq<Event>, more: seq<Event>, e: Event)
    ensures multiset(log + more)[e] == multiset(log)[e] + multiset(more)[e]
  {
    assert multiset(log + more) == multiset(log) + multiset(more);
  }

  lemma AddLogsSub(s: State, d: Conn, q: Params, c: Conn, p: Params)
    ensures s.log <= Added(s, d, q).log
    ensures multiset(Added(s, d, q).log)[Sub(c, p)] - multiset(s.log)[Sub(c, p)]
         == AsNumber(d == c && q == p && !Holds(s.subs, c, p))
  {
    if !Holds(s.subs, d, q) {
      var first := if s.subs == map[] then [FirstSub] else [];
      EventCountOfConcat(s.log, first, Sub(c, p));
      EventCountOfConcat(s.log + first, [Sub(d, q)], Sub(c, p));
    }
  }

  lemma UnsubsLogNoSub(log: seq<Event>, events: seq<Event>, last: seq<Event>, e: Event)
    requires e.Sub? && e !in events && e !in last
    ensures log <= log + events + last
    ensures multiset(log + events + last)[e] == multiset(log)[e]
  {
    EventCountOfConcat(log, events, e);
    EventCountOfConcat(log + events, last, e);
  }

  lemma DropLogsNoSub(s: State, selected: Selection, r: State, e: Event)
    requires IsDropped(s, selected, r) && e.Sub?
    ensures s.log <= r.log && multiset(r.log)[e] == multiset(s.log)[e]
  {
    var events :| ListsUnsubs(events, AllPicked(s.subs, selected, true))
      && r.log == s.log + events + (if s.subs != map[] then IfEmptied(r.subs) else []);
    DroppedHaveNoMarks(events, AllPicked(s.subs, selected, true));
    UnsubsLogNoSub(s.log, events, if s.subs != map[] then IfEmptied(r.subs) else [], e);
  }

  lemma StepLogsSub(names: set<string>, s: State, op: Op, r: State, c: Conn, p: Params)
    requires Step(names, s, op, r)
    ensures s.log <= r.log
    ensures multiset(r.log)[Sub(c, p)] - multiset(s.log)[Sub(c, p)]
         == AsNumber(op.Add? && op.conn == c && op.params == p && !Holds(s.subs, c, p))
  {
    match op
    case Add(d, q) => AddLogsSub(s, d, q, c, p);
    case Remove(d, q) =>
      if d in s.subs {
        UnsubsLogNoSub(s.log, [Unsub(d, q)], IfEmptied(r.subs), Sub(c, p));
      }
    case RemoveConn(d) =>
      if d in s.subs {
        UnsubsLogNoSub(s.log, Unsubs(d, s.subs[d]), IfEmptied(r.subs), Sub(c, p));
      }
    case Drop(selected) => DropLogsNoSub(s, selected, r, Sub(c, p));
  }

  /** The events of one operation for a pair: a subscription once when the pair was not held, an
      unsubscription once when the pair is taken away or a removal missed it, and no others. */
  lemma StepLogs(names: set<string>, s: State, op: Op, r: State, c: Conn, p: Params)
    requires IsSubscribers(names, s.subs) && Step(names, s, op, r)
    ensures s.log <= r.log && LogsPair(s, op, r, c, p)
  {
    StepLogsSub(names, s, op, r, c, p);
    StepBalances(names, s, op, r, c, p);
    StepHolds(names, s, op, r, c, p);
  }

  /** The events that an operation started. */
  function NewEvents(s: State, r: State): seq<Event>
    requires s.log <= r.log
  {
    r.log[|s.log|..]
  }

  /** First-sub comes first, exactly when the topic got its first connection, and last-unsub comes
      last, exactly when it lost its last one. */
  predicate AreMarkedAt(more: seq<Event>, before: Subscribers, after: Subscribers) {
    && (forall i | 0 <= i < |more| :: more[i] == FirstSub <==> i == 0 && before == map[] && after != map[])
    && (forall i | 0 <= i < |more| :: more[i] == LastUnsub <==> i == |more| - 1 && before != map[] && after == map[])
    && ((before == map[]) != (after == map[]) ==> more != [])
  }

  lemma UnsubsAreMarkedAt(events: seq<Event>, before: Subscribers, after: Subscribers)
    requires forall e | e in events :: e.Unsub?
    requires before == map[] ==> after == map[]
    ensures AreMarkedAt(events + (if before != map[] then IfEmptied(after) else []), before, after)
  {
    var more := events + (if before != map[] then IfEmptied(after) else []);
    forall i | 0 <= i < |events| ensures more[i].Unsub? {
      assert events[i] in events;
    }
  }

  lemma StepMarks(names: set<string>, s: State, op: Op, r: State)
    requires Step(names, s, op, r)
    ensures s.log <= r.log && AreMarkedAt(NewEvents(s, r), s.subs, r.subs)
  {
    match op
    case Add(c, p) =>
      assert c in r.subs;
      if !Holds(s.subs, c, p) {
        assert NewEvents(s, r) == (if s.subs == map[] then [FirstSub] else []) + [Sub(c, p)];
      } else {
        assert NewEvents(s, r) == [];
      }
    case Remove(c, p) =>
      var events := if c in s.subs then [Unsub(c, p)] else [];
      UnsubsAreMarkedAt(events, s.subs, r.subs);
      assert NewEvents(s, r) == events + (if s.subs != map[] then IfEmptied(r.subs) else []);
    case RemoveConn(c) =>
      var events := if c in s.subs then Unsubs(c, s.subs[c]) else [];
      UnsubsAreMarkedAt(events, s.subs, r.subs);
      assert NewEvents(s, r) == events + (if s.subs != map[] then IfEmptied(r.subs) else []);
    case Drop(selected) =>
      var events :| ListsUnsubs(events, AllPicked(s.subs, selected, true))
        && r.log == s.log + events + (if s.subs != map[] then IfEmptied(r.subs) else []);
      DroppedHaveNoMarks(events, AllPicked(s.subs, selected, true));
      UnsubsAreMarkedAt(events, s.subs, r.subs);
      assert NewEvents(s, r) == events + (if s.subs != map[] then IfEmptied(r.subs) else []);
  }

  /** In every run, for every pair, sub events minus unsub events are one when the pair is held and
      zero otherwise, less one for each removal that missed. */
  lemma {:induction false} EventsAreConserved(names: set<string>, states: seq<State>, ops: seq<Op>, c: Conn, p: Params)
    requires IsRun(names, states, ops)
    ensures Balance(states[|ops|].log, c, p)
         == AsNumber(Holds(states[|ops|].subs, c, p)) - Misses(states, ops, c, p)
  {
    if ops != [] {
      var n := |ops| - 1;
      EventsAreConserved(names, states[..n + 1], ops[..n], c, p);
      RunKeeps(names, states[..n + 1], ops[..n]);
      StepBalances(names, states[n], ops[n], states[n + 1], c, p);
    }
  }
}
