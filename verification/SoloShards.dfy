/** The sharded store of solo subscriptions as a value: every topic belongs to one keeper. The store
    refines one keeper. */
module SoloShards {
  import opened Wrappers
  import opened SoloSubs

  /** The bytes of a character in UTF-8 (RFC 3629, section 3). */
  function CharBytes(c: char): seq<nat> {
    var n := c as nat;
    if n < 0x80 then [n]
    else if n < 0x800 then [0xC0 + n / 0x40, 0x80 + n % 0x40]
    else if n < 0x1_0000 then [0xE0 + n / 0x1000, 0x80 + n / 0x40 % 0x40, 0x80 + n % 0x40]
    else [0xF0 + n / 0x4_0000, 0x80 + n / 0x1000 % 0x40, 0x80 + n / 0x40 % 0x40, 0x80 + n % 0x40]
  }

  function Encoded(text: string, code: char -> seq<nat>): seq<nat> {
    if text == "" then [] else Encoded(text[..|text| - 1], code) + code(text[|text| - 1])
  }

  function Bytes(text: string): seq<nat> {
    Encoded(text, CharBytes)
  }

  function Sum(bytes: seq<nat>): nat {
    if bytes == [] then 0 else Sum(bytes[..|bytes| - 1]) + bytes[|bytes| - 1]
  }

  function TopicIndex(topic: string, total: nat): (i: nat)
    requires total > 0
    ensures i < total
  {
    Sum(Bytes(topic)) % total
  }

  // ---------------------------------------------------------------- the keeper of a topic

  /** Cutting six bits off a number, and off what is left. */
  lemma SixBits(n: nat)
    ensures 0x40 * (n / 0x40) + n % 0x40 == n
    ensures n / 0x40 / 0x40 == n / 0x1000 && n / 0x1000 / 0x40 == n / 0x4_0000
  {
  }

  /** The number written by a lead byte, from where its bits begin, and by continuation bytes. */
  function Number(bytes: seq<int>, lead: int): int
    requires 1 <= |bytes| <= 4
  {
    match |bytes|
    case 1 => bytes[0]
    case 2 => (bytes[0] - lead) * 0x40 + (bytes[1] - 0x80)
    case 3 => (bytes[0] - lead) * 0x1000 + (bytes[1] - 0x80) * 0x40 + (bytes[2] - 0x80)
    case _ => (bytes[0] - lead) * 0x4_0000 + (bytes[1] - 0x80) * 0x1000 + (bytes[2] - 0x80) * 0x40 + (bytes[3] - 0x80)
  }

  /** A character is encoded by a lead byte that tells how many bytes there are and by continuation
      bytes, which together give its number back. */
  lemma CharIsEncoded(c: char)
    ensures var bytes := CharBytes(c);
      && 1 <= |bytes| <= 4
      && (|bytes| == 1 ==> bytes[0] < 0x80)
      && (|bytes| == 2 ==> 0xC0 <= bytes[0] < 0xE0)
      && (|bytes| == 3 ==> 0xE0 <= bytes[0] < 0xF0)
      && (|bytes| == 4 ==> 0xF0 <= bytes[0] < 0xF8)
      && (forall i | 0 < i < |bytes| :: 0x80 <= bytes[i] < 0xC0)
      && Number(bytes, if |bytes| == 2 then 0xC0 else if |bytes| == 3 then 0xE0 else 0xF0) == c as nat
  {
    var n := c as nat;
    SixBits(n);
    SixBits(n / 0x40);
    SixBits(n / 0x1000);
  }

  lemma {:induction false} SumOfConcat(a: seq<nat>, b: seq<nat>)
    ensures Sum(a + b) == Sum(a) + Sum(b)
  {
    if b == [] {
      assert a + b == a;
    } else {
      SumOfConcat(a, b[..|b| - 1]);
      assert (a + b)[..|a + b| - 1] == a + b[..|b| - 1];
    }
  }

  lemma {:induction false} EncodedOfConcat(a: string, b: string, code: char -> seq<nat>)
    ensures Encoded(a + b, code) == Encoded(a, code) + Encoded(b, code)
  {
    if b == "" {
      assert a + b == a;
    } else {
      EncodedOfConcat(a, b[..|b| - 1], code);
      assert (a + b)[..|a + b| - 1] == a + b[..|b| - 1];
    }
  }

  /** The sums of the bytes of two texts add up, so the index depends on what the text is made of and not
      on its order. */
  lemma BytesAddUp(a: string, b: string)
    ensures Sum(Bytes(a + b)) == Sum(Bytes(a)) + Sum(Bytes(b))
    ensures Sum(Bytes(a + b)) == Sum(Bytes(b + a))
  {
    EncodedOfConcat(a, b, CharBytes);
    EncodedOfConcat(b, a, CharBytes);
    SumOfConcat(Bytes(a), Bytes(b));
    SumOfConcat(Bytes(b), Bytes(a));
  }

  /** The index of one ASCII character, which is one byte. */
  lemma IndexOfChar(c: char, total: nat)
    requires total > 0 && c as nat < 0x80
    ensures TopicIndex([c], total) == c as nat % total
  {
    assert Encoded([c], CharBytes) == Encoded([c][..0], CharBytes) + CharBytes(c);
    assert Sum([c as nat]) == Sum([c as nat][..0]) + c as nat;
  }

  datatype Call =
    | Subscribe(topic: string)
    | Unsubscribe(topic: string)
    | UnsubscribeLocal(topic: string)
    | UnsubscribeAll
    | ConfirmSub(topic: string)
    | ConfirmUnsub(topic: string)

  /** What a call does to one keeper. */
  function Do(s: Subs, c: Call): Subs {
    match c
    case Subscribe(t) => DoSubscribe(s, t)
    case Unsubscribe(t) => DoUnsubscribe(s, t)
    case UnsubscribeLocal(t) => DoUnsubscribeLocal(s, t)
    case UnsubscribeAll => DoUnsubscribeAll(s)
    case ConfirmSub(t) => DoConfirmStored(s, true, t)
    case ConfirmUnsub(t) => DoConfirmStored(s, false, t)
  }

  /** What a call on the store does to its keepers. */
  function DoShards(shards: seq<Subs>, c: Call): seq<Subs>
    requires shards != []
  {
    if c.UnsubscribeAll? then seq(|shards|, i requires 0 <= i < |shards| => Do(shards[i], c))
    else
      var i := TopicIndex(c.topic, |shards|);
      shards[i := Do(shards[i], c)]
  }

  /** What a call does to one topic of one keeper. */
  function AtTopic(c: Call, t: string, sub: Option<Sub>): Option<Sub> {
    if !c.UnsubscribeAll? && c.topic != t then sub
    else
      match c
      case Subscribe(_) =>
        if sub.Some? && !(sub.value.confirmed && !sub.value.subbed) then sub else Some(Sub(t, false, true))
      case UnsubscribeLocal(_) => None
      case Unsubscribe(_) | UnsubscribeAll =>
        if sub.None? || IsForgettable(sub.value) then None else Some(Sub(sub.value.topic, false, false))
      case ConfirmSub(_) =>
        if sub.Some? && sub.value.subbed then Some(sub.value.(confirmed := true)) else sub
      case ConfirmUnsub(_) =>
        if sub.Some? && IsPending(sub.value) then None else sub
  }

  lemma TopicAfterSubscribe(s: Subs, topic: string, t: string)
    requires IsSubs(s)
    ensures IsSubs(DoSubscribe(s, topic))
    ensures SubOf(DoSubscribe(s, topic), t) == AtTopic(Subscribe(topic), t, SubOf(s, t))
  {
  }

  lemma TopicAfterUnsubscribe(s: Subs, topic: string, t: string)
    requires IsSubs(s)
    ensures IsSubs(DoUnsubscribe(s, topic))
    ensures SubOf(DoUnsubscribe(s, topic), t) == AtTopic(Unsubscribe(topic), t, SubOf(s, t))
  {
  }

  lemma TopicAfterConfirm(s: Subs, subbed: bool, topic: string, t: string)
    requires IsSubs(s)
    ensures IsSubs(DoConfirmStored(s, subbed, topic))
    ensures SubOf(DoConfirmStored(s, subbed, topic), t)
         == AtTopic(if subbed then ConfirmSub(topic) else ConfirmUnsub(topic), t, SubOf(s, t))
  {
  }

  lemma TopicAfterCall(s: Subs, c: Call, t: string)
    requires IsSubs(s)
    ensures IsSubs(Do(s, c)) && SubOf(Do(s, c), t) == AtTopic(c, t, SubOf(s, t))
  {
    match c
    case Subscribe(topic) => TopicAfterSubscribe(s, topic, t);
    case Unsubscribe(topic) => TopicAfterUnsubscribe(s, topic, t);
    case UnsubscribeLocal(topic) =>
    case UnsubscribeAll =>
      UnsubscribeAllIsQuiet(s);
      TopicAfterUnsubscribe(s, t, t);
    case ConfirmSub(topic) => TopicAfterConfirm(s, true, topic, t);
    case ConfirmUnsub(topic) => TopicAfterConfirm(s, false, topic, t);
  }

  /** The keeper holds the topics that belong to it, exactly as one keeper would, and no others. */
  ghost predicate IsPart(s: Subs, one: Subs, i: nat, total: nat)
    requires total > 0
  {
    forall t :: SubOf(s, t) == if TopicIndex(t, total) == i then SubOf(one, t) else None
  }

  ghost predicate Refines(shards: seq<Subs>, one: Subs) {
    && shards != []
    && IsSubs(one)
    && forall i | 0 <= i < |shards| :: IsSubs(shards[i]) && IsPart(shards[i], one, i, |shards|)
  }

  lemma CallRefines(shards: seq<Subs>, one: Subs, c: Call)
    requires Refines(shards, one)
    ensures Refines(DoShards(shards, c), Do(one, c))
  {
    var shards', one' := DoShards(shards, c), Do(one, c);
    TopicAfterCall(one, c, "");
    forall i | 0 <= i < |shards| ensures IsSubs(shards'[i]) && IsPart(shards'[i], one', i, |shards|) {
      assert IsPart(shards[i], one, i, |shards|);
      TopicAfterCall(shards[i], c, "");
      forall t ensures SubOf(shards'[i], t) == if TopicIndex(t, |shards|) == i then SubOf(one', t) else None {
        TopicAfterCall(one, c, t);
        TopicAfterCall(shards[i], c, t);
      }
    }
  }

  function KeeperAfter(calls: seq<Call>): Subs {
    if calls == [] then EMPTY
    else Do(KeeperAfter(calls[..|calls| - 1]), calls[|calls| - 1])
  }

  function ShardsAfter(size: nat, calls: seq<Call>): (shards: seq<Subs>)
    requires size > 0
    ensures |shards| == size
  {
    if calls == [] then seq(size, i => EMPTY)
    else DoShards(ShardsAfter(size, calls[..|calls| - 1]), calls[|calls| - 1])
  }

  /** After any sequence of calls the store's keepers hold disjoint parts of what one keeper would hold
      after the same calls. */
  lemma {:induction false} StoreRefinesKeeper(size: nat, calls: seq<Call>)
    requires size > 0
    ensures Refines(ShardsAfter(size, calls), KeeperAfter(calls))
  {
    if calls != [] {
      var before := calls[..|calls| - 1];
      StoreRefinesKeeper(size, before);
      CallRefines(ShardsAfter(size, before), KeeperAfter(before), calls[|calls| - 1]);
    }
  }
}
