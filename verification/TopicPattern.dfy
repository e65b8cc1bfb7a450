/** Topic patterns of the server: how a bound text becomes a pattern, how a request is matched
    against the bound patterns and how a pattern is formatted with captured parameters. */
module TopicPattern {
  import opened Wrappers
  import opened TopicText

  type Params = map<string, string>

  datatype PathElem = PathElem(placeholder: bool, value: string)

  datatype Pattern = Pattern(topic: Topic, path: seq<PathElem>, hasPlaceholders: bool)

  // ---------------------------------------------------------------- building a pattern

  predicate IsPlaceholderText(e: string) {
    |e| > 0 && e[0] == '{' && e[|e| - 1] == '}'
  }

  function ElemOf(e: string): PathElem {
    if IsPlaceholderText(e) then PathElem(true, e[1..|e| - 1]) else PathElem(false, e)
  }

  function PatternOf(t: Topic): Pattern {
    Pattern(t, seq(|t.path|, i requires 0 <= i < |t.path| => ElemOf(t.path[i])),
            exists e | e in t.path :: IsPlaceholderText(e))
  }

  /** An element between braces becomes a placeholder named by what is between them; any other element
      stays as it is. */
  method NewPattern(t: Topic) returns (p: Pattern)
    ensures p == PatternOf(t)
    ensures p.topic == t && |p.path| == |t.path|
    ensures forall i | 0 <= i < |t.path| ::
      t.path[i] == if p.path[i].placeholder then "{" + p.path[i].value + "}" else p.path[i].value
    ensures forall i | 0 <= i < |t.path| ::
      p.path[i].placeholder <==> "{" <= t.path[i] && t.path[i] != "" && t.path[i][|t.path[i]| - 1] == '}'
    ensures p.hasPlaceholders <==> exists i | 0 <= i < |t.path| :: p.path[i].placeholder
  {
    var path: seq<PathElem> := [];
    var hasPlaceholders := false;
    for i := 0 to |t.path|
      invariant |path| == i
      invariant forall j | 0 <= j < i :: path[j] == ElemOf(t.path[j])
      invariant hasPlaceholders <==> exists e | e in t.path[..i] :: IsPlaceholderText(e)
    {
      var elem := t.path[i];
      assert t.path[..i + 1] == t.path[..i] + [elem];
      if |elem| > 0 && elem[0] == '{' && elem[|elem| - 1] == '}' {
        path := path + [PathElem(true, elem[1..|elem| - 1])];
        hasPlaceholders := true;
      } else {
        path := path + [PathElem(false, elem)];
      }
    }
    assert t.path[..|t.path|] == t.path;
    p := Pattern(t, path, hasPlaceholders);
  }

  /** The names of a pattern's placeholders. */
  function Names(elems: seq<PathElem>): set<string> {
    set i | 0 <= i < |elems| && elems[i].placeholder :: elems[i].value
  }

  // ---------------------------------------------------------------- matching one pattern

  predicate Fits(p: Pattern, req: Topic) {
    && p.topic.operation == req.operation
    && |p.path| == |req.path|
    && forall i | 0 <= i < |p.path| :: p.path[i].placeholder || p.path[i].value == req.path[i]
  }

  /** The parameters captured from the elements; a later placeholder overwrites an earlier one
      of the same name. */
  function Captured(elems: seq<PathElem>, path: seq<string>): Params
    requires |elems| == |path|
  {
    if |elems| == 0 then map[]
    else
      var n := |elems| - 1;
      var params := Captured(elems[..n], path[..n]);
      if elems[n].placeholder then params[elems[n].value := path[n]] else params
  }

  lemma {:induction false} CapturedKeys(elems: seq<PathElem>, path: seq<string>)
    requires |elems| == |path|
    ensures Captured(elems, path).Keys == Names(elems)
  {
    if |elems| > 0 {
      var n := |elems| - 1;
      CapturedKeys(elems[..n], path[..n]);
      forall name ensures name in Names(elems)
                      <==> name in Names(elems[..n]) || (elems[n].placeholder && name == elems[n].value) {
        if name in Names(elems[..n]) {
          var i :| 0 <= i < n && elems[..n][i].placeholder && elems[..n][i].value == name;
          assert elems[i].placeholder && elems[i].value == name;
        }
        if name in Names(elems) {
          var i :| 0 <= i < |elems| && elems[i].placeholder && elems[i].value == name;
          assert i < n ==> elems[..n][i] == elems[i];
        }
      }
    }
  }

  /** A placeholder's parameter is the request's element at its last occurrence. */
  lemma {:induction false} CapturedValue(elems: seq<PathElem>, path: seq<string>, i: nat) returns (last: nat)
    requires |elems| == |path|
    requires i < |elems| && elems[i].placeholder
    ensures i <= last < |elems| && elems[last] == elems[i]
    ensures forall j | last < j < |elems| :: elems[j] != elems[i]
    ensures elems[i].value in Captured(elems, path)
    ensures Captured(elems, path)[elems[i].value] == path[last]
  {
    var n := |elems| - 1;
    if elems[n] == elems[i] {
      return n;
    }
    last := CapturedValue(elems[..n], path[..n], i);
  }

  /** One step of the router's search: the parameters when the request fits the pattern. */
  method Match(p: Pattern, req: Topic) returns (params: Option<Params>)
    ensures params == if Fits(p, req) then Some(Captured(p.path, req.path)) else None
  {
    if p.topic.operation != req.operation || |p.path| != |req.path| {
      return None;
    }
    var captured: Params := map[];
    for i := 0 to |p.path|
      invariant forall k | 0 <= k < i :: p.path[k].placeholder || p.path[k].value == req.path[k]
      invariant captured == Captured(p.path[..i], req.path[..i])
    {
      assert p.path[..i + 1][..i] == p.path[..i] && req.path[..i + 1][..i] == req.path[..i];
      if p.path[i].placeholder {
        captured := captured[p.path[i].value := req.path[i]];
      } else if p.path[i].value != req.path[i] {
        return None;
      }
    }
    assert p.path[..|p.path|] == p.path && req.path[..|p.path|] == req.path;
    params := Some(captured);
  }

  // ---------------------------------------------------------------- formatting

  function ParamOr(params: Params, name: string): string {
    if name in params then params[name] else ""
  }

  function FormattedPath(p: Pattern, params: Params): seq<string> {
    seq(|p.path|, i requires 0 <= i < |p.path| =>
      if p.path[i].placeholder then ParamOr(params, p.path[i].value) else p.path[i].value)
  }

  function Formatted(p: Pattern, params: Params): string {
    Print(p.topic.(path := FormattedPath(p, params)))
  }

  method Format(p: Pattern, params: Params) returns (text: string)
    ensures text == Formatted(p, params)
  {
    var path: seq<string> := [];
    for i := 0 to |p.path|
      invariant path == FormattedPath(p, params)[..i]
    {
      var v := p.path[i].value;
      if p.path[i].placeholder {
        v := ParamOr(params, v);
      }
      path := path + [v];
    }
    assert path == FormattedPath(p, params);
    text := Print(p.topic.(path := path));
  }

  /** A placeholder shows its parameter, or nothing when there is none; other elements show themselves. */
  lemma FormattedElement(p: Pattern, params: Params, i: nat)
    requires i < |p.path|
    ensures |FormattedPath(p, params)| == |p.path|
    ensures !p.path[i].placeholder ==> FormattedPath(p, params)[i] == p.path[i].value
    ensures p.path[i].placeholder && p.path[i].value in params ==>
      FormattedPath(p, params)[i] == params[p.path[i].value]
    ensures p.path[i].placeholder && p.path[i].value !in params ==> FormattedPath(p, params)[i] == ""
  {
  }

  /** A pattern under another descriptor, as publishing and dropping use it. */
  function Under(p: Pattern, descriptor: string): Pattern {
    p.(topic := p.topic.(descriptor := descriptor))
  }

  /** Placeholders of one name stand for equal elements of the path. */
  ghost predicate Consistent(elems: seq<PathElem>, path: seq<string>)
    requires |elems| == |path|
  {
    forall i, j | 0 <= i < j < |elems| && elems[i].placeholder && elems[j] == elems[i] ::
      path[i] == path[j]
  }

  lemma FormattedPathOfCaptured(p: Pattern, req: Topic)
    requires Fits(p, req)
    ensures FormattedPath(p, Captured(p.path, req.path)) == req.path <==> Consistent(p.path, req.path)
    ensures forall e | e in FormattedPath(p, Captured(p.path, req.path)) :: e in req.path
  {
    var params := Captured(p.path, req.path);
    var path := FormattedPath(p, params);
    forall i | 0 <= i < |path|
      ensures path[i] in req.path
      ensures Consistent(p.path, req.path) ==> path[i] == req.path[i]
    {
      if p.path[i].placeholder {
        var last := CapturedValue(p.path, req.path, i);
      }
    }
    if path == req.path {
      forall i, j | 0 <= i < j < |p.path| && p.path[i].placeholder && p.path[j] == p.path[i]
        ensures req.path[i] == req.path[j]
      {
        assert path[i] == path[j];
      }
    }
  }

  /** The round trip from a subscription to a publication. A client's text that parses without
      losing its last character is matched by a pattern; formatting the pattern with what was
      captured gives the client's topic under the new descriptor exactly when placeholders of
      one name captured equal elements. The formatted text then parses to that very topic. */
  lemma SubToPub(raw: string, p: Pattern, descriptor: string)
    requires ParseTopic(raw).Parsed? && raw[|raw| - 1] != '@'
    requires Fits(p, ParseTopic(raw).topic)
    requires IsWord(descriptor)
    ensures var req := ParseTopic(raw).topic;
      var text := Formatted(Under(p, descriptor), Captured(p.path, req.path));
      && Print(req) == raw
      && (text == Print(req.(descriptor := descriptor)) <==> Consistent(p.path, req.path))
      && (Consistent(p.path, req.path) ==> ParseTopic(text) == Parsed(req.(descriptor := descriptor)))
  {
    var req := ParseTopic(raw).topic;
    var under := Under(p, descriptor);
    var params := Captured(p.path, req.path);
    PrintOfParse(raw);
    FormattedPathOfCaptured(under, req);
    var own := req.(descriptor := descriptor);
    var built := under.topic.(path := FormattedPath(under, params));
    ParseOfPrint(own);
    if Print(built) == Print(own) {
      PrintOfParts(descriptor, req.operation, built.path);
      PrintOfParts(descriptor, req.operation, own.path);
      var head := Head(descriptor, req.operation) + "@";
      assert Join(built.path, '.') == Print(built)[|head|..];
      assert Join(own.path, '.') == Print(own)[|head|..];
      PrintedPathSplits(own.path);
      PrintablePathHasNoDot(own.path);
      SplitOfJoin(built.path, '.');
    }
  }

  lemma PrintablePathHasNoDot(path: seq<string>)
    requires IsPrintablePath(path)
    ensures forall e | e in path :: '.' !in e
  {
    forall e | e in path ensures '.' !in e {
      var i :| 0 <= i < |path| && path[i] == e;
      assert i < |path| - 1 ==> IsInnerElement(e);
    }
  }

  /** Distinct placeholder names make every request consistent. */
  lemma DistinctNamesAreConsistent(p: Pattern, req: Topic)
    requires |p.path| == |req.path|
    requires forall i, j | 0 <= i < j < |p.path| && p.path[i].placeholder && p.path[j].placeholder ::
               p.path[i].value != p.path[j].value
    ensures Consistent(p.path, req.path)
  {
  }

  // ---------------------------------------------------------------- the router

  /** What the bound topics are: each text parses, and maps to its pattern. */
  ghost predicate IsBound(topics: map<string, Pattern>) {
    forall raw | raw in topics ::
      ParseTopic(raw).Parsed? && topics[raw] == PatternOf(ParseTopic(raw).topic)
  }

  ghost predicate Enumerates(order: seq<string>, topics: map<string, Pattern>) {
    && (forall raw :: raw in order <==> raw in topics)
    && forall i, j | 0 <= i < j < |order| :: order[i] != order[j]
  }

  /** The search over the bound topics in one iteration order. */
  function FindInOrder(topics: map<string, Pattern>, order: seq<string>, req: Topic)
    : (found: Option<(string, Params)>)
    requires forall raw | raw in order :: raw in topics
    ensures found.None? ==> forall raw | raw in order :: !Fits(topics[raw], req)
    ensures found.Some? ==>
      && found.value.0 in order
      && Fits(topics[found.value.0], req)
      && found.value.1 == Captured(topics[found.value.0].path, req.path)
  {
    if order == [] then None
    else if Fits(topics[order[0]], req) then
      Some((order[0], Captured(topics[order[0]].path, req.path)))
    else FindInOrder(topics, order[1..], req)
  }

  /** The search stops at the first bound topic that fits, and finds none only when none fits. */
  lemma {:induction false} FirstIsFound(topics: map<string, Pattern>, order: seq<string>, req: Topic) returns (i: nat)
    requires forall raw | raw in order :: raw in topics
    ensures i <= |order| && forall j | 0 <= j < i :: !Fits(topics[order[j]], req)
    ensures i < |order| ==>
      && Fits(topics[order[i]], req)
      && FindInOrder(topics, order, req) == Some((order[i], Captured(topics[order[i]].path, req.path)))
    ensures i == |order| ==> FindInOrder(topics, order, req) == None
  {
    if order == [] || Fits(topics[order[0]], req) {
      return 0;
    }
    var rest := FirstIsFound(topics, order[1..], req);
    i := rest + 1;
  }

  /** The parameters found with a topic have exactly the names of its placeholders. */
  lemma FoundParams(topics: map<string, Pattern>, order: seq<string>, req: Topic)
    requires forall raw | raw in order :: raw in topics
    requires FindInOrder(topics, order, req).Some?
    ensures var (raw, params) := FindInOrder(topics, order, req).value;
      params.Keys == Names(topics[raw].path)
  {
    var (raw, params) := FindInOrder(topics, order, req).value;
    CapturedKeys(topics[raw].path, req.path);
  }

  class Router {
    var topics: map<string, Pattern>

    ghost predicate Valid()
      reads this
    {
      IsBound(topics)
    }

    constructor ()
      ensures Valid() && topics == map[]
    {
      topics := map[];
    }

    /** Binding panics, and changes nothing, for a text that does not parse or is bound already, and
        without a binder. */
    method Bind(raw: string, hasBinder: bool) returns (panicked: bool)
      requires Valid()
      modifies this
      ensures Valid()
      ensures panicked <==> !ParseTopic(raw).Parsed? || !hasBinder || raw in old(topics)
      ensures topics == if panicked then old(topics)
                        else old(topics)[raw := PatternOf(ParseTopic(raw).topic)]
    {
      var outcome := ParseTopic(raw);
      if !outcome.Parsed? || !hasBinder || raw in topics {
        return true;
      }
      var p := NewPattern(outcome.topic);
      topics := topics[raw := p];
      panicked := false;
    }

    /** The search, over whatever iteration order the map offers. */
    method FindTopic(req: Topic, order: seq<string>) returns (found: Option<(string, Params)>)
      requires Valid() && Enumerates(order, topics)
      ensures found == FindInOrder(topics, order, req)
    {
      for i := 0 to |order|
        invariant FindInOrder(topics, order, req) == FindInOrder(topics, order[i..], req)
      {
        var params := Match(topics[order[i]], req);
        if params.Some? {
          return Some((order[i], params.value));
        }
      }
      found := None;
    }
  }

  // ---------------------------------------------------------------- when the router is deterministic

  /** Two patterns overlap: some request fits both. */
  predicate Overlap(p: Pattern, q: Pattern) {
    && p.topic.operation == q.topic.operation
    && |p.path| == |q.path|
    && forall i | 0 <= i < |p.path| ::
         p.path[i].placeholder || q.path[i].placeholder || p.path[i].value == q.path[i].value
  }

  ghost predicate HasNoOverlap(topics: map<string, Pattern>) {
    forall a, b | a in topics && b in topics && a != b :: !Overlap(topics[a], topics[b])
  }

  /** Every text a client can send finds the same topic under every iteration order. */
  ghost predicate IsDeterministic(topics: map<string, Pattern>) {
    forall raw, first, second
      | ParseTopic(raw).Parsed? && Enumerates(first, topics) && Enumerates(second, topics) ::
      FindInOrder(topics, first, ParseTopic(raw).topic) == FindInOrder(topics, second, ParseTopic(raw).topic)
  }

  /** What the path of a parsed topic looks like. */
  predicate IsParsedPath(path: seq<string>) {
    IsPrintablePath(path) || IsRunPath(path)
  }

  lemma PathOfParsed(raw: string)
    requires ParseTopic(raw).Parsed?
    ensures IsWord(ParseTopic(raw).topic.operation)
    ensures IsParsedPath(ParseTopic(raw).topic.path)
  {
    var descriptor, operation, tail := PartsOfAccepted(raw);
    ParseOfParts(descriptor, operation, tail);
    if tail[|tail| - 1] == '@' {
      SplitOfRuns(tail[..|tail| - 1]);
    } else {
      TailOfPath(tail);
    }
  }

  /** Every such path is split from a tail that the parser accepts. */
  lemma TailForPath(path: seq<string>) returns (tail: string)
    requires IsParsedPath(path)
    ensures MatchesTail(tail) && tail[|tail| - 1] != '~' && Split(PathText(tail), '.') == path
  {
    tail := Join(path, '.');
    if IsPrintablePath(path) {
      PathOfTail(path);
      PrintedPathSplits(path);
    } else {
      JoinOfRunPath(path);
      SplitOfJoin(path, '.');
      tail := tail + "@";
      assert tail[..|tail| - 1] == Join(path, '.');
    }
  }

  /** Every such path is the path of a subscription text. */
  lemma TextOfPath(operation: string, path: seq<string>) returns (raw: string)
    requires IsWord(operation) && IsParsedPath(path)
    ensures ParseTopic(raw) == Parsed(Topic("sub", operation, path))
  {
    var tail := TailForPath(path);
    ParseOfParts("sub", operation, tail);
    raw := Head("sub", operation) + "@" + tail;
  }

  /** The request that fits both of two overlapping patterns. */
  function CommonPath(p: Pattern, q: Pattern): seq<string>
    requires |p.path| == |q.path|
  {
    seq(|p.path|, i requires 0 <= i < |p.path| =>
      if !p.path[i].placeholder then p.path[i].value
      else if !q.path[i].placeholder then q.path[i].value
      else "xx")
  }

  lemma CommonPathIsParsed(s: Topic, t: Topic)
    requires IsParsedPath(s.path) && IsParsedPath(t.path)
    requires Overlap(PatternOf(s), PatternOf(t))
    ensures IsParsedPath(CommonPath(PatternOf(s), PatternOf(t)))
  {
    var path := CommonPath(PatternOf(s), PatternOf(t));
    forall i | 0 <= i < |path| - 1 ensures IsInnerElement(path[i]) {
      assert IsInnerElement(s.path[i]) && IsInnerElement(t.path[i]);
    }
    var last := |path| - 1;
    assert path[last] == s.path[last] || path[last] == t.path[last] || path[last] == "xx";
  }

  lemma OverlapIsAmbiguous(topics: map<string, Pattern>, a: string, b: string) returns (raw: string)
    requires IsBound(topics)
    requires a in topics && b in topics && a != b && Overlap(topics[a], topics[b])
    ensures ParseTopic(raw).Parsed?
    ensures Fits(topics[a], ParseTopic(raw).topic) && Fits(topics[b], ParseTopic(raw).topic)
  {
    PathOfParsed(a);
    PathOfParsed(b);
    CommonPathIsParsed(ParseTopic(a).topic, ParseTopic(b).topic);
    raw := TextOfPath(topics[a].topic.operation, CommonPath(topics[a], topics[b]));
  }

  lemma EnumeratesOneMore(topics: map<string, Pattern>, first: string, tail: seq<string>)
    requires first in topics && Enumerates(tail, topics - {first})
    ensures Enumerates([first] + tail, topics)
  {
    var order := [first] + tail;
    forall raw ensures raw in order <==> raw in topics {
      assert raw in order <==> raw == first || raw in tail;
      assert raw in tail <==> raw in topics - {first};
    }
    forall i, j | 0 <= i < j < |order| ensures order[i] != order[j] {
      assert order[j] == tail[j - 1] && tail[j - 1] in tail;
      if i > 0 {
        assert order[i] == tail[i - 1];
      }
    }
  }

  lemma {:induction false} EnumerationFrom(topics: map<string, Pattern>, first: string) returns (order: seq<string>)
    requires first in topics
    ensures Enumerates(order, topics) && order[0] == first
    decreases |topics.Keys|
  {
    var rest := topics - {first};
    assert topics.Keys == rest.Keys + {first};
    var tail := [];
    if rest != map[] {
      var next :| next in rest.Keys;
      tail := EnumerationFrom(rest, next);
    }
    EnumeratesOneMore(topics, first, tail);
    order := [first] + tail;
  }

  /** The router answers every client text the same way under every iteration order exactly when
      no two bound patterns overlap. */
  lemma DeterministicIffNoOverlap(topics: map<string, Pattern>)
    requires IsBound(topics)
    ensures IsDeterministic(topics) <==> HasNoOverlap(topics)
  {
    if HasNoOverlap(topics) {
      forall raw, first, second
        | ParseTopic(raw).Parsed? && Enumerates(first, topics) && Enumerates(second, topics)
        ensures FindInOrder(topics, first, ParseTopic(raw).topic)
             == FindInOrder(topics, second, ParseTopic(raw).topic)
      {
        SameAnswer(topics, first, second, ParseTopic(raw).topic);
      }
    } else {
      var a, b :| a in topics && b in topics && a != b && Overlap(topics[a], topics[b]);
      var raw := OverlapIsAmbiguous(topics, a, b);
      var first := EnumerationFrom(topics, a);
      var second := EnumerationFrom(topics, b);
      assert FindInOrder(topics, first, ParseTopic(raw).topic)
          != FindInOrder(topics, second, ParseTopic(raw).topic);
    }
  }

  lemma SameAnswer(topics: map<string, Pattern>, first: seq<string>, second: seq<string>, req: Topic)
    requires HasNoOverlap(topics)
    requires Enumerates(first, topics) && Enumerates(second, topics)
    ensures FindInOrder(topics, first, req) == FindInOrder(topics, second, req)
  {
    var x, y := FindInOrder(topics, first, req), FindInOrder(topics, second, req);
    if x.Some? && y.Some? && x.value.0 != y.value.0 {
      assert Overlap(topics[x.value.0], topics[y.value.0]);
    }
  }
}
