/** The topic text `[descriptor~]operation@path.to.resource`: the accepted language,
    the parser and the printer. Go strings are modelled as sequences of characters. */
module TopicText {

  datatype Topic = Topic(descriptor: string, operation: string, path: seq<string>)

  /** What a call of the parser does: it returns a topic, returns the format error,
      or panics because it indexes past the end of a slice. */
  datatype Outcome = Parsed(topic: Topic) | InvalidFormat | IndexPanic

  // ---------------------------------------------------------------- the regular expression

  /** `[a-zA-Z0-9-]` */
  predicate IsWordChar(c: char) {
    'a' <= c <= 'z' || 'A' <= c <= 'Z' || '0' <= c <= '9' || c == '-'
  }

  /** `[a-zA-Z0-9-{}_]` */
  predicate IsPathChar(c: char) {
    IsWordChar(c) || c == '{' || c == '}' || c == '_'
  }

  /** `[a-zA-Z0-9-]+` */
  predicate IsWord(s: string) {
    |s| > 0 && forall i | 0 <= i < |s| :: IsWordChar(s[i])
  }

  /** `([a-zA-Z0-9-]+~|)[a-zA-Z0-9-]+` */
  predicate MatchesHead(s: string) {
    IsWord(s) || exists j | 0 <= j < |s| :: s[j] == '~' && IsWord(s[..j]) && IsWord(s[j + 1..])
  }

  /** `(([a-zA-Z0-9-{}_]\.?))+` */
  predicate MatchesRuns(s: string)
    decreases |s|
  {
    && |s| > 0
    && IsPathChar(s[0])
    && (|s| == 1
        || MatchesRuns(s[1..])
        || (s[1] == '.' && (|s| == 2 || MatchesRuns(s[2..]))))
  }

  /** `(([a-zA-Z0-9-{}_]\.?))+[^.]` */
  predicate MatchesTail(s: string) {
    |s| > 0 && MatchesRuns(s[..|s| - 1]) && s[|s| - 1] != '.'
  }

  /** The whole expression, anchored at both ends. */
  predicate Accepts(s: string) {
    exists i | 0 <= i < |s| :: s[i] == '@' && MatchesHead(s[..i]) && MatchesTail(s[i + 1..])
  }

  // ---------------------------------------------------------------- strings.Split, strings.Join

  function Split(s: string, sep: char): (parts: seq<string>)
    ensures |parts| > 0
    ensures forall p | p in parts :: sep !in p
  {
    if s == "" then [""]
    else if s[0] == sep then [""] + Split(s[1..], sep)
    else
      var rest := Split(s[1..], sep);
      [[s[0]] + rest[0]] + rest[1..]
  }

  function Join(parts: seq<string>, sep: char): string {
    if |parts| == 0 then ""
    else if |parts| == 1 then parts[0]
    else parts[0] + [sep] + Join(parts[1..], sep)
  }

  // ---------------------------------------------------------------- printer and parser

  function Print(t: Topic): string {
    var text := t.operation + "@" + Join(t.path, '.');
    if t.descriptor != "" then t.descriptor + "~" + text else text
  }

  function ParseTopic(raw: string): Outcome {
    if Accepts(raw) then ParseParts(raw) else InvalidFormat
  }

  /** The part of the parser after the check against the regular expression. */
  function ParseParts(raw: string): Outcome {
    var atTilde := Split(raw, '~');
    var descriptor := if |atTilde| == 2 then atTilde[0] else "";
    var text := if |atTilde| == 2 then atTilde[1] else atTilde[0];
    var atSign := Split(text, '@');
    if |atSign| < 2 then IndexPanic
    else Parsed(Topic(descriptor, atSign[0], Split(atSign[1], '.')))
  }

  // ---------------------------------------------------------------- what the text promises

  /** A path element that is not the last one. */
  predicate IsInnerElement(e: string) {
    |e| > 0 && forall i | 0 <= i < |e| :: IsPathChar(e[i])
  }

  /** The last path element: its final character is only kept from being a separator. */
  predicate IsFinalElement(e: string) {
    && |e| > 0
    && (forall i | 0 <= i < |e| - 1 :: IsPathChar(e[i]))
    && e[|e| - 1] !in {'.', '~', '@'}
  }

  predicate IsPrintablePath(path: seq<string>) {
    && |path| > 0
    && (forall i | 0 <= i < |path| - 1 :: IsInnerElement(path[i]))
    && IsFinalElement(path[|path| - 1])
    && (|path| > 1 || |path[0]| > 1)
  }

  predicate IsPrintable(t: Topic) {
    && (t.descriptor == "" || IsWord(t.descriptor))
    && IsWord(t.operation)
    && IsPrintablePath(t.path)
  }

  // ---------------------------------------------------------------- lemmas about Split and Join

  lemma {:induction false} SplitWithoutSeparator(s: string, sep: char)
    requires sep !in s
    ensures Split(s, sep) == [s]
  {
    if s != "" {
      SplitWithoutSeparator(s[1..], sep);
      assert s == [s[0]] + s[1..];
    }
  }

  lemma {:induction false} SplitAtSeparator(a: string, b: string, sep: char)
    requires sep !in a
    ensures Split(a + [sep] + b, sep) == [a] + Split(b, sep)
  {
    var s := a + [sep] + b;
    if a == "" {
      assert s[1..] == b;
    } else {
      assert s[1..] == a[1..] + [sep] + b;
      SplitAtSeparator(a[1..], b, sep);
      assert a == [a[0]] + a[1..];
    }
  }

  lemma {:induction false} JoinOfSplit(s: string, sep: char)
    ensures Join(Split(s, sep), sep) == s
  {
    if s != "" {
      JoinOfSplit(s[1..], sep);
      var rest := Split(s[1..], sep);
      if s[0] == sep {
        assert ([""] + rest)[1..] == rest;
      } else {
        var parts := [[s[0]] + rest[0]] + rest[1..];
        assert parts[1..] == rest[1..];
        assert Join(parts, sep) == [s[0]] + Join(rest, sep);
      }
    }
  }

  lemma {:induction false} SplitOfJoin(parts: seq<string>, sep: char)
    requires |parts| > 0
    requires forall p | p in parts :: sep !in p
    ensures Split(Join(parts, sep), sep) == parts
  {
    if |parts| == 1 {
      SplitWithoutSeparator(parts[0], sep);
    } else {
      SplitOfJoin(parts[1..], sep);
      SplitAtSeparator(parts[0], Join(parts[1..], sep), sep);
      assert parts == [parts[0]] + parts[1..];
    }
  }

  // ---------------------------------------------------------------- path runs against path elements

  /** The path elements a run of the third group can hold: a trailing dot leaves a last
      element that is empty. */
  predicate IsRunPath(path: seq<string>) {
    && |path| > 0
    && (forall i | 0 <= i < |path| - 1 :: IsInnerElement(path[i]))
    && (path[|path| - 1] == "" || IsInnerElement(path[|path| - 1]))
    && (|path| > 1 || path[0] != "")
  }

  lemma {:induction false} RunsHavePathChars(s: string)
    requires MatchesRuns(s)
    ensures forall c | c in s :: IsPathChar(c) || c == '.'
    decreases |s|
  {
    if |s| > 1 {
      if MatchesRuns(s[1..]) {
        RunsHavePathChars(s[1..]);
        assert s == [s[0]] + s[1..];
      } else {
        if |s| > 2 {
          RunsHavePathChars(s[2..]);
        }
        assert s == [s[0], s[1]] + s[2..];
      }
    }
  }

  lemma {:induction false} SplitOfRuns(s: string)
    requires MatchesRuns(s)
    ensures IsRunPath(Split(s, '.'))
    ensures |Split(s, '.')[0]| > 0
    decreases |s|
  {
    assert s == [s[0]] + s[1..];
    var rest := Split(s[1..], '.');
    if |s| == 1 {
      assert Split(s, '.') == [s];
    } else if MatchesRuns(s[1..]) {
      SplitOfRuns(s[1..]);
    } else {
      assert s[1..] == "" + ['.'] + s[2..];
      SplitAtSeparator("", s[2..], '.');
      if |s| > 2 {
        SplitOfRuns(s[2..]);
      }
    }
  }

  lemma {:induction false} ElementThenRuns(e: string, s: string)
    requires IsInnerElement(e)
    requires s == "" || (s[0] == '.' && (|s| == 1 || MatchesRuns(s[1..]))) || MatchesRuns(s)
    ensures MatchesRuns(e + s)
  {
    var t := e + s;
    assert t[0] == e[0];
    if |e| == 1 {
      assert t[1..] == s;
      if |s| > 0 && s[0] == '.' {
        assert t[2..] == s[1..];
      }
    } else {
      ElementThenRuns(e[1..], s);
      assert t[1..] == e[1..] + s;
    }
  }

  lemma {:induction false} JoinOfRunPath(path: seq<string>)
    requires IsRunPath(path)
    ensures MatchesRuns(Join(path, '.'))
  {
    if |path| == 1 {
      ElementThenRuns(path[0], "");
      assert path[0] + "" == path[0];
    } else {
      var rest := path[1..];
      if rest == [""] {
        ElementThenRuns(path[0], ".");
        assert Join(path, '.') == path[0] + ".";
      } else {
        JoinOfRunPath(rest);
        ElementThenRuns(path[0], "." + Join(rest, '.'));
        assert ("." + Join(rest, '.'))[1..] == Join(rest, '.');
        assert Join(path, '.') == path[0] + ("." + Join(rest, '.'));
      }
    }
  }

  // ---------------------------------------------------------------- tails against printable paths

  /** `path` with one character appended to its last element. */
  function Extend(path: seq<string>, c: char): seq<string>
    requires |path| > 0
  {
    path[|path| - 1 := path[|path| - 1] + [c]]
  }

  lemma {:induction false} JoinOfExtend(path: seq<string>, c: char)
    requires |path| > 0
    ensures Join(Extend(path, c), '.') == Join(path, '.') + [c]
  {
    if |path| > 1 {
      JoinOfExtend(path[1..], c);
      assert Extend(path, c)[1..] == Extend(path[1..], c);
    }
  }

  lemma {:induction false} TailOfPath(tail: string)
    requires MatchesTail(tail) && tail[|tail| - 1] !in {'~', '@'}
    ensures IsPrintablePath(Split(tail, '.'))
  {
    var runs, c := tail[..|tail| - 1], tail[|tail| - 1];
    assert tail == runs + [c];
    SplitOfRuns(runs);
    JoinOfSplit(runs, '.');
    JoinOfExtend(Split(runs, '.'), c);
    SplitOfJoin(Extend(Split(runs, '.'), c), '.');
  }

  lemma {:induction false} PathOfTail(path: seq<string>)
    requires IsPrintablePath(path)
    ensures MatchesTail(Join(path, '.'))
    ensures Join(path, '.')[|Join(path, '.')| - 1] !in {'.', '~', '@'}
  {
    var last := path[|path| - 1];
    var c := last[|last| - 1];
    var runs := path[|path| - 1 := last[..|last| - 1]];
    assert last == last[..|last| - 1] + [c];
    assert path == Extend(runs, c);
    JoinOfExtend(runs, c);
    JoinOfRunPath(runs);
    assert Join(path, '.')[..|Join(path, '.')| - 1] == Join(runs, '.');
  }

  // ---------------------------------------------------------------- heads

  /** The text before the at sign. */
  function Head(descriptor: string, operation: string): string {
    if descriptor == "" then operation else descriptor + "~" + operation
  }

  lemma HeadOfParts(descriptor: string, operation: string)
    requires descriptor == "" || IsWord(descriptor)
    requires IsWord(operation)
    ensures MatchesHead(Head(descriptor, operation))
  {
    if descriptor != "" {
      var s := Head(descriptor, operation);
      assert s[..|descriptor|] == descriptor && s[|descriptor| + 1..] == operation;
      assert s[|descriptor|] == '~';
    }
  }

  lemma CutAtTilde(s: string, j: nat)
    requires j < |s| && s[j] == '~'
    ensures s == s[..j] + "~" + s[j + 1..]
  {
  }

  lemma PartsOfHead(s: string) returns (descriptor: string, operation: string)
    requires MatchesHead(s)
    ensures descriptor == "" || IsWord(descriptor)
    ensures IsWord(operation)
    ensures s == Head(descriptor, operation)
  {
    if IsWord(s) {
      return "", s;
    }
    var j :| 0 <= j < |s| && s[j] == '~' && IsWord(s[..j]) && IsWord(s[j + 1..]);
    CutAtTilde(s, j);
    return s[..j], s[j + 1..];
  }

  lemma CutAtSign(raw: string, i: nat)
    requires i < |raw| - 1 && raw[i] == '@'
    ensures raw == raw[..i] + "@" + raw[i + 1..]
    ensures raw[i + 1..][|raw| - i - 2] == raw[|raw| - 1]
  {
  }

  lemma HeadAndTail(raw: string) returns (head: string, tail: string)
    requires Accepts(raw)
    ensures MatchesHead(head) && MatchesTail(tail)
    ensures raw == head + "@" + tail
    ensures raw[|raw| - 1] == tail[|tail| - 1]
  {
    var i :| 0 <= i < |raw| && raw[i] == '@' && MatchesHead(raw[..i]) && MatchesTail(raw[i + 1..]);
    head, tail := raw[..i], raw[i + 1..];
    CutAtSign(raw, i);
  }

  /** An accepted text taken apart: head, at sign and tail. */
  lemma PartsOfAccepted(raw: string) returns (descriptor: string, operation: string, tail: string)
    requires Accepts(raw)
    ensures descriptor == "" || IsWord(descriptor)
    ensures IsWord(operation)
    ensures MatchesTail(tail)
    ensures raw == Head(descriptor, operation) + "@" + tail
    ensures raw[|raw| - 1] == tail[|tail| - 1]
  {
    var head;
    head, tail := HeadAndTail(raw);
    descriptor, operation := PartsOfHead(head);
  }

  lemma AcceptedOfParts(descriptor: string, operation: string, tail: string)
    requires descriptor == "" || IsWord(descriptor)
    requires IsWord(operation)
    requires MatchesTail(tail)
    ensures Accepts(Head(descriptor, operation) + "@" + tail)
  {
    var head := Head(descriptor, operation);
    HeadOfParts(descriptor, operation);
    var raw := head + "@" + tail;
    assert raw[|head|] == '@' && raw[..|head|] == head && raw[|head| + 1..] == tail;
  }

  // ---------------------------------------------------------------- the accepted language

  const LOWER := "abcdefghijklmnopqrstuvwxyz"
  const UPPER := "ABCDEFGHIJKLMNOPQRSTUVWXYZ"
  const DIGITS := "0123456789"

  predicate IsListedChar(c: char) {
    c in LOWER || c in UPPER || c in DIGITS || c == '-'
  }

  predicate IsListedWord(s: string) {
    s != "" && forall c | c in s :: IsListedChar(c)
  }

  /** What the third group matches once: a character of the path, and perhaps a dot. */
  predicate IsPiece(e: string) {
    && (|e| == 1 || (|e| == 2 && e[1] == '.'))
    && (IsListedChar(e[0]) || e[0] == '{' || e[0] == '}' || e[0] == '_')
  }

  function Concat(pieces: seq<string>): string {
    if pieces == [] then "" else pieces[0] + Concat(pieces[1..])
  }

  predicate ArePieces(pieces: seq<string>) {
    pieces != [] && forall e | e in pieces :: IsPiece(e)
  }

  /** The text is written with these matches of the expression's parts. */
  predicate IsWritten(s: string, descriptor: string, operation: string, pieces: seq<string>, last: char) {
    && (descriptor == "" || IsListedWord(descriptor))
    && IsListedWord(operation)
    && ArePieces(pieces)
    && last != '.'
    && s == (if descriptor == "" then "" else descriptor + "~") + operation + "@" + (Concat(pieces) + [last])
  }

  lemma LowerChars(c: char)
    ensures c in LOWER <==> 'a' <= c <= 'z'
  {
    forall i | 0 <= i < |LOWER| ensures LOWER[i] as int == 'a' as int + i {
    }
    if 'a' <= c <= 'z' {
      assert LOWER[c as int - 'a' as int] == c;
    }
  }

  lemma UpperChars(c: char)
    ensures c in UPPER <==> 'A' <= c <= 'Z'
  {
    forall i | 0 <= i < |UPPER| ensures UPPER[i] as int == 'A' as int + i {
    }
    if 'A' <= c <= 'Z' {
      assert UPPER[c as int - 'A' as int] == c;
    }
  }

  lemma DigitChars(c: char)
    ensures c in DIGITS <==> '0' <= c <= '9'
  {
    if '0' <= c <= '9' {
      assert DIGITS[c as int - '0' as int] == c;
    }
  }

  lemma WordChars(c: char)
    ensures IsWordChar(c) <==> IsListedChar(c)
  {
    LowerChars(c);
    UpperChars(c);
    DigitChars(c);
  }

  lemma Words(s: string)
    ensures IsWord(s) <==> IsListedWord(s)
  {
    forall i | 0 <= i < |s| ensures IsWordChar(s[i]) <==> IsListedChar(s[i]) {
      WordChars(s[i]);
    }
  }

  lemma {:induction false} RunsHavePieces(s: string) returns (pieces: seq<string>)
    requires MatchesRuns(s)
    ensures ArePieces(pieces) && Concat(pieces) == s
    decreases |s|
  {
    WordChars(s[0]);
    var n := if |s| == 1 || MatchesRuns(s[1..]) then 1 else 2;
    pieces := [];
    if n < |s| {
      pieces := RunsHavePieces(s[n..]);
    }
    assert s == s[..n] + s[n..];
    pieces := [s[..n]] + pieces;
  }

  lemma {:induction false} PiecesMakeRuns(pieces: seq<string>)
    requires ArePieces(pieces)
    ensures MatchesRuns(Concat(pieces))
  {
    var e, rest := pieces[0], pieces[1..];
    assert e in pieces;
    WordChars(e[0]);
    var s := Concat(pieces);
    assert s[|e|..] == Concat(rest);
    if rest != [] {
      PiecesMakeRuns(rest);
    }
  }

  lemma LastApart(s: string)
    requires s != ""
    ensures s == s[..|s| - 1] + [s[|s| - 1]]
  {
  }

  lemma HeadWritten(descriptor: string, operation: string)
    ensures Head(descriptor, operation) == (if descriptor == "" then "" else descriptor + "~") + operation
  {
  }

  lemma AcceptedIsWritten(s: string)
    returns (descriptor: string, operation: string, pieces: seq<string>, last: char)
    requires Accepts(s)
    ensures IsWritten(s, descriptor, operation, pieces, last)
  {
    var tail;
    descriptor, operation, tail := PartsOfAccepted(s);
    Words(descriptor);
    Words(operation);
    var n := |tail| - 1;
    last := tail[n];
    pieces := RunsHavePieces(tail[..n]);
    LastApart(tail);
    HeadWritten(descriptor, operation);
  }

  lemma WrittenIsAccepted(s: string, descriptor: string, operation: string, pieces: seq<string>, last: char)
    requires IsWritten(s, descriptor, operation, pieces, last)
    ensures Accepts(s)
  {
    Words(descriptor);
    Words(operation);
    PiecesMakeRuns(pieces);
    var tail := Concat(pieces) + [last];
    assert tail[..|tail| - 1] == Concat(pieces);
    AcceptedOfParts(descriptor, operation, tail);
    HeadWritten(descriptor, operation);
  }

  /** The check accepts exactly the texts written as the expression says. */
  lemma AcceptsExactly(s: string)
    ensures Accepts(s) <==>
      exists descriptor, operation, pieces, last :: IsWritten(s, descriptor, operation, pieces, last)
  {
    if Accepts(s) {
      var descriptor, operation, pieces, last := AcceptedIsWritten(s);
    }
    if descriptor, operation, pieces, last :| IsWritten(s, descriptor, operation, pieces, last) {
      WrittenIsAccepted(s, descriptor, operation, pieces, last);
    }
  }

  // ---------------------------------------------------------------- running the parser on the parts

  /** Heads and tails hold no separator of their own, apart from a tail's last character. */
  lemma PartsHaveNoSeparator(descriptor: string, operation: string, tail: string)
    requires descriptor == "" || IsWord(descriptor)
    requires IsWord(operation)
    requires MatchesTail(tail)
    ensures '~' !in descriptor && '@' !in descriptor
    ensures '~' !in operation && '@' !in operation
    ensures '~' !in tail[..|tail| - 1] && '@' !in tail[..|tail| - 1]
    ensures tail == tail[..|tail| - 1] + [tail[|tail| - 1]]
  {
    RunsHavePathChars(tail[..|tail| - 1]);
  }

  /** The tilde split peels the descriptor off. */
  lemma SplitHead(descriptor: string, operation: string, text: string)
    requires '~' !in descriptor
    ensures Split(Head(descriptor, operation) + "@" + text, '~')
         == (if descriptor == "" then [] else [descriptor]) + Split(operation + "@" + text, '~')
  {
    if descriptor != "" {
      assert Head(descriptor, operation) + "@" + text
          == descriptor + ['~'] + (operation + "@" + text);
      SplitAtSeparator(descriptor, operation + "@" + text, '~');
    }
  }

  /** With a single tilde, before the operation, the parser goes on with the text after it. */
  lemma ParseAfterTilde(descriptor: string, operation: string, text: string)
    requires '~' !in descriptor && '~' !in operation && '~' !in text
    ensures var parts := Split(operation + "@" + text, '@');
      |parts| >= 2 ==>
        ParseParts(Head(descriptor, operation) + "@" + text) == Parsed(Topic(descriptor, parts[0], Split(parts[1], '.')))
  {
    SplitHead(descriptor, operation, text);
    SplitWithoutSeparator(operation + "@" + text, '~');
  }

  lemma {:induction false} ParsePlain(descriptor: string, operation: string, tail: string)
    requires '~' !in descriptor && '~' !in operation && '~' !in tail
    requires '@' !in operation && '@' !in tail
    ensures ParseParts(Head(descriptor, operation) + "@" + tail)
         == Parsed(Topic(descriptor, operation, Split(tail, '.')))
  {
    ParseAfterTilde(descriptor, operation, tail);
    SplitAtSeparator(operation, tail, '@');
    SplitWithoutSeparator(tail, '@');
  }

  lemma ParseTilde(descriptor: string, operation: string, runs: string)
    requires '~' !in descriptor && '~' !in operation && '~' !in runs
    requires '@' !in descriptor
    ensures ParseParts(Head(descriptor, operation) + "@" + (runs + "~")) == IndexPanic
  {
    var text := operation + "@" + runs;
    assert operation + "@" + (runs + "~") == text + ['~'] + "";
    SplitHead(descriptor, operation, runs + "~");
    SplitAtSeparator(text, "", '~');
    SplitWithoutSeparator("", '@');
    SplitWithoutSeparator(descriptor, '@');
  }

  lemma {:induction false} ParseAtSign(descriptor: string, operation: string, runs: string)
    requires '~' !in descriptor && '~' !in operation && '~' !in runs
    requires '@' !in operation && '@' !in runs
    ensures ParseParts(Head(descriptor, operation) + "@" + (runs + "@"))
         == Parsed(Topic(descriptor, operation, Split(runs, '.')))
  {
    ParseAfterTilde(descriptor, operation, runs + "@");
    SplitAtSeparator(operation, runs + "@", '@');
    SplitEndingInAtSign(runs);
  }

  lemma SplitEndingInAtSign(runs: string)
    requires '@' !in runs
    ensures Split(runs + "@", '@') == [runs, ""]
  {
    assert runs + "@" == runs + ['@'] + "";
    SplitAtSeparator(runs, "", '@');
  }

  lemma PrintOfParts(descriptor: string, operation: string, path: seq<string>)
    ensures Print(Topic(descriptor, operation, path))
         == Head(descriptor, operation) + "@" + Join(path, '.')
  {
    if descriptor != "" {
      assert descriptor + "~" + (operation + "@" + Join(path, '.'))
          == descriptor + "~" + operation + "@" + Join(path, '.');
    }
  }

  // ---------------------------------------------------------------- main results

  /** The part of a tail that ends up in the path: an at sign at the end is lost. */
  function PathText(tail: string): string
    requires |tail| > 0
  {
    if tail[|tail| - 1] == '@' then tail[..|tail| - 1] else tail
  }

  /** What the parser does on the parts of an accepted text. */
  lemma ParseOfParts(descriptor: string, operation: string, tail: string)
    requires descriptor == "" || IsWord(descriptor)
    requires IsWord(operation)
    requires MatchesTail(tail)
    ensures ParseTopic(Head(descriptor, operation) + "@" + tail)
         == if tail[|tail| - 1] == '~' then IndexPanic
            else Parsed(Topic(descriptor, operation, Split(PathText(tail), '.')))
  {
    AcceptedOfParts(descriptor, operation, tail);
    PartsHaveNoSeparator(descriptor, operation, tail);
    var runs, c := tail[..|tail| - 1], tail[|tail| - 1];
    if c == '~' {
      ParseTilde(descriptor, operation, runs);
    } else if c == '@' {
      ParseAtSign(descriptor, operation, runs);
    } else {
      ParsePlain(descriptor, operation, tail);
    }
  }

  /** The parser refuses exactly the texts the expression refuses, and on an accepted text
      it indexes out of range exactly when the text ends in a tilde. */
  lemma ParseOutcome(raw: string)
    ensures ParseTopic(raw) == InvalidFormat <==> !Accepts(raw)
    ensures Accepts(raw) ==> (ParseTopic(raw) == IndexPanic <==> raw[|raw| - 1] == '~')
  {
    if Accepts(raw) {
      var descriptor, operation, tail := PartsOfAccepted(raw);
      ParseOfParts(descriptor, operation, tail);
    }
  }

  lemma PrintOfParsedParts(descriptor: string, operation: string, tail: string)
    requires descriptor == "" || IsWord(descriptor)
    requires IsWord(operation)
    requires MatchesTail(tail) && tail[|tail| - 1] != '~'
    ensures var t := Topic(descriptor, operation, Split(PathText(tail), '.'));
      && Print(t) == Head(descriptor, operation) + "@" + PathText(tail)
      && (tail[|tail| - 1] != '@' ==> IsPrintable(t))
  {
    JoinOfSplit(PathText(tail), '.');
    PrintOfParts(descriptor, operation, Split(PathText(tail), '.'));
    if tail[|tail| - 1] != '@' {
      TailOfPath(tail);
    }
  }

  lemma DropLast(head: string, tail: string)
    requires |tail| > 0
    ensures (head + "@" + tail)[..|head| + |tail|] == head + "@" + tail[..|tail| - 1]
  {
  }

  /** Printing what was parsed gives the text back exactly when the text does not end in an
      at sign, which is otherwise lost; then the topic is printable. */
  lemma PrintOfParse(raw: string)
    requires ParseTopic(raw).Parsed?
    ensures Print(ParseTopic(raw).topic) == raw <==> raw[|raw| - 1] != '@'
    ensures raw[|raw| - 1] != '@' ==> IsPrintable(ParseTopic(raw).topic)
    ensures raw[|raw| - 1] == '@' ==> Print(ParseTopic(raw).topic) == raw[..|raw| - 1]
  {
    var descriptor, operation, tail := PartsOfAccepted(raw);
    ParseOfParts(descriptor, operation, tail);
    PrintOfParsedParts(descriptor, operation, tail);
    DropLast(Head(descriptor, operation), tail);
  }

  lemma PrintedPathSplits(path: seq<string>)
    requires IsPrintablePath(path)
    ensures Split(Join(path, '.'), '.') == path
  {
    forall e | e in path ensures '.' !in e {
      var i :| 0 <= i < |path| && path[i] == e;
      assert i < |path| - 1 ==> IsInnerElement(e);
    }
    SplitOfJoin(path, '.');
  }

  /** The printed form parses back to the same topic exactly for the printable topics. */
  lemma ParseOfPrint(t: Topic)
    ensures ParseTopic(Print(t)) == Parsed(t) <==> IsPrintable(t)
  {
    PrintOfParts(t.descriptor, t.operation, t.path);
    if IsPrintable(t) {
      PathOfTail(t.path);
      PrintedPathSplits(t.path);
      ParseOfParts(t.descriptor, t.operation, Join(t.path, '.'));
    } else if ParseTopic(Print(t)) == Parsed(t) {
      PrintOfParse(Print(t));
    }
  }
}
