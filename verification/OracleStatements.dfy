/** The Oracle driver's line splitter (parseMultiStatements of database/oracle/oracle.go) and
    its round trip on rendered query lists. */
module OracleStatements {

  /** bufio.Scanner gives up on a line of this many bytes, and the code ignores that. */
  const LINE_LIMIT: nat := 65536

  /** Bytes of a character in UTF-8. */
  function CharBytes(c: char): nat {
    if c < '\U{80}' then 1 else if c < '\U{800}' then 2 else if c < '\U{10000}' then 3 else 4
  }

  /** Bytes of a text in UTF-8. */
  function ByteLength(s: string): nat {
    if |s| == 0 then 0 else ByteLength(s[..|s| - 1]) + CharBytes(s[|s| - 1])
  }

  /** unicode.IsSpace. */
  predicate IsSpace(c: char) {
    || c == '\t' || c == '\n' || c == '\U{0B}' || c == '\U{0C}' || c == '\r' || c == ' '
    || c == '\U{85}' || c == '\U{A0}' || c == '\U{1680}' || '\U{2000}' <= c <= '\U{200A}'
    || c == '\U{2028}' || c == '\U{2029}' || c == '\U{202F}' || c == '\U{205F}' || c == '\U{3000}'
  }

  function TrimLeft(s: string): string {
    if |s| > 0 && IsSpace(s[0]) then TrimLeft(s[1..]) else s
  }

  function TrimRight(s: string): string {
    if |s| > 0 && IsSpace(s[|s| - 1]) then TrimRight(s[..|s| - 1]) else s
  }

  function TrimSpace(s: string): string { TrimRight(TrimLeft(s)) }

  predicate HasPrefix(s: string, p: string) { p <= s }

  predicate HasSuffix(s: string, p: string) { |p| <= |s| && s[|s| - |p|..] == p }

  function TrimPrefix(s: string, p: string): string { if HasPrefix(s, p) then s[|p|..] else s }

  function TrimSuffix(s: string, p: string): string { if HasSuffix(s, p) then s[..|s| - |p|] else s }

  /** Case-insensitive "end;" at the end. */
  predicate IsPLSQLTail(s: string) {
    var n := |s|;
    && n >= 4
    && (s[n - 4] == 'e' || s[n - 4] == 'E') && (s[n - 3] == 'n' || s[n - 3] == 'N')
    && (s[n - 2] == 'd' || s[n - 2] == 'D') && s[n - 1] == ';'
  }

  // ----- lines --------------------------------------------------------------------------

  function FirstNewLine(s: string): (i: nat)
    ensures i <= |s|
    ensures i < |s| ==> s[i] == '\n'
    ensures forall k :: 0 <= k < i ==> s[k] != '\n'
  {
    if |s| == 0 || s[0] == '\n' then 0 else FirstNewLine(s[1..]) + 1
  }

  function DropCR(line: string): string {
    if |line| > 0 && line[|line| - 1] == '\r' then line[..|line| - 1] else line
  }

  /** The lines the scanner yields; it stops for good at a line that is too long. */
  function Lines(text: string): seq<string> {
    if |text| == 0 then []
    else
      var i := FirstNewLine(text);
      if ByteLength(text[..i]) >= LINE_LIMIT then []
      else [DropCR(text[..i])] + (if i < |text| then Lines(text[i + 1..]) else [])
  }

  // ----- collecting lines into statements --------------------------------------------------

  datatype Acc = Acc(results: seq<string>, buf: string)

  function OnLine(acc: Acc, line: string, sep: string): Acc {
    if line == sep then Acc(acc.results + [acc.buf], "")
    else if line == "" || HasPrefix(line, "--") then acc
    else Acc(acc.results, acc.buf + line + "\n")
  }

  function Collect(acc: Acc, lines: seq<string>, sep: string): Acc
    decreases |lines|
  {
    if |lines| == 0 then acc else Collect(OnLine(acc, lines[0], sep), lines[1..], sep)
  }

  function Results(acc: Acc): seq<string> {
    if |acc.buf| > 0 then acc.results + [acc.buf] else acc.results
  }

  function Query(result: string): string {
    var r := TrimSuffix(TrimPrefix(TrimSpace(result), "\n"), "\n");
    if IsPLSQLTail(r) then r else TrimSuffix(r, ";")
  }

  /** The first n results, cleaned up, without the empty ones. */
  function Queries(results: seq<string>, n: nat, clean: string -> string): seq<string>
    requires n <= |results|
  {
    if n == 0 then []
    else
      var q := clean(results[n - 1]);
      Queries(results, n - 1, clean) + if q == "" then [] else [q]
  }

  function Statements(text: string, sep: string): seq<string> {
    var results := Results(Collect(Acc([], ""), Lines(text), sep));
    Queries(results, |results|, Query)
  }

  /** Cleaning up as a value of its own; its definition is only used for the results a proof asks
      about. */
  predicate CleanIs(clean: string -> string, s: string) { clean(s) == Query(s) }

  ghost predicate Cleans(clean: string -> string) {
    forall s {:trigger CleanIs(clean, s)} :: CleanIs(clean, s)
  }

  method CleanUp(s: string, ghost clean: string -> string) returns (result: string)
    requires Cleans(clean)
    ensures result == clean(s)
  {
    result := TrimSpace(s);
    result := TrimPrefix(result, "\n");
    result := TrimSuffix(result, "\n");
    if !IsPLSQLTail(result) { result := TrimSuffix(result, ";"); }
    assert CleanIs(clean, s);
  }

  /** The next line goes into the accumulator. */
  lemma CollectNext(acc: Acc, lines: seq<string>, i: nat, sep: string)
    requires i < |lines|
    ensures Collect(acc, lines[i..], sep) == Collect(OnLine(acc, lines[i], sep), lines[i + 1..], sep)
  {
    assert lines[i..][1..] == lines[i + 1..];
  }

  /** The first loop: lines into results. */
  method CollectLines(lines: seq<string>, sep: string) returns (results: seq<string>)
    ensures results == Results(Collect(Acc([], ""), lines, sep))
  {
    var buf := "";
    results := [];
    assert lines[0..] == lines;
    for i := 0 to |lines|
      invariant Collect(Acc(results, buf), lines[i..], sep) == Collect(Acc([], ""), lines, sep)
    {
      var line := lines[i];
      CollectNext(Acc(results, buf), lines, i, sep);
      if line == sep {
        results, buf := results + [buf], "";
        continue;
      }
      if line == "" || HasPrefix(line, "--") { continue; }
      buf := buf + line + "\n";
    }
    assert lines[|lines|..] == [];
    if |buf| > 0 { results := results + [buf]; }
  }

  method ParseMultiStatements(text: string, sep: string) returns (queries: seq<string>)
    ensures queries == Statements(text, sep)
  {
    var results := CollectLines(Lines(text), sep);
    QueryCleans();
    queries := CleanResults(results, Query);
  }

  lemma QueryCleans()
    ensures Cleans(Query)
  {
    forall s ensures CleanIs(Query, s) {}
  }

  /** The second loop: results into queries. */
  method CleanResults(results: seq<string>, ghost clean: string -> string) returns (queries: seq<string>)
    requires Cleans(clean)
    ensures queries == Queries(results, |results|, clean)
  {
    queries := [];
    for j := 0 to |results|
      invariant queries == Queries(results, j, clean)
    {
      var result := CleanUp(results[j], clean);
      if result == "" { continue; }
      queries := queries + [result];
    }
  }

  // ----- rendering and reading back -------------------------------------------------------------

  function Render(qs: seq<string>, sep: string): string {
    if |qs| == 0 then "" else qs[0] + "\n" + sep + "\n" + Render(qs[1..], sep)
  }

  /** The lines of a query. */
  function Pieces(q: string): seq<string>
    decreases |q|
  {
    var i := FirstNewLine(q);
    if i < |q| then [q[..i]] + Pieces(q[i + 1..]) else [q]
  }

  /** A line that survives: not blank, no comment, no separator, no carriage return at its end. */
  predicate PlainLine(line: string, sep: string) {
    && line != "" && !HasPrefix(line, "--") && line != sep
    && DropCR(line) == line && ByteLength(line) < LINE_LIMIT
    && forall k :: 0 <= k < |line| ==> line[k] != '\n'
  }

  predicate PlainLines(lines: seq<string>, sep: string) {
    |lines| == 0 || (PlainLine(lines[0], sep) && PlainLines(lines[1..], sep))
  }

  /** No white space at either end. */
  predicate Trimmed(q: string) {
    |q| > 0 && !IsSpace(q[0]) && !IsSpace(q[|q| - 1])
  }

  predicate PlainQuery(q: string, sep: string) {
    Trimmed(q) && PlainLines(Pieces(q), sep)
  }

  predicate KeepsTail(q: string) {
    IsPLSQLTail(q) || !HasSuffix(q, ";")
  }

  predicate PlainSeparator(sep: string) {
    && (forall k :: 0 <= k < |sep| ==> sep[k] != '\n')
    && DropCR(sep) == sep && ByteLength(sep) < LINE_LIMIT
  }

  function JoinLines(lines: seq<string>): string {
    if |lines| == 0 then "" else lines[0] + "\n" + JoinLines(lines[1..])
  }

  lemma {:induction false} PiecesJoin(q: string)
    ensures JoinLines(Pieces(q)) == q + "\n"
    decreases |q|
  {
    var i := FirstNewLine(q);
    if i < |q| {
      var tail := q[i + 1..];
      PiecesJoin(tail);
      JoinAtNewLine(q, i, Pieces(tail));
    } else {
      JoinOneLine(q);
    }
  }

  lemma JoinOneLine(q: string)
    ensures JoinLines([q]) == q + "\n"
  {
    assert [q][1..] == [];
    assert JoinLines([]) == "";
    assert q + "\n" + "" == q + "\n";
  }

  lemma JoinAtNewLine(q: string, i: nat, rest: seq<string>)
    requires i < |q| && q[i] == '\n' && JoinLines(rest) == q[i + 1..] + "\n"
    ensures JoinLines([q[..i]] + rest) == q + "\n"
  {
    JoinLinesCons(q[..i], rest);
    AroundNewLine(q, i);
  }

  lemma AroundNewLine(q: string, i: nat)
    requires i < |q| && q[i] == '\n'
    ensures q[..i] + "\n" + (q[i + 1..] + "\n") == q + "\n"
  {
  }

  lemma JoinLinesCons(line: string, rest: seq<string>)
    ensures JoinLines([line] + rest) == line + "\n" + JoinLines(rest)
  {
    assert ([line] + rest)[1..] == rest;
  }

  lemma FirstNewLineIs(s: string, i: nat)
    requires i < |s| && s[i] == '\n' && forall k :: 0 <= k < i ==> s[k] != '\n'
    ensures FirstNewLine(s) == i
  {
  }

  /** The scanner takes a terminated line off the front. */
  lemma LinesCons(line: string, rest: string)
    requires (forall k :: 0 <= k < |line| ==> line[k] != '\n') && ByteLength(line) < LINE_LIMIT
    ensures Lines(line + "\n" + rest) == [DropCR(line)] + Lines(rest)
  {
    var text := line + "\n" + rest;
    FirstNewLineIs(text, |line|);
    assert text[..|line|] == line;
    assert text[|line| + 1..] == rest;
  }

  lemma JoinCons(lines: seq<string>, rest: string)
    requires |lines| > 0
    ensures JoinLines(lines) + rest == lines[0] + "\n" + (JoinLines(lines[1..]) + rest)
  {
  }

  lemma ConsAssoc(lines: seq<string>, more: seq<string>)
    requires |lines| > 0
    ensures [lines[0]] + (lines[1..] + more) == lines + more
  {
  }

  lemma {:induction false} LinesOfJoined(lines: seq<string>, rest: string, sep: string)
    requires PlainLines(lines, sep)
    ensures Lines(JoinLines(lines) + rest) == lines + Lines(rest)
    decreases |lines|
  {
    if |lines| == 0 {
      assert JoinLines(lines) + rest == rest;
      assert lines + Lines(rest) == Lines(rest);
    } else {
      var tail := lines[1..];
      JoinCons(lines, rest);
      LinesOfJoined(tail, rest, sep);
      LinesCons(lines[0], JoinLines(tail) + rest);
      ConsAssoc(lines, Lines(rest));
    }
  }

  lemma {:induction false} CollectConcat(acc: Acc, a: seq<string>, b: seq<string>, sep: string)
    ensures Collect(acc, a + b, sep) == Collect(Collect(acc, a, sep), b, sep)
    decreases |a|
  {
    if |a| == 0 {
      assert a + b == b;
    } else {
      CollectConcat(OnLine(acc, a[0], sep), a[1..], b, sep);
      assert (a + b)[1..] == a[1..] + b;
    }
  }

  /** Plain lines end up in the buffer unchanged. */
  lemma {:induction false} CollectPlain(acc: Acc, lines: seq<string>, sep: string)
    requires PlainLines(lines, sep)
    ensures Collect(acc, lines, sep) == Acc(acc.results, acc.buf + JoinLines(lines))
    decreases |lines|
  {
    if |lines| == 0 {
      assert acc.buf + JoinLines(lines) == acc.buf;
    } else {
      var acc' := Acc(acc.results, acc.buf + lines[0] + "\n");
      assert OnLine(acc, lines[0], sep) == acc';
      CollectPlain(acc', lines[1..], sep);
      assert acc.buf + lines[0] + "\n" + JoinLines(lines[1..]) == acc.buf + JoinLines(lines);
    }
  }

  /** One rendered query: its text goes to the results, the buffer is empty again. */
  lemma CollectOne(q: string, rest: string, results: seq<string>, sep: string)
    requires PlainSeparator(sep) && PlainLines(Pieces(q), sep)
    ensures Collect(Acc(results, ""), Lines(q + "\n" + sep + "\n" + rest), sep)
            == Collect(Acc(results + [q + "\n"], ""), Lines(rest), sep)
  {
    var lines, after := Pieces(q), sep + "\n" + rest;
    PiecesJoin(q);
    assert q + "\n" + sep + "\n" + rest == JoinLines(lines) + after;
    LinesOfJoined(lines, after, sep);
    LinesCons(sep, rest);
    CollectConcat(Acc(results, ""), lines, Lines(after), sep);
    CollectPlain(Acc(results, ""), lines, sep);
    assert "" + JoinLines(lines) == q + "\n";
    assert Lines(after)[0] == sep && Lines(after)[1..] == Lines(rest);
  }

  function Terminated(qs: seq<string>): (r: seq<string>)
    ensures |r| == |qs| && forall i :: 0 <= i < |qs| ==> r[i] == qs[i] + "\n"
  {
    seq(|qs|, i requires 0 <= i < |qs| => qs[i] + "\n")
  }

  predicate AllPlain(qs: seq<string>, sep: string) {
    |qs| == 0 || (PlainLines(Pieces(qs[0]), sep) && AllPlain(qs[1..], sep))
  }

  lemma {:induction false} CollectRendered(qs: seq<string>, results: seq<string>, sep: string)
    requires PlainSeparator(sep) && AllPlain(qs, sep)
    ensures Collect(Acc(results, ""), Lines(Render(qs, sep)), sep) == Acc(results + Terminated(qs), "")
    decreases |qs|
  {
    if |qs| == 0 {
      assert results + Terminated(qs) == results;
    } else {
      CollectOne(qs[0], Render(qs[1..], sep), results, sep);
      CollectRendered(qs[1..], results + [qs[0] + "\n"], sep);
      TerminatedCons(qs, results);
    }
  }

  lemma TerminatedCons(qs: seq<string>, results: seq<string>)
    requires |qs| > 0
    ensures results + [qs[0] + "\n"] + Terminated(qs[1..]) == results + Terminated(qs)
  {
  }

  predicate AllSpace(s: string) {
    forall i :: 0 <= i < |s| ==> IsSpace(s[i])
  }

  lemma {:induction false} TrimLeftSplit(s: string) returns (a: string)
    ensures s == a + TrimLeft(s) && AllSpace(a)
    ensures TrimLeft(s) != "" ==> !IsSpace(TrimLeft(s)[0])
  {
    if |s| > 0 && IsSpace(s[0]) {
      a := TrimLeftSplit(s[1..]);
      a := [s[0]] + a;
      assert s == [s[0]] + s[1..];
    } else {
      a := "";
    }
  }

  lemma {:induction false} TrimRightSplit(s: string) returns (b: string)
    ensures s == TrimRight(s) + b && AllSpace(b)
    ensures TrimRight(s) != "" ==> !IsSpace(TrimRight(s)[|TrimRight(s)| - 1])
  {
    if |s| > 0 && IsSpace(s[|s| - 1]) {
      b := TrimRightSplit(s[..|s| - 1]);
      b := b + [s[|s| - 1]];
      assert s == s[..|s| - 1] + [s[|s| - 1]];
    } else {
      b := "";
    }
  }

  /** The clean-up of any collected text: of white space, a trimmed core and white space it keeps
      the core, without its last semicolon unless that ends a PL/SQL block. */
  lemma CleanUpKeepsCore(s: string) returns (a: string, core: string, b: string)
    ensures s == a + core + b && AllSpace(a) && AllSpace(b) && (core == "" || Trimmed(core))
    ensures Query(s) == if KeepsTail(core) then core else core[..|core| - 1]
  {
    a, core, b := TrimSpaceSplit(s);
    if core != "" { NoNewLineEnds(core); }
  }

  lemma TrimSpaceSplit(s: string) returns (a: string, core: string, b: string)
    ensures s == a + core + b && AllSpace(a) && AllSpace(b) && (core == "" || Trimmed(core)) && core == TrimSpace(s)
  {
    core := TrimSpace(s);
    a := TrimLeftSplit(s);
    b := TrimRightSplit(TrimLeft(s));
    assert a + (core + b) == a + core + b;
    if core != "" { assert core[0] == TrimLeft(s)[0]; }
  }

  lemma NoNewLineEnds(q: string)
    requires Trimmed(q)
    ensures TrimSuffix(TrimPrefix(q, "\n"), "\n") == q
  {
    assert q[0] != '\n' && q[|q| - 1] != '\n';
    assert !HasPrefix(q, "\n") by { assert "\n"[0] == '\n'; }
    assert !HasSuffix(q, "\n") by { assert q[|q| - 1..][0] == q[|q| - 1]; }
  }

  lemma TrimTerminated(q: string)
    requires Trimmed(q)
    ensures TrimSuffix(TrimPrefix(TrimSpace(q + "\n"), "\n"), "\n") == q
  {
    var s := q + "\n";
    assert s[0] == q[0] && TrimLeft(s) == s;
    assert s[|s| - 1] == '\n' && s[..|s| - 1] == q;
    assert IsSpace('\n');
    assert TrimRight(s) == TrimRight(q) == q;
    NoNewLineEnds(q);
  }

  /** A trimmed query comes out of the clean-up as it went in, unless it ends in a semicolon
      that is not the end of a PL/SQL block: that semicolon is lost. */
  lemma QueryOfTerminated(q: string)
    requires Trimmed(q)
    ensures Query(q + "\n") == if KeepsTail(q) then q else q[..|q| - 1]
  {
    TrimTerminated(q);
  }

  /** The first n queries survive the clean-up. */
  predicate SurviveUpTo(qs: seq<string>, n: nat, clean: string -> string)
    requires n <= |qs|
  {
    n == 0 || (SurviveUpTo(qs, n - 1, clean) && qs[n - 1] != "" && clean(qs[n - 1] + "\n") == qs[n - 1])
  }

  lemma {:induction false} QueriesOfTerminated(qs: seq<string>, n: nat, clean: string -> string)
    requires n <= |qs| && SurviveUpTo(qs, n, clean)
    ensures Queries(Terminated(qs), n, clean) == qs[..n]
  {
    if n > 0 {
      QueriesOfTerminated(qs, n - 1, clean);
      assert qs[..n] == qs[..n - 1] + [qs[n - 1]];
    }
  }

  /** Queries that can be rendered and read back. */
  predicate Renderable(q: string, sep: string) {
    PlainQuery(q, sep) && KeepsTail(q)
  }

  lemma {:induction false} AllPlainFrom(qs: seq<string>, sep: string)
    requires forall i :: 0 <= i < |qs| ==> Renderable(qs[i], sep)
    ensures AllPlain(qs, sep)
    decreases |qs|
  {
    if |qs| > 0 {
      assert Renderable(qs[0], sep);
      forall i | 0 <= i < |qs[1..]| ensures Renderable(qs[1..][i], sep) {
        assert Renderable(qs[i + 1], sep);
      }
      AllPlainFrom(qs[1..], sep);
    }
  }

  lemma RenderableSurvives(q: string, sep: string)
    requires Renderable(q, sep)
    ensures q != "" && Query(q + "\n") == q
  {
    QueryOfTerminated(q);
  }

  lemma {:induction false} SurviveAll(qs: seq<string>, clean: string -> string, n: nat)
    requires n <= |qs| && forall i :: 0 <= i < |qs| ==> qs[i] != "" && clean(qs[i] + "\n") == qs[i]
    ensures SurviveUpTo(qs, n, clean)
  {
    if n > 0 { SurviveAll(qs, clean, n - 1); }
  }

  /** What parsing makes of rendered queries, before any of them is looked at. */
  lemma StatementsOfRendered(qs: seq<string>, sep: string)
    requires PlainSeparator(sep) && AllPlain(qs, sep)
    ensures Statements(Render(qs, sep), sep) == Queries(Terminated(qs), |qs|, Query)
  {
    CollectRendered(qs, [], sep);
    assert [] + Terminated(qs) == Terminated(qs);
  }

  lemma StatementsOfOne(q: string, sep: string, clean: string -> string)
    requires PlainSeparator(sep) && PlainLines(Pieces(q), sep) && clean == Query
    ensures Statements(Render([q], sep), sep) == if clean(q + "\n") == "" then [] else [clean(q + "\n")]
  {
    assert AllPlain([q], sep) by { assert [q][1..] == []; }
    StatementsOfRendered([q], sep);
    assert Terminated([q]) == [q + "\n"];
    OneQuery(q + "\n", clean);
  }

  /** Rendering a list of plain queries with separator lines and parsing gives the list back,
      for every separator that is a line of its own, even one that looks like a comment. */
  lemma RoundTrip(qs: seq<string>, sep: string)
    requires PlainSeparator(sep) && forall i :: 0 <= i < |qs| ==> Renderable(qs[i], sep)
    ensures Statements(Render(qs, sep), sep) == qs
  {
    AllPlainFrom(qs, sep);
    StatementsOfRendered(qs, sep);
    RenderableReadBack(qs, sep);
  }

  /** The condition on the tail is exact: any other plain query loses its last semicolon. */
  lemma RoundTripIffTailKept(q: string, sep: string)
    requires PlainSeparator(sep) && PlainQuery(q, sep)
    ensures Statements(Render([q], sep), sep) == [q] <==> KeepsTail(q)
  {
    StatementsOfOne(q, sep, Query);
    QueryOfTerminated(q);
    assert !KeepsTail(q) ==> |q[..|q| - 1]| != |q|;
  }

  lemma OneQuery(result: string, clean: string -> string)
    ensures Queries([result], 1, clean) == if clean(result) == "" then [] else [clean(result)]
  {
    assert Queries([result], 0, clean) == [];
  }

  /** The default separator starts like a comment and still separates. */
  lemma DefaultSeparatorIsPlain()
    ensures PlainSeparator("---") && HasPrefix("---", "--")
  {
    assert "---"[..2] == "--" && "--"[..1] == "-" && "-"[..0] == "";
    assert ByteLength("-") == 1 && ByteLength("--") == 2;
  }

  lemma {:induction false} ByteLengthOfAll(s: string, c: char)
    requires forall i :: 0 <= i < |s| ==> s[i] == c
    ensures ByteLength(s) == |s| * CharBytes(c)
  {
    if |s| > 0 { ByteLengthOfAll(s[..|s| - 1], c); }
  }

  /** The limit counts bytes: a line of 40000 characters of two bytes each, far below the limit in
      characters, is dropped without an error, and so is everything after it. */
  lemma LongLineIsDropped(line: string, rest: string, sep: string)
    requires |line| == 40000 && (forall i :: 0 <= i < |line| ==> line[i] == '\U{E4}')
    ensures Statements(line + "\n" + rest, sep) == []
  {
    var text := line + "\n" + rest;
    FirstNewLineIs(text, |line|);
    assert text[..|line|] == line;
    ByteLengthOfAll(line, '\U{E4}');
    assert Lines(text) == [];
    assert Results(Collect(Acc([], ""), [], sep)) == [];
  }

  // ----- lines that do not matter ------------------------------------------------------------------

  /** Nothing, or whole lines. */
  predicate WholeLines(text: string) {
    text == "" || text[|text| - 1] == '\n'
  }

  /** A line of its own: no newline in it. */
  predicate OneLine(line: string) {
    forall k :: 0 <= k < |line| ==> line[k] != '\n'
  }

  /** The scanner keeps a line of fewer than 65536 bytes, and gives up at any other. */
  lemma LineKeptIff(line: string, rest: string)
    requires OneLine(line)
    ensures Lines(line + "\n" + rest) == if ByteLength(line) < 65536 then [DropCR(line)] + Lines(rest) else []
  {
    var text := line + "\n" + rest;
    FirstNewLineIs(text, |line|);
    assert text[..|line|] == line && text[|line| + 1..] == rest;
  }

  lemma AtNewLine(pre: string, i: nat, post: string)
    requires i < |pre| && pre[i] == '\n'
    ensures pre + post == pre[..i] + "\n" + (pre[i + 1..] + post)
  {
  }

  lemma RestIsWhole(pre: string, i: nat)
    requires i < |pre| && WholeLines(pre)
    ensures WholeLines(pre[i + 1..])
  {
  }

  /** The first line of whole lines, and what follows them. */
  lemma FirstOfWhole(pre: string, post: string, i: nat)
    requires pre != "" && WholeLines(pre) && i == FirstNewLine(pre)
    ensures i < |pre| && OneLine(pre[..i]) && WholeLines(pre[i + 1..])
    ensures pre + post == pre[..i] + "\n" + (pre[i + 1..] + post)
  {
    assert i < |pre|;
    AtNewLine(pre, i, post);
    RestIsWhole(pre, i);
  }

  /** What two texts do to an accumulator does not depend on what stands before them. */
  lemma {:induction false} SameBehind(acc: Acc, pre: string, a: string, b: string, sep: string)
    requires WholeLines(pre)
    requires forall x :: Collect(x, Lines(a), sep) == Collect(x, Lines(b), sep)
    ensures Collect(acc, Lines(pre + a), sep) == Collect(acc, Lines(pre + b), sep)
    decreases |pre|
  {
    if pre == "" {
      assert pre + a == a && pre + b == b;
    } else {
      var i := FirstNewLine(pre);
      var line, rest := pre[..i], pre[i + 1..];
      FirstOfWhole(pre, a, i);
      FirstOfWhole(pre, b, i);
      LineKeptIff(line, rest + a);
      LineKeptIff(line, rest + b);
      if ByteLength(line) < 65536 {
        SameBehind(OnLine(acc, DropCR(line), sep), rest, a, b, sep);
        CollectCons(acc, DropCR(line), Lines(rest + a), sep);
        CollectCons(acc, DropCR(line), Lines(rest + b), sep);
      }
    }
  }

  lemma CollectCons(acc: Acc, line: string, lines: seq<string>, sep: string)
    ensures Collect(acc, [line] + lines, sep) == Collect(OnLine(acc, line, sep), lines, sep)
  {
    assert ([line] + lines)[1..] == lines;
  }

  /** Blank lines and comments, unless they are the separator. */
  predicate Ignored(line: string, sep: string) {
    && OneLine(line) && ByteLength(line) < 65536
    && DropCR(line) != sep && (DropCR(line) == "" || HasPrefix(DropCR(line), "--"))
  }

  /** A blank line or a comment between any two lines changes nothing. */
  lemma IgnoredLine(pre: string, line: string, post: string, sep: string)
    requires WholeLines(pre) && Ignored(line, sep)
    ensures Statements(pre + (line + "\n" + post), sep) == Statements(pre + post, sep)
  {
    forall x ensures Collect(x, Lines(line + "\n" + post), sep) == Collect(x, Lines(post), sep) {
      LineKeptIff(line, post);
      CollectCons(x, DropCR(line), Lines(post), sep);
    }
    SameBehind(Acc([], ""), pre, line + "\n" + post, post, sep);
  }

  /** A text of such lines only has no statement. */
  lemma {:induction false} OnlyIgnored(lines: seq<string>, sep: string)
    requires forall k :: 0 <= k < |lines| ==> Ignored(lines[k], sep)
    ensures Statements(JoinLines(lines), sep) == []
    decreases |lines|
  {
    if lines == [] {
      assert Results(Collect(Acc([], ""), [], sep)) == [];
    } else {
      OnlyIgnored(lines[1..], sep);
      IgnoredLine("", lines[0], JoinLines(lines[1..]), sep);
      assert "" + (lines[0] + "\n" + JoinLines(lines[1..])) == JoinLines(lines);
      assert "" + JoinLines(lines[1..]) == JoinLines(lines[1..]);
    }
  }

  /** Windows line ends are those of other systems. */
  lemma CarriageReturnDropped(pre: string, line: string, post: string, sep: string)
    requires WholeLines(pre) && OneLine(line) && ByteLength(line) + 1 < 65536
    requires line == "" || line[|line| - 1] != '\r'
    ensures Statements(pre + (line + "\r\n" + post), sep) == Statements(pre + (line + "\n" + post), sep)
  {
    var a, b := line + "\r\n" + post, line + "\n" + post;
    SameLines(line, post);
    assert forall x :: Collect(x, Lines(a), sep) == Collect(x, Lines(b), sep);
    SameBehind(Acc([], ""), pre, a, b, sep);
  }

  lemma SameLines(line: string, post: string)
    requires OneLine(line) && ByteLength(line) + 1 < 65536 && (line == "" || line[|line| - 1] != '\r')
    ensures Lines(line + "\r\n" + post) == Lines(line + "\n" + post)
  {
    var cr := line + "\r";
    WithReturn(line, cr);
    assert line + "\r\n" + post == cr + "\n" + post;
    LineKeptIff(cr, post);
    LineKeptIff(line, post);
  }

  lemma WithReturn(line: string, cr: string)
    requires OneLine(line) && cr == line + "\r" && (line == "" || line[|line| - 1] != '\r')
    ensures OneLine(cr) && ByteLength(cr) == ByteLength(line) + 1 && DropCR(cr) == line && DropCR(line) == line
  {
    assert cr[..|line|] == line;
  }

  // ----- the last statement --------------------------------------------------------------------------

  lemma SplitAt(q: string, i: nat)
    requires i < |q| && q[i] == '\n'
    ensures q == q[..i] + "\n" + q[i + 1..]
  {
  }

  lemma {:induction false} LinesOfPieces(q: string, sep: string)
    requires PlainLines(Pieces(q), sep)
    ensures Lines(q) == Pieces(q)
    decreases |q|
  {
    var i := FirstNewLine(q);
    if i < |q| {
      var tail := q[i + 1..];
      PlainHead(q[..i], Pieces(tail), sep);
      LinesOfPieces(tail, sep);
      SplitAt(q, i);
      LinesCons(q[..i], tail);
    } else {
      LastLine(q, sep);
    }
  }

  lemma PlainHead(line: string, rest: seq<string>, sep: string)
    requires PlainLines([line] + rest, sep)
    ensures PlainLine(line, sep) && PlainLines(rest, sep)
  {
    assert ([line] + rest)[1..] == rest;
  }

  lemma LastLine(q: string, sep: string)
    requires FirstNewLine(q) == |q| && PlainLines([q], sep)
    ensures Lines(q) == [q]
  {
    assert [q][0] == q;
    assert q[..|q|] == q;
  }

  /** What the lines of an unterminated query leave in the buffer. */
  lemma LastCollected(results: seq<string>, q: string, sep: string, tail: string)
    requires PlainLines(Pieces(q), sep) && (tail == "" || tail == "\n")
    ensures Collect(Acc(results, ""), Lines(q + tail), sep) == Acc(results, q + "\n")
  {
    PiecesJoin(q);
    if tail == "" {
      assert q + tail == q;
      LinesOfPieces(q, sep);
    } else {
      LinesOfJoined(Pieces(q), "", sep);
      assert JoinLines(Pieces(q)) + "" == q + tail;
      assert Pieces(q) + Lines("") == Pieces(q);
    }
    CollectPlain(Acc(results, ""), Pieces(q), sep);
    assert "" + JoinLines(Pieces(q)) == q + "\n";
  }

  lemma RenderThen(qs: seq<string>, last: string, sep: string)
    requires |qs| > 0
    ensures Render(qs, sep) + last == qs[0] + "\n" + sep + "\n" + (Render(qs[1..], sep) + last)
  {
  }

  lemma {:induction false} CollectRenderedThen(qs: seq<string>, results: seq<string>, last: string, sep: string)
    requires PlainSeparator(sep) && AllPlain(qs, sep)
    ensures Collect(Acc(results, ""), Lines(Render(qs, sep) + last), sep)
            == Collect(Acc(results + Terminated(qs), ""), Lines(last), sep)
    decreases |qs|
  {
    if |qs| == 0 {
      assert results + Terminated(qs) == results;
      assert Render(qs, sep) + last == last;
    } else {
      var rest := Render(qs[1..], sep) + last;
      RenderThen(qs, last, sep);
      CollectOne(qs[0], rest, results, sep);
      CollectRenderedThen(qs[1..], results + [qs[0] + "\n"], last, sep);
      TerminatedCons(qs, results);
    }
  }

  /** The last query needs no separator after it, nor a newline: it is read back with the others. */
  lemma LastNeedsNoSeparator(qs: seq<string>, q: string, sep: string, tail: string)
    requires PlainSeparator(sep) && (forall i :: 0 <= i < |qs| ==> Renderable(qs[i], sep)) && Renderable(q, sep)
    requires tail == "" || tail == "\n"
    ensures Statements(Render(qs, sep) + (q + tail), sep) == qs + [q]
  {
    var all := qs + [q];
    RenderableSnoc(qs, q, sep);
    AllPlainFrom(qs, sep);
    RenderableReadBack(all, sep);
    assert |all| == |qs| + 1;
    StatementsWithLast(qs, q, sep, tail);
  }

  lemma RenderableSnoc(qs: seq<string>, q: string, sep: string)
    requires (forall i :: 0 <= i < |qs| ==> Renderable(qs[i], sep)) && Renderable(q, sep)
    ensures forall i :: 0 <= i < |qs + [q]| ==> Renderable((qs + [q])[i], sep)
    ensures PlainLines(Pieces(q), sep)
  {
  }

  /** Before any of the queries is looked at. */
  lemma StatementsWithLast(qs: seq<string>, q: string, sep: string, tail: string)
    requires PlainSeparator(sep) && AllPlain(qs, sep) && PlainLines(Pieces(q), sep) && (tail == "" || tail == "\n")
    ensures Statements(Render(qs, sep) + (q + tail), sep) == Queries(Terminated(qs + [q]), |qs| + 1, Query)
  {
    CollectedWithLast(qs, q, sep, tail);
    LastResult(Terminated(qs), q + "\n");
    TerminatedSnoc(qs, q);
  }

  lemma CollectedWithLast(qs: seq<string>, q: string, sep: string, tail: string)
    requires PlainSeparator(sep) && AllPlain(qs, sep) && PlainLines(Pieces(q), sep) && (tail == "" || tail == "\n")
    ensures Collect(Acc([], ""), Lines(Render(qs, sep) + (q + tail)), sep) == Acc(Terminated(qs), q + "\n")
  {
    CollectRenderedThen(qs, [], q + tail, sep);
    assert [] + Terminated(qs) == Terminated(qs);
    LastCollected(Terminated(qs), q, sep, tail);
  }

  lemma LastResult(results: seq<string>, buf: string)
    requires |buf| > 0
    ensures Results(Acc(results, buf)) == results + [buf]
  {
  }

  lemma TerminatedSnoc(qs: seq<string>, q: string)
    ensures Terminated(qs) + [q + "\n"] == Terminated(qs + [q])
  {
  }

  lemma RenderableReadBack(qs: seq<string>, sep: string)
    requires forall i :: 0 <= i < |qs| ==> Renderable(qs[i], sep)
    ensures Queries(Terminated(qs), |qs|, Query) == qs
  {
    forall i | 0 <= i < |qs| ensures qs[i] != "" && Query(qs[i] + "\n") == qs[i] {
      RenderableSurvives(qs[i], sep);
    }
    SurviveAll(qs, Query, |qs|);
    QueriesOfTerminated(qs, |qs|, Query);
    assert qs[..|qs|] == qs;
  }

  // ----- separators without a statement --------------------------------------------------------------

  lemma {:induction false} CollectAfter(front: seq<string>, acc: Acc, lines: seq<string>, sep: string)
    ensures var rest := Collect(acc, lines, sep);
            Collect(Acc(front + acc.results, acc.buf), lines, sep) == Acc(front + rest.results, rest.buf)
    decreases |lines|
  {
    if |lines| > 0 {
      var next := OnLine(acc, lines[0], sep);
      CollectAfter(front, next, lines[1..], sep);
      assert front + (acc.results + [acc.buf]) == front + acc.results + [acc.buf];
    }
  }

  lemma {:induction false} QueriesPrefix(a: seq<string>, b: seq<string>, n: nat, clean: string -> string)
    requires n <= |a|
    ensures Queries(a + b, n, clean) == Queries(a, n, clean)
  {
    if n > 0 { QueriesPrefix(a, b, n - 1, clean); }
  }

  lemma {:induction false} QueriesConcat(a: seq<string>, b: seq<string>, n: nat, clean: string -> string)
    requires n <= |b|
    ensures Queries(a + b, |a| + n, clean) == Queries(a, |a|, clean) + Queries(b, n, clean)
  {
    if n == 0 {
      QueriesPrefix(a, b, |a|, clean);
    } else {
      QueriesConcat(a, b, n - 1, clean);
      assert (a + b)[|a| + n - 1] == b[n - 1];
    }
  }

  lemma EmptyResultDropped(rest: seq<string>)
    ensures Queries([""] + rest, 1 + |rest|, Query) == Queries(rest, |rest|, Query)
  {
    QueriesConcat([""], rest, |rest|, Query);
    assert Query("") == "";
    OneQuery("", Query);
  }

  /** A separator at the very beginning separates nothing. */
  lemma LeadingSeparator(post: string, sep: string)
    requires PlainSeparator(sep)
    ensures Statements(sep + "\n" + post, sep) == Statements(post, sep)
  {
    ResultsAfterSeparator(post, sep);
    EmptyResultDropped(Results(Collect(Acc([], ""), Lines(post), sep)));
  }

  lemma ResultsAfterSeparator(post: string, sep: string)
    requires PlainSeparator(sep)
    ensures Results(Collect(Acc([], ""), Lines(sep + "\n" + post), sep))
            == [""] + Results(Collect(Acc([], ""), Lines(post), sep))
  {
    var lines := Lines(post);
    var rest := Collect(Acc([], ""), lines, sep);
    LinesCons(sep, post);
    CollectCons(Acc([], ""), sep, lines, sep);
    assert OnLine(Acc([], ""), sep, sep) == Acc([""], "");
    assert [""] + [] == [""];
    CollectAfter([""], Acc([], ""), lines, sep);
    ResultsAfter([""], rest);
  }

  lemma ResultsAfter(front: seq<string>, acc: Acc)
    ensures Results(Acc(front + acc.results, acc.buf)) == front + Results(acc)
  {
  }

  // ----- the end of a block -----------------------------------------------------------------------------

  function Lower(c: char): char {
    if 'A' <= c <= 'Z' then (c as int + 32) as char else c
  }

  /** A PL/SQL block ends with "end;" in any mixture of cases. */
  lemma BlockEndsWithEnd(s: string)
    ensures IsPLSQLTail(s) <==>
              |s| >= 4 && [Lower(s[|s| - 4]), Lower(s[|s| - 3]), Lower(s[|s| - 2]), Lower(s[|s| - 1])] == "end;"
  {
    if |s| >= 4 {
      var t := [Lower(s[|s| - 4]), Lower(s[|s| - 3]), Lower(s[|s| - 2]), Lower(s[|s| - 1])];
      assert t == "end;" <==> t[0] == 'e' && t[1] == 'n' && t[2] == 'd' && t[3] == ';';
    }
  }
}
