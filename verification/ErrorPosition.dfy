/** Mapping the position of a server error to a line and a column
    (computeLineFromPos of database/postgres/postgres.go). */
module ErrorPosition {

  const NEW_LINE: char := '\n'

  /** Every carriage return directly before a line feed is dropped. */
  function Normalise(s: string): string {
    if |s| == 0 then []
    else if |s| >= 2 && s[0] == '\r' && s[1] == '\n' then ['\n'] + Normalise(s[2..])
    else [s[0]] + Normalise(s[1..])
  }

  /** How often c occurs among the first n characters. */
  function Count(s: string, c: char, n: nat): nat
    requires n <= |s|
  {
    if n == 0 then 0 else Count(s, c, n - 1) + if s[n - 1] == c then 1 else 0
  }

  /** Index of the last c among the first n characters, or -1. */
  function LastIndex(s: string, c: char, n: nat): (i: int)
    requires n <= |s|
    ensures -1 <= i < n
    ensures i >= 0 ==> s[i] == c
    ensures forall k :: i < k < n ==> s[k] != c
  {
    if n == 0 then -1 else if s[n - 1] == c then n - 1 else LastIndex(s, c, n - 1)
  }

  method RunesCount(input: string, target: char) returns (count: nat)
    ensures count == Count(input, target, |input|)
  {
    count := 0;
    for i := 0 to |input|
      invariant count == Count(input, target, i)
    {
      if input[i] == target { count := count + 1; }
    }
  }

  method RunesLastIndex(input: string, target: char) returns (i: int)
    ensures -1 <= i < |input| && (i >= 0 ==> input[i] == target)
    ensures forall k :: i < k < |input| ==> input[k] != target
  {
    i := |input| - 1;
    while i >= 0
      invariant -1 <= i < |input|
      invariant forall k :: i < k < |input| ==> input[k] != target
    {
      if input[i] == target { return; }
      i := i - 1;
    }
  }

  datatype Position = Position(line: nat, col: int)

  function Locate(text: string, pos: nat): Position
    requires pos <= |text|
  {
    Position(Count(text, NEW_LINE, pos) + 1, pos - 1 - LastIndex(text, NEW_LINE, pos))
  }

  method ComputeLineFromPos(s: string, pos: nat) returns (r: Position, ok: bool)
    ensures ok <==> pos <= |Normalise(s)|
    ensures ok ==> r == Locate(Normalise(s), pos)
    ensures !ok ==> r == Position(0, 0)
  {
    var runes := Normalise(s);
    if pos > |runes| { return Position(0, 0), false; }
    var sel := runes[..pos];
    var lines := RunesCount(sel, NEW_LINE);
    var last := RunesLastIndex(sel, NEW_LINE);
    PrefixAgrees(runes, pos, pos);
    return Position(lines + 1, pos - 1 - last), true;
  }

  lemma {:induction false} PrefixAgrees(text: string, pos: nat, n: nat)
    requires n <= pos <= |text|
    ensures Count(text[..pos], NEW_LINE, n) == Count(text, NEW_LINE, n)
    ensures LastIndex(text[..pos], NEW_LINE, n) == LastIndex(text, NEW_LINE, n)
  {
    if n > 0 { PrefixAgrees(text, pos, n - 1); }
  }

  lemma {:induction false} CountMonotone(text: string, m: nat, n: nat)
    requires m <= n <= |text|
    ensures Count(text, NEW_LINE, m) <= Count(text, NEW_LINE, n)
    ensures m < n && text[n - 1] == NEW_LINE ==> Count(text, NEW_LINE, m) < Count(text, NEW_LINE, n)
  {
    if m < n { CountMonotone(text, m, n - 1); }
  }

  /** The newlines strictly between two positions are counted. */
  lemma {:induction false} SameLineSameStart(text: string, a: nat, b: nat)
    requires a <= b <= |text| && Count(text, NEW_LINE, a) == Count(text, NEW_LINE, b)
    ensures LastIndex(text, NEW_LINE, a) == LastIndex(text, NEW_LINE, b)
  {
    if a < b {
      CountMonotone(text, a, b);
      CountMonotone(text, a, b - 1);
      SameLineSameStart(text, a, b - 1);
    }
  }

  ghost predicate Before(p: Position, q: Position) {
    p.line < q.line || (p.line == q.line && p.col < q.col)
  }

  /** Later positions come later on the page, so no two positions are shown alike. */
  lemma LocateIncreasing(text: string, a: nat, b: nat)
    requires a < b <= |text|
    ensures Before(Locate(text, a), Locate(text, b))
  {
    CountMonotone(text, a, b);
    if Count(text, NEW_LINE, a) == Count(text, NEW_LINE, b) { SameLineSameStart(text, a, b); }
  }

  // ----- from line and column back to the position ---------------------------------------------

  function FirstNewLine(text: string): (i: nat)
    ensures i <= |text| && (i < |text| ==> text[i] == NEW_LINE)
    ensures forall k :: 0 <= k < i ==> text[k] != NEW_LINE
  {
    if |text| == 0 || text[0] == NEW_LINE then 0 else FirstNewLine(text[1..]) + 1
  }

  /** The lines of a text, without their newlines; there is always at least one. */
  function LinesOf(text: string): (lines: seq<string>)
    ensures |lines| > 0
    decreases |text|
  {
    var i := FirstNewLine(text);
    if i < |text| then [text[..i]] + LinesOf(text[i + 1..]) else [text]
  }

  /** The length of the first n lines, each with its newline. */
  function LengthOfFirst(lines: seq<string>, n: nat): nat
    requires n <= |lines|
  {
    if n == 0 then 0 else |lines[0]| + 1 + LengthOfFirst(lines[1..], n - 1)
  }

  /** Cutting off the first line, which ends at i. */
  lemma {:induction false} WithoutFirstLine(text: string, i: nat, n: nat)
    requires i < n <= |text| && text[i] == NEW_LINE && forall k :: 0 <= k < i ==> text[k] != NEW_LINE
    ensures var rest, m := text[i + 1..], n - i - 1;
            && Count(text, NEW_LINE, n) == Count(rest, NEW_LINE, m) + 1
            && LastIndex(text, NEW_LINE, n) == LastIndex(rest, NEW_LINE, m) + i + 1
  {
    if n == i + 1 {
      NoNewLineNoCount(text, i);
    } else {
      WithoutFirstLine(text, i, n - 1);
    }
  }

  lemma {:induction false} NoNewLineNoCount(text: string, n: nat)
    requires n <= |text| && forall k :: 0 <= k < n ==> text[k] != NEW_LINE
    ensures Count(text, NEW_LINE, n) == 0 && LastIndex(text, NEW_LINE, n) == -1
  {
    if n > 0 { NoNewLineNoCount(text, n - 1); }
  }

  lemma LengthCons(first: string, rest: seq<string>, n: nat)
    requires n <= |rest|
    ensures LengthOfFirst([first] + rest, n + 1) == |first| + 1 + LengthOfFirst(rest, n)
  {
    assert ([first] + rest)[1..] == rest;
  }

  /** The column lies within its line, and with the earlier lines it makes up the position. */
  ghost predicate Recovers(lines: seq<string>, p: Position, pos: nat)
    requires p.line > 0
  {
    && p.line - 1 < |lines| && 0 <= p.col <= |lines[p.line - 1]|
    && LengthOfFirst(lines, p.line - 1) + p.col == pos
  }

  lemma RecoversCons(first: string, rest: seq<string>, p: Position, pos: nat)
    requires p.line > 0 && Recovers(rest, p, pos)
    ensures Recovers([first] + rest, Position(p.line + 1, p.col), pos + |first| + 1)
  {
    LengthCons(first, rest, p.line - 1);
  }

  /** The position is recovered from line and column: it is the length of all earlier lines with
      their newlines plus the column. */
  lemma {:induction false} LocateRecovers(text: string, pos: nat)
    requires pos <= |text|
    ensures Recovers(LinesOf(text), Locate(text, pos), pos)
    decreases |text|
  {
    var i := FirstNewLine(text);
    if pos <= i {
      NoNewLineNoCount(text, pos);
    } else {
      var rest := text[i + 1..];
      LocateRecovers(rest, pos - i - 1);
      LocateStep(text, i, pos);
      RecoversCons(text[..i], LinesOf(rest), Locate(rest, pos - i - 1), pos - i - 1);
    }
  }

  lemma LocateStep(text: string, i: nat, pos: nat)
    requires i < pos <= |text| && text[i] == NEW_LINE && forall k :: 0 <= k < i ==> text[k] != NEW_LINE
    ensures var p := Locate(text[i + 1..], pos - i - 1); Locate(text, pos) == Position(p.line + 1, p.col)
  {
    WithoutFirstLine(text, i, pos);
  }

  predicate PairAt(s: string, i: nat) {
    i + 1 < |s| && s[i] == '\r' && s[i + 1] == '\n'
  }

  lemma PairShift(s: string)
    requires |s| > 0
    ensures (forall i: nat :: !PairAt(s, i)) <==> !PairAt(s, 0) && forall i: nat :: !PairAt(s[1..], i)
  {
    if (forall i: nat :: !PairAt(s, i)) {
      forall i: nat ensures !PairAt(s[1..], i) { assert !PairAt(s, i + 1); }
    }
    if !PairAt(s, 0) && (forall i: nat :: !PairAt(s[1..], i)) {
      forall i: nat ensures !PairAt(s, i) { if i > 0 { assert !PairAt(s[1..], i - 1); } }
    }
  }

  /** Normalising changes exactly the texts that contain a CRLF pair, and shortens those. */
  lemma {:induction false} NormaliseFixpoint(s: string)
    ensures |Normalise(s)| <= |s|
    ensures (forall i: nat :: !PairAt(s, i)) <==> Normalise(s) == s
  {
    if |s| > 0 {
      if |s| >= 2 && s[0] == '\r' && s[1] == '\n' {
        NormaliseFixpoint(s[2..]);
        assert PairAt(s, 0);
        assert Normalise(s)[0] == '\n';
      } else {
        NormaliseFixpoint(s[1..]);
        assert s == [s[0]] + s[1..];
        PairShift(s);
      }
    }
  }

  // ----- which characters stay -----------------------------------------------------------------

  /** The first n characters without the carriage returns that stand directly before a newline. */
  function Kept(s: string, n: nat): string
    requires n <= |s|
  {
    if n == 0 then "" else Kept(s, n - 1) + if PairAt(s, n - 1) then "" else [s[n - 1]]
  }

  lemma {:induction false} KeptCons(s: string, n: nat)
    requires 0 < n <= |s|
    ensures Kept(s, n) == (if PairAt(s, 0) then "" else [s[0]]) + Kept(s[1..], n - 1)
  {
    if n == 1 {
      assert Kept(s, 0) == "" && Kept(s[1..], 0) == "";
    } else {
      KeptCons(s, n - 1);
      assert PairAt(s, n - 1) <==> PairAt(s[1..], n - 2);
    }
  }

  /** Normalising removes exactly the carriage returns before a newline. */
  lemma {:induction false} NormaliseIsKept(s: string)
    ensures Normalise(s) == Kept(s, |s|)
  {
    if |s| > 0 {
      KeptCons(s, |s|);
      if PairAt(s, 0) {
        NormaliseIsKept(s[2..]);
        KeptCons(s[1..], |s| - 1);
        assert s[1..][1..] == s[2..];
      } else {
        NormaliseIsKept(s[1..]);
      }
    }
  }

  lemma {:induction false} KeptPrefix(s: string, n: nat, m: nat)
    requires n <= m <= |s|
    ensures Kept(s, n) <= Kept(s, m)
  {
    if n < m { KeptPrefix(s, n, m - 1); }
  }

  /** Appending to a text does not change the counts of its beginning. */
  lemma {:induction false} CountPrefix(a: string, b: string, n: nat)
    requires n <= |a| && a <= b
    ensures Count(b, NEW_LINE, n) == Count(a, NEW_LINE, n)
  {
    if n > 0 { CountPrefix(a, b, n - 1); }
  }

  lemma {:induction false} KeptCount(s: string, n: nat)
    requires n <= |s|
    ensures Count(Kept(s, n), NEW_LINE, |Kept(s, n)|) == Count(s, NEW_LINE, n)
  {
    if n > 0 {
      KeptCount(s, n - 1);
      CountPrefix(Kept(s, n - 1), Kept(s, n), |Kept(s, n - 1)|);
    }
  }

  /** Every other character keeps its line: it stands, after the characters kept before it, behind as
      many newlines as in the text itself. */
  lemma LinesUnchanged(s: string, n: nat)
    requires n <= |s|
    ensures var i := |Kept(s, n)|;
            && i <= |Normalise(s)| && Count(Normalise(s), NEW_LINE, i) == Count(s, NEW_LINE, n)
            && (n < |s| && !PairAt(s, n) ==> i < |Normalise(s)| && Normalise(s)[i] == s[n])
  {
    NormaliseIsKept(s);
    KeptPrefix(s, n, |s|);
    LineBehind(s, n, Normalise(s));
    if n < |s| && !PairAt(s, n) {
      KeptPrefix(s, n + 1, |s|);
      KeptNext(s, n, Normalise(s));
    }
  }

  lemma LineBehind(s: string, n: nat, text: string)
    requires n <= |s| && Kept(s, n) <= text
    ensures Count(text, NEW_LINE, |Kept(s, n)|) == Count(s, NEW_LINE, n)
  {
    KeptCount(s, n);
    CountPrefix(Kept(s, n), text, |Kept(s, n)|);
  }

  lemma KeptNext(s: string, n: nat, text: string)
    requires n < |s| && !PairAt(s, n) && Kept(s, n + 1) <= text
    ensures var i := |Kept(s, n)|; i < |text| && text[i] == s[n]
  {
    assert Kept(s, n + 1) == Kept(s, n) + [s[n]];
  }

  // ----- pairs that remain -----------------------------------------------------------------------

  /** Two carriage returns before a newline. */
  predicate TripleAt(s: string, i: nat) {
    i + 2 < |s| && s[i] == '\r' && s[i + 1] == '\r' && s[i + 2] == '\n'
  }

  ghost predicate HasPair(s: string) { exists i: nat :: PairAt(s, i) }

  ghost predicate HasTriple(s: string) { exists i: nat :: TripleAt(s, i) }

  lemma HasPairCons(c: char, s: string)
    ensures HasPair([c] + s) <==> PairAt([c] + s, 0) || HasPair(s)
  {
    var t := [c] + s;
    if HasPair(t) && !PairAt(t, 0) {
      var i: nat :| PairAt(t, i);
      assert PairAt(s, i - 1);
    }
    if HasPair(s) {
      var i: nat :| PairAt(s, i);
      assert PairAt(t, i + 1);
    }
  }

  lemma HasTripleCons(s: string)
    requires |s| > 0
    ensures HasTriple(s) <==> TripleAt(s, 0) || HasTriple(s[1..])
  {
    if HasTriple(s) && !TripleAt(s, 0) {
      var i: nat :| TripleAt(s, i);
      assert TripleAt(s[1..], i - 1);
    }
    if HasTriple(s[1..]) {
      var i: nat :| TripleAt(s[1..], i);
      assert TripleAt(s, i + 1);
    }
  }

  lemma NormaliseHead(s: string)
    requires |s| > 0
    ensures |Normalise(s)| > 0 && (Normalise(s)[0] == '\n' <==> s[0] == '\n' || PairAt(s, 0))
  {
  }

  /** The text is gone through once: a CRLF pair remains, or rather arises, exactly when there were
      two carriage returns before a newline. */
  lemma {:induction false} PairRemainsIff(s: string)
    ensures HasPair(Normalise(s)) <==> HasTriple(s)
  {
    if |s| > 0 {
      HasTripleCons(s);
      if PairAt(s, 0) {
        PairRemainsIff(s[2..]);
        HasPairCons('\n', Normalise(s[2..]));
        HasTripleCons(s[1..]);
        assert s[1..][1..] == s[2..];
      } else {
        PairRemainsIff(s[1..]);
        HasPairCons(s[0], Normalise(s[1..]));
        if |s| > 1 { NormaliseHead(s[1..]); }
      }
    }
  }
}
