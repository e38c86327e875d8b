/** Creating and reading migration file names: nextSeqVersion and the name construction of
    internal/cli/commands.go, and the parser of source/parse.go. */
module FileNames {
  import opened Types
  import opened VersionIndex

  // ----- decimal numbers ------------------------------------------------------------------

  predicate IsDigit(c: char) { '0' <= c <= '9' }

  function DigitValue(c: char): nat
    requires IsDigit(c)
  {
    c as int - '0' as int
  }

  function DigitChar(d: nat): (c: char)
    requires d < 10
    ensures IsDigit(c) && DigitValue(c) == d
  {
    ('0' as int + d) as char
  }

  predicate AllDigits(s: string) { forall i :: 0 <= i < |s| ==> IsDigit(s[i]) }

  /** Reading digits from left to right after a number that was read before. */
  function ReadFrom(acc: nat, s: string): nat
    requires AllDigits(s)
    decreases |s|
  {
    if |s| == 0 then acc else ReadFrom(acc * 10 + DigitValue(s[0]), s[1..])
  }

  function ValueOf(s: string): nat
    requires AllDigits(s)
  {
    ReadFrom(0, s)
  }

  /** strconv.ParseUint(s, 10, 64). */
  function ParseUint(s: string): Option<nat> {
    if |s| == 0 || !AllDigits(s) || ValueOf(s) >= UINT_SIZE then None else Some(ValueOf(s))
  }

  function Decimal(n: nat): (s: string)
    ensures |s| > 0 && AllDigits(s)
  {
    if n < 10 then [DigitChar(n)] else Decimal(n / 10) + [DigitChar(n % 10)]
  }

  function Zeros(k: nat): (s: string)
    ensures |s| == k && forall i :: 0 <= i < k ==> s[i] == '0'
  {
    if k == 0 then "" else "0" + Zeros(k - 1)
  }

  /** The format verb %0*d. */
  function Padded(n: nat, width: nat): (s: string)
    ensures |s| >= width && |s| > 0 && AllDigits(s)
  {
    var d := Decimal(n);
    Zeros(if |d| < width then width - |d| else 0) + d
  }

  lemma {:induction false} ReadConcat(acc: nat, a: string, b: string)
    requires AllDigits(a) && AllDigits(b)
    ensures AllDigits(a + b) && ReadFrom(acc, a + b) == ReadFrom(ReadFrom(acc, a), b)
    decreases |a|
  {
    if |a| == 0 {
      assert a + b == b;
    } else {
      ReadConcat(acc * 10 + DigitValue(a[0]), a[1..], b);
      assert (a + b)[1..] == a[1..] + b;
    }
  }

  lemma {:induction false} DecimalReads(n: nat)
    ensures ValueOf(Decimal(n)) == n
  {
    if n < 10 {
      assert Decimal(n)[1..] == "";
      assert ReadFrom(n, "") == n;
    } else {
      DecimalReads(n / 10);
      var last := [DigitChar(n % 10)];
      ReadConcat(0, Decimal(n / 10), last);
      assert last[1..] == "";
    }
  }

  lemma {:induction false} ZerosRead(k: nat)
    ensures ValueOf(Zeros(k)) == 0
  {
    if k > 0 {
      ZerosRead(k - 1);
      assert Zeros(k)[1..] == Zeros(k - 1);
    }
  }

  /** Printing with padding and reading back. */
  lemma PaddedReads(n: nat, width: nat)
    ensures ValueOf(Padded(n, width)) == n
  {
    var d := Decimal(n);
    var zeros := Zeros(if |d| < width then width - |d| else 0);
    ZerosRead(|zeros|);
    assert zeros == Zeros(|zeros|);
    ReadConcat(0, zeros, d);
    DecimalReads(n);
  }

  // ----- order of names and order of versions ------------------------------------------------

  /** The byte-wise order in which filepath.Glob sorts names. */
  predicate LexLe(s: string, t: string)
    decreases |s|
  {
    |s| == 0 || (|t| > 0 && (s[0] < t[0] || (s[0] == t[0] && LexLe(s[1..], t[1..]))))
  }

  /** A head start is never made up by equally many digits. */
  lemma {:induction false} ReadMonotone(a: nat, b: nat, s: string, t: string)
    requires a < b && |s| == |t| && AllDigits(s) && AllDigits(t)
    ensures ReadFrom(a, s) < ReadFrom(b, t)
    decreases |s|
  {
    if |s| > 0 {
      ReadMonotone(a * 10 + DigitValue(s[0]), b * 10 + DigitValue(t[0]), s[1..], t[1..]);
    }
  }

  /** Among names with equally many leading digits, name order is version order. */
  lemma {:induction false} NameOrderIsVersionOrder(acc: nat, s: string, t: string, w: nat)
    requires w <= |s| && w <= |t| && AllDigits(s[..w]) && AllDigits(t[..w]) && LexLe(s, t)
    ensures ReadFrom(acc, s[..w]) <= ReadFrom(acc, t[..w])
    decreases w
  {
    if w > 0 {
      var a, b := acc * 10 + DigitValue(s[..w][0]), acc * 10 + DigitValue(t[..w][0]);
      assert s[..w][1..] == s[1..][..w - 1];
      assert t[..w][1..] == t[1..][..w - 1];
      if s[0] < t[0] {
        ReadMonotone(a, b, s[..w][1..], t[..w][1..]);
      } else {
        NameOrderIsVersionOrder(a, s[1..], t[1..], w - 1);
      }
    }
  }

  // ----- the next sequence number ---------------------------------------------------------------

  datatype Created<T> = Created(value: T) | Refused(reason: string)

  function IndexOf(s: string, c: char): (i: int)
    ensures -1 <= i < |s|
    ensures i >= 0 ==> s[i] == c && forall k :: 0 <= k < i ==> s[k] != c
    ensures i == -1 ==> c !in s
  {
    if |s| == 0 then -1
    else if s[0] == c then 0
    else var i := IndexOf(s[1..], c); if i == -1 then -1 else i + 1
  }

  /** `matches` are the base names found, in name order. */
  function NextSeqVersion(matches: seq<string>, seqDigits: int): Created<string> {
    if seqDigits <= 0 then Refused("invalid sequence width")
    else if |matches| == 0 then Sized(1, seqDigits)
    else
      var name := matches[|matches| - 1];
      var idx := IndexOf(name, '_');
      if idx < 1 then Refused("malformed migration filename")
      else match ParseUint(name[..idx])
        case None => Refused("not a number")
        case Some(n) => Sized((n + 1) % UINT_SIZE, seqDigits)
  }

  function Sized(n: nat, seqDigits: nat): Created<string> {
    if |Padded(n, seqDigits)| > seqDigits then Refused("too large") else Created(Padded(n, seqDigits))
  }

  function Pow10(w: nat): nat {
    if w == 0 then 1 else 10 * Pow10(w - 1)
  }

  lemma {:induction false} DecimalLength(n: nat, w: nat)
    requires w > 0
    ensures |Decimal(n)| <= w <==> n < Pow10(w)
    decreases w
  {
    if n >= 10 && w > 1 {
      DecimalLength(n / 10, w - 1);
    } else if n < 10 {
      Pow10AtLeast(w);
    } else {
      assert Pow10(1) == 10 * Pow10(0);
    }
  }

  lemma {:induction false} Pow10AtLeast(w: nat)
    requires w > 0
    ensures Pow10(w) >= 10
  {
    if w > 1 { Pow10AtLeast(w - 1); } else { assert Pow10(0) == 1; }
  }

  /** A number is refused exactly when it needs more digits than the width. */
  lemma SizedIff(n: nat, w: nat)
    requires w > 0
    ensures Sized(n, w) == if n < Pow10(w) then Created(Padded(n, w)) else Refused("too large")
  {
    DecimalLength(n, w);
  }

  /** A name that starts with exactly w digits and an underscore. */
  predicate Numbered(name: string, w: nat) {
    |name| > w && AllDigits(name[..w]) && name[w] == '_'
  }

  ghost predicate SortedNames(names: seq<string>) {
    forall i, j :: 0 <= i < j < |names| ==> LexLe(names[i], names[j])
  }

  ghost predicate AllNumbered(names: seq<string>, w: nat) {
    forall i :: 0 <= i < |names| ==> Numbered(names[i], w)
  }

  lemma NumberedIndex(name: string, w: nat)
    requires Numbered(name, w)
    ensures IndexOf(name, '_') == w
  {
    assert forall k :: 0 <= k < w ==> name[k] == name[..w][k] != '_';
  }

  /** The last name carries the highest version. */
  lemma LastIsHighest(names: seq<string>, w: nat, i: nat)
    requires SortedNames(names) && AllNumbered(names, w) && i < |names|
    ensures Numbered(names[i], w) && Numbered(names[|names| - 1], w)
    ensures ValueOf(names[i][..w]) <= ValueOf(names[|names| - 1][..w])
  {
    assert Numbered(names[i], w) && Numbered(names[|names| - 1], w);
    if i < |names| - 1 { NameOrderIsVersionOrder(0, names[i], names[|names| - 1], w); }
  }

  lemma SizedReads(n: nat, w: nat, v: string)
    requires n < UINT_SIZE && Sized(n, w) == Created(v)
    ensures |v| == w && AllDigits(v) && ValueOf(v) == n
  {
    PaddedReads(n, w);
  }

  lemma Wraps(n: nat)
    requires n < UINT_SIZE
    ensures (n + 1) % UINT_SIZE == if n + 1 < UINT_SIZE then n + 1 else 0
  {
  }

  lemma NextOfLast(names: seq<string>, w: nat, v: string)
    requires w > 0 && |names| > 0 && Numbered(names[|names| - 1], w)
    requires NextSeqVersion(names, w) == Created(v)
    ensures |v| == w && AllDigits(v)
    ensures var n := ValueOf(names[|names| - 1][..w]);
            n < UINT_SIZE && ValueOf(v) == if n + 1 < UINT_SIZE then n + 1 else 0
  {
    var last := names[|names| - 1];
    NumberedIndex(last, w);
    var n := ValueOf(last[..w]);
    assert ParseUint(last[..w]) == Some(n);
    Wraps(n);
    SizedReads((n + 1) % UINT_SIZE, w, v);
  }

  /** In a directory of names with w leading digits, the new version is greater than every
      existing one, exactly as long as the counter does not overflow 64 bits. */
  lemma NextExceedsAll(names: seq<string>, w: nat, v: string)
    requires w > 0 && SortedNames(names) && AllNumbered(names, w)
    requires NextSeqVersion(names, w) == Created(v)
    ensures |v| == w && AllDigits(v) && ValueOf(v) < UINT_SIZE
    ensures |names| > 0 ==> Numbered(names[|names| - 1], w)
    ensures (forall i :: 0 <= i < |names| ==> Numbered(names[i], w) && ValueOf(names[i][..w]) < ValueOf(v))
            <==> (|names| == 0 || ValueOf(names[|names| - 1][..w]) + 1 < UINT_SIZE)
  {
    if |names| == 0 {
      SizedReads(1, w, v);
    } else {
      assert Numbered(names[|names| - 1], w);
      NextOfLast(names, w, v);
      forall i | 0 <= i < |names|
        ensures Numbered(names[i], w) && ValueOf(names[i][..w]) <= ValueOf(names[|names| - 1][..w])
      {
        LastIsHighest(names, w, i);
      }
    }
  }

  /** The number after the highest one of the directory, before it is cut to 64 bits. */
  function NextNumber(names: seq<string>, w: nat): nat
    requires |names| > 0 ==> Numbered(names[|names| - 1], w)
  {
    if |names| == 0 then 1 else ValueOf(names[|names| - 1][..w]) + 1
  }

  /** When a next version is created, and which: the number must fit 64 bits (it wraps to zero
      beyond them, and numbers that do not fit are not read at all) and the width. Only the last
      name counts, and it may have any number of digits. */
  lemma NextCreatedIff(names: seq<string>, digits: nat, w: nat)
    requires w > 0 && (|names| > 0 ==> digits > 0 && Numbered(names[|names| - 1], digits))
    ensures var n := NextNumber(names, digits);
            && (n < UINT_SIZE ==>
                  NextSeqVersion(names, w) == if n < Pow10(w) then Created(Padded(n, w)) else Refused("too large"))
            && (n == UINT_SIZE ==> NextSeqVersion(names, w) == Created(Padded(0, w)))
            && (n > UINT_SIZE ==> NextSeqVersion(names, w).Refused?)
  {
    if |names| == 0 {
      SizedIff(1, w);
    } else {
      var last := names[|names| - 1];
      NumberedIndex(last, digits);
      var n := ValueOf(last[..digits]);
      if n < UINT_SIZE {
        assert ParseUint(last[..digits]) == Some(n);
        Wraps(n);
        SizedIff((n + 1) % UINT_SIZE, w);
        Pow10AtLeast(w);
      }
    }
  }

  ghost predicate Unnumbered(name: string) { forall k: nat :: k > 0 ==> !Numbered(name, k) }

  /** Nothing is created without a width, or after a last name that does not start with a number and
      an underscore. */
  lemma NextRefused(names: seq<string>, w: int)
    requires w <= 0 || (|names| > 0 && Unnumbered(names[|names| - 1]))
    ensures NextSeqVersion(names, w).Refused?
  {
    if w > 0 {
      var last := names[|names| - 1];
      var i := IndexOf(last, '_');
      if i >= 1 { assert !Numbered(last, i); }
    }
  }

  // ----- parsing a name ---------------------------------------------------------------------------

  function DirectionName(d: Direction): string {
    match d case Up => "up" case Down => "down"
  }

  /** A direction segment ".up." or ".down." at position j. */
  predicate SegmentAt(s: string, j: nat, d: Direction) {
    var seg := "." + DirectionName(d) + ".";
    j + |seg| <= |s| && s[j..j + |seg|] == seg
  }

  predicate AnySegmentAt(s: string, j: nat) {
    SegmentAt(s, j, Up) || SegmentAt(s, j, Down)
  }

  /** The last segment that starts before n: the greedy match takes it. */
  function LastSegment(s: string, n: nat): (r: Option<nat>)
    ensures r.Some? ==> r.value < n && AnySegmentAt(s, r.value)
    ensures r.Some? ==> forall j: nat :: r.value < j < n ==> !AnySegmentAt(s, j)
    ensures r.None? ==> forall j: nat :: j < n ==> !AnySegmentAt(s, j)
  {
    if n == 0 then None else if AnySegmentAt(s, n - 1) then Some(n - 1) else LastSegment(s, n - 1)
  }

  /** Length of the leading run of digits. */
  function DigitRun(s: string): (n: nat)
    ensures n <= |s| && AllDigits(s[..n])
    ensures n < |s| ==> !IsDigit(s[n])
  {
    if |s| == 0 || !IsDigit(s[0]) then 0
    else
      var n := DigitRun(s[1..]);
      assert s[..n + 1] == [s[0]] + s[1..][..n];
      n + 1
  }

  /** The file name pattern: digits, underscore, identifier, direction segment, rest. */
  function Parse(raw: string): Option<Entry> {
    var n := DigitRun(raw);
    if n == 0 || n >= |raw| || raw[n] != '_' then None
    else
      var rest := raw[n + 1..];
      if '\n' in rest then None   // the pattern's dot does not match a newline
      else match LastSegment(rest, |rest|)
        case None => None
        case Some(j) =>
          match ParseUint(raw[..n])
          case None => None
          case Some(v) => Some(Entry(v, rest[..j], if SegmentAt(rest, j, Down) then Down else Up, raw))
  }

  /** The name createCmd gives a file; `ext` starts with a dot. */
  function FileName(version: string, name: string, d: Direction, ext: string): string {
    version + "_" + (name + "." + DirectionName(d) + ext)
  }

  lemma FileNameIs(version: string, name: string, d: Direction, ext: string, part: string)
    requires part == if d.Up? then ".up" else ".down"
    ensures FileName(version, name, d, ext) == version + "_" + (name + part + ext)
  {
    assert part == "." + DirectionName(d);
  }

  lemma {:induction false} DigitRunIs(s: string, n: nat)
    requires n < |s| && AllDigits(s[..n]) && !IsDigit(s[n])
    ensures DigitRun(s) == n
  {
    if n > 0 {
      assert IsDigit(s[..n][0]);
      assert s[1..][..n - 1] == s[..n][1..];
      DigitRunIs(s[1..], n - 1);
    }
  }

  lemma OneSegmentOnly(s: string, j: nat, d: Direction)
    requires SegmentAt(s, j, d)
    ensures forall e :: SegmentAt(s, j, e) ==> e == d
  {
    assert s[j..j + 3 + (if d.Up? then 1 else 3)] == "." + DirectionName(d) + ".";
    assert s[j + 1] == DirectionName(d)[0];
    forall e | SegmentAt(s, j, e) ensures e == d {
      assert s[j..j + 2 + |DirectionName(e)|][1] == DirectionName(e)[0];
    }
  }

  /** Behind the segment that was written, segments are those of the extension. */
  lemma LaterSegment(name: string, d: Direction, ext: string, j: nat, e: Direction)
    requires j > |name|
    ensures var rest := name + "." + DirectionName(d) + ext;
            var k := |name| + 1 + |DirectionName(d)|;
            SegmentAt(rest, j, e) <==> j >= k && SegmentAt(ext, j - k, e)
  {
    var rest := name + "." + DirectionName(d) + ext;
    var k := |name| + 1 + |DirectionName(d)|;
    var n := |DirectionName(e)| + 2;
    assert rest[k..] == ext;
    if j >= k && j + n <= |rest| {
      assert rest[j..j + n] == ext[j - k..j - k + n];
    } else if j < k && j + n <= |rest| {
      assert rest[j] == DirectionName(d)[j - |name| - 1] != '.';
      assert rest[j..j + n][0] == rest[j];
    }
  }

  /** The extension holds no direction segment of its own. */
  ghost predicate PlainExtension(ext: string) {
    forall j: nat :: !AnySegmentAt(ext, j)
  }

  /** The greedy match finds the segment that was written exactly when the extension has none,
      whatever the name contains. */
  lemma SegmentFound(name: string, d: Direction, ext: string)
    requires |ext| > 0 && ext[0] == '.'
    ensures var rest := name + "." + DirectionName(d) + ext;
            && SegmentAt(rest, |name|, d)
            && (LastSegment(rest, |rest|) == Some(|name|) <==> PlainExtension(ext))
  {
    var rest := name + "." + DirectionName(d) + ext;
    var k := |name| + 1 + |DirectionName(d)|;
    assert rest[|name|..|name| + |DirectionName(d)| + 2] == "." + DirectionName(d) + ".";
    forall j: nat | j > |name| ensures AnySegmentAt(rest, j) <==> j >= k && AnySegmentAt(ext, j - k) {
      LaterSegment(name, d, ext, j, Up);
      LaterSegment(name, d, ext, j, Down);
    }
    assert AnySegmentAt(rest, |name|);
    if LastSegment(rest, |rest|) == Some(|name|) {
      forall j: nat ensures !AnySegmentAt(ext, j) {
        assert AnySegmentAt(rest, j + k) <==> AnySegmentAt(ext, j);
      }
    } else {
      var j := LastSegment(rest, |rest|).value;
      assert j > |name| && AnySegmentAt(ext, j - k);
    }
  }

  /** A generated name parses back to its version, name and direction, exactly when the
      extension holds no further direction segment. */
  lemma ParseOfFileName(version: string, name: string, d: Direction, ext: string)
    requires |version| > 0 && AllDigits(version) && ValueOf(version) < UINT_SIZE
    requires '\n' !in name && '\n' !in ext && |ext| > 0 && ext[0] == '.'
    ensures var raw := FileName(version, name, d, ext);
            Parse(raw) == Some(Entry(ValueOf(version), name, d, raw)) <==> PlainExtension(ext)
  {
    var raw, rest := FileName(version, name, d, ext), name + "." + DirectionName(d) + ext;
    SegmentFound(name, d, ext);
    assert AnySegmentAt(rest, |name|);
    ParseOfDigits(raw, version, rest);
    OneSegmentOnly(rest, |name|, d);
    assert rest[..|name|] == name;
    var j := LastSegment(rest, |rest|).value;
    assert |rest[..j]| == j;
  }

  lemma ParseOfDigits(raw: string, version: string, rest: string)
    requires |version| > 0 && AllDigits(version) && ValueOf(version) < UINT_SIZE
    requires raw == version + "_" + rest && '\n' !in rest && LastSegment(rest, |rest|).Some?
    ensures var j := LastSegment(rest, |rest|).value;
            Parse(raw) == Some(Entry(ValueOf(version), rest[..j], if SegmentAt(rest, j, Down) then Down else Up, raw))
  {
    SpelledDigits(raw, version, rest);
  }

  // ----- which names are read ------------------------------------------------------------------------

  function Segment(d: Direction): string {
    if d.Up? then ".up." else ".down."
  }

  /** The name is a number below 2^64, an underscore, an identifier, a direction segment and an
      extension, with no newline behind the underscore. */
  predicate Spelled(raw: string, digits: string, name: string, d: Direction, ext: string) {
    && |digits| > 0 && AllDigits(digits) && ValueOf(digits) < 0x1_0000_0000_0000_0000
    && '\n' !in name && '\n' !in ext
    && raw == digits + "_" + (name + Segment(d) + ext)
  }

  lemma SpelledIsFileName(digits: string, name: string, d: Direction, ext: string)
    ensures digits + "_" + (name + Segment(d) + ext) == FileName(digits, name, d, "." + ext)
  {
    SegmentParts(name, d, ext);
  }

  /** The parts of a name that is read. */
  lemma ReadParts(raw: string) returns (digits: string, ext: string)
    requires Parse(raw).Some?
    ensures var e := Parse(raw).value;
            && Spelled(raw, digits, e.identifier, e.direction, ext) && PlainExtension("." + ext)
            && e.version == ValueOf(digits) && e.raw == raw
  {
    var n := DigitRun(raw);
    var rest := raw[n + 1..];
    var j := LastSegment(rest, |rest|).value;
    var d := if SegmentAt(rest, j, Down) then Down else Up;
    digits := raw[..n];
    assert raw == digits + "_" + rest;
    ext := SplitAtSegment(rest, j, d);
    SpelledIsFileName(digits, rest[..j], d, ext);
    LastHasPlainRest(rest, j, d, ext);
  }

  lemma SplitAtSegment(rest: string, j: nat, d: Direction) returns (ext: string)
    requires SegmentAt(rest, j, d)
    ensures rest == rest[..j] + Segment(d) + ext && forall c :: c in ext ==> c in rest
  {
    var k := j + |Segment(d)|;
    assert Segment(d) == "." + DirectionName(d) + ".";
    assert k <= |rest| && rest[j..k] == Segment(d);
    ext := rest[k..];
    ThreeParts(rest, j, k);
  }

  lemma ThreeParts(s: string, j: nat, k: nat)
    requires j <= k <= |s|
    ensures s == s[..j] + s[j..k] + s[k..]
  {
  }

  lemma LastHasPlainRest(rest: string, j: nat, d: Direction, ext: string)
    requires j <= |rest| && rest == rest[..j] + Segment(d) + ext && LastSegment(rest, |rest|) == Some(j)
    ensures PlainExtension("." + ext)
  {
    var name := rest[..j];
    SegmentParts(name, d, ext);
    SegmentFound(name, d, "." + ext);
  }

  lemma SegmentParts(name: string, d: Direction, ext: string)
    ensures name + Segment(d) + ext == name + "." + DirectionName(d) + ("." + ext)
  {
    assert Segment(d) == "." + DirectionName(d) + ".";
  }

  /** Which names are read, and how: exactly those that are spelled so, cut at their last direction
      segment. */
  lemma ReadIff(raw: string, e: Entry)
    ensures Parse(raw) == Some(e) <==>
              e.raw == raw && exists digits, ext :: Spelled(raw, digits, e.identifier, e.direction, ext)
                                                   && e.version == ValueOf(digits) && PlainExtension("." + ext)
  {
    if Parse(raw) == Some(e) {
      var digits, ext := ReadParts(raw);
      assert Spelled(raw, digits, e.identifier, e.direction, ext);
    }
    forall digits, ext | Spelled(raw, digits, e.identifier, e.direction, ext)
                         && e.version == ValueOf(digits) && PlainExtension("." + ext) && e.raw == raw
      ensures Parse(raw) == Some(e)
    {
      SpelledIsFileName(digits, e.identifier, e.direction, ext);
      ParseOfFileName(digits, e.identifier, e.direction, "." + ext);
    }
  }

  /** A name is refused exactly when it cannot be spelled so at all. */
  lemma RefusedIff(raw: string)
    ensures Parse(raw).None? <==> forall digits, name, d, ext :: !Spelled(raw, digits, name, d, ext)
  {
    if Parse(raw).Some? {
      var digits, ext := ReadParts(raw);
      assert Spelled(raw, digits, Parse(raw).value.identifier, Parse(raw).value.direction, ext);
    }
    forall digits, name, d, ext | Spelled(raw, digits, name, d, ext) ensures Parse(raw).Some? {
      SpelledIsRead(raw, digits, name, d, ext);
    }
  }

  lemma SpelledIsRead(raw: string, digits: string, name: string, d: Direction, ext: string)
    requires Spelled(raw, digits, name, d, ext)
    ensures Parse(raw).Some?
  {
    var rest := name + Segment(d) + ext;
    SpelledDigits(raw, digits, rest);
    SegmentThere(name, d, ext);
    assert LastSegment(rest, |rest|).Some?;
    NoNewLine(name, d, ext);
  }

  lemma SpelledDigits(raw: string, digits: string, rest: string)
    requires raw == digits + "_" + rest && AllDigits(digits)
    ensures DigitRun(raw) == |digits| && |digits| < |raw| && raw[..|digits|] == digits
    ensures raw[|digits|] == '_' && raw[|digits| + 1..] == rest
  {
    assert raw[..|digits|] == digits && raw[|digits| + 1..] == rest;
    DigitRunIs(raw, |digits|);
  }

  lemma SegmentThere(name: string, d: Direction, ext: string)
    ensures var rest := name + Segment(d) + ext; |name| < |rest| && AnySegmentAt(rest, |name|)
  {
    var rest := name + Segment(d) + ext;
    assert Segment(d) == "." + DirectionName(d) + ".";
    assert rest[|name|..|name| + |Segment(d)|] == Segment(d);
  }

  lemma NoNewLine(name: string, d: Direction, ext: string)
    requires '\n' !in name && '\n' !in ext
    ensures '\n' !in name + Segment(d) + ext
  {
  }

  // ----- create, parse, append ---------------------------------------------------------------------

  /** What a source driver loads: the entries of the names that parse. */
  function Entries(names: seq<string>): seq<Entry> {
    if |names| == 0 then []
    else Entries(names[..|names| - 1])
         + match Parse(names[|names| - 1]) case None => [] case Some(e) => [e]
  }

  /** Exactly the names that can be read are loaded. */
  lemma {:induction false} EntriesAre(names: seq<string>, e: Entry)
    ensures e in Entries(names) <==> exists i :: 0 <= i < |names| && Parse(names[i]) == Some(e)
    decreases |names|
  {
    if |names| > 0 {
      var front := names[..|names| - 1];
      EntriesAre(front, e);
      assert forall i :: 0 <= i < |front| ==> front[i] == names[i];
      assert e in Entries(names) <==> e in Entries(front) || Parse(names[|names| - 1]) == Some(e);
    }
  }

  lemma ParsedVersion(name: string, w: nat)
    requires Numbered(name, w) && Parse(name).Some?
    ensures Parse(name).value.version == ValueOf(name[..w])
  {
    DigitRunIs(name, w);
  }

  lemma {:induction false} EntriesBelow(names: seq<string>, w: nat, bound: nat)
    requires forall i :: 0 <= i < |names| ==> Numbered(names[i], w) && ValueOf(names[i][..w]) < bound
    ensures forall e :: e in Entries(names) ==> e.version < bound
    decreases |names|
  {
    if |names| > 0 {
      var front, last := names[..|names| - 1], names[|names| - 1];
      forall i | 0 <= i < |front| ensures Numbered(front[i], w) && ValueOf(front[i][..w]) < bound {
        assert front[i] == names[i];
      }
      EntriesBelow(front, w, bound);
      assert Numbered(last, w);
      if Parse(last).Some? { ParsedVersion(last, w); }
    }
  }

  function NewEntry(v: string, name: string, d: Direction, ext: string): Entry
    requires AllDigits(v)
  {
    Entry(ValueOf(v), name, d, FileName(v, name, d, ext))
  }

  lemma NewEntryParses(v: string, name: string, d: Direction, ext: string)
    requires |v| > 0 && AllDigits(v) && ValueOf(v) < UINT_SIZE
    requires '\n' !in name && '\n' !in ext && |ext| > 0 && ext[0] == '.' && PlainExtension(ext)
    ensures var e := NewEntry(v, name, d, ext); Parse(e.raw) == Some(e)
  {
    ParseOfFileName(v, name, d, ext);
  }

  /** A store of lower versions accepts both directions of a new one, which becomes a key. */
  lemma BothAccepted(store: Store, up: Entry, down: Entry)
    requires up.version == down.version && up.direction == Up && down.direction == Down
    requires forall v :: v in store ==> v < up.version
    ensures !Duplicate(store, up) && !Duplicate(Insert(store, up), down)
    ensures Insert(Insert(store, up), down).Keys == store.Keys + {up.version}
  {
  }

  lemma NewIsLast(store: Store, up: Entry, down: Entry, index: seq<nat>)
    requires up.version == down.version && up.direction == Up && down.direction == Down
    requires forall v :: v in store ==> v < up.version
    requires Increasing(index) && Elements(index) == Insert(Insert(store, up), down).Keys
    ensures !Duplicate(store, up) && !Duplicate(Insert(store, up), down)
    ensures |index| > 0 && index[|index| - 1] == up.version
  {
    BothAccepted(store, up, down);
    HighestIsLast(index, up.version);
  }

  /** Creating the next migration in a directory whose names share a digit width, as long as the
      next number is below the limits of the width and of 64 bits: a version is created, both
      files parse back to it and to the given name, neither is a duplicate, and the new version
      is the last of the index. */
  lemma CreatedMigrationIsLast(names: seq<string>, w: nat, name: string, ext: string, index: seq<nat>)
    requires w > 0 && SortedNames(names) && AllNumbered(names, w)
    requires |names| > 0 ==> Numbered(names[|names| - 1], w)
    requires NextNumber(names, w) < UINT_SIZE && NextNumber(names, w) < Pow10(w)
    requires '\n' !in name && '\n' !in ext && |ext| > 0 && ext[0] == '.' && PlainExtension(ext)
    requires var v := Padded(NextNumber(names, w), w);
             && Increasing(index)
             && Elements(index) == Insert(Insert(InsertAll(map[], Entries(names)), NewEntry(v, name, Up, ext)),
                                          NewEntry(v, name, Down, ext)).Keys
    ensures var v := Padded(NextNumber(names, w), w);
            var up, down := NewEntry(v, name, Up, ext), NewEntry(v, name, Down, ext);
            var store := InsertAll(map[], Entries(names));
            && NextSeqVersion(names, w) == Created(v) && ValueOf(v) == NextNumber(names, w)
            && up.raw == v + "_" + (name + ".up" + ext) && down.raw == v + "_" + (name + ".down" + ext)
            && Parse(up.raw) == Some(up) && Parse(down.raw) == Some(down)
            && !Duplicate(store, up) && !Duplicate(Insert(store, up), down)
            && |index| > 0 && index[|index| - 1] == NextNumber(names, w)
  {
    var v := Padded(NextNumber(names, w), w);
    NextCreatedIff(names, w, w);
    FileNameIs(v, name, Up, ext, ".up");
    FileNameIs(v, name, Down, ext, ".down");
    PaddedReads(NextNumber(names, w), w);
    NewVersionAbove(names, w, v);
    NewEntryParses(v, name, Up, ext);
    NewEntryParses(v, name, Down, ext);
    NewIsLast(InsertAll(map[], Entries(names)), NewEntry(v, name, Up, ext), NewEntry(v, name, Down, ext), index);
  }

  lemma NewVersionAbove(names: seq<string>, w: nat, v: string)
    requires w > 0 && SortedNames(names) && AllNumbered(names, w) && NextSeqVersion(names, w) == Created(v)
    requires |names| > 0 ==>
               Numbered(names[|names| - 1], w) && ValueOf(names[|names| - 1][..w]) + 1 < UINT_SIZE
    ensures |v| > 0 && AllDigits(v) && ValueOf(v) < UINT_SIZE
    ensures forall u :: u in InsertAll(map[], Entries(names)) ==> u < ValueOf(v)
  {
    NextExceedsAll(names, w, v);
    StoreBelow(names, w, ValueOf(v));
  }

  lemma StoreBelow(names: seq<string>, w: nat, bound: nat)
    requires forall i :: 0 <= i < |names| ==> Numbered(names[i], w) && ValueOf(names[i][..w]) < bound
    ensures forall v :: v in InsertAll(map[], Entries(names)) ==> v < bound
  {
    EntriesBelow(names, w, bound);
    InsertAllKeys(Entries(names));
  }

  lemma HighestIsLast(index: seq<nat>, n: nat)
    requires Increasing(index) && n in Elements(index) && forall v :: v in Elements(index) ==> v <= n
    ensures |index| > 0 && index[|index| - 1] == n
  {
    var i :| 0 <= i < |index| && index[i] == n;
    assert index[|index| - 1] in Elements(index);
  }
}
