/** The streaming statement splitter (database/multistmt/parse.go): bufio.Scanner's buffer,
    refill and split loop around splitWithDelimiter, against splitting the whole text. */
module Splitter {
  import opened Types

  newtype byte = x: int | 0 <= x < 256

  type Bytes = seq<byte>

  // ----- finding the delimiter ---------------------------------------------------------

  predicate OccursAt(d: Bytes, delim: Bytes, i: nat) {
    i + |delim| <= |d| && d[i..i + |delim|] == delim
  }

  /** bytes.Index, searching from position i. */
  function IndexFrom(d: Bytes, delim: Bytes, i: nat): (r: Option<nat>)
    ensures r.Some? ==> i <= r.value && OccursAt(d, delim, r.value)
    ensures r.Some? ==> forall j: nat :: i <= j < r.value ==> !OccursAt(d, delim, j)
    ensures r.None? ==> forall j: nat :: i <= j ==> !OccursAt(d, delim, j)
    decreases |d| - i
  {
    if i + |delim| > |d| then None
    else if d[i..i + |delim|] == delim then Some(i)
    else IndexFrom(d, delim, i + 1)
  }

  function Index(d: Bytes, delim: Bytes): Option<nat> {
    IndexFrom(d, delim, 0)
  }

  /** Index is the first occurrence. */
  lemma IndexIsFirst(d: Bytes, delim: Bytes, i: nat)
    requires OccursAt(d, delim, i) && forall j: nat :: j < i ==> !OccursAt(d, delim, j)
    ensures Index(d, delim) == Some(i)
  {
  }

  /** Bytes that arrive later do not move a delimiter that is already complete. */
  lemma IndexStable(d: Bytes, more: Bytes, delim: Bytes)
    requires Index(d, delim).Some?
    ensures Index(d + more, delim) == Index(d, delim)
  {
    var i := Index(d, delim).value;
    assert (d + more)[i..i + |delim|] == d[i..i + |delim|];
    forall j: nat | j < i ensures !OccursAt(d + more, delim, j) {
      assert !OccursAt(d, delim, j);
      assert (d + more)[j..j + |delim|] == d[j..j + |delim|];
    }
    IndexIsFirst(d + more, delim, i);
  }

  // ----- splitting the whole text --------------------------------------------------------

  function Split(text: Bytes, delim: Bytes): seq<Bytes>
    requires |delim| > 0
    decreases |text|
  {
    if |text| == 0 then []
    else match Index(text, delim)
      case None => [text]
      case Some(i) => [text[..i + |delim|]] + Split(text[i + |delim|..], delim)
  }

  function Concat(parts: seq<Bytes>): Bytes {
    if |parts| == 0 then [] else parts[0] + Concat(parts[1..])
  }

  lemma ConcatCons(p: Bytes, parts: seq<Bytes>)
    ensures Concat([p] + parts) == p + Concat(parts)
  {
    assert ([p] + parts)[1..] == parts;
  }

  lemma ConcatFront(text: Bytes, n: nat, parts: seq<Bytes>)
    requires n <= |text| && Concat(parts) == text[n..]
    ensures Concat([text[..n]] + parts) == text
  {
    ConcatCons(text[..n], parts);
    assert text == text[..n] + text[n..];
  }

  /** Nothing is lost: the statements put together are the text. */
  lemma {:induction false} SplitConserves(text: Bytes, delim: Bytes)
    requires |delim| > 0
    ensures Concat(Split(text, delim)) == text
    decreases |text|
  {
    if |text| > 0 {
      match Index(text, delim)
      case None =>
        ConcatCons(text, []);
      case Some(i) =>
        var rest := text[i + |delim|..];
        SplitConserves(rest, delim);
        ConcatFront(text, i + |delim|, Split(rest, delim));
    }
  }

  /** The first statement ends at its first delimiter. */
  lemma FirstStatement(text: Bytes, delim: Bytes)
    requires |delim| > 0 && Index(text, delim).Some?
    ensures var i := Index(text, delim).value; Index(text[..i + |delim|], delim) == Some(i)
  {
    var i := Index(text, delim).value;
    var st := text[..i + |delim|];
    assert st[i..i + |delim|] == text[i..i + |delim|];
    forall j: nat | j < i ensures !OccursAt(st, delim, j) {
      assert !OccursAt(text, delim, j);
      assert st[j..j + |delim|] == text[j..j + |delim|];
    }
    IndexIsFirst(st, delim, i);
  }

  /** Every statement but the last ends with its first delimiter; the last does, or has none. */
  lemma {:induction false} StatementsEndAtFirstDelimiter(text: Bytes, delim: Bytes, k: nat)
    requires |delim| > 0 && k < |Split(text, delim)|
    ensures var st := Split(text, delim)[k];
            && st != []
            && (Index(st, delim) == Some(|st| - |delim|)
                || (k == |Split(text, delim)| - 1 && Index(st, delim).None?))
    decreases |text|
  {
    if Index(text, delim).Some? {
      var rest := text[Index(text, delim).value + |delim|..];
      if k == 0 {
        FirstStatement(text, delim);
      } else {
        assert Split(text, delim)[k] == Split(rest, delim)[k - 1];
        StatementsEndAtFirstDelimiter(rest, delim, k - 1);
      }
    }
  }

  // ----- the split function ------------------------------------------------------------------

  datatype Token = NoToken | Token(advance: nat, bytes: Bytes)

  function SplitWithDelimiter(delim: Bytes, d: Bytes, atEOF: bool): Token {
    if atEOF then (if |d| == 0 then NoToken else Token(|d|, d))
    else match Index(d, delim)
      case Some(i) => Token(i + |delim|, d[..i + |delim|])
      case None => NoToken
  }

  /** Taking a complete statement off the front of what is held and still to come. */
  lemma TakeStatement(d: Bytes, more: Bytes, delim: Bytes)
    requires |delim| > 0 && Index(d, delim).Some?
    ensures var t := SplitWithDelimiter(delim, d, false);
            && t.Token? && 0 < t.advance <= |d|
            && Split(d + more, delim) == [t.bytes] + Split(d[t.advance..] + more, delim)
  {
    IndexStable(d, more, delim);
    var n := Index(d, delim).value + |delim|;
    assert (d + more)[..n] == d[..n];
    assert (d + more)[n..] == d[n..] + more;
  }

  /** The remainder handed out at the end of input is one statement exactly when it holds no
      delimiter, or its first one at its end. A reader that reports the end together with its
      last bytes can violate this. */
  lemma RemainderIsOneStatement(d: Bytes, delim: Bytes)
    requires |delim| > 0 && |d| > 0
    ensures Split(d, delim) == [d] <==> Index(d, delim).None? || Index(d, delim) == Some(|d| - |delim|)
  {
    if Index(d, delim).Some? {
      var n := Index(d, delim).value + |delim|;
      if n == |d| {
        assert d[..n] == d && d[n..] == [];
      } else {
        assert Split(d, delim)[0] == d[..n];
        assert |d[..n]| != |d|;
      }
    }
  }

  // ----- the scanner ------------------------------------------------------------------------------

  datatype ScanErr = NoErr | TooLong | NoProgress | ReadFailed

  const MAX_EMPTY_READS: nat := 100
  const DEFAULT_BUF_SIZE: nat := 4096

  /** The largest buffer: it is never made smaller than it was at first. */
  function Capacity(size: nat, max: int): int { if size < max then max else size }

  /** The next buffer length, or None when the scanner gives up. */
  function Grow(size: nat, max: int): Option<nat> {
    if size >= max || size > MAX_INT / 2 then None
    else
      var doubled := if size == 0 then DEFAULT_BUF_SIZE else size * 2;
      Some(if doubled > max then max else doubled)
  }

  /** A reader: `chunk(k)` bounds what its k-th read delivers, `fails(k)` says whether that read
      returns an error along with its bytes, and an `early` reader reports the end of input
      together with its last bytes, others with none. */
  datatype Reader = Reader(chunk: nat -> nat, fails: nat -> bool, early: bool)

  /** How a read ended: there is more, or the end, too many empty reads, or an error. */
  datatype ReadEnd = More | Eof | Stuck | Failed

  /** The error noted for it. */
  function EndErr(end: ReadEnd): ScanErr {
    match end
    case Failed => ReadFailed
    case Stuck => NoProgress
    case _ => NoErr
  }

  function Min(a: nat, b: nat): nat { if a < b then a else b }

  /** The reads from the i-th to before the j-th deliver nothing and do not fail. */
  ghost predicate Silent(reader: Reader, i: nat, j: int) {
    forall k: nat :: i <= k < j ==> reader.chunk(k) == 0 && !reader.fails(k)
  }

  /** What the first n reads can deliver at most. */
  function Offered(reader: Reader, n: nat): nat {
    if n == 0 then 0 else Offered(reader, n - 1) + reader.chunk(n - 1)
  }

  /** How many of the first n reads deliver something if there is anything left. */
  function Productive(reader: Reader, n: nat): nat {
    if n == 0 then 0 else Productive(reader, n - 1) + if reader.chunk(n - 1) > 0 then 1 else 0
  }

  lemma {:induction false} SilentReads(reader: Reader, i: nat, j: nat)
    requires i <= j && Silent(reader, i, j)
    ensures Offered(reader, j) == Offered(reader, i) && Productive(reader, j) == Productive(reader, i)
    decreases j
  {
    if i < j { SilentReads(reader, i, j - 1); }
  }

  /** The reads made so far account for the bytes got and for the error: only the last can have
      failed, and it has if and only if that is the error; the scanner gave up exactly when the last
      101 reads, and no more, were empty. After the end of input there is at most one more read. */
  ghost predicate Accounted(reader: Reader, got: nat, calls: nat, ended: bool, err: ScanErr) {
    && got <= Offered(reader, calls) && Productive(reader, calls) <= got + (if ended then 1 else 0)
    && (forall k: nat :: k < calls - 1 ==> !reader.fails(k))
    && (err.ReadFailed? <==> calls > 0 && reader.fails(calls - 1))
    && (err.NoProgress? ==> calls >= 101 && Silent(reader, calls - 101, calls) && (calls > 101 ==> reader.chunk(calls - 102) > 0))
    && (!ended && calls > 0 ==> reader.chunk(calls - 1) > 0)
  }

  /** Accounting as a value of its own; its definition is only used where a proof asks for it. */
  type Ledger = (nat, nat, bool, ScanErr) -> bool

  ghost predicate LedgerIs(ledger: Ledger, reader: Reader, got: nat, calls: nat, ended: bool, err: ScanErr) {
    ledger(got, calls, ended, err) == Accounted(reader, got, calls, ended, err)
  }

  ghost predicate LedgerOf(ledger: Ledger, reader: Reader) {
    forall got: nat, calls: nat, ended, err {:trigger LedgerIs(ledger, reader, got, calls, ended, err)} ::
      LedgerIs(ledger, reader, got, calls, ended, err)
  }

  ghost function MakeLedger(reader: Reader): (ledger: Ledger)
    ensures LedgerOf(ledger, reader)
  {
    (got: nat, calls: nat, ended: bool, err: ScanErr) => Accounted(reader, got, calls, ended, err)
  }

  lemma LedgerStart(ledger: Ledger, reader: Reader)
    requires LedgerOf(ledger, reader)
    ensures ledger(0, 0, false, NoErr)
  {
    assert LedgerIs(ledger, reader, 0, 0, false, NoErr);
  }

  lemma LedgerTooLong(ledger: Ledger, reader: Reader, got: nat, calls: nat)
    requires LedgerOf(ledger, reader) && ledger(got, calls, false, NoErr)
    ensures ledger(got, calls, false, TooLong)
  {
    assert LedgerIs(ledger, reader, got, calls, false, NoErr) && LedgerIs(ledger, reader, got, calls, false, TooLong);
  }

  lemma LedgerEnd(ledger: Ledger, reader: Reader, got: nat, calls: nat, ended: bool, err: ScanErr)
    requires LedgerOf(ledger, reader) && ledger(got, calls, ended, err)
    ensures Accounted(reader, got, calls, true, err)
  {
    assert LedgerIs(ledger, reader, got, calls, ended, err);
  }

  /** What Refill promises about its reads. */
  ghost predicate Refilled(reader: Reader, unread: nat, space: nat, calls: nat, n: nat, end: ReadEnd, calls': nat) {
    && calls < calls' && n == Min(Min(reader.chunk(calls' - 1), space), unread)
    && (end.Failed? <==> reader.fails(calls' - 1)) && Silent(reader, calls, calls' - 1)
    && (end.More? ==> reader.chunk(calls' - 1) > 0 && n > 0)
    && (end.Stuck? ==> calls' == calls + 101 && reader.chunk(calls' - 1) == 0 && n == 0)
  }

  lemma RefillBooked(ledger: Ledger, reader: Reader, got: nat, unread: nat, space: nat, calls: nat, n: nat, end: ReadEnd, calls': nat)
    requires LedgerOf(ledger, reader) && space > 0 && ledger(got, calls, false, NoErr)
    requires Refilled(reader, unread, space, calls, n, end, calls')
    ensures ledger(got + n, calls', !end.More?, EndErr(end))
  {
    assert LedgerIs(ledger, reader, got, calls, false, NoErr);
    RefillAccounted(reader, got, unread, space, calls, n, end, calls');
    assert LedgerIs(ledger, reader, got + n, calls', !end.More?, EndErr(end));
  }

  /** One more call of Refill. */
  lemma RefillAccounted(reader: Reader, got: nat, unread: nat, space: nat, calls: nat, n: nat, end: ReadEnd, calls': nat)
    requires space > 0 && Accounted(reader, got, calls, false, NoErr)
    requires Refilled(reader, unread, space, calls, n, end, calls')
    ensures Accounted(reader, got + n, calls', !end.More?, EndErr(end))
  {
    SilentReads(reader, calls, calls' - 1);
    forall k: nat | k < calls' - 1 ensures !reader.fails(k) {
      if k < calls {
        assert k < calls - 1 || k == calls - 1;
      }
    }
  }

  /** One or more reads until bytes arrive, the input ends, a read fails, or too many were empty. */
  method Refill(unread: Bytes, space: nat, reader: Reader, calls: nat) returns (n: nat, end: ReadEnd, calls': nat)
    requires space > 0
    ensures Refilled(reader, |unread|, space, calls, n, end, calls')
    ensures end.Eof? <==> !end.Failed? && (unread == [] || (reader.early && n == |unread|))
  {
    calls' := calls;
    var loops := 0;
    while true
      invariant loops <= MAX_EMPTY_READS && calls' == calls + loops
      invariant Silent(reader, calls, calls') && (loops > 0 ==> unread != [])
      decreases MAX_EMPTY_READS - loops
    {
      n := Min(Min(reader.chunk(calls'), space), |unread|);
      var failed := reader.fails(calls');
      calls' := calls' + 1;
      if failed { return n, Failed, calls'; }
      if |unread| == 0 { return 0, Eof, calls'; }
      if n > 0 { return n, if reader.early && n == |unread| then Eof else More, calls'; }
      loops := loops + 1;
      if loops > MAX_EMPTY_READS { return 0, Stuck, calls'; }
    }
  }

  /** What is held without a delimiter is the beginning of the next statement. */
  lemma HeldIsBeginning(d: Bytes, more: Bytes, delim: Bytes)
    requires |delim| > 0 && |d| > 0 && Index(d, delim).None?
    ensures |Split(d + more, delim)| > 0 && d <= Split(d + more, delim)[0]
  {
    match Index(d + more, delim)
    case None =>
    case Some(i) =>
      if i + |delim| <= |d| {
        assert (d + more)[i..i + |delim|] == d[i..i + |delim|];
        assert OccursAt(d, delim, i);
      }
  }

  /** Shift the held bytes to the front or grow the buffer, so that there is space to read. */
  method MakeRoom(start: nat, held: nat, size: nat, max: int) returns (start': nat, size': nat, room: bool)
    requires start + held <= size && size > 0
    ensures room ==> start' + held < size' && size <= size' && (size' == size || size' <= max)
    ensures start == held == 0 ==> room && start' == 0 && size' == size
    ensures !room ==> held == size' == size && (size >= max || size > MAX_INT / 2)
  {
    start', size', room := start, size, true;
    if start' > 0 && (start' + held == size || start' > size / 2) {
      start' := 0;
    }
    if start' + held == size {
      var grown := Grow(size, max);
      if grown.None? { return start', size, false; }
      start', size' := 0, grown.value;
    }
  }

  /** What one call of Scan does. Before it, `rest` is held or unread, with the statements `all`;
      after it, `rest'` with `all'`. `last` is the piece for the end of input. */
  ghost predicate Scanned(max: int, last: Bytes, rest: Bytes, all: seq<Bytes>, rest': Bytes, all': seq<Bytes>,
                          token: Option<Bytes>, atEnd: bool, err: ScanErr)
  {
    match token
    case None =>
      && (err.NoErr? ==> rest == [] && last == [] && atEnd)
      && (err.TooLong? ==> |all| > 0 && (|all[0]| >= max || |all[0]| > MAX_INT / 2))
      && (err.NoProgress? || err.ReadFailed? ==> atEnd)
    case Some(t) =>
      && t != [] && rest == t + rest'
      && if !atEnd then err.NoErr? && all == [t] + all'
         else
           && !err.TooLong?
           && (err.NoErr? ==> t == last && rest' == [])
           && (err.NoProgress? ==> |all| > 0 && t <= all[0])
  }

  /** Splitting at a delimiter as a value of its own; its definition is only used for the texts a
      proof asks about. */
  type Splitting = Bytes -> seq<Bytes>

  ghost predicate SplitIs(split: Splitting, delim: Bytes, text: Bytes)
    requires |delim| > 0
  {
    split(text) == Split(text, delim)
  }

  ghost predicate SplitsAt(split: Splitting, delim: Bytes) {
    |delim| > 0 && forall text {:trigger SplitIs(split, delim, text)} :: SplitIs(split, delim, text)
  }

  ghost function SplittingAt(delim: Bytes): (split: Splitting)
    requires |delim| > 0
    ensures SplitsAt(split, delim)
  {
    (text: Bytes) requires |delim| > 0 => Split(text, delim)
  }

  class Scanner {
    const delim: Bytes
    ghost const split: Splitting
    ghost const ledger: Ledger
    ghost const total: nat   // length of the input
    ghost const room: int    // largest buffer
    const max: int
    const reader: Reader
    var unread: Bytes        // what the reader still has
    var data: Bytes          // buf[start:end]
    var start: nat
    var size: nat            // length of the buffer
    var atEnd: bool          // a read has failed or reported the end
    var err: ScanErr
    var calls: nat
    ghost var held: Bytes    // what was held when the last read began
    ghost var after: Bytes   // what that read delivered

    /** Where the scanner is in its input. */
    ghost predicate Placed()
      reads this
    {
      && SplitsAt(split, delim) && start + |data| <= size && size > 0 && !err.TooLong?
      && max <= room && size <= room && (size < room ==> room == max)
      && Index(held, delim).None?
      && (atEnd && err.NoErr? ==> unread == [] && (!reader.early ==> after == []))
      && (!atEnd ==> err.NoErr?)
    }

    /** Between two calls of Scan. */
    ghost predicate Valid()
      reads this
    {
      Placed() && (atEnd ==> data == [])
    }

    ghost function Rest(): Bytes
      reads this
    {
      data + unread
    }

    /** The reads made so far account for what is no longer unread. */
    ghost predicate Books()
      reads this
    {
      LedgerOf(ledger, reader) && |unread| <= total && ledger(total - |unread|, calls, atEnd, err)
    }

    constructor (text: Bytes, delim: Bytes, size: nat, max: int, reader: Reader)
      requires |delim| > 0 && size > 0
      ensures Valid() && Rest() == text && !atEnd && data == [] && start == 0 && calls == 0
      ensures this.unread == text && this.size == size
      ensures this.delim == delim && this.max == max && this.reader == reader
      ensures Books() && total == |text| && room == Capacity(size, max)
    {
      this.delim, this.max, this.reader, this.split := delim, max, reader, SplittingAt(delim);
      ghost var ledger := MakeLedger(reader);
      LedgerStart(ledger, reader);
      this.total, this.room, this.ledger := |text|, Capacity(size, max), ledger;
      this.unread, this.data, this.start, this.size := text, [], 0, size;
      this.atEnd, this.err, this.calls := false, NoErr, 0;
      this.held, this.after := [], [];
    }

    /** Inside Scan, between two reads. */
    ghost predicate Filling()
      reads this
    {
      && Placed()
      && (atEnd && err.NoErr? ==> data == held + after)
      && (atEnd && err.NoProgress? ==> Index(data, delim).None?)
    }

    /** The next read would deliver everything that is unread, with the end of input. */
    ghost predicate AllInOneRead()
      reads this
    {
      && reader.early && unread != [] && data == [] && start == 0 && size >= |unread|
      && reader.chunk(calls) >= |unread| && !reader.fails(calls)
    }

    /** No token in what is held: read more, after making room. */
    method Fill() returns (ok: bool)
      requires Filling() && !atEnd && Index(data, delim).None? && Books()
      modifies this
      ensures Rest() == old(Rest()) && Index(held, delim).None? && Books()
      ensures ok ==> Filling() && (|unread| < |old(unread)| || (unread == old(unread) && atEnd))
      ensures old(AllInOneRead()) ==> ok && atEnd && err.NoErr? && data == old(unread)
      ensures !ok ==> err.TooLong? && data == old(data) && (|data| >= room || |data| > MAX_INT / 2) && |data| > 0
      ensures !ok ==> unread == old(unread) && !atEnd
    {
      start, size, ok := MakeRoom(start, |data|, size, max);
      if !ok {
        LedgerTooLong(ledger, reader, total - |unread|, calls);
        err := TooLong;
        return;
      }
      ReadMore();
    }

    /** The reads, once there is room. */
    method ReadMore()
      requires Placed() && !atEnd && Index(data, delim).None? && Books() && start + |data| < size
      modifies this`held, this`after, this`data, this`unread, this`atEnd, this`err, this`calls
      ensures Filling() && Books() && Rest() == old(Rest())
      ensures |unread| < |old(unread)| || (unread == old(unread) && atEnd)
      ensures old(AllInOneRead()) ==> atEnd && err.NoErr? && data == old(unread)
    {
      ghost var before, got, space := calls, total - |unread|, size - start - |data|;
      var n, end;
      n, end, calls := Refill(unread, size - start - |data|, reader, calls);
      RefillBooked(ledger, reader, got, |unread|, space, before, n, end, calls);
      Absorb(n, end);
    }

    /** The n bytes of a read join what is held, and how the read ended is noted. */
    method Absorb(n: nat, end: ReadEnd)
      requires Placed() && !atEnd && Index(data, delim).None?
      requires n <= |unread| && start + |data| + n <= size
      requires (n == 0 ==> !end.More?) && (end.Stuck? ==> n == 0)
      requires end.Eof? ==> n == |unread| && (reader.early || n == 0)
      modifies this`held, this`after, this`data, this`unread, this`atEnd, this`err
      ensures Filling() && Rest() == old(Rest()) && atEnd == !end.More?
      ensures |unread| < |old(unread)| || (unread == old(unread) && atEnd)
      ensures n == |old(unread)| && old(data) == [] ==> data == old(unread)
      ensures |unread| == |old(unread)| - n
      ensures err == EndErr(end)
    {
      TakeBytes(data, unread, n);
      held, after := data, unread[..n];
      data, unread, atEnd := data + unread[..n], unread[n..], !end.More?;
      err := EndErr(end);
    }

    /** A statement off what is held. */
    method TakeToken(ghost rest: Bytes) returns (token: Option<Bytes>)
      requires Filling() && Rest() == rest
      modifies this`data, this`start
      ensures token.None? ==> Filling() && data == old(data) && start == old(start)
      ensures token.None? ==> if atEnd then data == [] else Index(data, delim).None?
      ensures token.Some? ==> Valid() && |token.value| <= room && (atEnd ==> token.value == old(data))
      ensures token.Some? ==> rest == token.value + Rest() && token.value != []
      ensures token.Some? ==>
                Scanned(room, held + after, rest, split(rest), Rest(), split(Rest()), token, atEnd, err)
    {
      if |data| > 0 || atEnd {
        var t := SplitWithDelimiter(delim, data, atEnd);
        if t.Token? {
          TokenScanned(delim, split, room, held + after, data, unread, atEnd, err);
          data, start := data[t.advance..], start + t.advance;
          return Some(t.bytes);
        }
      }
      return None;
    }

    /** The next statement, or None at the end or on an error. */
    method Scan() returns (token: Option<Bytes>)
      requires Valid() && Books()
      modifies this
      ensures (err.TooLong? || Valid()) && Index(held, delim).None? && Books()
      ensures token.Some? ==> |token.value| <= room
      ensures token.None? ==> Rest() == old(Rest())
      ensures err.TooLong? ==> !old(atEnd)
      ensures old(atEnd) ==> token.None? && err == old(err) && atEnd && Rest() == old(Rest())
      ensures old(atEnd) ==> held == old(held) && after == old(after)
      ensures !old(atEnd) ==>
                Scanned(room, held + after, old(Rest()), split(old(Rest())), Rest(), split(Rest()), token, atEnd, err)
      ensures !old(atEnd) && old(AllInOneRead()) ==> token == Some(old(unread)) && atEnd && err.NoErr?
      ensures token.Some? ==> old(Rest()) == token.value + Rest()
      ensures token.Some? ==> |Rest()| < |old(Rest())| && !err.TooLong?
    {
      if atEnd { return None; }
      ghost var rest := Rest();
      while true
        invariant Filling() && Rest() == rest && Books()
        invariant old(AllInOneRead()) ==>
                    if atEnd then err.NoErr? && data == old(unread)
                    else unread == old(unread) && calls == old(calls) && data == [] && start == 0 && size == old(size)
        decreases |unread|, !atEnd
      {
        token := TakeToken(rest);
        if token.Some? { return; }
        if atEnd {
          start := 0;
          return None;
        }
        var ok := Fill();
        if !ok {
          TooLongScanned(delim, split, room, held + after, data, unread);
          return None;
        }
      }
    }
  }

  /** A full buffer without a delimiter holds the beginning of a statement that is too long. */
  lemma TooLongScanned(delim: Bytes, split: Splitting, room: int, last: Bytes, data: Bytes, unread: Bytes)
    requires SplitsAt(split, delim) && |data| > 0 && Index(data, delim).None?
    requires |data| >= room || |data| > MAX_INT / 2
    ensures var rest := data + unread; Scanned(room, last, rest, split(rest), rest, split(rest), None, false, TooLong)
  {
    HeldIsBeginning(data, unread, delim);
    assert SplitIs(split, delim, data + unread);
  }

  /** A token is taken off what is held. */
  lemma TokenScanned(delim: Bytes, split: Splitting, max: int, last: Bytes, data: Bytes, unread: Bytes,
                     atEnd: bool, err: ScanErr)
    requires SplitsAt(split, delim) && !err.TooLong? && (!atEnd ==> err.NoErr?)
    requires SplitWithDelimiter(delim, data, atEnd).Token?
    requires atEnd && err.NoErr? ==> data == last && unread == []
    requires atEnd && err.NoProgress? ==> Index(data, delim).None?
    ensures var t := SplitWithDelimiter(delim, data, atEnd); var rest' := data[t.advance..] + unread;
            && 0 < t.advance <= |data| && t.bytes == data[..t.advance] && |rest'| < |data + unread|
            && (atEnd ==> data[t.advance..] == [])
            && Scanned(max, last, data + unread, split(data + unread), rest', split(rest'), Some(t.bytes), atEnd, err)
  {
    if !atEnd {
      TokenMore(delim, split, data, unread);
      Advance(data, unread, SplitWithDelimiter(delim, data, false).advance);
    } else {
      assert data[..|data|] == data && data[|data|..] + unread == unread;
      if err.NoProgress? {
        assert SplitIs(split, delim, data + unread);
        HeldIsBeginning(data, unread, delim);
      }
    }
  }

  lemma TokenMore(delim: Bytes, split: Splitting, data: Bytes, unread: Bytes)
    requires SplitsAt(split, delim) && SplitWithDelimiter(delim, data, false).Token?
    ensures var n := SplitWithDelimiter(delim, data, false).advance;
            0 < n <= |data| && split(data + unread) == [data[..n]] + split(data[n..] + unread)
  {
    TakeStatement(data, unread, delim);
    var t := SplitWithDelimiter(delim, data, false);
    SameSplits(delim, split, data + unread, t.bytes, data[t.advance..] + unread);
  }

  lemma SameSplits(delim: Bytes, split: Splitting, whole: Bytes, first: Bytes, rest: Bytes)
    requires SplitsAt(split, delim) && Split(whole, delim) == [first] + Split(rest, delim)
    ensures split(whole) == [first] + split(rest)
  {
    assert SplitIs(split, delim, whole) && SplitIs(split, delim, rest);
  }

  lemma Advance(data: Bytes, unread: Bytes, n: nat)
    requires n <= |data|
    ensures data + unread == data[..n] + (data[n..] + unread)
  {
  }

  lemma TakeBytes(data: Bytes, unread: Bytes, n: nat)
    requires n <= |unread|
    ensures data + unread == (data + unread[..n]) + unread[n..]
    ensures n == 0 ==> data + unread[..n] == data && unread[n..] == unread
    ensures n == |unread| ==> unread[..n] == unread && unread[n..] == []
  {
  }

  // ----- scanning to the end ------------------------------------------------------------------------

  /** The input ended with the piece `last`, which has the statements `lasts`: all statements before
      it were handed out one by one, and it came in one piece. */
  ghost predicate Finished(handled: seq<Bytes>, all: seq<Bytes>, last: Bytes, lasts: seq<Bytes>) {
    var n := |handled|;
    if last == [] then handled == all
    else n > 0 && handled[n - 1] == last && handled[..n - 1] + lasts == all
  }

  /** Whole statements, then the beginning of the next one. */
  ghost predicate UpToPartial(handled: seq<Bytes>, all: seq<Bytes>) {
    var n := |handled|;
    0 < n <= |all| && handled[..n - 1] <= all && handled[n - 1] <= all[n - 1]
  }

  /** Whole statements, then one piece of the text that follows them. */
  ghost predicate UpToPiece(handled: seq<Bytes>, all: seq<Bytes>, text: Bytes) {
    0 < |handled| && handled[..|handled| - 1] <= all && Concat(handled) <= text
  }

  /** What the handler has been given when scanning ends. */
  ghost predicate Handed(text: Bytes, all: seq<Bytes>, max: int, last: Bytes, lasts: seq<Bytes>,
                         handled: seq<Bytes>, err: ScanErr, stopped: bool)
  {
    match err
    case NoErr => Finished(handled, all, last, lasts) || (stopped && handled <= all)
    case TooLong =>
      handled <= all && |handled| < |all|
      && (|all[|handled|]| >= max || |all[|handled|]| > MAX_INT / 2)
    case NoProgress => handled <= all || UpToPartial(handled, all)
    case ReadFailed => handled <= all || UpToPiece(handled, all, text)
  }

  /** The same for the statements of the text, when the last read found `held` in the buffer and
      delivered `after`. */
  ghost predicate Outcome(text: Bytes, delim: Bytes, max: int, held: Bytes, after: Bytes,
                          handled: seq<Bytes>, err: ScanErr, stopped: bool)
    requires |delim| > 0
  {
    && Index(held, delim).None?
    && Handed(text, Split(text, delim), max, held + after, Split(held + after, delim), handled, err, stopped)
  }

  /** Every piece handed out fits into the largest buffer. */
  ghost predicate Fitting(handled: seq<Bytes>, room: int) {
    forall k :: 0 <= k < |handled| ==> |handled[k]| <= room
  }

  /** What the reads say about the outcome: what was handed out is a beginning of the text, and all
      that was read of it unless the handler stopped or a statement was too long. */
  ghost predicate Covered(text: Bytes, reader: Reader, handled: seq<Bytes>, err: ScanErr, stopped: bool,
                          calls: nat, got: nat)
  {
    && Concat(handled) <= text && |Concat(handled)| <= got <= |text|
    && Accounted(reader, got, calls, true, err)
    && (!err.TooLong? && !stopped ==> |Concat(handled)| == got)
  }

  lemma CoveredBy(text: Bytes, ledger: Ledger, reader: Reader, handled: seq<Bytes>, data: Bytes, unread: Bytes,
                  calls: nat, atEnd: bool, err: ScanErr, stopped: bool)
    requires text == Concat(handled) + (data + unread) && (err.TooLong? || stopped || data == [])
    requires LedgerOf(ledger, reader) && ledger(|text| - |unread|, calls, atEnd, err)
    ensures Covered(text, reader, handled, err, stopped, calls, |text| - |unread|)
  {
    LedgerEnd(ledger, reader, |text| - |unread|, calls, atEnd, err);
  }

  /** The loop of Parse: each statement goes to the handler, whose verdict on the k-th is
      `cont(k)`. */
  method HandOut(scanner: Scanner, text: Bytes, cont: nat -> bool) returns (handled: seq<Bytes>, stopped: bool)
    requires scanner.Valid() && scanner.Books() && scanner.Rest() == text && !scanner.atEnd
    modifies scanner
    ensures Handed(text, scanner.split(text), scanner.room, scanner.held + scanner.after,
                   scanner.split(scanner.held + scanner.after), handled, scanner.err, stopped)
    ensures Index(scanner.held, scanner.delim).None?
    ensures scanner.err.NoErr? && !scanner.reader.early ==> handled <= scanner.split(text)
    ensures scanner.err.NoErr? && !stopped && !scanner.reader.early ==> scanner.after == []
    ensures text == Concat(handled) + scanner.Rest() && Fitting(handled, scanner.room) && scanner.Books()
    ensures scanner.err.TooLong? || stopped || scanner.data == []
    ensures Verdicts(cont, |handled|, stopped)
  {
    ghost var split, delim, room := scanner.split, scanner.delim, scanner.room;
    var count := 0;
    handled, stopped := [], false;
    assert Concat([]) + text == text;
    StandingStart(text, split, scanner.held + scanner.after);
    EmptySplit(split, delim);
    while true
      invariant scanner.Valid() && scanner.Books()
      invariant text == Concat(handled) + scanner.Rest() && Fitting(handled, room)
      invariant Standing(text, split, scanner.held + scanner.after, handled, scanner.Rest(), scanner.atEnd, scanner.err)
      invariant count == |handled|
      invariant Verdicts(cont, count, false)
      decreases |scanner.Rest()|
    {
      ghost var rest, ended, err0, last0 := scanner.Rest(), scanner.atEnd, scanner.err, scanner.held + scanner.after;
      var token := scanner.Scan();
      ghost var held, after := scanner.held, scanner.after;
      StandingNext(text, split, room, handled, last0, rest, ended, err0,
                   token, held + after, scanner.Rest(), scanner.atEnd, scanner.err);
      if token.None? {
        HandedIsPrefix(text, split, delim, room, held, after, handled, scanner.err, false);
        return;
      }
      HandNext(text, handled, room, token.value, scanner.Rest());
      handled := handled + [token.value];
      StandingIsPrefix(text, split, delim, held, after, handled, scanner.Rest(), scanner.atEnd, scanner.err);
      VerdictsNext(cont, count);
      var go := cont(count);
      count := count + 1;
      if !go { return handled, true; }
    }
  }

  /** Scans `text` through a buffer of at first `size` bytes that may grow to `max`. Of the `calls`
      of the reader, which delivered `got` bytes, the last found `held` in the buffer and delivered
      `after`. */
  method Parse(text: Bytes, delim: Bytes, size: nat, max: int, reader: Reader, cont: nat -> bool)
    returns (handled: seq<Bytes>, err: ScanErr, stopped: bool, ghost held: Bytes, ghost after: Bytes,
             ghost calls: nat, ghost got: nat)
    requires |delim| > 0 && size > 0
    ensures Outcome(text, delim, Capacity(size, max), held, after, handled, err, stopped)
    ensures Covered(text, reader, handled, err, stopped, calls, got)
    ensures Fitting(handled, Capacity(size, max))
    ensures err.NoErr? && !stopped && !reader.early ==> after == []
    ensures err.NoErr? && !reader.early ==> handled <= Split(text, delim)
    ensures Verdicts(cont, |handled|, stopped)
    ensures Healthy(reader) && Agrees(cont) && AllFit(Split(text, delim), Capacity(size, max)) ==>
              err.NoErr? && !stopped && handled == Split(text, delim)
  {
    var scanner := new Scanner(text, delim, size, max, reader);
    handled, stopped := HandOut(scanner, text, cont);
    err, held, after := scanner.err, scanner.held, scanner.after;
    calls, got := scanner.calls, |text| - |scanner.unread|;
    CoveredBy(text, scanner.ledger, reader, handled, scanner.data, scanner.unread, calls, scanner.atEnd, err, stopped);
    assert SplitIs(scanner.split, delim, text) && SplitIs(scanner.split, delim, held + after);
    if Healthy(reader) && Agrees(cont) && AllFit(Split(text, delim), Capacity(size, max)) {
      HealthyReaderIsSplit(text, delim, Capacity(size, max), reader, cont, handled, err, stopped, held, after, calls, got);
    }
  }

  /** A reader that always delivers, never fails and reports the end of input on its own. */
  ghost predicate Healthy(reader: Reader) {
    !reader.early && forall k: nat :: reader.chunk(k) > 0 && !reader.fails(k)
  }

  /** A handler that never stops. */
  ghost predicate Agrees(cont: nat -> bool) { forall k: nat :: cont(k) }

  /** Statements that are shorter than the largest buffer. */
  ghost predicate AllFit(all: seq<Bytes>, room: int) {
    forall k :: 0 <= k < |all| ==> |all[k]| < room && |all[k]| <= MAX_INT / 2
  }

  /** With nothing in the way every statement is handed out and there is no error. */
  lemma HealthyReaderIsSplit(text: Bytes, delim: Bytes, room: int, reader: Reader, cont: nat -> bool, handled: seq<Bytes>,
                             err: ScanErr, stopped: bool, held: Bytes, after: Bytes, calls: nat, got: nat)
    requires |delim| > 0 && Healthy(reader) && Agrees(cont) && AllFit(Split(text, delim), room)
    requires Outcome(text, delim, room, held, after, handled, err, stopped)
    requires Covered(text, reader, handled, err, stopped, calls, got) && Verdicts(cont, |handled|, stopped)
    requires err.NoErr? && !stopped ==> after == []
    ensures err.NoErr? && !stopped && handled == Split(text, delim)
  {
    HealthyReads(reader, got, calls, err);
    NeverStopped(cont, |handled|, stopped);
    FitIsNotTooLong(text, Split(text, delim), room, held + after, Split(held + after, delim), handled, err, stopped);
    SmallLastReadIsHarmless(text, delim, room, held, after, handled);
  }

  lemma HealthyReads(reader: Reader, got: nat, calls: nat, err: ScanErr)
    requires Healthy(reader) && Accounted(reader, got, calls, true, err)
    ensures !err.ReadFailed? && !err.NoProgress?
  {
    if calls > 0 { assert reader.chunk(calls - 1) > 0; }
  }

  lemma NeverStopped(cont: nat -> bool, n: nat, stopped: bool)
    requires Agrees(cont) && Verdicts(cont, n, stopped)
    ensures !stopped
  {
  }

  lemma FitIsNotTooLong(text: Bytes, all: seq<Bytes>, room: int, last: Bytes, lasts: seq<Bytes>, handled: seq<Bytes>,
                        err: ScanErr, stopped: bool)
    requires AllFit(all, room) && Handed(text, all, room, last, lasts, handled, err, stopped)
    ensures !err.TooLong?
  {
  }

  lemma HandNext(text: Bytes, handled: seq<Bytes>, room: int, t: Bytes, rest': Bytes)
    requires text == Concat(handled) + (t + rest') && |t| <= room && Fitting(handled, room)
    ensures text == Concat(handled + [t]) + rest' && Fitting(handled + [t], room)
  {
    HandOn(text, handled, t, rest');
  }

  /** Without an error, what was handed out is a prefix of the statements if the last read, if it
      has reported the end, brought nothing. */
  lemma StandingIsPrefix(text: Bytes, split: Splitting, delim: Bytes, held: Bytes, after: Bytes, handled: seq<Bytes>,
                         rest: Bytes, atEnd: bool, err: ScanErr)
    requires SplitsAt(split, delim) && Index(held, delim).None?
    requires Standing(text, split, held + after, handled, rest, atEnd, err)
    ensures err.NoErr? && (atEnd ==> after == []) ==> handled <= split(text)
  {
    if err.NoErr? && atEnd && after == [] { FinishedIsAll(split, delim, split(text), held, after, handled); }
  }

  lemma HandedIsPrefix(text: Bytes, split: Splitting, delim: Bytes, max: int, held: Bytes, after: Bytes,
                       handled: seq<Bytes>, err: ScanErr, stopped: bool)
    requires SplitsAt(split, delim) && Index(held, delim).None?
    requires Handed(text, split(text), max, held + after, split(held + after), handled, err, stopped)
    ensures err.NoErr? && after == [] ==> handled <= split(text)
  {
    if err.NoErr? && after == [] && Finished(handled, split(text), held + after, split(held + after)) {
      FinishedIsAll(split, delim, split(text), held, after, handled);
    }
  }

  /** A last piece without a delimiter is the last statement. */
  lemma FinishedIsAll(split: Splitting, delim: Bytes, all: seq<Bytes>, held: Bytes, after: Bytes, handled: seq<Bytes>)
    requires SplitsAt(split, delim) && Index(held, delim).None? && after == []
    requires Finished(handled, all, held + after, split(held + after))
    ensures handled == all
  {
    assert held + after == held;
    if held != [] {
      assert SplitIs(split, delim, held);
      RemainderIsOneStatement(held, delim);
      SameAfterFront(handled, held, split(held));
    }
  }

  lemma EmptySplit(split: Splitting, delim: Bytes)
    requires SplitsAt(split, delim)
    ensures split([]) == []
  {
    assert SplitIs(split, delim, []);
  }

  /** The handler agreed to go on after every statement, except the last if it stopped. */
  ghost predicate Verdicts(cont: nat -> bool, n: nat, stopped: bool) {
    && (stopped ==> n > 0 && !cont(n - 1))
    && forall k: nat :: k < (if stopped then n - 1 else n) ==> cont(k)
  }

  lemma VerdictsNext(cont: nat -> bool, n: nat)
    requires Verdicts(cont, n, false)
    ensures Verdicts(cont, n + 1, !cont(n))
  {
  }

  /** Where the list of handled statements stands between two calls of Scan. */
  ghost predicate Standing(text: Bytes, split: Splitting, last: Bytes, handled: seq<Bytes>,
                           rest: Bytes, atEnd: bool, err: ScanErr)
  {
    var all := split(text);
    if !atEnd then err.NoErr? && all == handled + split(rest) && text == Concat(handled) + rest
    else match err
      case NoErr => Finished(handled, all, last, split(last))
      case TooLong => false
      case NoProgress => handled <= all || UpToPartial(handled, all)
      case ReadFailed => handled <= all || UpToPiece(handled, all, text)
  }

  lemma {:induction false} ConcatSnoc(parts: seq<Bytes>, p: Bytes)
    ensures Concat(parts + [p]) == Concat(parts) + p
  {
    if |parts| == 0 {
      assert [p][1..] == [];
      assert Concat([p]) == p + Concat([]);
    } else {
      ConcatSnoc(parts[1..], p);
      assert (parts + [p])[1..] == parts[1..] + [p];
    }
  }

  lemma StandingStart(text: Bytes, split: Splitting, last: Bytes)
    ensures Standing(text, split, last, [], text, false, NoErr)
  {
    assert [] + split(text) == split(text);
    assert Concat([]) + text == text;
  }

  /** Part of the rest moves to what was handed out. */
  lemma HandOn(text: Bytes, handled: seq<Bytes>, t: Bytes, rest': Bytes)
    requires text == Concat(handled) + (t + rest')
    ensures text == Concat(handled + [t]) + rest'
  {
    ConcatSnoc(handled, t);
  }

  /** A statement is handed out while more is to come. */
  lemma StandingMore(all: seq<Bytes>, handled: seq<Bytes>, t: Bytes, more': seq<Bytes>)
    requires all == handled + ([t] + more')
    ensures all == handled + [t] + more' && handled + [t] <= all
  {
  }

  /** The remainder is handed out after the last read. */
  lemma StandingLast(text: Bytes, split: Splitting, max: int, last: Bytes, handled: seq<Bytes>,
                     rest: Bytes, t: Bytes, rest': Bytes, err: ScanErr)
    requires split(text) == handled + split(rest) && text == Concat(handled) + rest
    requires Scanned(max, last, rest, split(rest), rest', split(rest'), Some(t), true, err)
    ensures Standing(text, split, last, handled + [t], rest', true, err)
  {
    var handled' := handled + [t];
    assert handled'[..|handled|] == handled;
    HandOn(text, handled, t, rest');
    if err.NoErr? { assert rest == t; }
  }

  lemma StandingNext(text: Bytes, split: Splitting, max: int, handled: seq<Bytes>, last0: Bytes,
                     rest: Bytes, ended: bool, err0: ScanErr,
                     token: Option<Bytes>, last: Bytes, rest': Bytes, atEnd: bool, err: ScanErr)
    requires Standing(text, split, last0, handled, rest, ended, err0) && split([]) == []
    requires ended ==> token.None? && err == err0 && atEnd && last == last0
    requires !ended ==> Scanned(max, last, rest, split(rest), rest', split(rest'), token, atEnd, err)
    ensures token.None? ==> Handed(text, split(text), max, last, split(last), handled, err, false)
    ensures token.Some? ==>
              && Standing(text, split, last, handled + [token.value], rest', atEnd, err)
              && Handed(text, split(text), max, last, split(last), handled + [token.value], err, true)
  {
    if token.Some? {
      if atEnd {
        StandingLast(text, split, max, last, handled, rest, token.value, rest', err);
      } else {
        StandingMore(split(text), handled, token.value, split(rest'));
        HandOn(text, handled, token.value, rest');
      }
    }
  }

  // ----- what this means -------------------------------------------------------------------------------

  lemma SameAfterFront(handled: seq<Bytes>, last: Bytes, lasts: seq<Bytes>)
    requires |handled| > 0 && handled[|handled| - 1] == last
    ensures handled == handled[..|handled| - 1] + lasts <==> lasts == [last]
  {
    var front := handled[..|handled| - 1];
    assert handled == front + [last];
    if front + [last] == front + lasts {
      assert lasts == (front + lasts)[|front|..] && [last] == (front + [last])[|front|..];
    }
  }

  /** For any reader, scanning to the end hands out the statements of the text if and only if the
      bytes held before the last read together with those it delivered have no delimiter before
      their end. */
  lemma LastReadDecides(text: Bytes, delim: Bytes, max: int, held: Bytes, after: Bytes, handled: seq<Bytes>)
    requires |delim| > 0 && Outcome(text, delim, max, held, after, handled, NoErr, false)
    ensures handled == Split(text, delim)
            <==> Index(held + after, delim).None? || Index(held + after, delim) == Some(|held + after| - |delim|)
  {
    var last := held + after;
    if last != [] {
      RemainderIsOneStatement(last, delim);
      SameAfterFront(handled, last, Split(last, delim));
    }
  }

  /** Without an error, stopped or not, what was handed out fails to be a prefix of the statements
      exactly when it ends with the piece for the end of input and that piece has a delimiter
      before its end. */
  lemma PrefixUnlessGlued(text: Bytes, delim: Bytes, max: int, held: Bytes, after: Bytes, handled: seq<Bytes>, stopped: bool)
    requires |delim| > 0 && Outcome(text, delim, max, held, after, handled, NoErr, stopped)
    ensures var last := held + after;
            !(handled <= Split(text, delim))
            <==> && Finished(handled, Split(text, delim), last, Split(last, delim))
                 && Index(last, delim).Some? && Index(last, delim) != Some(|last| - |delim|)
  {
    var last, all := held + after, Split(text, delim);
    if last != [] && Finished(handled, all, last, Split(last, delim)) {
      RemainderIsOneStatement(last, delim);
      SameAfterFront(handled, last, Split(last, delim));
      if Split(last, delim) != [last] {
        FirstIsShorter(last, delim);
        GluedIsNoPrefix(handled, all, last, Split(last, delim));
      }
    }
  }

  lemma FirstIsShorter(text: Bytes, delim: Bytes)
    requires |delim| > 0 && text != [] && Split(text, delim) != [text]
    ensures |Split(text, delim)| > 0 && Split(text, delim)[0] != text
  {
    RemainderIsOneStatement(text, delim);
    var n := Index(text, delim).value + |delim|;
    assert Split(text, delim)[0] == text[..n];
    assert |text[..n]| < |text|;
  }

  lemma GluedIsNoPrefix(handled: seq<Bytes>, all: seq<Bytes>, last: Bytes, lasts: seq<Bytes>)
    requires last != [] && |lasts| > 0 && lasts[0] != last && Finished(handled, all, last, lasts)
    ensures !(handled <= all)
  {
    assert all[|handled| - 1] == lasts[0];
  }

  /** What follows the last complete statement of a text. */
  function Remainder(text: Bytes, delim: Bytes): (r: Bytes)
    requires |delim| > 0
    decreases |text|
  {
    match Index(text, delim)
    case None => text
    case Some(i) => Remainder(text[i + |delim|..], delim)
  }

  /** The bytes held are not chosen by the scanner: they are what the text before the last read
      leaves after its last complete statement. So a caller who knows where the reader cuts off
      its last bytes can tell beforehand whether the statements will be right. */
  lemma HeldIsRemainder(text: Bytes, delim: Bytes, max: int, held: Bytes, after: Bytes, handled: seq<Bytes>)
    returns (before: Bytes)
    requires |delim| > 0 && Outcome(text, delim, max, held, after, handled, NoErr, false) && held + after != []
    ensures text == before + after && held == Remainder(before, delim)
  {
    var front, last := handled[..|handled| - 1], held + after;
    FrontIsComplete(text, delim, front, Split(last, delim));
    RemainderOfFront(front, held, delim);
    SplitConserves(text, delim);
    SplitConserves(last, delim);
    TextAfterFront(text, Split(text, delim), front, Split(last, delim), held, after);
    before := Concat(front) + held;
  }

  lemma TextAfterFront(text: Bytes, all: seq<Bytes>, front: seq<Bytes>, lasts: seq<Bytes>, held: Bytes, after: Bytes)
    requires Concat(all) == text && Concat(lasts) == held + after && all == front + lasts
    ensures text == (Concat(front) + held) + after
  {
    ConcatAppend(front, lasts);
    Associates(Concat(front), held, after);
  }

  /** A statement in front does not change the remainder. */
  lemma RemainderSkips(st: Bytes, rest: Bytes, delim: Bytes)
    requires |delim| > 0 && Index(st, delim) == Some(|st| - |delim|)
    ensures Remainder(st + rest, delim) == Remainder(rest, delim)
  {
    IndexStable(st, rest, delim);
    assert (st + rest)[|st|..] == rest;
  }

  lemma {:induction false} ConcatAppend(a: seq<Bytes>, b: seq<Bytes>)
    ensures Concat(a + b) == Concat(a) + Concat(b)
  {
    if |a| == 0 {
      assert a + b == b;
      assert Concat(a) == [];
    } else {
      ConcatAppend(a[1..], b);
      assert (a + b)[1..] == a[1..] + b && (a + b)[0] == a[0];
      Associates(a[0], Concat(a[1..]), Concat(b));
    }
  }

  lemma Associates(a: Bytes, b: Bytes, c: Bytes)
    ensures a + (b + c) == (a + b) + c
  {
  }

  /** The statement ends with its first delimiter. */
  predicate EndsComplete(st: Bytes, delim: Bytes) {
    Index(st, delim) == Some(|st| - |delim|)
  }

  lemma FrontIsComplete(text: Bytes, delim: Bytes, front: seq<Bytes>, lasts: seq<Bytes>)
    requires |delim| > 0 && |lasts| > 0 && Split(text, delim) == front + lasts
    ensures forall k :: 0 <= k < |front| ==> EndsComplete(front[k], delim)
  {
    forall k | 0 <= k < |front| ensures EndsComplete(front[k], delim) {
      StatementsEndAtFirstDelimiter(text, delim, k);
      assert Split(text, delim)[k] == front[k];
    }
  }

  lemma RestComplete(front: seq<Bytes>, delim: Bytes)
    requires |front| > 0 && forall k :: 0 <= k < |front| ==> EndsComplete(front[k], delim)
    ensures forall k :: 0 <= k < |front[1..]| ==> EndsComplete(front[1..][k], delim)
  {
  }

  /** Whole statements in front of something without a delimiter. */
  lemma {:induction false} RemainderOfFront(front: seq<Bytes>, held: Bytes, delim: Bytes)
    requires |delim| > 0 && Index(held, delim).None?
    requires forall k :: 0 <= k < |front| ==> EndsComplete(front[k], delim)
    ensures Remainder(Concat(front) + held, delim) == held
  {
    if front == [] {
      assert Concat(front) + held == held;
    } else {
      var st, rest := front[0], front[1..];
      assert EndsComplete(st, delim);
      RestComplete(front, delim);
      RemainderOfFront(rest, held, delim);
      RemainderSkips(st, Concat(rest) + held, delim);
      Associates(st, Concat(rest), held);
    }
  }

  /** The statements handed out do not depend on how the input was chunked or buffered, and
      together they are the input, for readers that report the end of input on its own. */
  lemma ChunkingIrrelevant(text: Bytes, delim: Bytes, max: int, heldA: Bytes, a: seq<Bytes>, heldB: Bytes, b: seq<Bytes>)
    requires |delim| > 0
    requires Outcome(text, delim, max, heldA, [], a, NoErr, false)
    requires Outcome(text, delim, max, heldB, [], b, NoErr, false)
    ensures a == b == Split(text, delim) && Concat(a) == text
  {
    SplitConserves(text, delim);
    LastReadDecides(text, delim, max, heldA, [], a);
    LastReadDecides(text, delim, max, heldB, [], b);
    assert heldA + [] == heldA && heldB + [] == heldB;
  }

  /** A last read of at most one byte is harmless. */
  lemma SmallLastReadIsHarmless(text: Bytes, delim: Bytes, max: int, held: Bytes, after: Bytes, handled: seq<Bytes>)
    requires |delim| > 0 && |after| <= 1 && Outcome(text, delim, max, held, after, handled, NoErr, false)
    ensures handled == Split(text, delim)
  {
    LastReadDecides(text, delim, max, held, after, handled);
    DelimiterAtEnd(held, after, delim);
  }

  lemma OccursInPrefix(r: Bytes, after: Bytes, delim: Bytes, i: nat)
    requires OccursAt(r + after, delim, i) && i + |delim| <= |r|
    ensures OccursAt(r, delim, i)
  {
    assert (r + after)[i..i + |delim|] == r[i..i + |delim|];
  }

  lemma DelimiterAtEnd(r: Bytes, after: Bytes, delim: Bytes)
    requires |delim| > 0 && |after| <= 1 && Index(r, delim).None?
    ensures Index(r + after, delim).None? || Index(r + after, delim) == Some(|r + after| - |delim|)
  {
    if Index(r + after, delim).Some? {
      var i := Index(r + after, delim).value;
      if i + |delim| <= |r| { OccursInPrefix(r, after, delim, i); }
    }
  }

  /** A text whose statements are all shorter than the maximum is never too long. */
  lemma ShortStatementsFit(text: Bytes, delim: Bytes, max: int, held: Bytes, after: Bytes,
                           handled: seq<Bytes>, err: ScanErr, stopped: bool)
    requires |delim| > 0 && 0 <= max <= MAX_INT / 2
    requires Outcome(text, delim, max, held, after, handled, err, stopped)
    requires forall k :: 0 <= k < |Split(text, delim)| ==> |Split(text, delim)[k]| < max
    ensures !err.TooLong?
  {
  }

  lemma TwoStatements()
    ensures Split([97, 59, 98, 59], [59]) == [[97, 59], [98, 59]]
  {
    var text: Bytes, delim: Bytes := [97, 59, 98, 59], [59];
    assert text[1..2] == delim && text[0..1][0] != delim[0];
    IndexIsFirst(text, delim, 1);
    var rest := text[2..];
    assert rest[1..2] == delim && rest[0..1][0] != delim[0];
    IndexIsFirst(rest, delim, 1);
    assert rest[2..] == [];
    assert text[..2] == [97, 59] && rest[..2] == [98, 59];
  }

  /** A reader that reports the end of input together with its bytes glues statements together:
      the first Scan over "a;b;" hands out both as one. */
  method EarlyReaderGlues(size: nat, max: int, reader: Reader) returns (token: Option<Bytes>)
    requires size >= 4 && reader.early && reader.chunk(0) >= 4 && !reader.fails(0)
    ensures token == Some([97, 59, 98, 59])
    ensures |Split([97, 59, 98, 59], [59])| == 2
  {
    var scanner := new Scanner([97, 59, 98, 59], [59], size, max, reader);
    token := scanner.Scan();
    TwoStatements();
  }
}
