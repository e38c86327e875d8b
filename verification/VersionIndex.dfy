/** The in-memory directory of migrations and its sorted version index
    (source/migration.go). */
module VersionIndex {
  import opened Types

  datatype Direction = Up | Down

  datatype Entry = Entry(version: nat, identifier: string, direction: Direction, raw: string)

  type Store = map<nat, map<Direction, Entry>>

  ghost predicate Increasing(s: seq<nat>) {
    forall i, j :: 0 <= i < j < |s| ==> s[i] < s[j]
  }

  ghost predicate InOrder(s: seq<nat>, i: int, j: int) {
    0 <= i < j < |s| ==> s[i] < s[j]
  }

  /** The same as Increasing, but unfolded only for pairs a proof asks about. */
  ghost predicate Ordered(s: seq<nat>) {
    forall i, j {:trigger InOrder(s, i, j)} :: InOrder(s, i, j)
  }

  lemma OrderedIsIncreasing(s: seq<nat>)
    ensures Ordered(s) <==> Increasing(s)
  {
    if Ordered(s) {
      forall i, j | 0 <= i < j < |s| ensures s[i] < s[j] { assert InOrder(s, i, j); }
    }
  }

  ghost predicate FitsInt(s: seq<nat>, i: int) {
    0 <= i < |s| ==> s[i] <= MAX_INT
  }

  /** Membership under a name of its own, so that the correspondence below is only
      unfolded for versions a proof asks about. */
  ghost predicate Listed(index: seq<nat>, v: nat) {
    v in index
  }

  /** The index lists exactly the versions of the store, and each has an entry. */
  ghost predicate Indexes(index: seq<nat>, store: Store) {
    forall v: nat {:trigger Listed(index, v)} ::
      (Listed(index, v) <==> v in store) && (v in store ==> store[v] != map[])
  }

  /** A source the engine can plan over: an increasing index of versions that fit a signed int. */
  datatype Source = Source(index: seq<nat>, store: Store) {
    ghost predicate Valid() {
      Ordered(index) && forall i {:trigger FitsInt(index, i)} :: FitsInt(index, i)
    }
  }

  function Body(store: Store, v: nat, d: Direction): Option<string> {
    if v in store && d in store[v] then Some(store[v][d].raw) else None
  }

  /** A version is found by `versionExists` when it has an up or a down entry. */
  predicate Exists(store: Store, v: nat) {
    v in store && (Up in store[v] || Down in store[v])
  }

  lemma ExistsIffIndexed(src: Source, v: nat)
    requires Indexes(src.index, src.store)
    ensures Exists(src.store, v) <==> v in src.index
  {
    assert Listed(src.index, v) <==> v in src.store;
    if v in src.store {
      var d :| d in src.store[v];
      assert d == Up || d == Down;
    }
  }

  // ----- pure neighbours -----------------------------------------------------

  function FirstOf(index: seq<nat>): Option<nat> {
    if |index| == 0 then None else Some(index[0])
  }

  /** Position by linear scan; the class below uses binary search instead. */
  function PosOf(index: seq<nat>, v: nat): (p: int)
    ensures p == -1 <==> v !in index
    ensures p != -1 ==> 0 <= p < |index| && index[p] == v
  {
    if |index| == 0 then -1
    else if index[|index| - 1] == v then |index| - 1
    else PosOf(index[..|index| - 1], v)
  }

  function NextOf(index: seq<nat>, v: nat): Option<nat> {
    var p := PosOf(index, v);
    if p >= 0 && p + 1 < |index| then Some(index[p + 1]) else None
  }

  function PrevOf(index: seq<nat>, v: nat): Option<nat> {
    var p := PosOf(index, v);
    if p >= 1 then Some(index[p - 1]) else None
  }

  /** In an increasing index the position of the i-th element is i. */
  lemma PosAt(index: seq<nat>, i: nat)
    requires Ordered(index) && i < |index|
    ensures index[i] in index && PosOf(index, index[i]) == i
  {
    OrderedIsIncreasing(index);
    assert index[i] in index;
  }

  ghost predicate IsSuccessor(versions: set<nat>, v: nat, w: nat) {
    v in versions && w in versions && v < w && forall u :: u in versions ==> u <= v || w <= u
  }

  ghost function Elements(index: seq<nat>): set<nat> {
    set v | v in index
  }

  /** Next and Prev are exactly the order-theoretic neighbours, and inverse to each other. */
  lemma NextPrevNeighbours(index: seq<nat>, v: nat, w: nat)
    requires Ordered(index)
    ensures NextOf(index, v) == Some(w) <==> IsSuccessor(Elements(index), v, w)
    ensures PrevOf(index, w) == Some(v) <==> IsSuccessor(Elements(index), v, w)
  {
    var p, q := PosOf(index, v), PosOf(index, w);
    OrderedIsIncreasing(index);
    if p >= 0 && q >= 0 {
      if q == p + 1 {
        forall u | u in Elements(index) ensures u <= v || w <= u {
          var i :| 0 <= i < |index| && index[i] == u;
        }
      } else if p < q {
        assert index[p + 1] in Elements(index);
      }
    }
    if NextOf(index, v) == Some(w) { PosAt(index, p + 1); }
    if PrevOf(index, w) == Some(v) { PosAt(index, q - 1); }
  }

  /** Follow Next from v until it fails. */
  ghost function WalkFrom(index: seq<nat>, v: nat): seq<nat>
    requires Ordered(index)
    decreases |index| - PosOf(index, v)
  {
    match NextOf(index, v)
    case None => [v]
    case Some(w) => PosAt(index, PosOf(index, v) + 1); [v] + WalkFrom(index, w)
  }

  /** Iterating Next from First lists every version once, in order. */
  lemma {:induction false} WalkVisitsAll(index: seq<nat>, i: nat)
    requires Ordered(index) && i < |index|
    ensures WalkFrom(index, index[i]) == index[i..]
    decreases |index| - i
  {
    PosAt(index, i);
    if i + 1 < |index| {
      WalkVisitsAll(index, i + 1);
    }
  }

  /** A strictly increasing sequence is determined by its set of elements. */
  lemma {:induction false} IncreasingUnique(s: seq<nat>, t: seq<nat>)
    requires Increasing(s) && Increasing(t) && Elements(s) == Elements(t)
    ensures s == t
    decreases |s|
  {
    assert |s| > 0 ==> s[0] in Elements(s);
    assert |t| > 0 ==> t[0] in Elements(t);
    if |s| > 0 && |t| > 0 {
      var a, b := s[|s| - 1], t[|t| - 1];
      assert a in Elements(t) && b in Elements(s);
      assert a == b;
      WithoutLast(s);
      WithoutLast(t);
      IncreasingUnique(s[..|s| - 1], t[..|t| - 1]);
      assert s == s[..|s| - 1] + [a] && t == t[..|t| - 1] + [b];
    }
  }

  lemma WithoutLast(s: seq<nat>)
    requires Increasing(s) && |s| > 0
    ensures Increasing(s[..|s| - 1])
    ensures Elements(s[..|s| - 1]) == Elements(s) - {s[|s| - 1]}
  {
    var front, last := s[..|s| - 1], s[|s| - 1];
    assert forall v :: v in s <==> v in front || v == last by { assert s == front + [last]; }
  }

  // ----- appending -----------------------------------------------------------

  predicate Duplicate(store: Store, e: Entry) {
    e.version in store && e.direction in store[e.version]
  }

  function Insert(store: Store, e: Entry): Store {
    if Duplicate(store, e) then store
    else
      var row := if e.version in store then store[e.version] else map[];
      store[e.version := row[e.direction := e]]
  }

  function InsertAll(store: Store, es: seq<Entry>): Store {
    if |es| == 0 then store else Insert(InsertAll(store, es[..|es| - 1]), es[|es| - 1])
  }

  ghost function Versions(es: seq<Entry>): set<nat> {
    set e | e in es :: e.version
  }

  /** After any appends the keys are exactly the versions appended, each with an entry. */
  lemma {:induction false} InsertAllKeys(es: seq<Entry>)
    ensures InsertAll(map[], es).Keys == Versions(es)
    ensures forall v :: v in InsertAll(map[], es) ==> InsertAll(map[], es)[v] != map[]
  {
    if |es| > 0 {
      var front, e := es[..|es| - 1], es[|es| - 1];
      InsertAllKeys(front);
      assert es == front + [e];
      assert Versions(es) == Versions(front) + {e.version};
      assert Duplicate(InsertAll(map[], es), e);
    }
  }

  /** The index does not depend on the order of the appends, nor on which of two
      duplicate entries came first. */
  lemma IndexOrderIndependent(es: seq<Entry>, fs: seq<Entry>, s: seq<nat>, t: seq<nat>)
    requires Versions(es) == Versions(fs)
    requires Increasing(s) && Elements(s) == InsertAll(map[], es).Keys
    requires Increasing(t) && Elements(t) == InsertAll(map[], fs).Keys
    ensures s == t
    ensures Elements(s) == Versions(es)
  {
    InsertAllKeys(es);
    InsertAllKeys(fs);
    IncreasingUnique(s, t);
  }

  /** With no duplicate (version, direction) pair, the whole store is order independent too:
      every entry appended is the one found. */
  lemma {:induction false} DistinctAppendsAllKept(es: seq<Entry>, i: nat)
    requires forall a, b :: 0 <= a < b < |es| ==>
               es[a].version != es[b].version || es[a].direction != es[b].direction
    requires i < |es|
    ensures var store := InsertAll(map[], es);
            es[i].version in store && es[i].direction in store[es[i].version]
            && store[es[i].version][es[i].direction] == es[i]
    decreases |es|
  {
    var front, e := es[..|es| - 1], es[|es| - 1];
    InsertOnlyFrom(front, e);
    if i < |es| - 1 {
      DistinctAppendsAllKept(front, i);
    }
  }

  /** Whatever is in the store was appended. */
  lemma {:induction false} InsertOnlyFrom(es: seq<Entry>, e: Entry)
    ensures Duplicate(InsertAll(map[], es), e) ==>
              exists k :: 0 <= k < |es| && es[k].version == e.version && es[k].direction == e.direction
  {
    if |es| > 0 && Duplicate(InsertAll(map[], es), e) {
      var front, l := es[..|es| - 1], es[|es| - 1];
      InsertOnlyFrom(front, e);
      if Duplicate(InsertAll(map[], front), e) {
        var k :| 0 <= k < |front| && front[k].version == e.version && front[k].direction == e.direction;
        assert es[k] == front[k];
      } else {
        assert l.version == e.version && l.direction == e.direction;
      }
    }
  }

  predicate Matches(e: Entry, v: nat, d: Direction) {
    e.version == v && e.direction == d
  }

  /** After any appends, a lookup finds the first entry appended for the version and direction
      (k is its place), and nothing if there is none (k is the length). */
  lemma {:induction false} ReadFindsFirst(es: seq<Entry>, v: nat, d: Direction, k: nat)
    requires k <= |es| && forall i :: 0 <= i < k ==> !Matches(es[i], v, d)
    requires k < |es| ==> Matches(es[k], v, d)
    ensures Body(InsertAll(map[], es), v, d) == if k < |es| then Some(es[k].raw) else None
    decreases |es|
  {
    if |es| > 0 {
      var front, e := es[..|es| - 1], es[|es| - 1];
      ReadFindsFirst(front, v, d, if k < |es| then k else k - 1);
      InsertThenRead(InsertAll(map[], front), e, v, d);
    }
  }

  lemma InsertThenRead(store: Store, e: Entry, v: nat, d: Direction)
    ensures Body(Insert(store, e), v, d) ==
            if Body(store, v, d).None? && Matches(e, v, d) then Some(e.raw) else Body(store, v, d)
  {
  }

  // ----- sorting and searching ----------------------------------------------

  lemma InsertAt(r: seq<nat>, k: nat, x: nat)
    requires Increasing(r) && k <= |r| && x !in Elements(r)
    requires (forall i :: 0 <= i < k ==> r[i] < x) && forall i :: k <= i < |r| ==> r[i] >= x
    ensures var r' := r[..k] + [x] + r[k..]; Increasing(r') && Elements(r') == Elements(r) + {x}
  {
    assert k < |r| ==> r[k] in Elements(r);
    var r' := r[..k] + [x] + r[k..];
    assert forall v :: v in r' <==> v in r || v == x by { assert r == r[..k] + r[k..]; }
  }

  /** sort.Slice on distinct versions, as an insertion sort. */
  method SortVersions(s: seq<nat>) returns (r: seq<nat>)
    requires forall i, j :: 0 <= i < j < |s| ==> s[i] != s[j]
    ensures Increasing(r) && Elements(r) == Elements(s)
  {
    r := [];
    for n := 0 to |s|
      invariant Increasing(r) && Elements(r) == Elements(s[..n])
    {
      var k := Search(r, s[n]);
      assert s[n] !in s[..n];
      assert s[n] !in Elements(s[..n]);
      InsertAt(r, k, s[n]);
      var r' := r[..k] + [s[n]] + r[k..];
      assert s[..n + 1] == s[..n] + [s[n]];
      assert Elements(s[..n + 1]) == Elements(s[..n]) + {s[n]};
      r := r';
    }
    assert s[..|s|] == s;
  }

  /** Binary search: the least position whose version is at least x. */
  method Search(s: seq<nat>, x: nat) returns (k: nat)
    requires Increasing(s)
    ensures k <= |s|
    ensures forall i :: 0 <= i < k ==> s[i] < x
    ensures forall i :: k <= i < |s| ==> s[i] >= x
  {
    k := 0;
    var j := |s|;
    while k < j
      invariant 0 <= k <= j <= |s|
      invariant forall i :: 0 <= i < k ==> s[i] < x
      invariant forall i :: j <= i < |s| ==> s[i] >= x
    {
      var h := (k + j) / 2;
      if s[h] >= x { j := h; } else { k := h + 1; }
    }
  }

  /** The keys of a map in whatever order its iteration takes. */
  method ListKeys(keys: set<nat>) returns (list: seq<nat>)
    ensures Elements(list) == keys
    ensures forall i, j :: 0 <= i < j < |list| ==> list[i] != list[j]
  {
    var todo := keys;
    list := [];
    while todo != {}
      invariant todo <= keys
      invariant Elements(list) == keys - todo
      invariant forall i, j :: 0 <= i < j < |list| ==> list[i] != list[j]
      decreases |todo|
    {
      var v :| v in todo;
      assert v !in Elements(list);
      ElementsSnoc(list, v);
      list, todo := list + [v], todo - {v};
    }
  }

  lemma ElementsSnoc(s: seq<nat>, v: nat)
    ensures Elements(s + [v]) == Elements(s) + {v}
  {
  }

  // ----- the class -----------------------------------------------------------

  class Migrations {
    var index: seq<nat>
    var migrations: Store

    ghost predicate Valid()
      reads this
    {
      Ordered(index) && Indexes(index, migrations)
    }

    lemma KeysAreElements()
      requires Valid()
      ensures Elements(index) == migrations.Keys
    {
      assert forall v :: v in Elements(index) <==> Listed(index, v);
    }

    /** Against the two-level map: Next is the least larger version, Prev the largest smaller. */
    lemma NeighboursInStore(v: nat, w: nat)
      requires Valid()
      ensures NextOf(index, v) == Some(w) <==> IsSuccessor(migrations.Keys, v, w)
      ensures PrevOf(index, w) == Some(v) <==> IsSuccessor(migrations.Keys, v, w)
    {
      KeysAreElements();
      NextPrevNeighbours(index, v, w);
    }

    ghost function AsSource(): Source
      reads this
    {
      Source(index, migrations)
    }

    /** The engine can plan over a directory exactly when all its versions fit a signed int. */
    lemma SourceValidIff()
      requires Valid()
      ensures Indexes(AsSource().index, AsSource().store)
      ensures AsSource().Valid() <==> forall v :: v in migrations ==> v <= MAX_INT
    {
      if AsSource().Valid() {
        forall v | v in migrations ensures v <= MAX_INT {
          assert Listed(index, v);
          assert FitsInt(index, PosOf(index, v));
        }
      } else {
        var i :| !FitsInt(index, i);
        assert Listed(index, index[i]);
      }
    }

    constructor ()
      ensures Valid() && index == [] && migrations == map[]
    {
      index, migrations := [], map[];
    }

    /** nil and duplicates are rejected and change nothing. */
    method Append(m: Option<Entry>) returns (ok: bool)
      requires Valid()
      modifies this
      ensures Valid()
      ensures ok <==> m.Some? && !Duplicate(old(migrations), m.value)
      ensures ok ==> migrations == Insert(old(migrations), m.value)
      ensures !ok ==> migrations == old(migrations) && index == old(index)
    {
      if m.None? {
        return false;
      }
      var e := m.value;
      var row := if e.version in migrations then migrations[e.version] else map[];
      if e.direction in row {
        return false;
      }
      KeysAreElements();
      forall v | v in migrations ensures migrations[v] != map[] {
        assert Listed(index, v) <==> v in migrations;
      }
      assert e.direction in row[e.direction := e];
      migrations := migrations[e.version := row[e.direction := e]];
      BuildIndex();
      return true;
    }

    /** Rebuilds the index from the map, whatever order the map is iterated in. */
    method BuildIndex()
      requires forall v :: v in migrations ==> migrations[v] != map[]
      modifies this`index
      ensures Valid()
    {
      var list := ListKeys(migrations.Keys);
      index := SortVersions(list);
      OrderedIsIncreasing(index);
      assert forall v :: v in Elements(index) <==> Listed(index, v);
    }

    method FindPos(version: nat) returns (pos: int)
      requires Valid()
      ensures pos == PosOf(index, version)
    {
      if |index| > 0 {
        OrderedIsIncreasing(index);
        var ix := Search(index, version);
        if ix < |index| && index[ix] == version {
          PosAt(index, ix);
          return ix;
        }
      }
      return -1;
    }

    method First() returns (r: Option<nat>)
      requires Valid()
      ensures r == FirstOf(index)
      ensures r.Some? ==> forall v :: v in migrations ==> r.value <= v
    {
      if |index| == 0 {
        return None;
      }
      forall v | v in migrations ensures index[0] <= v {
        assert Listed(index, v);
        OrderedIsIncreasing(index);
      }
      return Some(index[0]);
    }

    /** The largest smaller version, if the given one is present. */
    method Prev(version: nat) returns (r: Option<nat>)
      requires Valid()
      ensures r == PrevOf(index, version)
    {
      var pos := FindPos(version);
      r := if pos >= 1 && |index| > pos - 1 then Some(index[pos - 1]) else None;
    }

    /** The least larger version, if the given one is present. */
    method Next(version: nat) returns (r: Option<nat>)
      requires Valid()
      ensures r == NextOf(index, version)
    {
      var pos := FindPos(version);
      r := if pos >= 0 && |index| > pos + 1 then Some(index[pos + 1]) else None;
    }

    /** ReadUp and ReadDown of the file drivers look the entry up here. */
    method Read(version: nat, d: Direction) returns (r: Option<string>)
      ensures r == Body(migrations, version, d)
    {
      if version in migrations {
        if d in migrations[version] {
          return Some(migrations[version][d].raw);
        }
      }
      return None;
    }
  }

  /** Loading a directory: appending entries one after another keeps the class equal to
      the two-level map and its sorted keys. */
  method Load(es: seq<Entry>) returns (ms: Migrations)
    ensures fresh(ms) && ms.Valid() && Increasing(ms.index)
    ensures ms.migrations == InsertAll(map[], es)
    ensures Elements(ms.index) == Versions(es)
    ensures Indexes(ms.AsSource().index, ms.AsSource().store)
    ensures ms.AsSource().Valid() <==> forall v :: v in Versions(es) ==> v <= MAX_INT
  {
    ms := new Migrations();
    for i := 0 to |es|
      invariant ms.Valid() && fresh(ms) && ms.migrations == InsertAll(map[], es[..i])
    {
      var _ := ms.Append(Some(es[i]));
      assert es[..i + 1][..i] == es[..i];
    }
    assert es[..|es|] == es;
    InsertAllKeys(es);
    ms.KeysAreElements();
    ms.SourceValidIff();
    OrderedIsIncreasing(ms.index);
  }
}
