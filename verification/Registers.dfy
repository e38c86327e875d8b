/** The (version, dirty) register as three drivers store it: a single-row table
    (cockroachdb), an append-only log (clickhouse) and a node per version (neo4j). */
module Registers {
  import opened Types

  /** One SetVersion call and the clock reading it used. */
  datatype Write = Write(version: int, dirty: bool, time: int)

  type Register = (int, bool)

  const NIL_REGISTER: Register := (NIL_VERSION, false)

  // ----- the single-row table ---------------------------------------------------------

  type Table = seq<Register>

  /** A clean nil version is stored as no row at all. */
  function TableSet(rows: Table, v: int, d: bool): Table {
    if v >= 0 || (v == NIL_VERSION && d) then [(v, d)] else []
  }

  function TableRead(rows: Table): Register {
    if |rows| == 0 then NIL_REGISTER else rows[0]
  }

  /** What is written is read back exactly when the version is at least -1. */
  lemma TableReadsBack(rows: Table, v: int, d: bool)
    ensures TableRead(TableSet(rows, v, d)) == (v, d) <==> v >= NIL_VERSION
  {
  }

  class CockroachTable {
    var exists': bool
    var rows: Table

    constructor ()
      ensures exists' && TableRead(rows) == NIL_REGISTER
    {
      exists', rows := true, [];
    }

    /** DELETE and INSERT in one transaction: a fault at either statement (0 and 1), or at the
        commit (2), rolls both back. */
    method SetVersion(v: int, d: bool, fails: nat -> bool) returns (err: Option<Err>)
      modifies this`rows
      ensures err.None? <==> exists' && !fails(0) && (v >= 0 || (v == -1 && d) ==> !fails(1)) && !fails(2)
      ensures err.Some? ==> err == Some(DriverFault) && rows == old(rows)
      ensures err.None? ==> rows == TableSet(old(rows), v, d)
      ensures err.None? && v >= NIL_VERSION ==> TableRead(rows) == (v, d)
    {
      var tx := rows;
      if fails(0) || !exists' { return Some(DriverFault); }
      tx := [];
      if v >= 0 || (v == NIL_VERSION && d) {
        if fails(1) { return Some(DriverFault); }
        tx := tx + [(v, d)];
      }
      if fails(2) { return Some(DriverFault); }
      rows := tx;
      return None;
    }

    /** A missing table counts as the nil version; None is a failed query. */
    method Version(fails: bool) returns (r: Option<Register>)
      ensures r == if fails then None else Some(if exists' then TableRead(rows) else (-1, false))
    {
      if fails { return None; }
      if !exists' || |rows| == 0 { return Some(NIL_REGISTER); }
      return Some(rows[0]);
    }
  }

  // ----- the append-only log ------------------------------------------------------------

  datatype Row = Row(version: int, dirty: int, sequence: int)

  type Log = seq<Row>

  function LogSet(rows: Log, w: Write): Log {
    rows + [Row(w.version, if w.dirty then 1 else 0, w.time)]
  }

  /** ORDER BY sequence DESC LIMIT 1 may return any row of the highest sequence. */
  predicate IsLatest(rows: Log, i: nat) {
    i < |rows| && forall j :: 0 <= j < |rows| ==> rows[j].sequence <= rows[i].sequence
  }

  function RowRegister(r: Row): Register { (r.version, r.dirty == 1) }

  /** Every possible answer to the query. */
  ghost predicate LogReads(rows: Log, r: Register) {
    if |rows| == 0 then r == NIL_REGISTER
    else exists i: nat :: IsLatest(rows, i) && r == RowRegister(rows[i])
  }

  /** The query can only return the row just written, exactly when its time is later than all
      others. */
  lemma LogReadsBackIffLater(rows: Log, w: Write)
    ensures (forall i: nat :: IsLatest(LogSet(rows, w), i) ==> i == |rows|)
            <==> forall j :: 0 <= j < |rows| ==> rows[j].sequence < w.time
  {
    var log := LogSet(rows, w);
    if (forall i: nat :: IsLatest(log, i) ==> i == |rows|) {
      forall j | 0 <= j < |rows| ensures rows[j].sequence < w.time {
        var m := Highest(rows, |rows|);
        if rows[m].sequence >= w.time { assert IsLatest(log, m); }
      }
    }
    if (forall j :: 0 <= j < |rows| ==> rows[j].sequence < w.time) {
      forall i: nat | IsLatest(log, i) ensures i == |rows| {
        assert log[|rows|].sequence <= log[i].sequence;
      }
    }
  }

  /** What the query can answer after a write is exactly the pair written, if and only if the
      latest of the other rows are earlier or hold the same pair. */
  lemma LogReadsBackIff(rows: Log, w: Write)
    ensures (forall r :: LogReads(LogSet(rows, w), r) ==> r == (w.version, w.dirty))
            <==> forall i: nat :: IsLatest(rows, i) && rows[i].sequence >= w.time ==>
                   RowRegister(rows[i]) == (w.version, w.dirty)
  {
    var log, n := LogSet(rows, w), |rows|;
    if (forall r :: LogReads(log, r) ==> r == (w.version, w.dirty)) {
      forall i: nat | IsLatest(rows, i) && rows[i].sequence >= w.time
        ensures RowRegister(rows[i]) == (w.version, w.dirty)
      {
        assert IsLatest(log, i);
        assert LogReads(log, RowRegister(log[i]));
      }
    } else {
      var r :| LogReads(log, r) && r != (w.version, w.dirty);
      var i: nat :| IsLatest(log, i) && r == RowRegister(log[i]);
      assert log[n].sequence <= log[i].sequence;
      OldIsLatest(rows, w, i);
    }
  }

  /** A row other than the new one that the query can return was among the latest before. */
  lemma OldIsLatest(rows: Log, w: Write, i: nat)
    requires i < |rows| && IsLatest(LogSet(rows, w), i)
    ensures IsLatest(rows, i) && rows[i].sequence >= w.time
  {
    var log := LogSet(rows, w);
    assert log[|rows|].sequence <= log[i].sequence;
    forall j | 0 <= j < |rows| ensures rows[j].sequence <= rows[i].sequence { assert log[j].sequence <= log[i].sequence; }
  }

  lemma {:induction false} Highest(rows: Log, n: nat) returns (m: nat)
    requires 0 < n <= |rows|
    ensures m < n && forall j :: 0 <= j < n ==> rows[j].sequence <= rows[m].sequence
  {
    if n == 1 {
      m := 0;
    } else {
      m := Highest(rows, n - 1);
      if rows[m].sequence < rows[n - 1].sequence { m := n - 1; }
    }
  }

  class ClickHouseLog {
    var rows: Log

    constructor ()
      ensures rows == []
    {
      rows := [];
    }

    /** Begin, INSERT and commit are the statements 0, 1 and 2. */
    method SetVersion(w: Write, fails: nat -> bool) returns (err: Option<Err>)
      modifies this
      ensures err == if fails(0) || fails(1) || fails(2) then Some(DriverFault) else None
      ensures rows == if err.None? then LogSet(old(rows), w) else old(rows)
    {
      if fails(0) || fails(1) || fails(2) { return Some(DriverFault); }
      rows := rows + [Row(w.version, if w.dirty then 1 else 0, w.time)];
      return None;
    }

    method Version(fails: bool) returns (r: Option<Register>)
      ensures r.None? <==> fails
      ensures r.Some? ==> LogReads(rows, r.value)
    {
      if fails { return None; }
      if |rows| == 0 { return Some(NIL_REGISTER); }
      var top := 0;
      for i := 1 to |rows|
        invariant top < |rows| && forall j :: 0 <= j < i ==> rows[j].sequence <= rows[top].sequence
      {
        if rows[top].sequence < rows[i].sequence { top := i; }
      }
      assert IsLatest(rows, top);
      return Some((rows[top].version, rows[top].dirty == 1));
    }
  }

  // ----- a node per version -----------------------------------------------------------------

  /** Nodes written before timestamps were introduced have none. */
  datatype Node = Node(dirty: bool, ts: Option<int>)

  type Nodes = map<int, Node>

  const YEAR_ZERO: int := -62167219200

  function Stamp(n: Node): int {
    if n.ts.None? then YEAR_ZERO else n.ts.value
  }

  function NodesSet(nodes: Nodes, w: Write): Nodes {
    nodes[w.version := Node(w.dirty, Some(w.time))]
  }

  /** w comes before v in the order "latest timestamp, then highest version". */
  predicate Before(nodes: Nodes, w: int, v: int)
    requires w in nodes && v in nodes
  {
    Stamp(nodes[w]) < Stamp(nodes[v]) || (Stamp(nodes[w]) == Stamp(nodes[v]) && w < v)
  }

  ghost predicate IsTop(nodes: Nodes, v: int) {
    v in nodes && forall w :: w in nodes && w != v ==> Before(nodes, w, v)
  }

  ghost predicate NodesRead(nodes: Nodes, r: Register) {
    if |nodes| == 0 then r == NIL_REGISTER
    else IsTop(nodes, r.0) && r.1 == nodes[r.0].dirty
  }

  lemma TopUnique(nodes: Nodes, a: int, b: int)
    requires IsTop(nodes, a) && IsTop(nodes, b)
    ensures a == b
  {
    assert a != b ==> Before(nodes, a, b) && Before(nodes, b, a);
  }

  /** The node just written is the one read, exactly when every other node has an earlier
      timestamp, or the same one and a lower version. */
  lemma NodesReadBackIffLater(nodes: Nodes, w: Write)
    ensures NodesRead(NodesSet(nodes, w), (w.version, w.dirty))
            <==> forall v :: v in nodes && v != w.version ==>
                   Stamp(nodes[v]) < w.time || (Stamp(nodes[v]) == w.time && v < w.version)
  {
    var nodes' := NodesSet(nodes, w);
    assert w.version in nodes';
    assert |nodes'| > 0 by { assert nodes' != map[]; }
    forall v | v in nodes && v != w.version ensures v in nodes' && nodes'[v] == nodes[v] {}
  }

  /** A node without a timestamp loses to every write later than the beginning of the year 0: the
      write is what is read if all other nodes have none. */
  lemma UnstampedLose(nodes: Nodes, w: Write)
    requires forall v :: v in nodes && v != w.version ==> nodes[v].ts.None?
    requires w.time > -62167219200
    ensures NodesRead(NodesSet(nodes, w), (w.version, w.dirty))
  {
    NodesReadBackIffLater(nodes, w);
  }

  /** What fails of a session with the server: opening it, the query, closing it. */
  datatype SessionFaults = SessionFaults(begin: bool, run: bool, close: bool)

  /** Some element of a non-empty collection. */
  method Pick<T>(s: set<T>) returns (x: T)
    requires s != {}
    ensures x in s
  {
    x :| x in s;
  }

  class Neo4jNodes {
    var nodes: Nodes

    constructor ()
      ensures nodes == map[]
    {
      nodes := map[];
    }

    /** MERGE on the version, then SET dirty and the timestamp. An error means that nothing was
        written, or that only closing the session failed after the write. */
    method SetVersion(w: Write, faults: SessionFaults) returns (err: Option<Err>)
      modifies this
      ensures err == if faults.begin || faults.run || faults.close then Some(DriverFault) else None
      ensures nodes == if !faults.begin && !faults.run then NodesSet(old(nodes), w) else old(nodes)
    {
      if faults.begin { return Some(DriverFault); }
      if !faults.run { nodes := nodes[w.version := Node(w.dirty, Some(w.time))]; }
      return if faults.run || faults.close then Some(DriverFault) else None;
    }

    method Version(faults: SessionFaults) returns (r: Option<Register>)
      ensures r.None? <==> faults.begin || faults.run || faults.close
      ensures r.Some? ==> NodesRead(nodes, r.value)
    {
      if faults.begin || faults.run || faults.close { return None; }
      if |nodes| == 0 { return Some(NIL_REGISTER); }
      var todo: set<int> := nodes.Keys;
      assert |todo| == |nodes|;
      var top := Pick(todo);
      todo := todo - {top};
      while todo != {}
        invariant todo <= nodes.Keys && top in nodes && top !in todo
        invariant forall w :: w in nodes && w !in todo && w != top ==> Before(nodes, w, top)
        decreases |todo|
      {
        var v := Pick(todo);
        todo := todo - {v};
        if Before(nodes, top, v) { top := v; }
      }
      return Some((top, nodes[top].dirty));
    }
  }

  // ----- all three agree -----------------------------------------------------------------------

  function TableAfter(ws: seq<Write>, n: nat): Table
    requires n <= |ws|
  {
    if n == 0 then [] else TableSet(TableAfter(ws, n - 1), ws[n - 1].version, ws[n - 1].dirty)
  }

  function LogAfter(ws: seq<Write>, n: nat): Log
    requires n <= |ws|
  {
    if n == 0 then [] else LogSet(LogAfter(ws, n - 1), ws[n - 1])
  }

  function NodesAfter(ws: seq<Write>, n: nat): Nodes
    requires n <= |ws|
  {
    if n == 0 then map[] else NodesSet(NodesAfter(ws, n - 1), ws[n - 1])
  }

  ghost predicate Ticking(ws: seq<Write>) {
    forall i, j :: 0 <= i < j < |ws| ==> ws[i].time < ws[j].time
  }

  lemma {:induction false} LogHolds(ws: seq<Write>, n: nat)
    requires n <= |ws|
    ensures |LogAfter(ws, n)| == n
    ensures forall j :: 0 <= j < n ==> LogAfter(ws, n)[j].sequence == ws[j].time
  {
    if n > 0 { LogHolds(ws, n - 1); }
  }

  lemma {:induction false} NodesHold(ws: seq<Write>, n: nat)
    requires n <= |ws|
    ensures forall v :: v in NodesAfter(ws, n) ==>
              exists j :: 0 <= j < n && NodesAfter(ws, n)[v].ts == Some(ws[j].time)
  {
    if n > 0 {
      NodesHold(ws, n - 1);
      forall v | v in NodesAfter(ws, n)
        ensures exists j :: 0 <= j < n && NodesAfter(ws, n)[v].ts == Some(ws[j].time)
      {
        if v != ws[n - 1].version {
          assert NodesAfter(ws, n)[v] == NodesAfter(ws, n - 1)[v];
          var j :| 0 <= j < n - 1 && NodesAfter(ws, n - 1)[v].ts == Some(ws[j].time);
        } else {
          assert NodesAfter(ws, n)[v].ts == Some(ws[n - 1].time);
        }
      }
    }
  }

  /** After any writes with increasing times, all three forms return the last pair written. */
  lemma LastWriteWins(ws: seq<Write>, n: nat)
    requires 0 < n <= |ws| && Ticking(ws) && ws[n - 1].version >= NIL_VERSION
    ensures var last := (ws[n - 1].version, ws[n - 1].dirty);
            && TableRead(TableAfter(ws, n)) == last
            && (forall r :: LogReads(LogAfter(ws, n), r) <==> r == last)
            && (forall r :: NodesRead(NodesAfter(ws, n), r) <==> r == last)
  {
    TableReadsBack(TableAfter(ws, n - 1), ws[n - 1].version, ws[n - 1].dirty);
    LogReadsLast(ws, n);
    NodesReadLast(ws, n);
  }

  lemma LogReadsLast(ws: seq<Write>, n: nat)
    requires 0 < n <= |ws| && Ticking(ws)
    ensures forall r :: LogReads(LogAfter(ws, n), r) <==> r == (ws[n - 1].version, ws[n - 1].dirty)
  {
    LogHolds(ws, n - 1);
    LogReadsBackIffLater(LogAfter(ws, n - 1), ws[n - 1]);
    LogHolds(ws, n);
    assert IsLatest(LogAfter(ws, n), n - 1);
  }

  lemma NodesReadLast(ws: seq<Write>, n: nat)
    requires 0 < n <= |ws| && Ticking(ws)
    ensures forall r :: NodesRead(NodesAfter(ws, n), r) <==> r == (ws[n - 1].version, ws[n - 1].dirty)
  {
    var w := ws[n - 1];
    NodesHold(ws, n - 1);
    NodesReadBackIffLater(NodesAfter(ws, n - 1), w);
    forall r ensures NodesRead(NodesAfter(ws, n), r) <==> r == (w.version, w.dirty) {
      if NodesRead(NodesAfter(ws, n), r) { TopUnique(NodesAfter(ws, n), r.0, w.version); }
    }
  }

  /** Equal clock readings are not enough: the log may answer with the older of two rows, the
      nodes with the higher version instead of the newer one. */
  lemma EqualTimesCanLoseTheLastWrite()
    ensures var ws := [Write(2, false, 0), Write(1, true, 0)];
            LogReads(LogAfter(ws, 2), (2, false)) && !NodesRead(NodesAfter(ws, 2), (1, true))
  {
    var ws := [Write(2, false, 0), Write(1, true, 0)];
    assert LogAfter(ws, 1) == [Row(2, 0, 0)] by { assert LogAfter(ws, 0) == []; }
    assert LogAfter(ws, 2) == [Row(2, 0, 0), Row(1, 1, 0)];
    assert IsLatest(LogAfter(ws, 2), 0);
    assert NodesAfter(ws, 1) == map[2 := Node(false, Some(0))] by { assert NodesAfter(ws, 0) == map[]; }
    NodesReadBackIffLater(NodesAfter(ws, 1), ws[1]);
  }
}
