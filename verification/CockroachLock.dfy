/** The driver's lock as sequential code: a compare-and-swap flag that is restored when the
    guarded operation fails (database/util.go), around a row of a shared lock table
    (database/cockroachdb/cockroachdb.go). */
module CockroachLock {
  import opened Types

  class AtomicBool {
    var value: bool

    constructor (v: bool)
      ensures value == v
    {
      value := v;
    }

    method CompareAndSwap(o: bool, n: bool) returns (swapped: bool)
      modifies this
      ensures swapped <==> old(value) == o
      ensures value == if swapped then n else old(value)
    {
      if value == o {
        value := n;
        return true;
      }
      return false;
    }
  }

  /** The lock table shared by all instances; a lock id occurs at most once (primary key). */
  class LockTable {
    var exists': bool
    var rows: set<string>

    constructor ()
      ensures exists' && rows == {}
    {
      exists', rows := true, {};
    }
  }

  /** Which of the server's answers to Lock and Unlock are errors: to the SELECT, the INSERT, the
      commit, and the DELETE. */
  datatype Faults = Faults(select: bool, insert: bool, commit: bool, delete: bool)

  /** The transaction of Lock: SELECT, refuse if a row is found unless forced, INSERT. */
  method LockTx(t: LockTable, id: string, forced: bool, faults: Faults) returns (err: Option<Err>)
    modifies t
    ensures t.exists' == old(t.exists')
    ensures err.None? <==>
              id !in old(t.rows) && t.exists' && !faults.select && !faults.insert && !faults.commit
    ensures err == Some(Locked) <==> id in old(t.rows) && !forced && t.exists' && !faults.select
    ensures err.Some? ==> err == Some(Locked) || err == Some(DriverFault)
    ensures t.rows == if err.None? then old(t.rows) + {id} else old(t.rows)
  {
    if faults.select || !t.exists' { return Some(DriverFault); }
    var locked := id in t.rows;
    if locked && !forced { return Some(Locked); }
    if faults.insert || id in t.rows { return Some(DriverFault); }  // the insert violates the primary key
    if faults.commit { return Some(DriverFault); }
    t.rows := t.rows + {id};
    return None;
  }

  /** The DELETE of Unlock; a missing table counts as unlocked. */
  method UnlockTx(t: LockTable, id: string, faults: Faults) returns (err: Option<Err>)
    modifies t
    ensures t.exists' == old(t.exists')
    ensures err == if faults.delete then Some(DriverFault) else None
    ensures t.rows == if err.None? && t.exists' then old(t.rows) - {id} else old(t.rows)
  {
    if faults.delete { return Some(DriverFault); }
    if !t.exists' { return None; }
    t.rows := t.rows - {id};
    return None;
  }

  class Driver {
    const flag: AtomicBool
    const table: LockTable
    const id: string
    const forced: bool

    constructor (table: LockTable, id: string, forced: bool)
      ensures this.table == table && this.id == id && this.forced == forced
      ensures fresh(flag) && !flag.value
    {
      this.table, this.id, this.forced := table, id, forced;
      flag := new AtomicBool(false);
    }

    /** Flag and row agree. */
    ghost predicate Held()
      reads this, flag, table
    {
      flag.value && id in table.rows
    }

    /** Success means that nobody held the row, even with ForceLock: the forced insert runs
        into the primary key. Failure changes nothing. */
    method Lock(faults: Faults) returns (err: Option<Err>)
      modifies flag, table
      ensures table.exists' == old(table.exists')
      ensures err.None? <==>
                && !old(flag.value) && id !in old(table.rows) && table.exists'
                && !faults.select && !faults.insert && !faults.commit
      ensures err == Some(Locked) <==>
                old(flag.value) || (id in old(table.rows) && !forced && table.exists' && !faults.select)
      ensures err.Some? ==> err == Some(Locked) || err == Some(DriverFault)
      ensures err.None? ==> table.rows == old(table.rows) + {id} && Held()
      ensures err.Some? ==> flag.value == old(flag.value) && table.rows == old(table.rows)
    {
      var swapped := flag.CompareAndSwap(false, true);
      if !swapped { return Some(Locked); }
      err := LockTx(table, id, forced, faults);
      if err.Some? {
        flag.value := false;
      }
    }

    /** A failed unlock leaves the lock held; a successful one frees row and flag. */
    method Unlock(faults: Faults) returns (err: Option<Err>)
      modifies flag, table
      ensures table.exists' == old(table.exists')
      ensures err == if !old(flag.value) then Some(NotLocked) else if faults.delete then Some(DriverFault) else None
      ensures err.None? ==> !flag.value && table.rows == if table.exists' then old(table.rows) - {id} else old(table.rows)
      ensures err.Some? ==> flag.value == old(flag.value) && table.rows == old(table.rows)
    {
      var swapped := flag.CompareAndSwap(true, false);
      if !swapped { return Some(NotLocked); }
      err := UnlockTx(table, id, faults);
      if err.Some? {
        flag.value := true;
      }
    }
  }

  /** Two drivers on one table and lock id: while one holds the lock the other is refused and
      the holder keeps it. */
  method SecondDriverRefused(a: Driver, b: Driver, faults: Faults) returns (err: Option<Err>)
    requires a.table == b.table && a.id == b.id && a.flag != b.flag
    requires a.Held()
    modifies b.flag, b.table
    ensures err.Some? && a.Held() && b.flag.value == old(b.flag.value)
    ensures b.table.rows == old(b.table.rows)
    ensures !b.forced && b.table.exists' && !faults.select ==> err == Some(Locked)
  {
    err := b.Lock(faults);
  }

  /** Handing the lock over: once the first driver has unlocked, the second gets it. */
  method HandOver(a: Driver, b: Driver, faults: Faults) returns (unlocked: Option<Err>, locked: Option<Err>)
    requires a.table == b.table && a.id == b.id && a.flag != b.flag
    requires a.Held() && a.table.exists' && !b.flag.value
    requires !faults.select && !faults.insert && !faults.commit
    modifies a.flag, b.flag, b.table
    ensures unlocked.None? <==> !faults.delete
    ensures locked.None? <==> unlocked.None?
    ensures if locked.None? then b.Held() && !a.flag.value else a.Held() && !b.flag.value
    ensures b.table.rows == old(b.table.rows)
  {
    unlocked := a.Unlock(faults);
    locked := b.Lock(faults);
  }
}
