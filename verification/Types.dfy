/** Values shared by the engine modules: migrations, the items that travel from a
    planner to the consumer, errors, and the machine integers the code casts between. */
module Types {

  datatype Option<+T> = None | Some(value: T)

  const NIL_VERSION: int := -1
  const MAX_INT: int := 0x7FFF_FFFF_FFFF_FFFF
  const UINT_SIZE: int := 0x1_0000_0000_0000_0000

  /** The Go conversion `int(u)` of a 64-bit unsigned value. */
  function ToInt(u: nat): int {
    if u <= MAX_INT then u else u - UINT_SIZE
  }

  /** The Go negation `-n` of a 64-bit signed value: the smallest one is its own negation. */
  function Negate(n: int): int {
    if n == -MAX_INT - 1 then n else -n
  }

  /** `suint` panics below zero; here that is a precondition every caller must meet. */
  function Suint(n: int): nat
    requires n >= 0
  {
    n
  }

  datatype Err =
    | NoChange
    | NotExist
    | ShortLimit(short: nat)
    | DirtyVersion(version: int)
    | InvalidVersion
    | Locked
    | NotLocked
    | LockTimeout
    | DriverFault
    | SourceFault

  /** A migration as the consumer sees it; a missing body is a nil migration. */
  datatype Migration = Migration(version: nat, target: int, body: Option<string>) {
    predicate IsUp() { target >= version }
  }

  /** What a planner puts on the channel. */
  datatype Item = Migr(migration: Migration) | Fail(err: Err)

  /** One operation of a planner goroutine: poll the stop flag, read from the source (one or
      two reads that may fail), or send an item. */
  datatype Op = Poll | Look | Send(item: Item)
}
