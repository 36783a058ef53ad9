/**
 Everything `artifact.Cache` stores about one identifier, and the critical sections that change it.

 Different identifiers never share a directory or a table entry, so both the sequential class and
 the concurrent machine are built from these functions on a single cell.
 */
module ArtifactCell {
  import opened Basics

  datatype CacheError = NotFound | Exists | WriteLocked | ReadLocked

  /** `write` and `readers` are the table entries, `disk` and `tmp` the directories `c/<id>` and `tmp/<id>`. */
  datatype Cell = Cell(write: bool, readers: int, disk: Option<Dir>, tmp: Option<Dir>)

  const NO_CELL := Cell(false, 0, None, None)

  function ReadLock(x: Cell): (Cell, Option<CacheError>) {
    if x.write then (x, Some(WriteLocked)) else (x.(readers := x.readers + 1), None)
  }

  function ReadUnlock(x: Cell): Cell {
    x.(readers := x.readers - 1)
  }

  /** `writeLock` after its `Stat`, whose answer is `found`. */
  function WriteLock(x: Cell, found: bool, remove: bool): (Cell, Option<CacheError>) {
    if found && !remove then (x, Some(Exists))
    else if x.write then (x, Some(WriteLocked))
    else if x.readers > 0 then (x, Some(ReadLocked))
    else (x.(write := true), None)
  }

  function WriteUnlock(x: Cell): Cell {
    x.(write := false)
  }

  /** `MkdirAll` keeps a directory that is already there. */
  function MakeTmp(x: Cell): Cell {
    if x.tmp.Some? then x else x.(tmp := Some(map[]))
  }

  /** `os.Rename` of `tmp/<id>` to `c/<id>` refuses to replace a directory that is not empty. */
  function Rename(x: Cell): (Cell, bool)
    requires x.tmp.Some?
  {
    if x.disk.Some? && x.disk.value != map[] then (x, false)
    else (x.(disk := x.tmp, tmp := None), true)
  }

  // ---- The abstract life of one identifier ----

  datatype LockMode = Free | Read(n: nat) | Write

  /** What callers of the cache can know of one identifier. */
  datatype Entry = Entry(content: Option<Dir>, lock: LockMode)

  function EntryOf(x: Cell): Entry {
    Entry(x.disk, if x.write then Write else if x.readers > 0 then Read(x.readers) else Free)
  }

  /** The answer of `Create` (`remove` false) or `Remove` (`remove` true) in terms of the entry alone. */
  function Dictated(e: Entry, remove: bool): Option<CacheError> {
    if e.content.Some? && !remove then Some(Exists)
    else match e.lock
      case Write => Some(WriteLocked)
      case Read(_) => Some(ReadLocked)
      case Free => None
  }

  /** The moves of an entry: a readers-writer lock, and contents that change only under its write side. */
  ghost predicate EntryStep(e: Entry, f: Entry) {
    || e == f
    || (e.content == f.content && LockStep(e.lock, f.lock))
    || (e.lock == Write && f.lock == Write && ContentStep(e.content, f.content))
  }

  predicate LockStep(m: LockMode, n: LockMode) {
    match (m, n)
    case (Free, Read(k)) => k == 1
    case (Read(j), Read(k)) => k == j + 1 || j == k + 1
    case (Read(j), Free) => j == 1
    case (Free, Write) => true
    case (Write, Free) => true
    case _ => false
  }

  /** Published whole, taken apart path by path, removed once empty. */
  ghost predicate ContentStep(c: Option<Dir>, d: Option<Dir>) {
    match (c, d)
    case (None, Some(_)) => true
    case (Some(x), Some(y)) => exists p :: p in x && y == x - {p}
    case (Some(x), None) => x == map[]
    case (None, None) => false
  }
}
