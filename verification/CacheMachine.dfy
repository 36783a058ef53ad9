/**
 `artifact.Cache` as a machine over any number of concurrent calls and identifiers.

 A session is one call together with what it hands out: `Get` up to its `unlock`, `Create` up to its
 `commit` or `abort`, `Remove`. Each step is one access to shared state. The tables change in
 critical sections of `mu`; `Stat`, `MkdirAll`, `Rename` and `RemoveAll` touch the directories
 outside of it, except that `writeLock` performs its `Stat` while it holds `mu`.
 */
module CacheMachine {
  import opened Basics
  import opened ArtifactCell

  /** Who runs a session: an upload handler, a worker's job, or anybody else. */
  datatype Owner = Guest(guest: nat) | Handler(handler: nat) | JobRun(round: nat, job: Id)

  datatype Sid = Sid(owner: Owner, index: nat)

  datatype Op = Get | Create | Remove

  datatype Outcome = Failed(error: CacheError) | Released | Committed | Aborted | Removed | RenameError

  datatype Pc =
    | GetStart
    | GetLocked
    | GetMissing
    | Reading(seen: Dir)                                 // after a successful Get; `seen` is what Stat found
    | LockStart(remove: bool)
    | LockInMu(remove: bool)
    | LockStatted(remove: bool, found: bool, at: Entry)  // `at` is the entry at the moment of Stat
    | CreateLocked
    | Writing
    | Renamed
    | RenameFailed
    | Aborting
    | AbortRemoved
    | RemoveLocked
    | RemoveDeleted
    | Done(outcome: Outcome)

  datatype Action =
    | Advance
    | Fill(d: Dir)
    | Commit
    | Abort
    | DeletePath(p: Path)
    | DeleteRoot
    | Release

  // ---- One session and the cell of its identifier ----

  predicate HoldsRead(pc: Pc) {
    pc.GetLocked? || pc.GetMissing? || pc.Reading?
  }

  predicate HoldsWrite(pc: Pc) {
    || pc.CreateLocked? || pc.Writing? || pc.Renamed? || pc.RenameFailed? || pc.Aborting? || pc.AbortRemoved?
    || pc.RemoveLocked? || pc.RemoveDeleted?
  }

  predicate HoldsMu(pc: Pc) {
    pc.LockInMu? || pc.LockStatted?
  }

  /** Steps that run, or open, a critical section of `mu`. */
  predicate NeedsMu(pc: Pc, a: Action) {
    || (a.Advance? && (pc.GetStart? || pc.GetMissing? || pc.LockStart? || pc.Renamed? || pc.RenameFailed?
                       || pc.AbortRemoved? || pc.RemoveDeleted?))
    || (a.Release? && pc.Reading?)
  }

  predicate LocalEnabled(pc: Pc, x: Cell, a: Action) {
    match a
    case Advance => NeedsMu(pc, a) || pc.GetLocked? || pc.LockInMu? || pc.LockStatted? || pc.CreateLocked?
    case Fill(_) => pc.Writing? && x.tmp.Some?
    case Commit => pc.Writing? && x.tmp.Some?
    case Abort => pc.Writing?
    // RemoveAll deletes what it finds, then the root; a missing root is no error
    case DeletePath(p) =>
      || (pc.Aborting? && x.tmp.Some? && p in x.tmp.value)
      || (pc.RemoveLocked? && x.disk.Some? && p in x.disk.value)
    case DeleteRoot =>
      || (pc.Aborting? && (x.tmp.Some? ==> x.tmp.value == map[]))
      || (pc.RemoveLocked? && (x.disk.Some? ==> x.disk.value == map[]))
    case Release => pc.Reading?
  }

  function Local(pc: Pc, x: Cell, a: Action): (Pc, Cell)
    requires LocalEnabled(pc, x, a)
  {
    match a
    case Advance => LocalAdvance(pc, x)
    case Fill(d) => (pc, x.(tmp := Some(d)))
    case Commit =>
      var (y, ok) := Rename(x);
      (if ok then Renamed else RenameFailed, y)
    case Abort => (Aborting, x)
    case DeletePath(p) =>
      if pc.Aborting? then (pc, x.(tmp := Some(x.tmp.value - {p})))
      else (pc, x.(disk := Some(x.disk.value - {p})))
    case DeleteRoot =>
      if pc.Aborting? then (AbortRemoved, x.(tmp := None)) else (RemoveDeleted, x.(disk := None))
    case Release => (Done(Released), ReadUnlock(x))
  }

  /** The steps a session takes by itself. */
  function LocalAdvance(pc: Pc, x: Cell): (Pc, Cell)
    requires LocalEnabled(pc, x, Advance)
  {
    match pc
    case GetStart =>
      var (y, err) := ReadLock(x);
      (if err.None? then GetLocked else Done(Failed(err.value)), y)
    case GetLocked => (if x.disk.Some? then Reading(x.disk.value) else GetMissing, x)
    case GetMissing => (Done(Failed(NotFound)), ReadUnlock(x))
    case LockStart(remove) => (LockInMu(remove), x)
    case LockInMu(remove) => (LockStatted(remove, x.disk.Some?, EntryOf(x)), x)
    case LockStatted(remove, found, _) =>
      var (y, err) := WriteLock(x, found, remove);
      (if err.Some? then Done(Failed(err.value)) else if remove then RemoveLocked else CreateLocked, y)
    case CreateLocked => (Writing, MakeTmp(x))
    case Renamed => (Done(Committed), WriteUnlock(x))
    case RenameFailed => (Done(RenameError), WriteUnlock(x))
    case AbortRemoved => (Done(Aborted), WriteUnlock(x))
    case RemoveDeleted => (Done(Removed), WriteUnlock(x))
  }

  // ---- The whole cache ----

  datatype Session = Session(id: Id, pc: Pc)

  datatype State = State(mu: Option<Sid>, cells: map<Id, Cell>, sessions: map<Sid, Session>)

  function At(c: State, id: Id): Cell {
    if id in c.cells then c.cells[id] else NO_CELL
  }

  function PcAt(c: State, s: Sid): Pc
    requires s in c.sessions
  {
    c.sessions[s].pc
  }

  function IdAt(c: State, s: Sid): Id
    requires s in c.sessions
  {
    c.sessions[s].id
  }

  /** `NewCache` empties `tmp` and keeps whatever `c` holds. */
  ghost predicate Init(c: State) {
    && c.mu == None && c.sessions == map[]
    && forall id :: At(c, id) == NO_CELL.(disk := At(c, id).disk)
  }

  function StartPc(op: Op): Pc {
    match op
    case Get => GetStart
    case Create => LockStart(false)
    case Remove => LockStart(true)
  }

  function Begin(c: State, s: Sid, op: Op, id: Id): State {
    c.(sessions := c.sessions[s := Session(id, StartPc(op))])
  }

  predicate Enabled(c: State, s: Sid, a: Action) {
    && s in c.sessions
    && LocalEnabled(PcAt(c, s), At(c, IdAt(c, s)), a)
    && (NeedsMu(PcAt(c, s), a) ==> c.mu.None?)
  }

  function Apply(c: State, s: Sid, a: Action): State
    requires Enabled(c, s, a)
  {
    var id, pc := IdAt(c, s), PcAt(c, s);
    var (pc', x') := Local(pc, At(c, id), a);
    State(if HoldsMu(pc') then Some(s) else if HoldsMu(pc) then None else c.mu,
          c.cells[id := x'],
          c.sessions[s := Session(id, pc')])
  }

  predicate Step(c: State, s: Sid, a: Action, c': State) {
    Enabled(c, s, a) && c' == Apply(c, s, a)
  }

  /** Any caller may start any operation, and any session may move. */
  ghost predicate Next(c: State, c': State) {
    || (exists s, op, id :: s !in c.sessions && c' == Begin(c, s, op, id))
    || (exists s, a :: Step(c, s, a, c'))
  }

  ghost predicate Run(tr: seq<State>) {
    && |tr| > 0 && Init(tr[0])
    && forall i :: 0 <= i < |tr| - 1 ==> Next(tr[i], tr[i + 1])
  }

  // ---- Invariants ----

  /** The sessions that hold a read lock on an identifier. */
  function Readers(c: State, id: Id): set<Sid> {
    set s | s in c.sessions && IdAt(c, s) == id && HoldsRead(PcAt(c, s))
  }

  ghost predicate WritesAt(c: State, s: Sid, id: Id) {
    s in c.sessions && IdAt(c, s) == id && HoldsWrite(PcAt(c, s))
  }

  ghost predicate MutexInv(c: State) {
    && (c.mu.Some? ==> c.mu.value in c.sessions && HoldsMu(PcAt(c, c.mu.value)))
    && forall s <- c.sessions :: HoldsMu(PcAt(c, s)) ==> c.mu == Some(s)
  }

  /** The lock tables tell exactly who holds what, and `tmp/<id>` exists only under the write lock. */
  ghost predicate LockInv(c: State, id: Id) {
    && At(c, id).readers == |Readers(c, id)|
    && (At(c, id).write <==> exists s :: WritesAt(c, s, id))
    && (forall s, t :: WritesAt(c, s, id) && WritesAt(c, t, id) ==> s == t)
    && (At(c, id).write ==> At(c, id).readers == 0)
    && (At(c, id).tmp.Some? ==> At(c, id).write)
  }

  /** What each program point knows of its identifier. */
  predicate Knows(pc: Pc, x: Cell) {
    match pc
    case Reading(seen) => x.disk == Some(seen)
    case GetMissing => x.disk == None
    case LockStatted(_, found, at) =>
      && found == at.content.Some?
      && at.lock == EntryOf(x).lock
      && (x.write || at == EntryOf(x))
    case CreateLocked => x.disk == None && x.tmp == None
    case Writing => x.disk == None && x.tmp.Some?
    case Renamed => x.disk.Some? && x.tmp == None
    case RenameFailed => false
    case Aborting => x.disk == None && x.tmp.Some?
    case AbortRemoved => x.disk == None && x.tmp == None
    case RemoveLocked => x.tmp == None
    case RemoveDeleted => x.disk == None && x.tmp == None
    case Done(outcome) => outcome != RenameError
    case _ => true
  }

  ghost predicate KnowsInv(c: State) {
    forall s <- c.sessions :: Knows(PcAt(c, s), At(c, IdAt(c, s)))
  }

  ghost predicate Inv(c: State) {
    MutexInv(c) && (forall id :: LockInv(c, id)) && KnowsInv(c)
  }
}
