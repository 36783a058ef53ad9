/**
 Any number of uploads, downloads and removals of files, interleaved.

 An upload is `handlePut`: it takes the key lock, drives one session of the cache machine after the
 other, and releases the key. Everybody else is a guest of the cache: the leaders of `handleGet` and
 the coordinator's `removeSourceFiles`, which never create entries.
 */
module PutMachine {
  import opened Basics
  import opened ArtifactCell
  import opened FileCache
  import C = CacheMachine

  datatype PutPc =
    | KeyMap                       // before finding its slot in the key locker's map
    | KeySend                      // before sending into the slot
    | Creating
    | Deleting
    | Opening
    | Copying(n: nat)              // `n` bytes of the body are in the file
    | Closing
    | Discarding
    | KeyFind(res: PutResult)      // before finding the slot again, to release it
    | KeyReceive(res: PutResult)
    | Finished(res: PutResult)

  /** `index` numbers the upload's cache sessions; `retries` counts the `goto start`s. */
  datatype Put = Put(id: Id, body: Bytes, pc: PutPc, retries: nat, index: nat)

  /** `keys` are the key locker's slots, full or not; `author` remembers who published an entry last. */
  datatype Puts = Puts(cache: C.State, keys: map<Id, bool>, puts: map<nat, Put>,
                       initial: map<Id, Dir>, author: map<Id, nat>)

  datatype PutAction =
    | Lookup
    | Send
    | Drive(a: C.Action)
    | WriteTo(m: nat)
    | Find
    | Receive

  predicate Active(pc: PutPc) {
    pc.Creating? || pc.Deleting? || pc.Opening? || pc.Copying? || pc.Closing? || pc.Discarding?
  }

  predicate HoldsKey(pc: PutPc) {
    Active(pc) || pc.KeyFind? || pc.KeyReceive?
  }

  /** Which steps of its current session an upload takes at each point of `handlePut`. */
  predicate Drives(put: Put, a: C.Action) {
    match put.pc
    case Creating => a.Advance?
    case Deleting => a.Advance? || a.DeletePath? || a.DeleteRoot?
    case Copying(n) => (a.Commit? && n == |put.body|) || a.Abort?
    case Closing => a.Advance?
    case Discarding => a.Advance? || a.DeletePath? || a.DeleteRoot?
    case _ => false
  }

  /** Creating the file, then writing the body up to its `m`-th byte. */
  predicate Writes(put: Put, m: nat) {
    match put.pc
    case Opening => m == 0
    case Copying(n) => n <= m <= |put.body|
    case _ => false
  }

  /** The control flow of `handlePut` after step `a` has brought its session to `q`. */
  function Follow(put: Put, a: C.Action, q: C.Pc): (Put, Option<C.Op>) {
    match put.pc
    case Creating => (
      match q
      case Done(Failed(Exists)) => (put.(pc := Deleting, index := put.index + 1), Some(C.Remove))
      case Done(Failed(e)) => (put.(pc := KeyFind(Refused(e))), None)
      case Writing => (put.(pc := Opening), None)
      case _ => (put, None))
    case Deleting => (
      match q
      case Done(Failed(e)) => (put.(pc := KeyFind(Refused(e))), None)
      case Done(_) => (put.(pc := Creating, index := put.index + 1, retries := put.retries + 1), Some(C.Create))
      case _ => (put, None))
    case Copying(_) => (put.(pc := if a.Commit? then Closing else Discarding), None)
    case Closing => (put.(pc := KeyFind(if q == C.Done(C.Committed) then Stored else CloseFailed)), None)
    case Discarding => (if q.Done? then put.(pc := KeyFind(BodyFailed)) else put, None)
    case _ => (put, None)
  }

  function Current(h: nat, put: Put): C.Sid {
    C.Sid(C.Handler(h), put.index)
  }

  predicate PutEnabled(p: Puts, h: nat, act: PutAction) {
    && h in p.puts
    && var put := p.puts[h];
    match act
    case Lookup => put.pc == KeyMap
    case Send => put.pc == KeySend && put.id in p.keys && !p.keys[put.id]
    case Drive(a) => Drives(put, a) && C.Enabled(p.cache, Current(h, put), a)
    case WriteTo(m) => Writes(put, m) && C.Enabled(p.cache, Current(h, put), C.Fill(FileDir(put.body[..m])))
    case Find => put.pc.KeyFind?
    case Receive => put.pc.KeyReceive? && put.id in p.keys && p.keys[put.id]
  }

  function PutApply(p: Puts, h: nat, act: PutAction): Puts
    requires PutEnabled(p, h, act)
  {
    var put := p.puts[h];
    match act
    case Lookup =>
      p.(keys := if put.id in p.keys then p.keys else p.keys[put.id := false],
         puts := p.puts[h := put.(pc := KeySend)])
    case Send =>
      var put' := put.(pc := Creating);
      p.(keys := p.keys[put.id := true],
         puts := p.puts[h := put'],
         cache := C.Begin(p.cache, Current(h, put'), C.Create, put.id))
    case Drive(a) =>
      var s := Current(h, put);
      var c := C.Apply(p.cache, s, a);
      var (put', next) := Follow(put, a, C.PcAt(c, s));
      p.(puts := p.puts[h := put'],
         cache := match next case None => c case Some(op) => C.Begin(c, Current(h, put'), op, put.id),
         author := if a.Commit? && C.PcAt(c, s).Renamed? then p.author[put.id := h] else p.author)
    case WriteTo(m) =>
      p.(puts := p.puts[h := put.(pc := Copying(m))],
         cache := C.Apply(p.cache, Current(h, put), C.Fill(FileDir(put.body[..m]))))
    case Find =>
      // a key that is missing from the map is not released
      p.(puts := p.puts[h := put.(pc := if put.id in p.keys then KeyReceive(put.pc.res) else Finished(put.pc.res))])
    case Receive =>
      p.(keys := p.keys[put.id := false], puts := p.puts[h := put.(pc := Finished(put.pc.res))])
  }

  predicate Arrives(p: Puts, h: nat, id: Id, body: Bytes, p': Puts) {
    h !in p.puts && p' == p.(puts := p.puts[h := Put(id, body, KeyMap, 0, 0)])
  }

  predicate GuestBegins(p: Puts, s: C.Sid, op: C.Op, id: Id, p': Puts) {
    && s.owner.Guest? && s !in p.cache.sessions && !op.Create?
    && p' == p.(cache := C.Begin(p.cache, s, op, id))
  }

  predicate GuestSteps(p: Puts, s: C.Sid, a: C.Action, p': Puts) {
    && s.owner.Guest? && C.Enabled(p.cache, s, a)
    && p' == p.(cache := C.Apply(p.cache, s, a))
  }

  predicate PutSteps(p: Puts, h: nat, act: PutAction, p': Puts) {
    PutEnabled(p, h, act) && p' == PutApply(p, h, act)
  }

  ghost predicate Next(p: Puts, p': Puts) {
    || (exists h, id, body :: Arrives(p, h, id, body, p'))
    || (exists s, op, id :: GuestBegins(p, s, op, id, p'))
    || (exists s, a :: GuestSteps(p, s, a, p'))
    || (exists h, act :: PutSteps(p, h, act, p'))
  }

  ghost predicate Init(p: Puts) {
    && C.Init(p.cache) && p.keys == map[] && p.puts == map[] && p.author == map[]
    && forall id :: C.At(p.cache, id).disk == if id in p.initial then Some(p.initial[id]) else None
  }

  ghost predicate Run(tr: seq<Puts>) {
    && |tr| > 0 && Init(tr[0])
    && forall i :: 0 <= i < |tr| - 1 ==> Next(tr[i], tr[i + 1])
  }

  // ---- Invariants ----

  /** Program points that only `Create` reaches. */
  predicate CreatorPc(pc: C.Pc) {
    || (pc.LockStart? && !pc.remove) || (pc.LockInMu? && !pc.remove) || (pc.LockStatted? && !pc.remove)
    || pc.CreateLocked? || pc.Writing? || pc.Renamed? || pc.RenameFailed? || pc.Aborting? || pc.AbortRemoved?
  }

  /** What each point of `handlePut` knows of its session and of its entry. */
  predicate PhaseOk(put: Put, pc: C.Pc, x: Cell) {
    && put.retries <= 1
    && match put.pc
       case Creating =>
         && (((pc.LockStart? || pc.LockInMu? || pc.LockStatted?) && !pc.remove) || pc.CreateLocked?)
         && (put.retries == 1 ==> x.disk == None && (pc.LockStatted? ==> !pc.found))
       case Deleting =>
         && (((pc.LockStart? || pc.LockInMu? || pc.LockStatted?) && pc.remove) || pc.RemoveLocked? || pc.RemoveDeleted?)
         && put.retries == 0
       case Opening => pc.Writing?
       case Copying(n) => pc.Writing? && n <= |put.body| && x.tmp == Some(FileDir(put.body[..n]))
       case Closing => pc.Renamed?
       case Discarding => pc.Aborting? || pc.AbortRemoved?
       case Finished(res) => !CannotHappen(res)
       case KeyFind(res) => !CannotHappen(res)
       case KeyReceive(res) => !CannotHappen(res)
       case KeyMap => put.retries == 0
       case KeySend => put.retries == 0
  }

  predicate CannotHappen(res: PutResult) {
    res == CloseFailed || res == Refused(Exists) || res == Refused(NotFound)
  }

  ghost predicate KeyInv(p: Puts) {
    && (forall h <- p.puts :: HoldsKey(p.puts[h].pc) ==> p.puts[h].id in p.keys && p.keys[p.puts[h].id])
    && (forall h <- p.puts, g <- p.puts ::
          HoldsKey(p.puts[h].pc) && HoldsKey(p.puts[g].pc) && p.puts[h].id == p.puts[g].id ==> h == g)
    && (forall h <- p.puts :: !p.puts[h].pc.KeyMap? ==> p.puts[h].id in p.keys)
  }

  predicate PhaseAt(p: Puts, h: nat)
    requires h in p.puts
  {
    var put := p.puts[h];
    if Active(put.pc) then
      && Current(h, put) in p.cache.sessions && C.IdAt(p.cache, Current(h, put)) == put.id
      && PhaseOk(put, C.PcAt(p.cache, Current(h, put)), C.At(p.cache, put.id))
    else PhaseOk(put, C.GetStart, NO_CELL)
  }

  ghost predicate PhaseInv(p: Puts) {
    forall h <- p.puts :: PhaseAt(p, h)
  }

  /** Guests never create; an upload's earlier sessions are over. */
  predicate OwnerOk(p: Puts, s: C.Sid)
    requires s in p.cache.sessions
  {
    match s.owner
    case Guest(_) => !CreatorPc(C.PcAt(p.cache, s))
    case JobRun(_, _) => false
    case Handler(h) =>
      && h in p.puts && C.IdAt(p.cache, s) == p.puts[h].id && s.index <= p.puts[h].index
      && !p.puts[h].pc.KeyMap? && !p.puts[h].pc.KeySend?
      && (s.index < p.puts[h].index || !Active(p.puts[h].pc) ==> C.PcAt(p.cache, s).Done?)
  }

  ghost predicate OwnerInv(p: Puts) {
    forall s <- p.cache.sessions :: OwnerOk(p, s)
  }

  ghost predicate BeingRemoved(p: Puts, id: Id) {
    exists s <- p.cache.sessions :: C.IdAt(p.cache, s) == id && C.PcAt(p.cache, s).RemoveLocked?
  }

  /** The complete body of its author, or what was there before the run. */
  predicate Complete(p: Puts, id: Id, d: Dir) {
    if id in p.author then
      p.author[id] in p.puts && p.puts[p.author[id]].id == id && d == FileDir(p.puts[p.author[id]].body)
    else id in p.initial && d == p.initial[id]
  }

  ghost predicate ContentInv(p: Puts) {
    forall id :: C.At(p.cache, id).disk.Some? && !BeingRemoved(p, id) ==> Complete(p, id, C.At(p.cache, id).disk.value)
  }

  ghost predicate PutInv(p: Puts) {
    C.Inv(p.cache) && KeyInv(p) && PhaseInv(p) && OwnerInv(p) && ContentInv(p)
  }
}
