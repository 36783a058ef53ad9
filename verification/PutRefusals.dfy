/** When uploads are refused, and what a refused upload has done to the entry it met. */
module PutRefusals {
  import opened Basics
  import opened ArtifactCell
  import opened FileCache
  import opened PutMachine
  import opened PutProofs
  import opened PutTheorems
  import C = CacheMachine
  import CP = CacheProofs

  // ---- Runs in which nobody but uploads writes ----

  ghost predicate BeginsRemove(p: Puts, p': Puts) {
    exists s, id :: GuestBegins(p, s, C.Remove, id, p')
  }

  /** Guests only download. */
  ghost predicate DownloadsOnly(tr: seq<Puts>) {
    Run(tr) && forall i :: 0 <= i < |tr| - 1 ==> !BeginsRemove(tr[i], tr[i + 1])
  }

  predicate ReaderPc(pc: C.Pc) {
    pc.GetStart? || pc.GetLocked? || pc.GetMissing? || pc.Reading? || pc.Done?
  }

  ghost predicate GuestsRead(p: Puts) {
    forall s <- p.cache.sessions :: s.owner.Guest? ==> ReaderPc(C.PcAt(p.cache, s))
  }

  predicate HasResult(pc: PutPc) {
    pc.KeyFind? || pc.KeyReceive? || pc.Finished?
  }

  ghost predicate NoWriteLockMet(p: Puts) {
    forall h <- p.puts :: HasResult(p.puts[h].pc) ==> p.puts[h].pc.res != Refused(WriteLocked)
  }

  lemma LocalReads(pc: C.Pc, x: Cell, a: C.Action)
    requires C.LocalEnabled(pc, x, a) && ReaderPc(pc)
    ensures var (q, y) := C.Local(pc, x, a); ReaderPc(q) && y.disk == x.disk
  {
  }

  lemma GuestsStayReaders(p: Puts, p': Puts)
    requires PutInv(p) && GuestsRead(p) && Next(p, p') && !BeginsRemove(p, p')
    ensures GuestsRead(p')
  {
    if h, act :| PutSteps(p, h, act, p') {
      OwnSessions(p, h, act, p');
    } else if s, a :| GuestSteps(p, s, a, p') {
      GuestReads(p, s, a, p');
    } else if s, op, id :| GuestBegins(p, s, op, id, p') {
      assert op.Get?;
    }
  }

  lemma GuestReads(p: Puts, s: C.Sid, a: C.Action, p': Puts)
    requires GuestsRead(p) && GuestSteps(p, s, a, p')
    ensures GuestsRead(p')
  {
    LocalReads(C.PcAt(p.cache, s), C.At(p.cache, C.IdAt(p.cache, s)), a);
  }

  /** An upload moves no session but its own. */
  lemma OwnSessions(p: Puts, h: nat, act: PutAction, p': Puts)
    requires PutSteps(p, h, act, p')
    ensures forall s <- p'.cache.sessions :: s.owner != C.Handler(h) ==>
              s in p.cache.sessions && p'.cache.sessions[s] == p.cache.sessions[s]
    ensures forall s <- p.cache.sessions :: s.owner != C.Handler(h) ==> s in p'.cache.sessions
    ensures h in p'.puts && p'.puts == p.puts[h := p'.puts[h]] && p'.puts[h].id == p.puts[h].id
  {
  }

  /** Whatever else happens leaves all uploads, and their sessions, as they are. */
  lemma ElseKept(p: Puts, p': Puts)
    requires Next(p, p') && !exists h, act :: PutSteps(p, h, act, p')
    ensures forall h <- p'.puts ::
              if h in p.puts then p'.puts[h] == p.puts[h] else p'.puts[h].pc.KeyMap? && p'.puts[h].retries == 0
    ensures p.puts.Keys <= p'.puts.Keys
    ensures forall s <- p.cache.sessions :: s.owner.Handler? ==>
              s in p'.cache.sessions && p'.cache.sessions[s] == p.cache.sessions[s]
  {
  }

  /** A result is kept, or is the outcome of a step of the cache. */
  lemma ResultMoves(p: Puts, h: nat, act: PutAction, p': Puts)
    requires PutSteps(p, h, act, p') && HasResult(p'.puts[h].pc)
    ensures (HasResult(p.puts[h].pc) && p'.puts[h].pc.res == p.puts[h].pc.res) || (act.Drive? && p'.puts[h].pc.KeyFind?)
  {
  }

  lemma NoWriteLockStep(p: Puts, p': Puts)
    requires PutInv(p) && GuestsRead(p) && NoWriteLockMet(p) && Next(p, p')
    ensures NoWriteLockMet(p')
  {
    if h, act :| PutSteps(p, h, act, p') {
      OwnSessions(p, h, act, p');
      OwnResult(p, h, act, p');
    } else {
      ElseKept(p, p');
    }
  }

  lemma OwnResult(p: Puts, h: nat, act: PutAction, p': Puts)
    requires PutInv(p) && GuestsRead(p) && NoWriteLockMet(p) && PutSteps(p, h, act, p')
    ensures h in p'.puts && (HasResult(p'.puts[h].pc) ==> p'.puts[h].pc.res != Refused(WriteLocked))
  {
    if HasResult(p'.puts[h].pc) {
      ResultMoves(p, h, act, p');
      if act.Drive? && p'.puts[h].pc.KeyFind? && p'.puts[h].pc.res.Refused? {
        WhyRefused(p, h, act.a, p');
      }
    }
  }

  ghost predicate ReadersInv(p: Puts) {
    GuestsRead(p) && NoWriteLockMet(p)
  }

  lemma {:induction false} RunReaders(tr: seq<Puts>, i: nat)
    requires DownloadsOnly(tr) && i < |tr|
    ensures ReadersInv(tr[i])
    decreases i
  {
    if i == 0 {
      assert tr[0].cache.sessions == map[] && tr[0].puts == map[];
    } else {
      RunReaders(tr, i - 1);
      RunInv(tr, i - 1);
      StepReaders(tr, i - 1);
    }
  }

  lemma StepReaders(tr: seq<Puts>, i: nat)
    requires DownloadsOnly(tr) && i + 1 < |tr| && PutInv(tr[i]) && ReadersInv(tr[i])
    ensures ReadersInv(tr[i + 1])
  {
    assert Next(tr[i], tr[i + 1]) && !BeginsRemove(tr[i], tr[i + 1]);
    GuestsStayReaders(tr[i], tr[i + 1]);
    NoWriteLockStep(tr[i], tr[i + 1]);
  }

  /**
   With uploads the only writers, no upload ever sees a write lock: it stores its body, fails to copy it,
   or is refused by a download's read lock.
   */
  lemma OnlyDownloadsRefuse(tr: seq<Puts>, i: nat, h: nat)
    requires DownloadsOnly(tr) && i < |tr| && h in tr[i].puts && HasResult(tr[i].puts[h].pc)
    ensures var res := tr[i].puts[h].pc.res;
            res == Stored || res == BodyFailed || res == Refused(ReadLocked)
  {
    RunReaders(tr, i);
    RunInv(tr, i);
    assert PhaseAt(tr[i], h) && !CannotHappen(tr[i].puts[h].pc.res);
    match tr[i].puts[h].pc.res {
      case Refused(e) => assert e != WriteLocked;
      case _ =>
    }
  }

  // ---- What a refused upload leaves alone ----

  /** The upload has changed its entry, or is bound to go on to do so. */
  predicate Touched(p: Puts, h: nat) {
    && h in p.puts
    && var put := p.puts[h];
    || put.retries > 0
    || put.pc.Closing?
    || (HasResult(put.pc) && put.pc.res == Stored)
    || (put.pc.Deleting? && Current(h, put) in p.cache.sessions
        && (C.PcAt(p.cache, Current(h, put)).RemoveLocked? || C.PcAt(p.cache, Current(h, put)).RemoveDeleted?))
  }

  predicate Changes(p: Puts, h: nat, p': Puts) {
    h in p.puts && C.At(p'.cache, p.puts[h].id).disk != C.At(p.cache, p.puts[h].id).disk
  }

  /** What one step of its session means for an upload that has begun to change its entry. */
  lemma LocalTouch(put: Put, pc: C.Pc, x: Cell, a: C.Action)
    requires Active(put.pc) && PhaseOk(put, pc, x) && Drives(put, a) && C.LocalEnabled(pc, x, a) && C.Knows(pc, x)
    ensures var (q, y) := C.Local(pc, x, a);
            var (put', next) := Follow(put, a, q);
            && put'.retries >= put.retries
            && (put.pc.Closing? ==> put'.pc == KeyFind(Stored))
            && ((put.pc.Deleting? && (pc.RemoveLocked? || pc.RemoveDeleted?)) || y.disk != x.disk ==>
                  put'.retries > 0 || put'.pc.Closing?
                  || (put'.pc.Deleting? && next.None? && (q.RemoveLocked? || q.RemoveDeleted?)))
  {
  }

  lemma DriveTouch(p: Puts, h: nat, a: C.Action, p': Puts)
    requires PutInv(p) && PutSteps(p, h, Drive(a), p') && (Touched(p, h) || Changes(p, h, p'))
    ensures Touched(p', h)
  {
    var put, s := p.puts[h], Current(h, p.puts[h]);
    CP.OwnView(p.cache, s);
    assert PhaseAt(p, h);
    LocalTouch(put, C.PcAt(p.cache, s), C.At(p.cache, put.id), a);
    DriveUnfolds(p, h, a, p');
  }

  lemma TouchStep(p: Puts, h: nat, act: PutAction, p': Puts)
    requires PutInv(p) && PutSteps(p, h, act, p') && (Touched(p, h) || Changes(p, h, p'))
    ensures Touched(p', h)
  {
    if act.Drive? {
      DriveTouch(p, h, act.a, p');
    } else {
      PlainTouch(p, h, act, p');
    }
  }

  lemma PlainTouch(p: Puts, h: nat, act: PutAction, p': Puts)
    requires PutInv(p) && PutSteps(p, h, act, p') && !act.Drive? && (Touched(p, h) || Changes(p, h, p'))
    ensures Touched(p', h)
  {
    assert PhaseAt(p, h);
  }

  lemma TouchedStays(p: Puts, h: nat, p': Puts)
    requires PutInv(p) && Next(p, p') && Touched(p, h)
    ensures Touched(p', h)
  {
    if g, act :| PutSteps(p, g, act, p') {
      if g == h {
        TouchStep(p, h, act, p');
      } else {
        OwnSessions(p, g, act, p');
      }
    } else {
      ElseKept(p, p');
    }
  }

  ghost predicate KeepsTouched(p: Puts, p': Puts, h: nat) {
    Touched(p, h) ==> Touched(p', h)
  }

  lemma RunTouched(tr: seq<Puts>, k: nat, h: nat)
    requires Run(tr) && k + 1 < |tr|
    ensures KeepsTouched(tr[k], tr[k + 1], h)
  {
    RunInv(tr, k);
    if Touched(tr[k], h) {
      TouchedStays(tr[k], h, tr[k + 1]);
    }
  }

  lemma {:induction false} TouchedChain(tr: seq<Puts>, i: nat, k: nat, h: nat)
    requires i <= k < |tr| && Touched(tr[i], h)
    requires forall n :: i <= n < k ==> KeepsTouched(tr[n], tr[n + 1], h)
    ensures Touched(tr[k], h)
    decreases k
  {
    if i < k {
      TouchedChain(tr, i, k - 1, h);
      assert KeepsTouched(tr[k - 1], tr[k - 1 + 1], h);
    }
  }

  lemma TouchedForever(tr: seq<Puts>, i: nat, k: nat, h: nat)
    requires Run(tr) && i <= k < |tr| && Touched(tr[i], h)
    ensures Touched(tr[k], h)
  {
    forall n | i <= n < k ensures KeepsTouched(tr[n], tr[n + 1], h) {
      RunTouched(tr, n, h);
    }
    TouchedChain(tr, i, k, h);
  }

  predicate RefusedAt(p: Puts, h: nat) {
    h in p.puts && HasResult(p.puts[h].pc) && p.puts[h].pc.res.Refused?
  }

  /** Refused without a retry, an upload has changed nothing: no step of it altered its entry. */
  lemma RefusedUntouched(tr: seq<Puts>, i: nat, k: nat, h: nat, act: PutAction)
    requires Run(tr) && i < k < |tr| && PutSteps(tr[i], h, act, tr[i + 1])
    requires RefusedAt(tr[k], h) && tr[k].puts[h].retries == 0
    ensures !Changes(tr[i], h, tr[i + 1])
  {
    RunInv(tr, i);
    if Changes(tr[i], h, tr[i + 1]) {
      TouchStep(tr[i], h, act, tr[i + 1]);
      TouchedForever(tr, i + 1, k, h);
    }
  }

  // ---- What a retry has removed ----

  /** The upload's own `Remove` has taken its entry away. */
  predicate Removed(p: Puts, h: nat) {
    && h in p.puts
    && (p.puts[h].retries > 0
        || (p.puts[h].pc.Deleting? && Current(h, p.puts[h]) in p.cache.sessions
            && C.PcAt(p.cache, Current(h, p.puts[h])).RemoveDeleted?))
  }

  predicate OwnRemoval(p: Puts, h: nat, p': Puts) {
    PutSteps(p, h, Drive(C.DeleteRoot), p') && p.puts[h].pc.Deleting?
  }

  lemma LocalRemoval(put: Put, pc: C.Pc, x: Cell, a: C.Action)
    requires Active(put.pc) && PhaseOk(put, pc, x) && Drives(put, a) && C.LocalEnabled(pc, x, a)
    requires put.retries == 0 && !(put.pc.Deleting? && pc.RemoveDeleted?)
    ensures var (q, y) := C.Local(pc, x, a);
            var (put', next) := Follow(put, a, q);
            put'.retries > 0 || (put'.pc.Deleting? && SessionAfter(q, next).RemoveDeleted?) ==>
                a.DeleteRoot? && put.pc.Deleting?
  {
  }

  lemma RemovalStep(p: Puts, h: nat, p': Puts)
    requires PutInv(p) && Next(p, p') && Removed(p', h) && !Removed(p, h)
    ensures OwnRemoval(p, h, p')
  {
    if g, act :| PutSteps(p, g, act, p') {
      OwnSessions(p, g, act, p');
      if g == h {
        if act.Drive? {
          DriveRemoval(p, h, act.a, p');
        } else {
          PlainRemoval(p, h, act, p');
        }
      }
    } else {
      ElseRemoval(p, h, p');
    }
  }

  lemma DriveRemoval(p: Puts, h: nat, a: C.Action, p': Puts)
    requires PutInv(p) && PutSteps(p, h, Drive(a), p') && Removed(p', h) && !Removed(p, h)
    ensures OwnRemoval(p, h, p')
  {
    var put, s := p.puts[h], Current(h, p.puts[h]);
    assert PhaseAt(p, h);
    LocalRemoval(put, C.PcAt(p.cache, s), C.At(p.cache, put.id), a);
    DriveUnfolds(p, h, a, p');
  }

  lemma PlainRemoval(p: Puts, h: nat, act: PutAction, p': Puts)
    requires PutSteps(p, h, act, p') && !act.Drive? && !Removed(p, h)
    ensures !Removed(p', h)
  {
  }

  lemma ElseRemoval(p: Puts, h: nat, p': Puts)
    requires PutInv(p) && Next(p, p') && !(exists g, act :: PutSteps(p, g, act, p')) && !Removed(p, h)
    ensures !Removed(p', h)
  {
    ElseKept(p, p');
    if h in p.puts && p.puts[h].pc.Deleting? {
      assert PhaseAt(p, h);
    }
  }

  ghost predicate RemovesItself(p: Puts, p': Puts, h: nat) {
    Removed(p', h) && !Removed(p, h) ==> OwnRemoval(p, h, p')
  }

  lemma RunRemoves(tr: seq<Puts>, n: nat, h: nat)
    requires Run(tr) && n + 1 < |tr|
    ensures RemovesItself(tr[n], tr[n + 1], h)
  {
    RunInv(tr, n);
    if Removed(tr[n + 1], h) && !Removed(tr[n], h) {
      RemovalStep(tr[n], h, tr[n + 1]);
    }
  }

  lemma {:induction false} RemovalChain(tr: seq<Puts>, k: nat, h: nat) returns (i: nat)
    requires k < |tr| && !Removed(tr[0], h) && Removed(tr[k], h)
    requires forall n :: 0 <= n < k ==> RemovesItself(tr[n], tr[n + 1], h)
    ensures i < k && OwnRemoval(tr[i], h, tr[i + 1])
  {
    assert RemovesItself(tr[k - 1], tr[k - 1 + 1], h);
    if Removed(tr[k - 1], h) {
      i := RemovalChain(tr, k - 1, h);
    } else {
      i := k - 1;
    }
  }

  /** An upload that has retried has removed the entry itself. */
  lemma RemovalMoment(tr: seq<Puts>, k: nat, h: nat) returns (i: nat)
    requires Run(tr) && k < |tr| && Removed(tr[k], h)
    ensures i < k && OwnRemoval(tr[i], h, tr[i + 1])
  {
    forall n | 0 <= n < k ensures RemovesItself(tr[n], tr[n + 1], h) {
      RunRemoves(tr, n, h);
    }
    i := RemovalChain(tr, k, h);
  }

  // ---- The entry that a retry meets, where guests only download ----

  /** An upload that is about to remove an entry still finds one. */
  predicate EntryThere(p: Puts, h: nat)
    requires h in p.puts
  {
    p.puts[h].pc.Deleting? ==>
      && Current(h, p.puts[h]) in p.cache.sessions
      && (C.PcAt(p.cache, Current(h, p.puts[h])).RemoveDeleted? || C.At(p.cache, p.puts[h].id).disk.Some?)
  }

  ghost predicate EntriesThere(p: Puts) {
    forall h <- p.puts :: EntryThere(p, h)
  }

  lemma LocalEntry(put: Put, pc: C.Pc, x: Cell, a: C.Action)
    requires Active(put.pc) && PhaseOk(put, pc, x) && Drives(put, a) && C.LocalEnabled(pc, x, a) && C.Knows(pc, x)
    requires pc.LockStatted? ==> !x.write
    requires put.pc.Deleting? ==> pc.RemoveDeleted? || x.disk.Some?
    ensures var (q, y) := C.Local(pc, x, a);
            var (put', next) := Follow(put, a, q);
            put'.pc.Deleting? ==> SessionAfter(q, next).RemoveDeleted? || y.disk.Some?
  {
  }

  /** Nobody else holds the write lock of an upload's identifier. */
  lemma NoOtherWriter(p: Puts, h: nat)
    requires PutInv(p) && GuestsRead(p) && h in p.puts && Active(p.puts[h].pc) && PhaseAt(p, h)
    ensures C.PcAt(p.cache, Current(h, p.puts[h])).LockStatted? ==> !C.At(p.cache, p.puts[h].id).write
  {
    assert C.LockInv(p.cache, p.puts[h].id);
    if C.PcAt(p.cache, Current(h, p.puts[h])).LockStatted? && C.At(p.cache, p.puts[h].id).write {
      var s :| C.WritesAt(p.cache, s, p.puts[h].id);
      HolderIsGuest(p, h, s);
    }
  }

  lemma EntryCore(p: Puts, h: nat, q: C.Pc, y: Cell, put': Put, next: Option<C.Op>, p': Puts)
    requires h in p.puts && DriveResult(p, h, q, y, put', next, p')
    requires put'.id == p.puts[h].id && put'.index == p.puts[h].index + (if next.Some? then 1 else 0)
    requires put'.pc.Deleting? ==> SessionAfter(q, next).RemoveDeleted? || y.disk.Some?
    ensures h in p'.puts && EntryThere(p', h)
  {
  }

  lemma OwnEntry(p: Puts, h: nat, a: C.Action, q: C.Pc, y: Cell, put': Put, next: Option<C.Op>)
    requires PutInv(p) && GuestsRead(p) && EntriesThere(p) && PutEnabled(p, h, Drive(a))
    requires C.IdAt(p.cache, Current(h, p.puts[h])) == p.puts[h].id
    requires (q, y) == C.Local(C.PcAt(p.cache, Current(h, p.puts[h])), C.At(p.cache, p.puts[h].id), a)
    requires (put', next) == Follow(p.puts[h], a, q)
    ensures put'.pc.Deleting? ==> SessionAfter(q, next).RemoveDeleted? || y.disk.Some?
    ensures put'.id == p.puts[h].id && put'.index == p.puts[h].index + (if next.Some? then 1 else 0)
  {
    var put, s := p.puts[h], Current(h, p.puts[h]);
    assert PhaseAt(p, h) && EntryThere(p, h);
    CP.OwnView(p.cache, s);
    NoOtherWriter(p, h);
    LocalEntry(put, C.PcAt(p.cache, s), C.At(p.cache, put.id), a);
    DriveLocal(put, C.PcAt(p.cache, s), C.At(p.cache, put.id), a);
  }

  lemma DriveEntry(p: Puts, h: nat, a: C.Action, p': Puts)
    requires PutInv(p) && GuestsRead(p) && EntriesThere(p) && PutSteps(p, h, Drive(a), p')
    ensures h in p'.puts && EntryThere(p', h)
  {
    assert PhaseAt(p, h);
    var (q, y) := C.Local(C.PcAt(p.cache, Current(h, p.puts[h])), C.At(p.cache, p.puts[h].id), a);
    var (put', next) := Follow(p.puts[h], a, q);
    OwnEntry(p, h, a, q, y, put', next);
    DriveUnfolds(p, h, a, p');
    EntryCore(p, h, q, y, put', next, p');
  }

  /** An upload past its key lock has its directories to itself, as far as other uploads go. */
  lemma OthersCells(p: Puts, g: nat, act: PutAction, p': Puts, h: nat)
    requires PutInv(p) && PutSteps(p, g, act, p') && g != h && h in p.puts && Active(p.puts[h].pc)
    ensures C.At(p'.cache, p.puts[h].id) == C.At(p.cache, p.puts[h].id)
  {
    if Active(p.puts[g].pc) {
      assert PhaseAt(p, g) && p.puts[g].id != p.puts[h].id;
    }
  }

  lemma PlainEntry(p: Puts, h: nat, act: PutAction, p': Puts)
    requires PutSteps(p, h, act, p') && !act.Drive?
    ensures h in p'.puts && EntryThere(p', h)
  {
  }

  lemma PutEntries(p: Puts, g: nat, act: PutAction, p': Puts)
    requires PutInv(p) && GuestsRead(p) && EntriesThere(p) && PutSteps(p, g, act, p')
    ensures EntriesThere(p')
  {
    OwnSessions(p, g, act, p');
    forall h <- p'.puts ensures EntryThere(p', h) {
      if h == g {
        if act.Drive? {
          DriveEntry(p, h, act.a, p');
        } else {
          PlainEntry(p, h, act, p');
        }
      } else if p.puts[h].pc.Deleting? {
        assert EntryThere(p, h);
        OthersCells(p, g, act, p', h);
      }
    }
  }

  lemma GuestEntries(p: Puts, p': Puts)
    requires GuestsRead(p) && EntriesThere(p) && Next(p, p') && !exists g, act :: PutSteps(p, g, act, p')
    ensures EntriesThere(p')
  {
    ElseKept(p, p');
    ElseDisks(p, p');
    forall h <- p'.puts ensures EntryThere(p', h) {
      assert h in p.puts ==> EntryThere(p, h);
    }
  }

  lemma ElseDisks(p: Puts, p': Puts)
    requires GuestsRead(p) && Next(p, p') && !exists g, act :: PutSteps(p, g, act, p')
    ensures forall id :: C.At(p'.cache, id).disk == C.At(p.cache, id).disk
  {
    if s, a :| GuestSteps(p, s, a, p') {
      LocalReads(C.PcAt(p.cache, s), C.At(p.cache, C.IdAt(p.cache, s)), a);
    }
  }

  lemma {:induction false} RunEntries(tr: seq<Puts>, i: nat)
    requires DownloadsOnly(tr) && i < |tr|
    ensures EntriesThere(tr[i])
    decreases i
  {
    if i == 0 {
      assert tr[0].puts == map[];
    } else {
      RunEntries(tr, i - 1);
      EntriesStep(tr, i - 1);
    }
  }

  lemma EntriesStep(tr: seq<Puts>, i: nat)
    requires DownloadsOnly(tr) && i + 1 < |tr| && EntriesThere(tr[i])
    ensures EntriesThere(tr[i + 1])
  {
    RunReaders(tr, i);
    RunInv(tr, i);
    NextEntries(tr[i], tr[i + 1]);
  }

  lemma NextEntries(p: Puts, p': Puts)
    requires PutInv(p) && GuestsRead(p) && EntriesThere(p) && Next(p, p')
    ensures EntriesThere(p')
  {
    if g, act :| PutSteps(p, g, act, p') {
      PutEntries(p, g, act, p');
    } else {
      GuestEntries(p, p');
    }
  }

  /** A step of the upload itself changes its entry. */
  ghost predicate OwnChange(p: Puts, h: nat, p': Puts) {
    Changes(p, h, p') && exists act :: PutSteps(p, h, act, p')
  }

  /**
   A refused upload has lost the entry that it met if and only if it has retried: with no retry no
   step of it changed the entry, and with one its own removal did, so that nothing is left.
   */
  lemma RefusalLosesEntryIff(tr: seq<Puts>, k: nat, h: nat)
    requires DownloadsOnly(tr) && k < |tr| && RefusedAt(tr[k], h)
    ensures tr[k].puts[h].retries == 1 <==> exists i :: 0 <= i < k && OwnChange(tr[i], h, tr[i + 1])
    ensures tr[k].puts[h].retries == 1 ==>
              exists i :: 0 <= i < k && OwnRemoval(tr[i], h, tr[i + 1])
                          && C.At(tr[i].cache, tr[k].puts[h].id).disk.Some?
                          && C.At(tr[i + 1].cache, tr[k].puts[h].id).disk == None
  {
    RunInv(tr, k);
    assert PhaseAt(tr[k], h);
    if tr[k].puts[h].retries == 1 {
      var i := RemovalMoment(tr, k, h);
      RunEntries(tr, i);
      RemovalEmpties(tr, i, h);
      SameId(tr, i, k, h);
      assert OwnChange(tr[i], h, tr[i + 1]);
    } else if i :| 0 <= i < k && OwnChange(tr[i], h, tr[i + 1]) {
      var act :| PutSteps(tr[i], h, act, tr[i + 1]);
      RefusedUntouched(tr, i, k, h, act);
    }
  }

  lemma RemovalEmpties(tr: seq<Puts>, i: nat, h: nat)
    requires Run(tr) && i + 1 < |tr| && OwnRemoval(tr[i], h, tr[i + 1]) && EntriesThere(tr[i])
    ensures C.At(tr[i].cache, tr[i].puts[h].id).disk.Some? && C.At(tr[i + 1].cache, tr[i].puts[h].id).disk == None
  {
    RunInv(tr, i);
    assert PhaseAt(tr[i], h) && EntryThere(tr[i], h);
    DriveUnfolds(tr[i], h, C.DeleteRoot, tr[i + 1]);
  }

  ghost predicate KeepsIds(p: Puts, p': Puts) {
    forall h <- p.puts :: h in p'.puts && p'.puts[h].id == p.puts[h].id
  }

  lemma NextIds(p: Puts, p': Puts)
    requires Next(p, p')
    ensures KeepsIds(p, p')
  {
    if g, act :| PutSteps(p, g, act, p') {
      OwnSessions(p, g, act, p');
    } else {
      ElseKept(p, p');
    }
  }

  lemma SameId(tr: seq<Puts>, i: nat, k: nat, h: nat)
    requires Run(tr) && i <= k < |tr| && h in tr[i].puts
    ensures h in tr[k].puts && tr[k].puts[h].id == tr[i].puts[h].id
  {
    forall n | i <= n < k ensures KeepsIds(tr[n], tr[n + 1]) {
      NextIds(tr[n], tr[n + 1]);
    }
    IdChain(tr, i, k, h);
  }

  lemma {:induction false} IdChain(tr: seq<Puts>, i: nat, k: nat, h: nat)
    requires i <= k < |tr| && h in tr[i].puts && forall n :: i <= n < k ==> KeepsIds(tr[n], tr[n + 1])
    ensures h in tr[k].puts && tr[k].puts[h].id == tr[i].puts[h].id
    decreases k
  {
    if i < k {
      IdChain(tr, i, k - 1, h);
      assert KeepsIds(tr[k - 1], tr[k - 1 + 1]);
    }
  }
}
