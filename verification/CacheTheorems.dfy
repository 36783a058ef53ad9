/** What the cache promises its callers, for every run of the machine. */
module CacheTheorems {
  import opened Basics
  import opened ArtifactCell
  import opened CacheMachine
  import opened CacheProofs

  lemma NextInv(c: State, c': State)
    requires Inv(c) && Next(c, c')
    ensures Inv(c')
  {
    if s, op, id :| s !in c.sessions && c' == Begin(c, s, op, id) {
      BeginInv(c, s, op, id);
    } else {
      var s, a :| Step(c, s, a, c');
      StepInv(c, s, a, c');
    }
  }

  lemma {:induction false} RunInv(tr: seq<State>, i: nat)
    requires Run(tr) && i < |tr|
    ensures Inv(tr[i])
  {
    if i == 0 {
      InitInv(tr[0]);
    } else {
      RunInv(tr, i - 1);
      assert Next(tr[i - 1], tr[i - 1 + 1]);
      NextInv(tr[i - 1], tr[i]);
    }
  }

  /** In every reachable state: readers or one writer, never both, and the tables count them exactly. */
  lemma ReadersXorWriter(tr: seq<State>, i: nat, id: Id)
    requires Run(tr) && i < |tr|
    ensures At(tr[i], id).readers == |Readers(tr[i], id)|
    ensures forall s, t :: WritesAt(tr[i], s, id) && WritesAt(tr[i], t, id) ==> s == t
    ensures forall s :: WritesAt(tr[i], s, id) ==> Readers(tr[i], id) == {}
  {
    RunInv(tr, i);
    assert LockInv(tr[i], id);
  }

  /** From the moment `Create` locks until its own rename, the destination is absent. */
  predicate Unpublished(pc: Pc) {
    pc.CreateLocked? || pc.Writing? || pc.Aborting? || pc.AbortRemoved?
  }

  /** So the rename never meets a target: it publishes exactly the directory that was filled. */
  lemma CommitPublishes(tr: seq<State>, i: nat, s: Sid)
    requires Run(tr) && i < |tr| && s in tr[i].sessions && Unpublished(PcAt(tr[i], s))
    ensures At(tr[i], IdAt(tr[i], s)).disk == None
    ensures PcAt(tr[i], s).Writing? ==>
              && Enabled(tr[i], s, Commit)
              && var c' := Apply(tr[i], s, Commit);
              && PcAt(c', s) == Renamed
              && At(c', IdAt(tr[i], s)) ==
                  At(tr[i], IdAt(tr[i], s)).(disk := At(tr[i], IdAt(tr[i], s)).tmp, tmp := None)
  {
    RunInv(tr, i);
    OwnView(tr[i], s);
  }

  /** A session that `Create` has just admitted finds no `tmp` directory and starts from an empty one. */
  lemma CreateStartsEmpty(tr: seq<State>, i: nat, s: Sid)
    requires Run(tr) && i < |tr| && s in tr[i].sessions && PcAt(tr[i], s) == CreateLocked
    ensures Enabled(tr[i], s, Advance)
    ensures At(Apply(tr[i], s, Advance), IdAt(tr[i], s)).tmp == Some(map[])
  {
    RunInv(tr, i);
    OwnView(tr[i], s);
  }

  /** `tmp/<id>` exists only while some session holds the write lock on `id`. */
  lemma TmpHasOwner(tr: seq<State>, i: nat, id: Id)
    requires Run(tr) && i < |tr| && At(tr[i], id).tmp.Some?
    ensures exists s :: WritesAt(tr[i], s, id)
  {
    RunInv(tr, i);
    assert LockInv(tr[i], id);
  }

  // ---- Readers ----

  lemma ReadingPersists(c: State, c': State, s: Sid)
    requires Next(c, c') && s in c.sessions && s in c'.sessions && PcAt(c', s).Reading?
    ensures IdAt(c', s) == IdAt(c, s)
    ensures PcAt(c, s).Reading? || PcAt(c, s).GetLocked?
    ensures PcAt(c, s).Reading? ==> PcAt(c', s) == PcAt(c, s)
  {
    if t, op, id :| t !in c.sessions && c' == Begin(c, t, op, id) {
    } else {
      var t, a :| Step(c, t, a, c');
    }
  }

  lemma SessionsGrow(c: State, c': State)
    requires Next(c, c')
    ensures c.sessions.Keys <= c'.sessions.Keys
  {
  }

  /**
   From a successful `Get` (state `i`) to its `unlock` (any later state `j` in which it still reads), the
   contents at the returned path are those that `Get` found, whatever everybody else does in between.
   */
  lemma {:induction false} ReaderSnapshot(tr: seq<State>, i: nat, j: nat, s: Sid)
    requires Run(tr) && i <= j < |tr| && s in tr[i].sessions && s in tr[j].sessions
    requires PcAt(tr[i], s).Reading? && PcAt(tr[j], s).Reading?
    ensures IdAt(tr[j], s) == IdAt(tr[i], s) && PcAt(tr[j], s) == PcAt(tr[i], s)
    ensures forall k :: i <= k <= j ==> At(tr[k], IdAt(tr[i], s)).disk == Some(PcAt(tr[i], s).seen)
    decreases j
  {
    RunInv(tr, j);
    OwnView(tr[j], s);
    if i < j {
      ReadBefore(tr, i, j, s);
      ReaderSnapshot(tr, i, j - 1, s);
    }
  }

  /** Who reads and has read before has done so in between. */
  lemma ReadBefore(tr: seq<State>, i: nat, j: nat, s: Sid)
    requires Run(tr) && i < j < |tr| && s in tr[i].sessions && s in tr[j].sessions
    requires PcAt(tr[i], s).Reading? && PcAt(tr[j], s).Reading?
    ensures s in tr[j - 1].sessions && PcAt(tr[j - 1], s) == PcAt(tr[j], s) && IdAt(tr[j - 1], s) == IdAt(tr[j], s)
  {
    assert Next(tr[j - 1], tr[j - 1 + 1]);
    StillThere(tr, i, j - 1, s);
    ReadingPersists(tr[j - 1], tr[j], s);
    NeverBack(tr, i, j - 1, s);
  }

  lemma {:induction false} StillThere(tr: seq<State>, i: nat, j: nat, s: Sid)
    requires Run(tr) && i <= j < |tr| && s in tr[i].sessions
    ensures s in tr[j].sessions
    decreases j
  {
    if i < j {
      StillThere(tr, i, j - 1, s);
      assert Next(tr[j - 1], tr[j - 1 + 1]);
      SessionsGrow(tr[j - 1], tr[j]);
    }
  }

  /** A reader that has looked never returns to the point before it looked. */
  lemma {:induction false} NeverBack(tr: seq<State>, i: nat, j: nat, s: Sid)
    requires Run(tr) && i <= j < |tr| && s in tr[i].sessions
    requires PcAt(tr[i], s).Reading? || PcAt(tr[i], s).Done?
    ensures s in tr[j].sessions && (PcAt(tr[j], s).Reading? || PcAt(tr[j], s).Done?)
    decreases j
  {
    if i < j {
      NeverBack(tr, i, j - 1, s);
      assert Next(tr[j - 1], tr[j - 1 + 1]);
      AfterReading(tr[j - 1], tr[j], s);
    }
  }

  lemma AfterReading(c: State, c': State, s: Sid)
    requires Next(c, c') && s in c.sessions && (PcAt(c, s).Reading? || PcAt(c, s).Done?)
    ensures s in c'.sessions && (PcAt(c', s).Reading? || PcAt(c', s).Done?)
  {
    if t, op, id :| t !in c.sessions && c' == Begin(c, t, op, id) {
    } else {
      var t, a :| Step(c, t, a, c');
    }
  }

  // ---- Refinement of the abstract entry ----

  /** Every step moves the entry of one identifier at most, and only as a readers-writer lock allows. */
  lemma RefinesEntries(c: State, c': State, id: Id)
    requires Inv(c) && Next(c, c')
    ensures EntryStep(EntryOf(At(c, id)), EntryOf(At(c', id)))
  {
    if t, op, i :| t !in c.sessions && c' == Begin(c, t, op, i) {
    } else {
      var s, a :| Step(c, s, a, c');
      OwnView(c, s);
      if id == IdAt(c, s) {
        LocalRefines(PcAt(c, s), At(c, id), a);
      }
    }
  }

  lemma LocalRefines(pc: Pc, x: Cell, a: Action)
    requires LocalEnabled(pc, x, a) && Knows(pc, x) && x.readers >= 0
    requires (HoldsWrite(pc) ==> x.write) && (x.write ==> x.readers == 0) && (HoldsRead(pc) ==> x.readers > 0)
    ensures EntryStep(EntryOf(x), EntryOf(Local(pc, x, a).1))
  {
  }

  /** The state in which `writeLock` looked, if it has looked and not yet decided. */
  lemma {:induction false} StatMoment(tr: seq<State>, k: nat, s: Sid) returns (i: nat)
    requires Run(tr) && k < |tr| && s in tr[k].sessions && PcAt(tr[k], s).LockStatted?
    ensures i < k && s in tr[i].sessions && IdAt(tr[i], s) == IdAt(tr[k], s)
    ensures PcAt(tr[i], s) == LockInMu(PcAt(tr[k], s).remove)
    ensures EntryOf(At(tr[i], IdAt(tr[k], s))) == PcAt(tr[k], s).at
  {
    assert k > 0;
    i := k - 1;
    var c, c' := tr[k - 1], tr[k];
    assert Next(c, tr[k - 1 + 1]);
    if t, op, id :| t !in c.sessions && c' == Begin(c, t, op, id) {
      i := StatMoment(tr, k - 1, s);
    } else {
      var t, a :| Step(c, t, a, c');
      if t != s {
        i := StatMoment(tr, k - 1, s);
      }
    }
  }

  /**
   The answer of `Create` and `Remove`, success or error, is the one the abstract entry dictates in some
   state between the call and its return: the tables cannot change between `Stat` and the decision.
   */
  lemma WriteAnswersLinearize(tr: seq<State>, k: nat, s: Sid) returns (i: nat)
    requires Run(tr) && k < |tr| && s in tr[k].sessions && PcAt(tr[k], s).LockStatted?
    ensures i < k && s in tr[i].sessions && PcAt(tr[i], s) == LockInMu(PcAt(tr[k], s).remove)
    ensures Enabled(tr[k], s, Advance)
    ensures var answer := Dictated(EntryOf(At(tr[i], IdAt(tr[k], s))), PcAt(tr[k], s).remove);
            PcAt(Apply(tr[k], s, Advance), s) ==
            match answer
            case Some(err) => Done(Failed(err))
            case None => if PcAt(tr[k], s).remove then RemoveLocked else CreateLocked
  {
    RunInv(tr, k);
    OwnView(tr[k], s);
    i := StatMoment(tr, k, s);
  }

  /**
   The same answer in terms of what `Stat` found and of who holds the locks: a `Create` that has seen
   the directory ends with `Exists` whatever the locks, otherwise a writer goes before the readers.
   */
  lemma WriteAnswers(tr: seq<State>, k: nat, s: Sid) returns (i: nat)
    requires Run(tr) && k < |tr| && s in tr[k].sessions && PcAt(tr[k], s).LockStatted?
    ensures i < k && s in tr[i].sessions && PcAt(tr[i], s).LockInMu? && Enabled(tr[k], s, Advance)
    ensures var id, remove, pc := IdAt(tr[k], s), PcAt(tr[k], s).remove, PcAt(Apply(tr[k], s, Advance), s);
            if At(tr[i], id).disk.Some? && !remove then pc == Done(Failed(Exists))
            else if exists t :: WritesAt(tr[k], t, id) then pc == Done(Failed(WriteLocked))
            else if Readers(tr[k], id) != {} then pc == Done(Failed(ReadLocked))
            else pc == if remove then RemoveLocked else CreateLocked
  {
    RunInv(tr, k);
    OwnView(tr[k], s);
    i := StatMoment(tr, k, s);
    assert LockInv(tr[k], IdAt(tr[k], s));
  }

  /** `Get` fails exactly on a write lock at its first step or an absent directory at its second. */
  lemma ReadAnswers(c: State, s: Sid)
    requires Inv(c) && s in c.sessions
    requires (PcAt(c, s).GetStart? && c.mu.None?) || PcAt(c, s).GetLocked?
    ensures Enabled(c, s, Advance)
    ensures var e, pc' := EntryOf(At(c, IdAt(c, s))), PcAt(Apply(c, s, Advance), s);
            if PcAt(c, s).GetStart? then
              pc' == if e.lock == Write then Done(Failed(WriteLocked)) else GetLocked
            else
              e.lock.Read? && pc' == if e.content.Some? then Reading(e.content.value) else GetMissing
  {
    OwnView(c, s);
  }

  // ---- Calls that run alone ----

  lemma SoloLook(c: State, s: Sid, remove: bool)
    requires c.mu == None && s in c.sessions && PcAt(c, s) == LockStart(remove)
    ensures Enabled(c, s, Advance) && var c1 := Apply(c, s, Advance);
            && Enabled(c1, s, Advance) && var c2 := Apply(c1, s, Advance);
            && c2.mu == Some(s) && s in c2.sessions && IdAt(c2, s) == IdAt(c, s)
            && At(c2, IdAt(c, s)) == At(c, IdAt(c, s))
            && var x := At(c, IdAt(c, s));
            PcAt(c2, s) == LockStatted(remove, x.disk.Some?, EntryOf(x))
  {
  }

  lemma SoloLock(c: State, s: Sid, remove: bool)
    requires Inv(c) && c.mu == None && s in c.sessions && PcAt(c, s) == LockStart(remove)
    ensures var id := IdAt(c, s);
            && Enabled(c, s, Advance) && var c1 := Apply(c, s, Advance);
            && Enabled(c1, s, Advance) && var c2 := Apply(c1, s, Advance);
            && Enabled(c2, s, Advance) && var c3 := Apply(c2, s, Advance);
            && c3.mu == None && s in c3.sessions && IdAt(c3, s) == id
            && match Dictated(EntryOf(At(c, id)), remove)
               case Some(err) => PcAt(c3, s) == Done(Failed(err)) && At(c3, id) == At(c, id)
               case None =>
                 && PcAt(c3, s) == (if remove then RemoveLocked else CreateLocked)
                 && At(c3, id) == At(c, id).(write := true)
  {
    OwnView(c, s);
    SoloLook(c, s, remove);
  }

  /** Run without interruption, a `Create` does in one go what the class method `Create` promises. */
  lemma SoloCreate(c: State, s: Sid, id: Id)
    requires Inv(c) && c.mu == None && s !in c.sessions
    ensures var c1 := Begin(c, s, Create, id);
            && Enabled(c1, s, Advance) && var c2 := Apply(c1, s, Advance);
            && Enabled(c2, s, Advance) && var c3 := Apply(c2, s, Advance);
            && Enabled(c3, s, Advance) && var c4 := Apply(c3, s, Advance);
            match Dictated(EntryOf(At(c, id)), false)
            case Some(err) => PcAt(c4, s) == Done(Failed(err)) && At(c4, id) == At(c, id) && c4.mu == None
            case None => Enabled(c4, s, Advance) && var c5 := Apply(c4, s, Advance);
                         PcAt(c5, s) == Writing && At(c5, id) == Cell(true, 0, None, Some(map[])) && c5.mu == None
  {
    BeginInv(c, s, Create, id);
    SoloLock(Begin(c, s, Create, id), s, false);
    assert LockInv(c, id);
  }

  /** Likewise a `Get`, whose errors are those of the class method. */
  lemma SoloGet(c: State, s: Sid, id: Id)
    requires Inv(c) && c.mu == None && s !in c.sessions
    ensures var c1 := Begin(c, s, Get, id);
            && Enabled(c1, s, Advance) && var c2 := Apply(c1, s, Advance);
            match EntryOf(At(c, id))
            case Entry(_, Write) => PcAt(c2, s) == Done(Failed(WriteLocked)) && At(c2, id) == At(c, id)
            case Entry(Some(d), _) =>
              && Enabled(c2, s, Advance) && var c3 := Apply(c2, s, Advance);
              PcAt(c3, s) == Reading(d) && At(c3, id) == At(c, id).(readers := At(c, id).readers + 1)
            case Entry(None, _) =>
              && Enabled(c2, s, Advance) && var c3 := Apply(c2, s, Advance);
              && Enabled(c3, s, Advance) && var c4 := Apply(c3, s, Advance);
              PcAt(c4, s) == Done(Failed(NotFound)) && At(c4, id) == At(c, id)
  {
    assert LockInv(c, id);
  }

  // ---- Progress ----

  /** Unless it is finished, a session can move, or the holder of `mu` that it waits for can. */
  lemma NeverStuck(c: State, s: Sid)
    requires Inv(c) && s in c.sessions && !PcAt(c, s).Done?
    ensures exists t, a :: Enabled(c, t, a) && (t == s || c.mu == Some(t))
  {
    OwnView(c, s);
    var pc, x := PcAt(c, s), At(c, IdAt(c, s));
    if c.mu.Some? && !HoldsMu(pc) {
      assert Enabled(c, c.mu.value, Advance);
    } else if pc.Reading? {
      assert Enabled(c, s, Release);
    } else if pc.Writing? {
      assert Enabled(c, s, Commit);
    } else if pc.Aborting? {
      CanDelete(c, s, x.tmp);
    } else if pc.RemoveLocked? {
      CanDelete(c, s, x.disk);
    } else {
      assert Enabled(c, s, Advance);
    }
  }

  lemma CanDelete(c: State, s: Sid, d: Option<Dir>)
    requires s in c.sessions
    requires var pc, x := PcAt(c, s), At(c, IdAt(c, s));
             (pc == Aborting && d == x.tmp) || (pc == RemoveLocked && d == x.disk)
    ensures exists a :: Enabled(c, s, a)
  {
    if d.Some? && d.value != map[] {
      var p :| p in d.value;
      assert Enabled(c, s, DeletePath(p));
    } else {
      assert Enabled(c, s, DeleteRoot);
    }
  }
}
