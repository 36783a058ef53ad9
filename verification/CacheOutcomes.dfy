/** How a call of the cache ends: with the outcome that one of its own steps has decided, after few steps. */
module CacheOutcomes {
  import opened Basics
  import opened ArtifactCell
  import opened CacheMachine
  import opened CacheProofs
  import opened CacheTheorems

  // ---- The step that decides an outcome ----

  /** What a session that acts on `x` has to see, or to do, for its outcome to be `o`. */
  predicate Decisive(pc: Pc, x: Cell, a: Action, o: Outcome) {
    match o
    case Released => pc.Reading? && a.Release?
    case Committed => pc.Writing? && a.Commit? && x.disk == None
    case Aborted => pc.Writing? && a.Abort?
    case Removed => pc.LockStatted? && pc.remove && a.Advance? && !x.write && x.readers == 0
    case Failed(NotFound) => pc.GetLocked? && a.Advance? && x.disk == None
    case Failed(Exists) => pc.LockStatted? && a.Advance? && !pc.remove && pc.found
    case Failed(WriteLocked) =>
      a.Advance? && x.write && (pc.GetStart? || (pc.LockStatted? && (pc.remove || !pc.found)))
    case Failed(ReadLocked) =>
      pc.LockStatted? && a.Advance? && (pc.remove || !pc.found) && !x.write && x.readers > 0
    case RenameError => false
  }

  ghost predicate Decides(c: State, s: Sid, o: Outcome, c': State) {
    exists a :: Step(c, s, a, c') && Decisive(PcAt(c, s), At(c, IdAt(c, s)), a, o)
  }

  /** The outcome that is certain at a program point. */
  function Certain(pc: Pc): Option<Outcome> {
    match pc
    case GetMissing => Some(Failed(NotFound))
    case Renamed => Some(Committed)
    case RenameFailed => Some(RenameError)
    case Aborting => Some(Aborted)
    case AbortRemoved => Some(Aborted)
    case RemoveLocked => Some(Removed)
    case RemoveDeleted => Some(Removed)
    case Done(o) => Some(o)
    case _ => None
  }

  lemma LocalOutcome(pc: Pc, x: Cell, a: Action)
    requires LocalEnabled(pc, x, a) && Knows(pc, x) && x.readers >= 0
    ensures var (q, y) := Local(pc, x, a);
            && (Certain(pc).Some? ==> Certain(q) == Certain(pc) && forall o :: !Decisive(pc, x, a, o))
            && (Certain(pc) == None && Certain(q).Some? ==> Decisive(pc, x, a, Certain(q).value))
            && (forall o :: Decisive(pc, x, a, o) ==> Certain(q) == Some(o))
  {
  }

  ghost predicate KeepsOutcome(c: State, c': State, s: Sid) {
    s in c.sessions && Certain(PcAt(c, s)).Some? ==> s in c'.sessions && Certain(PcAt(c', s)) == Certain(PcAt(c, s))
  }

  predicate Open(c: State, s: Sid) {
    s in c.sessions ==> Certain(PcAt(c, s)) == None
  }

  ghost predicate OpensRight(c: State, c': State, s: Sid) {
    Open(c, s) && !Open(c', s) ==> Decides(c, s, Certain(PcAt(c', s)).value, c')
  }

  lemma StepOutcome(c: State, s: Sid, a: Action, c': State)
    requires Inv(c) && Step(c, s, a, c')
    ensures s in c'.sessions && KeepsOutcome(c, c', s) && OpensRight(c, c', s)
    ensures forall o :: Decisive(PcAt(c, s), At(c, IdAt(c, s)), a, o) ==> Certain(PcAt(c', s)) == Some(o)
  {
    OwnView(c, s);
    LocalOutcome(PcAt(c, s), At(c, IdAt(c, s)), a);
  }

  lemma NextOutcome(c: State, c': State, s: Sid)
    requires Inv(c) && Next(c, c')
    ensures KeepsOutcome(c, c', s) && OpensRight(c, c', s)
  {
    if a :| Step(c, s, a, c') {
      StepOutcome(c, s, a, c');
    }
  }

  lemma RunOutcome(tr: seq<State>, n: nat, s: Sid)
    requires Run(tr) && n + 1 < |tr|
    ensures KeepsOutcome(tr[n], tr[n + 1], s) && OpensRight(tr[n], tr[n + 1], s)
  {
    RunInv(tr, n);
    NextOutcome(tr[n], tr[n + 1], s);
  }

  lemma {:induction false} OutcomeChain(tr: seq<State>, i: nat, k: nat, s: Sid)
    requires i <= k < |tr| && s in tr[i].sessions && Certain(PcAt(tr[i], s)).Some?
    requires forall n :: i <= n < k ==> KeepsOutcome(tr[n], tr[n + 1], s)
    ensures s in tr[k].sessions && Certain(PcAt(tr[k], s)) == Certain(PcAt(tr[i], s))
    decreases k
  {
    if i < k {
      OutcomeChain(tr, i, k - 1, s);
      assert KeepsOutcome(tr[k - 1], tr[k - 1 + 1], s);
    }
  }

  lemma {:induction false} DecisionChain(tr: seq<State>, k: nat, s: Sid) returns (i: nat)
    requires k < |tr| && Open(tr[0], s) && !Open(tr[k], s)
    requires forall n :: 0 <= n < k ==> KeepsOutcome(tr[n], tr[n + 1], s) && OpensRight(tr[n], tr[n + 1], s)
    ensures i < k && Decides(tr[i], s, Certain(PcAt(tr[k], s)).value, tr[i + 1])
  {
    assert KeepsOutcome(tr[k - 1], tr[k - 1 + 1], s) && OpensRight(tr[k - 1], tr[k - 1 + 1], s);
    if Open(tr[k - 1], s) {
      i := k - 1;
    } else {
      i := DecisionChain(tr, k - 1, s);
    }
  }

  ghost predicate DecidedBefore(tr: seq<State>, k: nat, s: Sid, o: Outcome)
    requires k < |tr|
  {
    exists i :: 0 <= i < k && Decides(tr[i], s, o, tr[i + 1])
  }

  predicate Over(c: State, s: Sid) {
    s in c.sessions && PcAt(c, s).Done?
  }

  lemma DecidedOnce(tr: seq<State>, k: nat, s: Sid)
    requires Run(tr) && k < |tr| && Over(tr[k], s)
    ensures DecidedBefore(tr, k, s, PcAt(tr[k], s).outcome)
  {
    forall n | 0 <= n < k ensures KeepsOutcome(tr[n], tr[n + 1], s) && OpensRight(tr[n], tr[n + 1], s) {
      RunOutcome(tr, n, s);
    }
    var i := DecisionChain(tr, k, s);
  }

  lemma OutcomeStays(tr: seq<State>, i: nat, k: nat, s: Sid)
    requires Run(tr) && i <= k < |tr| && s in tr[i].sessions && Certain(PcAt(tr[i], s)).Some?
    ensures s in tr[k].sessions && Certain(PcAt(tr[k], s)) == Certain(PcAt(tr[i], s))
  {
    forall n | i <= n < k ensures KeepsOutcome(tr[n], tr[n + 1], s) {
      RunOutcome(tr, n, s);
    }
    OutcomeChain(tr, i, k, s);
  }

  lemma Undecided(tr: seq<State>, k: nat, s: Sid, o: Outcome)
    requires Run(tr) && k < |tr| && Over(tr[k], s) && PcAt(tr[k], s).outcome != o
    ensures !DecidedBefore(tr, k, s, o)
  {
    if DecidedBefore(tr, k, s, o) {
      DecidedFor(tr, k, s, o);
    }
  }

  /**
   A call that is over has the outcome that one of its steps has decided, and no other: a commit or an
   abort of its own, a write lock taken to remove, an unlock, or what it met of locks and directories.
   */
  lemma OutcomeIff(tr: seq<State>, k: nat, s: Sid, o: Outcome)
    requires Run(tr) && k < |tr| && Over(tr[k], s)
    ensures PcAt(tr[k], s).outcome == o <==> DecidedBefore(tr, k, s, o)
  {
    if PcAt(tr[k], s).outcome == o {
      DecidedOnce(tr, k, s);
    } else {
      Undecided(tr, k, s, o);
    }
  }

  lemma DecisionHolds(tr: seq<State>, i: nat, s: Sid, o: Outcome)
    requires Run(tr) && i + 1 < |tr| && Decides(tr[i], s, o, tr[i + 1])
    ensures s in tr[i + 1].sessions && Certain(PcAt(tr[i + 1], s)) == Some(o)
  {
    RunInv(tr, i);
    var a :| Step(tr[i], s, a, tr[i + 1]) && Decisive(PcAt(tr[i], s), At(tr[i], IdAt(tr[i], s)), a, o);
    StepOutcome(tr[i], s, a, tr[i + 1]);
  }

  lemma DecidedFor(tr: seq<State>, k: nat, s: Sid, o: Outcome)
    requires Run(tr) && k < |tr| && DecidedBefore(tr, k, s, o)
    ensures s in tr[k].sessions && Certain(PcAt(tr[k], s)) == Some(o)
  {
    var i :| 0 <= i < k && Decides(tr[i], s, o, tr[i + 1]);
    DecisionStays(tr, i, k, s, o);
  }

  lemma DecisionStays(tr: seq<State>, i: nat, k: nat, s: Sid, o: Outcome)
    requires Run(tr) && i < k < |tr| && Decides(tr[i], s, o, tr[i + 1])
    ensures s in tr[k].sessions && Certain(PcAt(tr[k], s)) == Some(o)
  {
    DecisionHolds(tr, i, s, o);
    OutcomeStays(tr, i + 1, k, s);
  }

  // ---- What the owner of a lock may do ----

  /**
   Whoever has been let in by `Create` may fill its directory with anything, commit, or abort; the abort
   takes the directory apart path by path. A reader may unlock as soon as `mu` is free.
   */
  lemma OwnerMayChoose(tr: seq<State>, k: nat, s: Sid, d: Dir)
    requires Run(tr) && k < |tr| && s in tr[k].sessions
    ensures PcAt(tr[k], s).Writing? ==>
              && Enabled(tr[k], s, Commit)
              && Enabled(tr[k], s, Fill(d)) && At(Apply(tr[k], s, Fill(d)), IdAt(tr[k], s)).tmp == Some(d)
              && Enabled(tr[k], s, Abort)
              && var c := Apply(tr[k], s, Abort);
                 At(c, IdAt(c, s)) == At(tr[k], IdAt(c, s))
                 && (forall p :: Enabled(c, s, DeletePath(p)) <==> p in At(c, IdAt(c, s)).tmp.value)
                 && (Enabled(c, s, DeleteRoot) <==> At(c, IdAt(c, s)).tmp.value == map[])
    ensures PcAt(tr[k], s).Reading? ==> (Enabled(tr[k], s, Release) <==> tr[k].mu == None)
  {
    RunInv(tr, k);
    OwnView(tr[k], s);
  }

  // ---- Every call ends ----

  /** How many steps a session has left, apart from filling its directory and deleting single paths. */
  function Left(pc: Pc): nat {
    match pc
    case GetStart => 3
    case GetLocked => 2
    case GetMissing => 1
    case Reading(_) => 1
    case LockStart(_) => 7
    case LockInMu(_) => 6
    case LockStatted(_, _, _) => 5
    case CreateLocked => 4
    case Writing => 3
    case Renamed => 1
    case RenameFailed => 1
    case Aborting => 2
    case AbortRemoved => 1
    case RemoveLocked => 2
    case RemoveDeleted => 1
    case Done(_) => 0
  }

  predicate Bulk(a: Action) {
    a.Fill? || a.DeletePath?
  }

  lemma LocalLeft(pc: Pc, x: Cell, a: Action)
    requires LocalEnabled(pc, x, a)
    ensures Left(pc) >= Left(Local(pc, x, a).0) + if Bulk(a) then 0 else 1
  {
  }

  ghost predicate Turns(c: State, s: Sid, c': State) {
    exists a :: Step(c, s, a, c') && !Bulk(a)
  }

  /** How many such steps the session has taken from state `i` to state `k`. */
  ghost function Taken(tr: seq<State>, s: Sid, i: nat, k: nat): nat
    requires i <= k < |tr|
    decreases k
  {
    if i == k then 0 else Taken(tr, s, i, k - 1) + if Turns(tr[k - 1], s, tr[k]) then 1 else 0
  }

  lemma NextLeft(c: State, s: Sid, c': State)
    requires Next(c, c') && s in c.sessions
    ensures s in c'.sessions && Left(PcAt(c, s)) >= Left(PcAt(c', s)) + if Turns(c, s, c') then 1 else 0
  {
    if a :| Step(c, s, a, c') && !Bulk(a) {
      LocalLeft(PcAt(c, s), At(c, IdAt(c, s)), a);
    } else if a :| Step(c, s, a, c') {
      LocalLeft(PcAt(c, s), At(c, IdAt(c, s)), a);
    }
  }

  ghost predicate KeepsLeft(tr: seq<State>, s: Sid, i: nat, k: nat)
    requires i <= k && k + 1 < |tr|
  {
    s in tr[k].sessions ==>
      && s in tr[k + 1].sessions
      && Taken(tr, s, i, k + 1) + Left(PcAt(tr[k + 1], s)) <= Taken(tr, s, i, k) + Left(PcAt(tr[k], s))
  }

  lemma StepLeft(tr: seq<State>, s: Sid, i: nat, k: nat)
    requires Run(tr) && i <= k && k + 1 < |tr|
    ensures KeepsLeft(tr, s, i, k)
  {
    if s in tr[k].sessions {
      NextLeft(tr[k], s, tr[k + 1]);
    }
  }

  lemma {:induction false} LeftChain(tr: seq<State>, s: Sid, i: nat, k: nat)
    requires i <= k < |tr| && s in tr[i].sessions
    requires forall n :: i <= n < k ==> KeepsLeft(tr, s, i, n)
    ensures s in tr[k].sessions && Taken(tr, s, i, k) + Left(PcAt(tr[k], s)) <= Left(PcAt(tr[i], s))
    decreases k
  {
    if i < k {
      LeftChain(tr, s, i, k - 1);
      assert KeepsLeft(tr, s, i, k - 1);
    }
  }

  /**
   A call takes seven steps of its own at most, whatever others do, apart from filling its directory and
   from deleting the paths of a directory one by one; after seven it is over.
   */
  lemma CallEnds(tr: seq<State>, s: Sid, i: nat, k: nat)
    requires Run(tr) && i <= k < |tr| && s in tr[i].sessions
    ensures s in tr[k].sessions && Taken(tr, s, i, k) <= 7
    ensures Taken(tr, s, i, k) == 7 ==> PcAt(tr[k], s).Done?
  {
    forall n | i <= n < k ensures KeepsLeft(tr, s, i, n) {
      StepLeft(tr, s, i, n);
    }
    LeftChain(tr, s, i, k);
  }
}
