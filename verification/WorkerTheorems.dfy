/** What a worker promises in every run, whatever the network, the commands and its guests do. */
module WorkerTheorems {
  import opened Basics
  import opened ArtifactCell
  import opened SchedulerLog
  import opened WorkerMachine
  import opened WorkerProofs
  import opened WorkerSessions
  import C = CacheMachine
  import CP = CacheProofs
  import CT = CacheTheorems

  // ---- Dependencies ----

  /** The panic of `executeJob` is unreachable: every dependency it opens is committed and readable. */
  lemma NeverPanics(tr: seq<State>, i: nat, j: Key)
    requires Run(tr) && i < |tr| && j in tr[i].jobs
    ensures tr[i].jobs[j].pc != Panicked
    ensures tr[i].jobs[j].pc.Deps? || tr[i].jobs[j].pc.Opening? ==>
              forall d <- tr[i].jobs[j].spec.deps :: Settled(tr[i].cache, d)
  {
    RunInv(tr, i);
    assert JobOk(tr[i].cache, j, tr[i].jobs[j]);
  }

  lemma NextGrows(w: State, w': State)
    requires Inv(w) && Next(w, w')
    ensures Grows(w.cache, w'.cache)
  {
    if response :| Heartbeat(w, response, w') {
    } else if j, ja :| JobSteps(w, j, ja, w') {
      if ja.Drive? {
        DriveView(w, j, ja.act, w');
        assert OwnerOk(w, SessionOf(j, w.jobs[j]));
        StepGrows(w.cache, SessionOf(j, w.jobs[j]), ja.act);
      } else {
        TurnCells(w, j, ja, w');
      }
    } else if s, id :| GuestBegins(w, s, id, w') {
    } else {
      var s, a :| GuestSteps(w, s, a, w');
      assert OwnerOk(w, s);
      StepGrows(w.cache, s, a);
    }
  }

  lemma TurnCells(w: State, j: Key, ja: JobAction, w': State)
    requires JobSteps(w, j, ja, w') && !ja.Drive?
    ensures w'.cache.cells == w.cache.cells
  {
  }

  lemma RunGrows(tr: seq<State>, k: nat)
    requires Run(tr) && k + 1 < |tr|
    ensures Grows(tr[k].cache, tr[k + 1].cache)
  {
    RunInv(tr, k);
    NextGrows(tr[k], tr[k + 1]);
  }

  lemma {:induction false} GrowsChain(tr: seq<State>, i: nat, k: nat)
    requires i <= k < |tr| && forall n :: i <= n < k ==> Grows(tr[n].cache, tr[n + 1].cache)
    ensures Grows(tr[i].cache, tr[k].cache)
    decreases k
  {
    if i < k {
      GrowsChain(tr, i, k - 1);
      assert Grows(tr[k - 1].cache, tr[k - 1 + 1].cache);
    }
  }

  /** A committed artifact is never locked for writing again and never changes, for the rest of the run. */
  lemma CommittedStays(tr: seq<State>, i: nat, k: nat, id: Id)
    requires Run(tr) && i <= k < |tr| && Settled(tr[i].cache, id)
    ensures Settled(tr[k].cache, id) && C.At(tr[k].cache, id).disk == C.At(tr[i].cache, id).disk
  {
    forall n | i <= n < k ensures Grows(tr[n].cache, tr[n + 1].cache) {
      RunGrows(tr, n);
    }
    GrowsChain(tr, i, k);
  }

  // ---- The result cache ----

  /** A stored result belongs to its key, has no error, and stands for an artifact that is here and unlocked. */
  lemma ResultCacheAgrees(tr: seq<State>, i: nat, id: Id)
    requires Run(tr) && i < |tr| && id in tr[i].results
    ensures var res := tr[i].results[id];
            res.id == id && res.error == None && Settled(tr[i].cache, id)
  {
    RunInv(tr, i);
  }

  /** Over the whole run an identifier is executed to success at most once. */
  lemma SuccessAtMostOnce(tr: seq<State>, i: nat, id: Id)
    requires Run(tr) && i < |tr|
    ensures Wins(tr[i], id) <= 1
  {
    RunInv(tr, i);
  }

  ghost predicate KeepsResults(w: State, w': State) {
    forall id <- w.results :: id in w'.results && w'.results[id] == w.results[id]
  }

  lemma StepResults(w: State, j: Key, ja: JobAction, w': State)
    requires JobSteps(w, j, ja, w') && (w.jobs[j].pc.Store? ==> j.id !in w.results)
    ensures KeepsResults(w, w')
  {
  }

  lemma RunResults(tr: seq<State>, k: nat)
    requires Run(tr) && k + 1 < |tr|
    ensures KeepsResults(tr[k], tr[k + 1])
  {
    RunInv(tr, k);
    var w, w' := tr[k], tr[k + 1];
    assert Next(w, w');
    if j, ja :| JobSteps(w, j, ja, w') {
      assert ResultInv(w);
      StepResults(w, j, ja, w');
    }
  }

  lemma {:induction false} ResultsChain(tr: seq<State>, i: nat, k: nat, id: Id)
    requires i <= k < |tr| && id in tr[i].results
    requires forall n :: i <= n < k ==> KeepsResults(tr[n], tr[n + 1])
    ensures id in tr[k].results && tr[k].results[id] == tr[i].results[id]
    decreases k
  {
    if i < k {
      ResultsChain(tr, i, k - 1, id);
      assert KeepsResults(tr[k - 1], tr[k - 1 + 1]);
    }
  }

  /** Once stored, a result is what every later round answers for its identifier. */
  lemma ResultsStay(tr: seq<State>, i: nat, k: nat, id: Id)
    requires Run(tr) && i <= k < |tr| && id in tr[i].results
    ensures id in tr[k].results && tr[k].results[id] == tr[i].results[id]
  {
    forall n | i <= n < k ensures KeepsResults(tr[n], tr[n + 1]) {
      RunResults(tr, n);
    }
    ResultsChain(tr, i, k, id);
  }

  // ---- Conservation ----

  function Ids(rs: seq<JobResult>): seq<Id> {
    if rs == [] then [] else Ids(rs[..|rs| - 1]) + [rs[|rs| - 1].id]
  }

  lemma {:induction false} Permutes(rs: seq<JobResult>, ids: set<Id>)
    requires OneEach(rs, ids)
    ensures multiset(Ids(rs)) == multiset(ids)
  {
    if rs == [] {
      assert forall id <- ids :: false;
    } else {
      var front, last := rs[..|rs| - 1], rs[|rs| - 1];
      forall id <- ids - {last.id} ensures exists i :: 0 <= i < |front| && front[i].id == id {
        var i :| 0 <= i < |rs| && rs[i].id == id;
        assert front[i] == rs[i];
      }
      Permutes(front, ids - {last.id});
    }
  }

  /** Each heartbeat reports the assignments of the previous answer: all of them, and each of them once. */
  lemma HeartbeatsConserve(tr: seq<State>, i: nat)
    requires Run(tr) && i < |tr|
    ensures |tr[i].sent| == |tr[i].given| == tr[i].round
    ensures tr[i].round > 0 ==> tr[i].sent[0] == []
    ensures forall n :: 0 < n < tr[i].round ==>
              multiset(Ids(tr[i].sent[n])) == multiset(tr[i].given[n - 1])
  {
    RunInv(tr, i);
    var w := tr[i];
    forall n | 0 < n < w.round ensures multiset(Ids(w.sent[n])) == multiset(w.given[n - 1]) {
      Permutes(w.sent[n], w.given[n - 1]);
    }
  }

  ghost predicate KeepsHistory(w: State, w': State) {
    w.sent <= w'.sent && w.given <= w'.given
  }

  lemma {:induction false} HistoryChain(tr: seq<State>, i: nat, k: nat)
    requires i <= k < |tr| && forall n :: i <= n < k ==> KeepsHistory(tr[n], tr[n + 1])
    ensures KeepsHistory(tr[i], tr[k])
    decreases k
  {
    if i < k {
      HistoryChain(tr, i, k - 1);
      assert KeepsHistory(tr[k - 1], tr[k - 1 + 1]);
    }
  }

  /** Nothing that was sent or assigned is ever forgotten. */
  lemma HistoryStays(tr: seq<State>, i: nat, k: nat)
    requires Run(tr) && i <= k < |tr|
    ensures tr[i].sent <= tr[k].sent && tr[i].given <= tr[k].given
  {
    forall n | i <= n < k ensures KeepsHistory(tr[n], tr[n + 1]) {
      NextHistory(tr[n], tr[n + 1]);
    }
    HistoryChain(tr, i, k);
  }

  lemma NextHistory(w: State, w': State)
    requires Next(w, w')
    ensures KeepsHistory(w, w')
  {
    if j, ja :| JobSteps(w, j, ja, w') {
      StepHistory(w, j, ja, w');
    }
  }

  lemma StepHistory(w: State, j: Key, ja: JobAction, w': State)
    requires JobSteps(w, j, ja, w')
    ensures w'.sent == w.sent && w'.given == w.given
  {
  }

  // ---- Locks that outlive their job ----

  /**
   A job that has reported holds no write lock, and its read locks are exactly those in `held`: none,
   or, after a failed command, one for each dependency, since that return skips the unlocks.
   */
  lemma LocksAfterReport(tr: seq<State>, i: nat, j: Key, s: C.Sid)
    requires Run(tr) && i < |tr| && j in tr[i].jobs && tr[i].jobs[j].pc.Reported?
    requires s in tr[i].cache.sessions && OwnedBy(s, j)
    ensures !C.HoldsWrite(C.PcAt(tr[i].cache, s)) && !C.HoldsMu(C.PcAt(tr[i].cache, s))
    ensures C.HoldsRead(C.PcAt(tr[i].cache, s)) <==> s.index in tr[i].jobs[j].held
    ensures var job := tr[i].jobs[j];
            job.held != [] ==> job.pc.res.error.Some? && |job.held| == |job.spec.deps|
  {
    RunInv(tr, i);
    RunUses(tr, i);
    var c, job := tr[i].cache, tr[i].jobs[j];
    assert JobOk(c, j, job) && UseOk(c, j, job);
    assert InUse(j, job, s.index, C.PcAt(c, s));
    if k :| 0 <= k < |job.held| && job.held[k] == s.index {
      assert SessionPc(c, j, job.held[k]).Reading?;
    }
  }

  /** Those read locks are never released: the dependency stays readable, and can no longer be removed. */
  lemma FailureKeepsReaders(tr: seq<State>, i: nat, k: nat, j: Key, d: nat)
    requires Run(tr) && i <= k < |tr| && j in tr[i].jobs && tr[i].jobs[j].pc.Reported? && d < |tr[i].jobs[j].held|
    ensures d < |tr[i].jobs[j].spec.deps|
    ensures var x := C.At(tr[k].cache, tr[i].jobs[j].spec.deps[d]);
            x.readers > 0 && Dictated(EntryOf(x), true) == Some(ReadLocked)
  {
    ReportedStays(tr, i, k, j);
    RunInv(tr, k);
    var c, job := tr[k].cache, tr[k].jobs[j];
    assert JobOk(c, j, job);
    assert Session(c, j, job.held[d], job.spec.deps[d]) && SessionPc(c, j, job.held[d]).Reading?;
    CP.OwnView(c, C.Sid(C.JobRun(j.round, j.id), job.held[d]));
  }

  ghost predicate KeepsReported(w: State, w': State) {
    forall j <- w.jobs :: w.jobs[j].pc.Reported? ==> j in w'.jobs && w'.jobs[j] == w.jobs[j]
  }

  lemma {:induction false} ReportedChain(tr: seq<State>, i: nat, k: nat)
    requires i <= k < |tr| && forall n :: i <= n < k ==> KeepsReported(tr[n], tr[n + 1])
    ensures KeepsReported(tr[i], tr[k])
    decreases k
  {
    if i < k {
      ReportedChain(tr, i, k - 1);
      assert KeepsReported(tr[k - 1], tr[k - 1 + 1]);
    }
  }

  lemma ReportedStays(tr: seq<State>, i: nat, k: nat, j: Key)
    requires Run(tr) && i <= k < |tr| && j in tr[i].jobs && tr[i].jobs[j].pc.Reported?
    ensures j in tr[k].jobs && tr[k].jobs[j] == tr[i].jobs[j]
  {
    forall n | i <= n < k ensures KeepsReported(tr[n], tr[n + 1]) {
      RunReported(tr, n);
    }
    ReportedChain(tr, i, k);
  }

  lemma StepReported(w: State, k: Key, ja: JobAction, w': State)
    requires JobSteps(w, k, ja, w')
    ensures !w.jobs[k].pc.Reported? && forall j <- w.jobs :: j != k ==> j in w'.jobs && w'.jobs[j] == w.jobs[j]
  {
  }

  lemma RunReported(tr: seq<State>, k: nat)
    requires Run(tr) && k + 1 < |tr|
    ensures KeepsReported(tr[k], tr[k + 1])
  {
    RunInv(tr, k);
    var w, w' := tr[k], tr[k + 1];
    assert Next(w, w');
    if response :| Heartbeat(w, response, w') {
      HeartbeatView(w, response, w');
    } else if i, ja :| JobSteps(w, i, ja, w') {
      StepReported(w, i, ja, w');
    }
  }

  // ---- Progress ----

  ghost predicate CanMove(w: State, t: C.Sid) {
    match t.owner
    case Guest(_) => C.Enabled(w.cache, t, C.Advance)
    case JobRun(r, id) => JobEnabled(w, Key(r, id), Drive(C.Advance)) && SessionOf(Key(r, id), w.jobs[Key(r, id)]) == t
    case Handler(_) => false
  }

  /** The session that holds the mutex is the one its job is driving. */
  lemma MutexSession(c: C.State, j: Key, job: Job, t: C.Sid)
    requires JobOk(c, j, job) && OwnedBy(t, j) && t in c.sessions && C.HoldsMu(C.PcAt(c, t))
    requires InUse(j, job, t.index, C.PcAt(c, t))
    ensures SessionOf(j, job) == t && Drives(job, C.Advance)
  {
  }

  /** Whoever holds the cache's mutex can go on. */
  lemma MutexHolderMoves(w: State, t: C.Sid)
    requires Inv(w) && UseInv(w) && w.cache.mu == Some(t)
    ensures CanMove(w, t)
  {
    assert OwnerOk(w, t);
    if t.owner.JobRun? {
      var j := Key(t.owner.round, t.owner.job);
      assert JobOk(w.cache, j, w.jobs[j]) && UseOk(w.cache, j, w.jobs[j]);
      assert InUse(j, w.jobs[j], t.index, C.PcAt(w.cache, t));
      MutexSession(w.cache, j, w.jobs[j], t);
    }
  }

  /** So `wg.Wait` waits for jobs that can move: each one itself, or after the holder of the mutex. */
  lemma RoundProgress(tr: seq<State>, i: nat, j: Key)
    requires Run(tr) && i < |tr| && j in tr[i].jobs && !tr[i].jobs[j].pc.Reported?
    ensures (exists ja :: JobEnabled(tr[i], j, ja)) || (tr[i].cache.mu.Some? && CanMove(tr[i], tr[i].cache.mu.value))
  {
    RunInv(tr, i);
    RunUses(tr, i);
    if tr[i].cache.mu.Some? {
      MutexHolderMoves(tr[i], tr[i].cache.mu.value);
    } else {
      JobMoves(tr[i], j);
    }
  }

  lemma JobMoves(w: State, j: Key)
    requires Inv(w) && w.cache.mu == None && j in w.jobs && !w.jobs[j].pc.Reported?
    ensures exists ja :: JobEnabled(w, j, ja)
  {
    var job := w.jobs[j];
    assert JobOk(w.cache, j, job);
    if Driving(job.pc) {
      DriverMoves(w, j);
    } else if job.pc.Fetch? && job.pc.todo != {} {
      var a :| a in job.pc.todo;
      assert JobEnabled(w, j, Choose(a));
    } else if job.pc.Requesting? || job.pc.Files? {
      assert JobEnabled(w, j, Answer(false));
    } else {
      assert JobEnabled(w, j, Proceed);
    }
  }

  lemma DriverMoves(w: State, j: Key)
    requires j in w.jobs && JobOk(w.cache, j, w.jobs[j]) && C.Inv(w.cache) && w.cache.mu == None
    requires Driving(w.jobs[j].pc)
    ensures exists ja :: JobEnabled(w, j, ja)
  {
    var job := w.jobs[j];
    if job.pc.Commands? {
      assert JobEnabled(w, j, Exit(false, 1));
    } else if job.pc.Checked? {
      assert JobEnabled(w, j, Drive(C.Release));
    } else if job.pc.Receiving? {
      assert JobEnabled(w, j, Drive(C.Abort));
    } else if job.pc.Dropping? || job.pc.Discarding? {
      ClearingMoves(w, j);
    } else if job.pc.Unlocking? {
      UnlockMoves(w, j);
    } else {
      assert JobEnabled(w, j, Drive(C.Advance));
    }
  }

  lemma UnlockMoves(w: State, j: Key)
    requires j in w.jobs && JobOk(w.cache, j, w.jobs[j]) && C.Inv(w.cache) && w.cache.mu == None
    requires w.jobs[j].pc.Unlocking?
    ensures exists ja :: JobEnabled(w, j, ja)
  {
    var job, c := w.jobs[j], w.cache;
    if job.pc.k < |job.held| {
      assert JobEnabled(w, j, Drive(C.Release));
    } else {
      CP.OwnView(c, SessionOf(j, job));
      assert JobEnabled(w, j, Drive(C.Commit));
    }
  }

  lemma ClearingMoves(w: State, j: Key)
    requires j in w.jobs && JobOk(w.cache, j, w.jobs[j]) && w.cache.mu == None
    requires w.jobs[j].pc.Dropping? || w.jobs[j].pc.Discarding?
    ensures exists ja :: JobEnabled(w, j, ja)
  {
    var s, c := SessionOf(j, w.jobs[j]), w.cache;
    if C.PcAt(c, s).Writing? {
      assert JobEnabled(w, j, Drive(C.Abort));
    } else if C.PcAt(c, s).AbortRemoved? {
      assert JobEnabled(w, j, Drive(C.Advance));
    } else {
      CT.CanDelete(c, s, C.At(c, C.IdAt(c, s)).tmp);
      var a :| C.Enabled(c, s, a);
      assert JobEnabled(w, j, Drive(a));
    }
  }
}
