/** Which jobs leave read locks behind: those whose commands failed, and only those. */
module WorkerLocks {
  import opened Basics
  import opened ArtifactCell
  import opened SchedulerLog
  import opened WorkerMachine
  import opened WorkerProofs
  import opened WorkerSessions
  import opened WorkerTheorems
  import C = CacheMachine

  predicate HasReport(pc: JobPc) {
    pc.Report? || pc.Reported?
  }

  /** A job that has failed, or has its result, goes on to its report with the locks it has. */
  ghost predicate KeepsHeld(w: State, w': State, j: Key) {
    j in w.jobs && (w.jobs[j].pc.Discarding? || HasReport(w.jobs[j].pc)) ==>
      && j in w'.jobs && w'.jobs[j].held == w.jobs[j].held && w'.jobs[j].spec == w.jobs[j].spec
      && (w'.jobs[j].pc.Discarding? || HasReport(w'.jobs[j].pc))
  }

  /** Nobody reports with locks but a job that failed, or had them at its report already. */
  ghost predicate HeldFromFailure(w: State, w': State, j: Key) {
    j in w'.jobs && HasReport(w'.jobs[j].pc) && w'.jobs[j].held != [] ==>
      j in w.jobs && (w.jobs[j].pc.Discarding? || (HasReport(w.jobs[j].pc) && w.jobs[j].held != []))
  }

  lemma StepHeld(w: State, j: Key, ja: JobAction, w': State)
    requires JobSteps(w, j, ja, w') && JobOk(w.cache, j, w.jobs[j]) && JobOk(w'.cache, j, w'.jobs[j])
    ensures KeepsHeld(w, w', j) && HeldFromFailure(w, w', j)
  {
  }

  lemma HeartbeatHeld(w: State, response: map<Id, JobSpec>, w': State, j: Key)
    requires JobsInv(w) && Heartbeat(w, response, w')
    ensures KeepsHeld(w, w', j) && HeldFromFailure(w, w', j)
  {
    HeartbeatView(w, response, w');
  }

  lemma OtherHeld(w: State, i: Key, ja: JobAction, w': State, j: Key)
    requires JobSteps(w, i, ja, w') && i != j
    ensures KeepsHeld(w, w', j) && HeldFromFailure(w, w', j)
  {
    StepReported(w, i, ja, w');
    SameJobs(w, i, ja, w');
  }

  lemma SameJobs(w: State, i: Key, ja: JobAction, w': State)
    requires JobSteps(w, i, ja, w')
    ensures w'.jobs.Keys == w.jobs.Keys
  {
  }

  lemma NextHeld(w: State, w': State, j: Key)
    requires JobsInv(w) && JobsInv(w') && Next(w, w')
    ensures KeepsHeld(w, w', j) && HeldFromFailure(w, w', j)
  {
    if response :| Heartbeat(w, response, w') {
      HeartbeatHeld(w, response, w', j);
    } else if ja :| JobSteps(w, j, ja, w') {
      SameJobs(w, j, ja, w');
      assert JobOk(w.cache, j, w.jobs[j]) && JobOk(w'.cache, j, w'.jobs[j]);
      StepHeld(w, j, ja, w');
    } else if i, ja :| JobSteps(w, i, ja, w') {
      OtherHeld(w, i, ja, w', j);
    } else {
      assert w'.jobs == w.jobs;
    }
  }

  lemma RunHeld(tr: seq<State>, n: nat, j: Key)
    requires Run(tr) && n + 1 < |tr|
    ensures KeepsHeld(tr[n], tr[n + 1], j) && HeldFromFailure(tr[n], tr[n + 1], j)
  {
    RunInv(tr, n);
    RunInv(tr, n + 1);
    assert Next(tr[n], tr[n + 1]);
    NextHeld(tr[n], tr[n + 1], j);
  }

  lemma {:induction false} HeldChain(tr: seq<State>, i: nat, k: nat, j: Key)
    requires i <= k < |tr| && j in tr[i].jobs && tr[i].jobs[j].pc.Discarding?
    requires forall n :: i <= n < k ==> KeepsHeld(tr[n], tr[n + 1], j)
    ensures j in tr[k].jobs && tr[k].jobs[j].held == tr[i].jobs[j].held && tr[k].jobs[j].spec == tr[i].jobs[j].spec
    ensures tr[k].jobs[j].pc.Discarding? || HasReport(tr[k].jobs[j].pc)
    decreases k
  {
    if i < k {
      HeldChain(tr, i, k - 1, j);
      assert KeepsHeld(tr[k - 1], tr[k - 1 + 1], j);
    }
  }

  lemma {:induction false} FailureChain(tr: seq<State>, k: nat, j: Key) returns (i: nat)
    requires k < |tr| && j !in tr[0].jobs && j in tr[k].jobs && HasReport(tr[k].jobs[j].pc) && tr[k].jobs[j].held != []
    requires forall n :: 0 <= n < k ==> HeldFromFailure(tr[n], tr[n + 1], j)
    ensures i < k && FailedAt(tr[i], j)
  {
    assert HeldFromFailure(tr[k - 1], tr[k - 1 + 1], j);
    if tr[k - 1].jobs[j].pc.Discarding? {
      i := k - 1;
    } else {
      i := FailureChain(tr, k - 1, j);
    }
  }

  /** A command of the job has failed, and its directory is being removed. */
  predicate FailedAt(w: State, j: Key) {
    j in w.jobs && w.jobs[j].pc.Discarding?
  }

  /**
   A job that has reported holds the read locks on all its dependencies if one of its commands failed,
   and no lock otherwise.
   */
  lemma LocksSurviveIff(tr: seq<State>, k: nat, j: Key)
    requires Run(tr) && k < |tr| && j in tr[k].jobs && tr[k].jobs[j].pc.Reported?
    ensures var job, c := tr[k].jobs[j], tr[k].cache;
            if exists i :: 0 <= i < k && FailedAt(tr[i], j) then
              && |job.held| == |job.spec.deps|
              && forall d :: 0 <= d < |job.held| ==>
                   Session(c, j, job.held[d], job.spec.deps[d]) && SessionPc(c, j, job.held[d]).Reading?
            else job.held == []
  {
    if i :| 0 <= i < k && FailedAt(tr[i], j) {
      FailedHolds(tr, i, k, j);
    } else if tr[k].jobs[j].held != [] {
      forall n | 0 <= n < k ensures HeldFromFailure(tr[n], tr[n + 1], j) {
        RunHeld(tr, n, j);
      }
      var i := FailureChain(tr, k, j);
    }
  }

  lemma FailedHolds(tr: seq<State>, i: nat, k: nat, j: Key)
    requires Run(tr) && i < k < |tr| && FailedAt(tr[i], j) && j in tr[k].jobs && tr[k].jobs[j].pc.Reported?
    ensures |tr[k].jobs[j].held| == |tr[k].jobs[j].spec.deps| && DepsOpen(tr[k].cache, j, tr[k].jobs[j], 0)
  {
    RunInv(tr, i);
    RunInv(tr, k);
    assert JobOk(tr[i].cache, j, tr[i].jobs[j]) && JobOk(tr[k].cache, j, tr[k].jobs[j]);
    forall n | i <= n < k ensures KeepsHeld(tr[n], tr[n + 1], j) {
      RunHeld(tr, n, j);
    }
    HeldChain(tr, i, k, j);
  }
}
