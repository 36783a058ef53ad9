/** What a job reports: the outcome of its commands, the cached result, or an error, and never anything else. */
module WorkerReports {
  import opened Basics
  import opened ArtifactCell
  import opened SchedulerLog
  import opened WorkerMachine
  import opened WorkerProofs
  import opened WorkerTheorems
  import opened WorkerLocks
  import C = CacheMachine

  // ---- The result a job is bound to report ----

  function Bound(job: Job): Option<JobResult> {
    match job.pc
    case Unlocking(_) => Some(JobResult(job.spec.id, job.code, None))
    case Publishing => Some(JobResult(job.spec.id, job.code, None))
    case Discarding => Some(JobResult(job.spec.id, job.code, Some("error")))
    case Store(res) => Some(res)
    case Report(res) => Some(res)
    case Reported(res) => Some(res)
    case _ => None
  }

  /** The answer of the result cache. */
  predicate Hits(w: State, j: Key, w': State) {
    JobSteps(w, j, Proceed, w') && w.jobs[j].pc.Load? && j.id in w.results
  }

  predicate Exits(w: State, j: Key, ok: bool, code: int, w': State) {
    JobSteps(w, j, Exit(ok, code), w')
  }

  /** The refusals that end a job before its commands, by what the network and the artifact cache answer. */
  predicate Refuses(w: State, j: Key, ja: JobAction, w': State) {
    && JobSteps(w, j, ja, w')
    && match ja
       case Answer(ok) => !ok
       case Drive(act) =>
         var q := C.PcAt(C.Apply(w.cache, SessionOf(j, w.jobs[j]), act), SessionOf(j, w.jobs[j]));
         || (w.jobs[j].pc.Checking? && q.Done? && q != C.Done(C.Failed(NotFound)))
         || ((w.jobs[j].pc.Downloading? || w.jobs[j].pc.Starting? || w.jobs[j].pc.Dropping?) && q.Done?)
       case _ => false
  }

  /** What one cache step does to the bound: nothing once there is one, and an error if it refuses. */
  lemma DriveBound(c: C.State, j: Key, job: Job, act: C.Action, c': C.State)
    requires JobDriven(c, j, job, act, c')
    ensures var q := C.PcAt(c', SessionOf(j, job));
            var bound' := Bound(After(j, job, act, q));
            && (Bound(job).Some? ==> bound' == Bound(job))
            && (Bound(job) == None ==>
                  if (job.pc.Checking? && q.Done? && q != C.Done(C.Failed(NotFound)))
                     || ((job.pc.Downloading? || job.pc.Starting? || job.pc.Dropping?) && q.Done?)
                  then bound' == Some(JobResult(j.id, job.code, Some("error")))
                  else bound' == None)
  {
  }

  lemma StepBound(w: State, j: Key, ja: JobAction, w': State)
    requires Inv(w) && JobSteps(w, j, ja, w')
    ensures j in w'.jobs
    ensures var job, job' := w.jobs[j], w'.jobs[j];
            && (Bound(job).Some? ==> Bound(job') == Bound(job))
            && (Bound(job) == None ==>
                  if ja.Exit? then
                    && Bound(job') == Some(JobResult(j.id, ja.code, if ja.ok then None else Some("error")))
                    && job'.code == ja.code
                  else if Hits(w, j, w') then Bound(job') == Some(w.results[j.id])
                  else if Refuses(w, j, ja, w') then
                    Bound(job') == Some(JobResult(j.id, if ja.Drive? then job.code else 0, Some("error")))
                  else Bound(job') == None && job'.code == job.code)
  {
    assert JobOk(w.cache, j, w.jobs[j]);
    if ja.Drive? {
      DriveSteps(w, j, ja.act, w');
    } else {
      TurnBound(w, j, ja, w');
    }
  }

  lemma DriveSteps(w: State, j: Key, act: C.Action, w': State)
    requires Inv(w) && JobSteps(w, j, Drive(act), w')
    ensures JobDriven(w.cache, j, w.jobs[j], act, w'.cache)
    ensures j in w'.jobs && w'.jobs[j] == After(j, w.jobs[j], act, C.PcAt(w'.cache, SessionOf(j, w.jobs[j])))
    ensures w'.cache == C.Apply(w.cache, SessionOf(j, w.jobs[j]), act)
    ensures Bound(w.jobs[j]).Some? ==> Bound(w'.jobs[j]) == Bound(w.jobs[j])
    ensures Bound(w.jobs[j]) == None ==>
              && w'.jobs[j].code == w.jobs[j].code
              && Bound(w'.jobs[j]) == if Refuses(w, j, Drive(act), w')
                                      then Some(JobResult(j.id, w.jobs[j].code, Some("error"))) else None
  {
    assert JobOk(w.cache, j, w.jobs[j]) && OwnerOk(w, SessionOf(j, w.jobs[j]));
    StepDrives(w.cache, SessionOf(j, w.jobs[j]), act);
    DriveView(w, j, act, w');
    DriveBound(w.cache, j, w.jobs[j], act, w'.cache);
  }

  lemma TurnBound(w: State, j: Key, ja: JobAction, w': State)
    requires JobSteps(w, j, ja, w') && !ja.Drive? && w.jobs[j].spec.id == j.id
    ensures j in w'.jobs
    ensures var job, job' := w.jobs[j], w'.jobs[j];
            && (Bound(job).Some? ==> Bound(job') == Bound(job))
            && (Bound(job) == None ==>
                  if ja.Exit? then
                    && Bound(job') == Some(JobResult(j.id, ja.code, if ja.ok then None else Some("error")))
                    && job'.code == ja.code
                  else if Hits(w, j, w') then Bound(job') == Some(w.results[j.id])
                  else if Refuses(w, j, ja, w') then Bound(job') == Some(JobResult(j.id, 0, Some("error")))
                  else Bound(job') == None && job'.code == job.code)
  {
    if ja.Proceed? {
      ProceedBound(w, j, w');
    }
  }

  lemma ProceedBound(w: State, j: Key, w': State)
    requires JobSteps(w, j, Proceed, w')
    ensures j in w'.jobs
    ensures var job, job' := w.jobs[j], w'.jobs[j];
            && (Bound(job).Some? ==> Bound(job') == Bound(job))
            && (Bound(job) == None ==>
                  && job'.code == job.code
                  && Bound(job') == if Hits(w, j, w') then Some(w.results[j.id]) else None)
  {
    assert w' == Proceeding(w, j, w.jobs[j]);
  }

  // ---- From the step that decides to the report ----

  ghost predicate KeepsBound(w: State, w': State, j: Key) {
    j in w.jobs && Bound(w.jobs[j]).Some? ==> j in w'.jobs && Bound(w'.jobs[j]) == Bound(w.jobs[j])
  }

  ghost predicate HasExit(w: State, j: Key, w': State) {
    exists ok, code :: Exits(w, j, ok, code, w')
  }

  ghost predicate IsRefused(w: State, j: Key, w': State) {
    exists ja :: Refuses(w, j, ja, w')
  }

  /** A step of the run that decides what a job will report. */
  ghost predicate Decides(w: State, w': State, j: Key) {
    HasExit(w, j, w') || Hits(w, j, w') || IsRefused(w, j, w')
  }

  /** A job that is not bound yet has no exit code. */
  ghost predicate Undecided(w: State, j: Key) {
    j in w.jobs ==> Bound(w.jobs[j]) == None && w.jobs[j].code == 0
  }

  ghost predicate StaysUndecided(w: State, w': State, j: Key) {
    Undecided(w, j) && !Decides(w, w', j) ==> Undecided(w', j)
  }

  lemma OthersKept(w: State, w': State, j: Key)
    requires JobsInv(w) && Next(w, w') && !exists ja :: JobSteps(w, j, ja, w')
    ensures j in w.jobs ==> j in w'.jobs && w'.jobs[j] == w.jobs[j]
    ensures j !in w.jobs && j in w'.jobs ==> Undecided(w', j)
  {
    if response :| Heartbeat(w, response, w') {
      HeartbeatView(w, response, w');
    } else if i, ja :| JobSteps(w, i, ja, w') {
      assert i != j;
      StepReported(w, i, ja, w');
      SameJobs(w, i, ja, w');
    } else {
      assert w'.jobs == w.jobs;
    }
  }

  lemma NextBound(w: State, w': State, j: Key)
    requires Inv(w) && Next(w, w')
    ensures KeepsBound(w, w', j) && StaysUndecided(w, w', j)
  {
    if ja :| JobSteps(w, j, ja, w') {
      StepBound(w, j, ja, w');
      assert ja.Exit? ==> Exits(w, j, ja.ok, ja.code, w');
    } else {
      OthersKept(w, w', j);
    }
  }

  lemma RunBound(tr: seq<State>, n: nat, j: Key)
    requires Run(tr) && n + 1 < |tr|
    ensures KeepsBound(tr[n], tr[n + 1], j) && StaysUndecided(tr[n], tr[n + 1], j)
  {
    RunInv(tr, n);
    NextBound(tr[n], tr[n + 1], j);
  }

  lemma {:induction false} BoundChain(tr: seq<State>, i: nat, k: nat, j: Key)
    requires i <= k < |tr| && j in tr[i].jobs && Bound(tr[i].jobs[j]).Some?
    requires forall n :: i <= n < k ==> KeepsBound(tr[n], tr[n + 1], j)
    ensures j in tr[k].jobs && Bound(tr[k].jobs[j]) == Bound(tr[i].jobs[j])
    decreases k
  {
    if i < k {
      BoundChain(tr, i, k - 1, j);
      assert KeepsBound(tr[k - 1], tr[k - 1 + 1], j);
    }
  }

  lemma BoundStays(tr: seq<State>, i: nat, k: nat, j: Key)
    requires Run(tr) && i <= k < |tr| && j in tr[i].jobs && Bound(tr[i].jobs[j]).Some?
    ensures j in tr[k].jobs && Bound(tr[k].jobs[j]) == Bound(tr[i].jobs[j])
  {
    forall n | i <= n < k ensures KeepsBound(tr[n], tr[n + 1], j) {
      RunBound(tr, n, j);
    }
    BoundChain(tr, i, k, j);
  }

  lemma {:induction false} DecisionChain(tr: seq<State>, k: nat, j: Key) returns (i: nat)
    requires k < |tr| && Undecided(tr[0], j) && !Undecided(tr[k], j)
    requires forall n :: 0 <= n < k ==> StaysUndecided(tr[n], tr[n + 1], j)
    ensures i < k && Undecided(tr[i], j) && Decides(tr[i], tr[i + 1], j)
  {
    assert StaysUndecided(tr[k - 1], tr[k - 1 + 1], j);
    if Undecided(tr[k - 1], j) {
      i := k - 1;
    } else {
      i := DecisionChain(tr, k - 1, j);
    }
  }

  predicate ReportedAt(w: State, j: Key) {
    j in w.jobs && w.jobs[j].pc.Reported?
  }

  /** Every job that has reported was decided by one step: its exit, a hit in the result cache, or a refusal. */
  lemma DecidedOnce(tr: seq<State>, k: nat, j: Key) returns (i: nat)
    requires Run(tr) && k < |tr| && ReportedAt(tr[k], j)
    ensures i < k && Undecided(tr[i], j) && Decides(tr[i], tr[i + 1], j)
  {
    forall n | 0 <= n < k ensures StaysUndecided(tr[n], tr[n + 1], j) {
      RunBound(tr, n, j);
    }
    i := DecisionChain(tr, k, j);
  }

  // ---- The three kinds of report ----

  /** With the results that have been stored so far. */
  ghost predicate SuccessStored(w: State) {
    forall j <- w.jobs :: HasReport(w.jobs[j].pc) && w.jobs[j].pc.res.error == None ==>
      j.id in w.results && w.results[j.id] == w.jobs[j].pc.res
  }

  /** A job gets to its report from `Store`, from the result cache, or with an error. */
  lemma ReportsRight(w: State, j: Key, ja: JobAction, w': State)
    requires Inv(w) && JobSteps(w, j, ja, w') && SuccessStored(w)
    ensures j in w'.jobs
    ensures HasReport(w'.jobs[j].pc) && w'.jobs[j].pc.res.error == None ==>
              j.id in w'.results && w'.results[j.id] == w'.jobs[j].pc.res
  {
    assert JobOk(w.cache, j, w.jobs[j]);
    if ja.Drive? {
      DriveSteps(w, j, ja.act, w');
      DriveReports(w, j, ja.act, w');
    } else {
      TurnReports(w, j, ja, w');
    }
  }

  lemma DriveReports(w: State, j: Key, act: C.Action, w': State)
    requires j in w.jobs && JobDriven(w.cache, j, w.jobs[j], act, w'.cache)
    requires j in w'.jobs && w'.jobs[j] == After(j, w.jobs[j], act, C.PcAt(w'.cache, SessionOf(j, w.jobs[j])))
    ensures HasReport(w'.jobs[j].pc) ==> w'.jobs[j].pc.res.error.Some?
  {
  }

  lemma TurnReports(w: State, j: Key, ja: JobAction, w': State)
    requires JobSteps(w, j, ja, w') && !ja.Drive? && SuccessStored(w)
    ensures j in w'.jobs
    ensures HasReport(w'.jobs[j].pc) && w'.jobs[j].pc.res.error == None ==>
              j.id in w'.results && w'.results[j.id] == w'.jobs[j].pc.res
  {
  }

  lemma NextStored(w: State, w': State)
    requires Inv(w) && Next(w, w') && SuccessStored(w) && KeepsResults(w, w')
    ensures SuccessStored(w')
  {
    forall j <- w'.jobs | HasReport(w'.jobs[j].pc) && w'.jobs[j].pc.res.error == None
      ensures j.id in w'.results && w'.results[j.id] == w'.jobs[j].pc.res
    {
      if ja :| JobSteps(w, j, ja, w') {
        ReportsRight(w, j, ja, w');
      } else {
        OthersKept(w, w', j);
        OtherStored(w, w', j);
      }
    }
  }

  lemma OtherStored(w: State, w': State, j: Key)
    requires SuccessStored(w) && KeepsResults(w, w') && j in w'.jobs
    requires if j in w.jobs then w'.jobs[j] == w.jobs[j] else Undecided(w', j)
    ensures HasReport(w'.jobs[j].pc) && w'.jobs[j].pc.res.error == None ==>
              j.id in w'.results && w'.results[j.id] == w'.jobs[j].pc.res
  {
  }

  ghost predicate KeepsStored(w: State, w': State) {
    SuccessStored(w) ==> SuccessStored(w')
  }

  lemma {:induction false} StoredChain(tr: seq<State>, k: nat)
    requires k < |tr| && SuccessStored(tr[0]) && forall n :: 0 <= n < k ==> KeepsStored(tr[n], tr[n + 1])
    ensures SuccessStored(tr[k])
  {
    if k > 0 {
      StoredChain(tr, k - 1);
      assert KeepsStored(tr[k - 1], tr[k - 1 + 1]);
    }
  }

  lemma StepStored(tr: seq<State>, n: nat)
    requires Run(tr) && n + 1 < |tr|
    ensures KeepsStored(tr[n], tr[n + 1])
  {
    RunInv(tr, n);
    RunResults(tr, n);
    if SuccessStored(tr[n]) {
      NextStored(tr[n], tr[n + 1]);
    }
  }

  /** In every state: a job that reports success has its result in the result cache. */
  lemma RunStored(tr: seq<State>, k: nat)
    requires Run(tr) && k < |tr|
    ensures SuccessStored(tr[k])
  {
    forall n | 0 <= n < k ensures KeepsStored(tr[n], tr[n + 1]) {
      StepStored(tr, n);
    }
    StoredChain(tr, k);
  }

  /**
   A job whose commands have run reports their exit code; without an error, and with its result stored,
   if they succeeded, and with an error if one failed.
   */
  lemma ExitDecides(tr: seq<State>, i: nat, k: nat, j: Key, ok: bool, code: int)
    requires Run(tr) && i < k < |tr| && Exits(tr[i], j, ok, code, tr[i + 1]) && ReportedAt(tr[k], j)
    ensures var res := tr[k].jobs[j].pc.res;
            && res.id == j.id && res.exitCode == code
            && (ok ==> res.error == None && j.id in tr[k].results && tr[k].results[j.id] == res)
            && (!ok ==> res.error.Some?)
  {
    RunInv(tr, i);
    StepBound(tr[i], j, Exit(ok, code), tr[i + 1]);
    BoundStays(tr, i + 1, k, j);
    RunStored(tr, k);
  }

  /** A job that is answered from the result cache reports exactly that result. */
  lemma HitDecides(tr: seq<State>, i: nat, k: nat, j: Key)
    requires Run(tr) && i < k < |tr| && Hits(tr[i], j, tr[i + 1]) && ReportedAt(tr[k], j)
    ensures tr[k].jobs[j].pc.res == tr[i].results[j.id]
  {
    RunInv(tr, i);
    StepBound(tr[i], j, Proceed, tr[i + 1]);
    BoundStays(tr, i + 1, k, j);
  }

  /** Any other job has been refused something, and reports an error without an exit code. */
  lemma RefusalDecides(tr: seq<State>, k: nat, j: Key) returns (i: nat)
    requires Run(tr) && k < |tr| && ReportedAt(tr[k], j)
    requires forall n :: 0 <= n < k ==> !Hits(tr[n], j, tr[n + 1])
    requires forall n :: 0 <= n < k ==> !HasExit(tr[n], j, tr[n + 1])
    ensures i < k && IsRefused(tr[i], j, tr[i + 1])
    ensures var res := tr[k].jobs[j].pc.res; res.id == j.id && res.exitCode == 0 && res.error.Some?
  {
    i := DecidedOnce(tr, k, j);
    var ja :| Refuses(tr[i], j, ja, tr[i + 1]);
    RunInv(tr, i);
    StepBound(tr[i], j, ja, tr[i + 1]);
    BoundStays(tr, i + 1, k, j);
  }

  // ---- The heartbeats ----

  /** `res` is what the job of its identifier has reported in round `n`. */
  predicate ReportOf(w: State, n: nat, res: JobResult) {
    Key(n, res.id) in w.jobs && w.jobs[Key(n, res.id)].pc == Reported(res)
  }

  /** What has been sent, and what will be, are the reports of the jobs. */
  ghost predicate SentRight(w: State) {
    && (forall i :: 0 <= i < |w.finished| ==> ReportOf(w, w.round, w.finished[i]))
    && (forall n, i :: 0 <= n < |w.sent| && 0 <= i < |w.sent[n]| ==> ReportOf(w, n, w.sent[n][i]))
  }

  lemma SentKept(w: State, w': State)
    requires SentRight(w) && KeepsReported(w, w') && w'.round == w.round && w'.sent == w.sent
    requires w'.finished == w.finished
          || exists res :: w'.finished == w.finished + [res] && ReportOf(w', w.round, res)
    ensures SentRight(w')
  {
  }

  lemma HeartbeatSends(w: State, w': State)
    requires SentRight(w) && |w.sent| == w.round && KeepsReported(w, w')
    requires w'.sent == w.sent + [w.finished] && w'.finished == []
    ensures SentRight(w')
  {
    forall n, i | 0 <= n < |w'.sent| && 0 <= i < |w'.sent[n]| ensures ReportOf(w', n, w'.sent[n][i]) {
      assert ReportOf(w, n, w'.sent[n][i]);
    }
  }

  lemma StepSends(w: State, j: Key, ja: JobAction, w': State)
    requires JobsInv(w) && JobSteps(w, j, ja, w')
    ensures w'.round == w.round && w'.sent == w.sent
    ensures w'.finished == w.finished || exists res :: w'.finished == w.finished + [res] && ReportOf(w', w.round, res)
  {
    if ja.Proceed? && w.jobs[j].pc.Report? {
      assert JobOk(w.cache, j, w.jobs[j]);
      var res := w.jobs[j].pc.res;
      assert w'.finished == w.finished + [res] && ReportOf(w', w.round, res);
    } else {
      PlainSends(w, j, ja, w');
    }
  }

  lemma PlainSends(w: State, j: Key, ja: JobAction, w': State)
    requires JobSteps(w, j, ja, w') && !(ja.Proceed? && w.jobs[j].pc.Report?)
    ensures w'.round == w.round && w'.sent == w.sent && w'.finished == w.finished
  {
  }

  lemma NextSends(w: State, w': State)
    requires Inv(w) && Next(w, w') && SentRight(w) && KeepsReported(w, w')
    ensures SentRight(w')
  {
    if response :| Heartbeat(w, response, w') {
      HeartbeatSends(w, w');
    } else if j, ja :| JobSteps(w, j, ja, w') {
      StepSends(w, j, ja, w');
      SentKept(w, w');
    } else {
      SentKept(w, w');
    }
  }

  ghost predicate KeepsSent(w: State, w': State) {
    SentRight(w) ==> SentRight(w')
  }

  lemma StepSent(tr: seq<State>, n: nat)
    requires Run(tr) && n + 1 < |tr|
    ensures KeepsSent(tr[n], tr[n + 1])
  {
    RunInv(tr, n);
    RunReported(tr, n);
    if SentRight(tr[n]) {
      NextSends(tr[n], tr[n + 1]);
    }
  }

  lemma {:induction false} SentChain(tr: seq<State>, k: nat)
    requires k < |tr| && SentRight(tr[0]) && forall n :: 0 <= n < k ==> KeepsSent(tr[n], tr[n + 1])
    ensures SentRight(tr[k])
  {
    if k > 0 {
      SentChain(tr, k - 1);
      assert KeepsSent(tr[k - 1], tr[k - 1 + 1]);
    }
  }

  /** The results of every heartbeat are, one by one, those that the jobs of its round have reported. */
  lemma HeartbeatsTell(tr: seq<State>, k: nat, n: nat, i: nat)
    requires Run(tr) && k < |tr| && n < |tr[k].sent| && i < |tr[k].sent[n]|
    ensures var res := tr[k].sent[n][i];
            Key(n, res.id) in tr[k].jobs && tr[k].jobs[Key(n, res.id)].pc == Reported(res)
  {
    forall m | 0 <= m < k ensures KeepsSent(tr[m], tr[m + 1]) {
      StepSent(tr, m);
    }
    SentChain(tr, k);
    assert ReportOf(tr[k], n, tr[k].sent[n][i]);
  }
}
