/** The worker's invariant: settled artifacts stay, and every job knows what it needs to know. */
module WorkerProofs {
  import opened Basics
  import opened ArtifactCell
  import opened SchedulerLog
  import opened WorkerMachine
  import C = CacheMachine
  import CP = CacheProofs

  // ---- Settled artifacts ----

  /** Without removals, an artifact that is present and unlocked stays so: `Create` stops at `ErrExists`. */
  lemma LocalSettled(pc: C.Pc, x: Cell, a: C.Action)
    requires C.LocalEnabled(pc, x, a) && C.Knows(pc, x) && !RemoverPc(pc) && (C.HoldsWrite(pc) ==> x.write)
    ensures var (q, y) := C.Local(pc, x, a);
            !RemoverPc(q) && (x.disk.Some? && !x.write ==> y.disk == x.disk && !y.write)
  {
  }

  ghost predicate Grows(c: C.State, c': C.State) {
    forall id :: Settled(c, id) ==> Settled(c', id) && C.At(c', id).disk == C.At(c, id).disk
  }

  lemma StepGrows(c: C.State, s: C.Sid, a: C.Action)
    requires C.Inv(c) && C.Enabled(c, s, a) && !RemoverPc(C.PcAt(c, s))
    ensures Grows(c, C.Apply(c, s, a)) && !RemoverPc(C.PcAt(C.Apply(c, s, a), s))
  {
    CP.OwnView(c, s);
    LocalSettled(C.PcAt(c, s), C.At(c, C.IdAt(c, s)), a);
  }

  predicate OwnedBy(s: C.Sid, j: Key) {
    s.owner == C.JobRun(j.round, j.id)
  }

  /** A job is indifferent to everything but its own sessions and the settled artifacts. */
  predicate SameSessions(c: C.State, c': C.State, j: Key) {
    forall s <- c.sessions :: OwnedBy(s, j) ==> s in c'.sessions && c'.sessions[s] == c.sessions[s]
  }

  lemma JobFrame(c: C.State, c': C.State, j: Key, job: Job)
    requires JobOk(c, j, job) && Grows(c, c') && SameSessions(c, c', j)
    ensures JobOk(c', j, job)
  {
  }

  lemma OthersFrame(w: State, w': State, j: Key)
    requires JobsInv(w) && Grows(w.cache, w'.cache) && w'.round == w.round
    requires j in w'.jobs && w'.jobs == w.jobs[j := w'.jobs[j]] && j in w.jobs
    requires forall s <- w.cache.sessions :: !OwnedBy(s, j) ==>
               s in w'.cache.sessions && w'.cache.sessions[s] == w.cache.sessions[s]
    requires JobOk(w'.cache, j, w'.jobs[j]) && (j.round < w.round ==> w'.jobs[j].pc.Reported?)
    ensures JobsInv(w')
  {
    forall k <- w'.jobs | k != j ensures JobOk(w'.cache, k, w'.jobs[k]) {
      JobFrame(w.cache, w'.cache, k, w.jobs[k]);
    }
  }

  // ---- One job's cache step ----

  /** Where the step of a session leads, by where it was and whether its artifact is settled. */
  predicate LeadsTo(p: C.Pc, settled: bool, act: C.Action, q: C.Pc, settled': bool) {
    && (p.GetStart? ==> q.GetLocked? || (q.Done? && !settled))
    && (p.GetLocked? ==> q.Reading? || (q.GetMissing? && !settled))
    && (p.GetMissing? ==> q.Done?)
    && (q.Reading? ==> settled')
    && (Locking(p) ==> Locking(q) || q.Writing? || q.Done?)
    && (p.Writing? ==> act.Fill? || act.Commit? || act.Abort?)
    && (p.Writing? && act.Fill? ==> q.Writing?)
    && (p.Writing? && act.Commit? ==> q.Renamed?)
    && (p.Writing? && act.Abort? ==> q.Aborting?)
    && (p.Aborting? ==> q.Aborting? || q.AbortRemoved?)
    && (p.AbortRemoved? ==> q.Done?)
    && (act.Release? ==> q.Done?)
    && (p.Renamed? ==> q == C.Done(C.Committed) && settled')
  }

  lemma LocalLeads(pc: C.Pc, x: Cell, a: C.Action)
    requires C.LocalEnabled(pc, x, a) && C.Knows(pc, x)
    requires (C.HoldsWrite(pc) ==> x.write) && (C.HoldsRead(pc) ==> !x.write)
    ensures var (q, y) := C.Local(pc, x, a);
            LeadsTo(pc, x.disk.Some? && !x.write, a, q, y.disk.Some? && !y.write)
  {
  }

  /** A cache step of session `s` of job `j`, as far as a job can tell. */
  ghost predicate Driven(c: C.State, s: C.Sid, act: C.Action, c': C.State) {
    && s in c.sessions && s in c'.sessions
    && c'.sessions == c.sessions[s := C.Session(C.IdAt(c, s), C.PcAt(c', s))]
    && Grows(c, c')
    && LeadsTo(C.PcAt(c, s), Settled(c, C.IdAt(c, s)), act, C.PcAt(c', s), Settled(c', C.IdAt(c, s)))
  }

  lemma StepDrives(c: C.State, s: C.Sid, act: C.Action)
    requires C.Inv(c) && C.Enabled(c, s, act) && !RemoverPc(C.PcAt(c, s))
    ensures Driven(c, s, act, C.Apply(c, s, act)) && C.Inv(C.Apply(c, s, act))
    ensures !RemoverPc(C.PcAt(C.Apply(c, s, act), s))
  {
    CP.StepInv(c, s, act, C.Apply(c, s, act));
    StepGrows(c, s, act);
    CP.OwnView(c, s);
    LocalLeads(C.PcAt(c, s), C.At(c, C.IdAt(c, s)), act);
  }

  /** The job after the step: its new point follows from where its session went. */
  function After(j: Key, job: Job, act: C.Action, q: C.Pc): Job {
    var pc := Follow(job, act, q);
    job.(pc := pc, held := HeldAfter(job, pc))
  }

  ghost predicate JobDriven(c: C.State, j: Key, job: Job, act: C.Action, c': C.State) {
    var s := SessionOf(j, job);
    JobOk(c, j, job) && Drives(job, act) && Driven(c, s, act, c') && s.index < job.next
  }

  lemma DriveFetch(c: C.State, j: Key, job: Job, act: C.Action, c': C.State)
    requires JobDriven(c, j, job, act, c') && (job.pc.Checking? || job.pc.Checked? || job.pc.Downloading?)
    ensures JobOk(c', j, After(j, job, act, C.PcAt(c', SessionOf(j, job))))
  {
  }

  lemma DriveReceive(c: C.State, j: Key, job: Job, act: C.Action, c': C.State)
    requires JobDriven(c, j, job, act, c') && (job.pc.Receiving? || job.pc.Committing? || job.pc.Dropping?)
    ensures JobOk(c', j, After(j, job, act, C.PcAt(c', SessionOf(j, job))))
  {
  }

  lemma DriveStart(c: C.State, j: Key, job: Job, act: C.Action, c': C.State)
    requires JobDriven(c, j, job, act, c') && (job.pc.Starting? || job.pc.Commands?)
    ensures JobOk(c', j, After(j, job, act, C.PcAt(c', SessionOf(j, job))))
  {
  }

  lemma DriveOpen(c: C.State, j: Key, job: Job, act: C.Action, c': C.State)
    requires JobDriven(c, j, job, act, c') && job.pc.Opening?
    ensures JobOk(c', j, After(j, job, act, C.PcAt(c', SessionOf(j, job))))
  {
  }

  lemma DriveUnlock(c: C.State, j: Key, job: Job, act: C.Action, c': C.State)
    requires JobDriven(c, j, job, act, c') && job.pc.Unlocking?
    ensures JobOk(c', j, After(j, job, act, C.PcAt(c', SessionOf(j, job))))
  {
  }

  lemma DriveEnd(c: C.State, j: Key, job: Job, act: C.Action, c': C.State)
    requires JobDriven(c, j, job, act, c') && (job.pc.Publishing? || job.pc.Discarding?)
    ensures JobOk(c', j, After(j, job, act, C.PcAt(c', SessionOf(j, job))))
  {
  }

  lemma DriveJob(c: C.State, j: Key, job: Job, act: C.Action, c': C.State)
    requires JobDriven(c, j, job, act, c')
    ensures JobOk(c', j, After(j, job, act, C.PcAt(c', SessionOf(j, job))))
  {
    var pc := job.pc;
    if pc.Checking? || pc.Checked? || pc.Downloading? {
      DriveFetch(c, j, job, act, c');
    } else if pc.Receiving? || pc.Committing? || pc.Dropping? {
      DriveReceive(c, j, job, act, c');
    } else if pc.Starting? || pc.Commands? {
      DriveStart(c, j, job, act, c');
    } else if pc.Opening? {
      DriveOpen(c, j, job, act, c');
    } else if pc.Unlocking? {
      DriveUnlock(c, j, job, act, c');
    } else {
      DriveEnd(c, j, job, act, c');
    }
  }

  // ---- What a step of one job leaves alone ----

  ghost predicate OneJob(w: State, j: Key, w': State) {
    && j in w.jobs && j in w'.jobs && w'.jobs == w.jobs[j := w'.jobs[j]]
    && w'.round == w.round && w'.sent == w.sent && w'.given == w.given
    && w'.jobs[j].next >= w.jobs[j].next
  }

  lemma OwnersKept(w: State, j: Key, s: C.Sid, w': State)
    requires OwnerInv(w) && OneJob(w, j, w') && OwnedBy(s, j) && s in w'.cache.sessions
    requires w'.cache.sessions == w.cache.sessions[s := w'.cache.sessions[s]]
    requires !RemoverPc(C.PcAt(w'.cache, s)) && s.index < w'.jobs[j].next
    ensures OwnerInv(w')
  {
    forall t <- w'.cache.sessions ensures OwnerOk(w', t) {
      assert t != s ==> OwnerOk(w, t);
    }
  }

  lemma RoundKept(w: State, j: Key, w': State)
    requires RoundInv(w) && OneJob(w, j, w') && w'.finished == w.finished
    requires w'.jobs[j].pc.Reported? == w.jobs[j].pc.Reported?
    ensures RoundInv(w')
  {
    assert ReportedIds(w') == ReportedIds(w);
    assert RoundIds(w') == RoundIds(w);
  }

  lemma NotReported(w: State, j: Key)
    requires JobsInv(w) && j in w.jobs && !w.jobs[j].pc.Reported?
    ensures j.round == w.round && j.id !in ReportedIds(w)
  {
  }

  lemma ResultsKept(w: State, j: Key, w': State)
    requires ResultInv(w) && OneJob(w, j, w') && w'.results == w.results && w'.wins == w.wins
    requires Grows(w.cache, w'.cache) && !w'.jobs[j].pc.Store?
    ensures ResultInv(w')
  {
  }

  /** A job moves one of its sessions, and what holds of the job alone is known. */
  lemma SessionMoves(w: State, j: Key, s: C.Sid, w': State)
    requires JobsInv(w) && OwnerInv(w) && RoundInv(w) && OneJob(w, j, w') && OwnedBy(s, j) && Grows(w.cache, w'.cache)
    requires s in w'.cache.sessions && w'.cache.sessions == w.cache.sessions[s := w'.cache.sessions[s]]
    requires !RemoverPc(C.PcAt(w'.cache, s)) && s.index < w'.jobs[j].next
    requires !w.jobs[j].pc.Reported? && !w'.jobs[j].pc.Reported? && JobOk(w'.cache, j, w'.jobs[j])
    requires w'.finished == w.finished
    ensures JobsInv(w') && OwnerInv(w') && RoundInv(w')
  {
    OthersFrame(w, w', j);
    OwnersKept(w, j, s, w');
    RoundKept(w, j, w');
  }

  // ---- The steps of a job ----

  lemma DriveInv(w: State, j: Key, act: C.Action, w': State)
    requires Inv(w) && JobSteps(w, j, Drive(act), w')
    ensures Inv(w')
  {
    var job, c := w.jobs[j], w.cache;
    var s := SessionOf(j, job);
    assert OwnerOk(w, s);
    StepDrives(c, s, act);
    DriveJob(c, j, job, act, w'.cache);
    DriveView(w, j, act, w');
    SessionMoves(w, j, s, w');
    if w'.jobs[j].pc.Store? {
      FirstWin(w, j);
    }
    DriveResults(w, j, w');
  }

  lemma DriveView(w: State, j: Key, act: C.Action, w': State)
    requires JobSteps(w, j, Drive(act), w')
    ensures var s := SessionOf(j, w.jobs[j]);
            && OneJob(w, j, w') && OwnedBy(s, j) && w'.finished == w.finished && w'.results == w.results
            && !w.jobs[j].pc.Reported? && !w'.jobs[j].pc.Reported?
            && w'.cache == C.Apply(w.cache, s, act)
            && w'.jobs[j] == After(j, w.jobs[j], act, C.PcAt(w'.cache, s))
            && w'.wins == (if w'.jobs[j].pc.Store? then w.wins[j.id := Wins(w, j.id) + 1] else w.wins)
            && (w'.jobs[j].pc.Store? ==> w.jobs[j].pc.Publishing?)
  {
  }

  /** A job that publishes still holds the write lock, so nobody has published the same artifact before. */
  lemma FirstWin(w: State, j: Key)
    requires Inv(w) && j in w.jobs && w.jobs[j].pc.Publishing?
    ensures j.id !in w.wins && j.id !in w.results
  {
    assert JobOk(w.cache, j, w.jobs[j]);
    assert SessionOf(j, w.jobs[j]) in w.cache.sessions;
    CP.OwnView(w.cache, SessionOf(j, w.jobs[j]));
    assert !Settled(w.cache, j.id);
  }

  lemma WinResults(w: State, j: Key, w': State)
    requires ResultInv(w) && OneJob(w, j, w') && w'.results == w.results && w'.wins == w.wins[j.id := 1]
    requires Grows(w.cache, w'.cache) && Settled(w'.cache, j.id) && j.id !in w.results
    ensures ResultInv(w')
  {
  }

  lemma DriveResults(w: State, j: Key, w': State)
    requires ResultInv(w) && OneJob(w, j, w') && Grows(w.cache, w'.cache) && w'.results == w.results
    requires w'.wins == if w'.jobs[j].pc.Store? then w.wins[j.id := Wins(w, j.id) + 1] else w.wins
    requires w'.jobs[j].pc.Store? ==> j.id !in w.wins && j.id !in w.results && Settled(w'.cache, j.id)
    ensures ResultInv(w')
  {
    if !w'.jobs[j].pc.Store? {
      ResultsKept(w, j, w');
    } else {
      WinResults(w, j, w');
    }
  }

  /** A job opens a new session. */
  lemma OpenInv(w: State, j: Key, job: Job, op: C.Op, id: Id, w': State)
    requires Inv(w) && j in w.jobs && w' == Open(w, j, job, op, id) && !op.Remove?
    requires job.next == w.jobs[j].next && !job.pc.Reported? && !job.pc.Store? && !w.jobs[j].pc.Reported?
    requires JobOk(w'.cache, j, w'.jobs[j])
    ensures Inv(w')
  {
    var s := C.Sid(C.JobRun(j.round, j.id), job.next);
    assert s in w.cache.sessions ==> OwnerOk(w, s);
    CP.BeginInv(w.cache, s, op, id);
    OpenView(w, j, job, op, id, w');
    SessionMoves(w, j, s, w');
    ResultsKept(w, j, w');
  }

  lemma OpenView(w: State, j: Key, job: Job, op: C.Op, id: Id, w': State)
    requires j in w.jobs && w' == Open(w, j, job, op, id) && !op.Remove? && job.next == w.jobs[j].next
    ensures var s := C.Sid(C.JobRun(j.round, j.id), job.next);
            && OneJob(w, j, w') && OwnedBy(s, j) && Grows(w.cache, w'.cache)
            && w'.finished == w.finished && w'.results == w.results && w'.wins == w.wins
            && w'.jobs[j] == job.(next := job.next + 1)
            && w'.cache == C.Begin(w.cache, s, op, id)
            && s in w'.cache.sessions && w'.cache.sessions == w.cache.sessions[s := w'.cache.sessions[s]]
            && !RemoverPc(C.PcAt(w'.cache, s))
  {
  }

  /** A session that a job has not begun yet cannot disturb what the job knows. */
  lemma OpenFrame(w: State, j: Key, job: Job, op: C.Op, id: Id)
    requires Inv(w) && j in w.jobs && job == w.jobs[j]
    ensures var s := C.Sid(C.JobRun(j.round, j.id), job.next);
            var c' := C.Begin(w.cache, s, op, id);
            && s !in w.cache.sessions && JobOk(c', j, job) && Session(c', j, job.next, id)
            && SessionPc(c', j, job.next) == C.StartPc(op)
  {
    var s := C.Sid(C.JobRun(j.round, j.id), job.next);
    assert s in w.cache.sessions ==> OwnerOk(w, s);
    var c' := C.Begin(w.cache, s, op, id);
    assert forall i :: C.At(c', i) == C.At(w.cache, i);
    JobFrame(w.cache, c', j, job);
  }

  /** A step of the job alone. */
  lemma PlainInv(w: State, j: Key, w': State)
    requires Inv(w) && OneJob(w, j, w') && w'.cache == w.cache && w'.finished == w.finished
    requires w'.results == w.results && w'.wins == w.wins
    requires !w.jobs[j].pc.Reported? && !w'.jobs[j].pc.Reported? && !w'.jobs[j].pc.Store?
    requires JobOk(w'.cache, j, w'.jobs[j])
    ensures Inv(w')
  {
    OthersFrame(w, w', j);
    PlainOwners(w, j, w');
    RoundKept(w, j, w');
    ResultsKept(w, j, w');
  }

  lemma PlainOwners(w: State, j: Key, w': State)
    requires OwnerInv(w) && OneJob(w, j, w') && w'.cache == w.cache
    ensures OwnerInv(w')
  {
    forall s <- w'.cache.sessions ensures OwnerOk(w', s) {
      assert OwnerOk(w, s);
    }
  }

  lemma ChooseInv(w: State, j: Key, a: Id, w': State)
    requires Inv(w) && JobSteps(w, j, Choose(a), w')
    ensures Inv(w')
  {
    var job := w.jobs[j];
    assert JobOk(w.cache, j, job);
    OpenFrame(w, j, job, C.Get, a);
    OpenInv(w, j, job.(pc := Checking(a, job.pc.todo - {a}), cur := job.next), C.Get, a, w');
  }

  lemma AnswerInv(w: State, j: Key, ok: bool, w': State)
    requires Inv(w) && JobSteps(w, j, Answer(ok), w')
    ensures Inv(w')
  {
    var job := w.jobs[j];
    assert JobOk(w.cache, j, job);
    if !ok {
      PlainInv(w, j, w');
    } else if job.pc.Requesting? {
      DownloadInv(w, j, w');
    } else {
      OpenFrame(w, j, job, C.Create, job.spec.id);
      OpenInv(w, j, job.(pc := Starting, own := job.next), C.Create, job.spec.id, w');
    }
  }

  lemma DownloadInv(w: State, j: Key, w': State)
    requires Inv(w) && JobSteps(w, j, Answer(true), w') && w.jobs[j].pc.Requesting?
    ensures Inv(w')
  {
    var job := w.jobs[j];
    assert JobOk(w.cache, j, job);
    OpenFrame(w, j, job, C.Create, job.pc.a);
    OpenInv(w, j, job.(pc := Downloading(job.pc.a, job.pc.todo), cur := job.next), C.Create, job.pc.a, w');
  }

  lemma ExitOk(c: C.State, j: Key, job: Job, ok: bool, code: int)
    requires JobOk(c, j, job) && job.pc.Commands?
    ensures JobOk(c, j, job.(pc := if ok then Unlocking(0) else Discarding, code := code))
  {
  }

  lemma ExitInv(w: State, j: Key, ok: bool, code: int, w': State)
    requires Inv(w) && JobSteps(w, j, Exit(ok, code), w')
    ensures Inv(w')
  {
    ExitOk(w.cache, j, w.jobs[j], ok, code);
    PlainInv(w, j, w');
  }

  /** Everything is fetched, so every dependency is settled: `downloadArtifacts` has done its part. */
  lemma ProceedOk(c: C.State, j: Key, job: Job, pc: JobPc)
    requires JobOk(c, j, job)
    requires (job.pc.Load? && pc == Fetch(job.spec.artifacts.Keys)) || (job.pc == Fetch({}) && pc == Files)
          || (job.pc.Deps? && |job.held| == |job.spec.deps| && pc == Commands)
    ensures JobOk(c, j, job.(pc := pc))
  {
  }

  lemma ReportOk(c: C.State, j: Key, job: Job, res: JobResult)
    requires JobOk(c, j, job) && res.id == j.id && (job.held == [] || job.pc == Report(res))
    ensures JobOk(c, j, job.(pc := Report(res))) && JobOk(c, j, job.(pc := Reported(res)))
  {
  }

  lemma ProceedInv(w: State, j: Key, w': State)
    requires Inv(w) && JobSteps(w, j, Proceed, w')
    ensures Inv(w')
  {
    var job := w.jobs[j];
    assert w' == Proceeding(w, j, job);
    match job.pc
    case Store(res) => StoreInv(w, j, res, w');
    case Report(res) => ReportInv(w, j, res, w');
    case Load => LoadInv(w, j, w');
    case Fetch(_) => ThroughInv(w, j, Files, w');
    case Deps => DepsInv(w, j, w');
    case _ =>
  }

  lemma ThroughInv(w: State, j: Key, pc: JobPc, w': State)
    requires Inv(w) && j in w.jobs && w' == w.(jobs := w.jobs[j := w.jobs[j].(pc := pc)])
    requires var job := w.jobs[j];
             (job.pc == Fetch({}) && pc == Files) || (job.pc.Deps? && |job.held| == |job.spec.deps| && pc == Commands)
    ensures Inv(w')
  {
    ProceedOk(w.cache, j, w.jobs[j], pc);
    PlainInv(w, j, w');
  }

  lemma DepsInv(w: State, j: Key, w': State)
    requires Inv(w) && j in w.jobs && w.jobs[j].pc.Deps? && w' == Proceeding(w, j, w.jobs[j])
    ensures Inv(w')
  {
    assert JobOk(w.cache, j, w.jobs[j]);
    if |w.jobs[j].held| < |w.jobs[j].spec.deps| {
      OpenDep(w, j, w');
    } else {
      ThroughInv(w, j, Commands, w');
    }
  }

  lemma LoadInv(w: State, j: Key, w': State)
    requires Inv(w) && j in w.jobs && w.jobs[j].pc.Load? && w' == Proceeding(w, j, w.jobs[j])
    ensures Inv(w')
  {
    if j.id in w.results {
      ReportOk(w.cache, j, w.jobs[j], w.results[j.id]);
    } else {
      ProceedOk(w.cache, j, w.jobs[j], Fetch(w.jobs[j].spec.artifacts.Keys));
    }
    PlainInv(w, j, w');
  }

  lemma OpenDep(w: State, j: Key, w': State)
    requires Inv(w) && j in w.jobs && w.jobs[j].pc.Deps? && |w.jobs[j].held| < |w.jobs[j].spec.deps|
    requires w' == Proceeding(w, j, w.jobs[j])
    ensures Inv(w')
  {
    var job := w.jobs[j];
    var dep := job.spec.deps[|job.held|];
    OpenFrame(w, j, job, C.Get, dep);
    assert OwnerOk(w, C.Sid(C.JobRun(j.round, j.id), job.own));
    OpenDepOk(w'.cache, j, job);
    OpenInv(w, j, job.(pc := Opening, cur := job.next), C.Get, dep, w');
  }

  lemma OpenDepOk(c: C.State, j: Key, job: Job)
    requires JobOk(c, j, job) && job.pc.Deps? && |job.held| < |job.spec.deps| && job.own < job.next
    requires Session(c, j, job.next, job.spec.deps[|job.held|]) && SessionPc(c, j, job.next).GetStart?
    ensures JobOk(c, j, job.(pc := Opening, cur := job.next, next := job.next + 1))
  {
  }

  lemma StoreInv(w: State, j: Key, res: JobResult, w': State)
    requires Inv(w) && j in w.jobs && w.jobs[j].pc == Store(res)
    requires w' == w.(results := w.results[j.id := res], jobs := w.jobs[j := w.jobs[j].(pc := Report(res))])
    ensures Inv(w')
  {
    assert JobOk(w.cache, j, w.jobs[j]);
    ReportOk(w.cache, j, w.jobs[j], res);
    OthersFrame(w, w', j);
    PlainOwners(w, j, w');
    RoundKept(w, j, w');
    StoreResults(w, j, res, w');
  }

  lemma StoreResults(w: State, j: Key, res: JobResult, w': State)
    requires JobsInv(w) && ResultInv(w) && j in w.jobs && w.jobs[j].pc == Store(res)
    requires w' == w.(results := w.results[j.id := res], jobs := w.jobs[j := w.jobs[j].(pc := Report(res))])
    ensures ResultInv(w')
  {
    assert JobOk(w.cache, j, w.jobs[j]);
    forall k <- w'.jobs | w'.jobs[k].pc.Store? ensures k.id !in w'.results {
      assert k.round == w.round == j.round;
    }
  }

  lemma ReportInv(w: State, j: Key, res: JobResult, w': State)
    requires Inv(w) && j in w.jobs && w.jobs[j].pc == Report(res)
    requires w' == w.(finished := w.finished + [res], jobs := w.jobs[j := w.jobs[j].(pc := Reported(res))])
    ensures Inv(w')
  {
    assert JobOk(w.cache, j, w.jobs[j]);
    ReportOk(w.cache, j, w.jobs[j], res);
    NotReported(w, j);
    OthersFrame(w, w', j);
    PlainOwners(w, j, w');
    ReportRound(w, j, res, w');
    ResultsKept(w, j, w');
  }

  lemma ReportRound(w: State, j: Key, res: JobResult, w': State)
    requires RoundInv(w) && OneJob(w, j, w') && w'.finished == w.finished + [res]
    requires j.round == w.round && j.id !in ReportedIds(w) && w'.jobs[j].pc.Reported? && res.id == j.id
    ensures RoundInv(w')
  {
    assert RoundIds(w') == RoundIds(w);
    assert ReportedIds(w') == ReportedIds(w) + {j.id};
    OneMore(w.finished, ReportedIds(w), res);
  }

  lemma OneMore(rs: seq<JobResult>, ids: set<Id>, res: JobResult)
    requires OneEach(rs, ids) && res.id !in ids
    ensures OneEach(rs + [res], ids + {res.id})
  {
    forall id <- ids + {res.id} ensures exists i :: 0 <= i < |rs + [res]| && (rs + [res])[i].id == id {
      if id == res.id {
        assert (rs + [res])[|rs|].id == id;
      } else {
        var i :| 0 <= i < |rs| && rs[i].id == id;
        assert (rs + [res])[i].id == id;
      }
    }
  }

  // ---- Guests and heartbeats ----

  lemma GuestsFrame(w: State, s: C.Sid, w': State)
    requires Inv(w) && s.owner.Guest? && C.Inv(w'.cache) && Grows(w.cache, w'.cache)
    requires w' == w.(cache := w'.cache) && s in w'.cache.sessions
    requires w'.cache.sessions == w.cache.sessions[s := w'.cache.sessions[s]] && !RemoverPc(C.PcAt(w'.cache, s))
    ensures Inv(w')
  {
    forall k <- w'.jobs ensures JobOk(w'.cache, k, w'.jobs[k]) {
      JobFrame(w.cache, w'.cache, k, w.jobs[k]);
    }
    forall t <- w'.cache.sessions ensures OwnerOk(w', t) {
      assert t != s ==> OwnerOk(w, t);
    }
    assert ReportedIds(w') == ReportedIds(w);
    assert RoundIds(w') == RoundIds(w);
  }

  lemma GuestInv(w: State, s: C.Sid, w': State)
    requires Inv(w) && ((exists id :: GuestBegins(w, s, id, w')) || (exists a :: GuestSteps(w, s, a, w')))
    ensures Inv(w')
  {
    if id :| GuestBegins(w, s, id, w') {
      CP.BeginInv(w.cache, s, C.Get, id);
      assert forall i :: C.At(w'.cache, i) == C.At(w.cache, i);
    } else {
      var a :| GuestSteps(w, s, a, w');
      assert OwnerOk(w, s);
      StepDrives(w.cache, s, a);
    }
    GuestsFrame(w, s, w');
  }

  lemma HeartbeatView(w: State, response: map<Id, JobSpec>, w': State)
    requires JobsInv(w) && Heartbeat(w, response, w')
    ensures forall j <- w.jobs :: j in w'.jobs && w'.jobs[j] == w.jobs[j]
    ensures forall j <- w'.jobs :: j in w.jobs || (j.round == w'.round && j.id in response)
    ensures forall j <- w'.jobs :: j !in w.jobs ==>
              w'.jobs[j] == Job(response[j.id], Load, 0, 0, 0, [], 0)
  {
  }

  lemma HeartbeatJobs(w: State, response: map<Id, JobSpec>, w': State)
    requires JobsInv(w) && Heartbeat(w, response, w')
    ensures JobsInv(w')
  {
    HeartbeatView(w, response, w');
    forall j <- w'.jobs ensures j.round <= w'.round && JobOk(w'.cache, j, w'.jobs[j]) {
      if j in w.jobs {
        assert JobOk(w.cache, j, w.jobs[j]);
      }
    }
  }

  lemma HeartbeatOwners(w: State, response: map<Id, JobSpec>, w': State)
    requires JobsInv(w) && OwnerInv(w) && Heartbeat(w, response, w')
    ensures OwnerInv(w')
  {
    HeartbeatView(w, response, w');
    forall s <- w'.cache.sessions ensures OwnerOk(w', s) {
      assert OwnerOk(w, s);
    }
  }

  /** All jobs have reported, so the results to send are one for each assignment of the last answer. */
  lemma FinishedAll(w: State)
    requires RoundInv(w) && forall j <- w.jobs :: w.jobs[j].pc.Reported?
    ensures OneEach(w.finished, RoundIds(w)) && (w.round == 0 ==> w.finished == [])
  {
    assert ReportedIds(w) == RoundIds(w);
    assert w.finished != [] ==> w.finished[0].id in ReportedIds(w);
  }

  lemma HeartbeatIds(w: State, response: map<Id, JobSpec>, w': State)
    requires JobsInv(w) && Heartbeat(w, response, w')
    ensures RoundIds(w') == response.Keys && ReportedIds(w') == {}
  {
    HeartbeatView(w, response, w');
    forall id <- response ensures id in RoundIds(w') {
      assert Key(w'.round, id) in w'.jobs;
    }
  }

  lemma HeartbeatRound(w: State, response: map<Id, JobSpec>, w': State)
    requires RoundInv(w) && JobsInv(w) && Heartbeat(w, response, w')
    ensures RoundInv(w')
  {
    FinishedAll(w);
    HeartbeatIds(w, response, w');
    forall n | 0 < n < w'.round ensures OneEach(w'.sent[n], w'.given[n - 1]) {
      assert n < w.round ==> w'.sent[n] == w.sent[n] && w'.given[n - 1] == w.given[n - 1];
    }
  }

  lemma HeartbeatResults(w: State, response: map<Id, JobSpec>, w': State)
    requires ResultInv(w) && Heartbeat(w, response, w')
    requires forall j <- w'.jobs :: !w'.jobs[j].pc.Store?
    ensures ResultInv(w')
  {
  }

  lemma HeartbeatInv(w: State, response: map<Id, JobSpec>, w': State)
    requires Inv(w) && Heartbeat(w, response, w')
    ensures Inv(w')
  {
    HeartbeatView(w, response, w');
    HeartbeatJobs(w, response, w');
    HeartbeatOwners(w, response, w');
    HeartbeatRound(w, response, w');
    HeartbeatResults(w, response, w');
  }

  lemma NextInv(w: State, w': State)
    requires Inv(w) && Next(w, w')
    ensures Inv(w')
  {
    if response :| Heartbeat(w, response, w') {
      HeartbeatInv(w, response, w');
    } else if j, ja :| JobSteps(w, j, ja, w') {
      match ja
      case Proceed => ProceedInv(w, j, w');
      case Choose(a) => ChooseInv(w, j, a, w');
      case Answer(ok) => AnswerInv(w, j, ok, w');
      case Exit(ok, code) => ExitInv(w, j, ok, code, w');
      case Drive(act) => DriveInv(w, j, act, w');
    } else if s, id :| GuestBegins(w, s, id, w') {
      GuestInv(w, s, w');
    } else {
      var s, a :| GuestSteps(w, s, a, w');
      GuestInv(w, s, w');
    }
  }

  lemma InitInv(w: State)
    requires Init(w)
    ensures Inv(w)
  {
    CP.InitInv(w.cache);
    assert ReportedIds(w) == {};
    assert RoundIds(w) == {};
  }

  lemma {:induction false} RunInv(tr: seq<State>, i: nat)
    requires Run(tr) && i < |tr|
    ensures Inv(tr[i])
  {
    if i == 0 {
      InitInv(tr[0]);
    } else {
      RunInv(tr, i - 1);
      assert Next(tr[i - 1], tr[i - 1 + 1]);
      NextInv(tr[i - 1], tr[i]);
    }
  }
}
