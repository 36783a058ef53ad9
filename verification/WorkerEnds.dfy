/** How a job comes to its end: what the world outside may answer it, and how many steps it takes at most. */
module WorkerEnds {
  import opened Basics
  import opened ArtifactCell
  import opened SchedulerLog
  import opened WorkerMachine
  import opened WorkerProofs
  import opened WorkerTheorems
  import opened WorkerLocks
  import opened WorkerReports
  import C = CacheMachine
  import CP = CacheProofs
  import CO = CacheOutcomes

  // ---- What may happen at each point ----

  /**
   The network, the file cache and the commands may answer anything; a download may receive anything, end
   well or break off; and the artifacts that are left to fetch may come in any order.
   */
  lemma WorldMayAnswer(tr: seq<State>, i: nat, j: Key, d: Dir)
    requires Run(tr) && i < |tr| && j in tr[i].jobs
    ensures var w, pc := tr[i], tr[i].jobs[j].pc;
            && (pc.Commands? ==>
                  JobEnabled(w, j, Drive(C.Fill(d))) && forall ok, code :: JobEnabled(w, j, Exit(ok, code)))
            && (pc.Requesting? || pc.Files? ==> forall ok :: JobEnabled(w, j, Answer(ok)))
            && (pc.Receiving? ==>
                  && JobEnabled(w, j, Drive(C.Fill(d))) && JobEnabled(w, j, Drive(C.Commit))
                  && JobEnabled(w, j, Drive(C.Abort)))
            && (pc.Fetch? ==>
                  && (forall a :: JobEnabled(w, j, Choose(a)) <==> a in pc.todo)
                  && (JobEnabled(w, j, Proceed) <==> pc.todo == {}))
  {
    RunInv(tr, i);
    var w := tr[i];
    assert JobOk(w.cache, j, w.jobs[j]);
    if w.jobs[j].pc.Commands? || w.jobs[j].pc.Receiving? {
      CP.OwnView(w.cache, SessionOf(j, w.jobs[j]));
    }
  }

  /**
   In any state, reachable or not, the step that panics is the one that has opened a dependency and been
   told that it is locked for writing or missing; `WorkerTheorems.NeverPanics` says that it never is.
   */
  lemma PanicIff(w: State, j: Key, ja: JobAction, w': State)
    requires JobSteps(w, j, ja, w')
    requires w.jobs[j].pc.Opening? ==>
               && Session(w.cache, j, w.jobs[j].cur, C.IdAt(w.cache, SessionOf(j, w.jobs[j])))
               && var pc := SessionPc(w.cache, j, w.jobs[j].cur);
                  pc.GetStart? || pc.GetLocked? || pc.GetMissing?
    ensures j in w'.jobs
    ensures w'.jobs[j].pc.Panicked? <==>
            && w.jobs[j].pc.Opening?
            && var pc := SessionPc(w.cache, j, w.jobs[j].cur);
               pc.GetMissing? || (pc.GetStart? && C.At(w.cache, C.IdAt(w.cache, SessionOf(j, w.jobs[j]))).write)
  {
  }

  // ---- Every job ends ----

  /** The steps from the source files to the report. */
  function AfterFetching(deps: nat): nat {
    4 * deps + 11
  }

  /** The steps from the next choice of an artifact on. */
  function Fetching(todo: set<Id>, deps: nat): nat {
    11 * |todo| + AfterFetching(deps) + 1
  }

  function Less(n: nat, k: nat): nat {
    if n > k then n - k else 0
  }

  /** How many steps there are left at a point of `runJob`, if the session in use has `left` of them. */
  function Ahead(job: Job, left: nat): nat {
    var deps, held := |job.spec.deps|, |job.held|;
    match job.pc
    case Load => 11 * |job.spec.artifacts| + AfterFetching(deps) + 2
    case Fetch(todo) => Fetching(todo, deps)
    case Checking(_, todo) => Fetching(todo, deps) + 7 + left
    case Checked(_, todo) => Fetching(todo, deps) + 1
    case Requesting(_, todo) => Fetching(todo, deps) + 7
    case Downloading(_, todo) => Fetching(todo, deps) + Less(left, 1)
    case Receiving(_, todo) => Fetching(todo, deps) + 2
    case Committing(_, todo) => Fetching(todo, deps) + 1
    case Dropping => left + 1
    case Files => AfterFetching(deps)
    case Starting => 4 * deps + 6 + Less(left, 3)
    case Deps => 3 * Less(deps, held) + deps + 6
    case Opening => 3 * Less(deps, held + 1) + deps + 6 + Less(left, 1)
    case Commands => deps + 5
    case Unlocking(k) => Less(held, k) + 4
    case Publishing => left + 2
    case Discarding => left + 1
    case Store(_) => 2
    case Report(_) => 1
    case Reported(_) => 0
    case Panicked => 0
  }

  function SessionLeft(w: State, j: Key): nat
    requires j in w.jobs
  {
    if SessionOf(j, w.jobs[j]) in w.cache.sessions then CO.Left(C.PcAt(w.cache, SessionOf(j, w.jobs[j]))) else 0
  }

  function StepsLeft(w: State, j: Key): nat
    requires j in w.jobs
  {
    Ahead(w.jobs[j], SessionLeft(w, j))
  }

  /** Filling a directory, and deleting single paths. */
  predicate Bulk(ja: JobAction) {
    ja.Drive? && CO.Bulk(ja.act)
  }

  /** A cache step of a job brings it nearer to its end, if the step brings its session nearer to its own. */
  predicate Nearer(j: Key, job: Job, act: C.Action, p: C.Pc, q: C.Pc) {
    var turn := if CO.Bulk(act) then 0 else 1;
    CO.Left(p) >= CO.Left(q) + turn ==> Ahead(job, CO.Left(p)) >= Ahead(After(j, job, act, q), CO.Left(q)) + turn
  }

  lemma FetchAhead(c: C.State, j: Key, job: Job, act: C.Action, c': C.State)
    requires JobDriven(c, j, job, act, c') && (job.pc.Checking? || job.pc.Checked? || job.pc.Downloading?)
    ensures Nearer(j, job, act, C.PcAt(c, SessionOf(j, job)), C.PcAt(c', SessionOf(j, job)))
  {
  }

  lemma ReceiveAhead(c: C.State, j: Key, job: Job, act: C.Action, c': C.State)
    requires JobDriven(c, j, job, act, c')
    requires job.pc.Receiving? || job.pc.Committing? || job.pc.Dropping? || job.pc.Starting?
    ensures Nearer(j, job, act, C.PcAt(c, SessionOf(j, job)), C.PcAt(c', SessionOf(j, job)))
  {
  }

  lemma ExecuteAhead(c: C.State, j: Key, job: Job, act: C.Action, c': C.State)
    requires JobDriven(c, j, job, act, c')
    requires job.pc.Opening? || job.pc.Commands? || job.pc.Unlocking? || job.pc.Publishing? || job.pc.Discarding?
    ensures Nearer(j, job, act, C.PcAt(c, SessionOf(j, job)), C.PcAt(c', SessionOf(j, job)))
  {
  }

  /** Points at which it matters how far the session in use has come. */
  predicate CountsSession(pc: JobPc) {
    || pc.Checking? || pc.Downloading? || pc.Dropping? || pc.Starting? || pc.Opening?
    || pc.Publishing? || pc.Discarding?
  }

  lemma SameSession(c: C.State, j: Key, job: Job, act: C.Action, q: C.Pc)
    requires JobOk(c, j, job) && Drives(job, act) && CountsSession(After(j, job, act, q).pc)
    ensures SessionOf(j, After(j, job, act, q)) == SessionOf(j, job)
  {
  }

  /** What is left of a job after its cache step, in terms of the session that took it. */
  lemma LeftAfter(w: State, j: Key, act: C.Action, w': State)
    requires j in w.jobs && JobDriven(w.cache, j, w.jobs[j], act, w'.cache)
    requires j in w'.jobs && w'.jobs[j] == After(j, w.jobs[j], act, C.PcAt(w'.cache, SessionOf(j, w.jobs[j])))
    ensures var q := C.PcAt(w'.cache, SessionOf(j, w.jobs[j]));
            StepsLeft(w', j) == Ahead(After(j, w.jobs[j], act, q), CO.Left(q))
  {
    if CountsSession(w'.jobs[j].pc) {
      SameSession(w.cache, j, w.jobs[j], act, C.PcAt(w'.cache, SessionOf(j, w.jobs[j])));
    }
  }

  lemma DriveAhead(w: State, j: Key, act: C.Action, w': State)
    requires Inv(w) && JobSteps(w, j, Drive(act), w')
    ensures j in w'.jobs && StepsLeft(w, j) >= StepsLeft(w', j) + if CO.Bulk(act) then 0 else 1
  {
    var s := SessionOf(j, w.jobs[j]);
    DriveSteps(w, j, act, w');
    LeftAfter(w, j, act, w');
    CO.LocalLeft(C.PcAt(w.cache, s), C.At(w.cache, C.IdAt(w.cache, s)), act);
    DriveNearer(w.cache, j, w.jobs[j], act, w'.cache);
  }

  lemma DriveNearer(c: C.State, j: Key, job: Job, act: C.Action, c': C.State)
    requires JobDriven(c, j, job, act, c')
    ensures Nearer(j, job, act, C.PcAt(c, SessionOf(j, job)), C.PcAt(c', SessionOf(j, job)))
  {
    var pc := job.pc;
    if pc.Checking? || pc.Checked? || pc.Downloading? {
      FetchAhead(c, j, job, act, c');
    } else if pc.Receiving? || pc.Committing? || pc.Dropping? || pc.Starting? {
      ReceiveAhead(c, j, job, act, c');
    } else {
      ExecuteAhead(c, j, job, act, c');
    }
  }

  /** A new session is the one that the job will drive next. */
  lemma OpenAhead(w: State, j: Key, job: Job, op: C.Op, id: Id, w': State)
    requires j in w.jobs && w' == Open(w, j, job, op, id)
    requires CountsSession(job.pc) && SessionOf(j, job.(next := job.next + 1)).index == job.next
    ensures j in w'.jobs && StepsLeft(w', j) == Ahead(job, CO.Left(C.StartPc(op)))
  {
  }

  lemma ChooseAhead(w: State, j: Key, a: Id, w': State)
    requires JobSteps(w, j, Choose(a), w')
    ensures j in w'.jobs && StepsLeft(w, j) >= StepsLeft(w', j) + 1
  {
    var job := w.jobs[j];
    OpenAhead(w, j, job.(pc := Checking(a, job.pc.todo - {a}), cur := job.next), C.Get, a, w');
  }

  lemma AnswerAhead(w: State, j: Key, ok: bool, w': State)
    requires JobSteps(w, j, Answer(ok), w')
    ensures j in w'.jobs && StepsLeft(w, j) >= StepsLeft(w', j) + 1
  {
    var job := w.jobs[j];
    if !ok {
      assert StepsLeft(w', j) == 1;
    } else if job.pc.Requesting? {
      OpenAhead(w, j, job.(pc := Downloading(job.pc.a, job.pc.todo), cur := job.next), C.Create, job.pc.a, w');
    } else {
      OpenAhead(w, j, job.(pc := Starting, own := job.next), C.Create, job.spec.id, w');
    }
  }

  lemma ExitAhead(w: State, j: Key, ok: bool, code: int, w': State)
    requires JobSteps(w, j, Exit(ok, code), w') && JobOk(w.cache, j, w.jobs[j])
    ensures j in w'.jobs && StepsLeft(w, j) >= StepsLeft(w', j) + 1
  {
  }

  lemma DepsAhead(w: State, j: Key, w': State)
    requires JobSteps(w, j, Proceed, w') && w.jobs[j].pc.Deps?
    ensures j in w'.jobs && StepsLeft(w, j) >= StepsLeft(w', j) + 1
  {
    var job := w.jobs[j];
    if |job.held| < |job.spec.deps| {
      OpenAhead(w, j, job.(pc := Opening, cur := job.next), C.Get, job.spec.deps[|job.held|], w');
    }
  }

  lemma LoadAhead(w: State, j: Key, w': State)
    requires JobSteps(w, j, Proceed, w') && w.jobs[j].pc.Load?
    ensures j in w'.jobs && StepsLeft(w, j) >= StepsLeft(w', j) + 1
  {
    assert |w.jobs[j].spec.artifacts| == |w.jobs[j].spec.artifacts.Keys|;
  }

  lemma ThroughAhead(w: State, j: Key, w': State)
    requires JobSteps(w, j, Proceed, w') && (w.jobs[j].pc.Fetch? || w.jobs[j].pc.Store? || w.jobs[j].pc.Report?)
    ensures j in w'.jobs && StepsLeft(w, j) >= StepsLeft(w', j) + 1
  {
    assert w' == Proceeding(w, j, w.jobs[j]);
  }

  lemma ProceedAhead(w: State, j: Key, w': State)
    requires JobSteps(w, j, Proceed, w')
    ensures j in w'.jobs && StepsLeft(w, j) >= StepsLeft(w', j) + 1
  {
    match w.jobs[j].pc
    case Load => LoadAhead(w, j, w');
    case Deps => DepsAhead(w, j, w');
    case _ => ThroughAhead(w, j, w');
  }

  /** Other steps than those of the cache. */
  lemma TurnAhead(w: State, j: Key, ja: JobAction, w': State)
    requires JobSteps(w, j, ja, w') && !ja.Drive? && JobOk(w.cache, j, w.jobs[j])
    ensures j in w'.jobs && StepsLeft(w, j) >= StepsLeft(w', j) + 1
  {
    match ja
    case Proceed => ProceedAhead(w, j, w');
    case Choose(a) => ChooseAhead(w, j, a, w');
    case Answer(ok) => AnswerAhead(w, j, ok, w');
    case Exit(ok, code) => ExitAhead(w, j, ok, code, w');
  }

  lemma StepAhead(w: State, j: Key, ja: JobAction, w': State)
    requires Inv(w) && JobSteps(w, j, ja, w')
    ensures j in w'.jobs && StepsLeft(w, j) >= StepsLeft(w', j) + if Bulk(ja) then 0 else 1
  {
    if ja.Drive? {
      DriveAhead(w, j, ja.act, w');
    } else {
      assert JobOk(w.cache, j, w.jobs[j]);
      TurnAhead(w, j, ja, w');
    }
  }

  ghost predicate Turns(w: State, j: Key, w': State) {
    exists ja :: JobSteps(w, j, ja, w') && !Bulk(ja)
  }

  lemma NextAhead(w: State, j: Key, w': State)
    requires Inv(w) && Next(w, w') && j in w.jobs
    ensures j in w'.jobs && StepsLeft(w, j) >= StepsLeft(w', j) + if Turns(w, j, w') then 1 else 0
  {
    if ja :| JobSteps(w, j, ja, w') && !Bulk(ja) {
      StepAhead(w, j, ja, w');
    } else if ja :| JobSteps(w, j, ja, w') {
      StepAhead(w, j, ja, w');
    } else {
      OthersKept(w, w', j);
      OthersSessions(w, j, w');
    }
  }

  lemma ProceedSessions(w: State, i: Key, w': State)
    requires JobSteps(w, i, Proceed, w')
    ensures forall s :: !OwnedBy(s, i) ==>
              (s in w'.cache.sessions <==> s in w.cache.sessions)
              && (s in w.cache.sessions ==> w'.cache.sessions[s] == w.cache.sessions[s])
  {
    assert w' == Proceeding(w, i, w.jobs[i]);
  }

  /** A job's step leaves the sessions of all others as they are. */
  lemma OwnSessionsOnly(w: State, i: Key, ja: JobAction, w': State)
    requires JobSteps(w, i, ja, w')
    ensures forall s :: !OwnedBy(s, i) ==>
              (s in w'.cache.sessions <==> s in w.cache.sessions)
              && (s in w.cache.sessions ==> w'.cache.sessions[s] == w.cache.sessions[s])
  {
    match ja
    case Drive(act) => DriveView(w, i, act, w');
    case Proceed => ProceedSessions(w, i, w');
    case _ =>
  }

  /** Nobody else moves the sessions of a job. */
  lemma OthersSessions(w: State, j: Key, w': State)
    requires Inv(w) && Next(w, w') && j in w.jobs && !exists ja :: JobSteps(w, j, ja, w')
    ensures forall s :: OwnedBy(s, j) ==>
              (s in w'.cache.sessions <==> s in w.cache.sessions)
              && (s in w.cache.sessions ==> w'.cache.sessions[s] == w.cache.sessions[s])
  {
    if i, ja :| JobSteps(w, i, ja, w') {
      assert i != j;
      OwnSessionsOnly(w, i, ja, w');
    } else if response :| Heartbeat(w, response, w') {
      assert w'.cache == w.cache;
    } else {
      GuestSessionsOnly(w, w');
    }
  }

  lemma GuestSessionsOnly(w: State, w': State)
    requires (exists s, id :: GuestBegins(w, s, id, w')) || (exists s, a :: GuestSteps(w, s, a, w'))
    ensures forall s: C.Sid :: !s.owner.Guest? ==>
              (s in w'.cache.sessions <==> s in w.cache.sessions)
              && (s in w.cache.sessions ==> w'.cache.sessions[s] == w.cache.sessions[s])
  {
  }

  /** How many steps a job has taken from state `i` to state `k`, apart from filling and deleting. */
  ghost function Taken(tr: seq<State>, j: Key, i: nat, k: nat): nat
    requires i <= k < |tr|
    decreases k
  {
    if i == k then 0 else Taken(tr, j, i, k - 1) + if Turns(tr[k - 1], j, tr[k]) then 1 else 0
  }

  ghost predicate KeepsAhead(tr: seq<State>, j: Key, i: nat, k: nat)
    requires i <= k && k + 1 < |tr|
  {
    j in tr[k].jobs ==>
      && j in tr[k + 1].jobs
      && Taken(tr, j, i, k + 1) + StepsLeft(tr[k + 1], j) <= Taken(tr, j, i, k) + StepsLeft(tr[k], j)
  }

  lemma RunAhead(tr: seq<State>, j: Key, i: nat, k: nat)
    requires Run(tr) && i <= k && k + 1 < |tr|
    ensures KeepsAhead(tr, j, i, k)
  {
    RunInv(tr, k);
    if j in tr[k].jobs {
      NextAhead(tr[k], j, tr[k + 1]);
    }
  }

  lemma {:induction false} AheadChain(tr: seq<State>, j: Key, i: nat, k: nat)
    requires i <= k < |tr| && j in tr[i].jobs
    requires forall n :: i <= n < k ==> KeepsAhead(tr, j, i, n)
    ensures j in tr[k].jobs && Taken(tr, j, i, k) + StepsLeft(tr[k], j) <= StepsLeft(tr[i], j)
    decreases k
  {
    if i < k {
      AheadChain(tr, j, i, k - 1);
      assert KeepsAhead(tr, j, i, k - 1);
    }
  }

  /** Only a job that has reported has no step left. */
  lemma NoneLeft(w: State, j: Key)
    requires Inv(w) && j in w.jobs && StepsLeft(w, j) == 0
    ensures w.jobs[j].pc.Reported?
  {
    assert JobOk(w.cache, j, w.jobs[j]);
  }

  /**
   Whatever the other jobs and the guests do, a job takes eleven steps for each artifact, four for each
   dependency and thirteen more at most, apart from filling directories and deleting single paths; once it
   has taken them all, it has reported.
   */
  lemma JobEnds(tr: seq<State>, j: Key, i: nat, k: nat)
    requires Run(tr) && i <= k < |tr| && j in tr[i].jobs && tr[i].jobs[j].pc.Load?
    ensures var most := 11 * |tr[i].jobs[j].spec.artifacts| + 4 * |tr[i].jobs[j].spec.deps| + 13;
            && j in tr[k].jobs && Taken(tr, j, i, k) <= most
            && (Taken(tr, j, i, k) == most ==> tr[k].jobs[j].pc.Reported?)
  {
    forall n | i <= n < k ensures KeepsAhead(tr, j, i, n) {
      RunAhead(tr, j, i, n);
    }
    AheadChain(tr, j, i, k);
    RunInv(tr, k);
    if StepsLeft(tr[k], j) == 0 {
      NoneLeft(tr[k], j);
    }
  }
}
