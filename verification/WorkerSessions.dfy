/** Which cache sessions a job may leave unfinished, at every point of every run. */
module WorkerSessions {
  import opened Basics
  import opened ArtifactCell
  import opened SchedulerLog
  import opened WorkerMachine
  import opened WorkerProofs
  import C = CacheMachine
  import CP = CacheProofs

  /** Does the job have a cache step to take? */
  predicate Driving(pc: JobPc) {
    || pc.Checking? || pc.Checked? || pc.Downloading? || pc.Receiving? || pc.Committing? || pc.Dropping?
    || pc.Starting? || pc.Opening? || pc.Commands? || pc.Unlocking? || pc.Publishing? || pc.Discarding?
  }

  /** A session that is not over is the current one, the job's own writer, or one of its dependency readers. */
  predicate InUse(j: Key, job: Job, index: nat, pc: C.Pc) {
    || pc.Done?
    || (Driving(job.pc) && index == SessionOf(j, job).index)
    || (pc.Writing? && index == job.own && (job.pc.Deps? || job.pc.Opening? || job.pc.Unlocking?))
    || (pc.Reading? && index in if job.pc.Unlocking? && job.pc.k <= |job.held| then job.held[job.pc.k..] else job.held)
  }

  ghost predicate UseOk(c: C.State, j: Key, job: Job) {
    forall s <- c.sessions :: s.owner == C.JobRun(j.round, j.id) ==> InUse(j, job, s.index, C.PcAt(c, s))
  }

  ghost predicate UseInv(w: State) {
    forall j <- w.jobs :: UseOk(w.cache, j, w.jobs[j])
  }

  /** The stepping session is over or in use, and the others are as much in use as before. */
  lemma DriveUse(c: C.State, j: Key, job: Job, act: C.Action, c': C.State)
    requires JobDriven(c, j, job, act, c')
    ensures var s := SessionOf(j, job);
            var job' := After(j, job, act, C.PcAt(c', s));
            && InUse(j, job', s.index, C.PcAt(c', s))
            && forall index, pc :: InUse(j, job, index, pc) && index != s.index ==> InUse(j, job', index, pc)
  {
    if job.pc.Unlocking? {
      UnlockUse(c, j, job, act, c');
    }
  }

  lemma UnlockUse(c: C.State, j: Key, job: Job, act: C.Action, c': C.State)
    requires JobDriven(c, j, job, act, c') && job.pc.Unlocking?
    ensures var s := SessionOf(j, job);
            var job' := After(j, job, act, C.PcAt(c', s));
            && InUse(j, job', s.index, C.PcAt(c', s))
            && forall index, pc :: InUse(j, job, index, pc) && index != s.index ==> InUse(j, job', index, pc)
  {
  }

  // ---- Preservation ----

  lemma UsesKept(w: State, j: Key, w': State)
    requires UseInv(w) && OneJob(w, j, w') && UseOk(w'.cache, j, w'.jobs[j])
    requires forall s <- w'.cache.sessions :: !OwnedBy(s, j) ==>
               s in w.cache.sessions && w'.cache.sessions[s] == w.cache.sessions[s]
    ensures UseInv(w')
  {
    forall k <- w'.jobs ensures UseOk(w'.cache, k, w'.jobs[k]) {
      assert UseOk(w.cache, k, w.jobs[k]);
    }
  }

  lemma DriveUses(w: State, j: Key, act: C.Action, w': State)
    requires Inv(w) && UseInv(w) && JobSteps(w, j, Drive(act), w')
    ensures UseInv(w')
  {
    var s := SessionOf(j, w.jobs[j]);
    assert OwnerOk(w, s);
    StepDrives(w.cache, s, act);
    assert JobDriven(w.cache, j, w.jobs[j], act, w'.cache);
    DriveUse(w.cache, j, w.jobs[j], act, w'.cache);
    DriveView(w, j, act, w');
    assert UseOk(w.cache, j, w.jobs[j]);
    UsesKept(w, j, w');
  }

  /** A step of the job by itself, or one that begins the session it will drive next. */
  ghost predicate Turns(c: C.State, j: Key, job: Job, c': C.State, job': Job) {
    && (!Driving(job.pc) || job.pc.Commands?) && job'.held == job.held
    && (job.pc.Deps? ==> job'.own == job.own && (job'.pc.Opening? || job'.pc.Commands?))
    && (if job.pc.Commands? then job'.own == job.own && (job'.pc == Unlocking(0) || job'.pc.Discarding?)
        else !job'.pc.Unlocking?)
    && forall s <- c'.sessions :: OwnedBy(s, j) ==>
         || (s in c.sessions && C.PcAt(c', s) == C.PcAt(c, s))
         || (Driving(job'.pc) && s == SessionOf(j, job'))
  }

  lemma TurnView(w: State, j: Key, ja: JobAction, w': State)
    requires JobSteps(w, j, ja, w') && !ja.Drive?
    ensures OneJob(w, j, w') && Turns(w.cache, j, w.jobs[j], w'.cache, w'.jobs[j])
  {
    if ja.Proceed? {
      ProceedView(w, j, w');
    }
  }

  lemma ProceedView(w: State, j: Key, w': State)
    requires JobSteps(w, j, Proceed, w')
    ensures OneJob(w, j, w') && Turns(w.cache, j, w.jobs[j], w'.cache, w'.jobs[j])
  {
    assert w' == Proceeding(w, j, w.jobs[j]);
  }

  lemma TurnOthers(w: State, j: Key, ja: JobAction, w': State)
    requires JobSteps(w, j, ja, w') && !ja.Drive?
    ensures forall s <- w'.cache.sessions :: !OwnedBy(s, j) ==>
              s in w.cache.sessions && w'.cache.sessions[s] == w.cache.sessions[s]
  {
  }

  lemma TurnUse(c: C.State, j: Key, job: Job, c': C.State, job': Job)
    requires JobOk(c, j, job) && UseOk(c, j, job) && Turns(c, j, job, c', job')
    ensures UseOk(c', j, job')
  {
    assert job.held[0..] == job.held;
    forall s <- c'.sessions | OwnedBy(s, j) ensures InUse(j, job', s.index, C.PcAt(c', s)) {
      if s in c.sessions && C.PcAt(c', s) == C.PcAt(c, s) {
        assert InUse(j, job, s.index, C.PcAt(c, s));
        assert s == C.Sid(C.JobRun(j.round, j.id), s.index);
      }
    }
  }

  lemma TurnUses(w: State, j: Key, ja: JobAction, w': State)
    requires Inv(w) && UseInv(w) && JobSteps(w, j, ja, w') && !ja.Drive?
    ensures UseInv(w')
  {
    assert JobOk(w.cache, j, w.jobs[j]) && UseOk(w.cache, j, w.jobs[j]);
    TurnView(w, j, ja, w');
    TurnOthers(w, j, ja, w');
    TurnUse(w.cache, j, w.jobs[j], w'.cache, w'.jobs[j]);
    UsesKept(w, j, w');
  }

  lemma NextUses(w: State, w': State)
    requires Inv(w) && UseInv(w) && Next(w, w')
    ensures UseInv(w')
  {
    if response :| Heartbeat(w, response, w') {
      HeartbeatUses(w, response, w');
    } else if j, ja :| JobSteps(w, j, ja, w') {
      if ja.Drive? {
        DriveUses(w, j, ja.act, w');
      } else {
        TurnUses(w, j, ja, w');
      }
    } else if s, id :| GuestBegins(w, s, id, w') {
      GuestUses(w, s, w');
    } else {
      var s, a :| GuestSteps(w, s, a, w');
      GuestUses(w, s, w');
    }
  }

  lemma GuestUses(w: State, s: C.Sid, w': State)
    requires UseInv(w) && s.owner.Guest? && w' == w.(cache := w'.cache) && s in w'.cache.sessions
    requires w'.cache.sessions == w.cache.sessions[s := w'.cache.sessions[s]]
    ensures UseInv(w')
  {
    forall j <- w'.jobs ensures UseOk(w'.cache, j, w'.jobs[j]) {
      assert UseOk(w.cache, j, w.jobs[j]);
    }
  }

  /** A key of the new round has no sessions yet. */
  lemma HeartbeatUses(w: State, response: map<Id, JobSpec>, w': State)
    requires Inv(w) && UseInv(w) && Heartbeat(w, response, w')
    ensures UseInv(w')
  {
    HeartbeatView(w, response, w');
    forall j <- w'.jobs ensures UseOk(w'.cache, j, w'.jobs[j]) {
      if j in w.jobs {
        assert UseOk(w.cache, j, w.jobs[j]);
      } else {
        NoSessions(w, j);
      }
    }
  }

  lemma NoSessions(w: State, j: Key)
    requires OwnerInv(w) && j !in w.jobs
    ensures forall s <- w.cache.sessions :: !OwnedBy(s, j)
  {
    forall s <- w.cache.sessions ensures !OwnedBy(s, j) {
      assert OwnerOk(w, s);
    }
  }

  lemma StepUses(tr: seq<State>, i: nat)
    requires Run(tr) && i + 1 < |tr|
    ensures UseInv(tr[i]) ==> UseInv(tr[i + 1])
  {
    RunInv(tr, i);
    if UseInv(tr[i]) {
      NextUses(tr[i], tr[i + 1]);
    }
  }

  lemma {:induction false} UsesChain(tr: seq<State>, i: nat)
    requires i < |tr| && UseInv(tr[0])
    requires forall n :: 0 <= n < i && UseInv(tr[n]) ==> UseInv(tr[n + 1])
    ensures UseInv(tr[i])
  {
    if i > 0 {
      UsesChain(tr, i - 1);
      assert UseInv(tr[i - 1 + 1]);
    }
  }

  lemma RunUses(tr: seq<State>, i: nat)
    requires Run(tr) && i < |tr|
    ensures UseInv(tr[i])
  {
    forall n | 0 <= n < i && UseInv(tr[n]) ensures UseInv(tr[n + 1]) {
      StepUses(tr, n);
    }
    UsesChain(tr, i);
  }
}
