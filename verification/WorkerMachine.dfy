/**
 A worker: rounds of heartbeats, and in each round any number of jobs running concurrently on one
 artifact cache, next to the handlers that serve artifacts to other workers. Nobody removes artifacts.

 A job goes through `runJob`: the result cache, `downloadArtifacts`, `downloadFiles`, `executeJob` with
 its read locks on the dependencies, the commands, and the commit. Foreign events (the network, the file
 cache, the commands) have arbitrary outcomes.
 */
module WorkerMachine {
  import opened Basics
  import opened ArtifactCell
  import opened SchedulerLog
  import C = CacheMachine

  /** One assignment: a heartbeat's answer is a map, so a round has each identifier once at most. */
  datatype Key = Key(round: nat, id: Id)

  datatype JobPc =
    | Load
    | Fetch(todo: set<Id>)
    | Checking(a: Id, todo: set<Id>)
    | Checked(a: Id, todo: set<Id>)
    | Requesting(a: Id, todo: set<Id>)
    | Downloading(a: Id, todo: set<Id>)
    | Receiving(a: Id, todo: set<Id>)
    | Committing(a: Id, todo: set<Id>)
    | Dropping
    | Files
    | Starting
    | Deps
    | Opening
    | Commands
    | Unlocking(k: nat)
    | Publishing
    | Discarding
    | Store(res: JobResult)
    | Report(res: JobResult)
    | Reported(res: JobResult)
    | Panicked

  /** Sessions below `next` are used; `cur`, `own` and `held` number the ones in use. `code` is the exit code so far. */
  datatype Job = Job(spec: JobSpec, pc: JobPc, next: nat, cur: nat, own: nat, held: seq<nat>, code: int)

  /** `sent` and `given` remember the heartbeats, `wins` how often each job was executed to success. */
  datatype State = State(cache: C.State, results: map<Id, JobResult>, jobs: map<Key, Job>, round: nat,
                         finished: seq<JobResult>, sent: seq<seq<JobResult>>, given: seq<set<Id>>, wins: map<Id, nat>)

  datatype JobAction =
    | Proceed                                 // the next statement, if it needs nothing from outside
    | Choose(a: Id)
    | Answer(ok: bool)                        // of a remote worker, or of the file cache
    | Exit(ok: bool, code: int)               // of the commands
    | Drive(act: C.Action)

  function Failure(id: Id, code: int): JobResult {
    JobResult(id, code, Some("error"))
  }

  /** The session that the job's next cache step belongs to. */
  function SessionOf(j: Key, job: Job): C.Sid {
    C.Sid(C.JobRun(j.round, j.id),
          match job.pc
          case Starting => job.own
          case Commands => job.own
          case Unlocking(k) => if k < |job.held| then job.held[k] else job.own
          case Publishing => job.own
          case Discarding => job.own
          case _ => job.cur)
  }

  /** Which cache steps a job takes at each point. */
  predicate Drives(job: Job, act: C.Action) {
    match job.pc
    case Checking(_, _) => act.Advance?
    case Checked(_, _) => act.Release?
    case Downloading(_, _) => act.Advance?
    case Receiving(_, _) => act.Fill? || act.Commit? || act.Abort?
    case Committing(_, _) => act.Advance?
    case Dropping => act.Advance? || act.DeletePath? || act.DeleteRoot?
    case Starting => act.Advance?
    case Opening => act.Advance?
    case Commands => act.Fill?
    case Unlocking(k) => if k < |job.held| then act.Release? else act.Commit?
    case Publishing => act.Advance?
    case Discarding => act.Abort? || act.Advance? || act.DeletePath? || act.DeleteRoot?
    case _ => false
  }

  /** Where the job goes once step `act` has brought its session to `q`. */
  function Follow(job: Job, act: C.Action, q: C.Pc): JobPc {
    var fail := Report(Failure(job.spec.id, job.code));
    match job.pc
    case Checking(a, todo) =>
      if q.Reading? then Checked(a, todo)
      else if q == C.Done(C.Failed(NotFound)) then Requesting(a, todo)
      else if q.Done? then fail else job.pc
    case Checked(_, todo) => Fetch(todo)
    case Downloading(a, todo) => if q.Writing? then Receiving(a, todo) else if q.Done? then fail else job.pc
    case Receiving(a, todo) => if act.Commit? then Committing(a, todo) else if act.Abort? then Dropping else job.pc
    case Committing(_, todo) => if q == C.Done(C.Committed) then Fetch(todo) else fail
    case Dropping => if q.Done? then fail else job.pc
    case Starting => if q.Writing? then Deps else if q.Done? then fail else job.pc
    case Opening => if q.Reading? then Deps else if q.Done? then Panicked else job.pc
    case Unlocking(k) => if k < |job.held| then Unlocking(k + 1) else Publishing
    case Publishing =>
      if q == C.Done(C.Committed) then Store(JobResult(job.spec.id, job.code, None)) else fail
    case Discarding => if q.Done? then fail else job.pc
    case _ => job.pc
  }

  /** The read locks on dependencies: one more after each `Get`, none once the last one is unlocked. */
  function HeldAfter(job: Job, pc: JobPc): seq<nat> {
    if job.pc.Opening? && pc.Deps? then job.held + [job.cur]
    else if job.pc.Unlocking? && pc.Publishing? then []
    else job.held
  }

  /** A new session of a job, numbered `next`. */
  function Open(w: State, j: Key, job: Job, op: C.Op, id: Id): State {
    w.(cache := C.Begin(w.cache, C.Sid(C.JobRun(j.round, j.id), job.next), op, id),
       jobs := w.jobs[j := job.(next := job.next + 1)])
  }

  predicate JobEnabled(w: State, j: Key, ja: JobAction) {
    && j in w.jobs
    && var job := w.jobs[j];
    match ja
    case Proceed =>
      || job.pc.Load? || job.pc == Fetch({}) || job.pc.Deps? || job.pc.Store? || job.pc.Report?
    case Choose(a) => job.pc.Fetch? && a in job.pc.todo
    case Answer(_) => job.pc.Requesting? || job.pc.Files?
    case Exit(_, _) => job.pc.Commands?
    case Drive(act) => Drives(job, act) && C.Enabled(w.cache, SessionOf(j, job), act)
  }

  function JobApply(w: State, j: Key, ja: JobAction): State
    requires JobEnabled(w, j, ja)
  {
    var job := w.jobs[j];
    match ja
    case Proceed => Proceeding(w, j, job)
    case Choose(a) => Open(w, j, job.(pc := Checking(a, job.pc.todo - {a}), cur := job.next), C.Get, a)
    case Answer(ok) =>
      if !ok then w.(jobs := w.jobs[j := job.(pc := Report(Failure(j.id, 0)))])
      else if job.pc.Requesting? then Open(w, j, job.(pc := Downloading(job.pc.a, job.pc.todo), cur := job.next),
          C.Create, job.pc.a)
      else Open(w, j, job.(pc := Starting, own := job.next), C.Create, job.spec.id)
    case Exit(ok, code) =>
      // a failed command aborts and returns; the read locks on the dependencies stay
      w.(jobs := w.jobs[j := job.(pc := if ok then Unlocking(0) else Discarding, code := code)])
    case Drive(act) =>
      var c := C.Apply(w.cache, SessionOf(j, job), act);
      var pc := Follow(job, act, C.PcAt(c, SessionOf(j, job)));
      var held := HeldAfter(job, pc);
      w.(cache := c, jobs := w.jobs[j := job.(pc := pc, held := held)],
         wins := if pc.Store? then w.wins[j.id := Wins(w, j.id) + 1] else w.wins)
  }

  function Proceeding(w: State, j: Key, job: Job): State
    requires j in w.jobs
  {
    match job.pc
    case Load =>
      w.(jobs := w.jobs[j := job.(pc := if j.id in w.results then Report(w.results[j.id])
          else Fetch(job.spec.artifacts.Keys))])
    case Fetch(_) => w.(jobs := w.jobs[j := job.(pc := Files)])
    case Deps =>
      if |job.held| < |job.spec.deps| then
        Open(w, j, job.(pc := Opening, cur := job.next), C.Get, job.spec.deps[|job.held|])
      else w.(jobs := w.jobs[j := job.(pc := Commands)])
    case Store(res) => w.(results := w.results[j.id := res], jobs := w.jobs[j := job.(pc := Report(res))])
    case Report(res) => w.(finished := w.finished + [res], jobs := w.jobs[j := job.(pc := Reported(res))])
    case _ => w
  }

  function Wins(w: State, id: Id): nat {
    if id in w.wins then w.wins[id] else 0
  }

  /** Committed locally, and no longer locked by the one who committed it. */
  predicate Settled(c: C.State, id: Id) {
    C.At(c, id).disk.Some? && !C.At(c, id).write
  }

  /** What the coordinator gives: every dependency is an artifact to download, or is here already. */
  predicate DepsGiven(c: C.State, spec: JobSpec) {
    forall d <- spec.deps :: d in spec.artifacts || Settled(c, d)
  }

  function NewJobs(round: nat, response: map<Id, JobSpec>): map<Key, Job> {
    map id | id in response :: Key(round, id) := Job(response[id], Load, 0, 0, 0, [], 0)
  }

  /** Pull, heartbeat, and the start of the next round's jobs, once all jobs of this round have reported. */
  predicate Heartbeat(w: State, response: map<Id, JobSpec>, w': State) {
    && (forall j <- w.jobs :: w.jobs[j].pc.Reported?)
    && (forall id <- response :: response[id].id == id && DepsGiven(w.cache, response[id]))
    && w' == w.(round := w.round + 1, finished := [], sent := w.sent + [w.finished], given := w.given + [response.Keys],
                jobs := w.jobs + NewJobs(w.round + 1, response))
  }

  predicate JobSteps(w: State, j: Key, ja: JobAction, w': State) {
    JobEnabled(w, j, ja) && w' == JobApply(w, j, ja)
  }

  predicate GuestBegins(w: State, s: C.Sid, id: Id, w': State) {
    s.owner.Guest? && s !in w.cache.sessions && w' == w.(cache := C.Begin(w.cache, s, C.Get, id))
  }

  predicate GuestSteps(w: State, s: C.Sid, a: C.Action, w': State) {
    s.owner.Guest? && C.Enabled(w.cache, s, a) && w' == w.(cache := C.Apply(w.cache, s, a))
  }

  ghost predicate Next(w: State, w': State) {
    || (exists response :: Heartbeat(w, response, w'))
    || (exists j, ja :: JobSteps(w, j, ja, w'))
    || (exists s, id :: GuestBegins(w, s, id, w'))
    || (exists s, a :: GuestSteps(w, s, a, w'))
  }

  ghost predicate Init(w: State) {
    && C.Init(w.cache) && w.results == map[] && w.jobs == map[] && w.round == 0
    && w.finished == [] && w.sent == [] && w.given == [] && w.wins == map[]
  }

  ghost predicate Run(tr: seq<State>) {
    && |tr| > 0 && Init(tr[0])
    && forall i :: 0 <= i < |tr| - 1 ==> Next(tr[i], tr[i + 1])
  }

  // ---- Invariants ----

  predicate RemoverPc(pc: C.Pc) {
    || ((pc.LockStart? || pc.LockInMu? || pc.LockStatted?) && pc.remove)
    || pc.RemoveLocked? || pc.RemoveDeleted?
  }

  predicate Session(c: C.State, j: Key, index: nat, id: Id) {
    C.Sid(C.JobRun(j.round, j.id), index) in c.sessions && C.IdAt(c, C.Sid(C.JobRun(j.round, j.id), index)) == id
  }

  function SessionPc(c: C.State, j: Key, index: nat): C.Pc
    requires C.Sid(C.JobRun(j.round, j.id), index) in c.sessions
  {
    C.PcAt(c, C.Sid(C.JobRun(j.round, j.id), index))
  }

  predicate Locking(pc: C.Pc) {
    ((pc.LockStart? || pc.LockInMu? || pc.LockStatted?) && !pc.remove) || pc.CreateLocked?
  }

  /** The artifacts of the job that are settled by now. */
  predicate Fetched(c: C.State, job: Job, todo: set<Id>) {
    forall a <- job.spec.artifacts :: a in todo || Settled(c, a)
  }

  predicate AllSettled(c: C.State, job: Job) {
    forall d <- job.spec.deps :: Settled(c, d)
  }

  /** `held` are sessions of their own that read the dependencies in order, from the `k`-th on. */
  predicate DepsOpen(c: C.State, j: Key, job: Job, k: nat) {
    && |job.held| <= |job.spec.deps|
    && (forall i :: 0 <= i < |job.held| ==>
          job.held[i] != job.own && (forall m :: 0 <= m < i ==> job.held[m] != job.held[i]))
    && (forall i :: k <= i < |job.held| ==>
          Session(c, j, job.held[i], job.spec.deps[i]) && SessionPc(c, j, job.held[i]).Reading?)
  }

  /** What each point of `runJob` knows of its sessions and of the artifacts. */
  predicate PhaseOk(c: C.State, j: Key, job: Job) {
    match job.pc
    case Load => true
    case Fetch(todo) => Fetched(c, job, todo)
    case Checking(a, todo) =>
      && Fetched(c, job, todo + {a}) && Session(c, j, job.cur, a)
      && (SessionPc(c, j, job.cur).GetStart? || SessionPc(c, j, job.cur).GetLocked?
          || SessionPc(c, j, job.cur).GetMissing?)
    case Checked(a, todo) => Fetched(c, job, todo) && Session(c, j, job.cur, a) && SessionPc(c, j, job.cur).Reading?
    case Requesting(a, todo) => Fetched(c, job, todo + {a})
    case Downloading(a, todo) => Fetched(c, job, todo + {a}) && Session(c, j, job.cur, a)
        && Locking(SessionPc(c, j, job.cur))
    case Receiving(a, todo) => Fetched(c, job, todo + {a}) && Session(c, j, job.cur, a)
        && SessionPc(c, j, job.cur).Writing?
    case Committing(a, todo) => Fetched(c, job, todo + {a}) && Session(c, j, job.cur, a)
        && SessionPc(c, j, job.cur).Renamed?
    case Dropping => Clearing(c, j, job.cur)
    case Files => AllSettled(c, job)
    case Starting => AllSettled(c, job) && Session(c, j, job.own, job.spec.id) && Locking(SessionPc(c, j, job.own))
    case Deps => AllSettled(c, job) && OwnWrites(c, j, job) && DepsOpen(c, j, job, 0)
    case Opening =>
      && AllSettled(c, job) && OwnWrites(c, j, job) && DepsOpen(c, j, job, 0)
      && |job.held| < |job.spec.deps| && job.cur != job.own && job.cur !in job.held
      && Session(c, j, job.cur, job.spec.deps[|job.held|])
      && (SessionPc(c, j, job.cur).GetStart? || SessionPc(c, j, job.cur).GetLocked?)
    case Commands => OwnWrites(c, j, job) && |job.held| == |job.spec.deps| && DepsOpen(c, j, job, 0)
    case Unlocking(k) => k <= |job.held| && OwnWrites(c, j, job) && DepsOpen(c, j, job, k)
    case Publishing => job.held == [] && Session(c, j, job.own, job.spec.id) && SessionPc(c, j, job.own).Renamed?
    case Discarding =>
      (OwnWrites(c, j, job) || Clearing(c, j, job.own)) && |job.held| == |job.spec.deps| && DepsOpen(c, j, job, 0)
    case Store(res) => job.held == [] && res.id == j.id && res.error == None && Settled(c, j.id)
    case Report(res) => res.id == j.id && Leftover(c, j, job, res)
    case Reported(res) => res.id == j.id && Leftover(c, j, job, res)
    case Panicked => false
  }

  /** After its report a job holds no dependency, or failed and still holds all of them. */
  predicate Leftover(c: C.State, j: Key, job: Job, res: JobResult) {
    job.held == [] || (res.error.Some? && |job.held| == |job.spec.deps| && DepsOpen(c, j, job, 0))
  }

  predicate Clearing(c: C.State, j: Key, index: nat) {
    && C.Sid(C.JobRun(j.round, j.id), index) in c.sessions
    && (SessionPc(c, j, index).Aborting? || SessionPc(c, j, index).AbortRemoved?)
  }

  predicate OwnWrites(c: C.State, j: Key, job: Job) {
    Session(c, j, job.own, job.spec.id) && SessionPc(c, j, job.own).Writing?
  }

  /** Before its first dependency is opened a job holds no read locks. */
  predicate Preparing(pc: JobPc) {
    || pc.Load? || pc.Fetch? || pc.Checking? || pc.Checked? || pc.Requesting? || pc.Downloading?
    || pc.Receiving? || pc.Committing? || pc.Dropping? || pc.Files? || pc.Starting?
  }

  predicate JobOk(c: C.State, j: Key, job: Job) {
    && job.spec.id == j.id && job.cur <= job.next && job.own <= job.next && DepsGiven(c, job.spec) && PhaseOk(c, j, job)
    && (Preparing(job.pc) ==> job.held == [])
    && (forall i :: 0 <= i < |job.held| ==> job.held[i] < job.next)
  }

  ghost predicate JobsInv(w: State) {
    && (forall j <- w.jobs :: j.round <= w.round && JobOk(w.cache, j, w.jobs[j]))
    && (forall j <- w.jobs :: j.round < w.round ==> w.jobs[j].pc.Reported?)
  }

  /** Sessions belong to guests that read, or to jobs that have numbered them; nobody removes. */
  predicate OwnerOk(w: State, s: C.Sid)
    requires s in w.cache.sessions
  {
    && !RemoverPc(C.PcAt(w.cache, s))
    && match s.owner
       case Guest(_) => true
       case Handler(_) => false
       case JobRun(r, id) => Key(r, id) in w.jobs && s.index < w.jobs[Key(r, id)].next
  }

  ghost predicate OwnerInv(w: State) {
    forall s <- w.cache.sessions :: OwnerOk(w, s)
  }

  ghost predicate ResultInv(w: State) {
    && (forall id <- w.results :: w.results[id].id == id && w.results[id].error == None && Settled(w.cache, id))
    && (forall id <- w.wins :: w.wins[id] <= 1 && Settled(w.cache, id))
    && (forall j <- w.jobs :: w.jobs[j].pc.Store? ==> j.id !in w.results)
  }

  /** `rs` has exactly one result for each identifier of `ids`. */
  ghost predicate OneEach(rs: seq<JobResult>, ids: set<Id>) {
    && (forall i, k :: 0 <= i < k < |rs| ==> rs[i].id != rs[k].id)
    && (forall i :: 0 <= i < |rs| ==> rs[i].id in ids)
    && (forall id <- ids :: exists i :: 0 <= i < |rs| && rs[i].id == id)
  }

  function ReportedIds(w: State): set<Id> {
    set j | j in w.jobs && j.round == w.round && w.jobs[j].pc.Reported? :: j.id
  }

  function RoundIds(w: State): set<Id> {
    set j | j in w.jobs && j.round == w.round :: j.id
  }

  ghost predicate RoundInv(w: State) {
    && |w.sent| == |w.given| == w.round
    && OneEach(w.finished, ReportedIds(w))
    && RoundIds(w) == (if w.round == 0 then {} else w.given[w.round - 1])
    && (w.round > 0 ==> w.sent[0] == [])
    && forall n :: 0 < n < w.round ==> OneEach(w.sent[n], w.given[n - 1])
  }

  ghost predicate Inv(w: State) {
    C.Inv(w.cache) && JobsInv(w) && OwnerInv(w) && ResultInv(w) && RoundInv(w)
  }
}
