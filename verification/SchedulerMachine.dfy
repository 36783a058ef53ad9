/**
 The scheduler under concurrent calls: builders in `ScheduleJob`, and heartbeats that report their
 finished jobs through `OnJobComplete` one after the other, then wait in `PickJob`, and then try for
 one more job per free slot with `TryPickJob`.

 `ScheduleJob` pushes the record into the channel before it stores it in the map, both under `jobsMu`;
 `PickJob` takes no lock and may pop the record in between.
 */
module SchedulerMachine {
  import opened Basics
  import opened SchedulerLog

  /** A `PendingJob`; records are named by their position in `recs`. */
  datatype Rec = Rec(job: JobSpec, finished: bool, result: Option<JobResult>)

  type Report = (Id, Option<JobResult>)

  datatype Pc =
    | SchedStart(job: JobSpec)
    | SchedPush(rid: nat)
    | SchedStore(rid: nat)
    | SchedDone(rid: nat)
    | Beat(worker: WorkerId, slots: int, reports: seq<Report>)
    | BeatHolder(worker: WorkerId, slots: int, id: Id, rest: seq<Report>, known: bool)
    | BeatTry(got: seq<nat>, slots: int, tries: nat)   // records so far, slots to fill, tries for this one
    | BeatDone(got: seq<nat>)

  /** `pushed` and `picked` remember the traffic of the queue, `log` and `told` the order of the two mutexes. */
  datatype State = State(mu: Option<nat>, jobs: map<Id, nat>, recs: seq<Rec>, queue: seq<nat>,
                         artifacts: map<Id, seq<WorkerId>>, threads: map<nat, Pc>,
                         log: Log, told: Reports, pushed: seq<nat>, picked: nat)

  predicate InSchedule(pc: Pc) {
    pc.SchedPush? || pc.SchedStore?
  }

  predicate Init(m: State) {
    m == State(None, map[], [], [], map[], map[], [], [], [], 0)
  }

  predicate Enabled(m: State, t: nat) {
    && t in m.threads
    && match m.threads[t]
       case SchedStart(_) => m.mu.None?
       case SchedPush(_) => |m.queue| < QUEUE_CAPACITY
       case SchedStore(rid) => rid < |m.recs|
       case Beat(_, _, reports) =>
         if reports != [] then m.mu.None? && (reports[0].0 in m.jobs ==> m.jobs[reports[0].0] < |m.recs|)
         else m.queue != []
       case BeatHolder(_, _, _, _, _) => true
       case BeatTry(_, _, _) => true
       case SchedDone(_) => false
       case BeatDone(_) => false
  }

  function Apply(m: State, t: nat): State
    requires Enabled(m, t)
  {
    match m.threads[t]
    case SchedStart(job) => Scheduling(m, t, job)
    case SchedPush(rid) =>
      m.(queue := m.queue + [rid], pushed := m.pushed + [rid], threads := m.threads[t := SchedStore(rid)])
    case SchedStore(rid) =>
      m.(jobs := m.jobs[m.recs[rid].job.id := rid], mu := None, threads := m.threads[t := SchedDone(rid)])
    case Beat(w, slots, reports) =>
      if reports != [] then Completing(m, t, w, slots, reports) else Picking(m, t, Trying([m.queue[0]], slots - 1))
    case BeatHolder(w, slots, id, rest, _) =>
      var s := if id in m.artifacts then m.artifacts[id] else [];
      m.(artifacts := m.artifacts[id := Slide(s, w)], told := m.told + [(id, w)],
         threads := m.threads[t := Beat(w, slots, rest)])
    case BeatTry(got, slots, tries) =>
      if m.queue != [] then Picking(m, t, Trying(got + [m.queue[0]], slots - 1))
      else m.(threads := m.threads[t := if tries > 1 then BeatTry(got, slots, tries - 1) else Trying(got, slots - 1)])
  }

  const TRIES: nat := 4

  /** The loop over the free slots that are left. */
  function Trying(got: seq<nat>, slots: int): Pc {
    if slots > 0 then BeatTry(got, slots, TRIES) else BeatDone(got)
  }

  /** The head of the queue goes to heartbeat `t`, which is then at `pc`. */
  function Picking(m: State, t: nat, pc: Pc): State
    requires m.queue != []
  {
    m.(queue := m.queue[1..], picked := m.picked + 1, threads := m.threads[t := pc])
  }

  /** The records a heartbeat has been given. */
  function Got(pc: Pc): seq<nat> {
    if pc.BeatTry? || pc.BeatDone? then pc.got else []
  }

  /** The critical section of `ScheduleJob` up to the push: a known job is answered at once. */
  function Scheduling(m: State, t: nat, job: JobSpec): State {
    var log := m.log + [Scheduled(job)];
    if job.id in m.jobs then
      m.(log := log, threads := m.threads[t := SchedDone(m.jobs[job.id])])
    else
      m.(log := log, mu := Some(t), recs := m.recs + [Rec(job, false, None)],
         threads := m.threads[t := SchedPush(|m.recs|)])
  }

  /** The critical section of `OnJobComplete` on the first report. */
  function Completing(m: State, t: nat, w: WorkerId, slots: int, reports: seq<Report>): State
    requires reports != [] && (reports[0].0 in m.jobs ==> m.jobs[reports[0].0] < |m.recs|)
  {
    var (id, res) := reports[0];
    var m' := m.(log := m.log + [Completed(w, id, res)],
                 threads := m.threads[t := BeatHolder(w, slots, id, reports[1..], id in m.jobs)]);
    if id in m.jobs then
      var r := m.recs[m.jobs[id]];
      m'.(recs := m.recs[m.jobs[id] := if r.finished then r else Rec(r.job, true, res)])
    else
      m'.(recs := m.recs + [Rec(JobSpec(id, [], map[]), true, res)], jobs := m.jobs[id := |m.recs|])
  }

  predicate Arrives(m: State, t: nat, pc: Pc, m': State) {
    t !in m.threads && (pc.SchedStart? || pc.Beat?) && m' == m.(threads := m.threads[t := pc])
  }

  predicate Moves(m: State, t: nat, m': State) {
    Enabled(m, t) && m' == Apply(m, t)
  }

  ghost predicate Next(m: State, m': State) {
    (exists t, pc :: Arrives(m, t, pc, m')) || (exists t :: Moves(m, t, m'))
  }

  ghost predicate Run(tr: seq<State>) {
    && |tr| > 0 && Init(tr[0])
    && forall i :: 0 <= i < |tr| - 1 ==> Next(tr[i], tr[i + 1])
  }

  // ---- Invariants ----

  predicate MutexInv(m: State) {
    && (m.mu.Some? ==> m.mu.value in m.threads && InSchedule(m.threads[m.mu.value]))
    && forall t <- m.threads :: InSchedule(m.threads[t]) ==> m.mu == Some(t)
  }

  /** The record that a builder has made but not yet stored. */
  function InFlight(m: State): Option<nat>
    requires MutexInv(m)
  {
    if m.mu.Some? then Some(m.threads[m.mu.value].rid) else None
  }

  predicate RecordOk(log: Log, r: Rec) {
    && r.finished == FirstResult(log, r.job.id).Some?
    && r.result == if r.finished then FirstResult(log, r.job.id).value else None
  }

  predicate Holds(m: State, rid: nat) {
    rid < |m.recs| && m.recs[rid].job.id in m.jobs && m.jobs[m.recs[rid].job.id] == rid
  }

  ghost predicate JobsInv(m: State) {
    && (forall rid :: 0 <= rid < |m.recs| ==> RecordOk(m.log, m.recs[rid]) && Known(m.log, m.recs[rid].job.id))
    && (forall id :: Known(m.log, id) ==> id in m.jobs || (m.mu.Some? && MutexInv(m) && Flies(m, id)))
    && (forall id <- m.jobs :: m.jobs[id] < |m.recs| && m.recs[m.jobs[id]].job.id == id)
    && (forall rid :: 0 <= rid < |m.recs| ==> Holds(m, rid) || (MutexInv(m) && InFlight(m) == Some(rid)))
  }

  predicate Flies(m: State, id: Id)
    requires MutexInv(m)
  {
    InFlight(m).Some? && InFlight(m).value < |m.recs| && m.recs[InFlight(m).value].job.id == id && id !in m.jobs
  }

  /** What has entered the queue, or is about to. */
  function Entered(m: State): seq<nat> {
    m.pushed + if m.mu.Some? && m.mu.value in m.threads && m.threads[m.mu.value].SchedPush?
               then [m.threads[m.mu.value].rid] else []
  }

  /** The records `entered` carry the jobs `specs`, one for one. */
  ghost predicate Carry(recs: seq<Rec>, entered: seq<nat>, specs: seq<JobSpec>) {
    && |entered| == |specs|
    && forall k :: 0 <= k < |entered| ==> entered[k] < |recs| && recs[entered[k]].job == specs[k]
  }

  ghost predicate QueueInv(m: State) {
    && Carry(m.recs, Entered(m), Enqueued(m.log))
    && m.picked <= |m.pushed| && m.queue == m.pushed[m.picked..] && |m.queue| <= QUEUE_CAPACITY
  }

  ghost predicate HoldersInv(m: State) {
    && (forall id :: id in m.artifacts <==> HoldersOf(m.told, id) != [])
    && (forall id <- m.artifacts :: m.artifacts[id] == LastFour(HoldersOf(m.told, id)))
  }

  /** Whoever has been given a record was given one of the queue, or the one the map holds. */
  ghost predicate AnswerInv(m: State) {
    && (forall t <- m.threads :: m.threads[t].SchedDone? ==> Holds(m, m.threads[t].rid))
    && m.picked <= |m.pushed|
    && (forall t <- m.threads :: forall rid <- Got(m.threads[t]) :: rid in m.pushed[..m.picked])
  }

  ghost predicate Inv(m: State) {
    && MutexInv(m) && (m.mu.Some? ==> InFlight(m).value < |m.recs| && m.recs[InFlight(m).value].job.id !in m.jobs)
    && JobsInv(m) && QueueInv(m) && HoldersInv(m) && AnswerInv(m)
  }
}
