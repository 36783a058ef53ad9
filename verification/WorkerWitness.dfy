/** A run in which a command fails and a dependency stays locked for reading. */
module WorkerWitness {
  import opened Basics
  import opened ArtifactCell
  import opened SchedulerLog
  import opened WorkerMachine
  import opened WorkerProofs
  import opened Runs
  import C = CacheMachine

  const DEP := Id(0)
  const JOB := Id(1)
  const KEY := Key(1, JOB)
  const SPEC := JobSpec(JOB, [DEP], map[])
  const OWN := C.Sid(C.JobRun(1, JOB), 0)
  const READER := C.Sid(C.JobRun(1, JOB), 1)

  function Cells(own: Cell, dep: Cell): map<Id, Cell> {
    map[JOB := own, DEP := dep]
  }

  lemma CellsMove(own: Cell, dep: Cell, id: Id, y: Cell)
    requires id == JOB || id == DEP
    ensures Cells(own, dep)[id := y] == Cells(if id == JOB then y else own, if id == JOB then dep else y)
    ensures id in Cells(own, dep) && Cells(own, dep)[id] == if id == JOB then own else dep
  {
  }

  /** One job in its first round, with the cells of its own artifact and of its dependency. */
  function Scene(mu: Option<C.Sid>, own: Cell, dep: Cell, sessions: map<C.Sid, C.Session>, job: Job): State {
    State(C.State(mu, Cells(own, dep), sessions), map[], map[KEY := job], 1, [], [[]], [{JOB}], map[])
  }

  lemma Extend(tr: seq<State>, w: State)
    requires Run(tr) && Next(tr[|tr| - 1], w)
    ensures Run(tr + [w])
  {
    LinkOne(tr, w, (a, b) => Next(a, b));
  }

  lemma Steps(tr: seq<State>, ja: JobAction) returns (tr': seq<State>)
    requires Run(tr) && JobEnabled(tr[|tr| - 1], KEY, ja)
    ensures Run(tr') && tr'[|tr'| - 1] == JobApply(tr[|tr| - 1], KEY, ja)
  {
    var w := JobApply(tr[|tr| - 1], KEY, ja);
    assert JobSteps(tr[|tr| - 1], KEY, ja, w);
    Extend(tr, w);
    tr' := tr + [w];
  }

  lemma CacheMoves(mu: Option<C.Sid>, own: Cell, dep: Cell, ss: map<C.Sid, C.Session>, s: C.Sid, id: Id, pc: C.Pc,
        act: C.Action)
    requires (id == JOB || id == DEP) && s in ss && ss[s] == C.Session(id, pc)
    requires (C.NeedsMu(pc, act) ==> mu == None) && C.LocalEnabled(pc, if id == JOB then own else dep, act)
    ensures var c := C.State(mu, Cells(own, dep), ss);
            var (q, y) := C.Local(pc, if id == JOB then own else dep, act);
            && C.Enabled(c, s, act)
            && C.Apply(c, s, act) == C.State(if C.HoldsMu(q) then Some(s) else if C.HoldsMu(pc) then None else mu,
                                             Cells(if id == JOB then y else own, if id == JOB then dep else y),
                                             ss[s := C.Session(id, q)])
  {
    CellsMove(own, dep, id, C.Local(pc, if id == JOB then own else dep, act).1);
  }

  /** A step of the session that the job drives, on one of the two artifacts. */
  lemma Drives(tr: seq<State>, mu: Option<C.Sid>, own: Cell, dep: Cell, ss: map<C.Sid, C.Session>, job: Job,
               id: Id, pc: C.Pc, act: C.Action) returns (tr': seq<State>)
    requires Run(tr) && tr[|tr| - 1] == Scene(mu, own, dep, ss, job) && (id == JOB || id == DEP)
    requires var s := SessionOf(KEY, job); s in ss && ss[s] == C.Session(id, pc)
    requires WorkerMachine.Drives(job, act) && (C.NeedsMu(pc, act) ==> mu == None)
    requires C.LocalEnabled(pc, if id == JOB then own else dep, act)
    requires !job.pc.Publishing?
    ensures Run(tr')
    ensures var s := SessionOf(KEY, job);
            var (q, y) := C.Local(pc, if id == JOB then own else dep, act);
            var mu' := if C.HoldsMu(q) then Some(s) else if C.HoldsMu(pc) then None else mu;
            tr'[|tr'| - 1] == Scene(mu', if id == JOB then y else own, if id == JOB then dep else y,
                                    ss[s := C.Session(id, q)], After(KEY, job, act, q))
  {
    CacheMoves(mu, own, dep, ss, SessionOf(KEY, job), id, pc, act);
    tr' := Steps(tr, Drive(act));
  }

  /** A step of the job alone. */
  lemma Turns(tr: seq<State>, mu: Option<C.Sid>, own: Cell, dep: Cell, ss: map<C.Sid, C.Session>, job: Job,
        ja: JobAction, pc: JobPc, code: int)
      returns (tr': seq<State>)
    requires Run(tr) && tr[|tr| - 1] == Scene(mu, own, dep, ss, job)
    requires match job.pc
             case Load => ja.Proceed? && pc == Fetch(job.spec.artifacts.Keys) && code == job.code
             case Fetch(todo) => ja.Proceed? && todo == {} && pc == Files && code == job.code
             case Deps => ja.Proceed? && |job.held| == |job.spec.deps| && pc == Commands && code == job.code
             case Commands => ja == Exit(false, code) && pc == Discarding
             case _ => false
    ensures Run(tr') && tr'[|tr'| - 1] == Scene(mu, own, dep, ss, job.(pc := pc, code := code))
  {
    tr' := Steps(tr, ja);
  }

  const FREE := NO_CELL
  const THERE := NO_CELL.(disk := Some(map[]))

  function Stage(pc: JobPc, next: nat, cur: nat, held: seq<nat>, code: int): Job {
    Job(SPEC, pc, next, cur, 0, held, code)
  }

  const BEFORE := State(C.State(None, map[JOB := FREE, DEP := THERE], map[]), map[], map[], 0, [], [], [], map[])

  lemma BeforeInit()
    ensures Init(BEFORE)
  {
    assert forall id :: C.At(BEFORE.cache, id) == NO_CELL.(disk := C.At(BEFORE.cache, id).disk);
  }

  function Beaten(w: State, response: map<Id, JobSpec>): State {
    w.(round := w.round + 1, finished := [], sent := w.sent + [w.finished], given := w.given + [response.Keys],
       jobs := w.jobs + NewJobs(w.round + 1, response))
  }

  lemma MayAssign(w: State, response: map<Id, JobSpec>)
    requires w.jobs == map[] && response == map[JOB := SPEC] && Settled(w.cache, DEP)
    ensures forall j <- w.jobs :: w.jobs[j].pc.Reported?
    ensures forall id <- response :: response[id].id == id && DepsGiven(w.cache, response[id])
  {
  }

  lemma FirstStep(w: State, response: map<Id, JobSpec>, w': State)
    requires w' == Beaten(w, response)
    requires forall j <- w.jobs :: w.jobs[j].pc.Reported?
    requires forall id <- response :: response[id].id == id && DepsGiven(w.cache, response[id])
    ensures Next(w, w')
  {
    assert Heartbeat(w, response, w');
  }

  lemma FirstRun(w: State, w': State)
    requires Init(w) && Next(w, w')
    ensures Run([w, w'])
  {
  }

  lemma BeatenScene(response: map<Id, JobSpec>)
    requires response == map[JOB := SPEC]
    ensures Beaten(BEFORE, response) == Scene(None, FREE, THERE, map[], Stage(Load, 0, 0, [], 0))
  {
    OnlyKey(response);
    assert response.Keys == {JOB};
  }

  /** The heartbeat assigns the job, whose only dependency is here. */
  lemma Assigned() returns (tr: seq<State>)
    ensures Run(tr) && tr[|tr| - 1] == Scene(None, FREE, THERE, map[], Stage(Load, 0, 0, [], 0))
  {
    var response := map[JOB := SPEC];
    BeforeInit();
    assert Settled(BEFORE.cache, DEP);
    MayAssign(BEFORE, response);
    FirstStep(BEFORE, response, Beaten(BEFORE, response));
    FirstRun(BEFORE, Beaten(BEFORE, response));
    BeatenScene(response);
    tr := [BEFORE, Beaten(BEFORE, response)];
  }

  lemma OnlyKey(response: map<Id, JobSpec>)
    requires response == map[JOB := SPEC]
    ensures NewJobs(1, response) == map[KEY := Stage(Load, 0, 0, [], 0)]
  {
    assert JOB in response && Key(1, JOB) in NewJobs(1, response);
    assert forall k <- NewJobs(1, response) :: k == KEY;
  }

  /** It has nothing to download and creates its artifact. */
  lemma Creates() returns (tr: seq<State>)
    ensures Run(tr)
    ensures tr[|tr| - 1] ==
              Scene(None, FREE, THERE, map[OWN := C.Session(JOB, C.LockStart(false))], Stage(Starting, 1, 0, [], 0))
  {
    tr := Assigned();
    tr := Turns(tr, None, FREE, THERE, map[], Stage(Load, 0, 0, [], 0), Proceed, Fetch({}), 0);
    tr := Turns(tr, None, FREE, THERE, map[], Stage(Fetch({}), 0, 0, [], 0), Proceed, Files, 0);
    tr := Steps(tr, Answer(true));
    assert tr[|tr| - 1].jobs == map[KEY := Stage(Starting, 1, 0, [], 0)];
  }

  const EMPTY := Cell(true, 0, None, Some(map[]))

  function Owning(pc: C.Pc): map<C.Sid, C.Session> {
    map[OWN := C.Session(JOB, pc)]
  }

  lemma Looks() returns (tr: seq<State>)
    ensures Run(tr)
    ensures tr[|tr| - 1] == Scene(Some(OWN), FREE, THERE, Owning(C.LockInMu(false)), Stage(Starting, 1, 0, [], 0))
  {
    var job := Stage(Starting, 1, 0, [], 0);
    tr := Creates();
    tr := Drives(tr, None, FREE, THERE, Owning(C.LockStart(false)), job, JOB, C.LockStart(false), C.Advance);
  }

  const MISSING := C.LockStatted(false, false, EntryOf(FREE))

  lemma Looked() returns (tr: seq<State>)
    ensures Run(tr)
    ensures tr[|tr| - 1] == Scene(Some(OWN), FREE, THERE, Owning(MISSING), Stage(Starting, 1, 0, [], 0))
  {
    var job := Stage(Starting, 1, 0, [], 0);
    tr := Looks();
    tr := Drives(tr, Some(OWN), FREE, THERE, Owning(C.LockInMu(false)), job, JOB, C.LockInMu(false), C.Advance);
  }

  lemma Locked() returns (tr: seq<State>)
    ensures Run(tr)
    ensures tr[|tr| - 1] ==
            Scene(None, FREE.(write := true), THERE, Owning(C.CreateLocked), Stage(Starting, 1, 0, [], 0))
  {
    tr := Looked();
    tr := Drives(tr, Some(OWN), FREE, THERE, Owning(MISSING), Stage(Starting, 1, 0, [], 0), JOB, MISSING, C.Advance);
  }

  lemma Created() returns (tr: seq<State>)
    ensures Run(tr) && tr[|tr| - 1] == Scene(None, EMPTY, THERE, Owning(C.Writing), Stage(Deps, 1, 0, [], 0))
  {
    var job, locked := Stage(Starting, 1, 0, [], 0), FREE.(write := true);
    tr := Locked();
    tr := Drives(tr, None, locked, THERE, Owning(C.CreateLocked), job, JOB, C.CreateLocked, C.Advance);
  }

  function Both(pc: C.Pc, reader: C.Pc): map<C.Sid, C.Session> {
    map[OWN := C.Session(JOB, pc), READER := C.Session(DEP, reader)]
  }

  const READ := THERE.(readers := 1)

  lemma Opens() returns (tr: seq<State>)
    ensures Run(tr) && tr[|tr| - 1] ==
              Scene(None, EMPTY, THERE, Both(C.Writing, C.GetStart), Stage(Opening, 2, 1, [], 0))
  {
    tr := Created();
    tr := Steps(tr, Proceed);
    assert tr[|tr| - 1].jobs == map[KEY := Stage(Opening, 2, 1, [], 0)];
    assert tr[|tr| - 1].cache.sessions == Both(C.Writing, C.GetStart);
  }

  /** It opens its dependency. */
  lemma Opened() returns (tr: seq<State>)
    ensures Run(tr) && tr[|tr| - 1] ==
              Scene(None, EMPTY, READ, Both(C.Writing, C.Reading(map[])), Stage(Deps, 2, 1, [1], 0))
  {
    tr := Opens();
    var job := Stage(Opening, 2, 1, [], 0);
    tr := Drives(tr, None, EMPTY, THERE, Both(C.Writing, C.GetStart), job, DEP, C.GetStart, C.Advance);
    assert tr[|tr| - 1] == Scene(None, EMPTY, READ, Both(C.Writing, C.GetLocked), job);
    tr := Drives(tr, None, EMPTY, READ, Both(C.Writing, C.GetLocked), job, DEP, C.GetLocked, C.Advance);
    assert After(KEY, job, C.Advance, C.Reading(map[])) == Stage(Deps, 2, 1, [1], 0);
  }

  lemma Fails() returns (tr: seq<State>)
    ensures Run(tr)
    ensures tr[|tr| - 1] == Scene(None, EMPTY, READ, Both(C.Writing, C.Reading(map[])), Stage(Discarding, 2, 1, [1], 1))
  {
    tr := Opened();
    tr := Turns(tr, None, EMPTY, READ, Both(C.Writing, C.Reading(map[])), Stage(Deps, 2, 1, [1], 0), Proceed,
        Commands, 0);
    tr := Turns(tr, None, EMPTY, READ, Both(C.Writing, C.Reading(map[])), Stage(Commands, 2, 1, [1], 0),
        Exit(false, 1), Discarding, 1);
  }

  /** Its command has failed, and the job aborts. */
  lemma Aborts() returns (tr: seq<State>)
    ensures Run(tr)
    ensures tr[|tr| - 1] ==
              Scene(None, EMPTY, READ, Both(C.Aborting, C.Reading(map[])), Stage(Discarding, 2, 1, [1], 1))
  {
    tr := Fails();
    var job := Stage(Discarding, 2, 1, [1], 1);
    tr := Drives(tr, None, EMPTY, READ, Both(C.Writing, C.Reading(map[])), job, JOB, C.Writing, C.Abort);
  }

  lemma Failed() returns (tr: seq<State>)
    ensures Run(tr)
    ensures tr[|tr| - 1] ==
              Scene(None, FREE, READ, Both(C.Done(C.Aborted), C.Reading(map[])),
                  Stage(Report(Failure(JOB, 1)), 2, 1, [1], 1))
  {
    tr := Aborts();
    var job := Stage(Discarding, 2, 1, [1], 1);
    tr := Drives(tr, None, EMPTY, READ, Both(C.Aborting, C.Reading(map[])), job, JOB, C.Aborting, C.DeleteRoot);
    var locked := FREE.(write := true);
    assert tr[|tr| - 1] == Scene(None, locked, READ, Both(C.AbortRemoved, C.Reading(map[])), job);
    tr := Drives(tr, None, locked, READ, Both(C.AbortRemoved, C.Reading(map[])), job, JOB, C.AbortRemoved, C.Advance);
  }

  /** The job is over, and its dependency is still locked for reading by nobody who will ever unlock it. */
  lemma FailureLeavesReader() returns (tr: seq<State>)
    ensures Run(tr)
    ensures var w := tr[|tr| - 1];
            && KEY in w.jobs && w.jobs[KEY].pc.Reported? && w.jobs[KEY].held == [1]
            && C.At(w.cache, DEP).readers == 1 && Dictated(EntryOf(C.At(w.cache, DEP)), true) == Some(ReadLocked)
  {
    tr := Failed();
    tr := Steps(tr, Proceed);
  }
}
