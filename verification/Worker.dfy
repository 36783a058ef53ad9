/** `worker.Worker` as one goroutine runs it: `runJob` and everything below it, on the worker's own objects. */
module Worker {
  import opened Basics
  import opened ArtifactCell
  import opened ArtifactCache
  import opened ArtifactTransfer
  import opened SchedulerLog

  /** `concurrency.SyncMap`. */
  class SyncMap<K(==), V> {
    var data: map<K, V>

    constructor ()
      ensures data == map[]
    {
      data := map[];
    }

    method Store(key: K, val: V)
      modifies this
      ensures data == old(data)[key := val]
    {
      data := data[key := val];
    }

    method Load(key: K) returns (val: Option<V>)
      ensures val == if key in data then Some(data[key]) else None
    {
      val := if key in data then Some(data[key]) else None;
    }
  }

  /** `workerState`: what the next heartbeat will report. */
  class WorkerState {
    var addedArtifacts: seq<Id>
    var finishedJob: seq<JobResult>

    constructor ()
      ensures addedArtifacts == [] && finishedJob == []
    {
      addedArtifacts, finishedJob := [], [];
    }

    method AddArtifacts(ids: seq<Id>)
      modifies this`addedArtifacts
      ensures addedArtifacts == old(addedArtifacts) + ids
    {
      addedArtifacts := addedArtifacts + ids;
    }

    method AddJobResult(res: JobResult)
      modifies this`finishedJob
      ensures finishedJob == old(finishedJob) + [res]
    {
      finishedJob := finishedJob + [res];
    }
  }

  // ---- Commands ----

  /** What running one command gave. */
  datatype CommandRun = CommandRun(ok: bool, code: int, stdout: Bytes)

  /** How many commands are run to success before one fails. */
  function Successes(runs: seq<CommandRun>): (n: nat)
    ensures n <= |runs| && (forall i :: 0 <= i < n ==> runs[i].ok) && (n < |runs| ==> !runs[n].ok)
  {
    if runs == [] || !runs[0].ok then 0 else 1 + Successes(runs[1..])
  }

  function Stdout(runs: seq<CommandRun>): Bytes {
    if runs == [] then [] else Stdout(runs[..|runs| - 1]) + runs[|runs| - 1].stdout
  }

  /** Outputs are joined in the order of the commands. */
  lemma {:induction false} StdoutJoins(runs: seq<CommandRun>, more: seq<CommandRun>)
    ensures Stdout([]) == [] && (|runs| == 1 ==> Stdout(runs) == runs[0].stdout)
    ensures Stdout(runs + more) == Stdout(runs) + Stdout(more)
  {
    if more == [] {
      assert runs + more == runs;
    } else {
      var front := more[..|more| - 1];
      StdoutJoins(runs, front);
      assert (runs + more)[..|runs + more| - 1] == runs + front;
    }
  }

  /** The exit code of the last command that is run. */
  function ExitCode(runs: seq<CommandRun>): int {
    if runs == [] then 0
    else if Successes(runs) < |runs| then runs[Successes(runs)].code
    else runs[|runs| - 1].code
  }

  /** The loop over `job.Cmds`: it stops at the first failure, whose own output is dropped. */
  method RunCommands(runs: seq<CommandRun>) returns (ok: bool, code: int, stdout: Bytes)
    ensures ok <==> forall run <- runs :: run.ok
    ensures stdout == Stdout(runs[..Successes(runs)])
    ensures code == ExitCode(runs)
    ensures ok && runs != [] ==> code == runs[|runs| - 1].code
    ensures forall k :: 0 <= k < |runs| && !runs[k].ok && (forall j :: 0 <= j < k ==> runs[j].ok) ==>
              code == runs[k].code && stdout == Stdout(runs[..k])
  {
    ok, code, stdout := true, 0, [];
    var i := 0;
    while i < |runs|
      invariant 0 <= i <= |runs|
      invariant forall j :: 0 <= j < i ==> runs[j].ok
      invariant ok && stdout == Stdout(runs[..i])
      invariant code == if i == 0 then 0 else runs[i - 1].code
    {
      code := runs[i].code;
      if !runs[i].ok {
        return false, code, stdout;
      }
      assert runs[..i + 1][..i] == runs[..i];
      stdout := stdout + runs[i].stdout;
      i := i + 1;
    }
  }

  // ---- Executing a job ----

  datatype Execution = Panicked | Finished(ok: bool, code: int, stdout: Bytes)

  lemma Longer<T>(s: seq<T>, i: nat)
    requires i < |s|
    ensures multiset(s[..i + 1]) == multiset(s[..i]) + multiset{s[i]}
    ensures multiset(s[..i + 1]) <= multiset(s)
  {
    assert s[..i + 1] == s[..i] + [s[i]];
    assert s == s[..i + 1] + s[i + 1..];
  }

  /** The read locks that remain once the first `i` dependencies are unlocked. */
  ghost function Left(readers: multiset<Id>, deps: seq<Id>, i: nat): multiset<Id>
    requires i <= |deps|
  {
    readers - multiset(deps[..i])
  }

  lemma LeftNext(readers: multiset<Id>, deps: seq<Id>, i: nat)
    requires i < |deps| && multiset(deps) <= readers
    ensures Left(readers, deps, i)[deps[i]] > 0
    ensures Left(readers, deps, i + 1) == Left(readers, deps, i) - multiset{deps[i]}
  {
    Longer(deps, i);
  }

  /** Opening the dependencies in order, until one is missing. */
  method OpenDeps(artifacts: Cache, deps: seq<Id>) returns (found: bool)
    requires artifacts.Valid()
    modifies artifacts`readLocked, artifacts`readers
    ensures artifacts.Valid()
    ensures found <==> forall d <- deps :: d in artifacts.disk
    ensures found ==> artifacts.readers == old(artifacts.readers) + multiset(deps)
  {
    var i := 0;
    while i < |deps|
      invariant 0 <= i <= |deps| && artifacts.Valid()
      invariant forall j :: 0 <= j < i ==> deps[j] in artifacts.disk
      invariant artifacts.readers == old(artifacts.readers) + multiset(deps[..i])
    {
      Longer(deps, i);
      var err := artifacts.Get(deps[i]);
      if err.Some? {
        return false;
      }
      i := i + 1;
    }
    assert deps[..i] == deps;
    found := true;
  }

  method CloseDeps(artifacts: Cache, deps: seq<Id>)
    requires artifacts.Valid() && multiset(deps) <= artifacts.readers
    modifies artifacts`readLocked, artifacts`readers
    ensures artifacts.Valid() && artifacts.readers == Left(old(artifacts.readers), deps, |deps|)
  {
    var i := 0;
    while i < |deps|
      invariant 0 <= i <= |deps| && artifacts.Valid()
      invariant artifacts.readers == Left(old(artifacts.readers), deps, i)
    {
      LeftNext(old(artifacts.readers), deps, i);
      artifacts.Unlock(deps[i]);
      i := i + 1;
    }
  }

  /** What `executeJob` does between `Create` and its own commit or abort. */
  method ExecuteIn(artifacts: Cache, job: JobSpec, runs: seq<CommandRun>, output: Dir) returns (x: Execution)
    requires artifacts.Valid() && job.id in artifacts.creating
    modifies artifacts
    ensures artifacts.Valid()
    ensures x.Panicked? <==> exists d <- job.deps :: d !in old(artifacts.disk)
    ensures x.Finished? ==>
              && artifacts.creating == old(artifacts.creating) - {job.id}
              && artifacts.tmp == old(artifacts.tmp) - {job.id}
              && (x.ok <==> forall run <- runs :: run.ok)
              && x.code == ExitCode(runs) && x.stdout == Stdout(runs[..Successes(runs)])
              && artifacts.disk == (if x.ok then old(artifacts.disk)[job.id := output] else old(artifacts.disk))
              && artifacts.readers ==
                  (if x.ok then old(artifacts.readers) else old(artifacts.readers) + multiset(job.deps))
  {
    var found := OpenDeps(artifacts, job.deps);
    if !found {
      return Panicked;
    }
    var ok, code, stdout := RunCommands(runs);
    x := Finished(ok, code, stdout);
    if !ok {
      artifacts.Abort(job.id);
    } else {
      Publish(artifacts, job, output);
    }
  }

  method Publish(artifacts: Cache, job: JobSpec, output: Dir)
    requires artifacts.Valid() && job.id in artifacts.creating && multiset(job.deps) <= artifacts.readers
    modifies artifacts
    ensures artifacts.Valid()
    ensures artifacts.creating == old(artifacts.creating) - {job.id} && artifacts.tmp == old(artifacts.tmp) - {job.id}
    ensures artifacts.disk == old(artifacts.disk)[job.id := output]
    ensures artifacts.readers == old(artifacts.readers) - multiset(job.deps)
  {
    assert job.deps[..|job.deps|] == job.deps;
    artifacts.Fill(job.id, output);
    CloseDeps(artifacts, job.deps);
    var committed := artifacts.Commit(job.id);
  }

  /**
   `executeJob`, with everybody else at rest. A dependency that is missing makes it panic; failing
   commands leave the read locks on the dependencies in place.
   */
  method ExecuteJob(artifacts: Cache, job: JobSpec, linked: bool, runs: seq<CommandRun>, output: Dir)
      returns (x: Execution)
    requires artifacts.Valid()
    modifies artifacts
    ensures artifacts.Valid()
    ensures var starts := linked && old(artifacts.EntryAt(job.id)) == Entry(None, Free);
            && (x.Panicked? <==> starts && exists d <- job.deps :: d !in old(artifacts.disk))
            && (x.Finished? ==>
                  && artifacts.creating == old(artifacts.creating) && artifacts.tmp == old(artifacts.tmp)
                  && (x.ok <==> starts && forall run <- runs :: run.ok)
                  && x.code == (if starts then ExitCode(runs) else 0)
                  && x.stdout == (if starts then Stdout(runs[..Successes(runs)]) else [])
                  && artifacts.disk == (if x.ok then old(artifacts.disk)[job.id := output] else old(artifacts.disk))
                  && artifacts.readers ==
                      (if starts && !x.ok then old(artifacts.readers) + multiset(job.deps) else old(artifacts.readers)))
  {
    if !linked {
      return Finished(false, 0, []);
    }
    var err := artifacts.Create(job.id);
    if err.Some? {
      return Finished(false, 0, []);
    }
    assert artifacts.creating - {job.id} == old(artifacts.creating);
    assert artifacts.tmp - {job.id} == old(artifacts.tmp);
    x := ExecuteIn(artifacts, job, runs, output);
  }

  // ---- Fetching what a job needs ----

  /** An artifact that `downloadArtifacts` finds, or can download into `dir` from what its worker answers. */
  predicate Fetchable(e: Entry, dir: Path, resp: Response) {
    (e.content.Some? && e.lock != Write) || (e == Entry(None, Free) && Received(dir, resp).Some?)
  }

  predicate Distinct<T(==)>(s: seq<T>) {
    forall i, j :: 0 <= i < j < |s| ==> s[i] != s[j]
  }

  /** One artifact: present already, or downloaded. */
  method FetchArtifact(artifacts: Cache, id: Id, resp: Response) returns (ok: bool, added: bool)
    requires artifacts.Valid() && KeepsInside(artifacts.TmpDir(id), resp)
    modifies artifacts
    ensures artifacts.Valid() && artifacts.OnlyChanges(id)
    ensures artifacts.readers == old(artifacts.readers) && artifacts.creating == old(artifacts.creating)
    ensures ok <==> Fetchable(old(artifacts.EntryAt(id)), artifacts.TmpDir(id), resp)
    ensures ok && added ==> artifacts.EntryAt(id) == Entry(Received(artifacts.TmpDir(id), resp), Free)
    ensures !ok || !added ==> artifacts.CellOf(id) == old(artifacts.CellOf(id))
    ensures added <==> ok && id !in old(artifacts.disk)
  {
    var err := artifacts.Get(id);
    if err.None? {
      artifacts.Unlock(id);
      return true, false;
    }
    if err != Some(NotFound) {
      return false, false;
    }
    assert artifacts.EntryAt(id) == old(artifacts.EntryAt(id)) && artifacts.EntryAt(id).content == None;
    ok := Download(artifacts, id, resp);
    added := ok;
  }

  /** No answer leads out of the directory that it would be received into. */
  predicate AllInside(artifacts: Cache, ids: seq<Id>, responses: map<Id, Response>) {
    forall id <- ids :: id in responses ==> KeepsInside(artifacts.TmpDir(id), responses[id])
  }

  /** The artifact is what it was, or has been downloaded. */
  twostate predicate SameOrFetched(artifacts: Cache, ids: seq<Id>, responses: map<Id, Response>, id: Id)
    requires forall id <- ids :: id in responses
    reads artifacts
  {
    || artifacts.CellOf(id) == old(artifacts.CellOf(id))
    || (id in ids && id !in old(artifacts.disk)
        && artifacts.EntryAt(id) == Entry(Received(artifacts.TmpDir(id), responses[id]), Free))
  }

  ghost predicate CanFetch(artifacts: Cache, responses: map<Id, Response>, id: Id)
    requires id in responses
    reads artifacts
  {
    Fetchable(artifacts.EntryAt(id), artifacts.TmpDir(id), responses[id])
  }

  /**
   What is present is accepted as it is, whoever reads it and whatever its worker answers; and besides
   only what nobody makes or reads, if the answer can be received.
   */
  lemma CanFetchIff(artifacts: Cache, responses: map<Id, Response>, id: Id)
    requires artifacts.Valid() && id in responses
    ensures CanFetch(artifacts, responses, id) <==>
            || id in artifacts.disk
            || (id !in artifacts.creating && artifacts.readers[id] == 0
                && Received(artifacts.TmpDir(id), responses[id]).Some?)
  {
  }

  /**
   `downloadArtifacts` over the keys of `job.Artifacts` in some order. Its deferred report evaluates
   the list of added artifacts before the first download, so it never reports any. If an answer leads
   out of its directory, nothing is promised of any directory.
   */
  method DownloadArtifacts(artifacts: Cache, state: WorkerState, ids: seq<Id>, responses: map<Id, Response>)
      returns (ok: bool)
    requires artifacts.Valid() && Distinct(ids) && forall id <- ids :: id in responses
    modifies artifacts, state`addedArtifacts
    ensures artifacts.readers == old(artifacts.readers) && artifacts.creating == old(artifacts.creating)
    ensures state.addedArtifacts == old(state.addedArtifacts)
    ensures AllInside(artifacts, ids, responses) ==>
              && artifacts.Valid()
              && (ok <==> forall id <- ids :: old(CanFetch(artifacts, responses, id)))
              && (ok ==> forall id <- ids :: id in artifacts.disk)
              && forall id :: SameOrFetched(artifacts, ids, responses, id)
  {
    if !AllInside(artifacts, ids, responses) {
      artifacts.disk, artifacts.tmp, ok := *, *, *;
      return;
    }
    var addedArtifacts: seq<Id> := [];
    var atDefer := addedArtifacts;
    ok := true;
    var i := 0;
    while i < |ids| && ok
      invariant 0 <= i <= |ids| && artifacts.Valid()
      invariant artifacts.readers == old(artifacts.readers) && artifacts.creating == old(artifacts.creating)
      invariant state.addedArtifacts == old(state.addedArtifacts)
      invariant forall j :: i <= j < |ids| ==> artifacts.CellOf(ids[j]) == old(artifacts.CellOf(ids[j]))
      invariant forall id :: || artifacts.CellOf(id) == old(artifacts.CellOf(id))
                             || (id in ids && id !in old(artifacts.disk)
                                 && artifacts.EntryAt(id) == Entry(Received(artifacts.TmpDir(id), responses[id]), Free))
      invariant ok ==> forall j :: 0 <= j < i ==>
                  ids[j] in artifacts.disk && old(CanFetch(artifacts, responses, ids[j]))
      invariant !ok ==> exists j :: 0 <= j < |ids| && !old(CanFetch(artifacts, responses, ids[j]))
    {
      var added;
      ok, added := FetchArtifact(artifacts, ids[i], responses[ids[i]]);
      if added {
        addedArtifacts := addedArtifacts + [ids[i]];
      }
      i := i + 1;
    }
    state.AddArtifacts(atDefer);
    assert old(state.addedArtifacts) + [] == old(state.addedArtifacts);
  }

  // ---- One job ----

  /** What the world outside decides for one job: answers of other workers, source files, commands. */
  datatype World = World(order: seq<Id>, responses: map<Id, Response>, files: bool, runs: seq<CommandRun>, output: Dir)

  /** The artifacts of the job in some order, and an answer for each. */
  ghost predicate Offers(world: World, job: JobSpec) {
    && Distinct(world.order) && (forall id :: id in world.order <==> id in job.artifacts)
    && forall id <- world.order :: id in world.responses
  }

  class Worker {
    const artifacts: Cache
    const jobResultCache: SyncMap<Id, JobResult>
    const state: WorkerState

    constructor (artifacts: Cache)
      requires artifacts.Valid()
      ensures Valid() && this.artifacts == artifacts && fresh(jobResultCache) && fresh(state)
      ensures jobResultCache.data == map[] && state.finishedJob == []
    {
      this.artifacts := artifacts;
      jobResultCache := new SyncMap<Id, JobResult>();
      state := new WorkerState();
    }

    /** Every cached result belongs to its key, has no error, and its artifact is here. */
    ghost predicate Valid()
      reads this, artifacts, jobResultCache
    {
      && artifacts.Valid()
      && forall id <- jobResultCache.data ::
           && jobResultCache.data[id].id == id && jobResultCache.data[id].error == None
           && id in artifacts.disk
    }

    /** The job is run and not answered from the cache, and nothing stops it before its dependencies. */
    ghost predicate Starts(job: JobSpec, world: World)
      requires Offers(world, job)
      reads artifacts, jobResultCache
    {
      && job.id !in jobResultCache.data && world.files
      && (forall id <- world.order :: CanFetch(artifacts, world.responses, id))
      && job.id !in world.order && artifacts.EntryAt(job.id) == Entry(None, Free)
    }

    /** Some dependency is neither here nor fetched. */
    ghost predicate Misses(job: JobSpec)
      reads artifacts
    {
      exists d <- job.deps :: d !in job.artifacts && d !in artifacts.disk
    }

    /** What running the job has done to the artifacts, and the result that says so. */
    twostate predicate Computed(job: JobSpec, world: World, res: JobResult)
      requires Offers(world, job)
      reads artifacts, jobResultCache
    {
      var starts := old(Starts(job, world));
      && artifacts.creating == old(artifacts.creating)
      && (res.error == None <==> starts && forall run <- world.runs :: run.ok)
      && (res.error == None ==> artifacts.EntryAt(job.id) == Entry(Some(world.output), Free))
      && res.exitCode == (if starts then ExitCode(world.runs) else 0)
      && artifacts.readers ==
         (if starts && res.error != None then old(artifacts.readers) + multiset(job.deps) else old(artifacts.readers))
    }

    /**
     `runJob`: exactly one result is reported, and exactly the successful ones are cached. Of a job whose
     answers lead out of their directories nothing more is promised.
     */
    method RunJob(job: JobSpec, world: World) returns (panicked: bool, res: JobResult)
      requires Valid() && Offers(world, job)
      modifies artifacts, jobResultCache, state
      ensures state.addedArtifacts == old(state.addedArtifacts)
      ensures !panicked ==> res.id == job.id && state.finishedJob == old(state.finishedJob) + [res]
      ensures job.id in old(jobResultCache.data) ==>
                && !panicked && Valid() && res == old(jobResultCache.data)[job.id]
                && jobResultCache.data == old(jobResultCache.data)
                && artifacts.disk == old(artifacts.disk) && artifacts.readers == old(artifacts.readers)
      ensures job.id !in old(jobResultCache.data) && AllInside(artifacts, world.order, world.responses) ==>
                && (panicked <==> old(Starts(job, world)) && old(Misses(job)))
                && (!panicked ==>
                      && Valid() && Computed(job, world, res)
                      && jobResultCache.data == if res.error == None then old(jobResultCache.data)[job.id := res]
                                                else old(jobResultCache.data))
    {
      var cached := jobResultCache.Load(job.id);
      if cached.Some? {
        res := cached.value;
        panicked := false;
      } else {
        panicked, res := Compute(job, world);
        if panicked {
          return;
        }
        if res.error == None {
          jobResultCache.Store(job.id, res);
        }
      }
      state.AddJobResult(res);
    }

    /** The part of `runJob` after a miss in the result cache. */
    method Compute(job: JobSpec, world: World) returns (panicked: bool, res: JobResult)
      requires Valid() && Offers(world, job) && job.id !in jobResultCache.data
      modifies artifacts, state`addedArtifacts
      ensures state.addedArtifacts == old(state.addedArtifacts) && res.id == job.id
      ensures AllInside(artifacts, world.order, world.responses) ==>
                && (panicked <==> old(Starts(job, world)) && old(Misses(job)))
                && (!panicked ==> Valid() && Computed(job, world, res))
    {
      res := JobResult(job.id, 0, Some("error"));
      panicked := false;
      var fetched := DownloadArtifacts(artifacts, state, world.order, world.responses);
      if !AllInside(artifacts, world.order, world.responses) {
        panicked, res := Astray(job);
        return;
      }
      forall id <- old(artifacts.disk) ensures id in artifacts.disk {
        assert SameOrFetched(artifacts, world.order, world.responses, id);
      }
      assert SameOrFetched(artifacts, world.order, world.responses, job.id);
      if !fetched || !world.files {
        return;
      }
      forall d <- job.deps ensures d in artifacts.disk <==> d in job.artifacts || d in old(artifacts.disk) {
        assert SameOrFetched(artifacts, world.order, world.responses, d);
      }
      var x := ExecuteJob(artifacts, job, true, world.runs, world.output);
      match x
      case Panicked => panicked := true;
      case Finished(ok, code, _) => res := JobResult(job.id, code, if ok then None else Some("error"));
    }

    /** The rest of a job that has written where it should not have: anything may happen. */
    method Astray(job: JobSpec) returns (panicked: bool, res: JobResult)
      modifies artifacts
      ensures res.id == job.id
    {
      artifacts.disk, artifacts.tmp, artifacts.readLocked, artifacts.writeLocked := *, *, *, *;
      panicked, res := *, *;
      res := res.(id := job.id);
    }
  }
}
