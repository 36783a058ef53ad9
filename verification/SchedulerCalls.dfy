/** What each call says to the scheduler, whatever others do meanwhile: all of it, once, in order; and it ends. */
module SchedulerCalls {
  import opened Basics
  import opened SchedulerLog
  import opened SchedulerMachine
  import opened SchedulerProofs

  /** What call `t` itself has said under `jobsMu` from state `i` to state `k`. */
  function Said(tr: seq<State>, t: nat, i: nat, k: nat): Log
    requires i <= k < |tr|
    decreases k
  {
    if i == k then []
    else Said(tr, t, i, k - 1) + if Moves(tr[k - 1], t, tr[k]) then NewLog(tr[k - 1], tr[k]) else []
  }

  /** And what it has said under `artifactsMu`. */
  function Named(tr: seq<State>, t: nat, i: nat, k: nat): Reports
    requires i <= k < |tr|
    decreases k
  {
    if i == k then []
    else Named(tr, t, i, k - 1) + if Moves(tr[k - 1], t, tr[k]) then NewTold(tr[k - 1], tr[k]) else []
  }

  /** How many steps it has taken itself. */
  function Turns(tr: seq<State>, t: nat, i: nat, k: nat): nat
    requires i <= k < |tr|
    decreases k
  {
    if i == k then 0 else Turns(tr, t, i, k - 1) + if Moves(tr[k - 1], t, tr[k]) then 1 else 0
  }

  function NewLog(m: State, m': State): Log {
    if |m.log| <= |m'.log| then m'.log[|m.log|..] else []
  }

  function NewTold(m: State, m': State): Reports {
    if |m.told| <= |m'.told| then m'.told[|m.told|..] else []
  }

  /** The completions that `reports` of a worker amount to. */
  function Completions(w: WorkerId, reports: seq<Report>): (log: Log)
    ensures |log| == |reports|
    ensures forall n :: 0 <= n < |reports| ==> log[n] == Completed(w, reports[n].0, reports[n].1)
  {
    seq(|reports|, n requires 0 <= n < |reports| => Completed(w, reports[n].0, reports[n].1))
  }

  function Holdings(w: WorkerId, reports: seq<Report>): (told: Reports)
    ensures |told| == |reports|
    ensures forall n :: 0 <= n < |reports| ==> told[n] == (reports[n].0, w)
  {
    seq(|reports|, n requires 0 <= n < |reports| => (reports[n].0, w))
  }

  /** How many reports a heartbeat that came with `all` of them has still to make. */
  predicate Left(all: seq<Report>, rest: seq<Report>) {
    |rest| <= |all| && rest == all[|all| - |rest|..]
  }

  /** Where a call that started as `start` can be once it has said this much. */
  predicate Spoken(start: Pc, pc: Pc, said: Log, named: Reports) {
    match start
    case SchedStart(job) => named == [] && (
      match pc
      case SchedStart(j) => j == job && said == []
      case SchedPush(_) => said == [Scheduled(job)]
      case SchedStore(_) => said == [Scheduled(job)]
      case SchedDone(_) => said == [Scheduled(job)]
      case _ => false)
    case Beat(w, _, all) => (
      match pc
      case Beat(v, _, rest) =>
        && v == w && Left(all, rest)
        && said == Completions(w, all[..|all| - |rest|]) && named == Holdings(w, all[..|all| - |rest|])
      case BeatHolder(v, _, id, rest, _) =>
        && v == w && Left(all, rest) && |rest| < |all| && id == all[|all| - |rest| - 1].0
        && said == Completions(w, all[..|all| - |rest|]) && named == Holdings(w, all[..|all| - |rest| - 1])
      case BeatTry(_, _, _) => said == Completions(w, all) && named == Holdings(w, all)
      case BeatDone(_) => said == Completions(w, all) && named == Holdings(w, all)
      case _ => false)
    case _ => true
  }

  lemma BuilderSpeaks(m: State, t: nat, m': State, start: Pc, said: Log, named: Reports)
    requires start.SchedStart? && Moves(m, t, m') && Spoken(start, m.threads[t], said, named)
    ensures t in m'.threads && Spoken(start, m'.threads[t], said + NewLog(m, m'), named + NewTold(m, m'))
  {
  }

  lemma ReportSpeaks(m: State, t: nat, m': State, start: Pc, said: Log, named: Reports)
    requires start.Beat? && Moves(m, t, m') && Spoken(start, m.threads[t], said, named)
    requires m.threads[t].Beat? && m.threads[t].reports != []
    ensures t in m'.threads && Spoken(start, m'.threads[t], said + NewLog(m, m'), named + NewTold(m, m'))
  {
    var w, all, rest := start.worker, start.reports, m.threads[t].reports;
    var d := |all| - |rest|;
    assert rest[0] == all[d] && rest[1..] == all[d + 1..];
    assert NewLog(m, m') == [Completed(w, rest[0].0, rest[0].1)] && NewTold(m, m') == [];
    assert Completions(w, all[..d + 1]) == Completions(w, all[..d]) + [Completed(w, all[d].0, all[d].1)];
  }

  lemma HolderSpeaks(m: State, t: nat, m': State, start: Pc, said: Log, named: Reports)
    requires start.Beat? && Moves(m, t, m') && Spoken(start, m.threads[t], said, named)
    requires m.threads[t].BeatHolder?
    ensures t in m'.threads && Spoken(start, m'.threads[t], said + NewLog(m, m'), named + NewTold(m, m'))
  {
    var w, all, rest := start.worker, start.reports, m.threads[t].rest;
    var d := |all| - |rest|;
    assert NewLog(m, m') == [] && NewTold(m, m') == [(all[d - 1].0, w)];
    assert Holdings(w, all[..d]) == Holdings(w, all[..d - 1]) + [(all[d - 1].0, w)];
  }

  lemma PickSpeaks(m: State, t: nat, m': State, start: Pc, said: Log, named: Reports)
    requires start.Beat? && Moves(m, t, m') && Spoken(start, m.threads[t], said, named)
    requires m.threads[t].BeatTry? || (m.threads[t].Beat? && m.threads[t].reports == [])
    ensures t in m'.threads && Spoken(start, m'.threads[t], said + NewLog(m, m'), named + NewTold(m, m'))
  {
    assert start.reports[..|start.reports|] == start.reports;
    assert NewLog(m, m') == [] && NewTold(m, m') == [];
  }

  lemma OwnSpeaks(m: State, t: nat, m': State, start: Pc, said: Log, named: Reports)
    requires start.SchedStart? || start.Beat?
    requires Moves(m, t, m') && Spoken(start, m.threads[t], said, named)
    ensures t in m'.threads && Spoken(start, m'.threads[t], said + NewLog(m, m'), named + NewTold(m, m'))
  {
    if start.SchedStart? {
      BuilderSpeaks(m, t, m', start, said, named);
    } else if m.threads[t].BeatHolder? {
      HolderSpeaks(m, t, m', start, said, named);
    } else if m.threads[t].Beat? && m.threads[t].reports != [] {
      ReportSpeaks(m, t, m', start, said, named);
    } else {
      PickSpeaks(m, t, m', start, said, named);
    }
  }

  /** How many steps of its own a call needs to its end. */
  function Ahead(pc: Pc): nat {
    match pc
    case SchedStart(_) => 3
    case SchedPush(_) => 2
    case SchedStore(_) => 1
    case SchedDone(_) => 0
    case Beat(_, slots, reports) => 2 * |reports| + 1 + Tries(slots)
    case BeatHolder(_, slots, _, rest, _) => 2 * |rest| + 2 + Tries(slots)
    case BeatTry(_, slots, tries) => Tries(slots) + tries
    case BeatDone(_) => 0
  }

  /** Four for each slot but one. */
  function Tries(slots: int): nat {
    if slots > 1 then 4 * (slots - 1) else 0
  }

  predicate Fit(pc: Pc) {
    pc.BeatTry? ==> pc.slots >= 1 && pc.tries >= 1
  }

  lemma TryStep(m: State, t: nat, m': State)
    requires Moves(m, t, m') && Fit(m.threads[t]) && m.threads[t].BeatTry?
    ensures t in m'.threads && m'.threads[t] != m.threads[t] && Fit(m'.threads[t])
    ensures Ahead(m.threads[t]) >= 1 + Ahead(m'.threads[t])
  {
    OwnThread(m, t, m');
  }

  lemma ScheduleStep(m: State, t: nat, m': State)
    requires Moves(m, t, m') && (m.threads[t].SchedStart? || InSchedule(m.threads[t]))
    ensures t in m'.threads && m'.threads[t] != m.threads[t] && Fit(m'.threads[t])
    ensures Ahead(m.threads[t]) >= 1 + Ahead(m'.threads[t])
  {
  }

  lemma OwnStep(m: State, t: nat, m': State)
    requires Moves(m, t, m') && Fit(m.threads[t])
    ensures t in m'.threads && m'.threads[t] != m.threads[t] && Fit(m'.threads[t])
    ensures Ahead(m.threads[t]) >= 1 + Ahead(m'.threads[t])
  {
    if m.threads[t].BeatTry? {
      TryStep(m, t, m');
    } else if m.threads[t].SchedStart? || InSchedule(m.threads[t]) {
      ScheduleStep(m, t, m');
    }
  }

  /** A call at its place, what it has said so far, and how many steps it has taken of those it had ahead. */
  ghost predicate OnItsWay(start: Pc, m: State, t: nat, said: Log, named: Reports, turns: nat) {
    && t in m.threads && Fit(m.threads[t]) && Spoken(start, m.threads[t], said, named)
    && turns + Ahead(m.threads[t]) <= Ahead(start)
  }

  lemma NextOnItsWay(start: Pc, m: State, m': State, t: nat, said: Log, named: Reports, turns: nat)
    requires start.SchedStart? || start.Beat?
    requires Next(m, m') && OnItsWay(start, m, t, said, named, turns)
    ensures if Moves(m, t, m') then
              OnItsWay(start, m', t, said + NewLog(m, m'), named + NewTold(m, m'), turns + 1)
            else OnItsWay(start, m', t, said, named, turns)
  {
    if Moves(m, t, m') {
      OwnSpeaks(m, t, m', start, said, named);
      OwnStep(m, t, m');
    } else {
      ElseStays(m, m', t);
    }
  }

  lemma ElseStays(m: State, m': State, t: nat)
    requires Next(m, m') && !Moves(m, t, m') && t in m.threads
    ensures t in m'.threads && m'.threads[t] == m.threads[t]
  {
    if u :| Moves(m, u, m') {
      MutexView(m, u, m');
    }
  }

  ghost predicate Goes(tr: seq<State>, start: Pc, t: nat, i: nat, k: nat)
    requires i <= k < |tr|
  {
    OnItsWay(start, tr[k], t, Said(tr, t, i, k), Named(tr, t, i, k), Turns(tr, t, i, k))
  }

  ghost predicate KeepsGoing(tr: seq<State>, start: Pc, t: nat, i: nat, k: nat)
    requires i <= k && k + 1 < |tr|
  {
    Goes(tr, start, t, i, k) ==> Goes(tr, start, t, i, k + 1)
  }

  lemma StepGoes(tr: seq<State>, start: Pc, t: nat, i: nat, k: nat)
    requires Run(tr) && i <= k && k + 1 < |tr| && (start.SchedStart? || start.Beat?)
    ensures KeepsGoing(tr, start, t, i, k)
  {
    if Goes(tr, start, t, i, k) {
      NextOnItsWay(start, tr[k], tr[k + 1], t, Said(tr, t, i, k), Named(tr, t, i, k), Turns(tr, t, i, k));
      assert Said(tr, t, i, k) + [] == Said(tr, t, i, k) && Named(tr, t, i, k) + [] == Named(tr, t, i, k);
    }
  }

  lemma Starts(m: State, t: nat)
    requires t in m.threads && (m.threads[t].SchedStart? || m.threads[t].Beat?)
    ensures OnItsWay(m.threads[t], m, t, [], [], 0)
  {
    if m.threads[t].Beat? {
      var all := m.threads[t].reports;
      assert all[0..] == all && all[..0] == [];
    }
  }

  lemma {:induction false} GoesChain(tr: seq<State>, start: Pc, t: nat, i: nat, k: nat)
    requires i <= k < |tr| && Goes(tr, start, t, i, i)
    requires forall j :: i <= j < k ==> KeepsGoing(tr, start, t, i, j)
    ensures Goes(tr, start, t, i, k)
    decreases k
  {
    if i < k {
      GoesChain(tr, start, t, i, k - 1);
      assert KeepsGoing(tr, start, t, i, k - 1);
    }
  }

  lemma RunGoes(tr: seq<State>, t: nat, i: nat, k: nat)
    requires Run(tr) && i <= k < |tr| && t in tr[i].threads && (tr[i].threads[t].SchedStart? || tr[i].threads[t].Beat?)
    ensures Goes(tr, tr[i].threads[t], t, i, k)
  {
    var start := tr[i].threads[t];
    Starts(tr[i], t);
    forall j | i <= j < k ensures KeepsGoing(tr, start, t, i, j) {
      StepGoes(tr, start, t, i, j);
    }
    GoesChain(tr, start, t, i, k);
  }

  /** A call of `ScheduleJob` has said one thing once it is past its start, and is over after three steps at most. */
  lemma BuilderHeard(tr: seq<State>, t: nat, i: nat, k: nat)
    requires Run(tr) && i <= k < |tr| && t in tr[i].threads && tr[i].threads[t].SchedStart?
    ensures t in tr[k].threads
    ensures Said(tr, t, i, k) == if tr[k].threads[t].SchedStart? then [] else [Scheduled(tr[i].threads[t].job)]
    ensures Named(tr, t, i, k) == [] && Turns(tr, t, i, k) <= 3
    ensures Turns(tr, t, i, k) == 3 ==> tr[k].threads[t].SchedDone?
  {
    RunGoes(tr, t, i, k);
  }

  /**
   A heartbeat makes all of its reports, in order and each once, to the jobs and to the holders, before it
   looks for jobs; and it is over after two steps for each report, one for its first job and four for each
   slot after the first.
   */
  lemma ReportsHeard(tr: seq<State>, t: nat, i: nat, k: nat)
    requires Run(tr) && i <= k < |tr| && t in tr[i].threads && tr[i].threads[t].Beat?
    ensures t in tr[k].threads
    ensures var (w, all, pc) := (tr[i].threads[t].worker, tr[i].threads[t].reports, tr[k].threads[t]);
            && Said(tr, t, i, k) <= Completions(w, all) && Named(tr, t, i, k) <= Holdings(w, all)
            && |Named(tr, t, i, k)| <= |Said(tr, t, i, k)| <= |Named(tr, t, i, k)| + 1
            && (pc.BeatTry? || pc.BeatDone? ==>
                  Said(tr, t, i, k) == Completions(w, all) && Named(tr, t, i, k) == Holdings(w, all))
    ensures var slots := tr[i].threads[t].slots;
            var most := 2 * |tr[i].threads[t].reports| + 1 + 4 * (if slots > 1 then slots - 1 else 0);
            Turns(tr, t, i, k) <= most && (Turns(tr, t, i, k) == most ==> tr[k].threads[t].BeatDone?)
  {
    RunGoes(tr, t, i, k);
  }
}
