/** What the happens-before machine promises in every run below the bound, and exactly where the bound matters. */
module HappensTheorems {
  import opened Basics
  import opened HappensBefore

  /** The k-th return of `Before` comes after at least k completed events. */
  lemma ReturnsAfterEvents(tr: seq<State>, i: nat)
    requires Run(tr) && i < |tr|
    ensures tr[i].returned <= tr[i].adds <= tr[i].events
  {
    RunInv(tr, i);
  }

  /** A pending close is of the one open channel that the only waiter is on; no channel is closed twice. */
  lemma NoDoubleClose(tr: seq<State>, i: nat, h: nat)
    requires Run(tr) && i < |tr| && h in tr[i].happens && Closer(tr[i].happens[h])
    ensures Waits(tr[i]) && !tr[i].before.BeforeReplace? && Surplus(tr[i]) >= 0
    ensures tr[i].current !in tr[i].closed
    ensures tr[i].happens[h].HappenClose? ==> tr[i].happens[h].chan == tr[i].current
    ensures tr[i].before.BeforeReceive? ==> tr[i].before.chan == tr[i].current
    ensures Enabled(tr[i], Happen(h))
    ensures forall g <- tr[i].happens :: Closer(tr[i].happens[g]) ==> g == h
  {
    RunInv(tr, i);
    assert HasCloser(tr[i]);
  }

  /** No lost wake-up: once its count is raised, a waiter can go on, or the one that will wake it can. */
  lemma NoLostWakeUp(tr: seq<State>, i: nat)
    requires Run(tr) && i < |tr| && Waits(tr[i]) && Surplus(tr[i]) >= 0
    ensures Enabled(tr[i], Before) || exists h ::
              h in tr[i].happens && Closer(tr[i].happens[h]) && Enabled(tr[i], Happen(h))
  {
    RunInv(tr, i);
    if tr[i].current !in tr[i].closed {
      var h :| h in tr[i].happens && Closer(tr[i].happens[h]);
      NoDoubleClose(tr, i, h);
    }
  }

  /** `Before` blocks only if it is ahead of all the `Happen`s that have been counted. */
  lemma BlocksOnlyAhead(m: State)
    requires Inv(m) && m.before != Absent && !Enabled(m, Before)
    ensures Surplus(m) == -1 || HasCloser(m)
  {
  }

  /** Additions not yet consumed by a return: the value of the semaphore. */
  function Permits(m: State): int {
    m.adds - m.returned
  }

  /** Each step leaves the semaphore alone, adds one permit after an event, or returns and takes one that is there. */
  lemma RefinesSemaphore(m: State, a: Action, m': State)
    requires Inv(m) && Step(m, a, m') && Surplus(m') < WRAP
    ensures Permits(m) >= 0
    ensures m'.returned == m.returned ==>
              Permits(m') == Permits(m) || (Permits(m') == Permits(m) + 1 && m'.adds == m.adds + 1 <= m.events)
    ensures m'.returned != m.returned ==> Permits(m) >= 1 && Permits(m') == Permits(m) - 1
  {
    StepInv(m, a, m');
    if a.Happen? && m.happens[a.h] == HappenAdd {
      assert a.h in Pending(m);
    }
  }

  /** A waiter that nobody has set out to wake yet. */
  ghost predicate NeedsWake(m: State) {
    Waits(m) && !HasCloser(m) && m.current !in m.closed
  }

  /**
   Where the bound matters: an addition sends its `Happen` to close the channel if and only if a waiter
   needs waking, or the surplus has just reached 2^32; and then nobody needs waking.
   */
  lemma ClosesIff(m: State, h: nat)
    requires Inv(m) && Enabled(m, Happen(h)) && m.happens[h] == HappenAdd
    ensures NeedsWake(m) <==> Surplus(m) == -1
    ensures var m' := Apply(m, Happen(h));
            Closer(m'.happens[h]) <==> NeedsWake(m) || Surplus(m') == WRAP
  {
    Int32Adds(NOTHING + Surplus(m), 1);
    Int32Exact(Surplus(m) + 1);
  }

  // ---- What a Before can count on ----

  /** The state after these steps, if each of them can be taken. */
  function Play(m: State, steps: seq<Action>): Option<State>
    decreases |steps|
  {
    if steps == [] then Some(m)
    else if Enabled(m, steps[0]) then Play(Apply(m, steps[0]), steps[1..])
    else None
  }

  lemma {:induction false} PlayMore(m: State, steps: seq<Action>, a: Action) returns (end: State)
    requires Play(m, steps).Some? && Enabled(Play(m, steps).value, a)
    ensures Play(m, steps + [a]) == Some(end) && end == Apply(Play(m, steps).value, a)
    decreases |steps|
  {
    if steps == [] {
      assert (steps + [a])[1..] == [];
      end := Apply(m, a);
    } else {
      assert (steps + [a])[1..] == steps[1..] + [a];
      end := PlayMore(Apply(m, steps[0]), steps[1..], a);
    }
  }

  /** A `Before` that an event is waiting for returns with its first step, and touches no channel. */
  lemma ReturnsAtOnce(m: State)
    requires Inv(m) && m.before == Absent && Surplus(m) >= 1
    ensures var end := Play(m, [CallBefore, Before]);
            && end.Some? && end.value.before == Absent && end.value.returned == m.returned + 1
            && end.value.current == m.current && end.value.closed == m.closed && end.value.happens == m.happens
  {
    var called := PlayMore(m, [], CallBefore);
    var end := PlayMore(m, [CallBefore], Before);
    BeforeAdds(called, end);
    assert [CallBefore] + [Before] == [CallBefore, Before];
  }

  /** A whole `Happen` that finds someone to wake. */
  function Wakes(h: nat): seq<Action> {
    [CallHappen(h), Happen(h), Happen(h), Happen(h), Happen(h)]
  }

  /**
   A `Before` that is ahead of all events blocks, whatever happened earlier; the next `Happen` wakes it,
   and it returns and leaves a new channel that is open.
   */
  lemma WaitsAndWakes(m: State, h: nat)
    requires Inv(m) && m.before == Absent && Surplus(m) == 0 && h !in m.happens
    ensures var w := Play(m, [CallBefore, Before, Before]);
            && w.Some? && w.value.before.BeforeReceive? && !Enabled(w.value, Before)
            && var end := Play(w.value, Wakes(h) + [Before, Before]);
            && end.Some? && end.value.before == Absent && end.value.happens == m.happens[h := HappenDone]
            && end.value.returned == m.returned + 1 && end.value.events == m.events + 1
            && end.value.current != m.current && end.value.current !in end.value.closed
  {
    var w := Waiting(m);
    var woken := Woken(w, h);
    var going := PlayMore(w, Wakes(h), Before);
    var end := PlayMore(w, Wakes(h) + [Before], Before);
    assert Wakes(h) + [Before] + [Before] == Wakes(h) + [Before, Before];
  }

  lemma Waiting(m: State) returns (w: State)
    requires Inv(m) && m.before == Absent && Surplus(m) == 0
    ensures Play(m, [CallBefore, Before, Before]) == Some(w) && !Enabled(w, Before)
    ensures w == m.(was := WAITING, subs := m.subs + 1, before := BeforeReceive(m.current))
  {
    w := PlayMore(m, [], CallBefore);
    w := PlayMore(m, [CallBefore], Before);
    assert [CallBefore] + [Before] == [CallBefore, Before];
    w := PlayMore(m, [CallBefore, Before], Before);
    assert [CallBefore, Before] + [Before] == [CallBefore, Before, Before];
  }

  lemma Woken(w: State, h: nat) returns (woken: State)
    requires w.was == WAITING && h !in w.happens && w.before == BeforeReceive(w.current) && w.current !in w.closed
    ensures Play(w, Wakes(h)) == Some(woken)
    ensures woken == w.(was := NOTHING, closed := w.closed + {w.current}, happens := w.happens[h := HappenDone],
                        events := w.events + 1, adds := w.adds + 1)
  {
    woken := PlayMore(w, [], CallHappen(h));
    woken := PlayMore(w, Wakes(h)[..1], Happen(h));
    assert Wakes(h)[..1] + [Happen(h)] == Wakes(h)[..2];
    woken := PlayMore(w, Wakes(h)[..2], Happen(h));
    assert Wakes(h)[..2] + [Happen(h)] == Wakes(h)[..3];
    woken := PlayMore(w, Wakes(h)[..3], Happen(h));
    assert Wakes(h)[..3] + [Happen(h)] == Wakes(h)[..4];
    woken := PlayMore(w, Wakes(h)[..4], Happen(h));
    assert Wakes(h)[..4] + [Happen(h)] == Wakes(h);
  }
}
