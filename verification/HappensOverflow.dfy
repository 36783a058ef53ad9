/** Beyond the bound of `HappensBefore`: a run in which the counter wraps around and a channel is closed in vain. */
module HappensOverflow {
  import opened HappensBefore
  import opened Runs

  ghost predicate Goes(m: State, m': State) {
    exists a :: Step(m, a, m')
  }

  /** A run whose surplus is not bounded. */
  ghost predicate FreeRun(tr: seq<State>) {
    && |tr| > 0 && Init(tr[0])
    && forall i :: 0 <= i < |tr| - 1 ==> Goes(tr[i], tr[i + 1])
  }

  lemma Extend(tr: seq<State>, a: Action) returns (tr': seq<State>)
    requires FreeRun(tr) && Enabled(tr[|tr| - 1], a)
    ensures FreeRun(tr') && tr'[|tr'| - 1] == Apply(tr[|tr| - 1], a)
  {
    var m := Apply(tr[|tr| - 1], a);
    assert Step(tr[|tr| - 1], a, m) && Goes(tr[|tr| - 1], m);
    LinkOne(tr, m, (a, b) => Goes(a, b));
    tr' := tr + [m];
  }

  /** Nobody has ever called `Before`. */
  predicate NeverWaited(m: State) {
    m.before == Absent && m.subs == 0 && m.returned == 0
  }

  /** `n` events have happened, and no `Before` has been called. */
  predicate Surged(m: State, n: nat) {
    && NeverWaited(m) && m.adds == n && m.was == Int32(NOTHING + n) && m.current == 0 && m.closed == {}
    && forall h <- m.happens :: h < n
  }

  lemma {:induction false} Surge(n: nat) returns (tr: seq<State>)
    requires n < WRAP
    ensures FreeRun(tr) && Surged(tr[|tr| - 1], n)
  {
    if n == 0 {
      tr := [State(NOTHING, 0, 1, {}, map[], Absent, 0, 0, 0, 0)];
    } else {
      tr := Surge(n - 1);
      tr := OneMore(tr, n - 1);
    }
  }

  /** One more event, up to the addition and the decision whether to close. */
  lemma OneMore(tr: seq<State>, n: nat) returns (tr': seq<State>)
    requires FreeRun(tr) && Surged(tr[|tr| - 1], n)
    ensures FreeRun(tr') && Surged(tr'[|tr'| - 1], n + 1) && n in tr'[|tr'| - 1].happens
    ensures tr'[|tr'| - 1].happens[n] == if Int32(NOTHING + n + 1) == NOTHING then HappenLoad else HappenDone
  {
    Int32Adds(NOTHING + n, 1);
    tr' := Extend(tr, CallHappen(n));
    tr' := Extend(tr', Happen(n));
    tr' := Extend(tr', Happen(n));
  }

  /** After 2^32 events and no `Before` at all, a `Happen` closes the channel that the next waiter will be on. */
  lemma ClosesUnwaited() returns (tr: seq<State>)
    ensures FreeRun(tr)
    ensures var m := tr[|tr| - 1]; NeverWaited(m) && Surplus(m) == WRAP && m.current in m.closed
  {
    var h := WRAP - 1;
    tr := Surge(h);
    tr := OneMore(tr, h);
    Int32Exact(WRAP);
    tr := Extend(tr, Happen(h));
    tr := Extend(tr, Happen(h));
  }
}
