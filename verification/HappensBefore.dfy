/**
 `concurrency.HappenceBeforeMachine` for one key: any number of `Happen`s, at most one `Before` at a
 time. Keys share nothing but the mutex under which `create` makes their entries.

 The counter is a 32-bit integer that wraps around; `Before` replaces the channel that `*wait` names.
 Reading `*wait`, and closing or receiving from the channel it named, are separate steps.
 */
module HappensBefore {
  const WRAP: int := 0x1_0000_0000

  const MAX_INT32: int := 0x7fff_ffff
  const MIN_INT32: int := -0x8000_0000

  /** The value an `atomic.Int32` holds after additions that sum up to `n`. */
  function Int32(n: int): (v: int)
    ensures MIN_INT32 <= v <= MAX_INT32
    decreases if n > MAX_INT32 then n - MAX_INT32 else if n < MIN_INT32 then MIN_INT32 - n + 1 else 0
  {
    if n > MAX_INT32 then Int32(n - WRAP) else if n < MIN_INT32 then Int32(n + WRAP) else n
  }

  const WAITING := 0
  const NOTHING := 1

  datatype HappenPc =
    | HappenStart
    | HappenAdd                  // the event has run
    | HappenLoad                 // about to read `*wait`
    | HappenClose(chan: nat)
    | HappenDone

  datatype BeforePc =
    | Absent
    | BeforeAdd
    | BeforeLoad
    | BeforeReceive(chan: nat)
    | BeforeReplace

  /**
   `current` is the channel that `*wait` names, `made` how many channels there have been. The last four
   fields count: events run, additions of one, subtractions of one, returns of `Before`.
   */
  datatype State = State(was: int, current: nat, made: nat, closed: set<nat>,
                         happens: map<nat, HappenPc>, before: BeforePc,
                         events: nat, adds: nat, subs: nat, returned: nat)

  predicate Init(m: State) {
    && m.was == NOTHING && m.current == 0 && m.made == 1 && m.closed == {}
    && m.happens == map[] && m.before == Absent
    && m.events == m.adds == m.subs == m.returned == 0
  }

  datatype Action =
    | CallHappen(h: nat)
    | Happen(h: nat)
    | CallBefore
    | Before

  /** Closing a closed channel is no step but a panic; `HappensTheorems.NoDoubleClose` says it never comes to that. */
  predicate Enabled(m: State, a: Action) {
    match a
    case CallHappen(h) => h !in m.happens
    case Happen(h) =>
      && h in m.happens && m.happens[h] != HappenDone
      && (m.happens[h].HappenClose? ==> m.happens[h].chan !in m.closed)
    case CallBefore => m.before == Absent
    case Before => m.before != Absent && (m.before.BeforeReceive? ==> m.before.chan in m.closed)
  }

  function Apply(m: State, a: Action): State
    requires Enabled(m, a)
  {
    match a
    case CallHappen(h) => m.(happens := m.happens[h := HappenStart])
    case Happen(h) => HappenStep(m, h)
    case CallBefore => m.(before := BeforeAdd)
    case Before => BeforeStep(m)
  }

  function HappenStep(m: State, h: nat): State
    requires Enabled(m, Happen(h))
  {
    match m.happens[h]
    case HappenStart => m.(events := m.events + 1, happens := m.happens[h := HappenAdd])
    case HappenAdd =>
      var was := Int32(m.was + 1);
      m.(was := was, adds := m.adds + 1, happens := m.happens[h := if was == NOTHING then HappenLoad else HappenDone])
    case HappenLoad => m.(happens := m.happens[h := HappenClose(m.current)])
    case HappenClose(c) => m.(closed := m.closed + {c}, happens := m.happens[h := HappenDone])
  }

  function BeforeStep(m: State): State
    requires Enabled(m, Before)
  {
    match m.before
    case BeforeAdd =>
      var was := Int32(m.was - 1);
      if was == WAITING then m.(was := was, subs := m.subs + 1, before := BeforeLoad)
      else m.(was := was, subs := m.subs + 1, before := Absent, returned := m.returned + 1)
    case BeforeLoad => m.(before := BeforeReceive(m.current))
    case BeforeReceive(_) => m.(before := BeforeReplace)
    case BeforeReplace => m.(current := m.made, made := m.made + 1, before := Absent, returned := m.returned + 1)
  }

  predicate Step(m: State, a: Action, m': State) {
    Enabled(m, a) && m' == Apply(m, a)
  }

  /** A step that keeps fewer than 2^32 `Happen`s ahead of the `Before`s. */
  ghost predicate Next(m: State, m': State) {
    Surplus(m') < WRAP && exists a :: Step(m, a, m')
  }

  function Surplus(m: State): int {
    m.adds - m.subs
  }

  ghost predicate Run(tr: seq<State>) {
    && |tr| > 0 && Init(tr[0])
    && forall i :: 0 <= i < |tr| - 1 ==> Next(tr[i], tr[i + 1])
  }

  // ---- Invariant ----

  predicate Waits(m: State) {
    m.before.BeforeLoad? || m.before.BeforeReceive? || m.before.BeforeReplace?
  }

  predicate Closer(pc: HappenPc) {
    pc.HappenLoad? || pc.HappenClose?
  }

  ghost predicate HasCloser(m: State) {
    exists h :: h in m.happens && Closer(m.happens[h])
  }

  predicate CounterInv(m: State) {
    && m.was == Int32(NOTHING + Surplus(m)) && -1 <= Surplus(m) < WRAP
    && m.subs == m.returned + (if Waits(m) then 1 else 0)
    && m.adds <= m.events
  }

  ghost predicate ChannelInv(m: State) {
    && m.current < m.made && (forall c <- m.closed :: c < m.made)
    && (forall h <- m.happens :: m.happens[h].HappenClose? ==> m.happens[h].chan == m.current)
    && (forall h <- m.happens, g <- m.happens :: Closer(m.happens[h]) && Closer(m.happens[g]) ==> h == g)
    && (m.before.BeforeReceive? ==> m.before.chan == m.current)
  }

  /** Who is to wake the waiter: nobody yet, one pending closer, or the channel is closed already. */
  ghost predicate WakeInv(m: State) {
    if !Waits(m) then Surplus(m) >= 0 && !HasCloser(m) && m.current !in m.closed
    else if Surplus(m) == -1 then !HasCloser(m) && m.current !in m.closed && !m.before.BeforeReplace?
    else (HasCloser(m) <==> m.current !in m.closed) && (m.before.BeforeReplace? ==> m.current in m.closed)
  }

  /** Events that have run and not been added yet are those of the `Happen`s at that point. */
  function Pending(m: State): set<nat> {
    set h | h in m.happens && m.happens[h] == HappenAdd
  }

  ghost predicate Inv(m: State) {
    CounterInv(m) && ChannelInv(m) && WakeInv(m) && m.events == m.adds + |Pending(m)|
  }

  // ---- Arithmetic of the counter ----

  /** Wrapping at each addition or once at the end makes no difference. */
  lemma {:induction false} Int32Adds(n: int, d: int)
    requires -1 <= d <= 1
    ensures Int32(Int32(n) + d) == Int32(n + d)
    decreases if n > MAX_INT32 then n - MAX_INT32 else if n < MIN_INT32 then MIN_INT32 - n + 1 else 0
  {
    if n > MAX_INT32 {
      Int32Adds(n - WRAP, d);
      Int32Period(n - WRAP + d);
    } else if n < MIN_INT32 {
      Int32Adds(n + WRAP, d);
      Int32Period(n + d);
    }
  }

  lemma Int32Period(n: int)
    ensures Int32(n + WRAP) == Int32(n)
  {
    if n < MIN_INT32 {
    } else if n <= MAX_INT32 {
      assert Int32(n + WRAP) == Int32(n);
    }
  }

  /** For a surplus within the bound, the counter becomes `NOTHING` or `WAITING` only when it means it. */
  lemma Int32Exact(surplus: int)
    requires -1 <= surplus <= WRAP
    ensures Int32(NOTHING + surplus) == NOTHING <==> surplus == 0 || surplus == WRAP
    ensures Int32(NOTHING + surplus) == WAITING <==> surplus == -1 || surplus == WRAP - 1
  {
  }

  // ---- Preservation ----

  lemma HappenCounts(m: State, h: nat, m': State)
    requires Inv(m) && Step(m, Happen(h), m') && Surplus(m') < WRAP
    ensures CounterInv(m')
  {
    Int32Adds(NOTHING + Surplus(m), 1);
    assert m.happens[h] == HappenAdd ==> h in Pending(m) && |Pending(m)| > 0;
  }

  lemma HappenPends(m: State, h: nat, m': State)
    requires Step(m, Happen(h), m') && m.events == m.adds + |Pending(m)|
    ensures m'.events == m'.adds + |Pending(m')|
  {
    PendingMoves(m, h, m');
  }

  lemma PendingMoves(m: State, h: nat, m': State)
    requires h in m.happens && h in m'.happens && m'.happens == m.happens[h := m'.happens[h]]
    ensures |Pending(m')| == |Pending(m)| + (if m'.happens[h] == HappenAdd then 1 else 0)
                                          - (if m.happens[h] == HappenAdd then 1 else 0)
  {
    var others := Pending(m) - {h};
    assert Pending(m) == if m.happens[h] == HappenAdd then others + {h} else others;
    assert Pending(m') == if m'.happens[h] == HappenAdd then others + {h} else others;
  }

  lemma HappenAdds(m: State, h: nat, m': State)
    requires Inv(m) && Step(m, Happen(h), m') && Surplus(m') < WRAP && m.happens[h] == HappenAdd
    ensures m'.happens[h] == HappenLoad <==> Surplus(m) == -1
    ensures ChannelInv(m') && WakeInv(m')
  {
    Int32Adds(NOTHING + Surplus(m), 1);
    Int32Exact(Surplus(m) + 1);
    assert !HasCloser(m) ==> forall g <- m.happens :: !Closer(m.happens[g]);
    if Surplus(m) == -1 {
      assert Closer(m'.happens[h]);
    } else {
      CloserKept(m, h, m');
    }
  }

  /** A `Happen` that neither becomes nor stops being a closer. */
  lemma CloserKept(m: State, h: nat, m': State)
    requires h in m'.happens && m'.happens == m.happens[h := m'.happens[h]]
    requires h in m.happens ==> Closer(m'.happens[h]) == Closer(m.happens[h])
    requires h !in m.happens ==> !Closer(m'.happens[h])
    ensures HasCloser(m') <==> HasCloser(m)
  {
    if g :| g in m.happens && Closer(m.happens[g]) {
      assert g in m'.happens && Closer(m'.happens[g]);
    }
  }

  lemma HappenCloses(m: State, h: nat, m': State)
    requires Inv(m) && Step(m, Happen(h), m') && m.happens[h] != HappenAdd
    ensures ChannelInv(m') && WakeInv(m')
  {
    if m.happens[h].HappenClose? {
      assert Closer(m.happens[h]);
      assert !HasCloser(m');
    } else {
      CloserKept(m, h, m');
    }
  }

  lemma BeforeCounts(m: State, m': State)
    requires Inv(m) && Step(m, Before, m')
    ensures CounterInv(m') && m'.events == m'.adds + |Pending(m')|
    ensures m.before == BeforeAdd ==> (m'.before == BeforeLoad <==> Surplus(m) == 0)
  {
    assert Pending(m') == Pending(m);
    if m.before == BeforeAdd {
      BeforeAdds(m, m');
    }
  }

  lemma BeforeAdds(m: State, m': State)
    requires CounterInv(m) && Step(m, Before, m') && m.before == BeforeAdd && Surplus(m) >= 0
    ensures CounterInv(m') && (m'.before == BeforeLoad <==> Surplus(m) == 0)
  {
    Int32Adds(NOTHING + Surplus(m), -1);
    Int32Exact(Surplus(m) - 1);
  }

  lemma BeforeChannels(m: State, m': State)
    requires Inv(m) && Step(m, Before, m')
    ensures ChannelInv(m') && WakeInv(m')
  {
    BeforeCounts(m, m');
    assert HasCloser(m') <==> HasCloser(m);
  }

  lemma StepInv(m: State, a: Action, m': State)
    requires Inv(m) && Step(m, a, m') && Surplus(m') < WRAP
    ensures Inv(m')
  {
    match a {
      case CallHappen(h) =>
        assert Pending(m') == Pending(m);
        CloserKept(m, h, m');
      case Happen(h) =>
        HappenCounts(m, h, m');
        HappenPends(m, h, m');
        if m.happens[h] == HappenAdd { HappenAdds(m, h, m'); } else { HappenCloses(m, h, m'); }
      case CallBefore =>
        assert Pending(m') == Pending(m);
        assert HasCloser(m') <==> HasCloser(m);
      case Before =>
        BeforeCounts(m, m');
        BeforeChannels(m, m');
    }
  }

  lemma NextInv(m: State, m': State)
    requires Inv(m) && Next(m, m')
    ensures Inv(m')
  {
    var a :| Step(m, a, m');
    StepInv(m, a, m');
  }

  lemma InitInv(m: State)
    requires Init(m)
    ensures Inv(m)
  {
    Int32Exact(0);
    assert Surplus(m) == 0;
    assert m.was == Int32(NOTHING + Surplus(m));
    forall h ensures h !in Pending(m) {}
    assert Pending(m) == {};
  }

  lemma {:induction false} RunInv(tr: seq<State>, i: nat)
    requires Run(tr) && i < |tr|
    ensures Inv(tr[i])
  {
    if i == 0 {
      InitInv(tr[0]);
    } else {
      RunInv(tr, i - 1);
      assert Next(tr[i - 1], tr[i - 1 + 1]);
      NextInv(tr[i - 1], tr[i]);
    }
  }
}
