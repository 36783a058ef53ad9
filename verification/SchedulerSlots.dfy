/** How many jobs a heartbeat is given: no more than its free slots, and fewer only after looking in vain. */
module SchedulerSlots {
  import opened Basics
  import opened SchedulerLog
  import opened SchedulerMachine
  import opened SchedulerProofs
  import opened SchedulerTheorems

  /** A heartbeat waits for its first job whatever it says of its slots. */
  function Allowed(n: int): nat {
    if n > 1 then n else 1
  }

  /** Heartbeat `t` looks for one more job and finds the queue empty. */
  predicate LooksInVain(m: State, t: nat, m': State) {
    t in m.threads && m.threads[t].BeatTry? && m.queue == [] && Moves(m, t, m')
  }

  /** How often it has done so from state `i` to state `k`. */
  function InVain(tr: seq<State>, t: nat, i: nat, k: nat): nat
    requires i <= k < |tr|
    decreases k
  {
    if i == k then 0 else InVain(tr, t, i, k - 1) + if LooksInVain(tr[k - 1], t, tr[k]) then 1 else 0
  }

  /** Where a heartbeat with `n` slots can be once it has looked `v` times in vain. */
  predicate Budget(pc: Pc, n: int, v: nat) {
    match pc
    case Beat(_, slots, _) => slots == n && v == 0
    case BeatHolder(_, slots, _, _, _) => slots == n && v == 0
    case BeatTry(got, slots, tries) =>
      && 1 <= |got| && 1 <= slots && |got| + slots <= Allowed(n) && 1 <= tries <= 4
      && 4 * (Allowed(n) - |got| - slots) + (4 - tries) <= v <= 4 * (Allowed(n) - 1 - slots) + (4 - tries)
    case BeatDone(got) =>
      1 <= |got| <= Allowed(n) && 4 * (Allowed(n) - |got|) <= v <= 4 * (Allowed(n) - 1)
    case _ => false
  }

  lemma TryBudget(m: State, t: nat, m': State, n: int, v: nat)
    requires Moves(m, t, m') && m.threads[t].BeatTry? && Budget(m.threads[t], n, v)
    ensures t in m'.threads && Budget(m'.threads[t], n, v + if m.queue == [] then 1 else 0)
  {
  }

  lemma OwnBudget(m: State, t: nat, m': State, n: int, v: nat)
    requires Moves(m, t, m') && Budget(m.threads[t], n, v)
    ensures t in m'.threads && Budget(m'.threads[t], n, v + if LooksInVain(m, t, m') then 1 else 0)
  {
    if m.threads[t].BeatTry? {
      TryBudget(m, t, m', n, v);
    } else {
      BeatBudget(m, t, m', n, v);
    }
  }

  lemma BeatBudget(m: State, t: nat, m': State, n: int, v: nat)
    requires Moves(m, t, m') && !m.threads[t].BeatTry? && Budget(m.threads[t], n, v)
    ensures t in m'.threads && Budget(m'.threads[t], n, v)
  {
  }

  /** Somebody else's step is none of this heartbeat. */
  lemma OtherBudget(m: State, u: nat, m': State, t: nat)
    requires Moves(m, u, m') && u != t && t in m.threads
    ensures t in m'.threads && m'.threads[t] == m.threads[t] && !LooksInVain(m, t, m')
  {
    MutexView(m, u, m');
    if LooksInVain(m, t, m') {
      TryMoves(m, t, m');
    }
  }

  /** A try never leaves the heartbeat where it was. */
  lemma TryMoves(m: State, t: nat, m': State)
    requires LooksInVain(m, t, m')
    ensures t in m'.threads && m'.threads[t] != m.threads[t]
  {
  }

  lemma NextBudget(m: State, m': State, t: nat, n: int, v: nat)
    requires Next(m, m') && t in m.threads && Budget(m.threads[t], n, v)
    ensures t in m'.threads && Budget(m'.threads[t], n, v + if LooksInVain(m, t, m') then 1 else 0)
  {
    if u, pc :| Arrives(m, u, pc, m') {
      if LooksInVain(m, t, m') {
        TryMoves(m, t, m');
      }
    } else if Moves(m, t, m') {
      OwnBudget(m, t, m', n, v);
    } else {
      var u :| Moves(m, u, m');
      OtherBudget(m, u, m', t);
    }
  }

  ghost predicate KeepsBudget(tr: seq<State>, i: nat, k: nat, t: nat, n: int)
    requires i <= k && k + 1 < |tr|
  {
    t in tr[k].threads && Budget(tr[k].threads[t], n, InVain(tr, t, i, k)) ==>
      t in tr[k + 1].threads && Budget(tr[k + 1].threads[t], n, InVain(tr, t, i, k + 1))
  }

  lemma StepBudget(tr: seq<State>, i: nat, k: nat, t: nat, n: int)
    requires Run(tr) && i <= k && k + 1 < |tr|
    ensures KeepsBudget(tr, i, k, t, n)
  {
    if t in tr[k].threads && Budget(tr[k].threads[t], n, InVain(tr, t, i, k)) {
      NextBudget(tr[k], tr[k + 1], t, n, InVain(tr, t, i, k));
    }
  }

  lemma {:induction false} BudgetChain(tr: seq<State>, i: nat, k: nat, t: nat, n: int)
    requires i <= k < |tr| && t in tr[i].threads && Budget(tr[i].threads[t], n, 0)
    requires forall j :: i <= j < k ==> KeepsBudget(tr, i, j, t, n)
    ensures t in tr[k].threads && Budget(tr[k].threads[t], n, InVain(tr, t, i, k))
    decreases k
  {
    if i < k {
      BudgetChain(tr, i, k - 1, t, n);
      assert KeepsBudget(tr, i, k - 1, t, n);
    }
  }

  /**
   A heartbeat that comes with `n` free slots is given `n` jobs at most, and one even if it has none. It
   is over with fewer only after it has found the queue empty four times for each slot it leaves open;
   and it never looks in vain more than four times for each slot after the first.
   */
  lemma SlotsFilled(tr: seq<State>, i: nat, k: nat, t: nat, n: int)
    requires Run(tr) && i <= k < |tr| && t in tr[i].threads && tr[i].threads[t].Beat? && tr[i].threads[t].slots == n
    ensures t in tr[k].threads
    ensures |Got(tr[k].threads[t])| <= (if n > 1 then n else 1)
    ensures tr[k].threads[t].BeatDone? ==>
              var places := if n > 1 then n else 1;
              && 1 <= |Got(tr[k].threads[t])|
              && 4 * (places - |Got(tr[k].threads[t])|) <= InVain(tr, t, i, k) <= 4 * (places - 1)
  {
    forall j | i <= j < k ensures KeepsBudget(tr, i, j, t, n) {
      StepBudget(tr, i, j, t, n);
    }
    BudgetChain(tr, i, k, t, n);
  }
}
