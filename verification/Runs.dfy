/** What runs of all the machines have in common: each state leads to the one after it. */
module Runs {
  lemma LinkOne<S(!new)>(tr: seq<S>, s: S, next: (S, S) -> bool)
    requires (forall i :: 0 <= i < |tr| - 1 ==> next(tr[i], tr[i + 1])) && (tr != [] ==> next(tr[|tr| - 1], s))
    ensures forall i :: 0 <= i < |tr + [s]| - 1 ==> next((tr + [s])[i], (tr + [s])[i + 1])
  {
    forall i | 0 <= i < |tr + [s]| - 1 ensures next((tr + [s])[i], (tr + [s])[i + 1]) {
      assert i < |tr| - 1 ==> next(tr[i], tr[i + 1]);
    }
  }
}
