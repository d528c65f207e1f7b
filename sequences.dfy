/** Building a sequence element by element towards a known whole. */
module Sequences {
  /** `ps` agrees with `want` on the first `m` places. */
  predicate PrefixOf<T(==)>(ps: seq<T>, want: seq<T>, m: nat) {
    m <= |ps| && m <= |want| && forall j :: 0 <= j < m ==> ps[j] == want[j]
  }

  /** Appending the next element of `want` extends the agreement by one. */
  lemma PrefixSnoc<T>(ps: seq<T>, x: T, want: seq<T>, m: nat)
    requires |ps| == m < |want| && PrefixOf(ps, want, m) && x == want[m]
    ensures PrefixOf(ps + [x], want, m + 1)
  {
    assert forall j :: 0 <= j < m ==> (ps + [x])[j] == ps[j];
  }

  /** Agreement on every place is equality. */
  lemma PrefixWhole<T>(ps: seq<T>, want: seq<T>)
    requires |ps| == |want| && PrefixOf(ps, want, |ps|)
    ensures ps == want
  {
  }
}
