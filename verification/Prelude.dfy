/** Vocabulary shared by every module: optional values, the clock, and sums over finite maps. */
module Prelude {

  datatype Option<+T> = None | Some(value: T)

  /** A reading of the one clock that the database and every process share, in microseconds. */
  type Time = int

  const SECOND: Time := 1_000_000
  const MINUTE: Time := 60_000_000

  function Min(a: int, b: int): int {
    if a <= b then a else b
  }

  function Max(a: int, b: int): int {
    if a <= b then b else a
  }

  /** The sum of a map's values. */
  ghost function Sum(m: map<nat, nat>): nat
    decreases |m|
  {
    if m == map[] then 0
    else
      var k :| k in m;
      m[k] + Sum(m - {k})
  }

  /** Any key can be split off first. */
  lemma {:induction false} SumSplit(m: map<nat, nat>, k: nat)
    requires k in m
    ensures Sum(m) == m[k] + Sum(m - {k})
    decreases |m|
  {
    var first :| first in m && Sum(m) == m[first] + Sum(m - {first});
    if first != k {
      SumSplit(m - {first}, k);
      SumSplit(m - {k}, first);
      assert m - {first} - {k} == m - {k} - {first};
    }
  }

  lemma {:induction false} SumMonotone(a: map<nat, nat>, b: map<nat, nat>)
    requires a.Keys <= b.Keys
    requires forall k <- a :: a[k] <= b[k]
    ensures Sum(a) <= Sum(b)
    decreases |a|
  {
    if a != map[] {
      var k :| k in a;
      SumSplit(a, k);
      SumSplit(b, k);
      SumMonotone(a - {k}, b - {k});
    }
  }

  lemma SumStrict(a: map<nat, nat>, b: map<nat, nat>, k: nat)
    requires a.Keys <= b.Keys
    requires forall i <- a :: a[i] <= b[i]
    requires k in b && 0 < b[k] && (k in a ==> a[k] < b[k])
    ensures Sum(a) < Sum(b)
  {
    SumSplit(b, k);
    SumMonotone(a - {k}, b - {k});
    if k in a {
      SumSplit(a, k);
    } else {
      assert a - {k} == a;
    }
  }

  lemma SumExtend(a: map<nat, nat>, b: map<nat, nat>, k: nat)
    requires k in a && a.Keys <= b.Keys + {k}
    requires forall i <- a :: i != k ==> a[i] <= b[i]
    ensures Sum(a) <= Sum(b) + a[k]
  {
    SumSplit(a, k);
    SumMonotone(a - {k}, b);
  }
}
