/** Small shared vocabulary: optional values, results, least elements, sorted
    enumerations of finite sets, and integer counters indexed by slot. */
module Basics {

  datatype Option<+T> = None | Some(value: T)

  /** The exceptions the modelled code raises, by meaning. */
  datatype Error =
    | Stale            // StaleCompletionError
    | Capacity         // CacheCapacityError
    | Integrity        // CacheIntegrityError
    | Invalid          // ValueError
    | Missing          // KeyError
    | Overflow         // WCANumericalError
    | Busy             // RuntimeError
    | Exists           // FileExistsError
    | Device           // failure reported by the device, a future or the file system

  datatype Result<+T> = Ok(value: T) | Err(error: Error)

  predicate Distinct<T(==)>(s: seq<T>) {
    forall i, j :: 0 <= i < j < |s| ==> s[i] != s[j]
  }

  ghost predicate Injective(m: map<nat, nat>) {
    forall t, u :: t in m && u in m && t != u ==> m[t] != m[u]
  }

  /** The least element of a nonempty finite set. */
  function Least(s: set<nat>): (r: nat)
    requires s != {}
    ensures r in s && forall x :: x in s ==> r <= x
  {
    LeastExists(s);
    var x :| x in s && forall y :: y in s ==> x <= y;
    x
  }

  lemma LeastExists(s: set<nat>)
    requires s != {}
    ensures exists x :: x in s && forall y :: y in s ==> x <= y
    decreases s
  {
    var x :| x in s;
    var smaller := set y | y in s && y < x;
    if smaller != {} {
      assert x !in smaller && smaller <= s;
      LeastExists(smaller);
      var z :| z in smaller && forall y :: y in smaller ==> z <= y;
      forall y | y in s ensures z <= y {
        if y < x { assert y in smaller; }
      }
      assert z in s && forall y :: y in s ==> z <= y;
    } else {
      assert forall y :: y in s && y < x ==> y in smaller;
    }
  }

  predicate Ascending(s: seq<nat>) {
    forall i, j :: 0 <= i < j < |s| ==> s[i] < s[j]
  }

  /** The ascending enumeration of a finite set. */
  function Sorted(s: set<nat>): (r: seq<nat>)
    ensures Ascending(r)
    ensures forall x :: x in r <==> x in s
    ensures |r| == |s|
  {
    if s == {} then []
    else
      var x := Least(s);
      [x] + Sorted(s - {x})
  }

  /** The first `n` natural numbers. */
  function Below(n: nat): (r: set<nat>)
    ensures forall x: nat :: x in r <==> x < n
    ensures |r| == n
  {
    if n == 0 then {} else Below(n - 1) + {n - 1}
  }

  lemma {:induction false} Times(a: nat, b: nat, k: nat)
    requires a < b
    ensures a * k + k <= b * k
    decreases b
  {
    if a + 1 < b { Times(a, b - 1, k); }
  }

  /** Division undoes a multiplication and an offset below the divisor. */
  lemma QuotientOf(q: nat, k: nat, offset: nat)
    requires offset < k
    ensures (q * k + offset) / k == q && (q * k + offset) % k == offset
  {
    var n := q * k + offset;
    assert n == (n / k) * k + n % k;
    if n / k < q { Times(n / k, q, k); assert false; }
    if q < n / k { Times(q, n / k, k); assert false; }
  }

  type Counter = map<nat, int>

  function At(c: Counter, s: nat): int {
    if s in c then c[s] else 0
  }

  /** `Counter.update` (delta 1) and `Counter.subtract` (delta -1) of a set. */
  function Bump(c: Counter, slots: set<nat>, delta: int): (r: Counter)
    ensures forall s: nat :: At(r, s) == At(c, s) + (if s in slots then delta else 0)
  {
    map s | s in c.Keys + slots :: At(c, s) + (if s in slots then delta else 0)
  }

  /** The sum of a finite family of numbers. */
  function Sum(m: map<nat, int>): int {
    if m == map[] then 0
    else
      var k := Least(m.Keys);
      m[k] + Sum(m - {k})
  }

  lemma {:induction false} SumSplit(m: map<nat, int>, k: nat)
    requires k in m
    ensures Sum(m) == m[k] + Sum(m - {k})
    decreases |m|
  {
    var least := Least(m.Keys);
    if k != least {
      var rest := m - {least};
      assert |rest.Keys| < |m.Keys| by { assert rest.Keys == m.Keys - {least}; }
      SumSplit(rest, k);
      assert rest - {k} == m - {k} - {least};
      assert |(m - {k}).Keys| < |m.Keys| by { assert (m - {k}).Keys == m.Keys - {k}; }
      SumSplit(m - {k}, least);
      assert (m - {k}) - {least} == rest - {k};
    }
  }

  lemma SumUpdate(m: map<nat, int>, k: nat, x: int)
    ensures Sum(m[k := x]) == Sum(m) + x - (if k in m then m[k] else 0)
  {
    SumSplit(m[k := x], k);
    assert m[k := x] - {k} == m - {k};
    if k in m { SumSplit(m, k); } else { assert m - {k} == m; }
  }

  lemma {:induction false} SumPositive(m: map<nat, int>)
    requires forall k :: k in m ==> m[k] >= 0
    ensures Sum(m) >= 0 && forall k :: k in m ==> m[k] <= Sum(m)
    decreases |m|
  {
    if m != map[] {
      var least := Least(m.Keys);
      assert |(m - {least}).Keys| < |m.Keys| by { assert (m - {least}).Keys == m.Keys - {least}; }
      SumPositive(m - {least});
      forall k | k in m ensures m[k] <= Sum(m) {
        if k != least { assert (m - {least})[k] == m[k]; }
      }
    }
  }
}
