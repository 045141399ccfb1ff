/** src/cacheslide_vllm/position.py: when a table of contextual positions could have come
    from gates. Arithmetic is exact and the tolerance is zero. */
module Contextual {

  /** One head and query: a position per retained key. */
  datatype Row = Row(query: nat, keys: seq<nat>, positions: seq<real>, mask: seq<bool>)

  predicate Shaped(r: Row) {
    |r.keys| == |r.positions| == |r.mask| > 0
  }

  predicate Increasing(keys: seq<nat>) {
    forall j, k :: 0 <= j < k < |keys| ==> keys[j] < keys[k]
  }

  /** A key takes part if it is causal and not masked out. */
  predicate TakesPart(query: nat, keys: seq<nat>, mask: seq<bool>, j: nat)
    requires |keys| == |mask| && j < |keys|
  {
    keys[j] <= query && mask[j]
  }

  predicate Enabled(r: Row, j: nat)
    requires Shaped(r) && j < |r.keys|
  {
    TakesPart(r.query, r.keys, r.mask, j)
  }

  /** Each key is less than the next. */
  predicate Consecutive(keys: seq<nat>) {
    forall j, k :: 0 <= j < |keys| && j < k < |keys| && k == j + 1 ==> keys[j] < keys[k]
  }

  /** From one key to a later one the count falls, by at most one per token. */
  predicate Drops(r: Row, j: nat, k: nat)
    requires Shaped(r) && j <= k < |r.keys|
  {
    0.0 <= r.positions[j] - r.positions[k] <= r.keys[k] as real - r.keys[j] as real
  }

  /** `validate_contextual_path` on one row: counts lie between zero and the available
      gates, adjacent enabled keys lose at most one per token and gain nothing. */
  predicate Accepted(r: Row)
    requires Shaped(r)
  {
    && Consecutive(r.keys)
    && (forall j :: 0 <= j < |r.keys| && Enabled(r, j) ==> 0.0 <= r.positions[j] <= (r.query - r.keys[j] + 1) as real)
    && (forall j, k :: 0 <= j < |r.keys| && j < k < |r.keys| && k == j + 1 && Enabled(r, j) && Enabled(r, k) ==>
            Drops(r, j, k))
  }

  // ---- gates ---------------------------------------------------------------------------

  function Sum(s: seq<real>): real {
    if s == [] then 0.0 else s[0] + Sum(s[1..])
  }

  predicate Gates(g: seq<real>) {
    forall t :: 0 <= t < |g| ==> 0.0 <= g[t] <= 1.0
  }

  function Clamp(x: real, bound: real): real {
    if x < 0.0 then 0.0 else if x > bound then bound else x
  }

  /** The gates produce the row: reverse sums over the token coordinates from each key
      through the query, clamped to `bound`. */
  ghost predicate Produces(g: seq<real>, r: Row, bound: real)
    requires Shaped(r)
  {
    && |g| == r.query + 1 && Gates(g)
    && forall j :: 0 <= j < |r.keys| && Enabled(r, j) ==> r.positions[j] == Clamp(Sum(g[r.keys[j]..]), bound)
  }

  ghost predicate Realizable(r: Row, bound: real)
    requires Shaped(r)
  {
    exists g: seq<real> :: Produces(g, r, bound)
  }

  // ---- every trace passes -------------------------------------------------------------------

  lemma {:induction false} SumBounds(g: seq<real>)
    requires Gates(g)
    ensures 0.0 <= Sum(g) <= |g| as real
  {
    if g != [] { SumBounds(g[1..]); }
  }

  lemma {:induction false} SumSplits(g: seq<real>, k: nat)
    requires k <= |g|
    ensures Sum(g) == Sum(g[..k]) + Sum(g[k..])
  {
    if k > 0 {
      assert g[..k][1..] == g[1..][..k - 1] && g[k..] == g[1..][k - 1..];
      SumSplits(g[1..], k - 1);
    }
  }

  /** Clamped sums differ by no more than the gates between them. */
  lemma AdjacentSums(g: seq<real>, a: nat, b: nat, bound: real)
    requires Gates(g) && a <= b <= |g| && 0.0 <= bound
    ensures 0.0 <= Clamp(Sum(g[a..]), bound) - Clamp(Sum(g[b..]), bound) <= (b - a) as real
  {
    SumSplits(g[a..], b - a);
    assert g[a..][b - a..] == g[b..];
    SumBounds(g[a..][..b - a]);
    SumBounds(g[b..]);
  }

  /** Every path that gates produce is accepted, whatever keys are retained and
      whatever the mask hides. */
  lemma TracesPass(r: Row, g: seq<real>, bound: real)
    requires Shaped(r) && Increasing(r.keys) && Produces(g, r, bound) && 0.0 <= bound
    ensures Accepted(r)
  {
    forall j | 0 <= j < |r.keys| && Enabled(r, j) ensures 0.0 <= r.positions[j] <= (r.query - r.keys[j] + 1) as real {
      SumBounds(g[r.keys[j]..]);
    }
    forall j, k | 0 <= j < |r.keys| && j < k < |r.keys| && k == j + 1 && Enabled(r, j) && Enabled(r, k)
      ensures Drops(r, j, k)
    {
      AdjacentSums(g, r.keys[j], r.keys[k], bound);
    }
  }

  // ---- every accepted path has gates -----------------------------------------------------------

  /** `n` equal gates with a given sum. */
  function Even(n: nat, total: real): (g: seq<real>)
    ensures |g| == n
  {
    seq(n, _ => if n == 0 then 0.0 else total / n as real)
  }

  lemma {:induction false} SumOfEqual(n: nat, x: real)
    ensures Sum(seq(n, _ => x)) == n as real * x
  {
    if n == 0 {
      assert seq(n, _ => x) == [];
      assert n as real * x == 0.0;
    } else {
      var m := (n - 1) as real;
      assert seq(n, _ => x)[1..] == seq(n - 1, _ => x);
      SumOfEqual(n - 1, x);
      assert (1.0 + m) * x == x + m * x;
    }
  }

  lemma EvenShare(n: nat, total: real)
    requires 0.0 <= total <= n as real && n > 0
    ensures 0.0 <= total / n as real <= 1.0 && n as real * (total / n as real) == total
  {}

  lemma EvenSums(n: nat, total: real)
    requires 0.0 <= total <= n as real
    ensures Gates(Even(n, total)) && Sum(Even(n, total)) == total
  {
    if n > 0 {
      var x := total / n as real;
      assert Even(n, total) == seq(n, _ => x);
      SumOfEqual(n, x);
      EvenShare(n, total);
    }
  }

  /** Gates for the tokens from one key up to the next. */
  function Between(r: Row, j: nat): (g: seq<real>)
    requires Shaped(r) && j + 1 < |r.keys| && Increasing(r.keys)
    ensures |g| == r.keys[j + 1] - r.keys[j]
  {
    Even(r.keys[j + 1] - r.keys[j], r.positions[j] - r.positions[j + 1])
  }

  /** Gates from key `j` through the query, built from the last causal key backwards. */
  function Built(r: Row, j: nat, m: nat): (g: seq<real>)
    requires Shaped(r) && j < m <= |r.keys| && Increasing(r.keys) && r.keys[m - 1] <= r.query
    ensures |g| == r.query + 1 - r.keys[j]
    decreases m - j
  {
    if j == m - 1 then Even(r.query + 1 - r.keys[j], r.positions[j])
    else Between(r, j) + Built(r, j + 1, m)
  }

  lemma {:induction false} GatesJoin(a: seq<real>, b: seq<real>)
    requires Gates(a) && Gates(b)
    ensures Gates(a + b) && Sum(a + b) == Sum(a) + Sum(b)
  {
    SumSplits(a + b, |a|);
    assert (a + b)[..|a|] == a && (a + b)[|a|..] == b;
  }

  /** The keys that take part are those from `a` up to `m`. */
  ghost predicate Block(r: Row, a: nat, m: nat)
    requires Shaped(r)
  {
    && a <= m <= |r.keys| && (a < m ==> r.keys[m - 1] <= r.query)
    && forall j :: 0 <= j < |r.keys| ==> (a <= j < m <==> Enabled(r, j))
  }

  lemma {:induction false} BuiltSums(r: Row, a: nat, j: nat, m: nat)
    requires Shaped(r) && a <= j < m <= |r.keys| && Increasing(r.keys) && Block(r, a, m) && Accepted(r)
    ensures Gates(Built(r, j, m)) && Sum(Built(r, j, m)) == r.positions[j]
    decreases m - j
  {
    assert Enabled(r, j);
    if j == m - 1 {
      EvenSums(r.query + 1 - r.keys[j], r.positions[j]);
    } else {
      assert Drops(r, j, j + 1) by { assert Enabled(r, j + 1); }
      BuiltSums(r, a, j + 1, m);
      EvenSums(r.keys[j + 1] - r.keys[j], r.positions[j] - r.positions[j + 1]);
      GatesJoin(Between(r, j), Built(r, j + 1, m));
    }
  }

  /** Seen from a later key the gates are the ones built there. */
  lemma {:induction false} BuiltTails(r: Row, j: nat, k: nat, m: nat)
    requires Shaped(r) && j <= k < m <= |r.keys| && Increasing(r.keys) && r.keys[m - 1] <= r.query
    ensures Built(r, j, m)[r.keys[k] - r.keys[j]..] == Built(r, k, m)
    decreases k - j
  {
    if j == k {
      assert Built(r, j, m)[0..] == Built(r, k, m);
    } else {
      BuiltTails(r, j + 1, k, m);
      assert r.keys[j + 1] <= r.keys[k];
      var skip := r.keys[k] - r.keys[j + 1];
      TailOfJoin(Between(r, j), Built(r, j + 1, m), skip);
      assert r.keys[k] - r.keys[j] == |Between(r, j)| + skip;
    }
  }

  lemma TailOfJoin(a: seq<real>, b: seq<real>, k: nat)
    requires k <= |b|
    ensures (a + b)[|a| + k..] == b[k..]
  {}

  function None(n: nat): seq<real> {
    seq(n, _ => 0.0)
  }

  lemma NoGates(n: nat)
    ensures Gates(None(n)) && Sum(None(n)) == 0.0
  {
    SumOfEqual(n, 0.0);
  }

  lemma BuiltFrom(r: Row, a: nat, m: nat, j: nat)
    requires Shaped(r) && Increasing(r.keys) && Block(r, a, m) && a <= j < m && Accepted(r)
    ensures Sum((None(r.keys[a]) + Built(r, a, m))[r.keys[j]..]) == r.positions[j]
  {
    BuiltSums(r, a, j, m);
    BuiltTails(r, a, j, m);
    TailOfJoin(None(r.keys[a]), Built(r, a, m), r.keys[j] - r.keys[a]);
  }

  /** The gates built from the first key that takes part, with none before it, produce
      the row. */
  lemma BuiltProduces(r: Row, a: nat, m: nat, bound: real)
    requires Shaped(r) && Increasing(r.keys) && Block(r, a, m) && a < m && Accepted(r) && Below(r, bound)
    ensures Produces(None(r.keys[a]) + Built(r, a, m), r, bound)
  {
    var g := None(r.keys[a]) + Built(r, a, m);
    assert Gates(g) by {
      BuiltSums(r, a, a, m);
      NoGates(r.keys[a]);
      GatesJoin(None(r.keys[a]), Built(r, a, m));
    }
    forall j | 0 <= j < |r.keys| && Enabled(r, j) ensures r.positions[j] == Clamp(Sum(g[r.keys[j]..]), bound) {
      BuiltFrom(r, a, m, j);
    }
  }

  /** The positions that take part stay within the clamp. */
  ghost predicate Below(r: Row, bound: real)
    requires Shaped(r)
  {
    forall j :: 0 <= j < |r.keys| && Enabled(r, j) ==> r.positions[j] <= bound
  }

  /** No key that does not take part lies between two that do. */
  ghost predicate NoHole(query: nat, keys: seq<nat>, mask: seq<bool>)
    requires |keys| == |mask|
  {
    forall i, j, k :: 0 <= i < j < k < |keys| && TakesPart(query, keys, mask, i) && TakesPart(query, keys, mask, k) ==>
                      TakesPart(query, keys, mask, j)
  }

  /** The keys from `a` on that take part, up to the first that does not. */
  ghost function BlockEnd(r: Row, a: nat): (m: nat)
    requires Shaped(r) && a <= |r.keys|
    ensures a <= m <= |r.keys| && (forall j :: a <= j < m ==> Enabled(r, j))
    ensures m < |r.keys| ==> !Enabled(r, m)
    decreases |r.keys| - a
  {
    if a == |r.keys| || !Enabled(r, a) then a else BlockEnd(r, a + 1)
  }

  ghost function BlockStart(r: Row, i: nat): (a: nat)
    requires Shaped(r) && i <= |r.keys| && forall j :: 0 <= j < i ==> !Enabled(r, j)
    ensures a <= |r.keys| && (forall j :: 0 <= j < a ==> !Enabled(r, j)) && (a < |r.keys| ==> Enabled(r, a))
    decreases |r.keys| - i
  {
    if i == |r.keys| || Enabled(r, i) then i else BlockStart(r, i + 1)
  }

  lemma BlockOf(r: Row) returns (a: nat, m: nat)
    requires Shaped(r) && NoHole(r.query, r.keys, r.mask)
    ensures Block(r, a, m)
  {
    a := BlockStart(r, 0);
    m := BlockEnd(r, a);
    if a < |r.keys| { assert Enabled(r, a); }
    if m < |r.keys| { assert !Enabled(r, m); }
    if a < m { assert Enabled(r, m - 1); }
  }

  lemma {:induction false} IncreasingFrom(keys: seq<nat>, j: nat, k: nat)
    requires Consecutive(keys) && j < k < |keys|
    ensures keys[j] < keys[k]
    decreases k
  {
    if j + 1 < k { IncreasingFrom(keys, j, k - 1); }
    assert keys[k - 1] < keys[k];
  }

  /** Without holes the check is exact: a row within the clamp is accepted exactly if
      its keys increase and some gates produce it, however many keys were omitted. */
  lemma AcceptedIffRealizable(r: Row, bound: real)
    requires Shaped(r) && 0.0 <= bound && Below(r, bound) && (Increasing(r.keys) ==> NoHole(r.query, r.keys, r.mask))
    ensures Accepted(r) <==> Increasing(r.keys) && Realizable(r, bound)
  {
    if Accepted(r) {
      forall j, k | 0 <= j < k < |r.keys| ensures r.keys[j] < r.keys[k] { IncreasingFrom(r.keys, j, k); }
      var a, m := BlockOf(r);
      if a < m {
        BuiltProduces(r, a, m, bound);
      } else {
        NoGates(r.query + 1);
        assert Produces(None(r.query + 1), r, bound);
      }
    }
    if Increasing(r.keys) && Realizable(r, bound) {
      var g :| Produces(g, r, bound);
      TracesPass(r, g, bound);
    }
  }

  /** Without a mask there are no holes: the causal keys are a prefix. */
  lemma UnmaskedHasNoHole(r: Row)
    requires Shaped(r) && Increasing(r.keys) && forall j :: 0 <= j < |r.keys| && r.keys[j] <= r.query ==> r.mask[j]
    ensures NoHole(r.query, r.keys, r.mask)
  {}

  // ---- masks ---------------------------------------------------------------------------

  /** With these keys and this mask, acceptance is proof of gates. */
  ghost predicate Exact(query: nat, keys: seq<nat>, mask: seq<bool>, bound: real)
    requires |keys| == |mask| > 0
  {
    forall positions: seq<real> ::
      var r := Row(query, keys, positions, mask);
      Shaped(r) && Below(r, bound) && Accepted(r) ==> Realizable(r, bound)
  }

  /** Nothing before the hole, one gate's worth from it on. */
  function Jump(n: nat, hole: nat, height: real): (p: seq<real>)
    ensures |p| == n
  {
    seq(n, j => if j < hole then 0.0 else height)
  }

  lemma JumpAccepted(r: Row, hole: nat, height: real)
    requires Shaped(r) && Increasing(r.keys) && hole < |r.keys| && !Enabled(r, hole) && 0.0 <= height <= 1.0
    requires r.positions == Jump(|r.keys|, hole, height)
    ensures Accepted(r)
  {
    forall j, k | 0 <= j < |r.keys| && j < k < |r.keys| && k == j + 1 && Enabled(r, j) && Enabled(r, k)
      ensures Drops(r, j, k)
    {
      assert j != hole && k != hole;
    }
  }

  lemma JumpIsNoTrace(r: Row, i: nat, hole: nat, k: nat, height: real, bound: real)
    requires Shaped(r) && Increasing(r.keys) && i < hole < k < |r.keys| && Enabled(r, i) && Enabled(r, k)
    requires 0.0 < height <= bound && r.positions == Jump(|r.keys|, hole, height)
    ensures !Realizable(r, bound)
  {
    forall g: seq<real> ensures !Produces(g, r, bound) {
      if Produces(g, r, bound) {
        AdjacentSums(g, r.keys[i], r.keys[k], bound);
        assert false;
      }
    }
  }

  /** With a mask the check is exact if and only if the mask leaves no hole: over a hidden
      key between two others the pair is never compared, and a jump there goes unseen. */
  lemma MaskedExactlyWithoutHoles(query: nat, keys: seq<nat>, mask: seq<bool>, bound: real)
    requires |keys| == |mask| > 0 && Increasing(keys) && 0.0 < bound
    ensures Exact(query, keys, mask, bound) <==> NoHole(query, keys, mask)
  {
    if NoHole(query, keys, mask) {
      forall positions: seq<real>
        ensures var r := Row(query, keys, positions, mask);
                Shaped(r) && Below(r, bound) && Accepted(r) ==> Realizable(r, bound)
      {
        var r := Row(query, keys, positions, mask);
        if Shaped(r) && Below(r, bound) { AcceptedIffRealizable(r, bound); }
      }
    } else {
      var i, hole, k :| 0 <= i < hole < k < |keys| && TakesPart(query, keys, mask, i) && TakesPart(query, keys, mask, k)
                        && !TakesPart(query, keys, mask, hole);
      var height := if bound < 1.0 then bound else 1.0;
      var r := Row(query, keys, Jump(|keys|, hole, height), mask);
      assert Enabled(r, i) && Enabled(r, k) && !Enabled(r, hole);
      JumpAccepted(r, hole, height);
      JumpIsNoTrace(r, i, hole, k, height, bound);
      assert Shaped(r) && Below(r, bound) && Accepted(r) && !Realizable(r, bound);
    }
  }

  /** The least such row: the middle one of three keys is hidden. */
  lemma MaskHidesAJump()
    ensures var r := Row(2, [0, 1, 2], [0.0, 0.0, 1.0], [true, false, true]);
            Shaped(r) && Increasing(r.keys) && Accepted(r) && !Realizable(r, 5.0)
  {
    var r := Row(2, [0, 1, 2], [0.0, 0.0, 1.0], [true, false, true]);
    forall g: seq<real> ensures !Produces(g, r, 5.0) {
      if Produces(g, r, 5.0) {
        assert Enabled(r, 0) && Enabled(r, 2);
        AdjacentSums(g, 0, 2, 5.0);
        assert false;
      }
    }
  }

  // ---- the whole table -------------------------------------------------------------------------------

  ghost predicate Plain(r: Row, bound: real)
    requires Shaped(r)
  {
    Below(r, bound) && (Increasing(r.keys) ==> NoHole(r.query, r.keys, r.mask))
  }

  /** Rows by head and query are checked together and have gates of their own. */
  lemma TableAcceptedIffRealizable(rows: seq<seq<Row>>, bound: real)
    requires 0.0 <= bound && forall h, i :: 0 <= h < |rows| && 0 <= i < |rows[h]| ==>
             Shaped(rows[h][i]) && Plain(rows[h][i], bound)
    ensures (forall h, i :: 0 <= h < |rows| && 0 <= i < |rows[h]| ==> Accepted(rows[h][i]))
      <==> (forall h, i :: 0 <= h < |rows| && 0 <= i < |rows[h]| ==>
            Increasing(rows[h][i].keys) && Realizable(rows[h][i], bound))
  {
    forall h, i | 0 <= h < |rows| && 0 <= i < |rows[h]|
      ensures Accepted(rows[h][i]) <==> Increasing(rows[h][i].keys) && Realizable(rows[h][i], bound)
    {
      AcceptedIffRealizable(rows[h][i], bound);
    }
  }
}
