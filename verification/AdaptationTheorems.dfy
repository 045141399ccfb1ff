/** The selection is always the top of the ranking, over every run of updates. */
module AdaptationTheorems {
  import opened Basics
  import opened Adaptation

  // ---- the ranking -----------------------------------------------------------------

  ghost predicate Ranked(deviation: seq<real>, s: seq<nat>) {
    forall i, j :: 0 <= i < j < |s| ==> Before(deviation, s[i], s[j])
  }

  lemma {:induction false} InsertRanks(deviation: seq<real>, x: nat, s: seq<nat>)
    requires Ranked(deviation, s) && forall y :: y in s ==> x < y
    ensures Ranked(deviation, Insert(deviation, x, s))
    ensures |Insert(deviation, x, s)| == |s| + 1 && forall y :: y in Insert(deviation, x, s) <==> y == x || y in s
  {
    if s == [] || Entry(deviation, x) >= Entry(deviation, s[0]) {
      forall j | 0 <= j < |s| ensures Before(deviation, x, s[j]) {
        assert s[j] in s;
        if j > 0 { assert Before(deviation, s[0], s[j]); }
      }
    } else {
      assert forall y :: y in s[1..] ==> y in s;
      InsertRanks(deviation, x, s[1..]);
      var rest := Insert(deviation, x, s[1..]);
      forall j | 0 <= j < |rest| ensures Before(deviation, s[0], rest[j]) {
        assert rest[j] in rest;
        if rest[j] != x {
          var i :| 0 <= i < |s[1..]| && s[1..][i] == rest[j];
          assert Before(deviation, s[0], s[i + 1]);
        }
      }
      assert forall y :: y in s <==> y == s[0] || y in s[1..];
    }
  }

  /** The sort is a permutation in rank order. */
  lemma {:induction false} ArgsortRanks(deviation: seq<real>, s: seq<nat>)
    requires Ascending(s)
    ensures Ranked(deviation, Argsort(deviation, s))
    ensures |Argsort(deviation, s)| == |s| && forall y :: y in Argsort(deviation, s) <==> y in s
  {
    if s != [] {
      ArgsortRanks(deviation, s[1..]);
      forall y | y in Argsort(deviation, s[1..]) ensures s[0] < y {
        var i :| 0 <= i < |s[1..]| && s[1..][i] == y;
        assert s[i + 1] == y;
      }
      InsertRanks(deviation, s[0], Argsort(deviation, s[1..]));
      assert forall y :: y in s <==> y == s[0] || y in s[1..];
    }
  }

  lemma {:induction false} CountDistinct(s: seq<nat>)
    requires forall i, j :: 0 <= i < j < |s| ==> s[i] != s[j]
    ensures |Elements(s)| == |s|
  {
    if s != [] {
      CountDistinct(s[1..]);
      assert s[0] !in s[1..];
      assert Elements(s) == {s[0]} + Elements(s[1..]);
    } else {
      assert Elements(s) == {};
    }
  }

  // ---- ascending lists ---------------------------------------------------------------------

  lemma Drop(s: seq<nat>)
    requires Ascending(s) && s != []
    ensures Ascending(s[1..]) && Elements(s[1..]) == Elements(s) - {s[0]}
  {
    forall x | x in Elements(s[1..]) ensures x in s && x != s[0] {
      var i :| 0 <= i < |s[1..]| && s[1..][i] == x;
      assert s[i + 1] == x;
    }
    assert forall x :: x in s <==> x == s[0] || x in s[1..];
  }

  /** A set has one ascending enumeration. */
  lemma {:induction false} OneEnumeration(s: seq<nat>, t: seq<nat>)
    requires Ascending(s) && Ascending(t) && Elements(s) == Elements(t)
    ensures s == t
  {
    Nonempty(s);
    Nonempty(t);
    if s != [] {
      SameHead(s, t);
      Drop(s);
      Drop(t);
      OneEnumeration(s[1..], t[1..]);
      assert s == [s[0]] + s[1..] && t == [t[0]] + t[1..];
    }
  }

  lemma Nonempty(s: seq<nat>)
    ensures s == [] <==> Elements(s) == {}
  {
    if s != [] { assert s[0] in Elements(s); }
  }

  lemma SameHead(s: seq<nat>, t: seq<nat>)
    requires Ascending(s) && Ascending(t) && Elements(s) == Elements(t) && s != [] && t != []
    ensures s[0] == t[0]
  {
    assert s[0] in Elements(t) && t[0] in Elements(s);
    var i :| 0 <= i < |t| && t[i] == s[0];
    var j :| 0 <= j < |s| && s[j] == t[0];
  }

  // ---- the top of a pool ----------------------------------------------------------------

  /** The best `budget` members of a pool, all of them if there are no more. */
  ghost predicate Top(deviation: seq<real>, pool: set<nat>, chosen: set<nat>, budget: nat) {
    && chosen <= pool
    && |chosen| == (if budget < |pool| then budget else |pool|)
    && forall i, j :: i in chosen && j in pool && j !in chosen ==> Before(deviation, i, j)
  }

  function Better(deviation: seq<real>, pool: set<nat>, i: nat): set<nat> {
    set j | j in pool && Before(deviation, j, i)
  }

  lemma Smaller(a: set<nat>, b: set<nat>)
    requires a <= b
    ensures |a| <= |b| && (a != b ==> |a| < |b|)
  {
    assert b == a + (b - a);
    if a != b { var x :| x in b - a; assert b - a == {x} + (b - a - {x}); }
  }

  /** Membership in the top is a matter of the number of better pool members alone. */
  lemma TopIsByRank(deviation: seq<real>, pool: set<nat>, chosen: set<nat>, budget: nat, i: nat)
    requires Top(deviation, pool, chosen, budget)
    ensures i in chosen <==> i in pool && |Better(deviation, pool, i)| < budget
  {
    if i in chosen {
      assert Better(deviation, pool, i) <= chosen - {i};
      Smaller(Better(deviation, pool, i), chosen - {i});
    } else if i in pool {
      Smaller(chosen, pool);
      assert chosen <= Better(deviation, pool, i);
      Smaller(chosen, Better(deviation, pool, i));
    }
  }

  // ---- what every run keeps ------------------------------------------------------------------

  datatype Clause = Sizes | Tokens | Pool | Choice | Last

  ghost predicate Holds(a: Adapt, k: Clause) {
    match k
    case Sizes => |a.deviation| == |a.alpha| == a.tokens
    case Tokens => a.reused <= Below(a.tokens) && a.mandatory <= Below(a.tokens)
        && Below(a.tokens) - a.reused <= a.mandatory
    case Pool => a.candidate == Differing(a.deviation, a.reused) - a.removed
    case Choice => Top(a.deviation, a.candidate, a.selected, a.budget)
    case Last => a.last >= 1
  }

  ghost predicate Inv(a: Adapt) {
    forall k: Clause :: Holds(a, k)
  }

  lemma Take(a: Adapt, k: Clause)
    requires Inv(a)
    ensures Holds(a, k)
  {}

  /** A prefix of a ranking outranks the rest. */
  lemma PrefixOutranks(deviation: seq<real>, ranked: seq<nat>, k: nat)
    requires Ranked(deviation, ranked) && k <= |ranked|
    ensures |Elements(ranked[..k])| == k && Elements(ranked[..k]) <= Elements(ranked)
    ensures forall i, j :: i in Elements(ranked[..k]) && j in Elements(ranked) && j !in Elements(ranked[..k]) ==>
            Before(deviation, i, j)
  {
    forall i, j | 0 <= i < j < k ensures ranked[..k][i] != ranked[..k][j] {
      assert Before(deviation, ranked[i], ranked[j]);
    }
    CountDistinct(ranked[..k]);
    forall i, j | i in Elements(ranked[..k]) && j in Elements(ranked) && j !in Elements(ranked[..k])
      ensures Before(deviation, i, j)
    {
      var x :| 0 <= x < k && ranked[x] == i;
      assert ranked == ranked[..k] + ranked[k..];
      var y :| 0 <= y < |ranked[k..]| && ranked[k..][y] == j;
      assert Before(deviation, ranked[x], ranked[k + y]);
    }
  }

  lemma Completes(deviation: seq<real>, pool: set<nat>, chosen: set<nat>, more: set<nat>, budget: nat)
    requires chosen <= pool && more <= pool - chosen && |chosen| <= budget
    requires |more| == if budget - |chosen| < |pool - chosen| then budget - |chosen| else |pool - chosen|
    requires forall i, j :: i in chosen && j in pool && j !in chosen ==> Before(deviation, i, j)
    requires forall i, j :: i in more && j in pool - chosen && j !in more ==> Before(deviation, i, j)
    ensures Top(deviation, pool, chosen + more, budget)
  {
    assert pool == chosen + (pool - chosen);
  }

  lemma FirstOutranks(deviation: seq<real>, ranked: seq<nat>, slots: nat)
    requires Ranked(deviation, ranked)
    ensures var taken := Elements(First(ranked, slots));
            && taken <= Elements(ranked) && |taken| == (if slots < |ranked| then slots else |ranked|)
            && forall i, j :: i in taken && j in Elements(ranked) && j !in taken ==> Before(deviation, i, j)
  {
    assert ranked[..|ranked|] == ranked;
    PrefixOutranks(deviation, ranked, if slots < |ranked| then slots else |ranked|);
  }

  /** The tokens promoted are as many as fit, and the best there are. */
  lemma BestAvailable(deviation: seq<real>, available: set<nat>, slots: nat)
    ensures var taken := Elements(First(Argsort(deviation, Sorted(available)), slots));
            && taken <= available && |taken| == (if slots < |available| then slots else |available|)
            && forall i, j :: i in taken && j in available && j !in taken ==> Before(deviation, i, j)
  {
    var sorted := Sorted(available);
    ArgsortRanks(deviation, sorted);
    assert Elements(Argsort(deviation, sorted)) == available;
    FirstOutranks(deviation, Argsort(deviation, sorted), slots);
  }

  /** One promotion completes a selection that already outranks the rest. */
  lemma PromoteCompletes(a: Adapt)
    requires a.selected <= a.candidate && a.candidate !! a.removed && |a.selected| <= a.budget
    requires forall i, j :: i in a.selected && j in a.candidate && j !in a.selected ==> Before(a.deviation, i, j)
    ensures Top(a.deviation, a.candidate, Promote(a).selected, a.budget)
    ensures Elements(Promoted(a)) <= a.candidate
  {
    BestAvailable(a.deviation, Available(a), Slots(a));
    assert Available(a) == a.candidate - a.selected;
    Completes(a.deviation, a.candidate, a.selected, Elements(Promoted(a)), a.budget);
  }

  /** What leaves takes nothing from the order of what stays. */
  lemma GateKeepsOrder(a: Adapt, out: set<nat>)
    requires Top(a.deviation, a.candidate, a.selected, a.budget) && out <= a.selected
    ensures var b := Gate(a, out);
            && b.selected <= b.candidate && |b.selected| <= b.budget
            && forall i, j :: i in b.selected && j in b.candidate && j !in b.selected ==> Before(b.deviation, i, j)
  {
    Smaller(a.selected - out, a.selected);
  }

  lemma AdvanceKeeps(c: Config, a: Adapt, u: Layer)
    requires Inv(a) && Computed(a, u) && c.interval > 0 && Refusal(a, u).None?
    ensures Inv(Advanced(c, a, u))
  {
    var out := Gated(c, a, u);
    var b := Gate(a, out).(alpha := Put(a.alpha, Active(a), u.alpha), last := u.index);
    forall k: Clause ensures Holds(Advanced(c, a, u), k) == true {
      match k
      case Sizes => Take(a, Sizes);
      case Tokens => Take(a, Tokens);
      case Pool => Take(a, Pool); PoolShrinks(a, out);
      case Choice => Take(a, Choice); Take(a, Pool); GateKeepsOrder(a, out); PromoteCompletes(b);
      case Last =>
    }
  }

  lemma PoolShrinks(a: Adapt, out: set<nat>)
    requires a.candidate == Differing(a.deviation, a.reused) - a.removed
    ensures a.candidate - out == Differing(a.deviation, a.reused) - (a.removed + out)
  {}

  lemma InitialKeeps(tokens: nat, reused: set<nat>, mandatory: set<nat>, deviation: seq<real>, alpha: seq<real>,
                     fraction: real)
    requires 0.0 <= fraction && |deviation| == |alpha| == tokens && reused <= Below(tokens)
    requires mandatory <= Below(tokens)
    ensures var r := Initial(tokens, reused, mandatory, deviation, alpha, fraction); r.Some? ==> Inv(r.value)
  {
    var r := Initial(tokens, reused, mandatory, deviation, alpha, fraction);
    if r.Some? {
      var candidate := Differing(deviation, reused);
      var a := Adapt(tokens, reused, mandatory, deviation, candidate, {}, {}, alpha,
            Budget(fraction, reused, candidate), 1);
      PromoteCompletes(a);
      assert candidate == candidate - {};
      forall k: Clause ensures Holds(Promote(a), k) == true {
        match k case Sizes => case Tokens => case Pool => case Choice => case Last =>
      }
    }
  }

  // ---- over any run -----------------------------------------------------------------------------

  /** A refused update changes nothing. */
  function Step(c: Config, a: Adapt, u: Layer): Adapt
    requires c.interval > 0
  {
    if Computed(a, u) && Refusal(a, u).None? then Advanced(c, a, u) else a
  }

  function Run(c: Config, a: Adapt, us: seq<Layer>): Adapt
    requires c.interval > 0
    decreases |us|
  {
    if us == [] then a else Run(c, Step(c, a, us[0]), us[1..])
  }

  /** All tokens the gate took out. */
  function Out(c: Config, a: Adapt, us: seq<Layer>): set<nat>
    requires c.interval > 0
    decreases |us|
  {
    if us == [] then {}
    else (if Computed(a, us[0]) && Refusal(a, us[0]).None? then Gated(c, a, us[0])
          else {}) + Out(c, Step(c, a, us[0]), us[1..])
  }

  lemma StepKeeps(c: Config, a: Adapt, u: Layer)
    requires c.interval > 0 && Inv(a)
    ensures var b := Step(c, a, u);
            && Inv(b) && b.deviation == a.deviation && b.reused == a.reused && b.budget == a.budget
                  && b.mandatory == a.mandatory
            && b.removed == a.removed + if Computed(a, u) && Refusal(a, u).None? then Gated(c, a, u) else {}
  {
    if Computed(a, u) && Refusal(a, u).None? {
      AdvanceKeeps(c, a, u);
      AdvanceFields(c, a, u);
    }
  }

  lemma {:induction false} RunKeeps(c: Config, a: Adapt, us: seq<Layer>)
    requires c.interval > 0 && Inv(a)
    ensures Inv(Run(c, a, us))
    ensures Run(c, a, us).removed == a.removed + Out(c, a, us)
    ensures Run(c, a, us).deviation == a.deviation && Run(c, a, us).reused == a.reused
    ensures Run(c, a, us).budget == a.budget
    ensures Run(c, a, us).mandatory == a.mandatory
    decreases |us|
  {
    if us != [] {
      StepKeeps(c, a, us[0]);
      RunKeeps(c, Step(c, a, us[0]), us[1..]);
    }
  }

  /** Incremental promotion equals recomputation: after initialization and after any
      updates, a token is selected exactly if it differed at the first layer, was
      never taken out, and fewer than `budget` such tokens rank before it. */
  lemma SelectionIsRecomputed(c: Config, tokens: nat, reused: set<nat>, mandatory: set<nat>, deviation: seq<real>,
                              alpha: seq<real>,
                              fraction: real, us: seq<Layer>, i: nat)
    requires c.interval > 0 && 0.0 <= fraction
    requires |deviation| == |alpha| == tokens && reused <= Below(tokens) && mandatory <= Below(tokens)
    requires Initial(tokens, reused, mandatory, deviation, alpha, fraction).Some?
    ensures var a := Initial(tokens, reused, mandatory, deviation, alpha, fraction).value;
            var pool := Differing(deviation, reused) - Out(c, a, us);
            && (i in Run(c, a, us).selected <==>
                    i in pool && |Better(deviation, pool, i)| < Budget(fraction, reused, Differing(deviation, reused)))
            && |Run(c, a, us).selected| <= Budget(fraction, reused, Differing(deviation, reused))
  {
    InitialKeeps(tokens, reused, mandatory, deviation, alpha, fraction);
    var a := Initial(tokens, reused, mandatory, deviation, alpha, fraction).value;
    RunKeeps(c, a, us);
    var b := Run(c, a, us);
    Take(b, Pool);
    Take(b, Choice);
    assert a.removed == {} && a.deviation == deviation && a.reused == reused;
    assert b.candidate == Differing(deviation, reused) - Out(c, a, us);
    TopIsByRank(deviation, b.candidate, b.selected, a.budget, i);
  }

  /** A token the gate took out is never selected again. */
  lemma RemovedNeverReturns(c: Config, a: Adapt, us: seq<Layer>, i: nat)
    requires c.interval > 0 && Inv(a) && i in a.removed
    ensures i !in Run(c, a, us).selected
  {
    RunKeeps(c, a, us);
    Take(Run(c, a, us), Pool);
    Take(Run(c, a, us), Choice);
  }

  /** Whatever becomes active at the next layer without having been active is a
      reused token, and every mandatory token stays active. */
  lemma NewRowsAreReused(c: Config, a: Adapt, u: Layer, i: nat)
    requires Inv(a) && Computed(a, u) && c.interval > 0 && Refusal(a, u).None?
    ensures i in Active(Advanced(c, a, u)) && i !in Active(a) ==> i in a.reused
    ensures i in a.mandatory ==> i in Active(Advanced(c, a, u))
  {
    AdvanceKeeps(c, a, u);
    Take(Advanced(c, a, u), Pool);
    Take(Advanced(c, a, u), Choice);
  }

  lemma AdvanceFields(c: Config, a: Adapt, u: Layer)
    requires Computed(a, u) && c.interval > 0
    ensures var b := Advanced(c, a, u);
              b.tokens == a.tokens && b.reused == a.reused && b.mandatory == a.mandatory
              && b.last == u.index
  {}

  lemma ActiveInRange(a: Adapt)
    requires Inv(a)
    ensures forall i :: i in Active(a) ==> i < a.tokens
  {
    Take(a, Tokens);
    Take(a, Pool);
    Take(a, Choice);
  }

  // ---- weights --------------------------------------------------------------------------------------

  lemma {:induction false} PutAt(s: seq<real>, indices: seq<nat>, values: seq<real>, i: nat)
    requires |indices| == |values| && Ascending(indices)
    ensures i !in indices ==> Entry(Put(s, indices, values), i) == Entry(s, i)
    ensures forall j :: 0 <= j < |indices| && indices[j] == i < |s| ==> Entry(Put(s, indices, values), i) == values[j]
    decreases |indices|
  {
    if indices != [] {
      var s1 := if indices[0] < |s| then s[indices[0] := values[0]] else s;
      PutAt(s1, indices[1..], values[1..], i);
      if i == indices[0] { assert i !in indices[1..]; }
    }
  }

  /** A token's weight when it was last recomputed. */
  function Observed(c: Config, a: Adapt, us: seq<Layer>, i: nat, sofar: real): real
    requires c.interval > 0
    decreases |us|
  {
    if us == [] then sofar
    else
      var now := if Computed(a, us[0]) && Refusal(a, us[0]).None?
          && i in Active(a) then Weight(Active(a), us[0].alpha, i) else sofar;
      Observed(c, Step(c, a, us[0]), us[1..], i, now)
  }

  function Weight(indices: seq<nat>, values: seq<real>, i: nat): real
    requires |indices| == |values|
  {
    if indices == [] then 0.0 else if indices[0] == i then values[0] else Weight(indices[1..], values[1..], i)
  }

  lemma {:induction false} WeightAt(indices: seq<nat>, values: seq<real>, i: nat)
    requires |indices| == |values| && i in indices
    ensures exists j :: 0 <= j < |indices| && indices[j] == i && values[j] == Weight(indices, values, i)
  {
    if indices[0] == i {
      assert values[0] == Weight(indices, values, i);
    } else {
      assert i in indices[1..];
      WeightAt(indices[1..], values[1..], i);
      var j :| 0 <= j < |indices[1..]| && indices[1..][j] == i
          && values[1..][j] == Weight(indices[1..], values[1..], i);
      assert indices[j + 1] == i && values[j + 1] == Weight(indices, values, i);
    }
  }

  lemma StepWeight(c: Config, a: Adapt, u: Layer, i: nat)
    requires Inv(a) && Computed(a, u) && c.interval > 0 && i < a.tokens
    ensures Entry(Advanced(c, a, u).alpha, i) == if i in Active(a) then Weight(Active(a), u.alpha, i)
            else Entry(a.alpha, i)
  {
    Take(a, Sizes);
    PutAt(a.alpha, Active(a), u.alpha, i);
    if i in Active(a) { WeightAt(Active(a), u.alpha, i); }
  }

  /** A token keeps the weight it was last observed with, also while it is not
      selected; at first that is the first layer's. */
  lemma {:induction false} WeightsAreLatest(c: Config, a: Adapt, us: seq<Layer>, i: nat)
    requires c.interval > 0 && Inv(a) && i < a.tokens
    ensures Entry(Run(c, a, us).alpha, i) == Observed(c, a, us, i, Entry(a.alpha, i))
    decreases |us|
  {
    if us != [] {
      if Computed(a, us[0]) && Refusal(a, us[0]).None? {
        AdvanceKeeps(c, a, us[0]);
        StepWeight(c, a, us[0], i);
      }
      WeightsAreLatest(c, Step(c, a, us[0]), us[1..], i);
    }
  }

  lemma FuseFully(recomputed: real, cached: real)
    ensures Fuse(1.0, recomputed, cached) == recomputed
  {}

  /** Mandatory rows are always the recomputed ones, whatever the cache holds. */
  lemma MandatoryIsRecomputed(c: Config, a: Adapt, u: Layer, j: nat)
    requires Computed(a, u) && j < |Active(a)| == |u.recomputedK| == |u.recomputedV| && Active(a)[j] in a.mandatory
    ensures Fused(a, Used(c, a, u), u.recomputedK, u.cachedK)[j] == u.recomputedK[j]
    ensures Fused(a, Used(c, a, u), u.recomputedV, u.cachedV)[j] == u.recomputedV[j]
  {
    FuseFully(u.recomputedK[j], Entry(u.cachedK, Active(a)[j]));
    FuseFully(u.recomputedV[j], Entry(u.cachedV, Active(a)[j]));
  }

  lemma Product(x: real, y: real)
    requires 0.0 <= x && 0.0 <= y
    ensures 0.0 <= x * y
  {}

  /** A clamped weight keeps a fused entry between the cached and the recomputed one. */
  lemma FusedIsBetween(weight: real, recomputed: real, cached: real)
    requires 0.0 <= weight <= 1.0
    ensures cached <= recomputed ==> cached <= Fuse(weight, recomputed, cached) <= recomputed
    ensures recomputed <= cached ==> recomputed <= Fuse(weight, recomputed, cached) <= cached
  {
    var d := recomputed - cached;
    assert Fuse(weight, recomputed, cached) == cached + weight * d == recomputed - (1.0 - weight) * d;
    if d >= 0.0 { Product(weight, d); Product(1.0 - weight, d); }
    else { Product(weight, -d); Product(1.0 - weight, -d); }
  }
}
