/** The weighted cache adaptation over whole runs, in terms of what was measured at each
    layer: which rows are taken out, which are selected, and what each row is fused with. */
module AdaptationRuns {
  import opened Basics
  import opened Adaptation
  import opened AdaptationTheorems

  // ---- one update ----------------------------------------------------------------------------

  /** The tokens that a layer recomputes: the mandatory and the selected ones, ascending. */
  lemma ActiveExactly(a: Adapt)
    ensures Ascending(Active(a)) && forall t :: t in Active(a) <==> t in a.selected || t in a.mandatory
    ensures |Active(a)| == |a.selected + a.mandatory|
  {}

  /** The update is for the next layer, its tensors have a row for every token and for every
      active token, the rows are said to be those of the active tokens, and all numbers are
      finite. */
  ghost predicate Acceptable(a: Adapt, u: Layer) {
    && u.index == a.last + 1 && |u.cachedK| == |u.cachedV| == a.tokens
    && |u.recomputedK| == |u.recomputedV| == |a.selected + a.mandatory|
    && (u.computed.Some? ==> Ascending(u.computed.value)
                             && forall t :: t in u.computed.value <==> t in a.selected || t in a.mandatory)
    && u.failure.None?
  }

  /** The rows are said to be those of the active tokens. */
  lemma ComputedExactly(a: Adapt, s: seq<nat>)
    ensures s == Active(a) <==> Ascending(s) && forall t :: t in s <==> t in a.selected || t in a.mandatory
  {
    ActiveExactly(a);
    if Ascending(s) && forall t :: t in s <==> t in a.selected || t in a.mandatory { OneEnumeration(s, Active(a)); }
  }

  /** An update is accepted exactly then. */
  lemma AcceptedExactly(a: Adapt, u: Layer)
    ensures Refusal(a, u).None? <==> Acceptable(a, u)
  {
    ActiveExactly(a);
    if u.computed.Some? { ComputedExactly(a, u.computed.value); }
  }

  /** The first thing looked at is the layer's number; only numbers that are not finite are
      reported as such, and they are if all else is well. */
  lemma FaultsAreTold(a: Adapt, u: Layer)
    ensures Refusal(a, u) == Some(Order) <==> u.index != a.last + 1
    ensures Refusal(a, u) == Some(Numeric) ==> u.failure.Some?
    ensures u.failure.Some? && Acceptable(a, u.(failure := None)) ==> Refusal(a, u) == Some(Numeric)
  {
    AcceptedExactly(a, u.(failure := None));
  }

  /** The agreement measured for the `j`-th active row is below the threshold: its cosine, or
      its distance, whichever the configuration compares. */
  predicate Lower(c: Config, u: Layer, j: nat)
    requires j < |u.cosine|
  {
    if c.lowCosine then u.cosine[j] < c.threshold else 1.0 - u.cosine[j] < c.threshold
  }

  /** The gate runs at this layer and takes the token out. */
  ghost predicate LeavesAt(c: Config, a: Adapt, u: Layer, t: nat)
    requires c.interval > 0
  {
    && u.index % c.interval == 0 && t in a.selected
    && exists j :: 0 <= j < |Active(a)| && j < |u.cosine| && Active(a)[j] == t && Lower(c, u, j)
  }

  lemma GatedExactly(c: Config, a: Adapt, u: Layer, t: nat)
    requires c.interval > 0 && Computed(a, u)
    ensures t in Gated(c, a, u) <==> LeavesAt(c, a, u, t)
  {
    if LeavesAt(c, a, u, t) {
      var j :| 0 <= j < |Active(a)| && j < |u.cosine| && Active(a)[j] == t && Lower(c, u, j);
      assert Metric(c, u.cosine[j]) < c.threshold;
    }
    if t in Gated(c, a, u) {
      var j :| 0 <= j < |Active(a)| && Active(a)[j] in a.selected && Metric(c, u.cosine[j]) < c.threshold
          && Active(a)[j] == t;
      assert Lower(c, u, j);
    }
  }

  /** Every active row comes out as a mixture of the recomputed and the cached one: a mandatory
      row is the recomputed one; another has the stored weight if weights are those of the
      previous layer, and otherwise the weight of this one. */
  ghost predicate FusedFrom(c: Config, a: Adapt, u: Layer, r: Report) {
    && r.indices == Active(a) && |r.fusedK| == |r.fusedV| == |r.used| == |r.indices|
    && forall j :: 0 <= j < |r.indices| ==> FusedRow(c, a, u, r, j)
  }

  ghost predicate FusedRow(c: Config, a: Adapt, u: Layer, r: Report, j: nat) {
    && j < |r.indices| && r.indices[j] < |a.alpha| && j < |u.alpha|
    && FusedWith(u, r, j, r.indices[j],
                 if r.indices[j] in a.mandatory then 1.0
                 else if c.previousLayer then a.alpha[r.indices[j]] else u.alpha[j])
  }

  /** Row `j`, that of token `t`, is reported with the weight and mixed with it. */
  ghost predicate FusedWith(u: Layer, r: Report, j: nat, t: nat, weight: real) {
    && j < |r.used| && j < |r.fusedK| && j < |r.fusedV| && j < |u.recomputedK| && j < |u.recomputedV|
    && t < |u.cachedK| && t < |u.cachedV| && r.used[j] == weight
    && r.fusedK[j] == weight * u.recomputedK[j] + (1.0 - weight) * u.cachedK[t]
    && r.fusedV[j] == weight * u.recomputedV[j] + (1.0 - weight) * u.cachedV[t]
  }

  lemma FusedExactly(c: Config, a: Adapt, u: Layer)
    requires c.interval > 0 && Computed(a, u) && Refusal(a, u).None?
    requires |a.alpha| == a.tokens && forall t :: t in Active(a) ==> t < a.tokens
    ensures FusedFrom(c, a, u, Reported(c, a, u))
  {
    var r := Reported(c, a, u);
    ReportedRows(c, a, u);
    forall j | 0 <= j < |r.indices| ensures FusedRow(c, a, u, r, j) == true {
      assert r.indices[j] in Active(a);
      RowIsFused(c, a, u, r, j);
    }
  }

  lemma RowIsFused(c: Config, a: Adapt, u: Layer, r: Report, j: nat)
    requires Computed(a, u) && j < |Active(a)| && Active(a)[j] < a.tokens == |a.alpha|
    requires r.indices == Active(a) && r.used == Used(c, a, u)
    requires |u.cachedK| == |u.cachedV| == a.tokens && |u.recomputedK| == |u.recomputedV| == |Active(a)|
    requires r.fusedK == Fused(a, r.used, u.recomputedK, u.cachedK)
    requires r.fusedV == Fused(a, r.used, u.recomputedV, u.cachedV)
    ensures FusedRow(c, a, u, r, j) == true
  {
    MixedRow(a, u, r, j);
    UsedWeight(c, a, u, j);
  }

  lemma MixedRow(a: Adapt, u: Layer, r: Report, j: nat)
    requires j < |Active(a)| == |r.used| == |u.recomputedK| == |u.recomputedV|
    requires Active(a)[j] < |u.cachedK| == |u.cachedV|
    requires r.fusedK == Fused(a, r.used, u.recomputedK, u.cachedK)
    requires r.fusedV == Fused(a, r.used, u.recomputedV, u.cachedV)
    ensures FusedWith(u, r, j, Active(a)[j], r.used[j]) == true
  {
    MixedEntry(a, r.used, u.recomputedK, u.cachedK, j);
    MixedEntry(a, r.used, u.recomputedV, u.cachedV, j);
  }

  lemma ReportedRows(c: Config, a: Adapt, u: Layer)
    requires c.interval > 0 && Computed(a, u) && Refusal(a, u).None?
    ensures var r := Reported(c, a, u);
            && r.indices == Active(a) && r.used == Used(c, a, u) && |r.used| == |Active(a)|
            && |u.cachedK| == |u.cachedV| == a.tokens && |u.recomputedK| == |u.recomputedV| == |Active(a)|
            && r.fusedK == Fused(a, r.used, u.recomputedK, u.cachedK)
            && r.fusedV == Fused(a, r.used, u.recomputedV, u.cachedV)
  {}

  lemma UsedWeight(c: Config, a: Adapt, u: Layer, j: nat)
    requires Computed(a, u) && j < |Active(a)| && Active(a)[j] < |a.alpha|
    ensures var t := Active(a)[j];
            Used(c, a, u)[j] == if t in a.mandatory then 1.0 else if c.previousLayer then a.alpha[t] else u.alpha[j]
  {}

  lemma MixedEntry(a: Adapt, used: seq<real>, recomputed: seq<real>, cached: seq<real>, j: nat)
    requires |used| == |recomputed| == |Active(a)| && j < |used| && Active(a)[j] < |cached|
    ensures Fused(a, used, recomputed, cached)[j]
            == used[j] * recomputed[j] + (1.0 - used[j]) * cached[Active(a)[j]]
  {}

  // ---- whole runs ----------------------------------------------------------------------------

  /** The token was taken out by one of the accepted updates. */
  ghost predicate TakenOut(c: Config, a: Adapt, us: seq<Layer>, t: nat)
    requires c.interval > 0
    decreases |us|
  {
    us != []
    && ((Computed(a, us[0]) && Acceptable(a, us[0]) && LeavesAt(c, a, us[0], t))
        || TakenOut(c, Step(c, a, us[0]), us[1..], t))
  }

  lemma {:induction false} OutExactly(c: Config, a: Adapt, us: seq<Layer>, t: nat)
    requires c.interval > 0
    ensures t in Out(c, a, us) <==> TakenOut(c, a, us, t)
    decreases |us|
  {
    if us != [] {
      OutExactly(c, Step(c, a, us[0]), us[1..], t);
      AcceptedExactly(a, us[0]);
      if Computed(a, us[0]) { GatedExactly(c, a, us[0], t); }
    }
  }

  /** Reused tokens whose K rows differed at the first layer, less those taken out. */
  ghost function Eligible(c: Config, a: Adapt, us: seq<Layer>, reused: set<nat>, deviation: seq<real>): set<nat>
    requires c.interval > 0
  {
    set t | t in reused && t < |deviation| && deviation[t] > 0.0 && !TakenOut(c, a, us, t)
  }

  /** The members of the pool with a larger deviation, or the same and a smaller index. */
  ghost function AheadOf(pool: set<nat>, deviation: seq<real>, t: nat): set<nat> {
    set j | j in pool && j < |deviation| && t < |deviation|
            && (deviation[j] > deviation[t] || (deviation[j] == deviation[t] && j < t))
  }

  /** The correction fraction of the reused tokens, rounded up, but no more than differ. */
  ghost predicate BudgetIs(budget: nat, fraction: real, reused: set<nat>, deviation: seq<real>) {
    var wanted := fraction * |reused| as real;
    var differing := |set t | t in reused && t < |deviation| && deviation[t] > 0.0|;
    if wanted <= differing as real then wanted <= budget as real < wanted + 1.0 else budget == differing
  }

  lemma BudgetExactly(fraction: real, reused: set<nat>, deviation: seq<real>)
    requires 0.0 <= fraction && reused <= Basics.Below(|deviation|)
    ensures BudgetIs(Budget(fraction, reused, Differing(deviation, reused)), fraction, reused, deviation)
  {
    var pool := Differing(deviation, reused);
    assert pool == set t | t in reused && t < |deviation| && deviation[t] > 0.0;
    var wanted := fraction * |reused| as real;
    Nonnegative(fraction, |reused|);
    CeilingBelow(wanted, |pool|);
  }

  lemma Nonnegative(x: real, n: nat)
    requires 0.0 <= x
    ensures 0.0 <= x * n as real
  {}

  lemma CeilingBelow(x: real, n: nat)
    requires 0.0 <= x
    ensures x <= n as real <==> Ceiling(x) <= n
  {}

  /** After any updates a token is selected exactly if it is reused, differed at the first
      layer, was not taken out, and fewer than the budget of such tokens are ahead of it. */
  lemma SelectedExactly(c: Config, tokens: nat, reused: set<nat>, mandatory: set<nat>, deviation: seq<real>,
                        alpha: seq<real>, fraction: real, us: seq<Layer>, t: nat, a: Adapt)
    returns (budget: nat)
    requires c.interval > 0 && 0.0 <= fraction
    requires |deviation| == |alpha| == tokens && reused <= Basics.Below(tokens) && mandatory <= Basics.Below(tokens)
    requires Initial(tokens, reused, mandatory, deviation, alpha, fraction) == Some(a)
    ensures BudgetIs(budget, fraction, reused, deviation)
    ensures t in Run(c, a, us).selected
            <==> t in Eligible(c, a, us, reused, deviation)
                 && |AheadOf(Eligible(c, a, us, reused, deviation), deviation, t)| < budget
  {
    budget := Budget(fraction, reused, Differing(deviation, reused));
    BudgetExactly(fraction, reused, deviation);
    SelectionIsRecomputed(c, tokens, reused, mandatory, deviation, alpha, fraction, us, t);
    RankedExactly(c, a, us, reused, deviation, t);
  }

  lemma RankedExactly(c: Config, a: Adapt, us: seq<Layer>, reused: set<nat>, deviation: seq<real>, t: nat)
    requires c.interval > 0
    ensures var pool := Differing(deviation, reused) - Out(c, a, us);
            && pool == Eligible(c, a, us, reused, deviation)
            && (t in pool ==> Better(deviation, pool, t) == AheadOf(pool, deviation, t))
  {
    PoolExactly(c, a, us, reused, deviation);
    var pool := Eligible(c, a, us, reused, deviation);
    if t in pool { BetterExactly(pool, deviation, t); }
  }

  lemma PoolExactly(c: Config, a: Adapt, us: seq<Layer>, reused: set<nat>, deviation: seq<real>)
    requires c.interval > 0
    ensures Differing(deviation, reused) - Out(c, a, us) == Eligible(c, a, us, reused, deviation)
  {
    forall t ensures t in Out(c, a, us) <==> TakenOut(c, a, us, t) { OutExactly(c, a, us, t); }
  }

  lemma BetterExactly(pool: set<nat>, deviation: seq<real>, t: nat)
    requires t < |deviation| && forall j :: j in pool ==> j < |deviation|
    ensures Better(deviation, pool, t) == AheadOf(pool, deviation, t)
  {}

  /** What each row is fused with, over any run: a mandatory row is the recomputed one; any
      other is mixed with the weight the token had when it was last recomputed before this
      layer if weights are those of the previous layer, and with this layer's otherwise. */
  lemma FusedOverRuns(c: Config, a: Adapt, us: seq<Layer>, u: Layer, j: nat)
    requires c.interval > 0 && Inv(a)
    requires Computed(Run(c, a, us), u) && Acceptable(Run(c, a, us), u) && j < |Active(Run(c, a, us))|
    requires Refusal(Run(c, a, us), u).None?
    ensures var r, t := Reported(c, Run(c, a, us), u), Active(Run(c, a, us))[j];
            && t < |a.alpha|
            && FusedWith(u, r, j, t, if t in a.mandatory then 1.0
                                     else if c.previousLayer then Observed(c, a, us, t, a.alpha[t]) else u.alpha[j])
  {
    var b := Run(c, a, us);
    RunKeeps(c, a, us);
    Take(a, Sizes);
    Take(b, Sizes);
    ActiveInRange(b);
    RunTokens(c, a, us);
    FusedExactly(c, b, u);
    assert Active(b)[j] in Active(b);
    WeightsAreLatest(c, a, us, Active(b)[j]);
    assert FusedRow(c, b, u, Reported(c, b, u), j);
  }

  lemma {:induction false} RunTokens(c: Config, a: Adapt, us: seq<Layer>)
    requires c.interval > 0
    ensures Run(c, a, us).tokens == a.tokens
    decreases |us|
  {
    if us != [] { RunTokens(c, Step(c, a, us[0]), us[1..]); }
  }
}
