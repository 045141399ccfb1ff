/** The layers of a prefill in terms of what is measured at each of them: which tokens a layer
    computes, what its attention reads, why the loop stops, and what a population stores. */
module LayerRuns {
  import opened Basics
  import A = Adaptation
  import AT = AdaptationTheorems
  import AR = AdaptationRuns
  import opened SparsePrefill

  /** A prefill that reuses, with the number of fixed tokens it may recompute. */
  datatype Reuse = Reuse(m: Prompt, s: Settings, ws: seq<Weather>, budget: nat)

  ghost predicate Fits(r: Reuse) {
    Partitioned(r.m) && AllSized(r.ws, r.m.tokens) && r.s.wca.interval > 0 && 0.0 <= r.s.fraction
  }

  ghost predicate Selects(r: Reuse, layer: nat) {
    Fits(r) && r.s.calibration < layer <= |r.ws|
  }

  // ---- which tokens a layer computes ---------------------------------------------------------

  /** The agreement measured for the token is below the threshold: its cosine, or its distance,
      whichever the configuration compares. */
  ghost predicate Low(s: Settings, w: Weather, t: nat) {
    t < |w.cosine|
    && if s.wca.lowCosine then w.cosine[t] < s.wca.threshold else 1.0 - w.cosine[t] < s.wca.threshold
  }

  ghost function LowOnes(tokens: set<nat>, s: Settings, w: Weather): set<nat> {
    set t | t in tokens && Low(s, w, t)
  }

  /** The gate runs before this layer. */
  ghost predicate Gates(s: Settings, layer: nat) {
    s.wca.interval > 0 && layer % s.wca.interval == 0
  }

  /** Fixed tokens whose K rows differ at the calibrating layer. */
  ghost function Differ(r: Reuse): set<nat> {
    set t | t in r.m.fixed && r.s.calibration < |r.ws| && t < |r.ws[r.s.calibration].deviation|
            && r.ws[r.s.calibration].deviation[t] > 0.0
  }

  /** Fixed tokens that differ, less those that the gate has taken out since. */
  ghost function Pool(r: Reuse, layer: nat): set<nat>
    requires Selects(r, layer)
    decreases layer, 0
  {
    if layer == r.s.calibration + 1 then Differ(r)
    else if Gates(r.s, layer) then Pool(r, layer - 1) - LowOnes(Chosen(r, layer - 1), r.s, r.ws[layer - 1])
    else Pool(r, layer - 1)
  }

  /** Those of the pool with fewer than the budget ahead of them. */
  ghost function Chosen(r: Reuse, layer: nat): set<nat>
    requires Selects(r, layer)
    decreases layer, 1
  {
    Leading(Pool(r, layer), r.ws[r.s.calibration].deviation, r.budget)
  }

  ghost function Leading(pool: set<nat>, deviation: seq<real>, budget: nat): set<nat> {
    set t | t in pool && |AR.AheadOf(pool, deviation, t)| < budget
  }

  /** Up to the calibration every token is computed, then the mandatory and the chosen ones. */
  ghost predicate Computes(r: Reuse, layer: nat, t: nat)
    requires Fits(r) && layer <= |r.ws|
  {
    if layer <= r.s.calibration then t < r.m.tokens else t in r.m.mandatory || t in Chosen(r, layer)
  }

  /** The weight of a token at the last layer before this one that computed it. */
  ghost function Latest(r: Reuse, layer: nat, t: nat): real
    requires Selects(r, layer) && t < r.m.tokens
    decreases layer
  {
    if Computes(r, layer - 1, t) then r.ws[layer - 1].alpha[t]
    else if layer - 1 > r.s.calibration then Latest(r, layer - 1, t)
    else 0.0
  }

  // ---- the adaptation state agrees -----------------------------------------------------------

  datatype Part = Seat | Candidates | Selection | Weights

  ghost predicate Says(r: Reuse, a: A.Adapt, layer: nat, k: Part)
    requires Selects(r, layer)
  {
    match k
    case Seat => Seated(r, a, layer)
    case Candidates => a.candidate == Pool(r, layer)
    case Selection => a.selected == Chosen(r, layer)
    case Weights => forall t: nat :: Recent(r, a, layer, t)
  }

  ghost predicate Recent(r: Reuse, a: A.Adapt, layer: nat, t: nat)
    requires Selects(r, layer)
  {
    t < r.m.tokens && t < |a.alpha| ==> a.alpha[t] == Latest(r, layer, t)
  }

  ghost predicate Seated(r: Reuse, a: A.Adapt, layer: nat) {
    && Adapting(a, r.m, layer) && a.budget == r.budget && |a.alpha| == r.m.tokens
    && r.s.calibration < |r.ws| && a.deviation == r.ws[r.s.calibration].deviation
  }

  ghost predicate Stands(r: Reuse, a: A.Adapt, layer: nat)
    requires Selects(r, layer)
  {
    forall k: Part :: Says(r, a, layer, k)
  }

  lemma Take(r: Reuse, a: A.Adapt, layer: nat, k: Part)
    requires Selects(r, layer) && Stands(r, a, layer)
    ensures Says(r, a, layer, k)
  {}

  /** The selection of a state is what its pool, deviations and budget determine. */
  lemma SelectionOf(a: A.Adapt)
    requires AT.Inv(a)
    ensures a.selected == Leading(a.candidate, a.deviation, a.budget)
  {
    AT.Take(a, AT.Choice);
    AT.Take(a, AT.Pool);
    AT.Take(a, AT.Sizes);
    AT.Take(a, AT.Tokens);
    forall t ensures t in a.selected <==> t in Leading(a.candidate, a.deviation, a.budget) {
      AT.TopIsByRank(a.deviation, a.candidate, a.selected, a.budget, t);
      if t in a.candidate { AR.BetterExactly(a.candidate, a.deviation, t); }
    }
  }

  lemma ChosenIs(r: Reuse, a: A.Adapt, layer: nat)
    requires Selects(r, layer) && Says(r, a, layer, Seat) && Says(r, a, layer, Candidates)
    ensures Says(r, a, layer, Selection) == true
  {
    SelectionOf(a);
  }

  // ---- at the calibration --------------------------------------------------------------------

  lemma InitialFields(tokens: nat, reused: set<nat>, mandatory: set<nat>, deviation: seq<real>, alpha: seq<real>,
                      fraction: real, a: A.Adapt)
    requires 0.0 <= fraction && A.Initial(tokens, reused, mandatory, deviation, alpha, fraction) == Some(a)
    ensures a.deviation == deviation && a.candidate == A.Differing(deviation, reused) && a.alpha == alpha
    ensures a.budget == A.Budget(fraction, reused, A.Differing(deviation, reused))
  {}

  lemma FirstPool(r: Reuse)
    requires Fits(r) && r.s.calibration < |r.ws|
    ensures Pool(r, r.s.calibration + 1) == A.Differing(r.ws[r.s.calibration].deviation, A.Elements(r.m.fixed))
  {
    assert Sized(r.ws[r.s.calibration], r.m.tokens);
  }

  lemma FirstWeights(r: Reuse, a: A.Adapt)
    requires Fits(r) && r.s.calibration < |r.ws| && a.alpha == r.ws[r.s.calibration].alpha
    ensures Says(r, a, r.s.calibration + 1, Weights) == true
  {
    assert Sized(r.ws[r.s.calibration], r.m.tokens);
  }

  /** The state that calibration hands on, and the budget it sets. */
  lemma Starts(m: Prompt, s: Settings, ws: seq<Weather>) returns (r: Reuse, a: A.Adapt)
    requires Partitioned(m) && AllSized(ws, m.tokens) && s.wca.interval > 0 && 0.0 <= s.fraction
    requires s.calibration < |ws|
    ensures r == Reuse(m, s, ws, r.budget) && Selects(r, s.calibration + 1)
    ensures AR.BudgetIs(r.budget, s.fraction, A.Elements(m.fixed), ws[s.calibration].deviation)
    ensures StartedAt(m, s, ws[s.calibration], s.calibration + 1) == Some(a)
    ensures Adapting(a, m, s.calibration + 1) == true && a.budget == r.budget
    ensures a.deviation == ws[s.calibration].deviation && a.alpha == ws[s.calibration].alpha
    ensures a.candidate == A.Differing(a.deviation, A.Elements(m.fixed))
  {
    var w := ws[s.calibration];
    assert Sized(w, m.tokens);
    a := CalibrationLinks(m, s, w, s.calibration + 1);
    var b := StartsGood(m, s, w);
    Restarted(m, s, w, s.calibration + 1, b);
    InitialFields(m.tokens, A.Elements(m.fixed), A.Elements(m.mandatory), w.deviation, w.alpha, s.fraction, b);
    AR.BudgetExactly(s.fraction, A.Elements(m.fixed), w.deviation);
    r := Reuse(m, s, ws, a.budget);
  }

  lemma StandsFirst(r: Reuse, a: A.Adapt)
    requires Fits(r) && r.s.calibration < |r.ws| && Adapting(a, r.m, r.s.calibration + 1) && a.budget == r.budget
    requires a.deviation == r.ws[r.s.calibration].deviation && a.alpha == r.ws[r.s.calibration].alpha
    requires a.candidate == A.Differing(a.deviation, A.Elements(r.m.fixed))
    ensures Stands(r, a, r.s.calibration + 1) == true
  {
    AT.Take(a, AT.Sizes);
    FirstPool(r);
    var first := r.s.calibration + 1;
    forall k: Part ensures Says(r, a, first, k) == true {
      match k
      case Seat =>
      case Candidates =>
      case Selection => ChosenIs(r, a, first);
      case Weights => FirstWeights(r, a);
    }
  }

  // ---- from layer to layer -------------------------------------------------------------------

  /** The update of a layer: its rows are the active tokens', its numbers the layer's. */
  ghost predicate Measured(a: A.Adapt, m: Prompt, w: Weather, layer: nat, u: A.Layer) {
    && Sized(w, m.tokens) && (forall i :: i in A.Active(a) ==> i < m.tokens) && u.index == layer + 1
    && u.cosine == Pick(w.cosine, A.Active(a)) && u.alpha == Pick(w.alpha, A.Active(a))
    && A.Computed(a, u) && A.Refusal(a, u).None?
  }

  ghost predicate Becomes(a: A.Adapt, b: A.Adapt, s: Settings, u: A.Layer) {
    s.wca.interval > 0 && A.Computed(a, u) && b == A.Advanced(s.wca, a, u)
  }

  lemma ComputesActive(r: Reuse, a: A.Adapt, layer: nat, t: nat)
    requires Selects(r, layer) && Stands(r, a, layer)
    ensures t in A.Active(a) <==> Computes(r, layer, t)
  {
    Take(r, a, layer, Seat);
    Take(r, a, layer, Selection);
  }

  /** A layer's measurements, row by row, are those of its active tokens. */
  lemma PickedAt<T>(x: seq<T>, indices: seq<nat>, j: nat)
    requires (forall i :: i in indices ==> i < |x|) && j < |indices|
    ensures indices[j] < |x| && Pick(x, indices)[j] == x[indices[j]]
  {
    assert indices[j] in indices;
  }

  lemma GateAt(m: Prompt, s: Settings, a: A.Adapt, w: Weather, u: A.Layer, t: nat)
    requires s.wca.interval > 0 && Sized(w, m.tokens) && (forall i :: i in A.Active(a) ==> i < m.tokens)
    requires u.cosine == Pick(w.cosine, A.Active(a)) && A.Computed(a, u)
    ensures AR.LeavesAt(s.wca, a, u, t) <==> Gates(s, u.index) && t in a.selected && Low(s, w, t)
  {
    AR.ActiveExactly(a);
    if t in a.selected {
      var j :| 0 <= j < |A.Active(a)| && A.Active(a)[j] == t;
      PickedAt(w.cosine, A.Active(a), j);
      if AR.LeavesAt(s.wca, a, u, t) {
        var i :| 0 <= i < |A.Active(a)| && i < |u.cosine| && A.Active(a)[i] == t && AR.Lower(s.wca, u, i);
        PickedAt(w.cosine, A.Active(a), i);
      }
      if Low(s, w, t) { assert AR.Lower(s.wca, u, j); }
    }
  }

  lemma GatedAre(m: Prompt, s: Settings, a: A.Adapt, layer: nat, w: Weather, u: A.Layer)
    requires s.wca.interval > 0 && Measured(a, m, w, layer, u)
    ensures A.Gated(s.wca, a, u) == if Gates(s, layer + 1) then LowOnes(a.selected, s, w) else {}
  {
    forall t ensures t in A.Gated(s.wca, a, u) <==> Gates(s, layer + 1) && t in LowOnes(a.selected, s, w) {
      AR.GatedExactly(s.wca, a, u, t);
      GateAt(m, s, a, w, u, t);
    }
  }

  lemma AdvancedFields(c: A.Config, a: A.Adapt, u: A.Layer)
    requires c.interval > 0 && A.Computed(a, u)
    ensures var b := A.Advanced(c, a, u);
            && b.deviation == a.deviation && b.budget == a.budget && b.candidate == a.candidate - A.Gated(c, a, u)
            && b.alpha == A.Put(a.alpha, A.Active(a), u.alpha)
  {}

  lemma NextSeat(r: Reuse, a: A.Adapt, b: A.Adapt, layer: nat, u: A.Layer)
    requires Selects(r, layer) && layer < |r.ws| && Stands(r, a, layer)
    requires Measured(a, r.m, r.ws[layer], layer, u) && Becomes(a, b, r.s, u)
    ensures Says(r, b, layer + 1, Seat) == true
  {
    Take(r, a, layer, Seat);
    UpdateFits(r.m, r.s.wca, a, u, layer);
    AdvancedFields(r.s.wca, a, u);
    AT.Take(b, AT.Sizes);
  }

  lemma PoolStep(r: Reuse, layer: nat)
    requires Selects(r, layer) && layer < |r.ws|
    ensures Pool(r, layer + 1) == Pool(r, layer)
            - if Gates(r.s, layer + 1) then LowOnes(Chosen(r, layer), r.s, r.ws[layer]) else {}
  {}

  lemma LosesGated(r: Reuse, a: A.Adapt, b: A.Adapt, layer: nat, w: Weather, u: A.Layer)
    requires Measured(a, r.m, w, layer, u) && Becomes(a, b, r.s, u)
    ensures b.candidate == a.candidate - if Gates(r.s, layer + 1) then LowOnes(a.selected, r.s, w) else {}
  {
    AdvancedFields(r.s.wca, a, u);
    GatedAre(r.m, r.s, a, layer, w, u);
  }

  lemma NextCandidates(r: Reuse, a: A.Adapt, b: A.Adapt, layer: nat, u: A.Layer)
    requires Selects(r, layer) && layer < |r.ws| && Stands(r, a, layer)
    requires Measured(a, r.m, r.ws[layer], layer, u) == true && Becomes(a, b, r.s, u) == true
    ensures Says(r, b, layer + 1, Candidates) == true
  {
    Take(r, a, layer, Candidates);
    Take(r, a, layer, Selection);
    LosesGated(r, a, b, layer, r.ws[layer], u);
    PoolStep(r, layer);
  }

  lemma LatestStep(r: Reuse, layer: nat, t: nat)
    requires Selects(r, layer) && layer < |r.ws| && t < r.m.tokens
    ensures Sized(r.ws[layer], r.m.tokens)
    ensures Latest(r, layer + 1, t) == if Computes(r, layer, t) then r.ws[layer].alpha[t] else Latest(r, layer, t)
  {}

  /** A token that is active gets its new weight, another keeps its old one. */
  lemma PutWeight(a: A.Adapt, m: Prompt, w: Weather, layer: nat, u: A.Layer, t: nat)
    requires Measured(a, m, w, layer, u) && |a.alpha| == m.tokens && t < m.tokens
    ensures Sized(w, m.tokens)
    ensures A.Entry(A.Put(a.alpha, A.Active(a), u.alpha), t) == if t in A.Active(a) then w.alpha[t] else a.alpha[t]
  {
    AT.PutAt(a.alpha, A.Active(a), u.alpha, t);
    if t in A.Active(a) {
      var j :| 0 <= j < |A.Active(a)| && A.Active(a)[j] == t;
      PickedAt(w.alpha, A.Active(a), j);
    }
  }

  lemma NextWeight(r: Reuse, a: A.Adapt, b: A.Adapt, layer: nat, u: A.Layer, t: nat)
    requires Selects(r, layer) && layer < |r.ws| && Stands(r, a, layer) == true
    requires Measured(a, r.m, r.ws[layer], layer, u) == true && Becomes(a, b, r.s, u) == true
    ensures Recent(r, b, layer + 1, t) == true
  {
    if t < r.m.tokens && t < |b.alpha| {
      AdvancedFields(r.s.wca, a, u);
      Take(r, a, layer, Seat);
      Take(r, a, layer, Weights);
      assert Recent(r, a, layer, t);
      PutWeight(a, r.m, r.ws[layer], layer, u, t);
      ComputesActive(r, a, layer, t);
      LatestStep(r, layer, t);
    }
  }

  lemma NextWeights(r: Reuse, a: A.Adapt, b: A.Adapt, layer: nat, u: A.Layer)
    requires Selects(r, layer) && layer < |r.ws| && Stands(r, a, layer) == true
    requires Measured(a, r.m, r.ws[layer], layer, u) == true && Becomes(a, b, r.s, u) == true
    ensures Says(r, b, layer + 1, Weights) == true
  {
    var next := layer + 1;
    forall t: nat ensures Recent(r, b, next, t) == true { NextWeight(r, a, b, layer, u, t); }
  }

  /** One update. */
  lemma StandsOn(r: Reuse, a: A.Adapt, b: A.Adapt, layer: nat, u: A.Layer)
    requires Selects(r, layer) && layer < |r.ws| && Stands(r, a, layer) == true
    requires Measured(a, r.m, r.ws[layer], layer, u) == true && Becomes(a, b, r.s, u) == true
    ensures Stands(r, b, layer + 1) == true
  {
    NextSeat(r, a, b, layer, u);
    NextCandidates(r, a, b, layer, u);
    var next := layer + 1;
    forall k: Part ensures Says(r, b, next, k) == true {
      match k
      case Seat =>
      case Candidates =>
      case Selection => ChosenIs(r, b, next);
      case Weights => NextWeights(r, a, b, layer, u);
    }
  }

  // ---- the whole loop ------------------------------------------------------------------------

  /** Nothing stopped the layers before this one. */
  ghost predicate Passed(r: Reuse, layer: nat)
    requires Fits(r) && layer <= |r.ws|
  {
    forall l: nat :: l < layer ==> StopAt(r.m, r.s, true, r.ws, l).None?
  }

  /** These are the tokens that the layer computes, ascending. */
  ghost predicate Rows(r: Reuse, tokens: seq<nat>, layer: nat)
    requires Fits(r) && layer <= |r.ws|
  {
    Ascending(tokens) && forall t :: t in tokens <==> Computes(r, layer, t)
  }

  /** The loop's state before a layer: the tokens of the layer before, and after the calibration
      the adaptation state. */
  ghost predicate InStep(r: Reuse, wca: Option<A.Adapt>, previous: seq<nat>, layer: nat)
    requires Fits(r) && layer <= |r.ws|
  {
    if layer <= r.s.calibration then wca.None? && previous == Everything(r.m.tokens)
    else wca.Some? && Stands(r, wca.value, layer) == true && Rows(r, previous, layer - 1) == true
  }

  /** The budget is that of the state which calibration hands on. */
  ghost predicate Budgeted(r: Reuse)
    requires Fits(r)
  {
    r.s.calibration < |r.ws| ==>
      var started := StartedAt(r.m, r.s, r.ws[r.s.calibration], r.s.calibration + 1);
      started.Some? && Stands(r, started.value, r.s.calibration + 1) == true
  }

  lemma Budgets(m: Prompt, s: Settings, ws: seq<Weather>) returns (r: Reuse)
    requires Partitioned(m) && AllSized(ws, m.tokens) && s.wca.interval > 0 && 0.0 <= s.fraction
    ensures r.m == m && r.s == s && r.ws == ws && Fits(r) && Budgeted(r) == true
    ensures s.calibration < |ws| ==>
            AR.BudgetIs(r.budget, s.fraction, A.Elements(m.fixed), ws[s.calibration].deviation)
  {
    if s.calibration < |ws| {
      var a;
      r, a := Starts(m, s, ws);
      StandsFirst(r, a);
    } else {
      r := Reuse(m, s, ws, 0);
    }
  }

  lemma DenseStep(r: Reuse, layer: nat)
    requires Fits(r) && Budgeted(r) == true && layer < |r.ws| && layer <= r.s.calibration
    ensures var next := NextState(r.m, r.s, true, None, layer, r.ws[layer]);
            if layer < r.s.calibration then next.None? else next.Some? && Stands(r, next.value, layer + 1) == true
  {
    assert Sized(r.ws[layer], r.m.tokens);
  }

  /** A layer after the calibration that nothing stops updates the state it was entered with. */
  lemma SparseUpdate(r: Reuse, a: A.Adapt, layer: nat, w: Weather) returns (u: A.Layer, b: A.Adapt)
    requires r.s.wca.interval > 0 && 0.0 <= r.s.fraction && Adapting(a, r.m, layer) && Sized(w, r.m.tokens)
    requires Readable(w.cache, r.m) && w.failure.None?
    ensures Measured(a, r.m, w, layer, u) == true && Becomes(a, b, r.s, u) == true
    ensures NextState(r.m, r.s, true, Some(a), layer, w) == Some(b)
  {
    OnlyNumeric(r.m, a, layer, w, w.cache.value.0, w.cache.value.1);
    u := Given(r.m, layer, A.Active(a), w, w.cache.value.0, w.cache.value.1);
    NextIsAdvanced(r.m, r.s, a, layer, w, u);
    b := A.Advanced(r.s.wca, a, u);
  }

  lemma SparseStep(r: Reuse, a: A.Adapt, layer: nat)
    requires Selects(r, layer) && layer < |r.ws| && Stands(r, a, layer) == true && Sized(r.ws[layer], r.m.tokens)
    requires Readable(r.ws[layer].cache, r.m) && r.ws[layer].failure.None?
    ensures var next := NextState(r.m, r.s, true, Some(a), layer, r.ws[layer]);
            next.Some? && Stands(r, next.value, layer + 1) == true
  {
    Take(r, a, layer, Seat);
    var u, b := SparseUpdate(r, a, layer, r.ws[layer]);
    StandsOn(r, a, b, layer, u);
  }

  lemma DenseRows(r: Reuse, layer: nat)
    requires Fits(r) && layer <= |r.ws| && layer <= r.s.calibration
    ensures Rows(r, Everything(r.m.tokens), layer) == true
  {
    AllTokens(r.m.tokens);
  }

  lemma SparseRows(r: Reuse, a: A.Adapt, layer: nat)
    requires Selects(r, layer) && Stands(r, a, layer) == true
    ensures Rows(r, A.Active(a), layer) == true
  {
    forall t ensures t in A.Active(a) <==> Computes(r, layer, t) { ComputesActive(r, a, layer, t); }
  }

  /** The tokens of a layer. */
  lemma ComputesRows(r: Reuse, wca: Option<A.Adapt>, previous: seq<nat>, layer: nat)
    requires Fits(r) && layer <= |r.ws| && InStep(r, wca, previous, layer)
    ensures Rows(r, Computing(wca, previous), layer) == true
  {
    if layer <= r.s.calibration { DenseRows(r, layer); } else { SparseRows(r, wca.value, layer); }
  }

  /** A layer that is not stopped. */
  lemma StepsOn(r: Reuse, wca: Option<A.Adapt>, previous: seq<nat>, layer: nat, w: Weather)
    requires Fits(r) && Budgeted(r) == true && layer < |r.ws| && w == r.ws[layer] && Sized(w, r.m.tokens)
    requires InStep(r, wca, previous, layer) && AttendStop(r.m, r.s, true, wca, layer, w).None?
    ensures InStep(r, NextState(r.m, r.s, true, wca, layer, w), Computing(wca, previous), layer + 1) == true
  {
    ComputesRows(r, wca, previous, layer);
    if layer <= r.s.calibration {
      DenseStep(r, layer);
    } else {
      SparseStep(r, wca.value, layer);
    }
  }

  lemma Attended(r: Reuse, layer: nat)
    requires Fits(r) && layer < |r.ws| && StopAt(r.m, r.s, true, r.ws, layer).None?
    ensures AttendStop(r.m, r.s, true, StateAt(r.m, r.s, true, r.ws, layer).0, layer, r.ws[layer]).None?
  {}

  lemma StateStep(r: Reuse, layer: nat, wca: Option<A.Adapt>, previous: seq<nat>)
    requires Fits(r) && layer < |r.ws| && StateAt(r.m, r.s, true, r.ws, layer) == (wca, previous)
    ensures Sized(r.ws[layer], r.m.tokens)
    ensures StateAt(r.m, r.s, true, r.ws, layer + 1)
            == (NextState(r.m, r.s, true, wca, layer, r.ws[layer]), Computing(wca, previous))
  {}

  /** This is the loop's state before the layer, and what the measurements determine. */
  ghost predicate Reaches(r: Reuse, layer: nat, wca: Option<A.Adapt>, previous: seq<nat>)
    requires Fits(r) && layer <= |r.ws|
  {
    StateAt(r.m, r.s, true, r.ws, layer) == (wca, previous) && InStep(r, wca, previous, layer) == true
  }

  lemma ReachesFirst(r: Reuse)
    requires Fits(r)
    ensures Reaches(r, 0, None, Everything(r.m.tokens)) == true
  {}

  lemma NextInStep(r: Reuse, layer: nat, wca: Option<A.Adapt>, previous: seq<nat>)
    returns (next: Option<A.Adapt>, tokens: seq<nat>)
    requires Fits(r) && Budgeted(r) == true && layer < |r.ws| && StopAt(r.m, r.s, true, r.ws, layer).None?
    requires Reaches(r, layer, wca, previous)
    ensures Reaches(r, layer + 1, next, tokens) == true
  {
    Attended(r, layer);
    StateStep(r, layer, wca, previous);
    StepsOn(r, wca, previous, layer, r.ws[layer]);
    next, tokens := NextState(r.m, r.s, true, wca, layer, r.ws[layer]), Computing(wca, previous);
  }

  /** Before every layer that is reached the state is what the measurements determine. */
  lemma StaysInStep(r: Reuse, layer: nat) returns (wca: Option<A.Adapt>, previous: seq<nat>)
    requires Fits(r) && Budgeted(r) == true && layer <= |r.ws| && Passed(r, layer) == true
    ensures Reaches(r, layer, wca, previous) == true
  {
    ReachesFirst(r);
    wca, previous := None, Everything(r.m.tokens);
    for l := 0 to layer
      invariant Reaches(r, l, wca, previous) == true
    {
      PassedOne(r, layer, l);
      wca, previous := NextInStep(r, l, wca, previous);
    }
  }

  lemma PassedOne(r: Reuse, layer: nat, l: nat)
    requires Fits(r) && l < layer <= |r.ws| && Passed(r, layer)
    ensures StopAt(r.m, r.s, true, r.ws, l).None?
  {}

  // ---- what a run with reuse does ------------------------------------------------------------

  /** The weight that a recomputed row of a chosen token is mixed with. */
  ghost function Weight(r: Reuse, layer: nat, t: nat): real
    requires Selects(r, layer) && layer < |r.ws| && t < r.m.tokens
  {
    assert Sized(r.ws[layer], r.m.tokens);
    if r.s.wca.previousLayer then Latest(r, layer, t) else r.ws[layer].alpha[t]
  }

  /** The K (or V) row read for a token after the calibration: a mandatory token's is the
      recomputed one, any other is the cached row of its place among the fixed tokens, mixed
      with the recomputed one if the token is chosen. */
  ghost predicate RowRead(r: Reuse, layer: nat, t: nat, x: real, cached: seq<real>, recomputed: real)
    requires Selects(r, layer) && layer < |r.ws| && t < r.m.tokens
  {
    RowIs(t in r.m.mandatory, t in Chosen(r, layer), Weight(r, layer, t), t, x, r.m.fixed, cached, recomputed) == true
  }

  ghost predicate RowIs(mandatory: bool, chosen: bool, weight: real, t: nat, x: real, fixed: seq<nat>,
                        cached: seq<real>, recomputed: real) {
    if mandatory then x == recomputed
    else exists p ::
          && 0 <= p < |fixed| && p < |cached| && fixed[p] == t
          && x == if chosen then weight * recomputed + (1.0 - weight) * cached[p] else cached[p]
  }

  lemma ReadIs(active: seq<nat>, mandatory: set<nat>, t: nat, x: real, fixed: seq<nat>, cached: seq<real>,
               recomputed: real, weight: real)
    requires Reads(x, t, active, mandatory, fixed, cached, recomputed, weight) && (t in mandatory ==> t in active)
    ensures RowIs(t in mandatory, t in active, weight, t, x, fixed, cached, recomputed) == true
  {}

  ghost predicate TensorRead(r: Reuse, layer: nat, full: seq<real>, cached: seq<real>, recomputed: seq<real>)
    requires Selects(r, layer) && layer < |r.ws|
  {
    && |full| == |recomputed| == r.m.tokens
    && forall t: nat :: t < r.m.tokens ==> RowRead(r, layer, t, full[t], cached, recomputed[t])
  }

  /** What attention reads at a layer: up to the calibration what was computed. */
  ghost predicate AttentionReads(r: Reuse, layer: nat, fullK: seq<real>, fullV: seq<real>)
    requires Fits(r) && layer < |r.ws|
  {
    var w := r.ws[layer];
    if layer <= r.s.calibration then fullK == w.k && fullV == w.v
    else
      && w.cache.Some? && TensorRead(r, layer, fullK, w.cache.value.0, w.k) == true
      && TensorRead(r, layer, fullV, w.cache.value.1, w.v) == true
  }

  lemma UsedAt(r: Reuse, a: A.Adapt, layer: nat, t: nat)
    requires Selects(r, layer) && layer < |r.ws| && Stands(r, a, layer) && t < r.m.tokens
    requires t !in r.m.mandatory && Sized(r.ws[layer], r.m.tokens)
    ensures A.WeightOf(r.s.wca, a, t, r.ws[layer].alpha[t]) == Weight(r, layer, t)
    ensures t in A.Active(a) <==> t in Chosen(r, layer)
  {
    Take(r, a, layer, Seat);
    Take(r, a, layer, Weights);
    assert Recent(r, a, layer, t);
    ComputesActive(r, a, layer, t);
  }

  lemma RowReads(r: Reuse, a: A.Adapt, layer: nat, t: nat, x: real, cached: seq<real>, recomputed: real)
    requires Selects(r, layer) && layer < |r.ws| && Stands(r, a, layer) == true && t < r.m.tokens
    requires Sized(r.ws[layer], r.m.tokens)
    requires Reads(x, t, A.Active(a), a.mandatory, r.m.fixed, cached, recomputed,
                   A.WeightOf(r.s.wca, a, t, r.ws[layer].alpha[t])) == true
    ensures RowRead(r, layer, t, x, cached, recomputed) == true
  {
    MandatoryAt(r, a, layer, t);
    var weight := A.WeightOf(r.s.wca, a, t, r.ws[layer].alpha[t]);
    ReadIs(A.Active(a), a.mandatory, t, x, r.m.fixed, cached, recomputed, weight);
    if t in r.m.mandatory {
      Indifferent(t in A.Active(a), t in Chosen(r, layer), weight, Weight(r, layer, t), t, x, r.m.fixed, cached,
                  recomputed);
    } else {
      UsedAt(r, a, layer, t);
    }
  }

  lemma MandatoryAt(r: Reuse, a: A.Adapt, layer: nat, t: nat)
    requires Selects(r, layer) && layer < |r.ws| && Stands(r, a, layer)
    ensures t in a.mandatory <==> t in r.m.mandatory
    ensures t in a.mandatory ==> t in A.Active(a)
  {
    Take(r, a, layer, Seat);
  }

  /** A mandatory row depends on neither the choice nor the weight. */
  lemma Indifferent(chosen: bool, other: bool, weight: real, another: real, t: nat, x: real, fixed: seq<nat>,
                    cached: seq<real>, recomputed: real)
    requires RowIs(true, chosen, weight, t, x, fixed, cached, recomputed)
    ensures RowIs(true, other, another, t, x, fixed, cached, recomputed) == true
  {}

  lemma TensorReadsAs(r: Reuse, a: A.Adapt, layer: nat, full: seq<real>, cached: seq<real>, recomputed: seq<real>)
    requires Selects(r, layer) && layer < |r.ws| && Stands(r, a, layer) == true && Sized(r.ws[layer], r.m.tokens)
    requires |recomputed| == r.m.tokens
    requires AllRead(full, A.Active(a), a, r.s.wca, r.m.fixed, cached, recomputed, r.ws[layer].alpha)
    ensures TensorRead(r, layer, full, cached, recomputed) == true
  {
    forall t: nat | t < r.m.tokens ensures RowRead(r, layer, t, full[t], cached, recomputed[t]) == true {
      RowReads(r, a, layer, t, full[t], cached, recomputed[t]);
    }
  }

  lemma VisitReads(r: Reuse, layer: nat, now: Visit, previous: seq<nat>, w: Weather)
    requires Fits(r) && layer < |r.ws| && w == r.ws[layer] && Sized(w, r.m.tokens)
    requires InStep(r, now.wca, previous, layer) && Visited(now, r.m, r.s, w)
    ensures AttentionReads(r, layer, now.fullK, now.fullV) == true
  {
    if layer > r.s.calibration {
      TensorReadsAs(r, now.wca.value, layer, now.fullK, w.cache.value.0, w.k);
      TensorReadsAs(r, now.wca.value, layer, now.fullV, w.cache.value.1, w.v);
    }
  }

  /** A layer of a prefill with reuse computes and reads what the measurements determine. */
  ghost predicate LayerDone(r: Reuse, layer: nat, now: Visit)
    requires Fits(r) && layer < |r.ws|
  {
    Rows(r, now.active, layer) == true && AttentionReads(r, layer, now.fullK, now.fullV) == true
  }

  lemma LayerIsDone(r: Reuse, trace: seq<Visit>, layer: nat)
    requires Fits(r) && Budgeted(r) == true && layer < |trace| <= |r.ws| && Passed(r, layer) == true
    requires FollowsAt(trace[layer], r.m, r.s, true, r.ws, layer) == true
    requires Visited(trace[layer], r.m, r.s, r.ws[layer]) == true
    ensures LayerDone(r, layer, trace[layer]) == true
  {
    var wca, previous := StaysInStep(r, layer);
    StateStep(r, layer, wca, previous);
    ComputesRows(r, wca, previous, layer);
    VisitReads(r, layer, trace[layer], previous, r.ws[layer]);
  }

  lemma PassedAlong(r: Reuse, trace: seq<Visit>)
    requires Fits(r) && |trace| <= |r.ws| && Follows(trace, r.m, r.s, true, r.ws)
    ensures Passed(r, |trace|)
  {
    forall l: nat | l < |trace| ensures StopAt(r.m, r.s, true, r.ws, l).None? {
      assert FollowsAt(trace[l], r.m, r.s, true, r.ws, l);
    }
  }

  /** Some token is computed that the layer before did not compute. */
  ghost predicate Restores(r: Reuse, layer: nat)
    requires Fits(r) && layer <= |r.ws|
  {
    r.s.calibration < layer && exists t :: Computes(r, layer, t) && !Computes(r, layer - 1, t)
  }

  ghost predicate PairOf<T>(page: Option<(seq<T>, seq<T>)>, n: nat) {
    page.Some? && |page.value.0| == |page.value.1| == n
  }

  /** Why a prefill with reuse stops at a layer: the snapshot is read if a token newly joins, the
      cache page always and the next one's load asked for; the numbers of the calibration or the
      update must be finite, and the pages of a population stored. */
  ghost function Ends(r: Reuse, layer: nat): Option<Stop>
    requires Fits(r) && layer < |r.ws|
  {
    var w := r.ws[layer];
    if Restores(r, layer) && !PairOf(w.snapshot, |r.m.fixed|) then Some(Unread)
    else if r.m.populates && !w.statePut then Some(Unwritten)
    else if !PairOf(w.cache, |r.m.fixed|) then Some(Unread)
    else if layer + 1 < r.s.layers && !w.ahead then Some(Unsubmitted)
    else if layer == r.s.calibration && !w.calibrates then Some(Numeric)
    else if layer > r.s.calibration && w.failure.Some? then Some(Numeric)
    else if r.m.populates && !w.kvPut then Some(Unwritten)
    else if !w.finite then Some(Nonfinite)
    else None
  }

  lemma RestoresExactly(r: Reuse, wca: Option<A.Adapt>, previous: seq<nat>, layer: nat)
    requires Fits(r) && layer <= |r.ws| && InStep(r, wca, previous, layer)
    ensures wca.Some? <==> r.s.calibration < layer
    ensures wca.Some? ==> (Joined(A.Active(wca.value), previous) <==> Restores(r, layer))
  {
    if layer > r.s.calibration {
      var active := A.Active(wca.value);
      ComputesRows(r, wca, previous, layer);
      assert Rows(r, active, layer) && Rows(r, previous, layer - 1);
      if Joined(active, previous) {
        var j :| 0 <= j < |active| && active[j] !in previous;
        assert active[j] in active;
        assert Computes(r, layer, active[j]) && !Computes(r, layer - 1, active[j]);
      }
      if Restores(r, layer) {
        var t :| Computes(r, layer, t) && !Computes(r, layer - 1, t);
        assert t in active && t !in previous;
      }
    }
  }

  lemma EndsExactly(r: Reuse, layer: nat)
    requires Fits(r) && Budgeted(r) == true && layer < |r.ws| && Passed(r, layer) == true
    ensures StopAt(r.m, r.s, true, r.ws, layer) == Ends(r, layer)
  {
    var wca, previous := StaysInStep(r, layer);
    RestoresExactly(r, wca, previous, layer);
    StopIs(r, layer, wca, previous, r.ws[layer]);
  }

  lemma StopIs(r: Reuse, layer: nat, wca: Option<A.Adapt>, previous: seq<nat>, w: Weather)
    requires Fits(r) && layer < |r.ws| && w == r.ws[layer]
    requires StateAt(r.m, r.s, true, r.ws, layer) == (wca, previous) && (wca.Some? <==> r.s.calibration < layer)
    requires wca.Some? ==> (Joined(A.Active(wca.value), previous) <==> Restores(r, layer))
    ensures StopAt(r.m, r.s, true, r.ws, layer) == Ends(r, layer)
  {}

  /** Every layer of a prefill that reuses, up to where it stops: the tokens computed are the
      mandatory ones and those of the fixed ones that differed at the calibration, were not taken
      out by a gate since and have fewer than the budget ahead of them; each K/V row read is the
      recomputed one, the cached one, or the mixture by the weight that the configuration names.
      The layer after that, if there is one, ends the prefill or not as told. */
  lemma LayersAreDone(trace: seq<Visit>, m: Prompt, s: Settings, ws: seq<Weather>) returns (r: Reuse)
    requires Partitioned(m) && AllSized(ws, m.tokens) && s.wca.interval > 0 && 0.0 <= s.fraction
    requires Follows(trace, m, s, true, ws) && AllVisited(trace, m, s, ws)
    ensures r.m == m && r.s == s && r.ws == ws && Fits(r)
    ensures s.calibration < |ws| ==>
              AR.BudgetIs(r.budget, s.fraction, A.Elements(m.fixed), ws[s.calibration].deviation)
    ensures forall l :: 0 <= l < |trace| ==> LayerDone(r, l, trace[l]) && Ends(r, l).None?
    ensures |trace| < |ws| ==> StopAt(m, s, true, ws, |trace|) == Ends(r, |trace|)
  {
    r := Budgets(m, s, ws);
    PassedAlong(r, trace);
    forall l | 0 <= l < |trace| ensures LayerDone(r, l, trace[l]) == true && Ends(r, l).None? {
      assert FollowsAt(trace[l], m, s, true, ws, l) == true && Visited(trace[l], m, s, ws[l]) == true;
      assert Passed(r, l);
      LayerIsDone(r, trace, l);
      EndsExactly(r, l);
    }
    if |trace| < |ws| { EndsExactly(r, |trace|); }
  }

  // ---- without reuse -------------------------------------------------------------------------

  lemma {:induction false} DenseState(m: Prompt, s: Settings, ws: seq<Weather>, layer: nat)
    requires AllSized(ws, m.tokens) && s.wca.interval > 0 && 0.0 <= s.fraction && layer <= |ws|
    ensures StateAt(m, s, false, ws, layer) == (None, Everything(m.tokens))
  {
    if layer > 0 { DenseState(m, s, ws, layer - 1); }
  }

  /** Without reuse every layer computes all tokens and reads what it computed. */
  lemma DenseLayers(trace: seq<Visit>, m: Prompt, s: Settings, ws: seq<Weather>, l: nat)
    requires AllSized(ws, m.tokens) && s.wca.interval > 0 && 0.0 <= s.fraction && l < |trace|
    requires Follows(trace, m, s, false, ws) && AllVisited(trace, m, s, ws)
    ensures |trace[l].active| == m.tokens && forall i :: 0 <= i < m.tokens ==> trace[l].active[i] == i
    ensures trace[l].fullK == ws[l].k && trace[l].fullV == ws[l].v
  {
    DenseVisit(trace, m, s, ws, l);
  }

  /** Why it stops. */
  lemma DenseEnds(m: Prompt, s: Settings, ws: seq<Weather>, layer: nat)
    requires AllSized(ws, m.tokens) && s.wca.interval > 0 && 0.0 <= s.fraction && layer < |ws|
    ensures StopAt(m, s, false, ws, layer) == if m.populates && !(ws[layer].statePut && ws[layer].kvPut)
                                              then Some(Unwritten)
                                              else if !ws[layer].finite then Some(Nonfinite) else None
  {
    DenseState(m, s, ws, layer);
  }

  /** What a population stores of a layer: for every fixed token the row that enters the layer,
      which is the output of the layer before, and the K/V row that the layer computes. */
  lemma PopulationPages(trace: seq<Visit>, m: Prompt, s: Settings, ws: seq<Weather>, l: nat)
    requires Partitioned(m) && AllSized(ws, m.tokens) && s.wca.interval > 0 && 0.0 <= s.fraction && l < |trace|
    requires m.populates && Follows(trace, m, s, false, ws) && AllVisited(trace, m, s, ws)
    requires AllEntered(trace, m, ws) && trace[0].residual == []
    ensures |PagesOf(trace, m)| == 2 * |trace|
    ensures StatePageIs(PagesOf(trace, m)[2 * l], l, m, trace, ws)
    ensures KVPageIs(PagesOf(trace, m)[2 * l + 1], l, m, ws)
  {
    PairAt(trace, m, l);
    DenseVisit(trace, m, s, ws, l);
    if l > 0 { DenseVisit(trace, m, s, ws, l - 1); }
    StatePage(trace, m, ws, l);
    KVPage(trace[l], m, ws, l);
  }

  lemma PairAt(trace: seq<Visit>, m: Prompt, l: nat)
    requires m.populates && l < |trace|
    ensures |PagesOf(trace, m)| == 2 * |trace|
    ensures PagesOf(trace, m)[2 * l] == LayerPages(trace[l], l, m)[0]
    ensures PagesOf(trace, m)[2 * l + 1] == LayerPages(trace[l], l, m)[1]
  {
    PagesInOrder(trace, m, 2 * l);
    PagesInOrder(trace, m, 2 * l + 1);
  }

  lemma DenseVisit(trace: seq<Visit>, m: Prompt, s: Settings, ws: seq<Weather>, l: nat)
    requires AllSized(ws, m.tokens) && s.wca.interval > 0 && 0.0 <= s.fraction && l < |trace|
    requires Follows(trace, m, s, false, ws) == true && AllVisited(trace, m, s, ws)
    ensures trace[l].active == Everything(m.tokens) && |trace[l].hidden| == m.tokens
    ensures trace[l].fullK == ws[l].k && trace[l].fullV == ws[l].v
  {
    assert Visited(trace[l], m, s, ws[l]) == true;
    DenseFollows(trace, m, s, ws, l);
  }

  lemma DenseFollows(trace: seq<Visit>, m: Prompt, s: Settings, ws: seq<Weather>, l: nat)
    requires AllSized(ws, m.tokens) && s.wca.interval > 0 && 0.0 <= s.fraction && l < |trace|
    requires Follows(trace, m, s, false, ws)
    ensures trace[l].active == Everything(m.tokens) && trace[l].wca.None?
  {
    assert FollowsAt(trace[l], m, s, false, ws, l) == true;
    DenseState(m, s, ws, l);
    DenseState(m, s, ws, l + 1);
  }

  ghost predicate StatePageIs(page: Page, l: nat, m: Prompt, trace: seq<Visit>, ws: seq<Weather>)
    requires AllSized(ws, m.tokens) && l < |trace| <= |ws|
  {
    && page.StateOf? && page.layer == l && |page.hidden| == |m.fixed| && (l == 0 ==> page.residual == [])
    && forall p :: 0 <= p < |m.fixed| ==>
         && m.fixed[p] < m.tokens
         && (l == 0 ==> m.fixed[p] < |trace[0].hidden| && page.hidden[p] == trace[0].hidden[m.fixed[p]])
         && (l > 0 ==>
               && Sized(ws[l - 1], m.tokens) && page.hidden[p] == ws[l - 1].hidden[m.fixed[p]]
               && p < |page.residual| && page.residual[p] == ws[l - 1].residual[m.fixed[p]])
  }

  ghost predicate KVPageIs(page: Page, l: nat, m: Prompt, ws: seq<Weather>)
    requires AllSized(ws, m.tokens) && l < |ws|
  {
    && page.KVOf? && page.layer == l && |page.k| == |page.v| == |m.fixed| && Sized(ws[l], m.tokens)
    && forall p :: 0 <= p < |m.fixed| ==>
         && m.fixed[p] < m.tokens && page.k[p] == ws[l].k[m.fixed[p]] && page.v[p] == ws[l].v[m.fixed[p]]
  }

  lemma EnteredWhole(now: Visit, w: Weather, before: Weather, m: Prompt)
    requires Sized(before, m.tokens) && now.active == Everything(m.tokens)
    requires Entered(now, w, Everything(m.tokens), before, m)
    ensures now.hidden == before.hidden && now.residual == before.residual
  {
    AllTokens(m.tokens);
    forall j | 0 <= j < m.tokens ensures now.active[j] in now.active {}
  }

  lemma StatePage(trace: seq<Visit>, m: Prompt, ws: seq<Weather>, l: nat)
    requires Partitioned(m) && AllSized(ws, m.tokens) && l < |trace| <= |ws|
    requires trace[l].active == Everything(m.tokens) && (l == 0 ==> |trace[0].hidden| == m.tokens)
    requires (l > 0 ==> trace[l - 1].active == Everything(m.tokens)) && AllEntered(trace, m, ws)
    requires trace[0].residual == []
    ensures StatePageIs(LayerPages(trace[l], l, m)[0], l, m, trace, ws) == true
  {
    assert l > 0 ==> Entered(trace[l], ws[l], trace[l - 1].active, ws[l - 1], m);
    if l > 0 {
      EnteredWhole(trace[l], ws[l], ws[l - 1], m);
    } else {
      NoRows<Vector>(m.fixed);
    }
    forall p | 0 <= p < |m.fixed| ensures m.fixed[p] in m.fixed {}
  }

  /** Where there is no tensor, no row of it. */
  lemma NoRows<T>(fixed: seq<nat>)
    ensures RowsAt<T>([], fixed) == []
  {
    if fixed != [] { assert fixed[0] in fixed; }
  }

  lemma KVPage(now: Visit, m: Prompt, ws: seq<Weather>, l: nat)
    requires Partitioned(m) && AllSized(ws, m.tokens) && l < |ws| && now.fullK == ws[l].k && now.fullV == ws[l].v
    ensures KVPageIs(LayerPages(now, l, m)[1], l, m, ws) == true
  {
    assert Sized(ws[l], m.tokens);
    forall p | 0 <= p < |m.fixed| ensures m.fixed[p] in m.fixed {}
  }
}
