/** `WCAState` with its boolean masks, written in place by the tokens promoted or
    taken out. */
module AdaptationCalls {
  import opened Basics
  import opened Adaptation
  import opened AdaptationTheorems
  import opened AdaptationRuns

  function On(mask: seq<bool>): set<nat> {
    set i: nat | i < |mask| && mask[i]
  }

  lemma Enumerates(s: seq<nat>, of: set<nat>)
    requires Ascending(s) && Elements(s) == of
    ensures s == Sorted(of)
  {
    OneEnumeration(s, Sorted(of));
  }

  /** `mask.nonzero().flatten()` */
  method Nonzero(mask: seq<bool>) returns (r: seq<nat>)
    ensures r == Sorted(On(mask))
  {
    r := [];
    for i := 0 to |mask|
      invariant Ascending(r)
      invariant forall x: nat :: x in r <==> x < i && mask[x]
    {
      if mask[i] {
        assert forall k :: 0 <= k < |r| ==> r[k] in r;
        r := r + [i];
      }
    }
    Enumerates(r, On(mask));
  }

  /** `mask[indices] = value` */
  method Assign(mask: array<bool>, indices: seq<nat>, value: bool)
    requires forall i :: i in indices ==> i < mask.Length
    modifies mask
    ensures On(mask[..]) == if value then On(old(mask[..])) + Elements(indices)
            else On(old(mask[..])) - Elements(indices)
  {
    for k := 0 to |indices|
      invariant forall x: nat :: x < mask.Length ==> mask[x] == if x in indices[..k] then value else old(mask[x])
    {
      assert indices[k] in indices;
      mask[indices[k]] := value;
      assert indices[..k + 1] == indices[..k] + [indices[k]];
    }
    assert indices[..|indices|] == indices;
  }

  /** `weights[indices] = values` */
  method AssignWeights(weights: array<real>, indices: seq<nat>, values: seq<real>)
    requires |indices| == |values| && forall i :: i in indices ==> i < weights.Length
    modifies weights
    ensures weights[..] == Put(old(weights[..]), indices, values)
  {
    for k := 0 to |indices|
      invariant Put(weights[..], indices[k..], values[k..]) == Put(old(weights[..]), indices, values)
    {
      assert indices[k] in indices;
      assert indices[k..][1..] == indices[k + 1..] && values[k..][1..] == values[k + 1..];
      ghost var s := weights[..];
      weights[indices[k]] := values[k];
      assert weights[..] == s[indices[k] := values[k]];
    }
  }

  lemma LowerNext(c: Config, indices: seq<nat>, cosine: seq<real>, selected: set<nat>, j: nat)
    requires |indices| == |cosine| && j < |indices|
    ensures Lowered(c, indices[..j + 1], cosine[..j + 1], selected) == Lowered(c, indices[..j], cosine[..j], selected)
      + if indices[j] in selected && Metric(c, cosine[j]) < c.threshold then {indices[j]} else {}
  {
    var s, t := indices[..j + 1], cosine[..j + 1];
    var whole, part := Lowered(c, s, t, selected), Lowered(c, indices[..j], cosine[..j], selected);
    forall x | x in part ensures x in whole {
      var k :| 0 <= k < j && indices[..j][k] == x && x in selected && Metric(c, cosine[..j][k]) < c.threshold;
      assert s[k] == x && t[k] == cosine[..j][k];
    }
    forall x | x in whole && !(x == indices[j] && Metric(c, cosine[j]) < c.threshold) ensures x in part {
      var k :| 0 <= k < j + 1 && s[k] == x && x in selected && Metric(c, t[k]) < c.threshold;
      assert indices[..j][k] == x && cosine[..j][k] == t[k];
    }
    if indices[j] in selected && Metric(c, cosine[j]) < c.threshold { assert s[j] == indices[j] && t[j] == cosine[j]; }
  }

  lemma ChosenAre(a: Adapt, tokens: nat)
    requires forall i :: i in a.candidate ==> i < tokens
    ensures forall i :: i in Promoted(a) ==> i < tokens
  {
    var available := Sorted(Available(a));
    ArgsortRanks(a.deviation, available);
    forall i | i in Promoted(a) ensures i < tokens { assert i in Argsort(a.deviation, available); }
  }

  lemma NextActive(c: Config, a: Adapt, u: Layer)
    requires Computed(a, u) && c.interval > 0
    ensures Active(Advanced(c, a, u)) == Active(Adaptation.Promote(Gate(a, Gated(c, a, u))))
  {
    var g := Gate(a, Gated(c, a, u));
    assert Promoted(g.(alpha := Put(a.alpha, Active(a), u.alpha), last := u.index)) == Promoted(g);
  }

  lemma Covering(reused: seq<bool>, mandatory: seq<bool>)
    requires |reused| == |mandatory|
    ensures Below(|reused|) - On(reused) <= On(mandatory) <==>
            !exists i :: 0 <= i < |reused| && !reused[i] && !mandatory[i]
  {
    if i: nat :| i < |reused| && !reused[i] && !mandatory[i] {
      assert i in Below(|reused|) - On(reused) && i !in On(mandatory);
    }
  }

  class WCAState {
    const tokens: nat
    const deviation: seq<real>
    const budget: nat
    const reusedMask: array<bool>
    const mandatoryMask: array<bool>
    const candidateMask: array<bool>
    const selectedMask: array<bool>
    const removedMask: array<bool>
    const alpha: array<real>
    var lastLayer: nat

    /** The masks cover the prompt and are the state's own. */
    predicate Valid() {
      && reusedMask.Length == mandatoryMask.Length == candidateMask.Length == selectedMask.Length == removedMask.Length
            == tokens
      && alpha.Length == tokens
      && reusedMask != candidateMask && reusedMask != selectedMask && reusedMask != removedMask
      && mandatoryMask != candidateMask && mandatoryMask != selectedMask && mandatoryMask != removedMask
      && candidateMask != selectedMask && candidateMask != removedMask && selectedMask != removedMask
    }

    function State(): Adapt
      reads this`lastLayer, reusedMask, mandatoryMask, candidateMask, selectedMask, removedMask, alpha
    {
      Adapt(tokens, On(reusedMask[..]), On(mandatoryMask[..]), deviation, On(candidateMask[..]), On(selectedMask[..]),
            On(removedMask[..]), alpha[..], budget, lastLayer)
    }

    /** The masks are clones of the caller's. */
    constructor Cloned(reused: seq<bool>, mandatory: seq<bool>, candidate: seq<bool>, deviation: seq<real>,
                       alpha: seq<real>, budget: nat)
      requires |reused| == |mandatory| == |candidate| == |deviation| == |alpha|
      ensures Valid() && fresh(selectedMask) && fresh(candidateMask) && fresh(removedMask) && fresh(this.alpha)
      ensures State() == Adapt(|reused|, On(reused), On(mandatory), deviation, On(candidate), {}, {}, alpha, budget, 1)
    {
      var n := |reused|;
      tokens, this.deviation, this.budget, lastLayer := n, deviation, budget, 1;
      reusedMask := new bool[n](i requires 0 <= i < n => reused[i]);
      mandatoryMask := new bool[n](i requires 0 <= i < n => mandatory[i]);
      candidateMask := new bool[n](i requires 0 <= i < n => candidate[i]);
      selectedMask := new bool[n](_ => false);
      removedMask := new bool[n](_ => false);
      this.alpha := new real[n](i requires 0 <= i < n => alpha[i]);
      new;
      assert reusedMask[..] == reused && mandatoryMask[..] == mandatory && candidateMask[..] == candidate
          && this.alpha[..] == alpha;
    }

    /** `initialize`: deviations that are not finite, a token left out of both masks and
        weights that are not finite are errors, found in this order. */
    static method Initialize(reused: seq<bool>, mandatory: seq<bool>, deviation: Option<seq<real>>,
                             alpha: Option<seq<real>>, fraction: real)
      returns (r: Result<WCAState>)
      requires |reused| == |mandatory| && 0.0 <= fraction
      requires (deviation.Some? ==> |deviation.value| == |reused|) && (alpha.Some? ==> |alpha.value| == |reused|)
      ensures r.Ok? ==> fresh(r.value) && r.value.Valid()
      ensures r.Ok? ==> fresh(r.value.selectedMask) && fresh(r.value.candidateMask) && fresh(r.value.removedMask)
      ensures r.Ok? ==> fresh(r.value.alpha)
      ensures r.Ok? <==>
              deviation.Some? && alpha.Some?
              && Initial(|reused|, On(reused), On(mandatory), deviation.value, alpha.value, fraction).Some?
      ensures r.Ok? ==>
                Some(r.value.State())
                    == Initial(|reused|, On(reused), On(mandatory), deviation.value, alpha.value, fraction)
      ensures r.Err? ==> r.error == if deviation.Some? && !Covered(reused, mandatory) then Invalid else Overflow
    {
      if deviation.None? { return Err(Overflow); }
      Covering(reused, mandatory);
      if !Covered(reused, mandatory) { return Err(Invalid); }
      if alpha.None? { return Err(Overflow); }
      var state := Create(reused, mandatory, deviation.value, alpha.value, fraction);
      return Ok(state);
    }

    /** Every token is reused or mandatory. */
    static predicate Covered(reused: seq<bool>, mandatory: seq<bool>)
      requires |reused| == |mandatory|
    {
      forall i :: 0 <= i < |reused| ==> reused[i] || mandatory[i]
    }

    static method Create(reused: seq<bool>, mandatory: seq<bool>, deviation: seq<real>, alpha: seq<real>,
                         fraction: real)
      returns (state: WCAState)
      requires |reused| == |mandatory| == |deviation| == |alpha| && 0.0 <= fraction && Covered(reused, mandatory)
      ensures fresh(state) && state.Valid() && fresh(state.selectedMask) && fresh(state.candidateMask)
      ensures fresh(state.removedMask) && fresh(state.alpha)
      ensures Initial(|reused|, On(reused), On(mandatory), deviation, alpha, fraction).Some?
      ensures state.State() == Initial(|reused|, On(reused), On(mandatory), deviation, alpha, fraction).value
    {
      Covering(reused, mandatory);
      var candidate := seq(|reused|, i requires 0 <= i < |reused| => reused[i] && deviation[i] > 0.0);
      assert On(candidate) == Differing(deviation, On(reused));
      var budget := Budget(fraction, On(reused), On(candidate));
      state := new WCAState.Cloned(reused, mandatory, candidate, deviation, alpha, budget);
      var _ := state.Promote();
    }

    method ActiveIndices() returns (r: seq<nat>)
      requires Valid()
      ensures r == Active(State())
    {
      var both := seq(tokens, i requires 0 <= i < tokens reads selectedMask, mandatoryMask => selectedMask[i]
            || mandatoryMask[i]);
      r := Nonzero(both);
      assert On(both) == On(selectedMask[..]) + On(mandatoryMask[..]);
    }

    /** Candidates neither selected nor taken out, ascending. */
    method Free() returns (available: seq<nat>)
      requires Valid()
      ensures available == Sorted(Available(State()))
    {
      var free := seq(tokens, i requires 0 <= i < tokens reads candidateMask, selectedMask, removedMask =>
        candidateMask[i] && !selectedMask[i] && !removedMask[i]);
      available := Nonzero(free);
      assert On(free) == Available(State());
    }

    method Choose() returns (promoted: seq<nat>)
      requires Valid()
      ensures promoted == Promoted(State()) && forall i :: i in promoted ==> i < tokens
    {
      ghost var a := State();
      var available := Free();
      var chosen := Nonzero(selectedMask[..]);
      var slots := if |chosen| < budget then budget - |chosen| else 0;
      assert slots == Slots(a);
      promoted := First(Argsort(deviation, available), slots);
      ChosenAre(a, tokens);
    }

    method Promote() returns (promoted: seq<nat>)
      requires Valid()
      modifies selectedMask
      ensures promoted == Promoted(old(State())) && State() == Adaptation.Promote(old(State()))
    {
      promoted := Choose();
      Assign(selectedMask, promoted, true);
    }

    lemma ActiveInRange()
      requires Valid()
      ensures forall i :: i in Active(State()) ==> i < tokens
    {}

    /** The gate: selected rows whose metric is below the threshold. */
    method LowRows(c: Config, indices: seq<nat>, cosine: seq<real>) returns (removed: seq<nat>)
      requires Valid() && |cosine| == |indices| && forall i :: i in indices ==> i < tokens
      ensures Elements(removed) == Lowered(c, indices, cosine, On(selectedMask[..]))
      ensures forall i :: i in removed ==> i < tokens
    {
      removed := [];
      for j := 0 to |indices|
        invariant Elements(removed) == Lowered(c, indices[..j], cosine[..j], On(selectedMask[..]))
        invariant forall i :: i in removed ==> i < tokens
      {
        assert indices[j] in indices;
        LowerNext(c, indices, cosine, On(selectedMask[..]), j);
        if selectedMask[indices[j]] && Metric(c, cosine[j]) < c.threshold {
          ghost var before := removed;
          removed := removed + [indices[j]];
          assert Elements(removed) == Elements(before) + {indices[j]};
        }
      }
      assert indices[..|indices|] == indices && cosine[..|indices|] == cosine;
    }

    /** What the gate takes out leaves all three masks consistent. */
    method TakeOut(removed: seq<nat>)
      requires Valid() && forall i :: i in removed ==> i < tokens
      modifies candidateMask, selectedMask, removedMask
      ensures State() == Gate(old(State()), Elements(removed))
    {
      Assign(selectedMask, removed, false);
      Assign(candidateMask, removed, false);
      Assign(removedMask, removed, true);
    }

    /** The state after the new weights, the gate and the promotion. */
    method Commit(c: Config, u: Layer, indices: seq<nat>, removed: seq<nat>) returns (promoted: seq<nat>)
      requires Valid() && c.interval > 0 && Computed(State(), u) && indices == Active(State())
      requires Elements(removed) == Gated(c, State(), u) && forall i :: i in removed ==> i < tokens
      modifies this, candidateMask, selectedMask, removedMask, alpha
      ensures State() == Advanced(c, old(State()), u)
      ensures promoted == Promoted(Gate(old(State()), Gated(c, old(State()), u)))
    {
      ghost var a := State();
      Absorb(c, u, indices, removed);
      promoted := Promote();
      assert Promoted(Absorbed(c, a, u)) == Promoted(Gate(a, Gated(c, a, u)));
    }

    /** The new weights, the gate and the layer, before any promotion. */
    method Absorb(c: Config, u: Layer, indices: seq<nat>, removed: seq<nat>)
      requires Valid() && c.interval > 0 && Computed(State(), u) && indices == Active(State())
      requires Elements(removed) == Gated(c, State(), u) && forall i :: i in removed ==> i < tokens
      modifies this, candidateMask, selectedMask, removedMask, alpha
      ensures State() == Absorbed(c, old(State()), u)
    {
      ActiveInRange();
      AssignWeights(alpha, indices, u.alpha);
      TakeOut(removed);
      lastLayer := u.index;
    }

    /** The checks of `update`, which come before any change. */
    method Check(u: Layer, indices: seq<nat>) returns (r: Option<Fault>)
      requires Valid() && indices == Active(State())
      ensures r == Refusal(State(), u)
    {
      if u.index != lastLayer + 1 { return Some(Order); }
      if u.failure == Some(CachedK) { return Some(Numeric); }
      if |u.cachedV| != |u.cachedK| { return Some(Shape); }
      if u.failure == Some(CachedV) { return Some(Numeric); }
      if |u.cachedK| != tokens { return Some(Shape); }
      if u.computed.Some? && u.computed.value != indices { return Some(Indices); }
      if |u.recomputedK| != |indices| { return Some(Shape); }
      if u.failure == Some(FreshK) { return Some(Numeric); }
      if |u.recomputedV| != |indices| { return Some(Shape); }
      if u.failure.Some? { return Some(Numeric); }
      r := None;
    }

    /** One row's weight: of this layer or the previous one; a mandatory row is always fresh. */
    function RowWeight(c: Config, i: nat, now: real): (w: real)
      requires Valid() && i < tokens
      reads this`lastLayer, reusedMask, mandatoryMask, candidateMask, selectedMask, removedMask, alpha
      ensures w == WeightOf(c, State(), i, now)
    {
      if mandatoryMask[i] then 1.0 else if c.previousLayer then alpha[i] else now
    }

    static lemma UsedOne(c: Config, a: Adapt, u: Layer, used: seq<real>, weight: real)
      requires Computed(a, u) && |used| < |Active(a)| && used == Used(c, a, u)[..|used|]
      requires weight == WeightOf(c, a, Active(a)[|used|], u.alpha[|used|])
      ensures used + [weight] == Used(c, a, u)[..|used| + 1]
    {}

    method Weights(c: Config, u: Layer, indices: seq<nat>) returns (used: seq<real>)
      requires Valid() && Computed(State(), u) && indices == Active(State())
      ensures used == Used(c, State(), u)
    {
      ActiveInRange();
      ghost var a := State();
      used := [];
      for j := 0 to |indices|
        invariant used == Used(c, a, u)[..j]
      {
        assert indices[j] in indices;
        var weight := RowWeight(c, indices[j], u.alpha[j]);
        UsedOne(c, a, u, used, weight);
        used := used + [weight];
      }
    }

    method Fusion(c: Config, u: Layer, indices: seq<nat>)
      returns (used: seq<real>, fusedK: seq<real>, fusedV: seq<real>)
      requires Valid() && Computed(State(), u) && indices == Active(State())
      requires |u.recomputedK| == |u.recomputedV| == |indices|
      ensures used == Used(c, State(), u)
      ensures fusedK == Fused(State(), used, u.recomputedK, u.cachedK)
      ensures fusedV == Fused(State(), used, u.recomputedV, u.cachedV)
    {
      used := Weights(c, u, indices);
      fusedK, fusedV := Fused(State(), used, u.recomputedK, u.cachedK), Fused(State(), used, u.recomputedV, u.cachedV);
    }

    method Leaving(c: Config, u: Layer, indices: seq<nat>) returns (removed: seq<nat>)
      requires Valid() && c.interval > 0 && Computed(State(), u) && indices == Active(State())
      ensures Elements(removed) == Gated(c, State(), u) && forall i :: i in removed ==> i < tokens
    {
      ActiveInRange();
      removed := [];
      if u.index % c.interval == 0 { removed := LowRows(c, indices, u.cosine); }
    }

    /** What `update` does once every check has passed. */
    method Accept(c: Config, u: Layer, indices: seq<nat>) returns (r: Report)
      requires Valid() && c.interval > 0 && Computed(State(), u) && Refusal(State(), u).None?
      requires indices == Active(State())
      modifies this, candidateMask, selectedMask, removedMask, alpha
      ensures State() == Advanced(c, old(State()), u) && r == Reported(c, old(State()), u)
    {
      ghost var a := State();
      var used, fusedK, fusedV := Fusion(c, u, indices);
      var removed := Leaving(c, u, indices);
      var promoted := Commit(c, u, indices, removed);
      NextActive(c, a, u);
      var next := ActiveIndices();
      r := Report(indices, fusedK, fusedV, used, Elements(removed), promoted, next);
    }

    /** What an update that is accepted reports. */
    lemma Meaning(c: Config, u: Layer)
      requires Valid() && c.interval > 0 && Computed(State(), u)
      ensures Refusal(State(), u).None? <==> Acceptable(State(), u)
      ensures Refusal(State(), u).None? ==>
                && FusedFrom(c, State(), u, Reported(c, State(), u))
                && forall t :: t in Reported(c, State(), u).removed <==> LeavesAt(c, State(), u, t)
    {
      AcceptedExactly(State(), u);
      if Refusal(State(), u).None? {
        ActiveInRange();
        FusedExactly(c, State(), u);
        forall t ensures t in Gated(c, State(), u) <==> LeavesAt(c, State(), u, t) { GatedExactly(c, State(), u, t); }
      }
    }

    method Update(c: Config, u: Layer) returns (r: Result<Report>, fault: Option<Fault>)
      requires Valid() && c.interval > 0 && Computed(State(), u)
      modifies this, candidateMask, selectedMask, removedMask, alpha
      ensures fault == Refusal(old(State()), u)
      ensures State() == Step(c, old(State()), u)
      ensures r == if fault.None? then Ok(Reported(c, old(State()), u)) else Err(Invalid)
      ensures r.Ok? <==> old(Acceptable(State(), u))
      ensures r.Ok? ==> FusedFrom(c, old(State()), u, r.value)
      ensures r.Ok? ==> forall t :: t in r.value.removed <==> LeavesAt(c, old(State()), u, t)
    {
      Meaning(c, u);
      var indices := ActiveIndices();
      fault := Check(u, indices);
      if fault.Some? { return Err(Invalid), fault; }
      var report := Accept(c, u, indices);
      r := Ok(report);
    }
  }
}
