/** src/cacheslide_vllm/wca.py: which reused tokens are recomputed at each layer.
    Deviations, weights and removal metrics are arbitrary numbers here; a K or V
    row is represented by one of its entries, all of which share the row's weight. */
module Adaptation {
  import opened Basics

  datatype Config = Config(
    interval: nat,            // the gate runs at multiples of it
    threshold: real,
    lowCosine: bool,          // `paper_cosine_lt`, else `distance_lt`
    previousLayer: bool)      // weights of the previous layer, else of this one

  /** A request's adaptation state; masks as sets of token indices. */
  datatype Adapt = Adapt(
    tokens: nat,
    reused: set<nat>,
    mandatory: set<nat>,
    deviation: seq<real>,
    candidate: set<nat>,
    selected: set<nat>,
    removed: set<nat>,
    alpha: seq<real>,
    budget: nat,
    last: nat)

  // ---- ranking -------------------------------------------------------------------

  function Entry(s: seq<real>, i: nat): real {
    if i < |s| then s[i] else 0.0
  }

  /** Larger deviation first, then the smaller token index. */
  predicate Before(deviation: seq<real>, i: nat, j: nat) {
    Entry(deviation, i) > Entry(deviation, j) || (Entry(deviation, i) == Entry(deviation, j) && i < j)
  }

  function Insert(deviation: seq<real>, x: nat, s: seq<nat>): seq<nat> {
    if s == [] || Entry(deviation, x) >= Entry(deviation, s[0]) then [x] + s
    else [s[0]] + Insert(deviation, x, s[1..])
  }

  /** `argsort(descending, stable)`: an earlier element stays before its equals. */
  function Argsort(deviation: seq<real>, s: seq<nat>): seq<nat> {
    if s == [] then [] else Insert(deviation, s[0], Argsort(deviation, s[1..]))
  }

  function Elements(s: seq<nat>): set<nat> {
    set x | x in s
  }

  // ---- the state's operations -------------------------------------------------------

  function Active(a: Adapt): seq<nat> {
    Sorted(a.selected + a.mandatory)
  }

  function Available(a: Adapt): set<nat> {
    a.candidate - a.selected - a.removed
  }

  function Slots(a: Adapt): nat {
    if |a.selected| < a.budget then a.budget - |a.selected| else 0
  }

  function First(s: seq<nat>, k: nat): seq<nat> {
    if k < |s| then s[..k] else s
  }

  /** `_promote` */
  function Promoted(a: Adapt): seq<nat> {
    First(Argsort(a.deviation, Sorted(Available(a))), Slots(a))
  }

  function Promote(a: Adapt): Adapt {
    a.(selected := a.selected + Elements(Promoted(a)))
  }

  function Differing(deviation: seq<real>, reused: set<nat>): set<nat> {
    set i | i in reused && Entry(deviation, i) > 0.0
  }

  /** `ceil(fraction * reused)` and the number of candidates, whichever is less. */
  function Budget(fraction: real, reused: set<nat>, candidate: set<nat>): nat
    requires 0.0 <= fraction
  {
    var wanted := Ceiling(fraction * |reused| as real);
    if wanted < |candidate| then wanted else |candidate|
  }

  function Ceiling(x: real): (n: nat)
    requires 0.0 <= x
    ensures x <= n as real < x + 1.0
  {
    if x.Floor as real == x then x.Floor else x.Floor + 1
  }

  /** `initialize`: every token that is not reused must be mandatory. */
  function Initial(tokens: nat, reused: set<nat>, mandatory: set<nat>, deviation: seq<real>, alpha: seq<real>,
                   fraction: real): Option<Adapt>
    requires 0.0 <= fraction
  {
    if !(Below(tokens) - reused <= mandatory) then None
    else
      var candidate := Differing(deviation, reused);
      Some(Promote(Adapt(tokens, reused, mandatory, deviation, candidate, {}, {}, alpha,
                Budget(fraction, reused, candidate), 1)))
  }

  /** Where a check for finite numbers can fail. */
  datatype Stage = CachedK | CachedV | FreshK | FreshV | Weights | Fusion

  datatype Fault = Order | Shape | Indices | Numeric

  /** The arguments of `update`, with what the floating-point part makes of them:
      new weights and the mean cosines of the recomputed rows. */
  datatype Layer = Layer(
    index: nat,
    cachedK: seq<real>,
    cachedV: seq<real>,
    recomputedK: seq<real>,
    recomputedV: seq<real>,
    computed: Option<seq<nat>>,
    alpha: seq<real>,
    cosine: seq<real>,
    failure: Option<Stage>)

  datatype Report = Report(
    indices: seq<nat>,
    fusedK: seq<real>,
    fusedV: seq<real>,
    used: seq<real>,
    removed: set<nat>,
    promoted: seq<nat>,
    next: seq<nat>)

  function Refusal(a: Adapt, u: Layer): Option<Fault> {
    if u.index != a.last + 1 then Some(Order)
    else if u.failure == Some(CachedK) then Some(Numeric)
    else if |u.cachedV| != |u.cachedK| then Some(Shape)
    else if u.failure == Some(CachedV) then Some(Numeric)
    else if |u.cachedK| != a.tokens then Some(Shape)
    else if u.computed.Some? && u.computed.value != Active(a) then Some(Indices)
    else if |u.recomputedK| != |Active(a)| then Some(Shape)
    else if u.failure == Some(FreshK) then Some(Numeric)
    else if |u.recomputedV| != |Active(a)| then Some(Shape)
    else if u.failure.Some? then Some(Numeric)
    else None
  }

  /** Weights come one per recomputed row. */
  predicate Computed(a: Adapt, u: Layer) {
    |u.alpha| == |u.cosine| == |Active(a)|
  }

  function Metric(c: Config, cosine: real): real {
    if c.lowCosine then cosine else 1.0 - cosine
  }

  /** Selected rows whose metric is below the threshold. */
  function Lowered(c: Config, indices: seq<nat>, cosine: seq<real>, selected: set<nat>): set<nat>
    requires |indices| == |cosine|
  {
    set j | 0 <= j < |indices| && indices[j] in selected && Metric(c, cosine[j]) < c.threshold :: indices[j]
  }

  /** The rows that the gate takes out at this layer. */
  function Gated(c: Config, a: Adapt, u: Layer): set<nat>
    requires Computed(a, u) && c.interval > 0
  {
    if u.index % c.interval != 0 then {} else Lowered(c, Active(a), u.cosine, a.selected)
  }

  /** A mandatory row is always fresh; another takes its stored or its new weight. */
  function WeightOf(c: Config, a: Adapt, i: nat, now: real): real {
    if i in a.mandatory then 1.0 else if c.previousLayer then Entry(a.alpha, i) else now
  }

  function Used(c: Config, a: Adapt, u: Layer): seq<real>
    requires Computed(a, u)
  {
    seq(|Active(a)|, j requires 0 <= j < |Active(a)| => WeightOf(c, a, Active(a)[j], u.alpha[j]))
  }

  function Fuse(weight: real, recomputed: real, cached: real): real {
    weight * recomputed + (1.0 - weight) * cached
  }

  function Fused(a: Adapt, used: seq<real>, recomputed: seq<real>, cached: seq<real>): seq<real>
    requires |used| == |recomputed| == |Active(a)|
  {
    seq(|used|, j requires 0 <= j < |used| => Fuse(used[j], recomputed[j], Entry(cached, Active(a)[j])))
  }

  /** `x[indices] = values` */
  function Put(s: seq<real>, indices: seq<nat>, values: seq<real>): (r: seq<real>)
    requires |indices| == |values|
    ensures |r| == |s|
    decreases |indices|
  {
    if indices == [] then s
    else Put(if indices[0] < |s| then s[indices[0] := values[0]] else s, indices[1..], values[1..])
  }

  function Gate(a: Adapt, out: set<nat>): Adapt {
    a.(selected := a.selected - out, candidate := a.candidate - out, removed := a.removed + out)
  }

  function Advanced(c: Config, a: Adapt, u: Layer): Adapt
    requires Computed(a, u) && c.interval > 0
  {
    Promote(Absorbed(c, a, u))
  }

  /** The state with the new weights and without the gated rows. */
  function Absorbed(c: Config, a: Adapt, u: Layer): Adapt
    requires Computed(a, u) && c.interval > 0
  {
    Gate(a, Gated(c, a, u)).(alpha := Put(a.alpha, Active(a), u.alpha), last := u.index)
  }

  function Reported(c: Config, a: Adapt, u: Layer): Report
    requires Computed(a, u) && c.interval > 0 && Refusal(a, u).None?
  {
    var out := Gated(c, a, u);
    Report(Active(a), Fused(a, Used(c, a, u), u.recomputedK, u.cachedK),
          Fused(a, Used(c, a, u), u.recomputedV, u.cachedV),
           Used(c, a, u), out, Promoted(Gate(a, out)), Active(Promote(Gate(a, out))))
  }
}
