/** The layer loop of src/cacheslide_vllm/runtime.py's `_prefill` with the prefill half
    of `attention`: which rows each layer gets, and which K/V rows attention reads.
    A hidden row is an opaque number; a K/V row is one of its entries. */
module SparsePrefill {
  import opened Basics
  import A = Adaptation
  import AT = AdaptationTheorems
  import Commit
  import opened Plans

  type Vector = int

  /** What a run finds at one layer: the snapshot and cache pages if they can be read, what
      the layer computes for each token, the numbers WCA gets, whether the load of the next
      layer's cache page is accepted, and whether the pages of a population are stored. */
  datatype Weather = Weather(
    snapshot: Option<(seq<Vector>, seq<Vector>)>,
    cache: Option<(seq<real>, seq<real>)>,
    k: seq<real>,
    v: seq<real>,
    hidden: seq<Vector>,
    residual: seq<Vector>,
    deviation: seq<real>,
    alpha: seq<real>,
    cosine: seq<real>,
    failure: Option<A.Stage>,
    calibrates: bool,
    finite: bool,
    ahead: bool,
    statePut: bool,
    kvPut: bool)

  /** Tensors per token have one row per token. */
  predicate Sized(w: Weather, n: nat) {
    |w.k| == |w.v| == |w.hidden| == |w.residual| == |w.deviation| == |w.alpha| == |w.cosine| == n
  }

  datatype Stop =
    | Lost | Order | Indices | Shape | Uncovered | Numeric | Nonfinite
    | Unread         // a page cannot be read
    | Unsubmitted    // the load of a page is refused
    | Twice          // a second prefetch while one is outstanding
    | Unrecovered | Unwritten | Uncommitted

  datatype Settings = Settings(layers: nat, calibration: nat, wca: A.Config, fraction: real)

  /** What entered one layer, and what its attention read. */
  datatype Visit = Visit(active: seq<nat>, hidden: seq<Vector>, residual: seq<Vector>, wca: Option<A.Adapt>,
        fullK: seq<real>, fullV: seq<real>)

  function Pick<T>(s: seq<T>, indices: seq<nat>): (r: seq<T>)
    requires forall i :: i in indices ==> i < |s|
    ensures |r| == |indices|
  {
    seq(|indices|, j requires 0 <= j < |indices| => assert indices[j] in indices; s[indices[j]])
  }

  /** `full(n, -1)` with `x[of] = arange` */
  method Ordinals(n: nat, of: seq<nat>) returns (r: array<int>)
    requires Ascending(of) && forall i :: i in of ==> i < n
    ensures fresh(r) && r.Length == n
    ensures forall i :: 0 <= i < n && r[i] >= 0 ==> r[i] < |of| && of[r[i]] == i
    ensures forall p :: 0 <= p < |of| ==> of[p] < n && r[of[p]] == p
    ensures forall i :: 0 <= i < n && r[i] < 0 ==> r[i] == -1 && i !in of
  {
    r := new int[n](_ => -1);
    for p := 0 to |of|
      invariant forall i :: 0 <= i < n && r[i] >= 0 ==> r[i] < p && of[r[i]] == i
      invariant forall q :: 0 <= q < p ==> of[q] < n && r[of[q]] == q
      invariant forall i :: 0 <= i < n && r[i] < 0 ==> r[i] == -1
    {
      assert of[p] in of;
      r[of[p]] := p;
    }
  }

  /** The row a token comes with: its own output of the previous layer if it was
      active there, and this layer's snapshot otherwise. */
  ghost predicate Arrives(x: Vector, token: nat, previous: seq<nat>, rows: seq<Vector>, fixed: seq<nat>,
                          saved: seq<Vector>) {
    if token in previous then exists p :: 0 <= p < |previous| && p < |rows| && previous[p] == token && x == rows[p]
    else exists p :: 0 <= p < |fixed| && p < |saved| && fixed[p] == token && x == saved[p]
  }

  ghost predicate AllArrive(got: seq<Vector>, active: seq<nat>, previous: seq<nat>, rows: seq<Vector>, fixed: seq<nat>,
                            saved: seq<Vector>) {
    |got| == |active| && forall j :: 0 <= j < |active| ==> Arrives(got[j], active[j], previous, rows, fixed, saved)
  }

  /** Continuing rows are gathered; newly selected ones are restored from the
      snapshot, which is read only if there are any. */
  method Gather(n: nat, active: seq<nat>, previous: seq<nat>, rows: seq<Vector>, fixed: seq<nat>, saved: seq<Vector>)
    returns (lost: bool, got: seq<Vector>)
    requires Ascending(previous) && Ascending(fixed) && |rows| == |previous| && |saved| == |fixed|
    requires forall i :: i in active || i in previous || i in fixed ==> i < n
    ensures lost <==> exists j :: 0 <= j < |active| && active[j] !in previous && active[j] !in fixed
    ensures !lost ==> AllArrive(got, active, previous, rows, fixed, saved)
  {
    var lookup := Ordinals(n, previous);
    var ordinal := Ordinals(n, fixed);
    lost, got := false, [];
    for j := 0 to |active|
      invariant !lost && |got| == j
      invariant forall i :: 0 <= i < j ==> Arrives(got[i], active[i], previous, rows, fixed, saved)
      invariant forall i :: 0 <= i < j ==> active[i] in previous || active[i] in fixed
    {
      assert active[j] in active;
      var p := lookup[active[j]];
      if p >= 0 {
        got := got + [rows[p]];
      } else {
        var q := ordinal[active[j]];
        if q < 0 { return true, []; }
        got := got + [saved[q]];
      }
    }
  }

  // ---- attention ---------------------------------------------------------------------

  /** The K (or V) row attention reads for a token: the cached row of an inactive
      fixed token, the recomputed row of a mandatory one, a fusion of both otherwise. */
  ghost predicate Reads(x: real, token: nat, active: seq<nat>, mandatory: set<nat>, fixed: seq<nat>, cached: seq<real>,
                        recomputed: real, weight: real) {
    if token in active && token in mandatory then x == recomputed
    else exists p ::
          0 <= p < |fixed| && p < |cached| && fixed[p] == token
          && x == Mixed(token in active, weight, recomputed, cached[p])
  }

  function Mixed(active: bool, weight: real, recomputed: real, cached: real): real {
    if active then A.Fuse(weight, recomputed, cached) else cached
  }

  ghost predicate AllRead(full: seq<real>, active: seq<nat>, a: A.Adapt, c: A.Config, fixed: seq<nat>,
                          cached: seq<real>,
                          recomputed: seq<real>, alpha: seq<real>) {
    |full| == |recomputed| == |alpha| && forall i: nat :: i < |full| ==>
      Reads(full[i], i, active, a.mandatory, fixed, cached, recomputed[i], A.WeightOf(c, a, i, alpha[i]))
  }

  function Zeros(n: nat): seq<real> {
    seq(n, _ => 0.0)
  }

  /** `cached[fixed] = page`, over zero placeholders. */
  function Placed(n: nat, fixed: seq<nat>, page: seq<real>): seq<real>
    requires |page| == |fixed|
  {
    A.Put(Zeros(n), fixed, page)
  }

  lemma PlacedAt(n: nat, fixed: seq<nat>, page: seq<real>, p: nat)
    requires |page| == |fixed| && Ascending(fixed) && p < |fixed| && fixed[p] < n
    ensures A.Entry(Placed(n, fixed, page), fixed[p]) == page[p]
  {
    AT.PutAt(Zeros(n), fixed, page, fixed[p]);
  }

  /** Scattering the fused rows over the cached ones leaves no placeholder. */
  lemma NoPlaceholder(full: seq<real>, n: nat, active: seq<nat>, a: A.Adapt, c: A.Config, fixed: seq<nat>,
                      page: seq<real>,
                      recomputed: seq<real>, alpha: seq<real>, used: seq<real>, fused: seq<real>)
    requires Ascending(active) && Ascending(fixed) && |page| == |fixed| && |recomputed| == |alpha| == n
    requires |used| == |fused| == |active| && forall i :: i in active || i in fixed ==> i < n
    requires forall i: nat :: i < n && i !in fixed ==> i in active && i in a.mandatory
    requires forall j :: 0 <= j < |active| ==> active[j] < n && used[j] == A.WeightOf(c, a, active[j], alpha[active[j]])
    requires forall j :: 0 <= j < |active| ==>
             fused[j] == A.Fuse(used[j], recomputed[active[j]], A.Entry(Placed(n, fixed, page), active[j]))
    requires full == A.Put(Placed(n, fixed, page), active, fused)
    ensures AllRead(full, active, a, c, fixed, page, recomputed, alpha)
  {
    forall i: nat | i < n
      ensures Reads(full[i], i, active, a.mandatory, fixed, page, recomputed[i], A.WeightOf(c, a, i, alpha[i]))
    {
      AT.PutAt(Placed(n, fixed, page), active, fused, i);
      if i in active {
        var j :| 0 <= j < |active| && active[j] == i;
        if i in a.mandatory { AT.FuseFully(recomputed[i], A.Entry(Placed(n, fixed, page), i)); }
      }
      if i in fixed {
        var p :| 0 <= p < |fixed| && fixed[p] == i;
        PlacedAt(n, fixed, page, p);
      }
    }
  }

  /** The request as the layer loop sees it; `populates` is its `write_cache`. */
  datatype Prompt = Prompt(tokens: nat, fixed: seq<nat>, mandatory: seq<nat>, populates: bool)

  ghost predicate Partitioned(m: Prompt) {
    && Ascending(m.fixed) && Ascending(m.mandatory) && m.tokens > 0 && m.tokens - 1 in m.mandatory
    && (forall i: nat :: i in m.fixed || i in m.mandatory <==> i < m.tokens)
  }

  lemma PlanIsPartitioned(p: Plan, populates: bool)
    requires Sensible(p)
    ensures Partitioned(Prompt(|p.tokens|, Fixed(p), Mandatory(p), populates))
  {
    forall i: nat ensures i in Fixed(p) || i in Mandatory(p) <==> i < |p.tokens| { PlanPartitions(p, i); }
    PlanPartitions(p, 0);
  }

  function Everything(n: nat): seq<nat> {
    seq(n, i => i)
  }

  /** What holds between two layers: before calibration every token is computed;
      afterwards every active token was active before or is fixed. */
  ghost predicate Between(wca: Option<A.Adapt>, previous: seq<nat>, m: Prompt, next: nat) {
    && Ascending(previous) && (forall i :: i in previous ==> i < m.tokens)
    && match wca
       case None => previous == Everything(m.tokens)
       case Some(a) => Adapting(a, m, next) && forall i :: i in A.Active(a) ==> i in previous || i in m.fixed
  }

  ghost predicate Adapting(a: A.Adapt, m: Prompt, next: nat) {
    && AT.Inv(a) && a.tokens == m.tokens && a.last == next
    && a.reused == A.Elements(m.fixed) && a.mandatory == A.Elements(m.mandatory)
  }

  datatype Attended = Halted(stop: Stop) | Went(wca: Option<A.Adapt>, fullK: seq<real>, fullV: seq<real>)

  function Fault(f: A.Fault): Stop {
    match f
    case Order => Order
    case Shape => Shape
    case Indices => Indices
    case Numeric => Numeric
  }

  /** The arguments of `WCAState.update` at a layer. */
  function Given(m: Prompt, layer: nat, active: seq<nat>, w: Weather, pageK: seq<real>, pageV: seq<real>): A.Layer
    requires Sized(w, m.tokens) && (forall i :: i in active ==> i < m.tokens) && |pageK| == |pageV| == |m.fixed|
  {
    A.Layer(layer + 1, Placed(m.tokens, m.fixed, pageK), Placed(m.tokens, m.fixed, pageV), Pick(w.k, active),
          Pick(w.v, active),
            Some(active), Pick(w.alpha, active), Pick(w.cosine, active), w.failure)
  }

  /** Only failures of the numbers themselves can stop the update. */
  lemma OnlyNumeric(m: Prompt, a: A.Adapt, layer: nat, w: Weather, pageK: seq<real>, pageV: seq<real>)
    requires Sized(w, m.tokens) && |pageK| == |pageV| == |m.fixed| && AT.Inv(a) && a.tokens == m.tokens
    requires a.last == layer
    ensures (forall i :: i in A.Active(a) ==> i < m.tokens)
    ensures var u := Given(m, layer, A.Active(a), w, pageK, pageV);
            A.Computed(a, u) && A.Refusal(a, u) == if w.failure.None? then None else Some(A.Numeric)
  {
    AT.ActiveInRange(a);
  }

  /** The adaptation state after the update still fits the loop. */
  lemma UpdateFits(m: Prompt, c: A.Config, a: A.Adapt, u: A.Layer, layer: nat)
    requires c.interval > 0 && A.Computed(a, u) && A.Refusal(a, u).None? && Adapting(a, m, layer)
    requires u.index == layer + 1
    ensures Adapting(A.Advanced(c, a, u), m, layer + 1) == true
  {
    AT.AdvanceKeeps(c, a, u);
    AT.AdvanceFields(c, a, u);
  }

  lemma UpdateLinks(m: Prompt, c: A.Config, a: A.Adapt, u: A.Layer, layer: nat)
    requires c.interval > 0 && A.Computed(a, u) && A.Refusal(a, u).None? && Adapting(a, m, layer)
    requires u.index == layer + 1
    ensures Between(Some(A.Advanced(c, a, u)), A.Active(a), m, layer + 1) == true
  {
    UpdateFits(m, c, a, u, layer);
    AT.ActiveInRange(a);
    forall i | i in A.Active(A.Advanced(c, a, u)) && i !in A.Active(a) ensures i in A.Elements(m.fixed) {
      AT.NewRowsAreReused(c, a, u, i);
    }
  }

  // ---- one layer ----------------------------------------------------------------------

  /** What attention reads at a layer: everything recomputed before the selection
      exists, cached and fused rows afterwards. */
  ghost predicate Faithful(fullK: seq<real>, fullV: seq<real>, wca: Option<A.Adapt>, active: seq<nat>, m: Prompt,
                           s: Settings, w: Weather) {
    match wca
    case None => fullK == w.k && fullV == w.v
    case Some(a) =>
      && w.cache.Some?
      && AllRead(fullK, active, a, s.wca, m.fixed, w.cache.value.0, w.k, w.alpha)
      && AllRead(fullV, active, a, s.wca, m.fixed, w.cache.value.1, w.v, w.alpha)
  }

  predicate Readable(page: Option<(seq<real>, seq<real>)>, m: Prompt) {
    page.Some? && |page.value.0| == |page.value.1| == |m.fixed|
  }

  function Computing(wca: Option<A.Adapt>, previous: seq<nat>): seq<nat> {
    if wca.Some? then A.Active(wca.value) else previous
  }

  /** One of the two tensors. */
  lemma TensorReads(m: Prompt, c: A.Config, a: A.Adapt, w: Weather, u: A.Layer, page: seq<real>, recomputed: seq<real>)
    requires Partitioned(m) && Sized(w, m.tokens) && |page| == |m.fixed| && |recomputed| == m.tokens
    requires a.mandatory == A.Elements(m.mandatory) && (forall i :: i in A.Active(a) ==> i < m.tokens)
    requires A.Computed(a, u) && u.alpha == Pick(w.alpha, A.Active(a))
    ensures var cached := Placed(m.tokens, m.fixed, page);
            var fused := A.Fused(a, A.Used(c, a, u), Pick(recomputed, A.Active(a)), cached);
            AllRead(A.Put(cached, A.Active(a), fused), A.Active(a), a, c, m.fixed, page, recomputed, w.alpha) == true
  {
    var cached, used := Placed(m.tokens, m.fixed, page), A.Used(c, a, u);
    var fused := A.Fused(a, used, Pick(recomputed, A.Active(a)), cached);
    NoPlaceholder(A.Put(cached, A.Active(a), fused), m.tokens, A.Active(a), a, c, m.fixed, page, recomputed, w.alpha,
          used, fused);
  }

  lemma SparseReads(m: Prompt, s: Settings, a: A.Adapt, layer: nat, w: Weather)
    requires Partitioned(m) && Adapting(a, m, layer) && Sized(w, m.tokens) && Readable(w.cache, m) && w.failure.None?
    requires s.wca.interval > 0
    ensures forall i :: i in A.Active(a) ==> i < m.tokens
    ensures var u := Given(m, layer, A.Active(a), w, w.cache.value.0, w.cache.value.1);
            A.Computed(a, u) && A.Refusal(a, u).None?
    ensures var u := Given(m, layer, A.Active(a), w, w.cache.value.0, w.cache.value.1);
            var update := A.Reported(s.wca, a, u);
            Faithful(A.Put(u.cachedK, A.Active(a), update.fusedK), A.Put(u.cachedV, A.Active(a), update.fusedV),
                     Some(a), A.Active(a), m, s, w)
  {
    OnlyNumeric(m, a, layer, w, w.cache.value.0, w.cache.value.1);
    var u := Given(m, layer, A.Active(a), w, w.cache.value.0, w.cache.value.1);
    TensorReads(m, s.wca, a, w, u, w.cache.value.0, w.k);
    TensorReads(m, s.wca, a, w, u, w.cache.value.1, w.v);
  }

  function Started(m: Prompt, s: Settings, w: Weather): Option<A.Adapt>
    requires 0.0 <= s.fraction
  {
    A.Initial(m.tokens, A.Elements(m.fixed), A.Elements(m.mandatory), w.deviation, w.alpha, s.fraction)
  }

  lemma AllTokens(n: nat)
    ensures Ascending(Everything(n)) && forall i: nat :: i in Everything(n) <==> i < n
  {
    forall i: nat | i < n ensures i in Everything(n) { assert Everything(n)[i] == i; }
  }

  /** The state that calibration hands on, its last layer being the calibrating one. */
  function StartedAt(m: Prompt, s: Settings, w: Weather, next: nat): Option<A.Adapt>
    requires 0.0 <= s.fraction
  {
    var started := Started(m, s, w);
    if started.Some? then Some(started.value.(last := next)) else None
  }

  /** A state over the plan's tokens, relabelled, suits the layer after. */
  lemma LinkedState(a: A.Adapt, m: Prompt, next: nat)
    requires Partitioned(m) && AT.Inv(a) && a.tokens == m.tokens && next > 0
    requires a.reused == A.Elements(m.fixed) && a.mandatory == A.Elements(m.mandatory)
    ensures Between(Some(a.(last := next)), Everything(m.tokens), m, next) == true
  {
    AllTokens(m.tokens);
    Relabelled(a, next);
    AT.ActiveInRange(a.(last := next));
  }

  lemma StartsGood(m: Prompt, s: Settings, w: Weather) returns (a: A.Adapt)
    requires Partitioned(m) && Sized(w, m.tokens) && 0.0 <= s.fraction
    ensures Started(m, s, w) == Some(a) && AT.Inv(a) == true && a.tokens == m.tokens
    ensures a.reused == A.Elements(m.fixed) && a.mandatory == A.Elements(m.mandatory)
  {
    assert Below(m.tokens) - A.Elements(m.fixed) <= A.Elements(m.mandatory);
    AT.InitialKeeps(m.tokens, A.Elements(m.fixed), A.Elements(m.mandatory), w.deviation, w.alpha, s.fraction);
    a := Started(m, s, w).value;
  }

  lemma Restarted(m: Prompt, s: Settings, w: Weather, next: nat, a: A.Adapt)
    requires 0.0 <= s.fraction && Started(m, s, w) == Some(a)
    ensures StartedAt(m, s, w, next) == Some(a.(last := next))
  {}

  /** Calibration cannot fail on an accepted plan: its mandatory tokens cover the rest. */
  lemma CalibrationLinks(m: Prompt, s: Settings, w: Weather, next: nat) returns (a: A.Adapt)
    requires Partitioned(m) && Sized(w, m.tokens) && 0.0 <= s.fraction && next > 0
    ensures StartedAt(m, s, w, next) == Some(a) && Between(Some(a), Everything(m.tokens), m, next) == true
  {
    var b := StartsGood(m, s, w);
    LinkedState(b, m, next);
    Restarted(m, s, w, next, b);
    a := b.(last := next);
  }

  lemma Relabelled(a: A.Adapt, next: nat)
    requires AT.Inv(a) && next > 0
    ensures AT.Inv(a.(last := next))
  {
    forall k: AT.Clause ensures AT.Holds(a.(last := next), k) == true {
      match k
      case Sizes => AT.Take(a, AT.Sizes);
      case Tokens => AT.Take(a, AT.Tokens);
      case Pool => AT.Take(a, AT.Pool);
      case Choice => AT.Take(a, AT.Choice);
      case Last =>
    }
  }

  lemma SparseOutcome(m: Prompt, s: Settings, a: A.Adapt, layer: nat, w: Weather, u: A.Layer)
    requires Partitioned(m) && Adapting(a, m, layer) && Sized(w, m.tokens) && Readable(w.cache, m) && w.failure.None?
    requires s.wca.interval > 0
    requires (forall i :: i in A.Active(a) ==> i < m.tokens)
    requires u == Given(m, layer, A.Active(a), w, w.cache.value.0, w.cache.value.1)
    ensures A.Computed(a, u) && A.Refusal(a, u).None?
    ensures Between(Some(A.Advanced(s.wca, a, u)), A.Active(a), m, layer + 1) == true
    ensures var update := A.Reported(s.wca, a, u);
            Faithful(A.Put(u.cachedK, A.Active(a), update.fusedK), A.Put(u.cachedV, A.Active(a), update.fusedV),
                  Some(a), A.Active(a), m, s, w) == true
  {
    SparseReads(m, s, a, layer, w);
    UpdateLinks(m, s.wca, a, u, layer);
  }

  /** The adaptation state a layer leaves behind if nothing stops it. */
  function NextState(m: Prompt, s: Settings, reuse: bool, wca: Option<A.Adapt>, layer: nat,
                     w: Weather): (next: Option<A.Adapt>)
    requires Sized(w, m.tokens) && s.wca.interval > 0 && 0.0 <= s.fraction
    ensures !reuse && wca.None? ==> next.None?
    ensures wca.None? && reuse && layer == s.calibration ==> next == StartedAt(m, s, w, layer + 1)
  {
    if wca.Some? then Updated(m, s, wca.value, layer, w)
    else if reuse && layer == s.calibration then StartedAt(m, s, w, layer + 1)
    else None
  }

  function Updated(m: Prompt, s: Settings, a: A.Adapt, layer: nat, w: Weather): Option<A.Adapt>
    requires Sized(w, m.tokens) && s.wca.interval > 0
  {
    if Readable(w.cache, m) && forall i :: i in A.Active(a) ==> i < m.tokens
    then Some(A.Advanced(s.wca, a, Given(m, layer, A.Active(a), w, w.cache.value.0, w.cache.value.1)))
    else None
  }

  lemma NextIsAdvanced(m: Prompt, s: Settings, a: A.Adapt, layer: nat, w: Weather, u: A.Layer)
    requires Sized(w, m.tokens) && s.wca.interval > 0 && 0.0 <= s.fraction && Readable(w.cache, m)
    requires (forall i :: i in A.Active(a) ==> i < m.tokens) && A.Computed(a, u)
    requires u == Given(m, layer, A.Active(a), w, w.cache.value.0, w.cache.value.1)
    ensures NextState(m, s, true, Some(a), layer, w) == Some(A.Advanced(s.wca, a, u))
  {}

  /** The sparse branch of `attention`. */
  method AttendSparse(m: Prompt, s: Settings, a: A.Adapt, layer: nat, w: Weather) returns (r: Attended)
    requires Partitioned(m) && Adapting(a, m, layer) && Sized(w, m.tokens) && Readable(w.cache, m) && s.wca.interval > 0
    requires 0.0 <= s.fraction
    ensures if w.failure.Some? then r == Halted(Numeric) else r.Went?
    ensures r.Went? ==> r.wca == NextState(m, s, true, Some(a), layer, w) && r.wca.Some?
    ensures r.Went? ==> Between(r.wca, A.Active(a), m, layer + 1) == true
    ensures r.Went? ==> Faithful(r.fullK, r.fullV, Some(a), A.Active(a), m, s, w) == true
  {
    var active := A.Active(a);
    OnlyNumeric(m, a, layer, w, w.cache.value.0, w.cache.value.1);
    var u := Given(m, layer, active, w, w.cache.value.0, w.cache.value.1);
    var refusal := A.Refusal(a, u);
    if refusal.Some? { return Halted(Fault(refusal.value)); }
    NextIsAdvanced(m, s, a, layer, w, u);
    var update := A.Reported(s.wca, a, u);
    var fullK, fullV := A.Put(u.cachedK, active, update.fusedK), A.Put(u.cachedV, active, update.fusedV);
    SparseOutcome(m, s, a, layer, w, u);
    r := Went(Some(A.Advanced(s.wca, a, u)), fullK, fullV);
  }

  // ---- reading ahead -------------------------------------------------------------------

  /** The prefetch that is outstanding when a layer begins. */
  function Due(reuse: bool, layer: nat, s: Settings): Option<nat> {
    if reuse && layer < s.layers then Some(layer) else None
  }

  /** `_prefetch` */
  method Prefetch(reuse: bool, layer: nat, s: Settings, pending: Option<nat>, accepted: bool)
    returns (stop: Option<Stop>, next: Option<nat>)
    ensures !reuse || layer >= s.layers ==> stop.None? && next == pending
    ensures reuse && layer < s.layers ==>
              stop == if pending.Some? then Some(Twice) else if !accepted then Some(Unsubmitted) else None
    ensures reuse && layer < s.layers && stop.None? ==> next == Some(layer)
  {
    stop, next := None, pending;
    if reuse && layer < s.layers {
      if pending.Some? { return Some(Twice), next; }
      if !accepted { return Some(Unsubmitted), next; }
      next := Some(layer);
    }
  }

  /** The cache page comes from the prefetch of this layer, or from a read of its own;
      then the next layer's is asked for. Two are never outstanding. */
  method ReadAhead(m: Prompt, s: Settings, reuse: bool, layer: nat, w: Weather, pending: Option<nat>)
    returns (stop: Option<Stop>, next: Option<nat>)
    requires layer < s.layers && pending == Due(reuse, layer, s)
    ensures stop == ReadStop(m, s, reuse, layer, w)
    ensures stop.None? ==> next == Due(reuse, layer + 1, s)
  {
    stop, next := None, pending;
    if reuse {
      if pending == Some(layer) { next := None; }
      if !Readable(w.cache, m) { return Some(Unread), next; }
      stop, next := Prefetch(reuse, layer + 1, s, next, w.ahead);
    }
  }

  function ReadStop(m: Prompt, s: Settings, reuse: bool, layer: nat, w: Weather): Option<Stop> {
    if reuse && !Readable(w.cache, m) then Some(Unread)
    else if reuse && layer + 1 < s.layers && !w.ahead then Some(Unsubmitted)
    else None
  }

  /** Why one attention call stops, if it does. */
  function AttendStop(m: Prompt, s: Settings, reuse: bool, wca: Option<A.Adapt>, layer: nat, w: Weather): Option<Stop> {
    if ReadStop(m, s, reuse, layer, w).Some? then ReadStop(m, s, reuse, layer, w)
    else if Unsound(s, reuse, wca, layer, w) then Some(Numeric)
    else if m.populates && !w.kvPut then Some(Unwritten)
    else None
  }

  /** WCA refuses the numbers of the update or of the calibration. */
  predicate Unsound(s: Settings, reuse: bool, wca: Option<A.Adapt>, layer: nat, w: Weather) {
    if wca.Some? then w.failure.Some? else reuse && layer == s.calibration && !w.calibrates
  }

  lemma DenseReads(m: Prompt, s: Settings, previous: seq<nat>, layer: nat, w: Weather)
    requires Between(None, previous, m, layer) && Sized(w, m.tokens)
    ensures previous == Everything(m.tokens) && forall i :: i in previous ==> i < m.tokens
    ensures Faithful(Pick(w.k, previous), Pick(w.v, previous), None, previous, m, s, w) == true
  {
    assert Pick(w.k, previous) == w.k && Pick(w.v, previous) == w.v;
  }

  lemma Calibrated(m: Prompt, s: Settings, w: Weather, layer: nat) returns (a: A.Adapt)
    requires Partitioned(m) == true && Sized(w, m.tokens) && 0.0 <= s.fraction && s.wca.interval > 0
             && layer == s.calibration
    ensures StartedAt(m, s, w, layer + 1).Some? && StartedAt(m, s, w, layer + 1).value == a
    ensures NextState(m, s, true, None, layer, w).Some? && NextState(m, s, true, None, layer, w).value == a
    ensures Between(Some(a), Everything(m.tokens), m, layer + 1) == true
  {
    a := CalibrationLinks(m, s, w, layer + 1);
    NextIsStarted(m, s, w, layer, a);
  }

  lemma NextIsStarted(m: Prompt, s: Settings, w: Weather, layer: nat, a: A.Adapt)
    requires Sized(w, m.tokens) && 0.0 <= s.fraction && s.wca.interval > 0 && layer == s.calibration
    requires StartedAt(m, s, w, layer + 1).Some? && StartedAt(m, s, w, layer + 1).value == a
    ensures NextState(m, s, true, None, layer, w).Some? && NextState(m, s, true, None, layer, w).value == a
  {}

  lemma Uncalibrated(m: Prompt, s: Settings, reuse: bool, previous: seq<nat>, layer: nat, w: Weather)
    requires Between(None, previous, m, layer) && Sized(w, m.tokens) && 0.0 <= s.fraction && s.wca.interval > 0
    requires !(reuse && layer == s.calibration)
    ensures NextState(m, s, reuse, None, layer, w) == None && Between(None, previous, m, layer + 1) == true
  {}

  /** The branch of `attention` for a layer whose tokens are all computed. */
  method AttendDense(m: Prompt, s: Settings, reuse: bool, previous: seq<nat>, layer: nat, w: Weather)
    returns (r: Attended)
    requires Partitioned(m) == true && Between(None, previous, m, layer) && Sized(w, m.tokens) && s.wca.interval > 0
    requires 0.0 <= s.fraction
    ensures if Unsound(s, reuse, None, layer, w) then r == Halted(Numeric) else r.Went?
    ensures r.Went? ==> r.wca == NextState(m, s, reuse, None, layer, w)
    ensures r.Went? ==> Between(r.wca, previous, m, layer + 1) == true && (r.wca.Some? ==> reuse)
    ensures r.Went? ==> Faithful(r.fullK, r.fullV, None, previous, m, s, w) == true
  {
    DenseReads(m, s, previous, layer, w);
    var state := None;
    if reuse && layer == s.calibration {
      if !w.calibrates { return Halted(Numeric); }
      ghost var a := Calibrated(m, s, w, layer);
      state := StartedAt(m, s, w, layer + 1);
      if state.None? { return Halted(Uncovered); }
    } else {
      Uncalibrated(m, s, reuse, previous, layer, w);
    }
    r := Went(state, Pick(w.k, previous), Pick(w.v, previous));
  }

  /** `attention` during a prefill. */
  method Attend(m: Prompt, s: Settings, reuse: bool, wca: Option<A.Adapt>, previous: seq<nat>, layer: nat, w: Weather,
                pending: Option<nat>)
    returns (r: Attended, next: Option<nat>)
    requires Partitioned(m) == true && Between(wca, previous, m, layer) == true && Sized(w, m.tokens)
             && s.wca.interval > 0
    requires 0.0 <= s.fraction && layer < s.layers && pending == Due(reuse, layer, s)
    requires wca.Some? ==> reuse
    ensures AttendStop(m, s, reuse, wca, layer, w) == if r.Halted? then Some(r.stop) else None
    ensures r.Went? ==> r.wca == NextState(m, s, reuse, wca, layer, w) && next == Due(reuse, layer + 1, s)
    ensures r.Went? ==> Between(r.wca, Computing(wca, previous), m, layer + 1) == true && (r.wca.Some? ==> reuse)
    ensures r.Went? ==> Faithful(r.fullK, r.fullV, wca, Computing(wca, previous), m, s, w) == true
  {
    var stop;
    stop, next := ReadAhead(m, s, reuse, layer, w, pending);
    if stop.Some? { return Halted(stop.value), next; }
    if wca.Some? {
      r := AttendSparse(m, s, wca.value, layer, w);
    } else {
      r := AttendDense(m, s, reuse, previous, layer, w);
    }
    if r.Went? && m.populates && !w.kvPut { r := Halted(Unwritten); }
  }

  // ---- what a population writes ----------------------------------------------------------

  /** A page of one layer: the rows of the fixed tokens as they enter it, and the K/V rows
      its attention reads for them. */
  datatype Page =
    | StateOf(layer: nat, hidden: seq<Vector>, residual: seq<Vector>)
    | KVOf(layer: nat, k: seq<real>, v: seq<real>)

  /** `x[fixed]`, or nothing where there is no tensor. */
  function RowsAt<T>(x: seq<T>, fixed: seq<nat>): seq<T> {
    if forall i :: i in fixed ==> i < |x| then Pick(x, fixed) else []
  }

  function LayerPages(now: Visit, layer: nat, m: Prompt): (r: seq<Page>)
    ensures |r| == 2
  {
    [StateOf(layer, RowsAt(now.hidden, m.fixed), RowsAt(now.residual, m.fixed)),
     KVOf(layer, RowsAt(now.fullK, m.fixed), RowsAt(now.fullV, m.fixed))]
  }

  /** The pages of the layers passed so far. */
  function PagesOf(trace: seq<Visit>, m: Prompt): (r: seq<Page>)
    ensures |r| == if m.populates then 2 * |trace| else 0
  {
    if trace == [] || !m.populates then []
    else PagesOf(trace[..|trace| - 1], m) + LayerPages(trace[|trace| - 1], |trace| - 1, m)
  }

  lemma PagesGrow(trace: seq<Visit>, now: Visit, m: Prompt)
    ensures PagesOf(trace + [now], m) == PagesOf(trace, m) + if m.populates then LayerPages(now, |trace|, m) else []
  {
    assert (trace + [now])[..|trace|] == trace;
  }

  /** They come in the order of the population protocol, each the page of its layer. */
  lemma {:induction false} PagesInOrder(trace: seq<Visit>, m: Prompt, i: nat)
    requires m.populates && i < 2 * |trace|
    ensures PagesOf(trace, m)[i] == LayerPages(trace[i / 2], i / 2, m)[i % 2]
    ensures var key := Commit.PageAt(0, i);
            key.layer == PagesOf(trace, m)[i].layer && (key.kind == Commit.StatePage <==> PagesOf(trace, m)[i].StateOf?)
    decreases |trace|
  {
    var n := |trace| - 1;
    if i < 2 * n { PagesInOrder(trace[..n], m, i); }
  }

  /** Pages of a layer that was left unfinished: none, the snapshot, or both. */
  predicate Begun(put: seq<Page>, layer: nat) {
    |put| <= 2 && forall i :: 0 <= i < |put| ==> put[i].layer == layer && (put[i].StateOf? <==> i == 0)
  }

  // ---- the loop -------------------------------------------------------------------------

  function Saved(w: Weather, m: Prompt): (seq<Vector>, seq<Vector>) {
    if w.snapshot.Some? && |w.snapshot.value.0| == |w.snapshot.value.1| == |m.fixed| then w.snapshot.value
    else (seq(|m.fixed|, _ => 0), seq(|m.fixed|, _ => 0))
  }

  predicate Restorable(w: Weather, m: Prompt) {
    w.snapshot.Some? && |w.snapshot.value.0| == |w.snapshot.value.1| == |m.fixed|
  }

  /** Every active row of a layer has come from its own output of the layer before, or
      from a readable snapshot of this layer, never from a placeholder. */
  ghost predicate Fed(got: seq<Vector>, restored: Option<seq<Vector>>, active: seq<nat>, previous: seq<nat>,
                      output: seq<Vector>, m: Prompt) {
    && |got| == |active|
    && forall j :: 0 <= j < |active| ==>
         if active[j] in previous then active[j] < |output| && got[j] == output[active[j]]
         else restored.Some? && exists p ::
               0 <= p < |m.fixed| && p < |restored.value| && m.fixed[p] == active[j]
               && got[j] == restored.value[p]
  }

  ghost predicate RowsEnter(hidden: seq<Vector>, residual: seq<Vector>, active: seq<nat>, w: Weather,
                            previous: seq<nat>, before: Weather, m: Prompt) {
    && Fed(hidden, if Restorable(w, m) then Some(w.snapshot.value.0) else None, active, previous, before.hidden, m)
    && Fed(residual, if Restorable(w, m) then Some(w.snapshot.value.1) else None, active, previous, before.residual, m)
  }

  ghost predicate Entered(now: Visit, w: Weather, previous: seq<nat>, before: Weather, m: Prompt) {
    RowsEnter(now.hidden, now.residual, now.active, w, previous, before, m) == true
  }

  /** A layer computes every mandatory token, the last prompt token among them. */
  ghost predicate Visited(now: Visit, m: Prompt, s: Settings, w: Weather) {
    && (forall i :: i in m.mandatory ==> i in now.active)
    && Faithful(now.fullK, now.fullV, now.wca, now.active, m, s, w)
    && (now.wca.Some? ==> now.active == A.Active(now.wca.value))
    && (now.wca.None? ==> now.active == Everything(m.tokens) && |now.hidden| == m.tokens)
  }

  /** Rows gathered for the next layer, as the previous layer left them. */
  lemma GatheredIsFed(got: seq<Vector>, active: seq<nat>, previous: seq<nat>, output: seq<Vector>, m: Prompt,
                      saved: seq<Vector>, readable: bool)
    requires (forall i :: i in previous ==> i < |output|)
    requires AllArrive(got, active, previous, Pick(output, previous), m.fixed, saved)
    requires readable || forall j :: 0 <= j < |active| ==> active[j] in previous
    ensures Fed(got, if readable then Some(saved) else None, active, previous, output, m)
  {
    forall j | 0 <= j < |active| && active[j] in previous ensures active[j] < |output| && got[j] == output[active[j]] {
      assert Arrives(got[j], active[j], previous, Pick(output, previous), m.fixed, saved);
    }
    forall j | 0 <= j < |active| && active[j] !in previous
      ensures exists p :: 0 <= p < |m.fixed| && p < |saved| && m.fixed[p] == active[j] && got[j] == saved[p]
    {
      assert Arrives(got[j], active[j], previous, Pick(output, previous), m.fixed, saved);
    }
  }

  /** Some row was not computed at the layer before. */
  predicate Joined(active: seq<nat>, previous: seq<nat>) {
    exists j :: 0 <= j < |active| && active[j] !in previous
  }

  /** The rows for the next layer; restoring reads this layer's snapshot. */
  method Carry(m: Prompt, active: seq<nat>, previous: seq<nat>, before: Weather, hidden: seq<Vector>,
               residual: seq<Vector>, w: Weather)
    returns (stop: Option<Stop>, nextHidden: seq<Vector>, nextResidual: seq<Vector>)
    requires Partitioned(m) && Ascending(previous) && Sized(before, m.tokens)
    requires forall i :: i in active || i in previous ==> i < m.tokens
    requires hidden == Pick(before.hidden, previous) && residual == Pick(before.residual, previous)
    requires forall i :: i in active ==> i in previous || i in m.fixed
    ensures stop == if Joined(active, previous) && !Restorable(w, m) then Some(Unread) else None
    ensures stop.None? ==>
            Fed(nextHidden, if Restorable(w, m) then Some(w.snapshot.value.0)
              else None, active, previous, before.hidden, m)
    ensures stop.None? ==>
            Fed(nextResidual, if Restorable(w, m) then Some(w.snapshot.value.1)
              else None, active, previous, before.residual, m)
  {
    if Joined(active, previous) && !Restorable(w, m) {
      return Some(Unread), [], [];
    }
    var saved := Saved(w, m);
    var lost, h := Gather(m.tokens, active, previous, hidden, m.fixed, saved.0);
    if lost { return Some(Lost), [], []; }
    var lostToo, r := Gather(m.tokens, active, previous, residual, m.fixed, saved.1);
    if lostToo { return Some(Lost), [], []; }
    GatheredIsFed(h, active, previous, before.hidden, m, saved.0, Restorable(w, m));
    GatheredIsFed(r, active, previous, before.residual, m, saved.1, Restorable(w, m));
    stop, nextHidden, nextResidual := None, h, r;
  }

  /** `output[previous] = hidden` over zero rows. */
  function Scatter(n: nat, indices: seq<nat>, rows: seq<Vector>): (r: seq<Vector>)
    requires |indices| == |rows|
    ensures |r| == n
  {
    seq(n, i => if i in indices then rows[Place(indices, i)] else 0)
  }

  function Place(s: seq<nat>, x: nat): (j: nat)
    requires x in s
    ensures j < |s| && s[j] == x
  {
    if s[0] == x then 0 else 1 + Place(s[1..], x)
  }

  predicate AllSized(ws: seq<Weather>, n: nat) {
    forall l :: 0 <= l < |ws| ==> Sized(ws[l], n)
  }

  /** The rows a layer left for the tokens it computed. */
  ghost predicate Outputs(hidden: seq<Vector>, residual: seq<Vector>, previous: seq<nat>, w: Weather, m: Prompt) {
    && Sized(w, m.tokens) && (forall i :: i in previous ==> i < m.tokens)
    && hidden == Pick(w.hidden, previous) && residual == Pick(w.residual, previous)
  }

  ghost predicate AllVisited(trace: seq<Visit>, m: Prompt, s: Settings, ws: seq<Weather>) {
    |trace| <= |ws| && forall l :: 0 <= l < |trace| ==> Visited(trace[l], m, s, ws[l]) == true
  }

  ghost predicate AllEntered(trace: seq<Visit>, m: Prompt, ws: seq<Weather>) {
    |trace| <= |ws| && forall l, k :: 0 <= l < |trace| && k == l + 1 < |trace| ==>
        Entered(trace[k], ws[k], trace[l].active, ws[l], m) == true
  }

  lemma VisitedGrows(trace: seq<Visit>, now: Visit, m: Prompt, s: Settings, ws: seq<Weather>)
    requires AllVisited(trace, m, s, ws) == true && |trace| < |ws| && Visited(now, m, s, ws[|trace|]) == true
    ensures AllVisited(trace + [now], m, s, ws)
  {
    forall l | 0 <= l <= |trace| ensures Visited((trace + [now])[l], m, s, ws[l]) == true {
      if l < |trace| { assert (trace + [now])[l] == trace[l]; }
    }
  }

  lemma EnteredGrows(trace: seq<Visit>, now: Visit, m: Prompt, ws: seq<Weather>)
    requires AllEntered(trace, m, ws) == true && |trace| < |ws|
    requires |trace| > 0 ==> Entered(now, ws[|trace|], trace[|trace| - 1].active, ws[|trace| - 1], m) == true
    ensures AllEntered(trace + [now], m, ws)
  {
    forall l, k | 0 <= l <= |trace| && k == l + 1 <= |trace|
      ensures Entered((trace + [now])[k], ws[k], (trace + [now])[l].active, ws[l], m) == true
    {
      if k < |trace| { assert (trace + [now])[k] == trace[k] && (trace + [now])[l] == trace[l]; }
    }
  }

  /** Every mandatory token is active at every layer. */
  lemma MandatoryIsActive(m: Prompt, wca: Option<A.Adapt>, previous: seq<nat>, next: nat)
    requires Partitioned(m) && Between(wca, previous, m, next)
    ensures forall i :: i in m.mandatory ==> i in Computing(wca, previous)
    ensures forall i :: i in Computing(wca, previous) ==> i < m.tokens && (i in previous || i in m.fixed)
  {
    AllTokens(m.tokens);
    if wca.Some? { AT.ActiveInRange(wca.value); }
  }

  /** Before calibration the rows stay as they are. */
  lemma DenseIsFed(hidden: seq<Vector>, residual: seq<Vector>, previous: seq<nat>, before: Weather, w: Weather,
        m: Prompt)
    requires Outputs(hidden, residual, previous, before, m)
    ensures RowsEnter(hidden, residual, previous, w, previous, before, m) == true
  {
    forall j | 0 <= j < |previous| ensures previous[j] in previous {}
  }

  /** The rows that enter a layer. */
  method EnterRows(m: Prompt, wca: Option<A.Adapt>, previous: seq<nat>, index: nat, before: Weather, w: Weather,
                   hidden: seq<Vector>, residual: seq<Vector>)
    returns (stop: Option<Stop>, h: seq<Vector>, r: seq<Vector>)
    requires Partitioned(m) == true && Between(wca, previous, m, index) == true && (wca.Some? ==> index > 0)
    requires index > 0 ==> Outputs(hidden, residual, previous, before, m) == true
    ensures stop == if wca.Some? && Joined(A.Active(wca.value), previous) && !Restorable(w, m) then Some(Unread)
            else None
    ensures wca.None? ==> h == hidden && r == residual
    ensures stop.None? && index > 0 ==> RowsEnter(h, r, Computing(wca, previous), w, previous, before, m) == true
  {
    stop, h, r := None, hidden, residual;
    if wca.Some? {
      MandatoryIsActive(m, wca, previous, index);
      stop, h, r := Carry(m, Computing(wca, previous), previous, before, hidden, residual, w);
    } else if index > 0 {
      DenseIsFed(hidden, residual, previous, before, w, m);
    }
  }

  /** Why a layer cannot be entered, if it cannot. */
  function EnterStop(m: Prompt, s: Settings, reuse: bool, wca: Option<A.Adapt>, previous: seq<nat>, index: nat,
                     w: Weather): Option<Stop> {
    if wca.Some? && Joined(A.Active(wca.value), previous) && !Restorable(w, m) then Some(Unread)
    else if m.populates && !w.statePut then Some(Unwritten)
    else AttendStop(m, s, reuse, wca, index, w)
  }

  /** One round of the layer loop up to the layer itself. */
  method EnterLayer(m: Prompt, s: Settings, reuse: bool, wca: Option<A.Adapt>, previous: seq<nat>, index: nat,
                    before: Weather, w: Weather, hidden: seq<Vector>, residual: seq<Vector>, pending: Option<nat>)
    returns (stop: Option<Stop>, now: Visit, next: Option<A.Adapt>, ahead: Option<nat>, put: seq<Page>)
    requires Partitioned(m) == true && Between(wca, previous, m, index) == true && Sized(w, m.tokens)
    requires s.wca.interval > 0 && 0.0 <= s.fraction && index < s.layers && pending == Due(reuse, index, s)
    requires (wca.Some? ==> reuse && index > 0) && |hidden| == |previous|
    requires (index > 0 ==> Outputs(hidden, residual, previous, before, m) == true)
    ensures stop == EnterStop(m, s, reuse, wca, previous, index, w)
    ensures stop.None? ==>
              next == NextState(m, s, reuse, wca, index, w) && now.wca == wca
              && ahead == Due(reuse, index + 1, s)
    ensures stop.None? ==> now.active == Computing(wca, previous)
    ensures stop.None? && index == 0 ==> now.hidden == hidden && now.residual == residual
    ensures stop.None? ==>
              Visited(now, m, s, w) == true && m.tokens - 1 in now.active
              && forall i :: i in now.active ==> i < m.tokens
    ensures stop.None? ==> Between(next, now.active, m, index + 1) == true && (next.Some? ==> reuse)
    ensures stop.None? && index > 0 ==> Entered(now, w, previous, before, m) == true
    ensures stop.None? ==> put == if m.populates then LayerPages(now, index, m) else []
    ensures Begun(put, index) && (!m.populates ==> put == [])
  {
    MandatoryIsActive(m, wca, previous, index);
    var active := Computing(wca, previous);
    var h, r := hidden, residual;
    put := [];
    now, next, ahead := Visit([], [], [], None, [], []), None, pending;
    stop, h, r := EnterRows(m, wca, previous, index, before, w, hidden, residual);
    if stop.Some? { return; }
    if m.populates {
      if !w.statePut { stop := Some(Unwritten); return; }
      put := [StateOf(index, RowsAt(h, m.fixed), RowsAt(r, m.fixed))];
    }
    var attended;
    attended, ahead := Attend(m, s, reuse, wca, previous, index, w, pending);
    if attended.Halted? { stop := Some(attended.stop); return; }
    stop, now, next := None, Visit(active, h, r, wca, attended.fullK, attended.fullV), attended.wca;
    if m.populates { put := put + [KVOf(index, RowsAt(now.fullK, m.fixed), RowsAt(now.fullV, m.fixed))]; }
    if wca.None? { EverythingCounts(m, previous, index); }
  }

  lemma EverythingCounts(m: Prompt, previous: seq<nat>, index: nat)
    requires Between(None, previous, m, index)
    ensures |previous| == m.tokens
  {}

  lemma LastRow(m: Prompt, previous: seq<nat>, hidden: seq<Vector>, residual: seq<Vector>, w: Weather)
    requires Outputs(hidden, residual, previous, w, m) && m.tokens > 0 && m.tokens - 1 in previous
    ensures Scatter(m.tokens, previous, hidden)[m.tokens - 1] == w.hidden[m.tokens - 1]
  {}

  // ---- the whole run, as a function of what it finds ------------------------------------

  /** The adaptation state and the previously computed tokens before a layer. */
  function StateAt(m: Prompt, s: Settings, reuse: bool, ws: seq<Weather>, layer: nat): (r: (Option<A.Adapt>, seq<nat>))
    requires AllSized(ws, m.tokens) && s.wca.interval > 0 && 0.0 <= s.fraction && layer <= |ws|
    ensures !reuse ==> r.0.None?
  {
    if layer == 0 then (None, Everything(m.tokens))
    else
      var before := StateAt(m, s, reuse, ws, layer - 1);
      (NextState(m, s, reuse, before.0, layer - 1, ws[layer - 1]), Computing(before.0, before.1))
  }

  ghost predicate AtState(m: Prompt, s: Settings, reuse: bool, ws: seq<Weather>, layer: nat, wca: Option<A.Adapt>,
                          previous: seq<nat>)
    requires AllSized(ws, m.tokens) && s.wca.interval > 0 && 0.0 <= s.fraction && layer <= |ws|
  {
    StateAt(m, s, reuse, ws, layer) == (wca, previous)
  }

  /** Why the loop stops at a layer, if it does. */
  function StopAt(m: Prompt, s: Settings, reuse: bool, ws: seq<Weather>, layer: nat): Option<Stop>
    requires AllSized(ws, m.tokens) && s.wca.interval > 0 && 0.0 <= s.fraction && layer < |ws|
  {
    var before := StateAt(m, s, reuse, ws, layer);
    var stop := EnterStop(m, s, reuse, before.0, before.1, layer, ws[layer]);
    if stop.Some? then stop else if !ws[layer].finite then Some(Nonfinite) else None
  }

  /** The layers passed so far computed the tokens of their states, and nothing stopped them. */
  ghost predicate Follows(trace: seq<Visit>, m: Prompt, s: Settings, reuse: bool, ws: seq<Weather>)
    requires AllSized(ws, m.tokens) && s.wca.interval > 0 && 0.0 <= s.fraction
  {
    && |trace| <= |ws|
    && forall l :: 0 <= l < |trace| ==> FollowsAt(trace[l], m, s, reuse, ws, l) == true
  }

  ghost predicate FollowsAt(now: Visit, m: Prompt, s: Settings, reuse: bool, ws: seq<Weather>, l: nat)
    requires AllSized(ws, m.tokens) && s.wca.interval > 0 && 0.0 <= s.fraction && l < |ws|
  {
    && now.wca == StateAt(m, s, reuse, ws, l).0 && now.active == StateAt(m, s, reuse, ws, l + 1).1
    && StopAt(m, s, reuse, ws, l).None?
  }

  lemma FollowsOn(trace: seq<Visit>, now: Visit, m: Prompt, s: Settings, reuse: bool, ws: seq<Weather>)
    requires AllSized(ws, m.tokens) && s.wca.interval > 0 && 0.0 <= s.fraction
    requires Follows(trace, m, s, reuse, ws) == true && |trace| < |ws|
    requires FollowsAt(now, m, s, reuse, ws, |trace|) == true
    ensures Follows(trace + [now], m, s, reuse, ws)
  {
    forall l | 0 <= l <= |trace| ensures FollowsAt((trace + [now])[l], m, s, reuse, ws, l) == true {
      if l < |trace| { assert (trace + [now])[l] == trace[l]; }
    }
  }

  /** The loop's variables before the layer `index`. */
  datatype Progress = Progress(
    wca: Option<A.Adapt>,
    previous: seq<nat>,
    hidden: seq<Vector>,
    residual: seq<Vector>,
    trace: seq<Visit>,
    pending: Option<nat>,
    pages: seq<Page>)

  /** What the layers passed so far did. */
  ghost predicate Trailing(trace: seq<Visit>, m: Prompt, s: Settings, reuse: bool, ws: seq<Weather>)
    requires AllSized(ws, m.tokens) && s.wca.interval > 0 && 0.0 <= s.fraction
  {
    AllVisited(trace, m, s, ws) == true && AllEntered(trace, m, ws) == true && Follows(trace, m, s, reuse, ws) == true
  }

  lemma TrailsOn(trace: seq<Visit>, now: Visit, m: Prompt, s: Settings, reuse: bool, ws: seq<Weather>)
    requires AllSized(ws, m.tokens) && s.wca.interval > 0 && 0.0 <= s.fraction
    requires Trailing(trace, m, s, reuse, ws) && |trace| < |ws| && Visited(now, m, s, ws[|trace|]) == true
    requires |trace| > 0 ==> Entered(now, ws[|trace|], trace[|trace| - 1].active, ws[|trace| - 1], m) == true
    requires FollowsAt(now, m, s, reuse, ws, |trace|) == true
    ensures Trailing(trace + [now], m, s, reuse, ws) == true
  {
    VisitedGrows(trace, now, m, s, ws);
    EnteredGrows(trace, now, m, ws);
    FollowsOn(trace, now, m, s, reuse, ws);
  }

  ghost predicate Rolling(p: Progress, index: nat, m: Prompt, s: Settings, reuse: bool, embeddings: seq<Vector>,
                          ws: seq<Weather>)
    requires AllSized(ws, m.tokens) && s.wca.interval > 0 && 0.0 <= s.fraction
  {
    && index == |p.trace| <= |ws| == s.layers && AtState(m, s, reuse, ws, index, p.wca, p.previous) == true
    && p.pending == Due(reuse, index, s) && p.pages == PagesOf(p.trace, m) && |p.hidden| == |p.previous|
    && Between(p.wca, p.previous, m, index) == true && (p.wca.Some? ==> reuse && index > 0)
    && Trailing(p.trace, m, s, reuse, ws) == true && Carried(p, index, m, embeddings, ws) == true
  }

  /** The rows that the loop carries: the embeddings at first, then what the last layer left. */
  ghost predicate Carried(p: Progress, index: nat, m: Prompt, embeddings: seq<Vector>, ws: seq<Weather>)
    requires index == |p.trace| <= |ws|
  {
    if index == 0 then p.hidden == embeddings && p.residual == []
    else
      && m.tokens > 0 && m.tokens - 1 in p.previous && p.trace[0].hidden == embeddings && p.trace[0].residual == []
      && p.trace[index - 1].active == p.previous
      && Outputs(p.hidden, p.residual, p.previous, ws[index - 1], m) == true
  }

  /** A layer that was not stopped followed its state and leaves the next. */
  lemma StateOn(now: Visit, next: Option<A.Adapt>, previous: seq<nat>, m: Prompt, s: Settings, reuse: bool,
                ws: seq<Weather>, index: nat)
    requires AllSized(ws, m.tokens) && s.wca.interval > 0 && 0.0 <= s.fraction && index < |ws|
    requires StopAt(m, s, reuse, ws, index).None? && AtState(m, s, reuse, ws, index, now.wca, previous)
    requires now.active == Computing(now.wca, previous) && next == NextState(m, s, reuse, now.wca, index, ws[index])
    ensures FollowsAt(now, m, s, reuse, ws, index) == true
    ensures AtState(m, s, reuse, ws, index + 1, next, now.active) == true
  {}

  lemma RollsOn(p: Progress, q: Progress, index: nat, m: Prompt, s: Settings, reuse: bool, embeddings: seq<Vector>,
                ws: seq<Weather>, now: Visit, put: seq<Page>)
    requires AllSized(ws, m.tokens) == true && s.wca.interval > 0 && 0.0 <= s.fraction
    requires Rolling(p, index, m, s, reuse, embeddings, ws) && index < |ws|
    requires Visited(now, m, s, ws[index]) == true && m.tokens - 1 in now.active
             && (index == 0 ==> now.hidden == embeddings && now.residual == [])
    requires FollowsAt(now, m, s, reuse, ws, index) == true
             && AtState(m, s, reuse, ws, index + 1, q.wca, q.previous) == true
    requires Between(q.wca, q.previous, m, index + 1) == true && (q.wca.Some? ==> reuse)
    requires index > 0 ==> Entered(now, ws[index], p.previous, ws[index - 1], m) == true
    requires put == if m.populates then LayerPages(now, index, m) else []
    requires q.previous == now.active && q.trace == p.trace + [now] && q.pages == p.pages + put
    requires q.pending == Due(reuse, index + 1, s) && |q.hidden| == |q.previous|
    requires Outputs(q.hidden, q.residual, q.previous, ws[index], m) == true
    ensures Rolling(q, index + 1, m, s, reuse, embeddings, ws) == true
  {
    PagesGrow(p.trace, now, m);
    TrailsOn(p.trace, now, m, s, reuse, ws);
    CarriesOn(p, q, index, m, embeddings, ws, now);
  }

  lemma CarriesOn(p: Progress, q: Progress, index: nat, m: Prompt, embeddings: seq<Vector>, ws: seq<Weather>,
                  now: Visit)
    requires index == |p.trace| < |ws| && Carried(p, index, m, embeddings, ws) && m.tokens > 0
    requires m.tokens - 1 in now.active && (index == 0 ==> now.hidden == embeddings && now.residual == [])
    requires q.trace == p.trace + [now] && q.previous == now.active
    requires Outputs(q.hidden, q.residual, q.previous, ws[index], m) == true
    ensures Carried(q, index + 1, m, embeddings, ws) == true
  {}

  function Left(p: Progress, now: Visit, next: Option<A.Adapt>, w: Weather, pending: Option<nat>,
        put: seq<Page>): Progress
    requires (forall i :: i in now.active ==> i < |w.hidden|) && |w.hidden| == |w.residual|
  {
    Progress(next, now.active, Pick(w.hidden, now.active), Pick(w.residual, now.active), p.trace + [now], pending,
          p.pages + put)
  }

  lemma Leaves(active: seq<nat>, w: Weather, m: Prompt)
    requires Sized(w, m.tokens) && forall i :: i in active ==> i < m.tokens
    ensures Outputs(Pick(w.hidden, active), Pick(w.residual, active), active, w, m) == true
  {}

  /** One round of the layer loop. */
  method Round(m: Prompt, s: Settings, reuse: bool, p: Progress, index: nat, ghost embeddings: seq<Vector>,
               ws: seq<Weather>)
    returns (stop: Option<Stop>, next: Progress, put: seq<Page>)
    requires Partitioned(m) == true && m.tokens > 0 && s.wca.interval > 0 && 0.0 <= s.fraction
    requires AllSized(ws, m.tokens) && Rolling(p, index, m, s, reuse, embeddings, ws) == true && index < |ws|
    ensures stop == StopAt(m, s, reuse, ws, index)
    ensures stop.None? ==> Rolling(next, index + 1, m, s, reuse, embeddings, ws) == true
    ensures Begun(put, index) && (!m.populates ==> put == [])
  {
    var w := ws[index];
    var before := if index > 0 then ws[index - 1] else w;
    var halt, now, wca, ahead;
    halt, now, wca, ahead,
        put := EnterLayer(m, s, reuse, p.wca, p.previous, index, before, w, p.hidden, p.residual, p.pending);
    if halt.Some? { return halt, p, put; }
    if !w.finite { return Some(Nonfinite), p, put; }
    StateOn(now, wca, p.previous, m, s, reuse, ws, index);
    Leaves(now.active, w, m);
    stop, next := None, Left(p, now, wca, w, ahead, put);
    RollsOn(p, next, index, m, s, reuse, embeddings, ws, now, put);
  }

  /** Whether the leftovers of the identity can be removed, the first load is accepted, and
      the commit marker is stored. */
  datatype Edges = Edges(recovers: bool, first: bool, commits: bool)

  lemma RollsFrom(p: Progress, m: Prompt, s: Settings, reuse: bool, embeddings: seq<Vector>, ws: seq<Weather>)
    requires p == Progress(None, Everything(m.tokens), embeddings, [], [], Due(reuse, 0, s), [])
    requires AllSized(ws, m.tokens) && s.wca.interval > 0 && 0.0 <= s.fraction && |ws| == s.layers
             && |embeddings| == m.tokens
    ensures Rolling(p, 0, m, s, reuse, embeddings, ws) == true
  {
    AllTokens(m.tokens);
  }

  /** What has been stored when the loop ends at a layer. */
  lemma PagesLeft(p: Progress, index: nat, m: Prompt, s: Settings, reuse: bool, embeddings: seq<Vector>,
        ws: seq<Weather>,
                  put: seq<Page>)
    requires AllSized(ws, m.tokens) == true && s.wca.interval > 0 && 0.0 <= s.fraction
    requires Rolling(p, index, m, s, reuse, embeddings, ws) && Begun(put, index) && (!m.populates ==> put == [])
    ensures index == |p.trace| && p.pages == PagesOf(p.trace, m) && PagesOf(p.trace, m) <= p.pages + put
    ensures Begun((p.pages + put)[|PagesOf(p.trace, m)|..], |p.trace|) && (!m.populates ==> p.pages + put == [])
    ensures p.trace != [] ==> p.trace[0].hidden == embeddings && p.trace[0].residual == []
  {
    assert (p.pages + put)[|p.pages|..] == put;
  }

  /** The layer loop of `_prefill`: it stops exactly at the first layer that `StopAt`
      names. Every layer computes the tokens selected by the updates before it, and a
      population has stored the pages of every layer passed, in order. */
  method Layers(m: Prompt, s: Settings, reuse: bool, embeddings: seq<Vector>, ws: seq<Weather>)
    returns (stop: Option<Stop>, trace: seq<Visit>, output: seq<Vector>, pages: seq<Page>)
    requires Partitioned(m) == true && s.wca.interval > 0 && 0.0 <= s.fraction && m.tokens > 0
    requires |embeddings| == m.tokens && 0 < |ws| == s.layers && AllSized(ws, m.tokens)
    ensures stop.Some? ==> |trace| < |ws| && stop == StopAt(m, s, reuse, ws, |trace|)
    ensures Follows(trace, m, s, reuse, ws) && AllVisited(trace, m, s, ws) && AllEntered(trace, m, ws)
    ensures trace != [] ==> trace[0].hidden == embeddings && trace[0].residual == []
    ensures stop.None? ==> |trace| == |ws| && |output| == m.tokens && pages == PagesOf(trace, m)
    ensures stop.None? ==> Sized(ws[|ws| - 1], m.tokens) && output[m.tokens - 1] == ws[|ws| - 1].hidden[m.tokens - 1]
    ensures PagesOf(trace, m) <= pages && Begun(pages[|PagesOf(trace, m)|..], |trace|) && (!m.populates ==> pages == [])
  {
    var p := Progress(None, Everything(m.tokens), embeddings, [], [], Due(reuse, 0, s), []);
    RollsFrom(p, m, s, reuse, embeddings, ws);
    output := [];
    for index := 0 to |ws|
      invariant Rolling(p, index, m, s, reuse, embeddings, ws) == true
    {
      var halt, next, put := Round(m, s, reuse, p, index, embeddings, ws);
      if halt.Some? {
        PagesLeft(p, index, m, s, reuse, embeddings, ws, put);
        return halt, p.trace, [], p.pages + put;
      }
      p := next;
    }
    PagesLeft(p, |ws|, m, s, reuse, embeddings, ws, []);
    LastRow(m, p.previous, p.hidden, p.residual, ws[|ws| - 1]);
    stop, trace, output, pages := None, p.trace, Scatter(m.tokens, p.previous, p.hidden), p.pages;
  }

  /** `_prefill`, around the loop: leftovers go first in a population, the first cache page
      is asked for, and a population is committed last. */
  method Prefill(m: Prompt, s: Settings, reuse: bool, embeddings: seq<Vector>, ws: seq<Weather>, edges: Edges)
    returns (stop: Option<Stop>, trace: seq<Visit>, output: seq<Vector>, pages: seq<Page>, committed: bool)
    requires Partitioned(m) == true && s.wca.interval > 0 && 0.0 <= s.fraction && m.tokens > 0
    requires |embeddings| == m.tokens && 0 < |ws| == s.layers && AllSized(ws, m.tokens)
    ensures m.populates && !edges.recovers ==> stop == Some(Unrecovered) && trace == []
    ensures (m.populates ==> edges.recovers) && reuse && !edges.first ==> stop == Some(Unsubmitted) && trace == []
    ensures (m.populates ==> edges.recovers) && (reuse ==> edges.first) && |trace| < |ws| ==>
              stop.Some? && stop == StopAt(m, s, reuse, ws, |trace|)
    ensures |trace| == |ws| ==> stop == if m.populates && !edges.commits then Some(Uncommitted) else None
    ensures |trace| <= |ws| && Follows(trace, m, s, reuse, ws) && AllVisited(trace, m, s, ws)
            && AllEntered(trace, m, ws)
    ensures trace != [] ==> trace[0].hidden == embeddings && trace[0].residual == []
    ensures stop.None? ==> |trace| == |ws| && |output| == m.tokens
    ensures stop.None? ==> Sized(ws[|ws| - 1], m.tokens) && output[m.tokens - 1] == ws[|ws| - 1].hidden[m.tokens - 1]
    ensures PagesOf(trace, m) <= pages && Begun(pages[|PagesOf(trace, m)|..], |trace|)
    ensures committed <==> m.populates && stop.None?
    ensures committed ==> pages == PagesOf(trace, m) && |pages| == 2 * s.layers
  {
    trace, output, pages, committed := [], [], [], false;
    if m.populates && !edges.recovers { stop := Some(Unrecovered); return; }
    var halt, pending := Prefetch(reuse, 0, s, None, edges.first);
    if halt.Some? { stop := halt; return; }
    stop, trace, output, pages := Layers(m, s, reuse, embeddings, ws);
    if stop.None? && m.populates {
      if edges.commits { committed := true; } else { stop := Some(Uncommitted); }
    }
  }

  /** What can stop a prefill at a layer: pages that cannot be read, asked for or written,
      and numbers that are not finite; without reuse or population only the latter. */
  lemma StopsAreKnown(m: Prompt, s: Settings, reuse: bool, ws: seq<Weather>, layer: nat)
    requires AllSized(ws, m.tokens) && s.wca.interval > 0 && 0.0 <= s.fraction && layer < |ws|
    ensures var stop := StopAt(m, s, reuse, ws, layer);
            stop.Some? ==> && stop.value in {Numeric, Unread, Unsubmitted, Unwritten, Nonfinite}
                           && (!reuse && !m.populates ==> stop.value == Nonfinite)
                           && (stop.value == Unwritten ==> m.populates)
                           && (stop.value in {Numeric, Unread, Unsubmitted} ==> reuse)
  {}
}
