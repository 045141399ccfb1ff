/** A prefilled arena through any number of decodes, each after the block table
    has grown: a full gather stays the dense K/V. */
module PagedDecodes {
  import opened Basics
  import opened Paged
  import opened PagedCalls
  import opened PagedSafety
  import opened PagedTheorems
  import opened PagedRuns
  import opened PagedPrefill
  import opened PagedRelocation

  /** One decode step: the block table the scheduler now reports, and the new token's record. */
  datatype Growth = Growth(entries: seq<int>, row: Row)

  ghost function Retabled(p: Arena, entries: seq<int>): Arena {
    Next(p, UpdateTable(entries))
  }

  /** The scheduler's promise: the row it reports keeps every token where it is
      and has a fresh slot for the next one. */
  ghost predicate Accepts(p: Arena, g: Growth) {
    var token := |p.canonical|;
    && CanUpdateTable(p, g.entries)
    && CanonicalSlot(g.entries, p.geo.blockSize, token).Some?
    && CanonicalSlot(g.entries, p.geo.blockSize, token).value !in p.canonical.Values
  }

  ghost function Appended(p: Arena, id: nat, g: Growth): Arena {
    DecodeCall(Retabled(p, g.entries), id, |p.canonical|, g.row, {})
  }

  ghost predicate AcceptsAll(p: Arena, id: nat, gs: seq<Growth>)
    decreases |gs|
  {
    gs == [] || (Accepts(p, gs[0]) && AcceptsAll(Appended(p, id, gs[0]), id, gs[1..]))
  }

  ghost function AppendedAll(p: Arena, id: nat, gs: seq<Growth>): Arena
    decreases |gs|
  {
    if gs == [] then p else AppendedAll(Appended(p, id, gs[0]), id, gs[1..])
  }

  /** The dense K/V: one record per token, in order. */
  function Dense(rows: seq<Row>): map<nat, Row> {
    map t: nat | t < |rows| :: rows[t]
  }

  function Records(gs: seq<Growth>): seq<Row> {
    seq(|gs|, i requires 0 <= i < |gs| => gs[i].row)
  }

  lemma RetabledRests(p: Arena, g: Growth)
    requires Resting(p) && Accepts(p, g)
    ensures Retabled(p, g.entries) == p.(table := g.entries) && Resting(Retabled(p, g.entries))
  {
    StepGood(p, UpdateTable(g.entries));
  }

  lemma AppendedRests(p: Arena, id: nat, g: Growth)
    requires Resting(p) == true && Accepts(p, g) == true
    ensures var q := Appended(p, id, g);
            && Resting(q) == true && q.logical == p.logical[|p.canonical| := g.row]
            && |q.canonical| == |p.canonical| + 1
            && q.holeReuses + q.nativeBinds == p.holeReuses + p.nativeBinds + 1
  {
    RetabledRests(p, g);
    DecodeRests(Retabled(p, g.entries), id, |p.canonical|, g.row);
    assert |p.canonical| !in p.canonical by { Part(p, Names); }
    CanonicalCount(p, Appended(p, id, g));
  }

  lemma CanonicalCount(p: Arena, q: Arena)
    requires |p.canonical| !in p.canonical && q.canonical.Keys == p.canonical.Keys + {|p.canonical|}
    ensures |q.canonical| == |p.canonical| + 1
  {
    assert |q.canonical| == |q.canonical.Keys| && |p.canonical| == |p.canonical.Keys|;
  }

  lemma DenseMore(rows: seq<Row>, row: Row)
    ensures Dense(rows)[|rows| := row] == Dense(rows + [row])
  {}

  /** Any number of decodes later, the arena holds the dense K/V, and every
      decode either reused a hole or bound its native slot. */
  lemma {:induction false} DecodesStayDense(p: Arena, id: nat, gs: seq<Growth>, rows: seq<Row>)
    requires Resting(p) == true && AcceptsAll(p, id, gs) == true && p.logical == Dense(rows) && |p.canonical| == |rows|
    ensures var q := AppendedAll(p, id, gs);
            && Resting(q) == true && q.logical == Dense(rows + Records(gs)) && |q.canonical| == |rows| + |gs|
            && q.holeReuses + q.nativeBinds == p.holeReuses + p.nativeBinds + |gs|
    decreases |gs|
  {
    if gs == [] {
      assert rows + Records(gs) == rows;
    } else {
      var q := Appended(p, id, gs[0]);
      AppendedRests(p, id, gs[0]);
      DenseMore(rows, gs[0].row);
      RecordsMore(rows, gs);
      DecodesStayDense(q, id, gs[1..], rows + [gs[0].row]);
    }
  }

  lemma RecordsMore(rows: seq<Row>, gs: seq<Growth>)
    requires gs != []
    ensures rows + [gs[0].row] + Records(gs[1..]) == rows + Records(gs)
  {}

  /** How a layer may have been prefilled. */
  datatype Order =
    | Whole(id: nat)
    | LoadedFirst(ids: (nat, nat, nat), chosen: set<nat>)
    | RelocatedFirst(move: Move, steps: seq<Step>, calls: (nat, nat))

  ghost predicate Permitted(p: Arena, order: Order, cached: map<nat, Row>, fused: map<nat, Row>) {
    match order
    case Whole(_) => fused == map[]
    case LoadedFirst(_, chosen) => chosen <= fused.Keys
    case RelocatedFirst(m, es, _) =>
      && Startable(p, m) && (forall e :: e in es ==> Ends(e, m)) && m.rows.Keys <= fused.Keys
      && Awaited(Replay(Started(p, m), es), m) && m.callback !in Replay(Started(p, m), es).slide.ops
  }

  /** The arena after the layer: the whole K/V at once, or cached rows and fused
      rows in either load order. */
  ghost function Prefilled(p: Arena, order: Order, cached: map<nat, Row>, fused: map<nat, Row>): Arena {
    match order
    case Whole(id) => WholeFirst(p, id, cached)
    case LoadedFirst(ids, chosen) => LoadFirst(p, ids, cached, fused, chosen)
    case RelocatedFirst(m, es, ids) => RelocateFirst(p, m, es, ids, cached, fused)
  }

  lemma PrefilledIsDense(p: Arena, order: Order, cached: map<nat, Row>, fused: map<nat, Row>)
    requires FreshArena(p) == true && cached.Keys == p.canonical.Keys && fused.Keys <= p.canonical.Keys
    requires Permitted(p, order, cached, fused)
    ensures var q := Prefilled(p, order, cached, fused);
            Resting(q) == true && q.logical == cached + fused && q.canonical == p.canonical && !q.decoded
  {
    match order
    case Whole(_) => WholeIsDense(p, order, cached, fused);
    case LoadedFirst(_, _) => LoadedFirstIsDense(p, order, cached, fused);
    case RelocatedFirst(_, _, _) => RelocatedFirstIsDense(p, order, cached, fused);
  }

  lemma WholeIsDense(p: Arena, order: Order, cached: map<nat, Row>, fused: map<nat, Row>)
    requires FreshArena(p) == true && cached.Keys == p.canonical.Keys && order.Whole? && fused == map[]
    ensures var q := Prefilled(p, order, cached, fused);
            Resting(q) == true && q.logical == cached + fused && q.canonical == p.canonical && !q.decoded
  {
    WholeFirstIsDense(p, order.id, cached, fused);
  }

  lemma LoadedFirstIsDense(p: Arena, order: Order, cached: map<nat, Row>, fused: map<nat, Row>)
    requires FreshArena(p) == true && cached.Keys == p.canonical.Keys && fused.Keys <= p.canonical.Keys
    requires order.LoadedFirst? && order.chosen <= fused.Keys
    ensures var q := Prefilled(p, order, cached, fused);
            Resting(q) == true && q.logical == cached + fused && q.canonical == p.canonical && !q.decoded
  {
    LoadFirstIsDense(p, order.ids, cached, fused, order.chosen);
  }

  lemma RelocatedFirstIsDense(p: Arena, order: Order, cached: map<nat, Row>, fused: map<nat, Row>)
    requires FreshArena(p) == true && cached.Keys == p.canonical.Keys && fused.Keys <= p.canonical.Keys
    requires order.RelocatedFirst? && Permitted(p, order, cached, fused) == true
    ensures var q := Prefilled(p, order, cached, fused);
            Resting(q) == true && q.logical == cached + fused && q.canonical == p.canonical && !q.decoded
  {
    RelocateFirstIsDense(p, order.move, order.steps, order.calls, cached, fused);
  }

  /** At a layer of a prefill and after any number of decodes, a gather of all
      tokens is granted and returns the dense K/V: cached rows for inactive fixed
      tokens, fused rows for active ones, then the decoded rows. */
  lemma FullGatherIsDense(p: Arena, order: Order, cached: map<nat, Row>, fused: map<nat, Row>, dense: seq<Row>,
                          id: nat, gs: seq<Growth>, positions: seq<nat>, got: seq<Row>)
    requires FreshArena(p) == true && cached.Keys == p.canonical.Keys && fused.Keys <= p.canonical.Keys
    requires Permitted(p, order, cached, fused)
    requires cached + fused == Dense(dense)
    requires AcceptsAll(Prefilled(p, order, cached, fused), id, gs) == true
    requires positions == seq(|dense| + |gs|, i => i)
    ensures var q := AppendedAll(Prefilled(p, order, cached, fused), id, gs);
            && GatherGranted(q, Elements(positions)) == true && NoLoadFailed(q) == true
            && (ReadsThrough(q, positions, got) ==> got == dense + Records(gs))
  {
    var q0 := Prefilled(p, order, cached, fused);
    PrefilledIsDense(p, order, cached, fused);
    DenseCount(p, cached, fused, dense);
    DecodesThenGather(q0, id, gs, dense, positions, got);
  }

  /** In particular from the arena that the constructor makes, if it is owned alone. */
  lemma NewArenaGathersDense(blocks: nat, blockSize: Size, table: seq<int>, n: nat, maxSelected: nat,
                             mem: map<nat, Row>, p: Arena, order: Order, cached: map<nat, Row>,
                             fused: map<nat, Row>, dense: seq<Row>, id: nat, gs: seq<Growth>, positions: seq<nat>,
                             got: seq<Row>)
    requires Addressed(mem, blocks, blockSize, maxSelected)
    requires NewArena(blocks, blockSize, table, n, maxSelected, {}, mem).Some?
    requires p == NewArena(blocks, blockSize, table, n, maxSelected, {}, mem).value
    requires cached.Keys == p.canonical.Keys && fused.Keys <= p.canonical.Keys
    requires Permitted(p, order, cached, fused) && cached + fused == Dense(dense)
    requires AcceptsAll(Prefilled(p, order, cached, fused), id, gs) == true
    requires positions == seq(|dense| + |gs|, i => i)
    ensures |dense| == n
    ensures var q := AppendedAll(Prefilled(p, order, cached, fused), id, gs);
            && GatherGranted(q, Elements(positions)) == true && NoLoadFailed(q) == true
            && (ReadsThrough(q, positions, got) ==> got == dense + Records(gs))
  {
    assert FreshArena(p) == true by { NewIsFresh(blocks, blockSize, table, n, maxSelected, mem, p); }
    DenseCount(p, cached, fused, dense);
    assert p.geo.promptLength == n;
    FullGatherIsDense(p, order, cached, fused, dense, id, gs, positions, got);
  }

  lemma DecodesThenGather(p: Arena, id: nat, gs: seq<Growth>, dense: seq<Row>, positions: seq<nat>, got: seq<Row>)
    requires Resting(p) == true && AcceptsAll(p, id, gs) == true && p.logical == Dense(dense)
    requires |p.canonical| == |dense|
    requires positions == seq(|dense| + |gs|, i => i)
    ensures var q := AppendedAll(p, id, gs);
            && GatherGranted(q, Elements(positions)) == true && NoLoadFailed(q) == true
            && (ReadsThrough(q, positions, got) ==> got == dense + Records(gs))
  {
    DecodesStayDense(p, id, gs, dense);
    GatherIsDense(AppendedAll(p, id, gs), dense + Records(gs), positions, got);
  }

  lemma GatherIsDense(q: Arena, dense: seq<Row>, positions: seq<nat>, got: seq<Row>)
    requires Resting(q) == true && q.logical == Dense(dense) && |q.canonical| == |dense|
    requires positions == seq(|dense|, i => i)
    ensures GatherGranted(q, Elements(positions)) == true && NoLoadFailed(q) == true
    ensures ReadsThrough(q, positions, got) ==> got == dense
  {
    assert forall t: nat :: t in q.canonical <==> t < |q.canonical| by { Part(q, Names); }
    FullGather(q, positions, got);
  }

  lemma DenseCount(p: Arena, cached: map<nat, Row>, fused: map<nat, Row>, dense: seq<Row>)
    requires Good(p) && cached.Keys == p.canonical.Keys && fused.Keys <= p.canonical.Keys
    requires cached + fused == Dense(dense)
    ensures |p.canonical| == |dense|
  {
    assert (cached + fused).Keys == p.canonical.Keys;
    CountBelow(p.canonical, dense);
  }

  lemma CountBelow(canonical: map<nat, nat>, dense: seq<Row>)
    requires canonical.Keys == Dense(dense).Keys
    ensures |canonical| == |dense|
  {
    assert canonical.Keys == Below(|dense|);
    assert |canonical| == |canonical.Keys|;
  }
}
