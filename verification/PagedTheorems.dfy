/** The promises of the paged arena, for every run of its steps. */
module PagedTheorems {
  import opened Basics
  import opened Slide
  import opened SlideSafety
  import opened SlideTheorems
  import opened Paged
  import opened PagedCalls
  import opened PagedSafety

  /** Every step keeps the invariant. */
  lemma StepGood(p: Arena, e: Step)
    requires Good(p)
    ensures Good(Next(p, e))
  {
    if Enabled(p, e) == true {
      match e
      case BeginWrite(id, rows) => BeginWriteGood(p, id, rows);
      case BeginReady(id, rows) => BeginReadyGood(p, id, rows);
      case BeginUpdate(id, rows) => BeginUpdateGood(p, id, rows);
      case BeginDecode(id, token, row) => BeginDecodeGood(p, id, token, row);
      case BeginPromote(id, order, rows, future, callback) => BeginPromoteGood(p, id, order, rows, future, callback);
      case Scribble(now) => ScribbleGood(p, now);
      case Land(id) => LandGood(p, id);
      case Finish(id) => FinishGood(p, id);
      case PublishDecode(id) => PublishDecodeGood(p, id);
      case AbortDecode(id) => AbortDecodeGood(p, id);
      case ReleaseDecode(id) => ReleaseDecodeGood(p, id);
      case PublishPromotion(id) => PublishPromotionGood(p, id);
      case AbortPromotion(id) => AbortPromotionGood(p, id);
      case ReleasePromotion(id) => ReleasePromotionGood(p, id);
      case NewLoad(load, state) => NewLoadGood(p, load, state);
      case Resolve(load, ok) => ResolveGood(p, load, ok);
      case LoadCallback(id) => LoadCallbackGood(p, id);
      case PinRows(id, tokens) => PinGood(p, id, tokens);
      case UnpinRows(id) => UnpinGood(p, id);
      case UpdateTable(entries) => UpdateTableGood(p, entries);
      case Retirement => RetirementGood(p);
    }
  }

  lemma {:induction false} ReplayGood(p: Arena, es: seq<Step>)
    requires Good(p)
    ensures Good(Replay(p, es))
    decreases |es|
  {
    if es == [] {
    } else {
      StepGood(p, es[0]);
      ReplayGood(Next(p, es[0]), es[1..]);
    }
  }

  // ---- a new arena ------------------------------------------------------------

  lemma BelowCapacity(blocks: nat, blockSize: Size, block: nat, offset: nat)
    requires block < blocks && offset < blockSize
    ensures block * blockSize + offset < NativeSlots(blocks, blockSize)
  {
    Times(block, blocks, blockSize);
  }

  lemma CanonicalBelow(blocks: nat, blockSize: Size, table: seq<int>, token: nat)
    requires ValidTable(blocks, table) && CanonicalSlot(table, blockSize, token).Some?
    ensures CanonicalSlot(table, blockSize, token).value < NativeSlots(blocks, blockSize)
  {
    BelowCapacity(blocks, blockSize, table[token / blockSize], token % blockSize);
  }

  /** A finite map with as many values as keys is injective. */
  lemma {:induction false} ManyValues(m: map<nat, nat>)
    requires |m.Values| == |m|
    ensures Injective(m)
  {
    forall t, u | t in m && u in m && t != u ensures m[t] != m[u] {
      if m[t] == m[u] {
        var rest := m - {t};
        assert rest.Keys == m.Keys - {t};
        FewerValues(rest);
        assert forall x :: x in m.Values ==> x in rest.Values by {
          forall x | x in m.Values ensures x in rest.Values {
            var v :| v in m && m[v] == x;
            if v == t { assert rest[u] == x; } else { assert rest[v] == x; }
          }
        }
        SubsetSize(m.Values, rest.Values);
        assert false;
      }
    }
  }

  lemma {:induction false} FewerValues(m: map<nat, nat>)
    ensures |m.Values| <= |m|
    decreases |m|
  {
    if m == map[] {
      assert m.Values == {};
    } else {
      var t :| t in m;
      var rest := m - {t};
      assert rest.Keys == m.Keys - {t};
      FewerValues(rest);
      assert m.Values <= rest.Values + {m[t]} by {
        forall x | x in m.Values ensures x in rest.Values + {m[t]} {
          var v :| v in m && m[v] == x;
          if v != t { assert rest[v] == x; }
        }
      }
      SubsetSize(m.Values, rest.Values + {m[t]});
    }
  }

  ghost predicate Addressed(mem: map<nat, Row>, blocks: nat, blockSize: Size, maxSelected: nat) {
    forall s: nat :: s in mem <==> s < NativeSlots(blocks, blockSize) + maxSelected
  }

  lemma PromptCanon(blocks: nat, blockSize: Size, table: seq<int>, n: nat, shared: set<nat>, maxSelected: nat)
    requires CanCreate(blocks, blockSize, table, n, shared)
    ensures var canonical := Prompt(table, blockSize, n);
            Canon(Geometry(blocks, blockSize, n, maxSelected), NativeSlots(blocks, blockSize), canonical, table)
            && |canonical| == n
  {
    var canonical := Prompt(table, blockSize, n);
    assert canonical.Keys == Below(n);
    ManyValues(canonical);
    forall t | t in canonical ensures canonical[t] < NativeSlots(blocks, blockSize) {
      CanonicalBelow(blocks, blockSize, table, t);
    }
  }

  lemma NewSlide(blocks: nat, blockSize: Size, table: seq<int>, n: nat, maxSelected: nat, shared: set<nat>,
                 mem: map<nat, Row>)
    requires Addressed(mem, blocks, blockSize, maxSelected)
    requires NewArena(blocks, blockSize, table, n, maxSelected, shared, mem).Some?
    ensures var p := NewArena(blocks, blockSize, table, n, maxSelected, shared, mem).value;
            var floor := NativeSlots(blocks, blockSize);
            && Safe(p.slide) && p.slide.core.slots == p.canonical == Prompt(table, blockSize, n)
            && p.slide.core.floor == p.slide.base == floor && p.slide.core.maxSlots == Some(floor + maxSelected)
            && p.slide.core.shared <= p.canonical.Values && p.slide.core.vacated == {} && p.slide.ops == map[]
  {
    var floor, canonical := NativeSlots(blocks, blockSize), Prompt(table, blockSize, n);
    NewIsCreated(blocks, blockSize, table, n, maxSelected, shared, mem);
    PromptBelow(blocks, blockSize, table, n);
    CreatedSlide(canonical, shared, floor, floor + maxSelected,
                 NewArena(blocks, blockSize, table, n, maxSelected, shared, mem).value.slide);
  }

  lemma CreatedSlide(canonical: map<nat, nat>, shared: set<nat>, floor: nat, limit: nat, s: System)
    requires Create(canonical, shared, floor, Some(limit)) == Some(s)
    requires forall x :: x in canonical.Values ==> x < floor
    ensures Safe(s) && s.core.slots == canonical && s.core.floor == s.base == floor && s.core.maxSlots == Some(limit)
    ensures s.core.shared <= canonical.Values && s.core.vacated == {} && s.ops == map[]
  {
    CreateEstablishes(canonical, shared, floor, Some(limit));
    SafeCloses(s);
  }

  lemma NewIsCreated(blocks: nat, blockSize: Size, table: seq<int>, n: nat, maxSelected: nat, shared: set<nat>,
                     mem: map<nat, Row>)
    requires Addressed(mem, blocks, blockSize, maxSelected)
    requires NewArena(blocks, blockSize, table, n, maxSelected, shared, mem).Some?
    ensures var p := NewArena(blocks, blockSize, table, n, maxSelected, shared, mem).value;
            var floor, canonical := NativeSlots(blocks, blockSize), Prompt(table, blockSize, n);
            p.canonical == canonical && Create(canonical, shared, floor, Some(floor + maxSelected)) == Some(p.slide)
  {}

  lemma PromptBelow(blocks: nat, blockSize: Size, table: seq<int>, n: nat)
    requires ValidTable(blocks, table) && forall t :: 0 <= t < n ==> CanonicalSlot(table, blockSize, t).Some?
    ensures forall x :: x in Prompt(table, blockSize, n).Values ==> x < NativeSlots(blocks, blockSize)
  {
    var canonical := Prompt(table, blockSize, n);
    forall x | x in canonical.Values ensures x < NativeSlots(blocks, blockSize) {
      var t :| t in canonical && canonical[t] == x;
      CanonicalBelow(blocks, blockSize, table, t);
    }
  }

  lemma NewRows(blocks: nat, blockSize: Size, table: seq<int>, n: nat, maxSelected: nat, shared: set<nat>,
                mem: map<nat, Row>)
    requires Addressed(mem, blocks, blockSize, maxSelected)
    requires NewArena(blocks, blockSize, table, n, maxSelected, shared, mem).Some?
    ensures var q := NewArena(blocks, blockSize, table, n, maxSelected, shared, mem).value;
            && q == Arena(q.slide, mem, Geometry(blocks, blockSize, n, maxSelected), table, Prompt(table, blockSize, n),
                    {}, {},
                          map[], {}, map[], false, false, 0, 0, None, map[], map[], q.logical)
            && q.logical.Keys == q.canonical.Keys
            && forall t :: t in q.canonical ==> q.canonical[t] in mem && mem[q.canonical[t]] == q.logical[t]
  {
    var q := NewArena(blocks, blockSize, table, n, maxSelected, shared, mem).value;
    forall t | t in q.canonical ensures q.canonical[t] in q.mem {
      CanonicalBelow(blocks, blockSize, table, t);
    }
  }

  /** A new arena implements the records its native blocks hold. */
  lemma NewArenaGood(blocks: nat, blockSize: Size, table: seq<int>, n: nat, maxSelected: nat, shared: set<nat>,
                     mem: map<nat, Row>)
    requires Addressed(mem, blocks, blockSize, maxSelected)
    requires NewArena(blocks, blockSize, table, n, maxSelected, shared, mem).Some?
    ensures Good(NewArena(blocks, blockSize, table, n, maxSelected, shared, mem).value)
  {
    PromptCanon(blocks, blockSize, table, n, shared, maxSelected);
    NewSlide(blocks, blockSize, table, n, maxSelected, shared, mem);
    NewRows(blocks, blockSize, table, n, maxSelected, shared, mem);
    NewGood(NewArena(blocks, blockSize, table, n, maxSelected, shared, mem).value,
          Geometry(blocks, blockSize, n, maxSelected));
  }

  lemma NewGood(q: Arena, geo: Geometry)
    requires q == Arena(q.slide, q.mem, geo, q.table, q.canonical, {}, {}, map[], {}, map[], false, false, 0, 0, None,
               map[], map[], q.logical)
    requires Canon(geo, NativeSlots(geo.blocks, geo.blockSize), q.canonical, q.table)
    requires |q.canonical| == geo.promptLength
    requires Safe(q.slide) && q.slide.core.slots == q.canonical && q.slide.ops == map[]
    requires q.slide.core.floor == q.slide.base == NativeSlots(geo.blocks, geo.blockSize)
    requires q.slide.core.maxSlots == Some(q.slide.base + geo.maxSelected)
    requires q.slide.core.shared <= q.canonical.Values && q.slide.core.vacated == {}
    requires Addressed(q.mem, geo.blocks, geo.blockSize, geo.maxSelected)
    requires q.logical.Keys == q.canonical.Keys
    requires forall t :: t in q.canonical ==> q.canonical[t] in q.mem && q.mem[q.canonical[t]] == q.logical[t]
    ensures Good(q)
  {
    NewLayout(q.slide.core, q.canonical);
    StillGood(q);
  }

  lemma NewLayout(c: Core, canonical: map<nat, nat>)
    requires c.slots == canonical && c.shared <= canonical.Values && c.vacated == {}
    ensures Layout(c, map[], canonical)
  {
    forall t ensures !Extra(map[], t) {}
    forall s | s in canonical.Values ensures Native(map[], canonical, s) {}
  }

  /** An arena nobody uses yet. */
  ghost predicate Still(q: Arena) {
    && Safe(q.slide) && q.slide.ops == map[] && q.jobs == map[] && q.views == map[] && q.callbacks.Keys == {}
    && q.busy == None
    && q.selected == {} && !q.decoded && q.holeReuses == q.nativeBinds == 0 && q.slide.core.slots == q.canonical
    && q.slide.core.vacated == {} && Sizes(q.geo, q.slide.core.floor, q.slide.base, q.slide.core.maxSlots, q.mem.Keys)
    && Canon(q.geo, q.slide.core.floor, q.canonical, q.table) && |q.canonical| == q.geo.promptLength
    && Layout(q.slide.core, map[], q.canonical) && q.logical.Keys == q.canonical.Keys
    && forall t :: t in q.canonical ==> q.canonical[t] in q.mem && q.mem[q.canonical[t]] == q.logical[t]
  }

  predicate AboutCalls(k: Clause) {
    k.Mutex? || k.Distance? || k.Failures? || k.Owners? || k.Writes? || k.Readers?
  }

  lemma StillGood(q: Arena)
    requires Still(q) == true
    ensures Good(q)
  {
    forall k ensures Holds(q, k) == true {
      if AboutCalls(k) { StillQuiet(q, k); } else { StillPlaced(q, k); }
    }
  }

  lemma StillQuiet(q: Arena, k: Clause)
    requires Still(q) == true && AboutCalls(k)
    ensures Holds(q, k) == true
  {
    NoJobs(q.slide.core.slots, q.slide.ops, q.mem, q.selected, q.canonical, q.table, q.geo.blockSize);
    NoCalls(q.mem, q.slide.core.closed);
  }

  lemma StillPlaced(q: Arena, k: Clause)
    requires Still(q) == true && !AboutCalls(k)
    ensures Holds(q, k) == true
  {}

  lemma NoCalls(mem: map<nat, Row>, closed: bool)
    ensures BusyFits(map[], None, {}, {}) && Apart(map[], false) && FailedRetires(map[], closed)
    ensures ViewsFit(map[], map[], mem)
  {}

  // ---- reachable arenas --------------------------------------------------------

  ghost predicate Starts(p: Arena) {
    exists blocks: nat, blockSize: Size, table: seq<int>, n: nat, maxSelected: nat, shared: set<nat>, mem: map<nat,
        Row> ::
      Begins(p, blocks, blockSize, table, n, maxSelected, shared, mem)
  }

  ghost predicate Begins(p: Arena, blocks: nat, blockSize: Size, table: seq<int>, n: nat, maxSelected: nat,
                         shared: set<nat>, mem: map<nat, Row>) {
    && Addressed(mem, blocks, blockSize, maxSelected)
    && NewArena(blocks, blockSize, table, n, maxSelected, shared, mem).Some?
    && p == NewArena(blocks, blockSize, table, n, maxSelected, shared, mem).value
  }

  /** The states an arena made by its constructor can reach, through any steps
      of any calls, loads, readers and device failures. */
  ghost predicate Reached(p: Arena) {
    exists p0: Arena, es: seq<Step> :: Comes(p0, es, p)
  }

  ghost predicate Comes(p0: Arena, es: seq<Step>, p: Arena) {
    Starts(p0) && p == Replay(p0, es)
  }

  lemma ReachedGood(p: Arena)
    requires Reached(p)
    ensures Good(p)
  {
    var p0: Arena, es: seq<Step> :| Comes(p0, es, p);
    StartsGood(p0);
    ReplayGood(p0, es);
  }

  lemma StartsGood(p: Arena)
    requires Starts(p)
    ensures Good(p)
  {
    var blocks: nat, blockSize: Size, table: seq<int>, n: nat, maxSelected: nat, shared: set<nat>, mem: map<nat, Row> :|
      Begins(p, blocks, blockSize, table, n, maxSelected, shared, mem);
    NewArenaGood(blocks, blockSize, table, n, maxSelected, shared, mem);
  }

  lemma {:induction false} ReplayAppend(p: Arena, es: seq<Step>, more: seq<Step>)
    ensures Replay(p, es + more) == Replay(Replay(p, es), more)
    decreases |es|
  {
    if es == [] {
      assert es + more == more;
    } else {
      assert (es + more)[0] == es[0] && (es + more)[1..] == es[1..] + more;
      ReplayAppend(Next(p, es[0]), es[1..], more);
    }
  }

  lemma ReachedStep(p: Arena, e: Step)
    requires Reached(p)
    ensures Reached(Next(p, e)) == true
  {
    var p0: Arena, es: seq<Step> :| Comes(p0, es, p) == true;
    ComesOn(p0, es, p, e);
    ComesReached(p0, es + [e], Next(p, e));
  }

  lemma ComesReached(p0: Arena, es: seq<Step>, p: Arena)
    requires Comes(p0, es, p) == true
    ensures Reached(p) == true
  {}

  lemma ComesOn(p0: Arena, es: seq<Step>, p: Arena, e: Step)
    requires Comes(p0, es, p)
    ensures Comes(p0, es + [e], Next(p, e)) == true
  {
    ReplayAppend(p0, es, [e]);
    ReplayOne(p, e);
  }

  lemma ReplayOne(p: Arena, e: Step)
    ensures Replay(p, [e]) == Next(p, e)
  {
    assert [e][1..] == [];
  }

  // ---- gathers -----------------------------------------------------------------

  /** No device write is in progress where the token lives. */
  ghost predicate Steady(p: Arena, t: nat) {
    t in p.slide.core.slots && !Dirty(p.slide.ops, p.jobs, p.slide.core.slots[t])
  }

  /** What a gather of the token reads. */
  ghost function ReadRow(p: Arena, t: nat): Row
    requires Good(p) && !p.slide.core.closed && Steady(p, t)
  {
    SteadyValue(p, t);
    p.mem[p.slide.core.slots[t]]
  }

  lemma SteadyValue(p: Arena, t: nat)
    requires Good(p) && !p.slide.core.closed && Steady(p, t)
    ensures t in p.logical && p.slide.core.slots[t] in p.mem && p.mem[p.slide.core.slots[t]] == p.logical[t]
  {
    Part(p, Domain);
    Part(p, Contents);
  }

  /** A slot a reader may pin is not being written. */
  lemma UnwrittenSteady(p: Arena, t: nat)
    requires Good(p) && t in p.slide.core.slots && At(p.slide.core.writes, p.slide.core.slots[t]) == 0
    ensures Steady(p, t)
  {
    AllConfined(p);
    assert Counted(p.slide) by { MapInv(p); }
    var x := p.slide.core.slots[t];
    assert At(SlideSafety.Tally(p.slide.core, Write), x) == 0;
    if Dirty(p.slide.ops, p.jobs, x) {
      var i :| i in p.jobs && DirtyBy(p.slide.ops, p.jobs[i], i, x);
      ZeroMeansUnused(p.slide, Write, x, i);
      assert false;
    }
  }

  /** A gather is granted exactly when the arena is open, its tokens are mapped
      and none of their slots is being written; what it then reads is the value
      last assigned to each token. */
  lemma GatherReadsLastAssigned(p: Arena, id: nat, tokens: set<nat>)
    requires Reached(p) && NewCall(p, id)
    ensures var q, c := Next(p, PinRows(id, tokens)), p.slide.core;
            && (q != p <==> !c.closed && tokens <= c.slots.Keys && forall t :: t in tokens ==>
                    At(c.writes, c.slots[t]) == 0)
            && (q != p ==> id in q.views
                           && forall t :: t in tokens ==>
                                 t in p.logical && c.slots[t] in q.views[id]
                                 && q.views[id][c.slots[t]] == p.logical[t])
  {
    ReachedGood(p);
    var q, c := Next(p, PinRows(id, tokens)), p.slide.core;
    PinCases(p, id, tokens);
    if q != p {
      forall t | t in tokens
        ensures t in p.logical && c.slots[t] in q.views[id] && q.views[id][c.slots[t]] == p.logical[t]
      {
        assert c.slots[t] in SlotsOf(c, tokens);
        UnwrittenSteady(p, t);
        SteadyValue(p, t);
      }
    }
  }

  lemma PinnableCases(c: Core, tokens: set<nat>)
    requires tokens <= c.slots.Keys
    ensures CanPin(c, SlotsOf(c, tokens))
            <==> !c.closed && forall t :: t in tokens ==> At(c.writes, c.slots[t]) == 0
  {
    forall t | t in tokens ensures c.slots[t] in SlotsOf(c, tokens) && c.slots[t] in c.slots.Values {}
  }

  lemma PinCases(p: Arena, id: nat, tokens: set<nat>)
    requires NewCall(p, id)
    ensures var q, c := Next(p, PinRows(id, tokens)), p.slide.core;
            if !c.closed && tokens <= c.slots.Keys && forall t :: t in tokens ==> At(c.writes, c.slots[t]) == 0
            then q != p && q.views == p.views[id := View(p.mem, SlotsOf(c, tokens))] && q.mem == p.mem else q == p
  {
    var s, c := p.slide, p.slide.core;
    PinEffect(s, id, tokens);
    if tokens <= c.slots.Keys { PinnableCases(c, tokens); }
  }

  /** Whatever happens while a reader holds its pins, its slots keep the rows
      the tokens had when it pinned them. */
  lemma ReaderSeesSnapshot(p: Arena, id: nat, tokens: set<nat>, es: seq<Step>)
    requires Reached(p) && NewCall(p, id) && Next(p, PinRows(id, tokens)) != p && UnpinRows(id) !in es
    ensures var r := Replay(Next(p, PinRows(id, tokens)), es);
            forall t :: t in tokens ==> t in p.slide.core.slots && t in p.logical && p.slide.core.slots[t] in r.mem
                                        && r.mem[p.slide.core.slots[t]] == p.logical[t]
  {
    GatherReadsLastAssigned(p, id, tokens);
    ReachedStep(p, PinRows(id, tokens));
    ReachedGood(Next(p, PinRows(id, tokens)));
    ViewStays(Next(p, PinRows(id, tokens)), id, es);
  }

  lemma {:induction false} ViewStays(p: Arena, id: nat, es: seq<Step>)
    requires Good(p) && id in p.views && UnpinRows(id) !in es
    ensures var r := Replay(p, es);
            id in r.views && r.views[id] == p.views[id]
            && forall s :: s in p.views[id] ==> s in r.mem && r.mem[s] == p.views[id][s]
    decreases |es|
  {
    if es == [] {
      Part(p, Readers);
    } else {
      StepGood(p, es[0]);
      StepKeepsView(p, es[0], id);
      ViewStays(Next(p, es[0]), id, es[1..]);
    }
  }

  lemma StepKeepsView(p: Arena, e: Step, id: nat)
    requires Good(p) && id in p.views && e != UnpinRows(id)
    ensures id in Next(p, e).views && Next(p, e).views[id] == p.views[id]
  {
    if e.PinRows? || e.UnpinRows? {
      assert id in p.slide.ops by { Part(p, Readers); }
      ReaderKeepsView(p, e, id);
    } else {
      StepFrame(p, e);
    }
  }

  lemma ReaderKeepsView(p: Arena, e: Step, id: nat)
    requires id in p.views && id in p.slide.ops && e != UnpinRows(id) && (e.PinRows? || e.UnpinRows?)
    ensures id in Next(p, e).views && Next(p, e).views[id] == p.views[id]
  {}

  /** A call that enters, ends or records its outcome. */
  predicate Progress(e: Step) {
    e.BeginWrite? || e.BeginReady? || e.PublishDecode? || e.AbortDecode? || e.PublishPromotion? || e.AbortPromotion?
    || e.ReleasePromotion? || e.LoadCallback?
  }

  predicate Bookkeeping(e: Step) {
    e.BeginUpdate? || e.BeginPromote? || e.BeginDecode? || e.Finish? || e.ReleaseDecode?
  }

  /** Which steps touch readers, memory and assigned rows. */
  lemma StepFrame(p: Arena, e: Step)
    ensures !e.PinRows? && !e.UnpinRows? ==> Next(p, e).views == p.views
    ensures !e.Scribble? && !e.Land? ==> Next(p, e).mem == p.mem
    ensures !e.Land? && !e.PublishPromotion? && !e.PublishDecode? ==> Next(p, e).logical == p.logical
  {
    if Enabled(p, e) == true {
      if Bookkeeping(e) { BusyFrame(p, e); }
      else if Progress(e) { ProgressFrame(p, e); }
      else if e.PinRows? || e.UnpinRows? { ReaderFrame(p, e); }
      else { LightFrame(p, e); }
    } else {
      assert Next(p, e) == p;
    }
  }

  lemma ProgressFrame(p: Arena, e: Step)
    requires Enabled(p, e) == true && Progress(e)
    ensures Next(p, e).views == p.views && Next(p, e).mem == p.mem
    ensures !e.PublishPromotion? && !e.PublishDecode? ==> Next(p, e).logical == p.logical
  {
    if e.BeginWrite? || e.BeginReady? { BeginFrame(p, e); }
    else if e.PublishPromotion? || e.AbortPromotion? { PromotionFrame(p, e); }
    else { ReturnFrame(p, e); }
  }

  lemma BeginFrame(p: Arena, e: Step)
    requires Enabled(p, e) == true && (e.BeginWrite? || e.BeginReady?)
    ensures Next(p, e).views == p.views && Next(p, e).mem == p.mem && Next(p, e).logical == p.logical
  {}

  lemma PromotionFrame(p: Arena, e: Step)
    requires Enabled(p, e) == true && (e.PublishPromotion? || e.AbortPromotion?)
    ensures Next(p, e).views == p.views && Next(p, e).mem == p.mem
    ensures e.AbortPromotion? ==> Next(p, e).logical == p.logical
  {}

  lemma ReturnFrame(p: Arena, e: Step)
    requires Enabled(p, e) == true && (e.PublishDecode? || e.AbortDecode? || e.ReleasePromotion? || e.LoadCallback?)
    ensures Next(p, e).views == p.views && Next(p, e).mem == p.mem
    ensures !e.PublishDecode? ==> Next(p, e).logical == p.logical
  {}

  lemma ReaderFrame(p: Arena, e: Step)
    requires Enabled(p, e) == true && (e.PinRows? || e.UnpinRows?)
    ensures Next(p, e).mem == p.mem && Next(p, e).logical == p.logical
  {}

  lemma LightFrame(p: Arena, e: Step)
    requires Enabled(p, e) == true && !Bookkeeping(e) && !Progress(e) && !e.PinRows? && !e.UnpinRows?
    ensures Next(p, e).views == p.views
    ensures !e.Scribble? && !e.Land? ==> Next(p, e).mem == p.mem
    ensures !e.Land? ==> Next(p, e).logical == p.logical
  {}

  lemma BusyFrame(p: Arena, e: Step)
    requires Enabled(p, e) == true && Bookkeeping(e)
    ensures Quiet(p, Next(p, e))
  {}

  // ---- what a step may change ------------------------------------------------------

  /** The rows a step assigns to tokens. */
  ghost function Assigned(p: Arena, e: Step): map<nat, Row> {
    if !Enabled(p, e) || p.slide.core.closed then map[]
    else match e
      case Land(id) => if p.slide.ops[id].Guard? then p.jobs[id].assign else map[]
      case PublishPromotion(id) => if p.slide.ops[id].phase.Writing? then p.jobs[id].assign else map[]
      case PublishDecode(id) => if p.slide.ops[id].step.Writing? then p.jobs[id].assign else map[]
      case _ => map[]
  }

  lemma LogicalStep(p: Arena, e: Step)
    requires Good(p) && !p.slide.core.closed
    ensures Next(p, e).logical == p.logical + Assigned(p, e)
  {
    if Enabled(p, e) == true {
      match e
      case PublishPromotion(id) => PublicationTakes(p, id);
      case PublishDecode(id) => DecodePublicationTakes(p, id);
      case _ => OtherSteps(p, e);
    } else {
      RefusedAssignsNothing(p, e);
    }
  }

  lemma AssignsNothing(p: Arena, e: Step)
    requires !e.Land? && !e.PublishPromotion? && !e.PublishDecode?
    ensures p.logical + Assigned(p, e) == p.logical
  {}

  lemma RefusedAssignsNothing(p: Arena, e: Step)
    requires !Enabled(p, e)
    ensures Next(p, e) == p && p.logical + Assigned(p, e) == p.logical
  {}

  lemma OtherSteps(p: Arena, e: Step)
    requires !p.slide.core.closed && Enabled(p, e) == true && !e.PublishPromotion? && !e.PublishDecode?
    ensures Next(p, e).logical == p.logical + Assigned(p, e)
  {
    if e.Land? {
      assert Next(p, e).logical == p.logical + Assigned(p, e);
    } else {
      StepFrame(p, e);
      AssignsNothing(p, e);
    }
  }

  lemma PublicationTakes(p: Arena, id: nat)
    requires Good(p) && !p.slide.core.closed && Enabled(p, PublishPromotion(id)) == true
    ensures Next(p, PublishPromotion(id)).logical == p.logical + Assigned(p, PublishPromotion(id))
  {
    if p.slide.ops[id].phase.Writing? {
      assert Publishable(p.slide.core, p.slide.ops[id]) by { MapInv(p); SourceUnmoved(p.slide, id); }
      assert Apply(p.slide, PromotePublish(id)).ops[id] != p.slide.ops[id];
    }
  }

  lemma DecodePublicationTakes(p: Arena, id: nat)
    requires Good(p) && !p.slide.core.closed && Enabled(p, Step.PublishDecode(id)) == true
    ensures Next(p, Step.PublishDecode(id)).logical == p.logical + Assigned(p, Step.PublishDecode(id))
  {
    if p.slide.ops[id].step.Writing? {
      MapSound(p, id);
      assert Apply(p.slide, Event.DecodePublish(id)).ops[id] != p.slide.ops[id];
    }
  }

  /** Relocations, mirrors and reused holes never disturb another token: a step
      changes what is read for a token exactly to the row it assigns, if any. */
  lemma StepChangesOnlyAssigned(p: Arena, e: Step, t: nat)
    requires Good(p) && Good(Next(p, e)) && !p.slide.core.closed && !Next(p, e).slide.core.closed
    requires Steady(Next(p, e), t)
    ensures t in Assigned(p, e) ==> ReadRow(Next(p, e), t) == Assigned(p, e)[t]
    ensures t !in Assigned(p, e) && Steady(p, t) ==> ReadRow(Next(p, e), t) == ReadRow(p, t)
  {
    LogicalStep(p, e);
    SteadyValue(Next(p, e), t);
    if Steady(p, t) { SteadyValue(p, t); }
  }

  // ---- the sidecar is written before it is mapped ---------------------------------------

  /** When a publication moves a token into the sidecar, that slot is one the
      promotion's own completed device writes went to. */
  lemma SidecarWrittenFirst(p: Arena, e: Step, t: nat)
    requires Good(p) && (e.PublishPromotion? || e.PublishDecode?)
    requires t in Next(p, e).slide.core.slots && Next(p, e).slide.core.slots[t] >= p.slide.core.floor
    requires t in p.slide.core.slots ==> p.slide.core.slots[t] != Next(p, e).slide.core.slots[t]
    ensures e.PublishPromotion? && e.id in p.jobs && p.jobs[e.id].landed
    ensures Next(p, e).slide.core.slots[t] in p.jobs[e.id].plan
  {
    if e.PublishDecode? { PublishedTokenIsNative(p, e.id, t); }
    else { PublishedRowIsWritten(p, e.id, t); }
  }

  lemma PublishedTokenIsNative(p: Arena, id: nat, t: nat)
    requires Good(p)
    ensures var q := Next(p, Step.PublishDecode(id)).slide.core.slots;
            t in q && q[t] >= p.slide.core.floor ==> t in p.slide.core.slots && p.slide.core.slots[t] == q[t]
  {
    if id in p.slide.ops && p.slide.ops[id].Decode? { MapSound(p, id); }
  }

  lemma PublishedRowIsWritten(p: Arena, id: nat, t: nat)
    requires Good(p)
    ensures var q := Next(p, PublishPromotion(id)).slide.core.slots;
            t in q && (t in p.slide.core.slots ==> p.slide.core.slots[t] != q[t]) ==>
              id in p.jobs && p.jobs[id].landed && q[t] in p.jobs[id].plan
  {
    if Enabled(p, PublishPromotion(id)) == true {
      PublishCases(p, id);
      if p.slide.ops[id].phase.Writing? { DestinationsWritten(p, id, t); }
    }
  }

  lemma DestinationsWritten(p: Arena, id: nat, t: nat)
    requires Good(p) && id in p.slide.ops && p.slide.ops[id].Promotion? && p.slide.ops[id].phase.Writing?
    ensures id in p.jobs && (t in p.slide.ops[id].dest ==> p.slide.ops[id].dest[t] in p.jobs[id].plan)
  {
    PromotionFacts(p, id);
    if t in p.slide.ops[id].dest { assert p.slide.ops[id].dest[t] in p.slide.ops[id].dest.Values; }
  }

  // ---- ownership of written slots -----------------------------------------------------

  lemma CanonicalOwned(table: seq<int>, blockSize: Size, token: nat)
    requires CanonicalSlot(table, blockSize, token).Some?
    ensures Owned(table, blockSize, CanonicalSlot(table, blockSize, token).value)
  {
    var i, offset := token / blockSize, token % blockSize;
    QuotientOf(table[i], blockSize, offset);
    assert 0 <= i < |table| && table[i] >= 0;
  }

  lemma CanonicalValuesOwned(p: Arena, s: nat)
    requires Good(p) && s in p.canonical.Values
    ensures Owned(p.table, p.geo.blockSize, s)
  {
    Part(p, Names);
    var t :| t in p.canonical && p.canonical[t] == s;
    CanonicalOwned(p.table, p.geo.blockSize, t);
  }

  /** Device writes go only to blocks the caller's table names or to the arena's
      own sidecar, and never to a slot shared with another request; retired or not. */
  lemma WritesStayOwned(p: Arena, id: nat, s: nat)
    requires Reached(p) && id in p.jobs && s in p.jobs[id].plan && id in p.slide.ops && Active(p.slide.ops[id])
    ensures s !in p.slide.core.shared
    ensures s < NativeSlots(p.geo.blocks, p.geo.blockSize) + p.geo.maxSelected
    ensures s < NativeSlots(p.geo.blocks, p.geo.blockSize) ==> Owned(p.table, p.geo.blockSize, s)
  {
    ReachedGood(p);
    assert p.slide.core.floor == NativeSlots(p.geo.blocks, p.geo.blockSize)
           && p.slide.core.maxSlots == Some(p.slide.core.floor + p.geo.maxSelected) by { Part(p, Space); }
    PlanPlaced(p, id, s);
    if s < p.slide.core.floor { PlanOwned(p, id, s); }
  }

  lemma PlanPlaced(p: Arena, id: nat, s: nat)
    requires Good(p) && id in p.jobs && s in p.jobs[id].plan && id in p.slide.ops && p.slide.core.maxSlots.Some?
    ensures s !in p.slide.core.shared && s < p.slide.core.maxSlots.value
  {
    AllConfined(p);
    MapInv(p);
    PlanAddressed(p.slide, id);
    SoundOp(p.slide, id);
  }

  lemma PlanOwned(p: Arena, id: nat, s: nat)
    requires Good(p) && id in p.jobs && s in p.jobs[id].plan && id in p.slide.ops && Active(p.slide.ops[id])
    requires s < p.slide.core.floor
    ensures Owned(p.table, p.geo.blockSize, s)
  {
    AllConfined(p);
    match p.slide.ops[id]
    case Guard(guarded, _) =>
      Part(p, Owners);
      CanonicalValuesOwned(p, s);
    case Promotion(_, dest, _, _, _) =>
      PromotionFacts(p, id);
      assert false;
    case Decode(token, chosen, native, _, _) =>
      DecodeFacts(p, id);
      CanonicalOwned(p.table, p.geo.blockSize, token);
      if s != native { CanonicalValuesOwned(p, s); }
  }

  /** Memory changes only where some call's device writes may be running. */
  lemma MemoryChangesInsidePlans(p: Arena, e: Step, s: nat)
    requires Reached(p) && s in p.mem
    ensures Next(p, e).mem.Keys == p.mem.Keys
    ensures Next(p, e).mem[s] != p.mem[s] ==>
              exists id :: id in p.jobs && s in p.jobs[id].plan && !p.jobs[id].landed && id in p.slide.ops
                  && Active(p.slide.ops[id])
  {
    ReachedGood(p);
    StepFrame(p, e);
    if Enabled(p, e) && e.Land? { LandTouched(p, e.id); }
    if Next(p, e).mem.Keys == p.mem.Keys && Next(p, e).mem[s] != p.mem[s] && Dirty(p.slide.ops, p.jobs, s) {
      var id :| id in p.jobs && DirtyBy(p.slide.ops, p.jobs[id], id, s);
    }
  }

  // ---- decode ------------------------------------------------------------------------

  /** No call holds a native slot that carries no token. */
  lemma StrangerIdle(p: Arena, x: nat)
    requires Good(p) && Idle(p) && !p.slide.core.closed && x < p.slide.core.floor && x !in p.canonical.Values
    ensures Free(p.slide.core, x)
  {
    IdleSettled(p);
    Settled(p);
    Part(p, Homes);
    forall id | id in p.slide.ops ensures x !in Uses(p.slide.ops[id], Read) && x !in Uses(p.slide.ops[id], Hold) {
      StrangerUnused(p, id, x);
    }
    NobodyHolds(p.slide, x) by { MapInv(p); }
  }

  lemma StrangerUnused(p: Arena, id: nat, x: nat)
    requires Good(p) && Idle(p) && !p.slide.core.closed && x < p.slide.core.floor && x !in p.canonical.Values
    requires id in p.slide.ops
    ensures x !in Uses(p.slide.ops[id], Read) + Uses(p.slide.ops[id], Hold)
  {
    IdleSettled(p);
    if x in Uses(p.slide.ops[id], Read) + Uses(p.slide.ops[id], Hold) {
      HolderNative(p, id, x);
      assert false;
    }
  }

  lemma HolderNative(p: Arena, id: nat, x: nat)
    requires Good(p) && !p.slide.core.closed && x < p.slide.core.floor && id in p.slide.ops
    requires x in Uses(p.slide.ops[id], Read) + Uses(p.slide.ops[id], Hold)
    ensures Native(p.slide.ops, p.canonical, x)
  {
    Part(p, Homes);
  }

  lemma NobodyHolds(s: System, x: nat)
    requires Counted(s) && forall id :: id in s.ops ==> x !in Uses(s.ops[id], Read) && x !in Uses(s.ops[id], Hold)
    ensures At(s.core.pins, x) == 0 && At(s.core.inflight, x) == 0
  {
    assert Holders(s.ops, Read, x) == {} && Holders(s.ops, Hold, x) == {};
    assert At(SlideSafety.Tally(s.core, Read), x) == 0 && At(SlideSafety.Tally(s.core, Hold), x) == 0;
  }

  lemma NextTokenNew(p: Arena)
    requires Good(p) && Idle(p) && !p.slide.core.closed && PromotionsDone(p)
    ensures NewToken(p.slide.core, |p.canonical|)
  {
    IdleSettled(p);
    Settled(p);
    Part(p, Names);
    forall id | id in p.slide.ops ensures Tokens(p.slide.ops[id]) == {} {}
    assert Reserved(p.slide) by { MapInv(p); }
  }

  /** The arena has taken up a decode into the given slots. */
  ghost predicate Decoding(q: Arena, id: nat, token: nat, chosen: nat, native: nat, row: Row) {
    && q.busy == Some(id) && id in q.slide.ops && q.slide.ops[id].Decode?
    && q.slide.ops[id].token == token && q.slide.ops[id].chosen == chosen && q.slide.ops[id].native == native
    && id in q.jobs && q.jobs[id] == Job(Append, map[chosen := row, native := row], map[token := row], false)
  }

  /** The next decode of an open arena always finds a destination: the lowest
      native hole that nobody uses, or else the token's own native slot. */
  lemma DecodeFindsDestination(p: Arena, id: nat, token: nat, row: Row)
    requires Reached(p) && !p.slide.core.closed && Enabled(p, BeginDecode(id, token, row))
    ensures var native := CanonicalSlot(p.table, p.geo.blockSize, token).value;
            var holes := Holes(p.slide.core, Some(p.slide.core.floor));
            Decoding(Next(p, BeginDecode(id, token, row)), id, token, if holes != {} then Least(holes)
                  else native, native, row)
  {
    ReachedGood(p);
    var native := CanonicalSlot(p.table, p.geo.blockSize, token).value;
    DestinationFound(p, token);
    AppendingOpens(p, id, token, native, row);
  }

  lemma DestinationFound(p: Arena, token: nat)
    requires Good(p) && Idle(p) && !p.slide.core.closed && CanDecode(p, token)
    ensures var native := CanonicalSlot(p.table, p.geo.blockSize, token).value;
            var holes := Holes(p.slide.core, Some(p.slide.core.floor));
            Destination(p.slide.core, token, native, true) == Ok(if holes != {} then Least(holes) else native)
  {
    var native := CanonicalSlot(p.table, p.geo.blockSize, token).value;
    assert native < p.slide.core.floor by {
      Part(p, Names); Part(p, Space);
      CanonicalBelow(p.geo.blocks, p.geo.blockSize, p.table, token);
    }
    StrangerIdle(p, native);
    NextTokenNew(p);
  }

  /** Tokens are numbered without gaps, and every decoded one was given a hole or
      its native slot. */
  lemma DecodesAreCounted(p: Arena)
    requires Reached(p)
    ensures forall t: nat :: t in p.canonical <==> t < |p.canonical|
    ensures p.holeReuses + p.nativeBinds == |p.canonical| - p.geo.promptLength
  {
    ReachedGood(p);
    Part(p, Names);
    Part(p, Clause.Tally);
  }

  // ---- sidecar capacity ------------------------------------------------------------------

  /** A promotion that copies every token succeeds exactly when the sidecar has
      that many slots left. */
  lemma {:induction false} AssignFits(c: Core, order: seq<nat>, load: bool, dest: map<nat, nat>, taken: set<nat>)
    requires (forall t :: t in order ==> t in c.slots) && c.maxSlots.Some? && c.next <= c.maxSlots.value
    ensures Assign(c, order, load, false, dest, taken).ok <==> |order| <= |c.unused| + (c.maxSlots.value - c.next)
    decreases |order|
  {
    if order == [] {
    } else {
      match Fresh(c)
      case None =>
      case Some(p) =>
        var was := c.slots[order[0]];
        assert c.unused != {} ==> |p.1.unused| == |c.unused| - 1;
        AssignFits(p.1, order[1..], load, dest[order[0] := p.0], if p.0 != was then taken + {p.0} else taken);
    }
  }

  /** The selected token a sidecar slot is used for. */
  ghost predicate Serves(s: System, t: nat, x: nat) {
    (t in s.core.slots && s.core.slots[t] == x)
    || exists id :: id in s.ops && s.ops[id].Promotion? && s.ops[id].phase.Writing? && t in s.ops[id].dest
          && s.ops[id].dest[t] == x
  }

  lemma ServedBySelected(p: Arena, x: nat) returns (t: nat)
    requires Good(p) && p.slide.base <= x < p.slide.core.next && x !in p.slide.core.unused
    ensures Serves(p.slide, t, x) && t in p.selected
  {
    var c, ops := p.slide.core, p.slide.ops;
    assert Covered(c, p.slide.base, ops) by { MapInv(p); }
    Part(p, Sidecar); Part(p, Space);
    if x in c.slots.Values {
      t :| t in c.slots && c.slots[t] == x;
    } else {
      assert Claimed(ops, x);
      var id :| id in ops && x in Claim(ops[id]);
      PromotionFacts(p, id);
      t :| t in ops[id].dest && ops[id].dest[t] == x;
    }
  }

  lemma ServesOnce(p: Arena, t: nat, x: nat, y: nat)
    requires Good(p) && p.slide.base <= x && p.slide.base <= y && Serves(p.slide, t, x) && Serves(p.slide, t, y)
    ensures x == y
  {
    var c, ops := p.slide.core, p.slide.ops;
    Part(p, Sidecar); Part(p, Space);
    if t in c.slots && c.slots[t] >= c.floor {
      NotMovingTwice(p, t);
    } else {
      var i :| i in ops && ops[i].Promotion? && ops[i].phase.Writing? && t in ops[i].dest && ops[i].dest[t] == x;
      var j :| j in ops && ops[j].Promotion? && ops[j].phase.Writing? && t in ops[j].dest && ops[j].dest[t] == y;
      MovedByOne(p, t, i, j);
    }
  }

  lemma MovedByOne(p: Arena, t: nat, i: nat, j: nat)
    requires Good(p) && i in p.slide.ops && j in p.slide.ops && p.slide.ops[i].Promotion? && p.slide.ops[j].Promotion?
    requires t in p.slide.ops[i].dest && t in p.slide.ops[j].dest
    ensures i == j
  {
    MapSound(p, i);
    MapSound(p, j);
    assert t in Tokens(p.slide.ops[i]) && t in Tokens(p.slide.ops[j]);
    assert OneOwner(p.slide.ops) by { MapInv(p); }
  }

  lemma NotMovingTwice(p: Arena, t: nat)
    requires Good(p) && t in p.slide.core.slots && p.slide.core.slots[t] >= p.slide.core.floor
    ensures forall id :: id in p.slide.ops && p.slide.ops[id].Promotion? && p.slide.ops[id].phase.Writing? ==>
            t !in p.slide.ops[id].dest
  {
    forall id | id in p.slide.ops && p.slide.ops[id].Promotion? && p.slide.ops[id].phase.Writing?
      ensures t !in p.slide.ops[id].dest
    {
      PromotionFacts(p, id);
      Part(p, Sidecar);
    }
  }

  /** No more sidecar slots are in use than tokens have been selected. */
  lemma {:induction false} UsedWithinSelected(p: Arena, used: set<nat>) returns (tokens: set<nat>)
    requires Good(p) && forall x :: x in used ==> p.slide.base <= x < p.slide.core.next && x !in p.slide.core.unused
    ensures tokens <= p.selected && |tokens| == |used|
    ensures forall t :: t in tokens ==> exists x :: x in used && Serves(p.slide, t, x)
    decreases |used|
  {
    if used == {} {
      tokens := {};
    } else {
      var x :| x in used;
      var t := ServedBySelected(p, x);
      var rest := UsedWithinSelected(p, used - {x});
      if t in rest {
        var y :| y in used - {x} && Serves(p.slide, t, y);
        ServesOnce(p, t, x, y);
        assert false;
      }
      tokens := rest + {t};
    }
  }

  /** Sidecar slots the map can still hand out. */
  function Spare(c: Core): int {
    |c.unused| + (if c.maxSlots.Some? then c.maxSlots.value - c.next else 0)
  }

  lemma SpareSidecar(p: Arena)
    requires Good(p)
    ensures p.geo.maxSelected - |p.selected| <= Spare(p.slide.core)
  {
    var c, base := p.slide.core, p.slide.base;
    var used := set x | x in Below(c.next) && base <= x && x !in c.unused;
    var tokens := UsedWithinSelected(p, used);
    SubsetSize(tokens, p.selected);
    assert SlideSafety.Placed(c, base) by { MapInv(p); }
    UsedCount(c, base, used);
    Part(p, Space);
  }

  lemma UsedCount(c: Core, base: nat, used: set<nat>)
    requires base <= c.next && (forall x :: x in c.unused ==> base <= x < c.next)
    requires forall x :: x in used <==> base <= x < c.next && x !in c.unused
    ensures |used| + |c.unused| == c.next - base
  {
    assert Below(c.next) == Below(base) + used + c.unused;
    assert |Below(base) + used| == |Below(base)| + |used|;
  }

  lemma SelectedPending(p: Arena, t: nat)
    requires Good(p) && Idle(p) && t in p.slide.core.pending
    ensures t in p.selected
  {
    IdleSettled(p);
    assert Reserved(p.slide) by { MapInv(p); }
    var id :| id in p.slide.ops && t in Tokens(p.slide.ops[id]);
    assert id in p.jobs by { Part(p, Mutex); }
    JobFit(p, id);
  }

  lemma CanStart(p: Arena, order: seq<nat>, load: LoadState)
    requires Good(p) && Idle(p) && !p.slide.core.closed && !load.LoadFailed?
    requires forall t :: t in order ==> t in p.canonical && t !in p.selected
    ensures MayPromote(p.slide.core, order, load)
  {
    IdleSettled(p);
    Settled(p);
    forall t | t in order ensures t !in p.slide.core.pending {
      if t in p.slide.core.pending { SelectedPending(p, t); }
    }
  }

  lemma Accepts(s: System, id: nat, order: seq<nat>, load: LoadState, callback: nat)
    requires id !in s.ops && callback !in s.ops && id != callback && Distinct(order) && order != []
    requires MayPromote(s.core, order, load)
    ensures id in Apply(s, PromoteBegin(id, order, load, callback, false)).ops
            <==> Assign(s.core, order, load.LoadPending?, false, map[], {}).ok
  {}

  /** A promotion of new tokens is taken up exactly when the sidecar has that many
      slots to spare, and a sidecar as large as the set of selected tokens always has. */
  lemma SidecarSuffices(p: Arena, id: nat, order: seq<nat>, rows: map<nat, Row>, future: Option<nat>, callback: nat)
    requires Reached(p) && Enabled(p, BeginPromote(id, order, rows, future, callback)) && !p.slide.core.closed
    requires order != [] && forall t :: t in order ==> t in p.canonical
    ensures id in Next(p, BeginPromote(id, order, rows, future, callback)).slide.ops <==> |order| <= Spare(p.slide.core)
    ensures |p.selected| + |order| <= p.geo.maxSelected ==> |order| <= Spare(p.slide.core)
  {
    ReachedGood(p);
    SpareSidecar(p);
    TakenUp(p, id, order, rows, future, callback);
  }

  lemma TakenUp(p: Arena, id: nat, order: seq<nat>, rows: map<nat, Row>, future: Option<nat>, callback: nat)
    requires Good(p) && Idle(p) && NewCall(p, id) && NewCall(p, callback) && id != callback && Distinct(order)
    requires rows.Keys == (set t | t in order) && !LoadStatus(p, future).LoadFailed? && !p.slide.core.closed
    requires order != [] && forall t :: t in order ==> t in p.canonical && t !in p.selected
    ensures id in Promoting(p, id, order, rows, future, callback).slide.ops <==> |order| <= Spare(p.slide.core)
  {
    var load := LoadStatus(p, future);
    CanStart(p, order, load);
    Draws(p, order, load);
    Accepts(p.slide, id, order, load, callback);
    Takes(p, id, order, rows, future, callback);
  }

  lemma Draws(p: Arena, order: seq<nat>, load: LoadState)
    requires Good(p) && forall t :: t in order ==> t in p.slide.core.slots
    ensures Assign(p.slide.core, order, load.LoadPending?, false, map[], {}).ok <==> |order| <= Spare(p.slide.core)
  {
    assert p.slide.core.maxSlots.Some? by { Part(p, Space); }
    assert p.slide.core.next <= p.slide.core.maxSlots.value by { MapInv(p); }
    AssignFits(p.slide.core, order, load.LoadPending?, map[], {});
  }

  lemma Takes(p: Arena, id: nat, order: seq<nat>, rows: map<nat, Row>, future: Option<nat>, callback: nat)
    requires Good(p) && NewCall(p, id) && NewCall(p, callback) && id != callback && rows.Keys == set t | t in order
    ensures id in Promoting(p, id, order, rows, future, callback).slide.ops
            <==> id in Apply(p.slide, PromoteBegin(id, order, LoadStatus(p, future), callback, false)).ops
  {
    assert Safe(p.slide) == true by { Part(p, Map); }
    var s := PromotionOpens(p.slide, id, order, LoadStatus(p, future), callback);
    PromotedTakes(p, s, id, order == [], rows, future, callback);
  }

  lemma PromotionOpens(s: System, id: nat, order: seq<nat>, load: LoadState, callback: nat) returns (t: System)
    requires Safe(s) == true && id !in s.ops && id != callback && callback !in s.ops
    ensures t == Apply(s, PromoteBegin(id, order, load, callback, false))
    ensures id in t.ops ==> t.ops[id].Promotion? && t.ops[id].dest.Keys == set t | t in order
  {
    t := Apply(s, PromoteBegin(id, order, load, callback, false));
    var s1 := PromoteEffect(s, id, order, load, callback);
  }

  lemma PromotedTakes(p: Arena, s: System, id: nat, nothing: bool, rows: map<nat, Row>, future: Option<nat>,
                      callback: nat)
    requires id !in p.slide.ops && (id in s.ops ==> s.ops[id].Promotion? && s.ops[id].dest.Keys == rows.Keys)
    ensures id in Promoted(p, s, id, nothing, rows, future, callback).slide.ops <==> id in s.ops
  {}
}
