/** The arena between calls, one call at a time, and a layer of a prefill whose
    baseline is loaded before any selected row is written. */
module PagedPrefill {
  import opened Basics
  import opened Slide
  import opened SlideSafety
  import opened Paged
  import opened PagedCalls
  import opened PagedSafety
  import opened PagedTheorems
  import opened PagedRuns

  /** An open, exclusively owned arena between calls, with no load pending. */
  ghost predicate Resting(p: Arena) {
    && Good(p) && Idle(p) && !p.slide.core.closed && p.slide.ops == map[] && p.slide.core.shared == {}
    && LoadsDone(p) && !p.broken
  }

  lemma NobodyGuards(p: Arena, slots: set<nat>)
    requires Resting(p)
    ensures CanGuard(p.slide.core, slots) && Available(p.slide.core, slots) == slots
    ensures forall x: nat ::
              At(p.slide.core.pins, x) == 0 && At(p.slide.core.inflight, x) == 0
              && At(p.slide.core.writes, x) == 0
  {
    MapInv(p);
    SlideTheorems.EmptyMeansIdle(p.slide);
  }

  /** A baseline write is granted exactly when its checks pass and no outstanding
      call pins, writes or guards one of its slots. A load whose done-callback
      has yet to run is such a call, although a waiter on the load may go on. */
  lemma WriteGrantedExactly(p: Arena, rows: map<nat, Row>)
    requires Good(p)
    ensures WriteGranted(p, rows)
            <==> CanWrite(p, rows) && forall id :: id in p.slide.ops ==>
                Image(p.canonical, rows.Keys) !! Uses(p.slide.ops[id], Read) + Uses(p.slide.ops[id], Use.Hold)
  {
    if CanWrite(p, rows) == true {
      assert Counted(p.slide) by { MapInv(p); }
      GuardFree(p.slide, Image(p.canonical, rows.Keys));
    }
  }

  lemma GuardFree(s: System, slots: set<nat>)
    requires Counted(s)
    ensures (forall x :: x in slots ==> At(s.core.pins, x) == 0 && At(s.core.inflight, x) == 0)
            <==> forall id :: id in s.ops ==> slots !! Uses(s.ops[id], Read) + Uses(s.ops[id], Use.Hold)
  {
    if forall id :: id in s.ops ==> slots !! Uses(s.ops[id], Read) + Uses(s.ops[id], Use.Hold) {
      forall x | x in slots ensures At(s.core.pins, x) == 0 && At(s.core.inflight, x) == 0 {
        assert Holders(s.ops, Read, x) == {} && Holders(s.ops, Use.Hold, x) == {};
        assert At(SlideSafety.Tally(s.core, Read), x) == 0 && At(SlideSafety.Tally(s.core, Use.Hold), x) == 0;
      }
    }
    if forall x :: x in slots ==> At(s.core.pins, x) == 0 && At(s.core.inflight, x) == 0 {
      forall id, x | id in s.ops && x in slots ensures x !in Uses(s.ops[id], Read) + Uses(s.ops[id], Use.Hold) {
        assert At(SlideSafety.Tally(s.core, Read), x) == 0 && At(SlideSafety.Tally(s.core, Use.Hold), x) == 0;
        ZeroMeansUnused(s, Read, x, id);
        ZeroMeansUnused(s, Use.Hold, x, id);
      }
    }
  }

  /** What a guarded call with complete copies leaves behind. */
  ghost predicate Settles(p: Arena, q: Arena, assign: map<nat, Row>) {
    && q.slide.ops == p.slide.ops && q.slide.core.slots == p.slide.core.slots
    && q.slide.core.closed == p.slide.core.closed
    && q.slide.core.shared == p.slide.core.shared && q.slide.core.floor == p.slide.core.floor
    && q.canonical == p.canonical && q.table == p.table && q.geo == p.geo && q.futures == p.futures
    && q.loads == p.loads
    && q.broken == p.broken && q.decoded == p.decoded && q.logical == p.logical + assign
    && q.holeReuses == p.holeReuses && q.nativeBinds == p.nativeBinds
  }

  /** A call that has come and gone leaves the map's tokens and calls alone. */
  lemma ComeAndGone(s: System, id: nat, op: Op)
    requires id !in s.ops
    ensures var s' := Leave(Enter(s, s.core, id, op), id);
            && s'.ops == s.ops && s'.base == s.base && s'.core.slots == s.core.slots && s'.core.closed == s.core.closed
            && s'.core.shared == s.core.shared && s'.core.floor == s.core.floor && s'.core.vacated == s.core.vacated
  {
    AddRemove(s.ops, id, op);
  }

  lemma CopiedParts(p: Arena, id: nat, guarded: set<nat>, job: Job)
    ensures var a := Copied(Begun(p, id, guarded, job), id, {});
            && a.slide == Enter(p.slide, p.slide.core, id, Guard(guarded, p.slide.core.generation))
            && a == p.(slide := a.slide, mem := a.mem, busy := a.busy, jobs := a.jobs,
                    logical := p.logical + job.assign)
  {}

  lemma ExitedAll(p: Arena, a: Arena, id: nat, op: Op, assign: map<nat, Row>)
    requires NewCall(p, id) && op.Guard? && a.slide == Enter(p.slide, p.slide.core, id, op)
    requires a == p.(slide := a.slide, mem := a.mem, busy := a.busy, jobs := a.jobs, logical := p.logical + assign)
    ensures Settles(p, Exited(a, id), assign) == true
    ensures Exited(a, id).baselineReady == p.baselineReady && Exited(a, id).selected == p.selected
  {
    assert Apply(a.slide, GuardExit(id)) == Leave(a.slide, id);
    ComeAndGone(p.slide, id, op);
  }

  lemma CopiedAll(p: Arena, id: nat, guarded: set<nat>, job: Job)
    requires NewCall(p, id)
    ensures var q := Exited(Copied(Begun(p, id, guarded, job), id, {}), id);
            Settles(p, q, job.assign) == true && q.baselineReady == p.baselineReady && q.selected == p.selected
  {
    CopiedParts(p, id, guarded, job);
    ExitedAll(p, Copied(Begun(p, id, guarded, job), id, {}), id, Guard(guarded, p.slide.core.generation), job.assign);
  }

  lemma CallIs(p: Arena, id: nat, guarded: set<nat>, job: Job)
    ensures var q := Exited(Copied(Begun(p, id, guarded, job), id, {}), id);
            GuardedCall(p, id, guarded, job, {})
            == match job.kind
               case Baseline => q.(baselineReady := q.baselineReady + Covering(p.canonical, job.plan))
               case Ready => q.(selected := q.selected + job.assign.Keys)
               case _ => q
  {
    assert job.plan.Keys !! {};
  }

  lemma GuardedSettles(p: Arena, id: nat, guarded: set<nat>, job: Job)
    requires NewCall(p, id)
    ensures Settles(p, GuardedCall(p, id, guarded, job, {}), job.assign) == true
    ensures var q := GuardedCall(p, id, guarded, job, {});
            && q.baselineReady == p.baselineReady + (if job.kind.Baseline? then Covering(p.canonical, job.plan) else {})
            && q.selected == p.selected + (if job.kind.Ready? then job.assign.Keys else {})
  {
    CopiedAll(p, id, guarded, job);
    CallIs(p, id, guarded, job);
    MarkedSettles(p, Exited(Copied(Begun(p, id, guarded, job), id, {}), id), GuardedCall(p, id, guarded, job, {}),
          job.assign);
  }

  lemma MarkedSettles(p: Arena, q: Arena, r: Arena, assign: map<nat, Row>)
    requires Settles(p, q, assign) && r == q.(baselineReady := r.baselineReady, selected := r.selected)
    ensures Settles(p, r, assign) == true
  {}

  // ---- one call on a resting arena ------------------------------------------------------------

  lemma StillResting(p: Arena, q: Arena, assign: map<nat, Row>)
    requires Resting(p) && Good(q) && Idle(q) && Settles(p, q, assign)
    ensures Resting(q)
  {}

  lemma WriteRests(p: Arena, id: nat, rows: map<nat, Row>)
    requires Resting(p) && !p.decoded && rows.Keys <= p.canonical.Keys
    ensures var q := WriteCall(p, id, rows, {});
            && WriteGranted(p, rows) && Resting(q) && Settles(p, q, Unmoved(p, rows)) == true
            && q.baselineReady == p.baselineReady + rows.Keys && q.selected == p.selected
  {
    var slots := Image(p.canonical, rows.Keys);
    NobodyGuards(p, slots);
    WriteIsSteps(p, id, rows, {});
    GuardedSettles(p, id, slots, BaselineJob(p, rows));
    CoversItsRows(p, rows);
    StillResting(p, WriteCall(p, id, rows, {}), Unmoved(p, rows));
  }

  lemma CoversItsRows(p: Arena, rows: map<nat, Row>)
    requires Good(p) && rows.Keys <= p.canonical.Keys
    ensures Covering(p.canonical, Paged.Placed(p.canonical, rows)) == rows.Keys
  {
    Part(p, Names);
    PlacedFacts(p.canonical, rows);
  }

  lemma ReadyRests(p: Arena, id: nat, rows: map<nat, Row>)
    requires Resting(p) && !p.decoded && rows.Keys <= p.canonical.Keys && rows.Keys !! p.selected
    requires |p.baselineReady| == p.geo.promptLength
    requires forall t :: t in rows ==> t in p.slide.core.slots && p.slide.core.slots[t] == p.canonical[t]
    ensures var q := ReadyCall(p, id, rows, {});
            && ReadyGranted(p, rows) && Resting(q) && Settles(p, q, rows) == true
            && q.baselineReady == p.baselineReady && q.selected == p.selected + rows.Keys
  {
    var slots := Image(p.canonical, rows.Keys);
    NobodyGuards(p, slots);
    ReadyIsSteps(p, id, rows, {});
    GuardedSettles(p, id, slots, ReadyJob(p, rows));
    ReadyIsCall(p, id, rows);
    StillResting(p, ReadyCall(p, id, rows, {}), rows);
  }

  lemma ReadyIsCall(p: Arena, id: nat, rows: map<nat, Row>)
    requires !p.slide.core.closed && LoadsDone(p) && !p.broken && p.slide.ops == map[] && !p.decoded
    requires rows.Keys <= p.canonical.Keys && rows.Keys !! p.selected && |p.baselineReady| == p.geo.promptLength
    requires forall t :: t in rows ==> t in p.slide.core.slots && p.slide.core.slots[t] == p.canonical[t]
    requires CanGuard(p.slide.core, Image(p.canonical, rows.Keys))
    ensures ReadyGranted(p, rows)
    ensures ReadyCall(p, id, rows, {}) == GuardedCall(p, id, Image(p.canonical, rows.Keys), ReadyJob(p, rows), {})
  {}

  lemma UpdateRests(p: Arena, id: nat, rows: map<nat, Row>)
    requires Resting(p) && !p.decoded && rows.Keys <= p.canonical.Keys
    ensures var q := UpdateCall(p, id, rows, {});
            && UpdateGranted(p, rows) && Resting(q) && Settles(p, q, rows) == true
            && q.baselineReady == p.baselineReady && q.selected == p.selected
  {
    Settled(p);
    var slots, mirrors := Image(p.slide.core.slots, rows.Keys), Image(p.canonical, Mirrors(p, rows.Keys));
    NobodyGuards(p, slots);
    UpdateIsSteps(p, id, rows, {});
    GuardedSettles(p, id, slots + Available(p.slide.core, mirrors), UpdateJob(p, rows));
    StillResting(p, UpdateCall(p, id, rows, {}), rows);
  }

  /** Every token of a resting arena can be gathered, and reads as last assigned. */
  lemma FullGather(p: Arena, positions: seq<nat>, rows: seq<Row>)
    requires Resting(p) && forall t :: t in positions ==> t in p.canonical
    ensures GatherGranted(p, Elements(positions)) && NoLoadFailed(p)
    ensures ReadsThrough(p, positions, rows) ==> forall i :: 0 <= i < |positions| ==>
            positions[i] in p.logical && rows[i] == p.logical[positions[i]]
  {
    Settled(p);
    NobodyGuards(p, {});
    forall s | s in SlotsOf(p.slide.core, Elements(positions)) ensures s in p.slide.core.slots.Values {}
    if ReadsThrough(p, positions, rows) { GatherIsLogical(p, positions, rows); }
  }

  // ---- a layer of a prefill, in both load orders --------------------------------------------------

  /** A new, exclusively owned arena. */
  ghost predicate FreshArena(p: Arena) {
    && Resting(p) && !p.decoded && p.selected == {} && p.baselineReady == {}
    && p.slide.core.slots == p.canonical && |p.canonical| == p.geo.promptLength
  }

  lemma NewIsFresh(blocks: nat, blockSize: Size, table: seq<int>, n: nat, maxSelected: nat, mem: map<nat, Row>,
                   p: Arena)
    requires Addressed(mem, blocks, blockSize, maxSelected)
    requires NewArena(blocks, blockSize, table, n, maxSelected, {}, mem).Some?
    requires p == NewArena(blocks, blockSize, table, n, maxSelected, {}, mem).value
    ensures FreshArena(p)
  {
    NewArenaGood(blocks, blockSize, table, n, maxSelected, {}, mem);
    NewSlide(blocks, blockSize, table, n, maxSelected, {}, mem);
    NewRows(blocks, blockSize, table, n, maxSelected, {}, mem);
    PromptCanon(blocks, blockSize, table, n, {}, maxSelected);
    NewOpen(blocks, blockSize, table, n, maxSelected, mem);
  }

  lemma NewOpen(blocks: nat, blockSize: Size, table: seq<int>, n: nat, maxSelected: nat, mem: map<nat, Row>)
    requires Addressed(mem, blocks, blockSize, maxSelected)
    requires NewArena(blocks, blockSize, table, n, maxSelected, {}, mem).Some?
    ensures var p := NewArena(blocks, blockSize, table, n, maxSelected, {}, mem).value;
            !p.slide.core.closed && p.slide.core.shared == {}
  {}

  /** Load-first: the whole baseline, the selected rows in place, then the fused rows. */
  ghost function LoadFirst(p: Arena, ids: (nat, nat, nat), cached: map<nat, Row>, fused: map<nat, Row>,
                           chosen: set<nat>): Arena {
    var q1 := WriteCall(p, ids.0, cached, {});
    var q2 := if chosen == {} then q1 else ReadyCall(q1, ids.1, Only(fused, chosen), {});
    UpdateCall(q2, ids.2, fused, {})
  }

  lemma LoadFirstIsDense(p: Arena, ids: (nat, nat, nat), cached: map<nat, Row>, fused: map<nat, Row>, chosen: set<nat>)
    requires FreshArena(p) == true && cached.Keys == p.canonical.Keys && fused.Keys <= p.canonical.Keys
    requires chosen <= fused.Keys
    ensures var q := LoadFirst(p, ids, cached, fused, chosen);
            Resting(q) && q.logical == cached + fused && q.canonical == p.canonical && !q.decoded
  {
    var q1 := WriteCall(p, ids.0, cached, {});
    BaselineLoaded(p, ids.0, cached);
    if chosen == {} {
      UpdateRests(q1, ids.2, fused);
    } else {
      InPlaceThenFused(q1, ids.1, ids.2, fused, chosen);
      OverlayTwice(cached, fused, chosen);
    }
  }

  lemma BaselineLoaded(p: Arena, id: nat, cached: map<nat, Row>)
    requires FreshArena(p) == true && cached.Keys == p.canonical.Keys
    ensures var q := WriteCall(p, id, cached, {});
            && Resting(q) == true && q.logical == cached && q.canonical == p.canonical && !q.decoded && q.selected == {}
            && |q.baselineReady| == q.geo.promptLength && q.slide.core.slots == q.canonical
  {
    WriteRests(p, id, cached);
    NothingMoved(p, cached);
    Replaced(p, cached);
  }

  /** A layer that computes every row: the whole K/V at once. */
  ghost function WholeFirst(p: Arena, id: nat, full: map<nat, Row>): Arena {
    WriteCall(p, id, full, {})
  }

  lemma WholeFirstIsDense(p: Arena, id: nat, full: map<nat, Row>, none: map<nat, Row>)
    requires FreshArena(p) == true && full.Keys == p.canonical.Keys && none == map[]
    ensures var q := WholeFirst(p, id, full);
            Resting(q) == true && q.logical == full + none && q.canonical == p.canonical && !q.decoded
  {
    NothingAdded(full, none);
    BaselineLoaded(p, id, full);
  }

  lemma NothingAdded(full: map<nat, Row>, none: map<nat, Row>)
    requires none == map[]
    ensures full + none == full
  {}

  lemma NothingMoved(p: Arena, cached: map<nat, Row>)
    requires p.slide.core.slots == p.canonical && cached.Keys <= p.canonical.Keys
    ensures Unmoved(p, cached) == cached
  {}

  lemma Replaced(p: Arena, cached: map<nat, Row>)
    requires Good(p) && p.slide.core.slots == p.canonical && cached.Keys == p.canonical.Keys
    ensures p.logical + cached == cached && {} + cached.Keys == p.canonical.Keys
  {
    assert p.logical.Keys == p.canonical.Keys by { Part(p, Domain); }
  }

  lemma InPlaceThenFused(q: Arena, id1: nat, id2: nat, fused: map<nat, Row>, chosen: set<nat>)
    requires Resting(q) && !q.decoded && q.selected == {} && |q.baselineReady| == q.geo.promptLength
    requires q.slide.core.slots == q.canonical
    requires chosen <= fused.Keys <= q.canonical.Keys
    ensures var r := UpdateCall(ReadyCall(q, id1, Only(fused, chosen), {}), id2, fused, {});
            Resting(r) && r.logical == q.logical + Only(fused, chosen) + fused && r.canonical == q.canonical
                && !r.decoded
  {
    assert Only(fused, chosen).Keys == chosen;
    ReadyRests(q, id1, Only(fused, chosen));
    UpdateRests(ReadyCall(q, id1, Only(fused, chosen), {}), id2, fused);
  }

  lemma OverlayTwice(cached: map<nat, Row>, fused: map<nat, Row>, chosen: set<nat>)
    ensures cached + Only(fused, chosen) + fused == cached + fused
  {}

  // ---- decode -------------------------------------------------------------------------------------

  lemma DecodeTaken(p: Arena, id: nat, token: nat, row: Row)
    requires Resting(p) && token == |p.canonical| && CanonicalSlot(p.table, p.geo.blockSize, token).Some?
    requires CanonicalSlot(p.table, p.geo.blockSize, token).value !in p.canonical.Values
    ensures CanDecode(p, token)
    ensures var native := CanonicalSlot(p.table, p.geo.blockSize, token).value;
            && Destination(p.slide.core, token, native, true).Ok?
            && DecodeCall(p, id, token, row, {})
               == DecodeDone(Opened(p, id, token, Destination(p.slide.core, token, native, true).value, native, row),
                     id)
  {
    DestinationFound(p, token);
    assert CanDecode(p, token);
  }

  lemma PublishedTokenFrame(s: System, id: nat)
    requires id in s.ops && s.ops[id].Decode? && s.ops[id].step.Writing? && !s.core.closed
    requires s.ops[id].gen == s.core.generation
    ensures var s2 := Apply(Apply(s, Event.DecodePublish(id)), DecodeRelease(id));
            && s2.ops == s.ops - {id} && s2.core.closed == s.core.closed && s2.core.shared == s.core.shared
  {
    var op := s.ops[id];
    var s1 := Apply(s, Event.DecodePublish(id));
    assert s1.ops == s.ops[id := op.(step := Published)];
    assert Apply(s1, DecodeRelease(id)) == Leave(s1, id);
    SwapOut(s.ops, id, op.(step := Published));
  }

  /** The map once the decode is published: the call is gone. */
  lemma DecodedSlide(p: Arena, id: nat, token: nat, slot: nat, native: nat, row: Row)
    requires p.slide.ops == map[] && !p.slide.core.closed
    ensures var s := Opened(p, id, token, slot, native, row).slide;
            var s2 := Apply(Apply(s, Event.DecodePublish(id)), DecodeRelease(id));
            s2.ops == map[] && !s2.core.closed && s2.core.shared == p.slide.core.shared
  {
    var s := Opened(p, id, token, slot, native, row).slide;
    assert s.ops == map[id := Decode(token, slot, native, p.slide.core.generation, Writing)];
    PublishedTokenFrame(s, id);
  }

  /** The arena's other fields after a completed decode. */
  lemma DecodedFields(p: Arena, id: nat, token: nat, slot: nat, native: nat, row: Row, s: System)
    ensures var q := DecodedAs(Opened(p, id, token, slot, native, row), id, s);
            && q.slide == s && q.logical == p.logical[token := row] && q.canonical == p.canonical[token := native]
            && q.futures == p.futures && q.loads == p.loads && q.broken == p.broken
            && q.holeReuses + q.nativeBinds == p.holeReuses + p.nativeBinds + 1
  {
    OpenedFields(p, id, token, slot, native, row);
    DecodedRecord(Opened(p, id, token, slot, native, row), id, token, native, row, s);
  }

  lemma OpenedFields(p: Arena, id: nat, token: nat, slot: nat, native: nat, row: Row)
    ensures var q := Opened(p, id, token, slot, native, row);
            && Decoding(q, id, token, native, row) && q.logical == p.logical && q.canonical == p.canonical
            && q.futures == p.futures && q.loads == p.loads && q.broken == p.broken
            && q.holeReuses == p.holeReuses && q.nativeBinds == p.nativeBinds
  {}

  /** The record of a call is that of a decode of the token. */
  ghost predicate Decoding(q: Arena, id: nat, token: nat, native: nat, row: Row) {
    && id in q.jobs && q.jobs[id].assign == map[token := row]
    && id in q.slide.ops && q.slide.ops[id].Decode? && q.slide.ops[id].token == token
    && q.slide.ops[id].native == native
  }

  lemma DecodedRecord(q: Arena, id: nat, token: nat, native: nat, row: Row, s: System)
    requires Decoding(q, id, token, native, row)
    ensures var r := DecodedAs(q, id, s);
            && r.slide == s && r.logical == q.logical[token := row] && r.canonical == q.canonical[token := native]
            && r.futures == q.futures && r.loads == q.loads && r.broken == q.broken
            && r.holeReuses + r.nativeBinds == q.holeReuses + q.nativeBinds + 1
  {
    assert q.logical + map[token := row] == q.logical[token := row];
  }

  /** After a decode with a fresh native block, the arena rests and the dense K/V
      has exactly one row more. */
  lemma DecodeRests(p: Arena, id: nat, token: nat, row: Row)
    requires Resting(p) && token == |p.canonical| && CanonicalSlot(p.table, p.geo.blockSize, token).Some?
    requires CanonicalSlot(p.table, p.geo.blockSize, token).value !in p.canonical.Values
    ensures var q := DecodeCall(p, id, token, row, {});
            && Resting(q) && q.logical == p.logical[token := row] && q.canonical.Keys == p.canonical.Keys + {token}
            && q.holeReuses + q.nativeBinds == p.holeReuses + p.nativeBinds + 1
  {
    var native := CanonicalSlot(p.table, p.geo.blockSize, token).value;
    DecodeTaken(p, id, token, row);
    DecodeIsSteps(p, id, token, row, {});
    DecodeEnds(p, id, token, Destination(p.slide.core, token, native, true).value, native, row);
  }

  lemma DecodeEnds(p: Arena, id: nat, token: nat, slot: nat, native: nat, row: Row)
    requires Resting(p)
    requires var q := DecodeDone(Opened(p, id, token, slot, native, row), id); Good(q) && Idle(q)
    ensures var q := DecodeDone(Opened(p, id, token, slot, native, row), id);
            && Resting(q) && q.logical == p.logical[token := row] && q.canonical.Keys == p.canonical.Keys + {token}
            && q.holeReuses + q.nativeBinds == p.holeReuses + p.nativeBinds + 1
  {
    var s := Opened(p, id, token, slot, native, row).slide;
    DecodedSlide(p, id, token, slot, native, row);
    DecodedFields(p, id, token, slot, native, row, Apply(Apply(s, Event.DecodePublish(id)), DecodeRelease(id)));
  }
}
