/** The arena's methods as their callers see them: every call keeps the arena in
    order, and reads and writes the plain token -> record map. */
module PagedSession {
  import opened Basics
  import opened Slide
  import opened Paged
  import opened PagedCalls
  import opened PagedSafety
  import opened PagedRuns
  import opened PagedStore
  import PA = PagedAdmission
  import Addressing
  import PagedTheorems
  import SlideTheorems
  import SlotWrites

  /** Between calls: the invariant of every run holds of the object's state. */
  ghost predicate Ready(kv: NativePagedKV)
    reads kv, kv.slotMap, kv.memory.cache, kv.memory.side
  {
    kv.memory.Valid() && Good(kv.State()) && Idle(kv.State())
  }

  /** The record last assigned to each token. */
  ghost function Records(kv: NativePagedKV): map<nat, Row>
    reads kv
  {
    kv.logical
  }

  lemma WriteLogical(p: Arena, id: nat, rows: map<nat, Row>, lost: set<nat>)
    requires rows.Keys <= p.canonical.Keys && Injective(p.canonical)
    ensures WriteCall(p, id, rows, lost).logical
            == if WriteGranted(p, rows) && Image(p.canonical, rows.Keys) !! lost then p.logical + Unmoved(p, rows)
                else p.logical
  {
    PlacedFacts(p.canonical, rows);
    if WriteGranted(p, rows) { GuardedLogical(p, id, Image(p.canonical, rows.Keys), BaselineJob(p, rows), lost); }
  }

  lemma ReadyLogical(p: Arena, id: nat, rows: map<nat, Row>, lost: set<nat>)
    requires rows.Keys <= p.canonical.Keys && Injective(p.canonical)
    ensures ReadyCall(p, id, rows, lost).logical
            == if ReadyGranted(p, rows) && Image(p.canonical, rows.Keys) !! lost then p.logical + rows else p.logical
  {
    PlacedFacts(p.canonical, rows);
    if ReadyGranted(p, rows) { GuardedLogical(p, id, Image(p.canonical, rows.Keys), ReadyJob(p, rows), lost); }
  }

  lemma UpdateLogical(p: Arena, id: nat, rows: map<nat, Row>, lost: set<nat>)
    ensures UpdateCall(p, id, rows, lost).logical
            == if UpdateGranted(p, rows) && UpdateJob(p, rows).plan.Keys !! lost then p.logical + rows else p.logical
  {
    if UpdateGranted(p, rows) {
      GuardedLogical(p, id,
            Image(p.slide.core.slots, rows.Keys) + Available(p.slide.core, Image(p.canonical, Mirrors(p, rows.Keys))),
                     UpdateJob(p, rows), lost);
    }
  }

  lemma PromotionLogical(q: Arena, id: nat, lost: set<nat>)
    requires id in q.jobs && id in q.slide.ops && q.slide.ops[id].Promotion?
    ensures PromotionEnd(q, id, lost).logical == if q.jobs[id].plan.Keys !! lost then q.logical + q.jobs[id].assign
            else q.logical
  {}

  lemma PromoteLogical(p: Arena, id: nat, order: seq<nat>, rows: map<nat, Row>, future: Option<nat>, callback: nat,
                       lost: set<nat>)
    requires Good(p) && NewCall(p, id) && NewCall(p, callback) && id != callback && rows.Keys == set t | t in order
    ensures PromoteCall(p, id, order, rows, future, callback, lost).logical
            == if Promotes(p, id, order, rows, future, callback, lost) then p.logical + rows else p.logical
  {
    if CanPromote(p, order, future) == true {
      var q := Promoting(p, id, order, rows, future, callback);
      assert id !in p.jobs by { NoStrayJob(p, id); }
      PromotionTakes(p, id, order, rows, future, callback);
      if id in q.slide.ops { PromotionLogical(q, id, lost); }
      else { NotTaken(p, q, id, rows, order, lost); }
    }
  }

  lemma NotTaken(p: Arena, q: Arena, id: nat, rows: map<nat, Row>, order: seq<nat>, lost: set<nat>)
    requires id !in q.slide.ops && q.logical == p.logical && rows.Keys == set t | t in order
    ensures PromotionEnd(q, id, lost).logical == p.logical && (order == [] ==> p.logical + rows == p.logical)
  {}

  /** A promotion the map took up is still writing, and assigns exactly its rows. */
  lemma PromotionTakes(p: Arena, id: nat, order: seq<nat>, rows: map<nat, Row>, future: Option<nat>, callback: nat)
    requires Good(p) && NewCall(p, id) && NewCall(p, callback) && id != callback && rows.Keys == set t | t in order
    ensures var q := Promoting(p, id, order, rows, future, callback);
            && q.logical == p.logical && (order == [] ==> id !in q.slide.ops)
            && (id in q.slide.ops ==> id in q.jobs && q.slide.ops[id].Promotion? && q.jobs[id].assign == rows)
  {
    assert SlideTheorems.Safe(p.slide) == true by { Part(p, Map); }
    if order == [] { NothingPromotedAt(p, id, rows, future, callback); }
    PromotionAnswered(p, id, order, rows, future, callback);
  }

  lemma PromotionAnswered(p: Arena, id: nat, order: seq<nat>, rows: map<nat, Row>, future: Option<nat>, callback: nat)
    requires SlideTheorems.Safe(p.slide) == true && NewCall(p, id) && NewCall(p, callback) && id != callback
    requires rows.Keys == set t | t in order
    ensures var q := Promoting(p, id, order, rows, future, callback);
            && q.logical == p.logical
            && (id in q.slide.ops ==> id in q.jobs && q.slide.ops[id].Promotion? && q.jobs[id].assign == rows)
  {
    var s := MapAnswers(p, id, order, rows, future, callback);
    TakenAssigns(p, s, id, order == [], rows, future, callback);
  }

  lemma NothingPromotedAt(p: Arena, id: nat, rows: map<nat, Row>, future: Option<nat>, callback: nat)
    requires NewCall(p, id) && rows == map[]
    ensures id !in Promoting(p, id, [], rows, future, callback).slide.ops
  {
    NothingPromoted(p, id, future, callback);
  }

  lemma TakenAssigns(p: Arena, s: System, id: nat, nothing: bool, rows: map<nat, Row>, future: Option<nat>,
                     callback: nat)
    requires id !in p.slide.ops && (id in s.ops ==> s.ops[id].Promotion? && s.ops[id].dest.Keys == rows.Keys)
    ensures var q := Promoted(p, s, id, nothing, rows, future, callback);
            && q.logical == p.logical
            && (id in q.slide.ops ==> id in q.jobs && q.slide.ops[id].Promotion? && q.jobs[id].assign == rows)
  {}

  lemma DecodeLogical(p: Arena, id: nat, token: nat, row: Row, lost: set<nat>)
    ensures DecodeCall(p, id, token, row, lost).logical
            == if Decodes(p, token, lost).Ok? then p.logical[token := row] else p.logical
  {
    if CanDecode(p, token) == true {
      var native := CanonicalSlot(p.table, p.geo.blockSize, token).value;
      match Destination(p.slide.core, token, native, true)
      case Err(_) =>
      case Ok(slot) =>
        OpenedIs(p, id, token, slot, native, row);
        OpenedLogical(p, Opened(p, id, token, slot, native, row), id, token, slot, native, row, lost);
    }
  }

  lemma OpenedIs(p: Arena, id: nat, token: nat, slot: nat, native: nat, row: Row)
    ensures var q := Opened(p, id, token, slot, native, row);
            && id in q.jobs && q.jobs[id] == TokenJob(token, slot, native, row) && id in q.slide.ops
            && q.slide.ops[id].Decode?
            && q.logical == p.logical
  {}

  lemma OpenedLogical(p: Arena, q: Arena, id: nat, token: nat, slot: nat, native: nat, row: Row, lost: set<nat>)
    requires id in q.jobs && q.jobs[id] == TokenJob(token, slot, native, row) && id in q.slide.ops
    requires q.slide.ops[id].Decode?
    requires q.logical == p.logical
    ensures DecodeEnd(q, id, lost).logical == if slot in lost || native in lost then p.logical
            else p.logical[token := row]
  {
    TokenJobIs(token, slot, native, row, lost);
    assert p.logical + map[token := row] == p.logical[token := row];
  }

  lemma TokenJobIs(token: nat, slot: nat, native: nat, row: Row, lost: set<nat>)
    ensures var job := TokenJob(token, slot, native, row);
            job.assign == map[token := row] && (job.plan.Keys !! lost <==> slot !in lost && native !in lost)
  {}

  // ---- the calls --------------------------------------------------------------------------------

  /** Baseline rows reach the tokens that still live at their original slots. */
  method Write(kv: NativePagedKV, id: nat, positions: seq<nat>, rows: seq<Row>, lost: set<nat>) returns (r: Result<()>)
    requires Ready(kv) && |positions| == |rows| && Distinct(positions) && id !in kv.slotMap.calls
    modifies kv, kv.slotMap, kv.memory.cache, kv.memory.side
    ensures Ready(kv)
    ensures Records(kv) == if r.Ok? then old(Records(kv)) + old(Unmoved(kv.State(), Zip(positions, rows)))
            else old(Records(kv))
    ensures r.Ok? ==> old(PA.BaselineAllowed(kv.State(), Zip(positions, rows)))
    ensures lost == {} && old(PA.BaselineAllowed(kv.State(), Zip(positions, rows))) ==> r.Ok?
    ensures r.Ok? ==> PA.LiesAtHome(old(kv.State()), kv.memory.Contents(), Zip(positions, rows))
  {
    ghost var p := kv.State();
    GoodShape(p);
    PA.BaselineGrantedExactly(p, Zip(positions, rows));
    r := kv.Write(id, positions, rows, lost);
    ghost var m := Zip(positions, rows);
    if r.Ok? { PA.BaselineLiesAtHome(p, id, m, lost); }
    WriteIsSteps(p, id, m, lost);
    WriteAssigns(p, id, m, lost);
  }

  lemma WriteAssigns(p: Arena, id: nat, rows: map<nat, Row>, lost: set<nat>)
    requires Good(p)
    ensures var q := WriteCall(p, id, rows, lost);
            q.logical == if WriteGranted(p, rows) && Image(p.canonical, rows.Keys) !! lost
                then p.logical + Unmoved(p, rows) else p.logical
  {
    if CanWrite(p, rows) == true {
      Part(p, Names);
      WriteLogical(p, id, rows, lost);
    }
  }

  /** Selected rows overwrite the ready baseline in place. */
  method WriteSelectedReady(kv: NativePagedKV, id: nat, positions: seq<nat>, rows: seq<Row>, lost: set<nat>)
    returns (r: Result<()>)
    requires Ready(kv) && |positions| == |rows| && Distinct(positions) && id !in kv.slotMap.calls
    modifies kv, kv.slotMap, kv.memory.cache, kv.memory.side
    ensures Ready(kv)
    ensures Records(kv) == if r.Ok? then old(Records(kv)) + Zip(positions, rows) else old(Records(kv))
    ensures r.Ok? ==> old(PA.ReadyAllowed(kv.State(), Zip(positions, rows)))
    ensures lost == {} && old(PA.ReadyAllowed(kv.State(), Zip(positions, rows))) ==> r.Ok?
    ensures r.Ok? ==> PA.LiesAtHome(old(kv.State()), kv.memory.Contents(), Zip(positions, rows))
  {
    ghost var p := kv.State();
    GoodShape(p);
    PA.ReadyGrantedExactly(p, Zip(positions, rows));
    r := kv.WriteSelectedReady(id, positions, rows, lost);
    if r.Ok? { PA.ReadyLiesAtHome(p, id, Zip(positions, rows), lost); }
    ReadyIsSteps(p, id, Zip(positions, rows), lost);
    ReadyAssigns(p, id, Zip(positions, rows), lost);
  }

  lemma ReadyAssigns(p: Arena, id: nat, rows: map<nat, Row>, lost: set<nat>)
    requires Good(p)
    ensures var q := ReadyCall(p, id, rows, lost);
            q.logical == if ReadyGranted(p, rows) && Image(p.canonical, rows.Keys) !! lost then p.logical + rows
                else p.logical
  {
    if CanWriteReady(p, rows) == true {
      Part(p, Names);
      ReadyLogical(p, id, rows, lost);
    }
  }

  /** Fused rows go wherever their tokens live now. */
  method UpdateSelected(kv: NativePagedKV, id: nat, positions: seq<nat>, rows: seq<Row>, lost: set<nat>)
    returns (r: Result<()>)
    requires Ready(kv) && |positions| == |rows| && Distinct(positions) && id !in kv.slotMap.calls
    modifies kv, kv.slotMap, kv.memory.cache, kv.memory.side
    ensures Ready(kv)
    ensures Records(kv) == if r.Ok? then old(Records(kv)) + Zip(positions, rows) else old(Records(kv))
    ensures r.Ok? ==> old(PA.UpdateAllowed(kv.State(), Zip(positions, rows)))
    ensures lost == {} && old(PA.UpdateAllowed(kv.State(), Zip(positions, rows))) ==> r.Ok?
    ensures r.Ok? ==> PA.Mirrored(old(kv.State()), kv.memory.Contents(), Zip(positions, rows))
  {
    ghost var p := kv.State();
    GoodShape(p);
    PA.UpdateGrantedExactly(p, Zip(positions, rows));
    r := kv.UpdateSelected(id, positions, rows, lost);
    if r.Ok? { PA.UpdateMirrors(p, id, Zip(positions, rows), lost); }
    UpdateIsSteps(p, id, Zip(positions, rows), lost);
    UpdateLogical(p, id, Zip(positions, rows), lost);
  }

  /** A gather returns the record last assigned to each position, in the caller's order. */
  method Gather(kv: NativePagedKV, id: nat, positions: seq<nat>) returns (r: Result<seq<Row>>)
    requires Ready(kv) && id !in kv.slotMap.calls
    modifies kv.slotMap
    ensures Ready(kv) && Records(kv) == old(Records(kv))
    ensures r.Ok? <==> old(GatherGranted(kv.State(), Elements(positions)) && NoLoadFailed(kv.State()))
    ensures r.Ok? ==> |r.value| == |positions|
                      && forall i :: 0 <= i < |positions| ==>
                            positions[i] in Records(kv) && r.value[i] == Records(kv)[positions[i]]
  {
    ghost var p := kv.State();
    GoodShape(p);
    r := kv.Gather(id, positions);
    GatherIsSteps(p, id, Elements(positions));
    if r.Ok? { GatherIsLogical(p, positions, r.value); }
  }

  /** Selected rows move to the sidecar. */
  method PromoteSelected(kv: NativePagedKV, id: nat, positions: seq<nat>, rows: seq<Row>, future: Option<nat>,
                         callback: nat, lost: set<nat>)
    returns (r: Result<()>)
    requires Ready(kv) && |positions| == |rows| && Distinct(positions)
    requires |positions| <= SlotWrites.Limit(SlotWrites.ROW_BYTES)
    requires id !in kv.slotMap.calls && callback !in kv.slotMap.calls && id != callback
    modifies kv, kv.slotMap, kv.memory.cache, kv.memory.side
    ensures Ready(kv)
    ensures Records(kv) == if r.Ok? then old(Records(kv)) + Zip(positions, rows) else old(Records(kv))
    ensures positions != [] && r.Ok? ==> old(PA.PromotionAllowed(kv.State(), positions, future))
    ensures positions != [] && lost == {} && old(PA.PromotionAllowed(kv.State(), positions, future)) ==> r.Ok?
    ensures positions != [] && r.Ok? ==> PA.AllMoved(old(kv.State()), kv.State(), Zip(positions, rows))
  {
    ghost var p := kv.State();
    GoodShape(p);
    r := kv.PromoteSelected(id, positions, rows, future, callback, lost);
    PromotionAnswers(p, id, positions, rows, future, callback, lost);
    PromoteKeepsGood(p, id, positions, rows, future, callback, lost);
    PromoteLogical(p, id, positions, Zip(positions, rows), future, callback, lost);
  }

  lemma PromotionAnswers(p: Arena, id: nat, positions: seq<nat>, rows: seq<Row>, future: Option<nat>, callback: nat,
                         lost: set<nat>)
    requires Good(p) && Idle(p) && NewCall(p, id) && NewCall(p, callback) && id != callback && |positions| == |rows|
    requires Distinct(positions)
    ensures var m := Zip(positions, rows);
            positions != [] ==>
              && (Promotes(p, id, positions, m, future, callback, lost) ==> PA.PromotionAllowed(p, positions, future))
              && (lost == {} && PA.PromotionAllowed(p, positions, future) ==>
                    Promotes(p, id, positions, m, future, callback, lost))
              && (Promotes(p, id, positions, m, future, callback, lost) ==>
                    PA.AllMoved(p, PromoteCall(p, id, positions, m, future, callback, lost), m))
  {
    ZipKeys(positions, rows);
    if positions != [] { PA.PromotesExactly(p, id, positions, Zip(positions, rows), future, callback, lost); }
  }

  lemma PromoteKeepsGood(p: Arena, id: nat, positions: seq<nat>, rows: seq<Row>, future: Option<nat>, callback: nat,
                         lost: set<nat>)
    requires Good(p) && Idle(p) && NewCall(p, id) && NewCall(p, callback) && id != callback && |positions| == |rows|
    requires Distinct(positions)
    ensures Zip(positions, rows).Keys == set t | t in positions
    ensures var q := PromoteCall(p, id, positions, Zip(positions, rows), future, callback, lost);
              Good(q) == true
              && Idle(q) == true
  {
    ZipKeys(positions, rows);
    PromoteIsSteps(p, id, positions, Zip(positions, rows), future, callback, lost);
  }

  lemma ZipKeys(positions: seq<nat>, rows: seq<Row>)
    requires |positions| == |rows| && Distinct(positions)
    ensures Zip(positions, rows).Keys == set t | t in positions
  {
    ZipDelivers(positions, rows);
  }

  /** The next token's record is appended. */
  method DecodeToken(kv: NativePagedKV, id: nat, token: nat, row: Row, lost: set<nat>) returns (r: Result<nat>)
    requires Ready(kv) && id !in kv.slotMap.calls
    modifies kv, kv.slotMap, kv.memory.cache, kv.memory.side
    ensures Ready(kv)
    ensures Records(kv) == if r.Ok? then old(Records(kv))[token := row] else old(Records(kv))
    ensures r.Ok? ==> old(PA.DecodeAllowed(kv.State(), token))
    ensures lost == {} && old(PA.DecodeAllowed(kv.State(), token)) ==> r.Ok?
    ensures r.Ok? ==> PA.DecodedTo(old(kv.State()), kv.State(), token, row, r.value)
  {
    ghost var p := kv.State();
    GoodShape(p);
    PA.DecodedExactly(p, token, lost);
    r := kv.DecodeToken(id, token, row, lost);
    if r.Ok? { PA.DecodeLies(p, id, token, row, lost); }
    DecodeIsSteps(p, id, token, row, lost);
    DecodeLogical(p, id, token, row, lost);
  }

  /** The scheduler's block table may grow between calls. */
  method UpdateBlockTable(kv: NativePagedKV, entries: seq<int>) returns (r: Result<()>)
    requires Ready(kv)
    modifies kv`table
    ensures Ready(kv) && Records(kv) == old(Records(kv))
    ensures kv.table == if r.Ok? then entries else old(kv.table)
    ensures r.Ok? <==> old(PA.TableAllowed(kv.State(), entries))
  {
    ghost var p := kv.State();
    PA.TableAcceptedExactly(p, entries);
    r := kv.UpdateBlockTable(entries, p);
    PagedTheorems.StepGood(p, UpdateTable(entries));
  }

  /** Every token of the prompt lives where the engine looks for it. */
  ghost predicate StartsAtHome(table: seq<int>, blockSize: Size, n: nat, slots: map<nat, nat>) {
    forall t: nat :: t < n ==> t in slots && Addressing.IsHome(table, blockSize, t, slots[t])
  }

  /** A new arena is ready; its tokens' records are whatever their slots held. */
  method New(cache: array2<Row>, blockSize: Size, table: seq<int>, n: nat, maxSelected: nat, shared: set<nat>)
    returns (r: Result<NativePagedKV>)
    requires cache.Length1 == blockSize
    ensures r.Ok? ==> fresh(r.value) && Ready(r.value) && r.value.slotMap.calls == map[]
    ensures r.Ok? ==> Records(r.value).Keys == Below(n)
    ensures r.Ok? <==> Addressing.Describes(cache.Length0, blockSize, table, n, shared)
    ensures r.Ok? ==> StartsAtHome(table, blockSize, n, r.value.slotMap.slots)
  {
    r := NativePagedKV.New(cache, blockSize, table, n, maxSelected, shared);
    Addressing.CreatableExactly(cache.Length0, blockSize, table, n, shared);
    if r.Ok? {
      NewIsReady(cache.Length0, blockSize, table, n, maxSelected, shared, r.value.memory.Contents(), r.value.State());
    }
  }

  lemma NewIsReady(blocks: nat, blockSize: Size, table: seq<int>, n: nat, maxSelected: nat, shared: set<nat>,
                   mem: map<nat, Row>, p: Arena)
    requires PagedTheorems.Addressed(mem, blocks, blockSize, maxSelected)
    requires NewArena(blocks, blockSize, table, n, maxSelected, shared, mem) == Some(p)
    ensures Good(p) && Idle(p) && p.slide.ops == map[] && p.logical.Keys == Below(n)
    ensures StartsAtHome(table, blockSize, n, p.slide.core.slots)
  {
    Addressing.CreatedAtHome(blocks, blockSize, table, n, maxSelected, shared, mem, p);
    PagedTheorems.NewArenaGood(blocks, blockSize, table, n, maxSelected, shared, mem);
    assert p.logical.Keys == p.slide.core.slots.Keys by { Part(p, Domain); }
    assert p.slide.core.slots == Prompt(table, blockSize, n);
  }
}
