/** When the arena grants a call, in terms of what is outstanding, and where the rows of a
    granted call then lie. */
module PagedAdmission {
  import opened Basics
  import opened Slide
  import opened SlideSafety
  import opened Paged
  import opened PagedCalls
  import opened PagedSafety
  import opened PagedTheorems
  import opened Addressing
  import PagedRuns
  import SlideTheorems
  import SlotOutcomes

  ghost predicate InUse(p: Arena, s: nat) {
    SlotOutcomes.InUse(p.slide.ops, s)
  }

  lemma GuardExactly(p: Arena, slots: set<nat>)
    requires Good(p)
    ensures CanGuard(p.slide.core, slots)
            <==> !p.slide.core.closed && forall s :: s in slots ==> s !in p.slide.core.shared && !InUse(p, s)
  {
    assert Counted(p.slide) by { MapInv(p); }
    forall s | s in slots
      ensures InUse(p, s) <==> At(p.slide.core.pins, s) != 0 || At(p.slide.core.inflight, s) != 0
    {
      SlotOutcomes.InUseCounts(p.slide, s);
    }
  }

  lemma OpenExactly(p: Arena, slots: set<nat>)
    requires Good(p)
    ensures forall s :: s in Available(p.slide.core, slots) <==> s in slots && s !in p.slide.core.shared && !InUse(p, s)
  {
    assert Counted(p.slide) by { MapInv(p); }
    forall s | s in slots
      ensures InUse(p, s) <==> At(p.slide.core.pins, s) != 0 || At(p.slide.core.inflight, s) != 0
    {
      SlotOutcomes.InUseCounts(p.slide, s);
    }
  }

  // ---- which calls are granted -------------------------------------------------------------

  /** Every load the arena was told of has succeeded. */
  ghost predicate AllLoaded(p: Arena) {
    forall l :: l in p.loads ==> l in p.futures && p.futures[l] == LoadDone
  }

  /** No promotion is under way and none has failed. */
  ghost predicate NothingMoves(p: Arena) {
    !p.broken && forall id :: id in p.slide.ops ==> !p.slide.ops[id].Promotion?
  }

  /** The slot may be written by a call that must have it. */
  ghost predicate Writable(p: Arena, s: nat) {
    s !in p.slide.core.shared && !InUse(p, s)
  }

  ghost predicate BaselineAllowed(p: Arena, rows: map<nat, Row>) {
    && !p.slide.core.closed && AllLoaded(p) && !p.decoded
    && forall t :: t in rows ==> t in p.canonical && Writable(p, p.canonical[t])
  }

  /** A baseline write is granted exactly while the arena is open, before any decode, once
      all loads have succeeded, if no outstanding call has one of the original slots. */
  lemma BaselineGrantedExactly(p: Arena, rows: map<nat, Row>)
    requires Good(p)
    ensures WriteGranted(p, rows)
            <==> BaselineAllowed(p, rows)
  {
    if rows.Keys <= p.canonical.Keys {
      GuardExactly(p, Image(p.canonical, rows.Keys));
      ImageWritable(p, p.canonical, rows.Keys);
    }
  }

  lemma ImageWritable(p: Arena, place: map<nat, nat>, tokens: set<nat>)
    requires tokens <= place.Keys
    ensures (forall s :: s in Image(place, tokens) ==> Writable(p, s)) <==> forall t :: t in tokens ==>
                Writable(p, place[t])
    ensures (forall s :: s in Image(place, tokens) ==> s !in p.slide.core.shared)
            <==> Image(place, tokens) !! p.slide.core.shared
  {
    if forall s :: s in Image(place, tokens) ==> Writable(p, s) {
      forall t | t in tokens ensures Writable(p, place[t]) { assert place[t] in Image(place, tokens); }
    }
  }

  ghost predicate ReadyAllowed(p: Arena, rows: map<nat, Row>) {
    && !p.slide.core.closed && AllLoaded(p) && NothingMoves(p) && !p.decoded
    && |p.baselineReady| == p.geo.promptLength
    && forall t :: t in rows ==>
         && t in p.canonical && t !in p.selected && t in p.slide.core.slots
         && p.slide.core.slots[t] == p.canonical[t] && Writable(p, p.canonical[t])
  }

  /** A ready write is granted exactly if, besides, the whole baseline is ready, no promotion
      is under way or has failed, and each token is not yet selected and has not moved. */
  lemma ReadyGrantedExactly(p: Arena, rows: map<nat, Row>)
    requires Good(p)
    ensures ReadyGranted(p, rows)
            <==> ReadyAllowed(p, rows)
  {
    if rows.Keys <= p.canonical.Keys {
      GuardExactly(p, Image(p.canonical, rows.Keys));
      ImageWritable(p, p.canonical, rows.Keys);
    }
  }

  ghost predicate UpdateAllowed(p: Arena, rows: map<nat, Row>) {
    && !p.slide.core.closed && AllLoaded(p) && NothingMoves(p) && !p.decoded
    && forall t :: t in rows ==> t in p.canonical && t in p.slide.core.slots && Writable(p, p.slide.core.slots[t])
  }

  /** A fused update is granted exactly if nobody has a slot where one of the tokens lives. */
  lemma UpdateGrantedExactly(p: Arena, rows: map<nat, Row>)
    requires Good(p)
    ensures UpdateGranted(p, rows)
            <==> UpdateAllowed(p, rows)
  {
    if rows.Keys <= p.slide.core.slots.Keys {
      GuardExactly(p, Image(p.slide.core.slots, rows.Keys));
      ImageWritable(p, p.slide.core.slots, rows.Keys);
    }
  }

  ghost predicate PromotionAllowed(p: Arena, order: seq<nat>, future: Option<nat>) {
    && !p.slide.core.closed && !p.decoded && (forall t :: t in order ==> t in p.canonical && t !in p.selected)
    && (future.Some? && future.value in p.futures ==> p.futures[future.value] != LoadFailed)
    && p.slide.core.maxSlots.Some?
    && |order| <= |p.slide.core.unused| + (p.slide.core.maxSlots.value - p.slide.core.next)
  }

  /** A promotion is taken up exactly if the arena is open and before any decode, its tokens
      are the prompt's and not yet selected, its load has not failed, and the sidecar has a
      slot for each. */
  lemma PromotionTakenExactly(p: Arena, id: nat, order: seq<nat>, rows: map<nat, Row>, future: Option<nat>,
                              callback: nat)
    requires Good(p) && Idle(p) && NewCall(p, id) && NewCall(p, callback) && id != callback && Distinct(order)
    requires rows.Keys == (set t | t in order) && order != []
    ensures id in Next(p, BeginPromote(id, order, rows, future, callback)).slide.ops
            <==> PromotionAllowed(p, order, future)
  {
    assert p.slide.core.maxSlots.Some? by { Part(p, Space); }
    assert (forall t :: t in rows <==> t in order);
    if Enabled(p, BeginPromote(id, order, rows, future, callback)) == true {
      assert Next(p, BeginPromote(id, order, rows, future, callback))
          == Promoting(p, id, order, rows, future, callback);
      if p.slide.core.closed || exists t :: t in order && t !in p.canonical {
        NotStarted(p, id, order, rows, future, callback);
      } else {
        TakenUp(p, id, order, rows, future, callback);
      }
    }
  }

  lemma NotStarted(p: Arena, id: nat, order: seq<nat>, rows: map<nat, Row>, future: Option<nat>, callback: nat)
    requires Good(p) && Idle(p) && NewCall(p, id) && NewCall(p, callback) && id != callback
    requires rows.Keys == set t | t in order
    requires p.slide.core.closed || exists t :: t in order && t !in p.canonical
    ensures id !in Promoting(p, id, order, rows, future, callback).slide.ops
  {
    var load := LoadStatus(p, future);
    Takes(p, id, order, rows, future, callback);
    assert !MayPromote(p.slide.core, order, load) by { Unmapped(p, order); }
    RefusedPromotion(p.slide, id, order, load, callback);
  }

  lemma Unmapped(p: Arena, order: seq<nat>)
    requires Good(p) && Idle(p) && (p.slide.core.closed || exists t :: t in order && t !in p.canonical)
    ensures p.slide.core.closed || exists t :: t in order && t !in p.slide.core.slots
  {
    if !p.slide.core.closed {
      IdleSettled(p);
      Settled(p);
    }
  }

  lemma RefusedPromotion(s: System, id: nat, order: seq<nat>, load: LoadState, callback: nat)
    requires id !in s.ops && !MayPromote(s.core, order, load)
    ensures id !in Apply(s, PromoteBegin(id, order, load, callback, false)).ops
  {}

  // ---- where a decode goes -----------------------------------------------------------------

  /** A native slot that a token has left and that nobody reads, writes or shares. */
  ghost predicate Hole(p: Arena, s: nat) {
    && s in p.slide.core.vacated && s < NativeSlots(p.geo.blocks, p.geo.blockSize)
    && s !in p.slide.core.slots.Values && Writable(p, s)
  }

  /** The lowest hole, or the token's own slot if there is none. */
  ghost predicate GoesTo(p: Arena, native: nat, chosen: nat) {
    if Hole(p, chosen) then forall s: nat :: Hole(p, s) ==> chosen <= s
    else chosen == native && forall s: nat :: !Hole(p, s)
  }

  lemma HolesExactly(p: Arena)
    requires Good(p)
    ensures forall s: nat :: s in Holes(p.slide.core, Some(p.slide.core.floor)) <==> Hole(p, s)
  {
    assert Counted(p.slide) by { MapInv(p); }
    assert p.slide.core.floor == NativeSlots(p.geo.blocks, p.geo.blockSize) by { Part(p, Space); }
    forall s: nat ensures s in Holes(p.slide.core, Some(p.slide.core.floor)) <==> Hole(p, s) {
      SlotOutcomes.InUseCounts(p.slide, s);
    }
  }

  lemma LowestHole(p: Arena, native: nat)
    requires Good(p)
    ensures var holes := Holes(p.slide.core, Some(p.slide.core.floor));
            GoesTo(p, native, if holes != {} then Least(holes) else native)
  {
    HolesExactly(p);
    var holes := Holes(p.slide.core, Some(p.slide.core.floor));
    if holes == {} { assert native !in holes; }
  }

  /** The next token has a block of its own. */
  ghost predicate Appendable(p: Arena, token: nat) {
    && token == |p.canonical| && InTable(p.table, p.geo.blockSize, token)
    && forall t :: t in p.canonical ==> !IsHome(p.table, p.geo.blockSize, token, p.canonical[t])
  }

  lemma AppendableExactly(p: Arena, token: nat)
    ensures Appendable(p, token)
            <==> token == |p.canonical| && CanonicalSlot(p.table, p.geo.blockSize, token).Some?
                 && CanonicalSlot(p.table, p.geo.blockSize, token).value !in p.canonical.Values
  {
    CanonicalExactly(p.table, p.geo.blockSize, token, 0);
    if CanonicalSlot(p.table, p.geo.blockSize, token).Some? {
      var home := CanonicalSlot(p.table, p.geo.blockSize, token).value;
      forall t | t in p.canonical
        ensures IsHome(p.table, p.geo.blockSize, token, p.canonical[t]) <==> p.canonical[t] == home
      {
        CanonicalExactly(p.table, p.geo.blockSize, token, p.canonical[t]);
      }
    }
  }

  ghost predicate DecodeAllowed(p: Arena, token: nat) {
    && !p.slide.core.closed && NothingMoves(p) && Appendable(p, token)
    && forall l :: l in p.loads && l in p.futures ==> p.futures[l] != LoadFailed
  }

  /** A decode is granted exactly if the arena is open, no load has failed, no promotion is
      under way or has failed, and the token is the next one and has a block of its own. */
  lemma DecodeGrantedExactly(p: Arena, id: nat, token: nat, row: Row)
    requires Good(p) && Idle(p) && NewCall(p, id)
    ensures id in Next(p, BeginDecode(id, token, row)).slide.ops
            <==> DecodeAllowed(p, token)
  {
    AppendableExactly(p, token);
    if Enabled(p, BeginDecode(id, token, row)) == true {
      var native := CanonicalSlot(p.table, p.geo.blockSize, token).value;
      AppendingOpens(p, id, token, native, row);
      if p.slide.core.closed { assert Destination(p.slide.core, token, native, true).Err?; }
      else { DestinationFound(p, token); }
    }
  }

  /** A granted decode writes the row to the lowest hole and to the token's home, or to its
      home alone if there is no hole. */
  lemma DecodeGoesHome(p: Arena, id: nat, token: nat, row: Row)
    requires Good(p) && Idle(p) && NewCall(p, id) && id in Next(p, BeginDecode(id, token, row)).slide.ops
    ensures var q := Next(p, BeginDecode(id, token, row));
            && q.slide.ops[id].Decode? && q.slide.ops[id].token == token && id in q.jobs
            && IsHome(p.table, p.geo.blockSize, token, q.slide.ops[id].native)
            && GoesTo(p, q.slide.ops[id].native, q.slide.ops[id].chosen)
            && q.jobs[id].plan == map[q.slide.ops[id].chosen := row, q.slide.ops[id].native := row]
            && q.jobs[id].assign == map[token := row]
  {
    var native := CanonicalSlot(p.table, p.geo.blockSize, token).value;
    CanonicalIsHome(p.table, p.geo.blockSize, token, native);
    AppendingOpens(p, id, token, native, row);
    assert Destination(p.slide.core, token, native, true).Ok?;
    DestinationFound(p, token);
    LowestHole(p, native);
  }

  lemma DecodedExactly(p: Arena, token: nat, lost: set<nat>)
    requires Good(p) && Idle(p)
    ensures Decodes(p, token, lost).Ok? ==> DecodeAllowed(p, token) == true
    ensures lost == {} && DecodeAllowed(p, token) ==> Decodes(p, token, lost).Ok?
    ensures Decodes(p, token, lost).Ok? ==>
              CanonicalSlot(p.table, p.geo.blockSize, token).Some?
              && GoesTo(p, CanonicalSlot(p.table, p.geo.blockSize, token).value, Decodes(p, token, lost).value) == true
  {
    AppendableExactly(p, token);
    if CanDecode(p, token) == true {
      var native := CanonicalSlot(p.table, p.geo.blockSize, token).value;
      if !p.slide.core.closed {
        DestinationFound(p, token);
        LowestHole(p, native);
      }
    }
  }

  /** The token lives in the chosen slot, its canonical slot is `native`, and its row is all
      that has been written, to both. */
  ghost predicate LeftBy(mem: map<nat, Row>, q: Arena, token: nat, chosen: nat, native: nat, row: Row) {
    && token in q.canonical && q.canonical[token] == native
    && token in q.slide.core.slots && q.slide.core.slots[token] == chosen
    && q.mem == mem + map[chosen := row, native := row]
  }

  /** The token lives in the slot returned, its row lies there and at its home, which is now
      its canonical slot, and no other slot has changed. */
  ghost predicate DecodedTo(p: Arena, q: Arena, token: nat, row: Row, chosen: nat) {
    && token in q.canonical && IsHome(p.table, p.geo.blockSize, token, q.canonical[token])
    && GoesTo(p, q.canonical[token], chosen) && LeftBy(p.mem, q, token, chosen, q.canonical[token], row)
  }

  /** After a decode that returns a slot, the token lives there, its row lies there and at
      its home, which is now its canonical slot, and no other slot has changed. */
  lemma DecodeLies(p: Arena, id: nat, token: nat, row: Row, lost: set<nat>)
    requires Good(p) && Idle(p) && Decodes(p, token, lost).Ok?
    ensures DecodedTo(p, DecodeCall(p, id, token, row, lost), token, row, Decodes(p, token, lost).value)
  {
    var home := CanonicalSlot(p.table, p.geo.blockSize, token).value;
    DecodedExactly(p, token, lost);
    CanonicalIsHome(p.table, p.geo.blockSize, token, home);
    OpenedDecode(p, id, token, Decodes(p, token, lost).value, home, row, lost);
  }

  lemma OpenedDecode(p: Arena, id: nat, token: nat, chosen: nat, native: nat, row: Row, lost: set<nat>)
    requires CanonicalSlot(p.table, p.geo.blockSize, token) == Some(native) && CanDecode(p, token) == true
    requires Destination(p.slide.core, token, native, true) == Ok(chosen) && !p.slide.core.closed
    requires chosen !in lost && native !in lost
    ensures LeftBy(p.mem, DecodeCall(p, id, token, row, lost), token, chosen, native, row) == true
  {
    var o := OpenedParts(p, id, token, chosen, native, row);
    DecodeCallIs(p, id, token, chosen, native, row, lost);
    DecodeEndIs(o, id, token, chosen, native, row, lost);
    DecodeDoneParts(o, id, token, chosen, native, row);
  }

  lemma DecodeCallIs(p: Arena, id: nat, token: nat, chosen: nat, native: nat, row: Row, lost: set<nat>)
    requires CanonicalSlot(p.table, p.geo.blockSize, token) == Some(native) && CanDecode(p, token) == true
    requires Destination(p.slide.core, token, native, true) == Ok(chosen)
    ensures DecodeCall(p, id, token, row, lost) == DecodeEnd(Opened(p, id, token, chosen, native, row), id, lost)
  {}

  lemma DecodeEndIs(o: Arena, id: nat, token: nat, chosen: nat, native: nat, row: Row, lost: set<nat>)
    requires id in o.jobs && id in o.slide.ops && o.slide.ops[id].Decode? && chosen !in lost && native !in lost
    requires o.jobs[id].plan == map[chosen := row, native := row]
    ensures DecodeEnd(o, id, lost) == DecodeDone(o, id)
  {}

  lemma OpenedParts(p: Arena, id: nat, token: nat, chosen: nat, native: nat, row: Row) returns (o: Arena)
    ensures o == Opened(p, id, token, chosen, native, row) && o.mem == p.mem
    ensures id in o.jobs && o.jobs[id].plan == map[chosen := row, native := row] && id in o.slide.ops
    ensures o.slide.ops[id] == Decode(token, chosen, native, p.slide.core.generation, Slide.Writing)
    ensures o.slide.core.generation == p.slide.core.generation && o.slide.core.closed == p.slide.core.closed
  {
    o := Opened(p, id, token, chosen, native, row);
  }

  lemma DecodeDoneParts(o: Arena, id: nat, token: nat, chosen: nat, native: nat, row: Row)
    requires id in o.jobs && id in o.slide.ops && !o.slide.core.closed
    requires o.slide.ops[id] == Decode(token, chosen, native, o.slide.core.generation, Slide.Writing)
    requires o.jobs[id].plan == map[chosen := row, native := row]
    ensures LeftBy(o.mem, DecodeDone(o, id), token, chosen, native, row) == true
  {}

  ghost predicate TableAllowed(p: Arena, row: seq<int>) {
    && !p.slide.core.closed && row != [] && (forall i :: 0 <= i < |row| ==> -1 <= row[i] < p.geo.blocks)
    && forall t :: t in p.canonical ==> IsHome(row, p.geo.blockSize, t, p.canonical[t])
  }

  /** A block table is accepted exactly if it is one of the cache's and every token there is
      has its home where it had it before. */
  lemma TableAcceptedExactly(p: Arena, row: seq<int>)
    ensures CanUpdateTable(p, row) <==> TableAllowed(p, row)
  {
    forall t | t in p.canonical
      ensures IsHome(row, p.geo.blockSize, t, p.canonical[t])
              <==> CanonicalSlot(row, p.geo.blockSize, t) == Some(p.canonical[t])
    {
      CanonicalExactly(row, p.geo.blockSize, t, p.canonical[t]);
    }
  }

  // ---- where the rows lie afterwards -------------------------------------------------------

  lemma GuardedMemory(p: Arena, id: nat, guarded: set<nat>, job: Job, lost: set<nat>)
    requires job.plan.Keys !! lost
    ensures GuardedCall(p, id, guarded, job, lost).mem == p.mem + job.plan
  {
    var q := Begun(p, id, guarded, job);
    assert Copied(q, id, lost) == Arrived(q, id);
    ExitedMemory(Arrived(q, id), id);
    ConcludedMemory(p.canonical, Exited(Arrived(q, id), id), job, lost);
  }

  lemma ExitedMemory(q: Arena, id: nat)
    ensures Exited(q, id).mem == q.mem
  {}

  lemma ConcludedMemory(canonical: map<nat, nat>, q: Arena, job: Job, lost: set<nat>)
    ensures Concluded(canonical, q, job, lost).mem == q.mem
  {
    var ready, selected := q.baselineReady + Covering(canonical, job.plan), q.selected + job.assign.Keys;
    assert q.(baselineReady := ready).mem == q.mem && q.(selected := selected).mem == q.mem;
  }

  /** After a granted baseline write every row lies where the engine looks for its token,
      also if the token now lives elsewhere, and no other slot has changed. */
  lemma BaselineLiesAtHome(p: Arena, id: nat, rows: map<nat, Row>, lost: set<nat>)
    requires Good(p) && WriteGranted(p, rows) && Image(p.canonical, rows.Keys) !! lost
    ensures var q := WriteCall(p, id, rows, lost);
            && LiesAtHome(p, q.mem, rows) && KeepsOthers(p.mem, q.mem, Image(p.canonical, rows.Keys))
  {
    Part(p, Names);
    PlacedFacts(p.canonical, rows);
    GuardedMemory(p, id, Image(p.canonical, rows.Keys), BaselineJob(p, rows), lost);
    PlacedLies(p, rows);
  }

  lemma ReadyLiesAtHome(p: Arena, id: nat, rows: map<nat, Row>, lost: set<nat>)
    requires Good(p) && ReadyGranted(p, rows) && Image(p.canonical, rows.Keys) !! lost
    ensures var q := ReadyCall(p, id, rows, lost);
            && LiesAtHome(p, q.mem, rows) && KeepsOthers(p.mem, q.mem, Image(p.canonical, rows.Keys))
  {
    Part(p, Names);
    PlacedFacts(p.canonical, rows);
    GuardedMemory(p, id, Image(p.canonical, rows.Keys), ReadyJob(p, rows), lost);
    PlacedLies(p, rows);
  }

  ghost predicate LiesAtHome(p: Arena, mem: map<nat, Row>, rows: map<nat, Row>) {
    forall t: nat, s: nat :: t in rows && IsHome(p.table, p.geo.blockSize, t, s) ==> s in mem && mem[s] == rows[t]
  }

  ghost predicate KeepsOthers(before: map<nat, Row>, after: map<nat, Row>, written: set<nat>) {
    forall s :: s in before && s !in written ==> s in after && after[s] == before[s]
  }

  lemma PlacedLies(p: Arena, rows: map<nat, Row>)
    requires Good(p) && rows.Keys <= p.canonical.Keys
    ensures LiesAtHome(p, p.mem + Paged.Placed(p.canonical, rows), rows) == true
  {
    Part(p, Names);
    PlacedFacts(p.canonical, rows);
    forall t: nat, s: nat | t in rows && IsHome(p.table, p.geo.blockSize, t, s)
      ensures s in Paged.Placed(p.canonical, rows) && Paged.Placed(p.canonical, rows)[s] == rows[t]
    {
      CanonicalExactly(p.table, p.geo.blockSize, t, s);
    }
  }

  /** After a granted update each token's row lies where it lives, and at its home too if
      nobody shares or uses that slot; no other slot has changed. */
  lemma UpdateLies(p: Arena, id: nat, rows: map<nat, Row>, lost: set<nat>, t: nat)
    requires Good(p) && Idle(p) && UpdateGranted(p, rows) && UpdateJob(p, rows).plan.Keys !! lost && t in rows
    ensures var q, now, home := UpdateCall(p, id, rows, lost), p.slide.core.slots[t], p.canonical[t];
            && now in q.mem && q.mem[now] == rows[t]
            && (home == now || Writable(p, home) ==> home in q.mem && q.mem[home] == rows[t])
  {
    UpdatePlan(p, rows, t);
    UpdateMemory(p, id, rows, lost);
  }

  /** Each row lies where its token lives, and at its home if nobody shares or uses that. */
  ghost predicate Mirrored(p: Arena, mem: map<nat, Row>, rows: map<nat, Row>) {
    forall t :: t in rows ==> t in p.slide.core.slots && t in p.canonical && MirroredAt(p, mem, t, rows[t])
  }

  ghost predicate MirroredAt(p: Arena, mem: map<nat, Row>, t: nat, row: Row)
    requires t in p.slide.core.slots && t in p.canonical
  {
    var now, home := p.slide.core.slots[t], p.canonical[t];
    && now in mem && mem[now] == row && (home == now || Writable(p, home) ==> home in mem && mem[home] == row)
  }

  lemma UpdateMirrors(p: Arena, id: nat, rows: map<nat, Row>, lost: set<nat>)
    requires Good(p) && Idle(p) && UpdateGranted(p, rows) && UpdateJob(p, rows).plan.Keys !! lost
    ensures Mirrored(p, UpdateCall(p, id, rows, lost).mem, rows)
  {
    forall t | t in rows ensures MirroredAt(p, UpdateCall(p, id, rows, lost).mem, t, rows[t]) == true {
      UpdateLies(p, id, rows, lost, t);
    }
  }

  lemma UpdateMemory(p: Arena, id: nat, rows: map<nat, Row>, lost: set<nat>)
    requires UpdateGranted(p, rows) && UpdateJob(p, rows).plan.Keys !! lost
    ensures UpdateCall(p, id, rows, lost).mem == p.mem + UpdateJob(p, rows).plan
  {
    GuardedMemory(p, id,
      Image(p.slide.core.slots, rows.Keys) + Available(p.slide.core, Image(p.canonical, Mirrors(p, rows.Keys))),
      UpdateJob(p, rows), lost);
  }

  lemma UpdatePlan(p: Arena, rows: map<nat, Row>, t: nat)
    requires Good(p) && CanUpdate(p, rows) && t in rows && Idle(p)
    ensures var plan, now, home := UpdateJob(p, rows).plan, p.slide.core.slots[t], p.canonical[t];
            && now in plan && plan[now] == rows[t]
            && (home == now || Writable(p, home) ==> home in plan && plan[home] == rows[t])
  {
    IdleSettled(p);
    Settled(p);
    MirrorsOpen(p, rows, t);
    PlacedFacts(p.slide.core.slots, rows);
    PlacedFacts(p.canonical, Only(rows, OpenMirrors(p, rows.Keys)));
  }

  lemma MirrorsOpen(p: Arena, rows: map<nat, Row>, t: nat)
    requires Good(p) && t in rows && rows.Keys <= p.canonical.Keys && rows.Keys <= p.slide.core.slots.Keys
    ensures t in OpenMirrors(p, rows.Keys) <==> Writable(p, p.canonical[t]) && p.canonical[t] != p.slide.core.slots[t]
  {
    OpenExactly(p, Image(p.canonical, Mirrors(p, rows.Keys)));
  }

  /** The token lives in a slot of the sidecar, its row lies there, it counts as selected,
      and the slot it left is a hole unless it is shared. */
  ghost predicate Moved(p: Arena, q: Arena, t: nat, row: Row) {
    && t in q.slide.core.slots && q.slide.core.slots[t] >= NativeSlots(p.geo.blocks, p.geo.blockSize)
    && q.slide.core.slots[t] in q.mem && q.mem[q.slide.core.slots[t]] == row && t in q.selected
    && t in p.slide.core.slots
    && (p.slide.core.slots[t] in q.slide.core.vacated || p.slide.core.slots[t] in p.slide.core.shared)
  }

  /** The promotion as the map has taken it up. */
  ghost predicate Taken(p: Arena, q: Arena, id: nat, rows: map<nat, Row>) {
    && id in q.jobs && id in q.slide.ops && q.slide.ops[id].Promotion? && q.slide.ops[id].phase.Writing?
    && q.jobs[id].assign == rows && !q.slide.core.closed && rows.Keys <= q.selected
    && q.slide.core.slots == p.slide.core.slots && q.slide.core.shared == p.slide.core.shared
    && q.geo == p.geo && q.slide.ops[id].dest.Keys == rows.Keys
  }

  lemma TakenMapping(s: System, id: nat, order: seq<nat>, load: LoadState, callback: nat)
    requires SlideTheorems.Safe(s) == true && id !in s.ops && id != callback && callback !in s.ops
    ensures var s' := Apply(s, PromoteBegin(id, order, load, callback, false));
            id in s'.ops ==>
              && s'.ops[id].Promotion? && s'.ops[id].phase.Writing? && s'.ops[id].dest.Keys == (set t | t in order)
              && !s'.core.closed && s'.core.slots == s.core.slots && s'.core.shared == s.core.shared
  {
    var s1 := PromoteEffect(s, id, order, load, callback);
    if id in Apply(s, PromoteBegin(id, order, load, callback, false)).ops {
      assert SameMapping(s.core, s1.core);
    }
  }

  lemma TakenFields(p: Arena, s: System, id: nat, nothing: bool, rows: map<nat, Row>, future: Option<nat>,
                    callback: nat)
    requires id !in p.slide.ops && id in s.ops && s.ops[id].Promotion? && s.ops[id].phase.Writing?
    requires s.ops[id].dest.Keys == rows.Keys && !s.core.closed
    requires s.core.slots == p.slide.core.slots && s.core.shared == p.slide.core.shared
    ensures Taken(p, Promoted(p, s, id, nothing, rows, future, callback), id, rows) == true
  {}

  lemma TakenGood(p: Arena, id: nat, order: seq<nat>, rows: map<nat, Row>, future: Option<nat>, callback: nat)
    requires Good(p) && Idle(p) && NewCall(p, id) && NewCall(p, callback) && id != callback && Distinct(order)
    requires rows.Keys == (set u | u in order) && CanPromote(p, order, future) == true
    requires id in Promoting(p, id, order, rows, future, callback).slide.ops
    ensures Good(Promoting(p, id, order, rows, future, callback)) == true
    ensures Taken(p, Promoting(p, id, order, rows, future, callback), id, rows) == true
  {
    assert SlideTheorems.Safe(p.slide) == true by { Part(p, Map); }
    var s := Apply(p.slide, PromoteBegin(id, order, LoadStatus(p, future), callback, false));
    TakenMapping(p.slide, id, order, LoadStatus(p, future), callback);
    Takes(p, id, order, rows, future, callback);
    TakenFields(p, s, id, order == [], rows, future, callback);
    PagedRuns.PromoteEnabled(p, id, order, rows, future, callback);
    StepGood(p, BeginPromote(id, order, rows, future, callback));
  }

  lemma DoneFields(q: Arena, id: nat)
    requires id in q.jobs && id in q.slide.ops && q.slide.ops[id].Promotion? && q.slide.ops[id].phase.Writing?
    requires Publishable(q.slide.core, q.slide.ops[id])
    ensures var r, op := PromotionDone(q, id), q.slide.ops[id];
            && r.mem == q.mem + q.jobs[id].plan && r.selected == q.selected
            && r.slide.core.slots == q.slide.core.slots + op.dest
            && forall x :: x in op.source.Values && x !in r.slide.core.slots.Values && x !in q.slide.core.shared ==>
                 x in r.slide.core.vacated
  {
    SlideTheorems.PublishEffect(q.slide, id);
  }

  /** A promotion that may be published: its tokens go to slots of the sidecar that carry
      nothing, each with its row. */
  ghost predicate Sends(p: Arena, q: Arena, id: nat, rows: map<nat, Row>) {
    && Taken(p, q, id, rows) && Publishable(q.slide.core, q.slide.ops[id]) && Injective(q.slide.core.slots)
    && Injective(q.slide.ops[id].dest) && q.slide.ops[id].source.Keys == rows.Keys
    && forall t :: t in rows ==>
         && q.slide.ops[id].dest[t] in q.jobs[id].plan && q.jobs[id].plan[q.slide.ops[id].dest[t]] == rows[t]
         && q.slide.ops[id].dest[t] !in q.slide.core.slots.Values
         && q.slide.ops[id].dest[t] >= NativeSlots(p.geo.blocks, p.geo.blockSize)
  }

  lemma TakenSends(p: Arena, q: Arena, id: nat, rows: map<nat, Row>)
    requires Good(q) && Taken(p, q, id, rows)
    ensures Sends(p, q, id, rows) == true
  {
    PromotionFacts(q, id);
    assert Injective(q.slide.core.slots) by { Part(q, NoAlias); }
    assert Publishable(q.slide.core, q.slide.ops[id]) by {
      MapInv(q);
      SourceUnmoved(q.slide, id);
      SoundOp(q.slide, id);
    }
    assert q.slide.core.floor == NativeSlots(q.geo.blocks, q.geo.blockSize) by { Part(q, Space); }
    forall t | t in rows ensures q.slide.ops[id].dest[t] !in q.slide.core.slots.Values {
      assert q.slide.ops[id].dest[t] in Claim(q.slide.ops[id]);
    }
  }

  /** What becomes of one token of the promotion. */
  lemma MovedRow(p: Arena, q: Arena, id: nat, rows: map<nat, Row>, t: nat)
    requires Sends(p, q, id, rows) && t in rows
    ensures Moved(p, PromotionDone(q, id), t, rows[t]) == true
  {
    DoneFields(q, id);
    LeftBehind(q.slide.core.slots, q.slide.ops[id].source, q.slide.ops[id].dest, t);
  }

  /** The slot the token had carries nothing any more. */
  lemma LeftBehind(slots: map<nat, nat>, source: map<nat, nat>, dest: map<nat, nat>, t: nat)
    requires t in dest && source.Keys == dest.Keys && Injective(slots)
    requires forall u :: u in source ==> u in slots && slots[u] == source[u]
    requires forall u :: u in dest ==> dest[u] !in slots.Values
    ensures source[t] in source.Values && source[t] !in (slots + dest).Values
  {
    forall u | u in slots + dest ensures (slots + dest)[u] != source[t] {
      if u in dest { assert slots[t] in slots.Values; }
    }
  }

  /** After a promotion that succeeds every one of its tokens has moved to the sidecar, and
      every other token lives where it did. */
  lemma PromotionLies(p: Arena, id: nat, order: seq<nat>, rows: map<nat, Row>, future: Option<nat>, callback: nat,
                      lost: set<nat>, t: nat)
    requires Good(p) && Idle(p) && NewCall(p, id) && NewCall(p, callback) && id != callback && Distinct(order)
    requires rows.Keys == (set u | u in order) && order != [] && t in p.slide.core.slots
    requires Promotes(p, id, order, rows, future, callback, lost)
    ensures MovedOrKept(p, PromoteCall(p, id, order, rows, future, callback, lost), rows, t) == true
  {
    var q := Promoting(p, id, order, rows, future, callback);
    TakenGood(p, id, order, rows, future, callback);
    CallPublishes(p, id, order, rows, future, callback, lost);
    TakenSends(p, q, id, rows);
    if t in rows { MovedRow(p, q, id, rows, t); }
    else { OthersStay(p, q, id, rows, t); }
  }

  lemma CallPublishes(p: Arena, id: nat, order: seq<nat>, rows: map<nat, Row>, future: Option<nat>, callback: nat,
                      lost: set<nat>)
    requires Promotes(p, id, order, rows, future, callback, lost) && order != []
    requires var q := Promoting(p, id, order, rows, future, callback);
             id in q.slide.ops && id in q.jobs && q.slide.ops[id].Promotion?
    ensures PromoteCall(p, id, order, rows, future, callback, lost)
            == PromotionDone(Promoting(p, id, order, rows, future, callback), id)
  {}

  lemma OthersStay(p: Arena, q: Arena, id: nat, rows: map<nat, Row>, t: nat)
    requires Sends(p, q, id, rows) && t !in rows && t in p.slide.core.slots
    ensures var r := PromotionDone(q, id); t in r.slide.core.slots && r.slide.core.slots[t] == p.slide.core.slots[t]
  {
    DoneFields(q, id);
  }

  ghost predicate AllMoved(p: Arena, q: Arena, rows: map<nat, Row>) {
    && (forall t :: t in rows ==> Moved(p, q, t, rows[t]))
    && (forall t :: t in p.slide.core.slots && t !in rows ==>
          t in q.slide.core.slots && q.slide.core.slots[t] == p.slide.core.slots[t])
  }

  ghost predicate MovedOrKept(p: Arena, q: Arena, rows: map<nat, Row>, t: nat)
    requires t in p.slide.core.slots
  {
    if t in rows then Moved(p, q, t, rows[t])
    else t in q.slide.core.slots && q.slide.core.slots[t] == p.slide.core.slots[t]
  }

  lemma EachOne(p: Arena, q: Arena, rows: map<nat, Row>)
    requires rows.Keys <= p.slide.core.slots.Keys
    requires forall t :: t in p.slide.core.slots ==> MovedOrKept(p, q, rows, t)
    ensures AllMoved(p, q, rows) == true
  {
    forall t | t in rows ensures Moved(p, q, t, rows[t]) { assert MovedOrKept(p, q, rows, t); }
    forall t | t in p.slide.core.slots && t !in rows
      ensures t in q.slide.core.slots && q.slide.core.slots[t] == p.slide.core.slots[t]
    {
      assert MovedOrKept(p, q, rows, t);
    }
  }

  /** The call succeeds exactly if it is allowed and no row is lost; then all have moved. */
  lemma PromotesExactly(p: Arena, id: nat, order: seq<nat>, rows: map<nat, Row>, future: Option<nat>, callback: nat,
                        lost: set<nat>)
    requires Good(p) && Idle(p) && NewCall(p, id) && NewCall(p, callback) && id != callback && Distinct(order)
    requires rows.Keys == (set u | u in order) && order != []
    ensures Promotes(p, id, order, rows, future, callback, lost) ==> PromotionAllowed(p, order, future) == true
    ensures lost == {} && PromotionAllowed(p, order, future) ==> Promotes(p, id, order, rows, future, callback, lost)
    ensures Promotes(p, id, order, rows, future, callback, lost) ==>
              AllMoved(p, PromoteCall(p, id, order, rows, future, callback, lost), rows)
  {
    PromotionTakenExactly(p, id, order, rows, future, callback);
    if CanPromote(p, order, future) == true {
      PagedRuns.PromoteEnabled(p, id, order, rows, future, callback);
      if id in Promoting(p, id, order, rows, future, callback).slide.ops {
        TakenGood(p, id, order, rows, future, callback);
      }
    }
    if Promotes(p, id, order, rows, future, callback, lost) == true {
      Settle(p, id, order, rows, future, callback, lost);
    }
  }

  lemma Settle(p: Arena, id: nat, order: seq<nat>, rows: map<nat, Row>, future: Option<nat>, callback: nat,
               lost: set<nat>)
    requires Good(p) && Idle(p) && NewCall(p, id) && NewCall(p, callback) && id != callback && Distinct(order)
    requires rows.Keys == (set u | u in order) && order != []
    requires Promotes(p, id, order, rows, future, callback, lost) == true
    ensures AllMoved(p, PromoteCall(p, id, order, rows, future, callback, lost), rows) == true
  {
    var q := PromoteCall(p, id, order, rows, future, callback, lost);
    forall t | t in p.slide.core.slots ensures MovedOrKept(p, q, rows, t) == true {
      PromotionLies(p, id, order, rows, future, callback, lost, t);
    }
    PromotedMapped(p, id, order, rows, future, callback);
    EachOne(p, q, rows);
  }

  lemma PromotedMapped(p: Arena, id: nat, order: seq<nat>, rows: map<nat, Row>, future: Option<nat>, callback: nat)
    requires Good(p) && Idle(p) && NewCall(p, id) && NewCall(p, callback) && id != callback && Distinct(order)
    requires rows.Keys == (set u | u in order) && CanPromote(p, order, future) == true
    requires id in Promoting(p, id, order, rows, future, callback).slide.ops
    ensures forall t :: t in rows ==> t in p.slide.core.slots
  {
    TakenGood(p, id, order, rows, future, callback);
    TakenSends(p, Promoting(p, id, order, rows, future, callback), id, rows);
  }
}
