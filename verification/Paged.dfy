/** src/cacheslide_vllm/paged.py as a state machine over the slot map's machine.
    Calls that hold the arena mutex are split where they release the map's
    mutex, so promotions may complete, readers may come and go and the map may
    be retired while a device write is running. */
module Paged {
  import opened Basics
  import opened Slide

  /** One token's packed key/value record; nothing depends on its contents. */
  datatype Row = Row(key: seq<real>, value: seq<real>)

  /** A block holds at least one token. */
  type Size = x: nat | x > 0 witness 1

  datatype Kind = Baseline | Ready | Update | Promote | Append

  /** The device writes of one call: what goes to which physical slot, and what
      the call assigns to which logical token. */
  datatype Job = Job(kind: Kind, plan: map<nat, Row>, assign: map<nat, Row>, landed: bool)

  /** What the constructor fixes: the native cache's blocks, the prompt and the
      logical sidecar capacity. */
  datatype Geometry = Geometry(blocks: nat, blockSize: Size, promptLength: nat, maxSelected: nat)

  datatype Arena = Arena(
    slide: System,
    mem: map<nat, Row>,             // native slots, then the sidecar
    geo: Geometry,
    table: seq<int>,
    canonical: map<nat, nat>,
    baselineReady: set<nat>,
    selected: set<nat>,
    futures: map<nat, LoadState>,   // host loads known to the arena's callers
    loads: set<nat>,                // `_loads`
    callbacks: map<nat, nat>,       // outstanding load guard -> its host load
    broken: bool,                   // a promotion in `_promotions` failed
    decoded: bool,
    holeReuses: nat,
    nativeBinds: nat,
    busy: Option<nat>,              // guarded call holding the arena mutex
    jobs: map<nat, Job>,
    views: map<nat, map<nat, Row>>, // what each reader's slots held when it pinned them
    logical: map<nat, Row>)         // the plain token -> record map being implemented

  datatype Step =
    | BeginWrite(id: nat, rows: map<nat, Row>)
    | BeginReady(id: nat, rows: map<nat, Row>)
    | BeginUpdate(id: nat, rows: map<nat, Row>)
    | BeginDecode(id: nat, token: nat, row: Row)
    | BeginPromote(id: nat, order: seq<nat>, rows: map<nat, Row>, future: Option<nat>, callback: nat)
    | Scribble(now: map<nat, Row>)  // device writes in progress
    | Land(id: nat)                 // all device writes of the call are complete
    | Finish(id: nat)               // a baseline, ready or fused write leaves its guard
    | PublishDecode(id: nat)
    | AbortDecode(id: nat)
    | ReleaseDecode(id: nat)
    | PublishPromotion(id: nat)
    | AbortPromotion(id: nat)
    | ReleasePromotion(id: nat)
    | NewLoad(load: nat, state: LoadState)
    | Resolve(load: nat, ok: bool)
    | LoadCallback(id: nat)
    | PinRows(id: nat, tokens: set<nat>)
    | UnpinRows(id: nat)
    | UpdateTable(entries: seq<int>)
    | Retirement                    // `invalidate`, also what a failed device copy does

  // ---- layout -------------------------------------------------------------

  function NativeSlots(blocks: nat, blockSize: Size): nat {
    blocks * blockSize
  }

  /** `_canonical_slot` */
  function CanonicalSlot(table: seq<int>, blockSize: Size, token: nat): Option<nat>
  {
    var block := token / blockSize;
    if block >= |table| || table[block] < 0 then None
    else Some(table[block] * blockSize + token % blockSize)
  }

  /** `_table` accepts the row. */
  predicate ValidTable(blocks: nat, row: seq<int>) {
    row != [] && forall i :: 0 <= i < |row| ==> -1 <= row[i] < blocks
  }

  /** A native slot of some block the row names. */
  ghost predicate Owned(table: seq<int>, blockSize: Size, s: nat)
  {
    exists i :: 0 <= i < |table| && table[i] >= 0 && s / blockSize == table[i]
  }

  function Prompt(table: seq<int>, blockSize: Size, n: nat): map<nat, nat>
    requires forall t :: 0 <= t < n ==> CanonicalSlot(table, blockSize, t).Some?
  {
    map t: nat | t < n :: CanonicalSlot(table, blockSize, t).value
  }

  // ---- construction ---------------------------------------------------------

  predicate CanCreate(blocks: nat, blockSize: Size, table: seq<int>, n: nat, shared: set<nat>) {
    && blocks > 0 && n > 0 && ValidTable(blocks, table)
    && (forall t :: 0 <= t < n ==> CanonicalSlot(table, blockSize, t).Some?)
    && |Prompt(table, blockSize, n).Values| == n
    && shared <= Prompt(table, blockSize, n).Values
  }

  /** A new arena over whatever the native cache currently contains. */
  function NewArena(blocks: nat, blockSize: Size, table: seq<int>, n: nat, maxSelected: nat, shared: set<nat>,
                    mem: map<nat, Row>): (r: Option<Arena>)
    requires forall s: nat :: s in mem <==> s < NativeSlots(blocks, blockSize) + maxSelected
  {
    if !CanCreate(blocks, blockSize, table, n, shared) then None
    else
      var floor := NativeSlots(blocks, blockSize);
      var canonical := Prompt(table, blockSize, n);
      match Create(canonical, shared, floor, Some(floor + maxSelected))
      case None => None
      case Some(s) =>
        Some(Arena(s, mem, Geometry(blocks, blockSize, n, maxSelected), table, canonical, {}, {}, map[], {}, map[],
                false, false,
                   0, 0, None, map[], map[],
                   map t | t in canonical && canonical[t] in mem :: mem[canonical[t]]))
  }

  // ---- guards of the calls ----------------------------------------------------

  predicate LoadsDone(p: Arena) {
    forall l :: l in p.loads ==> l in p.futures && p.futures[l].LoadDone?
  }

  predicate NoLoadFailed(p: Arena) {
    forall l :: l in p.loads && l in p.futures ==> !p.futures[l].LoadFailed?
  }

  predicate PromotionsDone(p: Arena) {
    !p.broken && forall id :: id in p.slide.ops ==> !p.slide.ops[id].Promotion?
  }

  predicate Idle(p: Arena) {
    p.busy.None?
  }

  predicate NewCall(p: Arena, id: nat) {
    id !in p.slide.ops
  }

  predicate CanWrite(p: Arena, rows: map<nat, Row>) {
    !p.slide.core.closed && LoadsDone(p) && !p.decoded && rows.Keys <= p.canonical.Keys
    && Image(p.canonical, rows.Keys) !! p.slide.core.shared
  }

  predicate CanWriteReady(p: Arena, rows: map<nat, Row>) {
    !p.slide.core.closed && LoadsDone(p) && PromotionsDone(p) && !p.decoded
    && |p.baselineReady| == p.geo.promptLength && rows.Keys <= p.canonical.Keys && rows.Keys !! p.selected
    && forall t :: t in rows ==> t in p.slide.core.slots && p.slide.core.slots[t] == p.canonical[t]
  }

  predicate CanUpdate(p: Arena, rows: map<nat, Row>) {
    !p.slide.core.closed && LoadsDone(p) && PromotionsDone(p) && !p.decoded
    && rows.Keys <= p.slide.core.slots.Keys && rows.Keys <= p.canonical.Keys
    && Image(p.slide.core.slots, rows.Keys) !! p.slide.core.shared
  }

  predicate CanPromote(p: Arena, order: seq<nat>, future: Option<nat>) {
    !p.decoded && (forall t :: t in order ==> t !in p.selected)
    && (future.Some? && future.value in p.futures ==> !p.futures[future.value].LoadFailed?)
  }

  predicate CanDecode(p: Arena, token: nat)
  {
    NoLoadFailed(p) && PromotionsDone(p) && token == |p.canonical|
    && CanonicalSlot(p.table, p.geo.blockSize, token).Some?
    && CanonicalSlot(p.table, p.geo.blockSize, token).value !in p.canonical.Values
  }

  predicate CanUpdateTable(p: Arena, row: seq<int>)
  {
    ValidTable(p.geo.blocks, row) && !p.slide.core.closed
    && forall t :: t in p.canonical ==> CanonicalSlot(row, p.geo.blockSize, t) == Some(p.canonical[t])
  }

  function Image(slots: map<nat, nat>, tokens: set<nat>): set<nat>
    requires tokens <= slots.Keys
  {
    set t | t in tokens :: slots[t]
  }

  // ---- what a call writes -----------------------------------------------------

  ghost function OwnerOf(slots: map<nat, nat>, tokens: set<nat>, s: nat): nat
    requires tokens <= slots.Keys && s in Image(slots, tokens)
  {
    var t :| t in tokens && slots[t] == s; t
  }

  /** The physical writes that send each token's row to its slot. */
  ghost function Placed(slots: map<nat, nat>, rows: map<nat, Row>): map<nat, Row>
    requires rows.Keys <= slots.Keys
  {
    map s | s in Image(slots, rows.Keys) :: rows[OwnerOf(slots, rows.Keys, s)]
  }

  /** Tokens whose original slot is not where they live now. */
  function Mirrors(p: Arena, tokens: set<nat>): set<nat>
    requires tokens <= p.canonical.Keys && tokens <= p.slide.core.slots.Keys
  {
    set t | t in tokens && p.canonical[t] !in p.slide.core.shared && p.canonical[t] != p.slide.core.slots[t]
  }

  function Only(rows: map<nat, Row>, tokens: set<nat>): map<nat, Row> {
    map t | t in rows && t in tokens :: rows[t]
  }

  /** A baseline write reaches a token only where it still lives originally. */
  function Unmoved(p: Arena, rows: map<nat, Row>): map<nat, Row> {
    map t | t in rows && t in p.canonical && t in p.slide.core.slots
        && p.slide.core.slots[t] == p.canonical[t] :: rows[t]
  }

  /** Slots that device writes in progress may change. */
  ghost predicate Dirty(ops: map<nat, Op>, jobs: map<nat, Job>, s: nat) {
    exists id :: id in jobs && DirtyBy(ops, jobs[id], id, s)
  }

  ghost predicate DirtyBy(ops: map<nat, Op>, job: Job, id: nat, s: nat) {
    !job.landed && id in ops && Active(ops[id]) && s in job.plan
  }

  // ---- the steps ----------------------------------------------------------------

  /** Neither memory nor readers nor the assigned rows change. */
  ghost predicate Quiet(p: Arena, r: Arena) {
    r.mem == p.mem && r.views == p.views && r.logical == p.logical
  }

  /** A guarded call enters if the map grants its reservation. */
  ghost function Begin(p: Arena, id: nat, required: set<nat>, optional: set<nat>, job: Job): (r: Arena)
    ensures Quiet(p, r)
  {
    var s := Apply(p.slide, GuardEnter(id, required, optional));
    if s == p.slide then p else p.(slide := s, busy := Some(id), jobs := p.jobs[id := job])
  }

  ghost function BeginUpdating(p: Arena, id: nat, rows: map<nat, Row>): (r: Arena)
    requires rows.Keys <= p.slide.core.slots.Keys && rows.Keys <= p.canonical.Keys
    ensures Quiet(p, r)
  {
    var slots := p.slide.core.slots;
    var mirrors := Mirrors(p, rows.Keys);
    var open := set t | t in mirrors && p.canonical[t] in Available(p.slide.core, Image(p.canonical, mirrors));
    var plan := Placed(slots, rows) + Placed(p.canonical, Only(rows, open));
    Begin(p, id, Image(slots, rows.Keys), Image(p.canonical, mirrors), Job(Update, plan, rows, false))
  }

  function LoadStatus(p: Arena, future: Option<nat>): LoadState {
    if future.None? then NoLoad
    else if future.value in p.futures then p.futures[future.value] else LoadPending
  }

  ghost function Promoting(p: Arena, id: nat, order: seq<nat>, rows: map<nat, Row>, future: Option<nat>,
                           callback: nat): (r: Arena)
    ensures Quiet(p, r) && r.busy == p.busy
  {
    var load := LoadStatus(p, future);
    Promoted(p, Apply(p.slide, PromoteBegin(id, order, load, callback, false)), id, order == [], rows, future, callback)
  }

  /** The arena once the map has answered; `s` is the map's new state. */
  ghost function Promoted(p: Arena, s: System, id: nat, nothing: bool, rows: map<nat, Row>, future: Option<nat>,
                          callback: nat): (r: Arena)
    ensures Quiet(p, r) && r.busy == p.busy
  {
    var known := if future.Some? && future.value !in p.futures then p.futures[future.value := LoadPending]
        else p.futures;
    var loads := if future.Some? then p.loads + {future.value} else p.loads;
    if id in s.ops && id !in p.slide.ops && s.ops[id].Promotion? && rows.Keys == s.ops[id].dest.Keys then
      p.(slide := s, futures := known, loads := loads,
         callbacks := if LoadStatus(p, future).LoadPending? then p.callbacks[callback := future.value] else p.callbacks,
         selected := p.selected + rows.Keys,
         jobs := p.jobs[id := Job(Promote, Placed(s.ops[id].dest, rows), rows, false)])
    else if nothing && !p.slide.core.closed then p.(futures := known, loads := loads)
    else p.(slide := s, futures := known)   // a full arena may have refilled `_unused`
  }

  ghost function Appending(p: Arena, id: nat, token: nat, row: Row): (r: Arena)
    requires CanonicalSlot(p.table, p.geo.blockSize, token).Some?
    ensures Quiet(p, r)
  {
    var native := CanonicalSlot(p.table, p.geo.blockSize, token).value;
    var s := Apply(p.slide, DecodeEnter(id, token, native, true));
    if s == p.slide || id !in s.ops || !s.ops[id].Decode? then p
    else p.(slide := s, busy := Some(id),
            jobs := p.jobs[id := Job(Append, map[s.ops[id].chosen := row, native := row], map[token := row], false)])
  }

  /** Leaving a guard: bookkeeping follows only a completed write on an open map. */
  ghost function Finished(p: Arena, id: nat): (r: Arena)
    requires id in p.jobs
    ensures Quiet(p, r)
  {
    FinishedAs(p, id, Apply(p.slide, GuardExit(id)))
  }

  ghost function FinishedAs(p: Arena, id: nat, s: System): (r: Arena)
    requires id in p.jobs
    ensures Quiet(p, r)
    ensures r == p.(slide := s, busy := None, jobs := p.jobs - {id}, baselineReady := r.baselineReady,
              selected := r.selected)
    ensures r.selected == p.selected || (r.selected == p.selected + p.jobs[id].assign.Keys && !p.slide.core.closed)
  {
    var job := p.jobs[id];
    var q := p.(slide := s, busy := None, jobs := p.jobs - {id});
    if !job.landed || p.slide.core.closed then q
    else match job.kind
      case Baseline => q.(baselineReady := p.baselineReady + Targets(p, job))
      case Ready => q.(selected := p.selected + job.assign.Keys)
      case _ => q
  }

  /** The tokens whose original slots a baseline write covered. */
  ghost function Targets(p: Arena, job: Job): set<nat> {
    set t | t in p.canonical && p.canonical[t] in job.plan
  }

  ghost function Appended(p: Arena, id: nat): (r: Arena)
    requires id in p.slide.ops && p.slide.ops[id].Decode?
    ensures Quiet(p, r)
  {
    var op := p.slide.ops[id];
    var q := p.(slide := Apply(p.slide, DecodeRelease(id)), busy := None, jobs := p.jobs - {id});
    if !op.step.Published? then q
    else q.(canonical := p.canonical[op.token := op.native], decoded := true,
            holeReuses := p.holeReuses + (if op.chosen != op.native then 1 else 0),
            nativeBinds := p.nativeBinds + (if op.chosen == op.native then 1 else 0))
  }

  /** Which steps are possible at all. */
  ghost predicate Enabled(p: Arena, e: Step)
  {
    match e
    case BeginWrite(id, rows) => Idle(p) && NewCall(p, id) && CanWrite(p, rows)
    case BeginReady(id, rows) => Idle(p) && NewCall(p, id) && CanWriteReady(p, rows)
    case BeginUpdate(id, rows) => Idle(p) && NewCall(p, id) && CanUpdate(p, rows)
    case BeginDecode(id, token, row) => Idle(p) && NewCall(p, id) && CanDecode(p, token)
    case BeginPromote(id, order, rows, future, callback) =>
      Idle(p) && NewCall(p, id) && NewCall(p, callback) && id != callback && Distinct(order)
      && (forall t :: t in rows <==> t in order) && CanPromote(p, order, future)
    case Scribble(now) => now.Keys == p.mem.Keys && forall s :: s in p.mem && !Dirty(p.slide.ops, p.jobs, s) ==>
        now[s] == p.mem[s]
    case Land(id) => id in p.jobs && !p.jobs[id].landed && id in p.slide.ops && Active(p.slide.ops[id])
    case Finish(id) =>
      p.busy == Some(id) && id in p.jobs && id in p.slide.ops && p.slide.ops[id].Guard?
      && (p.jobs[id].landed || p.slide.core.closed)
    case PublishDecode(id) => id in p.slide.ops && p.slide.ops[id].Decode? && id in p.jobs && p.jobs[id].landed
    case AbortDecode(id) => id in p.slide.ops && p.slide.ops[id].Decode?
    case ReleaseDecode(id) => id in p.slide.ops && p.slide.ops[id].Decode? && !p.slide.ops[id].step.Writing?
    case PublishPromotion(id) => id in p.slide.ops && p.slide.ops[id].Promotion? && id in p.jobs && p.jobs[id].landed
    case AbortPromotion(id) => id in p.slide.ops && p.slide.ops[id].Promotion?
    case ReleasePromotion(id) => id in p.slide.ops && p.slide.ops[id].Promotion? && !p.slide.ops[id].phase.Writing?
    case NewLoad(load, state) => load !in p.futures && !state.NoLoad?
    case Resolve(load, ok) => load in p.futures && p.futures[load].LoadPending?
    case LoadCallback(id) =>
      id in p.callbacks && p.callbacks[id] in p.futures && !p.futures[p.callbacks[id]].LoadPending?
    case PinRows(id, tokens) => NewCall(p, id)
    case UnpinRows(id) => id in p.slide.ops && p.slide.ops[id].Pin?
    case UpdateTable(entries) => Idle(p) && CanUpdateTable(p, entries)
    case Retirement => true
  }

  ghost function Next(p: Arena, e: Step): Arena
  {
    if !Enabled(p, e) then p
    else match e
      case BeginWrite(id, rows) =>
        Begin(p, id, Image(p.canonical, rows.Keys), {},
              Job(Baseline, Placed(p.canonical, rows), Unmoved(p, rows), false))
      case BeginReady(id, rows) =>
        Begin(p, id, Image(p.canonical, rows.Keys), {}, Job(Ready, Placed(p.canonical, rows), rows, false))
      case BeginUpdate(id, rows) => BeginUpdating(p, id, rows)
      case BeginDecode(id, token, row) => Appending(p, id, token, row)
      case BeginPromote(id, order, rows, future, callback) => Promoting(p, id, order, rows, future, callback)
      case Scribble(now) => p.(mem := now)
      case Land(id) =>
        p.(mem := p.mem + p.jobs[id].plan, jobs := p.jobs[id := p.jobs[id].(landed := true)],
           logical := if p.slide.ops[id].Guard? then p.logical + p.jobs[id].assign else p.logical)
      case Finish(id) => Finished(p, id)
      case PublishDecode(id) =>
        var s := Apply(p.slide, Event.DecodePublish(id));
        if s == p.slide then p else p.(slide := s, logical := p.logical + p.jobs[id].assign)
      case AbortDecode(id) => p.(slide := Apply(p.slide, DecodeAbort(id)))
      case ReleaseDecode(id) => Appended(p, id)
      case PublishPromotion(id) =>
        var s := Apply(p.slide, PromotePublish(id));
        if s == p.slide then p else p.(slide := s, logical := p.logical + p.jobs[id].assign)
      case AbortPromotion(id) =>
        var s := Apply(p.slide, PromoteAbort(id));
        if s == p.slide then p else p.(slide := s, broken := true)
      case ReleasePromotion(id) => p.(slide := Apply(p.slide, PromoteRelease(id)), jobs := p.jobs - {id})
      case NewLoad(load, state) => p.(futures := p.futures[load := state])
      case Resolve(load, ok) => p.(futures := p.futures[load := if ok then LoadDone else LoadFailed])
      case LoadCallback(id) => p.(slide := Apply(p.slide, LoadFinished(id)), callbacks := p.callbacks - {id})
      case PinRows(id, tokens) =>
        var s := Apply(p.slide, PinTokens(id, tokens));
        if s == p.slide || id !in s.ops || !s.ops[id].Pin? then p
        else p.(slide := s, views := p.views[id := View(p.mem, s.ops[id].pinned)])
      case UnpinRows(id) => p.(slide := Apply(p.slide, Unpin(id)), views := p.views - {id})
      case UpdateTable(entries) => p.(table := entries)
      case Retirement => p.(slide := Apply(p.slide, Invalidate))
  }

  function View(mem: map<nat, Row>, slots: set<nat>): map<nat, Row> {
    map s | s in slots && s in mem :: mem[s]
  }

  ghost function Replay(p: Arena, es: seq<Step>): Arena
    decreases |es|
  {
    if es == [] then p else Replay(Next(p, es[0]), es[1..])
  }
}
