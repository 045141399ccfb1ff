/** src/cacheslide_vllm/slide.py as a state machine: one event per block that
    holds the map's mutex. */
module Slide {
  import opened Basics

  /** The fields of `LayerSlotMap`. */
  datatype Core = Core(
    slots: map<nat, nat>,
    shared: set<nat>,
    floor: nat,
    maxSlots: Option<nat>,
    next: nat,
    unused: set<nat>,
    vacated: set<nat>,
    pending: set<nat>,
    pins: Counter,
    inflight: Counter,
    writes: Counter,
    generation: nat,
    closed: bool)

  datatype Phase = Writing | Published | Failed

  /** What a call that is still outstanding remembers in its local variables. */
  datatype Op =
    | Pin(pinned: set<nat>)
    | Guard(guarded: set<nat>, gen: nat)
    | Loading(sources: set<nat>)
    | Promotion(source: map<nat, nat>, dest: map<nat, nat>, taken: set<nat>, gen: nat, phase: Phase)
    | Decode(token: nat, chosen: nat, native: nat, gen: nat, step: Phase)

  /** The map, the first slot it may issue itself, and all outstanding calls. */
  datatype System = System(core: Core, base: nat, ops: map<nat, Op>)

  datatype LoadState = NoLoad | LoadPending | LoadDone | LoadFailed

  datatype Event =
    | PinSlots(id: nat, slots: set<nat>)
    | PinTokens(id: nat, tokens: set<nat>)
    | Unpin(id: nat)
    | GuardEnter(id: nat, required: set<nat>, optional: set<nat>)
    | GuardExit(id: nat)
    | PromoteBegin(id: nat, order: seq<nat>, load: LoadState, loadId: nat, inplace: bool)
    | PromotePublish(id: nat)
    | PromoteAbort(id: nat)
    | PromoteRelease(id: nat)
    | LoadFinished(id: nat)
    | AllocateDecode(token: nat)
    | BindDecode(token: nat, native: nat, reuse: bool)
    | DecodeEnter(id: nat, token: nat, native: nat, reuse: bool)
    | DecodePublish(id: nat)
    | DecodeAbort(id: nat)
    | DecodeRelease(id: nat)
    | Invalidate

  // ---- what an outstanding call holds ----------------------------------

  datatype Use = Read | Write | Hold

  /** The slots a call counts in `_pins` (Read), `_writes` (Write) and `_inflight` (Hold). */
  function Uses(op: Op, u: Use): set<nat> {
    match op
    case Pin(pinned) => if u.Read? then pinned else {}
    case Guard(guarded, _) => if u.Read? then {} else guarded
    case Loading(sources) => if u.Hold? then sources else {}
    case Promotion(source, dest, _, _, _) =>
      if u.Read? then {} else if u.Write? then dest.Values else source.Values + dest.Values
    case Decode(_, chosen, native, _, _) => if u.Read? then {} else {chosen, native}
  }

  function Tokens(op: Op): set<nat> {
    match op
    case Promotion(source, _, _, _, _) => source.Keys
    case Decode(token, _, _, _, _) => {token}
    case _ => {}
  }

  /** Device writes of this call may still be in progress. */
  predicate Active(op: Op) {
    op.Guard? || (op.Promotion? && op.phase.Writing?) || (op.Decode? && op.step.Writing?)
  }

  // ---- construction -----------------------------------------------------

  /** `__init__` after its type checks; `None` is a ValueError. */
  function Create(slots: map<nat, nat>, shared: set<nat>, floor: nat, maxSlots: Option<nat>): (r: Option<System>) {
    var next := FirstFree(slots, floor);
    if shared <= slots.Values && (maxSlots.Some? ==> next <= maxSlots.value) then
      Some(System(Core(slots, shared, floor, maxSlots, next, {}, {}, {}, map[], map[], map[], 0, false), next, map[]))
    else None
  }

  /** `max(allocation_floor, max(slots) + 1)` */
  function FirstFree(slots: map<nat, nat>, floor: nat): (r: nat)
    ensures floor <= r && forall s :: s in slots.Values ==> s < r
    ensures r == floor || (r > 0 && r - 1 in slots.Values)
  {
    Above(slots.Values, floor)
  }

  function Above(s: set<nat>, floor: nat): (r: nat)
    ensures floor <= r && forall x :: x in s ==> x < r
    ensures r == floor || (r > 0 && r - 1 in s)
  {
    if s == {} then floor
    else
      var x := Least(s);
      var r := Above(s - {x}, if x < floor then floor else x + 1);
      assert forall y :: y in s ==> y == x || y in s - {x};
      r
  }

  // ---- slot allocation --------------------------------------------------

  /** `_fresh_slot`: `None` is the full arena. */
  function Fresh(c: Core): Option<(nat, Core)> {
    if c.unused != {} then
      var s := Least(c.unused);
      Some((s, c.(unused := c.unused - {s})))
    else if c.maxSlots.Some? && c.next >= c.maxSlots.value then None
    else Some((c.next, c.(next := c.next + 1)))
  }

  predicate Crowded(slots: map<nat, nat>, s: nat) {
    exists t, u :: t in slots && u in slots && t != u && slots[t] == s && slots[u] == s
  }

  predicate MustCopy(c: Core, was: nat, loadPending: bool, inplace: bool) {
    !inplace || loadPending || was in c.shared || At(c.pins, was) != 0
    || At(c.inflight, was) != 0 || Crowded(c.slots, was)
  }

  datatype Assignment = Assignment(core: Core, dest: map<nat, nat>, taken: set<nat>, ok: bool)

  /** The loop that picks a destination per selected token. A full arena gives
      every slot taken so far back to `_unused`. */
  function Assign(c: Core, order: seq<nat>, loadPending: bool, inplace: bool,
                  dest: map<nat, nat>, taken: set<nat>): Assignment
    requires forall t :: t in order ==> t in c.slots
    decreases |order|
  {
    if order == [] then Assignment(c, dest, taken, true)
    else
      var was := c.slots[order[0]];
      if MustCopy(c, was, loadPending, inplace) then
        match Fresh(c)
        case None => Assignment(c.(unused := c.unused + taken), dest, taken, false)
        case Some(p) =>
          Assign(p.1, order[1..], loadPending, inplace, dest[order[0] := p.0],
                 if p.0 != was then taken + {p.0} else taken)
      else Assign(c, order[1..], loadPending, inplace, dest[order[0] := was], taken)
  }

  /** The conditions under which `promote_selected` gets as far as its loop. */
  predicate MayPromote(c: Core, order: seq<nat>, load: LoadState) {
    !c.closed && (forall t :: t in order ==> t in c.slots && t !in c.pending) && !load.LoadFailed?
  }

  // ---- decode destinations ----------------------------------------------

  predicate Free(c: Core, s: nat) {
    s !in c.slots.Values && s !in c.shared && At(c.pins, s) == 0 && At(c.inflight, s) == 0
  }

  function Holes(c: Core, bound: Option<nat>): set<nat> {
    set s | s in c.vacated && (bound.Some? ==> s < bound.value) && Free(c, s)
  }

  predicate NewToken(c: Core, token: nat) {
    token !in c.slots && token !in c.pending
  }

  /** `_decode_destination` */
  function Destination(c: Core, token: nat, native: nat, reuse: bool): Result<nat> {
    if c.closed then Err(Stale)
    else if !NewToken(c, token) || native >= c.floor then Err(Invalid)
    else if !Free(c, native) then Err(Capacity)
    else
      var holes := Holes(c, Some(c.floor));
      Ok(if reuse && holes != {} then Least(holes) else native)
  }

  // ---- the mutex blocks -------------------------------------------------

  predicate CanPin(c: Core, slots: set<nat>) {
    !c.closed && slots <= c.slots.Values && forall s :: s in slots ==> At(c.writes, s) == 0
  }

  function SlotsOf(c: Core, tokens: set<nat>): set<nat>
    requires tokens <= c.slots.Keys
  {
    set t | t in tokens :: c.slots[t]
  }

  function Available(c: Core, optional: set<nat>): set<nat> {
    set s | s in optional && s !in c.shared && At(c.pins, s) == 0 && At(c.inflight, s) == 0
  }

  predicate CanGuard(c: Core, required: set<nat>) {
    !c.closed && required !! c.shared
    && forall s :: s in required ==> At(c.pins, s) == 0 && At(c.inflight, s) == 0
  }

  /** The docstring's ownership demand on guarded slots. */
  predicate OwnedByCaller(c: Core, slots: set<nat>) {
    forall s :: s in slots ==> s in c.slots.Values || s < c.floor
  }

  /** The publication block of `finish` goes through. */
  predicate Publishable(c: Core, op: Op)
    requires op.Promotion?
  {
    !c.closed && op.gen == c.generation
    && forall t :: t in op.source ==> t in c.slots && c.slots[t] == op.source[t]
  }

  function Publish(c: Core, op: Op): Core
    requires op.Promotion?
  {
    var slots := c.slots + op.dest;
    c.(slots := slots,
       vacated := c.vacated + (set s | s in op.source.Values && s !in slots.Values && s !in c.shared))
  }

  function Reserve(c: Core, op: Op): Core {
    c.(pins := Bump(c.pins, Uses(op, Read), 1),
       writes := Bump(c.writes, Uses(op, Write), 1),
       inflight := Bump(c.inflight, Uses(op, Hold), 1),
       pending := c.pending + Tokens(op))
  }

  function Return(c: Core, op: Op): Core {
    c.(pins := Bump(c.pins, Uses(op, Read), -1),
       writes := Bump(c.writes, Uses(op, Write), -1),
       inflight := Bump(c.inflight, Uses(op, Hold), -1),
       pending := c.pending - Tokens(op))
  }

  function Enter(s: System, core: Core, id: nat, op: Op): System {
    s.(core := Reserve(core, op), ops := s.ops[id := op])
  }

  function Leave(s: System, id: nat): System
    requires id in s.ops
  {
    s.(core := Return(s.core, s.ops[id]), ops := s.ops - {id})
  }

  function SourceOf(c: Core, order: seq<nat>): map<nat, nat>
    requires forall t :: t in order ==> t in c.slots
  {
    map t | t in order :: c.slots[t]
  }

  function BeginPromotion(s: System, e: Event): System
    requires e.PromoteBegin? && MayPromote(s.core, e.order, e.load)
  {
    var a := Assign(s.core, e.order, e.load.LoadPending?, e.inplace, map[], {});
    if !a.ok then s.(core := a.core)
    else
      var source := SourceOf(s.core, e.order);
      var s1 := Enter(s, a.core, e.id, Promotion(source, a.dest, a.taken, s.core.generation, Writing));
      if e.load.LoadPending? then Enter(s1, s1.core, e.loadId, Loading(source.Values)) else s1
  }

  function Retire(c: Core): Core {
    c.(generation := c.generation + 1, closed := true)
  }

  /** Call identifiers only name calls: a new one must be unused. */
  predicate Fits(s: System, e: Event) {
    match e
    case PinSlots(id, _) => id !in s.ops
    case PinTokens(id, _) => id !in s.ops
    case GuardEnter(id, required, optional) => id !in s.ops && OwnedByCaller(s.core, required + optional)
    case PromoteBegin(id, order, _, loadId, _) =>
      id !in s.ops && loadId !in s.ops && id != loadId && Distinct(order)
    case DecodeEnter(id, _, _, _) => id !in s.ops
    case Unpin(id) => id in s.ops && s.ops[id].Pin?
    case GuardExit(id) => id in s.ops && s.ops[id].Guard?
    case PromotePublish(id) => id in s.ops && s.ops[id].Promotion? && s.ops[id].phase.Writing?
    case PromoteAbort(id) => id in s.ops && s.ops[id].Promotion? && s.ops[id].phase.Writing?
    case PromoteRelease(id) => id in s.ops && s.ops[id].Promotion? && !s.ops[id].phase.Writing?
    case LoadFinished(id) => id in s.ops && s.ops[id].Loading?
    case DecodePublish(id) => id in s.ops && s.ops[id].Decode? && s.ops[id].step.Writing?
    case DecodeAbort(id) => id in s.ops && s.ops[id].Decode? && s.ops[id].step.Writing?
    case DecodeRelease(id) => id in s.ops && s.ops[id].Decode? && !s.ops[id].step.Writing?
    case _ => true
  }

  /** The effect of one mutex block; a block that raises leaves the map as it
      was, except where the code itself has already changed it. */
  function Apply(s: System, e: Event): System {
    var c := s.core;
    if !Fits(s, e) then s
    else match e
      case PinSlots(id, slots) =>
        if CanPin(c, slots) then Enter(s, c, id, Pin(slots)) else s
      case PinTokens(id, tokens) =>
        if tokens <= c.slots.Keys && CanPin(c, SlotsOf(c, tokens)) then Enter(s, c, id, Pin(SlotsOf(c, tokens))) else s
      case GuardEnter(id, required, optional) =>
        if CanGuard(c, required) then Enter(s, c, id, Guard(required + Available(c, optional), c.generation)) else s
      case PromoteBegin(id, order, load, loadId, inplace) =>
        if order != [] && MayPromote(c, order, load) then BeginPromotion(s, e) else s
      case PromotePublish(id) =>
        if Publishable(c, s.ops[id]) then
          s.(core := Publish(c, s.ops[id]), ops := s.ops[id := s.ops[id].(phase := Published)])
        else s
      case PromoteAbort(id) =>
        s.(core := c.(unused := c.unused + s.ops[id].taken), ops := s.ops[id := s.ops[id].(phase := Failed)])
      case AllocateDecode(token) =>
        if c.closed || !NewToken(c, token) then s
        else if Holes(c, None) != {} then
          var slot := Least(Holes(c, None));
          s.(core := c.(slots := c.slots[token := slot], vacated := c.vacated - {slot}))
        else (match Fresh(c)
          case None => s
          case Some(p) => s.(core := p.1.(slots := c.slots[token := p.0])))
      case BindDecode(token, native, reuse) =>
        (match Destination(c, token, native, reuse)
         case Err(_) => s
         case Ok(slot) => s.(core := c.(slots := c.slots[token := slot], vacated := c.vacated - {slot})))
      case DecodeEnter(id, token, native, reuse) =>
        (match Destination(c, token, native, reuse)
         case Err(_) => s
         case Ok(slot) =>
           Enter(s, c.(vacated := c.vacated - {slot}), id, Decode(token, slot, native, c.generation, Writing)))
      case DecodePublish(id) =>
        if c.closed || s.ops[id].gen != c.generation then s
        else s.(core := c.(slots := c.slots[s.ops[id].token := s.ops[id].chosen]),
                ops := s.ops[id := s.ops[id].(step := Published)])
      case DecodeAbort(id) =>
        s.(core := if c.closed then c else Retire(c), ops := s.ops[id := s.ops[id].(step := Failed)])
      case Invalidate => s.(core := Retire(c))
      case _ => Leave(s, e.id)
  }

  /** Any interleaving of the blocks of any number of calls. */
  function Run(s: System, es: seq<Event>): System
    decreases |es|
  {
    if es == [] then s else Run(Apply(s, es[0]), es[1..])
  }
}
