/** What every run of the paged arena keeps: the arena's memory, read through
    the slot map, is the plain token -> record map. */
module PagedSafety {
  import opened Basics
  import opened Slide
  import opened SlideSafety
  import opened SlideTheorems
  import opened Paged
  import opened PagedCalls

  // ---- the invariant ----------------------------------------------------------

  ghost predicate Sizes(geo: Geometry, floor: nat, base: nat, maxSlots: Option<nat>, addresses: set<nat>) {
    match geo
    case Geometry(blocks, blockSize, promptLength, maxSelected) =>
      && floor == base == NativeSlots(blocks, blockSize)
      && maxSlots == Some(floor + maxSelected)
      && (forall s: nat :: s in addresses <==> s < floor + maxSelected)
  }

  /** Tokens 0.. each have their own native slot in the caller's block table. */
  ghost predicate Canon(geo: Geometry, floor: nat, canonical: map<nat, nat>, table: seq<int>) {
    match geo
    case Geometry(blocks, blockSize, promptLength, maxSelected) =>
      && (forall t: nat :: t in canonical <==> t < |canonical|)
      && Injective(canonical) && ValidTable(blocks, table)
      && (forall t :: t in canonical ==>
            canonical[t] < floor && CanonicalSlot(table, blockSize, t) == Some(canonical[t]))
  }

  /** Every decoded token was either given a hole or bound natively. */
  ghost predicate Tallied(canonical: map<nat, nat>, promptLength: nat, reuses: nat, binds: nat, decoded: bool) {
    reuses + binds + promptLength == |canonical| && (!decoded ==> |canonical| == promptLength)
  }

  predicate Guarding(op: Op) {
    op.Guard? || op.Decode?
  }

  /** At most one guarded call holds the arena mutex. */
  ghost predicate BusyFits(ops: map<nat, Op>, busy: Option<nat>, jobs: set<nat>, callbacks: set<nat>) {
    match busy
    case None =>
      && (forall id :: id in ops ==> !Guarding(ops[id]))
      && (forall id :: id in jobs <==> id in ops && ops[id].Promotion?)
      && (forall id :: id in callbacks <==> id in ops && ops[id].Loading?)
    case Some(holder) =>
      && holder in ops && Guarding(ops[holder])
      && (forall id :: id in ops && Guarding(ops[id]) ==> id == holder)
      && (forall id :: id in jobs <==> id in ops && (id == holder || ops[id].Promotion?))
      && (forall id :: id in callbacks <==> id in ops && ops[id].Loading?)
  }

  /** A guarded write covers exactly its reservation, and the rows it sends to
      mapped slots are the ones it assigns to the tokens living there. */
  ghost predicate GuardJob(slots: map<nat, nat>, op: Op, job: Job)
    requires op.Guard?
  {
    && !job.kind.Promote? && !job.kind.Append?
    && job.plan.Keys == op.guarded && job.assign.Keys <= slots.Keys
    && (forall t :: t in slots ==> (t in job.assign <==> slots[t] in job.plan))
    && (forall t :: t in job.assign && t in slots && slots[t] in job.plan ==> job.plan[slots[t]] == job.assign[t])
  }

  ghost predicate PromotionJob(mem: map<nat, Row>, selected: set<nat>, op: Op, job: Job)
    requires op.Promotion?
  {
    && job.kind.Promote? && job.plan.Keys == op.dest.Values == op.taken
    && job.assign.Keys == op.source.Keys == op.dest.Keys && op.source.Keys <= selected
    && (forall t :: t in op.dest ==> job.plan[op.dest[t]] == job.assign[t])
    && (job.landed && op.phase.Writing? ==> Landed(mem, job.plan))
  }

  ghost predicate Landed(mem: map<nat, Row>, plan: map<nat, Row>) {
    forall s :: s in plan ==> s in mem && mem[s] == plan[s]
  }

  ghost predicate DecodeJob(mem: map<nat, Row>, canonical: map<nat, nat>, table: seq<int>, blockSize: Size, op: Op,
                            job: Job)
    requires op.Decode?
  {
    && job.kind.Append? && job.assign.Keys == {op.token} && job.plan.Keys == {op.chosen, op.native}
    && job.plan[op.chosen] == job.plan[op.native] == job.assign[op.token]
    && (job.landed && op.step.Writing? ==> Landed(mem, job.plan))
    && op.token == |canonical| && op.native !in canonical.Values
    && CanonicalSlot(table, blockSize, op.token) == Some(op.native)
    && (op.chosen == op.native || op.chosen in canonical.Values)
  }

  ghost predicate JobFits(slots: map<nat, nat>, mem: map<nat, Row>, selected: set<nat>, canonical: map<nat, nat>,
                          table: seq<int>, blockSize: Size, op: Op, job: Job)
  {
    match op
    case Guard(_, _) => GuardJob(slots, op, job)
    case Promotion(_, _, _, _, _) => PromotionJob(mem, selected, op, job)
    case Decode(_, _, _, _, _) => DecodeJob(mem, canonical, table, blockSize, op, job)
    case _ => false
  }

  ghost predicate JobsFit(slots: map<nat, nat>, ops: map<nat, Op>, mem: map<nat, Row>, jobs: map<nat, Job>,
                          selected: set<nat>,
                          canonical: map<nat, nat>, table: seq<int>, blockSize: Size)
  {
    forall id :: id in jobs ==>
        id in ops && JobFits(slots, mem, selected, canonical, table, blockSize, ops[id], jobs[id])
  }

  /** The arena implements the token -> record map: a slot no device write is
      changing holds the value last assigned to the token living there. */
  ghost predicate Values(slots: map<nat, nat>, ops: map<nat, Op>, jobs: map<nat, Job>, mem: map<nat, Row>,
                         logical: map<nat, Row>)
  {
    forall t :: t in slots && t in logical && !Dirty(ops, jobs, slots[t]) ==>
        slots[t] in mem && mem[slots[t]] == logical[t]
  }

  /** A reader's pinned slots still hold what they held when it pinned them. */
  ghost predicate ViewsFit(ops: map<nat, Op>, views: map<nat, map<nat, Row>>, mem: map<nat, Row>) {
    && (forall id :: id in views <==> id in ops && ops[id].Pin?)
    && (forall id :: id in views ==> views[id].Keys == ops[id].pinned && Landed(mem, views[id]))
  }

  /** A token whose decode is published but not yet recorded as canonical. */
  ghost predicate Extra(ops: map<nat, Op>, t: nat) {
    exists id :: id in ops && ops[id].Decode? && ops[id].step.Published? && ops[id].token == t
  }

  /** A native slot carrying a token, a hole or a reservation belongs to a
      canonical token, or is the one a decode is binding. */
  ghost predicate Native(ops: map<nat, Op>, canonical: map<nat, nat>, s: nat) {
    s in canonical.Values || exists id :: id in ops && ops[id].Decode? && s == ops[id].native
  }

  /** Until the first decode a token lives at its original slot or in the sidecar. */
  ghost predicate AtHome(slots: map<nat, nat>, floor: nat, canonical: map<nat, nat>) {
    forall t :: t in slots && t in canonical ==> slots[t] == canonical[t] || slots[t] >= floor
  }

  ghost predicate Layout(c: Core, ops: map<nat, Op>, canonical: map<nat, nat>) {
    && (forall t :: t in c.slots <==> t in canonical || Extra(ops, t))
    && (forall s :: s in c.slots.Values + c.vacated + c.shared && s < c.floor ==> Native(ops, canonical, s))
    && (forall id, s :: id in ops && s < c.floor && s in Uses(ops[id], Read) + Uses(ops[id], Hold) ==>
            Native(ops, canonical, s))
  }

  /** Promotions in progress keep clear of a guarded write's slots, and a decode
      waits for all of them. */
  ghost predicate Apart(ops: map<nat, Op>, decoded: bool) {
    if decoded then forall i :: i in ops ==> !ops[i].Promotion?
    else
      && (forall i, j :: i in ops && j in ops && ops[i].Promotion? && ops[j].Guard? ==>
              Uses(ops[i], Hold) !! ops[j].guarded)
      && (forall i, j :: i in ops && j in ops && ops[i].Promotion? ==> !ops[j].Decode?)
  }

  /** A decode fails only by retiring the map. */
  ghost predicate FailedRetires(ops: map<nat, Op>, closed: bool) {
    forall id :: id in ops && ops[id].Decode? && ops[id].step.Failed? ==> closed
  }

  /** A guarded native slot belongs to a canonical token. */
  ghost predicate GuardsOwned(ops: map<nat, Op>, floor: nat, canonical: map<nat, nat>) {
    forall id, s :: id in ops && ops[id].Guard? && s in ops[id].guarded && s < floor ==> s in canonical.Values
  }

  /** Only selected tokens ever live in the sidecar, and none leaves it. */
  ghost predicate SidecarFits(slots: map<nat, nat>, vacated: set<nat>, floor: nat, ops: map<nat, Op>,
                              selected: set<nat>) {
    && (forall t :: t in slots && slots[t] >= floor ==> t in selected)
    && (forall s :: s in vacated ==> s < floor)
    && (forall id, t :: id in ops && ops[id].Promotion? && t in ops[id].source ==> ops[id].source[t] < floor)
  }

  /** The parts of the invariant, taken one at a time. */
  datatype Clause =
    | Map | NoAlias | Space | Names | Tally | Chosen | Mutex | Homes | Distance | Original | Failures | Owners | Sidecar
    | Writes | Readers | Domain | Contents

  ghost predicate Holds(p: Arena, k: Clause) {
    var c, ops := p.slide.core, p.slide.ops;
    match k
    case Map => Safe(p.slide)
    case NoAlias => Injective(c.slots)
    case Space => Sizes(p.geo, c.floor, p.slide.base, c.maxSlots, p.mem.Keys)
    case Names => Canon(p.geo, c.floor, p.canonical, p.table)
    case Tally => Tallied(p.canonical, p.geo.promptLength, p.holeReuses, p.nativeBinds, p.decoded)
    case Chosen => p.selected <= p.canonical.Keys
    case Mutex => BusyFits(ops, p.busy, p.jobs.Keys, p.callbacks.Keys)
    case Homes => !c.closed ==> Layout(c, ops, p.canonical)
    case Distance => Apart(ops, p.decoded)
    case Original => !p.decoded ==> AtHome(c.slots, c.floor, p.canonical)
    case Failures => FailedRetires(ops, c.closed)
    case Owners => GuardsOwned(ops, c.floor, p.canonical)
    case Sidecar => SidecarFits(c.slots, c.vacated, c.floor, ops, p.selected)
    case Writes => JobsFit(c.slots, ops, p.mem, p.jobs, p.selected, p.canonical, p.table, p.geo.blockSize)
    case Readers => ViewsFit(ops, p.views, p.mem)
    case Domain => p.logical.Keys == c.slots.Keys
    case Contents => !c.closed ==> Values(c.slots, ops, p.jobs, p.mem, p.logical)
  }

  ghost predicate Good(p: Arena) {
    forall k: Clause :: Holds(p, k)
  }

  lemma Part(p: Arena, k: Clause)
    requires Good(p)
    ensures Holds(p, k)
  {}

  lemma MapInv(p: Arena)
    requires Good(p)
    ensures Inv(p.slide)
  {
    Part(p, Map);
    SafeOpens(p.slide);
  }

  lemma MapSound(p: Arena, id: nat)
    requires Good(p) && id in p.slide.ops
    ensures Sound(p.slide.core, p.slide.base, p.slide.ops[id])
  {
    MapInv(p);
    SoundOp(p.slide, id);
  }

  // ---- images and placements -----------------------------------------------------

  lemma PlacedAll(slots: map<nat, nat>, rows: map<nat, Row>)
    requires rows.Keys == slots.Keys && Injective(slots)
    ensures Paged.Placed(slots, rows).Keys == slots.Values
    ensures forall t :: t in rows ==> Paged.Placed(slots, rows)[slots[t]] == rows[t]
  {
    PlacedFacts(slots, rows);
  }

  // ---- memory steps ---------------------------------------------------------------

  lemma JobPlan(slots: map<nat, nat>, ops: map<nat, Op>, mem: map<nat, Row>, jobs: map<nat, Job>, selected: set<nat>,
                canonical: map<nat, nat>, table: seq<int>, blockSize: Size, id: nat)
    requires JobsFit(slots, ops, mem, jobs, selected, canonical, table, blockSize) && id in jobs
    ensures id in ops && jobs[id].plan.Keys == Uses(ops[id], Write)
  {
    assert JobFits(slots, mem, selected, canonical, table, blockSize, ops[id], jobs[id]);
  }

  /** Device writes in progress stay inside their own reservation. */
  ghost predicate Confined(ops: map<nat, Op>, jobs: map<nat, Job>) {
    forall id :: id in jobs ==> id in ops && jobs[id].plan.Keys == Uses(ops[id], Write)
  }

  lemma AllConfined(p: Arena)
    requires Good(p)
    ensures Confined(p.slide.ops, p.jobs)
  {
    Part(p, Writes);
    forall id | id in p.jobs ensures id in p.slide.ops && p.jobs[id].plan.Keys == Uses(p.slide.ops[id], Write) {
      JobPlan(p.slide.core.slots, p.slide.ops, p.mem, p.jobs, p.selected, p.canonical, p.table, p.geo.blockSize, id);
    }
  }

  /** Memory may have changed only where running device writes were allowed to. */
  ghost predicate Touched(s: System, jobs: map<nat, Job>, mem: map<nat, Row>, now: map<nat, Row>) {
    now.Keys == mem.Keys && forall x :: x in mem && !Dirty(s.ops, jobs, x) ==> now[x] == mem[x]
  }

  lemma OutsideOthers(s: System, jobs: map<nat, Job>, x: nat, j: nat)
    requires Exclusive(s) && Confined(s.ops, jobs) && Dirty(s.ops, jobs, x) && j in s.ops
    ensures x !in Uses(s.ops[j], Read)
    ensures j in jobs && jobs[j].landed && Active(s.ops[j]) ==> x !in jobs[j].plan
  {
    var i :| i in jobs && DirtyBy(s.ops, jobs[i], i, x);
    assert x in Uses(s.ops[i], Write);
  }

  lemma JobsTouched(s: System, slots: map<nat, nat>, mem: map<nat, Row>, now: map<nat, Row>, jobs: map<nat, Job>,
                    selected: set<nat>,
                    canonical: map<nat, nat>, table: seq<int>, blockSize: Size)
    requires Exclusive(s) && JobsFit(slots, s.ops, mem, jobs, selected, canonical, table, blockSize)
    requires Confined(s.ops, jobs) && Touched(s, jobs, mem, now)
    ensures JobsFit(slots, s.ops, now, jobs, selected, canonical, table, blockSize)
  {
    forall id | id in jobs ensures JobFits(slots, now, selected, canonical, table, blockSize, s.ops[id], jobs[id]) {
      assert JobFits(slots, mem, selected, canonical, table, blockSize, s.ops[id], jobs[id]);
      if jobs[id].landed && Active(s.ops[id]) && Landed(mem, jobs[id].plan) {
        LandedTouched(s, jobs, mem, now, id);
      }
    }
  }

  lemma LandedTouched(s: System, jobs: map<nat, Job>, mem: map<nat, Row>, now: map<nat, Row>, id: nat)
    requires Exclusive(s) && Confined(s.ops, jobs) && Touched(s, jobs, mem, now)
    requires id in jobs && jobs[id].landed && Active(s.ops[id]) && Landed(mem, jobs[id].plan)
    ensures Landed(now, jobs[id].plan)
  {
    forall x | x in jobs[id].plan ensures x in now && now[x] == jobs[id].plan[x] {
      if Dirty(s.ops, jobs, x) { OutsideOthers(s, jobs, x, id); assert false; }
    }
  }

  lemma ViewsTouched(s: System, jobs: map<nat, Job>, views: map<nat, map<nat, Row>>, mem: map<nat, Row>,
                     now: map<nat, Row>)
    requires Exclusive(s) && Confined(s.ops, jobs) && Touched(s, jobs, mem, now) && ViewsFit(s.ops, views, mem)
    ensures ViewsFit(s.ops, views, now)
  {
    forall id, x | id in views && x in views[id] ensures x in now && now[x] == views[id][x] {
      if Dirty(s.ops, jobs, x) { OutsideOthers(s, jobs, x, id); assert false; }
    }
  }

  lemma ScribbleGood(p: Arena, now: map<nat, Row>)
    requires Good(p) && Touched(p.slide, p.jobs, p.mem, now)
    ensures Good(p.(mem := now))
  {
    var q := p.(mem := now);
    AllConfined(p);
    assert Exclusive(p.slide) by { MapInv(p); }
    forall k ensures Holds(q, k) == true {
      Part(p, k);
      match k
      case Writes =>
        JobsTouched(p.slide, p.slide.core.slots, p.mem, now, p.jobs, p.selected, p.canonical, p.table, p.geo.blockSize);
      case Readers => ViewsTouched(p.slide, p.jobs, p.views, p.mem, now);
      case _ =>
    }
  }

  lemma PlanAddressed(s: System, id: nat)
    requires AllSound(s) && SlideSafety.Placed(s.core, s.base) && id in s.ops && s.core.maxSlots.Some?
    ensures forall x :: x in Uses(s.ops[id], Write) ==> x < s.core.maxSlots.value
  {
    SoundOp(s, id);
    match s.ops[id]
    case Promotion(source, dest, _, _, _) => assert forall x :: x in dest.Values ==> x in source.Values + dest.Values;
    case _ =>
  }

  /** Slots being written by an unpublished promotion or decode carry no token. */
  lemma TargetsUnmapped(s: System, id: nat)
    requires AllSound(s) && Separate(s.core, s.base, s.ops) && id in s.ops
    requires Active(s.ops[id]) && !s.ops[id].Guard?
    requires s.ops[id].Promotion? ==> s.ops[id].dest.Values == s.ops[id].taken
    ensures forall x :: x in Uses(s.ops[id], Write) ==> x !in s.core.slots.Values
  {
    SoundOp(s, id);
    assert s.ops[id].Promotion? ==> Claim(s.ops[id]) == s.ops[id].taken;
  }

  lemma LandJobs(s: System, slots: map<nat, nat>, mem: map<nat, Row>, jobs: map<nat, Job>, selected: set<nat>,
                 canonical: map<nat, nat>, table: seq<int>, blockSize: Size, id: nat)
    requires id in jobs && id in s.ops && mem.Keys == (mem + jobs[id].plan).Keys
    requires JobsFit(slots, s.ops, mem + jobs[id].plan, jobs, selected, canonical, table, blockSize)
    ensures JobsFit(slots, s.ops, mem + jobs[id].plan, jobs[id := jobs[id].(landed := true)], selected, canonical,
              table, blockSize)
  {
    var now := mem + jobs[id].plan;
    var jobs' := jobs[id := jobs[id].(landed := true)];
    assert Landed(now, jobs[id].plan);
    forall j | j in jobs'
      ensures j in s.ops && JobFits(slots, now, selected, canonical, table, blockSize, s.ops[j], jobs'[j]) == true
    {
      JobLands(slots, now, selected, canonical, table, blockSize, s.ops[j], jobs[j], jobs'[j]);
    }
  }

  lemma JobLands(slots: map<nat, nat>, now: map<nat, Row>, selected: set<nat>, canonical: map<nat, nat>,
                 table: seq<int>, blockSize: Size, op: Op, job: Job, job': Job)
    requires JobFits(slots, now, selected, canonical, table, blockSize, op, job)
    requires job' == job || (job' == job.(landed := true) && Landed(now, job.plan))
    ensures JobFits(slots, now, selected, canonical, table, blockSize, op, job') == true
  {}

  lemma LandDirty(ops: map<nat, Op>, jobs: map<nat, Job>, id: nat, x: nat)
    requires id in jobs && x !in jobs[id].plan && Dirty(ops, jobs, x)
    ensures Dirty(ops, jobs[id := jobs[id].(landed := true)], x)
  {
    var i :| i in jobs && DirtyBy(ops, jobs[i], i, x);
    assert DirtyBy(ops, jobs[id := jobs[id].(landed := true)][i], i, x);
  }

  lemma LandGuardValues(slots: map<nat, nat>, ops: map<nat, Op>, jobs: map<nat, Job>, mem: map<nat, Row>,
                        logical: map<nat, Row>, id: nat)
    requires logical.Keys == slots.Keys && Values(slots, ops, jobs, mem, logical)
    requires id in jobs && id in ops && ops[id].Guard? && GuardJob(slots, ops[id], jobs[id])
    ensures (logical + jobs[id].assign).Keys == slots.Keys
    ensures Values(slots, ops, jobs[id := jobs[id].(landed := true)], mem + jobs[id].plan, logical + jobs[id].assign)
  {
    var jobs' := jobs[id := jobs[id].(landed := true)];
    forall t | t in slots && !Dirty(ops, jobs', slots[t])
      ensures slots[t] in mem + jobs[id].plan && (mem + jobs[id].plan)[slots[t]] == (logical + jobs[id].assign)[t]
    {
      if slots[t] !in jobs[id].plan {
        if Dirty(ops, jobs, slots[t]) { LandDirty(ops, jobs, id, slots[t]); assert false; }
      }
    }
  }

  lemma LandElsewhere(slots: map<nat, nat>, ops: map<nat, Op>, jobs: map<nat, Job>, mem: map<nat, Row>,
                      logical: map<nat, Row>, id: nat)
    requires logical.Keys == slots.Keys && Values(slots, ops, jobs, mem, logical)
    requires id in jobs && forall x :: x in jobs[id].plan ==> x !in slots.Values
    ensures Values(slots, ops, jobs[id := jobs[id].(landed := true)], mem + jobs[id].plan, logical)
  {
    var jobs' := jobs[id := jobs[id].(landed := true)];
    forall t | t in slots && !Dirty(ops, jobs', slots[t])
      ensures slots[t] in mem + jobs[id].plan && (mem + jobs[id].plan)[slots[t]] == logical[t]
    {
      assert slots[t] in slots.Values && slots[t] !in jobs[id].plan;
      if Dirty(ops, jobs, slots[t]) { LandDirty(ops, jobs, id, slots[t]); assert false; }
    }
  }

  lemma LandTouched(p: Arena, id: nat)
    requires Good(p) && id in p.jobs && !p.jobs[id].landed && id in p.slide.ops && Active(p.slide.ops[id])
    ensures Touched(p.slide, p.jobs, p.mem, p.mem + p.jobs[id].plan)
  {
    AllConfined(p);
    MapInv(p); Part(p, Space);
    PlanAddressed(p.slide, id);
    forall x | x in p.jobs[id].plan ensures Dirty(p.slide.ops, p.jobs, x) {
      assert DirtyBy(p.slide.ops, p.jobs[id], id, x);
    }
    assert (p.mem + p.jobs[id].plan).Keys == p.mem.Keys;
  }

  lemma LandWrites(p: Arena, id: nat)
    requires Good(p) && id in p.jobs && !p.jobs[id].landed && id in p.slide.ops && Active(p.slide.ops[id])
    ensures var q := Arrived(p, id);
            && JobsFit(q.slide.core.slots, q.slide.ops, q.mem, q.jobs, q.selected, q.canonical, q.table,
                    q.geo.blockSize)
            && ViewsFit(q.slide.ops, q.views, q.mem) && q.mem.Keys == p.mem.Keys
  {
    var now := p.mem + p.jobs[id].plan;
    LandTouched(p, id);
    AllConfined(p);
    assert Exclusive(p.slide) by { MapInv(p); }
    Part(p, Writes); Part(p, Readers);
    JobsTouched(p.slide, p.slide.core.slots, p.mem, now, p.jobs, p.selected, p.canonical, p.table, p.geo.blockSize);
    LandJobs(p.slide, p.slide.core.slots, p.mem, p.jobs, p.selected, p.canonical, p.table, p.geo.blockSize, id);
    ViewsTouched(p.slide, p.jobs, p.views, p.mem, now);
  }

  lemma LandContents(p: Arena, id: nat)
    requires Good(p) && id in p.jobs && id in p.slide.ops && Active(p.slide.ops[id])
    ensures var q := Arrived(p, id);
            && q.logical.Keys == q.slide.core.slots.Keys
            && (q.slide.core.closed || Values(q.slide.core.slots, q.slide.ops, q.jobs, q.mem, q.logical))
  {
    if p.slide.ops[id].Guard? { LandGuarded(p, id); } else { LandStaged(p, id); }
  }

  lemma LandGuarded(p: Arena, id: nat)
    requires Good(p) && id in p.jobs && id in p.slide.ops && p.slide.ops[id].Guard?
    ensures var q := Arrived(p, id);
            && q.logical.Keys == q.slide.core.slots.Keys
            && (q.slide.core.closed || Values(q.slide.core.slots, q.slide.ops, q.jobs, q.mem, q.logical))
  {
    Part(p, Domain);
    GuardFit(p, id);
    assert (p.logical + p.jobs[id].assign).Keys == p.slide.core.slots.Keys;
    if !p.slide.core.closed {
      Part(p, Contents);
      LandGuardValues(p.slide.core.slots, p.slide.ops, p.jobs, p.mem, p.logical, id);
    }
  }

  lemma LandStaged(p: Arena, id: nat)
    requires Good(p) && id in p.jobs && id in p.slide.ops && Active(p.slide.ops[id]) && !p.slide.ops[id].Guard?
    ensures var q := Arrived(p, id);
            && q.logical.Keys == q.slide.core.slots.Keys
            && (q.slide.core.closed || Values(q.slide.core.slots, q.slide.ops, q.jobs, q.mem, q.logical) == true)
  {
    var q := Arrived(p, id);
    assert q.slide == p.slide && q.logical == p.logical && q.mem == p.mem + p.jobs[id].plan
           && q.jobs == p.jobs[id := p.jobs[id].(landed := true)];
    assert p.logical.Keys == p.slide.core.slots.Keys by { Part(p, Domain); }
    if !p.slide.core.closed {
      assert Values(p.slide.core.slots, p.slide.ops, p.jobs, p.mem, p.logical) == true by { Part(p, Contents); }
      assert forall x :: x in p.jobs[id].plan ==> x !in p.slide.core.slots.Values by { AwayFromTokens(p, id); }
      LandElsewhere(p.slide.core.slots, p.slide.ops, p.jobs, p.mem, p.logical, id);
    }
  }

  lemma GuardFit(p: Arena, id: nat)
    requires Good(p) && id in p.jobs && id in p.slide.ops && p.slide.ops[id].Guard?
    ensures GuardJob(p.slide.core.slots, p.slide.ops[id], p.jobs[id])
  {
    JobFit(p, id);
  }

  /** Nothing but a guarded write goes where a token lives. */
  lemma AwayFromTokens(p: Arena, id: nat)
    requires Good(p) && id in p.jobs && id in p.slide.ops && Active(p.slide.ops[id]) && !p.slide.ops[id].Guard?
    ensures forall x :: x in p.jobs[id].plan ==> x !in p.slide.core.slots.Values
  {
    JobFit(p, id);
    AllConfined(p);
    assert AllSound(p.slide) && Separate(p.slide.core, p.slide.base, p.slide.ops) by { MapInv(p); }
    TargetsUnmapped(p.slide, id);
  }

  lemma LandGood(p: Arena, id: nat)
    requires Good(p) && Enabled(p, Land(id)) == true
    ensures Good(Next(p, Land(id)))
  {
    ArrivedGood(p, id);
  }

  lemma ArrivedGood(p: Arena, id: nat)
    requires Good(p) && id in p.jobs && !p.jobs[id].landed && id in p.slide.ops && Active(p.slide.ops[id])
    ensures Good(Arrived(p, id))
  {
    var q := Arrived(p, id);
    LandWrites(p, id);
    LandContents(p, id);
    assert q.jobs.Keys == p.jobs.Keys;
    forall k ensures Holds(q, k) == true {
      Part(p, k);
    }
  }

  // ---- entering and leaving calls -----------------------------------------------------

  lemma DirtyAfterEnter(ops: map<nat, Op>, jobs: map<nat, Job>, id: nat, op: Op, job: Job, x: nat)
    requires id !in ops && Dirty(ops, jobs, x)
    ensures Dirty(ops[id := op], jobs[id := job], x) && Dirty(ops[id := op], jobs, x)
  {
    var i :| i in jobs && DirtyBy(ops, jobs[i], i, x);
    assert i != id && DirtyBy(ops[id := op], jobs[id := job][i], i, x);
    assert DirtyBy(ops[id := op], jobs[i], i, x);
  }

  lemma ValuesAfterEnter(slots: map<nat, nat>, ops: map<nat, Op>, jobs: map<nat, Job>, mem: map<nat, Row>,
                         logical: map<nat, Row>, id: nat, op: Op, job: Job)
    requires id !in ops && Values(slots, ops, jobs, mem, logical)
    ensures Values(slots, ops[id := op], jobs[id := job], mem, logical)
    ensures Values(slots, ops[id := op], jobs, mem, logical)
  {
    forall t | t in slots && Dirty(ops, jobs, slots[t])
      ensures Dirty(ops[id := op], jobs[id := job], slots[t]) && Dirty(ops[id := op], jobs, slots[t])
    {
      DirtyAfterEnter(ops, jobs, id, op, job, slots[t]);
    }
  }

  lemma JobsAfterEnter(slots: map<nat, nat>, ops: map<nat, Op>, mem: map<nat, Row>, jobs: map<nat, Job>,
                       selected: set<nat>,
                       canonical: map<nat, nat>, table: seq<int>, blockSize: Size, id: nat, op: Op, job: Job)
    requires id !in ops && JobsFit(slots, ops, mem, jobs, selected, canonical, table, blockSize)
    requires JobFits(slots, mem, selected, canonical, table, blockSize, op, job) == true
    ensures JobsFit(slots, ops[id := op], mem, jobs[id := job], selected, canonical, table, blockSize)
  {
    var ops', jobs' := ops[id := op], jobs[id := job];
    forall j | j in jobs'
      ensures j in ops' && JobFits(slots, mem, selected, canonical, table, blockSize, ops'[j], jobs'[j])
    {
      if j != id { assert JobFits(slots, mem, selected, canonical, table, blockSize, ops[j], jobs[j]); }
    }
  }

  /** The native slots a call names are accounted for. */
  ghost predicate Accounted(floor: nat, ops: map<nat, Op>, canonical: map<nat, nat>, slots: set<nat>) {
    forall s :: s in slots && s < floor ==> Native(ops, canonical, s)
  }

  lemma NativeMore(ops: map<nat, Op>, canonical: map<nat, nat>, id: nat, op: Op, s: nat)
    requires id !in ops && Native(ops, canonical, s)
    ensures Native(ops[id := op], canonical, s)
  {
    if s !in canonical.Values {
      var i :| i in ops && ops[i].Decode? && s == ops[i].native;
      assert ops[id := op][i] == ops[i];
    }
  }

  lemma LayoutEnter(c: Core, ops: map<nat, Op>, canonical: map<nat, nat>, c': Core, id: nat, op: Op)
    requires Layout(c, ops, canonical) == true && id !in ops
    requires c'.slots == c.slots && c'.vacated <= c.vacated && c'.shared == c.shared && c'.floor == c.floor
    requires op.Decode? ==> op.step.Writing?
    requires Accounted(c.floor, ops, canonical, Uses(op, Read) + Uses(op, Hold) - (if op.Decode? then {op.native}
                 else {}))
    ensures Layout(c', ops[id := op], canonical)
  {
    var ops' := ops[id := op];
    forall t ensures Extra(ops', t) <==> Extra(ops, t) {
      if Extra(ops, t) {
        var i :| i in ops && ops[i].Decode? && ops[i].step.Published? && ops[i].token == t;
        assert ops'[i] == ops[i];
      }
    }
    forall s | Native(ops, canonical, s) ensures Native(ops', canonical, s) {
      NativeMore(ops, canonical, id, op, s);
    }
    forall i, s | i in ops' && s < c.floor && s in Uses(ops'[i], Read) + Uses(ops'[i], Hold)
      ensures Native(ops', canonical, s)
    {
      if i == id {
        if op.Decode? && s == op.native { assert ops'[id] == op; }
      } else {
        assert s in Uses(ops[i], Read) + Uses(ops[i], Hold);
      }
    }
  }

  lemma LayoutLeave(c: Core, ops: map<nat, Op>, canonical: map<nat, nat>, id: nat)
    requires Layout(c, ops, canonical) && id in ops && !ops[id].Decode?
    ensures Layout(c, ops - {id}, canonical)
  {
    var ops' := ops - {id};
    forall t ensures Extra(ops', t) <==> Extra(ops, t) {
      if Extra(ops, t) {
        var i :| i in ops && ops[i].Decode? && ops[i].step.Published? && ops[i].token == t;
        assert i in ops';
      }
    }
    forall s | Native(ops, canonical, s) ensures Native(ops', canonical, s) {
      if s !in canonical.Values {
        var i :| i in ops && ops[i].Decode? && s == ops[i].native;
        assert i in ops';
      }
    }
  }

  lemma ApartAfterGuard(s: System, id: nat, guarded: set<nat>, gen: nat, decoded: bool)
    requires Counted(s) && Apart(s.ops, decoded) && id !in s.ops
    requires forall x :: x in guarded ==> At(s.core.inflight, x) == 0
    ensures Apart(s.ops[id := Guard(guarded, gen)], decoded)
  {
    forall i, x | i in s.ops && x in guarded ensures x !in Uses(s.ops[i], Hold) {
      IdleSlot(s, x);
    }
  }

  lemma BusyAfterGuard(ops: map<nat, Op>, jobs: set<nat>, callbacks: set<nat>, id: nat, op: Op)
    requires BusyFits(ops, None, jobs, callbacks) && id !in ops && Guarding(op)
    ensures BusyFits(ops[id := op], Some(id), jobs + {id}, callbacks)
  {}

  lemma OwnedAccounted(floor: nat, ops: map<nat, Op>, canonical: map<nat, nat>, slots: set<nat>)
    requires forall s :: s in slots && s < floor ==> s in canonical.Values
    ensures Accounted(floor, ops, canonical, slots)
  {}

  lemma BegunCalls(p: Arena, id: nat, guarded: set<nat>, job: Job)
    requires Good(p) && Idle(p) && NewCall(p, id)
    ensures Holds(Begun(p, id, guarded, job), Mutex) && Holds(Begun(p, id, guarded, job), Readers)
  {
    var op := Guard(guarded, p.slide.core.generation);
    assert Begun(p, id, guarded, job).jobs.Keys == p.jobs.Keys + {id};
    Part(p, Mutex); Part(p, Readers);
    BusyAfterGuard(p.slide.ops, p.jobs.Keys, p.callbacks.Keys, id, op);
    ViewsAfterEnter(p.slide.ops, p.views, p.mem, id, op);
  }

  lemma BegunDistance(p: Arena, id: nat, guarded: set<nat>, job: Job)
    requires Good(p) && NewCall(p, id) && forall x :: x in guarded ==> At(p.slide.core.inflight, x) == 0
    ensures Holds(Begun(p, id, guarded, job), Distance)
  {
    assert Counted(p.slide) by { MapInv(p); }
    Part(p, Distance);
    ApartAfterGuard(p.slide, id, guarded, p.slide.core.generation, p.decoded);
  }

  lemma BegunJobs(p: Arena, id: nat, guarded: set<nat>, job: Job)
    requires Good(p) && NewCall(p, id) && GuardJob(p.slide.core.slots, Guard(guarded, p.slide.core.generation), job)
    ensures Holds(Begun(p, id, guarded, job), Writes)
  {
    Part(p, Writes);
    JobsAfterEnter(p.slide.core.slots, p.slide.ops, p.mem, p.jobs, p.selected, p.canonical, p.table, p.geo.blockSize,
                   id, Guard(guarded, p.slide.core.generation), job);
  }

  lemma BegunContents(p: Arena, id: nat, guarded: set<nat>, job: Job)
    requires Good(p) && NewCall(p, id)
    ensures Holds(Begun(p, id, guarded, job), Contents)
  {
    var op := Guard(guarded, p.slide.core.generation);
    if !p.slide.core.closed {
      assert Values(p.slide.core.slots, p.slide.ops[id := op], p.jobs[id := job], p.mem, p.logical) == true by {
        Part(p, Contents);
        ValuesAfterEnter(p.slide.core.slots, p.slide.ops, p.jobs, p.mem, p.logical, id, op, job);
      }
    }
  }

  lemma BegunHomes(p: Arena, id: nat, guarded: set<nat>, job: Job)
    requires Good(p) && NewCall(p, id) && forall s :: s in guarded && s < p.slide.core.floor ==> s in p.canonical.Values
    ensures Holds(Begun(p, id, guarded, job), Homes)
  {
    var c, op := p.slide.core, Guard(guarded, p.slide.core.generation);
    Part(p, Homes);
    OwnedAccounted(c.floor, p.slide.ops, p.canonical, guarded);
    if !c.closed { LayoutEnter(c, p.slide.ops, p.canonical, Begun(p, id, guarded, job).slide.core, id, op); }
  }

  lemma BegunGood(p: Arena, id: nat, guarded: set<nat>, job: Job)
    requires Good(p) && Idle(p) && NewCall(p, id) && !p.slide.core.closed
    requires forall x :: x in guarded ==> At(p.slide.core.inflight, x) == 0
    requires GuardJob(p.slide.core.slots, Guard(guarded, p.slide.core.generation), job)
    requires forall s :: s in guarded && s < p.slide.core.floor ==> s in p.canonical.Values
    requires Safe(Begun(p, id, guarded, job).slide)
    ensures Good(Begun(p, id, guarded, job))
  {
    var q := Begun(p, id, guarded, job);
    forall k ensures Holds(q, k) == true {
      Part(p, k);
      match k
      case Mutex => BegunCalls(p, id, guarded, job);
      case Readers => BegunCalls(p, id, guarded, job);
      case Distance => BegunDistance(p, id, guarded, job);
      case Writes => BegunJobs(p, id, guarded, job);
      case Contents => BegunContents(p, id, guarded, job);
      case Homes => BegunHomes(p, id, guarded, job);
      case _ =>
    }
  }

  lemma BeginGood(p: Arena, id: nat, required: set<nat>, optional: set<nat>, job: Job)
    requires Good(p) && Idle(p) && NewCall(p, id)
    requires GuardJob(p.slide.core.slots, Guard(required + Available(p.slide.core, optional), p.slide.core.generation),
               job)
    requires forall s :: s in required + Available(p.slide.core, optional) && s < p.slide.core.floor ==>
             s in p.canonical.Values
    ensures Good(Begin(p, id, required, optional, job))
  {
    if Begin(p, id, required, optional, job) != p {
      var guarded := required + Available(p.slide.core, optional);
      GuardEffect(p.slide, id, required, optional);
      assert Safe(Begun(p, id, guarded, job).slide) by {
        MapInv(p);
        EventKeeps(p.slide, GuardEnter(id, required, optional));
        SafeCloses(Apply(p.slide, GuardEnter(id, required, optional)));
      }
      BegunGood(p, id, guarded, job);
    }
  }

  lemma ViewsAfterEnter(ops: map<nat, Op>, views: map<nat, map<nat, Row>>, mem: map<nat, Row>, id: nat, op: Op)
    requires ViewsFit(ops, views, mem) && id !in ops && !op.Pin?
    ensures ViewsFit(ops[id := op], views, mem)
  {}

  // ---- baseline, ready and fused writes --------------------------------------------------

  /** While no decode runs, an open arena's tokens are exactly the canonical ones,
      and every native slot in use belongs to one of them. */
  lemma Settled(p: Arena)
    requires Good(p) && !p.slide.core.closed && forall id :: id in p.slide.ops ==> !p.slide.ops[id].Decode?
    ensures p.slide.core.slots.Keys == p.canonical.Keys
    ensures forall s ::
              s in p.slide.core.slots.Values + p.slide.core.vacated + p.slide.core.shared && s < p.slide.core.floor ==>
                s in p.canonical.Values
    ensures Injective(p.canonical) && Injective(p.slide.core.slots)
    ensures forall t :: t in p.canonical ==> p.canonical[t] < p.slide.core.floor
    ensures !p.decoded ==> AtHome(p.slide.core.slots, p.slide.core.floor, p.canonical)
  {
    Part(p, Homes);
    Part(p, Names);
    Part(p, NoAlias);
    Part(p, Original);
    forall s | Native(p.slide.ops, p.canonical, s) ensures s in p.canonical.Values {}
  }

  lemma IdleSettled(p: Arena)
    requires Good(p) && Idle(p)
    ensures forall id :: id in p.slide.ops ==> !p.slide.ops[id].Decode? && !p.slide.ops[id].Guard?
  {
    Part(p, Mutex);
  }

  /** A write to original slots touches exactly the tokens still living there. */
  lemma OriginalJob(slots: map<nat, nat>, canonical: map<nat, nat>, floor: nat, rows: map<nat, Row>,
                    assign: map<nat, Row>,
                    kind: Kind, gen: nat)
    requires slots.Keys == canonical.Keys && rows.Keys <= canonical.Keys && Injective(canonical) && !kind.Promote?
    requires !kind.Append?
    requires AtHome(slots, floor, canonical) && forall t :: t in canonical ==> canonical[t] < floor
    requires forall t :: t in assign <==> t in rows && slots[t] == canonical[t]
    requires forall t :: t in assign ==> assign[t] == rows[t]
    ensures GuardJob(slots, Guard(Image(canonical, rows.Keys), gen),
              Job(kind, Paged.Placed(canonical, rows), assign, false))
  {
    PlacedFacts(canonical, rows);
    var plan := Paged.Placed(canonical, rows);
    forall t | t in slots ensures t in assign <==> slots[t] in plan {
      if slots[t] in plan {
        var u :| u in rows && canonical[u] == slots[t];
        assert slots[t] == canonical[t];
      }
    }
  }

  lemma BeginWriteGood(p: Arena, id: nat, rows: map<nat, Row>)
    requires Good(p) && Enabled(p, BeginWrite(id, rows)) == true
    ensures Good(Next(p, BeginWrite(id, rows)))
  {
    IdleSettled(p);
    Settled(p);
    var c := p.slide.core;
    assert Available(c, {}) == {};
    assert Image(p.canonical, rows.Keys) + {} == Image(p.canonical, rows.Keys);
    OriginalJob(c.slots, p.canonical, c.floor, rows, Unmoved(p, rows), Baseline, c.generation);
    BeginGood(p, id, Image(p.canonical, rows.Keys), {},
          Job(Baseline, Paged.Placed(p.canonical, rows), Unmoved(p, rows), false));
  }

  lemma BeginReadyGood(p: Arena, id: nat, rows: map<nat, Row>)
    requires Good(p) && Enabled(p, BeginReady(id, rows)) == true
    ensures Good(Next(p, BeginReady(id, rows)))
  {
    IdleSettled(p);
    Settled(p);
    var c := p.slide.core;
    assert Available(c, {}) == {};
    assert Image(p.canonical, rows.Keys) + {} == Image(p.canonical, rows.Keys);
    OriginalJob(c.slots, p.canonical, c.floor, rows, rows, Ready, c.generation);
    BeginGood(p, id, Image(p.canonical, rows.Keys), {}, Job(Ready, Paged.Placed(p.canonical, rows), rows, false));
  }

  /** A fused write reaches current slots and, besides, original slots that carry
      no token any more. */
  lemma MirrorJob(slots: map<nat, nat>, canonical: map<nat, nat>, floor: nat, rows: map<nat, Row>, open: set<nat>,
                  gen: nat)
    requires slots.Keys == canonical.Keys && open <= rows.Keys <= canonical.Keys
    requires Injective(canonical) && Injective(slots) && AtHome(slots, floor, canonical)
    requires forall t :: t in canonical ==> canonical[t] < floor
    requires forall t :: t in open ==> canonical[t] != slots[t]
    ensures GuardJob(slots, Guard(Image(slots, rows.Keys) + Image(canonical, open), gen),
                     Job(Update, Paged.Placed(slots, rows) + Paged.Placed(canonical, Only(rows, open)), rows, false))
  {
    var here, mirrored := Paged.Placed(slots, rows), Paged.Placed(canonical, Only(rows, open));
    PlacedFacts(slots, rows);
    assert Only(rows, open).Keys == open;
    PlacedFacts(canonical, Only(rows, open));
    forall t | t in slots ensures slots[t] !in mirrored {
      NotMirrored(slots, canonical, floor, open, t);
    }
    assert (here + mirrored).Keys == Image(slots, rows.Keys) + Image(canonical, open);
    forall t | t in slots ensures t in rows <==> slots[t] in here + mirrored {
      assert t in rows ==> slots[t] in here;
    }
  }

  lemma NotMirrored(slots: map<nat, nat>, canonical: map<nat, nat>, floor: nat, open: set<nat>, t: nat)
    requires slots.Keys == canonical.Keys && open <= canonical.Keys && Injective(canonical)
    requires AtHome(slots, floor, canonical) && (forall u :: u in canonical ==> canonical[u] < floor)
    requires (forall u :: u in open ==> canonical[u] != slots[u]) && t in slots
    ensures slots[t] !in Image(canonical, open)
  {
    forall u | u in open ensures canonical[u] != slots[t] {
      assert slots[t] == canonical[t] || slots[t] >= floor;
    }
  }

  lemma MirrorsOpen(c: Core, canonical: map<nat, nat>, mirrors: set<nat>)
    requires mirrors <= canonical.Keys
    ensures Image(canonical, set t | t in mirrors && canonical[t] in Available(c, Image(canonical, mirrors)))
         == Available(c, Image(canonical, mirrors))
  {}

  lemma BeginUpdateGood(p: Arena, id: nat, rows: map<nat, Row>)
    requires Good(p) && Enabled(p, BeginUpdate(id, rows)) == true
    ensures Good(Next(p, BeginUpdate(id, rows)))
  {
    IdleSettled(p);
    Settled(p);
    var c, mirrors := p.slide.core, Mirrors(p, rows.Keys);
    var avail := Available(c, Image(p.canonical, mirrors));
    var open := set t | t in mirrors && p.canonical[t] in avail;
    MirrorsOpen(c, p.canonical, mirrors);
    MirrorJob(c.slots, p.canonical, c.floor, rows, open, c.generation);
    UpdateAccounted(p, rows, mirrors);
    BeginGood(p, id, Image(c.slots, rows.Keys), Image(p.canonical, mirrors),
              Job(Update, Paged.Placed(c.slots, rows) + Paged.Placed(p.canonical, Only(rows, open)), rows, false));
  }

  lemma UpdateAccounted(p: Arena, rows: map<nat, Row>, mirrors: set<nat>)
    requires rows.Keys <= p.slide.core.slots.Keys && mirrors <= p.canonical.Keys
    requires forall s :: s in p.slide.core.slots.Values && s < p.slide.core.floor ==> s in p.canonical.Values
    ensures Accounted(p.slide.core.floor, p.slide.ops, p.canonical,
                      Image(p.slide.core.slots, rows.Keys) + Available(p.slide.core, Image(p.canonical, mirrors)))
  {}

  // ---- leaving -------------------------------------------------------------------------

  lemma JobsAfterLeave(slots: map<nat, nat>, ops: map<nat, Op>, mem: map<nat, Row>, jobs: map<nat, Job>,
                       selected: set<nat>,
                       selected': set<nat>, canonical: map<nat, nat>, table: seq<int>, blockSize: Size, id: nat)
    requires JobsFit(slots, ops, mem, jobs, selected, canonical, table, blockSize) && selected <= selected'
    ensures JobsFit(slots, ops - {id}, mem, jobs - {id}, selected', canonical, table, blockSize)
  {
    var ops', jobs' := ops - {id}, jobs - {id};
    forall j | j in jobs'
      ensures j in ops' && JobFits(slots, mem, selected', canonical, table, blockSize, ops'[j], jobs'[j])
    {
      assert JobFits(slots, mem, selected, canonical, table, blockSize, ops[j], jobs[j]);
    }
  }

  lemma ValuesAfterLeave(slots: map<nat, nat>, ops: map<nat, Op>, jobs: map<nat, Job>, mem: map<nat, Row>,
                         logical: map<nat, Row>,
                         id: nat)
    requires Values(slots, ops, jobs, mem, logical)
    requires id in jobs && id in ops ==> jobs[id].landed || !Active(ops[id])
    ensures Values(slots, ops - {id}, jobs - {id}, mem, logical)
  {
    var ops', jobs' := ops - {id}, jobs - {id};
    forall t | t in slots && Dirty(ops, jobs, slots[t]) ensures Dirty(ops', jobs', slots[t]) {
      var i :| i in jobs && DirtyBy(ops, jobs[i], i, slots[t]);
      assert DirtyBy(ops', jobs'[i], i, slots[t]);
    }
  }

  /** What `Finish` changes: the guard is gone and only its bookkeeping is added. */
  lemma FinishEffect(p: Arena, id: nat)
    requires Enabled(p, Finish(id))
    ensures var q := Next(p, Finish(id));
            && q == p.(slide := Leave(p.slide, id), busy := None, jobs := p.jobs - {id},
                       baselineReady := q.baselineReady, selected := q.selected)
            && (q.selected == p.selected
                || (q.selected == p.selected + p.jobs[id].assign.Keys && !p.slide.core.closed))
  {
    assert Apply(p.slide, GuardExit(id)) == Leave(p.slide, id);
    assert Next(p, Finish(id)) == FinishedAs(p, id, Leave(p.slide, id));
  }

  lemma FinishChooses(p: Arena, id: nat)
    requires Good(p) && Enabled(p, Finish(id)) && !p.slide.core.closed
    ensures p.jobs[id].assign.Keys <= p.canonical.Keys
  {
    Part(p, Writes);
    JobFit(p, id);
    Settled(p) by { Part(p, Mutex); }
  }

  lemma JobFit(p: Arena, id: nat)
    requires Good(p) && id in p.jobs
    ensures id in p.slide.ops
    ensures JobFits(p.slide.core.slots, p.mem, p.selected, p.canonical, p.table, p.geo.blockSize, p.slide.ops[id],
              p.jobs[id])
  {
    Part(p, Writes);
  }

  /** A call other than a decode leaves its slots to the tokens living there. */
  lemma LeaveFacts(p: Arena, id: nat, selected: set<nat>)
    requires Good(p) && id in p.slide.ops && !p.slide.ops[id].Decode? && !Unfinished(p.slide.ops[id])
    requires p.selected <= selected
    requires id in p.jobs ==> p.jobs[id].landed || p.slide.core.closed || !Active(p.slide.ops[id])
    ensures var c, ops, jobs := p.slide.core, p.slide.ops - {id}, p.jobs - {id};
            && Safe(Leave(p.slide, id))
            && JobsFit(c.slots, ops, p.mem, jobs, selected, p.canonical, p.table, p.geo.blockSize)
            && (c.closed || (Layout(Leave(p.slide, id).core, ops, p.canonical)
                      && Values(c.slots, ops, jobs, p.mem, p.logical)))
  {
    var c, ops := p.slide.core, p.slide.ops;
    LeaveSafe(p, id);
    Part(p, Writes);
    JobsAfterLeave(c.slots, ops, p.mem, p.jobs, p.selected, selected, p.canonical, p.table, p.geo.blockSize, id);
    if !c.closed {
      Part(p, Homes); Part(p, Contents);
      LayoutLeave(c, ops, p.canonical, id);
      ValuesAfterLeave(c.slots, ops, p.jobs, p.mem, p.logical, id);
    }
  }

  /** Who holds the arena and who reads, once a call other than a decode is gone. */
  lemma LeaveCalls(p: Arena, id: nat)
    requires Good(p) && id in p.slide.ops && !p.slide.ops[id].Decode?
    ensures var ops := p.slide.ops - {id};
            && BusyFits(ops, if p.slide.ops[id].Guard? then None
                    else p.busy, p.jobs.Keys - {id}, p.callbacks.Keys - {id})
            && ViewsFit(ops, p.views - {id}, p.mem) && Apart(ops, p.decoded) && FailedRetires(ops, p.slide.core.closed)
            && GuardsOwned(ops, p.slide.core.floor, p.canonical)
  {
    Part(p, Distance); Part(p, Failures); Part(p, Owners);
    assert BusyFits(p.slide.ops - {id}, if p.slide.ops[id].Guard? then None
          else p.busy, p.jobs.Keys - {id}, p.callbacks.Keys - {id}) by {
      Part(p, Mutex);
      BusyAfterLeave(p.slide.ops, p.busy, p.jobs.Keys, p.callbacks.Keys, id);
    }
    Part(p, Readers);
    ViewsAfterLeave(p.slide.ops, p.views, p.mem, id);
  }

  lemma BusyAfterLeave(ops: map<nat, Op>, busy: Option<nat>, jobs: set<nat>, callbacks: set<nat>, id: nat)
    requires BusyFits(ops, busy, jobs, callbacks) && id in ops && !ops[id].Decode?
    ensures BusyFits(ops - {id}, if ops[id].Guard? then None else busy, jobs - {id}, callbacks - {id})
  {}

  lemma ViewsAfterLeave(ops: map<nat, Op>, views: map<nat, map<nat, Row>>, mem: map<nat, Row>, id: nat)
    requires ViewsFit(ops, views, mem)
    ensures ViewsFit(ops - {id}, views - {id}, mem)
  {}

  lemma WithoutAbsent<T>(m: map<nat, T>, id: nat)
    requires id !in m
    ensures m - {id} == m
  {}

  /** The arena without a call other than a decode. */
  lemma GoneGood(p: Arena, id: nat, q: Arena)
    requires Good(p) && id in p.slide.ops && !p.slide.ops[id].Decode? && !Unfinished(p.slide.ops[id])
    requires id in p.jobs ==> p.jobs[id].landed || p.slide.core.closed || !Active(p.slide.ops[id])
    requires q == p.(slide := Leave(p.slide, id), busy := if p.slide.ops[id].Guard? then None
               else p.busy, jobs := p.jobs - {id},
                     views := p.views - {id}, callbacks := p.callbacks - {id}, baselineReady := q.baselineReady,
                         selected := q.selected)
    requires p.selected <= q.selected <= p.canonical.Keys
    ensures Good(q)
  {
    LeaveCalls(p, id);
    LeaveFacts(p, id, q.selected);
    assert q.jobs.Keys == p.jobs.Keys - {id} && q.callbacks.Keys == p.callbacks.Keys - {id};
    forall k ensures Holds(q, k) == true {
      Part(p, k);
    }
  }

  lemma LeaveSafe(p: Arena, id: nat)
    requires Good(p) && id in p.slide.ops && !Unfinished(p.slide.ops[id])
    ensures Safe(Leave(p.slide, id))
  {
    MapInv(p);
    LeaveKeeps(p.slide, id);
    SafeCloses(Leave(p.slide, id));
  }

  lemma LeftGood(p: Arena, id: nat, q: Arena)
    requires Good(p) && p.busy == Some(id) && id in p.jobs && id in p.slide.ops && p.slide.ops[id].Guard?
    requires p.jobs[id].landed || p.slide.core.closed
    requires q == p.(slide := Leave(p.slide, id), busy := None, jobs := p.jobs - {id},
                     baselineReady := q.baselineReady, selected := q.selected)
    requires p.selected <= q.selected <= p.canonical.Keys
    ensures Good(q)
  {
    assert id !in p.views && id !in p.callbacks by { Part(p, Readers); Part(p, Mutex); }
    WithoutAbsent(p.views, id);
    WithoutAbsent(p.callbacks, id);
    GoneGood(p, id, q);
  }

  lemma FinishGood(p: Arena, id: nat)
    requires Good(p) && Enabled(p, Finish(id)) == true
    ensures Good(Next(p, Finish(id)))
  {
    FinishEffect(p, id);
    Part(p, Chosen);
    if !p.slide.core.closed { FinishChooses(p, id); }
    LeftGood(p, id, Next(p, Finish(id)));
  }

  /** Calls without device writes come and go freely. */
  lemma QuietLeave(p: Arena, id: nat)
    requires Good(p) && id in p.slide.ops && (p.slide.ops[id].Pin? || p.slide.ops[id].Loading?)
    ensures var q := p.(slide := Leave(p.slide, id), views := p.views - {id}, callbacks := p.callbacks - {id});
            Good(q)
  {
    var q := p.(slide := Leave(p.slide, id), views := p.views - {id}, callbacks := p.callbacks - {id});
    assert id !in p.jobs by { Part(p, Mutex); }
    WithoutAbsent(p.jobs, id);
    assert p.selected <= p.canonical.Keys by { Part(p, Chosen); }
    GoneGood(p, id, q);
  }

  lemma UnpinGood(p: Arena, id: nat)
    requires Good(p) && Enabled(p, UnpinRows(id)) == true
    ensures Good(Next(p, UnpinRows(id)))
  {
    assert id !in p.callbacks by { Part(p, Mutex); }
    WithoutAbsent(p.callbacks, id);
    QuietLeave(p, id);
  }

  lemma LoadCallbackGood(p: Arena, id: nat)
    requires Good(p) && Enabled(p, LoadCallback(id)) == true
    ensures Good(Next(p, LoadCallback(id)))
  {
    CallbackLoads(p, id);
    WithoutAbsent(p.views, id);
    assert Apply(p.slide, LoadFinished(id)) == Leave(p.slide, id);
    QuietLeave(p, id);
  }

  lemma CallbackLoads(p: Arena, id: nat)
    requires Good(p) && id in p.callbacks
    ensures id in p.slide.ops && p.slide.ops[id].Loading? && id !in p.views
  {
    Part(p, Mutex); Part(p, Readers);
  }

  // ---- pins, retirement, tables -----------------------------------------------------------

  lemma PinGood(p: Arena, id: nat, tokens: set<nat>)
    requires Good(p) && Enabled(p, PinRows(id, tokens)) == true
    ensures Good(Next(p, PinRows(id, tokens)))
  {
    PinEffect(p.slide, id, tokens);
    if Next(p, PinRows(id, tokens)) != p {
      PinnedGood(p, id, SlotsOf(p.slide.core, tokens));
    }
  }

  /** Entering a call changes only counters, pending tokens and the call table. */
  lemma EnterFrame(s: System, c: Core, id: nat, op: Op)
    ensures var q := Enter(s, c, id, op);
            q.base == s.base && q.ops == s.ops[id := op] && q.core.slots == c.slots && q.core.floor == c.floor
            && q.core.maxSlots == c.maxSlots && q.core.vacated == c.vacated && q.core.shared == c.shared
            && q.core.closed == c.closed
  {}

  lemma BusyAfterPin(ops: map<nat, Op>, busy: Option<nat>, jobs: set<nat>, callbacks: set<nat>, id: nat, op: Op)
    requires BusyFits(ops, busy, jobs, callbacks) && id !in ops && op.Pin?
    ensures BusyFits(ops[id := op], busy, jobs, callbacks)
  {}

  /** The arena right after a reader pinned `slots`. */
  lemma PinnedSafe(p: Arena, id: nat, slots: set<nat>)
    requires Good(p) && NewCall(p, id) && CanPin(p.slide.core, slots) == true
    ensures Holds(Pinned(p, id, slots), Map)
  {
    MapInv(p);
    PinKeeps(p.slide, id, slots);
    SafeCloses(Pinned(p, id, slots).slide);
  }

  lemma PinnedHomes(p: Arena, id: nat, slots: set<nat>)
    requires Good(p) && NewCall(p, id) && CanPin(p.slide.core, slots) == true
    ensures Holds(Pinned(p, id, slots), Homes)
  {
    PinnedAddressed(p, slots);
    assert Layout(p.slide.core, p.slide.ops, p.canonical) == true by { Part(p, Homes); }
    LayoutEnter(p.slide.core, p.slide.ops, p.canonical, Pinned(p, id, slots).slide.core, id, Pin(slots));
  }

  lemma PinnedReaders(p: Arena, id: nat, slots: set<nat>)
    requires Good(p) && NewCall(p, id) && CanPin(p.slide.core, slots) == true
    ensures Holds(Pinned(p, id, slots), Readers)
  {
    PinnedAddressed(p, slots);
    Part(p, Readers);
    ViewsAfterPin(p.slide.ops, p.views, p.mem, id, slots);
  }

  lemma PinnedWrites(p: Arena, id: nat, slots: set<nat>)
    requires Good(p) && NewCall(p, id)
    ensures Holds(Pinned(p, id, slots), Writes)
  {
    assert id !in p.jobs by { Part(p, Mutex); }
    Part(p, Writes);
    JobsAfterQuiet(p.slide.core.slots, p.slide.ops, p.mem, p.jobs, p.selected, p.canonical, p.table, p.geo.blockSize,
          id, Pin(slots));
  }

  lemma PinnedContents(p: Arena, id: nat, slots: set<nat>)
    requires Good(p) && NewCall(p, id)
    ensures Holds(Pinned(p, id, slots), Contents)
  {
    QuietContents(p, id, Pin(slots));
  }

  /** A call without device writes of its own leaves every token's slot as it was. */
  lemma QuietContents(p: Arena, id: nat, op: Op)
    requires Good(p) && NewCall(p, id)
    ensures !p.slide.core.closed ==> Values(p.slide.core.slots, p.slide.ops[id := op], p.jobs, p.mem, p.logical) == true
  {
    if !p.slide.core.closed {
      assert Values(p.slide.core.slots, p.slide.ops[id := op], p.jobs, p.mem, p.logical) == true by {
        Part(p, Contents);
        ValuesAfterEnter(p.slide.core.slots, p.slide.ops, p.jobs, p.mem, p.logical, id, op,
              Job(Baseline, map[], map[], true));
      }
    }
  }

  lemma PinnedCalls(p: Arena, id: nat, slots: set<nat>)
    requires Good(p) && NewCall(p, id)
    ensures Holds(Pinned(p, id, slots), Mutex)
  {
    Part(p, Mutex);
    BusyAfterPin(p.slide.ops, p.busy, p.jobs.Keys, p.callbacks.Keys, id, Pin(slots));
  }

  lemma PinnedApart(p: Arena, id: nat, slots: set<nat>)
    requires Good(p) && NewCall(p, id)
    ensures Holds(Pinned(p, id, slots), Distance)
  {
    Part(p, Distance);
    ApartAfterLoading(p.slide.ops, p.decoded, id, Pin(slots));
  }

  lemma PinnedGood(p: Arena, id: nat, slots: set<nat>)
    requires Good(p) && NewCall(p, id) && CanPin(p.slide.core, slots) == true
    ensures Good(Pinned(p, id, slots))
  {
    var q := Pinned(p, id, slots);
    EnterFrame(p.slide, p.slide.core, id, Pin(slots));
    forall k ensures Holds(q, k) == true {
      match k
      case Map => PinnedSafe(p, id, slots);
      case Mutex => PinnedCalls(p, id, slots);
      case Distance => PinnedApart(p, id, slots);
      case Homes => PinnedHomes(p, id, slots);
      case Readers => PinnedReaders(p, id, slots);
      case Writes => PinnedWrites(p, id, slots);
      case Contents => PinnedContents(p, id, slots);
      case _ => Part(p, k);
    }
  }

  lemma ViewsAfterPin(ops: map<nat, Op>, views: map<nat, map<nat, Row>>, mem: map<nat, Row>, id: nat, slots: set<nat>)
    requires ViewsFit(ops, views, mem) && id !in ops && View(mem, slots).Keys == slots
    ensures ViewsFit(ops[id := Pin(slots)], views[id := View(mem, slots)], mem)
  {
    var views' := views[id := View(mem, slots)];
    forall j | j in views' ensures Landed(mem, views'[j]) {
      if j != id { assert Landed(mem, views[j]); }
    }
  }

  lemma PinnedAddressed(p: Arena, slots: set<nat>)
    requires Good(p) && slots <= p.slide.core.slots.Values
    ensures View(p.mem, slots).Keys == slots
  {
    Part(p, Space);
    assert SlideSafety.Placed(p.slide.core, p.slide.base) by { MapInv(p); }
  }

  lemma JobsAfterQuiet(slots: map<nat, nat>, ops: map<nat, Op>, mem: map<nat, Row>, jobs: map<nat, Job>,
                       selected: set<nat>,
                       canonical: map<nat, nat>, table: seq<int>, blockSize: Size, id: nat, op: Op)
    requires JobsFit(slots, ops, mem, jobs, selected, canonical, table, blockSize) && id !in ops && id !in jobs
    ensures JobsFit(slots, ops[id := op], mem, jobs, selected, canonical, table, blockSize)
  {
    forall j | j in jobs ensures JobFits(slots, mem, selected, canonical, table, blockSize, ops[id := op][j], jobs[j]) {
      assert JobFits(slots, mem, selected, canonical, table, blockSize, ops[j], jobs[j]);
    }
  }

  lemma RetirementGood(p: Arena)
    requires Good(p)
    ensures Good(p.(slide := p.slide.(core := Retire(p.slide.core))))
  {
    var q := p.(slide := p.slide.(core := Retire(p.slide.core)));
    forall k ensures Holds(q, k) == true {
      Part(p, k);
      match k
      case Map => MapInv(p); RetireKeeps(p.slide); SafeCloses(q.slide);
      case _ =>
    }
  }

  lemma UpdateTableGood(p: Arena, entries: seq<int>)
    requires Good(p) && Enabled(p, UpdateTable(entries)) == true
    ensures Good(Next(p, UpdateTable(entries)))
  {
    var q := Next(p, UpdateTable(entries));
    IdleSettled(p);
    forall k ensures Holds(q, k) == true {
      Part(p, k);
      match k
      case Writes =>
        forall j | j in p.jobs
          ensures JobFits(p.slide.core.slots, p.mem, p.selected, p.canonical, entries, p.geo.blockSize, p.slide.ops[j],
                    p.jobs[j])
        {
          assert JobFits(p.slide.core.slots, p.mem, p.selected, p.canonical, p.table, p.geo.blockSize, p.slide.ops[j],
                p.jobs[j]);
        }
      case _ =>
    }
  }

  lemma ResolveGood(p: Arena, load: nat, ok: bool)
    requires Good(p)
    ensures Good(Next(p, Resolve(load, ok)))
  {
    var q := Next(p, Resolve(load, ok));
    forall k ensures Holds(q, k) == true {
      Part(p, k);
    }
  }

  lemma NewLoadGood(p: Arena, load: nat, state: LoadState)
    requires Good(p)
    ensures Good(Next(p, NewLoad(load, state)))
  {
    var q := Next(p, NewLoad(load, state));
    forall k ensures Holds(q, k) == true {
      Part(p, k);
    }
  }

  // ---- promotions ---------------------------------------------------------------------------

  /** What beginning a promotion does to the map: a refilled arena at most, or a
      reservation whose destinations are all drawn from the sidecar, and then
      perhaps a load guard on its sources. */
  /** Every destination of a promotion that may not overwrite is taken from the sidecar. */
  lemma AllDrawn(s: System, order: seq<nat>, load: bool, a: Assignment, ip: set<nat>)
    requires Inv(s) && forall t :: t in order ==> t in s.core.slots
    requires a == Assign(s.core, order, load, false, map[], {}) && a.ok
    requires SlideSafety.Chosen(s.core, a.core, order, a.dest, a.taken, ip) == true
    ensures a.dest.Values == a.taken
  {
    assert SlideSafety.Placed(s.core, s.base);
    AssignMoves(s.core, order, load, map[], {});
    AllTaken(s.core, a.core, order, a.dest, a.taken, ip);
  }

  lemma ChosenEnters(s: System, c: Core, id: nat, order: seq<nat>, dest: map<nat, nat>, taken: set<nat>, ip: set<nat>)
    requires SlideSafety.Chosen(s.core, c, order, dest, taken, ip) && dest.Values == taken
    requires forall t :: t in order ==> t in s.core.slots
    ensures var s1 := Enter(s, c, id, Promotion(SourceOf(s.core, order), dest, taken, s.core.generation, Writing));
            && id in s1.ops && s1 == s.(core := s1.core, ops := s.ops[id := s1.ops[id]])
            && SameMapping(s.core, s1.core) == true && Staged(s.core.slots, s1.ops[id], set t | t in order) == true
  {}

  lemma PromoteEffect(s: System, id: nat, order: seq<nat>, load: LoadState, callback: nat) returns (s1: System)
    requires Safe(s) && id !in s.ops && id != callback && callback !in s.ops
    ensures var s' := Apply(s, PromoteBegin(id, order, load, callback, false));
            Safe(s') &&
            if id !in s'.ops then Refilled(s, s')
            else !s.core.closed && id in s1.ops && Safe(s1)
                 && s1 == s.(core := s1.core, ops := s.ops[id := s1.ops[id]])
                 && SameMapping(s.core, s1.core) && Staged(s.core.slots, s1.ops[id], set t | t in order)
                 && s' == if load.LoadPending? then Enter(s1, s1.core, callback, Loading(s1.ops[id].source.Values))
                       else s1
  {
    s1 := s;
    var e := PromoteBegin(id, order, load, callback, false);
    SafeOpens(s);
    EventKeeps(s, e);
    SafeCloses(Apply(s, e));
    if Fits(s, e) && order != [] && MayPromote(s.core, order, load) {
      var a := Assign(s.core, order, load.LoadPending?, false, map[], {});
      var ip := AssignFromStart(s.core, s.base, order, load.LoadPending?, false);
      if a.ok {
        s1 := Enter(s, a.core, id, Promotion(SourceOf(s.core, order), a.dest, a.taken, s.core.generation, Writing));
        Unguarded(s, e, a, ip);
        SafeCloses(s1);
        AllDrawn(s, order, load.LoadPending?, a, ip);
        ChosenEnters(s, a.core, id, order, a.dest, a.taken, ip);
      }
    }
  }

  /** The reservation alone is already sound. */
  lemma Unguarded(s: System, e: Event, a: Assignment, ip: set<nat>)
    requires Inv(s) && e.PromoteBegin? && Fits(s, e) && MayPromote(s.core, e.order, e.load) && !e.inplace
    requires a == Assign(s.core, e.order, e.load.LoadPending?, e.inplace, map[], {}) && a.ok
    requires SlideSafety.Chosen(s.core, a.core, e.order, a.dest, a.taken, ip) && Overwritable(s.core, ip)
    ensures Inv(Enter(s, a.core, e.id,
                Promotion(SourceOf(s.core, e.order), a.dest, a.taken, s.core.generation, Writing)))
  {
    var op := Promotion(SourceOf(s.core, e.order), a.dest, a.taken, s.core.generation, Writing);
    ChosenDraws(s.core, a.core, e.order, a.dest, a.taken, ip);
    PromotionSound(s.core, a.core, s.base, e.order, a.dest, a.taken, ip);
    PromotionEnters(s, a.core, e.id, op, ip);
  }

  lemma AllTaken(c: Core, c': Core, order: seq<nat>, dest: map<nat, nat>, taken: set<nat>, ip: set<nat>)
    requires SlideSafety.Chosen(c, c', order, dest, taken, ip)
    requires forall t :: t in dest ==> dest[t] !in c.slots.Values
    ensures dest.Values == taken
  {
    forall t | t in dest ensures dest[t] in taken {
      assert c.slots[t] in c.slots.Values;
    }
  }

  ghost predicate Refilled(s: System, s': System) {
    s' == s.(core := s'.core) && s'.core == s.core.(unused := s'.core.unused, next := s'.core.next)
  }

  lemma RefillGood(p: Arena, s': System)
    requires Good(p) && Refilled(p.slide, s') == true && Safe(s') == true
    ensures Good(p.(slide := s'))
  {
    var q := p.(slide := s');
    forall k ensures Holds(q, k) == true {
      Part(p, k);
    }
  }

  /** Futures and load lists are not part of the invariant. */
  lemma BookkeepingGood(p: Arena, q: Arena)
    requires Good(p) && q == p.(futures := q.futures, loads := q.loads, broken := q.broken)
    ensures Good(q)
  {
    forall k ensures Holds(q, k) == true {
      Part(p, k);
    }
  }

  /** The state after a promotion entered, without its load guard. */
  ghost function Entered(p: Arena, id: nat, s1: System, rows: map<nat, Row>): Arena
    requires id in s1.ops && s1.ops[id].Promotion? && rows.Keys <= s1.ops[id].dest.Keys
  {
    p.(slide := s1, selected := p.selected + rows.Keys,
       jobs := p.jobs[id := Job(Promote, Paged.Placed(s1.ops[id].dest, rows), rows, false)])
  }

  /** Only the allocator, the counters and the pending tokens differ. */
  ghost predicate SameMapping(c: Core, c': Core) {
    c' == c.(next := c'.next, unused := c'.unused, pins := c'.pins, inflight := c'.inflight, writes := c'.writes,
          pending := c'.pending)
  }

  /** A promotion just entered, with every destination drawn from the sidecar. */
  ghost predicate Staged(slots: map<nat, nat>, op: Op, tokens: set<nat>) {
    op.Promotion? && op.phase.Writing? && op.taken == op.dest.Values && op.source.Keys == op.dest.Keys == tokens
    && Injective(op.dest) && forall t :: t in op.source ==> t in slots && slots[t] == op.source[t]
  }

  ghost predicate Enterable(p: Arena, id: nat, s1: System, rows: map<nat, Row>) {
    && Idle(p) && NewCall(p, id) && !p.decoded && !p.slide.core.closed && rows.Keys !! p.selected
    && id in s1.ops && s1 == p.slide.(core := s1.core, ops := p.slide.ops[id := s1.ops[id]])
    && SameMapping(p.slide.core, s1.core) && Staged(p.slide.core.slots, s1.ops[id], rows.Keys)
  }

  lemma EnteredJobs(slots: map<nat, nat>, ops: map<nat, Op>, mem: map<nat, Row>, jobs: map<nat, Job>,
                    selected: set<nat>,
                    canonical: map<nat, nat>, table: seq<int>, blockSize: Size, id: nat, op: Op, rows: map<nat, Row>)
    requires id !in ops && JobsFit(slots, ops, mem, jobs, selected, canonical, table, blockSize)
    requires Staged(slots, op, rows.Keys)
    ensures JobsFit(slots, ops[id := op], mem, jobs[id := Job(Promote, Paged.Placed(op.dest, rows), rows, false)],
                    selected + rows.Keys, canonical, table, blockSize)
  {
    JobsMoreSelected(slots, ops, mem, jobs, selected, selected + rows.Keys, canonical, table, blockSize);
    PlacedAll(op.dest, rows);
    JobsAfterEnter(slots, ops, mem, jobs, selected + rows.Keys, canonical, table, blockSize, id, op,
                   Job(Promote, Paged.Placed(op.dest, rows), rows, false));
  }

  lemma EnteredSidecar(slots: map<nat, nat>, vacated: set<nat>, floor: nat, ops: map<nat, Op>, selected: set<nat>,
                       id: nat, op: Op, tokens: set<nat>)
    requires SidecarFits(slots, vacated, floor, ops, selected) && Staged(slots, op, tokens) && tokens !! selected
    ensures SidecarFits(slots, vacated, floor, ops[id := op], selected + tokens)
  {}

  lemma PromotionEnterJobs(p: Arena, id: nat, s1: System, rows: map<nat, Row>)
    requires Good(p) && Enterable(p, id, s1, rows) == true
    ensures Holds(Entered(p, id, s1, rows), Writes)
  {
    Part(p, Writes);
    EnteredJobs(p.slide.core.slots, p.slide.ops, p.mem, p.jobs, p.selected, p.canonical, p.table, p.geo.blockSize, id,
          s1.ops[id], rows);
  }

  lemma PromotionEnterReaders(p: Arena, id: nat, s1: System, rows: map<nat, Row>)
    requires Good(p) && Enterable(p, id, s1, rows) == true
    ensures Holds(Entered(p, id, s1, rows), Readers)
  {
    Part(p, Readers);
    ViewsAfterEnter(p.slide.ops, p.views, p.mem, id, s1.ops[id]);
  }

  lemma PromotionEnterContents(p: Arena, id: nat, s1: System, rows: map<nat, Row>)
    requires Good(p) && Enterable(p, id, s1, rows) == true
    ensures Holds(Entered(p, id, s1, rows), Contents)
  {
    Part(p, Contents);
    ValuesAfterEnter(p.slide.core.slots, p.slide.ops, p.jobs, p.mem, p.logical, id, s1.ops[id],
                     Job(Promote, Paged.Placed(s1.ops[id].dest, rows), rows, false));
  }

  lemma PromotionEnterSidecar(p: Arena, id: nat, s1: System, rows: map<nat, Row>)
    requires Good(p) && Enterable(p, id, s1, rows) == true
    ensures Holds(Entered(p, id, s1, rows), Sidecar)
  {
    Part(p, Sidecar);
    EnteredSidecar(p.slide.core.slots, p.slide.core.vacated, p.slide.core.floor, p.slide.ops, p.selected, id,
          s1.ops[id], rows.Keys);
  }

  lemma PromotionEnterLayout(p: Arena, id: nat, s1: System, rows: map<nat, Row>)
    requires Good(p) && Enterable(p, id, s1, rows) == true && Separate(s1.core, s1.base, s1.ops)
    ensures Layout(s1.core, s1.ops, p.canonical)
  {
    IdleSettled(p);
    Settled(p);
    assert s1.core.floor <= s1.base by { Part(p, Space); }
    PromotionAccounted(s1, id, p.slide.ops, p.canonical);
    Part(p, Homes);
    LayoutEnter(p.slide.core, p.slide.ops, p.canonical, s1.core, id, s1.ops[id]);
  }

  lemma PromotionEnterPlaces(p: Arena, id: nat, s1: System, rows: map<nat, Row>)
    requires Good(p) && Enterable(p, id, s1, rows) == true
    ensures BusyFits(s1.ops, None, p.jobs.Keys + {id}, p.callbacks.Keys) && Apart(s1.ops, false)
    ensures p.selected + rows.Keys <= p.canonical.Keys
  {
    IdleSettled(p);
    assert BusyFits(s1.ops, None, p.jobs.Keys + {id}, p.callbacks.Keys) by {
      Part(p, Mutex);
      BusyAfterPromotion(p.slide.ops, p.jobs.Keys, p.callbacks.Keys, id, s1.ops[id]);
    }
    assert Apart(s1.ops, false) by {
      Part(p, Distance);
      ApartAfterPromotion(p.slide.ops, id, s1.ops[id]);
    }
    assert p.selected + rows.Keys <= p.canonical.Keys by { Settled(p); Part(p, Chosen); }
  }

  lemma PromotionEnterGood(p: Arena, id: nat, s1: System, rows: map<nat, Row>)
    requires Good(p) && Enterable(p, id, s1, rows) == true && Safe(s1)
    ensures Good(Entered(p, id, s1, rows))
  {
    var q := Entered(p, id, s1, rows);
    assert q.jobs.Keys == p.jobs.Keys + {id};
    assert Layout(s1.core, s1.ops, p.canonical) by {
      SafeOpens(s1);
      PromotionEnterLayout(p, id, s1, rows);
    }
    PromotionEnterPlaces(p, id, s1, rows);
    forall k ensures Holds(q, k) == true {
      Part(p, k);
      match k
      case Writes => PromotionEnterJobs(p, id, s1, rows);
      case Readers => PromotionEnterReaders(p, id, s1, rows);
      case Contents => PromotionEnterContents(p, id, s1, rows);
      case Sidecar => PromotionEnterSidecar(p, id, s1, rows);
      case _ =>
    }
  }

  lemma PromotionAccounted(s1: System, id: nat, ops: map<nat, Op>, canonical: map<nat, nat>)
    requires Separate(s1.core, s1.base, s1.ops) && s1.core.floor <= s1.base
    requires id in s1.ops && s1.ops[id].Promotion? && s1.ops[id].phase.Writing?
    requires s1.ops[id].taken == s1.ops[id].dest.Values
    requires forall t :: t in s1.ops[id].source ==> t in s1.core.slots && s1.core.slots[t] == s1.ops[id].source[t]
    requires forall s :: s in s1.core.slots.Values && s < s1.core.floor ==> s in canonical.Values
    ensures Accounted(s1.core.floor, ops, canonical, Uses(s1.ops[id], Read) + Uses(s1.ops[id], Hold))
  {
    assert Claim(s1.ops[id]) == s1.ops[id].dest.Values;
  }

  lemma BusyAfterPromotion(ops: map<nat, Op>, jobs: set<nat>, callbacks: set<nat>, id: nat, op: Op)
    requires BusyFits(ops, None, jobs, callbacks) && id !in ops && op.Promotion?
    ensures BusyFits(ops[id := op], None, jobs + {id}, callbacks)
  {}

  lemma ApartAfterPromotion(ops: map<nat, Op>, id: nat, op: Op)
    requires Apart(ops, false) && id !in ops && op.Promotion?
    requires forall i :: i in ops ==> !ops[i].Decode? && !ops[i].Guard?
    ensures Apart(ops[id := op], false)
  {}

  lemma JobsMoreSelected(slots: map<nat, nat>, ops: map<nat, Op>, mem: map<nat, Row>, jobs: map<nat, Job>,
                         selected: set<nat>,
                         selected': set<nat>, canonical: map<nat, nat>, table: seq<int>, blockSize: Size)
    requires JobsFit(slots, ops, mem, jobs, selected, canonical, table, blockSize) && selected <= selected'
    ensures JobsFit(slots, ops, mem, jobs, selected', canonical, table, blockSize)
  {
    forall j | j in jobs ensures JobFits(slots, mem, selected', canonical, table, blockSize, ops[j], jobs[j]) {
      assert JobFits(slots, mem, selected, canonical, table, blockSize, ops[j], jobs[j]);
    }
  }

  /** A load guard on slots some promotion reads. */
  lemma LoadingGood(p: Arena, id: nat, callback: nat, future: nat)
    requires Good(p) && id in p.slide.ops && p.slide.ops[id].Promotion? && callback !in p.slide.ops
    requires !p.slide.core.closed
    ensures Good(p.(slide := Enter(p.slide, p.slide.core, callback, Loading(p.slide.ops[id].source.Values)),
                    callbacks := p.callbacks[callback := future]))
  {
    var s, c, op := p.slide, p.slide.core, Loading(p.slide.ops[id].source.Values);
    var q := p.(slide := Enter(s, c, callback, op), callbacks := p.callbacks[callback := future]);
    assert callback !in p.jobs by { Part(p, Mutex); }
    assert q.callbacks.Keys == p.callbacks.Keys + {callback};
    EnterFrame(s, c, callback, op);
    forall k ensures Holds(q, k) == true {
      Part(p, k);
      match k
      case Map => LoadingSafe(p, id, callback);
      case Mutex => BusyAfterLoading(s.ops, p.busy, p.jobs.Keys, p.callbacks.Keys, callback, op);
      case Distance => ApartAfterLoading(s.ops, p.decoded, callback, op);
      case Homes => LoadingAccounted(p, id); LayoutEnter(c, s.ops, p.canonical, q.slide.core, callback, op);
      case Writes => JobsAfterQuiet(c.slots, s.ops, p.mem, p.jobs, p.selected, p.canonical, p.table, p.geo.blockSize,
            callback, op);
      case Readers => ViewsAfterEnter(s.ops, p.views, p.mem, callback, op);
      case Contents => QuietContents(p, callback, op);
      case _ =>
    }
  }

  lemma LoadingSafe(p: Arena, id: nat, callback: nat)
    requires Good(p) && id in p.slide.ops && p.slide.ops[id].Promotion? && callback !in p.slide.ops
    ensures Safe(Enter(p.slide, p.slide.core, callback, Loading(p.slide.ops[id].source.Values)))
  {
    MapInv(p);
    LoadingEnters(p.slide, id, callback);
    SafeCloses(Enter(p.slide, p.slide.core, callback, Loading(p.slide.ops[id].source.Values)));
  }

  lemma LoadingAccounted(p: Arena, id: nat)
    requires Good(p) && id in p.slide.ops && p.slide.ops[id].Promotion? && !p.slide.core.closed
    ensures var op := Loading(p.slide.ops[id].source.Values);
            Accounted(p.slide.core.floor, p.slide.ops, p.canonical, Uses(op, Read) + Uses(op, Hold))
  {
    Part(p, Homes);
    assert Uses(p.slide.ops[id], Hold) == p.slide.ops[id].source.Values + p.slide.ops[id].dest.Values;
  }

  lemma BusyAfterLoading(ops: map<nat, Op>, busy: Option<nat>, jobs: set<nat>, callbacks: set<nat>, id: nat, op: Op)
    requires BusyFits(ops, busy, jobs, callbacks) && id !in ops && op.Loading?
    ensures BusyFits(ops[id := op], busy, jobs, callbacks + {id})
  {}

  lemma ApartAfterLoading(ops: map<nat, Op>, decoded: bool, id: nat, op: Op)
    requires Apart(ops, decoded) && id !in ops && (op.Loading? || op.Pin?)
    ensures Apart(ops[id := op], decoded)
  {}

  lemma BeginPromoteGood(p: Arena, id: nat, order: seq<nat>, rows: map<nat, Row>, future: Option<nat>, callback: nat)
    requires Good(p) && Enabled(p, BeginPromote(id, order, rows, future, callback)) == true
    ensures Good(Next(p, BeginPromote(id, order, rows, future, callback)))
  {
    PromotingGood(p, id, order, rows, future, callback);
  }

  lemma PromotingGood(p: Arena, id: nat, order: seq<nat>, rows: map<nat, Row>, future: Option<nat>, callback: nat)
    requires Good(p) && Idle(p) && NewCall(p, id) && NewCall(p, callback) && id != callback && !p.decoded
    requires rows.Keys == (set t | t in order) && rows.Keys !! p.selected
    ensures Good(Promoting(p, id, order, rows, future, callback))
  {
    assert Safe(p.slide) == true by { Part(p, Map); }
    var s1, s' := PromotingEffect(p, id, order, rows, future, callback);
    if id in s'.ops {
      PromotionEnterGood(p, id, s1, rows);
      PromotedGood(p, id, s1, s', order == [], rows, future, callback);
    } else {
      RefilledGood(p, s', id, order == [], rows, future, callback);
    }
  }

  /** The map's answer to a promotion: refused (at most some slots became
      reusable), or taken up as `s1` plus perhaps a load guard. */
  lemma PromotingEffect(p: Arena, id: nat, order: seq<nat>, rows: map<nat, Row>, future: Option<nat>, callback: nat)
    returns (s1: System, s': System)
    requires Safe(p.slide) == true && NewCall(p, id) && NewCall(p, callback) && id != callback
    ensures Promoting(p, id, order, rows, future, callback) == Promoted(p, s', id, order == [], rows, future, callback)
    ensures id !in s'.ops ==> Safe(s') == true && Refilled(p.slide, s')
    ensures id in s'.ops ==>
              && !p.slide.core.closed && id in s1.ops && Safe(s1) == true
              && s1 == p.slide.(core := s1.core, ops := p.slide.ops[id := s1.ops[id]])
              && SameMapping(p.slide.core, s1.core) && Staged(p.slide.core.slots, s1.ops[id], set t | t in order)
              && s' == if LoadStatus(p, future).LoadPending?
                    then Enter(s1, s1.core, callback, Loading(s1.ops[id].source.Values)) else s1
  {
    s' := Apply(p.slide, PromoteBegin(id, order, LoadStatus(p, future), callback, false));
    s1 := PromoteEffect(p.slide, id, order, LoadStatus(p, future), callback);
  }

  lemma RefilledGood(p: Arena, s': System, id: nat, nothing: bool, rows: map<nat, Row>, future: Option<nat>,
                     callback: nat)
    requires Good(p) && Safe(s') == true && id !in s'.ops && Refilled(p.slide, s') == true
    ensures Good(Promoted(p, s', id, nothing, rows, future, callback))
  {
    var q := Promoted(p, s', id, nothing, rows, future, callback);
    if nothing && !p.slide.core.closed { BookkeepingGood(p, q); }
    else {
      RefillGood(p, s');
      BookkeepingGood(p.(slide := s'), q);
    }
  }

  /** The arena once the map has taken up the promotion. */
  lemma PromotedShape(p: Arena, id: nat, s1: System, s': System, nothing: bool, rows: map<nat, Row>,
                      future: Option<nat>, callback: nat)
    requires id !in p.slide.ops && id in s1.ops && s1.ops[id].Promotion? && rows.Keys == s1.ops[id].dest.Keys
    requires id != callback
    requires s' == if LoadStatus(p, future).LoadPending?
             then Enter(s1, s1.core, callback, Loading(s1.ops[id].source.Values)) else s1
    ensures var q, p1 := Promoted(p, s', id, nothing, rows, future, callback), Entered(p, id, s1, rows);
            q == (if LoadStatus(p, future).LoadPending?
                  then p1.(slide := s', callbacks := p.callbacks[callback := future.value], futures := q.futures,
                        loads := q.loads)
                  else p1.(futures := q.futures, loads := q.loads))
  {}

  lemma PromotedGood(p: Arena, id: nat, s1: System, s': System, nothing: bool, rows: map<nat, Row>,
                     future: Option<nat>, callback: nat)
    requires id !in p.slide.ops && id in s1.ops && s1.ops[id].Promotion? && rows.Keys == s1.ops[id].dest.Keys
    requires id != callback
    requires s' == if LoadStatus(p, future).LoadPending?
             then Enter(s1, s1.core, callback, Loading(s1.ops[id].source.Values)) else s1
    requires Good(Entered(p, id, s1, rows)) && !s1.core.closed && callback !in s1.ops
    ensures Good(Promoted(p, s', id, nothing, rows, future, callback))
  {
    var p1, q := Entered(p, id, s1, rows), Promoted(p, s', id, nothing, rows, future, callback);
    PromotedShape(p, id, s1, s', nothing, rows, future, callback);
    if LoadStatus(p, future).LoadPending? {
      LoadingGood(p1, id, callback, future.value);
      BookkeepingGood(p1.(slide := s', callbacks := p.callbacks[callback := future.value]), q);
    } else {
      BookkeepingGood(p1, q);
    }
  }

  // ---- publication of a promotion -----------------------------------------------------------

  lemma PublishCases(p: Arena, id: nat)
    requires Good(p) && id in p.slide.ops && p.slide.ops[id].Promotion?
    ensures var s' := Apply(p.slide, PromotePublish(id));
            s' == p.slide || (!p.slide.core.closed && p.slide.ops[id].phase.Writing? && !p.decoded
                              && s' == p.slide.(core := Publish(p.slide.core, p.slide.ops[id]),
                                                ops := p.slide.ops[id := p.slide.ops[id].(phase := Published)]))
  {
    Part(p, Distance);
  }

  lemma PublishedMap(s: System, id: nat, s': System)
    requires Inv(s) && Injective(s.core.slots) && id in s.ops && s.ops[id].Promotion? && s.ops[id].phase.Writing?
    requires s' == s.(core := Publish(s.core, s.ops[id]), ops := s.ops[id := s.ops[id].(phase := Published)])
    ensures Safe(s') && Injective(s'.core.slots)
  {
    PublishKeeps(s, id);
    PublishInjective(s, id);
    SafeCloses(s');
  }

  /** Publication moves tokens into the sidecar and leaves only holes behind. */
  lemma PublishedSlots(c: Core, base: nat, ops: map<nat, Op>, canonical: map<nat, nat>, id: nat)
    requires Accounted(c.floor, ops, canonical, c.slots.Values + c.vacated + c.shared) && c.floor <= base
    requires id in ops && ops[id].Promotion? && ops[id].phase.Writing? && Sound(c, base, ops[id])
    requires forall x :: x in ops[id].taken ==> base <= x
    ensures var c' := Publish(c, ops[id]);
            Accounted(c.floor, ops[id := ops[id].(phase := Published)], canonical,
                  c'.slots.Values + c'.vacated + c'.shared)
  {
    var op := ops[id];
    var ops' := ops[id := op.(phase := Published)];
    PublishValues(c, base, op);
    SameDecodes(ops, canonical, id, op.(phase := Published));
    forall s | s in Publish(c, op).slots.Values + Publish(c, op).vacated + c.shared && s < c.floor
      ensures Native(ops', canonical, s)
    {
      assert s in c.slots.Values + c.vacated + c.shared;
      assert Native(ops, canonical, s);
    }
  }

  lemma PublishedUses(floor: nat, ops: map<nat, Op>, canonical: map<nat, nat>, id: nat, i: nat)
    requires id in ops && ops[id].Promotion? && i in ops
    requires Accounted(floor, ops, canonical, Uses(ops[i], Read) + Uses(ops[i], Hold))
    ensures var ops' := ops[id := ops[id].(phase := Published)];
            Accounted(floor, ops', canonical, Uses(ops'[i], Read) + Uses(ops'[i], Hold))
  {
    var op := ops[id].(phase := Published);
    SameDecodes(ops, canonical, id, op);
    assert Uses(ops[id := op][i], Read) + Uses(ops[id := op][i], Hold) == Uses(ops[i], Read) + Uses(ops[i], Hold);
    forall s | s in Uses(ops[i], Read) + Uses(ops[i], Hold) && s < floor ensures Native(ops[id := op], canonical, s) {
      assert Native(ops, canonical, s);
    }
  }

  lemma PublishedLayout(c: Core, base: nat, ops: map<nat, Op>, canonical: map<nat, nat>, id: nat)
    requires Layout(c, ops, canonical) && c.floor <= base
    requires id in ops && ops[id].Promotion? && ops[id].phase.Writing? && Sound(c, base, ops[id])
    requires forall x :: x in ops[id].taken ==> base <= x
    ensures Layout(Publish(c, ops[id]), ops[id := ops[id].(phase := Published)], canonical)
  {
    var ops' := ops[id := ops[id].(phase := Published)];
    SameDecodes(ops, canonical, id, ops[id].(phase := Published));
    PublishedSlots(c, base, ops, canonical, id);
    forall i | i in ops' ensures Accounted(c.floor, ops', canonical, Uses(ops'[i], Read) + Uses(ops'[i], Hold)) {
      PublishedUses(c.floor, ops, canonical, id, i);
    }
  }

  lemma SameDecodes(ops: map<nat, Op>, canonical: map<nat, nat>, id: nat, op: Op)
    requires id in ops && !ops[id].Decode? && !op.Decode?
    ensures forall t :: Extra(ops[id := op], t) <==> Extra(ops, t)
    ensures forall s :: Native(ops[id := op], canonical, s) <==> Native(ops, canonical, s)
  {
    var ops' := ops[id := op];
    forall t ensures Extra(ops', t) <==> Extra(ops, t) {
      if Extra(ops, t) {
        var i :| i in ops && ops[i].Decode? && ops[i].step.Published? && ops[i].token == t;
        assert ops'[i] == ops[i];
      }
    }
    forall s ensures Native(ops', canonical, s) <==> Native(ops, canonical, s) {
      if s !in canonical.Values && Native(ops, canonical, s) {
        var i :| i in ops && ops[i].Decode? && s == ops[i].native;
        assert ops'[i] == ops[i];
      }
    }
  }

  lemma PublishedHome(c: Core, op: Op, base: nat, canonical: map<nat, nat>)
    requires AtHome(c.slots, c.floor, canonical) && op.Promotion? && c.floor <= base
    requires forall t :: t in op.dest ==> base <= op.dest[t]
    ensures AtHome(Publish(c, op).slots, c.floor, canonical)
  {}

  lemma PublishedGuardJob(slots: map<nat, nat>, source: map<nat, nat>, dest: map<nat, nat>, op: Op, job: Job)
    requires op.Guard? && GuardJob(slots, op, job) && source.Keys == dest.Keys
    requires source.Values + dest.Values !! op.guarded
    requires forall t :: t in source ==> t in slots && slots[t] == source[t]
    ensures GuardJob(slots + dest, op, job)
  {
    var slots' := slots + dest;
    forall t | t in slots' ensures t in job.assign <==> slots'[t] in job.plan {
      if t in dest {
        assert dest[t] in dest.Values && source[t] in source.Values;
        assert slots[t] !in job.plan && slots'[t] !in job.plan;
      }
    }
  }

  lemma PublishedJobs(slots: map<nat, nat>, ops: map<nat, Op>, mem: map<nat, Row>, jobs: map<nat, Job>,
                      selected: set<nat>,
                      canonical: map<nat, nat>, table: seq<int>, blockSize: Size, id: nat)
    requires JobsFit(slots, ops, mem, jobs, selected, canonical, table, blockSize) && Apart(ops, false)
    requires id in ops && ops[id].Promotion? && ops[id].source.Keys == ops[id].dest.Keys
    requires forall t :: t in ops[id].source ==> t in slots && slots[t] == ops[id].source[t]
    ensures JobsFit(slots + ops[id].dest, ops[id := ops[id].(phase := Published)], mem, jobs, selected, canonical,
              table, blockSize)
  {
    var op := ops[id];
    var ops' := ops[id := op.(phase := Published)];
    forall j | j in jobs
      ensures j in ops' && JobFits(slots + op.dest, mem, selected, canonical, table, blockSize, ops'[j], jobs[j])
    {
      assert JobFits(slots, mem, selected, canonical, table, blockSize, ops[j], jobs[j]);
      if ops[j].Guard? { PublishedGuardJob(slots, op.source, op.dest, ops[j], jobs[j]); }
    }
  }

  lemma PublishedValues(slots: map<nat, nat>, ops: map<nat, Op>, jobs: map<nat, Job>, mem: map<nat, Row>,
                        logical: map<nat, Row>,
                        id: nat, op: Op, moved: map<nat, nat>)
    requires Values(slots, ops, jobs, mem, logical) && id in ops && id in jobs && jobs[id].landed
    requires Landed(mem, jobs[id].plan) && moved.Keys == jobs[id].assign.Keys
    requires forall t :: t in moved ==> moved[t] in jobs[id].plan && jobs[id].plan[moved[t]] == jobs[id].assign[t]
    ensures Values(slots + moved, ops[id := op], jobs, mem, logical + jobs[id].assign)
  {
    var slots', ops', logical' := slots + moved, ops[id := op], logical + jobs[id].assign;
    forall t | t in slots && Dirty(ops, jobs, slots[t]) ensures Dirty(ops', jobs, slots[t]) {
      DirtyElsewhere(ops, jobs, id, op, slots[t]);
    }
    forall t | t in slots' && t in logical' && !Dirty(ops', jobs, slots'[t])
      ensures slots'[t] in mem && mem[slots'[t]] == logical'[t]
    {
    }
  }

  /** Completed writes disturb nothing, whatever becomes of their call. */
  lemma DirtyElsewhere(ops: map<nat, Op>, jobs: map<nat, Job>, id: nat, op: Op, x: nat)
    requires id in jobs && jobs[id].landed && Dirty(ops, jobs, x)
    ensures Dirty(ops[id := op], jobs, x)
  {
    var i :| i in jobs && DirtyBy(ops, jobs[i], i, x);
    assert DirtyBy(ops[id := op], jobs[i], i, x);
  }

  /** What a promotion still writing knows about its own job. */
  lemma PromotionFacts(p: Arena, id: nat)
    requires Good(p) && id in p.slide.ops && p.slide.ops[id].Promotion? && p.slide.ops[id].phase.Writing?
    ensures var op, c := p.slide.ops[id], p.slide.core;
            && id in p.jobs && PromotionJob(p.mem, p.selected, op, p.jobs[id])
            && Sound(c, p.slide.base, op) && Separate(c, p.slide.base, p.slide.ops) && c.floor == p.slide.base
            && (forall t :: t in op.dest ==> p.slide.base <= op.dest[t])
  {
    assert id in p.jobs by { Part(p, Mutex); }
    JobFit(p, id);
    assert p.slide.core.floor == p.slide.base by { Part(p, Space); }
    assert Sound(p.slide.core, p.slide.base, p.slide.ops[id]) && Separate(p.slide.core, p.slide.base, p.slide.ops) by {
      MapInv(p);
    }
    forall t | t in p.slide.ops[id].dest ensures p.slide.base <= p.slide.ops[id].dest[t] {
      ClaimAbove(p.slide.core, p.slide.base, p.slide.ops, id, p.slide.ops[id].dest[t]);
    }
  }

  lemma ClaimAbove(c: Core, base: nat, ops: map<nat, Op>, id: nat, x: nat)
    requires Separate(c, base, ops) && id in ops && x in Claim(ops[id])
    ensures base <= x
  {
    assert x !in c.vacated;
  }

  /** Call `id` moved on: still the same kind of call holding the same slots. */
  ghost predicate SameCall(a: Op, b: Op) {
    && (a.Promotion? || a.Decode?) && a.Promotion? == b.Promotion? && a.Decode? == b.Decode?
    && Uses(a, Hold) == Uses(b, Hold)
  }

  ghost predicate Progress(p: Arena, q: Arena, id: nat) {
    && q == p.(slide := q.slide, logical := q.logical, broken := q.broken) && q.slide.base == p.slide.base
    && q.slide.core.floor == p.slide.core.floor && q.slide.core.maxSlots == p.slide.core.maxSlots
    && id in p.slide.ops && id in q.slide.ops && SameCall(p.slide.ops[id], q.slide.ops[id])
    && q.slide.ops == p.slide.ops[id := q.slide.ops[id]]
    && (p.slide.core.closed || (q.slide.ops[id].Decode? && q.slide.ops[id].step.Failed?) ==> q.slide.core.closed)
  }

  lemma BusyPhase(ops: map<nat, Op>, busy: Option<nat>, jobs: set<nat>, callbacks: set<nat>, id: nat, op: Op)
    requires BusyFits(ops, busy, jobs, callbacks) && id in ops && SameCall(ops[id], op)
    ensures BusyFits(ops[id := op], busy, jobs, callbacks)
  {}

  lemma ApartPhase(ops: map<nat, Op>, decoded: bool, id: nat, op: Op)
    requires Apart(ops, decoded) && id in ops && SameCall(ops[id], op)
    ensures Apart(ops[id := op], decoded)
  {}

  lemma OwnersPhase(ops: map<nat, Op>, floor: nat, canonical: map<nat, nat>, id: nat, op: Op)
    requires GuardsOwned(ops, floor, canonical) && id in ops && SameCall(ops[id], op)
    ensures GuardsOwned(ops[id := op], floor, canonical)
  {}

  /** A call's progress changes nothing about who holds the arena or reads, nor
      about canonical slots. */
  lemma PhaseKeeps(p: Arena, q: Arena, id: nat, k: Clause)
    requires Good(p) && Progress(p, q, id)
    requires k.Mutex? || k.Distance? || k.Readers? || k.Failures? || k.Owners? || k.Space? || k.Names? || k.Tally?
             || k.Chosen?
    ensures Holds(q, k)
  {
    Part(p, k);
    match k
    case Mutex => BusyPhase(p.slide.ops, p.busy, p.jobs.Keys, p.callbacks.Keys, id, q.slide.ops[id]);
    case Distance => ApartPhase(p.slide.ops, p.decoded, id, q.slide.ops[id]);
    case Readers => ViewsPhase(p.slide.ops, p.views, p.mem, id, q.slide.ops[id]);
    case Owners => OwnersPhase(p.slide.ops, p.slide.core.floor, p.canonical, id, q.slide.ops[id]);
    case _ =>
  }

  lemma ViewsPhase(ops: map<nat, Op>, views: map<nat, map<nat, Row>>, mem: map<nat, Row>, id: nat, op: Op)
    requires ViewsFit(ops, views, mem) && id in ops && !ops[id].Pin? && !op.Pin?
    ensures ViewsFit(ops[id := op], views, mem)
  {}

  /** The arena right after a promotion published. */
  ghost function Moved(p: Arena, id: nat): Arena
    requires id in p.slide.ops && p.slide.ops[id].Promotion? && id in p.jobs
  {
    p.(slide := p.slide.(core := Publish(p.slide.core, p.slide.ops[id]),
            ops := p.slide.ops[id := p.slide.ops[id].(phase := Published)]),
       logical := p.logical + p.jobs[id].assign)
  }

  ghost predicate Movable(p: Arena, id: nat) {
    && id in p.slide.ops && p.slide.ops[id].Promotion? && p.slide.ops[id].phase.Writing?
    && !p.slide.core.closed && id in p.jobs && p.jobs[id].landed && !p.decoded
  }

  lemma MovedMap(p: Arena, id: nat)
    requires Good(p) && Movable(p, id)
    ensures Holds(Moved(p, id), Map) && Holds(Moved(p, id), NoAlias)
  {
    assert Inv(p.slide) by { MapInv(p); }
    assert Injective(p.slide.core.slots) by { Part(p, NoAlias); }
    PublishedMap(p.slide, id, Moved(p, id).slide);
  }

  lemma MovedHomes(p: Arena, id: nat)
    requires Good(p) && Movable(p, id)
    ensures Holds(Moved(p, id), Homes)
  {
    PromotionFacts(p, id);
    assert Layout(p.slide.core, p.slide.ops, p.canonical) by { Part(p, Homes); }
    PublishedLayout(p.slide.core, p.slide.base, p.slide.ops, p.canonical, id);
  }

  lemma MovedOriginal(p: Arena, id: nat)
    requires Good(p) && Movable(p, id)
    ensures Holds(Moved(p, id), Original)
  {
    PromotionFacts(p, id);
    Part(p, Original);
    PublishedHome(p.slide.core, p.slide.ops[id], p.slide.base, p.canonical);
  }

  lemma MovedJobs(p: Arena, id: nat)
    requires Good(p) && Movable(p, id)
    ensures Holds(Moved(p, id), Writes)
  {
    var c, op := p.slide.core, p.slide.ops[id];
    assert op.source.Keys == op.dest.Keys && forall t :: t in op.source ==>
        t in c.slots && c.slots[t] == op.source[t] by {
      PromotionFacts(p, id);
    }
    assert Apart(p.slide.ops, false) by { Part(p, Distance); }
    Part(p, Writes);
    PublishedJobs(c.slots, p.slide.ops, p.mem, p.jobs, p.selected, p.canonical, p.table, p.geo.blockSize, id);
  }

  lemma MovedPlan(p: Arena, id: nat)
    requires Good(p) && Movable(p, id)
    ensures var dest, job := p.slide.ops[id].dest, p.jobs[id];
            && Landed(p.mem, job.plan) && dest.Keys == job.assign.Keys
            && forall t :: t in dest ==> dest[t] in job.plan && job.plan[dest[t]] == job.assign[t]
  {
    PromotionFacts(p, id);
    var op := p.slide.ops[id];
    forall t | t in op.dest
      ensures op.dest[t] in p.jobs[id].plan && p.jobs[id].plan[op.dest[t]] == p.jobs[id].assign[t]
    {
      assert op.dest[t] in op.dest.Values;
    }
  }

  lemma MovedContents(p: Arena, id: nat)
    requires Good(p) && Movable(p, id)
    ensures Holds(Moved(p, id), Contents)
  {
    MovedPlan(p, id);
    Part(p, Contents);
    var op := p.slide.ops[id];
    PublishedValues(p.slide.core.slots, p.slide.ops, p.jobs, p.mem, p.logical, id, op.(phase := Published), op.dest);
  }

  lemma MovedDomain(p: Arena, id: nat)
    requires Good(p) && Movable(p, id)
    ensures Holds(Moved(p, id), Domain)
  {
    MovedPlan(p, id);
    Part(p, Domain);
  }

  lemma MovedSidecar(p: Arena, id: nat)
    requires Good(p) && Movable(p, id)
    ensures Holds(Moved(p, id), Sidecar)
  {
    PromotionFacts(p, id);
    Part(p, Sidecar);
  }

  lemma MovedGood(p: Arena, id: nat)
    requires Good(p) && Movable(p, id)
    ensures Good(Moved(p, id))
  {
    var q := Moved(p, id);
    forall k ensures Holds(q, k) == true {
      match k
      case Map => MovedMap(p, id);
      case NoAlias => MovedMap(p, id);
      case Homes => MovedHomes(p, id);
      case Original => MovedOriginal(p, id);
      case Writes => MovedJobs(p, id);
      case Contents => MovedContents(p, id);
      case Domain => MovedDomain(p, id);
      case Sidecar => MovedSidecar(p, id);
      case _ => PhaseKeeps(p, q, id, k);
    }
  }

  lemma PublishPromotionGood(p: Arena, id: nat)
    requires Good(p) && Enabled(p, PublishPromotion(id)) == true
    ensures Good(Next(p, PublishPromotion(id)))
  {
    PublishCases(p, id);
    if Next(p, PublishPromotion(id)) != p {
      MovedGood(p, id);
    }
  }

  // ---- failure and release of a promotion ---------------------------------------------------

  /** The arena right after a promotion failed. */
  ghost function GivenUp(p: Arena, id: nat): Arena
    requires id in p.slide.ops && p.slide.ops[id].Promotion?
  {
    p.(slide := p.slide.(core := p.slide.core.(unused := p.slide.core.unused + p.slide.ops[id].taken),
                         ops := p.slide.ops[id := p.slide.ops[id].(phase := Failed)]),
       broken := true)
  }

  lemma JobsPhase(slots: map<nat, nat>, ops: map<nat, Op>, mem: map<nat, Row>, jobs: map<nat, Job>, selected: set<nat>,
                  canonical: map<nat, nat>, table: seq<int>, blockSize: Size, id: nat, op: Op)
    requires JobsFit(slots, ops, mem, jobs, selected, canonical, table, blockSize) && id in ops
    requires (ops[id].Promotion? && op == ops[id].(phase := Failed))
             || (ops[id].Decode? && op == ops[id].(step := Failed))
    ensures JobsFit(slots, ops[id := op], mem, jobs, selected, canonical, table, blockSize)
  {
    forall j | j in jobs ensures JobFits(slots, mem, selected, canonical, table, blockSize, ops[id := op][j], jobs[j]) {
      assert JobFits(slots, mem, selected, canonical, table, blockSize, ops[j], jobs[j]);
    }
  }

  /** A write that stops where no token lives leaves every token's slot as it was. */
  lemma ValuesStopped(slots: map<nat, nat>, ops: map<nat, Op>, jobs: map<nat, Job>, mem: map<nat, Row>,
                      logical: map<nat, Row>,
                      id: nat, op: Op)
    requires Values(slots, ops, jobs, mem, logical) && id in ops && id in jobs
    requires forall x :: x in jobs[id].plan ==> x !in slots.Values
    ensures Values(slots, ops[id := op], jobs, mem, logical)
  {
    forall t | t in slots && Dirty(ops, jobs, slots[t]) ensures Dirty(ops[id := op], jobs, slots[t]) {
      var i :| i in jobs && DirtyBy(ops, jobs[i], i, slots[t]);
      assert slots[t] in slots.Values;
      assert DirtyBy(ops[id := op], jobs[i], i, slots[t]);
    }
  }

  lemma GivenUpJobs(p: Arena, id: nat)
    requires Good(p) && id in p.slide.ops && p.slide.ops[id].Promotion? && p.slide.ops[id].phase.Writing?
    ensures Holds(GivenUp(p, id), Writes)
  {
    Part(p, Writes);
    JobsPhase(p.slide.core.slots, p.slide.ops, p.mem, p.jobs, p.selected, p.canonical, p.table, p.geo.blockSize, id,
          GivenUp(p, id).slide.ops[id]);
  }

  /** A promotion still writing writes where no token lives. */
  lemma PlanUnmapped(p: Arena, id: nat)
    requires Good(p) && id in p.slide.ops && p.slide.ops[id].Promotion? && p.slide.ops[id].phase.Writing?
    ensures id in p.jobs && forall x :: x in p.jobs[id].plan ==> x !in p.slide.core.slots.Values
  {
    PromotionFacts(p, id);
    assert AllSound(p.slide) by { MapInv(p); }
    TargetsUnmapped(p.slide, id);
  }

  lemma StoppedContents(p: Arena, id: nat, op: Op)
    requires Good(p) && id in p.slide.ops && p.slide.ops[id].Promotion? && p.slide.ops[id].phase.Writing?
    requires !p.slide.core.closed
    ensures Values(p.slide.core.slots, p.slide.ops[id := op], p.jobs, p.mem, p.logical) == true
  {
    PlanUnmapped(p, id);
    Part(p, Contents);
    ValuesStopped(p.slide.core.slots, p.slide.ops, p.jobs, p.mem, p.logical, id, op);
  }

  lemma GivenUpContents(p: Arena, id: nat)
    requires Good(p) && id in p.slide.ops && p.slide.ops[id].Promotion? && p.slide.ops[id].phase.Writing?
    ensures Holds(GivenUp(p, id), Contents)
  {
    if !p.slide.core.closed { StoppedContents(p, id, p.slide.ops[id].(phase := Failed)); }
  }

  lemma GivenUpMap(p: Arena, id: nat)
    requires Good(p) && id in p.slide.ops && p.slide.ops[id].Promotion? && p.slide.ops[id].phase.Writing?
    ensures Holds(GivenUp(p, id), Map)
  {
    MapInv(p);
    AbortKeeps(p.slide, id);
    SafeCloses(GivenUp(p, id).slide);
  }

  lemma GivenUpHomes(p: Arena, id: nat)
    requires Good(p) && id in p.slide.ops && p.slide.ops[id].Promotion? && p.slide.ops[id].phase.Writing?
    ensures Holds(GivenUp(p, id), Homes)
  {
    var q := GivenUp(p, id);
    Part(p, Homes);
    if !p.slide.core.closed {
      StoppedLayout(p.slide.core, p.slide.ops, p.canonical, id, q.slide.core, q.slide.ops[id]);
    }
  }

  lemma GivenUpGood(p: Arena, id: nat)
    requires Good(p) && id in p.slide.ops && p.slide.ops[id].Promotion? && p.slide.ops[id].phase.Writing?
    ensures Good(GivenUp(p, id))
  {
    var q := GivenUp(p, id);
    forall k ensures Holds(q, k) == true {
      match k
      case Map => GivenUpMap(p, id);
      case Homes => GivenUpHomes(p, id);
      case Writes => GivenUpJobs(p, id);
      case Contents => GivenUpContents(p, id);
      case NoAlias => Part(p, k);
      case Original => Part(p, k);
      case Domain => Part(p, k);
      case Sidecar => Part(p, k);
      case _ => PhaseKeeps(p, q, id, k);
    }
  }

  lemma StoppedLayout(c: Core, ops: map<nat, Op>, canonical: map<nat, nat>, id: nat, c': Core, op: Op)
    requires Layout(c, ops, canonical) && id in ops && ops[id].Promotion? && op.Promotion?
    requires c' == c.(unused := c'.unused) && forall u: Use :: Uses(op, u) == Uses(ops[id], u)
    ensures Layout(c', ops[id := op], canonical)
  {
    var ops' := ops[id := op];
    SameDecodes(ops, canonical, id, op);
    forall i, s | i in ops' && s < c.floor && s in Uses(ops'[i], Read) + Uses(ops'[i], Hold)
      ensures Native(ops', canonical, s)
    {
      assert s in Uses(ops[i], Read) + Uses(ops[i], Hold);
      assert Native(ops, canonical, s);
    }
  }

  lemma AbortPromotionGood(p: Arena, id: nat)
    requires Good(p) && Enabled(p, AbortPromotion(id)) == true
    ensures Good(Next(p, AbortPromotion(id)))
  {
    if p.slide.ops[id].phase.Writing? {
      GivenUpGood(p, id);
      BrokenMatters(p, id);
    }
  }

  lemma BrokenMatters(p: Arena, id: nat)
    requires Enabled(p, AbortPromotion(id)) && p.slide.ops[id].phase.Writing?
    ensures Next(p, AbortPromotion(id)) == GivenUp(p, id)
  {
    assert Apply(p.slide, PromoteAbort(id)) == GivenUp(p, id).slide;
    assert GivenUp(p, id).slide.ops[id] != p.slide.ops[id];
  }

  lemma ReleasedGood(p: Arena, id: nat)
    requires Good(p) && id in p.slide.ops && p.slide.ops[id].Promotion? && !p.slide.ops[id].phase.Writing?
    ensures Good(p.(slide := Leave(p.slide, id), jobs := p.jobs - {id}))
  {
    var q := p.(slide := Leave(p.slide, id), jobs := p.jobs - {id});
    assert id !in p.views && id !in p.callbacks by { Part(p, Readers); Part(p, Mutex); }
    WithoutAbsent(p.views, id);
    WithoutAbsent(p.callbacks, id);
    assert p.selected <= p.canonical.Keys by { Part(p, Chosen); }
    GoneGood(p, id, q);
  }

  lemma ReleasePromotionIs(p: Arena, id: nat)
    requires Enabled(p, ReleasePromotion(id))
    ensures Next(p, ReleasePromotion(id)) == p.(slide := Leave(p.slide, id), jobs := p.jobs - {id})
    ensures id in p.slide.ops && p.slide.ops[id].Promotion? && !p.slide.ops[id].phase.Writing?
  {
    assert Apply(p.slide, PromoteRelease(id)) == Leave(p.slide, id);
  }

  lemma ReleasePromotionGood(p: Arena, id: nat)
    requires Good(p) && Enabled(p, ReleasePromotion(id)) == true
    ensures Good(Next(p, ReleasePromotion(id)))
  {
    ReleasePromotionIs(p, id);
    ReleasedGood(p, id);
  }

  // ---- decode ---------------------------------------------------------------------------------

  lemma DecodeFits(mem: map<nat, Row>, canonical: map<nat, nat>, table: seq<int>, blockSize: Size, token: nat,
                   slot: nat, native: nat,
                   gen: nat, row: Row)
    requires token == |canonical| && native !in canonical.Values
    requires CanonicalSlot(table, blockSize, token) == Some(native)
    requires slot == native || slot in canonical.Values
    ensures DecodeJob(mem, canonical, table, blockSize, Decode(token, slot, native, gen, Writing),
                      Job(Append, map[slot := row, native := row], map[token := row], false))
  {}

  lemma ApartAfterDecode(ops: map<nat, Op>, decoded: bool, id: nat, op: Op)
    requires Apart(ops, decoded) && id !in ops && op.Decode? && forall i :: i in ops ==> !ops[i].Promotion?
    ensures Apart(ops[id := op], decoded)
  {}

  /** A new decode's slot is its own native one or a hole some token left. */
  lemma HoleNative(p: Arena, token: nat, native: nat)
    requires Good(p) && Idle(p) && Destination(p.slide.core, token, native, true).Ok?
    ensures var slot := Destination(p.slide.core, token, native, true).value;
            && !p.slide.core.closed
            && (slot == native || slot in p.canonical.Values)
            && Accounted(p.slide.core.floor, p.slide.ops, p.canonical, {slot, native} - {native})
  {
    DestinationFree(p.slide.core, token, native, true);
    IdleSettled(p);
    Settled(p);
  }

  /** The slots a decode may take. */
  ghost predicate Openable(p: Arena, id: nat, token: nat, slot: nat, native: nat) {
    && Idle(p) && NewCall(p, id) && PromotionsDone(p) && !p.slide.core.closed
    && token == |p.canonical| && native !in p.canonical.Values
    && CanonicalSlot(p.table, p.geo.blockSize, token) == Some(native)
    && (slot == native || slot in p.canonical.Values)
    && Accounted(p.slide.core.floor, p.slide.ops, p.canonical, {slot, native} - {native})
  }

  lemma OpenedFacts(p: Arena, id: nat, token: nat, slot: nat, native: nat, row: Row)
    requires Good(p) && Openable(p, id, token, slot, native) == true
    ensures var q := Opened(p, id, token, slot, native, row);
            && JobsFit(q.slide.core.slots, q.slide.ops, q.mem, q.jobs, q.selected, q.canonical, q.table,
                    q.geo.blockSize)
            && Values(q.slide.core.slots, q.slide.ops, q.jobs, q.mem, q.logical)
  {
    var c, ops := p.slide.core, p.slide.ops;
    var op := Decode(token, slot, native, c.generation, Writing);
    var job := Job(Append, map[slot := row, native := row], map[token := row], false);
    DecodeFits(p.mem, p.canonical, p.table, p.geo.blockSize, token, slot, native, c.generation, row);
    Part(p, Writes); Part(p, Contents);
    JobsAfterEnter(c.slots, ops, p.mem, p.jobs, p.selected, p.canonical, p.table, p.geo.blockSize, id, op, job);
    ValuesAfterEnter(c.slots, ops, p.jobs, p.mem, p.logical, id, op, job);
  }

  lemma LayoutOpen(c: Core, ops: map<nat, Op>, canonical: map<nat, nat>, c': Core, id: nat, op: Op)
    requires Layout(c, ops, canonical) == true && id !in ops && op.Decode? && op.step.Writing?
    requires c'.slots == c.slots && c'.vacated <= c.vacated && c'.shared == c.shared && c'.floor == c.floor
    requires Accounted(c.floor, ops, canonical, {op.chosen, op.native} - {op.native}) == true
    ensures Layout(c', ops[id := op], canonical) == true
  {
    assert Uses(op, Read) + Uses(op, Hold) == {op.chosen, op.native};
    LayoutEnter(c, ops, canonical, c', id, op);
  }

  lemma OpenedLayout(p: Arena, id: nat, token: nat, slot: nat, native: nat, row: Row)
    requires Good(p) && Openable(p, id, token, slot, native) == true
    ensures var q := Opened(p, id, token, slot, native, row); Layout(q.slide.core, q.slide.ops, p.canonical) == true
  {
    var q := Opened(p, id, token, slot, native, row);
    assert Layout(p.slide.core, p.slide.ops, p.canonical) == true by { Part(p, Homes); }
    LayoutOpen(p.slide.core, p.slide.ops, p.canonical, q.slide.core, id,
          Decode(token, slot, native, p.slide.core.generation, Writing));
  }

  lemma OpenedGood(p: Arena, id: nat, token: nat, slot: nat, native: nat, row: Row)
    requires Good(p) && Openable(p, id, token, slot, native) == true
    requires Safe(Opened(p, id, token, slot, native, row).slide)
    ensures Good(Opened(p, id, token, slot, native, row))
  {
    var q := Opened(p, id, token, slot, native, row);
    OpenedFacts(p, id, token, slot, native, row);
    OpenedLayout(p, id, token, slot, native, row);
    OpenedCalls(p, id, token, slot, native, row);
    OpenedSidecar(p, id, token, slot, native, row);
    forall k ensures Holds(q, k) == true {
      Part(p, k);
    }
  }

  lemma OpenedSidecar(p: Arena, id: nat, token: nat, slot: nat, native: nat, row: Row)
    requires Good(p) && NewCall(p, id)
    ensures var q := Opened(p, id, token, slot, native, row).slide;
            && SidecarFits(q.core.slots, q.core.vacated, p.slide.core.floor, q.ops, p.selected)
            && FailedRetires(q.ops, q.core.closed) && GuardsOwned(q.ops, p.slide.core.floor, p.canonical)
  {
    Part(p, Sidecar); Part(p, Failures); Part(p, Owners);
  }

  lemma OpenedCalls(p: Arena, id: nat, token: nat, slot: nat, native: nat, row: Row)
    requires Good(p) && Idle(p) && NewCall(p, id) && PromotionsDone(p)
    ensures var q := Opened(p, id, token, slot, native, row);
            && BusyFits(q.slide.ops, q.busy, q.jobs.Keys, q.callbacks.Keys) && Apart(q.slide.ops, q.decoded)
            && ViewsFit(q.slide.ops, q.views, q.mem)
  {
    var q, ops := Opened(p, id, token, slot, native, row), p.slide.ops;
    var op := q.slide.ops[id];
    assert q.jobs.Keys == p.jobs.Keys + {id};
    Part(p, Mutex); Part(p, Distance); Part(p, Readers);
    BusyAfterGuard(ops, p.jobs.Keys, p.callbacks.Keys, id, op);
    ApartAfterDecode(ops, p.decoded, id, op);
    ViewsAfterEnter(ops, p.views, p.mem, id, op);
  }

  lemma OpenedSafe(p: Arena, id: nat, token: nat, native: nat, row: Row)
    requires Good(p) && NewCall(p, id) && Destination(p.slide.core, token, native, true).Ok?
    ensures Safe(Opened(p, id, token, Destination(p.slide.core, token, native, true).value, native, row).slide)
  {
    MapInv(p);
    DecodeEnterKeeps(p.slide, id, token, native, true);
    SafeCloses(Opened(p, id, token, Destination(p.slide.core, token, native, true).value, native, row).slide);
  }

  lemma BeginDecodeGood(p: Arena, id: nat, token: nat, row: Row)
    requires Good(p) && Enabled(p, BeginDecode(id, token, row)) == true
    ensures Good(Next(p, BeginDecode(id, token, row)))
  {
    var native := CanonicalSlot(p.table, p.geo.blockSize, token).value;
    AppendingOpens(p, id, token, native, row);
    if Destination(p.slide.core, token, native, true).Ok? {
      HoleNative(p, token, native);
      OpenedSafe(p, id, token, native, row);
      OpenedGood(p, id, token, Destination(p.slide.core, token, native, true).value, native, row);
    }
  }

  /** What a decode still writing knows about its own job. */
  lemma DecodeFacts(p: Arena, id: nat)
    requires Good(p) && id in p.slide.ops && p.slide.ops[id].Decode?
    ensures var op, c := p.slide.ops[id], p.slide.core;
            && id in p.jobs && DecodeJob(p.mem, p.canonical, p.table, p.geo.blockSize, op, p.jobs[id])
            && p.busy == Some(id)
            && (forall i :: i in p.slide.ops ==>
                  !p.slide.ops[i].Promotion? && !p.slide.ops[i].Guard?
                  && (i != id ==> !p.slide.ops[i].Decode?))
            && (forall i :: i in p.jobs ==> i == id)
            && (op.step.Writing? ==> op.token !in c.slots && op.chosen !in c.slots.Values)
  {
    assert id in p.jobs && p.busy == Some(id) by { Part(p, Mutex); }
    JobFit(p, id);
    assert forall i :: i in p.slide.ops ==> !p.slide.ops[i].Promotion? by { Part(p, Distance); }
    assert forall i :: i in p.slide.ops ==> !p.slide.ops[i].Guard? && (i != id ==> !p.slide.ops[i].Decode?) by {
      Part(p, Mutex);
    }
    assert forall i :: i in p.jobs ==> i == id by { Part(p, Mutex); }
    MapSound(p, id);
  }

  /** The arena right after a decode published its token. */
  ghost function Extended(p: Arena, id: nat): Arena
    requires id in p.slide.ops && p.slide.ops[id].Decode? && id in p.jobs
  {
    var op := p.slide.ops[id];
    p.(slide := p.slide.(core := p.slide.core.(slots := p.slide.core.slots[op.token := op.chosen]),
                         ops := p.slide.ops[id := op.(step := Published)]),
       logical := p.logical + p.jobs[id].assign)
  }

  lemma ExtendedLayout(c: Core, ops: map<nat, Op>, canonical: map<nat, nat>, id: nat)
    requires Layout(c, ops, canonical) == true && id in ops && ops[id].Decode? && ops[id].step.Writing?
    requires ops[id].chosen == ops[id].native || ops[id].chosen in canonical.Values
    ensures var op := ops[id];
            Layout(c.(slots := c.slots[op.token := op.chosen]), ops[id := op.(step := Published)], canonical)
  {
    var op := ops[id];
    var ops' := ops[id := op.(step := Published)];
    forall t ensures Extra(ops', t) <==> Extra(ops, t) || t == op.token {
      if Extra(ops, t) {
        var i :| i in ops && ops[i].Decode? && ops[i].step.Published? && ops[i].token == t;
        assert ops'[i] == ops[i];
      }
      if t == op.token { assert ops'[id].Decode? && ops'[id].step.Published?; }
    }
    forall s | Native(ops, canonical, s) || s == op.chosen ensures Native(ops', canonical, s) {
      if s !in canonical.Values {
        if s == op.chosen { assert ops'[id].native == s; }
        else {
          var i :| i in ops && ops[i].Decode? && s == ops[i].native;
          assert ops'[i].Decode? && s == ops'[i].native;
        }
      }
    }
    forall i, s | i in ops' && s < c.floor && s in Uses(ops'[i], Read) + Uses(ops'[i], Hold)
      ensures Native(ops', canonical, s)
    {
      assert s in Uses(ops[i], Read) + Uses(ops[i], Hold);
      assert Native(ops, canonical, s);
    }
  }

  ghost predicate Extendable(p: Arena, id: nat) {
    && id in p.slide.ops && p.slide.ops[id].Decode? && p.slide.ops[id].step.Writing?
    && !p.slide.core.closed && id in p.jobs && p.jobs[id].landed
  }

  lemma ExtendedJobs(p: Arena, id: nat)
    requires Good(p) && Extendable(p, id)
    ensures Holds(Extended(p, id), Writes)
  {
    DecodeFacts(p, id);
  }

  lemma ExtendedRows(slots: map<nat, nat>, ops: map<nat, Op>, jobs: map<nat, Job>, mem: map<nat, Row>,
                     logical: map<nat, Row>,
                     id: nat, op: Op, token: nat, chosen: nat)
    requires Values(slots, ops, jobs, mem, logical) && logical.Keys == slots.Keys && id in ops && id in jobs
    requires jobs[id].landed
    requires Landed(mem, jobs[id].plan) && jobs[id].assign.Keys == {token}
    requires chosen in jobs[id].plan && jobs[id].plan[chosen] == jobs[id].assign[token]
    ensures Values(slots[token := chosen], ops[id := op], jobs, mem, logical + jobs[id].assign)
    ensures (logical + jobs[id].assign).Keys == slots[token := chosen].Keys
  {
    PublishedValues(slots, ops, jobs, mem, logical, id, op, map[token := chosen]);
    AddOne(slots, token, chosen);
  }

  lemma ExtendedContents(p: Arena, id: nat)
    requires Good(p) && Extendable(p, id)
    ensures Holds(Extended(p, id), Contents) && Holds(Extended(p, id), Domain)
  {
    var op, job := p.slide.ops[id], p.jobs[id];
    assert Landed(p.mem, job.plan) && job.assign.Keys == {op.token} && op.chosen in job.plan
        && job.plan[op.chosen] == job.assign[op.token] by {
      DecodeFacts(p, id);
    }
    Part(p, Contents); Part(p, Domain);
    ExtendedRows(p.slide.core.slots, p.slide.ops, p.jobs, p.mem, p.logical, id, op.(step := Published), op.token,
          op.chosen);
  }

  lemma AddOne(slots: map<nat, nat>, token: nat, slot: nat)
    ensures slots + map[token := slot] == slots[token := slot]
  {}

  lemma ExtendedMap(p: Arena, id: nat)
    requires Good(p) && Extendable(p, id)
    ensures Holds(Extended(p, id), Map)
  {
    MapInv(p);
    DecodePublishKeeps(p.slide, id);
    SafeCloses(Extended(p, id).slide);
  }

  lemma ExtendedAlias(p: Arena, id: nat)
    requires Good(p) && Extendable(p, id)
    ensures Holds(Extended(p, id), NoAlias)
  {
    var op := p.slide.ops[id];
    assert op.token !in p.slide.core.slots && op.chosen !in p.slide.core.slots.Values by { DecodeFacts(p, id); }
    Part(p, NoAlias);
    BindInjective(p.slide.core.slots, op.token, op.chosen);
  }

  lemma ExtendedHomes(p: Arena, id: nat)
    requires Good(p) && Extendable(p, id)
    ensures Holds(Extended(p, id), Homes) == true
  {
    var op := p.slide.ops[id];
    assert Layout(Extended(p, id).slide.core, Extended(p, id).slide.ops, p.canonical) == true by {
      assert op.chosen == op.native || op.chosen in p.canonical.Values by { DecodeFacts(p, id); }
      assert Layout(p.slide.core, p.slide.ops, p.canonical) == true by { Part(p, Homes); }
      ExtendedLayout(p.slide.core, p.slide.ops, p.canonical, id);
    }
  }

  lemma ExtendedOriginal(p: Arena, id: nat)
    requires Good(p) && Extendable(p, id)
    ensures Holds(Extended(p, id), Original)
  {
    var op := p.slide.ops[id];
    assert op.token !in p.canonical by {
      DecodeFacts(p, id);
      Part(p, Names);
    }
    Part(p, Original);
  }

  lemma ExtendedSidecar(p: Arena, id: nat)
    requires Good(p) && Extendable(p, id)
    ensures Holds(Extended(p, id), Sidecar)
  {
    MapSound(p, id);
    Part(p, Sidecar);
  }

  lemma ExtendedGood(p: Arena, id: nat)
    requires Good(p) && Extendable(p, id)
    ensures Good(Extended(p, id))
  {
    var q := Extended(p, id);
    forall k ensures Holds(q, k) == true {
      match k
      case Map => ExtendedMap(p, id);
      case NoAlias => ExtendedAlias(p, id);
      case Homes => ExtendedHomes(p, id);
      case Original => ExtendedOriginal(p, id);
      case Writes => ExtendedJobs(p, id);
      case Contents => ExtendedContents(p, id);
      case Domain => ExtendedContents(p, id);
      case Sidecar => ExtendedSidecar(p, id);
      case _ => PhaseKeeps(p, q, id, k);
    }
  }

  lemma PublishDecodeCases(p: Arena, id: nat)
    requires Good(p) && Enabled(p, Step.PublishDecode(id)) == true
    ensures var q := Next(p, Step.PublishDecode(id));
            q == p || (!p.slide.core.closed && p.slide.ops[id].step.Writing? && q == Extended(p, id))
  {}

  lemma PublishDecodeGood(p: Arena, id: nat)
    requires Good(p) && Enabled(p, Step.PublishDecode(id)) == true
    ensures Good(Next(p, Step.PublishDecode(id)))
  {
    PublishDecodeCases(p, id);
    if Next(p, Step.PublishDecode(id)) != p { ExtendedGood(p, id); }
  }

  lemma AbortDecodeGood(p: Arena, id: nat)
    requires Good(p) && Enabled(p, AbortDecode(id)) == true
    ensures Good(Next(p, AbortDecode(id)))
  {
    if p.slide.ops[id].step.Writing? {
      var core := if p.slide.core.closed then p.slide.core else Retire(p.slide.core);
      StoppedGood(p, id, p.slide.(core := core, ops := p.slide.ops[id := p.slide.ops[id].(step := Failed)]));
    }
  }

  /** A decode that fails retires the map, so nothing is claimed about its tokens any more. */
  lemma StoppedGood(p: Arena, id: nat, s': System)
    requires Good(p) && id in p.slide.ops && p.slide.ops[id].Decode? && p.slide.ops[id].step.Writing?
    requires s' == p.slide.(core := if p.slide.core.closed then p.slide.core else Retire(p.slide.core),
                            ops := p.slide.ops[id := p.slide.ops[id].(step := Failed)])
    ensures Good(p.(slide := s'))
  {
    var q := p.(slide := s');
    forall k ensures Holds(q, k) == true {
      match k
      case Map => StoppedSafe(p, id, s');
      case Writes => StoppedJobs(p, id, s'.ops[id]);
      case NoAlias => Part(p, k);
      case Original => Part(p, k);
      case Domain => Part(p, k);
      case Sidecar => Part(p, k);
      case Homes =>
      case Contents =>
      case _ => PhaseKeeps(p, q, id, k);
    }
  }

  lemma StoppedJobs(p: Arena, id: nat, op: Op)
    requires Good(p) && id in p.slide.ops && p.slide.ops[id].Decode? && op == p.slide.ops[id].(step := Failed)
    ensures JobsFit(p.slide.core.slots, p.slide.ops[id := op], p.mem, p.jobs, p.selected, p.canonical, p.table,
              p.geo.blockSize)
  {
    Part(p, Writes);
    JobsPhase(p.slide.core.slots, p.slide.ops, p.mem, p.jobs, p.selected, p.canonical, p.table, p.geo.blockSize, id,
          op);
  }

  lemma StoppedSafe(p: Arena, id: nat, s': System)
    requires Good(p) && id in p.slide.ops && p.slide.ops[id].Decode? && p.slide.ops[id].step.Writing?
    requires s' == p.slide.(core := if p.slide.core.closed then p.slide.core else Retire(p.slide.core),
                            ops := p.slide.ops[id := p.slide.ops[id].(step := Failed)])
    ensures Safe(s')
  {
    MapInv(p);
    assert s' == Apply(p.slide, DecodeAbort(id));
    EventKeeps(p.slide, DecodeAbort(id));
    SafeCloses(Apply(p.slide, DecodeAbort(id)));
  }

  /** The arena right after a decode released its reservations. */
  ghost function Closed(p: Arena, id: nat): Arena
    requires id in p.slide.ops
  {
    p.(slide := Leave(p.slide, id), busy := None, jobs := p.jobs - {id})
  }

  lemma ClosedJobs(p: Arena, id: nat)
    requires Good(p) && id in p.slide.ops && p.slide.ops[id].Decode?
    ensures Closed(p, id).jobs == map[]
  {
    DecodeFacts(p, id);
  }

  lemma ClosedReaders(p: Arena, id: nat)
    requires Good(p) && id in p.slide.ops && p.slide.ops[id].Decode?
    ensures ViewsFit(p.slide.ops - {id}, p.views, p.mem)
  {
    Part(p, Readers);
  }

  lemma ClosedApart(p: Arena, id: nat)
    requires Good(p) && id in p.slide.ops && p.slide.ops[id].Decode?
    ensures Apart(p.slide.ops - {id}, true) && Apart(p.slide.ops - {id}, p.decoded)
  {
    assert forall i :: i in p.slide.ops ==> !p.slide.ops[i].Promotion? by { DecodeFacts(p, id); }
  }

  lemma NoJobs(slots: map<nat, nat>, ops: map<nat, Op>, mem: map<nat, Row>, selected: set<nat>,
               canonical: map<nat, nat>,
               table: seq<int>, blockSize: Size)
    ensures JobsFit(slots, ops, mem, map[], selected, canonical, table, blockSize)
  {}

  lemma BusyAfterDecode(p: Arena, id: nat)
    requires Good(p) && id in p.slide.ops && p.slide.ops[id].Decode?
    ensures BusyFits(p.slide.ops - {id}, None, {}, p.callbacks.Keys)
  {
    DecodeFacts(p, id);
    Part(p, Mutex);
  }

  lemma ClosedMap(p: Arena, id: nat)
    requires Good(p) && id in p.slide.ops && p.slide.ops[id].Decode? && !p.slide.ops[id].step.Writing?
    ensures Safe(Leave(p.slide, id))
  {
    MapInv(p);
    LeaveKeeps(p.slide, id);
    SafeCloses(Leave(p.slide, id));
  }

  lemma ClosedContents(p: Arena, id: nat)
    requires Good(p) && id in p.slide.ops && p.slide.ops[id].Decode? && !p.slide.ops[id].step.Writing?
    requires !p.slide.core.closed
    ensures Values(p.slide.core.slots, p.slide.ops - {id}, p.jobs - {id}, p.mem, p.logical)
  {
    Part(p, Contents);
    ValuesAfterLeave(p.slide.core.slots, p.slide.ops, p.jobs, p.mem, p.logical, id);
  }

  /** Once its token is canonical, a decode leaves no native slot unaccounted for. */
  lemma ClosedLayout(c: Core, ops: map<nat, Op>, canonical: map<nat, nat>, id: nat)
    requires Layout(c, ops, canonical) == true && id in ops && ops[id].Decode? && ops[id].step.Published?
    requires ops[id].token !in canonical && forall i :: i in ops && ops[i].Decode? ==> i == id
    ensures Layout(c, ops - {id}, canonical[ops[id].token := ops[id].native])
  {
    var op, ops' := ops[id], ops - {id};
    var canonical' := canonical[op.token := op.native];
    assert forall t :: !Extra(ops', t);
    forall t ensures Extra(ops, t) <==> t == op.token {
      if t == op.token { assert ops[id].Decode? && ops[id].step.Published? && ops[id].token == t; }
    }
    forall s | Native(ops, canonical, s) ensures Native(ops', canonical', s) {
      if s in canonical.Values {
        var t :| t in canonical && canonical[t] == s;
        assert t in canonical' && canonical'[t] == s;
      } else {
        assert s == op.native && canonical'[op.token] == s;
      }
    }
  }

  lemma CanonGrows(geo: Geometry, floor: nat, canonical: map<nat, nat>, table: seq<int>, token: nat, native: nat)
    requires Canon(geo, floor, canonical, table) && token == |canonical| && native !in canonical.Values
    requires native < floor
    requires CanonicalSlot(table, geo.blockSize, token) == Some(native)
    ensures Canon(geo, floor, canonical[token := native], table) && |canonical[token := native]| == |canonical| + 1
    ensures canonical.Keys <= canonical[token := native].Keys
  {
    var canonical' := canonical[token := native];
    assert canonical'.Keys == canonical.Keys + {token};
    assert |canonical'.Keys| == |canonical.Keys| + 1;
    assert forall t: nat :: t in canonical' <==> t < |canonical'|;
    forall t | t in canonical'
      ensures canonical'[t] < floor && CanonicalSlot(table, geo.blockSize, t) == Some(canonical'[t])
    {
      if t != token { assert canonical'[t] == canonical[t]; }
    }
    BindInjective(canonical, token, native);
  }

  /** The arena after a published decode recorded its token. */
  ghost predicate TokenRecorded(p: Arena, id: nat, q: Arena) {
    && id in p.slide.ops && p.slide.ops[id].Decode? && p.slide.ops[id].step.Published?
    && q == Closed(p, id).(canonical := p.canonical[p.slide.ops[id].token := p.slide.ops[id].native], decoded := true,
                           holeReuses := q.holeReuses, nativeBinds := q.nativeBinds)
    && q.holeReuses + q.nativeBinds == p.holeReuses + p.nativeBinds + 1
  }

  lemma RecordedTokens(p: Arena, id: nat, q: Arena, k: Clause)
    requires Good(p) && TokenRecorded(p, id, q) && (k.Names? || k.Chosen? || k.Tally? || k.Homes?)
    ensures Holds(q, k)
  {
    match k
    case Names => ReleasedNames(p, id);
    case Chosen => Part(p, Chosen);
    case Tally => ReleasedTally(p, id, q);
    case Homes => if !p.slide.core.closed { ReleasedLayout(p, id); }
  }

  lemma RecordedEnds(p: Arena, id: nat, q: Arena)
    requires TokenRecorded(p, id, q)
    ensures Ended(p, id, q)
  {}

  lemma ReleasedDecodeGood(p: Arena, id: nat, q: Arena)
    requires Good(p) && TokenRecorded(p, id, q) == true
    ensures Good(q)
  {
    assert p.canonical.Values <= q.canonical.Values by { ReleasedValues(p, id); }
    RecordedEnds(p, id, q);
    RecordedTokens(p, id, q, Names);
    RecordedTokens(p, id, q, Chosen);
    RecordedTokens(p, id, q, Tally);
    RecordedTokens(p, id, q, Homes);
    EndedGood(p, id, q);
  }

  lemma ReleasedGrows(p: Arena, id: nat)
    requires Good(p) && id in p.slide.ops && p.slide.ops[id].Decode? && p.slide.ops[id].step.Published?
    ensures var op := p.slide.ops[id];
            && op.token == |p.canonical| && op.native !in p.canonical.Values && op.native < p.slide.core.floor
            && CanonicalSlot(p.table, p.geo.blockSize, op.token) == Some(op.native)
  {
    NativeBelow(p, id);
    DecodeFacts(p, id);
  }

  lemma ReleasedNames(p: Arena, id: nat)
    requires Good(p) && id in p.slide.ops && p.slide.ops[id].Decode? && p.slide.ops[id].step.Published?
    ensures var op := p.slide.ops[id];
            Canon(p.geo, p.slide.core.floor, p.canonical[op.token := op.native], p.table) == true
  {
    ReleasedGrows(p, id);
    Part(p, Names);
    CanonGrows(p.geo, p.slide.core.floor, p.canonical, p.table, p.slide.ops[id].token, p.slide.ops[id].native);
  }

  lemma ReleasedTally(p: Arena, id: nat, q: Arena)
    requires Good(p) && id in p.slide.ops && p.slide.ops[id].Decode? && p.slide.ops[id].step.Published?
    requires q.canonical == p.canonical[p.slide.ops[id].token := p.slide.ops[id].native] && q.decoded
    requires q.holeReuses + q.nativeBinds == p.holeReuses + p.nativeBinds + 1
    ensures Tallied(q.canonical, p.geo.promptLength, q.holeReuses, q.nativeBinds, q.decoded)
  {
    ReleasedGrows(p, id);
    assert p.slide.ops[id].token !in p.canonical by { Part(p, Names); }
    Part(p, Tally);
  }

  lemma ReleasedValues(p: Arena, id: nat)
    requires Good(p) && id in p.slide.ops && p.slide.ops[id].Decode? && p.slide.ops[id].step.Published?
    ensures p.canonical.Values <= p.canonical[p.slide.ops[id].token := p.slide.ops[id].native].Values
  {
    ReleasedGrows(p, id);
    assert p.slide.ops[id].token !in p.canonical by { Part(p, Names); }
    var canonical' := p.canonical[p.slide.ops[id].token := p.slide.ops[id].native];
    forall s | s in p.canonical.Values ensures s in canonical'.Values {
      var t :| t in p.canonical && p.canonical[t] == s;
      assert canonical'[t] == s;
    }
  }

  /** The arena after a decode: only what it records about tokens may differ from `Closed`. */
  ghost predicate Ended(p: Arena, id: nat, q: Arena) {
    && id in p.slide.ops && p.slide.ops[id].Decode? && !p.slide.ops[id].step.Writing?
    && q == Closed(p, id).(canonical := q.canonical, decoded := q.decoded, holeReuses := q.holeReuses,
            nativeBinds := q.nativeBinds)
    && (q.decoded || q == Closed(p, id))
  }

  lemma EndedCalls(p: Arena, id: nat, q: Arena, k: Clause)
    requires Good(p) && Ended(p, id, q)
    requires k.Map? || k.Mutex? || k.Distance? || k.Readers? || k.Writes? || k.Contents?
    ensures Holds(q, k)
  {
    match k
    case Map => ClosedMap(p, id);
    case Mutex => ClosedJobs(p, id); BusyAfterDecode(p, id);
    case Distance => ClosedApart(p, id);
    case Readers => ClosedReaders(p, id);
    case Writes => ClosedJobs(p, id); NoJobs(q.slide.core.slots, q.slide.ops, q.mem, q.selected, q.canonical, q.table,
          q.geo.blockSize);
    case Contents => if !p.slide.core.closed { ClosedContents(p, id); }
  }

  lemma EndedRest(p: Arena, id: nat, q: Arena, k: Clause)
    requires Good(p) && Ended(p, id, q)
    requires (k.NoAlias? || k.Space? || k.Original? || k.Failures? || k.Sidecar? || k.Domain?)
    ensures Holds(q, k)
  {
    Part(p, k);
  }

  lemma EndedOwners(p: Arena, id: nat, q: Arena)
    requires Good(p) && Ended(p, id, q) && p.canonical.Values <= q.canonical.Values
    ensures Holds(q, Owners)
  {
    Part(p, Owners);
  }

  /** When a decode ends, the clauses about tokens and native slots are all that is to be shown. */
  lemma EndedGood(p: Arena, id: nat, q: Arena)
    requires Good(p) && Ended(p, id, q) == true && p.canonical.Values <= q.canonical.Values
    requires Holds(q, Names) == true && Holds(q, Chosen) == true && Holds(q, Tally) == true && Holds(q, Homes) == true
    ensures Good(q)
  {
    forall k ensures Holds(q, k) == true {
      match k
      case Names => case Chosen => case Tally => case Homes =>
      case Owners => EndedOwners(p, id, q);
      case NoAlias => EndedRest(p, id, q, k);
      case Space => EndedRest(p, id, q, k);
      case Original => EndedRest(p, id, q, k);
      case Failures => EndedRest(p, id, q, k);
      case Sidecar => EndedRest(p, id, q, k);
      case Domain => EndedRest(p, id, q, k);
      case _ => EndedCalls(p, id, q, k);
    }
  }

  lemma NativeBelow(p: Arena, id: nat)
    requires Good(p) && id in p.slide.ops && p.slide.ops[id].Decode?
    ensures p.slide.ops[id].native < p.slide.core.floor
  {
    MapInv(p);
    SoundOp(p.slide, id);
  }

  lemma ReleasedLayout(p: Arena, id: nat)
    requires Good(p) && id in p.slide.ops && p.slide.ops[id].Decode? && p.slide.ops[id].step.Published?
    requires !p.slide.core.closed
    ensures Layout(Leave(p.slide, id).core, p.slide.ops - {id},
              p.canonical[p.slide.ops[id].token := p.slide.ops[id].native])
  {
    assert forall i :: i in p.slide.ops && p.slide.ops[i].Decode? ==> i == id by { DecodeFacts(p, id); }
    assert p.slide.ops[id].token !in p.canonical by {
      ReleasedGrows(p, id);
      Part(p, Names);
    }
    assert Layout(p.slide.core, p.slide.ops, p.canonical) == true by { Part(p, Homes); }
    ClosedLayout(p.slide.core, p.slide.ops, p.canonical, id);
  }

  lemma FailedDecodeGood(p: Arena, id: nat)
    requires Good(p) && id in p.slide.ops && p.slide.ops[id].Decode? && p.slide.ops[id].step.Failed?
    ensures Good(Closed(p, id))
  {
    var q := Closed(p, id);
    assert Ended(p, id, q);
    FailedTokens(p, id, Names);
    FailedTokens(p, id, Chosen);
    FailedTokens(p, id, Tally);
    FailedTokens(p, id, Homes);
    EndedGood(p, id, q);
  }

  lemma FailedTokens(p: Arena, id: nat, k: Clause)
    requires Good(p) && id in p.slide.ops && p.slide.ops[id].Decode? && p.slide.ops[id].step.Failed?
    requires k.Names? || k.Chosen? || k.Tally? || k.Homes?
    ensures Holds(Closed(p, id), k)
  {
    if k.Homes? { Part(p, Failures); } else { Part(p, k); }
  }

  lemma ReleaseDecodeGood(p: Arena, id: nat)
    requires Good(p) && Enabled(p, ReleaseDecode(id)) == true
    ensures Good(Next(p, ReleaseDecode(id)))
  {
    ReleaseDecodeIs(p, id);
    if p.slide.ops[id].step.Published? {
      ReleasedDecodeGood(p, id, Next(p, ReleaseDecode(id)));
    } else {
      FailedDecodeGood(p, id);
    }
  }

  lemma ReleaseDecodeIs(p: Arena, id: nat)
    requires Enabled(p, ReleaseDecode(id))
    ensures var q := Next(p, ReleaseDecode(id));
            if p.slide.ops[id].step.Published? then TokenRecorded(p, id, q)
            else q == Closed(p, id) && p.slide.ops[id].step.Failed?
  {
    assert Apply(p.slide, DecodeRelease(id)) == Leave(p.slide, id);
  }
}
