/** `NativePagedKV`: the arena's fields and methods over the slot map and the
    device memory. Each method is proved to have the effect of its call on the
    arena's state; those effects are sequences of the machine's steps. */
module PagedStore {
  import Addressing
  import opened Basics
  import opened Slide
  import opened SlotMap
  import opened Paged
  import opened PagedCalls
  import PagedMemory
  import SlotWrites

  class NativePagedKV {
    const slotMap: LayerSlotMap
    const memory: PagedMemory.DeviceMemory
    const promptLength: nat
    var table: seq<int>
    var canonical: map<nat, nat>
    var baselineReady: set<nat>
    var selected: set<nat>
    var futures: map<nat, LoadState>
    var loads: set<nat>
    var callbacks: map<nat, nat>
    var broken: bool
    var decoded: bool
    var holeReuses: nat
    var nativeBinds: nat
    ghost var busy: Option<nat>
    ghost var jobs: map<nat, Job>
    ghost var views: map<nat, map<nat, Row>>
    ghost var logical: map<nat, Row>

    /** The machine's state this object is in. */
    ghost function State(): Arena
      requires memory.Valid()
      reads this, slotMap, memory.cache, memory.side
    {
      Arena(slotMap.Sys(), memory.Contents(),
            Geometry(memory.cache.Length0, memory.blockSize, promptLength, memory.capacity),
            table, canonical, baselineReady, selected, futures, loads, callbacks, broken, decoded, holeReuses,
                nativeBinds,
            busy, jobs, views, logical)
    }

    ghost predicate Valid()
      reads this, slotMap, memory.cache, memory.side
    {
      memory.Valid() && Shape(State())
    }

    constructor Init(slotMap: LayerSlotMap, memory: PagedMemory.DeviceMemory, table: seq<int>, canonical: map<nat, nat>)
      requires memory.Valid()
      ensures this.slotMap == slotMap && this.memory == memory
      ensures State() == Arena(slotMap.Sys(), memory.Contents(),
                               Geometry(memory.cache.Length0, memory.blockSize, |canonical|, memory.capacity), table,
                                   canonical,
                               {}, {}, map[], {}, map[], false, false, 0, 0, None, map[], map[],
                               map t | t in canonical && canonical[t] in memory.Contents() ::
                                   memory.Contents()[canonical[t]])
    {
      this.slotMap, this.memory, this.table, this.canonical, this.promptLength := slotMap, memory, table, canonical,
          |canonical|;
      baselineReady, selected, futures, loads, callbacks := {}, {}, map[], {}, map[];
      broken, decoded, holeReuses, nativeBinds := false, false, 0, 0;
      busy, jobs, views := None, map[], map[];
      logical := map t | t in canonical && canonical[t] in memory.Contents() :: memory.Contents()[canonical[t]];
    }

    /** `__init__` */
    static method New(cache: array2<Row>, blockSize: Size, table: seq<int>, n: nat, maxSelected: nat, shared: set<nat>)
      returns (r: Result<NativePagedKV>)
      requires cache.Length1 == blockSize
      ensures r.Ok? ==> fresh(r.value) && fresh(r.value.slotMap) && fresh(r.value.memory)
      ensures r.Ok? ==> r.value.memory.cache == cache && r.value.memory.Valid() && fresh(r.value.memory.side)
      ensures r.Ok? ==> var mem := r.value.memory.Contents();
                        (forall s: nat :: s in mem <==> s < NativeSlots(cache.Length0, blockSize) + maxSelected)
                        && NewArena(cache.Length0, blockSize, table, n, maxSelected, shared, mem).Some?
                        && NewArena(cache.Length0, blockSize, table, n, maxSelected, shared, mem).value
                           == r.value.State()
      ensures r.Err? ==> r.error == Invalid
      ensures r.Ok? <==> CanCreate(cache.Length0, blockSize, table, n, shared)
    {
      if !CanCreate(cache.Length0, blockSize, table, n, shared) { return Err(Invalid); }
      var canonical := Prompt(table, blockSize, n);
      var memory := new PagedMemory.DeviceMemory(cache, blockSize, maxSelected);
      ghost var mem := memory.Contents();
      var floor := NativeSlots(cache.Length0, blockSize);
      var made := LayerSlotMap.New(canonical, shared, floor, Some(floor + maxSelected));
      assert made.Ok? by { Addressing.CreateFits(cache.Length0, blockSize, table, n, maxSelected, shared); }
      PromptSize(table, blockSize, n);
      var arena := new NativePagedKV.Init(made.value, memory, table, canonical);
      assert memory.Contents() == mem;
      return Ok(arena);
    }

    // ---- steps of a guarded write ------------------------------------------------------

    /** The call holds a guard on an open map. */
    predicate Guarded(id: nat)
      reads slotMap
    {
      !slotMap.closed && id in slotMap.calls && slotMap.calls[id].Guard? && slotMap.calls[id].gen == slotMap.generation
    }

    /** Entry to a guard, from a known state. */
    method EnterWrite(id: nat, required: set<nat>, optional: set<nat>, ghost job: Job, ghost p: Arena)
      returns (r: Result<set<nat>>)
      requires memory.Valid() && State() == p && id !in slotMap.calls
      requires OwnedByCaller(p.slide.core, required + optional)
      modifies slotMap, this`busy, this`jobs
      ensures memory.Valid() && (r.Ok? <==> CanGuard(p.slide.core, required))
      ensures r.Ok? ==> r.value == Available(p.slide.core, optional) && State() == Begun(p, id, required + r.value, job)
      ensures r.Ok? ==> Guarded(id)
      ensures r.Err? ==> State() == p
    {
      r := TakeGuard(id, required, optional, job);
    }

    method TakeGuard(id: nat, required: set<nat>, optional: set<nat>, ghost job: Job) returns (r: Result<set<nat>>)
      requires memory.Valid() && id !in slotMap.calls && OwnedByCaller(slotMap.ToCore(), required + optional)
      modifies slotMap, this`busy, this`jobs
      ensures memory.Valid()
      ensures r.Ok? <==> CanGuard(old(slotMap.ToCore()), required)
      ensures r.Ok? ==> State() == Begun(old(State()), id, required + r.value, job)
      ensures r.Ok? ==> r.value == Available(old(slotMap.ToCore()), optional)
      ensures r.Err? ==> State() == old(State())
      ensures r.Ok? ==> Guarded(id)
    {
      ghost var p := State();
      r := slotMap.EnterGuard(id, required, optional);
      memory.SameMemory();
      if r.Err? { return; }
      Occupy(id, job, p.(slide := slotMap.Sys()));
    }

    ghost method Occupy(id: nat, job: Job, q: Arena)
      requires memory.Valid() && State() == q
      modifies this`busy, this`jobs
      ensures memory.Valid() && State() == q.(busy := Some(id), jobs := q.jobs[id := job])
    {
      busy := Some(id);
      jobs := jobs[id := job];
    }

    /** The copies of the open guarded call: its own rows, then mirrors, then what
        the device says about them. */
    method CopyRows(id: nat, slots: seq<nat>, rows: seq<Row>, mirrors: seq<nat>, mirrored: seq<Row>, lost: set<nat>,
                    ghost first: map<nat, Row>, ghost second: map<nat, Row>, ghost q: Arena) returns (arrived: bool)
      requires memory.Valid() && State() == q && Pending(q, id) == true && Delivers(slots, rows, first) == true
      requires Delivers(mirrors, mirrored, second) == true
      requires q.jobs[id].plan == first + second
      requires forall s :: s in slots + mirrors ==> s < memory.Native() + memory.capacity
      modifies memory.cache, memory.side, slotMap`generation, slotMap`closed, this`jobs, this`logical
      ensures memory.Valid()
      ensures arrived <==> q.jobs[id].plan.Keys !! lost
      ensures State() == Copied(q, id, lost)
      ensures arrived ==> slotMap.closed == old(slotMap.closed) && slotMap.generation == old(slotMap.generation)
      ensures slotMap.calls == old(slotMap.calls)
    {
      arrived := forall s :: s in slots + mirrors ==> s !in lost;
      assert arrived <==> (first + second).Keys !! lost;
      PlaceRows(slots, rows, mirrors, mirrored, lost, first, second, q);
      if arrived { ArriveRows(id, q); } else { LoseRows(id, q, lost); }
    }

    method PlaceRows(slots: seq<nat>, rows: seq<Row>, mirrors: seq<nat>, mirrored: seq<Row>, lost: set<nat>,
                     ghost first: map<nat, Row>, ghost second: map<nat, Row>, ghost q: Arena)
      requires memory.Valid() && State() == q && Delivers(slots, rows, first) == true
      requires Delivers(mirrors, mirrored, second) == true
      requires forall s :: s in slots + mirrors ==> s < memory.Native() + memory.capacity
      modifies memory.cache, memory.side
      ensures memory.Valid()
      ensures State() == q.(mem := q.mem + (first + second - lost))
      ensures (first + second).Keys !! lost ==> first + second - lost == first + second
    {
      memory.WriteBoth(slots, rows, mirrors, mirrored, lost, first, second);
      TwoBatches(q.mem, first, second, lost);
    }

    method LoseRows(id: nat, ghost q: Arena, ghost lost: set<nat>)
      requires memory.Valid() && id in q.jobs && id in q.slide.ops && !(q.jobs[id].plan.Keys !! lost)
      requires State() == q.(mem := q.mem + (q.jobs[id].plan - lost))
      modifies slotMap`generation, slotMap`closed
      ensures memory.Valid() && State() == Copied(q, id, lost)
    {
      slotMap.Retirement();
      assert memory.Contents() == q.mem + (q.jobs[id].plan - lost);
    }

    ghost method ArriveRows(id: nat, q: Arena)
      requires memory.Valid() && id in jobs && id in q.slide.ops && q.slide.ops[id].Guard?
      requires State() == q.(mem := q.mem + jobs[id].plan)
      modifies this`jobs, this`logical
      ensures memory.Valid() && State() == Arrived(q, id)
    {
      logical := logical + jobs[id].assign;
      jobs := jobs[id := jobs[id].(landed := true)];
    }

    /** Leaving the guard; a retired map makes the write stale. */
    method ExitWrite(id: nat) returns (r: Result<()>)
      requires memory.Valid() && id in slotMap.calls && slotMap.calls[id].Guard?
      modifies slotMap, this`busy, this`jobs
      ensures memory.Valid() && State() == Exited(old(State()), id)
      ensures r.Ok? <==> !old(slotMap.closed) && old(slotMap.calls)[id].gen == old(slotMap.generation)
    {
      ghost var p := State();
      r := slotMap.ExitGuard(id);
      memory.SameMemory();
      busy := None;
      jobs := jobs - {id};
    }

    /** Copies, completion and exit of a granted guard. */
    method RunGuard(id: nat, slots: seq<nat>, rows: seq<Row>, mirrors: seq<nat>, mirrored: seq<Row>, lost: set<nat>,
                    ghost first: map<nat, Row>, ghost second: map<nat, Row>) returns (r: Result<()>)
      requires memory.Valid() && Pending(State(), id) == true && Delivers(slots, rows, first) == true
      requires Delivers(mirrors, mirrored, second) == true
      requires jobs[id].plan == first + second && Guarded(id)
      requires forall s :: s in slots + mirrors ==> s < memory.Native() + memory.capacity
      modifies memory.cache, memory.side, slotMap, this`jobs, this`logical, this`busy
      ensures memory.Valid()
      ensures r.Ok? <==> old(jobs)[id].plan.Keys !! lost
      ensures r.Err? ==> r.error == Device
      ensures State() == Exited(Copied(old(State()), id, lost), id)
    {
      var arrived := CopyRows(id, slots, rows, mirrors, mirrored, lost, first, second, State());
      var left := ExitWrite(id);
      r := if arrived then left else Err(Device);
    }

    // ---- the calls -------------------------------------------------------------------------

    /** The checks of `write`, in order. */
    method WriteAllowed(positions: seq<nat>) returns (r: Result<()>)
      ensures r.Ok? <==>
                !slotMap.closed && (forall l :: l in loads ==> l in futures && futures[l].LoadDone?)
                && !decoded
                           && (forall t :: t in positions ==> t in canonical && canonical[t] !in slotMap.shared)
    {
      if slotMap.closed { return Err(Stale); }
      if l :| l in loads && (l !in futures || !futures[l].LoadDone?) { return Err(Busy); }
      if decoded { return Err(Busy); }
      if t :| t in positions && t !in canonical { return Err(Missing); }
      if t :| t in positions && canonical[t] in slotMap.shared { return Err(Invalid); }
      return Ok(());
    }

    /** `write`: load baseline rows into original slots, whatever has been redirected. */
    method Write(id: nat, positions: seq<nat>, rows: seq<Row>, lost: set<nat>) returns (r: Result<()>)
      requires Valid() && |positions| == |rows| && Distinct(positions) && id !in slotMap.calls
      modifies this, slotMap, memory.cache, memory.side
      ensures memory.Valid()
      ensures State() == WriteCall(old(State()), id, Zip(positions, rows), lost)
      ensures r.Ok? <==>
                WriteGranted(old(State()), Zip(positions, rows))
                && Image(old(canonical), Zip(positions, rows).Keys) !! lost
    {
      ghost var p := State();
      r := WriteAllowed(positions);
      if r.Err? {
        NotAllowed(p, positions, rows);
        return;
      }
      r := WriteChecked(id, positions, rows, lost, p);
    }

    method WriteChecked(id: nat, positions: seq<nat>, rows: seq<Row>, lost: set<nat>, ghost p: Arena)
      returns (r: Result<()>)
      requires memory.Valid() && State() == p && Shape(p) == true && MayWrite(p, positions) == true
      requires id !in slotMap.calls
      requires |positions| == |rows| && Distinct(positions)
      modifies this, slotMap, memory.cache, memory.side
      ensures memory.Valid()
      ensures State() == WriteCall(p, id, Zip(positions, rows), lost)
      ensures r.Ok? <==> WriteGranted(p, Zip(positions, rows)) && Image(p.canonical, Zip(positions, rows).Keys) !! lost
    {
      WriteIsAllowed(p, positions, rows);
      var slots := Slots(canonical, positions);
      r := GuardedWrite(id, slots, rows, lost, BaselineJob(p, Zip(positions, rows)), p);
      ghost var q := State();
      WriteMeans(p, id, positions, rows, lost, q, r.Ok?);
      if r.Ok? { AddReady(positions, q); }
    }

    method AddReady(positions: seq<nat>, ghost q: Arena)
      requires memory.Valid() && State() == q
      modifies this`baselineReady
      ensures memory.Valid() && State() == q.(baselineReady := q.baselineReady + Elements(positions))
    {
      baselineReady := baselineReady + Elements(positions);
    }

    /** Guard, copies, completion and exit of a write that needs no mirrors. */
    method GuardedWrite(id: nat, slots: seq<nat>, rows: seq<Row>, lost: set<nat>, ghost job: Job, ghost p: Arena)
      returns (r: Result<()>)
      requires memory.Valid() && State() == p && id !in slotMap.calls && OwnedByCaller(p.slide.core, Elements(slots))
      requires Delivers(slots, rows, job.plan) == true && !job.landed && job.plan.Keys <= p.mem.Keys
      requires forall s :: s in slots ==> s < memory.Native() + memory.capacity
      modifies this`jobs, this`logical, this`busy, slotMap, memory.cache, memory.side
      ensures memory.Valid()
      ensures State() == Guarded1(p, id, Elements(slots), job, lost)
      ensures r.Ok? <==> CanGuard(p.slide.core, Elements(slots)) && job.plan.Keys !! lost
    {
      var entered := EnterWrite(id, Elements(slots), {}, job, p);
      if entered.Err? { return Err(entered.error); }
      assert Elements(slots) + entered.value == Elements(slots);
      BegunPending(p, id, Elements(slots), job);
      NoMirrors(job.plan, slots);
      r := RunGuard(id, slots, rows, [], [], lost, job.plan, map[]);
    }

    /** The checks of `write_selected_ready`, in order. */
    method ReadyAllowed(positions: seq<nat>) returns (r: Result<()>)
      requires memory.Valid()
      ensures r.Ok? <==> MayWriteReady(State(), positions)
    {
      if slotMap.closed { return Err(Stale); }
      if l :| l in loads && (l !in futures || !futures[l].LoadDone?) { return Err(Busy); }
      if broken { return Err(Device); }
      if c :| c in slotMap.calls && slotMap.calls[c].Promotion? { return Err(Busy); }
      if decoded || |baselineReady| != promptLength { return Err(Busy); }
      if t :| t in positions && t !in canonical { return Err(Invalid); }
      if t :| t in positions && (t in selected || t !in slotMap.slots || slotMap.slots[t] != canonical[t]) {
        return Err(Invalid);
      }
      return Ok(());
    }

    /** `write_selected_ready`: once the whole baseline is on the device, selected
        rows may overwrite it in place. */
    method WriteSelectedReady(id: nat, positions: seq<nat>, rows: seq<Row>, lost: set<nat>) returns (r: Result<()>)
      requires Valid() && |positions| == |rows| && Distinct(positions) && id !in slotMap.calls
      modifies this, slotMap, memory.cache, memory.side
      ensures memory.Valid()
      ensures State() == ReadyCall(old(State()), id, Zip(positions, rows), lost)
      ensures r.Ok? <==>
                ReadyGranted(old(State()), Zip(positions, rows))
                && Image(old(canonical), Zip(positions, rows).Keys) !! lost
    {
      ghost var p := State();
      r := ReadyAllowed(positions);
      if r.Err? {
        NotReady(p, positions, rows);
        return;
      }
      r := ReadyChecked(id, positions, rows, lost, p);
    }

    method ReadyChecked(id: nat, positions: seq<nat>, rows: seq<Row>, lost: set<nat>, ghost p: Arena)
      returns (r: Result<()>)
      requires memory.Valid() && State() == p && Shape(p) == true && MayWriteReady(p, positions) == true
      requires id !in slotMap.calls
      requires |positions| == |rows| && Distinct(positions)
      modifies this, slotMap, memory.cache, memory.side
      ensures memory.Valid()
      ensures State() == ReadyCall(p, id, Zip(positions, rows), lost)
      ensures r.Ok? <==> ReadyGranted(p, Zip(positions, rows)) && Image(p.canonical, Zip(positions, rows).Keys) !! lost
    {
      ReadyIsAllowed(p, positions, rows);
      var slots := Slots(canonical, positions);
      r := GuardedWrite(id, slots, rows, lost, ReadyJob(p, Zip(positions, rows)), p);
      ghost var q := State();
      ReadyMeans(p, id, positions, rows, lost, q, r.Ok?);
      if r.Ok? { AddSelected(positions, q); }
    }

    method AddSelected(positions: seq<nat>, ghost q: Arena)
      requires memory.Valid() && State() == q
      modifies this`selected
      ensures memory.Valid() && State() == q.(selected := q.selected + Elements(positions))
    {
      selected := selected + Elements(positions);
    }

    /** The checks of `update_selected`. */
    method UpdateAllowed(positions: seq<nat>) returns (r: Result<()>)
      requires memory.Valid()
      ensures r.Ok? <==> MayUpdate(State(), positions)
    {
      if l :| l in loads && (l !in futures || !futures[l].LoadDone?) { return Err(Busy); }
      if broken { return Err(Device); }
      if c :| c in slotMap.calls && slotMap.calls[c].Promotion? { return Err(Busy); }
      if decoded { return Err(Busy); }
      if slotMap.closed { return Err(Stale); }
      if t :| t in positions && (t !in slotMap.slots || t !in canonical) { return Err(Invalid); }
      if t :| t in positions && slotMap.slots[t] in slotMap.shared { return Err(Invalid); }
      return Ok(());
    }

    /** `update_selected`: fused rows go to current slots, and to original slots
        nobody uses. */
    method UpdateSelected(id: nat, positions: seq<nat>, rows: seq<Row>, lost: set<nat>) returns (r: Result<()>)
      requires Valid() && |positions| == |rows| && Distinct(positions) && id !in slotMap.calls
      modifies this, slotMap, memory.cache, memory.side
      ensures memory.Valid()
      ensures State() == UpdateCall(old(State()), id, Zip(positions, rows), lost)
      ensures r.Ok? <==> UpdateGranted(old(State()), Zip(positions, rows))
                         && UpdateJob(old(State()), Zip(positions, rows)).plan.Keys !! lost
    {
      ghost var p := State();
      r := UpdateAllowed(positions);
      if r.Err? {
        NoUpdate(p, positions, rows);
        return;
      }
      UpdateIsAllowed(p, positions, rows);
      UpdateMeans(p, id, Zip(positions, rows), lost);
      r := UpdateChecked(id, positions, rows, lost, p);
    }

    method UpdateChecked(id: nat, positions: seq<nat>, rows: seq<Row>, lost: set<nat>, ghost p: Arena)
      returns (r: Result<()>)
      requires memory.Valid() && State() == p && Shape(p) == true && id !in slotMap.calls
      requires |positions| == |rows| && Distinct(positions) && MayUpdate(p, positions) == true
      requires CanUpdate(p, Zip(positions, rows)) == true
      modifies this, slotMap, memory.cache, memory.side
      ensures memory.Valid()
      ensures var m := Zip(positions, rows);
              && State() == Guarded2(p, id, Image(p.slide.core.slots, m.Keys), Image(p.canonical, Mirrors(p, m.Keys)),
                      UpdateJob(p, m), lost)
              && (r.Ok? <==>
                    CanGuard(p.slide.core, Image(p.slide.core.slots, m.Keys))
                    && UpdateJob(p, m).plan.Keys !! lost)
    {
      ghost var m := Zip(positions, rows);
      UpdateEntry(p, positions, rows);
      var candidates := MirrorCandidates(positions, m.Keys, p);
      var slots, optional := Slots(slotMap.slots, positions), Elements(Slots(canonical, Pick(positions, candidates)));
      var entered := EnterWrite(id, Elements(slots), optional, UpdateJob(p, m), p);
      if entered.Err? { return Err(entered.error); }
      r := UpdateGuarded(id, positions, rows, slots, candidates, entered.value, lost, p);
    }

    /** The rest of `update_selected` once its guard is granted. */
    method UpdateGuarded(id: nat, positions: seq<nat>, rows: seq<Row>, slots: seq<nat>, candidates: set<nat>,
                         available: set<nat>,
                         lost: set<nat>, ghost p: Arena) returns (r: Result<()>)
      requires memory.Valid() && |positions| == |rows| && Distinct(positions) && Shape(p) == true
      requires MayUpdate(p, positions) == true
      requires CanUpdate(p, Zip(positions, rows)) == true && slots == Slots(p.slide.core.slots, positions)
      requires Guarded(id)
      requires var m := Zip(positions, rows);
               && UpdateJob(p, m).plan.Keys <= p.mem.Keys
               && candidates == Mirrors(p, m.Keys)
               && available == Available(p.slide.core, Image(p.canonical, candidates))
               && State() == Begun(p, id, Elements(slots) + available, UpdateJob(p, m))
      modifies this`jobs, this`logical, this`busy, slotMap, memory.cache, memory.side
      ensures memory.Valid()
      ensures State() == Exited(Copied(old(State()), id, lost), id)
      ensures r.Ok? <==> UpdateJob(p, Zip(positions, rows)).plan.Keys !! lost
    {
      BegunPending(p, id, Elements(slots) + available, UpdateJob(p, Zip(positions, rows)));
      var writable := set t | t in candidates && canonical[t] in available;
      assert writable == OpenMirrors(p, Zip(positions, rows).Keys);
      r := RunUpdate(id, positions, rows, slots, writable, lost, p);
    }

    method MirrorCandidates(positions: seq<nat>, ghost tokens: set<nat>, ghost p: Arena) returns (candidates: set<nat>)
      requires memory.Valid() && State() == p && tokens == Elements(positions)
      requires tokens <= p.canonical.Keys && tokens <= p.slide.core.slots.Keys
      ensures candidates == Mirrors(p, tokens)
    {
      candidates := set t | t in positions && canonical[t] !in slotMap.shared && canonical[t] != slotMap.slots[t];
    }

    method RunUpdate(id: nat, positions: seq<nat>, rows: seq<Row>, slots: seq<nat>, writable: set<nat>, lost: set<nat>,
                     ghost p: Arena)
      returns (r: Result<()>)
      requires memory.Valid() && |positions| == |rows| && Distinct(positions) && Shape(p) == true
      requires MayUpdate(p, positions) == true
      requires CanUpdate(p, Zip(positions, rows)) == true && slots == Slots(p.slide.core.slots, positions)
      requires Guarded(id)
      requires writable == OpenMirrors(p, Zip(positions, rows).Keys) && canonical == p.canonical
      requires memory.Native() == p.slide.core.floor && memory.capacity == p.geo.maxSelected
      requires Pending(State(), id) == true && jobs[id] == UpdateJob(p, Zip(positions, rows))
      modifies this`jobs, this`logical, this`busy, slotMap, memory.cache, memory.side
      ensures memory.Valid()
      ensures State() == Exited(Copied(old(State()), id, lost), id)
      ensures r.Ok? <==> UpdateJob(p, Zip(positions, rows)).plan.Keys !! lost
    {
      ghost var m := Zip(positions, rows);
      UpdateIsAllowed(p, positions, rows);
      MirrorsAllowed(p, positions, rows, writable);
      var mirrors := Slots(canonical, Pick(positions, writable));
      r := RunGuard(id, slots, rows, mirrors, PickRows(positions, rows, writable), lost,
                    Paged.Placed(p.slide.core.slots, m), Paged.Placed(p.canonical, Only(m, writable)));
    }

    // ---- reading -----------------------------------------------------------------------------

    /** `gather`: the rows of the positions through the map, in the caller's order. */
    method Gather(id: nat, positions: seq<nat>) returns (r: Result<seq<Row>>)
      requires Valid() && id !in slotMap.calls
      modifies slotMap
      ensures memory.Valid() && State() == GatherCall(old(State()), id, Elements(positions))
      ensures var p := old(State());
              && (r.Ok? <==> GatherGranted(p, Elements(positions)) && NoLoadFailed(p))
              && (r.Ok? ==> ReadsThrough(p, positions, r.value))
    {
      ghost var p := State();
      var mapping := slotMap.PinnedMapping(id, Elements(positions));
      if mapping.Err? { return Err(mapping.error); }
      memory.SameMemory();
      if l :| l in loads && l in futures && futures[l].LoadFailed? {
        r := Err(Device);
      } else {
        var rows := ReadRows(positions, mapping.value, p);
        r := Ok(rows);
      }
      slotMap.UnpinCall(id);
      memory.SameMemory();
    }

    method ReadRows(positions: seq<nat>, mapping: map<nat, nat>, ghost p: Arena) returns (rows: seq<Row>)
      requires memory.Valid() && memory.Contents() == p.mem && Shape(p) == true
      requires forall t :: t in positions ==>
                t in mapping && t in p.slide.core.slots
                && mapping[t] == p.slide.core.slots[t]
      requires memory.Native() + memory.capacity == p.slide.core.floor + p.geo.maxSelected
      ensures ReadsThrough(p, positions, rows)
    {
      rows := [];
      for i := 0 to |positions|
        invariant |rows| == i
        invariant forall j :: 0 <= j < i ==> ReadsAt(p, positions[j], rows[j])
      {
        assert positions[i] in positions;
        var slot := mapping[positions[i]];
        rows := rows + [memory.At(slot)];
      }
    }

    // ---- promotion ---------------------------------------------------------------------------

    /** `promote_selected` and its completion: selected rows go to fresh sidecar
        slots; `callback` names the guard kept while the load is pending. */
    method PromoteSelected(id: nat, positions: seq<nat>, rows: seq<Row>, future: Option<nat>, callback: nat,
                           lost: set<nat>)
      returns (r: Result<()>)
      requires Valid() && |positions| == |rows| && Distinct(positions)
      requires |positions| <= SlotWrites.Limit(SlotWrites.ROW_BYTES)
      requires id !in slotMap.calls && callback !in slotMap.calls && id != callback
      modifies this, slotMap, memory.cache, memory.side
      ensures memory.Valid()
      ensures State() == PromoteCall(old(State()), id, positions, Zip(positions, rows), future, callback, lost)
      ensures r.Ok? <==> Promotes(old(State()), id, positions, Zip(positions, rows), future, callback, lost)
    {
      ghost var p := State();
      if decoded { return Err(Busy); }
      if t :| t in positions && t in selected { return Err(Invalid); }
      if future.Some? && future.value in futures && futures[future.value].LoadFailed? { return Err(Device); }
      r := PromoteChecked(id, positions, rows, future, callback, lost, p);
    }

    method PromoteChecked(id: nat, positions: seq<nat>, rows: seq<Row>, future: Option<nat>, callback: nat,
                          lost: set<nat>, ghost p: Arena)
      returns (r: Result<()>)
      requires memory.Valid() && State() == p && Shape(p) == true && CanPromote(p, positions, future) == true
      requires |positions| == |rows| && Distinct(positions) && |positions| <= SlotWrites.Limit(SlotWrites.ROW_BYTES)
      requires id !in slotMap.calls && callback !in slotMap.calls && id != callback
      modifies this, slotMap, memory.cache, memory.side
      ensures memory.Valid()
      ensures State() == PromoteCall(p, id, positions, Zip(positions, rows), future, callback, lost)
      ensures r.Ok? <==> Promotes(p, id, positions, Zip(positions, rows), future, callback, lost)
    {
      if positions == [] {
        r := PromoteNothing(id, rows, future, callback, p);
        return;
      }
      var started := StartPromotion(id, positions, rows, future, callback, p);
      if started.Err? { return Err(started.error); }
      r := CarryOut(id, positions, rows, started.value, lost, State());
    }

    method CarryOut(id: nat, positions: seq<nat>, rows: seq<Row>, dest: map<nat, nat>, lost: set<nat>, ghost q: Arena)
      returns (r: Result<()>)
      requires memory.Valid() && State() == q && |positions| == |rows| && Held(id, positions, dest) == true
      requires Zip(positions, rows).Keys <= dest.Keys && id in q.jobs
      requires q.jobs[id] == PromoteJob(Zip(positions, rows), dest)
      requires Distinct(positions) && |positions| <= SlotWrites.Limit(SlotWrites.ROW_BYTES)
      modifies this`jobs, this`logical, this`broken, slotMap, memory.cache, memory.side
      ensures memory.Valid() && State() == PromotionEnd(q, id, lost)
      ensures r.Ok? <==> q.jobs[id].plan.Keys !! lost
    {
      assert Publishable(q.slide.core, q.slide.ops[id]);
      var written := SendRows(dest, positions, rows, lost, q.jobs[id].plan, q);
      r := EndPromotion(id, written, lost, q);
    }

    /** The map's part: destinations are chosen and reserved, the tokens become selected. */
    method StartPromotion(id: nat, positions: seq<nat>, rows: seq<Row>, future: Option<nat>, callback: nat,
                          ghost p: Arena)
      returns (r: Result<map<nat, nat>>)
      requires memory.Valid() && State() == p && Shape(p) == true && positions != []
      requires |positions| == |rows| && Distinct(positions)
      requires id !in slotMap.calls && callback !in slotMap.calls && id != callback
      modifies this, slotMap
      ensures memory.Valid()
      ensures State() == Promoting(p, id, positions, Zip(positions, rows), future, callback)
      ensures r.Ok? ==> Held(id, positions, r.value) == true && id in jobs && Zip(positions, rows).Keys <= r.value.Keys
                        && jobs[id] == PromoteJob(Zip(positions, rows), r.value)
      ensures r.Err? ==> id !in slotMap.calls
    {
      r := Reserve(id, positions, rows, future, callback, p);
      ghost var s := slotMap.Sys();
      if r.Ok? { Record(id, positions, rows, future, callback, r.value, p, s); }
      else { Announce(future, p.(slide := s)); }
      RecordedShape(p, s, id, Zip(positions, rows), future, callback);
    }

    method Reserve(id: nat, positions: seq<nat>, rows: seq<Row>, future: Option<nat>, callback: nat, ghost p: Arena)
      returns (r: Result<map<nat, nat>>)
      requires memory.Valid() && State() == p && Shape(p) == true && positions != []
      requires |positions| == |rows| && Distinct(positions)
      requires id !in slotMap.calls && callback !in slotMap.calls && id != callback
      modifies slotMap
      ensures memory.Valid() && State() == p.(slide := slotMap.Sys())
      ensures slotMap.Sys() == Apply(p.slide, PromoteBegin(id, positions, LoadStatus(p, future), callback, false))
      ensures r.Ok? ==> Held(id, positions, r.value) == true
      ensures r.Err? ==> id !in slotMap.calls
    {
      var load := Status(future);
      r := slotMap.BeginPromote(id, positions, load, callback, false);
      memory.SameMemory();
      if r.Ok? { DestinationsFit(p, positions, load); }
    }

    /** The map has reserved distinct destinations inside the arena for the positions. */
    ghost predicate Held(id: nat, positions: seq<nat>, dest: map<nat, nat>)
      reads slotMap
    {
      && Ready(id) && slotMap.calls[id].dest == dest && Destined(dest, positions, memory.Native() + memory.capacity)
    }

    /** The arena's part when the map took the promotion up. */
    method Record(id: nat, positions: seq<nat>, rows: seq<Row>, future: Option<nat>, callback: nat, dest: map<nat, nat>,
                  ghost p: Arena, ghost s: System)
      requires memory.Valid() && State() == p.(slide := s) && |positions| == |rows| && dest.Keys == Elements(positions)
      modifies this`futures, this`loads, this`callbacks, this`selected, this`jobs
      ensures memory.Valid() && State() == Recorded(p, s, id, Zip(positions, rows), future, callback, dest)
    {
      var load := Status(future);
      Announce(future, p.(slide := s));
      Select(id, positions, rows, future, load, callback, dest, p.(slide := s, futures := Known(p, future)));
      assert Zip(positions, rows).Keys == Elements(positions);
    }

    method Select(id: nat, positions: seq<nat>, rows: seq<Row>, future: Option<nat>, load: LoadState, callback: nat,
                  dest: map<nat, nat>,
                  ghost q: Arena)
      requires memory.Valid() && State() == q && |positions| == |rows| && dest.Keys == Elements(positions)
      requires load.LoadPending? ==> future.Some?
      modifies this`loads, this`callbacks, this`selected, this`jobs
      ensures memory.Valid()
      ensures State() == q.(loads := Loads(q, future),
                            callbacks := if load.LoadPending? then q.callbacks[callback := future.value]
                                else q.callbacks,
                            selected := q.selected + Elements(positions),
                            jobs := q.jobs[id := Job(Promote, Paged.Placed(dest, Zip(positions, rows)),
                                    Zip(positions, rows), false)])
    {
      Await(future, load, callback, q);
      AddSelected(positions, State());
      AddJob(id, PromoteJob(Zip(positions, rows), dest), State());
    }

    method Await(future: Option<nat>, load: LoadState, callback: nat, ghost q: Arena)
      requires memory.Valid() && State() == q && (load.LoadPending? ==> future.Some?)
      modifies this`loads, this`callbacks
      ensures memory.Valid()
      ensures State() == q.(loads := Loads(q, future),
                            callbacks := if load.LoadPending? then q.callbacks[callback := future.value]
                                else q.callbacks)
    {
      if future.Some? { loads := loads + {future.value}; }
      if load.LoadPending? { callbacks := callbacks[callback := future.value]; }
    }

    ghost method AddJob(id: nat, job: Job, q: Arena)
      requires memory.Valid() && State() == q
      modifies this`jobs
      ensures memory.Valid() && State() == q.(jobs := q.jobs[id := job])
    {
      jobs := jobs[id := job];
    }

    /** A load named for the first time is pending. */
    method Announce(future: Option<nat>, ghost q: Arena)
      requires memory.Valid() && State() == q
      modifies this`futures
      ensures memory.Valid() && State() == q.(futures := Known(q, future))
    {
      if future.Some? && future.value !in futures { futures := futures[future.value := LoadPending]; }
    }

    method PromoteNothing(id: nat, rows: seq<Row>, future: Option<nat>, callback: nat, ghost p: Arena)
      returns (r: Result<()>)
      requires memory.Valid() && State() == p && rows == [] && id !in slotMap.calls
      modifies this`futures, this`loads
      ensures memory.Valid()
      ensures var q := Promoting(p, id, [], Zip([], rows), future, callback);
              State() == q && id !in q.slide.ops && (r.Ok? <==> !p.slide.core.closed)
    {
      NothingPromoted(p, id, future, callback);
      Announce(future, p);
      if slotMap.closed { return Err(Stale); }
      if future.Some? { loads := loads + {future.value}; }
      return Ok(());
    }

    function Status(future: Option<nat>): LoadState
      reads this`futures
    {
      if future.None? then NoLoad else if future.value in futures then futures[future.value] else LoadPending
    }

    /** A reserved promotion on an open map. */
    predicate Ready(id: nat)
      reads slotMap
    {
      && id in slotMap.calls && slotMap.calls[id].Promotion? && slotMap.calls[id].phase.Writing?
      && slotMap.calls[id].gen == slotMap.generation && !slotMap.closed
      && slotMap.SourceUnchanged(slotMap.calls[id].source)
    }

    /** The writer: row numbers through coalesced runs, then the copies. */
    method SendRows(dest: map<nat, nat>, positions: seq<nat>, rows: seq<Row>, lost: set<nat>,
                    ghost plan: map<nat, Row>, ghost q: Arena)
      returns (written: bool)
      requires memory.Valid() && State() == q && |positions| == |rows| && Distinct(positions)
      requires Destined(dest, positions, memory.Native() + memory.capacity)
      requires |positions| <= SlotWrites.Limit(SlotWrites.ROW_BYTES)
      requires Zip(positions, rows).Keys <= dest.Keys && plan == Paged.Placed(dest, Zip(positions, rows))
      modifies memory.cache, memory.side
      ensures memory.Valid() && State() == q.(mem := q.mem + (plan - lost))
      ensures written <==> plan.Keys !! lost
    {
      written := memory.WriteRouted(dest, positions, rows, lost, plan);
    }

    method EndPromotion(id: nat, written: bool, ghost lost: set<nat>, ghost q: Arena) returns (r: Result<()>)
      requires memory.Valid() && id in q.jobs && id in q.slide.ops && q.slide.ops[id].Promotion?
      requires q.slide.ops[id].phase.Writing?
      requires State() == q.(mem := q.mem + (q.jobs[id].plan - lost)) && (written <==> q.jobs[id].plan.Keys !! lost)
      requires Publishable(q.slide.core, q.slide.ops[id])
      modifies this`jobs, this`logical, this`broken, slotMap
      ensures memory.Valid()
      ensures State() == if written then PromotionDone(q, id) else PromotionLost(q, id, lost)
      ensures r.Ok? <==> written
    {
      var published := slotMap.Finish(id, written);
      assert memory.Contents() == q.mem + (q.jobs[id].plan - lost);
      Conclude(id, written, lost, q, slotMap.Sys());
      r := if published.Ok? then Ok(()) else Err(published.error);
    }

    ghost method DropJob(id: nat, q: Arena)
      requires memory.Valid() && State() == q
      modifies this`jobs
      ensures memory.Valid() && State() == q.(jobs := q.jobs - {id})
    {
      jobs := jobs - {id};
    }

    method Conclude(id: nat, written: bool, ghost lost: set<nat>, ghost q: Arena, ghost s: System)
      requires memory.Valid() && id in q.jobs && (written <==> q.jobs[id].plan.Keys !! lost)
      requires State() == q.(mem := q.mem + (q.jobs[id].plan - lost), slide := s)
      modifies this`jobs, this`logical, this`broken
      ensures memory.Valid() && State() == if written then PublishedAs(q, id, s) else LostAs(q, id, lost, s)
    {
      assert written ==> q.jobs[id].plan - lost == q.jobs[id].plan;
      if written { logical := logical + q.jobs[id].assign; } else { broken := true; }
      DropJob(id, State());
    }

    // ---- decode --------------------------------------------------------------------------------

    /** `decode`: append the next token's row, into a hole if there is one. */
    method DecodeToken(id: nat, token: nat, row: Row, lost: set<nat>) returns (r: Result<nat>)
      requires Valid() && id !in slotMap.calls
      modifies this, slotMap, memory.cache, memory.side
      ensures memory.Valid()
      ensures State() == DecodeCall(old(State()), id, token, row, lost)
      ensures r == Decodes(old(State()), token, lost)
    {
      ghost var p := State();
      var native := NativeFor(token);
      if native.Err? { return Err(native.error); }
      r := DecodeChecked(id, token, native.value, row, lost, p);
    }

    /** The checks of `decode`, in order: the token's native slot. */
    method NativeFor(token: nat) returns (r: Result<nat>)
      requires memory.Valid()
      ensures r.Ok? <==> CanDecode(State(), token)
      ensures r.Ok? ==> CanonicalSlot(table, memory.blockSize, token) == Some(r.value)
      ensures r.Err? ==> r.error == DecodeRefusal(State(), token)
    {
      if l :| l in loads && l in futures && futures[l].LoadFailed? { return Err(Device); }
      if broken { return Err(Device); }
      if c :| c in slotMap.calls && slotMap.calls[c].Promotion? { return Err(Busy); }
      if token != |canonical| { return Err(Invalid); }
      var native := CanonicalSlot(table, memory.blockSize, token);
      if native.None? || native.value in canonical.Values { return Err(Invalid); }
      return Ok(native.value);
    }

    method DecodeChecked(id: nat, token: nat, native: nat, row: Row, lost: set<nat>, ghost p: Arena)
      returns (r: Result<nat>)
      requires memory.Valid() && State() == p && Shape(p) == true && CanDecode(p, token) == true && id !in slotMap.calls
      requires CanonicalSlot(p.table, p.geo.blockSize, token) == Some(native)
      modifies this, slotMap, memory.cache, memory.side
      ensures memory.Valid()
      ensures State() == DecodeCall(p, id, token, row, lost)
      ensures r == Decodes(p, token, lost)
    {
      r := EnterToken(id, token, native, row, p);
      if r.Err? { return; }
      var arrived := CarryToken(id, token, r.value, native, row, lost, Opened(p, id, token, r.value, native, row));
      if !arrived { r := Err(Device); }
    }

    /** A decode's copies and their completion. */
    method CarryToken(id: nat, token: nat, slot: nat, native: nat, row: Row, lost: set<nat>, ghost q: Arena)
      returns (arrived: bool)
      requires memory.Valid() && State() == q && id in q.jobs && q.jobs[id] == TokenJob(token, slot, native, row)
      requires Decoding(id) == true
      requires slot < memory.Native() && native < memory.Native()
      modifies this, slotMap, memory.cache, memory.side
      ensures memory.Valid() && State() == DecodeEnd(q, id, lost)
      ensures arrived <==> slot !in lost && native !in lost
    {
      arrived := SendToken(id, slot, native, row, lost, q);
      EndDecode(id, arrived, lost, q);
    }

    method EnterToken(id: nat, token: nat, native: nat, row: Row, ghost p: Arena) returns (r: Result<nat>)
      requires memory.Valid() && State() == p && id !in slotMap.calls
      modifies slotMap, this`busy, this`jobs
      ensures memory.Valid() && r == Destination(p.slide.core, token, native, true)
      ensures State() == if r.Err? then p else Opened(p, id, token, r.value, native, row)
      ensures r.Ok? ==> Decoding(id) && slotMap.calls[id].chosen == r.value && slotMap.calls[id].native == native
      ensures r.Ok? ==> slotMap.calls[id].token == token
    {
      r := slotMap.EnterDecode(id, token, native, true);
      memory.SameMemory();
      if r.Ok? { Occupy(id, TokenJob(token, r.value, native, row), p.(slide := slotMap.Sys())); }
    }

    /** A decode holds its reservation on an open map. */
    predicate Decoding(id: nat)
      reads slotMap
    {
      !slotMap.closed && id in slotMap.calls && slotMap.calls[id].Decode? && slotMap.calls[id].step.Writing?
      && slotMap.calls[id].gen == slotMap.generation
    }

    method SendToken(id: nat, slot: nat, native: nat, row: Row, lost: set<nat>, ghost q: Arena) returns (arrived: bool)
      requires memory.Valid() && State() == q && id in q.jobs && q.jobs[id].plan == map[slot := row, native := row]
      requires slot < memory.Native() && native < memory.Native()
      modifies memory.cache, memory.side
      ensures memory.Valid() && State() == q.(mem := q.mem + (q.jobs[id].plan - lost))
      ensures arrived <==> q.jobs[id].plan.Keys !! lost
    {
      DecodeBatches(slot, native, row);
      arrived := slot !in lost && native !in lost;
      if slot != native {
        PlaceRows([slot], [row], [native], [row], lost, map[slot := row], map[native := row], q);
      } else {
        PlaceRows([slot], [row], [], [], lost, map[slot := row], map[], q);
      }
    }

    method EndDecode(id: nat, arrived: bool, ghost lost: set<nat>, ghost q: Arena)
      requires memory.Valid() && id in q.jobs && id in q.slide.ops && Decoding(id) == true
      requires State() == q.(mem := q.mem + (q.jobs[id].plan - lost)) && (arrived <==> q.jobs[id].plan.Keys !! lost)
      modifies this`jobs, this`logical, this`busy, this`canonical, this`decoded, this`holeReuses, this`nativeBinds,
          slotMap
      ensures memory.Valid() && State() == DecodeEnd(q, id, lost)
    {
      var token, chosen, native := slotMap.calls[id].token, slotMap.calls[id].chosen, slotMap.calls[id].native;
      var published := slotMap.ExitDecode(id, arrived);
      assert memory.Contents() == q.mem + (q.jobs[id].plan - lost);
      ghost var s := slotMap.Sys();
      LeaveArena(id, q.(mem := q.mem + (q.jobs[id].plan - lost), slide := s));
      if arrived { RecordToken(id, token, chosen, native, lost, q, s); }
    }

    ghost method LeaveArena(id: nat, q: Arena)
      requires memory.Valid() && State() == q
      modifies this`jobs, this`busy
      ensures memory.Valid() && State() == q.(busy := None, jobs := q.jobs - {id})
    {
      busy := None;
      jobs := jobs - {id};
    }

    method RecordToken(id: nat, token: nat, chosen: nat, native: nat, ghost lost: set<nat>, ghost q: Arena,
                       ghost s: System)
      requires memory.Valid() && id in q.jobs && q.jobs[id].plan.Keys !! lost && id in q.slide.ops
      requires q.slide.ops[id].Decode?
      requires q.slide.ops[id].token == token && q.slide.ops[id].chosen == chosen && q.slide.ops[id].native == native
      requires State() == UndecodedAs(q, id, lost, s)
      modifies this`logical, this`canonical, this`decoded, this`holeReuses, this`nativeBinds
      ensures memory.Valid() && State() == DecodedAs(q, id, s)
    {
      Count(chosen != native, UndecodedAs(q, id, lost, s));
      Bookkeep(token, native, q.jobs[id].assign, State());
      DecodedIs(q, id, lost, s);
    }

    /** What the arena records of a decode that succeeded. */
    method Bookkeep(token: nat, native: nat, ghost assign: map<nat, Row>, ghost q: Arena)
      requires memory.Valid() && State() == q
      modifies this`logical, this`canonical, this`decoded
      ensures memory.Valid()
      ensures State() == q.(logical := q.logical + assign, canonical := q.canonical[token := native], decoded := true)
    {
      canonical := canonical[token := native];
      decoded := true;
      logical := logical + assign;
    }

    method Count(reused: bool, ghost q: Arena)
      requires memory.Valid() && State() == q
      modifies this`holeReuses, this`nativeBinds
      ensures memory.Valid()
      ensures State()
              == q.(holeReuses := q.holeReuses + (if reused then 1 else 0),
                nativeBinds := q.nativeBinds + (if !reused then 1 else 0))
    {
      if reused { holeReuses := holeReuses + 1; } else { nativeBinds := nativeBinds + 1; }
    }

    // ---- loads, tables, retirement ----------------------------------------------------------------

    /** A host load finishes and the callback registered by a promotion runs. */
    method LoadFinished(load: nat, ok: bool, callback: nat, ghost p: Arena)
      requires memory.Valid() && State() == p && callback in callbacks && callbacks[callback] == load
      requires callback in slotMap.calls && slotMap.calls[callback].Loading?
      modifies this`futures, this`callbacks, slotMap
      ensures memory.Valid() && State() == LoadCall(p, load, ok, callback)
    {
      slotMap.LoadFinishedCall(callback);
      memory.SameMemory();
      Resolved(load, ok, callback, p.(slide := slotMap.Sys()));
    }

    method Resolved(load: nat, ok: bool, callback: nat, ghost q: Arena)
      requires memory.Valid() && State() == q
      modifies this`futures, this`callbacks
      ensures memory.Valid()
      ensures State()
              == q.(futures := q.futures[load := if ok then LoadDone else LoadFailed],
                callbacks := q.callbacks - {callback})
    {
      SetFuture(load, if ok then LoadDone else LoadFailed, q);
      DropCallback(callback, q.(futures := q.futures[load := if ok then LoadDone else LoadFailed]));
    }

    method SetFuture(load: nat, state: LoadState, ghost q: Arena)
      requires memory.Valid() && State() == q
      modifies this`futures
      ensures memory.Valid() && State() == q.(futures := q.futures[load := state])
    {
      futures := futures[load := state];
    }

    method DropCallback(callback: nat, ghost q: Arena)
      requires memory.Valid() && State() == q
      modifies this`callbacks
      ensures memory.Valid() && State() == q.(callbacks := q.callbacks - {callback})
    {
      callbacks := callbacks - {callback};
    }

    /** `update_block_table` */
    method UpdateBlockTable(entries: seq<int>, ghost p: Arena) returns (r: Result<()>)
      requires memory.Valid() && State() == p
      modifies this`table
      ensures memory.Valid()
      ensures State() == if CanUpdateTable(p, entries) then p.(table := entries) else p
      ensures r.Ok? <==> CanUpdateTable(p, entries)
    {
      if !ValidTable(memory.cache.Length0, entries) { return Err(Invalid); }
      if slotMap.closed { return Err(Stale); }
      if t :| t in canonical && CanonicalSlot(entries, memory.blockSize, t) != Some(canonical[t]) {
        return Err(Invalid);
      }
      table := entries;
      return Ok(());
    }
  }
}
