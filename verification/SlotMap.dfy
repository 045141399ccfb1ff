/** `LayerSlotMap` with its fields and methods. Each method is one block that
    holds the map's mutex, proved to be the machine's event; `calls` keeps what
    outstanding calls remember in their local variables. */
module SlotMap {
  import opened Basics
  import opened Slide

  class LayerSlotMap {
    var slots: map<nat, nat>
    const shared: set<nat>
    const floor: nat
    const maxSlots: Option<nat>
    var next: nat
    var unused: set<nat>
    var vacated: set<nat>
    var pending: set<nat>
    var pins: Counter
    var inflight: Counter
    var writes: Counter
    var generation: nat
    var closed: bool
    var calls: map<nat, Op>
    ghost const base: nat

    function ToCore(): Core
      reads this
    {
      Core(slots, shared, floor, maxSlots, next, unused, vacated, pending, pins, inflight, writes, generation, closed)
    }

    /** The machine's state this object is in. */
    ghost function Sys(): System
      reads this
    {
      System(ToCore(), base, calls)
    }

    constructor Init(slots: map<nat, nat>, shared: set<nat>, floor: nat, maxSlots: Option<nat>)
      requires Create(slots, shared, floor, maxSlots).Some?
      ensures Create(slots, shared, floor, maxSlots) == Some(Sys())
    {
      this.slots, this.shared, this.floor, this.maxSlots := slots, shared, floor, maxSlots;
      next, base := FirstFree(slots, floor), FirstFree(slots, floor);
      unused, vacated, pending := {}, {}, {};
      pins, inflight, writes := map[], map[], map[];
      generation, closed, calls := 0, false, map[];
    }

    /** `__init__`: a shared slot outside the mapping or too small an arena is an error. */
    static method New(slots: map<nat, nat>, shared: set<nat>, floor: nat, maxSlots: Option<nat>)
      returns (r: Result<LayerSlotMap>)
      ensures r.Ok? <==> Create(slots, shared, floor, maxSlots).Some?
      ensures r.Ok? ==> fresh(r.value) && Create(slots, shared, floor, maxSlots) == Some(r.value.Sys())
      ensures r.Err? ==> r.error == Invalid
    {
      if !(shared <= slots.Values) { return Err(Invalid); }
      if maxSlots.Some? && maxSlots.value < FirstFree(slots, floor) { return Err(Invalid); }
      var m := new LayerSlotMap.Init(slots, shared, floor, maxSlots);
      return Ok(m);
    }

    method Snapshot() returns (r: Result<map<nat, nat>>)
      ensures r == if closed then Err(Stale) else Ok(slots)
    {
      if closed { return Err(Stale); }
      return Ok(slots);
    }

    /** `_fresh_slot` */
    method FreshSlot() returns (r: Result<nat>)
      modifies this`unused, this`next
      ensures match Fresh(old(ToCore()))
              case None => r == Err(Capacity) && ToCore() == old(ToCore())
              case Some(p) => r == Ok(p.0) && ToCore() == p.1
    {
      if unused != {} {
        var slot := Least(unused);
        unused := unused - {slot};
        return Ok(slot);
      }
      if maxSlots.Some? && next >= maxSlots.value { return Err(Capacity); }
      next := next + 1;
      return Ok(next - 1);
    }

    // ---- readers ------------------------------------------------------------

    /** `pin_slots` on entry */
    method PinSlots(id: nat, wanted: set<nat>) returns (r: Result<()>)
      requires id !in calls
      modifies this
      ensures Sys() == Apply(old(Sys()), Event.PinSlots(id, wanted))
      ensures r.Ok? <==> CanPin(old(ToCore()), wanted)
      ensures r.Err? ==> r.error == if old(closed) then Stale else if !(wanted <= old(slots).Values) then Invalid
              else Busy
    {
      if closed { return Err(Stale); }
      if !(wanted <= slots.Values) { return Err(Invalid); }
      if s :| s in wanted && At(writes, s) != 0 { return Err(Busy); }
      Hold(id, Pin(wanted));
      return Ok(());
    }

    /** `pinned_mapping` on entry */
    method PinnedMapping(id: nat, tokens: set<nat>) returns (r: Result<map<nat, nat>>)
      requires id !in calls
      modifies this
      ensures Sys() == Apply(old(Sys()), PinTokens(id, tokens))
      ensures r.Ok? <==> tokens <= old(slots).Keys && CanPin(old(ToCore()), SlotsOf(old(ToCore()), tokens))
      ensures Sys() == if r.Ok? then Enter(old(Sys()), old(ToCore()), id, Pin(SlotsOf(old(ToCore()), tokens)))
              else old(Sys())
      ensures r.Ok? ==> r.value == map t | t in tokens :: old(slots)[t]
      ensures r.Err? ==> r.error == if old(closed) then Stale else if !(tokens <= old(slots).Keys) then Missing
              else Busy
    {
      if closed { return Err(Stale); }
      if !(tokens <= slots.Keys) { return Err(Missing); }
      var snapshot := map t | t in tokens :: slots[t];
      var held := snapshot.Values;
      assert held == SlotsOf(ToCore(), tokens) by {
        forall s | s in SlotsOf(ToCore(), tokens) ensures s in held {
          var t :| t in tokens && slots[t] == s;
          assert snapshot[t] == s;
        }
      }
      if s :| s in held && At(writes, s) != 0 { return Err(Busy); }
      Hold(id, Pin(held));
      return Ok(snapshot);
    }

    /** The exit of both reader contexts. */
    method UnpinCall(id: nat)
      requires id in calls && calls[id].Pin?
      modifies this
      ensures Sys() == Apply(old(Sys()), Unpin(id))
    {
      Release(id);
    }

    /** Every counter update on entry to a call. */
    method Hold(id: nat, op: Op)
      requires id !in calls
      modifies this`pins, this`writes, this`inflight, this`pending, this`calls
      ensures Sys() == Enter(old(Sys()), old(ToCore()), id, op)
    {
      pins := Bump(pins, Uses(op, Read), 1);
      writes := Bump(writes, Uses(op, Write), 1);
      inflight := Bump(inflight, Uses(op, Use.Hold), 1);
      pending := pending + Tokens(op);
      calls := calls[id := op];
    }

    /** Every counter update on exit from a call. */
    method Release(id: nat)
      requires id in calls
      modifies this`pins, this`writes, this`inflight, this`pending, this`calls
      ensures Sys() == Leave(old(Sys()), id)
    {
      var op := calls[id];
      pins := Bump(pins, Uses(op, Read), -1);
      writes := Bump(writes, Uses(op, Write), -1);
      inflight := Bump(inflight, Uses(op, Use.Hold), -1);
      pending := pending - Tokens(op);
      calls := calls - {id};
    }

    // ---- guarded writes -------------------------------------------------------

    /** `write_guard` on entry: the optional slots that may be written. */
    method EnterGuard(id: nat, required: set<nat>, optional: set<nat>) returns (r: Result<set<nat>>)
      requires id !in calls && OwnedByCaller(ToCore(), required + optional)
      modifies this
      ensures Sys() == Apply(old(Sys()), GuardEnter(id, required, optional))
      ensures r.Ok? <==> CanGuard(old(ToCore()), required)
      ensures r.Ok? ==> r.value == Available(old(ToCore()), optional)
                        && Sys() == Enter(old(Sys()), old(ToCore()), id, Guard(required + r.value, old(generation)))
      ensures r.Err? ==> Sys() == old(Sys())
      ensures r.Err? ==> r.error == if old(closed) then Stale else if required * shared != {} then Invalid else Busy
    {
      if closed { return Err(Stale); }
      if required * shared != {} { return Err(Invalid); }
      if s :| s in required && (At(pins, s) != 0 || At(inflight, s) != 0) { return Err(Busy); }
      var available := set s | s in optional && s !in shared && At(pins, s) == 0 && At(inflight, s) == 0;
      assert available == Available(ToCore(), optional);
      Hold(id, Guard(required + available, generation));
      return Ok(available);
    }

    /** `write_guard` on normal exit: the reservation is always returned, and a
        map retired meanwhile makes the write stale. */
    method ExitGuard(id: nat) returns (r: Result<()>)
      requires id in calls && calls[id].Guard?
      modifies this
      ensures Sys() == Apply(old(Sys()), GuardExit(id))
      ensures r == if old(closed) || old(calls)[id].gen != old(generation) then Err(Stale) else Ok(())
    {
      r := if closed || calls[id].gen != generation then Err(Stale) else Ok(());
      Release(id);
    }

    // ---- promotion --------------------------------------------------------------

    /** `promote_selected` up to the writer. An empty update is answered at once, with the
        mapping as it is; otherwise the promotion is taken up exactly if it is allowed and
        there are destinations. */
    method BeginPromote(id: nat, order: seq<nat>, load: LoadState, loadId: nat, inplace: bool)
      returns (r: Result<map<nat, nat>>)
      requires id !in calls && loadId !in calls && id != loadId && Distinct(order)
      modifies this
      ensures Sys() == Apply(old(Sys()), PromoteBegin(id, order, load, loadId, inplace))
      ensures order == [] ==> Sys() == old(Sys()) && r == if closed then Err(Stale) else Ok(slots)
      ensures order != [] ==> (r.Ok? <==> Promotable(old(ToCore()), order, load, inplace))
      ensures order != [] && r.Ok? ==>
                && r.value == Assign(old(ToCore()), order, load.LoadPending?, inplace, map[], {}).dest
                && id in calls && calls[id].Promotion? && calls[id].phase.Writing? && calls[id].dest == r.value
                && calls[id].gen == generation && !closed && SourceUnchanged(calls[id].source)
      ensures r.Err? ==> calls == old(calls) && r.error == PromotionError(old(ToCore()), order, load)
    {
      if order == [] { return if closed then Err(Stale) else Ok(slots); }
      r := TakeUp(id, order, load, loadId, inplace);
    }

    static predicate Promotable(c: Core, order: seq<nat>, load: LoadState, inplace: bool) {
      MayPromote(c, order, load) && Assign(c, order, load.LoadPending?, inplace, map[], {}).ok
    }

    /** An update that is not empty. */
    method TakeUp(id: nat, order: seq<nat>, load: LoadState, loadId: nat, inplace: bool)
      returns (r: Result<map<nat, nat>>)
      requires id !in calls && loadId !in calls && id != loadId && Distinct(order) && order != []
      modifies this
      ensures Sys() == Apply(old(Sys()), PromoteBegin(id, order, load, loadId, inplace))
      ensures r.Ok? <==> Promotable(old(ToCore()), order, load, inplace)
      ensures r.Ok? ==> r.value == Assign(old(ToCore()), order, load.LoadPending?, inplace, map[], {}).dest
      ensures r.Ok? ==> id in calls && calls[id].Promotion? && calls[id].phase.Writing? && calls[id].dest == r.value
                        && calls[id].gen == generation && !closed && SourceUnchanged(calls[id].source)
      ensures r.Err? ==> calls == old(calls) && r.error == PromotionError(old(ToCore()), order, load)
    {
      if !MayPromote(ToCore(), order, load) { return Err(PromotionError(ToCore(), order, load)); }
      var source := map t | t in order :: slots[t];
      var destinations, taken, fits := ChooseDestinations(order, load.LoadPending?, inplace);
      if !fits { return Err(Capacity); }
      HoldAll(id, Promotion(source, destinations, taken, generation, Writing), loadId, load.LoadPending?);
      return Ok(destinations);
    }

    /** The reservations of a promotion, and of the load it overtakes. */
    method HoldAll(id: nat, op: Op, loadId: nat, loading: bool)
      requires id !in calls && loadId !in calls && id != loadId && op.Promotion?
      modifies this`pins, this`writes, this`inflight, this`pending, this`calls
      ensures var s := Enter(old(Sys()), old(ToCore()), id, op);
              Sys() == if loading then Enter(s, s.core, loadId, Loading(op.source.Values)) else s
      ensures id in calls && calls[id] == op
    {
      Hold(id, op);
      if loading { Hold(loadId, Loading(op.source.Values)); }
    }

    /** The first check that fails, in the order the code makes them; the last
        one is the full arena. */
    static function PromotionError(c: Core, order: seq<nat>, load: LoadState): Error {
      if c.closed then Stale
      else if exists t :: t in order && t !in c.slots then Missing
      else if exists t :: t in order && t in c.pending then Busy
      else if load.LoadFailed? then Device else Capacity
    }

    /** The loop over the selected tokens. */
    method ChooseDestinations(order: seq<nat>, loadPending: bool, inplace: bool)
      returns (destinations: map<nat, nat>, taken: set<nat>, fits: bool)
      requires forall t :: t in order ==> t in slots
      modifies this`unused, this`next
      ensures var a := Assign(old(ToCore()), order, loadPending, inplace, map[], {});
              a == Assignment(ToCore(), destinations, taken, fits)
    {
      destinations, taken := map[], {};
      ghost var all := Assign(ToCore(), order, loadPending, inplace, map[], {});
      for i := 0 to |order|
        invariant slots == old(slots) && (forall t :: t in order ==> t in ToCore().slots)
        invariant forall t :: t in order[i..] ==> t in ToCore().slots
        invariant all == Assign(ToCore(), order[i..], loadPending, inplace, destinations, taken)
      {
        var was := slots[order[i]];
        var mustCopy := MustCopy(ToCore(), was, loadPending, inplace);
        var destination := was;
        assert order[i..][0] == order[i] && order[i..][1..] == order[i + 1..];
        if mustCopy {
          var slot := FreshSlot();
          if slot.Err? {
            unused := unused + taken;
            return destinations, taken, false;
          }
          destination := slot.value;
        }
        destinations := destinations[order[i] := destination];
        if destination != was { taken := taken + {destination}; }
      }
      fits := true;
    }

    /** `finish`: publish or give up, then return the reservation. Its blocks
        release the mutex in between; another call may run there, see the
        machine's separate events. */
    method Finish(id: nat, written: bool) returns (r: Result<map<nat, nat>>)
      requires id in calls && calls[id].Promotion? && calls[id].phase.Writing?
      modifies this
      ensures var s := old(Sys());
              var published := written && Publishable(s.core, s.ops[id]);
              && Sys() == Apply(Apply(s, if published then PromotePublish(id) else PromoteAbort(id)),
                      PromoteRelease(id))
              && (r.Ok? <==> published) && (published ==> r.value == slots)
              && (!published ==> slots == old(slots) && r.error == if written then Stale else Device)
    {
      var published := written && !closed && calls[id].gen == generation && SourceUnchanged(calls[id].source);
      if published {
        PublishCall(id);
        r := Ok(slots);
      } else {
        AbortCall(id);
        r := Err(if written then Stale else Device);
      }
      Release(id);
    }

    predicate SourceUnchanged(source: map<nat, nat>)
      reads this
    {
      forall t :: t in source ==> t in slots && slots[t] == source[t]
    }

    /** A failed or stale promotion returns the slots it had taken. */
    method AbortCall(id: nat)
      requires id in calls && calls[id].Promotion? && calls[id].phase.Writing?
      modifies this`unused, this`calls
      ensures Sys() == Apply(old(Sys()), PromoteAbort(id))
      ensures id in calls
    {
      unused := unused + calls[id].taken;
      calls := calls[id := calls[id].(phase := Failed)];
    }

    method PublishCall(id: nat)
      requires id in calls && calls[id].Promotion? && calls[id].phase.Writing? && Publishable(ToCore(), calls[id])
      modifies this`slots, this`vacated, this`calls
      ensures Sys() == Apply(old(Sys()), PromotePublish(id)) && id in calls
    {
      var op := calls[id];
      slots := slots + op.dest;
      var valid := slots.Values;
      vacated := vacated + (set s | s in op.source.Values && s !in valid && s !in shared);
      calls := calls[id := op.(phase := Published)];
    }

    /** The load's done-callback. */
    method LoadFinishedCall(id: nat)
      requires id in calls && calls[id].Loading?
      modifies this
      ensures Sys() == Apply(old(Sys()), LoadFinished(id))
    {
      Release(id);
    }

    // ---- decode -------------------------------------------------------------------

    method AllocateDecodeSlot(token: nat) returns (r: Result<nat>)
      modifies this
      ensures Sys() == Apply(old(Sys()), AllocateDecode(token))
      ensures r.Ok? ==> token in slots && slots == old(slots)[token := r.value]
      ensures r.Err? ==> slots == old(slots)
      ensures !old(closed) && NewToken(old(ToCore()), token) && r.Err? ==>
              r.error == Capacity && Fresh(old(ToCore())) == None
    {
      if closed { return Err(Stale); }
      if token in slots || token in pending { return Err(Invalid); }
      var eligible := Holes(ToCore(), None);
      if eligible != {} {
        var slot := Least(eligible);
        vacated := vacated - {slot};
        slots := slots[token := slot];
        return Ok(slot);
      }
      r := FreshSlot();
      if r.Ok? { slots := slots[token := r.value]; }
    }

    /** `_decode_destination` */
    method DecodeDestination(token: nat, native: nat, reuse: bool) returns (r: Result<nat>)
      ensures r == Destination(ToCore(), token, native, reuse)
    {
      if closed { return Err(Stale); }
      if token in slots || token in pending { return Err(Invalid); }
      if native >= floor { return Err(Invalid); }
      if native in slots.Values || native in shared || At(pins, native) != 0 || At(inflight, native) != 0 {
        return Err(Capacity);
      }
      if reuse {
        var eligible := Holes(ToCore(), Some(floor));
        if eligible != {} { return Ok(Least(eligible)); }
      }
      return Ok(native);
    }

    method BindDecodeSlot(token: nat, native: nat, reuse: bool) returns (r: Result<nat>)
      modifies this
      ensures Sys() == Apply(old(Sys()), BindDecode(token, native, reuse))
      ensures r == Destination(old(ToCore()), token, native, reuse)
    {
      r := DecodeDestination(token, native, reuse);
      if r.Ok? {
        vacated := vacated - {r.value};
        slots := slots[token := r.value];
      }
    }

    /** `decode_write_guard` on entry */
    method EnterDecode(id: nat, token: nat, native: nat, reuse: bool) returns (r: Result<nat>)
      requires id !in calls
      modifies this
      ensures Sys() == Apply(old(Sys()), DecodeEnter(id, token, native, reuse))
      ensures Sys() == if r.Err? then old(Sys())
                       else Enter(old(Sys()), old(ToCore()).(vacated := old(vacated) - {r.value}), id,
                                  Decode(token, r.value, native, old(generation), Writing))
      ensures r == Destination(old(ToCore()), token, native, reuse)
    {
      r := DecodeDestination(token, native, reuse);
      if r.Ok? {
        vacated := vacated - {r.value};
        Hold(id, Decode(token, r.value, native, generation, Writing));
      }
    }

    /** `decode_write_guard` on exit: publish the token, or retire the map. */
    method ExitDecode(id: nat, written: bool) returns (r: Result<()>)
      requires id in calls && calls[id].Decode? && calls[id].step.Writing?
      modifies this
      ensures var s := old(Sys());
              var published := written && !s.core.closed && s.ops[id].gen == s.core.generation;
              && Sys() == Apply(Apply(s, if published then DecodePublish(id) else DecodeAbort(id)), DecodeRelease(id))
              && (r.Ok? <==> published) && (!published ==> closed && slots == old(slots))
    {
      if written && !closed && calls[id].gen == generation {
        PublishToken(id);
        r := Ok(());
      } else {
        GiveUpToken(id);
        r := Err(if written then Stale else Device);
      }
      Release(id);
    }

    method PublishToken(id: nat)
      requires id in calls && calls[id].Decode? && calls[id].step.Writing? && !closed && calls[id].gen == generation
      modifies this`slots, this`calls
      ensures Sys() == Apply(old(Sys()), DecodePublish(id))
      ensures id in calls && calls[id] == old(calls)[id].(step := Published)
    {
      slots := slots[calls[id].token := calls[id].chosen];
      calls := calls[id := calls[id].(step := Published)];
    }

    method GiveUpToken(id: nat)
      requires id in calls && calls[id].Decode? && calls[id].step.Writing?
      modifies this`generation, this`closed, this`calls
      ensures Sys() == Apply(old(Sys()), DecodeAbort(id)) && closed
      ensures id in calls && calls[id] == old(calls)[id].(step := Failed)
    {
      if !closed { Retirement(); }
      calls := calls[id := calls[id].(step := Failed)];
    }

    /** `invalidate` */
    method Retirement()
      modifies this`generation, this`closed
      ensures Sys() == Apply(old(Sys()), Invalidate)
    {
      generation := generation + 1;
      closed := true;
    }
  }
}
