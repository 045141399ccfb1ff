/** The device memory of the paged arena: the native cache, indexed by block and
    offset, and the sidecar. */
module PagedMemory {
  import opened Basics
  import opened Paged
  import opened PagedCalls
  import RowPacking
  import SlotWrites

  /** What an element of a new tensor holds before anything is written. */
  const EMPTY := Row([], [])

  lemma BlockBound(s: nat, blocks: nat, blockSize: Size)
    requires s < NativeSlots(blocks, blockSize)
    ensures s / blockSize < blocks
  {
    var q := s / blockSize;
    assert q * blockSize <= s;
    if blocks < q { Times(blocks, q, blockSize); assert false; }
  }

  /** The writer's row numbers carry the plan of the promotion. */
  lemma RoutedDelivers(dest: map<nat, nat>, positions: seq<nat>, rows: seq<Row>, slots: seq<nat>, found: seq<nat>,
                       sent: seq<Row>)
    requires RowPacking.Routed(dest, positions, slots, found) && Injective(dest) && Distinct(positions)
    requires |positions| == |rows|
    requires dest.Keys == Elements(positions)
    requires |sent| == |found| && forall k :: 0 <= k < |found| && found[k] < |rows| ==> sent[k] == rows[found[k]]
    ensures Delivers(slots, sent, Paged.Placed(dest, Zip(positions, rows)))
  {
    var plan := Paged.Placed(dest, Zip(positions, rows));
    ZipDelivers(positions, rows);
    PlacedFacts(dest, Zip(positions, rows));
    forall k | 0 <= k < |slots| ensures slots[k] in plan && plan[slots[k]] == sent[k] {
      assert RowPacking.RoutedAt(dest, positions, slots[k], found[k]);
      assert positions[found[k]] in Zip(positions, rows);
    }
    forall s | s in slots ensures s in plan {
      var k :| 0 <= k < |slots| && slots[k] == s;
      assert slots[k] in plan;
    }
  }

  /** Row numbers go out as byte records and come back out of the coalesced runs. */
  method RouteByRuns(dest: map<nat, nat>, positions: seq<nat>, rows: seq<Row>, lost: set<nat>)
    returns (slots: seq<nat>, sent: seq<Row>, written: bool)
    requires |positions| == |rows| && Distinct(positions) && Injective(dest) && dest.Keys == Elements(positions)
    requires |positions| <= SlotWrites.Limit(SlotWrites.ROW_BYTES)
    ensures Delivers(slots, sent, Paged.Placed(dest, Zip(positions, rows))) == true
    ensures forall s :: s in slots ==> s in dest.Values
    ensures written <==> Paged.Placed(dest, Zip(positions, rows)).Keys !! lost
  {
    var found: seq<nat>;
    slots, found := RowPacking.RouteRows(dest, positions);
    sent := [];
    for k := 0 to |found|
      invariant |sent| == k && forall j :: 0 <= j < k && found[j] < |rows| ==> sent[j] == rows[found[j]]
    {
      assert RowPacking.RoutedAt(dest, positions, slots[k], found[k]);
      sent := sent + [rows[found[k]]];
    }
    RoutedDelivers(dest, positions, rows, slots, found, sent);
    written := forall s :: s in slots ==> s !in lost;
  }

  class DeviceMemory {
    const cache: array2<Row>
    const blockSize: Size
    const capacity: nat          // logical sidecar capacity
    const side: array<Row>

    ghost predicate Valid() {
      cache.Length1 == blockSize && side.Length == capacity
    }

    function Native(): nat {
      NativeSlots(cache.Length0, blockSize)
    }

    /** The row in a physical slot. */
    function At(s: nat): Row
      requires Valid() && s < Native() + capacity
      reads cache, side
    {
      if s < Native() then
        BlockBound(s, cache.Length0, blockSize);
        cache[s / blockSize, s % blockSize]
      else side[s - Native()]
    }

    /** All slots, native and sidecar. */
    ghost function Contents(): (m: map<nat, Row>)
      requires Valid()
      reads cache, side
      ensures forall s: nat :: s in m <==> s < Native() + capacity
    {
      map s: nat | s < Native() + capacity :: At(s)
    }

    /** While neither array changes, the memory holds what it held. */
    twostate lemma SameMemory()
      requires Valid() && unchanged(cache) && unchanged(side)
      ensures Contents() == old(Contents())
    {}

    constructor (cache: array2<Row>, blockSize: Size, capacity: nat)
      requires cache.Length1 == blockSize
      ensures Valid() && this.cache == cache && this.blockSize == blockSize && this.capacity == capacity && fresh(side)
    {
      this.cache, this.blockSize, this.capacity := cache, blockSize, capacity;
      side := new Row[capacity](_ => EMPTY);
    }

    method WriteNative(slot: nat, row: Row)
      requires Valid() && slot < Native()
      modifies cache
      ensures Valid() && Contents() == old(Contents())[slot := row]
    {
      BlockBound(slot, cache.Length0, blockSize);
      cache[slot / blockSize, slot % blockSize] := row;
      forall s: nat | s < Native() && s != slot ensures At(s) == old(At(s)) {
        BlockBound(s, cache.Length0, blockSize);
        assert s == (s / blockSize) * blockSize + s % blockSize
            && slot == (slot / blockSize) * blockSize + slot % blockSize;
      }
    }

    method WriteSide(slot: nat, row: Row)
      requires Valid() && Native() <= slot < Native() + capacity
      modifies side
      ensures Valid() && Contents() == old(Contents())[slot := row]
    {
      side[slot - Native()] := row;
    }

    /** `_write_slots`: native rows first, then sidecar rows. `lost` are the slots
        a failing device leaves as they were. */
    method WriteSlots(slots: seq<nat>, rows: seq<Row>, lost: set<nat>, ghost plan: map<nat, Row>)
      requires Valid() && Delivers(slots, rows, plan) == true && forall s :: s in slots ==> s < Native() + capacity
      modifies cache, side
      ensures Valid()
      ensures Contents() == old(Contents()) + (plan - lost)
    {
      ghost var before := Contents();
      ghost var done := WriteNativeRows(slots, rows, lost, plan);
      if exists s :: s in slots && s >= Native() {
        WriteSideRows(slots, rows, lost, plan, before, done);
      }
      assert before + (plan - lost) == before + Only(plan, plan.Keys - lost);
    }

    /** A call's own rows and then its mirrors. */
    method WriteBoth(slots: seq<nat>, rows: seq<Row>, mirrors: seq<nat>, mirrored: seq<Row>, lost: set<nat>,
                     ghost first: map<nat, Row>, ghost second: map<nat, Row>)
      requires Valid() && Delivers(slots, rows, first) == true && Delivers(mirrors, mirrored, second) == true
      requires forall s :: s in slots + mirrors ==> s < Native() + capacity
      modifies cache, side
      ensures Valid()
      ensures Contents() == old(Contents()) + (first + second - lost)
    {
      assert forall s :: s in slots || s in mirrors ==> s in slots + mirrors;
      WriteSlots(slots, rows, lost, first);
      WriteSlots(mirrors, mirrored, lost, second);
      TwoBatches(old(Contents()), first, second, lost);
    }

    /** The promotion's writer: rows routed by number through the coalesced runs. */
    method WriteRouted(dest: map<nat, nat>, positions: seq<nat>, rows: seq<Row>, lost: set<nat>,
                       ghost plan: map<nat, Row>)
      returns (written: bool)
      requires Valid() && |positions| == |rows| && Distinct(positions)
      requires |positions| <= SlotWrites.Limit(SlotWrites.ROW_BYTES)
      requires Destined(dest, positions, Native() + capacity) && Zip(positions, rows).Keys <= dest.Keys
      requires plan == Paged.Placed(dest, Zip(positions, rows))
      modifies cache, side
      ensures Valid()
      ensures Contents() == old(Contents()) + (plan - lost)
      ensures written <==> plan.Keys !! lost
    {
      ghost var before := Contents();
      var slots, sent;
      slots, sent, written := Route(dest, positions, rows, lost);
      assert forall s :: s in slots ==> s < Native() + capacity;
      WriteSlots(slots, sent, lost, plan);
      assert Contents() == before + (plan - lost);
    }

    /** The routing touches no memory. */
    method Route(dest: map<nat, nat>, positions: seq<nat>, rows: seq<Row>, lost: set<nat>)
      returns (slots: seq<nat>, sent: seq<Row>, written: bool)
      requires Valid() && |positions| == |rows| && Distinct(positions) && Injective(dest)
               && dest.Keys == Elements(positions)
      requires |positions| <= SlotWrites.Limit(SlotWrites.ROW_BYTES)
      ensures Valid() && Contents() == old(Contents())
      ensures Delivers(slots, sent, Paged.Placed(dest, Zip(positions, rows))) == true
      ensures forall s :: s in slots ==> s in dest.Values
      ensures written <==> Paged.Placed(dest, Zip(positions, rows)).Keys !! lost
    {
      slots, sent, written := RouteByRuns(dest, positions, rows, lost);
      SameMemory();
    }

    method WriteNativeRows(slots: seq<nat>, rows: seq<Row>, lost: set<nat>, ghost plan: map<nat, Row>)
      returns (ghost done: set<nat>)
      requires Valid() && Delivers(slots, rows, plan) == true && forall s :: s in slots ==> s < Native() + capacity
      modifies cache
      ensures Valid()
      ensures forall s :: s in done <==> s in slots && s < Native() && s !in lost
      ensures Contents() == old(Contents()) + Only(plan, done)
    {
      done := {};
      for i := 0 to |slots|
        invariant Valid()
        invariant forall s :: s in done <==> s in slots[..i] && s < Native() && s !in lost
        invariant Contents() == old(Contents()) + Only(plan, done)
      {
        if slots[i] < Native() && slots[i] !in lost {
          WriteNative(slots[i], rows[i]);
          OneMoreRow(old(Contents()), plan, done, slots[i]);
          done := done + {slots[i]};
        }
        assert slots[..i + 1] == slots[..i] + [slots[i]];
      }
      assert slots[..|slots|] == slots;
    }

    method WriteSideRows(slots: seq<nat>, rows: seq<Row>, lost: set<nat>, ghost plan: map<nat, Row>,
                         ghost before: map<nat, Row>,
                         ghost native: set<nat>)
      requires Valid() && Delivers(slots, rows, plan) == true && forall s :: s in slots ==> s < Native() + capacity
      requires forall s :: s in native <==> s in slots && s < Native() && s !in lost
      requires Contents() == before + Only(plan, native)
      modifies side
      ensures Valid() && Contents() == before + Only(plan, plan.Keys - lost)
    {
      ghost var done := native;
      for i := 0 to |slots|
        invariant Valid()
        invariant forall s :: s in done <==> s in slots && s !in lost && (s < Native() || s in slots[..i])
        invariant Contents() == before + Only(plan, done)
      {
        if slots[i] >= Native() && slots[i] !in lost {
          WriteSide(slots[i], rows[i]);
          OneMoreRow(before, plan, done, slots[i]);
          done := done + {slots[i]};
        }
        assert slots[..i + 1] == slots[..i] + [slots[i]];
      }
      assert slots[..|slots|] == slots;
      assert done == plan.Keys - lost;
    }
  }

  lemma OneMoreRow(before: map<nat, Row>, plan: map<nat, Row>, done: set<nat>, slot: nat)
    requires slot in plan
    ensures (before + Only(plan, done))[slot := plan[slot]] == before + Only(plan, done + {slot})
  {}
}
