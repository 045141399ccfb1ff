/** Coalescing per-slot records into contiguous runs, and the row numbers the
    paged arena smuggles through those records. */
module SlotWrites {
  import opened Basics

  newtype byte = x: int | 0 <= x < 256
  type Bytes = seq<byte>

  datatype SlotWrite = SlotWrite(start: nat, count: nat, payload: Bytes)

  // ---- byte strings -------------------------------------------------------

  function Join(parts: seq<Bytes>): Bytes {
    if parts == [] then [] else Join(parts[..|parts| - 1]) + parts[|parts| - 1]
  }

  lemma {:induction false} JoinLength(parts: seq<Bytes>, size: nat)
    requires forall i :: 0 <= i < |parts| ==> |parts[i]| == size
    ensures |Join(parts)| == |parts| * size
  {
    if parts != [] {
      JoinLength(parts[..|parts| - 1], size);
    }
  }

  /** `b"".join(parts)` cut at multiples of the record size gives the parts back. */
  lemma {:induction false} JoinSlice(parts: seq<Bytes>, size: nat, k: nat)
    requires (forall i :: 0 <= i < |parts| ==> |parts[i]| == size) && k < |parts|
    ensures k * size <= (k + 1) * size <= |parts| * size == |Join(parts)|
    ensures Join(parts)[k * size..(k + 1) * size] == parts[k]
  {
    var front := parts[..|parts| - 1];
    JoinLength(parts, size);
    JoinLength(front, size);
    Scale(k, |parts|, size);
    if k < |front| {
      JoinSlice(front, size, k);
      assert Join(parts)[k * size..(k + 1) * size] == Join(front)[k * size..(k + 1) * size];
    } else {
      assert k == |front|;
    }
  }

  lemma Scale(k: nat, n: nat, size: nat)
    requires k < n
    ensures k * size <= (k + 1) * size <= n * size
  {
    Times(k, n, size);
  }

  // ---- what a list of runs says -------------------------------------------

  predicate Uniform(writes: map<nat, Bytes>, size: nat) {
    forall s :: s in writes ==> |writes[s]| == size
  }

  ghost predicate Shaped(run: SlotWrite, size: nat) {
    run.count > 0 && |run.payload| == run.count * size
  }

  ghost predicate In(run: SlotWrite, s: nat) {
    run.start <= s < run.start + run.count
  }

  /** The record of a run for slot `s`. */
  ghost function Record(run: SlotWrite, size: nat, s: nat): Bytes
    requires Shaped(run, size) && In(run, s)
  {
    Scale(s - run.start, run.count, size);
    run.payload[(s - run.start) * size..(s - run.start + 1) * size]
  }

  /** Every run holds whole records, and at least one slot separates two runs. */
  ghost predicate Canonical(runs: seq<SlotWrite>, size: nat) {
    && (forall i :: 0 <= i < |runs| ==> Shaped(runs[i], size))
    && (forall i, j :: 0 <= i < j < |runs| ==> runs[i].start + runs[i].count < runs[j].start)
  }

  /** Wherever the run reaches, it holds the wanted record. */
  ghost predicate Agrees(run: SlotWrite, size: nat, writes: map<nat, Bytes>)
    requires Shaped(run, size)
  {
    forall s: nat :: In(run, s) ==> s in writes && Record(run, size, s) == writes[s]
  }

  /** The runs write exactly `writes`. */
  ghost predicate Writes(runs: seq<SlotWrite>, size: nat, writes: map<nat, Bytes>)
    requires Canonical(runs, size)
  {
    && (forall i :: 0 <= i < |runs| ==> Agrees(runs[i], size, writes))
    && (forall s :: s in writes ==> Reached(runs, s))
  }

  ghost predicate Reached(runs: seq<SlotWrite>, s: nat) {
    exists i :: 0 <= i < |runs| && In(runs[i], s)
  }

  /** `parts` are the records of consecutive slots starting at `start`. */
  ghost predicate Collected(start: int, parts: seq<Bytes>, writes: map<nat, Bytes>) {
    && (parts != [] ==> start >= 0)
    && forall s: nat :: start <= s < start + |parts| ==> s in writes && parts[s - start] == writes[s]
  }

  lemma CollectedRun(start: nat, parts: seq<Bytes>, writes: map<nat, Bytes>, size: nat)
    requires parts != [] && Collected(start, parts, writes) && Uniform(writes, size)
    ensures var run := SlotWrite(start, |parts|, Join(parts)); Shaped(run, size) && Agrees(run, size, writes)
  {
    var run := SlotWrite(start, |parts|, Join(parts));
    forall k | 0 <= k < |parts| ensures |parts[k]| == size {
      var s: nat := start + k;
      assert s in writes && parts[s - start] == writes[s];
    }
    JoinLength(parts, size);
    forall s: nat | In(run, s) ensures s in writes && Record(run, size, s) == writes[s] {
      JoinSlice(parts, size, s - start);
    }
  }

  lemma CollectMore(start: int, parts: seq<Bytes>, writes: map<nat, Bytes>, slot: nat)
    requires Collected(start, parts, writes) && slot in writes && slot == start + |parts|
    ensures Collected(start, parts + [writes[slot]], writes)
  {}

  /** Finished runs that end before slot `bound`. */
  ghost predicate Built(runs: seq<SlotWrite>, size: nat, writes: map<nat, Bytes>, bound: int) {
    && Canonical(runs, size)
    && (forall i :: 0 <= i < |runs| ==> Agrees(runs[i], size, writes))
    && (runs != [] ==> runs[|runs| - 1].start + runs[|runs| - 1].count < bound)
  }

  lemma AppendRun(runs: seq<SlotWrite>, run: SlotWrite, size: nat, writes: map<nat, Bytes>, bound: int)
    requires Built(runs, size, writes, run.start) && Shaped(run, size) && Agrees(run, size, writes)
    requires run.start + run.count < bound
    ensures Built(runs + [run], size, writes, bound)
    ensures forall s :: Reached(runs, s) || In(run, s) ==> Reached(runs + [run], s)
  {
    var all := runs + [run];
    assert all[|runs|] == run;
    forall i, j | 0 <= i < j < |all| ensures all[i].start + all[i].count < all[j].start {
      if j == |runs| && i < |runs| - 1 { assert runs[i].start + runs[i].count < runs[|runs| - 1].start; }
    }
    forall s | Reached(runs, s) || In(run, s) ensures Reached(all, s) {
      if In(run, s) {
        assert In(all[|runs|], s);
      } else {
        var i :| 0 <= i < |runs| && In(runs[i], s);
        assert In(all[i], s);
      }
    }
  }

  /** Closing the pending run reaches every slot up to its last one. */
  lemma Flush(runs: seq<SlotWrite>, start: nat, parts: seq<Bytes>, writes: map<nat, Bytes>, size: nat,
              done: seq<nat>, bound: int)
    requires parts != [] && Collected(start, parts, writes) && Uniform(writes, size)
    requires Built(runs, size, writes, start) && start + |parts| < bound
    requires forall s :: s in done ==> s < start + |parts| && (s < start ==> Reached(runs, s))
    ensures var all := runs + [SlotWrite(start, |parts|, Join(parts))];
            Built(all, size, writes, bound) && forall s :: s in done ==> Reached(all, s)
  {
    CollectedRun(start, parts, writes, size);
    AppendRun(runs, SlotWrite(start, |parts|, Join(parts)), size, writes, bound);
  }

  /** `coalesce_slot_writes`: refused exactly when the records have no common
      positive size. */
  method Coalesce(writes: map<nat, Bytes>) returns (r: Result<seq<SlotWrite>>)
    ensures r.Ok? <==> exists size: nat :: Uniform(writes, size) && (writes != map[] ==> size > 0)
    ensures r.Ok? ==> forall size: nat :: Uniform(writes, size) ==>
            Canonical(r.value, size) && Writes(r.value, size, writes)
    ensures writes == map[] ==> r == Ok([])
    ensures r.Err? ==> r.error == Invalid
  {
    if writes == map[] {
      assert Uniform(writes, 0);
      return Ok([]);
    }
    var order := Sorted(writes.Keys);
    assert order[0] in writes;
    var size := |writes[order[0]]|;
    forall other: nat | Uniform(writes, other) ensures other == size {}
    if !Uniform(writes, size) || size == 0 {
      return Err(Invalid);
    }
    var runs := CollectRuns(order, writes, size);
    return Ok(runs);
  }

  /** The accumulating loop of `coalesce_slot_writes`. */
  method CollectRuns(order: seq<nat>, writes: map<nat, Bytes>, ghost size: nat) returns (runs: seq<SlotWrite>)
    requires order != [] && Ascending(order) && Uniform(writes, size)
    requires forall s :: s in order <==> s in writes
    ensures Canonical(runs, size) && Writes(runs, size, writes)
  {
    runs := [];
    var start: int, previous: int := -2, -2;
    var parts: seq<Bytes> := [];
    ghost var done: seq<nat> := [];
    for i := 0 to |order|
      invariant done == order[..i]
      invariant i == 0 ==> previous == -2 && parts == [] && runs == []
      invariant i > 0 ==> parts != [] && previous == order[i - 1] && start + |parts| == previous + 1
      invariant Collected(start, parts, writes)
      invariant Built(runs, size, writes, start)
      invariant forall s :: s in done ==> s < start + |parts| && (s < start ==> Reached(runs, s))
    {
      var slot := order[i];
      assert slot in writes && (i > 0 ==> order[i - 1] < slot);
      if slot != previous + 1 && parts != [] {
        Flush(runs, start, parts, writes, size, done, slot);
        runs := runs + [SlotWrite(start, |parts|, Join(parts))];
        parts := [];
      }
      if parts == [] {
        start := slot;
      }
      CollectMore(start, parts, writes, slot);
      parts := parts + [writes[slot]];
      previous := slot;
      done := done + [slot];
    }
    Flush(runs, start, parts, writes, size, done, previous + 2);
    runs := runs + [SlotWrite(start, |parts|, Join(parts))];
  }

  /** Canonical runs are determined by what they write: no shorter or different
      list of contiguous writes says the same. */
  lemma {:induction false} CanonicalUnique(a: seq<SlotWrite>, b: seq<SlotWrite>, size: nat, writes: map<nat, Bytes>)
    requires Canonical(a, size) && Canonical(b, size) && Writes(a, size, writes) && Writes(b, size, writes)
    ensures a == b
    decreases |a|
  {
    if a == [] || b == [] {
      EmptyRuns(a, size, writes);
      EmptyRuns(b, size, writes);
    } else {
      SameFirst(a, b, size, writes);
      DropFirst(a, size, writes);
      DropFirst(b, size, writes);
      CanonicalUnique(a[1..], b[1..], size, Without(writes, a[0]));
      assert a == [a[0]] + a[1..] && b == [b[0]] + b[1..];
    }
  }

  lemma EmptyRuns(a: seq<SlotWrite>, size: nat, writes: map<nat, Bytes>)
    requires Canonical(a, size) && Writes(a, size, writes)
    ensures a == [] <==> writes == map[]
  {
    if a != [] { assert Agrees(a[0], size, writes) && In(a[0], a[0].start); }
    if s :| s in writes { assert Reached(a, s); }
  }

  ghost function Without(writes: map<nat, Bytes>, run: SlotWrite): map<nat, Bytes> {
    map s | s in writes && !In(run, s) :: writes[s]
  }

  lemma DropFirst(a: seq<SlotWrite>, size: nat, writes: map<nat, Bytes>)
    requires a != [] && Canonical(a, size) && Writes(a, size, writes)
    ensures Canonical(a[1..], size) && Writes(a[1..], size, Without(writes, a[0]))
  {
    var rest := Without(writes, a[0]);
    forall s | s in rest ensures Reached(a[1..], s) {
      assert Reached(a, s);
      var i :| 0 <= i < |a| && In(a[i], s);
      assert In(a[1..][i - 1], s);
    }
    forall i | 0 <= i < |a[1..]| ensures Agrees(a[1..][i], size, rest) {
      var run := a[i + 1];
      assert Agrees(run, size, writes) && a[0].start + a[0].count < run.start;
      forall s: nat | In(run, s) ensures s in rest && Record(run, size, s) == rest[s] {}
    }
  }

  lemma SameFirst(a: seq<SlotWrite>, b: seq<SlotWrite>, size: nat, writes: map<nat, Bytes>)
    requires a != [] && b != []
    requires Canonical(a, size) && Canonical(b, size) && Writes(a, size, writes) && Writes(b, size, writes)
    ensures a[0] == b[0]
  {
    FirstBelow(a, b, size, writes);
    FirstBelow(b, a, size, writes);
    var p, q := a[0], b[0];
    assert Agrees(p, size, writes) && Agrees(q, size, writes);
    SameRecords(p, q, size, writes);
  }

  /** The slot right after the first run is in no run. */
  lemma GapUnreached(b: seq<SlotWrite>, size: nat)
    requires b != [] && Canonical(b, size)
    ensures !Reached(b, b[0].start + b[0].count)
  {}

  lemma FirstBelow(a: seq<SlotWrite>, b: seq<SlotWrite>, size: nat, writes: map<nat, Bytes>)
    requires a != [] && b != []
    requires Canonical(a, size) && Canonical(b, size) && Writes(a, size, writes) && Writes(b, size, writes)
    ensures a[0].start <= b[0].start
    ensures a[0].start == b[0].start ==> a[0].count <= b[0].count
  {
    assert In(b[0], b[0].start);
    assert Agrees(b[0], size, writes);
    assert Reached(a, b[0].start);
    var i :| 0 <= i < |a| && In(a[i], b[0].start);
    assert i > 0 ==> a[0].start + a[0].count < a[i].start;
    if a[0].start == b[0].start && a[0].count > b[0].count {
      var s := b[0].start + b[0].count;
      assert Agrees(a[0], size, writes) && In(a[0], s);
      GapUnreached(b, size);
      assert false;
    }
  }

  lemma SameRecords(p: SlotWrite, q: SlotWrite, size: nat, writes: map<nat, Bytes>)
    requires Shaped(p, size) && Shaped(q, size) && p.start == q.start && p.count == q.count
    requires Agrees(p, size, writes) && Agrees(q, size, writes)
    ensures p == q
  {
    forall n | 0 <= n < |p.payload| ensures p.payload[n] == q.payload[n] {
      Split(n, size, p.count);
      SameByte(p, q, size, n / size, n % size, writes);
    }
  }

  lemma SameByte(p: SlotWrite, q: SlotWrite, size: nat, k: nat, offset: nat, writes: map<nat, Bytes>)
    requires Shaped(p, size) && Shaped(q, size) && p.start == q.start && p.count == q.count
    requires Agrees(p, size, writes) && Agrees(q, size, writes) && k < p.count && offset < size
    ensures k * size + offset < |p.payload| == |q.payload|
    ensures p.payload[k * size + offset] == q.payload[k * size + offset]
  {
    ByteAt(p, size, k, offset);
    ByteAt(q, size, k, offset);
    SameSlot(p, q, size, p.start + k, writes);
  }

  lemma SameSlot(p: SlotWrite, q: SlotWrite, size: nat, s: nat, writes: map<nat, Bytes>)
    requires Shaped(p, size) && Shaped(q, size) && In(p, s) && In(q, s)
    requires Agrees(p, size, writes) && Agrees(q, size, writes)
    ensures Record(p, size, s) == Record(q, size, s)
  {}

  lemma ByteAt(p: SlotWrite, size: nat, k: nat, offset: nat)
    requires Shaped(p, size) && k < p.count && offset < size
    ensures k * size + offset < |p.payload| && In(p, p.start + k) && offset < |Record(p, size, p.start + k)|
    ensures p.payload[k * size + offset] == Record(p, size, p.start + k)[offset]
  {
    Scale(k, p.count, size);
    RecordIs(p, size, k);
    assert (k + 1) * size == k * size + size;
    RecordAt(p.payload, k * size, (k + 1) * size, k * size + offset);
  }

  lemma RecordIs(p: SlotWrite, size: nat, k: nat)
    requires Shaped(p, size) && k < p.count && k * size <= (k + 1) * size <= p.count * size
    ensures In(p, p.start + k) && Record(p, size, p.start + k) == p.payload[k * size..(k + 1) * size]
  {
    var s := p.start + k;
    assert s - p.start == k;
  }

  lemma RecordAt(payload: Bytes, from: nat, until: nat, n: nat)
    requires from <= n < until <= |payload|
    ensures payload[n] == payload[from..until][n - from]
  {}

  lemma Split(n: nat, size: nat, count: nat)
    requires n < count * size
    ensures size > 0 && n / size < count && (n / size) * size <= n < (n / size + 1) * size
    ensures n % size == n - (n / size) * size
  {
    assert size > 0;
    var k := n / size;
    assert n == k * size + n % size;
    if count < k { Times(count, k, size); assert false; }
  }

  // ---- row numbers as eight-byte records ------------------------------------

  /** `row.to_bytes(width, "little")` */
  function Encode(row: nat, width: nat): Bytes {
    if width == 0 then [] else [(row % 256) as byte] + Encode(row / 256, width - 1)
  }

  /** `int.from_bytes(record, "little")` */
  function Decode(record: Bytes): nat {
    if record == [] then 0 else record[0] as nat + 256 * Decode(record[1..])
  }

  function Limit(width: nat): nat {
    if width == 0 then 1 else 256 * Limit(width - 1)
  }

  lemma {:induction false} EncodeDecode(row: nat, width: nat)
    requires row < Limit(width)
    ensures |Encode(row, width)| == width && Decode(Encode(row, width)) == row
  {
    if width > 0 {
      EncodeDecode(row / 256, width - 1);
      assert Encode(row, width)[1..] == Encode(row / 256, width - 1);
    }
  }

  const ROW_BYTES := 8

  /** Row numbers keyed by slot, as the records handed to `Coalesce`. */
  ghost function Records(rows: map<nat, nat>): map<nat, Bytes> {
    map s | s in rows :: Encode(rows[s], ROW_BYTES)
  }

  /** The slots and row numbers found so far are right. */
  ghost predicate Decoded(slots: seq<nat>, found: seq<nat>, rows: map<nat, nat>) {
    |slots| == |found| && Ascending(slots)
    && forall i :: 0 <= i < |slots| ==> slots[i] in rows && found[i] == rows[slots[i]]
  }

  lemma DecodeOne(run: SlotWrite, rows: map<nat, nat>, s: nat)
    requires Shaped(run, ROW_BYTES) && Agrees(run, ROW_BYTES, Records(rows)) && In(run, s)
    requires forall x :: x in rows ==> rows[x] < Limit(ROW_BYTES)
    ensures s in rows && Decode(Record(run, ROW_BYTES, s)) == rows[s]
  {
    assert s in Records(rows);
    EncodeDecode(rows[s], ROW_BYTES);
  }

  /** The slots of the first `n` runs have been found, and nothing behind them. */
  ghost predicate Found(slots: seq<nat>, found: seq<nat>, rows: map<nat, nat>, runs: seq<SlotWrite>, n: nat)
    requires n <= |runs|
  {
    && Decoded(slots, found, rows)
    && (slots != [] ==> n > 0 && slots[|slots| - 1] < runs[n - 1].start + runs[n - 1].count)
    && (forall m, s: nat :: 0 <= m < n && In(runs[m], s) ==> s in slots)
  }

  /** The paged writer's loops over runs recover slots and row numbers. */
  method Unpack(runs: seq<SlotWrite>, ghost rows: map<nat, nat>) returns (slots: seq<nat>, found: seq<nat>)
    requires forall s :: s in rows ==> rows[s] < Limit(ROW_BYTES)
    requires Canonical(runs, ROW_BYTES) && Writes(runs, ROW_BYTES, Records(rows))
    ensures Decoded(slots, found, rows)
    ensures forall s :: s in slots <==> s in rows
  {
    slots, found := [], [];
    for n := 0 to |runs|
      invariant Found(slots, found, rows, runs, n)
    {
      assert n > 0 ==> runs[n - 1].start + runs[n - 1].count < runs[n].start;
      ghost var done := slots;
      slots, found := UnpackRun(runs[n], rows, slots, found);
      forall m, s: nat | 0 <= m < n + 1 && In(runs[m], s) ensures s in slots {
        if m < n { assert s in done; }
      }
    }
    forall s | s in rows ensures s in slots {
      assert s in Records(rows) && Reached(runs, s);
    }
  }

  method UnpackRun(run: SlotWrite, ghost rows: map<nat, nat>, slots0: seq<nat>, found0: seq<nat>)
    returns (slots: seq<nat>, found: seq<nat>)
    requires forall s :: s in rows ==> rows[s] < Limit(ROW_BYTES)
    requires Shaped(run, ROW_BYTES) && Agrees(run, ROW_BYTES, Records(rows)) && Decoded(slots0, found0, rows)
    requires slots0 != [] ==> slots0[|slots0| - 1] < run.start
    ensures Decoded(slots, found, rows) && slots0 <= slots
    ensures slots != [] && slots[|slots| - 1] < run.start + run.count
    ensures forall s :: In(run, s) ==> s in slots
  {
    slots, found := slots0, found0;
    for offset := 0 to run.count
      invariant Decoded(slots, found, rows) && slots0 <= slots
      invariant slots != [] ==> slots[|slots| - 1] < run.start + offset
      invariant offset > 0 ==> slots != []
      invariant forall s :: run.start <= s < run.start + offset ==> s in slots
    {
      var s := run.start + offset;
      DecodeOne(run, rows, s);
      Scale(offset, run.count, ROW_BYTES);
      DecodedMore(slots, found, rows, s);
      slots := slots + [s];
      found := found + [Decode(run.payload[offset * ROW_BYTES..(offset + 1) * ROW_BYTES])];
    }
  }

  lemma DecodedMore(slots: seq<nat>, found: seq<nat>, rows: map<nat, nat>, s: nat)
    requires Decoded(slots, found, rows) && s in rows && (slots != [] ==> slots[|slots| - 1] < s)
    ensures Decoded(slots + [s], found + [rows[s]], rows)
  {
    var all := slots + [s];
    forall i, j | 0 <= i < j < |all| ensures all[i] < all[j] {
      if j == |slots| && i < |slots| - 1 { assert slots[i] < slots[|slots| - 1]; }
    }
  }
}
