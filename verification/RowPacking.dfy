/** How `promote_selected` hands row numbers through the slot map's byte records:
    each selected row number becomes an eight-byte record for its destination
    slot, the records are coalesced into runs, and the writer reads them back. */
module RowPacking {
  import opened Basics
  import SlotWrites

  /** Row `found[k]` of the positions goes to `slots[k]`. */
  ghost predicate Routed(dest: map<nat, nat>, positions: seq<nat>, slots: seq<nat>, found: seq<nat>) {
    && |slots| == |found| && Distinct(slots)
    && (forall s :: s in slots <==> s in dest.Values)
    && (forall k :: 0 <= k < |slots| ==> RoutedAt(dest, positions, slots[k], found[k]))
  }

  ghost predicate RoutedAt(dest: map<nat, nat>, positions: seq<nat>, slot: nat, row: nat) {
    row < |positions| && positions[row] in dest && dest[positions[row]] == slot
  }

  /** The row numbers recorded per destination slot. */
  ghost predicate Numbered(dest: map<nat, nat>, positions: seq<nat>, n: nat, rows: map<nat, nat>) {
    && (forall s :: s in rows ==> rows[s] < n && RoutedAt(dest, positions, s, rows[s]))
    && (forall i :: 0 <= i < n <= |positions| && positions[i] in dest ==> dest[positions[i]] in rows)
  }

  lemma {:induction false} EightBytes(n: nat)
    requires n <= SlotWrites.Limit(SlotWrites.ROW_BYTES)
    ensures forall row: nat :: row < n ==> |SlotWrites.Encode(row, SlotWrites.ROW_BYTES)| == SlotWrites.ROW_BYTES
  {
    forall row: nat | row < n ensures |SlotWrites.Encode(row, SlotWrites.ROW_BYTES)| == SlotWrites.ROW_BYTES {
      SlotWrites.EncodeDecode(row, SlotWrites.ROW_BYTES);
    }
  }

  method RouteRows(dest: map<nat, nat>, positions: seq<nat>) returns (slots: seq<nat>, found: seq<nat>)
    requires Injective(dest) && Distinct(positions) && forall t :: t in dest <==> t in positions
    requires |positions| <= SlotWrites.Limit(SlotWrites.ROW_BYTES)
    ensures Routed(dest, positions, slots, found)
  {
    ghost var rows;
    var records: map<nat, SlotWrites.Bytes>;
    records, rows := NumberRows(dest, positions);
    RowsFit(dest, positions, rows);
    var runs := SlotWrites.Coalesce(records);
    slots, found := SlotWrites.Unpack(runs.value, rows);
    RoutedFrom(dest, positions, rows, slots, found);
  }

  method NumberRows(dest: map<nat, nat>, positions: seq<nat>)
    returns (records: map<nat, SlotWrites.Bytes>, ghost rows: map<nat, nat>)
    requires Distinct(positions) && forall t :: t in dest <==> t in positions
    ensures Numbered(dest, positions, |positions|, rows) && records == SlotWrites.Records(rows)
  {
    records, rows := map[], map[];
    for i := 0 to |positions|
      invariant Numbered(dest, positions, i, rows)
      invariant records == SlotWrites.Records(rows)
    {
      assert positions[i] in dest;
      NumberedMore(dest, positions, i, rows);
      RecordsMore(rows, dest[positions[i]], i);
      records := records[dest[positions[i]] := SlotWrites.Encode(i, SlotWrites.ROW_BYTES)];
      rows := rows[dest[positions[i]] := i];
    }
  }

  lemma RecordsMore(rows: map<nat, nat>, s: nat, row: nat)
    ensures SlotWrites.Records(rows)[s := SlotWrites.Encode(row, SlotWrites.ROW_BYTES)]
            == SlotWrites.Records(rows[s := row])
  {}

  lemma NumberedMore(dest: map<nat, nat>, positions: seq<nat>, i: nat, rows: map<nat, nat>)
    requires Numbered(dest, positions, i, rows) && i < |positions| && positions[i] in dest
    ensures Numbered(dest, positions, i + 1, rows[dest[positions[i]] := i])
  {}

  lemma RowsFit(dest: map<nat, nat>, positions: seq<nat>, rows: map<nat, nat>)
    requires Numbered(dest, positions, |positions|, rows) && |positions| <= SlotWrites.Limit(SlotWrites.ROW_BYTES)
    ensures SlotWrites.Uniform(SlotWrites.Records(rows), SlotWrites.ROW_BYTES)
    ensures forall s :: s in rows ==> rows[s] < SlotWrites.Limit(SlotWrites.ROW_BYTES)
  {
    EightBytes(|positions|);
  }

  lemma RoutedFrom(dest: map<nat, nat>, positions: seq<nat>, rows: map<nat, nat>, slots: seq<nat>, found: seq<nat>)
    requires Numbered(dest, positions, |positions|, rows) && SlotWrites.Decoded(slots, found, rows)
    requires (forall s :: s in slots <==> s in rows) && forall t :: t in dest <==> t in positions
    ensures Routed(dest, positions, slots, found)
  {
    forall s | s in dest.Values ensures s in rows {
      var t :| t in dest && dest[t] == s;
      var i :| 0 <= i < |positions| && positions[i] == t;
    }
  }
}
