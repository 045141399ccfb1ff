/** `TieredPageStore` with its fields and methods, each proved to be the machine's
    step. A page record is replaced in the catalog where the code assigns to its
    fields; file operations fail on the keys in `bad`. */
module PageStore {
  import opened Basics
  import opened Storage
  import opened StorageTheorems
  import opened Directories

  class TieredPageStore {
    const cpuBudget: nat
    const diskBudget: nat
    var pages: map<Key, Page>
    var cpuBytes: int
    var diskBytes: int
    var cpuReserved: int
    var diskReserved: int
    var tick: nat
    var epoch: nat
    var closing: bool
    var closed: bool
    var loads: map<Key, nat>
    var spills: map<Key, nat>
    var pinned: map<nat, Key>
    var issued: nat
    var disk: map<FileName, File>
    var pending: set<nat>
    var locked: bool
    ghost var ideal: map<Key, Bytes>

    /** Disk space is reserved, and a temporary file there, only while the mutex is held. */
    predicate Settled()
      reads this
    {
      diskReserved == 0 && pending == {}
    }

    ghost function State(): Store
      reads this
    {
      Store(cpuBudget, diskBudget, pages, cpuBytes, diskBytes, cpuReserved, tick, epoch, closing, closed, locked, loads,
            spills, pinned, issued,
            disk, ideal)
    }

    /** The directory as it is now. */
    ghost function Now(): Directory
      reads this
    {
      Directory(disk, pending, locked)
    }

    /** The lock is taken and the directory's files make up the catalog. */
    constructor Restore(cpuBudget: nat, diskBudget: nat, disk: map<FileName, File>, order: seq<Key>)
      requires OneFileEach(disk) && OpenStore(cpuBudget, diskBudget, disk, order).Some?
      ensures Settled() && Some(State()) == OpenStore(cpuBudget, diskBudget, disk, order)
    {
      this.cpuBudget, this.diskBudget, this.disk := cpuBudget, diskBudget, disk;
      pages, diskBytes, tick := Restored(disk, order), FileSizes(disk, order), |Restored(disk, order)|;
      cpuBytes, cpuReserved, diskReserved, epoch, issued := 0, 0, 0, 0, 0;
      closing, closed, loads, spills, pinned := false, false, map[], map[], map[];
      locked, pending := true, {};
      ideal := Payloads(disk);
    }

    /** `__init__`: the lock is taken, or the directory has a writer or a stale lock; if the
        catalog cannot be restored the lock is given back. */
    static method New(d: Directory, cpuBudget: nat, diskBudget: nat, order: seq<Key>)
      returns (r: Result<TieredPageStore>, after: Directory)
      ensures r.Ok? ==>
              && fresh(r.value) && r.value.Settled()
              && Ok(r.value.State()) == Opened(d, cpuBudget, diskBudget, order)
      ensures r.Ok? ==> after == r.value.Now() == d.(locked := true)
      ensures r.Err? ==> after == d && Opened(d, cpuBudget, diskBudget, order) == Err(r.error)
    {
      after := d;
      if d.locked { return Err(Busy), after; }
      if d.pending != {} || !Catalog(d.files) || Oversized(d.files, diskBudget) { return Err(Integrity), after; }
      if FileSizes(d.files, order) > diskBudget { return Err(Capacity), after; }
      var store := new TieredPageStore.Restore(cpuBudget, diskBudget, d.files, order);
      return Ok(store), d.(locked := true);
    }

    function IsOpen(): bool
      reads this
    {
      !closed && !closing
    }

    /** `_write_page`: a temporary file, complete, then an atomic rename; or no file at
        all. `trail` is what the directory holds on the way. */
    method WritePage(key: Key, page: Page, payload: Bytes, bad: set<Key>)
      returns (ok: bool, ghost trail: seq<Directory>)
      requires pending == {}
      modifies this`disk, this`pending
      ensures pending == {} && (ok <==> key !in bad)
      ensures disk == if ok then old(disk)[(key, page.generation) := FileFor(page, payload)] else old(disk)
      ensures |trail| == if ok then 2 else 1
      ensures exists temporary: nat :: trail[0] == Directory(old(disk), {temporary}, locked)
      ensures ok ==> trail[1] == Now()
    {
      var temporary: nat := *;
      pending := pending + {temporary};
      trail := [Now()];
      ok := key !in bad;
      if ok {
        disk, pending := disk[(key, page.generation) := FileFor(page, payload)], pending - {temporary};
        trail := trail + [Now()];
      } else {
        pending := pending - {temporary};
      }
    }

    /** The second half of `_spill_sync`; inside it the directory passes through the
        moments of a spill and no others. */
    method PublishPage(key: Key, encoded: nat, bad: set<Key>) returns (written: bool, ghost trail: seq<Directory>)
      requires key in pages && Settled() && SpillReady(State(), key) == true
               && encoded == pages[key].header + pages[key].size
      modifies this`pages, this`diskBytes, this`diskReserved, this`disk, this`pending
      ensures Settled() && (written <==> key !in bad)
      ensures State() == if written then Publish(old(State()), key, old(pages)[key].payload.value) else old(State())
      ensures forall d :: d in trail ==> SpillDuring(old(State()), key, d)
    {
      var page := pages[key];
      ghost var after := Publish(State(), key, page.payload.value);
      diskReserved := diskReserved + encoded;
      written, trail := WritePage(key, page, page.payload.value, bad);
      if written {
        pages := pages[key := page.(backed := true, diskSize := encoded)];
        diskBytes := diskBytes + encoded;
        assert pages == after.pages && disk == after.disk && trail[1] == Resting(after);
      }
      diskReserved := diskReserved - encoded;
    }

    /** `_spill_sync` */
    method SpillSync(key: Key, bad: set<Key>) returns (r: Result<()>)
      requires key in pages && Settled()
      modifies this`pages, this`diskBytes, this`diskReserved, this`disk, this`pending
      ensures Settled() && Outcome(State(), r) == Spill(old(State()), key, bad)
    {
      var page := pages[key];
      if page.backed { return if key !in bad && Names(disk, key, page) then Ok(()) else Err(Integrity); }
      if page.payload.None? || !Verified(page, page.payload.value) { return Err(Integrity); }
      var encoded := page.header + page.size;
      if diskBytes + diskReserved + encoded > diskBudget { return Err(Capacity); }
      var written, trail := PublishPage(key, encoded, bad);
      return if written then Ok(()) else Err(Device);
    }

    /** The resident copy goes, after its backing copy is there. */
    method DropResident(key: Key)
      requires key in pages
      modifies this`pages, this`cpuBytes
      ensures State() == Drop(old(State()), key)
    {
      cpuBytes := cpuBytes - pages[key].size;
      pages := pages[key := pages[key].(payload := None)];
    }

    /** One round of the eviction loop. */
    method EvictPage(key: Key, bad: set<Key>) returns (r: Result<()>)
      requires key in pages && Settled()
      modifies this`pages, this`cpuBytes, this`diskBytes, this`diskReserved, this`disk, this`pending
      ensures Settled() && Outcome(State(), r) == Round(old(State()), key, bad) && pages.Keys == old(pages).Keys
    {
      r := SpillSync(key, bad);
      if r.Ok? { DropResident(key); }
    }

    /** A round that is needed, seen from the whole loop. */
    method Advance(order: seq<Key>, i: nat, needed: nat, bad: set<Key>, ghost evicted: seq<Key>,
                   ghost whole: Outcome<seq<Key>>)
      returns (round: Result<()>)
      requires Settled() && i < |order| && !Fits(State(), needed)
      requires Remaining(State(), order, i, evicted, needed, bad, whole) == true
      modifies this`pages, this`cpuBytes, this`diskBytes, this`diskReserved, this`disk, this`pending
      ensures Settled()
      ensures round.Err? ==> whole == Outcome(State(), Err(round.error))
      ensures round.Ok? ==> Remaining(State(), order, i + 1, evicted + [order[i]], needed, bad, whole) == true
    {
      assert order[i] in order[i..];
      LoopRound(State(), order, i, evicted, needed, bad, whole);
      round := EvictPage(order[i], bad);
    }

    /** The loop of `_make_cpu_space`. */
    method EvictAlong(order: seq<Key>, needed: nat, bad: set<Key>) returns (r: Result<seq<Key>>)
      requires Settled() && forall k :: k in order ==> k in pages
      modifies this`pages, this`cpuBytes, this`diskBytes, this`diskReserved, this`disk, this`pending
      ensures Settled() && Outcome(State(), r) == EvictFrom(old(State()), order, needed, bad)
    {
      ghost var whole := EvictFrom(State(), order, needed, bad);
      var evicted, i := [], 0;
      LoopBegins(State(), order, needed, bad);
      while i < |order| && cpuBytes + cpuReserved + needed > cpuBudget
        invariant 0 <= i <= |order| && Settled()
        invariant Remaining(State(), order, i, evicted, needed, bad, whole) == true
      {
        var round := Advance(order, i, needed, bad, evicted, whole);
        if round.Err? { return Err(round.error); }
        evicted := evicted + [order[i]];
        i := i + 1;
      }
      LoopEnd(State(), order, i, evicted, needed, bad, whole);
      if cpuBytes + cpuReserved + needed > cpuBudget { return Err(Capacity); }
      return Ok(evicted);
    }

    /** `_make_cpu_space` */
    method MakeCpuSpace(needed: nat, exclude: Option<Key>, bad: set<Key>) returns (r: Result<seq<Key>>)
      requires Settled()
      modifies this`pages, this`cpuBytes, this`diskBytes, this`diskReserved, this`disk, this`pending
      ensures Settled() && Outcome(State(), r) == MakeSpace(old(State()), needed, exclude, bad)
    {
      r := EvictAlong(Ordered(pages, Eligible(pages, exclude)), needed, bad);
    }

    // ---- the calls -------------------------------------------------------------------------

    method TouchPage(key: Key)
      requires key in pages
      modifies this`pages, this`tick
      ensures State() == Touch(old(State()), key)
    {
      tick := tick + 1;
      pages := pages[key := pages[key].(lastAccess := tick)];
    }

    /** `put` of a key that is already there. */
    method PutExisting(key: Key, payload: Bytes, count: nat, bad: set<Key>) returns (r: Result<()>)
      requires key in pages && Settled()
      modifies this`pages, this`diskBytes, this`diskReserved, this`disk, this`pending, this`tick
      ensures Settled() && Outcome(State(), r) == PutAgain(old(State()), key, payload, count, bad)
    {
      var previous := pages[key];
      if !Verified(previous, payload) || previous.count != count { return Err(Invalid); }
      if previous.payload.Some? {
        if !Verified(previous, previous.payload.value) { return Err(Integrity); }
        if previous.payload.value != payload { return Err(Invalid); }
      } else {
        r := SpillSync(key, bad);
        if r.Err? { return; }
      }
      TouchPage(key);
      return Ok(());
    }

    /** Once there is space, the page is committed. */
    method Commit(key: Key, payload: Bytes, count: nat, header: nat) returns (r: Result<()>)
      modifies this`pages, this`cpuBytes, this`tick, this`issued, this`ideal
      ensures Outcome(State(), r) == PutInto(old(State()), key, payload, count, header)
    {
      tick := tick + 1;
      issued := issued + 1;
      if header > MAX_HEADER + 1 { return Err(Invalid); }
      pages := pages[key := Page(issued - 1, Sha256(payload), |payload|, count, header, tick, Some(payload), false, 0,
              0, 0)];
      cpuBytes := cpuBytes + |payload|;
      ideal := ideal[key := payload];
      return Ok(());
    }

    method Put(key: Key, payload: Bytes, count: nat, header: nat, bad: set<Key>) returns (r: Result<()>)
      requires Settled()
      modifies this
      ensures Settled() && Outcome(State(), r) == DoPut(old(State()), key, payload, count, header, bad)
    {
      if !IsOpen() { return Err(Busy); }
      if key in pages {
        r := PutExisting(key, payload, count, bad);
      } else {
        if |payload| > cpuBudget { return Err(Capacity); }
        var space := MakeCpuSpace(|payload|, None, bad);
        if space.Err? { return Err(space.error); }
        r := Commit(key, payload, count, header);
      }
    }

    method Evict(required: nat, bad: set<Key>) returns (r: Result<seq<Key>>)
      requires Settled()
      modifies this`pages, this`cpuBytes, this`diskBytes, this`diskReserved, this`disk, this`pending
      ensures Settled() && Outcome(State(), r) == DoEvict(old(State()), required, bad)
    {
      if !IsOpen() { return Err(Busy); }
      if required > 0 {
        r := MakeCpuSpace(required, None, bad);
        return;
      }
      var order := Ordered(pages, Eligible(pages, None));
      if order == [] { return Err(Capacity); }
      var round := EvictPage(order[0], bad);
      r := match round case Err(e) => Err(e) case Ok(_) => Ok([order[0]]);
    }

    /** The memory for a load is set aside. */
    method ReserveLoad(key: Key)
      requires key in pages
      modifies this`pages, this`cpuReserved, this`loads
      ensures State() == Reserve(old(State()), key)
    {
      cpuReserved := cpuReserved + pages[key].size;
      pages := pages[key := pages[key].(inflight := pages[key].inflight + 1)];
      loads := loads[key := epoch];
    }

    method SubmitLoad(key: Key, bad: set<Key>) returns (r: Result<Answer>)
      requires Settled()
      modifies this
      ensures Settled() && Outcome(State(), r) == DoSubmitLoad(old(State()), key, bad)
    {
      if !IsOpen() { return Err(Busy); }
      if key !in pages { return Err(Missing); }
      TouchPage(key);
      var page := pages[key];
      if page.payload.Some? {
        r := if Verified(page, page.payload.value) then Ok(Ready(page.payload.value)) else Err(Integrity);
        return;
      }
      if key in loads { return Ok(Waiting); }
      if page.size > cpuBudget { return Err(Capacity); }
      r := MakeSpaceForLoad(key, page.size, bad);
    }

    method MakeSpaceForLoad(key: Key, size: nat, bad: set<Key>) returns (r: Result<Answer>)
      requires Settled() && key in pages
      modifies this`pages, this`cpuBytes, this`diskBytes, this`diskReserved, this`disk, this`pending, this`cpuReserved,
          this`loads
      ensures Settled()
      ensures var space := MakeSpace(old(State()), size, Some(key), bad);
              Outcome(State(), r) == (match space.result
                                      case Err(e) => Outcome(space.store, Err(e))
                                      case Ok(_) => Outcome(Reserve(space.store, key), Ok(Waiting)))
    {
      var space := MakeCpuSpace(size, Some(key), bad);
      if space.Err? { return Err(space.error); }
      ReserveLoad(key);
      return Ok(Waiting);
    }

    /** `_read_disk` */
    method ReadPage(key: Key, bad: set<Key>) returns (r: Result<Bytes>)
      requires key in pages
      ensures r == ReadDisk(State(), key, bad)
    {
      var page := pages[key];
      if !page.backed || key in bad || !Names(disk, key, page) { return Err(Integrity); }
      var payload := disk[(key, page.generation)].payload;
      return if Verified(page, payload) then Ok(payload) else Err(Integrity);
    }

    /** The completion of a load. */
    method FinishLoad(key: Key, bad: set<Key>) returns (r: Result<Bytes>)
      requires key in loads && key in pages
      modifies this`pages, this`cpuBytes, this`cpuReserved, this`loads
      ensures Outcome(State(), r) == DoFinishLoad(old(State()), key, bad)
    {
      r := ReadPage(key, bad);
      var page := pages[key];
      if r.Ok? {
        if closed || loads[key] != epoch {
          r := Err(Stale);
        } else {
          page := page.(payload := Some(r.value));
          cpuBytes := cpuBytes + page.size;
        }
      }
      cpuReserved := cpuReserved - page.size;
      pages := pages[key := page.(inflight := page.inflight - 1)];
      loads := loads - {key};
    }

    method SubmitSpill(key: Key) returns (r: Result<()>)
      modifies this`pages, this`spills
      ensures Outcome(State(), r) == DoSubmitSpill(old(State()), key)
    {
      if !IsOpen() { return Err(Busy); }
      if key !in pages { return Err(Missing); }
      if key !in spills {
        pages := pages[key := pages[key].(inflight := pages[key].inflight + 1)];
        spills := spills[key := epoch];
      }
      return Ok(());
    }

    /** The completion of a spill up to its second block. */
    method WriteSpill(key: Key, bad: set<Key>) returns (r: Result<()>)
      requires key in spills && key in pages && Settled()
      modifies this`pages, this`diskBytes, this`diskReserved, this`disk, this`pending
      ensures Settled() && Outcome(State(), r) == DoWriteSpill(old(State()), key, bad)
    {
      if closed || spills[key] != epoch { return Err(Stale); }
      r := SpillSync(key, bad);
    }

    /** The completion of a spill. */
    method FinishSpill(key: Key, bad: set<Key>) returns (r: Result<()>)
      requires key in spills && key in pages && Settled()
      modifies this`pages, this`diskBytes, this`diskReserved, this`disk, this`pending, this`spills
      ensures Settled() && Outcome(State(), r) == DoFinishSpill(old(State()), key, bad)
    {
      r := WriteSpill(key, bad);
      EndSpill(key);
    }

    method EndSpill(key: Key)
      requires key in pages
      modifies this`pages, this`spills
      ensures State() == Unspill(old(State()), key)
    {
      pages := pages[key := pages[key].(inflight := pages[key].inflight - 1)];
      spills := spills - {key};
    }

    /** `pin` on entry */
    method Pin(id: nat, key: Key) returns (r: Result<()>)
      requires id !in pinned
      modifies this`pages, this`pinned
      ensures Outcome(State(), r) == DoPin(old(State()), id, key)
    {
      if !IsOpen() { return Err(Busy); }
      if key !in pages { return Err(Missing); }
      pages := pages[key := pages[key].(pins := pages[key].pins + 1)];
      pinned := pinned[id := key];
      return Ok(());
    }

    /** `pin` on exit */
    method Unpin(id: nat)
      requires id in pinned && pinned[id] in pages
      modifies this`pages, this`pinned
      ensures State() == DoUnpin(old(State()), id)
    {
      var key := pinned[id];
      pages := pages[key := pages[key].(pins := pages[key].pins - 1)];
      pinned := pinned - {id};
    }

    method Delete(key: Key, bad: set<Key>) returns (r: Result<()>)
      modifies this`pages, this`cpuBytes, this`diskBytes, this`disk, this`ideal
      ensures Outcome(State(), r) == DoDelete(old(State()), key, bad)
    {
      if !IsOpen() { return Err(Busy); }
      if key !in pages { return Err(Missing); }
      var page := pages[key];
      if page.pins != 0 || page.inflight != 0 { return Err(Capacity); }
      if page.backed && key in bad { return Err(Device); }
      Remove(key);
      return Ok(());
    }

    /** The file first, then the record of the page. */
    method Remove(key: Key)
      requires key in pages
      modifies this`pages, this`cpuBytes, this`diskBytes, this`disk, this`ideal
      ensures State() == Removed(old(State()), key)
    {
      var page := pages[key];
      if page.backed {
        disk := disk - {(key, page.generation)};
        diskBytes := diskBytes - page.diskSize;
      }
      if page.payload.Some? { cpuBytes := cpuBytes - page.size; }
      pages := pages - {key};
      ideal := ideal - {key};
    }

    /** `close` up to the drain of outstanding work. */
    method BeginClose(cancel: bool)
      modifies this`closing, this`closed, this`epoch
      ensures State() == Next(old(State()), CloseBegin(cancel))
    {
      closing := true;
      if cancel {
        closed := true;
        epoch := epoch + 1;
      }
    }

    /** `close` once nothing is outstanding: the lock goes. */
    method EndClose()
      requires closing && loads == map[] && spills == map[]
      modifies this`closed, this`epoch, this`locked
      ensures State() == Next(old(State()), CloseEnd) && !locked
    {
      if locked {
        closed := true;
        epoch := epoch + 1;
        locked := false;
      }
    }
  }

  /** What is left of the loop, after the keys in `evicted`, is still the whole outcome. */
  ghost predicate Remaining(s: Store, order: seq<Key>, i: nat, evicted: seq<Key>, needed: nat, bad: set<Key>,
                            whole: Outcome<seq<Key>>) {
    && i <= |order| && (forall k :: k in order[i..] ==> k in s.pages)
    && whole == Prepend(evicted, EvictFrom(s, order[i..], needed, bad))
  }

  lemma LoopBegins(s: Store, order: seq<Key>, needed: nat, bad: set<Key>)
    requires forall k :: k in order ==> k in s.pages
    ensures Remaining(s, order, 0, [], needed, bad, EvictFrom(s, order, needed, bad)) == true
  {
    assert order[0..] == order;
    PrependNone(EvictFrom(s, order, needed, bad));
  }

  /** What one round of the loop does to the whole outcome. */
  lemma LoopRound(s: Store, order: seq<Key>, i: nat, evicted: seq<Key>, needed: nat, bad: set<Key>,
                  whole: Outcome<seq<Key>>)
    requires i < |order| && order[i] in s.pages && !Fits(s, needed)
    requires Remaining(s, order, i, evicted, needed, bad, whole) == true
    ensures var round := Round(s, order[i], bad);
            match round.result
            case Err(e) => whole == Outcome(round.store, Err(e))
            case Ok(_) => Remaining(round.store, order, i + 1, evicted + [order[i]], needed, bad, whole) == true
  {
    assert order[i..][0] == order[i] && order[i..][1..] == order[i + 1..];
    var round := Round(s, order[i], bad);
    if round.result.Ok? { PrependTwice(evicted, order[i], EvictFrom(round.store, order[i + 1..], needed, bad)); }
  }

  /** How the loop ends. */
  lemma LoopEnd(s: Store, order: seq<Key>, i: nat, evicted: seq<Key>, needed: nat, bad: set<Key>,
                whole: Outcome<seq<Key>>)
    requires Remaining(s, order, i, evicted, needed, bad, whole) == true && (Fits(s, needed) || i == |order|)
    ensures whole == Outcome(s, if Fits(s, needed) then Ok(evicted) else Err(Capacity))
  {
    assert evicted + [] == evicted;
  }
}
