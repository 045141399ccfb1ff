/** The page store as its callers see it: a map from keys to bytes that never
    change, whatever is evicted, spilled or loaded underneath. */
module PageSession {
  import opened Basics
  import opened Storage
  import opened StorageSafety
  import opened StorageTheorems
  import opened Directories
  import opened PageStore
  import opened PageOutcomes

  /** Between calls: what every run keeps holds of the object's state. */
  ghost predicate Ready(store: TieredPageStore)
    reads store
  {
    store.Settled() && Inv(store.State()) && Current(store.State())
  }

  /** The bytes under each key. */
  ghost function Stored(store: TieredPageStore): map<Key, Bytes>
    reads store
  {
    store.ideal
  }

  /** The pages in memory. */
  ghost predicate IsResident(store: TieredPageStore, key: Key)
    reads store
  {
    key in store.pages && store.pages[key].payload.Some?
  }

  /** `__init__`: the store begins with the files of the directory. */
  method New(d: Directory, cpuBudget: nat, diskBudget: nat, order: seq<Key>)
    returns (r: Result<TieredPageStore>, after: Directory)
    ensures r.Ok? ==> fresh(r.value) && Ready(r.value) && OneFileEach(d.files) && Stored(r.value) == Payloads(d.files)
    ensures r.Ok? <==> Opened(d, cpuBudget, diskBudget, order).Ok?
    ensures after == d.(locked := d.locked || r.Ok?)
  {
    r, after := TieredPageStore.New(d, cpuBudget, diskBudget, order);
    if r.Ok? {
      OpenedInv(cpuBudget, diskBudget, d.files, order);
      OpenedFields(cpuBudget, diskBudget, d.files, order);
    }
  }

  /** `put`: the bytes are there now; a key keeps its first bytes for good. */
  method Put(store: TieredPageStore, key: Key, payload: Bytes, count: nat, header: nat, bad: set<Key>)
    returns (r: Result<()>)
    requires Ready(store)
    modifies store
    ensures Ready(store)
    ensures Stored(store) == if r.Ok? then old(Stored(store))[key := payload] else old(Stored(store))
    ensures r.Ok? <==> old(CanPut(store.State(), key, payload, count, header, bad))
    ensures r.Ok? && key in old(Stored(store)) ==> old(Stored(store))[key] == payload
  {
    ghost var before := store.State();
    PutAnswers(before, key, payload, count, header, bad);
    CurrentStep(before, Step.Put(key, payload, count, header, bad));
    PutKeeps(before, key, payload, count, header, bad);
    SamePut(before, key, payload, count, header, bad);
    r := store.Put(key, payload, count, header, bad);
  }

  lemma SamePut(s: Store, k: Key, payload: Bytes, count: nat, header: nat, bad: set<Key>)
    requires Inv(s)
    ensures DoPut(s, k, payload, count, header, bad).result.Ok? && k in s.ideal ==> s.ideal[k] == payload
  {
    Take(s, Contents);
    if k in s.pages { PutAgainKeeps(s, k, payload, count, bad); }
  }

  /** `read`: the load is submitted and its result awaited. */
  method Read(store: TieredPageStore, key: Key, bad: set<Key>) returns (r: Result<Bytes>)
    requires Ready(store)
    modifies store
    ensures Ready(store) && Stored(store) == old(Stored(store)) && store.pinned == old(store.pinned)
    ensures r.Ok? <==> old(CanRead(store.State(), key, bad))
    ensures r.Ok? ==> key in Stored(store) && r.value == Stored(store)[key] && IsResident(store, key)
  {
    ghost var before := store.State();
    SubmitLoadKeeps(before, key, bad);
    LoadBegins(before, key, bad);
    AwaitedAnswers(before, key, bad);
    SubmitCurrent(before, key, bad);
    var answer := store.SubmitLoad(key, bad);
    match answer
    case Err(e) => r := Err(e);
    case Ok(Ready(payload)) => r := Ok(payload);
    case Ok(Waiting) =>
      FinishLoadKeeps(store.State(), key, bad);
      EndedCurrent(store.State(), key, bad);
      r := store.FinishLoad(key, bad);
  }

  lemma LoadBegins(s: Store, k: Key, bad: set<Key>)
    requires Inv(s)
    ensures var o := DoSubmitLoad(s, k, bad);
            && o.store.pinned == s.pinned
            && (o.result == Ok(Waiting) ==> k in o.store.loads && k in o.store.pages)
            && (o.result.Ok? && o.result.value.Ready? ==> k in o.store.pages && o.store.pages[k].payload.Some?)
  {
    if Open(s) && k in s.pages {
      TouchKeeps(s, k);
      SpaceMade(Touch(s, k), s.pages[k].size, Some(k), bad);
    }
  }

  /** `pin` on entry: the pin, then the read; if the read fails the pin is taken back. */
  method Pin(store: TieredPageStore, id: nat, key: Key, bad: set<Key>) returns (r: Result<Bytes>)
    requires Ready(store) && id !in store.pinned
    modifies store
    ensures Ready(store) && Stored(store) == old(Stored(store))
    ensures store.pinned == if r.Ok? then old(store.pinned)[id := key] else old(store.pinned)
    ensures r.Ok? <==> old(DoPin(store.State(), id, key).result.Ok?)
                       && old(CanRead(DoPin(store.State(), id, key).store, key, bad))
    ensures r.Ok? ==> key in Stored(store) && r.value == Stored(store)[key] && IsResident(store, key)
  {
    PinKeeps(store.State(), id, key);
    UnusedCurrent(store.State(), PinEnter(id, key));
    var pinned := store.Pin(id, key);
    if pinned.Err? { return Err(pinned.error); }
    r := Read(store, key, bad);
    if r.Err? {
      AboutPins(store.State(), id);
      UnpinKeeps(store.State(), id);
      UnusedCurrent(store.State(), PinExit(id));
      store.Unpin(id);
      assert store.pinned == old(store.pinned);
    }
  }

  lemma AboutPins(s: Store, id: nat)
    requires Inv(s) && id in s.pinned
    ensures s.pinned[id] in s.pages
  {
    Take(s, Counters);
  }

  /** `pin` on exit */
  method Unpin(store: TieredPageStore, id: nat)
    requires Ready(store) && id in store.pinned
    modifies store
    ensures Ready(store) && Stored(store) == old(Stored(store)) && store.pinned == old(store.pinned) - {id}
  {
    AboutPins(store.State(), id);
    UnpinKeeps(store.State(), id);
    UnusedCurrent(store.State(), PinExit(id));
    store.Unpin(id);
  }

  /** `delete` */
  method Delete(store: TieredPageStore, key: Key, bad: set<Key>) returns (r: Result<()>)
    requires Ready(store)
    modifies store
    ensures Ready(store)
    ensures Stored(store) == if r.Ok? then old(Stored(store)) - {key} else old(Stored(store))
    ensures r.Ok? <==> old(CanDelete(store.State(), key, bad))
    ensures r.Ok? ==> key in old(Stored(store)) && forall id :: id in store.pinned ==> store.pinned[id] != key
  {
    ghost var before := store.State();
    DeleteAnswers(before, key, bad);
    UnusedCurrent(before, Step.Delete(key, bad));
    DeleteKeeps(before, key, bad);
    DeletesUnpinned(before, key, bad);
    r := store.Delete(key, bad);
  }

  lemma DeletesUnpinned(s: Store, k: Key, bad: set<Key>)
    requires Inv(s)
    ensures DoDelete(s, k, bad).result.Ok? ==> k in s.ideal && forall id :: id in s.pinned ==> s.pinned[id] != k
  {
    if DoDelete(s, k, bad).result.Ok? {
      AboutPage(s, k);
      assert Pinners(s.pinned, k) == {};
      forall id | id in s.pinned ensures s.pinned[id] != k { assert id !in Pinners(s.pinned, k); }
    }
  }

  /** `evict`: memory is freed and no byte is lost. */
  method Evict(store: TieredPageStore, required: nat, bad: set<Key>) returns (r: Result<seq<Key>>)
    requires Ready(store)
    modifies store
    ensures Ready(store) && Stored(store) == old(Stored(store))
    ensures r.Ok? <==> old(CanEvict(store.State(), required, bad))
    ensures r.Ok? && required > 0 ==> store.cpuBytes + store.cpuReserved + required <= store.cpuBudget
  {
    ghost var before := store.State();
    EvictAnswers(before, required, bad);
    CurrentStep(before, Step.Evict(required, bad));
    EvictKeeps(before, required, bad);
    SpaceMade(before, required, None, bad);
    r := store.Evict(required, bad);
  }

  ghost predicate IsOpenFor(store: TieredPageStore, key: Key)
    reads store
  {
    !store.closed && !store.closing && key in store.pages
  }

  lemma SubmittedSpill(s: Store, k: Key, bad: set<Key>)
    requires Inv(s) && Current(s) && DoSubmitSpill(s, k).result.Ok?
    ensures k in s.pages
    ensures var t := DoSubmitSpill(s, k).store;
            && k in t.pages && k in t.spills && t.spills[k] == t.epoch && !t.closed
            && (CanWriteOut(t, k, bad) <==> CanWriteOut(s, k, bad))
  {}

  lemma FinishedCurrent(s: Store, k: Key, bad: set<Key>)
    requires Inv(s) && Current(s) && k in s.spills && k in s.pages
    ensures Current(DoFinishSpill(s, k, bad).store) == true
  {
    WrittenCurrent(s, k, bad);
    UnspilledCurrent(DoWriteSpill(s, k, bad).store, k);
  }

  lemma UnspilledCurrent(s: Store, k: Key)
    requires Current(s) && k in s.pages
    ensures Current(Unspill(s, k)) == true
  {}

  /** `submit_spill` and its completion: success means that the bytes survive. */
  method Spill(store: TieredPageStore, key: Key, bad: set<Key>) returns (r: Result<()>)
    requires Ready(store)
    modifies store
    ensures Ready(store) && Stored(store) == old(Stored(store))
    ensures r.Ok? <==> old(IsOpenFor(store, key)) && old(CanWriteOut(store.State(), key, bad))
    ensures r.Ok? ==> key in Published(store.State())
  {
    ghost var before := store.State();
    SpillSubmitAnswers(before, key, bad);
    SpillingCurrent(before, Step.SubmitSpill(key));
    SubmitSpillKeeps(store.State(), key);
    r := store.SubmitSpill(key);
    if r.Ok? {
      SubmittedSpill(before, key, bad);
      SpillSubmitAnswers(store.State(), key, bad);
      FinishedCurrent(store.State(), key, bad);
      FinishSpillKeeps(store.State(), key, bad);
      r := store.FinishSpill(key, bad);
      Take(store.State(), Contents);
    }
  }
}
