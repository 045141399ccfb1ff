/** The promises of the page store, for every run of its steps, and across a
    crash and the reopening of its directory. */
module StorageTheorems {
  import opened Basics
  import opened Storage
  import opened StorageSafety

  // ---- opening a directory -------------------------------------------------------------

  function FileSizes(disk: map<FileName, File>, order: seq<Key>): int
    requires OneFileEach(disk)
  {
    Sum(OnDisk(Restored(disk, order)))
  }

  /** `__init__`: the files the directory holds, unless they exceed the disk budget. */
  function OpenStore(cpuBudget: nat, diskBudget: nat, disk: map<FileName, File>, order: seq<Key>): Option<Store>
    requires OneFileEach(disk)
  {
    var pages := Restored(disk, order);
    if FileSizes(disk, order) > diskBudget then None
    else Some(Store(cpuBudget, diskBudget, pages, 0, FileSizes(disk, order), 0, |pages|, 0, false, false, true, map[],
            map[], map[], 0, disk,
                    Payloads(disk)))
  }

  lemma FileOfName(disk: map<FileName, File>, f: FileName)
    requires f in disk && OneFileEach(disk)
    ensures f.0 in NamesIn(disk) && FileOf(disk, f.0) == f
  {}

  lemma ZeroSum(m: map<nat, int>)
    requires forall k :: k in m ==> m[k] == 0
    ensures Sum(m) == 0
    decreases |m|
  {
    if m != map[] {
      var k := Least(m.Keys);
      assert |(m - {k}).Keys| < |m.Keys| by { assert (m - {k}).Keys == m.Keys - {k}; }
      ZeroSum(m - {k});
    }
  }

  function Payloads(disk: map<FileName, File>): map<Key, Bytes>
    requires OneFileEach(disk)
  {
    map k | k in NamesIn(disk) :: disk[FileOf(disk, k)].payload
  }

  lemma RestoredContents(disk: map<FileName, File>, order: seq<Key>)
    requires Catalog(disk)
    ensures AllCarry(disk, Restored(disk, order), Payloads(disk)) == true
  {
    var pages, ideal := Restored(disk, order), Payloads(disk);
    forall k | k in pages ensures Carries(disk, k, pages[k], ideal[k]) { assert FileOf(disk, k) in disk; }
  }

  lemma RestoredFiles(disk: map<FileName, File>, order: seq<Key>)
    requires Catalog(disk)
    ensures AllListed(disk, Restored(disk, order)) == true
  {
    var pages := Restored(disk, order);
    forall f | f in disk
      ensures f.0 in pages && pages[f.0].backed && pages[f.0].generation == f.1
    {
      FileOfName(disk, f);
    }
  }

  lemma RestoredCounters(disk: map<FileName, File>, order: seq<Key>)
    requires Catalog(disk)
    ensures AllCount(Restored(disk, order), {}, {}, map[]) == true
  {
    var pages := Restored(disk, order);
    forall k | k in pages ensures Counts(pages[k], k, {}, {}, map[]) { assert Pinners(map[], k) == {}; }
  }

  lemma RestoredSums(disk: map<FileName, File>, order: seq<Key>)
    requires Catalog(disk)
    ensures Sum(Resident(Restored(disk, order))) == 0 && Sum(Loading(Restored(disk, order), {})) == 0
  {
    ZeroSum(Resident(Restored(disk, order)));
    ZeroSum(Loading(Restored(disk, order), {}));
  }

  lemma OpenedFields(cpuBudget: nat, diskBudget: nat, disk: map<FileName, File>, order: seq<Key>)
    requires Catalog(disk) && OpenStore(cpuBudget, diskBudget, disk, order).Some?
    ensures var s := OpenStore(cpuBudget, diskBudget, disk, order).value;
            && s.pages == Restored(disk, order) && s.ideal == Payloads(disk) && s.disk == disk
                  && s.ideal.Keys == NamesIn(disk)
            && s.loads.Keys == {} && s.spills.Keys == {} && s.pinned == map[]
            && s.cpuBytes == s.cpuReserved == 0 && s.diskBytes == Sum(OnDisk(s.pages)) <= s.diskBudget
  {}

  lemma OpenedInv(cpuBudget: nat, diskBudget: nat, disk: map<FileName, File>, order: seq<Key>)
    requires Catalog(disk) && OpenStore(cpuBudget, diskBudget, disk, order).Some?
    ensures Inv(OpenStore(cpuBudget, diskBudget, disk, order).value)
  {
    var s := OpenStore(cpuBudget, diskBudget, disk, order).value;
    OpenedFields(cpuBudget, diskBudget, disk, order);
    forall c ensures Holds(s, c) == true {
      match c
      case Contents => RestoredContents(disk, order);
      case Files => RestoredFiles(disk, order);
      case Counters => RestoredCounters(disk, order);
      case Sums => RestoredSums(disk, order);
      case Budgets =>
    }
  }

  /** The states any store can reach, through any steps and any file failures. */
  ghost predicate Reached(s: Store) {
    exists cpuBudget: nat, diskBudget: nat, disk: map<FileName, File>, order: seq<Key>, es: seq<Step> ::
      Catalog(disk) && OpenStore(cpuBudget, diskBudget, disk, order).Some?
          && s == Replay(OpenStore(cpuBudget, diskBudget, disk, order).value, es)
  }

  lemma {:induction false} ReplayKeeps(s: Store, es: seq<Step>)
    requires Inv(s)
    ensures Inv(Replay(s, es))
    decreases |es|
  {
    if es == [] {
    } else {
      StepKeeps(s, es[0]);
      ReplayKeeps(Next(s, es[0]), es[1..]);
    }
  }

  lemma ReachedInv(s: Store)
    requires Reached(s)
    ensures Inv(s)
  {
    var cpuBudget: nat, diskBudget: nat, disk: map<FileName, File>, order: seq<Key>, es: seq<Step> :|
      Catalog(disk) && OpenStore(cpuBudget, diskBudget, disk, order).Some?
          && s == Replay(OpenStore(cpuBudget, diskBudget, disk, order).value, es);
    OpenedInv(cpuBudget, diskBudget, disk, order);
    ReplayKeeps(OpenStore(cpuBudget, diskBudget, disk, order).value, es);
  }

  // ---- the immutable map ---------------------------------------------------------------------

  /** Only a first put and a delete change the map, each exactly at its key; every
      other step, and every failure, leaves all bytes as they are. */
  lemma OnlyPutsAndDeletes(s: Store, e: Step, k: Key)
    requires Reached(s)
    ensures var t := Next(s, e);
            && (k in t.ideal && (k !in s.ideal || t.ideal[k] != s.ideal[k]) ==>
                  e.Put? && e.key == k && k !in s.ideal && t.ideal[k] == e.payload)
            && (k in s.ideal && k !in t.ideal ==>
                  e.Delete? && e.key == k && s.pages[k].pins == 0
                  && s.pages[k].inflight == 0)
  {
    ReachedInv(s);
    StepKeeps(s, e);
    Take(s, Contents);
    if e.Put? && e.key in s.pages { PutAgainKeeps(s, e.key, e.payload, e.count, e.bad); }
  }

  /** A read that succeeds, at once or when its load completes, returns the bytes
      first put under the key since it was last deleted. */
  lemma ReadsReturnFirstPut(s: Store, k: Key, bad: set<Key>)
    requires Reached(s)
    ensures var o := DoSubmitLoad(s, k, bad);
            o.result.Ok? && o.result.value.Ready? ==> k in s.ideal && o.result.value.payload == s.ideal[k]
    ensures k in s.loads ==> k in s.pages
    ensures k in s.loads ==>
            (var o := DoFinishLoad(s, k, bad); o.result.Ok? ==> k in s.ideal && o.result.value == s.ideal[k])
  {
    ReachedInv(s);
    SubmitLoadKeeps(s, k, bad);
    Take(s, Counters);
    if k in s.loads { FinishLoadKeeps(s, k, bad); }
  }

  /** The catalog is exactly the map, every page is resident or has a published
      file with its bytes, and the counters are exact. */
  lemma CatalogIsMap(s: Store, k: Key)
    requires Reached(s)
    ensures k in s.pages <==> k in s.ideal
    ensures k in s.pages ==>
              var page := s.pages[k];
              && (page.payload == Some(s.ideal[k])
                  || (page.payload.None? && page.backed && (k, page.generation) in s.disk
                          && s.disk[(k, page.generation)].payload == s.ideal[k]))
              && page.inflight == Bit(k in s.loads) + Bit(k in s.spills) && page.pins == |Pinners(s.pinned, k)|
  {
    ReachedInv(s);
    Take(s, Contents);
    if k in s.pages { AboutPage(s, k); }
  }

  /** At every release of the mutex the byte counters are the sums of the sizes,
      and both budgets hold. */
  lemma BudgetsAlwaysHold(s: Store)
    requires Reached(s)
    ensures s.cpuBytes == Sum(Resident(s.pages)) && s.cpuReserved == Sum(Loading(s.pages, s.loads.Keys))
    ensures s.diskBytes == Sum(OnDisk(s.pages))
    ensures 0 <= s.cpuBytes && 0 <= s.cpuReserved && s.cpuBytes + s.cpuReserved <= s.cpuBudget
    ensures 0 <= s.diskBytes <= s.diskBudget
  {
    ReachedInv(s);
    assert Summed(s) by { Take(s, Sums); }
    assert WithinBudgets(s) by { Take(s, Budgets); }
    WeightsPositive(s.pages, s.loads.Keys);
  }

  lemma WeightsPositive(pages: map<Key, Page>, loads: set<Key>)
    ensures Sum(Resident(pages)) >= 0 && Sum(Loading(pages, loads)) >= 0 && Sum(OnDisk(pages)) >= 0
  {
    SumPositive(Resident(pages));
    SumPositive(Loading(pages, loads));
    SumPositive(OnDisk(pages));
  }

  /** From `s` to `t` exactly the pages in `keys` have lost their resident copies, each
      with a published file; `keys` is the shortest sufficient prefix of the order. */
  ghost predicate EvictsShortest(s: Store, t: Store, needed: nat, exclude: Option<Key>, keys: seq<Key>) {
    && Shortest(s, needed, Candidates(s, exclude), keys) && Fits(t, needed)
    && Evicted(t, keys) && Kept(s, t, keys)
  }

  lemma MadeSpace(s: Store, needed: nat, exclude: Option<Key>, bad: set<Key>)
    requires Inv(s)
    ensures var o := MakeSpace(s, needed, exclude, bad);
            && Inv(o.store) && (o.result.Ok? ==> EvictsShortest(s, o.store, needed, exclude, o.result.value) == true)
  {
    CandidatesMayGo(s, exclude);
    EvictEffect(s, Candidates(s, exclude), needed, bad);
    EvictsPrefix(s, Candidates(s, exclude), needed, bad);
  }

  /** `_make_cpu_space`, with any page excluded: the candidates are the pages neither
      pinned nor in flight, clean first, then by highest count, then least recently
      used. Success evicts the shortest sufficient prefix and nothing else; failure has
      evicted some prefix and nothing else, because space or a spill ran out there. */
  lemma EvictionIsShortest(s: Store, needed: nat, exclude: Option<Key>, bad: set<Key>)
    requires Reached(s)
    ensures var order := Candidates(s, exclude);
            && (forall k :: k in order <==>
                  k in s.pages && s.pages[k].payload.Some? && s.pages[k].pins == 0
                  && s.pages[k].inflight == 0 && exclude != Some(k))
            && (forall i, j :: 0 <= i < j < |order| ==>
                    Before(s.pages[order[i]], order[i], s.pages[order[j]], order[j]))
    ensures var o := MakeSpace(s, needed, exclude, bad);
            o.result.Ok? ==> EvictsShortest(s, o.store, needed, exclude, o.result.value)
    ensures var o, order := MakeSpace(s, needed, exclude, bad), Candidates(s, exclude);
            o.result.Err? ==>
              var n := RoundsDone(s, order, needed, bad);
              && Kept(s, o.store, order[..n]) && Evicted(o.store, order[..n]) && !Fits(o.store, needed)
              && (n < |order| ==> Spill(o.store, order[n], bad).result.Err?)
  {
    ReachedInv(s);
    MadeSpace(s, needed, exclude, bad);
    CandidatesMayGo(s, exclude);
    EvictsPrefix(s, Candidates(s, exclude), needed, bad);
  }

  /** An admitted page has cost exactly the shortest sufficient prefix. */
  lemma PutEvictsShortest(s: Store, k: Key, payload: Bytes, count: nat, header: nat, bad: set<Key>)
    requires Reached(s) && k !in s.pages && DoPut(s, k, payload, count, header, bad).result.Ok?
    ensures var keys, t := MakeSpace(s, |payload|, None, bad).result.value,
            DoPut(s, k, payload, count, header, bad).store;
            && Shortest(s, |payload|, Candidates(s, None), keys) && Evicted(t, keys) && k !in keys
            && t.pages.Keys == s.pages.Keys + {k} && t.pages[k].payload == Some(payload)
            && (forall j :: j in s.pages && j !in keys ==> t.pages[j] == s.pages[j])
  {
    ReachedInv(s);
    MadeSpace(s, |payload|, None, bad);
    CandidatesMayGo(s, None);
    var space, o := MakeSpace(s, |payload|, None, bad), DoPut(s, k, payload, count, header, bad);
    PutIsSpaceThenPage(s, k, payload, count, header, bad);
    PageAfterSpace(s, space.store, o.store, k, payload, space.result.value);
  }

  lemma PutIsSpaceThenPage(s: Store, k: Key, payload: Bytes, count: nat, header: nat, bad: set<Key>)
    requires k !in s.pages && DoPut(s, k, payload, count, header, bad).result.Ok?
    ensures var space := MakeSpace(s, |payload|, None, bad);
            space.result.Ok?
                && AddsPage(space.store, DoPut(s, k, payload, count, header, bad).store, k, payload) == true
  {}

  ghost predicate AddsPage(u: Store, t: Store, k: Key, payload: Bytes) {
    k in t.pages && t.pages == u.pages[k := t.pages[k]] && t.pages[k].payload == Some(payload)
  }

  lemma PageAfterSpace(s: Store, u: Store, t: Store, k: Key, payload: Bytes, keys: seq<Key>)
    requires k !in s.pages && Kept(s, u, keys) && Evicted(u, keys) && AddsPage(u, t, k, payload)
    ensures Evicted(t, keys) == true && k !in keys && t.pages.Keys == s.pages.Keys + {k}
    ensures forall j :: j in s.pages && j !in keys ==> t.pages[j] == s.pages[j]
  {}

  /** So has a load that reserves its space; the page to load is never evicted for it. */
  lemma LoadEvictsShortest(s: Store, k: Key, bad: set<Key>)
    requires Reached(s) && k !in s.loads && DoSubmitLoad(s, k, bad).result == Ok(Waiting)
    ensures k in s.pages && s.pages[k].payload.None?
    ensures var keys, t := MakeSpace(Touch(s, k), s.pages[k].size, Some(k), bad).result.value,
            DoSubmitLoad(s, k, bad).store;
            && Shortest(Touch(s, k), s.pages[k].size, Candidates(Touch(s, k), Some(k)), keys) && Evicted(t, keys)
                  && k !in keys
            && t.pages.Keys == s.pages.Keys && t.cpuReserved == s.cpuReserved + s.pages[k].size
            && (forall j :: j in s.pages && j !in keys && j != k ==> t.pages[j] == s.pages[j])
  {
    ReachedInv(s);
    TouchKeeps(s, k);
    var t, space := Touch(s, k), MakeSpace(Touch(s, k), s.pages[k].size, Some(k), bad);
    MadeSpace(t, s.pages[k].size, Some(k), bad);
    CandidatesMayGo(t, Some(k));
    LoadIsSpaceThenReserve(s, k, bad);
    ReservedAfterSpace(s, t, space.store, k, space.result.value);
  }

  lemma LoadIsSpaceThenReserve(s: Store, k: Key, bad: set<Key>)
    requires k !in s.loads && DoSubmitLoad(s, k, bad).result == Ok(Waiting)
    ensures k in s.pages && s.pages[k].payload.None?
    ensures var space := MakeSpace(Touch(s, k), s.pages[k].size, Some(k), bad);
            space.result.Ok? && DoSubmitLoad(s, k, bad).store == Reserve(space.store, k)
  {}

  lemma ReservedAfterSpace(s: Store, t: Store, u: Store, k: Key, keys: seq<Key>)
    requires k in s.pages && t == Touch(s, k) && Kept(t, u, keys) && Evicted(u, keys) && k !in keys
    ensures Evicted(Reserve(u, k), keys) == true && Reserve(u, k).pages.Keys == s.pages.Keys
    ensures Reserve(u, k).cpuReserved == s.cpuReserved + s.pages[k].size
    ensures forall j :: j in s.pages && j !in keys && j != k ==> Reserve(u, k).pages[j] == s.pages[j]
  {}

  /** `evict(0)` drops the first candidate and nothing else. */
  lemma EvictZeroDropsFirst(s: Store, bad: set<Key>)
    requires Reached(s) && DoEvict(s, 0, bad).result.Ok?
    ensures Candidates(s, None) != [] && DoEvict(s, 0, bad).result.value == [Candidates(s, None)[0]]
    ensures Kept(s, DoEvict(s, 0, bad).store, [Candidates(s, None)[0]])
            && Evicted(DoEvict(s, 0, bad).store, [Candidates(s, None)[0]])
  {
    ReachedInv(s);
    CandidatesMayGo(s, None);
    var order := Candidates(s, None);
    SpillEffect(s, order[0], bad);
    FirstResident(s, Spill(s, order[0], bad).store, order);
    EvictOne(s, Spill(s, order[0], bad).store, order);
  }

  /** Deleting an unused page that was never written out cannot fail. */
  lemma UnbackedDeleteSucceeds(s: Store, k: Key, bad: set<Key>)
    requires Open(s) && k in s.pages && !s.pages[k].backed && s.pages[k].pins == 0 && s.pages[k].inflight == 0
    ensures DoDelete(s, k, bad).result.Ok? && DoDelete(s, k, bad).store.disk == s.disk
  {}

  /** A load that ends after the store moved on is rejected, leaves nothing resident
      and gives its reservation back. */
  lemma LateLoadsAreRejected(s: Store, k: Key, bad: set<Key>)
    requires Reached(s) && k in s.loads && k in s.pages && (s.closed || s.loads[k] != s.epoch)
    ensures var o := DoFinishLoad(s, k, bad);
            && o.result.Err? && k in o.store.pages && o.store.pages[k].payload.None? && o.store.cpuBytes == s.cpuBytes
            && o.store.cpuReserved == s.cpuReserved - s.pages[k].size && k !in o.store.loads
  {
    ReachedInv(s);
    AboutPage(s, k);
  }

  // ---- pinned pages ------------------------------------------------------------------------

  /** A pinned resident page. */
  ghost predicate Held(s: Store, id: nat, k: Key, payload: Bytes) {
    id in s.pinned && s.pinned[id] == k && k in s.pages && s.pages[k].payload == Some(payload)
  }

  lemma PinnedIsUsed(s: Store, id: nat, k: Key)
    requires Inv(s) && id in s.pinned && s.pinned[id] == k
    ensures k in s.pages && s.pages[k].pins > 0
  {
    Take(s, Counters);
    assert Counts(s.pages[k], k, s.loads.Keys, s.spills.Keys, s.pinned);
    assert id in Pinners(s.pinned, k);
  }

  lemma SpaceHolds(s: Store, id: nat, k: Key, payload: Bytes, needed: nat, exclude: Option<Key>, bad: set<Key>)
    requires Inv(s) && Held(s, id, k, payload)
    ensures Held(MakeSpace(s, needed, exclude, bad).store, id, k, payload) == true
  {
    PinnedIsUsed(s, id, k);
    SpaceMade(s, needed, exclude, bad);
  }

  lemma SpillHolds(s: Store, id: nat, k: Key, payload: Bytes, j: Key, bad: set<Key>)
    requires Inv(s) && Held(s, id, k, payload) && j in s.pages
    ensures Held(Spill(s, j, bad).store, id, k, payload) == true
  {
    SpillEffect(s, j, bad);
  }

  lemma TouchHolds(s: Store, id: nat, k: Key, payload: Bytes, j: Key)
    requires Held(s, id, k, payload) && j in s.pages
    ensures Held(Touch(s, j), id, k, payload) == true
  {}

  lemma AddedHolds(s: Store, id: nat, k: Key, payload: Bytes, j: Key, p: Bytes, count: nat, header: nat)
    requires Held(s, id, k, payload) && j != k
    ensures Held(PutInto(s, j, p, count, header).store, id, k, payload) == true
  {}

  lemma PutAgainHolds(s: Store, id: nat, k: Key, payload: Bytes, j: Key, p: Bytes, count: nat, bad: set<Key>)
    requires Inv(s) && Held(s, id, k, payload) && j in s.pages
    ensures Held(PutAgain(s, j, p, count, bad).store, id, k, payload) == true
  {
    SpillHolds(s, id, k, payload, j, bad);
    TouchHolds(s, id, k, payload, j);
    TouchHolds(Spill(s, j, bad).store, id, k, payload, j);
    AgainEnds(s, j, p, count, bad);
  }

  lemma PutNewHolds(s: Store, id: nat, k: Key, payload: Bytes, j: Key, p: Bytes, count: nat, header: nat, bad: set<Key>)
    requires Inv(s) && Held(s, id, k, payload) && j !in s.pages
    ensures Held(PutNew(s, j, p, count, header, bad).store, id, k, payload) == true
  {
    SpaceHolds(s, id, k, payload, |p|, None, bad);
    AddedHolds(MakeSpace(s, |p|, None, bad).store, id, k, payload, j, p, count, header);
  }

  lemma PutHolds(s: Store, id: nat, k: Key, payload: Bytes, j: Key, p: Bytes, count: nat, header: nat, bad: set<Key>)
    requires Inv(s) && Held(s, id, k, payload)
    ensures Held(DoPut(s, j, p, count, header, bad).store, id, k, payload) == true
  {
    if j in s.pages { PutAgainHolds(s, id, k, payload, j, p, count, bad); }
    else { PutNewHolds(s, id, k, payload, j, p, count, header, bad); }
  }

  lemma DroppedHolds(s: Store, id: nat, k: Key, payload: Bytes, j: Key)
    requires Held(s, id, k, payload) && j in s.pages && j != k
    ensures Held(Drop(s, j), id, k, payload) == true
  {}

  lemma EvictHolds(s: Store, id: nat, k: Key, payload: Bytes, required: nat, bad: set<Key>)
    requires Inv(s) && Held(s, id, k, payload)
    ensures Held(DoEvict(s, required, bad).store, id, k, payload) == true
  {
    PinnedIsUsed(s, id, k);
    SpaceHolds(s, id, k, payload, required, None, bad);
    if Candidates(s, None) != [] {
      var j := Candidates(s, None)[0];
      SpillHolds(s, id, k, payload, j, bad);
      DroppedHolds(Spill(s, j, bad).store, id, k, payload, j);
      EvictEnds(s, required, bad, j);
    }
  }

  lemma ReservedHolds(s: Store, id: nat, k: Key, payload: Bytes, j: Key)
    requires Held(s, id, k, payload) && j in s.pages
    ensures Held(Reserve(s, j), id, k, payload) == true
  {}

  lemma SubmitLoadHolds(s: Store, id: nat, k: Key, payload: Bytes, j: Key, bad: set<Key>)
    requires Inv(s) && Held(s, id, k, payload)
    ensures Held(DoSubmitLoad(s, j, bad).store, id, k, payload) == true
  {
    if j in s.pages {
      TouchKeeps(s, j);
      TouchHolds(s, id, k, payload, j);
      SpaceHolds(Touch(s, j), id, k, payload, s.pages[j].size, Some(j), bad);
      ReservedHolds(MakeSpace(Touch(s, j), s.pages[j].size, Some(j), bad).store, id, k, payload, j);
    }
  }

  lemma UnspilledHolds(s: Store, id: nat, k: Key, payload: Bytes, j: Key)
    requires Held(s, id, k, payload) && j in s.pages
    ensures Held(Unspill(s, j), id, k, payload) == true
  {}

  lemma FinishLoadHolds(s: Store, id: nat, k: Key, payload: Bytes, j: Key, bad: set<Key>)
    requires Inv(s) && Held(s, id, k, payload) && j in s.loads && j in s.pages
    ensures Held(DoFinishLoad(s, j, bad).store, id, k, payload) == true
  {
    AboutPage(s, j);
  }

  lemma WriteSpillHolds(s: Store, id: nat, k: Key, payload: Bytes, j: Key, bad: set<Key>)
    requires Inv(s) && Held(s, id, k, payload) && j in s.spills && j in s.pages
    ensures Held(DoWriteSpill(s, j, bad).store, id, k, payload) == true
  {
    SpillHolds(s, id, k, payload, j, bad);
  }

  lemma StepHolds(s: Store, id: nat, k: Key, payload: Bytes, e: Step)
    requires Inv(s) && Held(s, id, k, payload) && e != PinExit(id)
    ensures Held(Next(s, e), id, k, payload) == true
  {
    PinnedIsUsed(s, id, k);
    match e
    case Put(j, p, count, header, bad) => PutHolds(s, id, k, payload, j, p, count, header, bad);
    case Evict(required, bad) => EvictHolds(s, id, k, payload, required, bad);
    case SubmitLoad(j, bad) => SubmitLoadHolds(s, id, k, payload, j, bad);
    case FinishLoad(j, bad) => if j in s.loads && j in s.pages { FinishLoadHolds(s, id, k, payload, j, bad); }
    case WriteSpill(j, bad) => if j in s.spills && j in s.pages { WriteSpillHolds(s, id, k, payload, j, bad); }
    case EndSpill(j) => if j in s.spills && j in s.pages { UnspilledHolds(s, id, k, payload, j); }
    case _ =>
  }

  /** A pinned resident page stays in memory with its bytes, through any steps and
      failures, until that pin is released. */
  lemma {:induction false} PinnedStaysResident(s: Store, es: seq<Step>, id: nat, k: Key)
    requires Reached(s) && id in s.pinned && s.pinned[id] == k && k in s.pages && s.pages[k].payload.Some?
    requires PinExit(id) !in es
    ensures var t := Replay(s, es);
            && id in t.pinned && k in t.pages && k in s.ideal && k in t.ideal
            && t.pages[k].payload == Some(s.ideal[k]) && t.ideal[k] == s.ideal[k]
  {
    ReachedInv(s);
    AboutPage(s, k);
    RunHolds(s, es, id, k, s.ideal[k]);
    ReplayKeeps(s, es);
    AboutPage(Replay(s, es), k);
  }

  lemma {:induction false} RunHolds(s: Store, es: seq<Step>, id: nat, k: Key, payload: Bytes)
    requires Inv(s) && Held(s, id, k, payload) && PinExit(id) !in es
    ensures Held(Replay(s, es), id, k, payload)
    decreases |es|
  {
    if es != [] {
      StepKeeps(s, es[0]);
      StepHolds(s, id, k, payload, es[0]);
      RunHolds(Next(s, es[0]), es[1..], id, k, payload);
    }
  }

  /** The completion of a spill is two steps, between which others may come. */
  lemma SpillIsTwoSteps(s: Store, k: Key, bad: set<Key>)
    requires k in s.spills && k in s.pages
    ensures DoFinishSpill(s, k, bad).store == Replay(s, [WriteSpill(k, bad), EndSpill(k)])
  {
    ReplayTwo(s, Step.WriteSpill(k, bad), Step.EndSpill(k));
    WrittenThenEnded(s, k, bad);
  }

  lemma ReplayTwo(s: Store, a: Step, b: Step)
    ensures Replay(s, [a, b]) == Next(Next(s, a), b)
  {
    assert [a, b][1..] == [b] && [b][1..] == [];
    assert Replay(Next(Next(s, a), b), []) == Next(Next(s, a), b);
  }

  lemma WrittenThenEnded(s: Store, k: Key, bad: set<Key>)
    requires k in s.spills && k in s.pages
    ensures DoFinishSpill(s, k, bad).store == Next(Next(s, Step.WriteSpill(k, bad)), Step.EndSpill(k))
  {
    assert DoWriteSpill(s, k, bad).store.spills == s.spills;
  }

  // ---- crash and reopen ----------------------------------------------------------------------

  /** At any moment the directory holds at most one intact file per key. */
  lemma DiskIsCatalog(s: Store)
    requires Inv(s)
    ensures Catalog(s.disk)
  {
    Take(s, Files);
    forall f | f in s.disk
      ensures Intact(s.disk[f])
    {
      AboutPage(s, f.0);
    }
  }

  /** The bytes of the pages that have a published file. */
  ghost function Published(s: Store): map<Key, Bytes> {
    map k | k in s.pages && s.pages[k].backed && k in s.ideal :: s.ideal[k]
  }

  lemma ReopenedReached(cpuBudget: nat, diskBudget: nat, disk: map<FileName, File>, order: seq<Key>)
    requires Catalog(disk) && OpenStore(cpuBudget, diskBudget, disk, order).Some?
    ensures Reached(OpenStore(cpuBudget, diskBudget, disk, order).value)
  {
    var s := OpenStore(cpuBudget, diskBudget, disk, order).value;
    assert s == Replay(s, []);
  }

  lemma Reopened(s: Store, cpuBudget: nat, order: seq<Key>)
    requires Inv(s) && Catalog(s.disk)
    ensures var o := OpenStore(cpuBudget, s.diskBudget, s.disk, order);
            o.Some? && o.value.ideal == Published(s)
  {
    assert FileSizes(s.disk, order) <= s.diskBudget by {
      BackedNames(s, order);
      Take(s, Budgets);
      Take(s, Sums);
    }
    StoreOpens(cpuBudget, s.diskBudget, s.disk, order);
    assert Payloads(s.disk) == Published(s) by {
      BackedNames(s, order);
      BackedPayloads(s);
    }
  }

  lemma StoreOpens(cpuBudget: nat, diskBudget: nat, disk: map<FileName, File>, order: seq<Key>)
    requires OneFileEach(disk) && FileSizes(disk, order) <= diskBudget
    ensures var o := OpenStore(cpuBudget, diskBudget, disk, order); o.Some? && o.value.ideal == Payloads(disk)
  {}

  lemma BackedPayloads(s: Store)
    requires Inv(s) && Catalog(s.disk) && forall k :: k in NamesIn(s.disk) <==> k in s.pages && s.pages[k].backed
    ensures Payloads(s.disk) == Published(s)
  {
    forall k | k in s.pages && s.pages[k].backed
      ensures k in s.ideal && s.disk[FileOf(s.disk, k)].payload == s.ideal[k]
    {
      AboutPage(s, k);
      FileOfName(s.disk, (k, s.pages[k].generation));
    }
  }

  lemma BackedNames(s: Store, order: seq<Key>)
    requires Inv(s) && Catalog(s.disk)
    ensures forall k :: k in NamesIn(s.disk) <==> k in s.pages && s.pages[k].backed
    ensures FileSizes(s.disk, order) == Sum(OnDisk(s.pages))
  {
    Take(s, Files);
    forall k | k in s.pages && s.pages[k].backed
      ensures k in NamesIn(s.disk) && FileOf(s.disk, k) == (k, s.pages[k].generation)
    {
      AboutPage(s, k);
      FileOfName(s.disk, (k, s.pages[k].generation));
    }
    SameWeights(s, order);
  }

  lemma SameWeights(s: Store, order: seq<Key>)
    requires Inv(s) && Catalog(s.disk)
    requires forall k :: k in NamesIn(s.disk) <==> k in s.pages && s.pages[k].backed
    ensures Sum(OnDisk(Restored(s.disk, order))) == Sum(OnDisk(s.pages))
  {
    var a, b := OnDisk(Restored(s.disk, order)), OnDisk(s.pages);
    forall k | k in a ensures k in b && a[k] == b[k] {
      AboutPage(s, k);
      FileOfName(s.disk, (k, s.pages[k].generation));
    }
    ExtraZeros(a, b);
  }

  lemma {:induction false} ExtraZeros(a: map<nat, int>, b: map<nat, int>)
    requires a.Keys <= b.Keys && forall k :: k in b ==> b[k] == if k in a then a[k] else 0
    ensures Sum(a) == Sum(b)
    decreases |b|
  {
    if b.Keys == a.Keys {
      assert a == b;
    } else {
      var k :| k in b && k !in a;
      SumSplit(b, k);
      assert |(b - {k}).Keys| < |b.Keys| by { assert (b - {k}).Keys == b.Keys - {k}; }
      ExtraZeros(a, b - {k});
    }
  }
}
