/** src/cacheslide_vllm/storage.py as a state machine: one step per block that
    holds the store's mutex. Keys are numbered in the order of their strings. */
module Storage {
  import opened Basics

  type Key = nat
  type Bytes = seq<bv8>

  /** SHA-256, taken as injective. */
  datatype Digest = Sha256(of: Bytes)

  const MAX_HEADER: nat := 65536

  /** `_Page`; `header` is the length of the page's encoded header line. */
  datatype Page = Page(
    generation: nat,
    checksum: Digest,
    size: nat,
    count: nat,
    header: nat,
    lastAccess: nat,
    payload: Option<Bytes>,
    backed: bool,
    diskSize: nat,
    pins: int,
    inflight: int)

  /** A published page file, named by key and generation. */
  datatype File = File(checksum: Digest, size: nat, count: nat, header: nat, payload: Bytes)

  type FileName = (Key, nat)

  datatype Store = Store(
    cpuBudget: nat,
    diskBudget: nat,
    pages: map<Key, Page>,
    cpuBytes: int,
    diskBytes: int,
    cpuReserved: int,
    tick: nat,
    epoch: nat,
    closing: bool,
    closed: bool,
    locked: bool,               // the directory's writer lock is held
    loads: map<Key, nat>,       // outstanding loads -> the epoch they began in
    spills: map<Key, nat>,      // outstanding spills -> the epoch they began in
    pinned: map<nat, Key>,      // outstanding pins
    issued: nat,                // generations given out
    disk: map<FileName, File>,
    ideal: map<Key, Bytes>)     // the key -> bytes map being implemented

  datatype Outcome<+T> = Outcome(store: Store, result: Result<T>)

  datatype Answer = Ready(payload: Bytes) | Waiting

  /** `bad` are the keys whose next file operation fails. */
  datatype Step =
    | Put(key: Key, payload: Bytes, count: nat, header: nat, bad: set<Key>)
    | Evict(required: nat, bad: set<Key>)
    | SubmitLoad(key: Key, bad: set<Key>)
    | FinishLoad(key: Key, bad: set<Key>)
    | SubmitSpill(key: Key)
    | WriteSpill(key: Key, bad: set<Key>)     // the two blocks of a spill's completion
    | EndSpill(key: Key)
    | PinEnter(id: nat, key: Key)
    | PinExit(id: nat)
    | Delete(key: Key, bad: set<Key>)
    | CloseBegin(cancel: bool)
    | CloseEnd

  // ---- eviction order -------------------------------------------------------------

  /** Clean pages first, then the highest count, then the least recently used. */
  predicate Before(a: Page, k: Key, b: Page, j: Key) {
    if (a.count > 0) != (b.count > 0) then a.count == 0
    else if a.count != b.count then a.count > b.count
    else if a.lastAccess != b.lastAccess then a.lastAccess < b.lastAccess
    else k < j
  }

  predicate Evictable(page: Page) {
    page.payload.Some? && page.pins == 0 && page.inflight == 0
  }

  function Eligible(pages: map<Key, Page>, exclude: Option<Key>): set<Key> {
    set k | k in pages && Evictable(pages[k]) && exclude != Some(k)
  }

  lemma BeforeIsTotal(a: Page, k: Key, b: Page, j: Key)
    requires k != j
    ensures Before(a, k, b, j) <==> !Before(b, j, a, k)
  {}

  lemma BeforeIsTransitive(a: Page, k: Key, b: Page, j: Key, c: Page, i: Key)
    requires Before(a, k, b, j) && Before(b, j, c, i)
    ensures Before(a, k, c, i)
  {}

  predicate Leads(pages: map<Key, Page>, keys: set<Key>, k: Key)
    requires keys <= pages.Keys
  {
    k in keys && forall j :: j in keys && j != k ==> Before(pages[k], k, pages[j], j)
  }

  lemma OneMoreKey(pages: map<Key, Page>, keys: set<Key>, f: Key, k: Key)
    requires keys <= pages.Keys && k in pages && k !in keys && Leads(pages, keys, f)
    ensures Leads(pages, keys + {k}, if Before(pages[f], f, pages[k], k) then f else k)
  {
    if !Before(pages[f], f, pages[k], k) {
      BeforeIsTotal(pages[f], f, pages[k], k);
      forall j | j in keys ensures Before(pages[k], k, pages[j], j) {
        if j != f { BeforeIsTransitive(pages[k], k, pages[f], f, pages[j], j); }
      }
    }
  }

  lemma FirstExists(pages: map<Key, Page>, keys: set<Key>)
    requires keys != {} && keys <= pages.Keys
    ensures exists k :: Leads(pages, keys, k)
    decreases keys
  {
    var k :| k in keys;
    if keys == {k} {
      assert Leads(pages, keys, k);
    } else {
      FirstExists(pages, keys - {k});
      var f :| Leads(pages, keys - {k}, f);
      OneMoreKey(pages, keys - {k}, f, k);
      assert keys - {k} + {k} == keys;
    }
  }

  lemma LeaderIsOnly(pages: map<Key, Page>, keys: set<Key>, k: Key, j: Key)
    requires keys <= pages.Keys && Leads(pages, keys, k) && Leads(pages, keys, j)
    ensures k == j
  {
    if k != j { BeforeIsTotal(pages[k], k, pages[j], j); }
  }

  /** The key that is evicted first. */
  function First(pages: map<Key, Page>, keys: set<Key>): (k: Key)
    requires keys != {} && keys <= pages.Keys
    ensures Leads(pages, keys, k)
  {
    FirstExists(pages, keys);
    assert forall k, j :: Leads(pages, keys, k) && Leads(pages, keys, j) ==> k == j by {
      forall k, j | Leads(pages, keys, k) && Leads(pages, keys, j) ensures k == j { LeaderIsOnly(pages, keys, k, j); }
    }
    var k :| k in keys && Leads(pages, keys, k);
    k
  }

  /** `_candidates`: the keys in eviction order. */
  function Ordered(pages: map<Key, Page>, keys: set<Key>): (r: seq<Key>)
    requires keys <= pages.Keys
    ensures Distinct(r) && forall k :: k in r <==> k in keys
    ensures forall i, j :: 0 <= i < j < |r| ==> Before(pages[r[i]], r[i], pages[r[j]], r[j])
    decreases keys
  {
    if keys == {} then []
    else
      var k := First(pages, keys);
      [k] + Ordered(pages, keys - {k})
  }

  function Candidates(s: Store, exclude: Option<Key>): (r: seq<Key>)
    ensures Distinct(r) && forall k :: k in r <==> k in Eligible(s.pages, exclude)
  {
    Ordered(s.pages, Eligible(s.pages, exclude))
  }

  // ---- spilling and evicting ---------------------------------------------------------

  predicate Open(s: Store) {
    !s.closed && !s.closing
  }

  /** `_verify` */
  predicate Verified(page: Page, payload: Bytes) {
    |payload| == page.size && Sha256(payload) == page.checksum
  }

  /** The file's header names this very page. */
  predicate Names(disk: map<FileName, File>, k: Key, page: Page) {
    (k, page.generation) in disk && disk[(k, page.generation)].checksum == page.checksum
    && Sha256(disk[(k, page.generation)].payload) == page.checksum
  }

  function FileFor(page: Page, payload: Bytes): File {
    File(page.checksum, page.size, page.count, page.header, payload)
  }

  /** The page file is complete and renamed into place. */
  function Publish(s: Store, k: Key, payload: Bytes): Store
    requires k in s.pages
  {
    var page := s.pages[k];
    s.(pages := s.pages[k := page.(backed := true, diskSize := page.header + page.size)],
       diskBytes := s.diskBytes + page.header + page.size,
       disk := s.disk[(k, page.generation) := FileFor(page, payload)])
  }

  /** `_spill_sync`: afterwards the page has a published backing copy. */
  function Spill(s: Store, k: Key, bad: set<Key>): (r: Outcome<()>)
    requires k in s.pages
    ensures r.store.pages.Keys == s.pages.Keys && r.store.diskBudget == s.diskBudget && r.store.locked == s.locked
    ensures if r.result.Ok? && !s.pages[k].backed then s.pages[k].payload.Some?
            && Publish(s, k, s.pages[k].payload.value) == r.store else r.store == s
  {
    var page := s.pages[k];
    if page.backed then Outcome(s, if k !in bad && Names(s.disk, k, page) then Ok(()) else Err(Integrity))
    else match page.payload
      case None => Outcome(s, Err(Integrity))
      case Some(payload) =>
        if !Verified(page, payload) then Outcome(s, Err(Integrity))
        else if s.diskBytes + page.header + page.size > s.diskBudget then Outcome(s, Err(Capacity))
        else if k in bad then Outcome(s, Err(Device))
        else Outcome(Publish(s, k, payload), Ok(()))
  }

  /** The resident copy goes. */
  function Drop(s: Store, k: Key): Store
    requires k in s.pages
  {
    s.(pages := s.pages[k := s.pages[k].(payload := None)], cpuBytes := s.cpuBytes - s.pages[k].size)
  }

  predicate Fits(s: Store, needed: nat) {
    s.cpuBytes + s.cpuReserved + needed <= s.cpuBudget
  }

  /** The loop of `_make_cpu_space` over the remaining candidates. */
  function EvictFrom(s: Store, order: seq<Key>, needed: nat, bad: set<Key>): (r: Outcome<seq<Key>>)
    requires forall k :: k in order ==> k in s.pages
    ensures r.store.pages.Keys == s.pages.Keys && r.store.diskBudget == s.diskBudget && r.store.locked == s.locked
    decreases |order|
  {
    if Fits(s, needed) then Outcome(s, Ok([]))
    else if order == [] then Outcome(s, Err(Capacity))
    else
      var round := Round(s, order[0], bad);
      match round.result
      case Err(e) => Outcome(round.store, Err(e))
      case Ok(_) => Prepend([order[0]], EvictFrom(round.store, order[1..], needed, bad))
  }

  /** One page is spilled and then dropped. */
  function Round(s: Store, k: Key, bad: set<Key>): (r: Outcome<()>)
    requires k in s.pages
    ensures r.store.pages.Keys == s.pages.Keys && r.store.diskBudget == s.diskBudget && r.store.locked == s.locked
  {
    var spilled := Spill(s, k, bad);
    if spilled.result.Ok? then Outcome(Drop(spilled.store, k), Ok(())) else spilled
  }

  /** The same outcome with more keys evicted before. */
  function Prepend(keys: seq<Key>, o: Outcome<seq<Key>>): (r: Outcome<seq<Key>>)
    ensures r.store == o.store
  {
    if o.result.Ok? then Outcome(o.store, Ok(keys + o.result.value)) else o
  }

  lemma PrependNone(o: Outcome<seq<Key>>)
    ensures Prepend([], o) == o
  {
    if o.result.Ok? { assert [] + o.result.value == o.result.value; }
  }

  lemma PrependTwice(keys: seq<Key>, k: Key, o: Outcome<seq<Key>>)
    ensures Prepend(keys, Prepend([k], o)) == Prepend(keys + [k], o)
  {
    if o.result.Ok? { assert keys + ([k] + o.result.value) == keys + [k] + o.result.value; }
  }

  function MakeSpace(s: Store, needed: nat, exclude: Option<Key>, bad: set<Key>): (r: Outcome<seq<Key>>)
    ensures r.store.pages.Keys == s.pages.Keys && r.store.diskBudget == s.diskBudget && r.store.locked == s.locked
  {
    EvictFrom(s, Candidates(s, exclude), needed, bad)
  }

  function Touch(s: Store, k: Key): Store
    requires k in s.pages
  {
    s.(tick := s.tick + 1, pages := s.pages[k := s.pages[k].(lastAccess := s.tick + 1)])
  }

  // ---- the operations --------------------------------------------------------------------

  /** `put` of a key that is already there: the data must be the same. */
  function PutAgain(s: Store, k: Key, payload: Bytes, count: nat, bad: set<Key>): (r: Outcome<()>)
    requires k in s.pages
    ensures r.store.diskBudget == s.diskBudget && r.store.locked == s.locked
  {
    var page := s.pages[k];
    if !Verified(page, payload) || page.count != count then Outcome(s, Err(Invalid))
    else match page.payload
      case Some(resident) =>
        if !Verified(page, resident) then Outcome(s, Err(Integrity))
        else if resident != payload then Outcome(s, Err(Invalid))
        else Outcome(Touch(s, k), Ok(()))
      case None =>
        var spilled := Spill(s, k, bad);
        if spilled.result.Err? then spilled else Outcome(Touch(spilled.store, k), Ok(()))
  }

  function NewPage(s: Store, payload: Bytes, count: nat, header: nat): Page {
    Page(s.issued, Sha256(payload), |payload|, count, header, s.tick + 1, Some(payload), false, 0, 0, 0)
  }

  function PutNew(s: Store, k: Key, payload: Bytes, count: nat, header: nat, bad: set<Key>): (r: Outcome<()>)
    ensures r.store.diskBudget == s.diskBudget && r.store.locked == s.locked
  {
    if |payload| > s.cpuBudget then Outcome(s, Err(Capacity))
    else
      var space := MakeSpace(s, |payload|, None, bad);
      match space.result
      case Err(e) => Outcome(space.store, Err(e))
      case Ok(_) => PutInto(space.store, k, payload, count, header)
  }

  /** A time and a generation are taken. */
  function Ticked(s: Store): Store {
    s.(tick := s.tick + 1, issued := s.issued + 1)
  }

  /** The page is committed. */
  function Added(s: Store, k: Key, payload: Bytes, count: nat, header: nat): Store {
    Ticked(s).(pages := s.pages[k := NewPage(s, payload, count, header)], cpuBytes := s.cpuBytes + |payload|,
               ideal := s.ideal[k := payload])
  }

  /** The space is there; the header's length is checked before the page is committed. */
  function PutInto(s: Store, k: Key, payload: Bytes, count: nat, header: nat): (r: Outcome<()>)
    ensures r.store == if r.result.Ok? then Added(s, k, payload, count, header) else Ticked(s)
  {
    if header > MAX_HEADER + 1 then Outcome(Ticked(s), Err(Invalid))
    else Outcome(Added(s, k, payload, count, header), Ok(()))
  }

  function DoPut(s: Store, k: Key, payload: Bytes, count: nat, header: nat, bad: set<Key>): (r: Outcome<()>)
    ensures r.store.diskBudget == s.diskBudget && r.store.locked == s.locked
  {
    if !Open(s) then Outcome(s, Err(Busy))
    else if k in s.pages then PutAgain(s, k, payload, count, bad)
    else PutNew(s, k, payload, count, header, bad)
  }

  function DoEvict(s: Store, required: nat, bad: set<Key>): (r: Outcome<seq<Key>>)
    ensures r.store.diskBudget == s.diskBudget && r.store.locked == s.locked
  {
    if !Open(s) then Outcome(s, Err(Busy))
    else if required > 0 then MakeSpace(s, required, None, bad)
    else if Candidates(s, None) == [] then Outcome(s, Err(Capacity))
    else
      var k := Candidates(s, None)[0];
      var spilled := Spill(s, k, bad);
      match spilled.result
      case Err(e) => Outcome(spilled.store, Err(e))
      case Ok(_) => Outcome(Drop(spilled.store, k), Ok([k]))
  }

  /** The load is accepted: its memory is reserved. */
  function Reserve(s: Store, k: Key): Store
    requires k in s.pages
  {
    s.(cpuReserved := s.cpuReserved + s.pages[k].size, loads := s.loads[k := s.epoch],
       pages := s.pages[k := s.pages[k].(inflight := s.pages[k].inflight + 1)])
  }

  function DoSubmitLoad(s: Store, k: Key, bad: set<Key>): (r: Outcome<Answer>)
    ensures r.store.diskBudget == s.diskBudget && r.store.locked == s.locked
  {
    if !Open(s) then Outcome(s, Err(Busy))
    else if k !in s.pages then Outcome(s, Err(Missing))
    else
      var t, page := Touch(s, k), s.pages[k];
      match page.payload
      case Some(payload) => Outcome(t, if Verified(page, payload) then Ok(Ready(payload)) else Err(Integrity))
      case None =>
        if k in s.loads then Outcome(t, Ok(Waiting))
        else if page.size > s.cpuBudget then Outcome(t, Err(Capacity))
        else
          var space := MakeSpace(t, page.size, Some(k), bad);
          match space.result
          case Err(e) => Outcome(space.store, Err(e))
          case Ok(_) => Outcome(Reserve(space.store, k), Ok(Waiting))
  }

  /** `_read_disk` */
  function ReadDisk(s: Store, k: Key, bad: set<Key>): Result<Bytes>
    requires k in s.pages
  {
    var page := s.pages[k];
    if !page.backed || k in bad || !Names(s.disk, k, page) then Err(Integrity)
    else
      var payload := s.disk[(k, page.generation)].payload;
      if Verified(page, payload) then Ok(payload) else Err(Integrity)
  }

  /** The load is over: its reservation goes back. */
  function Unloaded(s: Store, k: Key): (r: Store)
    requires k in s.pages
    ensures r.diskBudget == s.diskBudget && r.locked == s.locked
  {
    s.(cpuReserved := s.cpuReserved - s.pages[k].size, loads := s.loads - {k},
       pages := s.pages[k := s.pages[k].(inflight := s.pages[k].inflight - 1)])
  }

  /** It has made the page resident. */
  function Loaded(s: Store, k: Key, payload: Bytes): (r: Store)
    requires k in s.pages
    ensures r.diskBudget == s.diskBudget && r.locked == s.locked
  {
    s.(cpuReserved := s.cpuReserved - s.pages[k].size, loads := s.loads - {k},
       pages := s.pages[k := s.pages[k].(inflight := s.pages[k].inflight - 1, payload := Some(payload))],
       cpuBytes := s.cpuBytes + s.pages[k].size)
  }

  /** The completion block of a load: the page becomes resident unless the read
      failed or the store moved on. */
  function DoFinishLoad(s: Store, k: Key, bad: set<Key>): (r: Outcome<Bytes>)
    requires k in s.loads && k in s.pages
    ensures r.store == if r.result.Ok? then Loaded(s, k, r.result.value) else Unloaded(s, k)
  {
    match ReadDisk(s, k, bad)
    case Err(e) => Outcome(Unloaded(s, k), Err(e))
    case Ok(payload) =>
      if s.closed || s.loads[k] != s.epoch then Outcome(Unloaded(s, k), Err(Stale))
      else Outcome(Loaded(s, k, payload), Ok(payload))
  }

  function DoSubmitSpill(s: Store, k: Key): Outcome<()> {
    if !Open(s) then Outcome(s, Err(Busy))
    else if k !in s.pages then Outcome(s, Err(Missing))
    else if k in s.spills then Outcome(s, Ok(()))
    else Outcome(s.(spills := s.spills[k := s.epoch],
            pages := s.pages[k := s.pages[k].(inflight := s.pages[k].inflight + 1)]), Ok(()))
  }

  function Unspill(s: Store, k: Key): Store
    requires k in s.pages
  {
    s.(spills := s.spills - {k}, pages := s.pages[k := s.pages[k].(inflight := s.pages[k].inflight - 1)])
  }

  /** The block of a spill's completion that writes, unless the store moved on. */
  function DoWriteSpill(s: Store, k: Key, bad: set<Key>): (r: Outcome<()>)
    requires k in s.spills && k in s.pages
    ensures r.store.pages.Keys == s.pages.Keys && r.store.diskBudget == s.diskBudget && r.store.locked == s.locked
  {
    if s.closed || s.spills[k] != s.epoch then Outcome(s, Err(Stale)) else Spill(s, k, bad)
  }

  /** Both blocks, one after the other. */
  function DoFinishSpill(s: Store, k: Key, bad: set<Key>): Outcome<()>
    requires k in s.spills && k in s.pages
  {
    var written := DoWriteSpill(s, k, bad);
    Outcome(Unspill(written.store, k), written.result)
  }

  function DoPin(s: Store, id: nat, k: Key): Outcome<()>
    requires id !in s.pinned
  {
    if !Open(s) then Outcome(s, Err(Busy))
    else if k !in s.pages then Outcome(s, Err(Missing))
    else Outcome(s.(pinned := s.pinned[id := k], pages := s.pages[k := s.pages[k].(pins := s.pages[k].pins + 1)]),
          Ok(()))
  }

  function DoUnpin(s: Store, id: nat): Store
    requires id in s.pinned && s.pinned[id] in s.pages
  {
    var k := s.pinned[id];
    s.(pinned := s.pinned - {id}, pages := s.pages[k := s.pages[k].(pins := s.pages[k].pins - 1)])
  }

  /** The page goes, and its file. */
  function Removed(s: Store, k: Key): Store
    requires k in s.pages
  {
    var page := s.pages[k];
    s.(pages := s.pages - {k}, ideal := s.ideal - {k},
       disk := if page.backed then s.disk - {(k, page.generation)} else s.disk,
       diskBytes := s.diskBytes - (if page.backed then page.diskSize else 0),
       cpuBytes := s.cpuBytes - (if page.payload.Some? then page.size else 0))
  }

  function DoDelete(s: Store, k: Key, bad: set<Key>): Outcome<()> {
    if !Open(s) then Outcome(s, Err(Busy))
    else if k !in s.pages then Outcome(s, Err(Missing))
    else
      var page := s.pages[k];
      if page.pins != 0 || page.inflight != 0 then Outcome(s, Err(Capacity))
      else if page.backed && k in bad then Outcome(s, Err(Device))
      else Outcome(Removed(s, k), Ok(()))
  }

  /** `close` up to the drain of outstanding work. */
  function DoCloseBegin(s: Store, cancel: bool): Store {
    if cancel then s.(closing := true, closed := true, epoch := s.epoch + 1) else s.(closing := true)
  }

  /** Once nothing is outstanding the lock is given up, the first time. */
  function DoCloseEnd(s: Store): Store {
    if s.closing && s.loads == map[] && s.spills == map[] && s.locked
    then s.(closed := true, epoch := s.epoch + 1, locked := false) else s
  }

  function Next(s: Store, e: Step): (r: Store)
    ensures r.diskBudget == s.diskBudget
    ensures r.locked == s.locked || (s.locked && r.closed && r.loads == map[] && r.spills == map[])
  {
    match e
    case Put(k, payload, count, header, bad) => DoPut(s, k, payload, count, header, bad).store
    case Evict(required, bad) => DoEvict(s, required, bad).store
    case SubmitLoad(k, bad) => DoSubmitLoad(s, k, bad).store
    case FinishLoad(k, bad) => if k in s.loads && k in s.pages then DoFinishLoad(s, k, bad).store else s
    case SubmitSpill(k) => DoSubmitSpill(s, k).store
    case WriteSpill(k, bad) => if k in s.spills && k in s.pages then DoWriteSpill(s, k, bad).store else s
    case EndSpill(k) => if k in s.spills && k in s.pages then Unspill(s, k) else s
    case PinEnter(id, k) => if id in s.pinned then s else DoPin(s, id, k).store
    case PinExit(id) => if id in s.pinned && s.pinned[id] in s.pages then DoUnpin(s, id) else s
    case Delete(k, bad) => DoDelete(s, k, bad).store
    case CloseBegin(cancel) => DoCloseBegin(s, cancel)
    case CloseEnd => DoCloseEnd(s)
  }

  function Replay(s: Store, es: seq<Step>): Store
    decreases |es|
  {
    if es == [] then s else Replay(Next(s, es[0]), es[1..])
  }

  // ---- opening a directory -----------------------------------------------------------------

  /** `_decode_file`: header and payload are whole. */
  predicate Intact(file: File) {
    file.header <= MAX_HEADER + 1 && file.checksum == Sha256(file.payload) && file.size == |file.payload|
  }

  /** Each key has one generation on disk, with an intact file. */
  predicate Catalog(disk: map<FileName, File>) {
    (forall f :: f in disk ==> Intact(disk[f])) && OneFileEach(disk)
  }

  predicate OneFileEach(disk: map<FileName, File>) {
    forall f, g :: f in disk && g in disk && f.0 == g.0 ==> f == g
  }

  function NamesIn(disk: map<FileName, File>): set<Key> {
    set f | f in disk :: f.0
  }

  function FileOf(disk: map<FileName, File>, k: Key): FileName
    requires k in NamesIn(disk) && OneFileEach(disk)
  {
    var f :| f in disk && f.0 == k; f
  }

  /** Where the key comes in the order the directory is read. */
  function Position(order: seq<Key>, k: Key): nat {
    if order == [] || order[0] == k then 0 else 1 + Position(order[1..], k)
  }

  /** `_restore_catalog` of files that pass their checks, read in `order`; every
      page is backed and none is resident. */
  function Restored(disk: map<FileName, File>, order: seq<Key>): map<Key, Page>
    requires OneFileEach(disk)
  {
    map k | k in NamesIn(disk) ::
      var f := FileOf(disk, k);
      Page(f.1, disk[f].checksum, disk[f].size, disk[f].count, disk[f].header, Position(order, k) + 1,
           None, true, disk[f].header + disk[f].size, 0, 0)
  }
}
