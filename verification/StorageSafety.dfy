/** What every run of the page store keeps: it implements the key -> bytes map
    within both budgets. */
module StorageSafety {
  import opened Basics
  import opened Storage

  // ---- the invariant ----------------------------------------------------------------

  function Bit(b: bool): int {
    if b then 1 else 0
  }

  /** A page carries exactly the bytes last put under its key, resident or in its file. */
  ghost predicate Carries(disk: map<FileName, File>, k: Key, page: Page, bytes: Bytes) {
    && page.checksum == Sha256(bytes) && page.size == |bytes| && page.header <= MAX_HEADER + 1
    && (page.payload.Some? ==> page.payload.value == bytes)
    && (page.payload.Some? || page.backed)
    && (page.backed ==>
          && page.diskSize == page.header + page.size && (k, page.generation) in disk
          && disk[(k, page.generation)] == File(page.checksum, page.size, page.count, page.header, bytes))
  }

  ghost predicate AllCarry(disk: map<FileName, File>, pages: map<Key, Page>, ideal: map<Key, Bytes>) {
    pages.Keys == ideal.Keys && forall k :: k in pages ==> Carries(disk, k, pages[k], ideal[k])
  }

  /** Every file belongs to the catalog. */
  ghost predicate AllListed(disk: map<FileName, File>, pages: map<Key, Page>) {
    forall f :: f in disk ==> f.0 in pages && pages[f.0].backed && pages[f.0].generation == f.1
  }

  function Pinners(pinned: map<nat, Key>, k: Key): set<nat> {
    set id | id in pinned && pinned[id] == k
  }

  /** The page's counters are its outstanding loads, spills and pins. */
  ghost predicate Counts(page: Page, k: Key, loads: set<Key>, spills: set<Key>, pinned: map<nat, Key>) {
    && page.inflight == Bit(k in loads) + Bit(k in spills) && page.pins == |Pinners(pinned, k)|
    && (k in loads ==> page.payload.None?)
  }

  ghost predicate AllCount(pages: map<Key, Page>, loads: set<Key>, spills: set<Key>, pinned: map<nat, Key>) {
    && loads <= pages.Keys && spills <= pages.Keys && (forall id :: id in pinned ==> pinned[id] in pages)
    && forall k :: k in pages ==> Counts(pages[k], k, loads, spills, pinned)
  }

  function Resident(pages: map<Key, Page>): map<nat, int> {
    map k | k in pages :: if pages[k].payload.Some? then pages[k].size else 0
  }

  function OnDisk(pages: map<Key, Page>): map<nat, int> {
    map k | k in pages :: if pages[k].backed then pages[k].diskSize else 0
  }

  function Loading(pages: map<Key, Page>, loads: set<Key>): map<nat, int> {
    map k | k in pages :: if k in loads then pages[k].size else 0
  }

  /** The byte counters are the sums over the catalog. */
  ghost predicate Summed(s: Store) {
    && s.cpuBytes == Sum(Resident(s.pages)) && s.diskBytes == Sum(OnDisk(s.pages))
    && s.cpuReserved == Sum(Loading(s.pages, s.loads.Keys))
  }

  ghost predicate WithinBudgets(s: Store) {
    s.cpuBytes + s.cpuReserved <= s.cpuBudget && s.diskBytes <= s.diskBudget
  }

  /** The parts of the invariant, taken one at a time. */
  datatype Clause = Contents | Files | Counters | Sums | Budgets

  ghost predicate Holds(s: Store, k: Clause) {
    match k
    case Contents => AllCarry(s.disk, s.pages, s.ideal)
    case Files => AllListed(s.disk, s.pages)
    case Counters => AllCount(s.pages, s.loads.Keys, s.spills.Keys, s.pinned)
    case Sums => Summed(s)
    case Budgets => WithinBudgets(s)
  }

  ghost predicate Inv(s: Store) {
    forall k: Clause :: Holds(s, k)
  }

  lemma Take(s: Store, k: Clause)
    requires Inv(s)
    ensures Holds(s, k)
  {}

  // ---- one page changes ---------------------------------------------------------------

  lemma ResidentUpdate(pages: map<Key, Page>, k: Key, page: Page)
    requires k in pages
    ensures Sum(Resident(pages[k := page])) == Sum(Resident(pages)) + (if page.payload.Some? then page.size else 0)
                                               - (if pages[k].payload.Some? then pages[k].size else 0)
  {
    var weight: int := if page.payload.Some? then page.size else 0;
    assert Resident(pages[k := page]) == Resident(pages)[k := weight];
    SumUpdate(Resident(pages), k, weight);
  }

  lemma OnDiskUpdate(pages: map<Key, Page>, k: Key, page: Page)
    requires k in pages
    ensures Sum(OnDisk(pages[k := page])) == Sum(OnDisk(pages)) + (if page.backed then page.diskSize else 0)
                                             - (if pages[k].backed then pages[k].diskSize else 0)
  {
    var weight: int := if page.backed then page.diskSize else 0;
    assert OnDisk(pages[k := page]) == OnDisk(pages)[k := weight];
    SumUpdate(OnDisk(pages), k, weight);
  }

  lemma LoadingUpdate(pages: map<Key, Page>, loads: set<Key>, loads': set<Key>, k: Key, page: Page)
    requires k in pages && loads - {k} == loads' - {k} && page.size == pages[k].size
    ensures Sum(Loading(pages[k := page], loads')) == Sum(Loading(pages, loads)) + (if k in loads' then page.size
              else 0) - (if k in loads then page.size else 0)
  {
    var weight: int := if k in loads' then page.size else 0;
    assert forall j :: j in pages && j != k ==>
          (j in loads <==> j in loads - {k})
          && (j in loads' <==> j in loads' - {k});
    assert Loading(pages[k := page], loads') == Loading(pages, loads)[k := weight];
    SumUpdate(Loading(pages, loads), k, weight);
  }

  lemma CarryUpdate(disk: map<FileName, File>, disk': map<FileName, File>, pages: map<Key, Page>,
                    ideal: map<Key, Bytes>, k: Key, page: Page)
    requires AllCarry(disk, pages, ideal) == true && k in pages && Carries(disk', k, page, ideal[k])
    requires forall f :: f in disk && f.0 != k ==> f in disk' && disk'[f] == disk[f]
    ensures AllCarry(disk', pages[k := page], ideal) == true
  {
    assert pages[k := page].Keys == pages.Keys;
    forall j | j in pages && j != k ensures Carries(disk', j, pages[j], ideal[j]) {
      assert Carries(disk, j, pages[j], ideal[j]);
    }
  }

  lemma ListUpdate(disk: map<FileName, File>, disk': map<FileName, File>, pages: map<Key, Page>, k: Key, page: Page)
    requires AllListed(disk, pages) == true && k in pages
    requires forall f :: f in disk' ==> if f.0 == k then page.backed && f.1 == page.generation else f in disk
    ensures AllListed(disk', pages[k := page]) == true
  {}

  lemma CountUpdate(pages: map<Key, Page>, loads: set<Key>, spills: set<Key>, pinned: map<nat, Key>,
                    loads': set<Key>, spills': set<Key>, pinned': map<nat, Key>, k: Key, page: Page)
    requires AllCount(pages, loads, spills, pinned) == true && k in pages && Counts(page, k, loads', spills', pinned')
    requires loads - {k} == loads' - {k} && spills - {k} == spills' - {k}
    requires forall j :: j != k ==> Pinners(pinned, j) == Pinners(pinned', j)
    requires forall id :: id in pinned' ==> pinned'[id] in pages
    ensures AllCount(pages[k := page], loads', spills', pinned') == true
  {
    forall j | j in pages && j != k ensures Counts(pages[j], j, loads', spills', pinned') {
      assert Counts(pages[j], j, loads, spills, pinned);
      assert (j in loads <==> j in loads - {k}) && (j in loads' <==> j in loads' - {k});
      assert (j in spills <==> j in spills - {k}) && (j in spills' <==> j in spills' - {k});
    }
    forall j | j in loads' + spills' ensures j in pages {
      if j != k { assert j in loads - {k} || j in spills - {k}; }
    }
  }

  /** `t` differs from `s` in page `k`, in what is outstanding for it, and in its file. */
  ghost predicate Replaces(s: Store, t: Store, k: Key) {
    && k in s.pages && k in t.pages && t.pages == s.pages[k := t.pages[k]] && t.ideal == s.ideal && k in s.ideal
    && t.cpuBudget == s.cpuBudget && t.diskBudget == s.diskBudget && t.pages[k].size == s.pages[k].size
    && s.loads.Keys - {k} == t.loads.Keys - {k} && s.spills.Keys - {k} == t.spills.Keys - {k}
    && (forall j :: j != k ==> Pinners(s.pinned, j) == Pinners(t.pinned, j))
    && (forall id :: id in t.pinned ==> t.pinned[id] in s.pages)
  }

  ghost predicate FilesFit(disk: map<FileName, File>, disk': map<FileName, File>, k: Key, page: Page) {
    && (forall f :: f in disk && f.0 != k ==> f in disk' && disk'[f] == disk[f])
    && (forall f :: f in disk' ==> if f.0 == k then page.backed && f.1 == page.generation else f in disk)
  }

  ghost predicate BytesMove(s: Store, t: Store, k: Key)
    requires k in s.pages && k in t.pages
  {
    var a, b := s.pages[k], t.pages[k];
    && t.cpuBytes == s.cpuBytes + (if b.payload.Some? then b.size else 0) - (if a.payload.Some? then a.size else 0)
    && t.diskBytes == s.diskBytes + (if b.backed then b.diskSize else 0) - (if a.backed then a.diskSize else 0)
    && t.cpuReserved == s.cpuReserved + (if k in t.loads then b.size else 0) - (if k in s.loads then b.size else 0)
  }

  /** The invariant after one page has changed. */
  lemma PageReplaced(s: Store, t: Store, k: Key)
    requires Inv(s) && Replaces(s, t, k) == true && k in s.pages && k in t.pages && k in s.ideal
    requires FilesFit(s.disk, t.disk, k, t.pages[k]) == true && BytesMove(s, t, k) && WithinBudgets(t)
    requires Carries(t.disk, k, t.pages[k], s.ideal[k]) && Counts(t.pages[k], k, t.loads.Keys, t.spills.Keys, t.pinned)
    ensures Inv(t)
  {
    forall c ensures Holds(t, c) == true {
      match c
      case Contents => Take(s, c); CarryUpdate(s.disk, t.disk, s.pages, s.ideal, k, t.pages[k]);
      case Files => Take(s, c); ListUpdate(s.disk, t.disk, s.pages, k, t.pages[k]);
      case Counters =>
        Take(s, c);
        CountUpdate(s.pages, s.loads.Keys, s.spills.Keys, s.pinned, t.loads.Keys, t.spills.Keys, t.pinned, k,
              t.pages[k]);
      case Sums => Take(s, c); SumsMove(s, t, k);
      case Budgets =>
    }
  }

  lemma SumsMove(s: Store, t: Store, k: Key)
    requires Summed(s) && Replaces(s, t, k) && BytesMove(s, t, k)
    ensures Summed(t)
  {
    ResidentUpdate(s.pages, k, t.pages[k]);
    OnDiskUpdate(s.pages, k, t.pages[k]);
    LoadingUpdate(s.pages, s.loads.Keys, t.loads.Keys, k, t.pages[k]);
  }

  lemma AboutPage(s: Store, k: Key)
    requires Inv(s) && k in s.pages
    ensures WithinBudgets(s) && k in s.ideal && Carries(s.disk, k, s.pages[k], s.ideal[k])
    ensures Counts(s.pages[k], k, s.loads.Keys, s.spills.Keys, s.pinned)
    ensures forall f :: f in s.disk && f.0 == k ==> s.pages[k].backed && f.1 == s.pages[k].generation
    ensures forall id :: id in s.pinned ==> s.pinned[id] in s.pages
  {
    Take(s, Budgets);
    Take(s, Contents);
    Take(s, Files);
    Take(s, Counters);
  }

  /** Page `k` changes and nothing outstanding does. */
  ghost predicate Quietly(s: Store, t: Store, k: Key) {
    && k in s.pages && k in t.pages && t.pages == s.pages[k := t.pages[k]] && t.ideal == s.ideal
    && t.cpuBudget == s.cpuBudget && t.diskBudget == s.diskBudget && t.pages[k].size == s.pages[k].size
    && t.loads == s.loads && t.spills == s.spills && t.pinned == s.pinned
  }

  lemma QuietReplaces(s: Store, t: Store, k: Key)
    requires Inv(s) && Quietly(s, t, k)
    ensures Replaces(s, t, k) == true
  {
    AboutPage(s, k);
  }

  lemma SameFiles(s: Store, k: Key, page: Page)
    requires Inv(s) && k in s.pages && page.backed == s.pages[k].backed && page.generation == s.pages[k].generation
    ensures FilesFit(s.disk, s.disk, k, page) == true
  {
    AboutPage(s, k);
  }

  lemma OneMoreFile(disk: map<FileName, File>, k: Key, page: Page, file: File)
    requires page.backed && forall f :: f in disk ==> f.0 != k
    ensures FilesFit(disk, disk[(k, page.generation) := file], k, page) == true
  {}

  lemma TouchKeeps(s: Store, k: Key)
    requires Inv(s) && k in s.pages
    ensures Inv(Touch(s, k))
  {
    var t := Touch(s, k);
    AboutPage(s, k);
    QuietReplaces(s, t, k);
    SameFiles(s, k, t.pages[k]);
    PageReplaced(s, t, k);
  }

  // ---- spilling and evicting -------------------------------------------------------------

  /** Only page `k`'s backing may differ. */
  ghost predicate Backs(s: Store, t: Store, k: Key) {
    && k in s.pages && k in t.pages
    && t == s.(pages := t.pages, disk := t.disk, diskBytes := t.diskBytes) && t.pages == s.pages[k := t.pages[k]]
    && t.pages[k] == s.pages[k].(backed := t.pages[k].backed, diskSize := t.pages[k].diskSize)
  }

  /** A spill publishes a backing copy, or fails and changes nothing. */
  lemma SpillEffect(s: Store, k: Key, bad: set<Key>)
    requires Inv(s) && k in s.pages
    ensures var o := Spill(s, k, bad);
            Inv(o.store) && Backs(s, o.store, k) == true
                && (if o.result.Ok? then o.store.pages[k].backed else o.store == s)
  {
    SpillCases(s, k, bad);
    if Publishes(s, k,
          bad) { PublishKeeps(s, k, s.pages[k].payload.value); PublishBacks(s, k, s.pages[k].payload.value); }
      else { BacksItself(s, k); }
  }

  lemma BacksItself(s: Store, k: Key)
    requires k in s.pages
    ensures Backs(s, s, k) == true
  {
    assert s.pages[k := s.pages[k]] == s.pages;
  }

  /** When a spill writes a file. */
  ghost predicate Publishes(s: Store, k: Key, bad: set<Key>)
    requires k in s.pages
  {
    var page := s.pages[k];
    && !page.backed && page.payload.Some? && Verified(page, page.payload.value)
    && s.diskBytes + page.header + page.size <= s.diskBudget && k !in bad
  }

  lemma SpillCases(s: Store, k: Key, bad: set<Key>)
    requires k in s.pages
    ensures var o := Spill(s, k, bad);
            if Publishes(s, k, bad) then s.pages[k].payload.Some? && !s.pages[k].backed
                && o == Outcome(Publish(s, k, s.pages[k].payload.value), Ok(()))
                                         && s.diskBytes + s.pages[k].header + s.pages[k].size <= s.diskBudget
            else o.store == s && (o.result.Ok? ==> s.pages[k].backed)
  {}

  lemma PublishKeeps(s: Store, k: Key, payload: Bytes)
    requires Inv(s) && k in s.pages && !s.pages[k].backed && s.pages[k].payload == Some(payload)
    requires s.diskBytes + s.pages[k].header + s.pages[k].size <= s.diskBudget
    ensures Inv(Publish(s, k, payload))
  {
    var t := Publish(s, k, payload);
    AboutPage(s, k);
    QuietReplaces(s, t, k);
    OneMoreFile(s.disk, k, t.pages[k], t.disk[(k, s.pages[k].generation)]);
    PageReplaced(s, t, k);
  }

  lemma PublishBacks(s: Store, k: Key, payload: Bytes)
    requires k in s.pages
    ensures Backs(s, Publish(s, k, payload), k) == true && Publish(s, k, payload).pages[k].backed
  {}

  lemma DropKeeps(s: Store, k: Key)
    requires Inv(s) && k in s.pages && s.pages[k].backed && s.pages[k].payload.Some?
    ensures Inv(Drop(s, k))
  {
    var t := Drop(s, k);
    AboutPage(s, k);
    QuietReplaces(s, t, k);
    SameFiles(s, k, t.pages[k]);
    PageReplaced(s, t, k);
  }

  /** The same pages, with no backing copy lost. */
  ghost predicate Grows(a: map<Key, Page>, b: map<Key, Page>) {
    a.Keys == b.Keys && forall k :: k in a && a[k].backed ==> b[k].backed
  }

  lemma RoundGrows(s: Store, k: Key, bad: set<Key>)
    requires k in s.pages
    ensures Grows(s.pages, Round(s, k, bad).store.pages) == true
  {
    SpillGrows(s, k, bad);
    DropGrows(Spill(s, k, bad).store, k);
  }

  lemma DropGrows(s: Store, k: Key)
    requires k in s.pages
    ensures Grows(s.pages, Drop(s, k).pages) == true
  {}

  lemma SpillGrows(s: Store, k: Key, bad: set<Key>)
    requires k in s.pages
    ensures Grows(s.pages, Spill(s, k, bad).store.pages) == true
  {
    SpillCases(s, k, bad);
  }

  // ---- making space ------------------------------------------------------------------------

  /** The bytes the pages in `keys` hold. */
  ghost function Freed(pages: map<Key, Page>, keys: seq<Key>): int
    requires forall k :: k in keys ==> k in pages
  {
    if keys == [] then 0 else pages[keys[0]].size + Freed(pages, keys[1..])
  }

  ghost predicate Enough(s: Store, needed: nat, keys: seq<Key>)
    requires forall k :: k in keys ==> k in s.pages
  {
    s.cpuBytes - Freed(s.pages, keys) + s.cpuReserved + needed <= s.cpuBudget
  }

  /** `keys` is the shortest prefix of the eviction order that frees enough. */
  ghost predicate Shortest(s: Store, needed: nat, order: seq<Key>, keys: seq<Key>)
    requires forall k :: k in order ==> k in s.pages
  {
    && keys <= order && Enough(s, needed, keys)
    && forall n :: 0 <= n < |keys| ==> !Enough(s, needed, keys[..n])
  }

  /** What eviction leaves alone: everything but the copies of the pages in `keys`. */
  ghost predicate Kept(s: Store, t: Store, keys: seq<Key>) {
    && t == s.(pages := t.pages, disk := t.disk, cpuBytes := t.cpuBytes, diskBytes := t.diskBytes)
    && t.pages.Keys == s.pages.Keys
    && (forall k :: k in s.pages && k !in keys ==> t.pages[k] == s.pages[k])
    && (forall k :: k in s.pages ==>
          t.pages[k] == s.pages[k].(payload := t.pages[k].payload, backed := t.pages[k].backed,
                diskSize := t.pages[k].diskSize))
  }

  lemma {:induction false} FreedSame(a: map<Key, Page>, b: map<Key, Page>, keys: seq<Key>)
    requires forall k :: k in keys ==> k in a && k in b && a[k].size == b[k].size
    ensures Freed(a, keys) == Freed(b, keys)
  {
    if keys != [] { FreedSame(a, b, keys[1..]); }
  }

  lemma EnoughMore(s: Store, t: Store, needed: nat, k: Key, keys: seq<Key>)
    requires k in s.pages && forall j :: j in keys ==>
              j in s.pages && j in t.pages
              && t.pages[j].size == s.pages[j].size
    requires t.cpuBytes == s.cpuBytes - s.pages[k].size && t.cpuReserved == s.cpuReserved && t.cpuBudget == s.cpuBudget
    ensures Enough(s, needed, [k] + keys) <==> Enough(t, needed, keys)
  {
    assert ([k] + keys)[1..] == keys;
    FreedSame(s.pages, t.pages, keys);
  }

  lemma ShortestMore(s: Store, t: Store, needed: nat, order: seq<Key>, keys: seq<Key>)
    requires order != []
    requires (forall j :: j in order ==> j in s.pages && j in t.pages && t.pages[j].size == s.pages[j].size)
    requires t.cpuBytes == s.cpuBytes - s.pages[order[0]].size && t.cpuReserved == s.cpuReserved
    requires t.cpuBudget == s.cpuBudget
    requires !Fits(s, needed) && Shortest(t, needed, order[1..], keys)
    ensures Shortest(s, needed, order, [order[0]] + keys)
  {
    var all := [order[0]] + keys;
    assert order == [order[0]] + order[1..];
    EnoughMore(s, t, needed, order[0], keys);
    forall n | 0 <= n < |all| ensures !Enough(s, needed, all[..n]) {
      if n > 0 {
        assert all[..n] == [order[0]] + keys[..n - 1];
        EnoughMore(s, t, needed, order[0], keys[..n - 1]);
      } else {
        assert all[..n] == [];
      }
    }
  }

  ghost predicate MayEvict(s: Store, order: seq<Key>) {
    Distinct(order) && forall k :: k in order ==> k in s.pages && Evictable(s.pages[k])
  }

  /** One round of the loop, once the page is backed. */
  lemma EvictOne(s: Store, u: Store, order: seq<Key>)
    requires Inv(u) && order != [] && MayEvict(s, order) == true && Backs(s, u, order[0]) == true
    requires order[0] in s.pages && order[0] in u.pages && u.pages[order[0]].backed && u.pages[order[0]].payload.Some?
    ensures var t := Drop(u, order[0]);
            && Inv(t) && Kept(s, t, [order[0]]) == true && MayEvict(t, order[1..]) == true
            && t.cpuBytes == s.cpuBytes - s.pages[order[0]].size
  {
    DropKeeps(u, order[0]);
    OnlyCopies(s, u, Drop(u, order[0]), order[0]);
    StillMayEvict(s, Drop(u, order[0]), order);
  }

  lemma StillMayEvict(s: Store, t: Store, order: seq<Key>)
    requires order != [] && MayEvict(s, order) && Kept(s, t, [order[0]])
    ensures MayEvict(t, order[1..]) == true
  {
    forall k | k in order[1..] ensures k in t.pages && Evictable(t.pages[k]) {
      assert k in order && k != order[0];
    }
  }

  lemma FirstResident(s: Store, u: Store, order: seq<Key>)
    requires order != [] && MayEvict(s, order) && Backs(s, u, order[0])
    ensures order[0] in s.pages && order[0] in u.pages && u.pages[order[0]].payload.Some?
  {}

  lemma OnlyCopies(s: Store, u: Store, t: Store, k: Key)
    requires Backs(s, u, k) && t == Drop(u, k)
    ensures Kept(s, t, [k]) == true && t.cpuBytes == s.cpuBytes - s.pages[k].size
  {}

  lemma KeptMore(s: Store, t: Store, u: Store, order: seq<Key>)
    requires order != [] && Kept(s, t, [order[0]]) && Kept(t, u, order[1..])
    ensures Kept(s, u, order) == true
  {
    assert forall k :: k in order <==> k == order[0] || k in order[1..];
  }

  /** Every page in `keys` has lost its resident copy but not its bytes. */
  ghost predicate Evicted(t: Store, keys: seq<Key>) {
    forall k :: k in keys ==> k in t.pages && t.pages[k].payload.None? && t.pages[k].backed
  }

  lemma EvictedMore(t: Store, u: Store, k: Key, keys: seq<Key>, rest: seq<Key>)
    requires Evicted(u, keys) && Kept(t, u, rest) && k !in rest && k in t.pages && t.pages[k].payload.None?
    requires t.pages[k].backed
    ensures Evicted(u, [k] + keys) == true
  {}

  /** Evicting pages only ever adds backing copies. */
  lemma {:induction false} EvictionGrows(s: Store, order: seq<Key>, needed: nat, bad: set<Key>)
    requires forall k :: k in order ==> k in s.pages
    ensures Grows(s.pages, EvictFrom(s, order, needed, bad).store.pages) == true
    decreases |order|
  {
    if !Fits(s, needed) && order != [] {
      RoundGrows(s, order[0], bad);
      if Round(s, order[0], bad).result.Ok? { EvictionGrows(Round(s, order[0], bad).store, order[1..], needed, bad); }
    }
  }

  /** `_make_cpu_space` keeps the invariant; if it succeeds it has evicted exactly
      the shortest sufficient prefix of the order, and every evicted page has a
      published backing copy. */
  lemma {:induction false} EvictEffect(s: Store, order: seq<Key>, needed: nat, bad: set<Key>)
    requires Inv(s) && MayEvict(s, order) == true && forall k :: k in order ==> k in s.pages
    ensures var o := EvictFrom(s, order, needed, bad);
            && Inv(o.store) && Kept(s, o.store, order) == true
            && (o.result.Ok? ==> Fits(o.store, needed) && Shortest(s, needed, order, o.result.value) == true
                                 && Evicted(o.store, o.result.value) == true)
    decreases |order|
  {
    if Fits(s, needed) || order == [] {
      KeptItself(s, order);
    } else {
      SpillEffect(s, order[0], bad);
      BacksKept(s, Spill(s, order[0], bad).store, order);
      if Spill(s, order[0], bad).result.Ok? {
        FirstResident(s, Spill(s, order[0], bad).store, order);
        EvictOne(s, Spill(s, order[0], bad).store, order);
        EvictRest(s, Drop(Spill(s, order[0], bad).store, order[0]), order, needed, bad);
      }
    }
  }

  lemma KeptItself(s: Store, order: seq<Key>)
    ensures Kept(s, s, order) == true && Evicted(s, []) == true
    ensures forall needed: nat :: Fits(s, needed) && (forall k :: k in order ==> k in s.pages) ==>
            Shortest(s, needed, order, [])
  {}

  lemma BacksKept(s: Store, t: Store, order: seq<Key>)
    requires order != [] && Backs(s, t, order[0])
    ensures Kept(s, t, order) == true
  {}

  lemma {:induction false} EvictRest(s: Store, t: Store, order: seq<Key>, needed: nat, bad: set<Key>)
    requires Inv(t) && order != [] && MayEvict(s, order) == true && MayEvict(t, order[1..]) == true
    requires Kept(s, t, [order[0]]) == true
    requires forall k :: k in order ==> k in s.pages && k in t.pages && t.pages[k].size == s.pages[k].size
    requires t.cpuBytes == s.cpuBytes - s.pages[order[0]].size && t.pages[order[0]].payload.None?
    requires t.pages[order[0]].backed
    requires t.cpuReserved == s.cpuReserved && t.cpuBudget == s.cpuBudget && !Fits(s, needed)
    ensures var o := EvictFrom(t, order[1..], needed, bad);
            && Inv(o.store) && Kept(s, o.store, order) == true
            && (o.result.Ok? ==>
                    Fits(o.store, needed) && Shortest(s, needed, order, [order[0]] + o.result.value) == true
                                 && Evicted(o.store, [order[0]] + o.result.value) == true)
    decreases |order|, 0
  {
    EvictEffect(t, order[1..], needed, bad);
    var o := EvictFrom(t, order[1..], needed, bad);
    KeptMore(s, t, o.store, order);
    if o.result.Ok? {
      ShortestMore(s, t, needed, order, o.result.value);
      assert order[0] !in order[1..];
      EvictedMore(t, o.store, order[0], o.result.value, order[1..]);
    }
  }

  /** How many pages the loop gets to evict, also if it fails in the end. */
  function RoundsDone(s: Store, order: seq<Key>, needed: nat, bad: set<Key>): (n: nat)
    requires forall k :: k in order ==> k in s.pages
    ensures n <= |order|
    decreases |order|
  {
    if Fits(s, needed) || order == [] || Round(s, order[0], bad).result.Err? then 0
    else 1 + RoundsDone(Round(s, order[0], bad).store, order[1..], needed, bad)
  }

  lemma NothingEvicted(s: Store, order: seq<Key>)
    ensures Kept(s, s, order[..0]) == true && Evicted(s, order[..0]) == true
  {}

  /** Exactly the pages of that prefix lose their resident copies, each after its
      file was published; every other page stays as it was. */
  lemma {:induction false} EvictsPrefix(s: Store, order: seq<Key>, needed: nat, bad: set<Key>)
    requires Inv(s) && MayEvict(s, order) == true && forall k :: k in order ==> k in s.pages
    ensures var o, n := EvictFrom(s, order, needed, bad), RoundsDone(s, order, needed, bad);
            && Kept(s, o.store, order[..n]) == true && Evicted(o.store, order[..n]) == true
            && (o.result.Ok? ==> o.result.value == order[..n])
            && (o.result.Err? ==> !Fits(o.store, needed) && (n < |order| ==> Spill(o.store, order[n], bad).result.Err?))
    decreases |order|
  {
    if Fits(s, needed) || order == [] {
      NothingEvicted(s, order);
    } else {
      SpillEffect(s, order[0], bad);
      if Spill(s, order[0], bad).result.Ok? {
        FirstResident(s, Spill(s, order[0], bad).store, order);
        EvictOne(s, Spill(s, order[0], bad).store, order);
        var t := Drop(Spill(s, order[0], bad).store, order[0]);
        EvictsPrefix(t, order[1..], needed, bad);
        PrefixGrows(s, t, EvictFrom(t, order[1..], needed, bad).store, order, RoundsDone(t, order[1..], needed, bad));
      } else {
        NothingEvicted(s, order);
      }
    }
  }

  lemma PrefixGrows(s: Store, t: Store, u: Store, order: seq<Key>, n: nat)
    requires order != [] && n <= |order| - 1 && Distinct(order)
    requires Kept(s, t, [order[0]]) == true && Kept(t, u, order[1..][..n]) == true
             && Evicted(u, order[1..][..n]) == true
    requires order[0] in t.pages && t.pages[order[0]].payload.None? && t.pages[order[0]].backed
    ensures Kept(s, u, order[..n + 1]) == true && Evicted(u, order[..n + 1]) == true
    ensures [order[0]] + order[1..][..n] == order[..n + 1]
  {
    assert order[..n + 1] == [order[0]] + order[1..][..n] && order[..n + 1][1..] == order[1..][..n];
    KeptMore(s, t, u, order[..n + 1]);
    assert order[0] !in order[1..][..n];
    EvictedMore(t, u, order[0], order[1..][..n], order[1..][..n]);
  }

  lemma CandidatesMayGo(s: Store, exclude: Option<Key>)
    ensures MayEvict(s, Candidates(s, exclude)) == true && forall k :: k in Candidates(s, exclude) ==> k in s.pages
    ensures exclude.Some? ==> exclude.value !in Candidates(s, exclude)
  {}

  lemma SpaceMade(s: Store, needed: nat, exclude: Option<Key>, bad: set<Key>)
    requires Inv(s)
    ensures var o := MakeSpace(s, needed, exclude, bad);
            && Inv(o.store) && Kept(s, o.store, Candidates(s, exclude)) == true
            && (o.result.Ok? ==> Fits(o.store, needed))
  {
    CandidatesMayGo(s, exclude);
    EvictEffect(s, Candidates(s, exclude), needed, bad);
  }

  // ---- how the calls can end --------------------------------------------------------------

  lemma AgainEnds(s: Store, k: Key, payload: Bytes, count: nat, bad: set<Key>)
    requires k in s.pages
    ensures var t, u := PutAgain(s, k, payload, count, bad).store, Spill(s, k, bad).store;
            t == s || t == u || t == Touch(s, k) || t == Touch(u, k)
  {}

  lemma EvictEnds(s: Store, required: nat, bad: set<Key>, k: Key)
    requires k in s.pages && Candidates(s, None) != [] && k == Candidates(s, None)[0]
    ensures var t := DoEvict(s, required, bad).store;
            t == s || t == MakeSpace(s, required, None, bad).store || t == Round(s, k, bad).store
  {}

  // ---- puts and deletes ------------------------------------------------------------------------

  lemma NewSums(pages: map<Key, Page>, k: Key, page: Page, loads: set<Key>)
    requires k !in pages && page.payload.Some? && !page.backed && k !in loads
    ensures Sum(Resident(pages[k := page])) == Sum(Resident(pages)) + page.size
    ensures Sum(OnDisk(pages[k := page])) == Sum(OnDisk(pages))
    ensures Sum(Loading(pages[k := page], loads)) == Sum(Loading(pages, loads))
  {
    var size: int := page.size;
    assert Resident(pages[k := page]) == Resident(pages)[k := size];
    assert OnDisk(pages[k := page]) == OnDisk(pages)[k := 0];
    assert Loading(pages[k := page], loads) == Loading(pages, loads)[k := 0];
    SumUpdate(Resident(pages), k, size);
    SumUpdate(OnDisk(pages), k, 0);
    SumUpdate(Loading(pages, loads), k, 0);
  }

  lemma GoneSums(pages: map<Key, Page>, k: Key, loads: set<Key>)
    requires k in pages && k !in loads
    ensures Sum(Resident(pages - {k})) == Sum(Resident(pages)) - (if pages[k].payload.Some? then pages[k].size else 0)
    ensures Sum(OnDisk(pages - {k})) == Sum(OnDisk(pages)) - (if pages[k].backed then pages[k].diskSize else 0)
    ensures Sum(Loading(pages - {k}, loads)) == Sum(Loading(pages, loads))
  {
    assert Resident(pages - {k}) == Resident(pages) - {k} && OnDisk(pages - {k}) == OnDisk(pages) - {k};
    assert Loading(pages - {k}, loads) == Loading(pages, loads) - {k};
    SumSplit(Resident(pages), k);
    SumSplit(OnDisk(pages), k);
    SumSplit(Loading(pages, loads), k);
  }

  lemma CarryNew(disk: map<FileName, File>, pages: map<Key, Page>, ideal: map<Key, Bytes>, k: Key, page: Page,
                 bytes: Bytes)
    requires AllCarry(disk, pages, ideal) && k !in pages && Carries(disk, k, page, bytes)
    ensures AllCarry(disk, pages[k := page], ideal[k := bytes]) == true
  {
    assert pages[k := page].Keys == ideal[k := bytes].Keys;
  }

  lemma CountNew(pages: map<Key, Page>, loads: set<Key>, spills: set<Key>, pinned: map<nat, Key>, k: Key, page: Page)
    requires AllCount(pages, loads, spills, pinned) && k !in pages && page.inflight == 0 && page.pins == 0
    ensures AllCount(pages[k := page], loads, spills, pinned) == true
  {
    assert Pinners(pinned, k) == {};
    assert Counts(page, k, loads, spills, pinned);
  }

  lemma AddContents(disk: map<FileName, File>, pages: map<Key, Page>, ideal: map<Key, Bytes>, k: Key, page: Page,
                    payload: Bytes)
    requires AllCarry(disk, pages, ideal) == true && k !in pages
    requires page.checksum == Sha256(payload) && page.size == |payload| && page.payload == Some(payload) && !page.backed
    requires page.header <= MAX_HEADER + 1
    ensures AllCarry(disk, pages[k := page], ideal[k := payload]) == true
  {
    CarryNew(disk, pages, ideal, k, page, payload);
  }

  lemma ListNew(disk: map<FileName, File>, pages: map<Key, Page>, k: Key, page: Page)
    requires AllListed(disk, pages) && k !in pages
    ensures AllListed(disk, pages[k := page]) == true
  {}

  lemma AddBudgets(t: Store, u: Store, size: nat)
    requires Inv(t) && Fits(t, size) && u.cpuBytes == t.cpuBytes + size && u.cpuReserved == t.cpuReserved
    requires u.cpuBudget == t.cpuBudget && u.diskBytes == t.diskBytes && u.diskBudget == t.diskBudget
    ensures WithinBudgets(u) == true
  {
    Take(t, Budgets);
  }

  lemma AddSums(t: Store, k: Key, payload: Bytes, count: nat, header: nat)
    requires Inv(t) && k !in t.pages
    ensures Summed(Added(t, k, payload, count, header)) == true
  {
    Take(t, Sums);
    assert k !in t.loads by { Take(t, Counters); }
    NewSums(t.pages, k, NewPage(t, payload, count, header), t.loads.Keys);
  }

  lemma AddKeeps(t: Store, k: Key, payload: Bytes, count: nat, header: nat)
    requires Inv(t) && k !in t.pages && Fits(t, |payload|) && header <= MAX_HEADER + 1
    ensures Inv(Added(t, k, payload, count, header))
  {
    var u, page := Added(t, k, payload, count, header), NewPage(t, payload, count, header);
    forall c ensures Holds(u, c) == true {
      match c
      case Contents => Take(t, c); AddContents(t.disk, t.pages, t.ideal, k, page, payload);
      case Files => Take(t, c); ListNew(t.disk, t.pages, k, page);
      case Counters => Take(t, c); CountNew(t.pages, t.loads.Keys, t.spills.Keys, t.pinned, k, page);
      case Sums => AddSums(t, k, payload, count, header);
      case Budgets => AddBudgets(t, u, |payload|);
    }
  }

  lemma PutIntoKeeps(t: Store, k: Key, payload: Bytes, count: nat, header: nat)
    requires Inv(t) && k !in t.pages && Fits(t, |payload|)
    ensures var o := PutInto(t, k, payload, count, header);
            Inv(o.store) && o.store.ideal == if o.result.Ok? then t.ideal[k := payload] else t.ideal
  {
    if header > MAX_HEADER + 1 { CountersOnly(t); } else { AddKeeps(t, k, payload, count, header); }
  }

  lemma PutNewKeeps(s: Store, k: Key, payload: Bytes, count: nat, header: nat, bad: set<Key>)
    requires Inv(s) && k !in s.pages
    ensures var o := PutNew(s, k, payload, count, header, bad);
            Inv(o.store) && o.store.ideal == if o.result.Ok? then s.ideal[k := payload] else s.ideal
  {
    var space := MakeSpace(s, |payload|, None, bad);
    SpaceMade(s, |payload|, None, bad);
    if |payload| <= s.cpuBudget && space.result.Ok? { PutIntoKeeps(space.store, k, payload, count, header); }
  }

  lemma CountersOnly(t: Store)
    requires Inv(t)
    ensures Inv(Ticked(t))
  {
    var u := Ticked(t);
    forall c ensures Holds(u, c) == true { Take(t, c); }
  }

  lemma PutAgainKeeps(s: Store, k: Key, payload: Bytes, count: nat, bad: set<Key>)
    requires Inv(s) && k in s.pages
    ensures var o := PutAgain(s, k, payload, count, bad);
            && Inv(o.store) && o.store.ideal == s.ideal && (o.result.Ok? ==> k in s.ideal && s.ideal[k] == payload)
  {
    AboutPage(s, k);
    TouchKeeps(s, k);
    SpillEffect(s, k, bad);
    if s.pages[k].payload.None? { TouchKeeps(Spill(s, k, bad).store, k); }
  }

  lemma CarryGone(disk: map<FileName, File>, disk': map<FileName, File>, pages: map<Key, Page>, ideal: map<Key, Bytes>,
                  k: Key)
    requires AllCarry(disk, pages, ideal) && forall f :: f in disk && f.0 != k ==> f in disk' && disk'[f] == disk[f]
    ensures AllCarry(disk', pages - {k}, ideal - {k}) == true
  {
    forall j | j in pages && j != k ensures Carries(disk', j, pages[j], ideal[j]) {
      assert Carries(disk, j, pages[j], ideal[j]);
    }
  }

  lemma CountGone(pages: map<Key, Page>, loads: set<Key>, spills: set<Key>, pinned: map<nat, Key>, k: Key)
    requires AllCount(pages, loads, spills, pinned) && k in pages && pages[k].pins == 0 && pages[k].inflight == 0
    ensures AllCount(pages - {k}, loads, spills, pinned) == true && k !in loads && k !in spills
  {
    assert Counts(pages[k], k, loads, spills, pinned);
    assert Pinners(pinned, k) == {};
    forall id | id in pinned ensures pinned[id] != k {
      assert id !in Pinners(pinned, k);
    }
    forall j | j in pages && j != k ensures Counts(pages[j], j, loads, spills, pinned) {}
  }

  lemma DeleteKeeps(s: Store, k: Key, bad: set<Key>)
    requires Inv(s)
    ensures var o := DoDelete(s, k, bad);
            Inv(o.store) && o.store.ideal == if o.result.Ok? then s.ideal - {k} else s.ideal
  {
    if DoDelete(s, k, bad).result.Ok? { RemovedGood(s, k); }
  }

  lemma RemovedGood(s: Store, k: Key)
    requires Inv(s) && k in s.pages && s.pages[k].pins == 0 && s.pages[k].inflight == 0
    ensures Inv(Removed(s, k))
  {
    var t := Removed(s, k);
    NothingOutstanding(s, k);
    forall c ensures Holds(t, c) == true {
      match c
      case Contents => Take(s, c); CarryGone(s.disk, t.disk, s.pages, s.ideal, k);
      case Files => Take(s, c); ListGone(s.disk, s.pages, k);
      case Counters => Take(s, c); CountGone(s.pages, s.loads.Keys, s.spills.Keys, s.pinned, k);
      case Sums => Take(s, c); GoneSums(s.pages, k, s.loads.Keys);
      case Budgets => AboutPage(s, k); Take(s, c);
    }
  }

  lemma NothingOutstanding(s: Store, k: Key)
    requires Inv(s) && k in s.pages && s.pages[k].pins == 0 && s.pages[k].inflight == 0
    ensures k !in s.loads && k !in s.spills
  {
    AboutPage(s, k);
  }

  lemma ListGone(disk: map<FileName, File>, pages: map<Key, Page>, k: Key)
    requires AllListed(disk, pages) && k in pages
    ensures AllListed(if pages[k].backed then disk - {(k, pages[k].generation)} else disk, pages - {k}) == true
  {
    var own := (k, pages[k].generation);
    var disk' := if pages[k].backed then disk - {own} else disk;
    forall f | f in disk' ensures f.0 in pages - {k} {
      assert f in disk && (f.0 == k ==> f == own);
    }
  }

  // ---- loads ------------------------------------------------------------------------------------

  lemma ReserveKeeps(s: Store, k: Key)
    requires Inv(s) && k in s.pages && k !in s.loads && s.pages[k].payload.None? && Fits(s, s.pages[k].size)
    ensures Inv(Reserve(s, k))
  {
    var t := Reserve(s, k);
    AboutPage(s, k);
    CallsReplace(s, t, k);
    SameFiles(s, k, t.pages[k]);
    PageReplaced(s, t, k);
  }

  /** Page `k` and its outstanding loads and spills change. */
  lemma CallsReplace(s: Store, t: Store, k: Key)
    requires Inv(s) && k in s.pages && k in t.pages && t.pages == s.pages[k := t.pages[k]] && t.ideal == s.ideal
    requires t.cpuBudget == s.cpuBudget && t.diskBudget == s.diskBudget && t.pages[k].size == s.pages[k].size
    requires t.pinned == s.pinned
    requires t.loads.Keys - {k} == s.loads.Keys - {k} && t.spills.Keys - {k} == s.spills.Keys - {k}
    ensures Replaces(s, t, k) == true
  {
    AboutPage(s, k);
  }

  lemma SubmitLoadKeeps(s: Store, k: Key, bad: set<Key>)
    requires Inv(s)
    ensures var o := DoSubmitLoad(s, k, bad);
            Inv(o.store) && o.store.ideal == s.ideal
                && (o.result.Ok? && o.result.value.Ready? ==> k in s.ideal && o.result.value.payload == s.ideal[k])
  {
    if Open(s) && k in s.pages {
      AboutPage(s, k);
      TouchKeeps(s, k);
      if s.pages[k].payload.None? && k !in s.loads { SpaceForLoad(Touch(s, k), k, bad); }
    }
  }

  lemma SpaceForLoad(t: Store, k: Key, bad: set<Key>)
    requires Inv(t) && k in t.pages && t.pages[k].payload.None? && k !in t.loads
    ensures var space := MakeSpace(t, t.pages[k].size, Some(k), bad);
            && Inv(space.store) && space.store.ideal == t.ideal && k in space.store.pages
            && (space.result.Ok? ==> Inv(Reserve(space.store, k)))
  {
    var space := MakeSpace(t, t.pages[k].size, Some(k), bad);
    CandidatesMayGo(t, Some(k));
    SpaceMade(t, t.pages[k].size, Some(k), bad);
    if space.result.Ok? { ReserveKeeps(space.store, k); }
  }

  /** A completed read of a backed page is the page's bytes. */
  lemma ReadIsIdeal(s: Store, k: Key, bad: set<Key>)
    requires Inv(s) && k in s.pages
    ensures k in s.ideal && ReadDisk(s, k, bad) == if s.pages[k].backed && k !in bad then Ok(s.ideal[k])
            else Err(Integrity)
  {
    AboutPage(s, k);
  }

  lemma FinishLoadKeeps(s: Store, k: Key, bad: set<Key>)
    requires Inv(s) && k in s.loads && k in s.pages
    ensures var o := DoFinishLoad(s, k, bad);
            Inv(o.store) && o.store.ideal == s.ideal && (o.result.Ok? ==> k in s.ideal && o.result.value == s.ideal[k])
  {
    ReadIsIdeal(s, k, bad);
    var o := DoFinishLoad(s, k, bad);
    if o.result.Ok? { LoadedKeeps(s, k); } else { UnloadedKeeps(s, k); }
  }

  lemma LoadedKeeps(s: Store, k: Key)
    requires Inv(s) && k in s.loads && k in s.pages && k in s.ideal
    ensures Inv(Loaded(s, k, s.ideal[k]))
  {
    var t := Loaded(s, k, s.ideal[k]);
    AboutPage(s, k);
    CallsReplace(s, t, k);
    SameFiles(s, k, t.pages[k]);
    PageReplaced(s, t, k);
  }

  lemma UnloadedKeeps(s: Store, k: Key)
    requires Inv(s) && k in s.loads && k in s.pages
    ensures Inv(Unloaded(s, k))
  {
    var t := Unloaded(s, k);
    AboutPage(s, k);
    CallsReplace(s, t, k);
    SameFiles(s, k, t.pages[k]);
    PageReplaced(s, t, k);
  }

  // ---- spills and pins ------------------------------------------------------------------------------

  lemma SubmitSpillKeeps(s: Store, k: Key)
    requires Inv(s)
    ensures Inv(DoSubmitSpill(s, k).store) && DoSubmitSpill(s, k).store.ideal == s.ideal
  {
    var t := DoSubmitSpill(s, k).store;
    if t != s {
      AboutPage(s, k);
      CallsReplace(s, t, k);
      SameFiles(s, k, t.pages[k]);
      PageReplaced(s, t, k);
    }
  }

  lemma UnspillKeeps(s: Store, k: Key)
    requires Inv(s) && k in s.pages && k in s.spills
    ensures Inv(Unspill(s, k))
  {
    var t := Unspill(s, k);
    AboutPage(s, k);
    CallsReplace(s, t, k);
    SameFiles(s, k, t.pages[k]);
    PageReplaced(s, t, k);
  }

  lemma WriteSpillKeeps(s: Store, k: Key, bad: set<Key>)
    requires Inv(s) && k in s.spills && k in s.pages
    ensures var o := DoWriteSpill(s, k, bad);
            && Inv(o.store) && o.store.ideal == s.ideal && o.store.spills == s.spills
            && (o.result.Ok? ==> k in o.store.pages && o.store.pages[k].backed)
  {
    SpillEffect(s, k, bad);
  }

  lemma FinishSpillKeeps(s: Store, k: Key, bad: set<Key>)
    requires Inv(s) && k in s.spills && k in s.pages
    ensures var o := DoFinishSpill(s, k, bad);
            Inv(o.store) && o.store.ideal == s.ideal && (o.result.Ok? ==> k in o.store.pages && o.store.pages[k].backed)
  {
    WriteSpillKeeps(s, k, bad);
    UnspillKeeps(DoWriteSpill(s, k, bad).store, k);
  }

  /** Page `k` and who pins it change. */
  lemma PinsReplace(s: Store, t: Store, k: Key)
    requires Inv(s) && k in s.pages && k in t.pages && t.pages == s.pages[k := t.pages[k]] && t.ideal == s.ideal
    requires t.cpuBudget == s.cpuBudget && t.diskBudget == s.diskBudget && t.pages[k].size == s.pages[k].size
    requires t.loads == s.loads && t.spills == s.spills
    requires (forall j :: j != k ==> Pinners(s.pinned, j) == Pinners(t.pinned, j)) && forall id :: id in t.pinned ==>
             t.pinned[id] in s.pages
    ensures Replaces(s, t, k) == true
  {
    AboutPage(s, k);
  }

  lemma PinnersAfter(pinned: map<nat, Key>, id: nat, k: Key)
    requires id !in pinned
    ensures forall j :: j != k ==> Pinners(pinned[id := k], j) == Pinners(pinned, j)
    ensures |Pinners(pinned[id := k], k)| == |Pinners(pinned, k)| + 1
  {
    assert Pinners(pinned[id := k], k) == Pinners(pinned, k) + {id};
    forall j | j != k ensures Pinners(pinned[id := k], j) == Pinners(pinned, j) {}
  }

  lemma PinKeeps(s: Store, id: nat, k: Key)
    requires Inv(s) && id !in s.pinned
    ensures Inv(DoPin(s, id, k).store) && DoPin(s, id, k).store.ideal == s.ideal
  {
    var t := DoPin(s, id, k).store;
    if t != s {
      AboutPage(s, k);
      PinnersAfter(s.pinned, id, k);
      PinsReplace(s, t, k);
      SameFiles(s, k, t.pages[k]);
      PageReplaced(s, t, k);
    }
  }

  lemma UnpinKeeps(s: Store, id: nat)
    requires Inv(s) && id in s.pinned && s.pinned[id] in s.pages
    ensures Inv(DoUnpin(s, id)) && DoUnpin(s, id).ideal == s.ideal
  {
    var t, k := DoUnpin(s, id), s.pinned[id];
    AboutPage(s, k);
    PinnersAfter(s.pinned - {id}, id, k);
    assert (s.pinned - {id})[id := k] == s.pinned;
    PinsReplace(s, t, k);
    SameFiles(s, k, t.pages[k]);
    PageReplaced(s, t, k);
  }

  // ---- every step -----------------------------------------------------------------------------------

  lemma EvictKeeps(s: Store, required: nat, bad: set<Key>)
    requires Inv(s)
    ensures Inv(DoEvict(s, required, bad).store) && DoEvict(s, required, bad).store.ideal == s.ideal
  {
    SpaceMade(s, required, None, bad);
    CandidatesMayGo(s, None);
    if Open(s) && required == 0 && Candidates(s, None) != [] {
      var k := Candidates(s, None)[0];
      SpillEffect(s, k, bad);
      if Spill(s, k, bad).result.Ok? {
        FirstResident(s, Spill(s, k, bad).store, Candidates(s, None));
        DropKeeps(Spill(s, k, bad).store, k);
      }
    }
  }

  lemma CloseKeeps(s: Store, t: Store)
    requires Inv(s) && t.pages == s.pages && t.disk == s.disk && t.ideal == s.ideal
    requires t.loads == s.loads && t.spills == s.spills && t.pinned == s.pinned
    requires t.cpuBytes == s.cpuBytes && t.diskBytes == s.diskBytes && t.cpuReserved == s.cpuReserved
    requires t.cpuBudget == s.cpuBudget && t.diskBudget == s.diskBudget
    ensures Inv(t)
  {
    forall c ensures Holds(t, c) == true { Take(s, c); }
  }

  /** The key -> bytes map changes only by a first put or a delete that succeeds. */
  ghost function IdealAfter(s: Store, e: Step): map<Key, Bytes> {
    match e
    case Put(k, payload, count, header, bad) =>
      if DoPut(s, k, payload, count, header, bad).result.Ok? then s.ideal[k := payload] else s.ideal
    case Delete(k, bad) => if DoDelete(s, k, bad).result.Ok? then s.ideal - {k} else s.ideal
    case _ => s.ideal
  }

  lemma WorkKeeps(s: Store, e: Step)
    requires Inv(s) && !e.Put? && !e.Evict? && !e.SubmitLoad? && !e.Delete?
    ensures Inv(Next(s, e)) && Next(s, e).ideal == s.ideal
  {
    match e
    case FinishLoad(k, bad) => if k in s.loads && k in s.pages { FinishLoadKeeps(s, k, bad); }
    case SubmitSpill(k) => SubmitSpillKeeps(s, k);
    case WriteSpill(k, bad) => if k in s.spills && k in s.pages { WriteSpillKeeps(s, k, bad); }
    case EndSpill(k) => if k in s.spills && k in s.pages { UnspillKeeps(s, k); }
    case _ => UseKeeps(s, e);
  }

  lemma CloseBeginKeeps(s: Store, cancel: bool)
    requires Inv(s)
    ensures Inv(DoCloseBegin(s, cancel)) && DoCloseBegin(s, cancel).ideal == s.ideal
  {
    CloseKeeps(s, DoCloseBegin(s, cancel));
  }

  lemma CloseEndKeeps(s: Store)
    requires Inv(s)
    ensures Inv(DoCloseEnd(s)) && DoCloseEnd(s).ideal == s.ideal
  {
    CloseKeeps(s, DoCloseEnd(s));
  }

  lemma UseKeeps(s: Store, e: Step)
    requires Inv(s) && (e.PinEnter? || e.PinExit? || e.CloseBegin? || e.CloseEnd?)
    ensures Inv(Next(s, e)) && Next(s, e).ideal == s.ideal
  {
    match e
    case PinEnter(id, k) => if id !in s.pinned { PinKeeps(s, id, k); }
    case PinExit(id) => if id in s.pinned && s.pinned[id] in s.pages { UnpinKeeps(s, id); }
    case CloseBegin(cancel) => CloseBeginKeeps(s, cancel);
    case CloseEnd => CloseEndKeeps(s);
  }

  /** Every step keeps the invariant. */
  lemma StepKeeps(s: Store, e: Step)
    requires Inv(s)
    ensures Inv(Next(s, e)) && Next(s, e).ideal == IdealAfter(s, e)
  {
    match e
    case Put(k, payload, count, header, bad) => PutKeeps(s, k, payload, count, header, bad);
    case Evict(required, bad) => EvictKeeps(s, required, bad);
    case SubmitLoad(k, bad) => SubmitLoadKeeps(s, k, bad);
    case Delete(k, bad) => DeleteKeeps(s, k, bad);
    case _ => WorkKeeps(s, e);
  }

  lemma PutKeeps(s: Store, k: Key, payload: Bytes, count: nat, header: nat, bad: set<Key>)
    requires Inv(s)
    ensures var o := DoPut(s, k, payload, count, header, bad);
            Inv(o.store) && o.store.ideal == if o.result.Ok? then s.ideal[k := payload] else s.ideal
  {
    if Open(s) {
      if k in s.pages {
        PutAgainKeeps(s, k, payload, count, bad);
        if PutAgain(s, k, payload, count, bad).result.Ok? { assert s.ideal[k := payload] == s.ideal; }
      } else {
        PutNewKeeps(s, k, payload, count, header, bad);
      }
    }
  }
}
