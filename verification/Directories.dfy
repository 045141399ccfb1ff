/** The cache directory between processes: who may open it, what a crash at any
    moment leaves in it, and what the next store finds there. */
module Directories {
  import opened Basics
  import opened Storage
  import opened StorageSafety
  import opened StorageTheorems

  /** The page files, the unfinished `.pending-*` files and the `.writer.lock`. */
  datatype Directory = Directory(files: map<FileName, File>, pending: set<nat>, locked: bool)

  /** `__init__` and `_restore_catalog`: a held lock and an unfinished write need explicit
      clean-up, every page file must be whole, of a plausible size and the only one of
      its key, and together they must fit. */
  function Opened(d: Directory, cpuBudget: nat, diskBudget: nat, order: seq<Key>): Result<Store> {
    if d.locked then Err(Busy)
    else if d.pending != {} || !Catalog(d.files) || Oversized(d.files, diskBudget) then Err(Integrity)
    else match OpenStore(cpuBudget, diskBudget, d.files, order)
      case None => Err(Capacity)
      case Some(s) => Ok(s)
  }

  /** A file whose size alone exceeds the disk budget is taken for corrupt. */
  predicate Oversized(files: map<FileName, File>, diskBudget: nat) {
    exists f :: f in files && files[f].size > diskBudget
  }

  /** The explicit clean-up: the stale lock and the unfinished writes go. */
  function Cleaned(d: Directory): Directory {
    Directory(d.files, {}, false)
  }

  // ---- the moments of a crash ---------------------------------------------------------

  /** The directory while no write is under way. */
  function Resting(s: Store): Directory {
    Directory(s.disk, {}, s.locked)
  }

  /** The checks of a spill before it writes. */
  ghost predicate SpillReady(s: Store, k: Key) {
    && k in s.pages && !s.pages[k].backed && s.pages[k].payload.Some? && Verified(s.pages[k], s.pages[k].payload.value)
    && s.diskBytes + s.pages[k].header + s.pages[k].size <= s.diskBudget
  }

  /** Inside `_write_page`: the temporary file is there, in any state, or it has been
      renamed; a failing write passes through the same states. */
  ghost predicate SpillDuring(s: Store, k: Key, d: Directory) {
    && SpillReady(s, k)
    && ((exists temporary: nat :: d == Directory(s.disk, {temporary}, s.locked))
        || d == Resting(Publish(s, k, s.pages[k].payload.value)))
  }

  /** Inside the eviction loop: in the write of some round, or between two rounds. */
  ghost predicate EvictDuring(s: Store, order: seq<Key>, needed: nat, bad: set<Key>, d: Directory)
    requires forall k :: k in order ==> k in s.pages
    decreases |order|
  {
    && order != [] && !Fits(s, needed)
    && (SpillDuring(s, order[0], d)
        || (var round := Round(s, order[0], bad);
            round.result.Ok? && (d == Resting(round.store) || EvictDuring(round.store, order[1..], needed, bad, d))))
  }

  ghost predicate SpaceDuring(s: Store, needed: nat, exclude: Option<Key>, bad: set<Key>, d: Directory) {
    EvictDuring(s, Candidates(s, exclude), needed, bad, d)
  }

  /** What the directory may hold while a step is running. */
  ghost predicate StepDuring(s: Store, e: Step, d: Directory) {
    match e
    case Put(k, payload, count, header, bad) =>
      Open(s) && if k in s.pages then SpillDuring(s, k, d) else SpaceDuring(s, |payload|, None, bad, d)
    case Evict(required, bad) =>
      Open(s) && if required > 0 then SpaceDuring(s, required, None, bad, d)
                 else Candidates(s, None) != [] && SpillDuring(s, Candidates(s, None)[0], d)
    case SubmitLoad(k, bad) => Open(s) && k in s.pages && SpaceDuring(Touch(s, k), s.pages[k].size, Some(k), bad, d)
    case WriteSpill(k, bad) => k in s.spills && SpillDuring(s, k, d)
    case _ => false
  }

  /** The process ends before the step, while it runs, or after it. */
  ghost predicate Crashed(s: Store, e: Step, d: Directory) {
    d == Resting(s) || StepDuring(s, e, d) || d == Resting(Next(s, e))
  }

  // ---- what a step does to backing copies ------------------------------------------------

  /** No backing copy is lost, and a page that is new has none yet. */
  ghost predicate Moves(a: map<Key, Page>, b: map<Key, Page>) {
    && (forall k :: k in a && k in b && a[k].backed ==> b[k].backed)
    && (forall k :: k in b && b[k].backed ==> k in a)
  }

  lemma MovesMore(a: map<Key, Page>, b: map<Key, Page>, c: map<Key, Page>)
    requires Grows(a, b) && Moves(b, c)
    ensures Moves(a, c) == true
  {}

  lemma OneMoves(a: map<Key, Page>, k: Key, page: Page)
    requires if k in a then a[k].backed ==> page.backed else !page.backed
    ensures Moves(a, a[k := page]) == true
  {}

  lemma SpaceGrows(s: Store, needed: nat, exclude: Option<Key>, bad: set<Key>)
    ensures Grows(s.pages, MakeSpace(s, needed, exclude, bad).store.pages) == true
  {
    EvictionGrows(s, Candidates(s, exclude), needed, bad);
  }

  lemma PutIntoMoves(s: Store, k: Key, payload: Bytes, count: nat, header: nat)
    requires k !in s.pages
    ensures Moves(s.pages, PutInto(s, k, payload, count, header).store.pages) == true
  {
    OneMoves(s.pages, k, NewPage(s, payload, count, header));
  }

  lemma PutNewMoves(s: Store, k: Key, payload: Bytes, count: nat, header: nat, bad: set<Key>)
    requires k !in s.pages
    ensures Moves(s.pages, PutNew(s, k, payload, count, header, bad).store.pages) == true
  {
    var space := MakeSpace(s, |payload|, None, bad);
    SpaceGrows(s, |payload|, None, bad);
    PutIntoMoves(space.store, k, payload, count, header);
    MovesMore(s.pages, space.store.pages, PutInto(space.store, k, payload, count, header).store.pages);
  }

  lemma TouchMoves(s: Store, k: Key)
    requires k in s.pages
    ensures Moves(s.pages, Touch(s, k).pages) == true
  {
    OneMoves(s.pages, k, Touch(s, k).pages[k]);
  }

  lemma PutAgainMoves(s: Store, k: Key, payload: Bytes, count: nat, bad: set<Key>)
    requires k in s.pages
    ensures Moves(s.pages, PutAgain(s, k, payload, count, bad).store.pages) == true
  {
    var t := Spill(s, k, bad).store;
    SpillGrows(s, k, bad);
    TouchMoves(s, k);
    TouchMoves(t, k);
    MovesMore(s.pages, t.pages, Touch(t, k).pages);
    AgainEnds(s, k, payload, count, bad);
  }

  lemma PutMoves(s: Store, k: Key, payload: Bytes, count: nat, header: nat, bad: set<Key>)
    ensures Moves(s.pages, DoPut(s, k, payload, count, header, bad).store.pages) == true
  {
    if k in s.pages { PutAgainMoves(s, k, payload, count, bad); }
    else { PutNewMoves(s, k, payload, count, header, bad); }
  }

  lemma EvictMoves(s: Store, required: nat, bad: set<Key>)
    ensures Moves(s.pages, DoEvict(s, required, bad).store.pages) == true
  {
    SpaceGrows(s, required, None, bad);
    if Candidates(s, None) != [] {
      CandidatesMayGo(s, None);
      RoundGrows(s, Candidates(s, None)[0], bad);
      EvictEnds(s, required, bad, Candidates(s, None)[0]);
    }
  }

  lemma LoadMoves(s: Store, k: Key, bad: set<Key>)
    ensures Moves(s.pages, DoSubmitLoad(s, k, bad).store.pages) == true
  {
    if k in s.pages {
      var t := Touch(s, k);
      OneMoves(s.pages, k, t.pages[k]);
      SpaceGrows(t, s.pages[k].size, Some(k), bad);
      ReserveMoves(s, t, MakeSpace(t, s.pages[k].size, Some(k), bad).store, k);
    }
  }

  lemma ReserveMoves(s: Store, t: Store, u: Store, k: Key)
    requires k in s.pages && t == Touch(s, k) && Grows(t.pages, u.pages)
    ensures Moves(s.pages, u.pages) == true && Moves(s.pages, Reserve(u, k).pages) == true
  {}

  lemma WriteSpillMoves(s: Store, k: Key, bad: set<Key>)
    requires k in s.spills && k in s.pages
    ensures Moves(s.pages, DoWriteSpill(s, k, bad).store.pages) == true
  {
    SpillGrows(s, k, bad);
  }

  lemma EndSpillMoves(s: Store, k: Key)
    requires k in s.pages
    ensures Moves(s.pages, Unspill(s, k).pages) == true
  {
    OneMoves(s.pages, k, Unspill(s, k).pages[k]);
  }

  lemma LoadedMoves(s: Store, k: Key, payload: Bytes)
    requires k in s.pages
    ensures Moves(s.pages, Loaded(s, k, payload).pages) == true
  {
    OneMoves(s.pages, k, Loaded(s, k, payload).pages[k]);
  }

  lemma UnloadedMoves(s: Store, k: Key)
    requires k in s.pages
    ensures Moves(s.pages, Unloaded(s, k).pages) == true
  {
    OneMoves(s.pages, k, Unloaded(s, k).pages[k]);
  }

  lemma FinishLoadMoves(s: Store, k: Key, bad: set<Key>)
    requires k in s.loads && k in s.pages
    ensures Moves(s.pages, DoFinishLoad(s, k, bad).store.pages) == true
  {
    var o := DoFinishLoad(s, k, bad);
    if o.result.Ok? { LoadedMoves(s, k, o.result.value); } else { UnloadedMoves(s, k); }
  }

  lemma SameMoves(a: map<Key, Page>, b: map<Key, Page>)
    requires b.Keys <= a.Keys && forall k :: k in b ==> b[k].backed == a[k].backed
    ensures Moves(a, b) == true
  {}

  lemma SubmitSpillMoves(s: Store, k: Key)
    ensures Moves(s.pages, DoSubmitSpill(s, k).store.pages) == true
  {
    SameMoves(s.pages, DoSubmitSpill(s, k).store.pages);
  }

  lemma PinMoves(s: Store, id: nat, k: Key)
    requires id !in s.pinned
    ensures Moves(s.pages, DoPin(s, id, k).store.pages) == true
  {
    SameMoves(s.pages, DoPin(s, id, k).store.pages);
  }

  lemma UnpinMoves(s: Store, id: nat)
    requires id in s.pinned && s.pinned[id] in s.pages
    ensures Moves(s.pages, DoUnpin(s, id).pages) == true
  {
    SameMoves(s.pages, DoUnpin(s, id).pages);
  }

  lemma DeleteMoves(s: Store, k: Key, bad: set<Key>)
    ensures Moves(s.pages, DoDelete(s, k, bad).store.pages) == true
  {
    SameMoves(s.pages, DoDelete(s, k, bad).store.pages);
  }

  /** No step but a delete takes a backing copy away, and only a spill makes one. */
  lemma StepMoves(s: Store, e: Step)
    ensures Moves(s.pages, Next(s, e).pages) == true
  {
    match e
    case Put(k, payload, count, header, bad) => PutMoves(s, k, payload, count, header, bad);
    case Evict(required, bad) => EvictMoves(s, required, bad);
    case SubmitLoad(k, bad) => LoadMoves(s, k, bad);
    case FinishLoad(k, bad) => if k in s.loads && k in s.pages { FinishLoadMoves(s, k, bad); }
    case WriteSpill(k, bad) => if k in s.spills && k in s.pages { WriteSpillMoves(s, k, bad); }
    case EndSpill(k) => if k in s.spills && k in s.pages { EndSpillMoves(s, k); }
    case SubmitSpill(k) => SubmitSpillMoves(s, k);
    case PinEnter(id, k) => if id !in s.pinned { PinMoves(s, id, k); }
    case PinExit(id) => if id in s.pinned && s.pinned[id] in s.pages { UnpinMoves(s, id); }
    case Delete(k, bad) => DeleteMoves(s, k, bad);
    case _ =>
      assert Next(s, e).pages == s.pages;
      SameMoves(s.pages, s.pages);
  }

  // ---- each such directory is that of a store in good order ----------------------------

  /** A store in good order with these files, the same map, and no backing copy lost. */
  ghost predicate Like(s: Store, u: Store, d: Directory) {
    && Inv(u) && u.disk == d.files && u.diskBudget == s.diskBudget && u.ideal == s.ideal && d.locked == s.locked
    && Grows(s.pages, u.pages)
  }

  lemma SpillPoint(s: Store, k: Key, d: Directory) returns (u: Store)
    requires Inv(s) && SpillDuring(s, k, d)
    ensures Like(s, u, d) == true
  {
    if d == Resting(Publish(s, k, s.pages[k].payload.value)) {
      u := Publish(s, k, s.pages[k].payload.value);
      PublishKeeps(s, k, s.pages[k].payload.value);
    } else {
      u := s;
    }
  }

  lemma LikeMore(s: Store, t: Store, u: Store, d: Directory)
    requires t.diskBudget == s.diskBudget && t.ideal == s.ideal && t.locked == s.locked
    requires Grows(s.pages, t.pages) && Like(t, u, d)
    ensures Like(s, u, d) == true
  {}

  lemma {:induction false} EvictionPoint(s: Store, order: seq<Key>, needed: nat, bad: set<Key>, d: Directory)
    returns (u: Store)
    requires Inv(s) && MayEvict(s, order) == true && (forall k :: k in order ==> k in s.pages)
    requires EvictDuring(s, order, needed, bad, d)
    ensures Like(s, u, d) == true
    decreases |order|
  {
    if SpillDuring(s, order[0], d) {
      u := SpillPoint(s, order[0], d);
    } else {
      var t := Round(s, order[0], bad).store;
      RoundKeeps(s, order, bad);
      if d == Resting(t) { u := t; } else { u := EvictionPoint(t, order[1..], needed, bad, d); }
      LikeMore(s, t, u, d);
    }
  }

  lemma RoundKeeps(s: Store, order: seq<Key>, bad: set<Key>)
    requires Inv(s) && order != [] && MayEvict(s, order) == true && (forall k :: k in order ==> k in s.pages)
    requires Round(s, order[0], bad).result.Ok?
    ensures var t := Round(s, order[0], bad).store;
            && Inv(t) && MayEvict(t, order[1..]) == true && Grows(s.pages, t.pages)
            && t.ideal == s.ideal && t.diskBudget == s.diskBudget && t.locked == s.locked
  {
    SpillEffect(s, order[0], bad);
    FirstResident(s, Spill(s, order[0], bad).store, order);
    EvictOne(s, Spill(s, order[0], bad).store, order);
    RoundGrows(s, order[0], bad);
  }

  lemma SpacePoint(s: Store, needed: nat, exclude: Option<Key>, bad: set<Key>, d: Directory) returns (u: Store)
    requires Inv(s) && SpaceDuring(s, needed, exclude, bad, d)
    ensures Like(s, u, d) == true
  {
    CandidatesMayGo(s, exclude);
    u := EvictionPoint(s, Candidates(s, exclude), needed, bad, d);
  }

  lemma StepPoint(s: Store, e: Step, d: Directory) returns (u: Store)
    requires Inv(s) && StepDuring(s, e, d)
    ensures Like(s, u, d) == true
  {
    match e
    case Put(k, payload, count, header, bad) =>
      if k in s.pages { u := SpillPoint(s, k, d); } else { u := SpacePoint(s, |payload|, None, bad, d); }
    case Evict(required, bad) =>
      if required > 0 { u := SpacePoint(s, required, None, bad, d); }
      else { u := SpillPoint(s, Candidates(s, None)[0], d); }
    case SubmitLoad(k, bad) =>
      TouchKeeps(s, k);
      u := SpacePoint(Touch(s, k), s.pages[k].size, Some(k), bad, d);
      LikeMore(s, Touch(s, k), u, d);
    case WriteSpill(k, bad) => u := SpillPoint(s, k, d);
  }

  lemma CrashPoint(s: Store, e: Step, d: Directory) returns (u: Store)
    requires Inv(s) && Crashed(s, e, d)
    ensures Inv(u) && u.disk == d.files && u.diskBudget == s.diskBudget
    ensures Like(s, u, d) == true || (u == Next(s, e) && d == Resting(u))
  {
    if d == Resting(s) { u := s; }
    else if StepDuring(s, e, d) { u := StepPoint(s, e, d); }
    else { u := Next(s, e); StepKeeps(s, e); }
  }

  // ---- reopening -------------------------------------------------------------------------

  lemma FittingFiles(files: map<FileName, File>, order: seq<Key>, diskBudget: nat)
    requires Catalog(files) && FileSizes(files, order) <= diskBudget
    ensures !Oversized(files, diskBudget)
  {
    var weights := OnDisk(Restored(files, order));
    SumPositive(weights);
    forall f | f in files ensures files[f].size <= diskBudget {
      FileOfName(files, f);
      assert weights[f.0] == files[f].header + files[f].size;
    }
  }

  lemma OpenedWhen(d: Directory, cpuBudget: nat, diskBudget: nat, order: seq<Key>)
    requires Catalog(d.files)
    ensures Opened(d, cpuBudget, diskBudget, order).Ok? <==>
            !d.locked && d.pending == {} && FileSizes(d.files, order) <= diskBudget
  {
    if FileSizes(d.files, order) <= diskBudget { FittingFiles(d.files, order, diskBudget); }
  }

  /** Whatever the process was doing when it ended, the files it leaves are whole. Opening
      the directory is refused exactly while the lock or an unfinished write is there, or
      if the files exceed the new budget. */
  lemma OpensExactly(s: Store, e: Step, d: Directory, cpuBudget: nat, diskBudget: nat, order: seq<Key>)
    requires Reached(s) && Crashed(s, e, d)
    ensures Catalog(d.files)
    ensures Opened(d, cpuBudget, diskBudget, order).Ok? <==>
            !d.locked && d.pending == {} && FileSizes(d.files, order) <= diskBudget
  {
    ReachedInv(s);
    var u := CrashPoint(s, e, d);
    DiskIsCatalog(u);
    OpenedWhen(d, cpuBudget, diskBudget, order);
  }

  lemma BackedFitsBudget(u: Store, order: seq<Key>)
    requires Inv(u) && Catalog(u.disk)
    ensures FileSizes(u.disk, order) <= u.diskBudget
  {
    BackedNames(u, order);
    Take(u, Budgets);
    Take(u, Sums);
  }

  lemma OpenedValue(files: map<FileName, File>, cpuBudget: nat, diskBudget: nat, order: seq<Key>) returns (t: Store)
    requires Catalog(files) && FileSizes(files, order) <= diskBudget
    ensures Opened(Directory(files, {}, false), cpuBudget, diskBudget, order) == Ok(t)
    ensures OpenStore(cpuBudget, diskBudget, files, order) == Some(t) && t.locked
  {
    FittingFiles(files, order, diskBudget);
    t := OpenStore(cpuBudget, diskBudget, files, order).value;
  }

  lemma CleanedOpens(u: Store, d: Directory, cpuBudget: nat, order: seq<Key>) returns (t: Store)
    requires Inv(u) && u.disk == d.files
    ensures Opened(Cleaned(d), cpuBudget, u.diskBudget, order) == Ok(t)
    ensures Reached(t) && t.locked && t.disk == d.files && t.ideal == Published(u) && t.ideal.Keys == NamesIn(d.files)
    ensures OneFileEach(d.files) && t.pages == Restored(d.files, order)
  {
    DiskIsCatalog(u);
    BackedFitsBudget(u, order);
    t := OpenedValue(d.files, cpuBudget, u.diskBudget, order);
    ReopenedReached(cpuBudget, u.diskBudget, d.files, order);
    Reopened(u, cpuBudget, order);
    OpenedFields(cpuBudget, u.diskBudget, d.files, order);
  }

  /** Once the lock and unfinished writes are cleaned up, a store with the same disk budget
      opens. It holds exactly the published pages, each with the bytes first put under its
      key, and every page that had a backing copy and was not being deleted. */
  lemma CrashThenReopen(s: Store, e: Step, d: Directory, cpuBudget: nat, order: seq<Key>)
    requires Reached(s) && Crashed(s, e, d)
    ensures var o := Opened(Cleaned(d), cpuBudget, s.diskBudget, order);
            && o.Ok? && Reached(o.value) && o.value.locked && o.value.disk == d.files
            && o.value.ideal.Keys == NamesIn(d.files)
            && (forall k :: k in o.value.ideal ==> k in s.ideal && o.value.ideal[k] == s.ideal[k])
            && (forall k :: k in s.pages && s.pages[k].backed && k in Next(s, e).pages ==> k in o.value.ideal)
  {
    ReachedInv(s);
    var u := CrashPoint(s, e, d);
    var t := CleanedOpens(u, d, cpuBudget, order);
    forall k | k in Published(u) ensures k in s.ideal && u.ideal[k] == s.ideal[k] { OldBytes(s, e, u, k); }
    forall k | k in s.pages && s.pages[k].backed && k in Next(s, e).pages
      ensures k in Published(u)
    {
      BackedIn(s, e, u, k);
    }
  }

  lemma OldBytes(s: Store, e: Step, u: Store, k: Key)
    requires Reached(s) && Inv(s) && Inv(u) && (u == Next(s, e) || u.ideal == s.ideal)
    requires k in u.pages && u.pages[k].backed && k in u.ideal
    ensures k in s.ideal && u.ideal[k] == s.ideal[k]
  {
    if u == Next(s, e) {
      OnlyPutsAndDeletes(s, e, k);
      CatalogIsMap(s, k);
      StepMoves(s, e);
    }
  }

  lemma BackedIn(s: Store, e: Step, u: Store, k: Key)
    requires Inv(s) && Inv(u) && (u == Next(s, e) || (u.ideal == s.ideal && Grows(s.pages, u.pages)))
    requires k in s.pages && s.pages[k].backed && k in Next(s, e).pages
    ensures k in u.pages && u.pages[k].backed && k in u.ideal
  {
    StepMoves(s, e);
    Take(u, Contents);
  }

  // ---- one writer ----------------------------------------------------------------------

  lemma {:induction false} ReplayReleases(s: Store, es: seq<Step>)
    requires s.locked || Retired(s)
    ensures Replay(s, es).locked || Retired(Replay(s, es))
    decreases |es|
  {
    if es != [] {
      if !s.locked { RetiredStays(s, es[0]); }
      ReplayReleases(Next(s, es[0]), es[1..]);
    }
  }

  ghost predicate Retired(s: Store) {
    !s.locked && s.closed && s.loads == map[] && s.spills == map[]
  }

  lemma RetiredStays(s: Store, e: Step)
    requires Retired(s)
    ensures Retired(Next(s, e)) == true && Next(s, e).disk == s.disk
  {}

  /** A store that has given up the lock never writes to the directory again, so it
      leaves the next writer alone; until then the directory cannot be opened. */
  lemma OneWriter(s: Store, e: Step, d: Directory, cpuBudget: nat, diskBudget: nat, order: seq<Key>)
    requires Reached(s) && Crashed(s, e, d)
    ensures !s.locked ==> d == Resting(s) && Next(s, e).disk == s.disk && !Next(s, e).locked
    ensures Next(s, e).locked ==> s.locked && Opened(d, cpuBudget, diskBudget, order) == Err(Busy)
  {
    ReachedReleases(s);
    if !s.locked {
      RetiredStays(s, e);
    } else if Next(s, e).locked {
      LockedThroughout(s, e, d);
    }
  }

  lemma LockedThroughout(s: Store, e: Step, d: Directory)
    requires Reached(s) && Crashed(s, e, d) && s.locked && Next(s, e).locked
    ensures d.locked
  {
    ReachedInv(s);
    var u := CrashPoint(s, e, d);
  }

  lemma ReachedReleases(s: Store)
    requires Reached(s)
    ensures s.locked || Retired(s)
  {
    var cpuBudget: nat, diskBudget: nat, disk: map<FileName, File>, order: seq<Key>, es: seq<Step> :|
      && Catalog(disk) && OpenStore(cpuBudget, diskBudget, disk, order).Some?
      && s == Replay(OpenStore(cpuBudget, diskBudget, disk, order).value, es);
    ReplayReleases(OpenStore(cpuBudget, diskBudget, disk, order).value, es);
  }
}
