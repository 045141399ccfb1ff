/** What each call of the page store answers, in terms of its map, of what is outstanding
    and of the files that fail; and what "least recently used" means over a run. */
module PageOutcomes {
  import opened Basics
  import opened Storage
  import opened StorageSafety
  import opened StorageTheorems

  // ---- spills ------------------------------------------------------------------------------

  /** A page with a file is written out already, if the file can be read; another is written
      exactly if the disk budget and the file system allow. */
  lemma SpillAnswers(s: Store, k: Key, bad: set<Key>)
    requires Inv(s) && k in s.pages
    ensures k in s.ideal
    ensures Spill(s, k, bad).result
            == if s.pages[k].backed then (if k in bad then Err(Integrity) else Ok(()))
               else if s.diskBytes + s.pages[k].header + |s.ideal[k]| > s.diskBudget then Err(Capacity)
               else if k in bad then Err(Device) else Ok(())
  {
    AboutPage(s, k);
  }

  // ---- making space --------------------------------------------------------------------------

  /** The bytes that writing out the pages in `keys` adds to the disk. */
  ghost function Written(pages: map<Key, Page>, keys: seq<Key>): int
    requires forall k :: k in keys ==> k in pages
  {
    if keys == [] then 0 else PageWritten(pages[keys[0]]) + Written(pages, keys[1..])
  }

  function PageWritten(page: Page): int {
    if page.backed then 0 else page.header + page.size
  }

  /** Evicting the first `n` pages of the order frees enough memory, and each of them can be
      written out or read back. */
  ghost predicate Affordable(s: Store, order: seq<Key>, n: nat, needed: nat, bad: set<Key>)
    requires n <= |order| && forall k :: k in order ==> k in s.pages
  {
    && Enough(s, needed, order[..n]) && (forall k :: k in order[..n] ==> k !in bad)
    && s.diskBytes + Written(s.pages, order[..n]) <= s.diskBudget
  }

  lemma {:induction false} WrittenSame(a: map<Key, Page>, b: map<Key, Page>, keys: seq<Key>)
    requires forall k :: k in keys ==> k in a && k in b && a[k] == b[k]
    ensures Written(a, keys) == Written(b, keys) >= 0
  {
    if keys != [] { WrittenSame(a, b, keys[1..]); }
  }

  /** One page on, and the rest is as before. */
  lemma AffordableMore(s: Store, t: Store, order: seq<Key>, n: nat, needed: nat, bad: set<Key>)
    requires order != [] && n < |order| && Distinct(order) && order[0] !in bad
    requires (forall k :: k in order ==> k in s.pages && k in t.pages && t.pages[k].size == s.pages[k].size)
    requires forall k :: k in order[1..] ==> t.pages[k] == s.pages[k]
    requires t.cpuBytes == s.cpuBytes - s.pages[order[0]].size && t.cpuReserved == s.cpuReserved
    requires t.cpuBudget == s.cpuBudget && t.diskBudget == s.diskBudget
    requires t.diskBytes == s.diskBytes + PageWritten(s.pages[order[0]])
    ensures Affordable(s, order, n + 1, needed, bad) <==> Affordable(t, order[1..], n, needed, bad)
  {
    var keys := order[1..][..n];
    assert order[..n + 1] == [order[0]] + keys && ([order[0]] + keys)[1..] == keys;
    forall k | k in keys ensures k in order[1..] && k in order {}
    EnoughMore(s, t, needed, order[0], keys);
    WrittenSame(s.pages, t.pages, keys);
  }

  lemma {:induction false} WrittenAll(pages: map<Key, Page>, keys: seq<Key>)
    requires forall k :: k in keys ==> k in pages
    ensures Written(pages, keys) >= 0
  {
    if keys != [] { WrittenAll(pages, keys[1..]); }
  }

  /** If the first page cannot go, nothing can. */
  lemma StuckAtFirst(s: Store, order: seq<Key>, needed: nat, bad: set<Key>, n: nat)
    requires Inv(s) && order != [] && n <= |order| && (forall k :: k in order ==> k in s.pages) && !Fits(s, needed)
    requires Spill(s, order[0], bad).result.Err?
    ensures !Affordable(s, order, n, needed, bad)
  {
    SpillAnswers(s, order[0], bad);
    AboutPage(s, order[0]);
    if n > 0 {
      assert order[..n][0] == order[0] && order[..n][1..] == order[1..n];
      forall k | k in order[1..n] ensures k in order {}
      WrittenAll(s.pages, order[1..n]);
    } else {
      assert order[..0] == [];
    }
  }

  lemma {:induction false} EvictsIf(s: Store, order: seq<Key>, needed: nat, bad: set<Key>)
    requires Inv(s) && MayEvict(s, order) && forall k :: k in order ==> k in s.pages
    ensures EvictFrom(s, order, needed, bad).result.Ok?
            <==> exists n: nat :: n <= |order| && Affordable(s, order, n, needed, bad)
    decreases |order|
  {
    if Fits(s, needed) {
      assert order[..0] == [] && s.diskBytes <= s.diskBudget by { Take(s, Budgets); }
      assert Affordable(s, order, 0, needed, bad);
    } else if order == [] {
      assert order[..0] == [];
    } else if Spill(s, order[0], bad).result.Err? {
      forall n: nat | n <= |order| ensures !Affordable(s, order, n, needed, bad) {
        StuckAtFirst(s, order, needed, bad, n);
      }
    } else {
      EvictsRest(s, order, needed, bad);
    }
  }

  lemma {:induction false} EvictsRest(s: Store, order: seq<Key>, needed: nat, bad: set<Key>)
    requires Inv(s) && MayEvict(s, order) && (forall k :: k in order ==> k in s.pages) && order != []
    requires !Fits(s, needed) && Spill(s, order[0], bad).result.Ok?
    ensures EvictFrom(s, order, needed, bad).result.Ok?
            <==> exists n: nat :: n <= |order| && Affordable(s, order, n, needed, bad)
    decreases |order|, 0
  {
    var u := Spill(s, order[0], bad).store;
    var t := Drop(u, order[0]);
    FirstGoes(s, order, bad);
    EvictsIf(t, order[1..], needed, bad);
    assert EvictFrom(s, order, needed, bad).result.Ok? <==> EvictFrom(t, order[1..], needed, bad).result.Ok?;
    if n: nat :| n <= |order| && Affordable(s, order, n, needed, bad) {
      assert order[..0] == [];
      AffordableMore(s, t, order, n - 1, needed, bad);
    }
    if n: nat :| n <= |order[1..]| && Affordable(t, order[1..], n, needed, bad) {
      AffordableMore(s, t, order, n, needed, bad);
    }
  }

  lemma FirstGoes(s: Store, order: seq<Key>, bad: set<Key>)
    requires Inv(s) && MayEvict(s, order) && order != [] && Spill(s, order[0], bad).result.Ok?
    ensures order[0] in s.pages && order[0] !in bad
    ensures var t := Drop(Spill(s, order[0], bad).store, order[0]);
            && Inv(t) && MayEvict(t, order[1..]) && t.pages.Keys == s.pages.Keys
            && (forall k :: k in order ==> k in s.pages && t.pages[k].size == s.pages[k].size)
            && (forall k :: k in order[1..] ==> t.pages[k] == s.pages[k])
            && t.cpuBytes == s.cpuBytes - s.pages[order[0]].size && t.cpuReserved == s.cpuReserved
            && t.cpuBudget == s.cpuBudget && t.diskBudget == s.diskBudget
            && t.diskBytes == s.diskBytes + PageWritten(s.pages[order[0]])
  {
    SpillEffect(s, order[0], bad);
    SpillAnswers(s, order[0], bad);
    SpillCases(s, order[0], bad);
    FirstResident(s, Spill(s, order[0], bad).store, order);
    EvictOne(s, Spill(s, order[0], bad).store, order);
    assert order[0] !in order[1..];
  }

  /** Space can be made exactly if evicting some prefix of the eviction order is enough and
      every page of it can be written out, or has been and can be read. */
  lemma SpaceIsMadeIff(s: Store, needed: nat, exclude: Option<Key>, bad: set<Key>)
    requires Inv(s)
    ensures MakeSpace(s, needed, exclude, bad).result.Ok? <==> CanFree(s, needed, exclude, bad)
  {
    CandidatesMayGo(s, exclude);
    EvictsIf(s, Candidates(s, exclude), needed, bad);
  }

  ghost predicate CanFree(s: Store, needed: nat, exclude: Option<Key>, bad: set<Key>) {
    var order := Candidates(s, exclude);
    exists n: nat :: n <= |order| && Affordable(s, order, n, needed, bad)
  }

  /** The eviction order: pages without a count go before those with one, larger counts before
      smaller, and of the same count the less recently used, then the smaller key. */
  lemma CandidatesInOrder(s: Store, exclude: Option<Key>, i: nat, j: nat)
    requires i < j < |Candidates(s, exclude)|
    ensures var k, h := Candidates(s, exclude)[i], Candidates(s, exclude)[j];
            && k in s.pages && h in s.pages
            && var a, b := s.pages[k], s.pages[h];
               && (b.count == 0 ==> a.count == 0) && (a.count > 0 ==> b.count <= a.count)
               && (a.count == b.count ==> a.lastAccess <= b.lastAccess)
               && (a.count == b.count && a.lastAccess == b.lastAccess ==> k < h)
  {
    var order := Candidates(s, exclude);
    assert order[i] in order && order[j] in order;
    assert Before(s.pages[order[i]], order[i], s.pages[order[j]], order[j]);
  }

  // ---- loads ---------------------------------------------------------------------------------

  /** The load has ended: its reservation is back and the page is no longer in flight on its
      behalf; nothing else has changed but the bytes of the page in memory. */
  ghost predicate LoadEnded(s: Store, t: Store, k: Key, payload: Option<Bytes>)
    requires k in s.pages && k in s.ideal
  {
    && t == s.(pages := t.pages, loads := s.loads - {k}, cpuReserved := s.cpuReserved - |s.ideal[k]|,
               cpuBytes := s.cpuBytes + if payload.Some? then |s.ideal[k]| else 0)
    && t.pages == s.pages[k := s.pages[k].(payload := payload, inflight := s.pages[k].inflight - 1)]
  }

  /** A load that ends succeeds exactly if the file can be read and the store is open and in
      the epoch the load began in; then the page is resident with its bytes. Either way the
      reservation is given back. */
  lemma LoadAnswers(s: Store, k: Key, bad: set<Key>)
    requires Inv(s) && k in s.loads
    ensures k in s.pages && k in s.ideal
    ensures var o := DoFinishLoad(s, k, bad);
            && o.result == (if k in bad then Err(Integrity) else if s.closed || s.loads[k] != s.epoch then Err(Stale)
                            else Ok(s.ideal[k]))
            && LoadEnded(s, o.store, k, if o.result.Ok? then Some(s.ideal[k]) else None)
  {
    Take(s, Counters);
    AboutPage(s, k);
    FileAnswers(s, k, bad);
    LoadedEnds(s, k);
    UnloadedEnds(s, k);
  }

  lemma FileAnswers(s: Store, k: Key, bad: set<Key>)
    requires Inv(s) && k in s.pages && k in s.ideal && s.pages[k].payload.None?
    ensures ReadDisk(s, k, bad) == if k in bad then Err(Integrity) else Ok(s.ideal[k])
  {
    AboutPage(s, k);
  }

  lemma LoadedEnds(s: Store, k: Key)
    requires k in s.pages && k in s.ideal && s.pages[k].size == |s.ideal[k]|
    ensures LoadEnded(s, Loaded(s, k, s.ideal[k]), k, Some(s.ideal[k])) == true
  {}

  lemma UnloadedEnds(s: Store, k: Key)
    requires k in s.pages && k in s.ideal && s.pages[k].size == |s.ideal[k]| && s.pages[k].payload.None?
    ensures LoadEnded(s, Unloaded(s, k), k, None) == true
  {}

  /** Whatever is outstanding in a store that is not closed began in its epoch. */
  ghost predicate Current(s: Store) {
    && (!s.closed ==> forall k :: k in s.loads ==> s.loads[k] == s.epoch)
    && (!s.closed ==> forall k :: k in s.spills ==> s.spills[k] == s.epoch)
  }

  /** The calls of others stay as they are. */
  ghost predicate SameCalls(s: Store, t: Store) {
    t.loads == s.loads && t.spills == s.spills && t.epoch == s.epoch && t.closed == s.closed
  }

  lemma SpillCalls(s: Store, k: Key, bad: set<Key>)
    requires k in s.pages
    ensures SameCalls(s, Spill(s, k, bad).store) == true
  {
    SpillCases(s, k, bad);
  }

  lemma SpaceCalls(s: Store, needed: nat, exclude: Option<Key>, bad: set<Key>)
    requires Inv(s)
    ensures SameCalls(s, MakeSpace(s, needed, exclude, bad).store) == true
  {
    SpaceMade(s, needed, exclude, bad);
  }

  lemma PutCurrent(s: Store, k: Key, payload: Bytes, count: nat, header: nat, bad: set<Key>)
    requires Inv(s)
    ensures SameCalls(s, DoPut(s, k, payload, count, header, bad).store) == true
  {
    if k in s.pages {
      PutAgainCalls(s, k, payload, count, bad);
    } else {
      SpaceCalls(s, |payload|, None, bad);
      PutNewCalls(s, k, payload, count, header, bad);
    }
  }

  lemma PutAgainCalls(s: Store, k: Key, payload: Bytes, count: nat, bad: set<Key>)
    requires k in s.pages
    ensures SameCalls(s, PutAgain(s, k, payload, count, bad).store) == true
  {
    SpillCalls(s, k, bad);
    TouchCalls(s, k);
    TouchCalls(Spill(s, k, bad).store, k);
    AgainEnds(s, k, payload, count, bad);
  }

  lemma TouchCalls(s: Store, k: Key)
    requires k in s.pages
    ensures SameCalls(s, Touch(s, k)) == true
  {}

  lemma PutNewCalls(s: Store, k: Key, payload: Bytes, count: nat, header: nat, bad: set<Key>)
    requires SameCalls(s, MakeSpace(s, |payload|, None, bad).store)
    ensures SameCalls(s, PutNew(s, k, payload, count, header, bad).store) == true
  {
    AddedCalls(MakeSpace(s, |payload|, None, bad).store, k, payload, count, header);
  }

  lemma AddedCalls(s: Store, k: Key, payload: Bytes, count: nat, header: nat)
    ensures SameCalls(s, Added(s, k, payload, count, header)) && SameCalls(s, Ticked(s))
  {}

  lemma EvictCurrent(s: Store, required: nat, bad: set<Key>)
    requires Inv(s)
    ensures SameCalls(s, DoEvict(s, required, bad).store) == true
  {
    SpaceCalls(s, required, None, bad);
    if Candidates(s, None) != [] {
      assert Candidates(s, None)[0] in Candidates(s, None);
      SpillCalls(s, Candidates(s, None)[0], bad);
    }
  }

  /** How the first half of a load can end. */
  lemma SubmitEnds(s: Store, k: Key, bad: set<Key>)
    requires k in s.pages
    ensures var t, u := DoSubmitLoad(s, k, bad).store, MakeSpace(Touch(s, k), s.pages[k].size, Some(k), bad).store;
            t == s || t == Touch(s, k) || t == u || t == Reserve(u, k)
  {}

  lemma SubmitCurrent(s: Store, k: Key, bad: set<Key>)
    requires Inv(s) && Current(s)
    ensures Current(DoSubmitLoad(s, k, bad).store) == true
  {
    if k in s.pages {
      TouchKeeps(s, k);
      TouchCalls(s, k);
      SpaceCalls(Touch(s, k), s.pages[k].size, Some(k), bad);
      ReservedCurrent(MakeSpace(Touch(s, k), s.pages[k].size, Some(k), bad).store, k);
      SubmitEnds(s, k, bad);
    }
  }

  lemma ReservedCurrent(s: Store, k: Key)
    requires Current(s) && k in s.pages
    ensures Current(Reserve(s, k)) == true
  {}

  lemma EndedCurrent(s: Store, k: Key, bad: set<Key>)
    requires Current(s) && k in s.loads && k in s.pages
    ensures Current(DoFinishLoad(s, k, bad).store) == true
  {
    UnloadedCurrent(s, k);
    if DoFinishLoad(s, k, bad).result.Ok? { LoadedCurrent(s, k, DoFinishLoad(s, k, bad).result.value); }
  }

  lemma UnloadedCurrent(s: Store, k: Key)
    requires Current(s) && k in s.pages
    ensures Current(Unloaded(s, k)) == true
  {}

  lemma LoadedCurrent(s: Store, k: Key, payload: Bytes)
    requires Current(s) && k in s.pages
    ensures Current(Loaded(s, k, payload)) == true
  {}

  /** Closing is the only thing that ends an epoch. */
  lemma CurrentStep(s: Store, e: Step)
    requires Inv(s) && Current(s)
    ensures Current(Next(s, e)) == true
  {
    match e
    case Put(k, payload, count, header, bad) => PutCurrent(s, k, payload, count, header, bad);
    case Evict(required, bad) => EvictCurrent(s, required, bad);
    case SubmitLoad(k, bad) => SubmitCurrent(s, k, bad);
    case FinishLoad(k, bad) => if k in s.loads && k in s.pages { EndedCurrent(s, k, bad); }
    case WriteSpill(k, bad) => if k in s.spills && k in s.pages { WrittenCurrent(s, k, bad); }
    case SubmitSpill(_) => SpillingCurrent(s, e);
    case EndSpill(_) => SpillingCurrent(s, e);
    case CloseBegin(_) =>
    case CloseEnd =>
    case _ => UnusedCurrent(s, e);
  }

  lemma WrittenCurrent(s: Store, k: Key, bad: set<Key>)
    requires Current(s) && k in s.spills && k in s.pages
    ensures Current(DoWriteSpill(s, k, bad).store) == true
  {
    SpillCalls(s, k, bad);
  }

  lemma SpillingCurrent(s: Store, e: Step)
    requires Current(s) && (e.SubmitSpill? || e.EndSpill?)
    ensures Current(Next(s, e)) == true
  {}

  lemma UnusedCurrent(s: Store, e: Step)
    requires Current(s) && (e.PinEnter? || e.PinExit? || e.Delete?)
    ensures Current(Next(s, e)) == true
  {}

  lemma {:induction false} CurrentRun(s: Store, es: seq<Step>)
    requires Inv(s) && Current(s)
    ensures Current(Replay(s, es))
    decreases |es|
  {
    if es != [] {
      CurrentStep(s, es[0]);
      StepKeeps(s, es[0]);
      CurrentRun(Next(s, es[0]), es[1..]);
    }
  }

  lemma ReachedCurrent(s: Store)
    requires Reached(s)
    ensures Inv(s) && Current(s)
  {
    var cpuBudget: nat, diskBudget: nat, disk: map<FileName, File>, order: seq<Key>, es: seq<Step> :|
      Catalog(disk) && OpenStore(cpuBudget, diskBudget, disk, order).Some?
          && s == Replay(OpenStore(cpuBudget, diskBudget, disk, order).value, es);
    OpenedInv(cpuBudget, diskBudget, disk, order);
    OpenedFields(cpuBudget, diskBudget, disk, order);
    ReachedInv(s);
    CurrentRun(OpenStore(cpuBudget, diskBudget, disk, order).value, es);
  }

  // ---- reads ---------------------------------------------------------------------------------

  /** The page is in memory. */
  ghost predicate Present(s: Store, k: Key) {
    k in s.pages && s.pages[k].payload.Some?
  }

  /** There is a load of the page, or space for one can be made. */
  ghost predicate CanLoad(s: Store, k: Key, bad: set<Key>)
    requires k in s.pages && k in s.ideal
  {
    k in s.loads || (|s.ideal[k]| <= s.cpuBudget && CanFree(Touch(s, k), |s.ideal[k]|, Some(k), bad))
  }

  /** The first half of a read: a page in memory is answered at once with its bytes; another
      is waited for exactly if it is being loaded or its space can be made. */
  lemma SubmitAnswers(s: Store, k: Key, bad: set<Key>)
    requires Inv(s)
    ensures k in s.pages <==> k in s.ideal
    ensures var r := DoSubmitLoad(s, k, bad).result;
            if s.closed || s.closing then r == Err(Busy)
            else if k !in s.ideal then r == Err(Missing)
            else if Present(s, k) then r == Ok(Ready(s.ideal[k]))
            else if CanLoad(s, k, bad) then r == Ok(Waiting)
            else r.Err?
  {
    Take(s, Contents);
    if k in s.pages {
      AboutPage(s, k);
      TouchKeeps(s, k);
      SpaceIsMadeIff(Touch(s, k), s.pages[k].size, Some(k), bad);
    }
  }

  /** Afterwards the load is outstanding in this epoch. */
  lemma SubmitBegins(s: Store, k: Key, bad: set<Key>)
    requires Inv(s) && Current(s) && DoSubmitLoad(s, k, bad).result == Ok(Waiting)
    ensures var t := DoSubmitLoad(s, k, bad).store;
            && Inv(t) && k in t.loads && t.loads[k] == t.epoch && !t.closed && t.ideal == s.ideal
  {
    SubmitLoadKeeps(s, k, bad);
    TouchKeeps(s, k);
    SpaceCalls(Touch(s, k), s.pages[k].size, Some(k), bad);
  }

  /** A read of an open store returns the bytes exactly if the key is there and the page is in
      memory, or its file can be read into space that can be made. */
  lemma AwaitedAnswers(s: Store, k: Key, bad: set<Key>)
    requires Inv(s) && Current(s)
    ensures var o := DoSubmitLoad(s, k, bad);
            && (o.result == Ok(Waiting) ==> Inv(o.store) && k in o.store.loads && k in o.store.pages)
            && (CanRead(s, k, bad)
                <==> (o.result.Ok? && o.result.value.Ready?)
                     || (o.result == Ok(Waiting) && DoFinishLoad(o.store, k, bad).result.Ok?))
  {
    SubmitAnswers(s, k, bad);
    if DoSubmitLoad(s, k, bad).result == Ok(Waiting) {
      SubmitBegins(s, k, bad);
      LoadAnswers(DoSubmitLoad(s, k, bad).store, k, bad);
    }
  }

  ghost predicate CanRead(s: Store, k: Key, bad: set<Key>) {
    !s.closed && !s.closing && k in s.pages && k in s.ideal
    && (Present(s, k) || (k !in bad && CanLoad(s, k, bad)))
  }

  // ---- puts ----------------------------------------------------------------------------------

  ghost predicate CanPut(s: Store, k: Key, payload: Bytes, count: nat, header: nat, bad: set<Key>) {
    && !s.closed && !s.closing
    && if k in s.ideal
       then k in s.pages && payload == s.ideal[k] && count == s.pages[k].count && (Present(s, k) || k !in bad)
       else |payload| <= s.cpuBudget && header <= MAX_HEADER + 1 && CanFree(s, |payload|, None, bad)
  }

  /** A key is put exactly if the store is open and, if it is there, with the same bytes and
      count, while its page is in memory or its file can be read; if it is new, its bytes and
      header have their size and space can be made. */
  lemma PutAnswers(s: Store, k: Key, payload: Bytes, count: nat, header: nat, bad: set<Key>)
    requires Inv(s)
    ensures DoPut(s, k, payload, count, header, bad).result.Ok? <==> CanPut(s, k, payload, count, header, bad)
  {
    Take(s, Contents);
    if k in s.pages {
      AboutPage(s, k);
      SpillAnswers(s, k, bad);
    } else {
      SpaceIsMadeIff(s, |payload|, None, bad);
    }
  }

  // ---- evictions, spills, pins and deletes ---------------------------------------------------

  ghost predicate CanEvict(s: Store, required: nat, bad: set<Key>) {
    && !s.closed && !s.closing
    && if required > 0 then CanFree(s, required, None, bad)
       else Candidates(s, None) != [] && Candidates(s, None)[0] in s.pages
            && CanWriteOut(s, Candidates(s, None)[0], bad)
  }

  /** An eviction succeeds exactly if the store is open and the space can be made; without a
      size, exactly if there is a first candidate and it can be written out. */
  lemma EvictAnswers(s: Store, required: nat, bad: set<Key>)
    requires Inv(s)
    ensures DoEvict(s, required, bad).result.Ok? <==> CanEvict(s, required, bad)
  {
    SpaceIsMadeIff(s, required, None, bad);
    if Candidates(s, None) != [] {
      assert Candidates(s, None)[0] in Candidates(s, None);
      SpillAnswers(s, Candidates(s, None)[0], bad);
    }
  }

  /** The page has a file that can be read, or can get one. */
  ghost predicate CanWriteOut(s: Store, k: Key, bad: set<Key>)
    requires k in s.pages
  {
    k !in bad && (s.pages[k].backed || s.diskBytes + s.pages[k].header + s.pages[k].size <= s.diskBudget)
  }

  /** A spill is accepted exactly in an open store for a key that is there, and once accepted
      it succeeds exactly if the page can be written out before the store is closed. */
  lemma SpillSubmitAnswers(s: Store, k: Key, bad: set<Key>)
    requires Inv(s) && Current(s)
    ensures DoSubmitSpill(s, k).result
            == if s.closed || s.closing then Err(Busy) else if k !in s.ideal then Err(Missing) else Ok(())
    ensures k in s.spills ==> k in s.pages
    ensures k in s.spills ==>
              (DoFinishSpill(s, k, bad).result.Ok?
               <==> !s.closed && s.spills[k] == s.epoch && CanWriteOut(s, k, bad))
  {
    Take(s, Contents);
    Take(s, Counters);
    if k in s.spills {
      SpillAnswers(s, k, bad);
      AboutPage(s, k);
    }
  }

  /** A page is pinned exactly in an open store whose map has the key. */
  lemma PinAnswers(s: Store, id: nat, k: Key)
    requires Inv(s) && id !in s.pinned
    ensures DoPin(s, id, k).result == if s.closed || s.closing then Err(Busy) else if k !in s.ideal then Err(Missing)
            else Ok(())
  {
    Take(s, Contents);
  }

  ghost predicate CanDelete(s: Store, k: Key, bad: set<Key>) {
    && !s.closed && !s.closing && k in s.ideal && k in s.pages && k !in s.loads && k !in s.spills
    && (forall id :: id in s.pinned ==> s.pinned[id] != k) && (s.pages[k].backed ==> k !in bad)
  }

  /** A key is deleted exactly in an open store if nobody has it pinned, it is neither being
      loaded nor written out, and its file, if it has one, can be removed. */
  lemma DeleteAnswers(s: Store, k: Key, bad: set<Key>)
    requires Inv(s)
    ensures var o := DoDelete(s, k, bad);
            && (o.result.Ok? <==> CanDelete(s, k, bad))
            && (o.result.Ok? ==> o.store.ideal == s.ideal - {k} && k !in o.store.pages
                                 && forall f :: f in o.store.disk <==> f in s.disk && f.0 != k)
            && (o.result.Err? ==> o.store == s)
  {
    Take(s, Contents);
    if k in s.pages {
      AboutPage(s, k);
      if forall id :: id in s.pinned ==> s.pinned[id] != k { assert Pinners(s.pinned, k) == {}; }
      if id :| id in s.pinned && s.pinned[id] == k { assert id in Pinners(s.pinned, k); }
    }
  }

  // ---- least recently used -------------------------------------------------------------------

  /** The key a step uses: the one it puts with success or asks to read. */
  ghost function UsedBy(s: Store, e: Step): Option<Key> {
    match e
    case Put(k, payload, count, header, bad) =>
      if DoPut(s, k, payload, count, header, bad).result.Ok? then Some(k) else None
    case SubmitLoad(k, _) => if !s.closed && !s.closing && k in s.ideal then Some(k) else None
    case _ => None
  }

  /** The number of the last step that used the key; `sofar` if none of these did. */
  ghost function LastUse(s: Store, es: seq<Step>, k: Key, now: nat, sofar: nat): nat
    decreases |es|
  {
    if es == [] then sofar
    else LastUse(Next(s, es[0]), es[1..], k, now + 1, if UsedBy(s, es[0]) == Some(k) then now + 1 else sofar)
  }

  /** The page's time is a new one if it was used, and what it was if it was not. */
  ghost predicate Ages(s: Store, t: Store, k: Key, used: bool) {
    && s.tick <= t.tick
    && (k in t.pages && used ==> s.tick < t.pages[k].lastAccess <= t.tick)
    && (k in t.pages && !used ==> k in s.pages && t.pages[k].lastAccess == s.pages[k].lastAccess)
  }

  lemma TouchAges(s: Store, k: Key, j: Key)
    requires k in s.pages
    ensures Ages(s, Touch(s, k), j, j == k) == true
  {}

  lemma KeptAges(s: Store, t: Store, keys: seq<Key>, j: Key)
    requires StorageSafety.Kept(s, t, keys)
    ensures Ages(s, t, j, false) == true
  {}

  lemma AgesTwice(s: Store, t: Store, u: Store, k: Key, first: bool, second: bool)
    requires Ages(s, t, k, first) && Ages(t, u, k, second)
    ensures Ages(s, u, k, first || second) == true
  {}

  lemma SpillAges(s: Store, k: Key, bad: set<Key>, j: Key)
    requires Inv(s) && k in s.pages
    ensures Ages(s, Spill(s, k, bad).store, j, false) == true
  {
    SpillEffect(s, k, bad);
    BacksKept(s, Spill(s, k, bad).store, [k]);
    KeptAges(s, Spill(s, k, bad).store, [k], j);
  }

  lemma SpaceAges(s: Store, needed: nat, exclude: Option<Key>, bad: set<Key>, j: Key)
    requires Inv(s)
    ensures Ages(s, MakeSpace(s, needed, exclude, bad).store, j, false) == true
  {
    SpaceMade(s, needed, exclude, bad);
    KeptAges(s, MakeSpace(s, needed, exclude, bad).store, Candidates(s, exclude), j);
  }

  lemma AgainAges(s: Store, k: Key, payload: Bytes, count: nat, bad: set<Key>, j: Key)
    requires Inv(s) && k in s.pages
    ensures var o := PutAgain(s, k, payload, count, bad); Ages(s, o.store, j, o.result.Ok? && j == k) == true
  {
    var u := Spill(s, k, bad).store;
    SpillAges(s, k, bad, j);
    TouchAges(s, k, j);
    TouchAges(u, k, j);
    AgesTwice(s, u, Touch(u, k), j, false, j == k);
    AgainCases(s, k, payload, count, bad);
  }

  lemma AgainCases(s: Store, k: Key, payload: Bytes, count: nat, bad: set<Key>)
    requires k in s.pages
    ensures var o, u := PutAgain(s, k, payload, count, bad), Spill(s, k, bad).store;
            if o.result.Ok? then o.store == Touch(s, k) || o.store == Touch(u, k) else o.store == s || o.store == u
  {}

  lemma IntoAges(s: Store, k: Key, payload: Bytes, count: nat, header: nat, j: Key)
    requires k !in s.pages
    ensures var o := PutInto(s, k, payload, count, header); Ages(s, o.store, j, o.result.Ok? && j == k) == true
  {}

  lemma NewAges(s: Store, k: Key, payload: Bytes, count: nat, header: nat, bad: set<Key>, j: Key)
    requires Inv(s) && k !in s.pages
    ensures var o := PutNew(s, k, payload, count, header, bad); Ages(s, o.store, j, o.result.Ok? && j == k) == true
  {
    var u := MakeSpace(s, |payload|, None, bad).store;
    SpaceAges(s, |payload|, None, bad, j);
    IntoAges(u, k, payload, count, header, j);
    AgesTwice(s, u, PutInto(u, k, payload, count, header).store, j, false,
              PutInto(u, k, payload, count, header).result.Ok? && j == k);
  }

  lemma LoadAges(s: Store, k: Key, bad: set<Key>, j: Key)
    requires Inv(s)
    ensures Ages(s, DoSubmitLoad(s, k, bad).store, j, UsedBy(s, SubmitLoad(k, bad)) == Some(j)) == true
  {
    Take(s, Contents);
    if k in s.pages {
      var t := Touch(s, k);
      TouchKeeps(s, k);
      TouchAges(s, k, j);
      SpaceAges(t, s.pages[k].size, Some(k), bad, j);
      var u := MakeSpace(t, s.pages[k].size, Some(k), bad).store;
      AgesTwice(s, t, u, j, j == k, false);
      ReservedAges(u, k, j);
      AgesTwice(s, u, Reserve(u, k), j, j == k, false);
      OpenEnds(s, k, bad);
    }
  }

  lemma OpenEnds(s: Store, k: Key, bad: set<Key>)
    requires k in s.pages
    ensures var t, u := DoSubmitLoad(s, k, bad).store, MakeSpace(Touch(s, k), s.pages[k].size, Some(k), bad).store;
            if s.closed || s.closing then t == s else t == Touch(s, k) || t == u || t == Reserve(u, k)
  {}

  lemma ReservedAges(s: Store, k: Key, j: Key)
    requires k in s.pages
    ensures Ages(s, Reserve(s, k), j, false) == true
  {}

  lemma EvictAges(s: Store, required: nat, bad: set<Key>, j: Key)
    requires Inv(s)
    ensures Ages(s, DoEvict(s, required, bad).store, j, false) == true
  {
    SpaceAges(s, required, None, bad, j);
    if Candidates(s, None) != [] {
      var k := Candidates(s, None)[0];
      assert k in Candidates(s, None);
      SpillAges(s, k, bad, j);
      DroppedAges(Spill(s, k, bad).store, k, j);
      AgesTwice(s, Spill(s, k, bad).store, Drop(Spill(s, k, bad).store, k), j, false, false);
      EvictEnds(s, required, bad, k);
    }
  }

  lemma DroppedAges(s: Store, k: Key, j: Key)
    requires k in s.pages
    ensures Ages(s, Drop(s, k), j, false) == true
  {}

  lemma PutAges(s: Store, k: Key, payload: Bytes, count: nat, header: nat, bad: set<Key>, j: Key)
    requires Inv(s)
    ensures var e := Put(k, payload, count, header, bad); Ages(s, Next(s, e), j, UsedBy(s, e) == Some(j)) == true
  {
    if k in s.pages { AgainAges(s, k, payload, count, bad, j); }
    else { NewAges(s, k, payload, count, header, bad, j); }
  }

  lemma FinishAges(s: Store, k: Key, bad: set<Key>, j: Key)
    requires Inv(s)
    ensures var e := FinishLoad(k, bad); Ages(s, Next(s, e), j, UsedBy(s, e) == Some(j)) == true
  {
    if k in s.loads && k in s.pages { EndedAges(s, k, bad, j); }
  }

  lemma WriteAges(s: Store, k: Key, bad: set<Key>, j: Key)
    requires Inv(s)
    ensures var e := WriteSpill(k, bad); Ages(s, Next(s, e), j, UsedBy(s, e) == Some(j)) == true
  {
    if k in s.spills && k in s.pages { SpillAges(s, k, bad, j); }
  }

  lemma StepAges(s: Store, e: Step, j: Key)
    requires Inv(s)
    ensures Ages(s, Next(s, e), j, UsedBy(s, e) == Some(j)) == true
  {
    match e
    case Put(k, payload, count, header, bad) =>
      PutAges(s, k, payload, count, header, bad, j);
    case Evict(required, bad) => EvictAges(s, required, bad, j);
    case SubmitLoad(k, bad) => LoadAges(s, k, bad, j);
    case FinishLoad(k, bad) => FinishAges(s, k, bad, j);
    case WriteSpill(k, bad) => WriteAges(s, k, bad, j);
    case SubmitSpill(_) => SpillingAges(s, e, j);
    case EndSpill(_) => SpillingAges(s, e, j);
    case CloseBegin(_) =>
    case CloseEnd =>
    case _ => OtherAges(s, e, j);
  }

  lemma SpillingAges(s: Store, e: Step, j: Key)
    requires e.SubmitSpill? || e.EndSpill?
    ensures Ages(s, Next(s, e), j, false) == true
  {}

  lemma EndedAges(s: Store, k: Key, bad: set<Key>, j: Key)
    requires k in s.loads && k in s.pages
    ensures Ages(s, DoFinishLoad(s, k, bad).store, j, false) == true
  {}

  lemma OtherAges(s: Store, e: Step, j: Key)
    requires e.PinEnter? || e.PinExit? || e.Delete?
    ensures Ages(s, Next(s, e), j, false) == true
  {}

  /** The page was last used at step `h` of the run; before any use it has the time `first`
      with which the directory was opened, when the clock stood at `base`. */
  ghost predicate Aged(s: Store, k: Key, h: nat, first: nat, base: nat, now: nat) {
    && base <= s.tick && h <= now
    && (k in s.pages ==> s.pages[k].lastAccess <= s.tick)
    && (k in s.pages ==> if h == 0 then s.pages[k].lastAccess == first <= base else s.pages[k].lastAccess > base)
  }

  ghost predicate InOrder(s: Store, k: Key, h: nat, j: Key, i: nat) {
    k in s.pages && j in s.pages && h < i ==> s.pages[k].lastAccess < s.pages[j].lastAccess
  }

  lemma AgedStep(s: Store, e: Step, k: Key, h: nat, first: nat, base: nat, now: nat)
    requires Inv(s) && Aged(s, k, h, first, base, now)
    ensures Aged(Next(s, e), k, if UsedBy(s, e) == Some(k) then now + 1 else h, first, base, now + 1) == true
  {
    StepAges(s, e, k);
  }

  lemma OrderStep(s: Store, e: Step, k: Key, h: nat, f: nat, j: Key, i: nat, g: nat, base: nat, now: nat)
    requires Inv(s) && Aged(s, k, h, f, base, now) && Aged(s, j, i, g, base, now) && InOrder(s, k, h, j, i)
    ensures InOrder(Next(s, e), k, if UsedBy(s, e) == Some(k) then now + 1 else h,
                    j, if UsedBy(s, e) == Some(j) then now + 1 else i) == true
  {
    StepAges(s, e, k);
    StepAges(s, e, j);
  }

  lemma {:induction false} OrderRun(s: Store, es: seq<Step>, k: Key, h: nat, f: nat, j: Key, i: nat, g: nat, base: nat,
                                    now: nat)
    requires Inv(s) && Aged(s, k, h, f, base, now) && Aged(s, j, i, g, base, now) && InOrder(s, k, h, j, i)
    ensures Aged(Replay(s, es), k, LastUse(s, es, k, now, h), f, base, now + |es|)
    ensures InOrder(Replay(s, es), k, LastUse(s, es, k, now, h), j, LastUse(s, es, j, now, i))
    decreases |es|
  {
    if es != [] {
      var e := es[0];
      StepKeeps(s, e);
      AgedStep(s, e, k, h, f, base, now);
      AgedStep(s, e, j, i, g, base, now);
      OrderStep(s, e, k, h, f, j, i, g, base, now);
      OrderRun(Next(s, e), es[1..], k, if UsedBy(s, e) == Some(k) then now + 1 else h, f,
               j, if UsedBy(s, e) == Some(j) then now + 1 else i, g, base, now + 1);
    }
  }

  /** The order in which the directory lists its pages. */
  ghost predicate Lists(order: seq<Key>, disk: map<FileName, File>) {
    Distinct(order) && forall k :: k in order <==> k in NamesIn(disk)
  }

  lemma {:induction false} PositionIn(order: seq<Key>, k: Key)
    requires k in order
    ensures Position(order, k) < |order| && order[Position(order, k)] == k
  {
    if order[0] != k { PositionIn(order[1..], k); }
  }

  lemma {:induction false} AsManyNames(order: seq<Key>, names: set<Key>)
    requires Distinct(order) && forall k :: k in order <==> k in names
    ensures |order| == |names|
    decreases |order|
  {
    if order == [] {
      assert names == {};
    } else {
      assert order[0] in names && forall k :: k in order <==> k == order[0] || k in order[1..];
      AsManyNames(order[1..], names - {order[0]});
    }
  }

  lemma OpenedAged(cpuBudget: nat, diskBudget: nat, disk: map<FileName, File>, order: seq<Key>, k: Key)
    requires Catalog(disk) && Lists(order, disk) && OpenStore(cpuBudget, diskBudget, disk, order).Some?
    ensures var s := OpenStore(cpuBudget, diskBudget, disk, order).value;
            Aged(s, k, 0, Position(order, k) + 1, s.tick, 0)
  {
    AsManyNames(order, NamesIn(disk));
    assert Restored(disk, order).Keys == NamesIn(disk);
    if k in NamesIn(disk) { PositionIn(order, k); }
  }

  /** Over any run of a store, a page is less recently used than another exactly if its key
      was put or asked for earlier; pages not used since the opening come before all others,
      in the order in which the directory lists them. */
  lemma RecencyIsLastUse(cpuBudget: nat, diskBudget: nat, disk: map<FileName, File>, order: seq<Key>, es: seq<Step>,
                         k: Key, j: Key)
    requires Catalog(disk) && Lists(order, disk) && OpenStore(cpuBudget, diskBudget, disk, order).Some?
    ensures var s := OpenStore(cpuBudget, diskBudget, disk, order).value;
            var t, h, i := Replay(s, es), LastUse(s, es, k, 0, 0), LastUse(s, es, j, 0, 0);
            k in t.pages && j in t.pages ==>
              (t.pages[k].lastAccess < t.pages[j].lastAccess
               <==> h < i || (h == i == 0 && Position(order, k) < Position(order, j)))
  {
    var s := OpenStore(cpuBudget, diskBudget, disk, order).value;
    OpenedInv(cpuBudget, diskBudget, disk, order);
    OpenedAged(cpuBudget, diskBudget, disk, order, k);
    OpenedAged(cpuBudget, diskBudget, disk, order, j);
    OrderRun(s, es, k, 0, Position(order, k) + 1, j, 0, Position(order, j) + 1, s.tick, 0);
    OrderRun(s, es, j, 0, Position(order, j) + 1, k, 0, Position(order, k) + 1, s.tick, 0);
    if k != j { UsesDiffer(s, es, k, j, 0, 0, 0); }
  }

  /** A step uses one key. */
  lemma {:induction false} UsesDiffer(s: Store, es: seq<Step>, k: Key, j: Key, now: nat, h: nat, i: nat)
    requires k != j && h <= now && i <= now && (h == i ==> h == 0)
    ensures LastUse(s, es, k, now, h) == LastUse(s, es, j, now, i) ==> LastUse(s, es, k, now, h) == 0
    decreases |es|
  {
    if es != [] {
      var e := es[0];
      UsesDiffer(Next(s, e), es[1..], k, j, now + 1, if UsedBy(s, e) == Some(k) then now + 1 else h,
                 if UsedBy(s, e) == Some(j) then now + 1 else i);
    }
  }
}
