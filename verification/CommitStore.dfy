/** The page store does what the population protocol assumes of its calls. */
module CommitStore {
  import opened Basics
  import opened Storage
  import opened StorageSafety
  import opened StorageTheorems
  import opened Directories
  import Commit

  /** Which pages have a backing copy. */
  ghost function View(pages: map<Key, Page>): map<Key, bool> {
    map k | k in pages :: pages[k].backed
  }

  /** Pages that got a backing copy on the way. */
  ghost function Newly(a: map<Key, Page>, b: map<Key, Page>): set<Key> {
    set k | k in a && k in b && b[k].backed && !a[k].backed
  }

  lemma GrownView(a: map<Key, Page>, b: map<Key, Page>)
    requires Grows(a, b)
    ensures View(b) == Commit.Backed(View(a), Newly(a, b))
  {}

  lemma NewPageView(pages: map<Key, Page>, k: Key, page: Page)
    ensures View(pages[k := page]) == View(pages)[k := page.backed]
  {}

  /** A first put adds a page without a file, or adds nothing; pages written out
      to make room keep their files. */
  lemma PutView(s: Store, k: Key, payload: Bytes, count: nat, header: nat, bad: set<Key>) returns (evicted: set<Key>)
    requires Open(s) && k !in s.pages
    ensures var o := DoPut(s, k, payload, count, header, bad);
            View(o.store.pages) == if o.result.Ok? then Commit.Backed(View(s.pages), evicted)[k := false]
                else Commit.Backed(View(s.pages), evicted)
  {
    if |payload| > s.cpuBudget {
      evicted := {};
      assert Commit.Backed(View(s.pages), {}) == View(s.pages);
    } else {
      var space := MakeSpace(s, |payload|, None, bad).store;
      EvictionGrows(s, Candidates(s, None), |payload|, bad);
      GrownView(s.pages, space.pages);
      evicted := Newly(s.pages, space.pages);
      NewPageView(space.pages, k, NewPage(space, payload, count, header));
    }
  }

  lemma SameView(a: map<Key, Page>, k: Key, page: Page)
    requires k in a && page.backed == a[k].backed
    ensures View(a[k := page]) == View(a)
  {}

  /** A spill that reports success has made the page durable; one that fails has changed nothing. */
  lemma SpillView(s: Store, k: Key, bad: set<Key>)
    requires k in s.spills && k in s.pages
    ensures var o := DoFinishSpill(s, k, bad);
            View(o.store.pages) == if o.result.Ok? then View(s.pages)[k := true] else View(s.pages)
  {
    if s.closed || s.spills[k] != s.epoch { UnspilledView(s, k); }
    else {
      UnspilledView(Spill(s, k, bad).store, k);
      PublishedView(s, k, bad);
    }
  }

  lemma UnspilledView(s: Store, k: Key)
    requires k in s.pages
    ensures View(Unspill(s, k).pages) == View(s.pages)
  {
    var page := s.pages[k].(inflight := s.pages[k].inflight - 1);
    SameView(s.pages, k, page);
    assert Unspill(s, k).pages == s.pages[k := page];
  }

  lemma PublishedView(s: Store, k: Key, bad: set<Key>)
    requires k in s.pages
    ensures View(Spill(s, k, bad).store.pages) == if Spill(s, k, bad).result.Ok? then View(s.pages)[k := true]
            else View(s.pages)
  {
    SpillCases(s, k, bad);
    if s.pages[k].backed { assert View(s.pages)[k := true] == View(s.pages); }
    NewPageView(s.pages, k, s.pages[k].(backed := true, diskSize := s.pages[k].header + s.pages[k].size));
  }

  /** Deleting an idle page fails only if it has a file that cannot be removed. */
  lemma DeleteView(s: Store, k: Key, bad: set<Key>)
    requires Open(s) && k in s.pages && s.pages[k].pins == 0 && s.pages[k].inflight == 0
    ensures var o := DoDelete(s, k, bad);
            (o.result.Ok?, View(o.store.pages)) == Commit.Deleted(View(s.pages), k, k !in bad)
  {
    assert View(s.pages - {k}) == View(s.pages) - {k};
  }

  /** A crash at any moment of a store call, followed by the clean-up and a reopen, leaves
      exactly the pages with a backing copy: after the call, or after some of the
      evictions inside it. */
  lemma CrashView(s: Store, e: Step, d: Directory, cpuBudget: nat, order: seq<Key>) returns (evicted: set<Key>)
    requires Reached(s) && Crashed(s, e, d)
    ensures Opened(Cleaned(d), cpuBudget, s.diskBudget, order).Ok?
    ensures var found := View(Opened(Cleaned(d), cpuBudget, s.diskBudget, order).value.pages);
            || found == Commit.Survivors(View(Next(s, e).pages))
            || found == Commit.Survivors(Commit.Backed(View(s.pages), evicted))
  {
    ReachedInv(s);
    var u := CrashPoint(s, e, d);
    var t := CleanedOpens(u, d, cpuBudget, order);
    DiskIsCatalog(u);
    BackedNames(u, order);
    RestoredView(d.files, order, u.pages);
    evicted := Newly(s.pages, u.pages);
    if u != Next(s, e) { GrownView(s.pages, u.pages); }
  }

  lemma RestoredView(disk: map<FileName, File>, order: seq<Key>, pages: map<Key, Page>)
    requires OneFileEach(disk) && forall k :: k in NamesIn(disk) <==> k in pages && pages[k].backed
    ensures View(Restored(disk, order)) == Commit.Survivors(View(pages))
  {}
}
