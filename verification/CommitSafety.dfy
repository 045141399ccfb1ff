/** A commit marker implies all pages of its identity, at every step and across
    crashes, as long as one request is live at a time; and what breaks otherwise. */
module CommitSafety {
  import opened Commit

  // ---- the catalog changes ----------------------------------------------------------------

  lemma PageAtInjective(identity: nat, i: nat, j: nat)
    requires PageAt(identity, i) == PageAt(identity, j)
    ensures i == j
  {
    assert i == 2 * (i / 2) + i % 2 && j == 2 * (j / 2) + j % 2;
  }

  /** Writing pages out keeps every promise. */
  lemma BackedKeeps(c: Catalog, evicted: set<PageKey>, layers: nat)
    requires Promised(c, layers)
    ensures Promised(Backed(c, evicted), layers)
  {
    forall identity: nat | MarkerKey(identity) in Backed(c, evicted)
      ensures Complete(Backed(c, evicted), identity, layers)
    {
      assert Complete(c, identity, layers);
    }
  }

  /** Taking away a page whose identity has no marker, or a marker, keeps every promise. */
  lemma DeleteKeeps(c: Catalog, key: PageKey, layers: nat)
    requires Promised(c, layers) && (key.LayerKey? ==> MarkerKey(key.identity) !in c)
    ensures Promised(c - {key}, layers)
  {
    forall identity: nat | MarkerKey(identity) in c - {key} ensures Complete(c - {key}, identity, layers) {
      assert Complete(c, identity, layers);
    }
  }

  /** Adding a page, or marking one as written out, keeps every promise. */
  lemma LayerKeeps(c: Catalog, key: PageKey, backed: bool, layers: nat)
    requires Promised(c, layers) && key.LayerKey? && (backed || key !in c)
    ensures Promised(c[key := backed], layers)
  {
    forall identity: nat | MarkerKey(identity) in c[key := backed]
      ensures Complete(c[key := backed], identity, layers)
    {
      assert Complete(c, identity, layers);
    }
  }

  /** A marker may be added once its pages are complete. */
  lemma MarkerKeeps(c: Catalog, identity: nat, backed: bool, layers: nat)
    requires Promised(c, layers) && Complete(c, identity, layers)
    ensures Promised(c[MarkerKey(identity) := backed], layers)
  {
    var c' := c[MarkerKey(identity) := backed];
    forall other: nat | MarkerKey(other) in c' ensures Complete(c', other, layers) {
      assert Complete(c, other, layers);
    }
  }

  /** What survives a crash is complete: markers vouch for written-out pages only. */
  lemma CrashKeeps(c: Catalog, layers: nat)
    requires Promised(c, layers)
    ensures Promised(Survivors(c), layers)
  {
    var c' := Survivors(c);
    forall identity: nat | MarkerKey(identity) in c' ensures Complete(c', identity, layers) {
      assert Complete(c, identity, layers);
    }
  }

  // ---- one store call of the request ---------------------------------------------------------

  ghost predicate Sound(layers: nat, c: Catalog, r: Request) {
    layers > 0 && Promised(c, layers) && PhaseFits(layers, c, r)
  }

  lemma ReverseKeys(keys: seq<PageKey>, identity: nat)
    requires LayerKeys(keys, identity)
    ensures LayerKeys(Reverse(keys), identity)
  {
    var rest := Reverse(keys);
    forall k | k in rest ensures k.LayerKey? && k.identity == identity {
      var i :| 0 <= i < |rest| && rest[i] == k;
      assert keys[|keys| - 1 - i] in keys;
    }
  }

  lemma ReverseMarked(keys: seq<PageKey>, marker: PageKey)
    ensures Reverse(keys + [marker]) == [marker] + Reverse(keys)
  {}

  lemma CreatedKeys(layers: nat, c: Catalog, r: Request)
    requires Sound(layers, c, r) && !r.phase.Discarding? && r.phase != Marking(true)
    ensures LayerKeys(r.created, r.identity) && (r.created != [] ==> MarkerKey(r.identity) !in c)
  {}

  /** Falling back keeps the marker, if any, at the head of the keys to delete. */
  lemma DiscardFits(layers: nat, c: Catalog, r: Request)
    requires Sound(layers, c, r) && !r.phase.Discarding?
    ensures Sound(layers, c, Discard(r))
  {
    if r.phase == Marking(true) {
      ReverseMarked(Pages(r.identity, 2 * layers), MarkerKey(r.identity));
      ReverseKeys(Pages(r.identity, 2 * layers), r.identity);
    } else {
      CreatedKeys(layers, c, r);
      ReverseKeys(r.created, r.identity);
    }
  }

  lemma RecoverFits(layers: nat, c: Catalog, r: Request, ok: bool, evicted: set<PageKey>)
    requires Sound(layers, c, r) && r.phase.Recovering?
    ensures var a := Advanced(layers, c, r, ok, evicted); Sound(layers, a.0, a.1)
  {
    var k := r.phase.k;
    if k == 0 && MarkerKey(r.identity) in c {
      DiscardFits(layers, c, r);
    } else if k < 2 * layers {
      var key := PageAt(r.identity, k);
      DeleteKeeps(c, key, layers);
      if Deleted(c, key, ok).0 {
        forall i | 0 <= i < k + 1 ensures PageAt(r.identity, i) !in Deleted(c, key, ok).1 {}
      } else {
        DiscardFits(layers, c, r);
      }
    }
  }

  lemma PutFits(layers: nat, c: Catalog, r: Request, ok: bool, evicted: set<PageKey>)
    requires Sound(layers, c, r) && r.phase.Filling? && !r.phase.put
    ensures var a := Advanced(layers, c, r, ok, evicted); Sound(layers, a.0, a.1)
  {
    var n, b := r.phase.n, Backed(c, evicted);
    BackedKeeps(c, evicted, layers);
    if n == 2 * layers {
    } else if !ok || PageAt(r.identity, n) in c {
      DiscardFits(layers, b, r);
    } else {
      LayerKeeps(b, PageAt(r.identity, n), false, layers);
      assert Pages(r.identity, n) + [PageAt(r.identity, n)] == Pages(r.identity, n + 1);
      forall i | 0 <= i < n ensures PageAt(r.identity, i) != PageAt(r.identity, n) {
        if PageAt(r.identity, i) == PageAt(r.identity, n) { PageAtInjective(r.identity, i, n); }
      }
    }
  }

  lemma SpillFits(layers: nat, c: Catalog, r: Request, ok: bool, evicted: set<PageKey>)
    requires Sound(layers, c, r) && r.phase.Filling? && r.phase.put
    ensures var a := Advanced(layers, c, r, ok, evicted); Sound(layers, a.0, a.1)
  {
    if ok { LayerKeeps(c, PageAt(r.identity, r.phase.n), true, layers); } else { DiscardFits(layers, c, r); }
  }

  lemma MarkFits(layers: nat, c: Catalog, r: Request, ok: bool, evicted: set<PageKey>)
    requires Sound(layers, c, r) && r.phase.Marking?
    ensures var a := Advanced(layers, c, r, ok, evicted); Sound(layers, a.0, a.1)
  {
    var marker := MarkerKey(r.identity);
    if r.phase.put {
      if ok { MarkerKeeps(c, r.identity, true, layers); } else { DiscardFits(layers, c, r); }
    } else {
      var b := Backed(c, evicted);
      BackedKeeps(c, evicted, layers);
      assert Complete(b, r.identity, layers);
      if ok { MarkerKeeps(b, r.identity, false, layers); } else { DiscardFits(layers, b, r); }
    }
  }

  lemma DiscardStepFits(layers: nat, c: Catalog, r: Request, ok: bool, evicted: set<PageKey>)
    requires Sound(layers, c, r) && r.phase.Discarding?
    ensures var a := Advanced(layers, c, r, ok, evicted); Sound(layers, a.0, a.1)
  {
    var rest := r.phase.rest;
    if rest != [] {
      assert rest[0] in rest;
      DeleteKeeps(c, rest[0], layers);
    }
  }

  lemma AdvancedFits(layers: nat, c: Catalog, r: Request, ok: bool, evicted: set<PageKey>)
    requires Sound(layers, c, r)
    ensures var a := Advanced(layers, c, r, ok, evicted); Sound(layers, a.0, a.1)
  {
    match r.phase
    case Recovering(_) => RecoverFits(layers, c, r, ok, evicted);
    case Filling(_, put) => if put { SpillFits(layers, c, r, ok, evicted); }
      else { PutFits(layers, c, r, ok, evicted); }
    case Marking(_) => MarkFits(layers, c, r, ok, evicted);
    case Discarding(_, _) => DiscardStepFits(layers, c, r, ok, evicted);
    case Idle =>
  }

  // ---- every step, every run -------------------------------------------------------------------

  lemma TouchFits(layers: nat, c: Catalog, r: Request, evicted: set<PageKey>)
    requires Sound(layers, c, r) && r.phase.Idle?
    ensures Sound(layers, Backed(c, evicted), r)
  {
    BackedKeeps(c, evicted, layers);
  }

  /** A call for one identity leaves the pages of every other in the catalog. */
  lemma OthersStay(layers: nat, c: Catalog, r: Request, ok: bool, evicted: set<PageKey>)
    requires Sound(layers, c, r)
    ensures var a := Advanced(layers, c, r, ok, evicted);
            a.1.identity == r.identity && forall k: PageKey :: k.identity != r.identity ==> (k in a.0 <==> k in c)
  {
    if r.phase.Discarding? && r.phase.rest != [] { assert r.phase.rest[0] in r.phase.rest; }
  }

  /** The request under way moved on; the leftovers of the others are not touched. */
  lemma MovedOn(s: Runtime, id: nat, c: Catalog, r: Request)
    requires Inv(s) && id in s.requests && Sound(s.layers, c, r) && r.identity == s.requests[id].identity
    requires r.phase.Idle? || forall a :: a in s.requests && a != id ==> s.requests[a].phase.Idle?
    requires forall a :: a in s.requests && a != id ==> PhaseFits(s.layers, c, s.requests[a])
    ensures Inv(s.(catalog := c, requests := s.requests[id := r]))
    ensures Inv(s.(catalog := c, requests := s.requests - {id}))
  {}

  lemma LeftoverWaits(layers: nat, c: Catalog, c': Catalog, r: Request)
    requires PhaseFits(layers, c, r) && r.phase.Idle? && (MarkerKey(r.identity) in c' ==> MarkerKey(r.identity) in c)
    ensures PhaseFits(layers, c', r)
  {}

  lemma AdvanceKeeps(s: Runtime, id: nat, ok: bool, evicted: set<PageKey>)
    requires Inv(s)
    ensures Inv(Next(s, Advance(id, ok, evicted)))
  {
    if id in s.requests && !s.requests[id].phase.Idle? {
      AdvancedFits(s.layers, s.catalog, s.requests[id], ok, evicted);
      OthersStay(s.layers, s.catalog, s.requests[id], ok, evicted);
      var a := Advanced(s.layers, s.catalog, s.requests[id], ok, evicted);
      forall other | other in s.requests && other != id ensures PhaseFits(s.layers, a.0, s.requests[other]) {
        LeftoverWaits(s.layers, s.catalog, a.0, s.requests[other]);
      }
      MovedOn(s, id, a.0, a.1);
    } else if id in s.requests {
      MovedOn(s, id, s.catalog, s.requests[id]);
      assert s.requests[id := s.requests[id]] == s.requests;
    }
  }

  lemma FallBackKeeps(s: Runtime, id: nat, ending: bool)
    requires Inv(s) && id in s.requests && !s.requests[id].phase.Discarding?
    requires forall a :: a in s.requests && a != id ==> s.requests[a].phase.Idle?
    ensures Inv(s.(requests := s.requests[id := Discard(s.requests[id]).(ending := ending)]))
  {
    DiscardFits(s.layers, s.catalog, s.requests[id]);
    MovedOn(s, id, s.catalog, Discard(s.requests[id]).(ending := ending));
  }

  lemma AbandonKeeps(s: Runtime, id: nat)
    requires Inv(s) && id in s.requests && !s.requests[id].phase.Discarding? && s.requests[id].phase != Marking(true)
    ensures Inv(s.(requests := s.requests[id := s.requests[id].(phase := Idle)]))
  {
    CreatedKeys(s.layers, s.catalog, s.requests[id]);
    MovedOn(s, id, s.catalog, s.requests[id].(phase := Idle));
  }

  lemma TouchKeeps(s: Runtime, evicted: set<PageKey>)
    requires Inv(s)
    ensures Inv(Next(s, Touch(evicted)))
  {
    BackedKeeps(s.catalog, evicted, s.layers);
    forall id | id in s.requests && s.requests[id].phase.Idle?
      ensures PhaseFits(s.layers, Backed(s.catalog, evicted), s.requests[id])
    {
      TouchFits(s.layers, s.catalog, s.requests[id], evicted);
    }
  }

  lemma StepKeeps(s: Runtime, e: Step)
    requires Inv(s) && BeginsAlone(s, e)
    ensures Inv(Next(s, e))
  {
    match e
    case Begin(_, _) =>
    case Advance(id, ok, evicted) => AdvanceKeeps(s, id, ok, evicted);
    case GiveUp(id) =>
      if id in s.requests && !s.requests[id].phase.Discarding? && !s.requests[id].phase.Idle? {
        FallBackKeeps(s, id, s.requests[id].ending);
      }
    case Abandon(id) =>
      if id in s.requests && !s.requests[id].phase.Discarding? && s.requests[id].phase != Marking(true) {
        AbandonKeeps(s, id);
      }
    case Release(id) => if id in s.requests && Resting(s) { FallBackKeeps(s, id, true); }
    case Touch(evicted) => TouchKeeps(s, evicted);
    case Crash => CrashKeeps(s.catalog, s.layers);
  }

  /** At every step of populate, commit, failed commit, discard, release, crash
      and recovery: a marker in the store implies all pages of its identity,
      each with a copy that would survive a crash. */
  lemma {:induction false} MarkersPromisePages(s: Runtime, es: seq<Step>)
    requires Inv(s) && NoTwins(s, es)
    ensures Inv(Replay(s, es)) && Promised(Replay(s, es).catalog, s.layers)
    decreases |es|
  {
    if es == [] {
    } else {
      StepKeeps(s, es[0]);
      MarkersPromisePages(Next(s, es[0]), es[1..]);
      assert Next(s, es[0]).layers == s.layers;
    }
  }

  /** So it is for the whole life of a cache directory, from the empty store through any
      number of engines: each begins with what the last one's end, a crash step, left. */
  lemma MarkersAlwaysPromisePages(layers: nat, es: seq<Step>, k: nat)
    requires layers > 0 && k <= |es| && NoTwins(Runtime(layers, map[], map[]), es)
    ensures Promised(Replay(Runtime(layers, map[], map[]), es[..k]).catalog, layers)
    ensures Promised(Survivors(Replay(Runtime(layers, map[], map[]), es[..k]).catalog), layers)
  {
    var s := Runtime(layers, map[], map[]);
    NoTwinsBefore(s, es, k);
    MarkersPromisePages(s, es[..k]);
    CrashKeeps(Replay(s, es[..k]).catalog, layers);
  }

  lemma {:induction false} NoTwinsBefore(s: Runtime, es: seq<Step>, k: nat)
    requires NoTwins(s, es) && k <= |es|
    ensures NoTwins(s, es[..k])
    decreases k
  {
    if k > 0 {
      assert es[..k][1..] == es[1..][..k - 1];
      NoTwinsBefore(Next(s, es[0]), es[1..], k - 1);
    }
  }

  // ---- more than one live request ------------------------------------------------------------------

  /** `_discard_uncommitted` over all its keys; `bad` are the keys whose file cannot be removed. */
  ghost function DiscardAll(c: Catalog, keys: seq<PageKey>, bad: set<PageKey>): Catalog
    decreases |keys|
  {
    if keys == [] then c else DiscardAll(Deleted(c, keys[0], keys[0] !in bad).1, keys[1..], bad)
  }

  lemma {:induction false} DiscardAllIs(c: Catalog, keys: seq<PageKey>, bad: set<PageKey>)
    ensures DiscardAll(c, keys, bad) == map k | k in c && (k !in keys || (c[k] && k in bad)) :: c[k]
    decreases |keys|
  {
    if keys != [] {
      var c1 := Deleted(c, keys[0], keys[0] !in bad).1;
      DiscardAllIs(c1, keys[1..], bad);
      assert keys == [keys[0]] + keys[1..];
    }
  }

  /** A caller can check this before discarding: no key to delete belongs to a
      committed identity, unless that identity's marker goes too and has no file. */
  ghost predicate NothingCommitted(c: Catalog, keys: seq<PageKey>, layers: nat) {
    forall identity: nat :: MarkerKey(identity) in c ==>
      (forall i :: 0 <= i < 2 * layers ==> PageAt(identity, i) !in keys)
          || (MarkerKey(identity) in keys && !c[MarkerKey(identity)])
  }

  /** Discarding keeps every promise, whatever file operations fail, exactly when
      nothing it deletes belongs to a committed identity. */
  lemma DiscardKeepsExactly(c: Catalog, keys: seq<PageKey>, layers: nat)
    requires Promised(c, layers)
    ensures (forall bad: set<PageKey> :: Promised(DiscardAll(c, keys, bad), layers)) <==>
            NothingCommitted(c, keys, layers)
  {
    if NothingCommitted(c, keys, layers) {
      forall bad: set<PageKey>
        ensures Promised(DiscardAll(c, keys, bad), layers)
      {
        DiscardKeeps(c, keys, layers, bad);
      }
    } else {
      var identity: nat :| MarkerKey(identity) in c && (exists i :: 0 <= i < 2 * layers && PageAt(identity, i) in keys)
                           && !(MarkerKey(identity) in keys && !c[MarkerKey(identity)]);
      DiscardBreaks(c, keys, layers, identity);
    }
  }

  lemma DiscardKeeps(c: Catalog, keys: seq<PageKey>, layers: nat, bad: set<PageKey>)
    requires Promised(c, layers) && NothingCommitted(c, keys, layers)
    ensures Promised(DiscardAll(c, keys, bad), layers)
  {
    DiscardAllIs(c, keys, bad);
    var c' := DiscardAll(c, keys, bad);
    forall identity: nat | MarkerKey(identity) in c' ensures Complete(c', identity, layers) {
      assert Complete(c, identity, layers);
    }
  }

  lemma DiscardBreaks(c: Catalog, keys: seq<PageKey>, layers: nat, identity: nat)
    requires Promised(c, layers) && MarkerKey(identity) in c && exists i ::
              0 <= i < 2 * layers
              && PageAt(identity, i) in keys
    requires !(MarkerKey(identity) in keys && !c[MarkerKey(identity)])
    ensures exists bad: set<PageKey> :: !Promised(DiscardAll(c, keys, bad), layers)
  {
    var bad := {MarkerKey(identity)};
    var i :| 0 <= i < 2 * layers && PageAt(identity, i) in keys;
    assert Complete(c, identity, layers);
    DiscardAllIs(c, keys, bad);
    assert PageAt(identity, i) !in DiscardAll(c, keys, bad) && MarkerKey(identity) in DiscardAll(c, keys, bad);
    assert !Complete(DiscardAll(c, keys, bad), identity, layers);
  }

  // ---- two live requests, one after the other's failure ------------------------------------------------

  lemma {:induction false} ReplayAppend(s: Runtime, es: seq<Step>, more: seq<Step>)
    ensures Replay(s, es + more) == Replay(Replay(s, es), more)
    decreases |es|
  {
    if es == [] {
      assert es + more == more;
    } else {
      assert (es + more)[0] == es[0] && (es + more)[1..] == es[1..] + more;
      ReplayAppend(Next(s, es[0]), es[1..], more);
    }
  }

  lemma Extend(s: Runtime, es: seq<Step>, e: Step, t: Runtime)
    requires Next(Replay(s, es), e) == t
    ensures Replay(s, es + [e]) == t
  {
    ReplayAppend(s, es, [e]);
    assert Replay(Next(Replay(s, es), e), []) == t;
    assert [e][1..] == [];
  }

  /** The store and the live requests of a one-layer engine. */
  function Engine(c: Catalog, requests: map<nat, Request>): Runtime {
    Runtime(1, c, requests)
  }

  /** A request of the engine, identity 7 throughout. */
  function Live(created: seq<PageKey>, phase: Phase, ending: bool): Request {
    Request(7, created, phase, ending)
  }

  /** One store call of request `id`. */
  lemma Turn(s: Runtime, es: seq<Step>, id: nat, c: Catalog, r: Request, others: map<nat, Request>, ok: bool,
             c': Catalog, r': Request)
    returns (fs: seq<Step>)
    requires Replay(s, es) == Engine(c, others[id := r]) && Advanced(1, c, r, ok, {}) == (c', r')
    requires !(r'.phase.Idle? && r'.ending)
    ensures Replay(s, fs) == Engine(c', others[id := r'])
  {
    fs := es + [Advance(id, ok, {})];
    assert others[id := r][id := r'] == others[id := r'];
    Extend(s, es, Advance(id, ok, {}), Engine(c', others[id := r']));
  }

  lemma Untouched(c: Catalog)
    ensures Backed(c, {}) == c
  {}

  lemma DeletedOnly(p: PageKey, backed: bool)
    ensures map[p := backed] - {p} == map[]
  {}

  /** Recovery with at most the first page left over, and then that page again. */
  lemma RecoversAndFills(s: Runtime, es: seq<Step>, id: nat, c: Catalog, others: map<nat, Request>)
    returns (fs: seq<Step>)
    requires Replay(s, es) == Engine(c, others[id := Live([], Recovering(0), false)])
    requires c == map[] || c == map[PageAt(7, 0) := true]
    ensures Replay(s, fs)
            == Engine(map[PageAt(7, 0) := true], others[id := Live([PageAt(7, 0)], Filling(1, false), false)])
  {
    var p0 := PageAt(7, 0);
    DeletedOnly(p0, true);
    Untouched(map[]);
    fs := Turn(s, es, id, c, Live([], Recovering(0), false), others, true, map[], Live([], Recovering(1), false));
    fs := Turn(s, fs, id, map[], Live([], Recovering(1), false), others, true, map[], Live([], Recovering(2), false));
    fs := Turn(s, fs, id, map[], Live([], Recovering(2), false), others, true, map[],
          Live([], Filling(0, false), false));
    assert [] + [p0] == [p0] && map[p0 := false][p0 := true] == map[p0 := true];
    fs := Turn(s, fs, id, map[], Live([], Filling(0, false), false), others, true, map[p0 := false],
          Live([p0], Filling(0, true), false));
    fs := Turn(s, fs, id, map[p0 := false], Live([p0], Filling(0, true), false), others, true,
               map[p0 := true], Live([p0], Filling(1, false), false));
  }

  /** The second page. */
  lemma FillsMore(s: Runtime, es: seq<Step>, id: nat, others: map<nat, Request>) returns (fs: seq<Step>)
    requires Replay(s, es)
             == Engine(map[PageAt(7, 0) := true], others[id := Live([PageAt(7, 0)], Filling(1, false), false)])
    ensures Replay(s, fs) == Engine(map[PageAt(7, 0) := true, PageAt(7, 1) := true],
                                    others[id := Live([PageAt(7, 0), PageAt(7, 1)], Marking(false), false)])
  {
    var p0, p1 := PageAt(7, 0), PageAt(7, 1);
    var one, two := map[p0 := true], map[p0 := true, p1 := true];
    Untouched(one);
    assert [p0] + [p1] == [p0, p1] && map[p0 := true, p1 := false][p1 := true] == two
        && one[p1 := false] == map[p0 := true, p1 := false];
    fs := Turn(s, es, id, one, Live([p0], Filling(1, false), false), others, true,
               map[p0 := true, p1 := false], Live([p0, p1], Filling(1, true), false));
    fs := Turn(s, fs, id, map[p0 := true, p1 := false], Live([p0, p1], Filling(1, true), false), others, true,
               two, Live([p0, p1], Filling(2, false), false));
    fs := Turn(s, fs, id, two, Live([p0, p1], Filling(2, false), false), others, true, two,
          Live([p0, p1], Marking(false), false));
  }

  const FULL: Catalog := map[PageAt(7, 0) := true, PageAt(7, 1) := true, MarkerKey(7) := true]

  /** The marker. */
  lemma Commits(s: Runtime, es: seq<Step>, id: nat, others: map<nat, Request>) returns (fs: seq<Step>)
    requires Replay(s, es) == Engine(map[PageAt(7, 0) := true, PageAt(7, 1) := true],
                                     others[id := Live([PageAt(7, 0), PageAt(7, 1)], Marking(false), false)])
    ensures Replay(s, fs) == Engine(FULL, others[id := Live([], Idle, false)])
  {
    var p0, p1, m := PageAt(7, 0), PageAt(7, 1), MarkerKey(7);
    var two, half := map[p0 := true, p1 := true], map[p0 := true, p1 := true, m := false];
    Untouched(two);
    assert [p0, p1] + [m] == [p0, p1, m] && half[m := true] == FULL && two[m := false] == half;
    fs := Turn(s, es, id, two, Live([p0, p1], Marking(false), false), others, true, half,
          Live([p0, p1, m], Marking(true), false));
    fs := Turn(s, fs, id, half, Live([p0, p1, m], Marking(true), false), others, true, FULL, Live([], Idle, false));
  }

  /** The next page cannot be put, and the first one's file cannot be removed. */
  lemma FailsAndLeaves(s: Runtime, es: seq<Step>, id: nat, others: map<nat, Request>) returns (fs: seq<Step>)
    requires Replay(s, es)
             == Engine(map[PageAt(7, 0) := true], others[id := Live([PageAt(7, 0)], Filling(1, false), false)])
    ensures Replay(s, fs) == Engine(map[PageAt(7, 0) := true], others[id := Live([PageAt(7, 0)], Idle, false)])
  {
    var p0 := PageAt(7, 0);
    var one := map[p0 := true];
    Untouched(one);
    assert Reverse([p0]) == [p0] && [p0] + [] == [p0] && [p0][1..] == [];
    fs := Turn(s, es, id, one, Live([p0], Filling(1, false), false), others, false, one,
          Live([p0], Discarding([p0], []), false));
    fs := Turn(s, fs, id, one, Live([p0], Discarding([p0], []), false), others, false, one,
          Live([p0], Discarding([], [p0]), false));
    fs := Turn(s, fs, id, one, Live([p0], Discarding([], [p0]), false), others, true, one, Live([p0], Idle, false));
  }

  /** The release of a request with one page left over deletes it. */
  lemma ReleaseDeletes(s: Runtime, es: seq<Step>, id: nat, c: Catalog, others: map<nat, Request>)
    returns (fs: seq<Step>)
    requires Replay(s, es) == Engine(c, others[id := Live([PageAt(7, 0)], Idle, false)]) && PageAt(7, 0) in c
    requires forall a :: a in others ==> others[a].phase.Idle?
    ensures Replay(s, fs).catalog == c - {PageAt(7, 0)}
  {
    var p0 := PageAt(7, 0);
    assert Reverse([p0]) == [p0] && [p0][1..] == [];
    var going := Live([p0], Discarding([p0], []), true);
    assert others[id := Live([p0], Idle, false)][id := going] == others[id := going];
    Extend(s, es, Release(id), Engine(c, others[id := going]));
    fs := Turn(s, es + [Release(id)], id, c, going, others, true, c - {p0}, Live([p0], Discarding([], []), true));
  }

  /** With two live requests the promise fails: the first fails and keeps a page
      it could not remove, the second recovers, populates and commits the same
      identity, and the release of the first deletes a committed page. */
  lemma TwoLiveRequestsBreakThePromise() returns (es: seq<Step>)
    ensures !Promised(Replay(Engine(map[], map[]), es).catalog, 1)
  {
    var s, p0 := Engine(map[], map[]), PageAt(7, 0);
    assert Replay(s, []) == s;
    Extend(s, [], Begin(0, 7), Engine(map[], map[][0 := Live([], Recovering(0), false)]));
    es := RecoversAndFills(s, [] + [Begin(0, 7)], 0, map[], map[]);
    es := FailsAndLeaves(s, es, 0, map[]);
    var first := map[0 := Live([p0], Idle, false)];
    Extend(s, es, Begin(1, 7), Engine(map[p0 := true], first[1 := Live([], Recovering(0), false)]));
    es := RecoversAndFills(s, es + [Begin(1, 7)], 1, map[p0 := true], first);
    es := FillsMore(s, es, 1, first);
    es := Commits(s, es, 1, first);
    var second := map[1 := Live([], Idle, false)];
    assert first[1 := Live([], Idle, false)] == second[0 := Live([p0], Idle, false)];
    es := ReleaseDeletes(s, es, 0, FULL, second);
    PromiseBroken();
  }

  lemma PromiseBroken()
    ensures !Promised(FULL - {PageAt(7, 0)}, 1)
  {
    var c := FULL - {PageAt(7, 0)};
    assert MarkerKey(7) in c && PageAt(7, 0) !in c;
    assert !Complete(c, 7, 1);
  }
}
