/** The population methods of `CacheSlideRuntime` over the store's catalog. Store
    calls fail where the caller-supplied sets and numbers say so. */
module CommitCalls {
  import opened Commit
  import opened CommitSafety

  /** The keys that could not be deleted, in the order they were created. */
  ghost function Stuck(c: Catalog, keys: seq<PageKey>, bad: set<PageKey>): seq<PageKey> {
    if keys == [] then []
    else
      var last := keys[|keys| - 1];
      var rest := Stuck(Deleted(c, last, last !in bad).1, keys[..|keys| - 1], bad);
      if Deleted(c, last, last !in bad).0 then rest else rest + [last]
  }

  lemma NoStep(s: Runtime)
    ensures Replay(s, []) == s
  {}

  /** The engine while this request is in a forward. */
  ghost function Engaged(layers: nat, c: Catalog, r: Request): Runtime {
    Runtime(layers, c, map[0 := r])
  }

  /** One more store call of the request. */
  lemma Call(s: Runtime, es: seq<Step>, layers: nat, c: Catalog, r: Request, ok: bool, evicted: set<PageKey>)
    returns (more: seq<Step>)
    requires Replay(s, es) == Engaged(layers, c, r) && !r.ending
    ensures var a := Advanced(layers, c, r, ok, evicted); Replay(s, more) == Engaged(layers, a.0, a.1)
  {
    var e := Advance(0, ok, evicted);
    var a := Advanced(layers, c, r, ok, evicted);
    more := es + [e];
    assert a.1.ending == r.ending;
    assert map[0 := r][0 := a.1] == map[0 := a.1];
    Extend(s, es, e, Engaged(layers, a.0, a.1));
  }

  /** The next key goes, or stays for later. */
  lemma DeleteCall(s: Runtime, es: seq<Step>, layers: nat, c: Catalog, r: Request, key: PageKey, rest: seq<PageKey>,
                   remaining: seq<PageKey>, bad: set<PageKey>)
    returns (more: seq<Step>)
    requires Replay(s, es) == Engaged(layers, c, r) && !r.ending && r.phase == Discarding([key] + rest, remaining)
    ensures var d := Deleted(c, key, key !in bad);
            Replay(s, more)
                == Engaged(layers, d.1, r.(phase := Discarding(rest, if d.0 then remaining else [key] + remaining)))
  {
    assert ([key] + rest)[0] == key && ([key] + rest)[1..] == rest;
    more := Call(s, es, layers, c, r, key !in bad, {});
  }

  /** The next possible leftover goes. */
  lemma RecoverCall(s: Runtime, es: seq<Step>, layers: nat, c: Catalog, r: Request, k: nat, bad: set<PageKey>)
    returns (more: seq<Step>)
    requires Replay(s, es) == Engaged(layers, c, r) && !r.ending && r.phase == Recovering(k) && k < 2 * layers
    requires MarkerKey(r.identity) !in c
    ensures var d := Deleted(c, PageAt(r.identity, k), PageAt(r.identity, k) !in bad);
            Replay(s, more) == Engaged(layers, d.1, if d.0 then r.(phase := Recovering(k + 1)) else Discard(r))
  {
    more := Call(s, es, layers, c, r, PageAt(r.identity, k) !in bad, {});
  }

  lemma {:induction false} StuckOne(c: Catalog, keys: seq<PageKey>, i: nat, bad: set<PageKey>, remaining: seq<PageKey>)
    requires i < |keys|
    ensures var key, d := keys[i], Deleted(c, keys[i], keys[i] !in bad);
            Stuck(c, keys[..i + 1], bad) + remaining
            == Stuck(d.1, keys[..i], bad) + (if d.0 then remaining else [key] + remaining)
  {
    assert keys[..i + 1][..i] == keys[..i] && keys[..i + 1][i] == keys[i];
  }

  /** Keys from the end, newest first. */
  lemma ReverseNext(keys: seq<PageKey>, i: nat)
    requires i < |keys|
    ensures Reverse(keys)[|keys| - i - 1..] == [keys[i]] + Reverse(keys)[|keys| - i..]
  {}

  lemma {:induction false} DiscardOne(c: Catalog, key: PageKey, rest: seq<PageKey>, bad: set<PageKey>)
    ensures DiscardAll(c, [key] + rest, bad) == DiscardAll(Deleted(c, key, key !in bad).1, rest, bad)
  {
    assert ([key] + rest)[0] == key && ([key] + rest)[1..] == rest;
  }

  /** The discard of `created` has come down to key `i`. */
  ghost predicate Halfway(s: Runtime, es: seq<Step>, layers: nat, c0: Catalog, c: Catalog, identity: nat,
                          created: seq<PageKey>, i: nat, remaining: seq<PageKey>, bad: set<PageKey>)
  {
    && i <= |created|
    && DiscardAll(c, Reverse(created)[|created| - i..], bad) == DiscardAll(c0, Reverse(created), bad)
    && Stuck(c0, created, bad) == Stuck(c, created[..i], bad) + remaining
    && Replay(s, es)
       == Engaged(layers, c,
             Request(identity, created, Discarding(Reverse(created)[|created| - i..], remaining), false))
  }

  lemma HalfwayBegins(s: Runtime, es: seq<Step>, layers: nat, c: Catalog, identity: nat, created: seq<PageKey>,
                      bad: set<PageKey>)
    requires Replay(s, es) == Engaged(layers, c, Request(identity, created, Discarding(Reverse(created), []), false))
    ensures Halfway(s, es, layers, c, c, identity, created, |created|, [], bad) == true
  {
    assert created[..|created|] == created && Reverse(created)[0..] == Reverse(created);
  }

  lemma HalfwayNext(s: Runtime, es: seq<Step>, layers: nat, c0: Catalog, c: Catalog, identity: nat,
                    created: seq<PageKey>, i: nat, remaining: seq<PageKey>, bad: set<PageKey>)
    returns (more: seq<Step>)
    requires i < |created| && Halfway(s, es, layers, c0, c, identity, created, i + 1, remaining, bad) == true
    ensures var key := created[i];
            var d := Deleted(c, key, key !in bad);
            Halfway(s, more, layers, c0, d.1, identity, created, i, if d.0 then remaining else [key] + remaining, bad)
                == true
  {
    var key, rest := created[i], Reverse(created)[|created| - i..];
    ReverseNext(created, i);
    StuckOne(c, created, i, bad, remaining);
    DiscardOne(c, key, rest, bad);
    more := DeleteCall(s, es, layers, c, Request(identity, created, Discarding([key] + rest, remaining), false),
                       key, rest, remaining, bad);
  }

  lemma HalfwayEnds(s: Runtime, es: seq<Step>, layers: nat, c0: Catalog, c: Catalog, identity: nat,
                    created: seq<PageKey>, remaining: seq<PageKey>, bad: set<PageKey>)
    returns (more: seq<Step>)
    requires Halfway(s, es, layers, c0, c, identity, created, 0, remaining, bad) == true
    ensures c == DiscardAll(c0, Reverse(created), bad) && remaining == Stuck(c0, created, bad)
    ensures Replay(s, more) == Engaged(layers, c, Request(identity, remaining, Idle, false))
  {
    assert Reverse(created)[|created|..] == [] && created[..0] == [];
    more := Call(s, es, layers, c, Request(identity, created, Discarding([], remaining), false), true, {});
  }

  /** The keys that cannot be deleted: they have a file that cannot be removed. */
  ghost function Undeletable(c: Catalog, bad: set<PageKey>): set<PageKey> {
    set k | k in c && c[k] && k in bad
  }

  /** The members of a list that are in a set, in their order. */
  ghost function Only(keys: seq<PageKey>, these: set<PageKey>): seq<PageKey> {
    if keys == [] then []
    else
      var rest := Only(keys[..|keys| - 1], these);
      if keys[|keys| - 1] in these then rest + [keys[|keys| - 1]] else rest
  }

  lemma {:induction false} OnlyAlike(keys: seq<PageKey>, a: set<PageKey>, b: set<PageKey>)
    requires forall k :: k in keys ==> (k in a <==> k in b)
    ensures Only(keys, a) == Only(keys, b)
    decreases |keys|
  {
    if keys != [] {
      var n := |keys| - 1;
      assert keys == keys[..n] + [keys[n]];
      OnlyAlike(keys[..n], a, b);
    }
  }

  lemma {:induction false} OnlyMembers(keys: seq<PageKey>, these: set<PageKey>)
    ensures forall k :: k in Only(keys, these) <==> k in keys && k in these
    decreases |keys|
  {
    if keys != [] {
      var n := |keys| - 1;
      assert keys == keys[..n] + [keys[n]];
      OnlyMembers(keys[..n], these);
    }
  }

  /** Exactly the keys that cannot be deleted stay, in the order they were created. */
  lemma {:induction false} StuckAreUndeletable(c: Catalog, keys: seq<PageKey>, bad: set<PageKey>)
    ensures Stuck(c, keys, bad) == Only(keys, Undeletable(c, bad))
    decreases |keys|
  {
    if keys != [] {
      var n := |keys| - 1;
      var last := keys[n];
      var c1 := Deleted(c, last, last !in bad).1;
      StuckAreUndeletable(c1, keys[..n], bad);
      assert last in Undeletable(c, bad) <==> !Deleted(c, last, last !in bad).0;
      OnlyAlike(keys[..n], Undeletable(c1, bad), Undeletable(c, bad));
    }
  }

  /** The page is one of the identity's layers. */
  ghost predicate LayerPage(identity: nat, layers: nat, k: PageKey) {
    exists i :: 0 <= i < 2 * layers && k == PageAt(identity, i)
  }

  /** Every leftover page of the identity can be deleted. */
  ghost predicate Removable(c: Catalog, identity: nat, layers: nat, bad: set<PageKey>) {
    forall i :: 0 <= i < 2 * layers ==> PageAt(identity, i) !in Undeletable(c, bad)
  }

  /** Recovery has looked at the first `i` pages, and only they may have gone. */
  ghost predicate Recovered(c0: Catalog, c: Catalog, identity: nat, layers: nat, i: nat) {
    && Promised(c, layers) && c.Keys <= c0.Keys && (forall k :: k in c ==> c[k] == c0[k])
    && (forall k :: k in c0 && !LayerPage(identity, layers, k) ==> k in c)
    && (forall j :: i <= j < 2 * layers && PageAt(identity, j) in c0 ==> PageAt(identity, j) in c)
    && (forall k :: k in c0 && (k.MarkerKey? || k.identity != identity) ==> k in c)
    && MarkerKey(identity) !in c && forall j :: 0 <= j < i ==> PageAt(identity, j) !in c
  }

  lemma RecoveredNext(c0: Catalog, c: Catalog, identity: nat, layers: nat, i: nat, bad: set<PageKey>)
    requires Recovered(c0, c, identity, layers, i) == true && i < 2 * layers
    ensures PageAt(identity, i) in Undeletable(c0, bad)
            <==> !Deleted(c, PageAt(identity, i), PageAt(identity, i) !in bad).0
    ensures var d := Deleted(c, PageAt(identity, i), PageAt(identity, i) !in bad);
            Recovered(c0, d.1, identity, layers, if d.0 then i + 1 else i) == true
  {
    DeleteKeeps(c, PageAt(identity, i), layers);
    forall j | i < j < 2 * layers ensures PageAt(identity, j) != PageAt(identity, i) {
      if PageAt(identity, j) == PageAt(identity, i) { PageAtInjective(identity, i, j); }
    }
  }

  lemma EvictsNothing(c: Catalog)
    ensures Backed(c, {}) == c
  {}

  /** The first `i` pages are there, with copies, and no other page of the identity. */
  ghost predicate Filled(c: Catalog, identity: nat, layers: nat, i: nat) {
    && Promised(c, layers) && MarkerKey(identity) !in c
    && (forall j :: 0 <= j < i ==> PageAt(identity, j) in c && c[PageAt(identity, j)])
    && (forall j :: i <= j < 2 * layers ==> PageAt(identity, j) !in c)
  }

  /** After evictions, with the next page not put, put only, or put and written out. */
  lemma FilledNext(c: Catalog, identity: nat, layers: nat, i: nat, evicted: set<PageKey>)
    requires Filled(c, identity, layers, i) && i < 2 * layers
    ensures PageAt(identity, i) !in c
    ensures Filled(Backed(c, evicted), identity, layers, i) == true
    ensures Promised(Backed(c, evicted)[PageAt(identity, i) := false], layers)
    ensures MarkerKey(identity) !in Backed(c, evicted)[PageAt(identity, i) := false]
    ensures Filled(Backed(c, evicted)[PageAt(identity, i) := true], identity, layers, i + 1) == true
  {
    BackedKeeps(c, evicted, layers);
    LayerKeeps(Backed(c, evicted), PageAt(identity, i), false, layers);
    LayerKeeps(Backed(c, evicted), PageAt(identity, i), true, layers);
    forall j | 0 <= j < 2 * layers && j != i ensures PageAt(identity, j) != PageAt(identity, i) {
      if PageAt(identity, j) == PageAt(identity, i) { PageAtInjective(identity, i, j); }
    }
  }

  /** The steps of one page that can be put, and of one that cannot. */
  lemma PutSteps(s: Runtime, es: seq<Step>, layers: nat, c: Catalog, identity: nat, created: seq<PageKey>, i: nat,
                 spilled: bool, evicted: set<PageKey>)
    returns (more: seq<Step>)
    requires i < 2 * layers && PageAt(identity, i) !in c
    requires Replay(s, es) == Engaged(layers, c, Request(identity, created, Filling(i, false), false))
    ensures var all := created + [PageAt(identity, i)];
            Replay(s, more)
            == Engaged(layers, Backed(c, evicted)[PageAt(identity, i) := spilled],
                       Request(identity, all, if spilled then Filling(i + 1, false)
                             else Discarding(Reverse(all), []), false))
  {
    var b, key := Backed(c, evicted), PageAt(identity, i);
    more := Call(s, es, layers, c, Request(identity, created, Filling(i, false), false), true, evicted);
    more := Call(s, more, layers, b[key := false], Request(identity, created + [key], Filling(i, true), false), spilled,
          {});
    assert b[key := false][key := true] == b[key := true];
  }

  lemma PutFails(s: Runtime, es: seq<Step>, layers: nat, c: Catalog, identity: nat, created: seq<PageKey>, i: nat,
                 put: bool, evicted: set<PageKey>)
    returns (more: seq<Step>)
    requires i < 2 * layers && (!put || PageAt(identity, i) in c)
    requires Replay(s, es) == Engaged(layers, c, Request(identity, created, Filling(i, false), false))
    ensures Replay(s, more)
            == Engaged(layers, Backed(c, evicted), Request(identity, created, Discarding(Reverse(created), []), false))
  {
    more := Call(s, es, layers, c, Request(identity, created, Filling(i, false), false), put, evicted);
  }

  class Population {
    const layers: nat
    const identity: nat
    var catalog: Catalog
    var created: seq<PageKey>

    constructor (layers: nat, identity: nat, catalog: Catalog)
      ensures this.layers == layers && this.identity == identity && this.catalog == catalog && created == []
    {
      this.layers, this.identity, this.catalog, this.created := layers, identity, catalog, [];
    }

    /** The engine with this request at `phase`. */
    ghost function At(phase: Phase): Runtime
      reads this
    {
      Engaged(layers, catalog, Request(identity, created, phase, false))
    }

    /** The marker and every page of the identity are in the catalog. */
    ghost predicate Stored()
      reads this
    {
      MarkerKey(identity) in catalog && forall i :: 0 <= i < 2 * layers ==> PageAt(identity, i) in catalog
    }

    /** `_preflight` with calibrated profiles and tokens to reuse, or without: the marker and
        every page must be there. While markers keep their promise the marker decides. */
    method Preflight(profiled: bool, reusable: bool) returns (hit: bool)
      ensures hit <==> profiled && reusable && Stored()
      ensures Promised(catalog, layers) ==> (hit <==> profiled && reusable && MarkerKey(identity) in catalog)
    {
      if !profiled || !reusable { return false; }
      hit := MarkerKey(identity) in catalog;
      for i := 0 to 2 * layers
        invariant hit <==> MarkerKey(identity) in catalog && forall j :: 0 <= j < i ==> PageAt(identity, j) in catalog
      {
        if PageAt(identity, i) !in catalog { hit := false; }
      }
      if MarkerKey(identity) in catalog && Promised(catalog, layers) { assert Complete(catalog, identity, layers); }
    }

    /** What `run` makes of a prefill: it reuses the pages, or it populates them, or neither.
        Without tokens to reuse a population begins even over a marker, and is refused. */
    method Decide(operation: string, profiled: bool, reusable: bool, replaying: bool)
      returns (reuse: bool, populates: bool)
      ensures reuse <==> operation == "reuse" && profiled && reusable && !replaying && Stored()
      ensures populates <==> operation == "populate" && profiled && !replaying && !(reusable && Stored())
      ensures reuse && Promised(catalog, layers) ==> Complete(catalog, identity, layers)
    {
      var hit := Preflight(profiled, reusable);
      reuse := operation == "reuse" && hit && !replaying;
      populates := operation == "populate" && !hit && profiled && !replaying;
    }

    /** `store.delete`: only a page with a file can fail to go. */
    method Delete(key: PageKey, bad: set<PageKey>) returns (ok: bool)
      modifies this`catalog
      ensures (ok, catalog) == Deleted(old(catalog), key, key !in bad)
    {
      ok := true;
      if key in catalog {
        if catalog[key] && key in bad { return false; }
        catalog := catalog - {key};
      }
    }

    /** `_discard_uncommitted`: newest first; what cannot go now is kept for later. */
    method DiscardUncommitted(bad: set<PageKey>, ghost s: Runtime, ghost before: seq<Step>)
      returns (ghost es: seq<Step>)
      requires Replay(s, before) == At(Discarding(Reverse(created), []))
      modifies this
      ensures Replay(s, es) == At(Idle)
      ensures forall k :: k in catalog <==>
                k in old(catalog) && (k !in old(created) || k in Undeletable(old(catalog), bad))
      ensures forall k :: k in catalog ==> catalog[k] == old(catalog)[k]
      ensures created == Only(old(created), Undeletable(old(catalog), bad))
      ensures old(Promised(catalog, layers) && NothingCommitted(catalog, created, layers)) ==> Promised(catalog, layers)
    {
      ghost var c0 := catalog;
      var remaining, i := [], |created|;
      es := before;
      HalfwayBegins(s, es, layers, catalog, identity, created, bad);
      while i > 0
        invariant 0 <= i <= |created| && created == old(created)
        invariant Halfway(s, es, layers, c0, catalog, identity, created, i, remaining, bad) == true
      {
        i := i - 1;
        var key := created[i];
        es := HalfwayNext(s, es, layers, c0, catalog, identity, created, i, remaining, bad);
        var gone := Delete(key, bad);
        if !gone { remaining := [key] + remaining; }
      }
      es := HalfwayEnds(s, es, layers, c0, catalog, identity, created, remaining, bad);
      created := remaining;
      DiscardAllIs(c0, Reverse(old(created)), bad);
      SameKeys(old(created));
      StuckAreUndeletable(c0, old(created), bad);
      if Promised(c0, layers) && NothingCommitted(c0, old(created), layers) {
        DiscardKeeps(c0, Reverse(old(created)), layers, bad);
      }
    }

    /** `_recover_population`: leftovers of this very identity go first. */
    method RecoverPopulation(bad: set<PageKey>, ghost s: Runtime, ghost before: seq<Step>)
      returns (ok: bool, ghost es: seq<Step>)
      requires layers > 0 && Promised(catalog, layers) && Replay(s, before) == At(Recovering(0))
      modifies this`catalog
      ensures Replay(s, es) == At(if ok then Filling(0, false) else Discarding(Reverse(created), []))
      ensures Promised(catalog, layers) && catalog.Keys <= old(catalog).Keys
      ensures forall k :: k in catalog ==> catalog[k] == old(catalog)[k]
      ensures forall k :: k in old(catalog) && !LayerPage(identity, layers, k) ==> k in catalog
      ensures ok <==> MarkerKey(identity) !in old(catalog) && Removable(old(catalog), identity, layers, bad)
      ensures ok ==> MarkerKey(identity) !in catalog && forall i :: 0 <= i < 2 * layers ==>
              PageAt(identity, i) !in catalog
      ensures MarkerKey(identity) in old(catalog) ==> !ok && catalog == old(catalog)
    {
      es := before;
      if MarkerKey(identity) in catalog {
        es := Call(s, es, layers, catalog, Request(identity, created, Recovering(0), false), true, {});
        return false, es;
      }
      ghost var c0 := catalog;
      for i := 0 to 2 * layers
        invariant Recovered(c0, catalog, identity, layers, i) == true && Replay(s, es) == At(Recovering(i))
        invariant forall j :: 0 <= j < i ==> PageAt(identity, j) !in Undeletable(c0, bad)
      {
        RecoveredNext(c0, catalog, identity, layers, i, bad);
        es := RecoverCall(s, es, layers, catalog, Request(identity, created, Recovering(i), false), i, bad);
        var gone := Delete(PageAt(identity, i), bad);
        if !gone { return false, es; }
      }
      es := Call(s, es, layers, catalog, Request(identity, created, Recovering(2 * layers), false), true, {});
      return true, es;
    }

    /** `_put`: the page is put, which may write out others, and then itself written out
        before the next one. */
    method PutPage(i: nat, put: bool, spilled: bool, evicted: set<PageKey>, ghost s: Runtime, ghost before: seq<Step>)
      returns (ok: bool, ghost es: seq<Step>)
      requires i < 2 * layers && Replay(s, before) == At(Filling(i, false))
      modifies this
      ensures Replay(s, es) == At(if ok then Filling(i + 1, false) else Discarding(Reverse(created), []))
      ensures ok <==> put && spilled && PageAt(identity, i) !in old(catalog)
      ensures PageAt(identity, i) in old(catalog) ==> catalog == old(catalog) && created == old(created)
      ensures PageAt(identity, i) !in old(catalog) ==>
                if put
                then catalog == Backed(old(catalog), evicted)[PageAt(identity, i) := spilled]
                     && created == old(created) + [PageAt(identity, i)]
                else catalog == Backed(old(catalog), evicted) && created == old(created)
    {
      var key := PageAt(identity, i);
      if key in catalog {
        EvictsNothing(catalog);
        es := PutFails(s, before, layers, catalog, identity, created, i, put, {});
        return false, es;
      }
      if !put {
        es := PutFails(s, before, layers, catalog, identity, created, i, put, evicted);
        catalog := Backed(catalog, evicted);
        return false, es;
      }
      es := PutSteps(s, before, layers, catalog, identity, created, i, spilled, evicted);
      catalog := Backed(catalog, evicted)[key := false];
      created := created + [key];
      if spilled { catalog := catalog[key := true]; }
      return spilled, es;
    }

    /** `_commit_population` */
    method CommitPopulation(put: bool, spilled: bool, evicted: set<PageKey>, ghost s: Runtime, ghost before: seq<Step>)
      returns (ok: bool, ghost es: seq<Step>)
      requires Replay(s, before) == At(Marking(false))
      modifies this
      ensures Replay(s, es) == At(if ok then Idle else Discarding(Reverse(created), []))
      ensures ok <==> put && spilled
      ensures catalog == if put then Backed(old(catalog), evicted)[MarkerKey(identity) := spilled]
              else Backed(old(catalog), evicted)
      ensures created == if !put then old(created) else if spilled then [] else old(created) + [MarkerKey(identity)]
    {
      es := Call(s, before, layers, catalog, Request(identity, created, Marking(false), false), put, evicted);
      catalog := Backed(catalog, evicted);
      if !put { return false, es; }
      catalog := catalog[MarkerKey(identity) := false];
      created := created + [MarkerKey(identity)];
      es := Call(s, es, layers, catalog, Request(identity, created, Marking(true), false), spilled, {});
      if !spilled { return false, es; }
      catalog := catalog[MarkerKey(identity) := true];
      created := [];
      return true, es;
    }

    /** The catalog has grown by what this attempt has put: pages of its layers. */
    ghost predicate Accounted(before: Catalog, now: Catalog, keys: seq<PageKey>) {
      && (forall k :: k in now <==> k in before || k in keys)
      && forall k :: k in keys ==> LayerPage(identity, layers, k)
    }

    lemma AccountedNext(c0: Catalog, c: Catalog, keys: seq<PageKey>, i: nat, evicted: set<PageKey>,
                        spilled: bool)
      requires Accounted(c0, c, keys) && i < 2 * layers
      ensures Accounted(c0, Backed(c, evicted), keys) == true
      ensures Accounted(c0, Backed(c, evicted)[PageAt(identity, i) := spilled], keys + [PageAt(identity, i)]) == true
    {}

    /** After the last page the marker is next. */
    ghost method FillEnds(s: Runtime, before: seq<Step>) returns (es: seq<Step>)
      requires Replay(s, before) == At(Filling(2 * layers, false))
      ensures Replay(s, es) == At(Marking(false))
    {
      EvictsNothing(catalog);
      es := Call(s, before, layers, catalog, Request(identity, created, Filling(2 * layers, false), false), true, {});
    }

    /** The first `i` pages are stored, and nothing else has been put since `before`. */
    ghost predicate Underway(before: Catalog, i: nat)
      reads this
    {
      && Filled(catalog, identity, layers, i) == true && LayerKeys(created, identity) == true
      && Accounted(before, catalog, created) == true
    }

    /** One page of the loop. */
    method FillPage(i: nat, put: bool, spilled: bool, evicted: set<PageKey>, ghost c0: Catalog, ghost s: Runtime,
                    ghost before: seq<Step>)
      returns (ok: bool, ghost es: seq<Step>)
      requires i < 2 * layers && Underway(c0, i) && Replay(s, before) == At(Filling(i, false))
      modifies this
      ensures ok <==> put && spilled
      ensures Replay(s, es) == At(if ok then Filling(i + 1, false) else Discarding(Reverse(created), []))
      ensures ok ==> Underway(c0, i + 1) == true
      ensures Promised(catalog, layers) && MarkerKey(identity) !in catalog && LayerKeys(created, identity)
      ensures Accounted(c0, catalog, created) == true
    {
      FilledNext(catalog, identity, layers, i, evicted);
      AccountedNext(c0, catalog, created, i, evicted, spilled);
      ok, es := PutPage(i, put, spilled, evicted, s, before);
    }

    /** The pages of all layers, in order, up to the first call that fails. */
    method FillPages(failing: nat, atSpill: bool, evictions: nat -> set<PageKey>, ghost s: Runtime,
          ghost before: seq<Step>)
      returns (ok: bool, ghost es: seq<Step>)
      requires Promised(catalog, layers) && created == [] && MarkerKey(identity) !in catalog
      requires forall i :: 0 <= i < 2 * layers ==> PageAt(identity, i) !in catalog
      requires Replay(s, before) == At(Filling(0, false))
      modifies this
      ensures Replay(s, es) == At(if ok then Marking(false) else Discarding(Reverse(created), []))
      ensures Promised(catalog, layers) && MarkerKey(identity) !in catalog && LayerKeys(created, identity)
      ensures ok ==> Complete(catalog, identity, layers)
      ensures ok <==> failing >= 2 * layers
      ensures Accounted(old(catalog), catalog, created) == true
    {
      es := before;
      for i := 0 to 2 * layers
        invariant Underway(old(catalog), i) == true
        invariant i <= failing && Replay(s, es) == At(Filling(i, false))
      {
        ok, es := FillPage(i, i != failing || atSpill, i != failing, evictions(i), old(catalog), s, es);
        if !ok { return; }
      }
      es := FillEnds(s, es);
      ok := true;
    }

    /** A populating prefill as far as the store goes: call `failing` (the marker's
        is number `2 * layers`), at its put or its spill, is the first to fail, if
        any; put number `i` writes out `evictions(i)`, and `bad` files cannot be removed.
        It is a run of the machine. Afterwards the identity is committed in full, or has no
        marker of this attempt. */
    method Populate(failing: nat, atSpill: bool, evictions: nat -> set<PageKey>, recoverBad: set<PageKey>,
                    bad: set<PageKey>)
      returns (ok: bool, ghost es: seq<Step>)
      requires layers > 0 && Promised(catalog, layers) && created == []
      modifies this
      ensures Replay(old(At(Recovering(0))), es) == At(Idle)
      ensures Promised(catalog, layers)
      ensures ok <==> MarkerKey(identity) !in old(catalog) && Removable(old(catalog), identity, layers, recoverBad)
                      && failing > 2 * layers
      ensures ok ==> forall k :: k in catalog <==>
                k in old(catalog) || k == MarkerKey(identity) || LayerPage(identity, layers, k)
      ensures !ok && MarkerKey(identity) !in old(catalog) && Removable(old(catalog), identity, layers, recoverBad)
              && bad == {} ==>
                created == []
                && forall k :: k in catalog <==> k in old(catalog) && !LayerPage(identity, layers, k)
      ensures ok ==> MarkerKey(identity) in catalog && Complete(catalog, identity, layers) && created == []
      ensures !ok && MarkerKey(identity) !in old(catalog) ==>
              MarkerKey(identity) !in catalog && MarkerKey(identity) !in created
    {
      ghost var s := At(Recovering(0));
      NoStep(s);
      ok, es := RecoverPopulation(recoverBad, s, []);
      if !ok {
        es := DiscardUncommitted(bad, s, es);
        return;
      }
      ok, es := Attempt(failing, atSpill, evictions, bad, s, es);
    }

    /** The pages and the marker; what has been put goes again if one of them fails. */
    method Attempt(failing: nat, atSpill: bool, evictions: nat -> set<PageKey>, bad: set<PageKey>, ghost s: Runtime,
                   ghost before: seq<Step>)
      returns (ok: bool, ghost es: seq<Step>)
      requires layers > 0 && Promised(catalog, layers) && created == [] && MarkerKey(identity) !in catalog
      requires forall i :: 0 <= i < 2 * layers ==> PageAt(identity, i) !in catalog
      requires Replay(s, before) == At(Filling(0, false))
      modifies this
      ensures Replay(s, es) == At(Idle) && Promised(catalog, layers)
      ensures ok <==> failing > 2 * layers
      ensures ok ==> MarkerKey(identity) in catalog && Complete(catalog, identity, layers) && created == []
      ensures ok ==> forall k :: k in catalog <==>
                k in old(catalog) || k == MarkerKey(identity) || LayerPage(identity, layers, k)
      ensures !ok ==> MarkerKey(identity) !in catalog && MarkerKey(identity) !in created
      ensures !ok && bad == {} ==> created == [] && forall k :: k in catalog <==> k in old(catalog)
    {
      ghost var c0 := catalog;
      ok, es := FillPages(failing, atSpill, evictions, s, before);
      ghost var c1, keys := catalog, created;
      if ok {
        ok, es := Mark(failing != 2 * layers, atSpill, evictions(2 * layers), s, es);
        if ok { MarkedKeys(c0, c1, keys); }
      }
      if !ok {
        assert forall k :: k in catalog <==> k in c0 || k in created;
        NoneTwice(c0, created);
        es := FallBack(bad, s, es);
      }
    }

    lemma MarkedKeys(c0: Catalog, c1: Catalog, keys: seq<PageKey>)
      requires Accounted(c0, c1, keys) && Complete(c1, identity, layers)
      ensures forall k :: k in c1 <==> k in c0 || LayerPage(identity, layers, k)
    {}

    /** Nothing this attempt has put was there before. */
    lemma NoneTwice(c0: Catalog, keys: seq<PageKey>)
      requires MarkerKey(identity) !in c0 && forall i :: 0 <= i < 2 * layers ==> PageAt(identity, i) !in c0
      requires forall k :: k in keys ==> k == MarkerKey(identity) || LayerPage(identity, layers, k)
      ensures forall k :: k in keys ==> k !in c0
    {}

    /** The marker, once all pages are there. */
    method Mark(succeeds: bool, atSpill: bool, evicted: set<PageKey>, ghost s: Runtime, ghost before: seq<Step>)
      returns (ok: bool, ghost es: seq<Step>)
      requires Promised(catalog, layers) && Complete(catalog, identity, layers) && MarkerKey(identity) !in catalog
      requires LayerKeys(created, identity) && Replay(s, before) == At(Marking(false))
      modifies this
      ensures Replay(s, es) == At(if ok then Idle else Discarding(Reverse(created), []))
      ensures Promised(catalog, layers) && Complete(catalog, identity, layers) && ok == succeeds
      ensures ok ==> MarkerKey(identity) in catalog && created == []
      ensures !ok ==> UncommittedOnly(catalog, created)
      ensures forall k :: k in catalog <==>
                k in old(catalog) || (k == MarkerKey(identity) && (ok || k in created))
      ensures !ok ==> forall k :: k in created <==> k in old(created) || (k == MarkerKey(identity) && k in catalog)
    {
      BackedKeeps(catalog, evicted, layers);
      assert Complete(Backed(catalog, evicted), identity, layers);
      MarkerKeeps(Backed(catalog, evicted), identity, succeeds, layers);
      ok, es := CommitPopulation(succeeds || atSpill, succeeds, evicted, s, before);
    }

    /** The keys of this attempt are all of this identity, whose marker, if put, has no file. */
    ghost predicate UncommittedOnly(c: Catalog, keys: seq<PageKey>) {
      && (forall k :: k in keys ==> k.identity == identity)
      && (MarkerKey(identity) in c ==> MarkerKey(identity) in keys && !c[MarkerKey(identity)])
    }

    method FallBack(bad: set<PageKey>, ghost s: Runtime, ghost before: seq<Step>) returns (ghost es: seq<Step>)
      requires Promised(catalog, layers) && UncommittedOnly(catalog, created)
      requires Replay(s, before) == At(Discarding(Reverse(created), []))
      modifies this
      ensures Replay(s, es) == At(Idle)
      ensures Promised(catalog, layers) && MarkerKey(identity) !in catalog && MarkerKey(identity) !in created
      ensures bad == {} ==> created == [] && forall k :: k in catalog <==> k in old(catalog) && k !in old(created)
    {
      OnlyUncommitted(catalog, created, layers, identity);
      OnlyMembers(created, Undeletable(catalog, bad));
      es := DiscardUncommitted(bad, s, before);
      if created != [] { assert created[0] in created; }
    }
  }

  lemma OnlyUncommitted(c: Catalog, keys: seq<PageKey>, layers: nat, identity: nat)
    requires (forall k :: k in keys ==> k.identity == identity)
    requires MarkerKey(identity) in c ==> MarkerKey(identity) in keys && !c[MarkerKey(identity)]
    ensures NothingCommitted(c, keys, layers)
  {}

  lemma SameKeys(keys: seq<PageKey>)
    ensures forall k :: k in Reverse(keys) <==> k in keys
  {
    var r := Reverse(keys);
    forall k | k in keys ensures k in r {
      var i :| 0 <= i < |keys| && keys[i] == k;
      assert r[|keys| - 1 - i] == k;
    }
  }
}
