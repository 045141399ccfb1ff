/** The population protocol of src/cacheslide_vllm/runtime.py over the page store:
    one step per store call, with failures and crashes at any of them. */
module Commit {

  datatype Kind = StatePage | KVPage

  /** `_key` and `_commit_key`: digests of identities are taken as injective. */
  datatype PageKey = LayerKey(identity: nat, layer: nat, kind: Kind) | MarkerKey(identity: nat)

  /** The store's catalog as the protocol sees it: which pages have a backing copy. */
  type Catalog = map<PageKey, bool>

  /** The pages of an identity in the order they are written. */
  function PageAt(identity: nat, i: nat): PageKey {
    LayerKey(identity, i / 2, if i % 2 == 0 then StatePage else KVPage)
  }

  function Pages(identity: nat, n: nat): (r: seq<PageKey>)
    ensures |r| == n && forall i :: 0 <= i < n ==> r[i] == PageAt(identity, i)
  {
    seq(n, i requires 0 <= i < n => PageAt(identity, i))
  }

  /** Every page of the identity is there and would survive a crash. */
  ghost predicate Complete(c: Catalog, identity: nat, layers: nat) {
    forall i :: 0 <= i < 2 * layers ==> PageAt(identity, i) in c && c[PageAt(identity, i)]
  }

  /** A commit marker promises all pages of its identity. */
  ghost predicate Promised(c: Catalog, layers: nat) {
    forall identity: nat :: MarkerKey(identity) in c ==> Complete(c, identity, layers)
  }

  // ---- one request ---------------------------------------------------------------------

  /** Where a request is in the protocol. */
  datatype Phase =
    | Recovering(k: nat)                                          // next orphan to look for
    | Filling(n: nat, put: bool)                                  // page n, not yet or already put
    | Marking(put: bool)
    | Discarding(rest: seq<PageKey>, remaining: seq<PageKey>)     // keys still to delete, keys that stayed
    | Idle

  datatype Request = Request(identity: nat, created: seq<PageKey>, phase: Phase, ending: bool)

  datatype Runtime = Runtime(layers: nat, catalog: Catalog, requests: map<nat, Request>)

  datatype Step =
    | Begin(id: nat, identity: nat)             // a populating prefill
    | Advance(id: nat, ok: bool, evicted: set<PageKey>)   // the next store call of the request succeeds or fails
    | GiveUp(id: nat)                           // anything else in the prefill fails, and the fallback runs
    | Abandon(id: nat)                          // a failure the fallback does not catch leaves the pages for `release`
    | Release(id: nat)
    | Touch(evicted: set<PageKey>)              // a load or an eviction writes pages out
    | Crash

  function Reverse(s: seq<PageKey>): (r: seq<PageKey>)
    ensures |r| == |s| && forall i :: 0 <= i < |s| ==> r[i] == s[|s| - 1 - i]
  {
    seq(|s|, i requires 0 <= i < |s| => s[|s| - 1 - i])
  }

  /** The fallback: `_discard_uncommitted` starts at the last created key. */
  function Discard(r: Request): Request {
    r.(phase := Discarding(Reverse(r.created), []))
  }

  /** Eviction spills pages before it drops them. */
  function Backed<K>(c: map<K, bool>, keys: set<K>): map<K, bool> {
    map k | k in c :: c[k] || k in keys
  }

  /** Only a file operation can make a delete fail. */
  function Deleted<K>(c: map<K, bool>, key: K, ok: bool): (bool, map<K, bool>) {
    if key !in c then (true, c)
    else if c[key] && !ok then (false, c)
    else (true, c - {key})
  }

  /** Only pages with a backing copy are there after a crash. */
  function Survivors<K>(c: map<K, bool>): map<K, bool> {
    map k | k in c && c[k] :: true
  }

  function Advanced(layers: nat, c: Catalog, r: Request, ok: bool, evicted: set<PageKey>): (Catalog, Request) {
    match r.phase
    case Recovering(k) =>
      if k == 0 && MarkerKey(r.identity) in c then (c, Discard(r))
      else if k == 2 * layers then (c, r.(phase := Filling(0, false)))
      else
        var d := Deleted(c, PageAt(r.identity, k), ok);
        (d.1, if d.0 then r.(phase := Recovering(k + 1)) else Discard(r))
    case Filling(n, false) =>
      if n == 2 * layers then (c, r.(phase := Marking(false)))
      else if !ok || PageAt(r.identity, n) in c then (Backed(c, evicted), Discard(r))
      else (Backed(c, evicted)[PageAt(r.identity, n) := false],
            r.(created := r.created + [PageAt(r.identity, n)], phase := Filling(n, true)))
    case Filling(n, true) =>
      if ok && PageAt(r.identity, n) in c then (c[PageAt(r.identity, n) := true], r.(phase := Filling(n + 1, false)))
          else (c, Discard(r))
    case Marking(false) =>
      if !ok then (Backed(c, evicted), Discard(r))
      else (Backed(c, evicted)[MarkerKey(r.identity) := false],
            r.(created := r.created + [MarkerKey(r.identity)], phase := Marking(true)))
    case Marking(true) =>
      if ok && MarkerKey(r.identity) in c then (c[MarkerKey(r.identity) := true], r.(created := [], phase := Idle))
          else (c, Discard(r))
    case Discarding(rest, remaining) =>
      if rest == [] then (c, r.(created := remaining, phase := Idle))
      else
        var d := Deleted(c, rest[0], ok);
        (d.1, r.(phase := Discarding(rest[1..], if d.0 then remaining else [rest[0]] + remaining)))
    case Idle => (c, r)
  }

  /** No model forward is under way: `run` refuses a second one. */
  predicate Resting(s: Runtime) {
    forall id :: id in s.requests ==> s.requests[id].phase.Idle?
  }

  function Next(s: Runtime, e: Step): Runtime {
    match e
    case Begin(id, identity) =>
      if id in s.requests || !Resting(s) then s
          else s.(requests := s.requests[id := Request(identity, [], Recovering(0), false)])
    case Advance(id, ok, evicted) =>
      if id !in s.requests then s
      else
        var a := Advanced(s.layers, s.catalog, s.requests[id], ok, evicted);
        if a.1.phase.Idle? && a.1.ending then s.(catalog := a.0, requests := s.requests - {id})
        else s.(catalog := a.0, requests := s.requests[id := a.1])
    case GiveUp(id) =>
      if id in s.requests && !s.requests[id].phase.Discarding? && !s.requests[id].phase.Idle?
      then s.(requests := s.requests[id := Discard(s.requests[id])]) else s
    case Abandon(id) =>
      if id in s.requests && !s.requests[id].phase.Discarding? && !s.requests[id].phase.Idle?
          && s.requests[id].phase != Marking(true)
      then s.(requests := s.requests[id := s.requests[id].(phase := Idle)]) else s
    case Release(id) =>
      if id in s.requests && Resting(s) then s.(requests := s.requests[id := Discard(s.requests[id]).(ending := true)])
          else s
    case Touch(evicted) => if Resting(s) then s.(catalog := Backed(s.catalog, evicted)) else s
    case Crash => s.(catalog := Survivors(s.catalog), requests := map[])
  }

  function Replay(s: Runtime, es: seq<Step>): Runtime
    decreases |es|
  {
    if es == [] then s else Replay(Next(s, es[0]), es[1..])
  }

  /** No populating prefill begins while another request of its identity is live. */
  predicate NoTwins(s: Runtime, es: seq<Step>)
    decreases |es|
  {
    es == [] || (BeginsAlone(s, es[0]) && NoTwins(Next(s, es[0]), es[1..]))
  }

  predicate BeginsAlone(s: Runtime, e: Step) {
    e.Begin? ==> forall id :: id in s.requests ==> s.requests[id].identity != e.identity
  }

  // ---- the invariant ------------------------------------------------------------------------

  ghost predicate LayerKeys(keys: seq<PageKey>, identity: nat) {
    forall k :: k in keys ==> k.LayerKey? && k.identity == identity
  }

  ghost predicate PhaseFits(layers: nat, c: Catalog, r: Request) {
    var marker := MarkerKey(r.identity);
    match r.phase
    case Recovering(k) =>
      && k <= 2 * layers && r.created == [] && (k > 0 ==> marker !in c)
      && forall i :: 0 <= i < k ==> PageAt(r.identity, i) !in c
    case Filling(n, put) =>
      && n <= 2 * layers && (put ==> n < 2 * layers && PageAt(r.identity, n) in c)
      && r.created == Pages(r.identity, if put then n + 1 else n) && marker !in c
      && forall i :: 0 <= i < n ==> PageAt(r.identity, i) in c && c[PageAt(r.identity, i)]
    case Marking(put) =>
      && r.created == Pages(r.identity, 2 * layers) + (if put then [marker] else []) && Complete(c, r.identity, layers)
      && (if put then marker in c && !c[marker] else marker !in c)
    case Discarding(rest, remaining) => LayerKeys(remaining, r.identity) && Pending(c, r.identity, rest, remaining)
    case Idle => LayerKeys(r.created, r.identity) && (r.created != [] ==> marker !in c)
  }

  /** Before any page is deleted, an unpublished marker goes; it has no file, so
      its delete cannot fail. */
  ghost predicate Pending(c: Catalog, identity: nat, rest: seq<PageKey>, remaining: seq<PageKey>) {
    var marker := MarkerKey(identity);
    || (LayerKeys(rest, identity) && (rest != [] || remaining != [] ==> marker !in c))
    || (rest != [] && rest[0] == marker && LayerKeys(rest[1..], identity) && marker in c && !c[marker])
  }

  /** Live requests differ in identity, and one at most is in a forward or a release. */
  ghost predicate Apart(requests: map<nat, Request>) {
    forall a, b :: a in requests && b in requests && a != b ==>
      requests[a].identity != requests[b].identity && (requests[a].phase.Idle? || requests[b].phase.Idle?)
  }

  ghost predicate Inv(s: Runtime) {
    && Promised(s.catalog, s.layers) && Apart(s.requests) && s.layers > 0
    && forall id :: id in s.requests ==> PhaseFits(s.layers, s.catalog, s.requests[id])
  }
}
