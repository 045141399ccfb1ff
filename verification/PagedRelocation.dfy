/** A layer of a prefill whose selected rows go to the sidecar while the host
    load of the baseline may still be running. The promotion's publication, the
    end of the load and the load's done-callback may come in any order. */
module PagedRelocation {
  import opened Basics
  import opened Slide
  import opened SlideSafety
  import opened Paged
  import opened PagedCalls
  import opened PagedSafety
  import opened PagedTheorems
  import opened PagedRuns
  import opened PagedPrefill

  /** A promotion of `rows`, its load, and the names of its two calls. */
  datatype Move = Move(id: nat, order: seq<nat>, rows: map<nat, Row>, load: nat, callback: nat)

  ghost predicate Startable(p: Arena, m: Move) {
    && Resting(p) && !p.decoded && Distinct(m.order) && m.order != [] && m.rows.Keys == (set t | t in m.order)
    && (forall t :: t in m.order ==> t in p.canonical && t !in p.selected)
    && |p.selected| + |m.order| <= p.geo.maxSelected
    && m.id != m.callback && (LoadStatus(p, Some(m.load)).LoadPending? || LoadStatus(p, Some(m.load)).LoadDone?)
  }

  ghost function Started(p: Arena, m: Move): Arena {
    Promoting(p, m.id, m.order, m.rows, Some(m.load), m.callback)
  }

  // ---- the arena while the promotion and the load run -----------------------------------------

  predicate Unpublished(q: Arena, m: Move) {
    m.id in q.slide.ops && q.slide.ops[m.id].Promotion? && q.slide.ops[m.id].phase.Writing?
  }

  ghost predicate Calls(slots: map<nat, nat>, ops: map<nat, Op>, m: Move, dest: map<nat, nat>) {
    && ops.Keys <= {m.id, m.callback} && m.id != m.callback
    && (m.id in ops ==> ops[m.id].Promotion? && ops[m.id].dest == dest && !ops[m.id].phase.Failed?)
    && (m.callback in ops ==>
          ops[m.callback].Loading? && forall t :: t in m.rows && t in slots ==> slots[t] in ops[m.callback].sources)
  }

  ghost predicate Records(p: Arena, q: Arena, m: Move) {
    && q.canonical == p.canonical && q.table == p.table && q.geo == p.geo && q.decoded == p.decoded
    && q.baselineReady == p.baselineReady && q.selected == p.selected + m.rows.Keys && !q.broken && Idle(q)
    && q.loads == p.loads + {m.load} && m.load in q.futures && q.futures == p.futures[m.load := q.futures[m.load]]
    && (q.futures[m.load].LoadPending? || q.futures[m.load].LoadDone?)
    && (m.callback !in q.slide.ops ==> q.futures[m.load].LoadDone?)
    && (m.callback in q.callbacks ==> q.callbacks[m.callback] == m.load)
  }

  ghost predicate Rows(p: Arena, q: Arena, m: Move, dest: map<nat, nat>) {
    && !q.slide.core.closed && q.slide.core.shared == p.slide.core.shared && q.slide.core.floor == p.slide.core.floor
    && if Unpublished(q, m)
       then q.slide.core.slots == p.slide.core.slots && q.logical == p.logical && m.id in q.jobs
           && q.jobs[m.id].assign == m.rows
       else q.slide.core.slots == p.slide.core.slots + dest && q.logical == p.logical + m.rows
  }

  ghost predicate Midway(p: Arena, q: Arena, m: Move, dest: map<nat, nat>) {
    Calls(p.slide.core.slots, q.slide.ops, m, dest) && Records(p, q, m) && Rows(p, q, m, dest)
  }

  // ---- the steps, in any order --------------------------------------------------------------------

  /** What may happen before the layer goes on: device writes, the promotion's
      end, the load's end, its callback. */
  predicate Ends(e: Step, m: Move) {
    e.Scribble? || e == Land(m.id) || e == PublishPromotion(m.id) || e == ReleasePromotion(m.id)
    || e == Resolve(m.load, true) || e == LoadCallback(m.callback)
  }

  lemma LandMid(p: Arena, q: Arena, m: Move, dest: map<nat, nat>)
    requires Midway(p, q, m, dest)
    ensures Midway(p, Next(q, Land(m.id)), m, dest)
  {
    if Enabled(q, Land(m.id)) == true {
      assert Next(q, Land(m.id)) == Arrived(q, m.id);
    }
  }

  lemma PublishMid(p: Arena, q: Arena, m: Move, dest: map<nat, nat>)
    requires Midway(p, q, m, dest)
    ensures Midway(p, Next(q, PublishPromotion(m.id)), m, dest)
  {
    var s := Apply(q.slide, PromotePublish(m.id));
    if Enabled(q, PublishPromotion(m.id)) == true && s != q.slide {
      assert s == q.slide.(core := Publish(q.slide.core, q.slide.ops[m.id]),
                           ops := q.slide.ops[m.id := q.slide.ops[m.id].(phase := Published)]);
    }
  }

  lemma ReleaseMid(p: Arena, q: Arena, m: Move, dest: map<nat, nat>)
    requires Midway(p, q, m, dest)
    ensures Midway(p, Next(q, ReleasePromotion(m.id)), m, dest)
  {
    if Enabled(q, ReleasePromotion(m.id)) == true {
      ReleasePromotionIs(q, m.id);
    }
  }

  lemma LoadMid(p: Arena, q: Arena, m: Move, dest: map<nat, nat>, e: Step)
    requires Midway(p, q, m, dest) && (e == Resolve(m.load, true) || e.Scribble?)
    ensures Midway(p, Next(q, e), m, dest)
  {
    if e.Scribble? { ScribbleMid(p, q, m, dest, e.now); } else { ResolveMid(p, q, m, dest); }
  }

  lemma ScribbleMid(p: Arena, q: Arena, m: Move, dest: map<nat, nat>, now: map<nat, Row>)
    requires Midway(p, q, m, dest)
    ensures Midway(p, Next(q, Scribble(now)), m, dest) == true
  {}

  lemma ResolveMid(p: Arena, q: Arena, m: Move, dest: map<nat, nat>)
    requires Midway(p, q, m, dest)
    ensures Midway(p, Next(q, Resolve(m.load, true)), m, dest) == true
  {
    var r := Next(q, Resolve(m.load, true));
    OnlyFutures(q, m.load);
    FuturesMid(p, q, r, m, dest);
  }

  lemma OnlyFutures(q: Arena, load: nat)
    ensures var r := Next(q, Resolve(load, true));
            r == q || (load in q.futures && r == q.(futures := q.futures[load := LoadDone]))
  {}

  lemma FuturesMid(p: Arena, q: Arena, r: Arena, m: Move, dest: map<nat, nat>)
    requires Midway(p, q, m, dest)
    requires r == q || r == q.(futures := q.futures[m.load := LoadDone])
    ensures Midway(p, r, m, dest) == true
  {}

  lemma CallbackIs(q: Arena, callback: nat)
    requires Enabled(q, LoadCallback(callback)) && callback in q.slide.ops && q.slide.ops[callback].Loading?
    ensures Next(q, LoadCallback(callback))
            == q.(slide := Leave(q.slide, callback), callbacks := q.callbacks - {callback})
  {
    assert Apply(q.slide, LoadFinished(callback)) == Leave(q.slide, callback);
  }

  lemma CallbackMid(p: Arena, q: Arena, m: Move, dest: map<nat, nat>)
    requires Midway(p, q, m, dest)
    requires (m.callback in q.callbacks ==> m.callback in q.slide.ops && q.slide.ops[m.callback].Loading?)
    ensures Midway(p, Next(q, LoadCallback(m.callback)), m, dest)
  {
    if Enabled(q, LoadCallback(m.callback)) == true { CallbackIs(q, m.callback); }
  }

  lemma StepMid(p: Arena, q: Arena, m: Move, dest: map<nat, nat>, e: Step)
    requires Good(q) && Midway(p, q, m, dest) == true && Ends(e, m)
    ensures Good(Next(q, e)) && Midway(p, Next(q, e), m, dest) == true
  {
    StepGood(q, e);
    match e
    case Land(_) => LandMid(p, q, m, dest);
    case PublishPromotion(_) => PublishMid(p, q, m, dest);
    case ReleasePromotion(_) => ReleaseMid(p, q, m, dest);
    case LoadCallback(_) =>
      if m.callback in q.callbacks { CallbackLoads(q, m.callback); }
      CallbackMid(p, q, m, dest);
    case _ => LoadMid(p, q, m, dest, e);
  }

  lemma {:induction false} RunMid(p: Arena, q: Arena, m: Move, dest: map<nat, nat>, es: seq<Step>)
    requires Good(q) && Midway(p, q, m, dest) == true && forall e :: e in es ==> Ends(e, m)
    ensures Good(Replay(q, es)) && Midway(p, Replay(q, es), m, dest) == true
    decreases |es|
  {
    if es == [] {
    } else {
      StepMid(p, q, m, dest, es[0]);
      RunMid(p, Next(q, es[0]), m, dest, es[1..]);
    }
  }

  // ---- the start ------------------------------------------------------------------------------------

  lemma StartSlide(s: System, id: nat, order: seq<nat>, load: LoadState, callback: nat)
    requires SlideTheorems.Safe(s) == true && s.ops == map[] && id != callback && (load.LoadPending? || load.LoadDone?)
    ensures var s' := Apply(s, PromoteBegin(id, order, load, callback, false));
            id in s'.ops ==>
              && s'.ops.Keys == (if load.LoadPending? then {id, callback} else {id})
              && s'.ops[id].Promotion? && s'.ops[id].phase.Writing? && s'.ops[id].dest.Keys == (set t | t in order)
              && (load.LoadPending? ==> s'.ops[callback].Loading?
                                        && forall t :: t in order && t in s.core.slots ==>
                                              s.core.slots[t] in s'.ops[callback].sources)
              && s'.core.slots == s.core.slots && s'.core.closed == s.core.closed
              && s'.core.shared == s.core.shared && s'.core.floor == s.core.floor
  {
    var s1 := PromoteEffect(s, id, order, load, callback);
    var s' := Apply(s, PromoteBegin(id, order, load, callback, false));
    if id in s'.ops {
      var source := s1.ops[id].source;
      assert forall t :: t in order ==> source[t] in source.Values;
      if load.LoadPending? { assert s'.ops == s1.ops[callback := Loading(source.Values)]; }
    }
  }

  /** What the arena records of the promotion. */
  lemma StartRecords(p: Arena, s: System, m: Move)
    requires m.id !in p.slide.ops && Idle(p) && !p.broken
    requires (LoadStatus(p, Some(m.load)).LoadPending? || LoadStatus(p, Some(m.load)).LoadDone?)
    requires m.id in s.ops && s.ops[m.id].Promotion? && s.ops[m.id].dest.Keys == m.rows.Keys && p.callbacks == map[]
    requires m.callback !in s.ops ==> LoadStatus(p, Some(m.load)).LoadDone?
    ensures var q := Promoted(p, s, m.id, false, m.rows, Some(m.load), m.callback);
            Records(p, q, m) && q.slide == s && q.logical == p.logical && m.id in q.jobs
                && q.jobs[m.id].assign == m.rows
  {}

  lemma StartIs(p: Arena, m: Move) returns (s: System)
    requires Startable(p, m) && SlideTheorems.Safe(p.slide) == true
    ensures Started(p, m) == Promoted(p, s, m.id, false, m.rows, Some(m.load), m.callback)
    ensures m.id in s.ops ==>
              && s.ops.Keys == (if LoadStatus(p, Some(m.load)).LoadPending? then {m.id, m.callback} else {m.id})
              && s.ops[m.id].Promotion? && s.ops[m.id].phase.Writing? && s.ops[m.id].dest.Keys == m.rows.Keys
              && Calls(p.slide.core.slots, s.ops, m, s.ops[m.id].dest)
              && s.core.slots == p.slide.core.slots && s.core.closed == p.slide.core.closed
              && s.core.shared == p.slide.core.shared && s.core.floor == p.slide.core.floor
  {
    s := Apply(p.slide, PromoteBegin(m.id, m.order, LoadStatus(p, Some(m.load)), m.callback, false));
    StartSlide(p.slide, m.id, m.order, LoadStatus(p, Some(m.load)), m.callback);
  }

  lemma NoCallbacks(p: Arena)
    requires Resting(p)
    ensures p.callbacks == map[] && SlideTheorems.Safe(p.slide) == true
  {
    assert p.callbacks.Keys == {} by { Part(p, Mutex); }
    Part(p, Map);
  }

  lemma StartTaken(p: Arena, m: Move)
    requires Startable(p, m)
    ensures Good(Started(p, m)) && m.id in Started(p, m).slide.ops
  {
    SpareSidecar(p);
    TakenUp(p, m.id, m.order, m.rows, Some(m.load), m.callback);
    PromoteEnabled(p, m.id, m.order, m.rows, Some(m.load), m.callback);
    StepGood(p, BeginPromote(m.id, m.order, m.rows, Some(m.load), m.callback));
  }

  /** The promotion is always taken up: the sidecar suffices. */
  lemma StartMid(p: Arena, m: Move) returns (dest: map<nat, nat>)
    requires Startable(p, m)
    ensures Good(Started(p, m)) && Midway(p, Started(p, m), m, dest) == true
    ensures dest.Keys == m.rows.Keys && forall t :: t in dest ==> dest[t] >= p.slide.core.floor
  {
    NoCallbacks(p);
    StartTaken(p, m);
    var s := StartIs(p, m);
    assert s == Started(p, m).slide;
    dest := s.ops[m.id].dest;
    StartRecords(p, s, m);
    DestinationsAbove(Started(p, m), m.id);
  }

  lemma DestinationsAbove(q: Arena, id: nat)
    requires Good(q) && id in q.slide.ops && q.slide.ops[id].Promotion? && q.slide.ops[id].phase.Writing?
    ensures forall t :: t in q.slide.ops[id].dest ==> q.slide.ops[id].dest[t] >= q.slide.core.floor
  {
    PromotionFacts(q, id);
  }

  // ---- the layer goes on ------------------------------------------------------------------------------

  /** The promotion's future is resolved and so is the load's. */
  predicate Awaited(q: Arena, m: Move) {
    m.id !in q.slide.ops && m.load in q.futures && q.futures[m.load].LoadDone?
  }

  lemma CalledBack(p: Arena, q: Arena, m: Move, dest: map<nat, nat>)
    requires Resting(p) && Good(q) && Midway(p, q, m, dest) && Awaited(q, m) && m.callback !in q.slide.ops
    ensures Resting(q)
  {
    assert q.slide.ops.Keys == {};
  }

  /** The layer went on before the callback ran: the baseline write is refused. */
  lemma StillHeld(p: Arena, q: Arena, m: Move, dest: map<nat, nat>, cached: map<nat, Row>)
    requires Good(q) && Midway(p, q, m, dest) && m.callback in q.slide.ops && p.slide.core.slots == p.canonical
    requires m.rows.Keys <= cached.Keys == p.canonical.Keys && m.rows.Keys != {}
    ensures !WriteGranted(q, cached)
  {
    WriteGrantedExactly(q, cached);
    var t :| t in m.rows;
    assert q.canonical[t] in Image(q.canonical, cached.Keys);
    assert q.canonical[t] in Uses(q.slide.ops[m.callback], Use.Hold);
  }

  /** Where the rows are once the promotion has published. */
  lemma RowsMoved(p: Arena, q: Arena, m: Move, dest: map<nat, nat>, cached: map<nat, Row>)
    requires Rows(p, q, m, dest) && !Unpublished(q, m) && q.canonical == p.canonical && cached.Keys == p.canonical.Keys
    requires p.slide.core.slots == p.canonical && dest.Keys == m.rows.Keys
    requires forall t :: t in p.canonical ==> p.canonical[t] < p.slide.core.floor
    requires forall t :: t in dest ==> dest[t] >= p.slide.core.floor
    ensures Unmoved(q, cached) == cached - m.rows.Keys && q.logical == p.logical + m.rows
  {}

  lemma Overlay(was: map<nat, Row>, staged: map<nat, Row>, cached: map<nat, Row>, fused: map<nat, Row>)
    requires was.Keys == cached.Keys && staged.Keys <= fused.Keys <= cached.Keys
    ensures was + staged + (cached - staged.Keys) + fused == cached + fused
  {}

  /** Relocate-first: the promotion and the load in some order, then the
      baseline, then the fused rows. */
  ghost function RelocateFirst(p: Arena, m: Move, es: seq<Step>, ids: (nat, nat), cached: map<nat, Row>,
                               fused: map<nat, Row>): Arena {
    UpdateCall(WriteCall(Replay(Started(p, m), es), ids.0, cached, {}), ids.1, fused, {})
  }

  lemma MovedThenLoaded(p: Arena, q: Arena, m: Move, dest: map<nat, nat>, ids: (nat, nat), cached: map<nat, Row>,
                        fused: map<nat, Row>)
    requires FreshArena(p) == true && Resting(q) && Midway(p, q, m, dest) == true && Awaited(q, m)
    requires dest.Keys == m.rows.Keys && forall t :: t in dest ==> dest[t] >= p.slide.core.floor
    requires cached.Keys == p.canonical.Keys && m.rows.Keys <= fused.Keys <= p.canonical.Keys
    ensures var r := UpdateCall(WriteCall(q, ids.0, cached, {}), ids.1, fused, {});
            WriteGranted(q, cached) && Resting(r) && r.logical == cached + fused && r.canonical == p.canonical
                && !r.decoded
  {
    WriteRests(q, ids.0, cached);
    UpdateRests(WriteCall(q, ids.0, cached, {}), ids.1, fused);
    assert p.logical.Keys == p.canonical.Keys by { Part(p, Domain); }
    assert forall t :: t in p.canonical ==> p.canonical[t] < p.slide.core.floor by { Part(p, Names); }
    RowsMoved(p, q, m, dest, cached);
    Overlay(p.logical, m.rows, cached, fused);
  }

  /** Once the promotion and the load have been awaited, in whatever order they
      ended, the baseline write is granted exactly if the load's callback has run
      too; and then the layer's K/V is the dense one. */
  lemma RelocateFirstIsDense(p: Arena, m: Move, es: seq<Step>, ids: (nat, nat), cached: map<nat, Row>,
                             fused: map<nat, Row>)
    requires FreshArena(p) == true && Startable(p, m) && forall e :: e in es ==> Ends(e, m)
    requires cached.Keys == p.canonical.Keys && m.rows.Keys <= fused.Keys <= p.canonical.Keys
    requires Awaited(Replay(Started(p, m), es), m)
    ensures var q := Replay(Started(p, m), es);
            && (WriteGranted(q, cached) <==> m.callback !in q.slide.ops)
            && (m.callback in q.slide.ops ==> WriteCall(q, ids.0, cached, {}) == q)
            && (m.callback !in q.slide.ops ==>
                  var r := RelocateFirst(p, m, es, ids, cached, fused);
                  Resting(r) && r.logical == cached + fused && r.canonical == p.canonical && !r.decoded)
  {
    var dest := StartMid(p, m);
    RunMid(p, Started(p, m), m, dest, es);
    var q := Replay(Started(p, m), es);
    if m.callback in q.slide.ops {
      assert m.order[0] in m.rows;
      StillHeld(p, q, m, dest, cached);
    } else {
      CalledBack(p, q, m, dest);
      MovedThenLoaded(p, q, m, dest, ids, cached, fused);
    }
  }

  // ---- the callback may be late ---------------------------------------------------------------------

  /** The device has written, the map has published, the writer has let go, the load has
      ended: everything that is awaited, and not the load's callback. */
  function Hurried(m: Move): seq<Step> {
    [Land(m.id), PublishPromotion(m.id), ReleasePromotion(m.id), Resolve(m.load, true)]
  }

  /** The promotion is being written, and the load it overtakes still runs. */
  ghost predicate Writing(q: Arena, m: Move) {
    && m.id != m.callback && m.id in q.slide.ops && Unpublished(q, m) && m.id in q.jobs && !q.slide.core.closed
    && m.callback in q.slide.ops && m.load in q.futures && q.futures[m.load].LoadPending?
  }

  lemma StartWrites(p: Arena, m: Move)
    requires Startable(p, m) && LoadStatus(p, Some(m.load)).LoadPending?
    ensures Writing(Started(p, m), m) && !Started(p, m).jobs[m.id].landed
  {
    NoCallbacks(p);
    StartTaken(p, m);
    var s := StartIs(p, m);
    assert s == Started(p, m).slide;
    StartRecords(p, s, m);
  }

  lemma Lands(q: Arena, m: Move)
    requires Writing(q, m) && !q.jobs[m.id].landed
    ensures var r := Next(q, Land(m.id)); Writing(r, m) && r.jobs[m.id].landed
  {
    assert Next(q, Land(m.id)) == Arrived(q, m.id);
  }

  lemma Publishes(q: Arena, m: Move)
    requires Good(q) && Writing(q, m) && q.jobs[m.id].landed
    ensures var r := Next(q, PublishPromotion(m.id));
            && m.id in r.slide.ops && r.slide.ops[m.id].Promotion? && r.slide.ops[m.id].phase.Published?
            && m.callback in r.slide.ops && r.futures == q.futures
  {
    assert Publishable(q.slide.core, q.slide.ops[m.id]) by { MapInv(q); SourceUnmoved(q.slide, m.id); }
    assert Apply(q.slide, PromotePublish(m.id)).ops[m.id] != q.slide.ops[m.id];
  }

  lemma LetsGo(q: Arena, m: Move)
    requires m.id in q.slide.ops && q.slide.ops[m.id].Promotion? && q.slide.ops[m.id].phase.Published?
    requires m.id != m.callback && m.callback in q.slide.ops
    ensures var r := Next(q, ReleasePromotion(m.id));
            m.id !in r.slide.ops && m.callback in r.slide.ops && r.futures == q.futures
  {
    ReleasePromotionIs(q, m.id);
  }

  lemma LoadEnds(q: Arena, m: Move)
    requires m.load in q.futures && q.futures[m.load].LoadPending?
    ensures var r := Next(q, Resolve(m.load, true));
            r.slide == q.slide && m.load in r.futures && r.futures[m.load].LoadDone?
  {
    OnlyFutures(q, m.load);
  }

  /** One step more of a run. */
  lemma Onward(q: Arena, es: seq<Step>, e: Step, r: Arena)
    requires Replay(q, es) == r
    ensures Replay(q, es + [e]) == Next(r, e)
  {
    ReplayAppend(q, es, [e]);
    ReplayOne(r, e);
  }

  lemma HurriedEnds(m: Move)
    ensures forall e :: e in Hurried(m) ==> Ends(e, m)
  {}

  lemma HurriedRun(q0: Arena, m: Move) returns (q: Arena)
    requires Good(q0) && Writing(q0, m) && !q0.jobs[m.id].landed
    ensures q == Replay(q0, Hurried(m)) && Awaited(q, m) && m.callback in q.slide.ops
  {
    var a, b, c, d := Land(m.id), PublishPromotion(m.id), ReleasePromotion(m.id), Resolve(m.load, true);
    Lands(q0, m);
    StepGood(q0, a);
    var q1 := Next(q0, a);
    Publishes(q1, m);
    var q2 := Next(q1, b);
    LetsGo(q2, m);
    var q3 := Next(q2, c);
    LoadEnds(q3, m);
    q := Next(q3, d);
    assert q == Replay(q0, Hurried(m)) by {
      assert Replay(q0, []) == q0;
      Onward(q0, [], a, q0);
      Onward(q0, [] + [a], b, q1);
      Onward(q0, [] + [a] + [b], c, q2);
      Onward(q0, [] + [a] + [b] + [c], d, q3);
      assert [] + [a] + [b] + [c] + [d] == Hurried(m);
    }
  }

  lemma HeldBack(p: Arena, q0: Arena, m: Move, dest: map<nat, nat>, cached: map<nat, Row>)
    requires p.slide.core.slots == p.canonical && Good(q0) && Midway(p, q0, m, dest) == true
    requires Writing(q0, m) && !q0.jobs[m.id].landed
    requires m.rows.Keys <= cached.Keys == p.canonical.Keys && m.rows.Keys != {}
    ensures forall e :: e in Hurried(m) ==> Ends(e, m)
    ensures var q := Replay(q0, Hurried(m));
            Awaited(q, m) && m.callback in q.slide.ops && !WriteGranted(q, cached)
  {
    var q := HurriedRun(q0, m);
    HurriedEnds(m);
    RunMid(p, q0, m, dest, Hurried(m));
    StillHeld(p, q, m, dest, cached);
  }

  /** So the refusal happens: whenever a promotion overtakes a pending load, the layer can
      go on with everything awaited while the callback is still to come. */
  lemma LateCallbackRefusesBaseline(p: Arena, m: Move, cached: map<nat, Row>)
    requires FreshArena(p) == true && Startable(p, m) && LoadStatus(p, Some(m.load)).LoadPending?
    requires m.rows.Keys <= cached.Keys == p.canonical.Keys
    ensures forall e :: e in Hurried(m) ==> Ends(e, m)
    ensures var q := Replay(Started(p, m), Hurried(m));
            Awaited(q, m) && m.callback in q.slide.ops && !WriteGranted(q, cached)
  {
    var dest := StartMid(p, m);
    StartWrites(p, m);
    assert m.order[0] in m.rows;
    HeldBack(p, Started(p, m), m, dest, cached);
  }
}
