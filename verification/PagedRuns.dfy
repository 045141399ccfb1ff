/** Every call of the paged arena is a run of the machine's steps, so each keeps
    the invariant; and what each call assigns, written out. */
module PagedRuns {
  import opened Basics
  import opened Slide
  import opened SlideSafety
  import opened SlideTheorems
  import opened Paged
  import opened PagedCalls
  import opened PagedSafety
  import opened PagedTheorems

  lemma GoodShape(p: Arena)
    requires Good(p) && Idle(p)
    ensures Shape(p)
  {
    Part(p, Names); Part(p, NoAlias); Part(p, Space);
    assert SlideSafety.Placed(p.slide.core, p.slide.base) by { MapInv(p); }
    forall t | t in p.slide.core.slots ensures p.slide.core.slots[t] < p.slide.core.floor + p.geo.maxSelected {
      assert p.slide.core.slots[t] in p.slide.core.slots.Values;
    }
  }

  // ---- guarded writes ------------------------------------------------------------------

  lemma GuardedIsSteps(p: Arena, e: Step, id: nat, guarded: set<nat>, job: Job, lost: set<nat>)
    requires Good(p) && Idle(p) && NewCall(p, id) && !p.slide.core.closed && !job.landed && job.plan.Keys <= p.mem.Keys
    requires Next(p, e) == Begun(p, id, guarded, job) && Begun(p, id, guarded, job) != p
    ensures GuardedCall(p, id, guarded, job, lost) == Replay(p, GuardSteps(p, e, id, lost))
    ensures Good(GuardedCall(p, id, guarded, job, lost)) && Idle(GuardedCall(p, id, guarded, job, lost))
  {
    GuardedIdle(p, id, guarded, job, lost);
    BegunPending(p, id, guarded, job);
    GuardReplay(p, e, id, lost);
    EndOfGuard(Begun(p, id, guarded, job), id, lost);
    ReplayGood(p, GuardSteps(p, e, id, lost));
  }

  lemma NothingHappens(p: Arena, e: Step, id: nat, lost: set<nat>)
    requires Next(p, e) == p
    ensures Replay(p, GuardSteps(p, e, id, lost)) == p
  {
    Replay1(p, e);
  }

  lemma PlanInside(p: Arena, place: map<nat, nat>, rows: map<nat, Row>)
    requires Shape(p) == true && rows.Keys <= place.Keys && Injective(place)
    requires forall t :: t in place ==> place[t] < p.slide.core.floor + p.geo.maxSelected
    ensures Paged.Placed(place, rows).Keys <= p.mem.Keys
  {
    PlacedFacts(place, rows);
  }

  lemma WriteBegins(p: Arena, id: nat, rows: map<nat, Row>)
    requires Shape(p) == true && NewCall(p, id) && CanWrite(p, rows) == true && rows.Keys <= p.canonical.Keys
    ensures var slots, job := Image(p.canonical, rows.Keys), BaselineJob(p, rows);
            && Next(p, BeginWrite(id, rows)) == (if CanGuard(p.slide.core, slots) then Begun(p, id, slots, job) else p)
            && Begun(p, id, slots, job) != p && job.plan.Keys <= p.mem.Keys
  {
    PlanInside(p, p.canonical, rows);
    var slots := Image(p.canonical, rows.Keys);
    assert Available(p.slide.core, {}) == {} && slots + {} == slots;
    BeginBegun(p, id, slots, {}, BaselineJob(p, rows));
  }

  lemma {:induction false} WriteIsSteps(p: Arena, id: nat, rows: map<nat, Row>, lost: set<nat>)
    requires Good(p) && Idle(p) && NewCall(p, id)
    ensures WriteCall(p, id, rows, lost) == Replay(p, GuardSteps(p, BeginWrite(id, rows), id, lost))
    ensures Good(WriteCall(p, id, rows, lost)) && Idle(WriteCall(p, id, rows, lost))
  {
    if CanWrite(p, rows) == true {
      GoodShape(p);
      WriteBegins(p, id, rows);
      if CanGuard(p.slide.core, Image(p.canonical, rows.Keys)) == true {
        GuardedIsSteps(p, BeginWrite(id, rows), id, Image(p.canonical, rows.Keys), BaselineJob(p, rows), lost);
      } else { NothingHappens(p, BeginWrite(id, rows), id, lost); }
    } else {
      NothingHappens(p, BeginWrite(id, rows), id, lost);
    }
  }

  lemma ReadyBegins(p: Arena, id: nat, rows: map<nat, Row>)
    requires Shape(p) == true && NewCall(p, id) && CanWriteReady(p, rows) == true && rows.Keys <= p.canonical.Keys
    ensures var slots, job := Image(p.canonical, rows.Keys), ReadyJob(p, rows);
            && Next(p, BeginReady(id, rows)) == (if CanGuard(p.slide.core, slots) then Begun(p, id, slots, job) else p)
            && Begun(p, id, slots, job) != p && job.plan.Keys <= p.mem.Keys
  {
    PlanInside(p, p.canonical, rows);
    var slots := Image(p.canonical, rows.Keys);
    assert Available(p.slide.core, {}) == {} && slots + {} == slots;
    BeginBegun(p, id, slots, {}, ReadyJob(p, rows));
  }

  lemma ReadyIsSteps(p: Arena, id: nat, rows: map<nat, Row>, lost: set<nat>)
    requires Good(p) && Idle(p) && NewCall(p, id)
    ensures ReadyCall(p, id, rows, lost) == Replay(p, GuardSteps(p, BeginReady(id, rows), id, lost))
    ensures Good(ReadyCall(p, id, rows, lost)) && Idle(ReadyCall(p, id, rows, lost))
  {
    if CanWriteReady(p, rows) == true {
      GoodShape(p);
      ReadyBegins(p, id, rows);
      if CanGuard(p.slide.core, Image(p.canonical, rows.Keys)) == true {
        GuardedIsSteps(p, BeginReady(id, rows), id, Image(p.canonical, rows.Keys), ReadyJob(p, rows), lost);
      } else { NothingHappens(p, BeginReady(id, rows), id, lost); }
    } else {
      NothingHappens(p, BeginReady(id, rows), id, lost);
    }
  }

  lemma UpdateInside(p: Arena, rows: map<nat, Row>)
    requires Shape(p) == true && CanUpdate(p, rows) == true
    ensures rows.Keys <= p.canonical.Keys && rows.Keys <= p.slide.core.slots.Keys
    ensures UpdateJob(p, rows).plan.Keys <= p.mem.Keys
    ensures OwnedByCaller(p.slide.core,
              Image(p.slide.core.slots, rows.Keys) + Image(p.canonical, Mirrors(p, rows.Keys)))
  {
    UpdatePlanInside(p, rows);
    UpdateOwned(p, rows);
  }

  lemma UpdatePlanInside(p: Arena, rows: map<nat, Row>)
    requires Shape(p) == true && rows.Keys <= p.canonical.Keys && rows.Keys <= p.slide.core.slots.Keys
    ensures UpdateJob(p, rows).plan.Keys <= p.mem.Keys
  {
    PlanInside(p, p.slide.core.slots, rows);
    PlanInside(p, p.canonical, Only(rows, OpenMirrors(p, rows.Keys)));
  }

  lemma UpdateOwned(p: Arena, rows: map<nat, Row>)
    requires Shape(p) == true && rows.Keys <= p.canonical.Keys && rows.Keys <= p.slide.core.slots.Keys
    ensures OwnedByCaller(p.slide.core,
              Image(p.slide.core.slots, rows.Keys) + Image(p.canonical, Mirrors(p, rows.Keys)))
  {}

  lemma UpdateIsSteps(p: Arena, id: nat, rows: map<nat, Row>, lost: set<nat>)
    requires Good(p) && Idle(p) && NewCall(p, id)
    ensures UpdateCall(p, id, rows, lost) == Replay(p, GuardSteps(p, BeginUpdate(id, rows), id, lost))
    ensures Good(UpdateCall(p, id, rows, lost)) && Idle(UpdateCall(p, id, rows, lost))
  {
    if CanUpdate(p, rows) == true {
      GoodShape(p);
      UpdateInside(p, rows);
      var slots, mirrors, job := Image(p.slide.core.slots, rows.Keys), Image(p.canonical, Mirrors(p, rows.Keys)),
          UpdateJob(p, rows);
      BeginBegun(p, id, slots, mirrors, job);
      UpdateBegins(p, id, rows);
      if CanGuard(p.slide.core, slots) {
        GuardedIsSteps(p, BeginUpdate(id, rows), id, slots + Available(p.slide.core, mirrors), job, lost);
      } else {
        NothingHappens(p, BeginUpdate(id, rows), id, lost);
      }
    } else {
      NothingHappens(p, BeginUpdate(id, rows), id, lost);
    }
  }

  lemma UpdateBegins(p: Arena, id: nat, rows: map<nat, Row>)
    requires Idle(p) && NewCall(p, id) && CanUpdate(p, rows) == true && rows.Keys <= p.canonical.Keys
    requires rows.Keys <= p.slide.core.slots.Keys
    ensures Next(p, BeginUpdate(id, rows))
            == Begin(p, id, Image(p.slide.core.slots, rows.Keys), Image(p.canonical, Mirrors(p, rows.Keys)),
                  UpdateJob(p, rows))
  {
    assert OpenMirrors(p, rows.Keys) == set t | t in Mirrors(p, rows.Keys)
             && p.canonical[t] in Available(p.slide.core, Image(p.canonical, Mirrors(p, rows.Keys)));
  }

  // ---- reading ---------------------------------------------------------------------------

  lemma GatherIsSteps(p: Arena, id: nat, tokens: set<nat>)
    requires Good(p) && Idle(p) && NewCall(p, id)
    ensures GatherCall(p, id, tokens) == if GatherGranted(p, tokens)
            then Replay(p, [PinRows(id, tokens), UnpinRows(id)]) else p
    ensures Good(GatherCall(p, id, tokens)) && Idle(GatherCall(p, id, tokens))
  {
    if GatherGranted(p, tokens) == true {
      assert id !in p.views by { Part(p, Readers); }
      GatherSteps(p, id, tokens);
      ReplayGood(p, [PinRows(id, tokens), UnpinRows(id)]);
    }
  }

  /** Between calls, an open arena reads every token as last assigned. */
  lemma GatherIsLogical(p: Arena, positions: seq<nat>, rows: seq<Row>)
    requires Good(p) && GatherGranted(p, Elements(positions)) && ReadsThrough(p, positions, rows)
    ensures forall i :: 0 <= i < |positions| ==> positions[i] in p.logical && rows[i] == p.logical[positions[i]]
  {
    forall i | 0 <= i < |positions| ensures positions[i] in p.logical && rows[i] == p.logical[positions[i]] {
      assert ReadsAt(p, positions[i], rows[i]);
      assert p.slide.core.slots[positions[i]] in SlotsOf(p.slide.core, Elements(positions));
      UnwrittenSteady(p, positions[i]);
      SteadyValue(p, positions[i]);
    }
  }

  // ---- promotion ---------------------------------------------------------------------------

  ghost function PromoteSteps(p: Arena, id: nat, order: seq<nat>, rows: map<nat, Row>, future: Option<nat>,
                              callback: nat,
                              lost: set<nat>): seq<Step>
  {
    var e := BeginPromote(id, order, rows, future, callback);
    var q := Next(p, e);
    if id !in q.jobs || id !in q.slide.ops || !q.slide.ops[id].Promotion? then [e]
    else if q.jobs[id].plan.Keys !! lost then [e, Land(id), PublishPromotion(id), ReleasePromotion(id)]
    else [e, Scribble(q.mem + (q.jobs[id].plan - lost)), AbortPromotion(id), ReleasePromotion(id)]
  }

  /** A promotion that has been taken up and is not yet complete. */
  ghost predicate Staging(q: Arena, id: nat) {
    id in q.jobs && !q.jobs[id].landed && id in q.slide.ops && q.slide.ops[id].Promotion?
        && q.slide.ops[id].phase.Writing?
    && q.jobs[id].plan.Keys <= q.mem.Keys
  }

  lemma DoneIsSteps(q: Arena, id: nat)
    requires Staging(q, id) && Publishable(q.slide.core, q.slide.ops[id])
    ensures Next(Next(Next(q, Land(id)), PublishPromotion(id)), ReleasePromotion(id)) == PromotionDone(q, id)
  {
    var q1 := Arrived(q, id);
    assert Next(q, Land(id)) == q1;
    PublishStep(q1, id);
    var s2 := Apply(q.slide, PromotePublish(id));
    var q2 := q1.(slide := s2, logical := q1.logical + q.jobs[id].assign);
    assert s2.ops[id] == q.slide.ops[id].(phase := Published);
    assert Next(q2, ReleasePromotion(id)) == q2.(slide := Apply(s2, PromoteRelease(id)), jobs := q2.jobs - {id});
    SwapOut(q.jobs, id, q.jobs[id].(landed := true));
  }

  lemma SwapOut<T>(m: map<nat, T>, id: nat, x: T)
    ensures m[id := x] - {id} == m - {id}
  {}

  lemma PublishStep(q: Arena, id: nat)
    requires id in q.jobs && q.jobs[id].landed && id in q.slide.ops && q.slide.ops[id].Promotion?
    requires q.slide.ops[id].phase.Writing?
    requires Publishable(q.slide.core, q.slide.ops[id])
    ensures Next(q, PublishPromotion(id))
            == q.(slide := Apply(q.slide, PromotePublish(id)), logical := q.logical + q.jobs[id].assign)
  {
    assert Apply(q.slide, PromotePublish(id)).ops[id] != q.slide.ops[id];
  }

  lemma LostIsSteps(q: Arena, id: nat, lost: set<nat>)
    requires Staging(q, id)
    ensures Next(Next(Next(q, Scribble(q.mem + (q.jobs[id].plan - lost))), AbortPromotion(id)), ReleasePromotion(id))
            == PromotionLost(q, id, lost)
  {
    var now := q.mem + (q.jobs[id].plan - lost);
    forall s | s in q.jobs[id].plan ensures Dirty(q.slide.ops, q.jobs, s) {
      assert DirtyBy(q.slide.ops, q.jobs[id], id, s);
    }
    assert now.Keys == q.mem.Keys;
    var q1 := q.(mem := now);
    assert Next(q, Scribble(now)) == q1;
    AbortStep(q1, id);
  }

  lemma AbortStep(q: Arena, id: nat)
    requires id in q.slide.ops && q.slide.ops[id].Promotion? && q.slide.ops[id].phase.Writing?
    ensures Next(Next(q, AbortPromotion(id)), ReleasePromotion(id))
            == q.(slide := Apply(Apply(q.slide, PromoteAbort(id)), PromoteRelease(id)), broken := true,
                  jobs := q.jobs - {id})
  {
    BrokenMatters(q, id);
    ReleasePromotionIs(GivenUp(q, id), id);
    assert GivenUp(q, id).slide == Apply(q.slide, PromoteAbort(id));
    assert Apply(GivenUp(q, id).slide, PromoteRelease(id)) == Leave(GivenUp(q, id).slide, id);
  }

  lemma TakenIsStaging(p: Arena, id: nat, order: seq<nat>, rows: map<nat, Row>, future: Option<nat>, callback: nat)
    requires Good(p) && NewCall(p, id) && NewCall(p, callback) && id != callback && rows.Keys == set t | t in order
    requires Good(Promoting(p, id, order, rows, future, callback))
    ensures var q := Promoting(p, id, order, rows, future, callback);
            id in q.slide.ops ==> Staging(q, id) && Publishable(q.slide.core, q.slide.ops[id])
    ensures id !in Promoting(p, id, order, rows, future, callback).slide.ops ==>
            id !in Promoting(p, id, order, rows, future, callback).jobs
  {
    var q := Promoting(p, id, order, rows, future, callback);
    assert Safe(p.slide) == true by { Part(p, Map); }
    PromotingTakes(p, id, order, rows, future, callback);
    if id in q.slide.ops { StagingGood(q, id); }
    else { NoStrayJob(q, id); }
  }

  /** A promotion the map has taken up is a job that has yet to be written. */
  ghost predicate Accepted(q: Arena, id: nat) {
    id in q.slide.ops ==>
      && id in q.jobs && !q.jobs[id].landed && !q.slide.core.closed
      && q.slide.ops[id].Promotion? && q.slide.ops[id].phase.Writing?
  }

  lemma PromotingTakes(p: Arena, id: nat, order: seq<nat>, rows: map<nat, Row>, future: Option<nat>, callback: nat)
    requires Safe(p.slide) == true && NewCall(p, id) && NewCall(p, callback) && id != callback
    requires rows.Keys == set t | t in order
    ensures Accepted(Promoting(p, id, order, rows, future, callback), id) == true
  {
    var s := MapAnswers(p, id, order, rows, future, callback);
    TakenShape(p, s, id, order == [], rows, future, callback);
  }

  lemma MapAnswers(p: Arena, id: nat, order: seq<nat>, rows: map<nat, Row>, future: Option<nat>, callback: nat)
    returns (s: System)
    requires Safe(p.slide) == true && NewCall(p, id) && NewCall(p, callback) && id != callback
    ensures Promoting(p, id, order, rows, future, callback) == Promoted(p, s, id, order == [], rows, future, callback)
    ensures id in s.ops ==> s.ops[id].Promotion? && s.ops[id].phase.Writing?
    ensures id in s.ops ==> s.ops[id].dest.Keys == (set t | t in order) && !s.core.closed
  {
    s := Apply(p.slide, PromoteBegin(id, order, LoadStatus(p, future), callback, false));
    MapTakesUp(p.slide, id, order, LoadStatus(p, future), callback);
  }

  lemma MapTakesUp(s: System, id: nat, order: seq<nat>, load: LoadState, callback: nat)
    requires Safe(s) == true && id !in s.ops && id != callback && callback !in s.ops
    ensures var s' := Apply(s, PromoteBegin(id, order, load, callback, false));
            id in s'.ops ==>
                  s'.ops[id].Promotion? && s'.ops[id].phase.Writing?
                  && s'.ops[id].dest.Keys == (set t | t in order)
                               && !s'.core.closed
  {
    var s1 := PromoteEffect(s, id, order, load, callback);
    if id in Apply(s, PromoteBegin(id, order, load, callback, false)).ops {
      assert Staged(s.core.slots, s1.ops[id], set t | t in order);
    }
  }

  lemma NoStrayJob(q: Arena, id: nat)
    requires Good(q) && id !in q.slide.ops
    ensures id !in q.jobs
  {
    Part(q, Mutex);
  }

  lemma TakenShape(p: Arena, s: System, id: nat, nothing: bool, rows: map<nat, Row>, future: Option<nat>, callback: nat)
    requires id !in p.slide.ops
    requires id in s.ops ==> s.ops[id].Promotion? && s.ops[id].phase.Writing? && s.ops[id].dest.Keys == rows.Keys
    requires id in s.ops ==> !s.core.closed
    ensures var q := Promoted(p, s, id, nothing, rows, future, callback);
            (id in q.slide.ops ==> id in q.jobs && !q.jobs[id].landed && q.slide == s) && Accepted(q, id)
  {}

  lemma StagingGood(q: Arena, id: nat)
    requires Good(q) && id in q.jobs && !q.jobs[id].landed && id in q.slide.ops && q.slide.ops[id].Promotion?
    requires q.slide.ops[id].phase.Writing? && !q.slide.core.closed
    ensures Staging(q, id) && Publishable(q.slide.core, q.slide.ops[id])
  {
    LandTouched(q, id);
    assert q.jobs[id].plan.Keys <= (q.mem + q.jobs[id].plan).Keys;
    MapInv(q);
    SourceUnmoved(q.slide, id);
  }

  /** `promote_selected` with its completion is a run of the machine. */
  lemma PromoteIsSteps(p: Arena, id: nat, order: seq<nat>, rows: map<nat, Row>, future: Option<nat>, callback: nat,
                       lost: set<nat>)
    requires Good(p) && Idle(p) && NewCall(p, id) && NewCall(p, callback) && id != callback && Distinct(order)
    requires rows.Keys == set t | t in order
    ensures PromoteCall(p, id, order, rows, future, callback, lost)
            == if CanPromote(p, order, future) then Replay(p, PromoteSteps(p, id, order, rows, future, callback, lost))
                else p
    ensures Good(PromoteCall(p, id, order, rows, future, callback, lost))
  {
    if CanPromote(p, order, future) == true {
      var e := BeginPromote(id, order, rows, future, callback);
      var q := Promoting(p, id, order, rows, future, callback);
      PromoteEnabled(p, id, order, rows, future, callback);
      StepGood(p, e);
      TakenIsStaging(p, id, order, rows, future, callback);
      ReplayGood(p, PromoteSteps(p, id, order, rows, future, callback, lost));
      if id !in q.slide.ops {
        Replay1(p, e);
      } else if q.jobs[id].plan.Keys !! lost {
        Replay4(p, e, Land(id), PublishPromotion(id), ReleasePromotion(id));
        DoneIsSteps(q, id);
      } else {
        Replay4(p, e, Scribble(q.mem + (q.jobs[id].plan - lost)), AbortPromotion(id), ReleasePromotion(id));
        LostIsSteps(q, id, lost);
      }
    }
  }

  lemma PromoteEnabled(p: Arena, id: nat, order: seq<nat>, rows: map<nat, Row>, future: Option<nat>, callback: nat)
    requires Idle(p) && NewCall(p, id) && NewCall(p, callback) && id != callback && Distinct(order)
    requires rows.Keys == (set t | t in order) && CanPromote(p, order, future) == true
    ensures Next(p, BeginPromote(id, order, rows, future, callback)) == Promoting(p, id, order, rows, future, callback)
  {
    assert Enabled(p, BeginPromote(id, order, rows, future, callback));
  }

  // ---- decode ------------------------------------------------------------------------------------

  ghost function DecodeSteps(p: Arena, id: nat, token: nat, row: Row, lost: set<nat>): seq<Step> {
    var e := BeginDecode(id, token, row);
    var q := Next(p, e);
    if id !in q.jobs then [e]
    else if q.jobs[id].plan.Keys !! lost then [e, Land(id), Step.PublishDecode(id), ReleaseDecode(id)]
    else [e, Scribble(q.mem + (q.jobs[id].plan - lost)), AbortDecode(id), ReleaseDecode(id)]
  }

  /** A decode that has been taken up and is not yet complete. */
  ghost predicate Appends(q: Arena, id: nat) {
    id in q.jobs && !q.jobs[id].landed && id in q.slide.ops && q.slide.ops[id].Decode? && q.slide.ops[id].step.Writing?
    && q.jobs[id].plan.Keys <= q.mem.Keys && !q.slide.core.closed && q.slide.ops[id].gen == q.slide.core.generation
    && q.slide.ops[id].token !in q.slide.core.slots
  }

  lemma DecodedIsSteps(q: Arena, id: nat)
    requires Appends(q, id)
    ensures Next(Next(Next(q, Land(id)), Step.PublishDecode(id)), ReleaseDecode(id)) == DecodeDone(q, id)
  {
    var q1 := Arrived(q, id);
    assert Next(q, Land(id)) == q1;
    PublishTokenStep(q1, id);
    var s2 := Apply(q.slide, Event.DecodePublish(id));
    var q2 := q1.(slide := s2, logical := q1.logical + q.jobs[id].assign);
    assert s2.ops[id] == q.slide.ops[id].(step := Published);
    ReleaseTokenStep(q2, id);
    SwapOut(q.jobs, id, q.jobs[id].(landed := true));
  }

  lemma PublishTokenStep(q: Arena, id: nat)
    requires id in q.jobs && q.jobs[id].landed && id in q.slide.ops && q.slide.ops[id].Decode?
    requires q.slide.ops[id].step.Writing?
    requires !q.slide.core.closed && q.slide.ops[id].gen == q.slide.core.generation
    ensures Next(q, Step.PublishDecode(id))
            == q.(slide := Apply(q.slide, Event.DecodePublish(id)), logical := q.logical + q.jobs[id].assign)
  {
    assert Apply(q.slide, Event.DecodePublish(id)).ops[id] != q.slide.ops[id];
  }

  lemma ReleaseTokenStep(q: Arena, id: nat)
    requires id in q.slide.ops && q.slide.ops[id].Decode? && q.slide.ops[id].step.Published?
    ensures Next(q, ReleaseDecode(id))
            == q.(slide := Apply(q.slide, DecodeRelease(id)), busy := None, jobs := q.jobs - {id},
                  canonical := q.canonical[q.slide.ops[id].token := q.slide.ops[id].native], decoded := true,
                  holeReuses := q.holeReuses + (if q.slide.ops[id].chosen != q.slide.ops[id].native then 1 else 0),
                  nativeBinds := q.nativeBinds + (if q.slide.ops[id].chosen == q.slide.ops[id].native then 1 else 0))
  {}

  lemma UndecodedIsSteps(q: Arena, id: nat, lost: set<nat>)
    requires Appends(q, id)
    ensures Next(Next(Next(q, Scribble(q.mem + (q.jobs[id].plan - lost))), AbortDecode(id)), ReleaseDecode(id))
            == DecodeLost(q, id, lost)
  {
    var now := q.mem + (q.jobs[id].plan - lost);
    forall s | s in q.jobs[id].plan ensures Dirty(q.slide.ops, q.jobs, s) {
      assert DirtyBy(q.slide.ops, q.jobs[id], id, s);
    }
    assert now.Keys == q.mem.Keys;
    var q1 := q.(mem := now);
    assert Next(q, Scribble(now)) == q1;
    GiveUpStep(q1, id);
  }

  lemma GiveUpStep(q: Arena, id: nat)
    requires id in q.slide.ops && q.slide.ops[id].Decode? && q.slide.ops[id].step.Writing?
    ensures Next(Next(q, AbortDecode(id)), ReleaseDecode(id))
            == q.(slide := Apply(Apply(q.slide, DecodeAbort(id)), DecodeRelease(id)), busy := None,
                  jobs := q.jobs - {id})
  {
    var s1 := Apply(q.slide, DecodeAbort(id));
    assert s1.ops[id] == q.slide.ops[id].(step := Failed);
    assert Next(q, AbortDecode(id)) == q.(slide := s1);
  }

  /** `decode` is a run of the machine. */
  lemma DecodeIsSteps(p: Arena, id: nat, token: nat, row: Row, lost: set<nat>)
    requires Good(p) && Idle(p) && NewCall(p, id)
    ensures DecodeCall(p, id, token, row, lost) == Replay(p, DecodeSteps(p, id, token, row, lost))
    ensures Good(DecodeCall(p, id, token, row, lost)) && Idle(DecodeCall(p, id, token, row, lost))
  {
    ReplayGood(p, DecodeSteps(p, id, token, row, lost));
    DecodeReplays(p, id, token, row, lost);
    DecodeEndIdle(p, id, token, row, lost);
  }

  lemma DecodeEndIdle(p: Arena, id: nat, token: nat, row: Row, lost: set<nat>)
    requires Idle(p)
    ensures Idle(DecodeCall(p, id, token, row, lost))
  {}

  lemma DecodeReplays(p: Arena, id: nat, token: nat, row: Row, lost: set<nat>)
    requires Good(p) && Idle(p) && NewCall(p, id)
    ensures DecodeCall(p, id, token, row, lost) == Replay(p, DecodeSteps(p, id, token, row, lost))
  {
    var e := BeginDecode(id, token, row);
    assert id !in p.jobs by { NoStrayJob(p, id); }
    DecodeBegins(p, id, token, row);
    if CanDecode(p, token) == true
        && Destination(p.slide.core, token, CanonicalSlot(p.table, p.geo.blockSize, token).value, true).Ok? {
      var native := CanonicalSlot(p.table, p.geo.blockSize, token).value;
      StepGood(p, e);
      TakenDecode(p, id, token, Destination(p.slide.core, token, native, true).value, native, row, lost);
    } else {
      Replay1(p, e);
    }
  }

  lemma DecodeBegins(p: Arena, id: nat, token: nat, row: Row)
    requires Idle(p) && NewCall(p, id)
    ensures Next(p, BeginDecode(id, token, row))
            == if !CanDecode(p, token) then p
               else
                 var native := CanonicalSlot(p.table, p.geo.blockSize, token).value;
                 match Destination(p.slide.core, token, native, true)
                 case Err(_) => p
                 case Ok(slot) => Opened(p, id, token, slot, native, row)
  {
    if CanDecode(p, token) == true {
      AppendingOpens(p, id, token, CanonicalSlot(p.table, p.geo.blockSize, token).value, row);
      assert Next(p, BeginDecode(id, token, row)) == Appending(p, id, token, row);
    }
  }

  lemma TakenDecode(p: Arena, id: nat, token: nat, slot: nat, native: nat, row: Row, lost: set<nat>)
    requires Destination(p.slide.core, token, native, true) == Ok(slot)
    requires Good(Opened(p, id, token, slot, native, row))
    requires Next(p, BeginDecode(id, token, row)) == Opened(p, id, token, slot, native, row)
    ensures var q := Opened(p, id, token, slot, native, row);
            Replay(p, DecodeSteps(p, id, token, row, lost))
            == DecodeEnd(q, id, lost)
  {
    var e, q := BeginDecode(id, token, row), Opened(p, id, token, slot, native, row);
    DestinationFree(p.slide.core, token, native, true);
    LandTouched(q, id);
    assert q.jobs[id].plan.Keys <= (q.mem + q.jobs[id].plan).Keys;
    assert Appends(q, id);
    if q.jobs[id].plan.Keys !! lost {
      Replay4(p, e, Land(id), Step.PublishDecode(id), ReleaseDecode(id));
      DecodedIsSteps(q, id);
    } else {
      Replay4(p, e, Scribble(q.mem + (q.jobs[id].plan - lost)), AbortDecode(id), ReleaseDecode(id));
      UndecodedIsSteps(q, id, lost);
    }
  }
}
