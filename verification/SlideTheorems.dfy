/** The promises of the slot map, for every run of its mutex blocks. */
module SlideTheorems {
  import opened Basics
  import opened Slide
  import opened SlideSafety

  /** The states a map created by its constructor can reach. */
  ghost predicate Reachable(s: System) {
    exists slots, shared, floor, maxSlots, es ::
      Create(slots, shared, floor, maxSlots).Some? && s == Run(Create(slots, shared, floor, maxSlots).value, es)
  }

  lemma ReachableInv(s: System)
    requires Reachable(s)
    ensures Inv(s)
  {
    var slots, shared, floor, maxSlots, es :|
      Create(slots, shared, floor, maxSlots).Some? && s == Run(Create(slots, shared, floor, maxSlots).value, es);
    CreateEstablishes(slots, shared, floor, maxSlots);
    RunKeeps(Create(slots, shared, floor, maxSlots).value, es);
  }

  /** The invariant holds now and after every further interleaving. */
  ghost predicate Safe(s: System) {
    forall es: seq<Event> :: Inv(Run(s, es))
  }

  lemma SafeOpens(s: System)
    requires Safe(s)
    ensures Inv(s)
  {
    assert Inv(Run(s, []));
  }

  lemma SafeCloses(s: System)
    requires Inv(s)
    ensures Safe(s)
  {
    forall es: seq<Event> ensures Inv(Run(s, es)) {
      RunKeeps(s, es);
    }
  }

  /** Every guard counter equals the number of outstanding calls that hold the
      slot, so none is ever negative; and a slot a reader has pinned is not
      reserved for writing. */
  lemma GuardsAreExact(s: System, x: nat)
    requires Reachable(s)
    ensures forall u: Use :: At(Tally(s.core, u), x) == |Holders(s.ops, u, x)| >= 0
    ensures At(s.core.pins, x) > 0 ==> At(s.core.writes, x) == 0
    ensures At(s.core.writes, x) <= At(s.core.inflight, x)
  {
    ReachableInv(s);
    assert At(Tally(s.core, Read), x) == |Holders(s.ops, Read, x)|;
    assert At(Tally(s.core, Write), x) == |Holders(s.ops, Write, x)|;
    assert At(Tally(s.core, Hold), x) == |Holders(s.ops, Hold, x)|;
    if At(s.core.pins, x) > 0 {
      var i :| i in Holders(s.ops, Read, x);
      forall j ensures j !in Holders(s.ops, Write, x) {
        assert i in s.ops && (j in s.ops ==> Uses(s.ops[i], Read) !! Uses(s.ops[j], Write));
      }
      assert Holders(s.ops, Write, x) == {};
    }
    forall j | j in Holders(s.ops, Write, x) ensures j in Holders(s.ops, Hold, x) {
      assert Uses(s.ops[j], Write) <= Uses(s.ops[j], Hold);
    }
    SubsetSize(Holders(s.ops, Write, x), Holders(s.ops, Hold, x));
  }

  lemma SubsetSize<T>(a: set<T>, b: set<T>)
    requires a <= b
    ensures |a| <= |b|
  {
    assert b == a + (b - a);
  }

  /** Two calls whose device writes may be running never target one slot, and
      no write ever targets a slot shared with another request. */
  lemma WritersNeverMeet(s: System, i: nat, j: nat)
    requires Reachable(s) && i in s.ops && j in s.ops
    ensures i != j && Active(s.ops[i]) && Active(s.ops[j]) ==> Uses(s.ops[i], Write) !! Uses(s.ops[j], Write)
    ensures Uses(s.ops[i], Write) !! s.core.shared
  {
    ReachableInv(s);
    SoundOp(s, i);
  }

  ghost function Bit(b: bool): nat {
    if b then 1 else 0
  }

  /** Every slot the map ever issued is in exactly one of: mapped, vacated,
      unused, destination of a promotion still writing; all inside the arena. */
  lemma IssuedSlotsAreAccountedFor(s: System, x: nat)
    requires Reachable(s) && s.base <= x < s.core.next
    ensures Bit(x in s.core.slots.Values) + Bit(x in s.core.vacated) + Bit(x in s.core.unused)
            + |set id | id in s.ops && x in Claim(s.ops[id])| == 1
    ensures s.core.floor <= x && (s.core.maxSlots.Some? ==> x < s.core.maxSlots.value)
  {
    ReachableInv(s);
    OneClaimant(s.core, s.base, s.ops, x);
    assert Placed(s.core, s.base) && Covered(s.core, s.base, s.ops);
  }

  /** A hole, native or not, carries no token, is not up for reuse and is no
      promotion's destination. */
  lemma VacatedIsUnmapped(s: System, x: nat)
    requires Reachable(s) && x in s.core.vacated
    ensures x !in s.core.slots.Values && x !in s.core.unused
    ensures forall id :: id in s.ops ==> x !in Claim(s.ops[id])
  {
    ReachableInv(s);
    assert Placed(s.core, s.base) && Separate(s.core, s.base, s.ops);
  }

  lemma ClaimsApart(c: Core, base: nat, ops: map<nat, Op>, i: nat, j: nat)
    requires Separate(c, base, ops) && i in ops && j in ops
    ensures i != j ==> Claim(ops[i]) !! Claim(ops[j])
  {}

  lemma OneClaimant(c: Core, base: nat, ops: map<nat, Op>, x: nat)
    requires Separate(c, base, ops)
    ensures |set id | id in ops && x in Claim(ops[id])| == Bit(Claimed(ops, x))
    ensures Claimed(ops, x) ==> x !in c.slots.Values && x !in c.vacated && x !in c.unused
  {
    var claimants := set id | id in ops && x in Claim(ops[id]);
    if Claimed(ops, x) {
      var i :| i in ops && x in Claim(ops[i]);
      forall j | j in claimants ensures j == i {
        ClaimsApart(c, base, ops, i, j);
      }
      assert claimants == {i};
    } else {
      assert claimants == {};
    }
  }

  /** A slot some load still reads is never handed to a decode. */
  lemma LoadingSourceNotReused(s: System, id: nat, token: nat, native: nat, reuse: bool)
    requires Reachable(s) && id in s.ops && s.ops[id].Loading?
    ensures var d := Destination(s.core, token, native, reuse);
            d.Ok? ==> d.value !in s.ops[id].sources && native !in s.ops[id].sources
    ensures forall bound :: Holes(s.core, bound) !! s.ops[id].sources
  {
    ReachableInv(s);
    forall x | At(s.core.inflight, x) == 0 ensures x !in s.ops[id].sources {
      IdleSlot(s, x);
      assert x !in Uses(s.ops[id], Hold);
    }
    if Destination(s.core, token, native, reuse).Ok? {
      DestinationFree(s.core, token, native, reuse);
    }
  }

  // ---- injectivity ----------------------------------------------------------

  lemma BindInjective(slots: map<nat, nat>, token: nat, slot: nat)
    requires Injective(slots) && slot !in slots.Values
    ensures Injective(slots[token := slot])
  {
    forall t | t in slots ensures slots[t] != slot {
      assert slots[t] in slots.Values;
    }
  }

  lemma PublishInjective(s: System, id: nat)
    requires Inv(s) && Injective(s.core.slots) && id in s.ops && s.ops[id].Promotion? && s.ops[id].phase.Writing?
    ensures Injective(Publish(s.core, s.ops[id]).slots)
  {
    var c, op := s.core, s.ops[id];
    assert Sound(c, s.base, op) && op.taken == Claim(op);
    var slots := Publish(c, op).slots;
    forall t, u | t in slots && u in slots && t != u && t in op.dest && u !in op.dest ensures slots[t] != slots[u] {
      assert c.slots[u] in c.slots.Values;
      if op.dest[t] in op.taken { assert op.dest[t] !in c.slots.Values; }
    }
  }

  lemma AllocateInjective(s: System, token: nat)
    requires Inv(s) && Injective(s.core.slots) && Fits(s, AllocateDecode(token))
    requires Apply(s, AllocateDecode(token)).core.slots != s.core.slots
    ensures Injective(Apply(s, AllocateDecode(token)).core.slots)
  {
    var c := s.core;
    if Holes(c, None) != {} {
      assert Least(Holes(c, None)) in c.vacated;
      BindInjective(c.slots, token, Least(Holes(c, None)));
    } else {
      var p := Fresh(c).value;
      assert p.0 in c.unused || p.0 == c.next;
      BindInjective(c.slots, token, p.0);
    }
  }

  lemma EventKeepsInjective(s: System, e: Event)
    requires Inv(s) && Injective(s.core.slots)
    ensures Injective(Apply(s, e).core.slots)
  {
    var c := s.core;
    if Fits(s, e) && Apply(s, e).core.slots != c.slots {
      match e
      case PromotePublish(id) => PublishInjective(s, id);
      case AllocateDecode(token) => AllocateInjective(s, token);
      case BindDecode(token, native, reuse) =>
        DestinationFree(c, token, native, reuse);
        BindInjective(c.slots, token, Destination(c, token, native, reuse).value);
      case DecodePublish(id) =>
        assert Sound(c, s.base, s.ops[id]);
        BindInjective(c.slots, s.ops[id].token, s.ops[id].chosen);
      case PromoteBegin(_, _, _, _, _) => PromoteBeginFrame(s, e);
      case _ =>
    }
  }

  lemma PromoteBeginFrame(s: System, e: Event)
    requires Inv(s) && e.PromoteBegin?
    ensures Apply(s, e).core.slots == s.core.slots && Apply(s, e).core.closed == s.core.closed
  {
    if Fits(s, e) && e.order != [] && MayPromote(s.core, e.order, e.load) {
      var ip := AssignFromStart(s.core, s.base, e.order, e.load.LoadPending?, e.inplace);
    }
  }

  /** From an injective initial mapping no two tokens ever share a slot. */
  lemma {:induction false} RunKeepsInjective(s: System, es: seq<Event>)
    requires Inv(s) && Injective(s.core.slots)
    ensures Injective(Run(s, es).core.slots)
    decreases |es|
  {
    if es == [] {
    } else {
      EventKeeps(s, es[0]);
      EventKeepsInjective(s, es[0]);
      RunKeepsInjective(Apply(s, es[0]), es[1..]);
    }
  }

  // ---- publication ------------------------------------------------------------

  /** A promotion that finishes writing publishes all of its tokens exactly when
      the map has not been retired, and nothing otherwise. The test for a source
      mapping that moved never decides. */
  lemma PublishesAllOrNothing(s: System, id: nat)
    requires Reachable(s) && id in s.ops && s.ops[id].Promotion? && s.ops[id].phase.Writing?
    ensures forall t :: t in s.ops[id].source ==> t in s.core.slots && s.core.slots[t] == s.ops[id].source[t]
    ensures var s' := Apply(s, PromotePublish(id));
            if s.core.closed then s' == s
            else s'.core.slots == s.core.slots + s.ops[id].dest && s'.ops[id] == s.ops[id].(phase := Published)
                 && s.ops[id].dest.Keys == s.ops[id].source.Keys
                 && (forall x :: x in s'.core.vacated <==>
                       x in s.core.vacated
                       || (x in s.ops[id].source.Values && x !in s.core.shared && x !in s'.core.slots.Values))
  {
    ReachableInv(s);
    SourceUnmoved(s, id);
    SourceMatchesDest(s, id);
    PublishEffect(s, id);
  }

  lemma PublishEffect(s: System, id: nat)
    requires id in s.ops && s.ops[id].Promotion? && s.ops[id].phase.Writing?
    ensures var s' := Apply(s, PromotePublish(id));
            if !Publishable(s.core, s.ops[id]) then s' == s
            else s'.core.slots == s.core.slots + s.ops[id].dest && s'.ops[id] == s.ops[id].(phase := Published)
                 && (forall x :: x in s'.core.vacated <==>
                       x in s.core.vacated
                       || (x in s.ops[id].source.Values && x !in s.core.shared && x !in s'.core.slots.Values))
  {}

  lemma SourceMatchesDest(s: System, id: nat)
    requires AllSound(s) && id in s.ops && s.ops[id].Promotion?
    ensures s.ops[id].dest.Keys == s.ops[id].source.Keys
  {
    SoundOp(s, id);
  }

  // ---- retirement ---------------------------------------------------------------

  /** Exits still to be taken by outstanding calls. */
  ghost function Remaining(s: System): nat {
    |s.ops.Keys| + |Undecided(s.ops)|
  }

  function Undecided(ops: map<nat, Op>): set<nat> {
    set id | id in ops && Unfinished(ops[id])
  }

  predicate Unfinished(op: Op) {
    (op.Promotion? && op.phase.Writing?) || (op.Decode? && op.step.Writing?)
  }

  function Stopped(op: Op): Op {
    match op
    case Promotion(_, _, _, _, _) => op.(phase := Failed)
    case Decode(_, _, _, _, _) => op.(step := Failed)
    case _ => op
  }

  predicate Aborts(s: System, e: Event) {
    (e.PromoteAbort? || e.DecodeAbort?) && Fits(s, e)
  }

  predicate Exits(s: System, e: Event) {
    (e.Unpin? || e.GuardExit? || e.PromoteRelease? || e.LoadFinished? || e.DecodeRelease?) && Fits(s, e)
  }

  lemma RetiredEffect(s: System, e: Event)
    requires s.core.closed
    ensures var s' := Apply(s, e);
            s'.core.closed && s'.core.slots == s.core.slots
            && s'.ops == if Aborts(s, e) then s.ops[e.id := Stopped(s.ops[e.id])]
                  else if Exits(s, e) then s.ops - {e.id} else s.ops
  {}

  /** Nothing starts, publishes or moves once the map is retired; each block
      that still has an effect is an exit. */
  lemma RetiredStep(s: System, e: Event)
    requires s.core.closed
    ensures var s' := Apply(s, e);
            s'.core.closed && s'.core.slots == s.core.slots && s'.ops.Keys <= s.ops.Keys
            && (s'.ops != s.ops ==> Remaining(s') < Remaining(s)) && Remaining(s') <= Remaining(s)
            && (forall id :: id in s'.ops && HasPublished(s'.ops[id]) ==> HasPublished(s.ops[id]))
  {
    RetiredEffect(s, e);
    RetiredShrinks(s, Apply(s, e), e);
  }

  lemma RetiredShrinks(s: System, s': System, e: Event)
    requires s'.ops == if Aborts(s, e) then s.ops[e.id := Stopped(s.ops[e.id])]
                       else if Exits(s, e) then s.ops - {e.id} else s.ops
    ensures s'.ops.Keys <= s.ops.Keys && Remaining(s') <= Remaining(s)
    ensures s'.ops != s.ops ==> Remaining(s') < Remaining(s)
    ensures forall id :: id in s'.ops && HasPublished(s'.ops[id]) ==> HasPublished(s.ops[id])
  {
    if Aborts(s, e) { AbortShrinks(s, s', e.id); }
    else if Exits(s, e) { ExitShrinks(s, s', e.id); }
  }

  lemma AbortShrinks(s: System, s': System, id: nat)
    requires id in s.ops && Unfinished(s.ops[id]) && s'.ops == s.ops[id := Stopped(s.ops[id])]
    ensures s'.ops.Keys == s.ops.Keys && Remaining(s') < Remaining(s)
    ensures forall j :: j in s'.ops && HasPublished(s'.ops[j]) ==> HasPublished(s.ops[j])
  {
    FinishShrinks(s, s', id);
  }

  lemma ExitShrinks(s: System, s': System, id: nat)
    requires id in s.ops && s'.ops == s.ops - {id}
    ensures s'.ops.Keys <= s.ops.Keys && Remaining(s') < Remaining(s)
    ensures forall j :: j in s'.ops && HasPublished(s'.ops[j]) ==> HasPublished(s.ops[j])
  {
    LeaveShrinks(s, s', id);
  }

  predicate HasPublished(op: Op) {
    (op.Promotion? && op.phase.Published?) || (op.Decode? && op.step.Published?)
  }

  lemma FinishShrinks(s: System, s': System, id: nat)
    requires id in s.ops && Unfinished(s.ops[id]) && id in s'.ops && !Unfinished(s'.ops[id])
    requires s'.ops.Keys == s.ops.Keys && forall j :: j in s.ops && j != id ==> s'.ops[j] == s.ops[j]
    ensures Remaining(s') < Remaining(s)
  {
    assert Undecided(s'.ops) == Undecided(s.ops) - {id};
  }

  lemma LeaveShrinks(s: System, s': System, id: nat)
    requires id in s.ops && s'.ops == s.ops - {id}
    ensures Remaining(s') < Remaining(s)
  {
    assert s'.ops.Keys == s.ops.Keys - {id} && |s'.ops.Keys| == |s.ops.Keys| - 1;
    SubsetSize(Undecided(s'.ops), Undecided(s.ops));
  }

  /** Once retired, the mapping never changes again and no later completion publishes. */
  lemma {:induction false} RetiredForever(s: System, es: seq<Event>)
    requires s.core.closed
    ensures var s' := Run(s, es);
            s'.core.closed && s'.core.slots == s.core.slots && s'.ops.Keys <= s.ops.Keys
            && (forall id :: id in s'.ops && HasPublished(s'.ops[id]) ==> HasPublished(s.ops[id]))
    decreases |es|
  {
    if es == [] {
    } else {
      RetiredStep(s, es[0]);
      RetiredForever(Apply(s, es[0]), es[1..]);
    }
  }

  /** The next exit of an outstanding call. */
  function NextExit(op: Op, id: nat): Event {
    match op
    case Pin(_) => Unpin(id)
    case Guard(_, _) => GuardExit(id)
    case Loading(_) => LoadFinished(id)
    case Promotion(_, _, _, _, phase) => if phase.Writing? then PromoteAbort(id) else PromoteRelease(id)
    case Decode(_, _, _, _, step) => if step.Writing? then DecodeAbort(id) else DecodeRelease(id)
  }

  /** Every outstanding call of a retired map can take its exit, which brings
      the map closer to empty, until all reservations are back at zero. */
  lemma {:induction false} RetiredDrains(s: System) returns (es: seq<Event>)
    requires Inv(s) && s.core.closed
    ensures forall id :: id in s.ops ==> Remaining(Apply(s, NextExit(s.ops[id], id))) < Remaining(s)
    ensures Run(s, es).ops == map[] && Run(s, es).core.pending == {}
    ensures forall x :: At(Run(s, es).core.pins, x) == 0 && At(Run(s, es).core.writes, x) == 0
                        && At(Run(s, es).core.inflight, x) == 0
    decreases Remaining(s)
  {
    forall id | id in s.ops ensures Remaining(Apply(s, NextExit(s.ops[id], id))) < Remaining(s) {
      ExitHelps(s, id);
    }
    if s.ops == map[] {
      es := [];
      EmptyMeansIdle(s);
    } else {
      var id :| id in s.ops;
      var e := NextExit(s.ops[id], id);
      RetiredStep(s, e);
      EventKeeps(s, e);
      var rest := RetiredDrains(Apply(s, e));
      es := [e] + rest;
      RunCons(s, e, rest);
    }
  }

  lemma RunCons(s: System, e: Event, rest: seq<Event>)
    ensures Run(s, [e] + rest) == Run(Apply(s, e), rest)
  {
    var es := [e] + rest;
    assert es[0] == e && es[1..] == rest;
  }

  lemma ExitHelps(s: System, id: nat)
    requires s.core.closed && id in s.ops
    ensures Remaining(Apply(s, NextExit(s.ops[id], id))) < Remaining(s)
  {
    RetiredStep(s, NextExit(s.ops[id], id));
    var op := s.ops[id];
    match op
    case Promotion(_, _, _, _, phase) =>
      if phase.Writing? { assert Apply(s, PromoteAbort(id)).ops[id] != op; }
    case Decode(_, _, _, _, step) =>
      if step.Writing? { assert Apply(s, DecodeAbort(id)).ops[id] != op; }
    case _ =>
  }

  lemma EmptyMeansIdle(s: System)
    requires Inv(s) && s.ops == map[]
    ensures s.core.pending == {}
    ensures forall x :: At(s.core.pins, x) == 0 && At(s.core.writes, x) == 0 && At(s.core.inflight, x) == 0
  {
    forall x ensures At(s.core.pins, x) == 0 && At(s.core.writes, x) == 0 && At(s.core.inflight, x) == 0 {
      forall u: Use ensures At(Tally(s.core, u), x) == 0 {
        assert Holders(s.ops, u, x) == {};
      }
      assert At(Tally(s.core, Read), x) == 0 && At(Tally(s.core, Write), x) == 0 && At(Tally(s.core, Hold), x) == 0;
    }
    assert forall t :: t !in s.core.pending;
  }
}
