/** What each call of the slot map answers, in terms of the calls that are outstanding. */
module SlotOutcomes {
  import opened Basics
  import opened Slide
  import opened SlideSafety
  import opened SlideTheorems

  // ---- a new map -----------------------------------------------------------------------------

  /** A map is made exactly if every shared slot carries a token and every slot that does lies
      below the limit, which is no lower than the floor. */
  lemma CreatedExactly(slots: map<nat, nat>, shared: set<nat>, floor: nat, maxSlots: Option<nat>)
    ensures Create(slots, shared, floor, maxSlots).Some?
            <==> (forall x :: x in shared ==> exists t :: t in slots && slots[t] == x)
                 && (maxSlots.Some? ==>
                       floor <= maxSlots.value && forall t :: t in slots ==> slots[t] < maxSlots.value)
  {
    assert shared <= slots.Values <==> forall x :: x in shared ==> exists t :: t in slots && slots[t] == x;
    forall t | t in slots ensures slots[t] in slots.Values {}
  }

  /** Nothing is then pinned, written, vacated or unused, and the next fresh slot is the floor or
      the slot after the largest one that carries a token, whichever is larger. */
  lemma CreatedFresh(slots: map<nat, nat>, shared: set<nat>, floor: nat, maxSlots: Option<nat>)
    requires Create(slots, shared, floor, maxSlots).Some?
    ensures var s := Create(slots, shared, floor, maxSlots).value;
            && s.core.slots == slots && s.core.shared == shared && !s.core.closed && s.ops == map[]
            && s.core.pins == map[] && s.core.inflight == map[] && s.core.writes == map[] && s.core.pending == {}
            && s.core.vacated == {} && s.core.unused == {}
            && floor <= s.core.next && (forall t :: t in slots ==> slots[t] < s.core.next)
            && (s.core.next == floor || exists t :: t in slots && s.core.next == slots[t] + 1)
  {
    var next := FirstFree(slots, floor);
    forall t | t in slots ensures slots[t] < next { assert slots[t] in slots.Values; }
    if next != floor { var t :| t in slots && slots[t] == next - 1; }
  }

  // ---- outstanding calls -----------------------------------------------------------------

  /** The call reads, loads from or writes to the slot. */
  ghost predicate HasSlot(op: Op, x: nat) {
    match op
    case Pin(pinned) => x in pinned
    case Guard(guarded, _) => x in guarded
    case Loading(sources) => x in sources
    case Promotion(source, dest, _, _, _) => x in source.Values || x in dest.Values
    case Decode(_, chosen, native, _, _) => x == chosen || x == native
  }

  ghost predicate InUse(ops: map<nat, Op>, x: nat) {
    exists id :: id in ops && HasSlot(ops[id], x)
  }

  /** The call may be writing the slot. */
  ghost predicate MayWrite(op: Op, x: nat) {
    match op
    case Guard(guarded, _) => x in guarded
    case Promotion(_, dest, _, _, _) => x in dest.Values
    case Decode(_, chosen, native, _, _) => x == chosen || x == native
    case _ => false
  }

  /** A promotion or decode of the token is outstanding. */
  ghost predicate OnTheMove(ops: map<nat, Op>, t: nat) {
    exists id :: id in ops && MovesToken(ops[id], t)
  }

  ghost predicate MovesToken(op: Op, t: nat) {
    (op.Promotion? && t in op.source) || (op.Decode? && t == op.token)
  }

  lemma Unheld(s: System, u: Use, x: nat)
    requires Counted(s)
    ensures At(Tally(s.core, u), x) == 0 <==> forall id :: id in s.ops ==> x !in Uses(s.ops[id], u)
  {
    assert At(Tally(s.core, u), x) == |Holders(s.ops, u, x)|;
    if forall id :: id in s.ops ==> x !in Uses(s.ops[id], u) { assert Holders(s.ops, u, x) == {}; }
    if At(Tally(s.core, u), x) == 0 {
      forall id | id in s.ops ensures x !in Uses(s.ops[id], u) { ZeroMeansUnused(s, u, x, id); }
    }
  }

  lemma InUseCounts(s: System, x: nat)
    requires Counted(s)
    ensures InUse(s.ops, x) <==> At(s.core.pins, x) != 0 || At(s.core.inflight, x) != 0
  {
    Unheld(s, Read, x);
    Unheld(s, Use.Hold, x);
    assert At(Tally(s.core, Read), x) == At(s.core.pins, x);
    assert At(Tally(s.core, Use.Hold), x) == At(s.core.inflight, x);
    forall id | id in s.ops
      ensures HasSlot(s.ops[id], x) <==> x in Uses(s.ops[id], Read) || x in Uses(s.ops[id], Use.Hold)
    {}
    if InUse(s.ops, x) { var id :| id in s.ops && HasSlot(s.ops[id], x); }
  }

  lemma WritesCount(s: System, x: nat)
    requires Counted(s)
    ensures At(s.core.writes, x) == 0 <==> forall id :: id in s.ops ==> !MayWrite(s.ops[id], x)
  {
    Unheld(s, Write, x);
    assert At(Tally(s.core, Write), x) == At(s.core.writes, x);
    forall id | id in s.ops ensures MayWrite(s.ops[id], x) <==> x in Uses(s.ops[id], Write) {}
  }

  lemma PendingMoves(s: System, t: nat)
    requires Reserved(s)
    ensures t in s.core.pending <==> OnTheMove(s.ops, t)
  {
    if t in s.core.pending {
      var id :| id in s.ops && t in Tokens(s.ops[id]);
      assert MovesToken(s.ops[id], t);
    }
    if OnTheMove(s.ops, t) {
      var id :| id in s.ops && MovesToken(s.ops[id], t);
      assert t in Tokens(s.ops[id]);
    }
  }

  // ---- readers and guarded writes ----------------------------------------------------------

  /** A reader gets its pins exactly if the map is open, its tokens are mapped and no
      outstanding call may be writing where they live. */
  lemma PinGrantedExactly(s: System, id: nat, tokens: set<nat>)
    requires Reachable(s) && id !in s.ops
    ensures id in Apply(s, PinTokens(id, tokens)).ops
            <==> !s.core.closed && forall t :: t in tokens ==>
                     t in s.core.slots && forall j :: j in s.ops ==> !MayWrite(s.ops[j], s.core.slots[t])
  {
    ReachableInv(s);
    if tokens <= s.core.slots.Keys {
      assert forall t :: t in tokens ==> s.core.slots[t] in SlotsOf(s.core, tokens);
      forall t | t in tokens
        ensures At(s.core.writes, s.core.slots[t]) == 0
                <==> forall j :: j in s.ops ==> !MayWrite(s.ops[j], s.core.slots[t])
      {
        WritesCount(s, s.core.slots[t]);
      }
    }
  }

  /** A guarded write is granted exactly if the map is open and none of the slots it must
      have is shared or in use; it gets those and the optional ones that are neither. */
  lemma GuardGrantedExactly(s: System, id: nat, required: set<nat>, optional: set<nat>)
    requires Reachable(s) && Fits(s, GuardEnter(id, required, optional))
    ensures var s' := Apply(s, GuardEnter(id, required, optional));
            && (id in s'.ops <==>
                  !s.core.closed && forall x :: x in required ==> x !in s.core.shared && !InUse(s.ops, x))
            && (id in s'.ops ==>
                  s'.ops[id].Guard? && forall x: nat :: x in s'.ops[id].guarded <==>
                      x in required || (x in optional && x !in s.core.shared && !InUse(s.ops, x)))
  {
    ReachableInv(s);
    forall x | x in required + optional
      ensures InUse(s.ops, x) <==> At(s.core.pins, x) != 0 || At(s.core.inflight, x) != 0
    {
      InUseCounts(s, x);
    }
  }

  // ---- promotions ----------------------------------------------------------------------------

  /** The token's row may be overwritten where it is: in place is asked for, its load is
      over, and the slot is this token's alone and nobody uses it. */
  ghost predicate StaysInPlace(s: System, t: nat, load: LoadState, inplace: bool)
    requires t in s.core.slots
  {
    var was := s.core.slots[t];
    && inplace && load != LoadPending && was !in s.core.shared && !InUse(s.ops, was)
    && forall u :: u in s.core.slots && u != t ==> s.core.slots[u] != was
  }

  lemma StaysExactly(s: System, t: nat, load: LoadState, inplace: bool)
    requires Counted(s) && t in s.core.slots
    ensures StaysInPlace(s, t, load, inplace) <==> !MustCopy(s.core, s.core.slots[t], load.LoadPending?, inplace)
  {
    var was := s.core.slots[t];
    InUseCounts(s, was);
    if Crowded(s.core.slots, was) {
      var a, b :| a in s.core.slots && b in s.core.slots && a != b && s.core.slots[a] == was && s.core.slots[b] == was;
      assert a != t || b != t;
    }
  }

  /** Only the stock of slots changes while destinations are picked. */
  ghost predicate SameButStock(c0: Core, c: Core) {
    c == c0.(unused := c.unused, next := c.next)
  }

  /** The tokens that need a slot of their own. */
  function Copies(c0: Core, order: seq<nat>, load: bool, inplace: bool): nat
    requires forall t :: t in order ==> t in c0.slots
  {
    if order == [] then 0
    else (if MustCopy(c0, c0.slots[order[0]], load, inplace) then 1 else 0) + Copies(c0, order[1..], load, inplace)
  }

  /** Slots the map can still hand out, unless it has no limit. */
  ghost predicate Room(c: Core, n: nat) {
    c.maxSlots.Some? ==> n <= |c.unused| + (c.maxSlots.value - c.next)
  }

  ghost predicate Chooses(c0: Core, a: Assignment, dest: map<nat, nat>, order: seq<nat>, load: bool, inplace: bool) {
    && (forall t :: t in dest ==> t in a.dest && (t in order || a.dest[t] == dest[t]))
    && (forall t :: t in order ==>
          t in c0.slots && t in a.dest
          && (!MustCopy(c0, c0.slots[t], load, inplace) ==> a.dest[t] == c0.slots[t])
          && (MustCopy(c0, c0.slots[t], load, inplace) ==> a.dest[t] in c0.unused || a.dest[t] >= c0.next))
  }

  lemma DrawOne(c0: Core, c: Core, p: (nat, Core))
    requires SameButStock(c0, c) && c.unused <= c0.unused && c0.next <= c.next && Fresh(c) == Some(p)
    ensures SameButStock(c0, p.1) && p.1.unused <= c0.unused && c0.next <= p.1.next
    ensures p.0 in c0.unused || p.0 >= c0.next
    ensures c.unused == {} && c.maxSlots.Some? ==> c.next < c.maxSlots.value
    ensures c.maxSlots.Some? && c.next <= c.maxSlots.value ==>
              p.1.next <= c.maxSlots.value
              && |p.1.unused| + (c.maxSlots.value - p.1.next) == |c.unused| + (c.maxSlots.value - c.next) - 1
  {}

  lemma ChoosesMore(c0: Core, a: Assignment, dest: map<nat, nat>, order: seq<nat>, d: nat, load: bool, inplace: bool)
    requires order != [] && order[0] !in order[1..] && order[0] in c0.slots && order[0] !in dest
    requires Chooses(c0, a, dest[order[0] := d], order[1..], load, inplace)
    requires !MustCopy(c0, c0.slots[order[0]], load, inplace) ==> d == c0.slots[order[0]]
    requires MustCopy(c0, c0.slots[order[0]], load, inplace) ==> d in c0.unused || d >= c0.next
    ensures Chooses(c0, a, dest, order, load, inplace) == true
  {
    var t := order[0];
    assert t in dest[t := d] && dest[t := d][t] == d && t !in order[1..];
    forall u | u in dest ensures u in a.dest && (u in order || a.dest[u] == dest[u]) {
      assert u in dest[t := d] && dest[t := d][u] == dest[u];
    }
    assert forall u :: u in order ==> u == t || u in order[1..];
  }

  /** The next token's choice depends on nothing the loop changes. */
  lemma SameChoice(c0: Core, c: Core, was: nat, load: bool, inplace: bool)
    requires SameButStock(c0, c)
    ensures MustCopy(c, was, load, inplace) == MustCopy(c0, was, load, inplace)
    ensures c.maxSlots == c0.maxSlots && c.slots == c0.slots
  {}

  lemma {:induction false} AssignFits(c0: Core, c: Core, order: seq<nat>, load: bool, inplace: bool,
                                      dest: map<nat, nat>, taken: set<nat>)
    requires SameButStock(c0, c) && c.unused <= c0.unused && c0.next <= c.next
    requires (forall t :: t in order ==> t in c0.slots) && (c.maxSlots.Some? ==> c.next <= c.maxSlots.value)
    ensures Assign(c, order, load, inplace, dest, taken).ok <==> Room(c, Copies(c0, order, load, inplace))
    decreases |order|
  {
    if order != [] {
      var t, was := order[0], c0.slots[order[0]];
      SameChoice(c0, c, was, load, inplace);
      if MustCopy(c0, was, load, inplace) {
        match Fresh(c)
        case None => assert |c.unused| == 0;
        case Some(p) =>
          DrawOne(c0, c, p);
          AssignFits(c0, p.1, order[1..], load, inplace, dest[t := p.0], if p.0 != was then taken + {p.0} else taken);
      } else {
        AssignFits(c0, c, order[1..], load, inplace, dest[t := was], taken);
      }
    }
  }

  lemma {:induction false} AssignPicks(c0: Core, c: Core, order: seq<nat>, load: bool, inplace: bool,
                                         dest: map<nat, nat>, taken: set<nat>)
    requires SameButStock(c0, c) && c.unused <= c0.unused && c0.next <= c.next && Distinct(order)
    requires (forall t :: t in order ==> t in c0.slots && t !in dest) && Assign(c, order, load, inplace, dest, taken).ok
    ensures Chooses(c0, Assign(c, order, load, inplace, dest, taken), dest, order, load, inplace) == true
    decreases |order|
  {
    if order != [] {
      var t, was, a := order[0], c0.slots[order[0]], Assign(c, order, load, inplace, dest, taken);
      assert t !in order[1..];
      SameChoice(c0, c, was, load, inplace);
      if MustCopy(c0, was, load, inplace) {
        var p := Fresh(c).value;
        DrawOne(c0, c, p);
        AssignPicks(c0, p.1, order[1..], load, inplace, dest[t := p.0], if p.0 != was then taken + {p.0} else taken);
        ChoosesMore(c0, a, dest, order, p.0, load, inplace);
      } else {
        AssignPicks(c0, c, order[1..], load, inplace, dest[t := was], taken);
        ChoosesMore(c0, a, dest, order, was, load, inplace);
      }
    }
  }

  /** The tokens of a promotion that need a slot of their own. */
  ghost function Moving(s: System, order: seq<nat>, load: LoadState, inplace: bool): set<nat> {
    set t | t in order && t in s.core.slots && !StaysInPlace(s, t, load, inplace)
  }

  lemma {:induction false} CopiesCount(s: System, order: seq<nat>, load: LoadState, inplace: bool)
    requires Counted(s) && Distinct(order) && forall t :: t in order ==> t in s.core.slots
    ensures Copies(s.core, order, load.LoadPending?, inplace) == |Moving(s, order, load, inplace)|
    decreases |order|
  {
    if order == [] {
      assert Moving(s, order, load, inplace) == {};
    } else {
      CopiesCount(s, order[1..], load, inplace);
      StaysExactly(s, order[0], load, inplace);
      MovingMore(s, order, load, inplace);
    }
  }

  lemma MovingMore(s: System, order: seq<nat>, load: LoadState, inplace: bool)
    requires order != [] && Distinct(order) && order[0] in s.core.slots
    ensures |Moving(s, order, load, inplace)|
            == |Moving(s, order[1..], load, inplace)| + if StaysInPlace(s, order[0], load, inplace) then 0 else 1
  {
    var t, rest := order[0], Moving(s, order[1..], load, inplace);
    assert t !in rest && forall u :: u in order <==> u == t || u in order[1..];
    assert Moving(s, order, load, inplace) == rest + if StaysInPlace(s, t, load, inplace) then {} else {t};
  }

  /** A promotion of some tokens is taken up exactly if the map is open, each is mapped and
      not on the move, its load has not failed, and there is a slot for each that cannot
      be overwritten in place. */
  lemma PromotionTakenExactly(s: System, id: nat, order: seq<nat>, load: LoadState, loadId: nat, inplace: bool)
    requires Reachable(s) && Fits(s, PromoteBegin(id, order, load, loadId, inplace)) && order != []
    ensures id in Apply(s, PromoteBegin(id, order, load, loadId, inplace)).ops
            <==> !s.core.closed && load != LoadFailed && Room(s.core, |Moving(s, order, load, inplace)|)
                 && forall t :: t in order ==> t in s.core.slots && !OnTheMove(s.ops, t)
  {
    ReachableInv(s);
    forall t | t in order ensures t in s.core.pending <==> OnTheMove(s.ops, t) { PendingMoves(s, t); }
    if MayPromote(s.core, order, load) {
      AssignFits(s.core, s.core, order, load.LoadPending?, inplace, map[], {});
      CopiesCount(s, order, load, inplace);
      assert Placed(s.core, s.base);
    }
    PromotionEnters(s, id, order, load, loadId, inplace);
  }

  lemma PromotionEnters(s: System, id: nat, order: seq<nat>, load: LoadState, loadId: nat, inplace: bool)
    requires Fits(s, PromoteBegin(id, order, load, loadId, inplace)) && order != []
    ensures var s' := Apply(s, PromoteBegin(id, order, load, loadId, inplace));
            && (id in s'.ops <==> MayPromote(s.core, order, load)
                                  && Assign(s.core, order, load.LoadPending?, inplace, map[], {}).ok)
            && (id in s'.ops ==>
                  var a := Assign(s.core, order, load.LoadPending?, inplace, map[], {});
                  && s'.ops[id] == Promotion(SourceOf(s.core, order), a.dest, a.taken, s.core.generation, Writing)
                  && (load == LoadPending ==>
                        loadId in s'.ops && s'.ops[loadId] == Loading(SourceOf(s.core, order).Values)))
  {}

  /** A promotion that is taken up leaves a token's row in place exactly where it may be
      overwritten; every other token gets a slot that carries nothing. If the load is
      pending, the slots the tokens leave stay reserved for it. */
  lemma PromotionPicks(s: System, id: nat, order: seq<nat>, load: LoadState, loadId: nat, inplace: bool, t: nat)
    requires Reachable(s) && Fits(s, PromoteBegin(id, order, load, loadId, inplace)) && t in order
    requires id in Apply(s, PromoteBegin(id, order, load, loadId, inplace)).ops
    ensures var s' := Apply(s, PromoteBegin(id, order, load, loadId, inplace));
            && s'.ops[id].Promotion? && t in s'.ops[id].source && t in s'.ops[id].dest && t in s.core.slots
            && s'.ops[id].source[t] == s.core.slots[t]
            && (if StaysInPlace(s, t, load, inplace) then s'.ops[id].dest[t] == s.core.slots[t]
                else s'.ops[id].dest[t] in s.core.unused || s'.ops[id].dest[t] >= s.core.next)
            && (load == LoadPending ==>
                  loadId in s'.ops && s'.ops[loadId].Loading? && s.core.slots[t] in s'.ops[loadId].sources)
  {
    ReachableInv(s);
    PromotionEnters(s, id, order, load, loadId, inplace);
    AssignPicks(s.core, s.core, order, load.LoadPending?, inplace, map[], {});
    StaysExactly(s, t, load, inplace);
    assert SourceOf(s.core, order)[t] in SourceOf(s.core, order).Values;
  }

  // ---- decodes -------------------------------------------------------------------------------

  /** Nobody has the slot in any way. */
  ghost predicate Unoccupied(s: System, x: nat) {
    x !in s.core.slots.Values && x !in s.core.shared && !InUse(s.ops, x)
  }

  /** A native slot that a token has left and nobody has since. */
  ghost predicate NativeHole(s: System, x: nat) {
    x in s.core.vacated && x < s.core.floor && Unoccupied(s, x)
  }

  lemma FreeExactly(s: System, x: nat)
    requires Counted(s)
    ensures Free(s.core, x) <==> Unoccupied(s, x)
  {
    InUseCounts(s, x);
  }

  /** A decode is granted exactly if the map is open, the token is new and not on the move,
      and its native slot is native and unoccupied; it goes to the lowest native hole if
      holes may be reused and there is one, else to its native slot. */
  lemma DecodePlacedExactly(s: System, token: nat, native: nat, reuse: bool)
    requires Reachable(s)
    ensures var d := Destination(s.core, token, native, reuse);
            && (d.Ok? <==> !s.core.closed && token !in s.core.slots && !OnTheMove(s.ops, token)
                           && native < s.core.floor && Unoccupied(s, native))
            && (d.Ok? ==> if reuse && NativeHole(s, d.value) then forall x: nat :: NativeHole(s, x) ==> d.value <= x
                          else d.value == native && (reuse ==> forall x: nat :: !NativeHole(s, x)))
            && (d.Err? ==> d.error == if s.core.closed then Stale
                                      else if token in s.core.slots || OnTheMove(s.ops, token) || native >= s.core.floor
                                      then Invalid else Capacity)
  {
    ReachableInv(s);
    PendingMoves(s, token);
    forall x: nat ensures Free(s.core, x) <==> Unoccupied(s, x) { FreeExactly(s, x); }
    forall x: nat ensures x in Holes(s.core, Some(s.core.floor)) <==> NativeHole(s, x) {}
  }

  /** Without a native slot a new token goes to the lowest hole, else to the lowest unused
      slot, else to the next one; it is refused exactly if there is none of these. */
  lemma AllocatedExactly(s: System, token: nat)
    requires Reachable(s)
    ensures var s' := Apply(s, AllocateDecode(token));
            var holes := set x | x in s.core.vacated && Unoccupied(s, x);
            if s.core.closed || token in s.core.slots || OnTheMove(s.ops, token)
               || (holes == {} && s.core.unused == {} && s.core.maxSlots.Some? && s.core.next >= s.core.maxSlots.value)
            then s' == s
            else s'.core.slots == s.core.slots[token := if holes != {} then Least(holes)
                                                        else if s.core.unused != {} then Least(s.core.unused)
                                                        else s.core.next]
  {
    ReachableInv(s);
    PendingMoves(s, token);
    forall x: nat ensures Free(s.core, x) <==> Unoccupied(s, x) { FreeExactly(s, x); }
    assert Holes(s.core, None) == set x | x in s.core.vacated && Unoccupied(s, x);
  }

  // ---- the slots that tokens leave -----------------------------------------------------------

  /** Every slot that carried a token at some point of the run. */
  ghost function Carried(s: System, es: seq<Event>): set<nat>
    decreases |es|
  {
    s.core.slots.Values + if es == [] then {} else Carried(Apply(s, es[0]), es[1..])
  }

  /** While the map is open: it still carries a token, or has been left and is a hole, or is
      shared, or is where a decode under way will go. */
  ghost predicate Kept(s: System, x: nat) {
    s.core.closed || x in s.core.slots.Values || x in s.core.vacated || x in s.core.shared
    || Opening(s.ops, x)
  }

  ghost predicate Opening(ops: map<nat, Op>, x: nat) {
    exists id :: id in ops && OpensAt(ops[id], x)
  }

  predicate OpensAt(op: Op, x: nat) {
    op.Decode? && op.step.Writing? && op.chosen == x
  }

  /** Mapped slots stay mapped, holes stay holes, and decodes under way go on. */
  lemma FrameKept(s: System, s': System, x: nat)
    requires Kept(s, x) && s'.core.shared == s.core.shared && (s.core.closed ==> s'.core.closed)
    requires x in s.core.slots.Values ==> x in s'.core.slots.Values
    requires x in s.core.vacated ==> x in s'.core.vacated || x in s'.core.slots.Values || Opening(s'.ops, x)
    requires forall id :: id in s.ops && OpensAt(s.ops[id], x) ==>
               x in s'.core.slots.Values || (id in s'.ops && s'.ops[id] == s.ops[id])
    ensures Kept(s', x)
  {
    if Opening(s.ops, x) && !(x in s'.core.slots.Values) {
      var id :| id in s.ops && OpensAt(s.ops[id], x);
      assert OpensAt(s'.ops[id], x);
    }
  }

  lemma NewTokenKept(slots: map<nat, nat>, token: nat, slot: nat, x: nat)
    requires token !in slots
    ensures x in slots.Values ==> x in slots[token := slot].Values
    ensures slot in slots[token := slot].Values
  {
    if x in slots.Values {
      var t :| t in slots && slots[t] == x;
      assert slots[token := slot][t] == x;
    }
    assert slots[token := slot][token] == slot;
  }

  /** A slot that a new mapping no longer carries was some redirected token's. */
  lemma OverlaidSource(slots: map<nat, nat>, source: map<nat, nat>, dest: map<nat, nat>, x: nat)
    requires x in slots.Values && x !in (slots + dest).Values && source.Keys == dest.Keys
    requires forall t :: t in source ==> t in slots && slots[t] == source[t]
    ensures x in source.Values
  {
    var t :| t in slots && slots[t] == x;
    assert forall u :: u in slots && u !in dest ==> (slots + dest)[u] == slots[u];
    assert source[t] == x;
  }

  lemma PublishKept(s: System, id: nat, x: nat)
    requires Inv(s) && Kept(s, x) && id in s.ops && s.ops[id].Promotion? && Publishable(s.core, s.ops[id])
    requires s.ops[id].phase.Writing?
    ensures Kept(Apply(s, PromotePublish(id)), x) == true
  {
    var s', op := Apply(s, PromotePublish(id)), s.ops[id];
    PublishEffect(s, id);
    SourceMatchesDest(s, id);
    if x in s.core.slots.Values && x !in s'.core.slots.Values {
      OverlaidSource(s.core.slots, op.source, op.dest, x);
    } else {
      PublishFrame(s, id);
      FrameKept(s, s', x);
    }
  }

  lemma PublishFrame(s: System, id: nat)
    requires id in s.ops && s.ops[id].Promotion? && s.ops[id].phase.Writing?
    ensures var s' := Apply(s, PromotePublish(id));
            && s'.core.shared == s.core.shared && (s.core.closed ==> s'.core.closed)
            && forall j :: j in s.ops && j != id ==> j in s'.ops && s'.ops[j] == s.ops[j]
  {}

  lemma DecodeKept(s: System, id: nat, token: nat, native: nat, reuse: bool, x: nat)
    requires Inv(s) && Kept(s, x) && id !in s.ops
    ensures Kept(Apply(s, DecodeEnter(id, token, native, reuse)), x)
  {
    var s' := Apply(s, DecodeEnter(id, token, native, reuse));
    if s' != s {
      var slot := Destination(s.core, token, native, reuse).value;
      assert OpensAt(s'.ops[id], slot);
      FrameKept(s, s', x);
    }
  }

  lemma BoundKept(s: System, token: nat, native: nat, reuse: bool, x: nat)
    requires Kept(s, x)
    ensures Kept(Apply(s, BindDecode(token, native, reuse)), x) == true
  {
    var s' := Apply(s, BindDecode(token, native, reuse));
    if s' != s {
      NewTokenKept(s.core.slots, token, s'.core.slots[token], x);
      FrameKept(s, s', x);
    }
  }

  lemma AllocatedKept(s: System, token: nat, x: nat)
    requires Kept(s, x)
    ensures Kept(Apply(s, AllocateDecode(token)), x) == true
  {
    var s' := Apply(s, AllocateDecode(token));
    if s' != s {
      NewTokenKept(s.core.slots, token, s'.core.slots[token], x);
      FrameKept(s, s', x);
    }
  }

  lemma PublishedKept(s: System, id: nat, x: nat)
    requires Inv(s) && Kept(s, x) && id in s.ops && s.ops[id].Decode? && s.ops[id].step.Writing?
    ensures Kept(Apply(s, DecodePublish(id)), x)
  {
    var s' := Apply(s, DecodePublish(id));
    SoundOp(s, id);
    if s' != s {
      NewTokenKept(s.core.slots, s.ops[id].token, s.ops[id].chosen, x);
      FrameKept(s, s', x);
    }
  }

  lemma BegunKept(s: System, e: Event, x: nat)
    requires Kept(s, x) && e.PromoteBegin? && Fits(s, e)
    ensures Kept(Apply(s, e), x)
  {
    if e.order != [] && MayPromote(s.core, e.order, e.load) {
      AssignStock(s.core, e.order, e.load.LoadPending?, e.inplace, map[], {});
    }
    FrameKept(s, Apply(s, e), x);
  }

  lemma {:induction false} AssignStock(c: Core, order: seq<nat>, load: bool, inplace: bool, dest: map<nat, nat>,
                                       taken: set<nat>)
    requires forall t :: t in order ==> t in c.slots
    ensures SameButStock(c, Assign(c, order, load, inplace, dest, taken).core)
    decreases |order|
  {
    if order != [] {
      var was := c.slots[order[0]];
      if MustCopy(c, was, load, inplace) {
        match Fresh(c)
        case None =>
        case Some(p) => AssignStock(p.1, order[1..], load, inplace, dest[order[0] := p.0],
                                    if p.0 != was then taken + {p.0} else taken);
      } else {
        AssignStock(c, order[1..], load, inplace, dest[order[0] := was], taken);
      }
    }
  }

  lemma AbortKept(s: System, id: nat, x: nat)
    requires Kept(s, x) && id in s.ops && s.ops[id].Promotion? && s.ops[id].phase.Writing?
    ensures Kept(Apply(s, PromoteAbort(id)), x) == true
  {
    FrameKept(s, Apply(s, PromoteAbort(id)), x);
  }

  /** Readers and guards that come, and calls that leave, a decode only after its end. */
  lemma ReadOrExitKept(s: System, e: Event, x: nat)
    requires Kept(s, x) && Fits(s, e)
    requires e.PinSlots? || e.PinTokens? || e.GuardEnter? || Exits(s, e)
    ensures Kept(Apply(s, e), x) == true
  {
    FrameKept(s, Apply(s, e), x);
  }

  lemma KeptStep(s: System, e: Event, x: nat)
    requires Inv(s) && Kept(s, x)
    ensures Kept(Apply(s, e), x) == true
  {
    if Fits(s, e) {
      match e
      case PromoteBegin(_, _, _, _, _) => BegunKept(s, e, x);
      case PromotePublish(id) => if Publishable(s.core, s.ops[id]) { PublishKept(s, id, x); }
      case AllocateDecode(token) => AllocatedKept(s, token, x);
      case BindDecode(token, native, reuse) => BoundKept(s, token, native, reuse, x);
      case DecodeEnter(id, token, native, reuse) => DecodeKept(s, id, token, native, reuse, x);
      case DecodePublish(id) => PublishedKept(s, id, x);
      case PromoteAbort(id) => AbortKept(s, id, x);
      case DecodeAbort(id) =>
      case Invalidate =>
      case _ => ReadOrExitKept(s, e, x);
    }
  }

  lemma {:induction false} KeptRun(s: System, es: seq<Event>, x: nat)
    requires Inv(s) && Kept(s, x)
    ensures Kept(Run(s, es), x)
    decreases |es|
  {
    if es != [] {
      EventKeeps(s, es[0]);
      KeptStep(s, es[0], x);
      KeptRun(Apply(s, es[0]), es[1..], x);
    }
  }

  /** A slot that a token leaves becomes a hole, and stays one until a decode takes it:
      while the map is open, every slot that ever carried a token still carries one, is a
      hole, is shared, or is where a decode under way will go. */
  lemma {:induction false} LeftSlotsAreHoles(s: System, es: seq<Event>, x: nat)
    requires Inv(s) && x in Carried(s, es) && !Run(s, es).core.closed
    ensures var c := Run(s, es).core;
            x in c.slots.Values || x in c.vacated || x in c.shared || Opening(Run(s, es).ops, x)
    decreases |es|
  {
    if x in s.core.slots.Values {
      KeptRun(s, es, x);
    } else if es != [] {
      EventKeeps(s, es[0]);
      LeftSlotsAreHoles(Apply(s, es[0]), es[1..], x);
    }
  }
}
