/** What every interleaving of the slot map's mutex blocks keeps. */
module SlideSafety {
  import opened Basics
  import opened Slide

  // ---- the invariant ----------------------------------------------------

  /** The outstanding calls that use slot `x` in way `u`. */
  ghost function Holders(ops: map<nat, Op>, u: Use, x: nat): set<nat> {
    set id | id in ops && x in Uses(ops[id], u)
  }

  function Tally(c: Core, u: Use): Counter {
    match u
    case Read => c.pins
    case Write => c.writes
    case Hold => c.inflight
  }

  /** Each guard counter is the number of outstanding calls on that slot. */
  ghost predicate Counted(s: System) {
    forall u: Use, x: nat :: At(Tally(s.core, u), x) == |Holders(s.ops, u, x)|
  }

  /** Pending tokens are exactly those of outstanding promotions and decodes,
      and no two calls share one. */
  ghost predicate Reserved(s: System) {
    && (forall id :: id in s.ops ==> Tokens(s.ops[id]) <= s.core.pending)
    && (forall t :: t in s.core.pending ==> exists id :: id in s.ops && t in Tokens(s.ops[id]))
    && OneOwner(s.ops)
  }

  ghost predicate OneOwner(ops: map<nat, Op>) {
    forall i, j :: i in ops && j in ops && i != j ==> Tokens(ops[i]) !! Tokens(ops[j])
  }

  /** Slots taken by a promotion that is still writing. */
  function Claim(op: Op): set<nat> {
    if op.Promotion? && op.phase.Writing? then op.taken else {}
  }

  ghost predicate Claimed(ops: map<nat, Op>, x: nat) {
    exists id :: id in ops && x in Claim(ops[id])
  }

  /** Mapped, vacated and unused slots are disjoint and inside the arena. */
  ghost predicate Placed(c: Core, base: nat) {
    && c.floor <= base <= c.next && (c.maxSlots.Some? ==> c.next <= c.maxSlots.value)
    && (forall x :: x in c.slots.Values ==> x < c.next)
    && (forall x :: x in c.shared ==> x < base)
    && (forall x :: x in c.vacated ==> x < c.next && x !in c.slots.Values)
    && (forall x :: x in c.unused ==> base <= x < c.next && x !in c.slots.Values && x !in c.vacated)
  }

  /** Claims are disjoint from each other and from every other place. */
  ghost predicate Separate(c: Core, base: nat, ops: map<nat, Op>) {
    && (forall id, x {:trigger x in Claim(ops[id])} :: id in ops && x in Claim(ops[id]) ==>
          base <= x < c.next && x !in c.slots.Values && x !in c.vacated && x !in c.unused)
    && (forall i, j {:trigger Claim(ops[i]), Claim(ops[j])} :: i in ops && j in ops && i != j ==>
            Claim(ops[i]) !! Claim(ops[j]))
  }

  /** No slot the map ever issued is lost. */
  ghost predicate Covered(c: Core, base: nat, ops: map<nat, Op>) {
    forall x :: base <= x < c.next ==>
      x in c.slots.Values || x in c.vacated || x in c.unused || Claimed(ops, x)
  }

  /** Every slot the map issued itself is in exactly one place. */
  ghost predicate Partitioned(s: System) {
    Placed(s.core, s.base) && Separate(s.core, s.base, s.ops) && Covered(s.core, s.base, s.ops)
  }

  /** What an outstanding call may rely on. */
  ghost predicate Sound(c: Core, base: nat, op: Op) {
    match op
    case Pin(pinned) => forall x :: x in pinned ==> x < c.next && x !in c.unused
    case Guard(guarded, gen) =>
      && (!c.closed ==> gen == c.generation)
      && forall x :: x in guarded ==> x < c.next && x !in c.unused && x !in c.shared
    case Loading(sources) => forall x :: x in sources ==> x < c.next
    case Promotion(source, dest, taken, gen, phase) =>
      && (!c.closed ==> gen == c.generation)
      && source.Keys == dest.Keys && Injective(dest)
      && taken <= dest.Values
      && (forall x :: x in source.Values ==> x < c.next) && (forall x :: x in dest.Values ==> x < c.next)
      && (forall x :: x in dest.Values ==> x !in c.shared)
      && (forall t :: t in dest ==> dest[t] in taken || dest[t] == source[t])
      && (phase.Writing? ==> forall t :: t in source ==> t in c.slots && c.slots[t] == source[t])
    case Decode(token, chosen, native, gen, step) =>
      && (!c.closed ==> gen == c.generation)
      && chosen < c.floor && native < c.floor && chosen !in c.shared && native !in c.shared
      && (step.Writing? ==>
            token !in c.slots && chosen !in c.slots.Values && chosen !in c.vacated
            && native !in c.slots.Values)
  }

  ghost predicate AllSound(s: System) {
    forall id :: id in s.ops ==> Sound(s.core, s.base, s.ops[id])
  }

  lemma SoundOp(s: System, id: nat)
    requires AllSound(s) && id in s.ops
    ensures Sound(s.core, s.base, s.ops[id])
  {}

  /** Readers never share a slot with a writing reservation, and two calls
      whose device writes may be running never share a slot. */
  ghost predicate Exclusive(s: System) {
    && (forall i, j :: i in s.ops && j in s.ops ==> Uses(s.ops[i], Read) !! Uses(s.ops[j], Write))
    && (forall i, j :: i in s.ops && j in s.ops && i != j && Active(s.ops[i]) && Active(s.ops[j]) ==>
          Uses(s.ops[i], Write) !! Uses(s.ops[j], Write))
  }

  ghost predicate Inv(s: System) {
    Counted(s) && Reserved(s) && Partitioned(s) && AllSound(s) && Exclusive(s)
  }

  // ---- counters ---------------------------------------------------------

  lemma OneMore(a: set<nat>, b: set<nat>, id: nat)
    requires id !in a && forall j :: j in b <==> j in a || j == id
    ensures |b| == |a| + 1
  {
    assert b == a + {id};
  }

  lemma HoldersGrow(ops: map<nat, Op>, id: nat, op: Op, u: Use, x: nat)
    requires id !in ops
    ensures |Holders(ops[id := op], u, x)| == |Holders(ops, u, x)| + (if x in Uses(op, u) then 1 else 0)
  {
    var before, after := Holders(ops, u, x), Holders(ops[id := op], u, x);
    if x in Uses(op, u) {
      OneMore(before, after, id);
    } else {
      assert before == after;
    }
  }

  lemma HoldersShrink(ops: map<nat, Op>, id: nat, u: Use, x: nat)
    requires id in ops
    ensures |Holders(ops - {id}, u, x)| == |Holders(ops, u, x)| - (if x in Uses(ops[id], u) then 1 else 0)
  {
    if x in Uses(ops[id], u) {
      assert Holders(ops - {id}, u, x) == Holders(ops, u, x) - {id};
    } else {
      assert Holders(ops - {id}, u, x) == Holders(ops, u, x);
    }
  }

  lemma TallyReserve(c: Core, op: Op, u: Use)
    ensures Tally(Reserve(c, op), u) == Bump(Tally(c, u), Uses(op, u), 1)
    ensures Tally(Return(c, op), u) == Bump(Tally(c, u), Uses(op, u), -1)
  {
    TallyReserved(c, op, u);
    TallyReturned(c, op, u);
  }

  lemma TallyReserved(c: Core, op: Op, u: Use)
    ensures Tally(Reserve(c, op), u) == Bump(Tally(c, u), Uses(op, u), 1)
  {
    match u
    case Read =>
    case Write =>
    case Hold =>
  }

  lemma TallyReturned(c: Core, op: Op, u: Use)
    ensures Tally(Return(c, op), u) == Bump(Tally(c, u), Uses(op, u), -1)
  {
    match u
    case Read =>
    case Write =>
    case Hold =>
  }

  lemma EnterCounts(s: System, core: Core, id: nat, op: Op)
    requires id !in s.ops
    requires Counted(s.(core := core))
    ensures Counted(Enter(s, core, id, op))
  {
    var s' := Enter(s, core, id, op);
    forall u: Use, x: nat
      ensures At(Tally(s'.core, u), x) == |Holders(s'.ops, u, x)|
    {
      var s0 := s.(core := core);
      assert At(Tally(s0.core, u), x) == |Holders(s0.ops, u, x)|;
      TallyReserve(core, op, u);
      HoldersGrow(s.ops, id, op, u, x);
    }
  }

  lemma LeaveCounts(s: System, id: nat)
    requires id in s.ops && Counted(s)
    ensures Counted(Leave(s, id))
  {
    var s' := Leave(s, id);
    forall u: Use, x: nat
      ensures At(Tally(s'.core, u), x) == |Holders(s'.ops, u, x)|
    {
      assert At(Tally(s.core, u), x) == |Holders(s.ops, u, x)|;
      TallyReserve(s.core, s.ops[id], u);
      HoldersShrink(s.ops, id, u, x);
    }
  }

  /** A call that changes phase keeps its reservations. */
  lemma PhaseCounts(s: System, core: Core, id: nat, op: Op)
    requires id in s.ops && Counted(s) == true
    requires forall u: Use :: Uses(op, u) == Uses(s.ops[id], u) && Tally(core, u) == Tally(s.core, u)
    ensures Counted(s.(core := core, ops := s.ops[id := op])) == true
  {
    var s' := s.(core := core, ops := s.ops[id := op]);
    forall u: Use, x: nat
      ensures At(Tally(s'.core, u), x) == |Holders(s'.ops, u, x)|
    {
      assert At(Tally(s.core, u), x) == |Holders(s.ops, u, x)|;
      assert Holders(s'.ops, u, x) == Holders(s.ops, u, x);
    }
  }

  lemma SameCounts(s: System, core: Core)
    requires Counted(s) && core.pins == s.core.pins && core.writes == s.core.writes && core.inflight == s.core.inflight
    ensures Counted(s.(core := core))
  {
    forall u: Use, x: nat
      ensures At(Tally(core, u), x) == |Holders(s.ops, u, x)|
    {
      assert At(Tally(s.core, u), x) == |Holders(s.ops, u, x)|;
    }
  }

  /** A zero counter means no outstanding call uses the slot that way. */
  lemma ZeroMeansUnused(s: System, u: Use, x: nat, id: nat)
    requires Counted(s) && id in s.ops && At(Tally(s.core, u), x) == 0
    ensures x !in Uses(s.ops[id], u)
  {
    assert |Holders(s.ops, u, x)| == 0;
    assert id !in Holders(s.ops, u, x);
  }

  /** A slot without in-flight reservations is outside every guarded call. */
  lemma IdleSlot(s: System, x: nat)
    requires Counted(s) && At(s.core.inflight, x) == 0
    ensures forall id :: id in s.ops ==> x !in Uses(s.ops[id], Hold) && x !in Uses(s.ops[id], Write)
  {
    forall id | id in s.ops
      ensures x !in Uses(s.ops[id], Hold) && x !in Uses(s.ops[id], Write)
    {
      ZeroMeansUnused(s, Hold, x, id);
      assert Uses(s.ops[id], Write) <= Uses(s.ops[id], Hold);
    }
  }

  lemma UnpinnedSlot(s: System, x: nat)
    requires Counted(s) && At(s.core.pins, x) == 0
    ensures forall id :: id in s.ops ==> x !in Uses(s.ops[id], Read)
  {
    forall id | id in s.ops
      ensures x !in Uses(s.ops[id], Read)
    {
      ZeroMeansUnused(s, Read, x, id);
    }
  }

  // ---- destinations of a promotion ----------------------------------------

  /** The accumulators of the destination loop after the tokens in `done`. */
  ghost predicate Chosen(c0: Core, c: Core, done: seq<nat>, dest: map<nat, nat>, taken: set<nat>, inplace: set<nat>) {
    && c == c0.(unused := c.unused, next := c.next)
    && c.unused <= c0.unused && c0.next <= c.next
    && (c0.maxSlots.Some? ==> c.next <= c0.maxSlots.value)
    && (forall x :: x in taken <==> (x in c0.unused && x !in c.unused) || c0.next <= x < c.next)
    && dest.Keys == (set t | t in done)
    && taken <= dest.Values
    && (forall t :: t in dest ==> t in c0.slots)
    && (forall t :: t in dest ==> dest[t] in taken || (dest[t] == c0.slots[t] && dest[t] in inplace))
    && Injective(dest)
  }

  ghost predicate Overwritable(c: Core, inplace: set<nat>) {
    forall x :: x in inplace ==>
      x !in c.shared && At(c.pins, x) == 0 && At(c.inflight, x) == 0 && !Crowded(c.slots, x)
  }

  lemma FreshIsNew(c0: Core, c: Core, taken: set<nat>, p: (nat, Core))
    requires forall x :: x in c0.slots.Values ==> x < c0.next && x !in c0.unused
    requires forall x :: x in c0.unused ==> x < c0.next
    requires c == c0.(unused := c.unused, next := c.next) && c.unused <= c0.unused && c0.next <= c.next
    requires c0.maxSlots.Some? ==> c.next <= c0.maxSlots.value
    requires forall x :: x in taken <==> (x in c0.unused && x !in c.unused) || c0.next <= x < c.next
    requires Fresh(c) == Some(p)
    ensures p.0 !in c0.slots.Values && p.0 !in taken
    ensures p.1 == c0.(unused := p.1.unused, next := p.1.next) && p.1.unused <= c0.unused && c0.next <= p.1.next
    ensures c0.maxSlots.Some? ==> p.1.next <= c0.maxSlots.value
    ensures forall x :: x in taken + {p.0} <==> (x in c0.unused && x !in p.1.unused) || c0.next <= x < p.1.next
  {
    if c.unused != {} {
      assert p.0 in c.unused;
    } else {
      assert p.0 == c.next;
    }
  }

  /** Redirecting one more token to an unmapped slot keeps destinations distinct. */
  lemma ExtendDest(dest: map<nat, nat>, taken: set<nat>, t: nat, s: nat)
    requires Injective(dest) && taken <= dest.Values && t !in dest
    requires forall k :: k in dest ==> dest[k] != s
    ensures Injective(dest[t := s]) && taken <= dest[t := s].Values && s in dest[t := s].Values
  {
    var dest' := dest[t := s];
    assert forall k :: k in dest ==> dest'[k] == dest[k];
    assert dest'[t] == s;
    forall x | x in taken ensures x in dest'.Values {
      var k :| k in dest && dest[k] == x;
      assert dest'[k] == x;
    }
  }

  lemma ChooseFresh(c0: Core, c: Core, done: seq<nat>, dest: map<nat, nat>, taken: set<nat>, inplace: set<nat>,
                    t: nat, p: (nat, Core))
    requires forall x :: x in c0.slots.Values ==> x < c0.next && x !in c0.unused
    requires forall x :: x in c0.unused ==> x < c0.next
    requires Chosen(c0, c, done, dest, taken, inplace) && t !in done && t in c0.slots && Fresh(c) == Some(p)
    ensures p.0 !in c0.slots.Values
    ensures Chosen(c0, p.1, done + [t], dest[t := p.0], taken + {p.0}, inplace)
  {
    FreshIsNew(c0, c, taken, p);
    forall k | k in dest ensures dest[k] != p.0 {
      if dest[k] !in taken { assert c0.slots[k] in c0.slots.Values; }
    }
    ExtendDest(dest, taken, t, p.0);
    assert dest[t := p.0].Keys == (set k | k in done + [t]);
  }

  lemma ChooseInPlace(c0: Core, c: Core, done: seq<nat>, dest: map<nat, nat>, taken: set<nat>, inplace: set<nat>,
                      t: nat)
    requires forall x :: x in c0.slots.Values ==> x < c0.next && x !in c0.unused
    requires Chosen(c0, c, done, dest, taken, inplace) && t !in done && t in c0.slots
    requires !Crowded(c0.slots, c0.slots[t])
    ensures Chosen(c0, c, done + [t], dest[t := c0.slots[t]], taken, inplace + {c0.slots[t]})
  {
    var was := c0.slots[t];
    assert was in c0.slots.Values;
    forall k | k in dest ensures dest[k] != was {
      assert k in c0.slots && k != t && !Crowded(c0.slots, was);
    }
    ExtendDest(dest, taken, t, was);
    assert dest[t := was].Keys == (set k | k in done + [t]);
  }

  /** A full arena: everything taken so far is unused again. */
  lemma ChooseFails(c0: Core, c: Core, done: seq<nat>, dest: map<nat, nat>, taken: set<nat>, inplace: set<nat>)
    requires Chosen(c0, c, done, dest, taken, inplace)
    ensures var u := c.unused + taken;
            c.(unused := u) == c0.(unused := u, next := c.next)
            && forall x :: x in u <==> x in c0.unused || c0.next <= x < c.next
  {}

  /** What the loop over the selected tokens leaves behind. */
  ghost predicate Outcome(c0: Core, a: Assignment, order: seq<nat>, inplace: set<nat>) {
    if a.ok then Chosen(c0, a.core, order, a.dest, a.taken, inplace) && Overwritable(c0, inplace)
    else a.core == c0.(unused := a.core.unused, next := a.core.next) && c0.next <= a.core.next
         && (c0.maxSlots.Some? ==> a.core.next <= c0.maxSlots.value)
         && (forall x :: x in a.core.unused <==> x in c0.unused || c0.next <= x < a.core.next)
  }

  lemma {:induction false} AssignChooses(c0: Core, c: Core, done: seq<nat>, order: seq<nat>, load: bool, ip: bool,
                                         dest: map<nat, nat>, taken: set<nat>, inplace: set<nat>)
    returns (ip': set<nat>)
    requires Distinct(done + order) && forall t :: t in order ==> t in c0.slots
    requires forall x :: x in c0.slots.Values ==> x < c0.next && x !in c0.unused
    requires forall x :: x in c0.unused ==> x < c0.next
    requires Chosen(c0, c, done, dest, taken, inplace) && Overwritable(c0, inplace)
    ensures Outcome(c0, Assign(c, order, load, ip, dest, taken), done + order, ip') == true
    decreases |order|
  {
    ip' := inplace;
    if order == [] {
      assert done + order == done;
      return;
    }
    var t := order[0];
    assert (done + order)[|done|] == t;
    assert t !in done by {
      assert forall i :: 0 <= i < |done| ==> (done + order)[i] == done[i];
    }
    assert done + order == (done + [t]) + order[1..];
    if MustCopy(c, c0.slots[t], load, ip) {
      match Fresh(c)
      case None => ChooseFails(c0, c, done, dest, taken, inplace);
      case Some(p) =>
        ChooseFresh(c0, c, done, dest, taken, inplace, t, p);
        assert p.0 != c0.slots[t];
        ip' := AssignChooses(c0, p.1, done + [t], order[1..], load, ip, dest[t := p.0], taken + {p.0}, inplace);
    } else {
      ChooseInPlace(c0, c, done, dest, taken, inplace, t);
      ip' := AssignChooses(c0, c, done + [t], order[1..], load, ip, dest[t := c0.slots[t]], taken,
            inplace + {c0.slots[t]});
    }
  }

  // ---- one block at a time ------------------------------------------------

  lemma EnterReserved(s: System, core: Core, id: nat, op: Op)
    requires id !in s.ops && Reserved(s.(core := core)) && Tokens(op) !! core.pending
    ensures Reserved(Enter(s, core, id, op))
  {
    var s' := Enter(s, core, id, op);
    forall t | t in s'.core.pending ensures exists j :: j in s'.ops && t in Tokens(s'.ops[j]) {
      if t in Tokens(op) {
        assert t in Tokens(s'.ops[id]);
      } else {
        var j :| j in s.ops && t in Tokens(s.ops[j]);
        assert s'.ops[j] == s.ops[j];
      }
    }
  }

  lemma EnterPartitioned(s: System, core: Core, id: nat, op: Op)
    requires id !in s.ops && Partitioned(s.(core := core)) && Claim(op) == {}
    ensures Partitioned(Enter(s, core, id, op))
  {
    var c := Reserve(core, op);
    var ops := s.ops[id := op];
    assert Placed(c, s.base);
    assert Separate(c, s.base, ops) by {
      forall i | i in ops ensures Claim(ops[i]) == if i == id then {} else Claim(s.ops[i]) {}
    }
    forall x | Claimed(s.ops, x) ensures Claimed(ops, x) {
      var j :| j in s.ops && x in Claim(s.ops[j]);
      assert ops[j] == s.ops[j];
    }
  }

  /** Soundness looks only at the mapping and the allocator. */
  lemma SoundFrame(c: Core, c': Core, base: nat, op: Op)
    requires Sound(c, base, op)
    requires c'.slots == c.slots && c'.shared == c.shared && c'.floor == c.floor
    requires c.next <= c'.next && c'.vacated <= c.vacated
    requires forall x :: x in c'.unused ==> x in c.unused || c.next <= x
    requires c'.closed == c.closed && c'.generation == c.generation
    ensures Sound(c', base, op)
  {}

  lemma EnterSound(s: System, core: Core, id: nat, op: Op)
    requires id !in s.ops && AllSound(s.(core := core)) && Sound(core, s.base, op)
    ensures AllSound(Enter(s, core, id, op))
  {
    var s' := Enter(s, core, id, op);
    forall j | j in s'.ops ensures Sound(s'.core, s.base, s'.ops[j]) == true {
      if j != id { assert Sound(core, s.base, s.ops[j]); }
      SoundFrame(core, s'.core, s.base, s'.ops[j]);
    }
  }

  /** A new call conflicts with nothing outstanding. */
  ghost predicate Compatible(ops: map<nat, Op>, op: Op) {
    && Uses(op, Read) !! Uses(op, Write)
    && (forall j :: j in ops ==>
          Uses(op, Read) !! Uses(ops[j], Write) && Uses(ops[j], Read) !! Uses(op, Write)
          && (Active(op) && Active(ops[j]) ==> Uses(op, Write) !! Uses(ops[j], Write)))
  }

  lemma EnterExclusive(s: System, core: Core, id: nat, op: Op)
    requires id !in s.ops && Exclusive(s) && Compatible(s.ops, op)
    ensures Exclusive(Enter(s, core, id, op))
  {
    var ops := s.ops[id := op];
    forall i, j | i in ops && j in ops ensures Uses(ops[i], Read) !! Uses(ops[j], Write) {
    }
    forall i, j | i in ops && j in ops && i != j && Active(ops[i]) && Active(ops[j])
      ensures Uses(ops[i], Write) !! Uses(ops[j], Write) {
    }
  }

  /** Adding a call keeps the invariant if its slots and tokens are free. */
  lemma EnterKeeps(s: System, core: Core, id: nat, op: Op)
    requires id !in s.ops && Inv(s.(core := core))
    requires Tokens(op) !! core.pending && Sound(core, s.base, op) && Claim(op) == {}
    requires Compatible(s.ops, op)
    ensures Inv(Enter(s, core, id, op))
  {
    EnterCounts(s, core, id, op);
    EnterReserved(s, core, id, op);
    EnterPartitioned(s, core, id, op);
    EnterSound(s, core, id, op);
    EnterExclusive(s, core, id, op);
  }

  lemma LeaveReserved(s: System, id: nat)
    requires Reserved(s) && id in s.ops
    ensures Reserved(Leave(s, id))
  {
    var s' := Leave(s, id);
    forall t | t in s'.core.pending ensures exists j :: j in s'.ops && t in Tokens(s'.ops[j]) {
      var j :| j in s.ops && t in Tokens(s.ops[j]);
      assert j in s'.ops;
    }
  }

  lemma LeavePartitioned(s: System, id: nat)
    requires Partitioned(s) && id in s.ops && Claim(s.ops[id]) == {}
    ensures Partitioned(Leave(s, id))
  {
    var s' := Leave(s, id);
    forall x | s.base <= x < s.core.next && Claimed(s.ops, x) ensures Claimed(s'.ops, x) {
      var j :| j in s.ops && x in Claim(s.ops[j]);
      assert j in s'.ops;
    }
  }

  lemma LeaveSound(s: System, id: nat)
    requires AllSound(s) && id in s.ops
    ensures AllSound(Leave(s, id))
  {
    var s' := Leave(s, id);
    forall j | j in s'.ops ensures Sound(s'.core, s.base, s'.ops[j]) == true {
      SoundOp(s, j);
      SoundFrame(s.core, s'.core, s.base, s.ops[j]);
    }
  }

  /** A call that no longer claims slots can leave at any time. */
  lemma LeaveKeeps(s: System, id: nat)
    requires Inv(s) && id in s.ops && Claim(s.ops[id]) == {}
    ensures Inv(Leave(s, id))
  {
    LeaveCounts(s, id);
    LeaveReserved(s, id);
    LeavePartitioned(s, id);
    LeaveSound(s, id);
  }

  lemma PinKeeps(s: System, id: nat, slots: set<nat>)
    requires Inv(s) && id !in s.ops && CanPin(s.core, slots)
    ensures Inv(Enter(s, s.core, id, Pin(slots)))
  {
    forall j, x | j in s.ops && x in slots ensures x !in Uses(s.ops[j], Write) {
      ZeroMeansUnused(s, Write, x, j);
    }
    assert s.(core := s.core) == s;
    EnterKeeps(s, s.core, id, Pin(slots));
  }

  lemma GuardKeeps(s: System, id: nat, required: set<nat>, optional: set<nat>)
    requires Inv(s) && id !in s.ops && CanGuard(s.core, required) && OwnedByCaller(s.core, required + optional)
    ensures Inv(Enter(s, s.core, id, Guard(required + Available(s.core, optional), s.core.generation)))
  {
    var guarded := required + Available(s.core, optional);
    forall j, x | j in s.ops && x in guarded ensures x !in Uses(s.ops[j], Write) && x !in Uses(s.ops[j], Read) {
      IdleSlot(s, x);
      UnpinnedSlot(s, x);
    }
    assert s.(core := s.core) == s;
    EnterKeeps(s, s.core, id, Guard(guarded, s.core.generation));
  }

  /** A full arena only moves slots into `_unused`. */
  lemma RefillKeeps(s: System, core: Core)
    requires Inv(s)
    requires core == s.core.(unused := core.unused, next := core.next) && s.core.next <= core.next
    requires s.core.maxSlots.Some? ==> core.next <= s.core.maxSlots.value
    requires forall x :: x in core.unused <==> x in s.core.unused || s.core.next <= x < core.next
    ensures Inv(s.(core := core))
  {
    SameCounts(s, core);
    var s' := s.(core := core);
    assert Reserved(s');
    assert Partitioned(s') by {
      forall x | s.base <= x < core.next
        ensures x in core.slots.Values || x in core.vacated || x in core.unused || Claimed(s.ops, x) {
      }
    }
    forall j | j in s'.ops ensures Sound(s'.core, s.base, s'.ops[j]) == true {
      SoundOp(s, j);
      SoundFrame(s.core, core, s.base, s.ops[j]);
    }
  }

  // ---- promotion ----------------------------------------------------------

  lemma PromotionSound(c: Core, c': Core, base: nat, order: seq<nat>, dest: map<nat, nat>, taken: set<nat>,
                       inplace: set<nat>)
    requires Placed(c, base) && (forall t :: t in order ==> t in c.slots)
    requires Chosen(c, c', order, dest, taken, inplace) && Overwritable(c, inplace)
    ensures Sound(c', base, Promotion(SourceOf(c, order), dest, taken, c.generation, Writing))
  {
    var source := SourceOf(c, order);
    assert source.Keys == dest.Keys;
    forall x | x in dest.Values ensures x < c'.next && x !in c'.shared {
      var t :| t in dest && dest[t] == x;
      if x !in taken { assert c.slots[t] in c.slots.Values; }
    }
    forall x | x in source.Values ensures x < c'.next {
      var t :| t in source && source[t] == x;
      assert c.slots[t] in c.slots.Values;
    }
  }

  /** What `Chosen` says about the allocator alone. */
  ghost predicate Drawn(c: Core, c': Core, taken: set<nat>) {
    && c' == c.(unused := c'.unused, next := c'.next) && c'.unused <= c.unused && c.next <= c'.next
    && (c.maxSlots.Some? ==> c'.next <= c.maxSlots.value)
    && (forall x :: x in taken <==> (x in c.unused && x !in c'.unused) || c.next <= x < c'.next)
  }

  /** Replacing one call only changes that call's claim. */
  lemma ClaimsAfter(ops: map<nat, Op>, id: nat, op: Op)
    ensures forall i :: i in ops[id := op] ==> Claim(ops[id := op][i]) == if i == id then Claim(op) else Claim(ops[i])
    ensures forall x :: Claimed(ops[id := op], x) <==> x in Claim(op) || exists i ::
              i in ops && i != id
              && x in Claim(ops[i])
  {
    var ops' := ops[id := op];
    forall x
      ensures Claimed(ops', x) <==> x in Claim(op) || exists i :: i in ops && i != id && x in Claim(ops[i])
    {
      if x in Claim(op) { assert x in Claim(ops'[id]); }
      if i :| i in ops && i != id && x in Claim(ops[i]) { assert x in Claim(ops'[i]); }
    }
  }

  lemma PromotionPartitioned(s: System, c': Core, id: nat, op: Op)
    requires Partitioned(s) && id !in s.ops
    requires op.Promotion? && op.phase.Writing? && Drawn(s.core, c', op.taken)
    ensures Partitioned(Enter(s, c', id, op))
  {
    var c := s.core;
    var ops := s.ops[id := op];
    assert Claim(op) == op.taken;
    ClaimsAfter(s.ops, id, op);
    forall x | s.base <= x < c'.next
      ensures x in c'.slots.Values || x in c'.vacated || x in c'.unused || Claimed(ops, x)
    {
      if x !in op.taken {
        assert x < c.next;
        assert x in c.slots.Values || x in c.vacated || x in c.unused || Claimed(s.ops, x);
        if Claimed(s.ops, x) {
          var j :| j in s.ops && x in Claim(s.ops[j]);
          assert j != id;
        }
      }
    }
    assert Placed(c', s.base);
    assert Separate(c', s.base, ops) by {
      assert forall i, x :: i in s.ops && x in Claim(s.ops[i]) ==> x !in op.taken;
    }
    assert Covered(c', s.base, ops);
    var r := Reserve(c', op);
    assert Placed(r, s.base) && Separate(r, s.base, ops) && Covered(r, s.base, ops);
  }

  lemma PromotionCompatible(s: System, c': Core, op: Op, inplace: set<nat>)
    requires Counted(s) && AllSound(s) && Placed(s.core, s.base) && Separate(s.core, s.base, s.ops)
    requires op.Promotion? && Drawn(s.core, c', op.taken) && Overwritable(s.core, inplace)
    requires op.dest.Values <= op.taken + inplace
    ensures Compatible(s.ops, op)
  {
    forall j, x | j in s.ops && x in op.dest.Values
      ensures x !in Uses(s.ops[j], Read) && (Active(s.ops[j]) ==> x !in Uses(s.ops[j], Write))
    {
      if x in op.taken {
        FreshUntouched(s, j, x);
      } else {
        IdleSlot(s, x);
        UnpinnedSlot(s, x);
      }
    }
  }

  /** A slot that is unused or not yet issued carries no pin and no running write. */
  lemma FreshUntouched(s: System, j: nat, x: nat)
    requires AllSound(s) && Placed(s.core, s.base) && Separate(s.core, s.base, s.ops) && j in s.ops
    requires x in s.core.unused || s.core.next <= x
    ensures x !in Uses(s.ops[j], Read) && (Active(s.ops[j]) ==> x !in Uses(s.ops[j], Write))
  {
    var op := s.ops[j];
    assert Sound(s.core, s.base, op);
    if op.Promotion? && op.phase.Writing? {
      assert op.taken == Claim(op);
      forall t | t in op.dest ensures op.dest[t] != x {
        if op.dest[t] !in op.taken { assert op.dest[t] in s.core.slots.Values; }
      }
    }
  }

  /** Without in-place overwriting every destination is a slot that carried no token. */
  lemma {:induction false} AssignMoves(c: Core, order: seq<nat>, load: bool, dest: map<nat, nat>, taken: set<nat>)
    requires forall t :: t in order ==> t in c.slots
    requires forall x :: x in c.slots.Values ==> x < c.next && x !in c.unused
    requires forall t :: t in dest ==> dest[t] !in c.slots.Values
    ensures var a := Assign(c, order, load, false, dest, taken);
            a.ok ==> forall t :: t in a.dest ==> a.dest[t] !in c.slots.Values
    decreases |order|
  {
    if order == [] {
    } else if Fresh(c).Some? {
      var p := Fresh(c).value;
      assert p.0 in c.unused || p.0 == c.next;
      var taken' := if p.0 != c.slots[order[0]] then taken + {p.0} else taken;
      AssignMoves(p.1, order[1..], load, dest[order[0] := p.0], taken');
      assert p.1.slots == c.slots;
      assert Assign(c, order, load, false, dest, taken)
          == Assign(p.1, order[1..], load, false, dest[order[0] := p.0], taken');
    }
  }

  lemma AssignFromStart(c: Core, base: nat, order: seq<nat>, load: bool, inplace: bool) returns (ip: set<nat>)
    requires Placed(c, base) && Distinct(order) && forall t :: t in order ==> t in c.slots
    ensures Outcome(c, Assign(c, order, load, inplace, map[], {}), order, ip)
  {
    assert [] + order == order;
    assert Chosen(c, c, [], map[], {}, {});
    ip := AssignChooses(c, c, [], order, load, inplace, map[], {}, {});
  }

  lemma PromoteKeeps(s: System, e: Event)
    requires Inv(s) && e.PromoteBegin? && Fits(s, e) && MayPromote(s.core, e.order, e.load)
    ensures Inv(BeginPromotion(s, e))
  {
    var a := Assign(s.core, e.order, e.load.LoadPending?, e.inplace, map[], {});
    var ip := AssignFromStart(s.core, s.base, e.order, e.load.LoadPending?, e.inplace);
    if a.ok {
      PromotionBegins(s, e, a, ip);
    } else {
      RefillKeeps(s, a.core);
    }
  }

  lemma PromotionBegins(s: System, e: Event, a: Assignment, ip: set<nat>)
    requires Inv(s) && e.PromoteBegin? && Fits(s, e) && MayPromote(s.core, e.order, e.load)
    requires a == Assign(s.core, e.order, e.load.LoadPending?, e.inplace, map[], {}) && a.ok
    requires Chosen(s.core, a.core, e.order, a.dest, a.taken, ip) && Overwritable(s.core, ip)
    ensures Inv(BeginPromotion(s, e))
  {
    var op := Promotion(SourceOf(s.core, e.order), a.dest, a.taken, s.core.generation, Writing);
    var s1 := Enter(s, a.core, e.id, op);
    ChosenDraws(s.core, a.core, e.order, a.dest, a.taken, ip);
    PromotionSound(s.core, a.core, s.base, e.order, a.dest, a.taken, ip);
    PromotionEnters(s, a.core, e.id, op, ip);
    if e.load.LoadPending? {
      LoadingEnters(s1, e.id, e.loadId);
    }
  }

  lemma ChosenDraws(c: Core, c': Core, order: seq<nat>, dest: map<nat, nat>, taken: set<nat>, inplace: set<nat>)
    requires Chosen(c, c', order, dest, taken, inplace)
    ensures Drawn(c, c', taken) && dest.Values <= taken + inplace
    ensures dest.Keys == set t | t in order
  {}

  lemma PromotionEnters(s: System, c': Core, id: nat, op: Op, inplace: set<nat>)
    requires Inv(s) && id !in s.ops && op.Promotion? && op.phase.Writing?
    requires Drawn(s.core, c', op.taken) && Overwritable(s.core, inplace) && op.dest.Values <= op.taken + inplace
    requires Sound(c', s.base, op) && op.source.Keys !! s.core.pending
    ensures Inv(Enter(s, c', id, op))
  {
    SameCounts(s, c');
    EnterCounts(s, c', id, op);
    EnterReserved(s, c', id, op);
    PromotionPartitioned(s, c', id, op);
    forall j | j in s.ops ensures Sound(c', s.base, s.ops[j]) == true {
      SoundOp(s, j);
      SoundFrame(s.core, c', s.base, s.ops[j]);
    }
    EnterSound(s, c', id, op);
    PromotionCompatible(s, c', op, inplace);
    EnterExclusive(s, c', id, op);
  }

  lemma LoadingEnters(s: System, id: nat, loadId: nat)
    requires Inv(s) && id in s.ops && s.ops[id].Promotion? && loadId !in s.ops
    ensures Inv(Enter(s, s.core, loadId, Loading(s.ops[id].source.Values)))
  {
    SoundOp(s, id);
    assert s.(core := s.core) == s;
    EnterKeeps(s, s.core, loadId, Loading(s.ops[id].source.Values));
  }

  /** A pending token belongs to one call only, so nobody else has moved it:
      a finishing promotion never finds its source mapping changed. */
  lemma SourceUnmoved(s: System, id: nat)
    requires Inv(s) && id in s.ops && s.ops[id].Promotion? && s.ops[id].phase.Writing?
    ensures forall t :: t in s.ops[id].source ==> t in s.core.slots && s.core.slots[t] == s.ops[id].source[t]
    ensures Publishable(s.core, s.ops[id]) <==> !s.core.closed
  {
    SoundOp(s, id);
  }

  /** Which slots are mapped after a publication. */
  lemma PublishValues(c: Core, base: nat, op: Op)
    requires op.Promotion? && op.phase.Writing? && Sound(c, base, op)
    ensures var now := Publish(c, op).slots.Values;
            && (forall x :: x in now ==> x in c.slots.Values || x in op.taken)
            && (forall x :: x in op.source.Values ==> x in c.slots.Values)
            && (forall x :: x in op.taken ==> x in now)
            && (forall x :: x in c.slots.Values && x !in now ==> x in op.source.Values)
  {
    var slots := Publish(c, op).slots;
    forall x | x in slots.Values ensures x in c.slots.Values || x in op.taken {
      var t :| t in slots && slots[t] == x;
      if t in op.dest && x !in op.taken { assert c.slots[t] == x; }
    }
    forall x | x in op.source.Values ensures x in c.slots.Values {
      var t :| t in op.source && op.source[t] == x;
      assert c.slots[t] == x;
    }
    forall x | x in op.taken ensures x in slots.Values {
      assert x in op.dest.Values;
      var t :| t in op.dest && op.dest[t] == x;
      assert slots[t] == x;
    }
    forall x | x in c.slots.Values && x !in slots.Values ensures x in op.source.Values {
      var t :| t in c.slots && c.slots[t] == x;
      assert t in slots && slots[t] != x;
      assert t in op.dest && op.source[t] == x;
    }
  }

  lemma PublishPartitioned(s: System, id: nat)
    requires Partitioned(s) && id in s.ops && s.ops[id].Promotion? && s.ops[id].phase.Writing?
    requires Sound(s.core, s.base, s.ops[id])
    ensures Partitioned(s.(core := Publish(s.core, s.ops[id]), ops := s.ops[id := s.ops[id].(phase := Published)]))
  {
    var c, op := s.core, s.ops[id];
    var c' := Publish(c, op);
    var ops := s.ops[id := op.(phase := Published)];
    PublishValues(c, s.base, op);
    ClaimsAfter(s.ops, id, op.(phase := Published));
    assert op.taken == Claim(op);
    assert Placed(c', s.base);
    assert Separate(c', s.base, ops) by {
      forall i, x | i in ops && x in Claim(ops[i])
        ensures s.base <= x < c'.next && x !in c'.slots.Values && x !in c'.vacated && x !in c'.unused
      {
        assert i in s.ops && i != id && x in Claim(s.ops[i]);
        assert Claim(s.ops[i]) !! Claim(op);
      }
    }
    forall x | s.base <= x < c'.next
      ensures x in c'.slots.Values || x in c'.vacated || x in c'.unused || Claimed(ops, x)
    {
      if Claimed(s.ops, x) && x !in op.taken {
        var j :| j in s.ops && x in Claim(s.ops[j]);
        assert j != id;
      }
    }
  }

  /** Publication moves only the promotion's own tokens and slots. */
  lemma OtherSound(c: Core, base: nat, op: Op, other: Op)
    requires op.Promotion? && op.phase.Writing? && Sound(c, base, op) && Sound(c, base, other)
    requires c.floor <= base && Tokens(op) !! Tokens(other)
    requires forall x :: x in op.taken ==> base <= x
    ensures Sound(Publish(c, op), base, other)
  {
    PublishValues(c, base, op);
    match other
    case Promotion(source, dest, taken, gen, phase) =>
      assert forall t :: t in source ==> t !in op.dest;
    case Decode(token, chosen, native, gen, step) =>
      assert token in Tokens(other);
    case _ =>
  }

  lemma PublishSound(c: Core, base: nat, ops: map<nat, Op>, id: nat, j: nat)
    requires c.floor <= base && Separate(c, base, ops) && OneOwner(ops)
    requires id in ops && j in ops && j != id && Sound(c, base, ops[id]) && Sound(c, base, ops[j])
    requires ops[id].Promotion? && ops[id].phase.Writing?
    ensures Sound(Publish(c, ops[id]), base, ops[j])
  {
    forall x | x in ops[id].taken ensures base <= x {
      assert x in Claim(ops[id]);
    }
    OtherSound(c, base, ops[id], ops[j]);
  }

  lemma PublishAllSound(s: System, id: nat, op: Op)
    requires AllSound(s) && OneOwner(s.ops) && s.core.floor <= s.base && Separate(s.core, s.base, s.ops)
    requires id in s.ops && s.ops[id].Promotion? && s.ops[id].phase.Writing? && op == s.ops[id].(phase := Published)
    ensures AllSound(s.(core := Publish(s.core, s.ops[id]), ops := s.ops[id := op]))
  {
    var ops := s.ops[id := op];
    forall j | j in ops ensures Sound(Publish(s.core, s.ops[id]), s.base, ops[j]) == true {
      SoundOp(s, j);
      SoundOp(s, id);
      if j != id { PublishSound(s.core, s.base, s.ops, id, j); }
    }
  }

  lemma PublishKeeps(s: System, id: nat)
    requires Inv(s) && id in s.ops && s.ops[id].Promotion? && s.ops[id].phase.Writing?
    ensures Inv(s.(core := Publish(s.core, s.ops[id]), ops := s.ops[id := s.ops[id].(phase := Published)]))
  {
    var op := s.ops[id].(phase := Published);
    var core := Publish(s.core, s.ops[id]);
    PhaseCounts(s, core, id, op);
    PhaseReserved(s, core, id, op);
    PhaseExclusive(s, core, id, op);
    SoundOp(s, id);
    PublishPartitioned(s, id);
    PublishAllSound(s, id, op);
  }

  lemma PhaseReserved(s: System, core: Core, id: nat, op: Op)
    requires Reserved(s) == true && id in s.ops && Tokens(op) == Tokens(s.ops[id]) && core.pending == s.core.pending
    ensures Reserved(s.(core := core, ops := s.ops[id := op]))
  {
    var ops := s.ops[id := op];
    forall t | t in core.pending ensures exists j :: j in ops && t in Tokens(ops[j]) {
      var j :| j in s.ops && t in Tokens(s.ops[j]);
      assert t in Tokens(ops[j]);
    }
  }

  lemma PhaseExclusive(s: System, core: Core, id: nat, op: Op)
    requires Exclusive(s) == true && id in s.ops && !Active(op)
    requires forall u: Use :: Uses(op, u) == Uses(s.ops[id], u)
    ensures Exclusive(s.(core := core, ops := s.ops[id := op]))
  {
    var ops := s.ops[id := op];
    forall j | j in ops
      ensures Uses(ops[j], Read) == Uses(s.ops[j], Read) && Uses(ops[j], Write) == Uses(s.ops[j], Write)
    {
      if j == id { assert Uses(op, Read) == Uses(s.ops[id], Read) && Uses(op, Write) == Uses(s.ops[id], Write); }
    }
  }

  lemma AbortPartitioned(s: System, id: nat)
    requires Partitioned(s) == true && id in s.ops && s.ops[id].Promotion? && s.ops[id].phase.Writing?
    ensures Partitioned(s.(core := s.core.(unused := s.core.unused + s.ops[id].taken),
                           ops := s.ops[id := s.ops[id].(phase := Failed)]))
  {
    var op := s.ops[id];
    var c' := s.core.(unused := s.core.unused + op.taken);
    var ops := s.ops[id := op.(phase := Failed)];
    assert Claim(op) == op.taken;
    ClaimsAfter(s.ops, id, op.(phase := Failed));
    assert Separate(c', s.base, ops) by {
      forall i, x | i in ops && x in Claim(ops[i]) ensures x !in c'.unused {
        assert i in s.ops && i != id && x in Claim(s.ops[i]);
        assert Claim(s.ops[i]) !! Claim(op);
      }
    }
    forall x | s.base <= x < c'.next
      ensures x in c'.slots.Values || x in c'.vacated || x in c'.unused || Claimed(ops, x)
    {
      if Claimed(s.ops, x) && x !in op.taken {
        var j :| j in s.ops && x in Claim(s.ops[j]);
        assert j != id;
      }
    }
  }

  lemma PhaseUses(c: Core, c': Core, op: Op, phase: Phase)
    requires op.Promotion? && c' == c.(unused := c'.unused)
    ensures forall u: Use :: Uses(op.(phase := phase), u) == Uses(op, u) && Tally(c', u) == Tally(c, u)
  {}

  lemma AbortKeeps(s: System, id: nat)
    requires Inv(s) == true && id in s.ops && s.ops[id].Promotion? && s.ops[id].phase.Writing?
    ensures Inv(s.(core := s.core.(unused := s.core.unused + s.ops[id].taken),
                   ops := s.ops[id := s.ops[id].(phase := Failed)]))
  {
    var op := s.ops[id];
    var c' := s.core.(unused := s.core.unused + op.taken);
    var ops := s.ops[id := op.(phase := Failed)];
    PhaseUses(s.core, c', op, Failed);
    PhaseCounts(s, c', id, op.(phase := Failed));
    PhaseReserved(s, c', id, op.(phase := Failed));
    PhaseExclusive(s, c', id, op.(phase := Failed));
    AbortPartitioned(s, id);
    AbortAllSound(s, id);
  }

  lemma AbortAllSound(s: System, id: nat)
    requires Inv(s) == true && id in s.ops && s.ops[id].Promotion? && s.ops[id].phase.Writing?
    ensures AllSound(s.(core := s.core.(unused := s.core.unused + s.ops[id].taken),
                        ops := s.ops[id := s.ops[id].(phase := Failed)]))
  {
    var c' := s.core.(unused := s.core.unused + s.ops[id].taken);
    var ops := s.ops[id := s.ops[id].(phase := Failed)];
    forall j | j in ops ensures Sound(c', s.base, ops[j]) == true {
      AbortSound(s, id, j);
    }
  }

  /** Slots given back were claimed, so no pin or guard is on them. */
  lemma AbortSound(s: System, id: nat, j: nat)
    requires Inv(s) && id in s.ops && s.ops[id].Promotion? && s.ops[id].phase.Writing? && j in s.ops
    ensures var op := s.ops[id];
            Sound(s.core.(unused := s.core.unused + op.taken), s.base,
                  if j == id then op.(phase := Failed) else s.ops[j])
  {
    var op := s.ops[id];
    assert Sound(s.core, s.base, op) && Sound(s.core, s.base, s.ops[j]);
    assert op.taken <= Uses(op, Write);
    assert Uses(s.ops[j], Read) !! Uses(op, Write);
    if j != id && Active(s.ops[j]) {
      assert Uses(s.ops[j], Write) !! Uses(op, Write);
    }
  }

  // ---- decode ---------------------------------------------------------------

  /** Binding a new token to a slot that was a hole, native, or drawn from the arena. */
  function Bind(c: Core, token: nat, slot: nat): Core {
    c.(slots := c.slots[token := slot], vacated := c.vacated - {slot})
  }

  lemma BindValues(c: Core, token: nat, slot: nat)
    requires token !in c.slots
    ensures forall x :: x in Bind(c, token, slot).slots.Values <==> x in c.slots.Values || x == slot
  {
    var slots := c.slots[token := slot];
    forall x ensures x in slots.Values <==> x in c.slots.Values || x == slot {
      if x in c.slots.Values {
        var t :| t in c.slots && c.slots[t] == x;
        assert slots[t] == x;
      }
      if x == slot { assert slots[token] == x; }
    }
  }

  lemma BindPartitioned(c: Core, base: nat, ops: map<nat, Op>, token: nat, slot: nat)
    requires Placed(c, base) && Separate(c, base, ops) && Covered(c, base, ops) && token !in c.slots
    requires slot < c.next && slot !in c.unused && forall i :: i in ops ==> slot !in Claim(ops[i])
    ensures Placed(Bind(c, token, slot), base) && Separate(Bind(c, token, slot), base, ops)
    ensures Covered(Bind(c, token, slot), base, ops)
  {
    BindValues(c, token, slot);
    forall i, x | i in ops && x in Claim(ops[i]) ensures x !in Bind(c, token, slot).slots.Values {
      assert slot !in Claim(ops[i]);
    }
  }

  lemma BindSound(c: Core, base: nat, token: nat, slot: nat, op: Op)
    requires Sound(c, base, op) && token !in c.slots && token !in Tokens(op)
    requires op.Decode? && op.step.Writing? ==> slot != op.chosen && slot != op.native
    ensures Sound(Bind(c, token, slot), base, op)
  {
    BindValues(c, token, slot);
    if op.Decode? { assert op.token in Tokens(op); }
  }

  lemma BindKeeps(s: System, token: nat, slot: nat)
    requires Inv(s) && NewToken(s.core, token) && slot < s.core.next && slot !in s.core.unused
    requires At(s.core.inflight, slot) == 0
    ensures Inv(s.(core := Bind(s.core, token, slot)))
  {
    IdleSlot(s, slot);
    SameCounts(s, Bind(s.core, token, slot));
    IdleUnclaimed(s, slot);
    BindPartitioned(s.core, s.base, s.ops, token, slot);
    forall j | j in s.ops ensures Sound(Bind(s.core, token, slot), s.base, s.ops[j]) == true {
      SoundOp(s, j);
      assert slot !in Uses(s.ops[j], Write);
      BindSound(s.core, s.base, token, slot, s.ops[j]);
    }
  }

  lemma IdleUnclaimed(s: System, slot: nat)
    requires AllSound(s) && forall j :: j in s.ops ==> slot !in Uses(s.ops[j], Write)
    ensures forall j :: j in s.ops ==> slot !in Claim(s.ops[j])
  {
    forall j | j in s.ops ensures slot !in Claim(s.ops[j]) {
      SoundOp(s, j);
    }
  }

  lemma BindFreshKeeps(s: System, token: nat, p: (nat, Core))
    requires Inv(s) && NewToken(s.core, token) && Fresh(s.core) == Some(p)
    ensures Inv(s.(core := p.1.(slots := s.core.slots[token := p.0])))
  {
    var c := s.core;
    var c' := p.1.(slots := c.slots[token := p.0]);
    assert p.0 in c.unused || p.0 == c.next;
    BindValues(c, token, p.0);
    SameCounts(s, c');
    assert Placed(c', s.base);
    assert Separate(c', s.base, s.ops);
    assert Covered(c', s.base, s.ops);
    forall j | j in s.ops ensures Sound(c', s.base, s.ops[j]) == true {
      assert Sound(c, s.base, s.ops[j]);
      assert Tokens(s.ops[j]) <= c.pending;
      BindSound(c, s.base, token, p.0, s.ops[j]);
      BoundFrame(c, p.1, s.base, token, p.0, s.ops[j]);
    }
  }

  lemma BoundFrame(c: Core, c1: Core, base: nat, token: nat, slot: nat, op: Op)
    requires Sound(Bind(c, token, slot), base, op) && c1 == c.(unused := c1.unused, next := c1.next)
    requires c.next <= c1.next && c1.unused <= c.unused && slot !in c.vacated
    ensures Sound(c1.(slots := c.slots[token := slot]), base, op)
  {
    SoundFrame(Bind(c, token, slot), c1.(slots := c.slots[token := slot]), base, op);
  }

  /** A chosen destination is unmapped, unguarded, exclusive and native. */
  lemma DestinationFree(c: Core, token: nat, native: nat, reuse: bool)
    requires Destination(c, token, native, reuse).Ok?
    ensures var slot := Destination(c, token, native, reuse).value;
            Free(c, slot) && slot < c.floor && Free(c, native) && native < c.floor
            && NewToken(c, token) && !c.closed
            && (slot == native || (slot in c.vacated && reuse))
  {}

  lemma DecodeEnterKeeps(s: System, id: nat, token: nat, native: nat, reuse: bool)
    requires Inv(s) && id !in s.ops && Destination(s.core, token, native, reuse).Ok?
    ensures var slot := Destination(s.core, token, native, reuse).value;
            Inv(Enter(s, s.core.(vacated := s.core.vacated - {slot}), id,
                      Decode(token, slot, native, s.core.generation, Writing)))
  {
    DestinationFree(s.core, token, native, reuse);
    var slot := Destination(s.core, token, native, reuse).value;
    var core := s.core.(vacated := s.core.vacated - {slot});
    var op := Decode(token, slot, native, s.core.generation, Writing);
    UnvacateKeeps(s, slot);
    FreePairCompatible(s, slot, native, op);
    assert Sound(core, s.base, op);
    EnterKeeps(s, core, id, op);
  }

  lemma FreePairCompatible(s: System, slot: nat, native: nat, op: Op)
    requires Counted(s) && Free(s.core, slot) && Free(s.core, native)
    requires op.Decode? && op.chosen == slot && op.native == native
    ensures Compatible(s.ops, op)
  {
    IdleSlot(s, slot);
    IdleSlot(s, native);
    UnpinnedSlot(s, slot);
    UnpinnedSlot(s, native);
  }

  /** Native slots are never issued by the map, so forgetting a native hole loses nothing. */
  lemma UnvacateKeeps(s: System, slot: nat)
    requires Inv(s) && slot < s.core.floor
    ensures Inv(s.(core := s.core.(vacated := s.core.vacated - {slot})))
  {
    var core := s.core.(vacated := s.core.vacated - {slot});
    SameCounts(s, core);
    assert Placed(core, s.base) && Separate(core, s.base, s.ops) && Covered(core, s.base, s.ops);
    forall j | j in s.ops ensures Sound(core, s.base, s.ops[j]) == true {
      SoundOp(s, j);
      SoundFrame(s.core, core, s.base, s.ops[j]);
    }
  }

  lemma DecodePublishKeeps(s: System, id: nat)
    requires Inv(s) && id in s.ops && s.ops[id].Decode? && s.ops[id].step.Writing?
    ensures var op := s.ops[id];
            Inv(s.(core := s.core.(slots := s.core.slots[op.token := op.chosen]),
                    ops := s.ops[id := op.(step := Published)]))
  {
    var op := s.ops[id];
    var op' := op.(step := Published);
    var core := s.core.(slots := s.core.slots[op.token := op.chosen]);
    assert Sound(s.core, s.base, op);
    assert core == Bind(s.core, op.token, op.chosen);
    PhaseCounts(s, core, id, op');
    PhaseReserved(s, core, id, op');
    PhaseExclusive(s, core, id, op');
    DecodePublishPartitioned(s, id, op');
    assert op.token in Tokens(op);
    forall j | j in s.ops && j != id ensures Sound(core, s.base, s.ops[j]) == true {
      SoundOp(s, j);
      assert Tokens(op) !! Tokens(s.ops[j]);
      assert Active(s.ops[j]) ==> Uses(op, Write) !! Uses(s.ops[j], Write);
      BindSound(s.core, s.base, op.token, op.chosen, s.ops[j]);
    }
    assert Sound(core, s.base, op');
  }

  lemma DecodePublishPartitioned(s: System, id: nat, op': Op)
    requires Partitioned(s) && id in s.ops && s.ops[id].Decode? && s.ops[id].step.Writing?
    requires Sound(s.core, s.base, s.ops[id]) && op'.Decode?
    ensures Partitioned(s.(core := Bind(s.core, s.ops[id].token, s.ops[id].chosen), ops := s.ops[id := op']))
  {
    var op := s.ops[id];
    forall i | i in s.ops ensures op.chosen !in Claim(s.ops[i]) {
      assert Separate(s.core, s.base, s.ops) && Placed(s.core, s.base);
    }
    BindPartitioned(s.core, s.base, s.ops, op.token, op.chosen);
    SameClaims(Bind(s.core, op.token, op.chosen), s.base, s.ops, id, op');
  }

  lemma SameClaims(c: Core, base: nat, ops: map<nat, Op>, id: nat, op: Op)
    requires id in ops && Claim(op) == Claim(ops[id])
    requires Separate(c, base, ops) && Covered(c, base, ops)
    ensures Separate(c, base, ops[id := op]) && Covered(c, base, ops[id := op])
  {
    var ops' := ops[id := op];
    forall i | i in ops' ensures Claim(ops'[i]) == Claim(ops[i]) {}
    forall x | Claimed(ops, x) ensures Claimed(ops', x) {
      var i :| i in ops && x in Claim(ops[i]);
      assert x in Claim(ops'[i]);
    }
  }

  lemma RetireKeeps(s: System)
    requires Inv(s)
    ensures Inv(s.(core := Retire(s.core)))
  {
    var core := Retire(s.core);
    SameCounts(s, core);
    assert Placed(core, s.base) && Separate(core, s.base, s.ops) && Covered(core, s.base, s.ops);
    forall j | j in s.ops ensures Sound(core, s.base, s.ops[j]) == true {
      SoundOp(s, j);
    }
  }

  lemma DecodeAbortKeeps(s: System, id: nat)
    requires Inv(s) && id in s.ops && s.ops[id].Decode? && s.ops[id].step.Writing?
    ensures Inv(s.(ops := s.ops[id := s.ops[id].(step := Failed)]))
  {
    var op' := s.ops[id].(step := Failed);
    var ops := s.ops[id := op'];
    SoundOp(s, id);
    PhaseCounts(s, s.core, id, op');
    PhaseReserved(s, s.core, id, op');
    PhaseExclusive(s, s.core, id, op');
    SameClaims(s.core, s.base, s.ops, id, op');
    forall j | j in ops ensures Sound(s.core, s.base, ops[j]) == true {
      SoundOp(s, j);
    }
  }

  // ---- every event, every run -------------------------------------------------

  lemma AllocateKeeps(s: System, token: nat)
    requires Inv(s) && Fits(s, AllocateDecode(token)) && Apply(s, AllocateDecode(token)) != s
    ensures Inv(Apply(s, AllocateDecode(token)))
  {
    if Holes(s.core, None) != {} { BindKeeps(s, token, Least(Holes(s.core, None))); }
    else { BindFreshKeeps(s, token, Fresh(s.core).value); }
  }

  lemma BoundKeeps(s: System, token: nat, native: nat, reuse: bool)
    requires Inv(s) && Fits(s, BindDecode(token, native, reuse)) && Apply(s, BindDecode(token, native, reuse)) != s
    ensures Inv(Apply(s, BindDecode(token, native, reuse)))
  {
    DestinationFree(s.core, token, native, reuse);
    BindKeeps(s, token, Destination(s.core, token, native, reuse).value);
  }

  lemma AbortedKeeps(s: System, id: nat)
    requires Inv(s) && Fits(s, DecodeAbort(id)) && Apply(s, DecodeAbort(id)) != s
    ensures Inv(Apply(s, DecodeAbort(id)))
  {
    if s.core.closed {
      DecodeAbortKeeps(s, id);
    } else {
      RetireKeeps(s);
      DecodeAbortKeeps(s.(core := Retire(s.core)), id);
    }
  }

  lemma EventKeeps(s: System, e: Event)
    requires Inv(s)
    ensures Inv(Apply(s, e))
  {
    if Fits(s, e) && Apply(s, e) != s {
      match e
      case PinSlots(id, slots) => PinKeeps(s, id, slots);
      case PinTokens(id, tokens) => PinKeeps(s, id, SlotsOf(s.core, tokens));
      case GuardEnter(id, required, optional) => GuardKeeps(s, id, required, optional);
      case PromoteBegin(id, order, load, loadId, inplace) => PromoteKeeps(s, e);
      case PromotePublish(id) => PublishKeeps(s, id);
      case PromoteAbort(id) => AbortKeeps(s, id);
      case AllocateDecode(token) => AllocateKeeps(s, token);
      case BindDecode(token, native, reuse) => BoundKeeps(s, token, native, reuse);
      case DecodeEnter(id, token, native, reuse) => DecodeEnterKeeps(s, id, token, native, reuse);
      case DecodePublish(id) => DecodePublishKeeps(s, id);
      case DecodeAbort(id) => AbortedKeeps(s, id);
      case Invalidate => RetireKeeps(s);
      case _ => LeaveKeeps(s, e.id);
    }
  }

  lemma CreateEstablishes(slots: map<nat, nat>, shared: set<nat>, floor: nat, maxSlots: Option<nat>)
    requires Create(slots, shared, floor, maxSlots).Some?
    ensures Inv(Create(slots, shared, floor, maxSlots).value)
  {
    var s := Create(slots, shared, floor, maxSlots).value;
    forall u: Use, x: nat ensures At(Tally(s.core, u), x) == |Holders(s.ops, u, x)| {
      assert Holders(s.ops, u, x) == {};
    }
  }

  /** The invariant holds after every interleaving of any number of calls. */
  lemma {:induction false} RunKeeps(s: System, es: seq<Event>)
    requires Inv(s)
    ensures Inv(Run(s, es))
    decreases |es|
  {
    if es == [] {
    } else {
      EventKeeps(s, es[0]);
      RunKeeps(Apply(s, es[0]), es[1..]);
    }
  }
}
