/** The arena's calls as sequences of the machine's steps, and the states in
    between, written out. */
module PagedCalls {
  import opened Basics
  import opened Slide
  import opened Paged

  // ---- where a call leads the map ------------------------------------------------------

  lemma PlacedFacts(slots: map<nat, nat>, rows: map<nat, Row>)
    requires rows.Keys <= slots.Keys && Injective(slots)
    ensures Paged.Placed(slots, rows).Keys == Image(slots, rows.Keys)
    ensures forall t :: t in rows ==>
              slots[t] in Paged.Placed(slots, rows)
              && Paged.Placed(slots, rows)[slots[t]] == rows[t]
    ensures forall t :: t in slots && t !in rows ==> slots[t] !in Paged.Placed(slots, rows)
  {
    forall t | t in rows
      ensures slots[t] in Paged.Placed(slots, rows) && Paged.Placed(slots, rows)[slots[t]] == rows[t]
    {
      assert slots[t] in Image(slots, rows.Keys);
      var u := OwnerOf(slots, rows.Keys, slots[t]);
      assert u == t;
    }
  }

  lemma GuardEffect(s: System, id: nat, required: set<nat>, optional: set<nat>)
    ensures var s' := Apply(s, GuardEnter(id, required, optional));
            s' == s || (id !in s.ops && CanGuard(s.core, required)
                        && s' == Enter(s, s.core, id, Guard(required + Available(s.core, optional), s.core.generation)))
  {}

  lemma DecodeEffect(s: System, id: nat, token: nat, native: nat)
    ensures var s' := Apply(s, DecodeEnter(id, token, native, true));
            s' == s || (id !in s.ops && Destination(s.core, token, native, true).Ok?
                        && var slot := Destination(s.core, token, native, true).value;
                           s' == Enter(s, s.core.(vacated := s.core.vacated - {slot}), id,
                                       Decode(token, slot, native, s.core.generation, Writing)))
  {}

  /** The arena right after a decode entered. */
  ghost function Opened(p: Arena, id: nat, token: nat, slot: nat, native: nat, row: Row): Arena {
    p.(slide := Enter(p.slide, p.slide.core.(vacated := p.slide.core.vacated - {slot}), id,
                      Decode(token, slot, native, p.slide.core.generation, Writing)),
       busy := Some(id), jobs := p.jobs[id := TokenJob(token, slot, native, row)])
  }

  /** The device writes of a decode. */
  function TokenJob(token: nat, slot: nat, native: nat, row: Row): Job {
    Job(Append, map[slot := row, native := row], map[token := row], false)
  }

  lemma PinEffect(s: System, id: nat, tokens: set<nat>)
    ensures var s' := Apply(s, PinTokens(id, tokens));
            s' == s || (id !in s.ops && tokens <= s.core.slots.Keys && CanPin(s.core, SlotsOf(s.core, tokens))
                        && s' == Enter(s, s.core, id, Pin(SlotsOf(s.core, tokens))))
  {}

  /** The arena right after a guarded write entered. */
  ghost function Begun(p: Arena, id: nat, guarded: set<nat>, job: Job): Arena {
    p.(slide := Enter(p.slide, p.slide.core, id, Guard(guarded, p.slide.core.generation)), busy := Some(id),
          jobs := p.jobs[id := job])
  }

  /** The arena once the call's device writes are complete. */
  ghost function Arrived(p: Arena, id: nat): Arena
    requires id in p.jobs && id in p.slide.ops
  {
    p.(mem := p.mem + p.jobs[id].plan, jobs := p.jobs[id := p.jobs[id].(landed := true)],
       logical := if p.slide.ops[id].Guard? then p.logical + p.jobs[id].assign else p.logical)
  }

  /** Taking up a decode either opens it into the chosen slots or changes nothing. */
  lemma AppendingOpens(p: Arena, id: nat, token: nat, native: nat, row: Row)
    requires NewCall(p, id) && CanonicalSlot(p.table, p.geo.blockSize, token) == Some(native)
    ensures var d := Destination(p.slide.core, token, native, true);
            Appending(p, id, token, row) == if d.Ok? then Opened(p, id, token, d.value, native, row) else p
  {
    DecodeEffect(p.slide, id, token, native);
    var s := Apply(p.slide, DecodeEnter(id, token, native, true));
    if Destination(p.slide.core, token, native, true).Ok? { assert id in s.ops && s != p.slide; }
  }

  // ---- positions with their rows ------------------------------------------------

  /** The plan sends row `i` to slot `i`. */
  ghost predicate Delivers(slots: seq<nat>, rows: seq<Row>, plan: map<nat, Row>) {
    && |slots| == |rows| && Distinct(slots)
    && (forall s :: s in plan <==> s in slots)
    && (forall i :: 0 <= i < |slots| ==> slots[i] in plan && plan[slots[i]] == rows[i])
  }

  function Elements(s: seq<nat>): (r: set<nat>)
    ensures forall x :: x in r <==> x in s
  {
    set x | x in s
  }

  function Zip(keys: seq<nat>, rows: seq<Row>): (m: map<nat, Row>)
    requires |keys| == |rows|
    ensures forall t :: t in m <==> t in keys
  {
    if keys == [] then map[]
    else Zip(keys[..|keys| - 1], rows[..|rows| - 1])[keys[|keys| - 1] := rows[|rows| - 1]]
  }

  lemma {:induction false} ZipDelivers(keys: seq<nat>, rows: seq<Row>)
    requires |keys| == |rows| && Distinct(keys)
    ensures Delivers(keys, rows, Zip(keys, rows))
  {
    var n := |keys| - 1;
    if keys != [] {
      ZipDelivers(keys[..n], rows[..n]);
      forall i | 0 <= i < |keys| ensures keys[i] in Zip(keys, rows) && Zip(keys, rows)[keys[i]] == rows[i] {
        if i < n { assert keys[..n][i] == keys[i] != keys[n]; }
      }
    }
  }

  function Slots(place: map<nat, nat>, positions: seq<nat>): (s: seq<nat>)
    requires forall t :: t in positions ==> t in place
    ensures |s| == |positions| && forall i :: 0 <= i < |s| ==> s[i] == place[positions[i]]
  {
    seq(|positions|, i requires 0 <= i < |positions| => assert positions[i] in positions; place[positions[i]])
  }

  /** Copying row `i` to the slot of position `i` carries out the plan. */
  lemma SlotsDeliver(place: map<nat, nat>, positions: seq<nat>, rows: seq<Row>)
    requires |positions| == |rows| && Distinct(positions) && Injective(place) && forall t :: t in positions ==>
             t in place
    ensures Delivers(Slots(place, positions), rows, Paged.Placed(place, Zip(positions, rows)))
  {
    ZipDelivers(positions, rows);
    PlacedFacts(place, Zip(positions, rows));
    var slots, plan := Slots(place, positions), Paged.Placed(place, Zip(positions, rows));
    forall s ensures s in plan <==> s in slots {
      if s in plan {
        var t :| t in Zip(positions, rows).Keys && place[t] == s;
        var i :| 0 <= i < |positions| && positions[i] == t;
        assert slots[i] == s;
      }
      if s in slots {
        var i :| 0 <= i < |slots| && slots[i] == s;
        assert positions[i] in Zip(positions, rows);
      }
    }
    forall i | 0 <= i < |slots| ensures slots[i] in plan && plan[slots[i]] == rows[i] {
      assert positions[i] in Zip(positions, rows);
    }
  }

  // ---- calls as sequences of steps ---------------------------------------------------

  /** A guarded write whose device loses the copies to `lost`. */
  ghost function GuardSteps(p: Arena, e: Step, id: nat, lost: set<nat>): seq<Step> {
    var q := Next(p, e);
    if q == p || id !in q.jobs then [e]
    else if q.jobs[id].plan.Keys !! lost then [e, Land(id), Step.Finish(id)]
    else [e, Scribble(q.mem + (q.jobs[id].plan - lost)), Retirement, Step.Finish(id)]
  }

  /** The arena after a guarded call that has entered is over. */
  ghost function GuardEnd(q: Arena, id: nat, lost: set<nat>): Arena
    requires id in q.jobs && id in q.slide.ops
  {
    if q.jobs[id].plan.Keys !! lost then Finished(Arrived(q, id), id)
    else Finished(q.(mem := q.mem + (q.jobs[id].plan - lost), slide := Apply(q.slide, Invalidate)), id)
  }

  lemma Replay1(p: Arena, e: Step)
    ensures Replay(p, [e]) == Next(p, e)
  {
    assert Replay(Next(p, e), []) == Next(p, e);
  }

  lemma ReplayMore(p: Arena, e: Step, es: seq<Step>)
    ensures Replay(p, [e] + es) == Replay(Next(p, e), es)
  {
    assert ([e] + es)[0] == e && ([e] + es)[1..] == es;
  }

  lemma Replay3(p: Arena, a: Step, b: Step, c: Step)
    ensures Replay(p, [a, b, c]) == Next(Next(Next(p, a), b), c)
  {
    assert [a, b, c] == [a] + [b, c] && [b, c] == [b] + [c];
    ReplayMore(p, a, [b, c]);
    ReplayMore(Next(p, a), b, [c]);
    Replay1(Next(Next(p, a), b), c);
  }

  lemma Replay4(p: Arena, a: Step, b: Step, c: Step, d: Step)
    ensures Replay(p, [a, b, c, d]) == Next(Next(Next(Next(p, a), b), c), d)
  {
    assert [a, b, c, d] == [a] + [b, c, d];
    ReplayMore(p, a, [b, c, d]);
    Replay3(Next(p, a), b, c, d);
  }

  /** An open guarded call whose writes are still in progress. */
  ghost predicate Pending(q: Arena, id: nat) {
    id in q.jobs && !q.jobs[id].landed && q.busy == Some(id) && id in q.slide.ops && q.slide.ops[id].Guard?
    && q.jobs[id].plan.Keys <= q.mem.Keys
  }

  lemma GuardReplay(p: Arena, e: Step, id: nat, lost: set<nat>)
    requires Next(p, e) != p && Pending(Next(p, e), id)
    ensures Replay(p, GuardSteps(p, e, id, lost)) == GuardEnd(Next(p, e), id, lost)
  {
    var q := Next(p, e);
    if q.jobs[id].plan.Keys !! lost {
      Replay3(p, e, Land(id), Step.Finish(id));
      LandedEnd(q, id);
    } else {
      Replay4(p, e, Scribble(q.mem + (q.jobs[id].plan - lost)), Retirement, Step.Finish(id));
      LostEnd(q, id, lost);
    }
  }

  lemma LandedEnd(q: Arena, id: nat)
    requires Pending(q, id)
    ensures Next(Next(q, Land(id)), Step.Finish(id)) == Finished(Arrived(q, id), id)
  {
    assert Next(q, Land(id)) == Arrived(q, id);
  }

  lemma LostEnd(q: Arena, id: nat, lost: set<nat>)
    requires Pending(q, id)
    ensures var now := q.mem + (q.jobs[id].plan - lost);
            Next(Next(Next(q, Scribble(now)), Retirement), Step.Finish(id))
                == Finished(q.(mem := now, slide := Apply(q.slide, Invalidate)), id)
  {
    var now := q.mem + (q.jobs[id].plan - lost);
    LostScribble(q, id, lost);
    assert Next(q, Scribble(now)) == q.(mem := now);
    RetiredEnd(q.(mem := now), id);
  }

  lemma RetiredEnd(q: Arena, id: nat)
    requires Pending(q, id)
    ensures Next(Next(q, Retirement), Step.Finish(id)) == Finished(q.(slide := Apply(q.slide, Invalidate)), id)
  {
    assert Next(q, Retirement) == q.(slide := Apply(q.slide, Invalidate));
  }

  lemma LostScribble(q: Arena, id: nat, lost: set<nat>)
    requires Pending(q, id)
    ensures Enabled(q, Scribble(q.mem + (q.jobs[id].plan - lost)))
  {
    var now := q.mem + (q.jobs[id].plan - lost);
    forall s | s in q.jobs[id].plan ensures Dirty(q.slide.ops, q.jobs, s) {
      assert DirtyBy(q.slide.ops, q.jobs[id], id, s);
    }
    assert now.Keys == q.mem.Keys;
  }

  lemma BeginBegun(p: Arena, id: nat, required: set<nat>, optional: set<nat>, job: Job)
    requires NewCall(p, id) && OwnedByCaller(p.slide.core, required + optional)
    ensures Begin(p, id, required, optional, job)
            == if CanGuard(p.slide.core, required) then Begun(p, id, required + Available(p.slide.core, optional), job)
                else p
    ensures Begun(p, id, required + Available(p.slide.core, optional), job) != p
  {
    GuardEffect(p.slide, id, required, optional);
    var q := Begun(p, id, required + Available(p.slide.core, optional), job);
    assert id in q.slide.ops;
    assert CanGuard(p.slide.core, required) ==> Apply(p.slide, GuardEnter(id, required, optional)) == q.slide;
  }

  /** The arena between the copies of a guarded call and its exit. */
  ghost function Copied(q: Arena, id: nat, lost: set<nat>): Arena
    requires id in q.jobs && id in q.slide.ops
  {
    if q.jobs[id].plan.Keys !! lost then Arrived(q, id)
    else q.(mem := q.mem + (q.jobs[id].plan - lost), slide := Apply(q.slide, Invalidate))
  }

  /** What leaving a guard does before any bookkeeping. */
  ghost function Exited(q: Arena, id: nat): Arena {
    q.(slide := Apply(q.slide, GuardExit(id)), busy := None, jobs := q.jobs - {id})
  }

  lemma EndOfGuard(p: Arena, id: nat, lost: set<nat>)
    requires id in p.jobs && id in p.slide.ops && p.slide.ops[id].Guard? && !p.slide.core.closed
    ensures var q, a := Exited(Copied(p, id, lost), id), Arrived(p, id);
            GuardEnd(p, id, lost)
            == if !(p.jobs[id].plan.Keys !! lost) then q
               else match p.jobs[id].kind
                    case Baseline => q.(baselineReady := q.baselineReady + Targets(a, a.jobs[id]))
                    case Ready => q.(selected := q.selected + p.jobs[id].assign.Keys)
                    case _ => q
  {}

  /** The tokens whose slot the plan writes. */
  ghost function Covering(place: map<nat, nat>, plan: map<nat, Row>): set<nat> {
    set t | t in place && place[t] in plan
  }

  /** A guarded write from entry to exit, once the map has granted `guarded`. */
  ghost function GuardedCall(p: Arena, id: nat, guarded: set<nat>, job: Job, lost: set<nat>): Arena {
    Concluded(p.canonical, Exited(Copied(Begun(p, id, guarded, job), id, lost), id), job, lost)
  }

  /** What the call records once it has left its guard. */
  ghost function Concluded(canonical: map<nat, nat>, q: Arena, job: Job, lost: set<nat>): (r: Arena)
    ensures r.logical == q.logical && r.busy == q.busy
  {
    if !(job.plan.Keys !! lost) then q
    else match job.kind
      case Baseline => q.(baselineReady := q.baselineReady + Covering(canonical, job.plan))
      case Ready => q.(selected := q.selected + job.assign.Keys)
      case _ => q
  }

  lemma CopiedLogical(p: Arena, id: nat, guarded: set<nat>, job: Job, lost: set<nat>)
    ensures Copied(Begun(p, id, guarded, job), id, lost).logical == if job.plan.Keys !! lost then p.logical + job.assign
            else p.logical
  {}

  lemma ExitedLogical(a: Arena, id: nat)
    ensures Exited(a, id).logical == a.logical && Exited(a, id).busy == None
  {}

  lemma GuardedIdle(p: Arena, id: nat, guarded: set<nat>, job: Job, lost: set<nat>)
    ensures Idle(GuardedCall(p, id, guarded, job, lost))
  {
    ExitedLogical(Copied(Begun(p, id, guarded, job), id, lost), id);
  }

  /** A guarded call assigns its rows if they all arrive. */
  lemma GuardedLogical(p: Arena, id: nat, guarded: set<nat>, job: Job, lost: set<nat>)
    ensures GuardedCall(p, id, guarded, job, lost).logical == if job.plan.Keys !! lost then p.logical + job.assign
            else p.logical
  {
    CopiedLogical(p, id, guarded, job, lost);
    ExitedLogical(Copied(Begun(p, id, guarded, job), id, lost), id);
  }

  /** `write` */
  ghost function WriteCall(p: Arena, id: nat, rows: map<nat, Row>, lost: set<nat>): Arena {
    if !CanWrite(p, rows) || !CanGuard(p.slide.core, Image(p.canonical, rows.Keys)) then p
    else GuardedCall(p, id, Image(p.canonical, rows.Keys),
          Job(Baseline, Paged.Placed(p.canonical, rows), Unmoved(p, rows), false), lost)
  }

  /** `write_selected_ready` */
  ghost function ReadyCall(p: Arena, id: nat, rows: map<nat, Row>, lost: set<nat>): Arena {
    if !CanWriteReady(p, rows) || !CanGuard(p.slide.core, Image(p.canonical, rows.Keys)) then p
    else GuardedCall(p, id, Image(p.canonical, rows.Keys), Job(Ready, Paged.Placed(p.canonical, rows), rows, false),
          lost)
  }

  /** Mirrors that may be written: neither shared nor used by anybody. */
  function OpenMirrors(p: Arena, tokens: set<nat>): set<nat>
    requires tokens <= p.canonical.Keys && tokens <= p.slide.core.slots.Keys
  {
    set t | t in Mirrors(p, tokens) && p.canonical[t] in Available(p.slide.core, Image(p.canonical, Mirrors(p, tokens)))
  }

  /** `update_selected` */
  ghost function UpdateCall(p: Arena, id: nat, rows: map<nat, Row>, lost: set<nat>): Arena {
    if !CanUpdate(p, rows) || !CanGuard(p.slide.core, Image(p.slide.core.slots, rows.Keys)) then p
    else
      var slots, mirrors := p.slide.core.slots, Mirrors(p, rows.Keys);
      GuardedCall(p, id, Image(slots, rows.Keys) + Available(p.slide.core, Image(p.canonical, mirrors)),
                  Job(Update, Paged.Placed(slots, rows) + Paged.Placed(p.canonical,
                          Only(rows, OpenMirrors(p, rows.Keys))), rows, false), lost)
  }

  /** What the calls rely on; every good arena has it. */
  ghost predicate Shape(p: Arena) {
    && Idle(p) && Injective(p.canonical) && Injective(p.slide.core.slots)
    && p.slide.core.floor == NativeSlots(p.geo.blocks, p.geo.blockSize)
    && (forall t :: t in p.canonical ==> p.canonical[t] < p.slide.core.floor)
    && (forall t :: t in p.slide.core.slots ==> p.slide.core.slots[t] < p.slide.core.floor + p.geo.maxSelected)
    && (forall s: nat :: s in p.mem <==> s < p.slide.core.floor + p.geo.maxSelected)
    && Drawable(p.slide.core) && p.slide.core.maxSlots == Some(p.slide.core.floor + p.geo.maxSelected)
  }

  /** Slots the map can still hand out are inside the arena. */
  ghost predicate Drawable(c: Core) {
    c.maxSlots.Some? && c.next <= c.maxSlots.value && forall x :: x in c.unused ==> x < c.next
  }

  /** What `write` and `write_selected_ready` have established when they enter their guard. */
  ghost predicate Prepared(c: Core, place: map<nat, nat>, bound: nat, positions: seq<nat>, rows: seq<Row>)
    requires |positions| == |rows| && forall t :: t in positions ==> t in place
  {
    var slots := Slots(place, positions);
    && Delivers(slots, rows, Paged.Placed(place, Zip(positions, rows))) && (forall s :: s in slots ==> s < bound)
    && Elements(slots) == Image(place, Zip(positions, rows).Keys)
  }

  lemma Prepare(c: Core, place: map<nat, nat>, bound: nat, positions: seq<nat>, rows: seq<Row>)
    requires |positions| == |rows| && Distinct(positions) && Injective(place)
    requires (forall t :: t in positions ==> t in place)
    requires forall t :: t in place ==> place[t] < bound
    ensures Prepared(c, place, bound, positions, rows)
  {
    SlotsDeliver(place, positions, rows);
    SlotsBelow(place, positions, bound);
    SlotsImage(place, positions, rows);
  }

  lemma SlotsBelow(place: map<nat, nat>, positions: seq<nat>, floor: nat)
    requires (forall t :: t in positions ==> t in place) && forall t :: t in place ==> place[t] < floor
    ensures forall s :: s in Slots(place, positions) ==> s < floor
  {
    var slots := Slots(place, positions);
    forall s | s in slots ensures s < floor {
      var i :| 0 <= i < |slots| && slots[i] == s;
      assert positions[i] in positions;
    }
  }

  lemma SlotsImage(place: map<nat, nat>, positions: seq<nat>, rows: seq<Row>)
    requires |positions| == |rows| && forall t :: t in positions ==> t in place
    ensures Elements(Slots(place, positions)) == Image(place, Zip(positions, rows).Keys)
  {
    var slots := Slots(place, positions);
    forall s | s in Image(place, Zip(positions, rows).Keys) ensures s in slots {
      var t :| t in Zip(positions, rows).Keys && place[t] == s;
      var i :| 0 <= i < |positions| && positions[i] == t;
      assert slots[i] == s;
    }
    forall s | s in slots ensures s in Image(place, Zip(positions, rows).Keys) {
      var i :| 0 <= i < |slots| && slots[i] == s;
      assert positions[i] in Zip(positions, rows);
    }
  }


  lemma PromptSize(table: seq<int>, blockSize: Size, n: nat)
    requires forall t :: 0 <= t < n ==> CanonicalSlot(table, blockSize, t).Some?
    ensures |Prompt(table, blockSize, n)| == n
  {
    assert Prompt(table, blockSize, n).Keys == Below(n);
  }

  /** A decode's rows: its own slot, and its native slot if that is another one. */
  lemma DecodeBatches(slot: nat, native: nat, row: Row)
    ensures Delivers([slot], [row], map[slot := row])
    ensures slot != native ==> Delivers([native], [row], map[native := row])
                               && map[slot := row] + map[native := row] == map[slot := row, native := row]
    ensures slot == native ==> map[slot := row] + map[] == map[slot := row, native := row]
    ensures Delivers([], [], map[])
  {}

  lemma TwoBatches(mem: map<nat, Row>, first: map<nat, Row>, second: map<nat, Row>, lost: set<nat>)
    ensures mem + (first - lost) + (second - lost) == mem + (first + second - lost)
    ensures (first + second).Keys !! lost ==> first + second - lost == first + second
  {}

  // ---- `write`, step by step ----------------------------------------------------------------

  ghost predicate WriteGranted(p: Arena, rows: map<nat, Row>) {
    CanWrite(p, rows) && CanGuard(p.slide.core, Image(p.canonical, rows.Keys))
  }

  /** The checks on positions are the checks on the rows keyed by them. */
  predicate MayWrite(p: Arena, positions: seq<nat>) {
    !p.slide.core.closed && LoadsDone(p) && !p.decoded
    && (forall t :: t in positions ==> t in p.canonical && p.canonical[t] !in p.slide.core.shared)
  }

  lemma NotAllowed(p: Arena, positions: seq<nat>, rows: seq<Row>)
    requires |positions| == |rows| && !MayWrite(p, positions)
    ensures !CanWrite(p, Zip(positions, rows))
  {
    if CanWrite(p, Zip(positions, rows)) {
      forall t | t in positions ensures t in p.canonical && p.canonical[t] !in p.slide.core.shared {
        assert t in Zip(positions, rows).Keys;
        assert p.canonical[t] in Image(p.canonical, Zip(positions, rows).Keys);
      }
      assert false;
    }
  }

  lemma WriteIsAllowed(p: Arena, positions: seq<nat>, rows: seq<Row>)
    requires Shape(p) == true && |positions| == |rows| && Distinct(positions) && MayWrite(p, positions) == true
    ensures var m, slots := Zip(positions, rows), Slots(p.canonical, positions);
            && CanWrite(p, m) && Delivers(slots, rows, Paged.Placed(p.canonical, m))
            && (forall s :: s in slots ==> s < p.slide.core.floor)
            && Elements(slots) == Image(p.canonical, m.Keys)
            && OwnedByCaller(p.slide.core, Elements(slots)) && Paged.Placed(p.canonical, m).Keys <= p.mem.Keys
            && Covering(p.canonical, Paged.Placed(p.canonical, m)) == Elements(positions)
  {
    Prepare(p.slide.core, p.canonical, p.slide.core.floor, positions, rows);
    PlacedFacts(p.canonical, Zip(positions, rows));
  }

  lemma BegunPending(p: Arena, id: nat, guarded: set<nat>, job: Job)
    requires !job.landed && job.plan.Keys <= p.mem.Keys
    ensures Pending(Begun(p, id, guarded, job), id) && Begun(p, id, guarded, job).jobs[id] == job
    ensures Begun(p, id, guarded, job).mem == p.mem
  {}

  lemma NoMirrors(plan: map<nat, Row>, slots: seq<nat>)
    ensures Delivers([], [], map[]) && plan + map[] == plan && slots + [] == slots
  {}

  /** A guarded write without mirrors, up to its exit. */
  ghost function Guarded1(p: Arena, id: nat, slots: set<nat>, job: Job, lost: set<nat>): Arena {
    if CanGuard(p.slide.core, slots) then Exited(Copied(Begun(p, id, slots, job), id, lost), id) else p
  }

  /** What `write` does to its tokens' original slots. */
  ghost function BaselineJob(p: Arena, m: map<nat, Row>): Job
    requires m.Keys <= p.canonical.Keys
  {
    Job(Baseline, Paged.Placed(p.canonical, m), Unmoved(p, m), false)
  }

  /** The steps `write` takes add up to its call. */
  lemma WriteMeans(p: Arena, id: nat, positions: seq<nat>, rows: seq<Row>, lost: set<nat>, q: Arena, ok: bool)
    requires Shape(p) == true && |positions| == |rows| && Distinct(positions) && MayWrite(p, positions) == true
    requires Zip(positions, rows).Keys <= p.canonical.Keys
    requires var slots := Elements(Slots(p.canonical, positions));
             var job := BaselineJob(p, Zip(positions, rows));
             q == Guarded1(p, id, slots, job, lost) && (ok <==> CanGuard(p.slide.core, slots) && job.plan.Keys !! lost)
    ensures var m := Zip(positions, rows);
            WriteCall(p, id, m, lost) == if ok then q.(baselineReady := q.baselineReady + Elements(positions)) else q
    ensures ok <==> WriteGranted(p, Zip(positions, rows)) && Image(p.canonical, Zip(positions, rows).Keys) !! lost
  {
    WriteIsAllowed(p, positions, rows);
  }

  // ---- `write_selected_ready`, step by step --------------------------------------------------

  predicate MayWriteReady(p: Arena, positions: seq<nat>) {
    !p.slide.core.closed && LoadsDone(p) && PromotionsDone(p) && !p.decoded && |p.baselineReady| == p.geo.promptLength
    && (forall t :: t in positions ==> t in p.canonical && t !in p.selected
                                       && t in p.slide.core.slots && p.slide.core.slots[t] == p.canonical[t])
  }

  lemma NotReady(p: Arena, positions: seq<nat>, rows: seq<Row>)
    requires |positions| == |rows| && !MayWriteReady(p, positions)
    ensures !CanWriteReady(p, Zip(positions, rows))
  {
    if CanWriteReady(p, Zip(positions, rows)) {
      forall t | t in positions
        ensures t in p.canonical && t !in p.selected && t in p.slide.core.slots
        ensures p.slide.core.slots[t] == p.canonical[t]
      {
        assert t in Zip(positions, rows).Keys;
      }
      assert false;
    }
  }

  lemma ReadyChecks(p: Arena, positions: seq<nat>, rows: seq<Row>)
    requires |positions| == |rows| && Distinct(positions) && MayWriteReady(p, positions) == true
    ensures CanWriteReady(p, Zip(positions, rows)) == true
  {
    ZipDelivers(positions, rows);
  }

  lemma ReadyIsAllowed(p: Arena, positions: seq<nat>, rows: seq<Row>)
    requires Shape(p) == true && |positions| == |rows| && Distinct(positions) && MayWriteReady(p, positions) == true
    ensures var m, slots := Zip(positions, rows), Slots(p.canonical, positions);
            && CanWriteReady(p, m) == true && Delivers(slots, rows, Paged.Placed(p.canonical, m)) == true
            && (forall s :: s in slots ==> s < p.slide.core.floor)
            && Elements(slots) == Image(p.canonical, m.Keys)
            && OwnedByCaller(p.slide.core, Elements(slots)) && Paged.Placed(p.canonical, m).Keys <= p.mem.Keys
            && m.Keys == Elements(positions)
  {
    ReadyChecks(p, positions, rows);
    Prepare(p.slide.core, p.canonical, p.slide.core.floor, positions, rows);
    PlacedFacts(p.canonical, Zip(positions, rows));
  }

  ghost function ReadyJob(p: Arena, m: map<nat, Row>): Job
    requires m.Keys <= p.canonical.Keys
  {
    Job(Ready, Paged.Placed(p.canonical, m), m, false)
  }

  ghost predicate ReadyGranted(p: Arena, rows: map<nat, Row>) {
    CanWriteReady(p, rows) && CanGuard(p.slide.core, Image(p.canonical, rows.Keys))
  }

  lemma ReadyMeans(p: Arena, id: nat, positions: seq<nat>, rows: seq<Row>, lost: set<nat>, q: Arena, ok: bool)
    requires Shape(p) == true && |positions| == |rows| && Distinct(positions) && MayWriteReady(p, positions) == true
    requires Zip(positions, rows).Keys <= p.canonical.Keys
    requires var slots := Elements(Slots(p.canonical, positions));
             var job := ReadyJob(p, Zip(positions, rows));
             q == Guarded1(p, id, slots, job, lost) && (ok <==> CanGuard(p.slide.core, slots) && job.plan.Keys !! lost)
    ensures var m := Zip(positions, rows);
            ReadyCall(p, id, m, lost) == if ok then q.(selected := q.selected + Elements(positions)) else q
    ensures ok <==> ReadyGranted(p, Zip(positions, rows)) && Image(p.canonical, Zip(positions, rows).Keys) !! lost
  {
    ReadyIsAllowed(p, positions, rows);
    ReadyConcludes(p, id, Zip(positions, rows), lost, q, ok);
  }

  lemma ReadyConcludes(p: Arena, id: nat, m: map<nat, Row>, lost: set<nat>, q: Arena, ok: bool)
    requires CanWriteReady(p, m) == true && m.Keys <= p.canonical.Keys
    requires var slots := Image(p.canonical, m.Keys);
             && q == Guarded1(p, id, slots, ReadyJob(p, m), lost)
             && (ok <==> CanGuard(p.slide.core, slots) && ReadyJob(p, m).plan.Keys !! lost)
    ensures ReadyCall(p, id, m, lost) == if ok then q.(selected := q.selected + m.Keys) else q
  {}

  // ---- `update_selected`, step by step --------------------------------------------------------

  /** The positions among `tokens`, in order. */
  function Pick(positions: seq<nat>, tokens: set<nat>): (r: seq<nat>)
    ensures forall t :: t in r <==> t in positions && t in tokens
    ensures Distinct(positions) ==> Distinct(r)
  {
    if positions == [] then []
    else
      var n := |positions| - 1;
      var rest := Pick(positions[..n], tokens);
      if positions[n] in tokens then rest + [positions[n]] else rest
  }

  /** The rows of the positions among `tokens`, in order. */
  function PickRows(positions: seq<nat>, rows: seq<Row>, tokens: set<nat>): (r: seq<Row>)
    requires |positions| == |rows|
    ensures |r| == |Pick(positions, tokens)|
  {
    if positions == [] then []
    else
      var n := |positions| - 1;
      var rest := PickRows(positions[..n], rows[..n], tokens);
      if positions[n] in tokens then rest + [rows[n]] else rest
  }

  lemma ZipExtend(keys: seq<nat>, rows: seq<Row>, k: nat, row: Row)
    requires |keys| == |rows|
    ensures Zip(keys + [k], rows + [row]) == Zip(keys, rows)[k := row]
  {
    assert (keys + [k])[..|keys|] == keys && (rows + [row])[..|rows|] == rows;
  }

  lemma {:induction false} PickZips(positions: seq<nat>, rows: seq<Row>, tokens: set<nat>)
    requires |positions| == |rows| && Distinct(positions)
    ensures Zip(Pick(positions, tokens), PickRows(positions, rows, tokens)) == Only(Zip(positions, rows), tokens)
  {
    if positions != [] {
      var n := |positions| - 1;
      PickZips(positions[..n], rows[..n], tokens);
      ZipExtend(Pick(positions[..n], tokens), PickRows(positions[..n], rows[..n], tokens), positions[n], rows[n]);
      assert positions[n] !in positions[..n];
    }
  }

  predicate MayUpdate(p: Arena, positions: seq<nat>) {
    !p.slide.core.closed && LoadsDone(p) && PromotionsDone(p) && !p.decoded
    && (forall t :: t in positions ==>
          t in p.slide.core.slots && t in p.canonical
          && p.slide.core.slots[t] !in p.slide.core.shared)
  }

  lemma NoUpdate(p: Arena, positions: seq<nat>, rows: seq<Row>)
    requires |positions| == |rows| && !MayUpdate(p, positions)
    ensures !CanUpdate(p, Zip(positions, rows))
  {
    if CanUpdate(p, Zip(positions, rows)) {
      forall t | t in positions
        ensures t in p.slide.core.slots && t in p.canonical && p.slide.core.slots[t] !in p.slide.core.shared
      {
        assert t in Zip(positions, rows).Keys;
        assert p.slide.core.slots[t] in Image(p.slide.core.slots, Zip(positions, rows).Keys);
      }
      assert false;
    }
  }

  ghost predicate UpdateGranted(p: Arena, rows: map<nat, Row>) {
    CanUpdate(p, rows) && CanGuard(p.slide.core, Image(p.slide.core.slots, rows.Keys))
  }

  ghost function UpdateJob(p: Arena, m: map<nat, Row>): Job
    requires m.Keys <= p.canonical.Keys && m.Keys <= p.slide.core.slots.Keys
  {
    Job(Update, Paged.Placed(p.slide.core.slots, m) + Paged.Placed(p.canonical, Only(m, OpenMirrors(p, m.Keys))), m,
          false)
  }

  /** The rows sent to current slots. */
  lemma UpdateIsAllowed(p: Arena, positions: seq<nat>, rows: seq<Row>)
    requires Shape(p) == true && |positions| == |rows| && Distinct(positions) && MayUpdate(p, positions) == true
    ensures var m, slots := Zip(positions, rows), Slots(p.slide.core.slots, positions);
            && CanUpdate(p, m) && m.Keys == Elements(positions)
            && Delivers(slots, rows, Paged.Placed(p.slide.core.slots, m))
            && (forall s :: s in slots ==> s < p.slide.core.floor + p.geo.maxSelected)
            && Elements(slots) == Image(p.slide.core.slots, m.Keys)
            && Paged.Placed(p.slide.core.slots, m).Keys <= p.mem.Keys
  {
    Prepare(p.slide.core, p.slide.core.slots, p.slide.core.floor + p.geo.maxSelected, positions, rows);
    PlacedFacts(p.slide.core.slots, Zip(positions, rows));
  }

  /** The rows sent to mirrors. */
  lemma MirrorsAllowed(p: Arena, positions: seq<nat>, rows: seq<Row>, tokens: set<nat>)
    requires Shape(p) == true && |positions| == |rows| && Distinct(positions) && MayUpdate(p, positions) == true
    requires tokens <= Elements(positions)
    ensures var picked, chosen := Pick(positions, tokens), PickRows(positions, rows, tokens);
            var mirrors, m := Slots(p.canonical, picked), Only(Zip(positions, rows), tokens);
            && m.Keys == tokens <= p.canonical.Keys
            && Delivers(mirrors, chosen, Paged.Placed(p.canonical, m))
            && (forall s :: s in mirrors ==> s < p.slide.core.floor)
            && Elements(mirrors) == Image(p.canonical, tokens) && Paged.Placed(p.canonical, m).Keys <= p.mem.Keys
  {
    var picked, chosen := Pick(positions, tokens), PickRows(positions, rows, tokens);
    PickZips(positions, rows, tokens);
    Prepare(p.slide.core, p.canonical, p.slide.core.floor, picked, chosen);
    PlacedFacts(p.canonical, Zip(picked, chosen));
    assert Only(Zip(positions, rows), tokens).Keys == tokens;
  }

  lemma UpdateOwned(p: Arena, positions: seq<nat>, rows: seq<Row>)
    requires Shape(p) == true && |positions| == |rows| && Distinct(positions) && MayUpdate(p, positions) == true
    ensures var m := Zip(positions, rows);
            m.Keys <= p.canonical.Keys && m.Keys <= p.slide.core.slots.Keys
            && OwnedByCaller(p.slide.core, Image(p.slide.core.slots, m.Keys) + Image(p.canonical, Mirrors(p, m.Keys)))
  {
    UpdateIsAllowed(p, positions, rows);
  }

  /** What `update_selected` has established when it enters its guard. */
  lemma UpdateEntry(p: Arena, positions: seq<nat>, rows: seq<Row>)
    requires Shape(p) == true && |positions| == |rows| && Distinct(positions) && MayUpdate(p, positions) == true
    ensures var m := Zip(positions, rows);
            && m.Keys == Elements(positions) && m.Keys <= p.canonical.Keys && m.Keys <= p.slide.core.slots.Keys
            && Elements(Slots(p.slide.core.slots, positions)) == Image(p.slide.core.slots, m.Keys)
            && Elements(Slots(p.canonical, Pick(positions, Mirrors(p, m.Keys))))
                  == Image(p.canonical, Mirrors(p, m.Keys))
            && OwnedByCaller(p.slide.core, Image(p.slide.core.slots, m.Keys) + Image(p.canonical, Mirrors(p, m.Keys)))
            && UpdateJob(p, m).plan.Keys <= p.mem.Keys
  {
    var m := Zip(positions, rows);
    UpdateIsAllowed(p, positions, rows);
    UpdateOwned(p, positions, rows);
    MirrorsAllowed(p, positions, rows, Mirrors(p, m.Keys));
    MirrorsAllowed(p, positions, rows, OpenMirrors(p, m.Keys));
  }

  /** A guarded write with mirrors, up to its exit. */
  ghost function Guarded2(p: Arena, id: nat, slots: set<nat>, mirrors: set<nat>, job: Job, lost: set<nat>): Arena {
    if CanGuard(p.slide.core, slots)
    then Exited(Copied(Begun(p, id, slots + Available(p.slide.core, mirrors), job), id, lost), id) else p
  }

  lemma UpdateMeans(p: Arena, id: nat, rows: map<nat, Row>, lost: set<nat>)
    requires CanUpdate(p, rows)
    ensures UpdateCall(p, id, rows, lost)
            == Guarded2(p, id, Image(p.slide.core.slots, rows.Keys), Image(p.canonical, Mirrors(p, rows.Keys)),
                  UpdateJob(p, rows), lost)
  {}

  // ---- `gather` -------------------------------------------------------------------------------

  predicate GatherGranted(p: Arena, tokens: set<nat>) {
    tokens <= p.slide.core.slots.Keys && CanPin(p.slide.core, SlotsOf(p.slide.core, tokens))
  }

  /** `gather`: pins, reads, unpins. */
  ghost function GatherCall(p: Arena, id: nat, tokens: set<nat>): Arena {
    if !GatherGranted(p, tokens) then p
    else p.(slide := Leave(Enter(p.slide, p.slide.core, id, Pin(SlotsOf(p.slide.core, tokens))), id))
  }

  /** Row `i` is what the map leads to for position `i`. */
  ghost predicate ReadsThrough(p: Arena, positions: seq<nat>, rows: seq<Row>) {
    |rows| == |positions| && forall i :: 0 <= i < |positions| ==> ReadsAt(p, positions[i], rows[i])
  }

  ghost predicate ReadsAt(p: Arena, t: nat, row: Row) {
    t in p.slide.core.slots && p.slide.core.slots[t] in p.mem && row == p.mem[p.slide.core.slots[t]]
  }

  lemma GatherSteps(p: Arena, id: nat, tokens: set<nat>)
    requires NewCall(p, id) && id !in p.views && GatherGranted(p, tokens) == true
    ensures Replay(p, [PinRows(id, tokens), UnpinRows(id)]) == GatherCall(p, id, tokens)
  {
    assert [PinRows(id, tokens), UnpinRows(id)] == [PinRows(id, tokens)] + [UnpinRows(id)];
    ReplayMore(p, PinRows(id, tokens), [UnpinRows(id)]);
    PinStep(p, id, tokens);
    Replay1(Pinned(p, id, SlotsOf(p.slide.core, tokens)), UnpinRows(id));
    UnpinStep(p, id, SlotsOf(p.slide.core, tokens));
  }

  ghost function Pinned(p: Arena, id: nat, slots: set<nat>): Arena {
    p.(slide := Enter(p.slide, p.slide.core, id, Pin(slots)), views := p.views[id := View(p.mem, slots)])
  }

  lemma PinStep(p: Arena, id: nat, tokens: set<nat>)
    requires NewCall(p, id) && GatherGranted(p, tokens) == true
    ensures Next(p, PinRows(id, tokens)) == Pinned(p, id, SlotsOf(p.slide.core, tokens))
  {
    PinEffect(p.slide, id, tokens);
    var s := Apply(p.slide, PinTokens(id, tokens));
    assert s == Pinned(p, id, SlotsOf(p.slide.core, tokens)).slide;
    assert id in s.ops;
  }

  lemma UnpinStep(p: Arena, id: nat, slots: set<nat>)
    requires NewCall(p, id) && id !in p.views
    ensures Next(Pinned(p, id, slots), UnpinRows(id))
            == p.(slide := Leave(Enter(p.slide, p.slide.core, id, Pin(slots)), id))
  {
    var q := Pinned(p, id, slots);
    assert q.slide.ops[id] == Pin(slots);
    AddRemove(p.views, id, View(p.mem, slots));
    assert Apply(q.slide, Unpin(id)) == Leave(q.slide, id);
  }

  lemma AddRemove<T>(m: map<nat, T>, id: nat, x: T)
    requires id !in m
    ensures m[id := x] - {id} == m
  {}

  // ---- `promote_selected` ---------------------------------------------------------------------

  /** The arena once a taken-up promotion's copies are complete, published and released. */
  ghost function PromotionDone(q: Arena, id: nat): (r: Arena)
    requires id in q.jobs && id in q.slide.ops && q.slide.ops[id].Promotion?
    ensures r.logical == q.logical + q.jobs[id].assign && r.busy == q.busy
  {
    PublishedAs(q, id, Apply(Apply(q.slide, PromotePublish(id)), PromoteRelease(id)))
  }

  ghost function PublishedAs(q: Arena, id: nat, s: System): (r: Arena)
    requires id in q.jobs
    ensures r.logical == q.logical + q.jobs[id].assign && r.busy == q.busy
  {
    q.(mem := q.mem + q.jobs[id].plan, slide := s, jobs := q.jobs - {id}, logical := q.logical + q.jobs[id].assign)
  }

  /** The arena once a taken-up promotion has failed: some rows never arrived. */
  ghost function PromotionLost(q: Arena, id: nat, lost: set<nat>): (r: Arena)
    requires id in q.jobs && id in q.slide.ops && q.slide.ops[id].Promotion?
    ensures r.logical == q.logical && r.busy == q.busy
  {
    LostAs(q, id, lost, Apply(Apply(q.slide, PromoteAbort(id)), PromoteRelease(id)))
  }

  ghost function LostAs(q: Arena, id: nat, lost: set<nat>, s: System): (r: Arena)
    requires id in q.jobs
    ensures r.logical == q.logical && r.busy == q.busy
  {
    q.(mem := q.mem + (q.jobs[id].plan - lost), slide := s, jobs := q.jobs - {id}, broken := true)
  }

  /** Loads the arena's callers know of once this one is named. */
  function Known(p: Arena, future: Option<nat>): map<nat, LoadState> {
    if future.Some? && future.value !in p.futures then p.futures[future.value := LoadPending] else p.futures
  }

  function Loads(p: Arena, future: Option<nat>): set<nat> {
    if future.Some? then p.loads + {future.value} else p.loads
  }

  lemma NothingPromoted(p: Arena, id: nat, future: Option<nat>, callback: nat)
    requires id !in p.slide.ops
    ensures var q := Promoting(p, id, [], map[], future, callback);
            q == (if p.slide.core.closed then p.(futures := Known(p, future))
                  else p.(futures := Known(p, future), loads := Loads(p, future)))
            && id !in q.slide.ops
  {
    NothingBegins(p.slide, id, LoadStatus(p, future), callback);
  }

  /** What the arena records of a promotion the map took up. */
  ghost function Recorded(p: Arena, s: System, id: nat, rows: map<nat, Row>, future: Option<nat>, callback: nat,
                          dest: map<nat, nat>): Arena
    requires rows.Keys <= dest.Keys
  {
    p.(slide := s, futures := Known(p, future), loads := Loads(p, future),
       callbacks := if LoadStatus(p, future).LoadPending? then p.callbacks[callback := future.value] else p.callbacks,
       selected := p.selected + rows.Keys,
       jobs := p.jobs[id := PromoteJob(rows, dest)])
  }

  ghost function PromoteJob(rows: map<nat, Row>, dest: map<nat, nat>): Job
    requires rows.Keys <= dest.Keys
  {
    Job(Promote, Paged.Placed(dest, rows), rows, false)
  }

  /** What the arena records when the map takes up, or refuses, a promotion. */
  lemma RecordedShape(p: Arena, s: System, id: nat, rows: map<nat, Row>, future: Option<nat>, callback: nat)
    requires id !in p.slide.ops && (id in s.ops ==> s.ops[id].Promotion? && s.ops[id].dest.Keys == rows.Keys)
    ensures Promoted(p, s, id, false, rows, future, callback)
            == if id !in s.ops then p.(slide := s, futures := Known(p, future))
               else Recorded(p, s, id, rows, future, callback, s.ops[id].dest)
    ensures id in s.ops ==> id in Promoted(p, s, id, false, rows, future, callback).jobs
                            && Promoted(p, s, id, false, rows, future, callback).jobs[id]
                                  == PromoteJob(rows, s.ops[id].dest)
    ensures Promoted(p, s, id, false, rows, future, callback).slide == s
  {}

  lemma NothingBegins(s: System, id: nat, load: LoadState, callback: nat)
    ensures Apply(s, PromoteBegin(id, [], load, callback, false)) == s
  {}

  /** `promote_selected` on a device that completes within the call. */
  ghost function PromoteCall(p: Arena, id: nat, order: seq<nat>, rows: map<nat, Row>, future: Option<nat>,
                             callback: nat,
                             lost: set<nat>): (r: Arena)
    ensures r.busy == p.busy
  {
    if !CanPromote(p, order, future) then p
    else
      PromotionEnd(Promoting(p, id, order, rows, future, callback), id, lost)
  }

  /** The end of a promotion the map took up; otherwise nothing. */
  ghost function PromotionEnd(q: Arena, id: nat, lost: set<nat>): (r: Arena)
    ensures r.busy == q.busy
  {
    if id !in q.jobs || id !in q.slide.ops || !q.slide.ops[id].Promotion? then q
    else if q.jobs[id].plan.Keys !! lost then PromotionDone(q, id)
    else PromotionLost(q, id, lost)
  }

  /** The promotion's future succeeds: taken up (or nothing to do) and every row arrived. */
  ghost predicate Promotes(p: Arena, id: nat, order: seq<nat>, rows: map<nat, Row>, future: Option<nat>, callback: nat,
                           lost: set<nat>) {
    CanPromote(p, order, future)
    && if order == [] then !p.slide.core.closed
       else
         var q := Promoting(p, id, order, rows, future, callback);
         id in q.slide.ops && id in q.jobs && q.jobs[id].plan.Keys !! lost
  }

  // ---- `decode` -----------------------------------------------------------------------------------

  /** Why `decode` refuses, in the order it checks. */
  function DecodeRefusal(p: Arena, token: nat): Error {
    if !NoLoadFailed(p) || p.broken then Device else if !PromotionsDone(p) then Busy else Invalid
  }

  /** What `decode` returns: the chosen slot, if its rows arrive. */
  function Decodes(p: Arena, token: nat, lost: set<nat>): Result<nat> {
    if !CanDecode(p, token) then Err(DecodeRefusal(p, token))
    else
      var native := CanonicalSlot(p.table, p.geo.blockSize, token).value;
      match Destination(p.slide.core, token, native, true)
      case Err(error) => Err(error)
      case Ok(slot) => if slot in lost || native in lost then Err(Device) else Ok(slot)
  }

  /** `decode` on a device that completes within the call. */
  ghost function DecodeCall(p: Arena, id: nat, token: nat, row: Row, lost: set<nat>): Arena {
    if !CanDecode(p, token) then p
    else
      var native := CanonicalSlot(p.table, p.geo.blockSize, token).value;
      match Destination(p.slide.core, token, native, true)
      case Err(_) => p
      case Ok(slot) =>
        DecodeEnd(Opened(p, id, token, slot, native, row), id, lost)
  }

  /** The end of a decode whose reservation was granted. */
  ghost function DecodeEnd(q: Arena, id: nat, lost: set<nat>): (r: Arena)
    ensures r.logical == if id in q.jobs && id in q.slide.ops && q.slide.ops[id].Decode? && q.jobs[id].plan.Keys !! lost
                         then q.logical + q.jobs[id].assign else q.logical
  {
    if id !in q.jobs || id !in q.slide.ops || !q.slide.ops[id].Decode? then q
    else if q.jobs[id].plan.Keys !! lost then DecodeDone(q, id) else DecodeLost(q, id, lost)
  }

  ghost function DecodeDone(q: Arena, id: nat): (r: Arena)
    requires id in q.jobs && id in q.slide.ops && q.slide.ops[id].Decode?
    ensures r.logical == q.logical + q.jobs[id].assign
  {
    DecodedAs(q, id, Apply(Apply(q.slide, Event.DecodePublish(id)), DecodeRelease(id)))
  }

  ghost function DecodedAs(q: Arena, id: nat, s: System): (r: Arena)
    requires id in q.jobs && id in q.slide.ops && q.slide.ops[id].Decode?
    ensures r.logical == q.logical + q.jobs[id].assign
  {
    var op := q.slide.ops[id];
    q.(mem := q.mem + q.jobs[id].plan, slide := s, busy := None,
       jobs := q.jobs - {id}, logical := q.logical + q.jobs[id].assign, canonical := q.canonical[op.token := op.native],
           decoded := true,
       holeReuses := q.holeReuses + (if op.chosen != op.native then 1 else 0),
       nativeBinds := q.nativeBinds + (if op.chosen == op.native then 1 else 0))
  }

  ghost function DecodeLost(q: Arena, id: nat, lost: set<nat>): (r: Arena)
    requires id in q.jobs && id in q.slide.ops && q.slide.ops[id].Decode?
    ensures r.logical == q.logical
  {
    UndecodedAs(q, id, lost, Apply(Apply(q.slide, DecodeAbort(id)), DecodeRelease(id)))
  }

  /** A decode whose rows all arrived differs from one that gave up in what the arena records. */
  lemma DecodedIs(q: Arena, id: nat, lost: set<nat>, s: System)
    requires id in q.jobs && id in q.slide.ops && q.slide.ops[id].Decode? && q.jobs[id].plan.Keys !! lost
    ensures var op, u := q.slide.ops[id], UndecodedAs(q, id, lost, s);
            DecodedAs(q, id, s)
            == u.(logical := u.logical + q.jobs[id].assign, canonical := u.canonical[op.token := op.native],
                  decoded := true,
                  holeReuses := u.holeReuses + (if op.chosen != op.native then 1 else 0),
                  nativeBinds := u.nativeBinds + (if op.chosen != op.native then 0 else 1))
  {
    assert q.jobs[id].plan - lost == q.jobs[id].plan;
  }

  ghost function UndecodedAs(q: Arena, id: nat, lost: set<nat>, s: System): (r: Arena)
    requires id in q.jobs
    ensures r.logical == q.logical
  {
    q.(mem := q.mem + (q.jobs[id].plan - lost), slide := s, busy := None, jobs := q.jobs - {id})
  }

  // ---- destinations of a promotion ---------------------------------------------------------------

  /** Destinations picked so far are distinct and gone from the arena's stock. */
  ghost predicate Picked(c: Core, dest: map<nat, nat>) {
    Injective(dest) && forall x :: x in dest.Values ==> x < c.next && x !in c.unused
  }

  lemma {:induction false} DestinationsDistinct(c: Core, order: seq<nat>, load: bool, dest: map<nat, nat>,
          taken: set<nat>)
    requires (forall t :: t in order ==> t in c.slots && t !in dest) && Distinct(order) && Drawable(c)
    requires Picked(c, dest)
    ensures var a := Assign(c, order, load, false, dest, taken);
            a.ok ==> a.dest.Keys == dest.Keys + Elements(order) && Injective(a.dest)
                     && forall x :: x in a.dest.Values ==> x < c.maxSlots.value
    decreases |order|
  {
    if order == [] {
      assert dest.Keys + Elements(order) == dest.Keys;
    } else {
      match Fresh(c)
      case None =>
      case Some(p) =>
        var t, was := order[0], c.slots[order[0]];
        PickOne(c, dest, t, p);
        DestinationsDistinct(p.1, order[1..], load, dest[t := p.0], if p.0 != was then taken + {p.0} else taken);
        assert Elements(order) == {t} + Elements(order[1..]);
    }
  }

  /** Distinct destinations below `bound`, one per position. */
  ghost predicate Destined(dest: map<nat, nat>, positions: seq<nat>, bound: nat) {
    dest.Keys == Elements(positions) && Injective(dest) && forall x :: x in dest.Values ==> x < bound
  }

  lemma DestinationsFit(p: Arena, positions: seq<nat>, load: LoadState)
    requires Shape(p) == true && Distinct(positions) && MayPromote(p.slide.core, positions, load) == true
    ensures var a := Assign(p.slide.core, positions, load.LoadPending?, false, map[], {});
            a.ok ==> Destined(a.dest, positions, p.slide.core.floor + p.geo.maxSelected) == true
  {
    DestinationsDistinct(p.slide.core, positions, load.LoadPending?, map[], {});
  }

  lemma PickOne(c: Core, dest: map<nat, nat>, t: nat, p: (nat, Core))
    requires Drawable(c) && Picked(c, dest) && t !in dest && Fresh(c) == Some(p)
    ensures Drawable(p.1) && Picked(p.1, dest[t := p.0]) && p.1.slots == c.slots && p.1.maxSlots == c.maxSlots
  {
    var dest' := dest[t := p.0];
    assert p.0 in c.unused || p.0 == c.next;
    forall k | k in dest ensures dest[k] != p.0 {
      assert dest[k] in dest.Values;
    }
    forall x | x in dest'.Values ensures x < p.1.next && x !in p.1.unused {
      var k :| k in dest' && dest'[k] == x;
      if k != t { assert dest[k] in dest.Values; }
    }
  }

  // ---- loads and tables -----------------------------------------------------------------------

  /** The host load `load` finishes and its done-callbacks run. */
  ghost function LoadCall(p: Arena, load: nat, ok: bool, callback: nat): Arena
    requires callback in p.callbacks && callback in p.slide.ops
  {
    p.(futures := p.futures[load := if ok then LoadDone else LoadFailed], slide := Leave(p.slide, callback),
          callbacks := p.callbacks - {callback})
  }
}
