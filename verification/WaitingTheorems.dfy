/** What the wait queue promises its owner. */
module WaitingTheorems {
  import opened Basics
  import opened Waiting
  import opened WaitingSafety

  // ---- no lookup misses --------------------------------------------------------------

  /** The job a live ticket names is there and lists the ticket, so the unguarded
      lookups and removals of `on_wait` and `cancel` succeed; so does `complete`'s. */
  lemma LookupsNeverMiss(q: Queue)
    requires Reached(q)
    ensures forall id :: id in q.waits ==>
              Find(q.jobs, q.waits[id].key).Some?
              && q.waits[id] in Find(q.jobs, q.waits[id].key).value.consumers
    ensures q.work.Some? ==> Find(q.jobs, q.work.value.key).Some?
  {
    ReachedKeeps(q);
    Binds(q);
    forall id | id in q.waits
      ensures Find(q.jobs, q.waits[id].key).Some? && q.waits[id] in Find(q.jobs, q.waits[id].key).value.consumers
    {
      LiveTicketFindsJob(q.jobs, q.waits, id);
    }
  }

  /** At most one job runs, and it is the one whose work ticket is out. */
  lemma OneWorkUnit(q: Queue, job: Job)
    requires Reached(q) && job in q.jobs
    ensures job.state.Running? <==> q.work.Some? && q.work.value.key == job.key
  {
    ReachedKeeps(q);
    Binds(q);
    FindListed(q.jobs, job);
    assert JobFits(job, q.waits, q.work, None);
  }

  /** The metadata limits hold after every run. */
  lemma MetadataIsBounded(q: Queue)
    requires Reached(q)
    ensures |q.jobs| <= q.maxJobs && |q.waits| <= q.maxConsumers
  {
    ReachedKeeps(q);
    Take(q, Limits);
  }

  /** Another consumer's demand, as seen in the state. */
  ghost predicate Demands(q: Queue, t: Ticket, state: Progress) {
    && IdentityOf(t.consumer) in q.waits && q.waits[IdentityOf(t.consumer)] == t
    && Find(q.jobs, t.key).Some? && Find(q.jobs, t.key).value.state == state
  }

  // ---- tickets are spent once -----------------------------------------------------------

  /** The ticket with this serial has been issued and authorizes nothing any more. */
  ghost predicate Spent(q: Queue, serial: nat) {
    && serial < q.issued
    && (forall id :: id in q.waits ==> q.waits[id].serial != serial)
    && (q.work.Some? ==> q.work.value.serial != serial)
  }

  lemma SpentStep(q: Queue, e: Step, serial: nat)
    requires Inv(q) && Spent(q, serial)
    ensures Spent(Next(q, e), serial)
  {
    StepMoves(q, e);
  }

  lemma {:induction false} SpentForever(q: Queue, es: seq<Step>, serial: nat)
    requires Inv(q) && Spent(q, serial)
    ensures Spent(Replay(q, es), serial)
    decreases |es|
  {
    if es != [] {
      SpentStep(q, es[0], serial);
      StepKeeps(q, es[0]);
      SpentForever(Next(q, es[0]), es[1..], serial);
    }
  }

  ghost predicate SerialsDiffer(q: Queue) {
    && (forall i, j :: i in q.waits && j in q.waits && i != j ==> q.waits[i].serial != q.waits[j].serial)
    && (q.work.Some? ==> forall i :: i in q.waits ==> q.waits[i].serial != q.work.value.serial)
  }

  lemma SerialsDifferStep(q: Queue, e: Step)
    requires Inv(q) && SerialsDiffer(q)
    ensures SerialsDiffer(Next(q, e))
  {
    StepMoves(q, e);
    Take(q, Serials);
    var q' := Next(q, e);
    assert Issued(q.waits, q.work, q.issued);
    forall i, j | i in q'.waits && j in q'.waits && i != j ensures q'.waits[i].serial != q'.waits[j].serial {
    }
  }

  lemma {:induction false} SerialsDifferRun(q: Queue, es: seq<Step>)
    requires Inv(q) && SerialsDiffer(q)
    ensures SerialsDiffer(Replay(q, es))
    decreases |es|
  {
    if es != [] {
      SerialsDifferStep(q, es[0]);
      StepKeeps(q, es[0]);
      SerialsDifferRun(Next(q, es[0]), es[1..]);
    }
  }

  lemma ReachedSerials(q: Queue)
    requires Reached(q)
    ensures SerialsDiffer(q)
  {
    var maxJobs: nat, maxConsumers: nat, es: seq<Step> :| q == Replay(NewQueue(maxJobs, maxConsumers), es);
    NewKeeps(maxJobs, maxConsumers);
    SerialsDifferRun(NewQueue(maxJobs, maxConsumers), es);
  }

  lemma CancelSpends(q: Queue, t: Ticket)
    requires Inv(q) && SerialsDiffer(q) && DoCancel(q, t).1
    ensures Spent(DoCancel(q, t).0, t.serial)
  {
    Take(q, Serials);
  }

  lemma ReplaceSpends(q: Queue, c: Consumer, key: Artifact)
    requires Inv(q) && SerialsDiffer(q) && Refusal(q, c, key).None? && IdentityOf(c) in q.waits
    ensures Spent(DoWait(q, c, key).0, q.waits[IdentityOf(c)].serial)
  {
    Take(q, Serials);
    var q' := DoWait(q, c, key).0;
    assert q'.waits == q.waits[IdentityOf(c) := Ticket(q.issued, key, c)] && q'.work == q.work
        && q'.issued == q.issued + 1;
  }

  lemma FinishSpends(q: Queue, work: Work, success: bool)
    requires Inv(q) && SerialsDiffer(q) && q.work == Some(work)
    ensures Spent(DoFinish(q, work, success).0, work.serial)
  {
    Take(q, Serials);
    var q' := DoFinish(q, work, success).0;
    assert q'.waits == q.waits && q'.work.None? && q'.issued == q.issued;
  }

  /** A wait that was cancelled or woken never cancels or wakes anything again: one
      ticket, at most one lease, whatever happens in between. */
  lemma WaitIsConsumedOnce(q: Queue, t: Ticket, es: seq<Step>, answer: Answer)
    requires Reached(q) && DoCancel(q, t).1
    ensures var later := Replay(DoCancel(q, t).0, es);
            !DoCancel(later, t).1 && DoWake(later, t, answer) == (later, None)
  {
    ReachedSerials(q);
    ReachedKeeps(q);
    CancelSpends(q, t);
    StepKeeps(q, Cancel(t));
    SpentForever(Next(q, Cancel(t)), es, t.serial);
  }

  /** A wait that was replaced authorizes nothing either. */
  lemma ReplacedWaitIsSpent(q: Queue, c: Consumer, key: Artifact, es: seq<Step>)
    requires Reached(q) && Refusal(q, c, key).None? && IdentityOf(c) in q.waits
    ensures !DoCancel(Replay(DoWait(q, c, key).0, es), q.waits[IdentityOf(c)]).1
  {
    ReachedSerials(q);
    ReachedKeeps(q);
    ReplaceSpends(q, c, key);
    StepKeeps(q, OnWait(c, key));
    SpentForever(Next(q, OnWait(c, key)), es, q.waits[IdentityOf(c)].serial);
  }

  /** The unit of work is drained once: a late, duplicate or foreign completion is
      refused in every later state. */
  lemma WorkIsDrainedOnce(q: Queue, work: Work, success: bool, es: seq<Step>, again: bool)
    requires Reached(q) && q.work == Some(work)
    ensures var later := Replay(DoFinish(q, work, success).0, es); DoFinish(later, work, again) == (later, false)
  {
    ReachedSerials(q);
    ReachedKeeps(q);
    FinishSpends(q, work, success);
    StepKeeps(q, Finish(work, success));
    SpentForever(Next(q, Finish(work, success)), es, work.serial);
  }

  // ---- first come, first served -------------------------------------------------------------

  ghost predicate QueuedFor(q: Queue, key: Artifact) {
    Find(q.jobs, key).Some? && Find(q.jobs, key).value.state.Queued?
  }

  lemma {:induction false} AheadWithout(jobs: seq<Job>, other: Artifact, key: Artifact)
    requires other != key
    ensures Ahead(Without(jobs, other), key) <= Ahead(jobs, key)
    ensures Find(Without(jobs, other), key) == Find(jobs, key)
  {
    if jobs != [] && jobs[0].key != other { AheadWithout(jobs[1..], other, key); }
  }

  /** A job that was not queued before does not become so. */
  lemma {:induction false} AheadWith(jobs: seq<Job>, job: Job, key: Artifact)
    requires Find(jobs, job.key).Some? && (job.state.Queued? ==> Find(jobs, job.key).value.state.Queued?)
    ensures Ahead(With(jobs, job), key) <= Ahead(jobs, key)
  {
    if jobs != [] && jobs[0].key != job.key { AheadWith(jobs[1..], job, key); }
  }

  lemma {:induction false} AheadAppend(jobs: seq<Job>, job: Job, key: Artifact)
    requires Find(jobs, key).Some?
    ensures Ahead(jobs + [job], key) == Ahead(jobs, key)
  {
    assert (jobs + [job])[1..] == jobs[1..] + [job];
    if jobs[0].key != key { AheadAppend(jobs[1..], job, key); }
  }

  lemma AheadLeave(jobs: seq<Job>, t: Ticket, key: Artifact)
    requires Uniq(jobs) && Find(Leave(jobs, t), key).Some?
    ensures Find(jobs, key).Some? && Ahead(Leave(jobs, t), key) <= Ahead(jobs, key)
  {
    if Find(jobs, t.key).Some? {
      FindWithout(jobs, t.key);
      var left := Find(jobs, t.key).value.(consumers := Find(jobs, t.key).value.consumers - {t});
      FindWith(jobs, left);
      AheadWith(jobs, left, key);
      if key != t.key { AheadWithout(jobs, t.key, key); }
    }
  }

  lemma AheadJoin(jobs: seq<Job>, t: Ticket, key: Artifact)
    requires Find(jobs, key).Some?
    ensures Ahead(Join(jobs, t), key) <= Ahead(jobs, key)
  {
    match Find(jobs, t.key)
    case None => AheadAppend(jobs, Job(t.key, Queued, {t}), key);
    case Some(job) => AheadWith(jobs, job.(consumers := job.consumers + {t}), key);
  }

  lemma AheadSuperseded(jobs: seq<Job>, previous: Option<Ticket>, other: Artifact, key: Artifact)
    requires Uniq(jobs) && Find(Superseded(jobs, previous, other), key).Some?
    ensures Find(jobs, key).Some? && Ahead(Superseded(jobs, previous, other), key) <= Ahead(jobs, key)
  {
    if previous.Some? {
      var t := previous.value;
      if t.key != other { AheadLeave(jobs, t, key); }
      else if Find(jobs, other).Some? {
        var left := Find(jobs, other).value.(consumers := Find(jobs, other).value.consumers - {t});
        FindWith(jobs, left);
        AheadWith(jobs, left, key);
      }
    }
  }

  lemma AheadRoom(q: Queue, other: Artifact, key: Artifact)
    requires Uniq(q.jobs) && Find(Room(q, other), key).Some?
    ensures Find(q.jobs, key).Some? && Ahead(Room(q, other), key) <= Ahead(q.jobs, key)
  {
    if Room(q, other) != q.jobs {
      FindWithout(q.jobs, Victim(q.jobs).value);
      AheadWithout(q.jobs, Victim(q.jobs).value, key);
    }
  }

  /** The step hands out a unit of work. */
  predicate Begins(q: Queue, e: Step) {
    e.BeginNext? && DoBegin(q, e.grant).1.Some?
  }

  ghost predicate AllWanted(jobs: seq<Job>) {
    forall j :: j in jobs && j.state.Queued? ==> j.consumers != {}
  }

  lemma QueuedAreWanted(q: Queue)
    requires Inv(q)
    ensures AllWanted(q.jobs)
  {
    Binds(q);
    forall j | j in q.jobs && j.state.Queued? ensures j.consumers != {} {
      FindListed(q.jobs, j);
      assert JobFits(j, q.waits, q.work, None);
    }
  }

  /** The job begun is the first queued one. */
  lemma {:induction false} BeginIsFirst(jobs: seq<Job>, key: Artifact)
    requires Uniq(jobs) && AllWanted(jobs) && NextJob(jobs).Some? && Find(jobs, key).Some?
    requires Find(jobs, key).value.state.Queued?
    ensures NextJob(jobs).value.key == key <==> Ahead(jobs, key) == 0
    ensures NextJob(jobs).value.key != key ==>
            Ahead(With(jobs, NextJob(jobs).value.(state := Running)), key) == Ahead(jobs, key) - 1
  {
    if !Startable(jobs[0]) {
      assert jobs[0] in jobs;
      DistinctKeys(jobs);
      BeginIsFirst(jobs[1..], key);
      assert NextJob(jobs).value in jobs[1..];
    }
  }

  lemma AheadBegin(q: Queue, grant: bool, key: Artifact)
    requires Inv(q) && QueuedFor(q, key) && QueuedFor(DoBegin(q, grant).0, key)
    ensures Ahead(DoBegin(q, grant).0.jobs, key) == Ahead(q.jobs, key) - if DoBegin(q, grant).1.Some? then 1 else 0
  {
    if DoBegin(q, grant).1.Some? {
      QueuedAreWanted(q);
      Take(q, Keys);
      BeginIsFirst(q.jobs, key);
      var job := NextJob(q.jobs).value;
      FindListed(q.jobs, job);
      FindWith(q.jobs, job.(state := Running));
    }
  }

  lemma AheadChain(q: Queue, previous: Option<Ticket>, t: Ticket, key: Artifact)
    requires Uniq(q.jobs) && QueuedFor(q, key) && Uniq(Room(q, t.key))
    requires Uniq(Superseded(Room(q, t.key), previous, t.key))
    requires Find(Join(Superseded(Room(q, t.key), previous, t.key), t), key).Some?
    requires previous.Some? && t.key == key ==> Find(Superseded(Room(q, key), previous, key), key).Some?
    ensures Ahead(Join(Superseded(Room(q, t.key), previous, t.key), t), key) <= Ahead(q.jobs, key)
  {
    var room := Room(q, t.key);
    var rest := Superseded(room, previous, t.key);
    JoinLooks(rest, t);
    if Find(rest, key).Some? {
      AheadSuperseded(room, previous, t.key, key);
      AheadRoom(q, t.key, key);
      AheadJoin(rest, t, key);
    }
  }

  lemma AheadWait(q: Queue, c: Consumer, other: Artifact, key: Artifact)
    requires Inv(q) && QueuedFor(q, key) && QueuedFor(DoWait(q, c, other).0, key)
    ensures Ahead(DoWait(q, c, other).0.jobs, key) <= Ahead(q.jobs, key)
  {
    if Refusal(q, c, other).None? {
      Binds(q);
      RoomAgrees(q, c, other);
      SupersededAgrees(Room(q, other), q.waits, q.work, IdentityOf(c), other);
      AheadChain(q, Previous(q, c), Ticket(q.issued, other, c), key);
    }
  }

  lemma AheadCancel(q: Queue, t: Ticket, key: Artifact)
    requires Inv(q) && QueuedFor(q, key) && QueuedFor(DoCancel(q, t).0, key)
    ensures Ahead(DoCancel(q, t).0.jobs, key) <= Ahead(q.jobs, key)
  {
    Take(q, Keys);
    if DoCancel(q, t).1 { AheadLeave(q.jobs, t, key); }
  }

  lemma AheadFinish(q: Queue, work: Work, success: bool, key: Artifact)
    requires Inv(q) && QueuedFor(q, key) && QueuedFor(DoFinish(q, work, success).0, key)
    ensures Ahead(DoFinish(q, work, success).0.jobs, key) <= Ahead(q.jobs, key)
  {
    if q.work == Some(work) && !q.closed {
      Take(q, Worker);
      AheadWith(q.jobs, Find(q.jobs, work.key).value.(state := if success then Complete else Failed), key);
    }
  }

  lemma AheadForget(q: Queue, other: Artifact, key: Artifact)
    requires Inv(q) && QueuedFor(q, key) && QueuedFor(DoForget(q, other).0, key)
    ensures Ahead(DoForget(q, other).0.jobs, key) <= Ahead(q.jobs, key)
  {
    Take(q, Keys);
    FindWithout(q.jobs, other);
    if other != key { AheadWithout(q.jobs, other, key); }
  }

  lemma ClosedQueuesNothing(q: Queue, key: Artifact)
    requires Inv(q)
    ensures !QueuedFor(DoClose(q), key)
  {
    CloseBinds(q);
  }

  /** While a job stays queued nothing gets ahead of it, and every unit of work that
      begins was ahead of it. */
  lemma AheadStep(q: Queue, e: Step, key: Artifact)
    requires Inv(q) && QueuedFor(q, key) && QueuedFor(Next(q, e), key)
    ensures Ahead(Next(q, e).jobs, key) + (if Begins(q, e) then 1 else 0) <= Ahead(q.jobs, key)
  {
    match e
    case OnWait(c, other) => AheadWait(q, c, other, key);
    case Cancel(t) => AheadCancel(q, t, key);
    case Wake(t, answer) => AheadCancel(q, t, key);
    case BeginNext(grant) => AheadBegin(q, grant, key);
    case Finish(work, success) => AheadFinish(q, work, success, key);
    case Forget(other) => AheadForget(q, other, key);
    case Close => ClosedQueuesNothing(q, key);
  }

  function Begun(q: Queue, es: seq<Step>): nat
    decreases |es|
  {
    if es == [] then 0 else (if Begins(q, es[0]) then 1 else 0) + Begun(Next(q, es[0]), es[1..])
  }

  ghost predicate StaysQueued(q: Queue, es: seq<Step>, key: Artifact)
    decreases |es|
  {
    QueuedFor(q, key) && (es == [] || StaysQueued(Next(q, es[0]), es[1..], key))
  }

  /** First come, first served: over any run in which a job stays queued, no more
      units of work begin than there were queued jobs before it. */
  lemma {:induction false} OvertakingIsImpossible(q: Queue, es: seq<Step>, key: Artifact)
    requires Inv(q) && StaysQueued(q, es, key)
    ensures Begun(q, es) + Ahead(Replay(q, es).jobs, key) <= Ahead(q.jobs, key)
    decreases |es|
  {
    if es != [] {
      AheadStep(q, es[0], key);
      StepKeeps(q, es[0]);
      OvertakingIsImpossible(Next(q, es[0]), es[1..], key);
    }
  }

  /** With nothing ahead of it, the job is the next one to begin. */
  lemma FrontBeginsNext(q: Queue, key: Artifact)
    requires Reached(q) && QueuedFor(q, key) && Ahead(q.jobs, key) == 0 && !q.closed && q.work.None?
    ensures DoBegin(q, true).1.Some? && DoBegin(q, true).1.value.key == key
  {
    ReachedKeeps(q);
    Take(q, Keys);
    QueuedAreWanted(q);
    assert Find(q.jobs, key).value in q.jobs;
    BeginIsFirst(q.jobs, key);
  }

  // ---- a new wait disturbs nobody else ---------------------------------------------------------

  lemma RoomKeeps(q: Queue, other: Artifact, k: Artifact)
    requires Uniq(q.jobs) && Find(Room(q, other), k).Some?
    ensures Find(q.jobs, k) == Find(Room(q, other), k)
  {
    if Room(q, other) != q.jobs { FindWithout(q.jobs, Victim(q.jobs).value); }
  }

  lemma SupersededKeeps(jobs: seq<Job>, previous: Option<Ticket>, other: Artifact, k: Artifact)
    requires Uniq(jobs) && Find(Superseded(jobs, previous, other), k).Some?
    ensures Find(jobs, k).Some? && Find(jobs, k).value.state == Find(Superseded(jobs, previous, other), k).value.state
  {
    if previous.Some? && Find(jobs, previous.value.key).Some? {
      FindWithout(jobs, previous.value.key);
      FindWith(jobs, Left(Find(jobs, previous.value.key).value, previous.value));
    }
  }

  lemma OthersChain(room: seq<Job>, waits: map<Identity, Ticket>, work: Option<Work>, t: Ticket, u: Ticket)
    requires Bound(room, waits, work) == true
    requires IdentityOf(u.consumer) in waits && waits[IdentityOf(u.consumer)] == u
    requires IdentityOf(u.consumer) != IdentityOf(t.consumer)
    ensures var previous := if IdentityOf(t.consumer) in waits then Some(waits[IdentityOf(t.consumer)]) else None;
            var rest := Superseded(room, previous, t.key);
            Uniq(rest) && Find(rest, u.key).Some? && u in Find(rest, u.key).value.consumers
  {
    var id := IdentityOf(t.consumer);
    SupersededAgrees(room, waits, work, id, t.key);
    assert IdentityOf(u.consumer) in waits - {id};
    assert WaitFits(IdentityOf(u.consumer), u, Superseded(room, if id in waits then Some(waits[id]) else None, t.key));
  }

  lemma StateKept(room: seq<Job>, previous: Option<Ticket>, t: Ticket, k: Artifact)
    requires Uniq(room) && Uniq(Superseded(room, previous, t.key)) && Find(Superseded(room, previous, t.key), k).Some?
    ensures Find(Join(Superseded(room, previous, t.key), t), k).Some? && Find(room, k).Some?
    ensures Find(Join(Superseded(room, previous, t.key), t), k).value.state == Find(room, k).value.state
  {
    SupersededKeeps(room, previous, t.key, k);
    JoinLooks(Superseded(room, previous, t.key), t);
  }

  /** An admitted wait leaves every other consumer's ticket live and its job in the
      same state; a finished job may be evicted for it only if nobody waits for it. */
  lemma OthersKeepWaiting(q: Queue, c: Consumer, key: Artifact, u: Ticket, state: Progress)
    requires Inv(q) && Refusal(q, c, key).None? && Demands(q, u, state) && IdentityOf(u.consumer) != IdentityOf(c)
    ensures Demands(DoWait(q, c, key).0, u, state)
  {
    Binds(q);
    RoomAgrees(q, c, key);
    var t := Ticket(q.issued, key, c);
    OthersChain(Room(q, key), q.waits, q.work, t, u);
    StateKept(Room(q, key), Previous(q, c), t, u.key);
    RoomKeeps(q, key, u.key);
  }

  // ---- closing ----------------------------------------------------------------------------------

  /** After `close` no run admits or begins anything: nobody waits and only the work
      in flight at the close can still be out. */
  lemma {:induction false} ClosedStays(q: Queue, es: seq<Step>)
    requires Inv(q) && q.closed
    ensures Replay(q, es).closed && Replay(q, es).waits == map[]
    ensures (Replay(q, es).work == q.work || Replay(q, es).work.None?)
    ensures Replay(q, es).work.None? ==> Replay(q, es).jobs == []
    decreases |es|
  {
    if es == [] {
      Take(q, Ended);
      Binds(q);
      if q.jobs != [] {
        FindListed(q.jobs, q.jobs[0]);
        assert JobFits(q.jobs[0], q.waits, q.work, None);
      }
    } else {
      Take(q, Ended);
      StepKeeps(q, es[0]);
      ClosedStays(Next(q, es[0]), es[1..]);
    }
  }

  /** Once closed and drained, nothing ever changes again. */
  lemma {:induction false} DrainedIsFinal(q: Queue, es: seq<Step>)
    requires Inv(q) && q.closed && q.work.None?
    ensures Replay(q, es) == q
    decreases |es|
  {
    if es != [] {
      ClosedStays(q, []);
      assert Next(q, es[0]) == q;
      DrainedIsFinal(q, es[1..]);
    }
  }
}
