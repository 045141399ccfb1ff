/** src/cacheslide_vllm/wait_queue.py: the queue object itself. Every method is proved
    against the machine of Waiting.dfy. */
module WaitCalls {
  import opened Basics
  import opened Waiting
  import opened WaitingSafety
  import WO = WaitOutcomes

  /** `close` after every wait was cancelled: what runs stays as it is. */
  function Kept(jobs: seq<Job>): seq<Job> {
    if jobs == [] then []
    else if jobs[0].state.Running? then [jobs[0]] + Kept(jobs[1..])
    else Kept(jobs[1..])
  }

  /** A departing consumer makes no difference to what `close` keeps. */
  lemma {:induction false} RunningWith(jobs: seq<Job>, job: Job)
    requires Find(jobs, job.key).Some? && Find(jobs, job.key).value.(consumers := {}) == job.(consumers := {})
    ensures OnlyRunning(With(jobs, job)) == OnlyRunning(jobs)
  {
    if jobs[0].key != job.key { RunningWith(jobs[1..], job); }
  }

  lemma {:induction false} RunningWithout(jobs: seq<Job>, key: Artifact)
    requires Find(jobs, key).Some? ==> !Find(jobs, key).value.state.Running?
    ensures OnlyRunning(Without(jobs, key)) == OnlyRunning(jobs)
  {
    if jobs != [] && jobs[0].key != key { RunningWithout(jobs[1..], key); }
  }

  lemma RunningLeave(jobs: seq<Job>, t: Ticket)
    ensures OnlyRunning(Leave(jobs, t)) == OnlyRunning(jobs)
  {
    if Find(jobs, t.key).Some? {
      RunningWith(jobs, Left(Find(jobs, t.key).value, t));
      if !Find(jobs, t.key).value.state.Running? { RunningWithout(jobs, t.key); }
    }
  }

  lemma {:induction false} KeptIsRunning(jobs: seq<Job>)
    requires forall j :: j in jobs ==> j.consumers == {}
    ensures Kept(jobs) == OnlyRunning(jobs)
  {
    if jobs != [] {
      assert jobs[0] in jobs;
      KeptIsRunning(jobs[1..]);
    }
  }

  /** With no waits left no job has a consumer. */
  lemma NobodyWaits(jobs: seq<Job>, work: Option<Work>)
    requires Agree(jobs, map[], work, None)
    ensures forall j :: j in jobs ==> j.consumers == {}
  {
    forall j | j in jobs ensures j.consumers == {} {
      FindListed(jobs, j);
      assert JobFits(j, map[], work, None);
    }
  }

  /** The jobs are at their limit and all still needed. */
  predicate RoomRefused(q: Queue, key: Artifact) {
    Find(q.jobs, key).None? && |q.jobs| >= q.maxJobs && Victim(q.jobs).None?
  }

  /** What `on_wait` leaves once it is admitted. */
  lemma AdmittedIs(q: Queue, now: Queue, c: Consumer, key: Artifact)
    requires Refusal(q, c, key).None?
    requires var t := Ticket(q.issued, key, c);
             now == q.(issued := q.issued + 1, jobs := Join(Superseded(Room(q, key), Previous(q, c), key), t),
                       waits := q.waits[IdentityOf(c) := t])
    ensures DoWait(q, c, key).0 == now && DoWait(q, c, key).1 == Ok(Ticket(q.issued, key, c))
  {}

  lemma RefusedIs(q: Queue, c: Consumer, key: Artifact, e: Error)
    requires Refusal(q, c, key) == Some(e)
    ensures DoWait(q, c, key).0 == q && DoWait(q, c, key).1 == Err(e)
  {}

  lemma OneLess(waits: map<Identity, Ticket>, id: Identity)
    requires id in waits
    ensures |waits - {id}| < |waits|
  {
    assert waits == (waits - {id})[id := waits[id]];
  }

  class WaitQueue {
    const maxJobs: nat
    const maxConsumers: nat
    var jobs: seq<Job>
    var waits: map<Identity, Ticket>
    var work: Option<Work>
    var issued: nat
    var errors: nat
    var closed: bool

    function State(): Queue
      reads this
    {
      Queue(maxJobs, maxConsumers, jobs, waits, work, issued, errors, closed)
    }

    ghost predicate Valid()
      reads this
    {
      Inv(State()) == true
    }

    constructor (maxJobs: nat, maxConsumers: nat)
      ensures Valid() && State() == NewQueue(maxJobs, maxConsumers)
    {
      this.maxJobs, this.maxConsumers := maxJobs, maxConsumers;
      jobs, waits, work, issued, errors, closed := [], map[], None, 0, 0, false;
      new;
      NewKeeps(maxJobs, maxConsumers);
    }

    /** The oldest terminal job without consumers, found by a scan. */
    method OldestOver() returns (r: Option<Artifact>)
      ensures r == Victim(jobs)
    {
      var i := 0;
      assert jobs[0..] == jobs;
      while i < |jobs|
        invariant 0 <= i <= |jobs| && Victim(jobs[i..]) == Victim(jobs)
      {
        assert jobs[i..][1..] == jobs[i + 1..];
        if Over(jobs[i]) { return Some(jobs[i].key); }
        i := i + 1;
      }
      r := None;
    }

    /** Jobs and waits agree, also between the two halves of `on_wait`. */
    ghost predicate Sound()
      reads this`jobs, this`waits, this`work
    {
      Agree(jobs, waits, work, None) == true
    }

    /** The consumer leaves its job, whose lookup cannot miss. */
    method Unlist(t: Ticket)
      requires Find(jobs, t.key).Some? && Uniq(jobs)
      modifies this`jobs
      ensures jobs == Leave(old(jobs), t)
    {
      var job := Find(jobs, t.key).value;
      var left := job.(consumers := job.consumers - {t});
      WithThenWithout(jobs, left);
      jobs := With(jobs, left);
      if left.consumers == {} && left.state.Queued? { jobs := Without(jobs, t.key); }
    }

    method Cancel(t: Ticket) returns (live: bool)
      requires Sound()
      modifies this`jobs, this`waits
      ensures Sound() && live == (IdentityOf(t.consumer) in old(waits) && old(waits)[IdentityOf(t.consumer)] == t)
      ensures jobs == if live then Leave(old(jobs), t) else old(jobs)
      ensures waits == if live then old(waits) - {IdentityOf(t.consumer)} else old(waits)
    {
      var id := IdentityOf(t.consumer);
      if id !in waits || waits[id] != t { return false; }
      assert Agree(Leave(jobs, t), waits - {id}, work, None) == true by { LeaveAgrees(jobs, waits, work, id); }
      LiveTicketFindsJob(jobs, waits, id);
      waits := waits - {id};
      Unlist(t);
      live := true;
    }

    /** The consumer's earlier wait is taken back: cancelled, unless it is for the same
        artifact, whose job then keeps its place. */
    method TakeBack(id: Identity, key: Artifact)
      requires Sound()
      modifies this`jobs, this`waits
      ensures jobs == Superseded(old(jobs), if id in old(waits) then Some(old(waits)[id]) else None, key)
      ensures waits == old(waits) || waits == old(waits) - {id}
    {
      if id in waits {
        var previous := waits[id];
        assert Find(jobs, previous.key).Some? && IdentityOf(previous.consumer) == id by {
          LiveTicketFindsJob(jobs, waits, id);
        }
        if previous.key == key {
          var job := Find(jobs, key).value;
          jobs := With(jobs, job.(consumers := job.consumers - {previous}));
        } else {
          var _ := Cancel(previous);
        }
      }
    }

    /** The job is found or appended, and the new ticket joins it. */
    method Enlist(c: Consumer, key: Artifact) returns (t: Ticket)
      modifies this`jobs, this`waits, this`issued
      ensures t == Ticket(old(issued), key, c) && issued == old(issued) + 1
      ensures jobs == Join(old(jobs), t) && waits == old(waits)[IdentityOf(c) := t]
    {
      t := Ticket(issued, key, c);
      issued := issued + 1;
      match Find(jobs, key) {
        case None => jobs := jobs + [Job(key, Queued, {t})];
        case Some(job) => jobs := With(jobs, job.(consumers := job.consumers + {t}));
      }
      waits := waits[IdentityOf(c) := t];
    }

    /** A full catalog gives up its oldest finished job, or there is no room. */
    method MakeRoom(key: Artifact) returns (ok: bool)
      modifies this`jobs
      ensures ok <==> !RoomRefused(old(State()), key)
      ensures jobs == if ok then Room(old(State()), key) else old(jobs)
    {
      ok := true;
      if Find(jobs, key).None? && |jobs| >= maxJobs {
        var victim := OldestOver();
        if victim.None? { return false; }
        jobs := Without(jobs, victim.value);
      }
    }

    /** The second half of `on_wait`, which cannot fail. */
    method Admit(c: Consumer, key: Artifact) returns (t: Ticket)
      requires Sound()
      modifies this`jobs, this`waits, this`issued
      ensures t == Ticket(old(issued), key, c) && issued == old(issued) + 1 && waits == old(waits)[IdentityOf(c) := t]
      ensures jobs == Join(Superseded(old(jobs), if IdentityOf(c) in old(waits) then Some(old(waits)[IdentityOf(c)])
                  else None, key), t)
    {
      ghost var earlier := waits;
      TakeBack(IdentityOf(c), key);
      t := Enlist(c, key);
      assert waits == earlier[IdentityOf(c) := t];
    }

    /** Every check comes before the first change. */
    method OnWait(c: Consumer, key: Artifact) returns (r: Result<Ticket>)
      requires Valid()
      modifies this
      ensures State() == DoWait(old(State()), c, key).0
      ensures r == DoWait(old(State()), c, key).1
      ensures Valid()
      ensures r == if old(closed) then Err(Busy)
                   else if (c.engine, c.request) in old(waits)
                           && old(waits)[(c.engine, c.request)].consumer.generation > c.generation then Err(Invalid)
                   else if ((c.engine, c.request) !in old(waits) && |old(waits)| >= maxConsumers)
                           || !old(WO.HasRoom(State(), key)) then Err(Capacity)
                   else Ok(Ticket(old(issued), key, c))
      ensures waits == if r.Ok? then old(waits)[(c.engine, c.request) := r.value] else old(waits)
      ensures r.Err? ==> State() == old(State())
    {
      ghost var q := State();
      WO.WaitAnswers(q, c, key);
      assert Inv(DoWait(q, c, key).0) == true by { StepKeeps(q, Step.OnWait(c, key)); }
      var refused := Early(c, key);
      if refused.Some? {
        RefusedIs(q, c, key, refused.value);
        return Err(refused.value);
      }
      assert Agree(Room(q, key), q.waits, q.work, None) == true by { Binds(q); RoomAgrees(q, c, key); }
      r := Settle(c, key);
    }

    /** Room is made for the job, if need be, and the wait admitted. */
    method Settle(c: Consumer, key: Artifact) returns (r: Result<Ticket>)
      requires Agree(Room(State(), key), waits, work, None) == true
      requires Refusal(State(), c, key) == if RoomRefused(State(), key) then Some(Capacity) else None
      modifies this`jobs, this`waits, this`issued
      ensures State() == DoWait(old(State()), c, key).0
      ensures r == DoWait(old(State()), c, key).1
    {
      ghost var q := State();
      var ok := MakeRoom(key);
      if !ok {
        RefusedIs(q, c, key, Capacity);
        return Err(Capacity);
      }
      var t := Admit(c, key);
      AdmittedIs(q, State(), c, key);
      r := Ok(t);
    }

    /** The refusals that need no room for a job. */
    method Early(c: Consumer, ghost key: Artifact) returns (r: Option<Error>)
      ensures r.Some? ==> Refusal(State(), c, key) == r
      ensures r.None? ==>
                Refusal(State(), c, key) == if RoomRefused(State(), key) then Some(Capacity) else None
    {
      var id := IdentityOf(c);
      if closed { return Some(Busy); }
      if id in waits && c.generation < waits[id].consumer.generation { return Some(Invalid); }
      if id !in waits && |waits| >= maxConsumers { return Some(Capacity); }
      return None;
    }

    /** The backend's answer: only a lease for exactly this wait is handed on. */
    method Judge(t: Ticket, answer: Answer) returns (r: Option<Lease>)
      modifies this`errors
      ensures r == if answer.Pinned? && answer.lease == Lease(t.key, t.consumer) then Some(answer.lease) else None
      ensures errors == old(errors) + if r.Some? || answer.Miss? then 0 else if answer.Pinned? && answer.fails then 2
              else 1
    {
      match answer {
        case Miss => r := None;
        case Raised =>
          errors := errors + 1;
          r := None;
        case Pinned(lease, fails) =>
          if lease.key == t.key && lease.consumer == t.consumer { return Some(lease); }
          errors := errors + 1;
          if fails { errors := errors + 1; }
          r := None;
      }
    }

    method OnWake(t: Ticket, answer: Answer) returns (r: Option<Lease>)
      requires Valid()
      modifies this
      ensures State() == DoWake(old(State()), t, answer).0
      ensures r == DoWake(old(State()), t, answer).1
      ensures Valid()
    {
      ghost var q := State();
      assert Inv(DoWake(q, t, answer).0) == true by { StepKeeps(q, Step.Wake(t, answer)); }
      assert Sound() by { Binds(q); }
      var live := Cancel(t);
      if !live { return None; }
      r := Judge(t, answer);
      assert State() == DoWake(q, t, answer).0;
    }

    /** The first queued job somebody waits for, found by a scan. */
    method FirstStartable() returns (r: Option<Job>)
      ensures r == NextJob(jobs)
    {
      var i := 0;
      assert jobs[0..] == jobs;
      while i < |jobs|
        invariant 0 <= i <= |jobs| && NextJob(jobs[i..]) == NextJob(jobs)
      {
        assert jobs[i..][1..] == jobs[i + 1..];
        if Startable(jobs[i]) { return Some(jobs[i]); }
        i := i + 1;
      }
      r := None;
    }

    /** A closed queue refuses before it looks at the grant. */
    method BeginNext(grant: bool) returns (r: Result<Option<Work>>)
      requires Valid()
      modifies this
      ensures Valid() && State() == DoBegin(old(State()), grant).0
      ensures r == if old(closed) then Err(Busy) else Ok(DoBegin(old(State()), grant).1)
    {
      StepKeeps(State(), Step.BeginNext(grant));
      if closed { return Err(Busy); }
      if !grant || work.Some? { return Ok(None); }
      var job := FirstStartable();
      if job.None? { return Ok(None); }
      work := Some(Work(issued, job.value.key));
      issued := issued + 1;
      jobs := With(jobs, job.value.(state := Running));
      r := Ok(work);
    }

    method Complete(unit: Work, success: bool) returns (ok: bool)
      requires Valid()
      modifies this
      ensures Valid() && (State(), ok) == DoFinish(old(State()), unit, success)
      ensures ok <==> old(work) == Some(unit)
    {
      StepKeeps(State(), Finish(unit, success));
      if work != Some(unit) { return false; }
      Binds(State());
      var job := Find(jobs, unit.key).value;
      jobs := With(jobs, job.(state := if success then Progress.Complete else Failed));
      work := None;
      if closed { jobs := []; }
      ok := true;
    }

    method Forget(key: Artifact) returns (r: Result<bool>)
      requires Valid()
      modifies this
      ensures Valid() && (State(), r) == DoForget(old(State()), key)
    {
      StepKeeps(State(), Step.Forget(key));
      if closed { return Err(Busy); }
      match Find(jobs, key) {
        case None => r := Ok(false);
        case Some(job) =>
          if job.consumers != {} || (!job.state.Complete? && !job.state.Failed?) { return Err(Invalid); }
          jobs := Without(jobs, key);
          r := Ok(true);
      }
    }

    lemma AnyTicketIsLive(id: Identity)
      requires Sound() && id in waits
      ensures IdentityOf(waits[id].consumer) == id
    {
      LiveTicketFindsJob(jobs, waits, id);
    }

    /** Every live ticket is cancelled, in whatever order. */
    method CancelAll()
      requires Sound()
      modifies this`jobs, this`waits
      ensures Sound() && waits == map[] && OnlyRunning(jobs) == OnlyRunning(old(jobs))
    {
      while waits != map[]
        invariant Sound() && OnlyRunning(jobs) == OnlyRunning(old(jobs))
        decreases |waits|
      {
        var id :| id in waits;
        RunningLeave(jobs, waits[id]);
        OneLess(waits, id);
        AnyTicketIsLive(id);
        var _ := Cancel(waits[id]);
      }
    }

    method Close() returns (drained: bool)
      requires Valid()
      modifies this
      ensures Valid() && State() == DoClose(old(State())) && drained == work.None?
    {
      assert Inv(DoClose(State())) == true by { StepKeeps(State(), Step.Close); }
      assert Sound() by { Binds(State()); }
      closed := true;
      CancelAll();
      NobodyWaits(jobs, work);
      KeptIsRunning(jobs);
      jobs := Kept(jobs);
      drained := work.None?;
    }
  }
}
