/** What every run of the wait queue keeps, and first-in-first-out progress. */
module WaitingSafety {
  import opened Basics
  import opened Waiting

  // ---- the ordered dictionary behaves as one -----------------------------------------

  ghost predicate Uniq(jobs: seq<Job>) {
    forall i, j :: 0 <= i < j < |jobs| ==> jobs[i].key != jobs[j].key
  }

  lemma DistinctKeys(jobs: seq<Job>)
    requires Uniq(jobs) && jobs != []
    ensures Uniq(jobs[1..]) && Find(jobs[1..], jobs[0].key).None?
  {
    forall j | j in jobs[1..] ensures j.key != jobs[0].key {
      var i :| 1 <= i < |jobs| && jobs[i] == j;
    }
  }

  lemma {:induction false} WithoutKeeps(jobs: seq<Job>, key: Artifact)
    requires Uniq(jobs)
    ensures forall j :: j in Without(jobs, key) ==> j in jobs
    ensures Uniq(Without(jobs, key))
  {
    if jobs != [] && jobs[0].key != key {
      WithoutKeeps(jobs[1..], key);
      var rest := Without(jobs[1..], key);
      forall i | 0 <= i < |rest| ensures rest[i].key != jobs[0].key {
        assert rest[i] in jobs[1..];
      }
    }
  }

  lemma {:induction false} FindWithout(jobs: seq<Job>, key: Artifact)
    requires Uniq(jobs)
    ensures forall k :: Find(Without(jobs, key), k) == if k == key then None else Find(jobs, k)
    ensures |Without(jobs, key)| == if Find(jobs, key).Some? then |jobs| - 1 else |jobs|
  {
    if jobs != [] {
      DistinctKeys(jobs);
      FindWithout(jobs[1..], key);
    }
  }

  lemma {:induction false} FindWith(jobs: seq<Job>, job: Job)
    requires Uniq(jobs)
    ensures Uniq(With(jobs, job)) && |With(jobs, job)| == |jobs|
    ensures forall k :: Find(With(jobs, job), k) == if k == job.key && Find(jobs, k).Some? then Some(job)
            else Find(jobs, k)
    ensures forall i :: 0 <= i < |jobs| ==> With(jobs, job)[i].key == jobs[i].key
  {
    if jobs != [] {
      FindWith(jobs[1..], job);
      if jobs[0].key != job.key {
        assert With(jobs, job) == [jobs[0]] + With(jobs[1..], job);
        forall i | 0 <= i < |jobs| ensures With(jobs, job)[i].key == jobs[i].key {
          if i > 0 { assert With(jobs, job)[i] == With(jobs[1..], job)[i - 1]; }
        }
      }
    }
  }

  lemma {:induction false} FindAppend(jobs: seq<Job>, job: Job)
    requires Uniq(jobs) && Find(jobs, job.key).None?
    ensures Uniq(jobs + [job])
    ensures forall k :: Find(jobs + [job], k) == if k == job.key then Some(job) else Find(jobs, k)
  {
    forall i | 0 <= i < |jobs| ensures jobs[i].key != job.key { assert jobs[i] in jobs; }
    FindLast(jobs, job);
  }

  lemma {:induction false} FindLast(jobs: seq<Job>, job: Job)
    requires forall j :: j in jobs ==> j.key != job.key
    ensures forall k :: Find(jobs + [job], k) == if k == job.key then Some(job) else Find(jobs, k)
  {
    if jobs != [] {
      assert (jobs + [job])[1..] == jobs[1..] + [job];
      FindLast(jobs[1..], job);
    }
  }

  lemma {:induction false} FindListed(jobs: seq<Job>, job: Job)
    requires Uniq(jobs) && job in jobs
    ensures Find(jobs, job.key) == Some(job)
  {
    if jobs[0] != job {
      var i :| 0 < i < |jobs| && jobs[i] == job;
      assert job in jobs[1..];
      FindListed(jobs[1..], job);
    }
  }

  // ---- the invariant --------------------------------------------------------------------

  /** A job's consumers are live tickets for it, it runs exactly if its work is
      issued, and if it is queued someone waits for it. `open` names a job whose
      next consumer is about to join. */
  ghost predicate JobFits(job: Job, waits: map<Identity, Ticket>, work: Option<Work>, open: Option<Artifact>) {
    && (forall t :: t in job.consumers ==>
          t.key == job.key && IdentityOf(t.consumer) in waits
          && waits[IdentityOf(t.consumer)] == t)
    && (job.state.Queued? && open != Some(job.key) ==> job.consumers != {})
    && (job.state.Running? <==> work.Some? && work.value.key == job.key)
  }

  ghost predicate JobsFit(jobs: seq<Job>, waits: map<Identity, Ticket>, work: Option<Work>, open: Option<Artifact>) {
    forall k :: Find(jobs, k).Some? ==> JobFits(Find(jobs, k).value, waits, work, open)
  }

  ghost predicate WaitFits(id: Identity, t: Ticket, jobs: seq<Job>) {
    IdentityOf(t.consumer) == id && Find(jobs, t.key).Some? && t in Find(jobs, t.key).value.consumers
  }

  ghost predicate WaitsFit(jobs: seq<Job>, waits: map<Identity, Ticket>) {
    forall id :: id in waits ==> WaitFits(id, waits[id], jobs)
  }

  ghost predicate Issued(waits: map<Identity, Ticket>, work: Option<Work>, issued: nat) {
    (forall id :: id in waits ==> waits[id].serial < issued) && (work.Some? ==> work.value.serial < issued)
  }

  datatype Clause = Keys | Jobs | Waiters | Worker | Serials | Limits | Ended

  ghost predicate Holds(q: Queue, k: Clause) {
    match k
    case Keys => Uniq(q.jobs)
    case Jobs => JobsFit(q.jobs, q.waits, q.work, None)
    case Waiters => WaitsFit(q.jobs, q.waits)
    case Worker => q.work.Some? ==> Find(q.jobs, q.work.value.key).Some?
    case Serials => Issued(q.waits, q.work, q.issued)
    case Limits => |q.jobs| <= q.maxJobs && |q.waits| <= q.maxConsumers
    case Ended => q.closed ==> q.waits == map[] && forall k :: Find(q.jobs, k).Some? ==>
        Find(q.jobs, k).value.state.Running?
  }

  ghost predicate Inv(q: Queue) {
    forall k: Clause :: Holds(q, k)
  }

  lemma Take(q: Queue, k: Clause)
    requires Inv(q)
    ensures Holds(q, k)
  {}

  // ---- one wait is taken back ---------------------------------------------------------------

  /** Jobs and waits agree. */
  ghost predicate Agree(jobs: seq<Job>, waits: map<Identity, Ticket>, work: Option<Work>, open: Option<Artifact>) {
    Uniq(jobs) && JobsFit(jobs, waits, work, open) && WaitsFit(jobs, waits)
  }

  /** The lookup of a live ticket's job never misses. */
  lemma LiveTicketFindsJob(jobs: seq<Job>, waits: map<Identity, Ticket>, id: Identity)
    requires WaitsFit(jobs, waits) && id in waits
    ensures Find(jobs, waits[id].key).Some? && waits[id] in Find(jobs, waits[id].key).value.consumers
    ensures IdentityOf(waits[id].consumer) == id
  {
    assert WaitFits(id, waits[id], jobs);
  }

  /** One job replaced by another with the same key, some waits gone or added. */
  lemma Replaced(jobs: seq<Job>, waits: map<Identity, Ticket>, work: Option<Work>, open: Option<Artifact>,
                 job: Job, waits': map<Identity, Ticket>, work': Option<Work>, open': Option<Artifact>)
    requires Uniq(jobs) && Find(jobs, job.key).Some? && JobFits(job, waits', work', open')
    requires forall k :: Find(jobs, k).Some? && k != job.key ==> JobFits(Find(jobs, k).value, waits', work', open')
    ensures JobsFit(With(jobs, job), waits', work', open')
  {
    FindWith(jobs, job);
  }

  /** A ticket for one job is not among another job's consumers. */
  lemma OtherJobFits(jobs: seq<Job>, waits: map<Identity, Ticket>, work: Option<Work>, open: Option<Artifact>,
                     id: Identity, k: Artifact)
    requires JobsFit(jobs, waits, work, open) && id in waits && Find(jobs, k).Some? && k != waits[id].key
    requires open.None? || open == Some(waits[id].key)
    ensures JobFits(Find(jobs, k).value, waits - {id}, work, Some(waits[id].key))
  {
    assert JobFits(Find(jobs, k).value, waits, work, open);
  }

  function Left(job: Job, t: Ticket): Job {
    job.(consumers := job.consumers - {t})
  }

  lemma LeftFits(job: Job, waits: map<Identity, Ticket>, work: Option<Work>, id: Identity)
    requires JobFits(job, waits, work, None) && id in waits && waits[id].key == job.key
    ensures JobFits(Left(job, waits[id]), waits - {id}, work, Some(job.key))
  {}

  lemma DetachedJobs(jobs: seq<Job>, waits: map<Identity, Ticket>, work: Option<Work>, id: Identity)
    requires Uniq(jobs) && JobsFit(jobs, waits, work, None) && id in waits && Find(jobs, waits[id].key).Some?
    ensures JobsFit(With(jobs, Left(Find(jobs, waits[id].key).value, waits[id])), waits - {id}, work,
              Some(waits[id].key))
  {
    var t := waits[id];
    var job := Find(jobs, t.key).value;
    LeftFits(job, waits, work, id);
    forall k | Find(jobs, k).Some? && k != t.key ensures JobFits(Find(jobs, k).value, waits - {id}, work, Some(t.key)) {
      OtherJobFits(jobs, waits, work, None, id, k);
    }
    Replaced(jobs, waits, work, None, Left(job, t), waits - {id}, work, Some(t.key));
  }

  lemma DetachedWaits(jobs: seq<Job>, waits: map<Identity, Ticket>, id: Identity)
    requires Uniq(jobs) && WaitsFit(jobs, waits) && id in waits && Find(jobs, waits[id].key).Some?
    ensures WaitsFit(With(jobs, Left(Find(jobs, waits[id].key).value, waits[id])), waits - {id})
  {
    var t := waits[id];
    assert WaitFits(id, t, jobs);
    FindWith(jobs, Left(Find(jobs, t.key).value, t));
    forall i | i in waits - {id} ensures WaitFits(i, waits[i], With(jobs, Left(Find(jobs, t.key).value, t))) {
      assert WaitFits(i, waits[i], jobs);
    }
  }

  /** The job of a live ticket loses that consumer but keeps its place. */
  lemma Detached(jobs: seq<Job>, waits: map<Identity, Ticket>, work: Option<Work>, id: Identity)
    requires Agree(jobs, waits, work, None) && id in waits
    ensures Find(jobs, waits[id].key).Some?
    ensures Agree(With(jobs, Left(Find(jobs, waits[id].key).value, waits[id])), waits - {id}, work, Some(waits[id].key))
  {
    LiveTicketFindsJob(jobs, waits, id);
    FindWith(jobs, Left(Find(jobs, waits[id].key).value, waits[id]));
    DetachedJobs(jobs, waits, work, id);
    DetachedWaits(jobs, waits, id);
  }

  /** An emptied queued job goes; any other stays. */
  lemma Dropped(jobs: seq<Job>, waits: map<Identity, Ticket>, work: Option<Work>, key: Artifact)
    requires Agree(jobs, waits, work, Some(key)) && Find(jobs, key).Some?
    ensures var job := Find(jobs, key).value;
            Agree(if job.consumers == {} && job.state.Queued? then Without(jobs, key) else jobs, waits, work, None)
  {
    var job := Find(jobs, key).value;
    FindWithout(jobs, key);
    WithoutKeeps(jobs, key);
    var jobs' := if job.consumers == {} && job.state.Queued? then Without(jobs, key) else jobs;
    forall k | Find(jobs', k).Some? ensures JobFits(Find(jobs', k).value, waits, work, None) {
      assert JobFits(Find(jobs, k).value, waits, work, Some(key));
    }
    forall i | i in waits ensures WaitFits(i, waits[i], jobs') {
      assert WaitFits(i, waits[i], jobs);
    }
  }

  lemma {:induction false} WithThenWithout(jobs: seq<Job>, job: Job)
    ensures Without(With(jobs, job), job.key) == Without(jobs, job.key)
  {
    if jobs != [] && jobs[0].key != job.key { WithThenWithout(jobs[1..], job); }
  }

  lemma LeaveAgrees(jobs: seq<Job>, waits: map<Identity, Ticket>, work: Option<Work>, id: Identity)
    requires Agree(jobs, waits, work, None) && id in waits
    ensures Agree(Leave(jobs, waits[id]), waits - {id}, work, None)
  {
    var t := waits[id];
    Detached(jobs, waits, work, id);
    var left := Left(Find(jobs, t.key).value, t);
    FindWith(jobs, left);
    Dropped(With(jobs, left), waits - {id}, work, t.key);
    WithThenWithout(jobs, left);
  }

  // ---- a new wait ------------------------------------------------------------------------------

  /** A job after another consumer joined. */
  function Joining(jobs: seq<Job>, t: Ticket): Job {
    match Find(jobs, t.key)
    case None => Job(t.key, Queued, {t})
    case Some(job) => job.(consumers := job.consumers + {t})
  }

  lemma JoinLooks(jobs: seq<Job>, t: Ticket)
    requires Uniq(jobs)
    ensures Uniq(Join(jobs, t))
    ensures forall k :: Find(Join(jobs, t), k) == if k == t.key then Some(Joining(jobs, t)) else Find(jobs, k)
  {
    if Find(jobs, t.key).None? { FindAppend(jobs, Joining(jobs, t)); }
    else { FindWith(jobs, Joining(jobs, t)); }
  }

  lemma JoinJobs(jobs: seq<Job>, waits: map<Identity, Ticket>, work: Option<Work>, t: Ticket)
    requires Uniq(jobs) && JobsFit(jobs, waits, work, Some(t.key)) && IdentityOf(t.consumer) !in waits
    requires work.Some? ==> Find(jobs, work.value.key).Some?
    ensures JobsFit(Join(jobs, t), waits[IdentityOf(t.consumer) := t], work, None)
  {
    JoinLooks(jobs, t);
    var waits' := waits[IdentityOf(t.consumer) := t];
    forall k | Find(Join(jobs, t), k).Some? ensures JobFits(Find(Join(jobs, t), k).value, waits', work, None) {
      if Find(jobs, k).Some? { assert JobFits(Find(jobs, k).value, waits, work, Some(t.key)); }
    }
  }

  lemma JoinWaits(jobs: seq<Job>, waits: map<Identity, Ticket>, t: Ticket)
    requires Uniq(jobs) && WaitsFit(jobs, waits)
    ensures WaitsFit(Join(jobs, t), waits[IdentityOf(t.consumer) := t])
  {
    JoinLooks(jobs, t);
    forall i | i in waits && i != IdentityOf(t.consumer) ensures WaitFits(i, waits[i], Join(jobs, t)) {
      assert WaitFits(i, waits[i], jobs);
    }
  }

  lemma JoinAgrees(jobs: seq<Job>, waits: map<Identity, Ticket>, work: Option<Work>, t: Ticket)
    requires Agree(jobs, waits, work, Some(t.key)) && IdentityOf(t.consumer) !in waits
    requires work.Some? ==> Find(jobs, work.value.key).Some?
    ensures Agree(Join(jobs, t), waits[IdentityOf(t.consumer) := t], work, None)
  {
    JoinLooks(jobs, t);
    JoinJobs(jobs, waits, work, t);
    JoinWaits(jobs, waits, t);
  }

  /** Nothing about other jobs changes when a finished job nobody waits for goes. */
  lemma ForgetAgrees(jobs: seq<Job>, waits: map<Identity, Ticket>, work: Option<Work>, key: Artifact)
    requires Agree(jobs, waits, work, None) && Find(jobs, key).Some? && Over(Find(jobs, key).value)
    ensures Agree(Without(jobs, key), waits, work, None)
    ensures work.Some? && Find(jobs, work.value.key).Some? ==> Find(Without(jobs, key), work.value.key).Some?
  {
    FindWithout(jobs, key);
    WithoutKeeps(jobs, key);
    assert JobFits(Find(jobs, key).value, waits, work, None);
    forall k | Find(Without(jobs, key), k).Some? ensures JobFits(Find(Without(jobs, key), k).value, waits, work, None) {
      assert JobFits(Find(jobs, k).value, waits, work, None);
    }
    forall i | i in waits ensures WaitFits(i, waits[i], Without(jobs, key)) {
      assert WaitFits(i, waits[i], jobs);
    }
  }

  lemma RoomAgrees(q: Queue, c: Consumer, key: Artifact)
    requires Agree(q.jobs, q.waits, q.work, None) && (q.work.Some? ==> Find(q.jobs, q.work.value.key).Some?)
    ensures Agree(Room(q, key), q.waits, q.work, None)
    ensures q.work.Some? ==> Find(Room(q, key), q.work.value.key).Some?
    ensures |Room(q, key)| <= |q.jobs|
    ensures Refusal(q, c, key).None? && |q.jobs| <= q.maxJobs && Find(Room(q, key), key).None? ==>
            |Room(q, key)| < q.maxJobs
    ensures Find(q.jobs, key).Some? ==> Room(q, key) == q.jobs
  {
    if Find(q.jobs, key).None? && |q.jobs| >= q.maxJobs && Victim(q.jobs).Some? {
      VictimIsOver(q.jobs);
      ForgetAgrees(q.jobs, q.waits, q.work, Victim(q.jobs).value);
      FindWithout(q.jobs, Victim(q.jobs).value);
    }
  }

  lemma VictimIsOver(jobs: seq<Job>)
    requires Uniq(jobs) && Victim(jobs).Some?
    ensures Find(jobs, Victim(jobs).value).Some? && Over(Find(jobs, Victim(jobs).value).value)
  {
    var j :| j in jobs && j.key == Victim(jobs).value && Over(j);
    FindListed(jobs, j);
  }

  /** What a departure can and cannot remove. */
  lemma LeaveFinds(jobs: seq<Job>, t: Ticket, k: Artifact)
    requires Uniq(jobs)
    ensures |Leave(jobs, t)| <= |jobs|
    ensures k != t.key ==> Find(Leave(jobs, t), k) == Find(jobs, k)
    ensures Find(jobs, k).Some? && !Find(jobs, k).value.state.Queued? ==>
            Find(Leave(jobs, t), k).Some? && !Find(Leave(jobs, t), k).value.state.Queued?
  {
    if Find(jobs, t.key).Some? {
      FindWithout(jobs, t.key);
      FindWith(jobs, Find(jobs, t.key).value.(consumers := Find(jobs, t.key).value.consumers - {t}));
    }
  }

  lemma WorkRuns(q: Queue)
    requires Inv(q) && q.work.Some?
    ensures Find(q.jobs, q.work.value.key).Some? && Find(q.jobs, q.work.value.key).value.state.Running?
  {
    Take(q, Worker);
    Take(q, Jobs);
    assert JobFits(Find(q.jobs, q.work.value.key).value, q.waits, q.work, None);
  }

  /** Taking the consumer's earlier wait back. */
  lemma SupersededAgrees(jobs: seq<Job>, waits: map<Identity, Ticket>, work: Option<Work>, id: Identity, key: Artifact)
    requires Agree(jobs, waits, work, None) && (work.Some? ==> Find(jobs, work.value.key).Some?)
    ensures var previous := if id in waits then Some(waits[id]) else None;
            && Agree(Superseded(jobs, previous, key), waits - {id}, work, Some(key))
            && (work.Some? ==> Find(Superseded(jobs, previous, key), work.value.key).Some?)
            && |Superseded(jobs, previous, key)| <= |jobs|
            && (Find(jobs, key).Some? ==> Find(Superseded(jobs, previous, key), key).Some?)
  {
    if id in waits {
      var t := waits[id];
      if t.key != key {
        LeaveAgrees(jobs, waits, work, id);
        LeaveFinds(jobs, t, key);
        if work.Some? {
          LeaveFinds(jobs, t, work.value.key);
          assert JobFits(Find(jobs, work.value.key).value, waits, work, None);
        }
        Opened(Leave(jobs, t), waits - {id}, work, key);
      } else {
        Detached(jobs, waits, work, id);
        FindWith(jobs, Left(Find(jobs, key).value, t));
      }
    } else {
      assert waits - {id} == waits;
      Opened(jobs, waits, work, key);
    }
  }

  lemma Opened(jobs: seq<Job>, waits: map<Identity, Ticket>, work: Option<Work>, key: Artifact)
    requires Agree(jobs, waits, work, None)
    ensures Agree(jobs, waits, work, Some(key))
  {
    forall k | Find(jobs, k).Some? ensures JobFits(Find(jobs, k).value, waits, work, Some(key)) {
      assert JobFits(Find(jobs, k).value, waits, work, None);
    }
  }

  lemma JoinFinds(jobs: seq<Job>, t: Ticket, k: Artifact)
    requires Uniq(jobs)
    ensures Find(jobs, k).Some? ==> Find(Join(jobs, t), k).Some?
    ensures |Join(jobs, t)| == if Find(jobs, t.key).Some? then |jobs| else |jobs| + 1
  {
    if Find(jobs, t.key).None? { FindAppend(jobs, Job(t.key, Queued, {t})); }
    else { FindWith(jobs, Find(jobs, t.key).value.(consumers := Find(jobs, t.key).value.consumers + {t})); }
  }

  // ---- every step keeps the invariant -----------------------------------------------------------

  /** The three clauses that tie jobs, waits and the work unit together. */
  ghost predicate Bound(jobs: seq<Job>, waits: map<Identity, Ticket>, work: Option<Work>) {
    Agree(jobs, waits, work, None) && (work.Some? ==> Find(jobs, work.value.key).Some?)
  }

  ghost predicate Tied(q: Queue) {
    Bound(q.jobs, q.waits, q.work) && |q.jobs| <= q.maxJobs
  }

  lemma Binds(q: Queue)
    requires Inv(q)
    ensures Bound(q.jobs, q.waits, q.work) && Tied(q)
  {
    Take(q, Limits); Take(q, Keys); Take(q, Jobs); Take(q, Waiters); Take(q, Worker);
  }

  lemma WaitChain(room: seq<Job>, waits: map<Identity, Ticket>, work: Option<Work>, t: Ticket)
    requires Bound(room, waits, work) == true
    ensures var id := IdentityOf(t.consumer);
            var jobs := Join(Superseded(room, if id in waits then Some(waits[id]) else None, t.key), t);
            Bound(jobs, waits[id := t], work) && |jobs| <= if Find(room, t.key).Some? then |room| else |room| + 1
  {
    var id := IdentityOf(t.consumer);
    SupersededAgrees(room, waits, work, id, t.key);
    Joined(Superseded(room, if id in waits then Some(waits[id]) else None, t.key), waits, work, t);
  }

  lemma Joined(jobs: seq<Job>, waits: map<Identity, Ticket>, work: Option<Work>, t: Ticket)
    requires Agree(jobs, waits - {IdentityOf(t.consumer)}, work, Some(t.key)) == true
    requires work.Some? ==> Find(jobs, work.value.key).Some?
    ensures Bound(Join(jobs, t), waits[IdentityOf(t.consumer) := t], work)
    ensures |Join(jobs, t)| == if Find(jobs, t.key).Some? then |jobs| else |jobs| + 1
  {
    var id := IdentityOf(t.consumer);
    assert Uniq(jobs);
    JoinAgrees(jobs, waits - {id}, work, t);
    JoinFinds(jobs, t, if work.Some? then work.value.key else 0);
    assert (waits - {id})[id := t] == waits[id := t];
  }

  lemma WaitBinds(q: Queue, c: Consumer, key: Artifact)
    requires Inv(q) && Refusal(q, c, key).None?
    ensures Tied(DoWait(q, c, key).0) == true
  {
    Binds(q);
    Take(q, Limits);
    RoomAgrees(q, c, key);
    WaitChain(Room(q, key), q.waits, q.work, Ticket(q.issued, key, c));
  }

  lemma CancelBinds(q: Queue, t: Ticket)
    requires Inv(q)
    ensures Tied(DoCancel(q, t).0) == true
  {
    Binds(q);
    var id := IdentityOf(t.consumer);
    if id in q.waits && q.waits[id] == t {
      LeaveAgrees(q.jobs, q.waits, q.work, id);
      if q.work.Some? {
        WorkRuns(q);
        LeaveFinds(q.jobs, t, q.work.value.key);
      } else {
        LeaveFinds(q.jobs, t, 0);
      }
    }
  }

  /** A job's progress and the work unit change together. */
  lemma Marked(jobs: seq<Job>, waits: map<Identity, Ticket>, work: Option<Work>, key: Artifact, state: Progress,
               work': Option<Work>)
    requires Agree(jobs, waits, work, None) && Find(jobs, key).Some? && !state.Queued?
    requires state.Running? <==> work'.Some?
    requires work'.Some? ==> work.None? && work'.value.key == key
    requires work'.None? ==> work.Some? && work.value.key == key
    ensures Bound(With(jobs, Find(jobs, key).value.(state := state)), waits, work')
  {
    var job := Find(jobs, key).value.(state := state);
    FindWith(jobs, job);
    assert JobFits(Find(jobs, key).value, waits, work, None);
    forall k | Find(jobs, k).Some? && k != key ensures JobFits(Find(jobs, k).value, waits, work', None) {
      assert JobFits(Find(jobs, k).value, waits, work, None);
    }
    Replaced(jobs, waits, work, None, job, waits, work', None);
    forall i | i in waits ensures WaitFits(i, waits[i], With(jobs, job)) {
      assert WaitFits(i, waits[i], jobs);
    }
  }

  lemma BeginBinds(q: Queue, grant: bool)
    requires Inv(q)
    ensures Tied(DoBegin(q, grant).0) == true
  {
    Binds(q);
    if !q.closed && grant && q.work.None? && NextJob(q.jobs).Some? {
      var job := NextJob(q.jobs).value;
      FindListed(q.jobs, job);
      Marked(q.jobs, q.waits, q.work, job.key, Running, Some(Work(q.issued, job.key)));
      FindWith(q.jobs, job.(state := Running));
    }
  }

  lemma FinishBinds(q: Queue, work: Work, success: bool)
    requires Inv(q)
    ensures Tied(DoFinish(q, work, success).0) == true
  {
    Binds(q);
    if q.work == Some(work) {
      var state := if success then Complete else Failed;
      Marked(q.jobs, q.waits, q.work, work.key, state, None);
      FindWith(q.jobs, Find(q.jobs, work.key).value.(state := state));
      Take(q, Ended);
    }
  }

  lemma ForgetBinds(q: Queue, key: Artifact)
    requires Inv(q)
    ensures Tied(DoForget(q, key).0) == true
  {
    Binds(q);
    if !q.closed && Find(q.jobs, key).Some? && Over(Find(q.jobs, key).value) {
      ForgetAgrees(q.jobs, q.waits, q.work, key);
      FindWithout(q.jobs, key);
    }
  }

  lemma {:induction false} OnlyRunningFinds(jobs: seq<Job>)
    requires Uniq(jobs)
    ensures Uniq(OnlyRunning(jobs)) && |OnlyRunning(jobs)| <= |jobs|
    ensures forall j :: j in OnlyRunning(jobs) ==> exists i :: 0 <= i < |jobs| && jobs[i].key == j.key
    ensures forall k :: Find(OnlyRunning(jobs), k) ==
                   if Find(jobs, k).Some? && Find(jobs, k).value.state.Running?
                       then Some(Find(jobs, k).value.(consumers := {})) else None
  {
    if jobs != [] {
      DistinctKeys(jobs);
      OnlyRunningFinds(jobs[1..]);
      var rest := OnlyRunning(jobs[1..]);
      forall j | j in rest ensures j.key != jobs[0].key && exists i :: 0 <= i < |jobs| && jobs[i].key == j.key {
        var i :| 0 <= i < |jobs[1..]| && jobs[1..][i].key == j.key;
        assert jobs[i + 1].key == j.key;
      }
    }
  }

  lemma CloseBinds(q: Queue)
    requires Inv(q)
    ensures Tied(DoClose(q)) == true
    ensures forall k :: Find(DoClose(q).jobs, k).Some? ==> Find(DoClose(q).jobs, k).value.state.Running?
  {
    Binds(q);
    OnlyRunningFinds(q.jobs);
    if q.work.Some? { WorkRuns(q); }
    forall k | Find(DoClose(q).jobs, k).Some? ensures JobFits(Find(DoClose(q).jobs, k).value, map[], q.work, None) {
      assert JobFits(Find(q.jobs, k).value, q.waits, q.work, None);
    }
  }

  lemma WakeBinds(q: Queue, t: Ticket, answer: Answer)
    requires Inv(q)
    ensures Tied(DoWake(q, t, answer).0) == true
  {
    CancelBinds(q, t);
    var q', q'' := DoCancel(q, t).0, DoWake(q, t, answer).0;
    assert q''.jobs == q'.jobs && q''.waits == q'.waits && q''.work == q'.work && q''.maxJobs == q'.maxJobs;
  }

  lemma StepBinds(q: Queue, e: Step)
    requires Inv(q)
    ensures Tied(Next(q, e)) == true
  {
    assert Tied(q) == true by { Binds(q); }
    match e
    case OnWait(c, key) => if Refusal(q, c, key).None? { WaitBinds(q, c, key); }
    case Cancel(t) => CancelBinds(q, t);
    case Wake(t, answer) => WakeBinds(q, t, answer);
    case BeginNext(grant) => BeginBinds(q, grant);
    case Finish(work, success) => FinishBinds(q, work, success);
    case Forget(key) => ForgetBinds(q, key);
    case Close => CloseBinds(q);
  }

  /** Tickets and work units: what is live after a step was live before, or is the
      one the step issued. */
  ghost predicate Moved(waits: map<Identity, Ticket>, work: Option<Work>, issued: nat,
                        waits': map<Identity, Ticket>, work': Option<Work>, issued': nat) {
    && issued <= issued'
    && (forall id :: id in waits' ==> (id in waits && waits'[id] == waits[id]) || waits'[id].serial == issued < issued')
    && (forall i, j :: i in waits' && j in waits' && waits'[i].serial == waits'[j].serial == issued ==>
            i == j || issued == issued')
    && (work'.Some? ==> work' == work || (work'.value.serial == issued < issued' && waits' == waits))
  }

  lemma StepMoves(q: Queue, e: Step)
    requires Inv(q)
    ensures var q' := Next(q, e); Moved(q.waits, q.work, q.issued, q'.waits, q'.work, q'.issued) == true
  {
    assert forall id :: id in q.waits ==> q.waits[id].serial < q.issued by { Take(q, Serials); }
    match e
    case Wake(t, answer) =>
      var q', q'' := DoCancel(q, t).0, DoWake(q, t, answer).0;
      assert q''.waits == q'.waits && q''.work == q'.work && q''.issued == q'.issued;
    case _ =>
  }

  lemma StepSerials(q: Queue, e: Step)
    requires Inv(q)
    ensures Holds(Next(q, e), Serials)
  {
    StepMoves(q, e);
    Take(q, Serials);
    var q' := Next(q, e);
    MovedSerials(q.waits, q.work, q.issued, q'.waits, q'.work, q'.issued);
  }

  lemma MovedSerials(waits: map<Identity, Ticket>, work: Option<Work>, issued: nat,
                     waits': map<Identity, Ticket>, work': Option<Work>, issued': nat)
    requires Moved(waits, work, issued, waits', work', issued') && Issued(waits, work, issued)
    ensures Issued(waits', work', issued')
  {}

  lemma FewerWaits(waits: map<Identity, Ticket>, id: Identity)
    ensures |waits - {id}| <= |waits|
  {
    if id in waits {
      assert waits == (waits - {id})[id := waits[id]];
    } else {
      assert waits - {id} == waits;
    }
  }

  lemma RoomForWait(q: Queue, c: Consumer, key: Artifact)
    requires |q.waits| <= q.maxConsumers
    ensures |DoWait(q, c, key).0.waits| <= q.maxConsumers
  {
    if Refusal(q, c, key).None? { OneWait(q.waits, IdentityOf(c), DoWait(q, c, key).0.waits[IdentityOf(c)]); }
  }

  lemma OneWait(waits: map<Identity, Ticket>, id: Identity, t: Ticket)
    ensures |waits[id := t]| == if id in waits then |waits| else |waits| + 1
  {
    assert waits[id := t].Keys == waits.Keys + {id};
    assert |waits[id := t]| == |waits[id := t].Keys| && |waits| == |waits.Keys|;
  }

  lemma StepWaiters(q: Queue, e: Step)
    requires Inv(q)
    ensures |Next(q, e).waits| <= q.maxConsumers
  {
    Take(q, Limits);
    if e.Cancel? || e.Wake? { FewerWaits(q.waits, IdentityOf(e.ticket.consumer)); }
    if e.OnWait? { RoomForWait(q, e.consumer, e.key); }
  }

  lemma StepEnded(q: Queue, e: Step)
    requires Inv(q)
    ensures Holds(Next(q, e), Ended)
  {
    Take(q, Ended);
    match e
    case Cancel(t) => assert q.closed ==> Next(q, e) == q;
    case Wake(t, _) => assert q.closed ==> Next(q, e) == q;
    case Close => CloseBinds(q);
    case _ =>
  }

  lemma TiedHolds(q: Queue, k: Clause)
    requires Tied(q) && (k.Keys? || k.Jobs? || k.Waiters? || k.Worker?)
    ensures Holds(q, k)
  {}

  lemma StepLimits(q: Queue, e: Step)
    requires Inv(q)
    ensures Holds(Next(q, e), Limits)
  {
    StepBinds(q, e);
    StepWaiters(q, e);
  }

  lemma StepKeeps(q: Queue, e: Step)
    requires Inv(q)
    ensures Inv(Next(q, e))
  {
    var q' := Next(q, e);
    assert Tied(q') == true by { StepBinds(q, e); }
    assert Holds(q', Serials) == true by { StepSerials(q, e); }
    assert Holds(q', Limits) == true by { StepLimits(q, e); }
    assert Holds(q', Ended) == true by { StepEnded(q, e); }
    forall k: Clause ensures Holds(q', k) == true {
      match k
      case Keys => TiedHolds(q', k);
      case Jobs => TiedHolds(q', k);
      case Waiters => TiedHolds(q', k);
      case Worker => TiedHolds(q', k);
      case _ =>
    }
  }

  ghost predicate Reached(q: Queue) {
    exists maxJobs: nat, maxConsumers: nat, es: seq<Step> :: q == Replay(NewQueue(maxJobs, maxConsumers), es)
  }

  lemma {:induction false} ReplayKeeps(q: Queue, es: seq<Step>)
    requires Inv(q)
    ensures Inv(Replay(q, es))
    decreases |es|
  {
    if es != [] {
      StepKeeps(q, es[0]);
      ReplayKeeps(Next(q, es[0]), es[1..]);
    }
  }

  lemma NewKeeps(maxJobs: nat, maxConsumers: nat)
    ensures Inv(NewQueue(maxJobs, maxConsumers))
  {
    forall k: Clause ensures Holds(NewQueue(maxJobs, maxConsumers), k) == true {
      match k case Keys => case Jobs => case Waiters => case Worker => case Serials => case Limits => case Ended =>
    }
  }

  lemma ReachedKeeps(q: Queue)
    requires Reached(q)
    ensures Inv(q)
  {
    var maxJobs: nat, maxConsumers: nat, es: seq<Step> :| q == Replay(NewQueue(maxJobs, maxConsumers), es);
    NewKeeps(maxJobs, maxConsumers);
    ReplayKeeps(NewQueue(maxJobs, maxConsumers), es);
  }
}
