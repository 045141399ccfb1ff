/** src/cacheslide_vllm/wait_queue.py as a state machine: jobs in insertion order,
    tickets that authorize one live wait each, and one external work unit. */
module Waiting {
  import opened Basics

  type Artifact = nat

  datatype Consumer = Consumer(engine: nat, request: nat, generation: nat)

  type Identity = (nat, nat)

  function IdentityOf(c: Consumer): Identity {
    (c.engine, c.request)
  }

  /** Only the exact instance counts: `serial` is the object's identity. */
  datatype Ticket = Ticket(serial: nat, key: Artifact, consumer: Consumer)

  datatype Work = Work(serial: nat, key: Artifact)

  datatype Progress = Queued | Running | Complete | Failed

  datatype Job = Job(key: Artifact, state: Progress, consumers: set<Ticket>)

  datatype Queue = Queue(
    maxJobs: nat,
    maxConsumers: nat,
    jobs: seq<Job>,                  // a dictionary by key, in insertion order
    waits: map<Identity, Ticket>,
    work: Option<Work>,
    issued: nat,                     // tickets made so far
    errors: nat,                     // backend failures seen
    closed: bool)

  datatype Lease = Lease(key: Artifact, consumer: Consumer)

  /** What the backend makes of `try_pin_ready`; `fails` says that closing an
      incompatible lease raises too. */
  datatype Answer = Miss | Raised | Pinned(lease: Lease, fails: bool)

  datatype Step =
    | OnWait(consumer: Consumer, key: Artifact)
    | Cancel(ticket: Ticket)
    | Wake(ticket: Ticket, answer: Answer)
    | BeginNext(grant: bool)
    | Finish(work: Work, success: bool)
    | Forget(key: Artifact)
    | Close

  // ---- the ordered dictionary -------------------------------------------------------

  function Find(jobs: seq<Job>, key: Artifact): (r: Option<Job>)
    ensures r.Some? ==> r.value in jobs && r.value.key == key
    ensures r.None? ==> forall j :: j in jobs ==> j.key != key
  {
    if jobs == [] then None
    else if jobs[0].key == key then Some(jobs[0])
    else Find(jobs[1..], key)
  }

  /** `del jobs[key]` */
  function Without(jobs: seq<Job>, key: Artifact): seq<Job> {
    if jobs == [] then []
    else if jobs[0].key == key then jobs[1..]
    else [jobs[0]] + Without(jobs[1..], key)
  }

  /** The job's entry changes in place. */
  function With(jobs: seq<Job>, job: Job): seq<Job> {
    if jobs == [] then []
    else if jobs[0].key == job.key then [job] + jobs[1..]
    else [jobs[0]] + With(jobs[1..], job)
  }

  predicate Over(job: Job) {
    (job.state.Complete? || job.state.Failed?) && job.consumers == {}
  }

  /** The oldest finished job nobody waits for. */
  function Victim(jobs: seq<Job>): (r: Option<Artifact>)
    ensures r.Some? ==> exists j :: j in jobs && j.key == r.value && Over(j)
    ensures r.None? ==> forall j :: j in jobs ==> !Over(j)
  {
    if jobs == [] then None
    else if Over(jobs[0]) then
      assert jobs[0] in jobs;
      Some(jobs[0].key)
    else
      var rest := Victim(jobs[1..]);
      assert forall j :: j in jobs ==> j == jobs[0] || j in jobs[1..];
      rest
  }

  predicate Startable(job: Job) {
    job.state.Queued? && job.consumers != {}
  }

  function NextJob(jobs: seq<Job>): (r: Option<Job>)
    ensures r.Some? ==> r.value in jobs && Startable(r.value)
    ensures r.None? ==> forall j :: j in jobs ==> !Startable(j)
  {
    if jobs == [] then None
    else if Startable(jobs[0]) then Some(jobs[0])
    else NextJob(jobs[1..])
  }

  // ---- the operations ------------------------------------------------------------------

  /** One consumer leaves; a queued job nobody waits for any more goes. */
  function Leave(jobs: seq<Job>, t: Ticket): seq<Job> {
    match Find(jobs, t.key)
    case None => jobs
    case Some(job) =>
      var left := job.(consumers := job.consumers - {t});
      if left.consumers == {} && left.state.Queued? then Without(jobs, t.key) else With(jobs, left)
  }

  function DoCancel(q: Queue, t: Ticket): (Queue, bool) {
    var id := IdentityOf(t.consumer);
    if id !in q.waits || q.waits[id] != t then (q, false)
    else (q.(waits := q.waits - {id}, jobs := Leave(q.jobs, t)), true)
  }

  /** The wait is spent first; only then is the backend asked. */
  function DoWake(q: Queue, t: Ticket, answer: Answer): (Queue, Option<Lease>) {
    var (q', live) := DoCancel(q, t);
    if !live then (q, None)
    else match answer
      case Miss => (q', None)
      case Raised => (q'.(errors := q.errors + 1), None)
      case Pinned(lease, fails) =>
        if lease == Lease(t.key, t.consumer) then (q', Some(lease))
        else (q'.(errors := q.errors + if fails then 2 else 1), None)
  }

  /** `setdefault` and `add` */
  function Join(jobs: seq<Job>, t: Ticket): seq<Job> {
    match Find(jobs, t.key)
    case None => jobs + [Job(t.key, Queued, {t})]
    case Some(job) => With(jobs, job.(consumers := job.consumers + {t}))
  }

  /** Why `on_wait` is refused; nothing has changed then. */
  function Refusal(q: Queue, c: Consumer, key: Artifact): Option<Error> {
    var id := IdentityOf(c);
    if q.closed then Some(Busy)
    else if id in q.waits && c.generation < q.waits[id].consumer.generation then Some(Invalid)
    else if id !in q.waits && |q.waits| >= q.maxConsumers then Some(Capacity)
    else if Find(q.jobs, key).None? && |q.jobs| >= q.maxJobs && Victim(q.jobs).None? then Some(Capacity)
    else None
  }

  /** Room for a new job: the oldest finished one may go. */
  function Room(q: Queue, key: Artifact): seq<Job> {
    if Find(q.jobs, key).None? && |q.jobs| >= q.maxJobs && Victim(q.jobs).Some?
        then Without(q.jobs, Victim(q.jobs).value) else q.jobs
  }

  /** The consumer's previous wait is taken back; its job keeps its place if it is
      the one waited for again. */
  function Superseded(jobs: seq<Job>, previous: Option<Ticket>, key: Artifact): seq<Job> {
    match previous
    case None => jobs
    case Some(t) =>
      if t.key != key then Leave(jobs, t)
      else match Find(jobs, key)
        case None => jobs
        case Some(job) => With(jobs, job.(consumers := job.consumers - {t}))
  }

  function Previous(q: Queue, c: Consumer): Option<Ticket> {
    if IdentityOf(c) in q.waits then Some(q.waits[IdentityOf(c)]) else None
  }

  function DoWait(q: Queue, c: Consumer, key: Artifact): (Queue, Result<Ticket>) {
    match Refusal(q, c, key)
    case Some(e) => (q, Err(e))
    case None =>
      var t := Ticket(q.issued, key, c);
      (q.(issued := q.issued + 1, jobs := Join(Superseded(Room(q, key), Previous(q, c), key), t),
              waits := q.waits[IdentityOf(c) := t]), Ok(t))
  }

  function DoBegin(q: Queue, grant: bool): (Queue, Option<Work>) {
    if q.closed || !grant || q.work.Some? then (q, None)
    else match NextJob(q.jobs)
      case None => (q, None)
      case Some(job) =>
        var work := Work(q.issued, job.key);
        (q.(issued := q.issued + 1, work := Some(work), jobs := With(q.jobs, job.(state := Running))), Some(work))
  }

  function DoFinish(q: Queue, work: Work, success: bool): (Queue, bool) {
    if q.work != Some(work) then (q, false)
    else
      var jobs := match Find(q.jobs, work.key)
                  case None => q.jobs
                  case Some(job) => With(q.jobs, job.(state := if success then Complete else Failed));
      (q.(work := None, jobs := if q.closed then [] else jobs), true)
  }

  function DoForget(q: Queue, key: Artifact): (Queue, Result<bool>) {
    if q.closed then (q, Err(Busy))
    else match Find(q.jobs, key)
      case None => (q, Ok(false))
      case Some(job) => if !Over(job) then (q, Err(Invalid)) else (q.(jobs := Without(q.jobs, key)), Ok(true))
  }

  function OnlyRunning(jobs: seq<Job>): seq<Job> {
    if jobs == [] then []
    else if jobs[0].state.Running? then [jobs[0].(consumers := {})] + OnlyRunning(jobs[1..])
    else OnlyRunning(jobs[1..])
  }

  /** `close`: every waiter is detached, only work in flight stays. */
  function DoClose(q: Queue): Queue {
    q.(closed := true, waits := map[], jobs := OnlyRunning(q.jobs))
  }

  function Next(q: Queue, e: Step): Queue {
    match e
    case OnWait(c, key) => DoWait(q, c, key).0
    case Cancel(t) => DoCancel(q, t).0
    case Wake(t, answer) => DoWake(q, t, answer).0
    case BeginNext(grant) => DoBegin(q, grant).0
    case Finish(work, success) => DoFinish(q, work, success).0
    case Forget(key) => DoForget(q, key).0
    case Close => DoClose(q)
  }

  function Replay(q: Queue, es: seq<Step>): Queue
    decreases |es|
  {
    if es == [] then q else Replay(Next(q, es[0]), es[1..])
  }

  function NewQueue(maxJobs: nat, maxConsumers: nat): Queue {
    Queue(maxJobs, maxConsumers, [], map[], None, 0, 0, false)
  }

  // ---- order -------------------------------------------------------------------------------

  /** Queued jobs ahead of the job for `key`. */
  function Ahead(jobs: seq<Job>, key: Artifact): nat {
    if jobs == [] || jobs[0].key == key then 0
    else (if jobs[0].state.Queued? then 1 else 0) + Ahead(jobs[1..], key)
  }
}
