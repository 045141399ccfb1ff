/** What each call of the wait queue answers and leaves behind, in terms of the live tickets
    and the jobs by their keys. */
module WaitOutcomes {
  import opened Basics
  import opened Waiting
  import opened WaitingSafety
  import opened WaitingTheorems

  // ---- on_wait -------------------------------------------------------------------------------

  /** The consumer's engine and request have a live wait. */
  ghost predicate Waits(q: Queue, c: Consumer) {
    (c.engine, c.request) in q.waits
  }

  /** There is a job for the artifact, or room for another, or a finished one that nobody waits
      for. */
  ghost predicate HasRoom(q: Queue, key: Artifact) {
    || (exists j :: j in q.jobs && j.key == key)
    || |q.jobs| < q.maxJobs
    || exists j :: j in q.jobs && j.consumers == {} && (j.state == Complete || j.state == Failed)
  }

  lemma RoomExactly(q: Queue, key: Artifact)
    ensures HasRoom(q, key) <==> !(Find(q.jobs, key).None? && |q.jobs| >= q.maxJobs && Victim(q.jobs).None?)
  {
    if j :| j in q.jobs && j.key == key { assert Find(q.jobs, key).Some?; }
    if j :| j in q.jobs && j.consumers == {} && (j.state == Complete || j.state == Failed) { assert Over(j); }
  }

  /** In an open queue with room a wait is refused exactly if the consumer's live wait is of a
      later generation; without room it is refused for capacity, and nothing changes. */
  lemma WaitAnswers(q: Queue, c: Consumer, key: Artifact)
    ensures var (q', r) := DoWait(q, c, key);
            && r == (if q.closed then Err(Busy)
                     else if Waits(q, c) && q.waits[(c.engine, c.request)].consumer.generation > c.generation
                     then Err(Invalid)
                     else if (!Waits(q, c) && |q.waits| >= q.maxConsumers) || !HasRoom(q, key) then Err(Capacity)
                     else Ok(Ticket(q.issued, key, c)))
            && (r.Err? ==> q' == q)
            && (r.Ok? ==> q'.waits == q.waits[(c.engine, c.request) := r.value] && q'.issued == q.issued + 1
                          && q'.closed == q.closed && q'.work == q.work && q'.errors == q.errors)
  {
    RoomExactly(q, key);
  }

  /** The job of a wait that is admitted: the one that was there, in its state, or a new one
      that is queued; the ticket is among its consumers. */
  lemma WaitJoins(q: Queue, c: Consumer, key: Artifact)
    requires Inv(q) && DoWait(q, c, key).1.Ok?
    ensures var (q', r) := DoWait(q, c, key);
            && Find(q'.jobs, key).Some? && r.value in Find(q'.jobs, key).value.consumers
            && Find(q'.jobs, key).value.state
               == if Find(q.jobs, key).Some? then Find(q.jobs, key).value.state else Queued
  {
    var previous, t := Previous(q, c), Ticket(q.issued, key, c);
    Binds(q);
    RoomAgrees(q, c, key);
    SupersededAgrees(Room(q, key), q.waits, q.work, IdentityOf(c), key);
    JoinLooks(Superseded(Room(q, key), previous, key), t);
    RoomFinds(q, key);
    KeptPlace(Room(q, key), previous, key);
  }

  lemma RoomFinds(q: Queue, key: Artifact)
    requires Uniq(q.jobs)
    ensures Find(Room(q, key), key) == Find(q.jobs, key)
  {
    if Room(q, key) != q.jobs {
      FindWithout(q.jobs, Victim(q.jobs).value);
      VictimIsOver(q.jobs);
    }
  }

  /** Taking back an earlier wait does not touch the state of the job. */
  lemma KeptPlace(jobs: seq<Job>, previous: Option<Ticket>, key: Artifact)
    requires Uniq(jobs)
    ensures var rest := Superseded(jobs, previous, key);
            && (Find(rest, key).Some? <==> Find(jobs, key).Some?)
            && (Find(rest, key).Some? ==> Find(rest, key).value.state == Find(jobs, key).value.state)
  {
    if previous.Some? {
      if previous.value.key != key {
        LeaveFinds(jobs, previous.value, key);
      } else if Find(jobs, key).Some? {
        FindWith(jobs, Left(Find(jobs, key).value, previous.value));
      }
    }
  }

  /** Room is made only for a new job in a full catalog; what goes is the oldest of the
      finished jobs nobody waits for. */
  lemma {:induction false} OldestGoes(jobs: seq<Job>)
    requires Victim(jobs).Some?
    ensures exists i :: 0 <= i < |jobs| && jobs[i].key == Victim(jobs).value && jobs[i].consumers == {}
              && (jobs[i].state == Complete || jobs[i].state == Failed)
              && forall h :: 0 <= h < i ==>
                   jobs[h].consumers != {} || jobs[h].state == Queued || jobs[h].state == Running
  {
    if Over(jobs[0]) {
      assert jobs[0].consumers == {};
    } else {
      OldestGoes(jobs[1..]);
      var i :| 0 <= i < |jobs[1..]| && jobs[1..][i].key == Victim(jobs[1..]).value && jobs[1..][i].consumers == {}
          && (jobs[1..][i].state == Complete || jobs[1..][i].state == Failed)
          && forall h :: 0 <= h < i ==>
               jobs[1..][h].consumers != {} || jobs[1..][h].state == Queued || jobs[1..][h].state == Running;
      assert jobs[i + 1] == jobs[1..][i];
      forall h | 0 <= h < i + 1 ensures jobs[h].consumers != {} || jobs[h].state == Queued || jobs[h].state == Running {
        if h > 0 { assert jobs[h] == jobs[1..][h - 1]; }
      }
    }
  }

  // ---- cancel and on_wake --------------------------------------------------------------------

  /** Exactly the ticket that is the live wait of its engine and request can be cancelled. Its
      job loses it, and goes if it was queued for nobody else; no other job changes. */
  lemma CancelAnswers(q: Queue, t: Ticket, k: Artifact)
    requires Inv(q)
    ensures var (q', live) := DoCancel(q, t);
            && (live <==> (t.consumer.engine, t.consumer.request) in q.waits
                          && q.waits[(t.consumer.engine, t.consumer.request)] == t)
            && (!live ==> q' == q)
            && (live ==>
                  && q'.waits == q.waits - {(t.consumer.engine, t.consumer.request)} && q'.work == q.work
                  && (k != t.key ==> Find(q'.jobs, k) == Find(q.jobs, k)) && Find(q.jobs, t.key).Some?
                  && var job := Find(q.jobs, t.key).value;
                     Find(q'.jobs, t.key)
                     == if job.state == Queued && job.consumers == {t} then None
                        else Some(job.(consumers := job.consumers - {t})))
  {
    if DoCancel(q, t).1 {
      Take(q, Keys);
      Take(q, Waiters);
      LiveTicketFindsJob(q.jobs, q.waits, IdentityOf(t.consumer));
      var job := Find(q.jobs, t.key).value;
      FindWithout(q.jobs, t.key);
      FindWith(q.jobs, Left(job, t));
      assert job.consumers - {t} == {} <==> job.consumers == {t};
    }
  }

  /** A wake spends the wait like a cancellation. The lease is handed on exactly if the ticket
      was live and the lease is for its artifact and its very consumer; every other answer but
      a miss is counted as an error, and a lease that cannot be closed as another. */
  lemma WakeAnswers(q: Queue, t: Ticket, answer: Answer)
    ensures var (q', r) := DoWake(q, t, answer);
            && q' == DoCancel(q, t).0.(errors := q'.errors)
            && (r.Some? <==> DoCancel(q, t).1 && answer.Pinned?
                             && answer.lease.key == t.key && answer.lease.consumer == t.consumer)
            && (r.Some? ==> r.value == answer.lease)
            && q'.errors == q.errors + if !DoCancel(q, t).1 || answer.Miss? || r.Some? then 0
                                       else if answer.Pinned? && answer.fails then 2 else 1
  {}

  // ---- begin_next and complete ---------------------------------------------------------------

  /** Work begins exactly if the queue is open, there is a grant, no work is out and some job is
      queued; that job runs then, and no other job changes. */
  lemma BeginAnswers(q: Queue, grant: bool, k: Artifact)
    requires Inv(q)
    ensures var (q', r) := DoBegin(q, grant);
            && (r.Some? <==> !q.closed && grant && q.work.None? && exists j :: j in q.jobs && j.state == Queued)
            && (r.None? ==> q' == q)
            && (r.Some? ==>
                  && q'.work == r && q'.waits == q.waits && r.value.serial == q.issued && q'.issued == q.issued + 1
                  && (k != r.value.key ==> Find(q'.jobs, k) == Find(q.jobs, k))
                  && Find(q.jobs, r.value.key).Some? && Find(q.jobs, r.value.key).value.state == Queued
                  && Find(q'.jobs, r.value.key) == Some(Find(q.jobs, r.value.key).value.(state := Running)))
  {
    QueuedAreWanted(q);
    Take(q, Keys);
    if NextJob(q.jobs).Some? {
      FindListed(q.jobs, NextJob(q.jobs).value);
      FindWith(q.jobs, NextJob(q.jobs).value.(state := Running));
    } else if j :| j in q.jobs && j.state == Queued {
      assert !Startable(j);
    }
  }

  /** Exactly the work that is out can be reported. Success makes its job complete and failure
      failed, with its consumers; a closed queue forgets it. No other job changes. */
  lemma FinishAnswers(q: Queue, work: Work, success: bool, k: Artifact)
    requires Inv(q)
    ensures var (q', ok) := DoFinish(q, work, success);
            && (ok <==> q.work == Some(work))
            && (!ok ==> q' == q)
            && (ok ==>
                  && q'.work.None? && q'.waits == q.waits && q'.issued == q.issued && q'.closed == q.closed
                  && Find(q.jobs, work.key).Some? && (q.closed ==> q'.jobs == [])
                  && (!q.closed && k != work.key ==> Find(q'.jobs, k) == Find(q.jobs, k))
                  && (!q.closed ==>
                        Find(q'.jobs, work.key)
                        == Some(Find(q.jobs, work.key).value.(state := if success then Complete else Failed))))
  {
    if q.work == Some(work) {
      Take(q, Keys);
      Take(q, Worker);
      FindWith(q.jobs, Find(q.jobs, work.key).value.(state := if success then Complete else Failed));
    }
  }

  // ---- forget and close ----------------------------------------------------------------------

  /** A finished job nobody waits for is forgotten; an unknown one is no error; any other job
      cannot be forgotten, and nothing can once the queue is closed. */
  lemma ForgetAnswers(q: Queue, key: Artifact, k: Artifact)
    requires Inv(q)
    ensures var (q', r) := DoForget(q, key);
            && r == (if q.closed then Err(Busy) else if Find(q.jobs, key).None? then Ok(false)
                     else var job := Find(q.jobs, key).value;
                          if job.consumers == {} && (job.state == Complete || job.state == Failed) then Ok(true)
                          else Err(Invalid))
            && (r != Ok(true) ==> q' == q)
            && (r == Ok(true) ==> q' == q.(jobs := q'.jobs)
                                  && Find(q'.jobs, k) == if k == key then None else Find(q.jobs, k))
  {
    Take(q, Keys);
    FindWithout(q.jobs, key);
  }

  /** Closing detaches every waiter and keeps exactly the job that runs, for nobody. */
  lemma CloseAnswers(q: Queue, k: Artifact)
    requires Inv(q)
    ensures var q' := DoClose(q);
            && q' == q.(closed := true, waits := map[], jobs := q'.jobs)
            && Find(q'.jobs, k) == if Find(q.jobs, k).Some? && Find(q.jobs, k).value.state == Running
                                   then Some(Find(q.jobs, k).value.(consumers := {})) else None
  {
    Take(q, Keys);
    OnlyRunningFinds(q.jobs);
  }
}
