/** DlqService: the dead-letter view of the erp-sync queue. It lists the
    failed jobs and lets an operator re-queue one by hand, at most
    MAX_MANUAL_RETRIES times, stamping who retried it and when. */
module Dlq {
  import opened Shared
  import opened Queue

  const MaxManualRetries: int := 3

  /** `job.data?.manualRetries || 0`: an absent count reads as 0. */
  function ManualRetries(data: JobData): int
  {
    match data.manualRetries
    case Some(n) => n
    case None => 0
  }

  /** One row of getFailedJobs. */
  datatype FailedJobView = FailedJobView(
    id: string,
    name: string,
    failedReason: string,
    attempts: nat,
    data: JobData,
    timestamp: int,
    manualRetries: int)

  /** A job as getFailedJobs reports it, the retry count defaulting to 0. */
  function ViewOf(job: Job): (v: FailedJobView)
    ensures v.id == job.id && v.data == job.data
    ensures job.data.manualRetries.None? ==> v.manualRetries == 0
  {
    FailedJobView(job.id, job.name, job.failedReason, job.attemptsMade, job.data, job.timestamp,
                  ManualRetries(job.data))
  }

  /** getFailedJobs: the failed jobs, in queue order, each projected to its
      view; every listed row is a failed job and every failed job is listed. */
  function FailedJobs(jobs: seq<Job>): (views: seq<FailedJobView>)
    ensures |views| <= |jobs|
    ensures forall v :: v in views ==> exists j :: j in jobs && j.state == Failed && v == ViewOf(j)
    ensures forall j :: j in jobs && j.state == Failed ==> ViewOf(j) in views
  {
    if |jobs| == 0 then []
    else if jobs[0].state == Failed then [ViewOf(jobs[0])] + FailedJobs(jobs[1..])
    else FailedJobs(jobs[1..])
  }

  /** What retryJob answers on success. */
  datatype Receipt = Receipt(status: string, jobId: string, message: string)

  /** The job data after a manual retry: every field kept, the count one
      higher, and who retried it and when recorded. */
  function StampRetry(data: JobData, userId: string, now: int): (d: JobData)
    ensures d.payload == data.payload
    ensures ManualRetries(d) == ManualRetries(data) + 1
    ensures d.lastRetryBy == Some(userId) && d.lastRetryAt == Some(now)
  {
    data.(manualRetries := Some(ManualRetries(data) + 1), lastRetryBy := Some(userId), lastRetryAt := Some(now))
  }

  /** retryJob on one job: only a failed job below the manual retry limit is
      retried, which stamps its data and moves it back to waiting. */
  function RetryStep(job: Job, userId: string, now: int): (r: Result<Job>)
    ensures job.state != Failed ==> r == Err(BadRequest(JobNotFailed))
    ensures job.state == Failed && ManualRetries(job.data) >= MaxManualRetries ==>
              r == Err(BadRequest(RetryLimitReached))
    ensures job.state == Failed && ManualRetries(job.data) < MaxManualRetries ==>
              r == Ok(job.(data := StampRetry(job.data, userId, now), state := Waiting))
  {
    if job.state != Failed then Err(BadRequest(JobNotFailed))
    else if ManualRetries(job.data) >= MaxManualRetries then Err(BadRequest(RetryLimitReached))
    else Ok(job.(data := StampRetry(job.data, userId, now), state := Waiting))
  }

  /** retryJob over the job store, against a queue whose connection may
      drop: an unknown id is NotFound; a refusal, or a rejected
      `updateData`, leaves every job as it was; when `updateData` lands and
      `retry` is rejected, the job keeps its stamped data but stays failed;
      otherwise the job with that id becomes RetryStep's result and the
      answer is "queued" with its id ("unknown" for an empty one). */
  function RetryOutcome(jobs: seq<Job>, jobId: string, userId: string, now: int, budget: Budget)
    : (out: (Result<Receipt>, seq<Job>))
    ensures out.0 == Err(NotFound(JobRecord)) <==> forall i :: 0 <= i < |jobs| ==> jobs[i].id != jobId
    ensures out.0.Err? && out.1 != jobs ==> out.0 == Err(StoreFailure)
    ensures |out.1| == |jobs|
    ensures forall i :: 0 <= i < |jobs| ==> out.1[i].id == jobs[i].id
    ensures forall i :: 0 <= i < |jobs| && jobs[i].id != jobId ==> out.1[i] == jobs[i]
    ensures forall i :: 0 <= i < |jobs| && IndexOfJob(jobs, jobId) == Some(i) ==>
              var step := RetryStep(jobs[i], userId, now);
              (step.Err? ==> out == (Err(step.error), jobs)) &&
              (step.Ok? && Accepted(budget, 2) == 0 ==> out == (Err(StoreFailure), jobs)) &&
              (step.Ok? && Accepted(budget, 2) == 1 ==>
                 out == (Err(StoreFailure), jobs[i := jobs[i].(data := StampRetry(jobs[i].data, userId, now))])) &&
              (step.Ok? && Accepted(budget, 2) == 2 ==>
                 out == (Ok(Receipt("queued", if jobId == "" then "unknown" else jobId, "Job re-queued successfully.")),
                         jobs[i := step.value]))
  {
    match IndexOfJob(jobs, jobId)
    case None => (Err(NotFound(JobRecord)), jobs)
    case Some(i) =>
      match RetryStep(jobs[i], userId, now)
      case Err(e) => (Err(e), jobs)
      case Ok(job) =>
        var writes := Accepted(budget, 2);
        if writes == 0 then (Err(StoreFailure), jobs)
        else if writes == 1 then (Err(StoreFailure), jobs[i := jobs[i].(data := job.data)])
        else (Ok(Receipt("queued", if job.id == "" then "unknown" else job.id, "Job re-queued successfully.")),
              jobs[i := job])
  }

  /** What may happen to one job between operator actions. */
  datatype Event =
    | WorkerFailed                                     // the worker fails the job again
    | OperatorRetry(userId: string, now: int)          // retryJob with the connection up
    | RetryInterrupted(userId: string, now: int)       // updateData lands, retry() is rejected

  /** One job's life under a sequence of events: the job afterwards, how
      many manual retries re-queued it, and how many stamped its data. */
  function Replay(job: Job, events: seq<Event>): (Job, nat, nat)
    decreases |events|
  {
    if |events| == 0 then (job, 0, 0)
    else
      var (before, queued, stamped) := Replay(job, events[..|events| - 1]);
      match events[|events| - 1]
      case WorkerFailed => (before.(state := Failed), queued, stamped)
      case OperatorRetry(userId, now) =>
        (match RetryStep(before, userId, now)
         case Ok(retried) => (retried, queued + 1, stamped + 1)
         case Err(_) => (before, queued, stamped))
      case RetryInterrupted(userId, now) =>
        (match RetryStep(before, userId, now)
         case Ok(retried) => (before.(data := retried.data), queued, stamped + 1)
         case Err(_) => (before, queued, stamped))
  }

  /** Every stamp adds one to the stored count, an interrupted retry spends
      one of the limit without re-queuing the job, and no more stamps land
      than the limit leaves room for. */
  lemma {:induction false} ReplayCountsRetries(job: Job, events: seq<Event>)
    ensures var (after, queued, stamped) := Replay(job, events);
            ManualRetries(after.data) == ManualRetries(job.data) + stamped &&
            queued <= stamped <= Max(0, MaxManualRetries - ManualRetries(job.data))
    decreases |events|
  {
    if |events| > 0 {
      ReplayCountsRetries(job, events[..|events| - 1]);
    }
  }

  /** A job that has never been retried by hand is re-queued by hand at
      most three times over its whole life. */
  lemma AtMostThreeManualRetries(job: Job, events: seq<Event>)
    requires job.data.manualRetries.None?
    ensures Replay(job, events).1 <= 3
  {
    ReplayCountsRetries(job, events);
  }

  /** An interrupted retry is not free: the operator's next attempt already
      sees the higher count, so a job at two manual retries whose retry is
      interrupted can never be re-queued by hand again. */
  lemma InterruptedRetrySpendsLimit(job: Job, userId: string, now: int, later: seq<Event>)
    requires job.state == Failed && job.data.manualRetries == Some(2)
    ensures Replay(job, [RetryInterrupted(userId, now)] + later).1 == 0
  {
    var first := [RetryInterrupted(userId, now)];
    assert first[..0] == [];
    assert Replay(job, first).1 == 0 && Replay(job, first).2 == 1;
    ReplayCountsRetries(job, first + later);
    ReplayExtends(job, first, later);
  }

  /** Later events only add to the counts, and re-queue no more often than
      they stamp. */
  lemma {:induction false} ReplayExtends(job: Job, earlier: seq<Event>, later: seq<Event>)
    ensures var (_, q1, s1) := Replay(job, earlier);
            var (_, q2, s2) := Replay(job, earlier + later);
            s1 <= s2 && q1 <= q2 && q2 - q1 <= s2 - s1
    decreases |later|
  {
    if |later| > 0 {
      var init := later[..|later| - 1];
      assert (earlier + later)[..|earlier + later| - 1] == earlier + init;
      ReplayExtends(job, earlier, init);
    } else {
      assert earlier + later == earlier;
    }
  }

  class DlqService {
    const queue: JobQueue

    constructor (queue: JobQueue)
      ensures this.queue == queue
    {
      this.queue := queue;
    }

    /** retryJob: looks the job up, checks its state and the retry limit,
        then writes the stamped data and only then re-queues the job; either
        write may be rejected. The answer and the new job store are those of
        RetryOutcome. */
    method RetryJob(jobId: string, userId: string, now: int) returns (r: Result<Receipt>)
      requires queue.Valid()
      modifies queue
      ensures queue.Valid() && queue.added == old(queue.added)
      ensures (r, queue.jobs) == RetryOutcome(old(queue.jobs), jobId, userId, now, old(queue.budget))
      ensures var i := IndexOfJob(old(queue.jobs), jobId);
              var writes := if i.Some? && RetryStep(old(queue.jobs)[i.value], userId, now).Ok?
                            then Accepted(old(queue.budget), 2) else 0;
              queue.budget == Spend(old(queue.budget), writes)
    {
      ghost var budget0 := queue.budget;
      assert Spend(budget0, 0) == budget0;
      var found := queue.GetJob(jobId);
      if found.None? {
        return Err(NotFound(JobRecord));
      }
      var job := found.value;
      var currentState := job.state;
      if currentState != Failed {
        return Err(BadRequest(JobNotFailed));
      }
      var currentManualRetries := ManualRetries(job.data);
      if currentManualRetries >= MaxManualRetries {
        return Err(BadRequest(RetryLimitReached));
      }
      var updatedData := job.data.(manualRetries := Some(currentManualRetries + 1),
                                   lastRetryBy := Some(userId), lastRetryAt := Some(now));
      ghost var i := IndexOfJob(queue.jobs, jobId).value;
      assert RetryStep(job, userId, now) == Ok(job.(data := updatedData, state := Waiting));
      var written := queue.UpdateData(jobId, updatedData);
      if written.Err? {
        assert Accepted(budget0, 2) == 0;
        return Err(written.error);
      }
      var retried := queue.Retry(jobId);
      if retried.Err? {
        assert Accepted(budget0, 2) == 1 && queue.budget == Spend(budget0, 1);
        return Err(retried.error);
      }
      assert Accepted(budget0, 2) == 2 && queue.budget == Spend(budget0, 2);
      assert queue.jobs == old(queue.jobs)[i := job.(data := updatedData, state := Waiting)];
      r := Ok(Receipt("queued", if job.id == "" then "unknown" else job.id, "Job re-queued successfully."));
    }
  }
}
