/** The job queue the services talk to (a BullMQ queue), reduced to what the
    core observes: the log of `add` calls in order, and the stored jobs with
    their state, which the dead-letter service inspects and re-queues.
    Writes go to Redis and are rejected once its connection drops; reads
    are taken to answer. Delivery to workers, automatic retry and jobId deduplication happen
    inside the library and are not modelled. */
module Queue {
  import opened Shared
  import opened ErpContracts

  /** The data a job carries. */
  datatype Payload =
    | ProductPayload(product: ProductDTO)
    | StockPayload(stock: StockDTO)
    | PricePayload(price: PriceListDTO)
    | SaleRef(saleId: nat)               // the export queue's `{ saleId }`

  datatype JobOptions = JobOptions(jobId: Option<string>, removeOnComplete: bool)

  /** One `queue.add(name, data, options)` call. */
  datatype Enqueued = Enqueued(name: string, data: Payload, options: JobOptions)

  /** What `job.getState()` reports. */
  datatype JobState = Waiting | Active | Delayed | Prioritized | WaitingChildren | Completed | Failed | Unknown

  /** A stored job's data: the payload plus the audit fields a manual retry
      adds to it. */
  datatype JobData = JobData(
    payload: Payload,
    manualRetries: Option<int>,
    lastRetryBy: Option<string>,
    lastRetryAt: Option<int>)

  datatype Job = Job(
    id: string,
    name: string,
    data: JobData,
    state: JobState,
    failedReason: string,
    attemptsMade: nat,
    timestamp: int)

  /** The position of the job with this id, if any. */
  function IndexOfJob(jobs: seq<Job>, id: string): (r: Option<nat>)
    ensures r.Some? ==> r.value < |jobs| && jobs[r.value].id == id
    ensures r.None? ==> forall i :: 0 <= i < |jobs| ==> jobs[i].id != id
    decreases |jobs|
  {
    if |jobs| == 0 then None
    else if jobs[|jobs| - 1].id == id then Some(|jobs| - 1)
    else IndexOfJob(jobs[..|jobs| - 1], id)
  }

  /** Where ids are distinct, the search finds the one job carrying the id. */
  lemma {:induction false} IndexOfJobUnique(jobs: seq<Job>, id: string, i: nat)
    requires forall a, b :: 0 <= a < b < |jobs| ==> jobs[a].id != jobs[b].id
    requires i < |jobs| && jobs[i].id == id
    ensures IndexOfJob(jobs, id) == Some(i)
    decreases |jobs|
  {
    if i != |jobs| - 1 {
      IndexOfJobUnique(jobs[..|jobs| - 1], id, i);
    }
  }

  /** How many more writes the queue's Redis connection takes before it
      drops: `None` while it stays up; once it is `Some(0)`, every write
      (`add`, `updateData`, `retry`) is rejected. */
  type Budget = Option<nat>

  /** Whether the next write goes through. */
  predicate Open(budget: Budget)
  {
    budget != Some(0)
  }

  /** How many of the next `k` writes go through: all of them while the
      connection stays up, else as many as the budget has left. */
  function Accepted(budget: Budget, k: nat): (n: nat)
    ensures n <= k
    ensures n == k <==> budget.None? || k <= budget.value
    ensures n < k ==> budget == Some(n)
  {
    match budget
    case None => k
    case Some(left) => if k <= left then k else left
  }

  /** The budget after `k` accepted writes. */
  function Spend(budget: Budget, k: nat): (b: Budget)
    requires budget.None? || k <= budget.value
    ensures b.None? <==> budget.None?
    ensures b.Some? ==> b.value + k == budget.value
  {
    match budget
    case None => None
    case Some(left) => Some(left - k)
  }

  class JobQueue {
    /** Every `add` call, oldest first. */
    var added: seq<Enqueued>
    /** The jobs the queue keeps, each under its own id. */
    var jobs: seq<Job>
    /** What is left of the connection before it drops. */
    var budget: Budget

    ghost predicate Valid()
      reads this
    {
      forall i, j :: 0 <= i < j < |jobs| ==> jobs[i].id != jobs[j].id
    }

    constructor (jobs: seq<Job>, budget: Budget)
      requires forall i, j :: 0 <= i < j < |jobs| ==> jobs[i].id != jobs[j].id
      ensures Valid() && added == [] && this.jobs == jobs && this.budget == budget
    {
      added := [];
      this.jobs := jobs;
      this.budget := budget;
    }

    /** queue.add: appends one job request to the log, or is rejected once
        the connection has dropped. */
    method Add(name: string, data: Payload, options: JobOptions) returns (r: Result<()>)
      requires Valid()
      modifies this
      ensures Valid() && jobs == old(jobs)
      ensures Open(old(budget)) ==>
                r == Ok(()) && added == old(added) + [Enqueued(name, data, options)] && budget == Spend(old(budget), 1)
      ensures !Open(old(budget)) ==> r == Err(StoreFailure) && added == old(added) && budget == old(budget)
    {
      if !Open(budget) {
        return Err(StoreFailure);
      }
      added := added + [Enqueued(name, data, options)];
      budget := Spend(budget, 1);
      r := Ok(());
    }

    /** getJob: the stored job with this id, if any. */
    function GetJob(id: string): (r: Option<Job>)
      reads this
      ensures r.None? <==> forall i :: 0 <= i < |jobs| ==> jobs[i].id != id
      ensures r.Some? ==> r.value in jobs && r.value.id == id
      ensures r.Some? ==> IndexOfJob(jobs, id).Some? && r.value == jobs[IndexOfJob(jobs, id).value]
    {
      match IndexOfJob(jobs, id)
      case Some(i) => Some(jobs[i])
      case None => None
    }

    /** job.updateData: replaces the data of the job with this id, or is
        rejected once the connection has dropped. */
    method UpdateData(id: string, data: JobData) returns (r: Result<()>)
      requires Valid() && IndexOfJob(jobs, id).Some?
      modifies this
      ensures Valid() && added == old(added)
      ensures Open(old(budget)) ==>
                var i := IndexOfJob(old(jobs), id).value;
                r == Ok(()) && jobs == old(jobs)[i := old(jobs)[i].(data := data)] && budget == Spend(old(budget), 1)
      ensures !Open(old(budget)) ==> r == Err(StoreFailure) && jobs == old(jobs) && budget == old(budget)
      ensures IndexOfJob(jobs, id) == IndexOfJob(old(jobs), id)
    {
      if !Open(budget) {
        return Err(StoreFailure);
      }
      var i := IndexOfJob(jobs, id).value;
      jobs := jobs[i := jobs[i].(data := data)];
      budget := Spend(budget, 1);
      IndexOfJobUnique(jobs, id, i);
      r := Ok(());
    }

    /** job.retry: moves the job with this id back to waiting, or is
        rejected once the connection has dropped. */
    method Retry(id: string) returns (r: Result<()>)
      requires Valid() && IndexOfJob(jobs, id).Some?
      modifies this
      ensures Valid() && added == old(added)
      ensures Open(old(budget)) ==>
                var i := IndexOfJob(old(jobs), id).value;
                r == Ok(()) && jobs == old(jobs)[i := old(jobs)[i].(state := Waiting)] && budget == Spend(old(budget), 1)
      ensures !Open(old(budget)) ==> r == Err(StoreFailure) && jobs == old(jobs) && budget == old(budget)
    {
      if !Open(budget) {
        return Err(StoreFailure);
      }
      var i := IndexOfJob(jobs, id).value;
      jobs := jobs[i := jobs[i].(state := Waiting)];
      budget := Spend(budget, 1);
      r := Ok(());
    }
  }
}
