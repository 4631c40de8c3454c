/** ErpSyncService: one full synchronisation cycle. Products, then stock, then
    prices are fetched from the feed; each fetched record becomes one queued
    job with an id derived from its business key; the first failing fetch
    ends the cycle with its error. */
module ErpSync {
  import opened Shared
  import opened ErpContracts
  import opened Queue
  import opened ErpMock

  const ProductUpdate: string := "product-update"
  const StockUpdate: string := "stock-update"
  const PriceUpdate: string := "price-update"

  function ProductJobId(p: ProductDTO): string { "product-" + p.code }
  function StockJobId(s: StockDTO): string { "stock-" + s.productCode + "-" + s.warehouseId }
  function PriceJobId(p: PriceListDTO): string { "price-" + p.productCode + "-" + p.priceList }

  function ProductJob(p: ProductDTO): Enqueued
  {
    Enqueued(ProductUpdate, ProductPayload(p), JobOptions(Some(ProductJobId(p)), true))
  }

  function StockJob(s: StockDTO): Enqueued
  {
    Enqueued(StockUpdate, StockPayload(s), JobOptions(Some(StockJobId(s)), true))
  }

  function PriceJob(p: PriceListDTO): Enqueued
  {
    Enqueued(PriceUpdate, PricePayload(p), JobOptions(Some(PriceJobId(p)), true))
  }

  /** One product job per record, in fetch order. */
  function ProductJobs(ps: seq<ProductDTO>): (r: seq<Enqueued>)
    ensures |r| == |ps|
    ensures forall i :: 0 <= i < |ps| ==> r[i] == ProductJob(ps[i])
  {
    seq(|ps|, i requires 0 <= i < |ps| => ProductJob(ps[i]))
  }

  function StockJobs(ss: seq<StockDTO>): (r: seq<Enqueued>)
    ensures |r| == |ss|
    ensures forall i :: 0 <= i < |ss| ==> r[i] == StockJob(ss[i])
  {
    seq(|ss|, i requires 0 <= i < |ss| => StockJob(ss[i]))
  }

  function PriceJobs(ps: seq<PriceListDTO>): (r: seq<Enqueued>)
    ensures |r| == |ps|
    ensures forall i :: 0 <= i < |ps| ==> r[i] == PriceJob(ps[i])
  {
    seq(|ps|, i requires 0 <= i < |ps| => PriceJob(ps[i]))
  }

  /** What one cycle enqueues, and how it ends, given what each fetch
      returns: a failed fetch stops the cycle, keeping the jobs of the stages
      before it and adding none after it. */
  function SyncPlan(products: Result<seq<ProductDTO>>, stocks: Result<seq<StockDTO>>,
                    prices: Result<seq<PriceListDTO>>): (plan: (seq<Enqueued>, Result<()>))
    ensures plan.1.Ok? <==> products.Ok? && stocks.Ok? && prices.Ok?
    ensures products.Err? ==> plan == ([], Err(products.error))
    ensures products.Ok? && stocks.Err? ==> plan == (ProductJobs(products.value), Err(stocks.error))
  {
    if products.Err? then ([], Err(products.error))
    else if stocks.Err? then (ProductJobs(products.value), Err(stocks.error))
    else if prices.Err? then (ProductJobs(products.value) + StockJobs(stocks.value), Err(prices.error))
    else (ProductJobs(products.value) + StockJobs(stocks.value) + PriceJobs(prices.value), Ok(()))
  }

  /** The price stage on its own: its jobs, or the fetch's error. */
  function PriceStage(prices: Result<seq<PriceListDTO>>): (seq<Enqueued>, Result<()>)
  {
    if prices.Err? then ([], Err(prices.error)) else (PriceJobs(prices.value), Ok(()))
  }

  /** The stock stage followed by the price stage. */
  function StockStage(stocks: Result<seq<StockDTO>>, prices: Result<seq<PriceListDTO>>): (seq<Enqueued>, Result<()>)
  {
    if stocks.Err? then ([], Err(stocks.error))
    else (StockJobs(stocks.value) + PriceStage(prices).0, PriceStage(prices).1)
  }

  /** Once the products are fetched, the cycle is their jobs followed by the
      stock and price stages. */
  lemma SyncPlanByStages(products: seq<ProductDTO>, stocks: Result<seq<StockDTO>>, prices: Result<seq<PriceListDTO>>)
    ensures SyncPlan(Ok(products), stocks, prices) ==
              (ProductJobs(products) + StockStage(stocks, prices).0, StockStage(stocks, prices).1)
  {
    var pj := ProductJobs(products);
    if stocks.Err? {
      assert pj + [] == pj;
    } else if prices.Err? {
      assert pj + (StockJobs(stocks.value) + []) == pj + StockJobs(stocks.value);
    } else {
      assert pj + StockJobs(stocks.value) + PriceJobs(prices.value) ==
             pj + (StockJobs(stocks.value) + PriceJobs(prices.value));
    }
  }

  /** A cycle run against a queue whose connection may drop: the plan's
      jobs up to the first rejected add, and then that add's error. */
  function SyncRun(plan: (seq<Enqueued>, Result<()>), budget: Budget): (run: (seq<Enqueued>, Result<()>))
    ensures run.0 == plan.0[..Accepted(budget, |plan.0|)]
    ensures Accepted(budget, |plan.0|) < |plan.0| ==> run.1 == Err(StoreFailure)
    ensures Accepted(budget, |plan.0|) == |plan.0| ==> run == plan
  {
    var k := Accepted(budget, |plan.0|);
    if k < |plan.0| then (plan.0[..k], Err(StoreFailure)) else plan
  }

  /** Writes accepted in two runs: once the first `m` all went through, the
      next `n` fare as a fresh run against what is left of the budget. */
  lemma AcceptedChain(budget: Budget, m: nat, n: nat)
    requires Accepted(budget, m) == m
    ensures Accepted(budget, m + n) == m + Accepted(Spend(budget, m), n)
    ensures Spend(budget, m + Accepted(Spend(budget, m), n)) == Spend(Spend(budget, m), Accepted(Spend(budget, m), n))
  {
  }

  /** When the connection drops within the jobs a plan starts with, the run
      is that much of them and then the rejected add's error. */
  lemma SyncRunCutWithin(plan: (seq<Enqueued>, Result<()>), prefix: seq<Enqueued>, budget: Budget)
    requires |prefix| <= |plan.0| && plan.0[..|prefix|] == prefix
    requires Accepted(budget, |prefix|) < |prefix|
    ensures SyncRun(plan, budget) == (prefix[..Accepted(budget, |prefix|)], Err(StoreFailure))
  {
    var k := Accepted(budget, |prefix|);
    assert Accepted(budget, |plan.0|) == k;
    assert plan.0[..k] == prefix[..k];
  }

  /** A stage whose adds all went through is followed by the rest of the
      run against what is left of the budget. */
  lemma SyncRunAfterStage(stage: seq<Enqueued>, rest: (seq<Enqueued>, Result<()>), budget: Budget)
    requires Accepted(budget, |stage|) == |stage|
    ensures var tail := SyncRun(rest, Spend(budget, |stage|));
            SyncRun((stage + rest.0, rest.1), budget) == (stage + tail.0, tail.1) &&
            Spend(budget, |stage| + |tail.0|) == Spend(Spend(budget, |stage|), |tail.0|)
  {
    var tail := SyncRun(rest, Spend(budget, |stage|));
    AcceptedChain(budget, |stage|, |rest.0|);
    var k := Accepted(Spend(budget, |stage|), |rest.0|);
    assert (stage + rest.0)[..|stage| + k] == stage + rest.0[..k];
  }

  /** A dropped connection cuts the cycle short but never reorders it: the
      jobs that did go out still come stage by stage. */
  lemma SyncRunStagesOrdered(products: Result<seq<ProductDTO>>, stocks: Result<seq<StockDTO>>,
                             prices: Result<seq<PriceListDTO>>, budget: Budget)
    ensures var jobs := SyncRun(SyncPlan(products, stocks, prices), budget).0;
            forall i, j :: 0 <= i < j < |jobs| ==> Stage(jobs[i]) <= Stage(jobs[j])
  {
    SyncStagesOrdered(products, stocks, prices);
  }

  /** The position of a job name in the cycle's stage order. */
  function Stage(e: Enqueued): nat
  {
    if e.name == ProductUpdate then 0 else if e.name == StockUpdate then 1 else 2
  }

  /** Every product job comes before every stock job, and every stock job
      before every price job. */
  lemma {:induction false} SyncStagesOrdered(products: Result<seq<ProductDTO>>, stocks: Result<seq<StockDTO>>,
                                             prices: Result<seq<PriceListDTO>>)
    ensures var jobs := SyncPlan(products, stocks, prices).0;
            forall i, j :: 0 <= i < j < |jobs| ==> Stage(jobs[i]) <= Stage(jobs[j])
  {
    var jobs := SyncPlan(products, stocks, prices).0;
    if products.Ok? && stocks.Ok? {
      var np, ns := |products.value|, |stocks.value|;
      forall i | 0 <= i < |jobs|
        ensures Stage(jobs[i]) == (if i < np then 0 else if i < np + ns then 1 else 2)
      {
        if i < np {
          assert jobs[i] == ProductJob(products.value[i]);
        } else if i < np + ns {
          assert jobs[i] == StockJob(stocks.value[i - np]);
        } else {
          assert jobs[i] == PriceJob(prices.value[i - np - ns]);
        }
      }
    } else if products.Ok? {
      forall i | 0 <= i < |jobs| ensures Stage(jobs[i]) == 0 {
        assert jobs[i] == ProductJob(products.value[i]);
      }
    }
  }

  /** A complete cycle enqueues exactly one job per fetched record, each
      carrying its record unchanged, its derived id and removal on completion. */
  lemma {:induction false} SyncCompleteCycle(ps: seq<ProductDTO>, ss: seq<StockDTO>, prs: seq<PriceListDTO>)
    ensures var (jobs, outcome) := SyncPlan(Ok(ps), Ok(ss), Ok(prs));
            outcome == Ok(()) && |jobs| == |ps| + |ss| + |prs| &&
            (forall i :: 0 <= i < |ps| ==>
               (jobs[i].data == ProductPayload(ps[i]) &&
                jobs[i].options == JobOptions(Some("product-" + ps[i].code), true))) &&
            (forall i :: 0 <= i < |ss| ==>
               (jobs[|ps| + i].data == StockPayload(ss[i]) &&
                jobs[|ps| + i].options == JobOptions(Some(StockJobId(ss[i])), true))) &&
            (forall i :: 0 <= i < |prs| ==>
               (jobs[|ps| + |ss| + i].data == PricePayload(prs[i]) &&
                jobs[|ps| + |ss| + i].options == JobOptions(Some(PriceJobId(prs[i])), true)))
  {
    var jobs := SyncPlan(Ok(ps), Ok(ss), Ok(prs)).0;
    assert jobs == ProductJobs(ps) + StockJobs(ss) + PriceJobs(prs);
    forall i | 0 <= i < |ss| ensures jobs[|ps| + i] == StockJob(ss[i]) {
      assert jobs[|ps| + i] == StockJobs(ss)[i];
    }
    forall i | 0 <= i < |prs| ensures jobs[|ps| + |ss| + i] == PriceJob(prs[i]) {
      assert jobs[|ps| + |ss| + i] == PriceJobs(prs)[i];
    }
  }

  /** A failing fetch ends the cycle with its error: nothing at all when the
      products fetch fails, and otherwise the earlier stages' jobs only. */
  lemma SyncAbortsOnFailure(products: Result<seq<ProductDTO>>, stocks: Result<seq<StockDTO>>,
                            prices: Result<seq<PriceListDTO>>)
    ensures products.Err? ==> SyncPlan(products, stocks, prices) == ([], Err(products.error))
    ensures products.Ok? && stocks.Err? ==>
              SyncPlan(products, stocks, prices) == (ProductJobs(products.value), Err(stocks.error))
    ensures products.Ok? && stocks.Ok? && prices.Err? ==>
              SyncPlan(products, stocks, prices) ==
                (ProductJobs(products.value) + StockJobs(stocks.value), Err(prices.error))
  {
  }

  /** Product job ids identify their product: different codes, different ids. */
  lemma ProductJobIdInjective(a: ProductDTO, b: ProductDTO)
    requires ProductJobId(a) == ProductJobId(b)
    ensures a.code == b.code
  {
    assert a.code == ProductJobId(a)[|"product-"|..];
  }

  /** Stock job ids do not identify their (product, warehouse) key when codes
      contain '-': these two distinct keys get the same id. */
  lemma StockJobIdAmbiguous()
    ensures StockJobId(StockDTO("COC-350", "LOJA", 1.0, 0)) == StockJobId(StockDTO("COC", "350-LOJA", 1.0, 0))
  {
    assert StockJobId(StockDTO("COC-350", "LOJA", 1.0, 0)) == "stock-COC-350-LOJA";
    assert StockJobId(StockDTO("COC", "350-LOJA", 1.0, 0)) == "stock-COC-350-LOJA";
  }

  /** The feed's answer as the sync cycle sees it. */
  function Fetched<T>(failing: bool, data: seq<T>): Result<seq<T>>
  {
    if failing then Err(FeedUnavailable) else Ok(data)
  }

  class ErpSyncService {
    const feed: ErpMockService
    const queue: JobQueue

    constructor (feed: ErpMockService, queue: JobQueue)
      ensures this.feed == feed && this.queue == queue
    {
      this.feed := feed;
      this.queue := queue;
    }

    /** triggerFullSync: fetch and enqueue stage by stage; the cycle's jobs
        and outcome are those of SyncPlan over what the feed answers at each
        stage, cut short by SyncRun at the first add the queue rejects. Every
        `await` lets other requests run, so the feed's failure switch may be
        flipped before the stock fetch and before the price fetch;
        `flipBeforeStock` and `flipBeforePrices` are those flips. */
    method TriggerFullSync(now: int, flipBeforeStock: Option<bool>, flipBeforePrices: Option<bool>)
      returns (r: Result<()>)
      requires queue.Valid()
      modifies queue, feed
      ensures queue.Valid() && queue.jobs == old(queue.jobs)
      ensures var atProducts := old(feed.failureMode);
              var atStock := if flipBeforeStock.Some? then flipBeforeStock.value else atProducts;
              var atPrices := if flipBeforePrices.Some? then flipBeforePrices.value else atStock;
              var reachesStock := !atProducts && Accepted(old(queue.budget), |feed.products|) == |feed.products|;
              var reachesPrices := reachesStock && !atStock &&
                                   Accepted(Spend(old(queue.budget), |feed.products|), |feed.stocks|) == |feed.stocks|;
              feed.failureMode == if reachesPrices then atPrices else if reachesStock then atStock else atProducts
      ensures var atProducts := old(feed.failureMode);
              var atStock := if flipBeforeStock.Some? then flipBeforeStock.value else atProducts;
              var atPrices := if flipBeforePrices.Some? then flipBeforePrices.value else atStock;
              var plan := SyncPlan(Fetched(atProducts, feed.products),
                                   Fetched(atStock, Restamp(feed.stocks, now)),
                                   Fetched(atPrices, feed.prices));
              var run := SyncRun(plan, old(queue.budget));
              queue.added == old(queue.added) + run.0 && r == run.1 &&
              queue.budget == Spend(old(queue.budget), |run.0|)
    {
      ghost var atStock := if flipBeforeStock.Some? then flipBeforeStock.value else feed.failureMode;
      ghost var atPrices := if flipBeforePrices.Some? then flipBeforePrices.value else atStock;
      ghost var plan := SyncPlan(Fetched(feed.failureMode, feed.products), Fetched(atStock, Restamp(feed.stocks, now)),
                                 Fetched(atPrices, feed.prices));
      var products := feed.FetchProducts();
      if products.Err? {
        assert SyncRun(plan, queue.budget) == ([], Err(products.error));
        return Err(products.error);
      }
      assert products.value == feed.products;
      SyncPlanByStages(products.value, Fetched(atStock, Restamp(feed.stocks, now)), Fetched(atPrices, feed.prices));
      r := ProductStageRun(products.value, now, flipBeforeStock, flipBeforePrices);
    }

    /** A cycle from the product stage on, once the products are fetched. */
    method ProductStageRun(ps: seq<ProductDTO>, now: int, flipBeforeStock: Option<bool>, flipBeforePrices: Option<bool>)
      returns (r: Result<()>)
      requires queue.Valid()
      modifies queue, feed
      ensures queue.Valid() && queue.jobs == old(queue.jobs)
      ensures var atStock := if flipBeforeStock.Some? then flipBeforeStock.value else old(feed.failureMode);
              var atPrices := if flipBeforePrices.Some? then flipBeforePrices.value else atStock;
              var reachesStock := Accepted(old(queue.budget), |ps|) == |ps|;
              var reachesPrices := reachesStock && !atStock &&
                                   Accepted(Spend(old(queue.budget), |ps|), |feed.stocks|) == |feed.stocks|;
              feed.failureMode == if reachesPrices then atPrices else if reachesStock then atStock else old(feed.failureMode)
      ensures var atStock := if flipBeforeStock.Some? then flipBeforeStock.value else old(feed.failureMode);
              var atPrices := if flipBeforePrices.Some? then flipBeforePrices.value else atStock;
              var rest := StockStage(Fetched(atStock, Restamp(feed.stocks, now)), Fetched(atPrices, feed.prices));
              var run := SyncRun((ProductJobs(ps) + rest.0, rest.1), old(queue.budget));
              queue.added == old(queue.added) + run.0 && r == run.1 &&
              queue.budget == Spend(old(queue.budget), |run.0|)
    {
      ghost var atStock := if flipBeforeStock.Some? then flipBeforeStock.value else feed.failureMode;
      ghost var atPrices := if flipBeforePrices.Some? then flipBeforePrices.value else atStock;
      ghost var rest := StockStage(Fetched(atStock, Restamp(feed.stocks, now)), Fetched(atPrices, feed.prices));
      ghost var budget0 := queue.budget;
      ghost var pj := ProductJobs(ps);
      var queued := EnqueueProducts(ps);
      if queued.Err? {
        SyncRunCutWithin((pj + rest.0, rest.1), pj, budget0);
        return queued;
      }
      assert pj[..|pj|] == pj;
      r := StockAndPriceStages(now, flipBeforeStock, flipBeforePrices);
      SyncRunAfterStage(pj, rest, budget0);
    }

    /** The stock and price stages of a cycle, after the product stage. */
    method StockAndPriceStages(now: int, flipBeforeStock: Option<bool>, flipBeforePrices: Option<bool>)
      returns (r: Result<()>)
      requires queue.Valid()
      modifies queue, feed
      ensures queue.Valid() && queue.jobs == old(queue.jobs)
      ensures var atStock := if flipBeforeStock.Some? then flipBeforeStock.value else old(feed.failureMode);
              var atPrices := if flipBeforePrices.Some? then flipBeforePrices.value else atStock;
              var reachesPrices := !atStock && Accepted(old(queue.budget), |feed.stocks|) == |feed.stocks|;
              feed.failureMode == if reachesPrices then atPrices else atStock
      ensures var atStock := if flipBeforeStock.Some? then flipBeforeStock.value else old(feed.failureMode);
              var atPrices := if flipBeforePrices.Some? then flipBeforePrices.value else atStock;
              var run := SyncRun(StockStage(Fetched(atStock, Restamp(feed.stocks, now)), Fetched(atPrices, feed.prices)),
                                 old(queue.budget));
              queue.added == old(queue.added) + run.0 && r == run.1 &&
              queue.budget == Spend(old(queue.budget), |run.0|)
    {
      if flipBeforeStock.Some? {
        feed.SimulateFailure(flipBeforeStock.value);
      }
      ghost var atPrices := if flipBeforePrices.Some? then flipBeforePrices.value else feed.failureMode;
      ghost var rest := PriceStage(Fetched(atPrices, feed.prices));
      ghost var budget0 := queue.budget;
      var stocks := feed.FetchStock(now);
      if stocks.Err? {
        return Err(stocks.error);
      }
      ghost var sj := StockJobs(stocks.value);
      assert |sj| == |feed.stocks|;
      var queued := EnqueueStocks(stocks.value);
      if queued.Err? {
        SyncRunCutWithin((sj + rest.0, rest.1), sj, budget0);
        assert Accepted(budget0, |feed.stocks|) < |feed.stocks|;
        return queued;
      }
      assert sj[..|sj|] == sj;
      assert Accepted(budget0, |feed.stocks|) == |feed.stocks|;
      r := PriceStageRun(flipBeforePrices);
      SyncRunAfterStage(sj, rest, budget0);
    }

    /** The price stage of a cycle. */
    method PriceStageRun(flipBeforePrices: Option<bool>) returns (r: Result<()>)
      requires queue.Valid()
      modifies queue, feed
      ensures queue.Valid() && queue.jobs == old(queue.jobs)
      ensures feed.failureMode == if flipBeforePrices.Some? then flipBeforePrices.value else old(feed.failureMode)
      ensures var atPrices := if flipBeforePrices.Some? then flipBeforePrices.value else old(feed.failureMode);
              var run := SyncRun(PriceStage(Fetched(atPrices, feed.prices)), old(queue.budget));
              queue.added == old(queue.added) + run.0 && r == run.1 &&
              queue.budget == Spend(old(queue.budget), |run.0|)
    {
      if flipBeforePrices.Some? {
        feed.SimulateFailure(flipBeforePrices.value);
      }
      ghost var atPrices := feed.failureMode;
      ghost var budget0 := queue.budget;
      var prices := feed.FetchPrices();
      if prices.Err? {
        assert SyncRun(PriceStage(Fetched(atPrices, feed.prices)), budget0) == ([], Err(FeedUnavailable));
        assert Spend(budget0, 0) == budget0;
        return Err(prices.error);
      }
      ghost var prj := PriceJobs(prices.value);
      assert prices.value == feed.prices && prj[..|prj|] == prj;
      r := EnqueuePrices(prices.value);
      assert SyncRun(PriceStage(Fetched(atPrices, feed.prices)), budget0) == SyncRun((prj, Ok(())), budget0);
    }

    /** The product stage's loop: one add per record, in order. */
    method EnqueueProducts(ps: seq<ProductDTO>) returns (r: Result<()>)
      requires queue.Valid()
      modifies queue
      ensures queue.Valid() && queue.jobs == old(queue.jobs)
      ensures var k := Accepted(old(queue.budget), |ps|);
              queue.added == old(queue.added) + ProductJobs(ps)[..k] && queue.budget == Spend(old(queue.budget), k) &&
              (k == |ps| ==> r == Ok(())) && (k < |ps| ==> r == Err(StoreFailure))
    {
      var i := 0;
      while i < |ps|
        invariant 0 <= i <= |ps| && Accepted(old(queue.budget), i) == i
        invariant queue.Valid() && queue.jobs == old(queue.jobs)
        invariant queue.added == old(queue.added) + ProductJobs(ps)[..i]
        invariant queue.budget == Spend(old(queue.budget), i)
      {
        var product := ps[i];
        var added := queue.Add(ProductUpdate, ProductPayload(product), JobOptions(Some(ProductJobId(product)), true));
        if added.Err? {
          return added;
        }
        assert ProductJobs(ps)[..i + 1] == ProductJobs(ps)[..i] + [ProductJobs(ps)[i]];
        i := i + 1;
      }
      r := Ok(());
    }

    /** The stock stage's loop. */
    method EnqueueStocks(ss: seq<StockDTO>) returns (r: Result<()>)
      requires queue.Valid()
      modifies queue
      ensures queue.Valid() && queue.jobs == old(queue.jobs)
      ensures var k := Accepted(old(queue.budget), |ss|);
              queue.added == old(queue.added) + StockJobs(ss)[..k] && queue.budget == Spend(old(queue.budget), k) &&
              (k == |ss| ==> r == Ok(())) && (k < |ss| ==> r == Err(StoreFailure))
    {
      var i := 0;
      while i < |ss|
        invariant 0 <= i <= |ss| && Accepted(old(queue.budget), i) == i
        invariant queue.Valid() && queue.jobs == old(queue.jobs)
        invariant queue.added == old(queue.added) + StockJobs(ss)[..i]
        invariant queue.budget == Spend(old(queue.budget), i)
      {
        var stock := ss[i];
        var added := queue.Add(StockUpdate, StockPayload(stock), JobOptions(Some(StockJobId(stock)), true));
        if added.Err? {
          return added;
        }
        assert StockJobs(ss)[..i + 1] == StockJobs(ss)[..i] + [StockJobs(ss)[i]];
        i := i + 1;
      }
      r := Ok(());
    }

    /** The price stage's loop. */
    method EnqueuePrices(ps: seq<PriceListDTO>) returns (r: Result<()>)
      requires queue.Valid()
      modifies queue
      ensures queue.Valid() && queue.jobs == old(queue.jobs)
      ensures var k := Accepted(old(queue.budget), |ps|);
              queue.added == old(queue.added) + PriceJobs(ps)[..k] && queue.budget == Spend(old(queue.budget), k) &&
              (k == |ps| ==> r == Ok(())) && (k < |ps| ==> r == Err(StoreFailure))
    {
      var i := 0;
      while i < |ps|
        invariant 0 <= i <= |ps| && Accepted(old(queue.budget), i) == i
        invariant queue.Valid() && queue.jobs == old(queue.jobs)
        invariant queue.added == old(queue.added) + PriceJobs(ps)[..i]
        invariant queue.budget == Spend(old(queue.budget), i)
      {
        var price := ps[i];
        var added := queue.Add(PriceUpdate, PricePayload(price), JobOptions(Some(PriceJobId(price)), true));
        if added.Err? {
          return added;
        }
        assert PriceJobs(ps)[..i + 1] == PriceJobs(ps)[..i] + [PriceJobs(ps)[i]];
        i := i + 1;
      }
      r := Ok(());
    }
  }
}
