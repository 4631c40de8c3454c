/** ErpSyncProcessor: the worker of the erp-sync queue. It reads a job's name
    and hands the job's data to exactly one of the catalog and price
    services; a name it does not know is ignored. */
module ErpProcessor {
  import opened Shared
  import opened ErpContracts
  import opened Queue
  import opened Catalog
  import opened Pricing
  import opened ErpSync

  /** The data a producer puts under each known job name. The source casts
      `job.data` to the DTO its name announces without checking it, so the
      worker relies on producers keeping to this. */
  predicate WellFormedJob(name: string, data: Payload)
  {
    && (name == ProductUpdate ==> data.ProductPayload?)
    && (name == StockUpdate ==> data.StockPayload?)
    && (name == PriceUpdate ==> data.PricePayload?)
  }

  /** The producer's side of that agreement: every job a sync cycle enqueues
      is well formed for the worker. */
  lemma {:induction false} SyncPlanJobsWellFormed(products: Result<seq<ProductDTO>>, stocks: Result<seq<StockDTO>>,
                                                  prices: Result<seq<PriceListDTO>>)
    ensures var jobs := SyncPlan(products, stocks, prices).0;
            forall i :: 0 <= i < |jobs| ==> WellFormedJob(jobs[i].name, jobs[i].data)
  {
    var jobs := SyncPlan(products, stocks, prices).0;
    if products.Ok? {
      var np := |products.value|;
      var ns := if stocks.Ok? then |stocks.value| else 0;
      forall i | 0 <= i < |jobs| ensures WellFormedJob(jobs[i].name, jobs[i].data) {
        if i < np {
          assert jobs[i] == ProductJob(products.value[i]);
        } else if i < np + ns {
          assert jobs[i] == StockJob(stocks.value[i - np]);
        } else {
          assert jobs[i] == PriceJob(prices.value[i - np - ns]);
        }
      }
    }
  }

  class ErpSyncProcessor {
    const catalog: CatalogService
    const pricing: PriceService

    /** The price service reads the same product table the catalog writes. */
    ghost predicate Valid()
      reads this, catalog, pricing
    {
      pricing.catalog == catalog && pricing.Valid()
    }

    constructor (catalog: CatalogService, pricing: PriceService)
      requires pricing.catalog == catalog && pricing.Valid()
      ensures Valid() && this.catalog == catalog && this.pricing == pricing
    {
      this.catalog := catalog;
      this.pricing := pricing;
    }

    /** process: a product-update job upserts the product, a stock-update job
        reconciles the stock row, a price-update job saves the price, each
        handler's error propagating; any other name changes nothing and ends
        normally. Only the handler the name selects touches a table. */
    method Process(name: string, data: Payload, now: int) returns (r: Result<()>)
      requires Valid() && WellFormedJob(name, data)
      modifies catalog, pricing
      ensures Valid()
      ensures name == ProductUpdate ==>
                r == Ok(()) &&
                var dto := data.product;
                var found := if dto.code in old(catalog.products) then Some(old(catalog.products)[dto.code]) else None;
                catalog.products == old(catalog.products)[dto.code := Upsert(found, dto)] &&
                catalog.stocks == old(catalog.stocks) && pricing.prices == old(pricing.prices)
      ensures name == StockUpdate ==>
                var dto := data.stock;
                var key := (dto.productCode, dto.warehouseId);
                catalog.products == old(catalog.products) && pricing.prices == old(pricing.prices) &&
                (dto.productCode !in old(catalog.products) ==>
                   r == Err(ProductMissing(dto.productCode)) && catalog.stocks == old(catalog.stocks)) &&
                (dto.productCode in old(catalog.products) ==>
                   var found := if key in old(catalog.stocks) then Some(old(catalog.stocks)[key]) else None;
                   r == Ok(()) && catalog.stocks == old(catalog.stocks)[key := Reconcile(found, dto)])
      ensures name == PriceUpdate ==>
                var dto := data.price;
                var key := (dto.productCode, dto.priceList);
                catalog.products == old(catalog.products) && catalog.stocks == old(catalog.stocks) &&
                (dto.productCode !in old(catalog.products) ==>
                   r == Err(ProductMissing(dto.productCode)) && pricing.prices == old(pricing.prices)) &&
                (dto.productCode in old(catalog.products) ==>
                   var found := if key in old(pricing.prices) then Some(old(pricing.prices)[key]) else None;
                   r == Ok(()) && pricing.prices == old(pricing.prices)[key := Reprice(found, dto, now)])
      ensures name != ProductUpdate && name != StockUpdate && name != PriceUpdate ==>
                r == Ok(()) && catalog.products == old(catalog.products) &&
                catalog.stocks == old(catalog.stocks) && pricing.prices == old(pricing.prices)
    {
      if name == ProductUpdate {
        r := HandleProductUpdate(data.product);
      } else if name == StockUpdate {
        r := HandleStockUpdate(data.stock);
      } else if name == PriceUpdate {
        r := HandlePriceUpdate(data.price, now);
      } else {
        r := Ok(());
      }
    }

    /** handleProductUpdate: saveProduct, which cannot fail. */
    method HandleProductUpdate(dto: ProductDTO) returns (r: Result<()>)
      requires Valid()
      modifies catalog
      ensures Valid() && r == Ok(())
      ensures var found := if dto.code in old(catalog.products) then Some(old(catalog.products)[dto.code]) else None;
              catalog.products == old(catalog.products)[dto.code := Upsert(found, dto)]
      ensures catalog.stocks == old(catalog.stocks)
    {
      var _ := catalog.SaveProduct(dto);
      r := Ok(());
    }

    /** handleStockUpdate: updateStock, its error passed on. */
    method HandleStockUpdate(dto: StockDTO) returns (r: Result<()>)
      requires Valid()
      modifies catalog
      ensures Valid()
      ensures catalog.products == old(catalog.products)
      ensures dto.productCode !in old(catalog.products) ==>
                r == Err(ProductMissing(dto.productCode)) && catalog.stocks == old(catalog.stocks)
      ensures dto.productCode in old(catalog.products) ==>
                var key := (dto.productCode, dto.warehouseId);
                var found := if key in old(catalog.stocks) then Some(old(catalog.stocks)[key]) else None;
                r == Ok(()) && catalog.stocks == old(catalog.stocks)[key := Reconcile(found, dto)]
    {
      var saved := catalog.UpdateStock(dto);
      if saved.Err? {
        return Err(saved.error);
      }
      r := Ok(());
    }

    /** handlePriceUpdate: savePrice, its error passed on. */
    method HandlePriceUpdate(dto: PriceListDTO, now: int) returns (r: Result<()>)
      requires Valid()
      modifies pricing
      ensures Valid()
      ensures dto.productCode !in catalog.products ==>
                r == Err(ProductMissing(dto.productCode)) && pricing.prices == old(pricing.prices)
      ensures dto.productCode in catalog.products ==>
                var key := (dto.productCode, dto.priceList);
                var found := if key in old(pricing.prices) then Some(old(pricing.prices)[key]) else None;
                r == Ok(()) && pricing.prices == old(pricing.prices)[key := Reprice(found, dto, now)]
    {
      var saved := pricing.SavePrice(dto, now);
      if saved.Err? {
        return Err(saved.error);
      }
      r := Ok(());
    }
  }
}
