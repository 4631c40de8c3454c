/** ErpMockService: the stand-in for the ERP feed. It serves fixed product,
    stock and price lists, restamps stock on every fetch, and fails every
    fetch while its failure switch is on. */
module ErpMock {
  import opened Shared
  import opened ErpContracts

  /** The stock list as fetchStock returns it: every entry kept, only its
      `updatedAt` replaced by the fetch time. */
  function Restamp(stocks: seq<StockDTO>, now: int): (r: seq<StockDTO>)
    ensures |r| == |stocks|
    ensures forall i :: 0 <= i < |r| ==>
              r[i].productCode == stocks[i].productCode && r[i].warehouseId == stocks[i].warehouseId &&
              r[i].quantity == stocks[i].quantity && r[i].updatedAt == now
  {
    seq(|stocks|, i requires 0 <= i < |stocks| => stocks[i].(updatedAt := now))
  }

  class ErpMockService {
    var failureMode: bool
    const products: seq<ProductDTO>
    const stocks: seq<StockDTO>
    const prices: seq<PriceListDTO>

    /** The seeded feed: two products, their stock in LOJA_01 and their
        standard selling prices, all stamped with the creation time. */
    constructor (now: int)
      ensures !failureMode
      ensures products == [ProductDTO("COC-350", "Coca Cola 350ml", None, "UN", Some("789123456"), true),
                           ProductDTO("AGU-500", "Agua 500ml", None, "UN", Some("789999999"), true)]
      ensures stocks == [StockDTO("COC-350", "LOJA_01", 100.0, now), StockDTO("AGU-500", "LOJA_01", 50.0, now)]
      ensures prices == [PriceListDTO("COC-350", "Standard Selling", 5.50, "BRL", Some(now)),
                         PriceListDTO("AGU-500", "Standard Selling", 3.00, "BRL", Some(now))]
    {
      failureMode := false;
      products := [
        ProductDTO("COC-350", "Coca Cola 350ml", None, "UN", Some("789123456"), true),
        ProductDTO("AGU-500", "Agua 500ml", None, "UN", Some("789999999"), true)
      ];
      stocks := [
        StockDTO("COC-350", "LOJA_01", 100.0, now),
        StockDTO("AGU-500", "LOJA_01", 50.0, now)
      ];
      prices := [
        PriceListDTO("COC-350", "Standard Selling", 5.50, "BRL", Some(now)),
        PriceListDTO("AGU-500", "Standard Selling", 3.00, "BRL", Some(now))
      ];
    }

    /** simulateFailure: sets the switch, nothing else. */
    method SimulateFailure(enabled: bool)
      modifies this
      ensures failureMode == enabled
    {
      failureMode := enabled;
    }

    /** fetchProducts: the stored list as it is, or a timeout while failing. */
    method FetchProducts() returns (r: Result<seq<ProductDTO>>)
      ensures failureMode ==> r == Err(FeedUnavailable)
      ensures !failureMode ==> r == Ok(products)
    {
      var failure := CheckFailure();
      if failure.Err? {
        return Err(failure.error);
      }
      r := Ok(products);
    }

    /** fetchStock: the stored entries restamped with the fetch time, or a
        timeout while failing; the stored list is left as it was. */
    method FetchStock(now: int) returns (r: Result<seq<StockDTO>>)
      ensures failureMode ==> r == Err(FeedUnavailable)
      ensures !failureMode ==> r.Ok? && r.value == Restamp(stocks, now)
    {
      var failure := CheckFailure();
      if failure.Err? {
        return Err(failure.error);
      }
      r := Ok(Restamp(stocks, now));
    }

    /** fetchPrices: the stored list as it is, or a timeout while failing. */
    method FetchPrices() returns (r: Result<seq<PriceListDTO>>)
      ensures failureMode ==> r == Err(FeedUnavailable)
      ensures !failureMode ==> r == Ok(prices)
    {
      var failure := CheckFailure();
      if failure.Err? {
        return Err(failure.error);
      }
      r := Ok(prices);
    }

    /** checkFailure: raises exactly while the switch is on. */
    method CheckFailure() returns (r: Result<()>)
      ensures r.Err? <==> failureMode
      ensures r.Err? ==> r.error == FeedUnavailable
    {
      if failureMode {
        return Err(FeedUnavailable);
      }
      r := Ok(());
    }
  }
}
