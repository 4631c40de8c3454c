/** PriceService: the price table, one row per (product, price list),
    overwritten on every event with no source-time guard, and the price
    lookup the cart uses. */
module Pricing {
  import opened Shared
  import opened ErpContracts
  import opened Catalog

  /** The table's unique index: (product code, price list). */
  type PriceKey = (string, string)

  datatype PriceRow = PriceRow(
    productCode: string,
    priceList: string,
    price: real,
    currency: string,
    validFrom: Option<int>,
    lastUpdatedAtSource: Option<int>)

  /** What getPrice hands out: the price, its currency and the product's name. */
  datatype PriceView = PriceView(price: real, currency: string, productName: string)

  /** The row savePrice leaves for the DTO's key, given the row it found and
      the local clock: rate and currency always come from the DTO, validFrom
      only when the DTO carries one, and the source time is the local `now`. */
  function Reprice(found: Option<PriceRow>, dto: PriceListDTO, now: int): (row: PriceRow)
    requires found.Some? ==> found.value.productCode == dto.productCode && found.value.priceList == dto.priceList
    ensures row.productCode == dto.productCode && row.priceList == dto.priceList
    ensures row.price == dto.rate && row.currency == dto.currency
    ensures row.lastUpdatedAtSource == Some(now)
    ensures dto.validFrom.Some? ==> row.validFrom == dto.validFrom
    ensures dto.validFrom.None? ==> row.validFrom == (if found.Some? then found.value.validFrom else None)
  {
    match found
    case Some(price) =>
      var updated := price.(price := dto.rate, currency := dto.currency);
      var dated := if dto.validFrom.Some? then updated.(validFrom := dto.validFrom) else updated;
      dated.(lastUpdatedAtSource := Some(now))
    case None =>
      PriceRow(dto.productCode, dto.priceList, dto.rate, dto.currency, dto.validFrom, Some(now))
  }

  /** Unlike stock, prices follow arrival order: whichever of two events for
      one key comes last decides the stored rate, whatever their dates. */
  lemma LastArrivalWins(found: Option<PriceRow>, first: PriceListDTO, second: PriceListDTO, t1: int, t2: int)
    requires first.productCode == second.productCode && first.priceList == second.priceList
    requires found.Some? ==> found.value.productCode == first.productCode && found.value.priceList == first.priceList
    ensures var row := Reprice(Some(Reprice(found, first, t1)), second, t2);
            row.price == second.rate && row.currency == second.currency && row.lastUpdatedAtSource == Some(t2)
  {
  }

  class PriceService {
    /** The product table, shared with CatalogService. */
    const catalog: CatalogService
    var prices: map<PriceKey, PriceRow>

    /** Rows sit under their own key and name an existing product. */
    ghost predicate Valid()
      reads this, catalog
    {
      && catalog.Valid()
      && forall k :: k in prices ==>
           prices[k].productCode == k.0 && prices[k].priceList == k.1 && k.0 in catalog.products
    }

    constructor (catalog: CatalogService)
      requires catalog.Valid()
      ensures Valid() && this.catalog == catalog && prices == map[]
    {
      this.catalog := catalog;
      prices := map[];
    }

    /** getPrice: None when there is no row for (product, list); otherwise the
        row's price and currency with the product's current name. */
    function GetPrice(productCode: string, priceList: string): (r: Option<PriceView>)
      requires Valid()
      reads this, catalog
      ensures r.None? <==> (productCode, priceList) !in prices
      ensures r.Some? ==>
                var row := prices[(productCode, priceList)];
                r.value.price == row.price && r.value.currency == row.currency &&
                productCode in catalog.products && r.value.productName == catalog.products[productCode].name
    {
      var key := (productCode, priceList);
      if key !in prices then None
      else Some(PriceView(prices[key].price, prices[key].currency, catalog.products[productCode].name))
    }

    /** savePrice: a missing product is an error and writes nothing; otherwise
        exactly the (product, list) row becomes Reprice of the row found, and
        getPrice afterwards reads back the DTO's rate and currency. */
    method SavePrice(dto: PriceListDTO, now: int) returns (r: Result<PriceRow>)
      requires Valid()
      modifies this
      ensures Valid()
      ensures dto.productCode !in catalog.products ==>
                r == Err(ProductMissing(dto.productCode)) && prices == old(prices)
      ensures dto.productCode in catalog.products ==>
                var key := (dto.productCode, dto.priceList);
                var found := if key in old(prices) then Some(old(prices)[key]) else None;
                r == Ok(Reprice(found, dto, now)) && prices == old(prices)[key := Reprice(found, dto, now)]
      ensures r.Ok? ==> GetPrice(dto.productCode, dto.priceList) ==
                          Some(PriceView(dto.rate, dto.currency, catalog.products[dto.productCode].name))
    {
      if dto.productCode !in catalog.products {
        return Err(ProductMissing(dto.productCode));
      }
      var key := (dto.productCode, dto.priceList);
      var price: PriceRow;
      if key in prices {
        price := prices[key];
        price := price.(price := dto.rate);
        price := price.(currency := dto.currency);
        if dto.validFrom.Some? {
          price := price.(validFrom := dto.validFrom);
        }
        price := price.(lastUpdatedAtSource := Some(now));
      } else {
        price := PriceRow(dto.productCode, dto.priceList, dto.rate, dto.currency, dto.validFrom, Some(now));
      }
      prices := prices[key := price];
      r := Ok(price);
    }
  }
}
