/** CatalogService: the product table, upserted with no ordering guard, and the
    stock table, whose rows only move forward in the ERP's source time. */
module Catalog {
  import opened Shared
  import opened ErpContracts

  datatype Product = Product(
    code: string,
    name: string,
    description: Option<string>,
    uom: string,
    barcode: Option<string>,
    isActive: bool)

  /** One row per (product, warehouse), the table's unique index. */
  type StockKey = (string, string)

  datatype StockRow = StockRow(
    productCode: string,
    warehouseId: string,
    quantity: real,
    lastUpdatedAtSource: Option<int>)   // nullable column

  /** The product row saveProduct writes: every field comes from the DTO. */
  function ProductOf(dto: ProductDTO): (p: Product)
    ensures p.code == dto.code && p.name == dto.name && p.description == dto.description
    ensures p.uom == dto.uom && p.barcode == dto.barcode && p.isActive == dto.isActive
  {
    Product(dto.code, dto.name, dto.description, dto.uom, dto.barcode, dto.isActive)
  }

  /** The row saveProduct leaves for the DTO's code, given the row it found.
      The entity is built from the DTO, but an omitted optional property is
      undefined on it and the save skips undefined properties on update, so
      an existing row keeps its description or barcode when the DTO has none. */
  function Upsert(found: Option<Product>, dto: ProductDTO): (p: Product)
    ensures found.None? ==> p == ProductOf(dto)
    ensures p.code == dto.code && p.name == dto.name && p.uom == dto.uom && p.isActive == dto.isActive
    ensures dto.description.Some? ==> p.description == dto.description
    ensures dto.barcode.Some? ==> p.barcode == dto.barcode
    ensures found.Some? && dto.description.None? ==> p.description == found.value.description
    ensures found.Some? && dto.barcode.None? ==> p.barcode == found.value.barcode
  {
    match found
    case None => ProductOf(dto)
    case Some(stored) =>
      Product(dto.code, dto.name,
              if dto.description.Some? then dto.description else stored.description,
              dto.uom,
              if dto.barcode.Some? then dto.barcode else stored.barcode,
              dto.isActive)
  }

  /** Syncing the same product twice leaves the row the first sync left. */
  lemma UpsertIdempotent(found: Option<Product>, dto: ProductDTO)
    ensures Upsert(Some(Upsert(found, dto)), dto) == Upsert(found, dto)
  {
  }

  /** A field once supplied survives later syncs that omit it, and a DTO
      carrying both optional fields overwrites the row completely. */
  lemma OmittedFieldsSurvive(found: Option<Product>, first: ProductDTO, later: ProductDTO)
    requires first.code == later.code
    ensures var after := Upsert(Some(Upsert(found, first)), later);
            (later.description.None? ==> after.description == Upsert(found, first).description) &&
            (later.barcode.None? ==> after.barcode == Upsert(found, first).barcode) &&
            (later.description.Some? && later.barcode.Some? ==> after == ProductOf(later))
  {
  }

  /** The stored source time, a null column read as the epoch. */
  function SourceTime(row: StockRow): int
  {
    match row.lastUpdatedAtSource
    case Some(t) => t
    case None => 0
  }

  /** The row updateStock leaves for the event's key, given the row it found:
      a missing row is inserted; an event not newer than the stored source time
      leaves the row as it is; a newer one takes quantity and time. */
  function Reconcile(found: Option<StockRow>, dto: StockDTO): (row: StockRow)
    requires found.Some? ==> found.value.productCode == dto.productCode && found.value.warehouseId == dto.warehouseId
    ensures row.productCode == dto.productCode && row.warehouseId == dto.warehouseId
    ensures found.None? ==> row.quantity == dto.quantity && row.lastUpdatedAtSource == Some(dto.updatedAt)
    ensures found.Some? && dto.updatedAt <= SourceTime(found.value) ==> row == found.value
    ensures found.Some? && dto.updatedAt > SourceTime(found.value) ==>
              row.quantity == dto.quantity && row.lastUpdatedAtSource == Some(dto.updatedAt)
    ensures found.Some? ==> SourceTime(row) == Max(SourceTime(found.value), dto.updatedAt)
  {
    match found
    case None => StockRow(dto.productCode, dto.warehouseId, dto.quantity, Some(dto.updatedAt))
    case Some(stock) =>
      if dto.updatedAt <= SourceTime(stock) then stock
      else stock.(quantity := dto.quantity, lastUpdatedAtSource := Some(dto.updatedAt))
  }

  /** Delivering the same event twice has the effect of delivering it once. */
  lemma ReconcileIdempotent(found: Option<StockRow>, dto: StockDTO)
    requires found.Some? ==> found.value.productCode == dto.productCode && found.value.warehouseId == dto.warehouseId
    ensures Reconcile(Some(Reconcile(found, dto)), dto) == Reconcile(found, dto)
  {
  }

  /** Last writer by source time wins, not last by arrival: two events with
      different source times leave the same row in either delivery order. */
  lemma ReconcileOrderIndependent(found: Option<StockRow>, e1: StockDTO, e2: StockDTO)
    requires e1.productCode == e2.productCode && e1.warehouseId == e2.warehouseId
    requires found.Some? ==> found.value.productCode == e1.productCode && found.value.warehouseId == e1.warehouseId
    requires e1.updatedAt != e2.updatedAt
    ensures Reconcile(Some(Reconcile(found, e1)), e2) == Reconcile(Some(Reconcile(found, e2)), e1)
  {
  }

  /** An older event delivered after a newer one changes nothing: the
      round trip of two stock events for one key. */
  lemma StaleEventAfterNewer(found: Option<StockRow>, newer: StockDTO, older: StockDTO)
    requires newer.productCode == older.productCode && newer.warehouseId == older.warehouseId
    requires found.Some? ==> found.value.productCode == newer.productCode && found.value.warehouseId == newer.warehouseId
    requires older.updatedAt < newer.updatedAt
    requires found.Some? ==> SourceTime(found.value) < newer.updatedAt
    ensures var after := Reconcile(found, newer);
            after.quantity == newer.quantity && Reconcile(Some(after), older) == after
  {
  }

  class CatalogService {
    var products: map<string, Product>
    var stocks: map<StockKey, StockRow>

    /** Rows sit under their own key, and every stock row names a product
        (the foreign key of the stock table). */
    ghost predicate Valid()
      reads this
    {
      && (forall code :: code in products ==> products[code].code == code)
      && (forall k :: k in stocks ==> stocks[k].productCode == k.0 && stocks[k].warehouseId == k.1 && k.0 in products)
    }

    constructor ()
      ensures Valid() && products == map[] && stocks == map[]
    {
      products := map[];
      stocks := map[];
    }

    /** saveProduct: an upsert by code with no ordering guard. The row becomes
        Upsert of the row found; what is returned is the entity built from
        the DTO, which save hands back. */
    method SaveProduct(dto: ProductDTO) returns (saved: Product)
      requires Valid()
      modifies this
      ensures Valid()
      ensures saved == ProductOf(dto)
      ensures var found := if dto.code in old(products) then Some(old(products)[dto.code]) else None;
              products == old(products)[dto.code := Upsert(found, dto)]
      ensures stocks == old(stocks)
    {
      saved := ProductOf(dto);
      var found := if dto.code in products then Some(products[dto.code]) else None;
      products := products[dto.code := Upsert(found, dto)];
    }

    /** updateStock: a missing product is an error and writes nothing;
        otherwise the (product, warehouse) row becomes Reconcile of the row
        found, which is also what is returned. */
    method UpdateStock(dto: StockDTO) returns (r: Result<StockRow>)
      requires Valid()
      modifies this
      ensures Valid()
      ensures products == old(products)
      ensures dto.productCode !in old(products) ==> r == Err(ProductMissing(dto.productCode)) && stocks == old(stocks)
      ensures dto.productCode in old(products) ==>
                var key := (dto.productCode, dto.warehouseId);
                var found := if key in old(stocks) then Some(old(stocks)[key]) else None;
                r == Ok(Reconcile(found, dto)) && stocks == old(stocks)[key := Reconcile(found, dto)]
      ensures old(stocks).Keys <= stocks.Keys
    {
      var productCode, warehouseId, quantity, updatedAt := dto.productCode, dto.warehouseId, dto.quantity, dto.updatedAt;
      if productCode !in products {
        return Err(ProductMissing(productCode));
      }
      var key := (productCode, warehouseId);
      if key in stocks {
        var stock := stocks[key];
        var lastUpdate := if stock.lastUpdatedAtSource.Some? then stock.lastUpdatedAtSource.value else 0;
        if updatedAt <= lastUpdate {
          return Ok(stock);
        }
        stock := stock.(quantity := quantity);
        stock := stock.(lastUpdatedAtSource := Some(updatedAt));
        stocks := stocks[key := stock];
        r := Ok(stock);
      } else {
        var stock := StockRow(productCode, warehouseId, quantity, Some(updatedAt));
        stocks := stocks[key := stock];
        r := Ok(stock);
      }
    }
  }
}
