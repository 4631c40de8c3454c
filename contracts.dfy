/** The records the ERP feed delivers and the reconciler consumes. ISO-8601
    date strings are modelled as integer timestamps. */
module ErpContracts {
  import opened Shared

  datatype ProductDTO = ProductDTO(
    code: string,
    name: string,
    description: Option<string>,
    uom: string,
    barcode: Option<string>,
    isActive: bool)

  datatype StockDTO = StockDTO(
    productCode: string,
    warehouseId: string,
    quantity: real,
    updatedAt: int)   // the ERP's own change time, the ordering key

  datatype PriceListDTO = PriceListDTO(
    productCode: string,
    priceList: string,
    rate: real,
    currency: string,
    validFrom: Option<int>)
}
