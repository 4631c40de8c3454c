/** SalesService: the sales table. A sale is made from a CLOSED session, from
    an offline sale synced later, or by a direct checkout priced on the spot;
    the payment webhook marks it PAID and hands it to the export queue. */
module Sales {
  import opened Shared
  import opened Queue
  import opened Sessions

  datatype SaleStatus = Created | PendingPayment | Paid | Cancelled

  /** A line of an offline sale as the device sends it. */
  datatype OfflineItem = OfflineItem(productCode: string, quantity: real, unitPrice: real, totalPrice: real)

  /** A line priced by a direct checkout. */
  datatype CheckoutLine = CheckoutLine(productCode: string, quantity: real, unitPrice: real, totalPrice: real,
                                       description: string)

  /** The `items` column holds whichever lines made the sale. */
  datatype SaleItem = FromCart(cartLine: CartItem) | FromOffline(offlineLine: OfflineItem) | FromCheckout(checkoutLine: CheckoutLine)

  /** What the payment gateway answers for a PIX charge. */
  datatype PixCharge = PixCharge(transactionId: string, copyPaste: string, qrCodeBase64: string)

  datatype PaymentMeta =
    | WebhookPayload(payload: string)                        // the webhook's own payload, kept as sent
    | WebhookStatus(transactionId: string, status: string)
    | GatewayCharge(transactionId: string, provider: string, fullResponse: PixCharge)

  /** A row of the sales table; its id is its position. */
  datatype Sale = Sale(
    id: nat,
    sessionId: Option<nat>,
    offlineId: Option<string>,
    storeId: string,
    customerId: string,
    total: real,
    status: SaleStatus,
    items: seq<SaleItem>,
    createdAt: int,
    paymentMeta: Option<PaymentMeta>,
    erpSyncStatus: string)

  datatype OfflineSaleDto = OfflineSaleDto(offlineId: string, storeId: string, customerId: string, total: real,
                                           items: seq<OfflineItem>, occurredAt: int)

  /** The webhook's body; a `payload` that JavaScript reads as false is None. */
  datatype PaymentWebhookDto = PaymentWebhookDto(saleId: nat, transactionId: string, status: string,
                                                 payload: Option<string>)

  datatype DirectItem = DirectItem(productCode: string, quantity: real)

  datatype CheckoutReceipt = CheckoutReceipt(saleId: nat, total: real, pixCode: string, qrCodeBase64: string,
                                             status: SaleStatus)

  const ExportJobName: string := "erpnext-sync-invoice"
  /** How far an offline total may drift from its items' sum. */
  const Tolerance: real := 0.05
  /** The fixed unit price and the stock ceiling of the direct checkout. */
  const MockUnitPrice: real := 10.0
  const MaxStock: real := 999.0
  const DirectStoreId: string := "STORE-001"
  const Guest: string := "GUEST"
  const PendingSync: string := "PENDING"
  const Provider: string := "mercadopago"

  function Abs(x: real): real
  {
    if x < 0.0 then -x else x
  }

  /** The offline check's sum of unit price times quantity, left to right. */
  function ItemsSum(items: seq<OfflineItem>): (t: real)
    ensures |items| == 1 ==> t == items[0].unitPrice * items[0].quantity
    ensures (forall i :: 0 <= i < |items| ==> items[i].unitPrice >= 0.0 && items[i].quantity >= 0.0) ==> t >= 0.0
    decreases |items|
  {
    if |items| == 0 then 0.0 else ItemsSum(items[..|items| - 1]) + items[|items| - 1].unitPrice * items[|items| - 1].quantity
  }

  /** The reduce is a plain sum: an upload split in two totals the sum of its parts. */
  lemma {:induction false} ItemsSumConcat(front: seq<OfflineItem>, back: seq<OfflineItem>)
    ensures ItemsSum(front + back) == ItemsSum(front) + ItemsSum(back)
    decreases |back|
  {
    if |back| > 0 {
      var init := back[..|back| - 1];
      var last := back[|back| - 1].unitPrice * back[|back| - 1].quantity;
      assert (front + back)[..|front + back| - 1] == front + init;
      assert (front + back)[|front + back| - 1] == back[|back| - 1];
      assert ItemsSum(front + back) == ItemsSum(front + init) + last;
      assert ItemsSum(back) == ItemsSum(init) + last;
      ItemsSumConcat(front, init);
    } else {
      assert front + back == front;
    }
  }

  /** The sales table's invariants: ids are positions, and no two sales share
      a session or an offline id (the table's unique indexes). */
  predicate WellFormedSales(sales: seq<Sale>)
  {
    && (forall i :: 0 <= i < |sales| ==> sales[i].id == i)
    && (forall i, j :: 0 <= i < j < |sales| && sales[i].sessionId.Some? ==> sales[i].sessionId != sales[j].sessionId)
    && (forall i, j :: 0 <= i < j < |sales| && sales[i].offlineId.Some? ==> sales[i].offlineId != sales[j].offlineId)
  }

  /** The two unique keys a sale can be found by. */
  datatype SaleKey = SessionKey(sessionId: nat) | OfflineKey(offlineId: string)

  predicate HasKey(sale: Sale, key: SaleKey)
  {
    match key
    case SessionKey(id) => sale.sessionId == Some(id)
    case OfflineKey(id) => sale.offlineId == Some(id)
  }

  /** `findOne({ where: { sessionId } })` and `findOne({ where: { offlineId } })`:
      the sale carrying the key, if any. */
  function FindSale(sales: seq<Sale>, key: SaleKey): (r: Option<nat>)
    ensures r.Some? ==> r.value < |sales| && HasKey(sales[r.value], key)
    ensures r.None? ==> forall i :: 0 <= i < |sales| ==> !HasKey(sales[i], key)
    decreases |sales|
  {
    if |sales| == 0 then None
    else if HasKey(sales[|sales| - 1], key) then Some(|sales| - 1)
    else FindSale(sales[..|sales| - 1], key)
  }

  /** The cart copied into the sale's items. */
  function CartSnapshot(cart: seq<CartItem>): (items: seq<SaleItem>)
    ensures |items| == |cart| && forall i :: 0 <= i < |cart| ==> items[i] == FromCart(cart[i])
  {
    seq(|cart|, i requires 0 <= i < |cart| => FromCart(cart[i]))
  }

  /** The offline lines stored as the sale's items. */
  function OfflineSnapshot(items: seq<OfflineItem>): (r: seq<SaleItem>)
    ensures |r| == |items| && forall i :: 0 <= i < |items| ==> r[i] == FromOffline(items[i])
  {
    seq(|items|, i requires 0 <= i < |items| => FromOffline(items[i]))
  }

  /** The priced lines stored as the sale's items. */
  function CheckoutSnapshot(lines: seq<CheckoutLine>): (r: seq<SaleItem>)
    ensures |r| == |lines| && forall i :: 0 <= i < |lines| ==> r[i] == FromCheckout(lines[i])
  {
    seq(|lines|, i requires 0 <= i < |lines| => FromCheckout(lines[i]))
  }

  /** createSaleFromSession over the table, given what getSession found: a
      missing session is NotFound, another customer's or a not-CLOSED one is
      refused; the sale already made from the session is returned as it is;
      otherwise one CREATED sale copying the session's store, customer, total
      and cart is appended. */
  function FromSessionOutcome(sales: seq<Sale>, found: Option<Session>, sessionId: nat, userId: string, now: int)
    : (out: (Result<Sale>, seq<Sale>))
    ensures found.None? ==> out == (Err(NotFound(SessionRecord)), sales)
    ensures found.Some? && found.value.customerId != userId ==> out == (Err(BadRequest(ForeignSession)), sales)
    ensures (found.Some? && found.value.customerId == userId && found.value.status != Closed) ==>
              out == (Err(BadRequest(SessionNotClosed)), sales)
    ensures out.0.Ok? <==> found.Some? && found.value.customerId == userId && found.value.status == Closed
    ensures out.0.Ok? && FindSale(sales, SessionKey(sessionId)).Some? ==>
              out.1 == sales && out.0.value == sales[FindSale(sales, SessionKey(sessionId)).value]
    ensures out.0.Ok? && FindSale(sales, SessionKey(sessionId)).None? ==>
              var s := out.0.value;
              out.1 == sales + [s] && s.id == |sales| && s.sessionId == Some(sessionId) && s.status == Created &&
              s.storeId == found.value.storeId && s.customerId == userId && s.total == found.value.total &&
              s.items == CartSnapshot(found.value.cart) && s.paymentMeta.None?
  {
    if found.None? then (Err(NotFound(SessionRecord)), sales)
    else if found.value.customerId != userId then (Err(BadRequest(ForeignSession)), sales)
    else if found.value.status != Closed then (Err(BadRequest(SessionNotClosed)), sales)
    else match FindSale(sales, SessionKey(sessionId))
      case Some(i) => (Ok(sales[i]), sales)
      case None =>
        var session := found.value;
        var sale := Sale(|sales|, Some(sessionId), None, session.storeId, session.customerId, session.total,
                         Created, CartSnapshot(session.cart), now, None, PendingSync);
        (Ok(sale), sales + [sale])
  }

  /** Converting a session twice makes one sale: the second call returns the
      first call's sale and leaves the table as the first left it. */
  lemma FromSessionIdempotent(sales: seq<Sale>, found: Option<Session>, sessionId: nat, userId: string, t1: int, t2: int)
    requires WellFormedSales(sales)
    ensures var (first, after) := FromSessionOutcome(sales, found, sessionId, userId, t1);
            FromSessionOutcome(after, found, sessionId, userId, t2) == (first, after)
  {
    var (first, after) := FromSessionOutcome(sales, found, sessionId, userId, t1);
    if first.Ok? {
      FromSessionPreserves(sales, found, sessionId, userId, t1);
      var k := if FindSale(sales, SessionKey(sessionId)).Some? then FindSale(sales, SessionKey(sessionId)).value else |sales|;
      SessionSaleUnique(after, FindSale(after, SessionKey(sessionId)).value, k);
    }
  }

  /** Under the table's invariants a session has at most one sale. */
  lemma SessionSaleUnique(sales: seq<Sale>, i: nat, k: nat)
    requires WellFormedSales(sales) && i < |sales| && k < |sales|
    requires sales[i].sessionId.Some? && sales[i].sessionId == sales[k].sessionId
    ensures i == k
  {
  }

  lemma FromSessionPreserves(sales: seq<Sale>, found: Option<Session>, sessionId: nat, userId: string, now: int)
    requires WellFormedSales(sales)
    ensures WellFormedSales(FromSessionOutcome(sales, found, sessionId, userId, now).1)
  {
  }

  /** syncOfflineSale over the table: a total more than the tolerance away
      from its items' sum is refused before anything else; a sale already
      synced under the offline id is returned as it is; otherwise one CREATED
      sale with the device's total, items and time is appended. */
  function OfflineOutcome(sales: seq<Sale>, dto: OfflineSaleDto): (out: (Result<Sale>, seq<Sale>))
    ensures Abs(ItemsSum(dto.items) - dto.total) > Tolerance ==> out == (Err(BadRequest(TotalMismatch)), sales)
    ensures out.0.Ok? <==> Abs(ItemsSum(dto.items) - dto.total) <= Tolerance
    ensures out.0.Ok? && FindSale(sales, OfflineKey(dto.offlineId)).Some? ==>
              out.1 == sales && out.0.value == sales[FindSale(sales, OfflineKey(dto.offlineId)).value]
    ensures out.0.Ok? && FindSale(sales, OfflineKey(dto.offlineId)).None? ==>
              var s := out.0.value;
              out.1 == sales + [s] && s.id == |sales| && s.offlineId == Some(dto.offlineId) && s.sessionId.None? &&
              s.status == Created && s.total == dto.total && s.storeId == dto.storeId &&
              s.customerId == dto.customerId && s.createdAt == dto.occurredAt &&
              s.items == OfflineSnapshot(dto.items)
  {
    if Abs(ItemsSum(dto.items) - dto.total) > Tolerance then (Err(BadRequest(TotalMismatch)), sales)
    else match FindSale(sales, OfflineKey(dto.offlineId))
      case Some(i) => (Ok(sales[i]), sales)
      case None =>
        var sale := Sale(|sales|, None, Some(dto.offlineId), dto.storeId, dto.customerId, dto.total, Created,
                         OfflineSnapshot(dto.items), dto.occurredAt, None, PendingSync);
        (Ok(sale), sales + [sale])
  }

  /** A redelivered offline sale is not duplicated: whatever a later upload
      under the same offline id carries (as long as it reconciles), made once
      the first has finished, it gets the first upload's sale and the table
      stays as the first left it. */
  lemma OfflineIdempotent(sales: seq<Sale>, first: OfflineSaleDto, again: OfflineSaleDto)
    requires WellFormedSales(sales)
    requires again.offlineId == first.offlineId
    requires Abs(ItemsSum(again.items) - again.total) <= Tolerance
    ensures var (r1, after) := OfflineOutcome(sales, first);
            r1.Ok? ==> OfflineOutcome(after, again) == (r1, after)
  {
    var (r1, after) := OfflineOutcome(sales, first);
    if r1.Ok? {
      OfflinePreserves(sales, first);
      var k := if FindSale(sales, OfflineKey(first.offlineId)).Some? then FindSale(sales, OfflineKey(first.offlineId)).value else |sales|;
      OfflineSaleUnique(after, FindSale(after, OfflineKey(first.offlineId)).value, k);
    }
  }

  /** Under the table's invariants an offline id has at most one sale. */
  lemma OfflineSaleUnique(sales: seq<Sale>, i: nat, k: nat)
    requires WellFormedSales(sales) && i < |sales| && k < |sales|
    requires sales[i].offlineId.Some? && sales[i].offlineId == sales[k].offlineId
    ensures i == k
  {
  }

  lemma OfflinePreserves(sales: seq<Sale>, dto: OfflineSaleDto)
    requires WellFormedSales(sales)
    ensures WellFormedSales(OfflineOutcome(sales, dto).1)
  {
  }

  /** The payment meta the webhook records: its payload, else its
      transaction id and status. */
  function WebhookMeta(dto: PaymentWebhookDto): PaymentMeta
  {
    if dto.payload.Some? then WebhookPayload(dto.payload.value) else WebhookStatus(dto.transactionId, dto.status)
  }

  /** The export job confirmPayment adds: the sale's id, default options. */
  function ExportJob(saleId: nat): Enqueued
  {
    Enqueued(ExportJobName, SaleRef(saleId), JobOptions(None, false))
  }

  /** The sale as confirmPayment saves it: PAID, with the webhook's meta. */
  function PaidBy(sale: Sale, dto: PaymentWebhookDto): Sale
  {
    sale.(status := Paid, paymentMeta := Some(WebhookMeta(dto)))
  }

  /** confirmPayment over the table, given whether the export queue takes
      the add: the answer, the new table and the jobs added. A missing sale
      is NotFound; a PAID one is returned unchanged with no job; a CANCELLED
      one is refused; a CREATED or PENDING_PAYMENT one is saved PAID with the
      webhook's meta, and only then is its one export job added; a rejected
      add leaves the sale PAID and answers with the queue's error. */
  function ConfirmOutcome(sales: seq<Sale>, dto: PaymentWebhookDto, queueUp: bool)
    : (out: (Result<Sale>, seq<Sale>, seq<Enqueued>))
    ensures dto.saleId >= |sales| ==> out == (Err(NotFound(SaleRecord)), sales, [])
    ensures dto.saleId < |sales| && sales[dto.saleId].status == Paid ==> out == (Ok(sales[dto.saleId]), sales, [])
    ensures dto.saleId < |sales| && sales[dto.saleId].status == Cancelled ==>
              out == (Err(BadRequest(CancelledSale)), sales, [])
    ensures dto.saleId < |sales| && sales[dto.saleId].status in {Created, PendingPayment} ==>
              out.1 == sales[dto.saleId := PaidBy(sales[dto.saleId], dto)] &&
              out.1[dto.saleId].status == Paid && out.1[dto.saleId].paymentMeta == Some(WebhookMeta(dto)) &&
              (queueUp ==> out.0 == Ok(out.1[dto.saleId]) && out.2 == [ExportJob(dto.saleId)]) &&
              (!queueUp ==> out.0 == Err(StoreFailure) && out.2 == [])
    ensures |out.2| <= 1
  {
    if dto.saleId >= |sales| then (Err(NotFound(SaleRecord)), sales, [])
    else if sales[dto.saleId].status == Paid then (Ok(sales[dto.saleId]), sales, [])
    else if sales[dto.saleId].status == Cancelled then (Err(BadRequest(CancelledSale)), sales, [])
    else
      var sale := PaidBy(sales[dto.saleId], dto);
      if queueUp then (Ok(sale), sales[dto.saleId := sale], [ExportJob(dto.saleId)])
      else (Err(StoreFailure), sales[dto.saleId := sale], [])
  }

  /** A webhook delivered twice, the second delivery after the first has
      finished, makes one transition and at most one export job: the second
      delivery finds the sale PAID, answers it as the first
      left it and enqueues nothing. A CREATED or PENDING_PAYMENT sale whose
      first add goes through gets exactly one job. */
  lemma ConfirmTwiceEnqueuesOnce(sales: seq<Sale>, dto: PaymentWebhookDto, again: PaymentWebhookDto, up1: bool, up2: bool)
    requires again.saleId == dto.saleId
    ensures var (r1, after, jobs1) := ConfirmOutcome(sales, dto, up1);
            var (r2, after2, jobs2) := ConfirmOutcome(after, again, up2);
            |jobs1 + jobs2| <= 1 && after2 == after && (r1.Ok? ==> r2 == r1) &&
            (dto.saleId < |sales| && sales[dto.saleId].status in {Created, PendingPayment} && up1 ==>
               |jobs1 + jobs2| == 1 && after[dto.saleId].status == Paid)
  {
  }

  /** The export lost for good: when the add after the save is rejected,
      the sale is already PAID, so every later delivery of the webhook takes
      the PAID early return and no export job is ever added for it. */
  lemma RejectedExportIsNeverRetried(sales: seq<Sale>, dto: PaymentWebhookDto, later: seq<PaymentWebhookDto>,
                                     ups: seq<bool>)
    requires dto.saleId < |sales| && sales[dto.saleId].status in {Created, PendingPayment}
    requires |ups| == |later| && forall k :: 0 <= k < |later| ==> later[k].saleId == dto.saleId
    ensures var out := ConfirmOutcome(sales, dto, false);
            out.0 == Err(StoreFailure) && out.2 == [] && out.1[dto.saleId].status == Paid &&
            Redeliver(out.1, later, ups) == (out.1, [])
  {
    RedeliverPaid(ConfirmOutcome(sales, dto, false).1, dto.saleId, later, ups);
  }

  /** Several webhook deliveries in a row: the table they leave and the
      export jobs they add. */
  function Redeliver(sales: seq<Sale>, dtos: seq<PaymentWebhookDto>, ups: seq<bool>): (seq<Sale>, seq<Enqueued>)
    requires |ups| == |dtos|
    decreases |dtos|
  {
    if |dtos| == 0 then (sales, [])
    else
      var (_, after, jobs) := ConfirmOutcome(sales, dtos[0], ups[0]);
      var (final, rest) := Redeliver(after, dtos[1..], ups[1..]);
      (final, jobs + rest)
  }

  /** Deliveries for a sale that is already PAID change nothing and add no job. */
  lemma {:induction false} RedeliverPaid(sales: seq<Sale>, saleId: nat, dtos: seq<PaymentWebhookDto>, ups: seq<bool>)
    requires saleId < |sales| && sales[saleId].status == Paid
    requires |ups| == |dtos| && forall k :: 0 <= k < |dtos| ==> dtos[k].saleId == saleId
    ensures Redeliver(sales, dtos, ups) == (sales, [])
    decreases |dtos|
  {
    if |dtos| > 0 {
      assert dtos[0].saleId == saleId;
      assert ConfirmOutcome(sales, dtos[0], ups[0]).1 == sales;
      forall k | 0 <= k < |dtos[1..]|
        ensures dtos[1..][k].saleId == saleId
      {
        assert dtos[1..][k] == dtos[k + 1];
      }
      RedeliverPaid(sales, saleId, dtos[1..], ups[1..]);
      var (_, after, jobs) := ConfirmOutcome(sales, dtos[0], ups[0]);
      assert after == sales && jobs == [];
      assert jobs + [] == [];
    }
  }

  lemma ConfirmPreserves(sales: seq<Sale>, dto: PaymentWebhookDto, queueUp: bool)
    requires WellFormedSales(sales)
    ensures WellFormedSales(ConfirmOutcome(sales, dto, queueUp).1)
  {
    var after := ConfirmOutcome(sales, dto, queueUp).1;
    assert forall i :: 0 <= i < |sales| ==>
             (after[i].id == sales[i].id && after[i].sessionId == sales[i].sessionId &&
              after[i].offlineId == sales[i].offlineId);
  }

  /** The line the direct checkout prices for an item: the fixed unit price
      times the quantity, described by the product code. */
  function CheckoutLineOf(item: DirectItem): CheckoutLine
  {
    CheckoutLine(item.productCode, item.quantity, MockUnitPrice, MockUnitPrice * item.quantity,
                 "Product " + item.productCode)
  }

  /** The sum of the lines' totals, left to right. */
  function LinesTotal(lines: seq<CheckoutLine>): real
    decreases |lines|
  {
    if |lines| == 0 then 0.0 else LinesTotal(lines[..|lines| - 1]) + lines[|lines| - 1].totalPrice
  }

  /** The first item asking for more than the stock ceiling, if any. */
  function FirstOverstocked(items: seq<DirectItem>): (r: Option<nat>)
    ensures r.Some? ==> r.value < |items| && items[r.value].quantity > MaxStock &&
                        forall j :: 0 <= j < r.value ==> items[j].quantity <= MaxStock
    ensures r.None? ==> forall j :: 0 <= j < |items| ==> items[j].quantity <= MaxStock
    decreases |items|
  {
    if |items| == 0 then None
    else if items[0].quantity > MaxStock then Some(0)
    else match FirstOverstocked(items[1..])
      case Some(k) => Some(k + 1)
      case None => None
  }

  /** Every item's priced line, in order. */
  function CheckoutLines(items: seq<DirectItem>): (lines: seq<CheckoutLine>)
    ensures |lines| == |items| && forall i :: 0 <= i < |items| ==> lines[i] == CheckoutLineOf(items[i])
  {
    seq(|items|, i requires 0 <= i < |items| => CheckoutLineOf(items[i]))
  }

  /** What the pricing loop yields: the refusal of the first item over the
      ceiling, or every line with their sum. */
  function Priced(items: seq<DirectItem>): Result<(seq<CheckoutLine>, real)>
  {
    match FirstOverstocked(items)
    case Some(k) => Err(BadRequest(InsufficientStock(items[k].productCode)))
    case None => Ok((CheckoutLines(items), LinesTotal(CheckoutLines(items))))
  }

  /** processDirectCheckout's pricing loop: the first item over the stock
      ceiling is refused by its product code; otherwise every item gets its
      priced line, in order, and the total is the sum of the lines. */
  method PriceCheckout(items: seq<DirectItem>) returns (r: Result<(seq<CheckoutLine>, real)>)
    ensures r.Err? <==> FirstOverstocked(items).Some?
    ensures r.Err? ==> r.error == BadRequest(InsufficientStock(items[FirstOverstocked(items).value].productCode))
    ensures r.Ok? ==> |r.value.0| == |items| &&
                      (forall i :: 0 <= i < |items| ==>
                         r.value.0[i] == CheckoutLineOf(items[i]) &&
                         r.value.0[i].totalPrice == MockUnitPrice * items[i].quantity) &&
                      r.value.1 == LinesTotal(r.value.0)
    ensures r == Priced(items)
  {
    var total := 0.0;
    var saleItems: seq<CheckoutLine> := [];
    var i := 0;
    while i < |items|
      invariant 0 <= i <= |items|
      invariant forall j :: 0 <= j < i ==> items[j].quantity <= MaxStock
      invariant |saleItems| == i && forall j :: 0 <= j < i ==> saleItems[j] == CheckoutLineOf(items[j])
      invariant total == LinesTotal(saleItems)
    {
      var item := items[i];
      var unitPrice := MockUnitPrice;
      var itemTotal := unitPrice * item.quantity;
      if item.quantity > MaxStock {
        return Err(BadRequest(InsufficientStock(item.productCode)));
      }
      total := total + itemTotal;
      var line := CheckoutLine(item.productCode, item.quantity, unitPrice, itemTotal, "Product " + item.productCode);
      assert (saleItems + [line])[..|saleItems|] == saleItems;
      saleItems := saleItems + [line];
      i := i + 1;
    }
    assert saleItems == CheckoutLines(items);
    r := Ok((saleItems, total));
  }

  /** The customer of a direct sale: the caller, or GUEST when anonymous. */
  function DirectCustomer(userId: string): string
  {
    if userId == "" then Guest else userId
  }

  /** processDirectCheckout over the table, given the pricing result and the
      gateway's charge (`None` when generatePix failed): a refused item
      writes nothing; otherwise one PENDING_PAYMENT sale holding the priced
      lines is appended, and it carries the charge as its payment meta unless
      the gateway failed, whose BadRequest is then passed on. */
  function CheckoutOutcome(sales: seq<Sale>, userId: string, priced: Result<(seq<CheckoutLine>, real)>,
                           pix: Option<PixCharge>, now: int): (out: (Result<CheckoutReceipt>, seq<Sale>))
    ensures priced.Err? ==> out == (Err(priced.error), sales)
    ensures priced.Ok? ==>
              |out.1| == |sales| + 1 && out.1[..|sales|] == sales &&
              var s := out.1[|sales|];
              s.id == |sales| && s.status == PendingPayment && s.total == priced.value.1 &&
              s.items == CheckoutSnapshot(priced.value.0) && s.createdAt == now &&
              s.customerId == DirectCustomer(userId) && s.storeId == DirectStoreId &&
              s.sessionId.None? && s.offlineId.None? && s.erpSyncStatus == PendingSync &&
              (pix.None? ==> out.0 == Err(BadRequest(PaymentGenerationFailed)) && s.paymentMeta.None?) &&
              (pix.Some? ==> s.paymentMeta == Some(GatewayCharge(pix.value.transactionId, Provider, pix.value)) &&
                             out.0 == Ok(CheckoutReceipt(s.id, s.total, pix.value.copyPaste, pix.value.qrCodeBase64,
                                                         PendingPayment)))
  {
    if priced.Err? then (Err(priced.error), sales)
    else
      var sale := Sale(|sales|, None, None, DirectStoreId, DirectCustomer(userId), priced.value.1, PendingPayment,
                       CheckoutSnapshot(priced.value.0), now, None, PendingSync);
      if pix.None? then (Err(BadRequest(PaymentGenerationFailed)), sales + [sale])
      else
        var paid := sale.(paymentMeta := Some(GatewayCharge(pix.value.transactionId, Provider, pix.value)));
        (Ok(CheckoutReceipt(paid.id, paid.total, pix.value.copyPaste, pix.value.qrCodeBase64, paid.status)),
         sales + [paid])
  }

  lemma CheckoutPreserves(sales: seq<Sale>, userId: string, priced: Result<(seq<CheckoutLine>, real)>,
                          pix: Option<PixCharge>, now: int)
    requires WellFormedSales(sales)
    ensures WellFormedSales(CheckoutOutcome(sales, userId, priced, pix, now).1)
  {
  }

  class SalesService {
    var sales: seq<Sale>
    const sessionService: SessionService
    /** The sales-export queue. */
    const exportQueue: JobQueue

    ghost predicate Valid()
      reads this, exportQueue
    {
      WellFormedSales(sales) && exportQueue.Valid()
    }

    constructor (sessionService: SessionService, exportQueue: JobQueue)
      requires exportQueue.Valid()
      ensures Valid() && sales == [] && this.sessionService == sessionService && this.exportQueue == exportQueue
    {
      sales := [];
      this.sessionService := sessionService;
      this.exportQueue := exportQueue;
    }

    /** createSaleFromSession, as one atomic step: the answer and the new
        table are FromSessionOutcome's for the session getSession finds. */
    method CreateSaleFromSession(sessionId: nat, userId: string, now: int) returns (r: Result<Sale>)
      requires Valid()
      modifies this
      ensures Valid()
      ensures (r, sales) == FromSessionOutcome(old(sales), sessionService.GetSession(sessionId), sessionId, userId, now)
    {
      FromSessionPreserves(sales, sessionService.GetSession(sessionId), sessionId, userId, now);
      var session := sessionService.GetSession(sessionId);
      if session.None? {
        return Err(NotFound(SessionRecord));
      }
      if session.value.customerId != userId {
        return Err(BadRequest(ForeignSession));
      }
      if session.value.status != Closed {
        return Err(BadRequest(SessionNotClosed));
      }
      var existingSale := FindSale(sales, SessionKey(sessionId));
      if existingSale.Some? {
        return Ok(sales[existingSale.value]);
      }
      var sale := Sale(|sales|, Some(sessionId), None, session.value.storeId, session.value.customerId,
                       session.value.total, Created, CartSnapshot(session.value.cart), now, None, PendingSync);
      sales := sales + [sale];
      r := Ok(sale);
    }

    /** getSale: a missing sale is NotFound, another customer's is refused. */
    function GetSale(saleId: nat, userId: string): (r: Result<Sale>)
      reads this
      ensures saleId >= |sales| ==> r == Err(NotFound(SaleRecord))
      ensures saleId < |sales| && sales[saleId].customerId != userId ==> r == Err(BadRequest(AccessDenied))
      ensures saleId < |sales| && sales[saleId].customerId == userId ==> r == Ok(sales[saleId])
      ensures r.Ok? ==> saleId < |sales| && r.value == sales[saleId] && r.value.customerId == userId
    {
      if saleId >= |sales| then Err(NotFound(SaleRecord))
      else if sales[saleId].customerId != userId then Err(BadRequest(AccessDenied))
      else Ok(sales[saleId])
    }

    /** syncOfflineSale: the answer and the new table are OfflineOutcome's. */
    method SyncOfflineSale(dto: OfflineSaleDto) returns (r: Result<Sale>)
      requires Valid()
      modifies this
      ensures Valid()
      ensures (r, sales) == OfflineOutcome(old(sales), dto)
    {
      OfflinePreserves(sales, dto);
      var calculatedTotal := ItemsSum(dto.items);
      if Abs(calculatedTotal - dto.total) > Tolerance {
        return Err(BadRequest(TotalMismatch));
      }
      var existing := FindSale(sales, OfflineKey(dto.offlineId));
      if existing.Some? {
        return Ok(sales[existing.value]);
      }
      var sale := Sale(|sales|, None, Some(dto.offlineId), dto.storeId, dto.customerId, dto.total, Created,
                       OfflineSnapshot(dto.items), dto.occurredAt, None, PendingSync);
      sales := sales + [sale];
      r := Ok(sale);
    }

    /** confirmPayment: the sale is saved before its export job is added, so
        a rejected add leaves it PAID and answers with the queue's error; the
        answer, the new table and the added jobs are ConfirmOutcome's, with
        the queue up exactly when it still accepts writes. */
    method ConfirmPayment(dto: PaymentWebhookDto) returns (r: Result<Sale>)
      requires Valid()
      modifies this, exportQueue
      ensures Valid() && exportQueue.jobs == old(exportQueue.jobs)
      ensures var out := ConfirmOutcome(old(sales), dto, Open(old(exportQueue.budget)));
              r == out.0 && sales == out.1 && exportQueue.added == old(exportQueue.added) + out.2 &&
              exportQueue.budget == Spend(old(exportQueue.budget), |out.2|)
    {
      ConfirmPreserves(sales, dto, Open(exportQueue.budget));
      if dto.saleId >= |sales| {
        return Err(NotFound(SaleRecord));
      }
      var sale := sales[dto.saleId];
      if sale.status == Paid {
        return Ok(sale);
      }
      if sale.status == Cancelled {
        return Err(BadRequest(CancelledSale));
      }
      sale := sale.(status := Paid);
      sale := sale.(paymentMeta := Some(if dto.payload.Some? then WebhookPayload(dto.payload.value)
                                        else WebhookStatus(dto.transactionId, dto.status)));
      sales := sales[dto.saleId := sale];
      var queued := exportQueue.Add(ExportJobName, SaleRef(sale.id), JobOptions(None, false));
      if queued.Err? {
        return Err(queued.error);
      }
      r := Ok(sale);
    }

    /** processDirectCheckout: prices the items, saves the sale, asks the
        gateway for a PIX charge (`pix` is the charge, `None` when the
        gateway failed) and saves the charge on the sale; the answer and the
        new table are CheckoutOutcome's. */
    method ProcessDirectCheckout(userId: string, items: seq<DirectItem>, pix: Option<PixCharge>, now: int)
      returns (r: Result<CheckoutReceipt>)
      requires Valid()
      modifies this
      ensures Valid()
      ensures (r, sales) == CheckoutOutcome(old(sales), userId, Priced(items), pix, now)
    {
      var priced := PriceCheckout(items);
      CheckoutPreserves(sales, userId, priced, pix, now);
      if priced.Err? {
        return Err(priced.error);
      }
      var (saleItems, total) := priced.value;
      var sale := Sale(|sales|, None, None, DirectStoreId, DirectCustomer(userId), total, PendingPayment,
                       CheckoutSnapshot(saleItems), now, None, PendingSync);
      ghost var before := sales;
      sales := sales + [sale];
      if pix.None? {
        return Err(BadRequest(PaymentGenerationFailed));
      }
      var paymentData := pix.value;
      sale := sale.(paymentMeta := Some(GatewayCharge(paymentData.transactionId, Provider, paymentData)));
      sales := sales[sale.id := sale];
      assert sales == before + [sale];
      r := Ok(CheckoutReceipt(sale.id, sale.total, paymentData.copyPaste, paymentData.qrCodeBase64, sale.status));
    }
  }
}
