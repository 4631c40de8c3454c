/** SessionService: a customer's shopping session in a store. A session is
    opened (or resumed), collects cart lines priced from the "Standard" price
    list while ACTIVE, and is closed for payment. */
module Sessions {
  import opened Shared
  import opened Pricing

  datatype SessionStatus = Active | Closed | Abandoned | Completed

  datatype CartItem = CartItem(
    productCode: string,
    productName: string,
    quantity: real,
    unitPrice: real,     // price snapshot
    totalPrice: real,
    addedAt: int)

  /** A row of the session table; its id is its position. */
  datatype Session = Session(
    id: nat,
    customerId: string,
    storeId: string,
    status: SessionStatus,
    cart: seq<CartItem>,
    total: real)

  /** The price list addItem prices from. */
  const StandardList: string := "Standard"

  /** recalculateTotal's sum: the lines' totals added left to right. */
  function CartTotal(cart: seq<CartItem>): (t: real)
    ensures |cart| == 1 ==> t == cart[0].totalPrice
    ensures (forall i :: 0 <= i < |cart| ==> cart[i].totalPrice >= 0.0) ==> t >= 0.0
    decreases |cart|
  {
    if |cart| == 0 then 0.0 else CartTotal(cart[..|cart| - 1]) + cart[|cart| - 1].totalPrice
  }

  /** At most one line per product. */
  predicate DistinctCodes(cart: seq<CartItem>)
  {
    forall i, j :: 0 <= i < j < |cart| ==> cart[i].productCode != cart[j].productCode
  }

  /** `cart.findIndex(...)`: the first line for the product, if any. */
  function FindLine(cart: seq<CartItem>, productCode: string): (r: Option<nat>)
    ensures r.Some? ==> r.value < |cart| && cart[r.value].productCode == productCode &&
                        forall j :: 0 <= j < r.value ==> cart[j].productCode != productCode
    ensures r.None? ==> forall j :: 0 <= j < |cart| ==> cart[j].productCode != productCode
    decreases |cart|
  {
    if |cart| == 0 then None
    else if cart[0].productCode == productCode then Some(0)
    else match FindLine(cart[1..], productCode)
      case Some(i) => Some(i + 1)
      case None => None
  }

  /** Adding one line to a cart adds its total. */
  lemma CartTotalAppend(cart: seq<CartItem>, item: CartItem)
    ensures CartTotal(cart + [item]) == CartTotal(cart) + item.totalPrice
  {
    assert (cart + [item])[..|cart|] == cart;
  }

  /** The reduce is a plain sum: a cart split in two totals the sum of its parts. */
  lemma {:induction false} CartTotalConcat(front: seq<CartItem>, back: seq<CartItem>)
    ensures CartTotal(front + back) == CartTotal(front) + CartTotal(back)
    decreases |back|
  {
    if |back| > 0 {
      var init := back[..|back| - 1];
      assert (front + back)[..|front + back| - 1] == front + init;
      CartTotalConcat(front, init);
    } else {
      assert front + back == front;
    }
  }

  /** Replacing one line changes the sum by the difference of the two totals. */
  lemma {:induction false} CartTotalUpdate(cart: seq<CartItem>, i: nat, item: CartItem)
    requires i < |cart|
    ensures CartTotal(cart[i := item]) == CartTotal(cart) - cart[i].totalPrice + item.totalPrice
    decreases |cart|
  {
    var n := |cart| - 1;
    if i < n {
      assert cart[i := item][..n] == cart[..n][i := item];
      CartTotalUpdate(cart[..n], i, item);
    } else {
      assert cart[i := item][..n] == cart[..n];
    }
  }

  /** A cart line after more of its product is added at a new unit price. */
  function MergedLine(line: CartItem, unitPrice: real, quantity: real, now: int): CartItem
  {
    var merged := line.quantity + quantity;
    line.(quantity := merged, unitPrice := unitPrice, totalPrice := merged * unitPrice, addedAt := now)
  }

  /** The cart addItem leaves: a product already in the cart keeps its one
      line, whose quantity grows by the added amount and whose unit price is
      refreshed to the current one (the name stays); a product new to the
      cart gets one line at the end. */
  function AddToCart(cart: seq<CartItem>, productCode: string, productName: string,
                     unitPrice: real, quantity: real, now: int): (r: seq<CartItem>)
    ensures FindLine(cart, productCode).Some? ==>
              var i := FindLine(cart, productCode).value;
              |r| == |cart| &&
              (forall j :: 0 <= j < |cart| && j != i ==> r[j] == cart[j]) &&
              r[i].productCode == productCode && r[i].productName == cart[i].productName &&
              r[i].quantity == cart[i].quantity + quantity && r[i].unitPrice == unitPrice &&
              r[i].totalPrice == r[i].quantity * unitPrice && r[i].addedAt == now
    ensures FindLine(cart, productCode).None? ==>
              |r| == |cart| + 1 && r[..|cart|] == cart &&
              r[|cart|] == CartItem(productCode, productName, quantity, unitPrice, unitPrice * quantity, now)
    ensures DistinctCodes(cart) ==> DistinctCodes(r)
  {
    match FindLine(cart, productCode)
    case Some(i) => cart[i := MergedLine(cart[i], unitPrice, quantity, now)]
    case None =>
      cart + [CartItem(productCode, productName, quantity, unitPrice, unitPrice * quantity, now)]
  }

  /** The cart's sum after addItem: the old sum with the product's line
      total replaced by its new one (a new line adding price times quantity). */
  lemma AddToCartTotal(cart: seq<CartItem>, productCode: string, productName: string,
                       unitPrice: real, quantity: real, now: int)
    ensures var r := AddToCart(cart, productCode, productName, unitPrice, quantity, now);
            match FindLine(cart, productCode)
            case Some(i) => CartTotal(r) == CartTotal(cart) - cart[i].totalPrice + r[i].totalPrice
            case None => CartTotal(r) == CartTotal(cart) + unitPrice * quantity
  {
    var r := AddToCart(cart, productCode, productName, unitPrice, quantity, now);
    match FindLine(cart, productCode)
    case Some(i) =>
      CartTotalUpdate(cart, i, r[i]);
      assert r == cart[i := r[i]];
    case None =>
      CartTotalAppend(cart, r[|cart|]);
      assert r == cart + [r[|cart|]];
  }

  /** addItem's in-place cart update: the product's line is found and its
      quantity, unit price, total and time are assigned, or a new line is
      pushed; the cart it leaves is AddToCart's. */
  method MergeLine(cart: seq<CartItem>, productCode: string, productName: string,
                   unitPrice: real, quantity: real, now: int) returns (updated: seq<CartItem>)
    ensures updated == AddToCart(cart, productCode, productName, unitPrice, quantity, now)
  {
    var totalPrice := unitPrice * quantity;
    updated := cart;
    var existingItemIndex := FindLine(updated, productCode);
    if existingItemIndex.Some? {
      var item := updated[existingItemIndex.value];
      item := item.(quantity := item.quantity + quantity);
      item := item.(totalPrice := item.quantity * item.unitPrice);
      item := item.(unitPrice := unitPrice);
      item := item.(totalPrice := item.quantity * unitPrice);
      item := item.(addedAt := now);
      assert item == MergedLine(cart[existingItemIndex.value], unitPrice, quantity, now);
      updated := updated[existingItemIndex.value := item];
    } else {
      updated := updated + [CartItem(productCode, productName, quantity, unitPrice, totalPrice, now)];
    }
  }

  /** The session table's invariants: ids are positions, every total is the
      sum of its cart, carts hold one line per product, and a customer has at
      most one ACTIVE session per store. The last clause is kept only while
      startSession calls run one after another: the table has no unique index
      on (customer, store, ACTIVE), so two overlapping calls can each find no
      session and each insert one. */
  predicate WellFormed(sessions: seq<Session>)
  {
    && (forall i :: 0 <= i < |sessions| ==> sessions[i].id == i)
    && (forall i :: 0 <= i < |sessions| ==> sessions[i].total == CartTotal(sessions[i].cart))
    && (forall i :: 0 <= i < |sessions| ==> DistinctCodes(sessions[i].cart))
    && (forall i, j :: 0 <= i < j < |sessions| && sessions[i].status == Active && sessions[j].status == Active ==>
          sessions[i].customerId != sessions[j].customerId || sessions[i].storeId != sessions[j].storeId)
  }

  /** The ACTIVE session of (customer, store), if there is one. */
  function ActiveSessionOf(sessions: seq<Session>, customerId: string, storeId: string): (r: Option<nat>)
    ensures r.Some? ==> r.value < |sessions| && sessions[r.value].status == Active &&
                        sessions[r.value].customerId == customerId && sessions[r.value].storeId == storeId
    ensures r.None? ==> forall i :: 0 <= i < |sessions| ==>
                          !(sessions[i].status == Active && sessions[i].customerId == customerId &&
                            sessions[i].storeId == storeId)
    decreases |sessions|
  {
    if |sessions| == 0 then None
    else
      var last := sessions[|sessions| - 1];
      if last.status == Active && last.customerId == customerId && last.storeId == storeId then Some(|sessions| - 1)
      else ActiveSessionOf(sessions[..|sessions| - 1], customerId, storeId)
  }

  /** startSession over the table: the active session of (customer, store)
      is resumed; otherwise a new ACTIVE session with an empty cart and a
      zero total is appended. */
  function StartOutcome(sessions: seq<Session>, customerId: string, storeId: string): (out: (Session, seq<Session>))
    ensures out.0.status == Active && out.0.customerId == customerId && out.0.storeId == storeId
    ensures ActiveSessionOf(sessions, customerId, storeId).Some? ==>
              out.1 == sessions && out.0 == sessions[ActiveSessionOf(sessions, customerId, storeId).value]
    ensures ActiveSessionOf(sessions, customerId, storeId).None? ==>
              out.1 == sessions + [out.0] && out.0.id == |sessions| && out.0.cart == [] && out.0.total == 0.0
  {
    match ActiveSessionOf(sessions, customerId, storeId)
    case Some(i) => (sessions[i], sessions)
    case None =>
      var session := Session(|sessions|, customerId, storeId, Active, [], 0.0);
      (session, sessions + [session])
  }

  /** Starting twice, one call after the other, opens one session: the
      second call resumes the first call's session and leaves the table as
      the first left it. */
  lemma StartSessionResumes(sessions: seq<Session>, customerId: string, storeId: string)
    requires WellFormed(sessions)
    ensures var (first, after) := StartOutcome(sessions, customerId, storeId);
            StartOutcome(after, customerId, storeId) == (first, after)
  {
    var (first, after) := StartOutcome(sessions, customerId, storeId);
    StartPreserves(sessions, customerId, storeId);
    var i := ActiveSessionOf(after, customerId, storeId);
    assert i.Some?;
    var k := if ActiveSessionOf(sessions, customerId, storeId).Some?
             then ActiveSessionOf(sessions, customerId, storeId).value else |sessions|;
    ActiveUnique(after, i.value, k);
  }

  /** Under the table's invariants, which sequential calls keep,
      (customer, store) has one ACTIVE row. */
  lemma ActiveUnique(sessions: seq<Session>, i: nat, k: nat)
    requires WellFormed(sessions) && i < |sessions| && k < |sessions|
    requires sessions[i].status == Active && sessions[k].status == Active
    requires sessions[i].customerId == sessions[k].customerId && sessions[i].storeId == sessions[k].storeId
    ensures i == k
  {
  }

  lemma StartPreserves(sessions: seq<Session>, customerId: string, storeId: string)
    requires WellFormed(sessions)
    ensures WellFormed(StartOutcome(sessions, customerId, storeId).1)
  {
  }

  /** The lookup addItem and closeSession make: by id and customer together. */
  predicate Owned(sessions: seq<Session>, sessionId: nat, customerId: string)
  {
    sessionId < |sessions| && sessions[sessionId].customerId == customerId
  }

  /** addItem over the table, given what the price lookup answered: a session
      not found for this customer is NotFound, one not ACTIVE is refused, a
      missing price is NotFound; otherwise only that session changes, its
      cart becoming AddToCart and its total the new cart's sum. */
  function AddItemOutcome(sessions: seq<Session>, sessionId: nat, customerId: string, productCode: string,
                          quantity: real, price: Option<PriceView>, now: int): (out: (Result<Session>, seq<Session>))
    ensures !Owned(sessions, sessionId, customerId) ==> out == (Err(NotFound(SessionRecord)), sessions)
    ensures Owned(sessions, sessionId, customerId) && sessions[sessionId].status != Active ==>
              out == (Err(BadRequest(SessionNotActive)), sessions)
    ensures Owned(sessions, sessionId, customerId) && sessions[sessionId].status == Active && price.None? ==>
              out == (Err(NotFound(PriceRecord)), sessions)
    ensures out.0.Ok? <==>
              Owned(sessions, sessionId, customerId) && sessions[sessionId].status == Active && price.Some?
    ensures out.0.Ok? ==>
              Owned(sessions, sessionId, customerId) && sessions[sessionId].status == Active && price.Some? &&
              var cart := AddToCart(sessions[sessionId].cart, productCode, price.value.productName,
                                    price.value.price, quantity, now);
              out.0.value == sessions[sessionId].(cart := cart, total := CartTotal(cart)) &&
              out.1 == sessions[sessionId := out.0.value]
  {
    if !Owned(sessions, sessionId, customerId) then (Err(NotFound(SessionRecord)), sessions)
    else if sessions[sessionId].status != Active then (Err(BadRequest(SessionNotActive)), sessions)
    else if price.None? then (Err(NotFound(PriceRecord)), sessions)
    else
      var cart := AddToCart(sessions[sessionId].cart, productCode, price.value.productName,
                            price.value.price, quantity, now);
      var session := sessions[sessionId].(cart := cart, total := CartTotal(cart));
      (Ok(session), sessions[sessionId := session])
  }

  /** addItem keeps every invariant of the table; in particular the total is
      again the sum of the cart's lines. */
  lemma AddItemPreserves(sessions: seq<Session>, sessionId: nat, customerId: string, productCode: string,
                         quantity: real, price: Option<PriceView>, now: int)
    requires WellFormed(sessions)
    ensures WellFormed(AddItemOutcome(sessions, sessionId, customerId, productCode, quantity, price, now).1)
  {
    var after := AddItemOutcome(sessions, sessionId, customerId, productCode, quantity, price, now).1;
    assert forall i :: 0 <= i < |sessions| ==>
             (after[i].status == sessions[i].status && after[i].customerId == sessions[i].customerId &&
              after[i].storeId == sessions[i].storeId);
  }

  /** closeSession over the table: the same lookup and ACTIVE check as
      addItem, an empty cart refused, otherwise the session becomes CLOSED
      with its cart and total as they were. */
  function CloseOutcome(sessions: seq<Session>, sessionId: nat, customerId: string): (out: (Result<Session>, seq<Session>))
    ensures !Owned(sessions, sessionId, customerId) ==> out == (Err(NotFound(SessionRecord)), sessions)
    ensures Owned(sessions, sessionId, customerId) && sessions[sessionId].status != Active ==>
              out == (Err(BadRequest(SessionNotActive)), sessions)
    ensures (Owned(sessions, sessionId, customerId) && sessions[sessionId].status == Active &&
             |sessions[sessionId].cart| == 0) ==> out == (Err(BadRequest(EmptyCart)), sessions)
    ensures out.0.Ok? <==>
              Owned(sessions, sessionId, customerId) && sessions[sessionId].status == Active &&
              |sessions[sessionId].cart| > 0
    ensures out.0.Ok? ==>
              Owned(sessions, sessionId, customerId) && |sessions[sessionId].cart| > 0 &&
              sessions[sessionId].status == Active && out.0.value.status == Closed &&
              out.0.value == sessions[sessionId].(status := Closed) && out.1 == sessions[sessionId := out.0.value]
  {
    if !Owned(sessions, sessionId, customerId) then (Err(NotFound(SessionRecord)), sessions)
    else if sessions[sessionId].status != Active then (Err(BadRequest(SessionNotActive)), sessions)
    else if |sessions[sessionId].cart| == 0 then (Err(BadRequest(EmptyCart)), sessions)
    else
      var session := sessions[sessionId].(status := Closed);
      (Ok(session), sessions[sessionId := session])
  }

  /** Closing keeps the invariants, and a closed session takes no more items. */
  lemma ClosePreserves(sessions: seq<Session>, sessionId: nat, customerId: string, productCode: string,
                       quantity: real, price: Option<PriceView>, now: int)
    requires WellFormed(sessions)
    ensures var (r, after) := CloseOutcome(sessions, sessionId, customerId);
            WellFormed(after) &&
            (r.Ok? ==> AddItemOutcome(after, sessionId, customerId, productCode, quantity, price, now).0 ==
                         Err(BadRequest(SessionNotActive)))
  {
    var after := CloseOutcome(sessions, sessionId, customerId).1;
    assert forall i :: 0 <= i < |sessions| && i != sessionId ==> after[i] == sessions[i];
  }

  class SessionService {
    /** The price lookup addItem uses. */
    const pricing: PriceService
    var sessions: seq<Session>

    ghost predicate Valid()
      reads this, pricing, pricing.catalog
    {
      pricing.Valid() && WellFormed(sessions)
    }

    constructor (pricing: PriceService)
      requires pricing.Valid()
      ensures Valid() && this.pricing == pricing && sessions == []
    {
      this.pricing := pricing;
      sessions := [];
    }

    /** startSession: the answer and the new table are StartOutcome's. */
    method StartSession(customerId: string, storeId: string) returns (s: Session)
      requires Valid()
      modifies this
      ensures Valid()
      ensures (s, sessions) == StartOutcome(old(sessions), customerId, storeId)
    {
      StartPreserves(sessions, customerId, storeId);
      var activeSession := ActiveSessionOf(sessions, customerId, storeId);
      if activeSession.Some? {
        return sessions[activeSession.value];
      }
      s := Session(|sessions|, customerId, storeId, Active, [], 0.0);
      sessions := sessions + [s];
    }

    /** addItem: prices the product from the Standard list, merges it into
        the cart and recomputes the total; the answer and the new table are
        AddItemOutcome's for the price the lookup gave. */
    method AddItem(sessionId: nat, customerId: string, productCode: string, quantity: real, now: int)
      returns (r: Result<Session>)
      requires Valid()
      modifies this
      ensures Valid()
      ensures (r, sessions) ==
                AddItemOutcome(old(sessions), sessionId, customerId, productCode, quantity,
                               pricing.GetPrice(productCode, StandardList), now)
    {
      AddItemPreserves(sessions, sessionId, customerId, productCode, quantity,
                       pricing.GetPrice(productCode, StandardList), now);
      if !(sessionId < |sessions| && sessions[sessionId].customerId == customerId) {
        return Err(NotFound(SessionRecord));
      }
      var session := sessions[sessionId];
      if session.status != Active {
        return Err(BadRequest(SessionNotActive));
      }
      var priceSnap := pricing.GetPrice(productCode, StandardList);
      if priceSnap.None? {
        return Err(NotFound(PriceRecord));
      }
      var unitPrice := priceSnap.value.price;
      var cart := MergeLine(session.cart, productCode, priceSnap.value.productName, unitPrice, quantity, now);
      session := session.(cart := cart);
      session := session.(total := CartTotal(session.cart));
      sessions := sessions[sessionId := session];
      r := Ok(session);
    }

    /** closeSession: the answer and the new table are CloseOutcome's. */
    method CloseSession(sessionId: nat, customerId: string) returns (r: Result<Session>)
      requires Valid()
      modifies this
      ensures Valid()
      ensures (r, sessions) == CloseOutcome(old(sessions), sessionId, customerId)
    {
      ClosePreserves(sessions, sessionId, customerId, "", 0.0, None, 0);
      if !(sessionId < |sessions| && sessions[sessionId].customerId == customerId) {
        return Err(NotFound(SessionRecord));
      }
      var session := sessions[sessionId];
      if session.status != Active {
        return Err(BadRequest(SessionNotActive));
      }
      if |session.cart| == 0 {
        return Err(BadRequest(EmptyCart));
      }
      session := session.(status := Closed);
      sessions := sessions[sessionId := session];
      r := Ok(session);
    }

    /** getSession: the row with this id, whoever owns it. */
    function GetSession(sessionId: nat): (r: Option<Session>)
      reads this
      ensures r.Some? <==> sessionId < |sessions|
      ensures sessionId < |sessions| ==> r == Some(sessions[sessionId])
    {
      if sessionId < |sessions| then Some(sessions[sessionId]) else None
    }
  }
}
