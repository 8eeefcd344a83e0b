/**
 * Checkout: the shipping and payment form rules, the records the payment
 * handler writes (the order row, one row per orderable cart line, the
 * service order with its technical specification, the notification), in the
 * order they are written, and when the cart is cleared.
 *
 * The database is not modelled: the handler returns the sequence of records
 * it writes, and the one insert whose result it inspects (the order row) is a
 * parameter. The current time is a parameter in milliseconds since the epoch;
 * the order and service-order numbers are caller-supplied strings.
 */
module Checkout {
  import opened Optional
  import opened Types
  import Cart

  // ---------------------------------------------------------------------------
  // Form rules
  // ---------------------------------------------------------------------------

  datatype ShippingValues = ShippingValues(name: string, phone: string, address: string, city: string, postalCode: string)

  datatype PaymentValues = PaymentValues(cardNumber: string, expiryMonth: string, expiryYear: string, cvv: string, cardName: string)

  datatype ShippingField = ShippingName | Phone | Address | City | PostalCode

  datatype PaymentField = CardNumber | ExpiryMonth | ExpiryYear | Cvv | CardName

  /**
   * The length a JavaScript string reports: it counts UTF-16 code units, so a
   * character outside the Basic Multilingual Plane (a surrogate pair) counts
   * twice.
   */
  function Utf16Length(s: string): (n: nat)
    ensures |s| <= n <= 2 * |s|
    ensures s != [] ==> n > 0
  {
    if s == [] then 0
    else (if s[0] as int > 0xFFFF then 2 else 1) + Utf16Length(s[1..])
  }

  /** Text made only of Basic Multilingual Plane characters has one code unit per character. */
  lemma {:induction false} Utf16LengthOfPlainText(s: string)
    requires forall i :: 0 <= i < |s| ==> s[i] as int <= 0xFFFF
    ensures Utf16Length(s) == |s|
  {
    if s != [] {
      Utf16LengthOfPlainText(s[1..]);
    }
  }

  /** The shipping fields whose minimum length is not met, in form order. */
  function ShippingErrors(v: ShippingValues): (errors: seq<ShippingField>)
    ensures |errors| <= 5
  {
    (if Utf16Length(v.name) < 2 then [ShippingName] else [])
    + (if Utf16Length(v.phone) < 9 then [Phone] else [])
    + (if Utf16Length(v.address) < 5 then [Address] else [])
    + (if Utf16Length(v.city) < 2 then [City] else [])
    + (if Utf16Length(v.postalCode) < 4 then [PostalCode] else [])
  }

  /** The payment fields whose length rule is not met, in form order. */
  function PaymentErrors(v: PaymentValues): (errors: seq<PaymentField>)
    ensures |errors| <= 5
  {
    (if Utf16Length(v.cardNumber) != 16 then [CardNumber] else [])
    + (if Utf16Length(v.expiryMonth) != 2 then [ExpiryMonth] else [])
    + (if Utf16Length(v.expiryYear) != 2 then [ExpiryYear] else [])
    + (if Utf16Length(v.cvv) < 3 || Utf16Length(v.cvv) > 4 then [Cvv] else [])
    + (if Utf16Length(v.cardName) < 2 then [CardName] else [])
  }

  /**
   * Shipping is accepted exactly when the name has at least 2 code units, the
   * phone 9, the address 5, the city 2 and the postal code 4; each field is
   * reported exactly when its own rule fails.
   */
  lemma ShippingAccepted(v: ShippingValues)
    ensures ShippingErrors(v) == [] <==>
      && Utf16Length(v.name) >= 2 && Utf16Length(v.phone) >= 9 && Utf16Length(v.address) >= 5
      && Utf16Length(v.city) >= 2 && Utf16Length(v.postalCode) >= 4
    ensures ShippingName in ShippingErrors(v) <==> Utf16Length(v.name) < 2
    ensures Phone in ShippingErrors(v) <==> Utf16Length(v.phone) < 9
    ensures Address in ShippingErrors(v) <==> Utf16Length(v.address) < 5
    ensures City in ShippingErrors(v) <==> Utf16Length(v.city) < 2
    ensures PostalCode in ShippingErrors(v) <==> Utf16Length(v.postalCode) < 4
  {
  }

  /** A name made of one emoji is two code units long, so it passes the two-character minimum. */
  lemma AstralNameAccepted(v: ShippingValues)
    requires v.name == "\U{1F600}"
    ensures |v.name| == 1
    ensures ShippingName !in ShippingErrors(v)
  {
    assert v.name[1..] == [];
  }

  /**
   * Payment is accepted exactly when the card number has 16 code units, month
   * and year 2 each, the CVV 3 or 4 and the card holder's name at least 2;
   * each field is reported exactly when its own rule fails.
   */
  lemma PaymentAccepted(v: PaymentValues)
    ensures PaymentErrors(v) == [] <==>
      && Utf16Length(v.cardNumber) == 16 && Utf16Length(v.expiryMonth) == 2 && Utf16Length(v.expiryYear) == 2
      && 3 <= Utf16Length(v.cvv) <= 4 && Utf16Length(v.cardName) >= 2
    ensures CardNumber in PaymentErrors(v) <==> Utf16Length(v.cardNumber) != 16
    ensures ExpiryMonth in PaymentErrors(v) <==> Utf16Length(v.expiryMonth) != 2
    ensures ExpiryYear in PaymentErrors(v) <==> Utf16Length(v.expiryYear) != 2
    ensures Cvv in PaymentErrors(v) <==> Utf16Length(v.cvv) < 3 || Utf16Length(v.cvv) > 4
    ensures CardName in PaymentErrors(v) <==> Utf16Length(v.cardName) < 2
  {
  }

  // ---------------------------------------------------------------------------
  // The records written
  // ---------------------------------------------------------------------------

  const DayMillis: int := 24 * 60 * 60 * 1000
  const DeliveryLeadDays: int := 28
  const ProductionDays: int := 21
  const ShippingCountry: string := "Portugal"

  datatype OrderRow = OrderRow(
    orderNumber: string, userId: Id,
    subtotal: real, depositAmount: real, remainingBalance: real,
    depositPaid: bool, depositPaidAt: int, status: OrderStatus,
    shipping: ShippingValues, shippingCountry: string,
    estimatedDeliveryDay: int)

  datatype OrderItemRow =
    | StandardRow(orderId: Id, productId: Id, quantity: int, unitPrice: real, totalPrice: real)
    | CustomRow(
        orderId: Id, furnitureType: FurnitureType, woodTypeId: Id, finishId: Id,
        length: real, width: real, height: real, extraIds: seq<Id>, notes: Option<string>,
        quantity: int, unitPrice: real, totalPrice: real)

  datatype ItemKind = StandardKind | CustomKind

  /** One line of the service order's technical specification. */
  datatype SpecEntry = SpecEntry(kind: ItemKind, name: Option<string>, quantity: int, unitPrice: real)

  datatype ServiceOrderRow = ServiceOrderRow(
    serviceOrderNumber: string, orderId: Id, customerName: string, customerPhone: string,
    customerEmail: Option<string>, specs: seq<SpecEntry>,
    totalPrice: real, depositPaid: real, remainingBalance: real,
    estimatedProductionDays: int, qrCodeData: string)

  datatype NotificationRow = NotificationRow(userId: Id, orderId: Id, kind: string, title: string)

  datatype Record =
    | OrderRecord(order: OrderRow)
    | ItemRecord(item: OrderItemRow)
    | ServiceOrderRecord(serviceOrder: ServiceOrderRow)
    | NotificationRecord(notification: NotificationRow)

  /** What the order insert returns: the stored row's id and number, or an error. */
  datatype OrderInsertResult = Inserted(id: Id, orderNumber: string) | InsertFailed

  /**
   * The order row: the cart's three aggregates, the deposit marked as paid
   * now, and delivery expected on the UTC day 28 days after today.
   */
  function NewOrderRow(items: seq<CartItem>, userId: Id, shipping: ShippingValues, now: int, orderNumber: string): (row: OrderRow)
    ensures row.subtotal == Cart.Subtotal(items)
    ensures row.subtotal == row.depositAmount + row.remainingBalance
    ensures row.depositAmount == row.remainingBalance
    ensures row.status == DepositPaid && row.depositPaid && row.depositPaidAt == now
    ensures row.estimatedDeliveryDay == now / DayMillis + DeliveryLeadDays
  {
    OrderRow(
      orderNumber, userId,
      Cart.Subtotal(items), Cart.DepositAmount(items), Cart.RemainingBalance(items),
      true, now, DepositPaid,
      shipping, ShippingCountry,
      (now + DeliveryLeadDays * DayMillis) / DayMillis)
  }

  /** Empty or missing notes are stored as null. */
  function StoredNotes(notes: Option<string>): (stored: Option<string>)
    ensures stored.None? <==> notes.None? || notes.value == ""
    ensures stored.Some? ==> stored == notes
  {
    if notes.None? || notes.value == "" then None else notes
  }

  function ExtraIdList(extras: seq<Extra>): (ids: seq<Id>)
    ensures |ids| == |extras|
    ensures forall i :: 0 <= i < |extras| ==> ids[i] == extras[i].id
  {
    seq(|extras|, i requires 0 <= i < |extras| => extras[i].id)
  }

  /** A line carries what its row needs: a product for a standard line, a configuration for a custom one. */
  predicate HasPayload(item: CartItem)
  {
    match item
    case Standard(_, product, _, _, _) => product.Some?
    case Custom(_, config, _, _, _) => config.Some?
  }

  /**
   * The row written for a cart line, if any: a line without its payload is
   * skipped; a custom row always has quantity 1 and stores the extras by id.
   */
  function ItemRow(orderId: Id, item: CartItem): (row: Option<OrderItemRow>)
    ensures row.Some? <==> HasPayload(item)
    ensures row.Some? ==> row.value.orderId == orderId && row.value.unitPrice == item.unitPrice
                          && row.value.totalPrice == item.totalPrice
    ensures row.Some? && item.Standard? ==>
      row.value.StandardRow? && row.value.productId == item.product.value.id && row.value.quantity == item.quantity
    ensures row.Some? && item.Custom? ==>
      && row.value.CustomRow? && row.value.quantity == 1
      && row.value.furnitureType == item.customConfig.value.furnitureType
      && row.value.woodTypeId == item.customConfig.value.woodType.id
      && row.value.finishId == item.customConfig.value.finish.id
      && row.value.length == item.customConfig.value.length
      && row.value.width == item.customConfig.value.width
      && row.value.height == item.customConfig.value.height
      && row.value.extraIds == ExtraIdList(item.customConfig.value.extras)
      && row.value.notes == StoredNotes(item.customConfig.value.notes)
  {
    match item
    case Standard(_, product, quantity, unitPrice, totalPrice) =>
      if product.None? then None
      else Some(StandardRow(orderId, product.value.id, quantity, unitPrice, totalPrice))
    case Custom(_, config, _, unitPrice, totalPrice) =>
      if config.None? then None
      else
        var c := config.value;
        Some(CustomRow(
          orderId, c.furnitureType, c.woodType.id, c.finish.id,
          c.length, c.width, c.height, ExtraIdList(c.extras), StoredNotes(c.notes),
          1, unitPrice, totalPrice))
  }

  /** The rows written for the cart, in cart order. */
  function ItemRows(orderId: Id, items: seq<CartItem>): seq<OrderItemRow>
  {
    if items == [] then []
    else
      var last := ItemRow(orderId, items[|items| - 1]);
      ItemRows(orderId, items[..|items| - 1]) + (if last.Some? then [last.value] else [])
  }

  lemma {:induction false} ItemRowsAppend(orderId: Id, a: seq<CartItem>, b: seq<CartItem>)
    ensures ItemRows(orderId, a + b) == ItemRows(orderId, a) + ItemRows(orderId, b)
    decreases |b|
  {
    if b == [] {
      assert a + b == a;
    } else {
      var b' := b[..|b| - 1];
      assert (a + b)[..|a + b| - 1] == a + b';
      assert (a + b)[|a + b| - 1] == b[|b| - 1];
      ItemRowsAppend(orderId, a, b');
    }
  }

  /** At most one row per cart line; a line without its payload writes nothing. */
  lemma {:induction false} ItemRowsAtMostOnePerLine(orderId: Id, items: seq<CartItem>)
    ensures |ItemRows(orderId, items)| <= |items|
    ensures (forall i :: 0 <= i < |items| ==> !HasPayload(items[i])) ==> ItemRows(orderId, items) == []
  {
    if items != [] {
      var init := items[..|items| - 1];
      assert forall i :: 0 <= i < |init| ==> init[i] == items[i];
      ItemRowsAtMostOnePerLine(orderId, init);
    }
  }

  /** When every line has its payload, row i is exactly the row of line i. */
  lemma {:induction false} ItemRowsOnePerLine(orderId: Id, items: seq<CartItem>)
    requires forall i :: 0 <= i < |items| ==> HasPayload(items[i])
    ensures |ItemRows(orderId, items)| == |items|
    ensures forall i :: 0 <= i < |items| ==> Some(ItemRows(orderId, items)[i]) == ItemRow(orderId, items[i])
  {
    if items != [] {
      var init := items[..|items| - 1];
      assert forall i :: 0 <= i < |init| ==> init[i] == items[i];
      ItemRowsOnePerLine(orderId, init);
    }
  }

  function SpecFor(item: CartItem): SpecEntry
    requires item.Custom? ==> item.customConfig.Some?
  {
    match item
    case Standard(_, product, quantity, unitPrice, _) =>
      SpecEntry(StandardKind, if product.Some? then Some(product.value.name) else None, quantity, unitPrice)
    case Custom(_, config, quantity, unitPrice, _) =>
      SpecEntry(CustomKind, Some(FurnitureTypeLabel(config.value.furnitureType)), quantity, unitPrice)
  }

  predicate CustomLinesConfigured(items: seq<CartItem>)
  {
    forall i :: 0 <= i < |items| ==> items[i].Custom? ==> items[i].customConfig.Some?
  }

  /**
   * The technical specification: one entry per cart line, in order. A custom
   * line without a configuration makes building it fail (`None`).
   */
  function Specs(items: seq<CartItem>): (specs: Option<seq<SpecEntry>>)
    ensures specs.Some? <==> CustomLinesConfigured(items)
    ensures specs.Some? ==> |specs.value| == |items|
    ensures specs.Some? ==> forall i :: 0 <= i < |items| ==>
      && specs.value[i].kind == (if items[i].Standard? then StandardKind else CustomKind)
      && specs.value[i].quantity == items[i].quantity
      && specs.value[i].unitPrice == items[i].unitPrice
      && specs.value[i].name == (if items[i].Standard? then
                                   (if items[i].product.Some? then Some(items[i].product.value.name) else None)
                                 else Some(FurnitureTypeLabel(items[i].customConfig.value.furnitureType)))
  {
    if CustomLinesConfigured(items) then Some(seq(|items|, i requires 0 <= i < |items| && CustomLinesConfigured(items) => SpecFor(items[i])))
    else None
  }

  function AsRecords(rows: seq<OrderItemRow>): (records: seq<Record>)
    ensures |records| == |rows|
    ensures forall i :: 0 <= i < |rows| ==> records[i] == ItemRecord(rows[i])
  {
    seq(|rows|, i requires 0 <= i < |rows| => ItemRecord(rows[i]))
  }

  /** What a payment submission writes, and whether it clears the cart. */
  datatype Submission = Submission(written: seq<Record>, clearsCart: bool)

  /**
   * A submission writes the order row; if that insert fails nothing else
   * happens. Otherwise it writes the item rows, then builds the specification
   * (which fails on a custom line without a configuration), then writes the
   * service order and the notification and clears the cart.
   */
  function Submit(
    items: seq<CartItem>, userId: Id, email: Option<string>, shipping: ShippingValues, now: int,
    orderNumber: string, serviceOrderNumber: string, response: OrderInsertResult): Submission
  {
    var order := OrderRecord(NewOrderRow(items, userId, shipping, now, orderNumber));
    match response
    case InsertFailed => Submission([order], false)
    case Inserted(orderId, storedNumber) =>
      var rows := AsRecords(ItemRows(orderId, items));
      match Specs(items)
      case None => Submission([order] + rows, false)
      case Some(specs) =>
        var service := ServiceOrderRow(
          serviceOrderNumber, orderId, shipping.name, shipping.phone, email, specs,
          Cart.Subtotal(items), Cart.DepositAmount(items), Cart.RemainingBalance(items),
          ProductionDays, storedNumber);
        var notification := NotificationRow(userId, orderId, "order_confirmed", "Pedido Confirmado");
        Submission([order] + rows + [ServiceOrderRecord(service), NotificationRecord(notification)], true)
  }

  /**
   * The cart is cleared exactly when the order insert succeeded and every
   * custom line has its configuration; the order row is always written first,
   * and the item rows, when written, follow it in cart order.
   */
  lemma ClearsCartOnlyOnSuccess(
    items: seq<CartItem>, userId: Id, email: Option<string>, shipping: ShippingValues, now: int,
    orderNumber: string, serviceOrderNumber: string, response: OrderInsertResult)
    ensures var s := Submit(items, userId, email, shipping, now, orderNumber, serviceOrderNumber, response);
      && (s.clearsCart <==> response.Inserted? && CustomLinesConfigured(items))
      && |s.written| >= 1 && s.written[0] == OrderRecord(NewOrderRow(items, userId, shipping, now, orderNumber))
      && (response.InsertFailed? ==> |s.written| == 1)
      && (response.Inserted? ==>
            s.written[1..1 + |ItemRows(response.id, items)|] == AsRecords(ItemRows(response.id, items)))
  {
  }

  /**
   * On success the service order carries the same three totals as the order
   * row (so its total is deposit plus balance), 21 production days and the
   * stored order number as its QR data, and exactly four kinds of record are
   * written: order, items, service order, notification.
   */
  lemma ServiceOrderMatchesOrder(
    items: seq<CartItem>, userId: Id, email: Option<string>, shipping: ShippingValues, now: int,
    orderNumber: string, serviceOrderNumber: string, orderId: Id, storedNumber: string)
    requires CustomLinesConfigured(items)
    ensures var s := Submit(items, userId, email, shipping, now, orderNumber, serviceOrderNumber, Inserted(orderId, storedNumber));
      var order := s.written[0].order;
      var n := |s.written|;
      && n == |ItemRows(orderId, items)| + 3
      && s.written[n - 2].ServiceOrderRecord? && s.written[n - 1].NotificationRecord?
      && var service := s.written[n - 2].serviceOrder;
      && service.totalPrice == order.subtotal
      && service.depositPaid == order.depositAmount
      && service.remainingBalance == order.remainingBalance
      && service.totalPrice == service.depositPaid + service.remainingBalance
      && service.estimatedProductionDays == 21
      && service.qrCodeData == storedNumber
      && |service.specs| == |items|
  {
  }

  /** The delivery day is exactly 28 days after the order's UTC day, whatever the time of day. */
  lemma DeliveryFourWeeksLater(now: int)
    ensures (now + DeliveryLeadDays * DayMillis) / DayMillis == now / DayMillis + 28
    ensures DayMillis == 86400000
  {
    assert now + DeliveryLeadDays * DayMillis == now + 28 * DayMillis;
  }

  // ---------------------------------------------------------------------------
  // The checkout page
  // ---------------------------------------------------------------------------

  /** The checkout page's state: review (1), shipping (2), payment (3). */
  class CheckoutSession {
    var currentStep: int
    var isProcessing: bool
    var shippingData: Option<ShippingValues>

    /** The payment step is only reachable with accepted shipping data. */
    predicate Valid()
      reads this
    {
      && 1 <= currentStep <= 3
      && (currentStep == 3 ==> shippingData.Some? && ShippingErrors(shippingData.value) == [])
    }

    constructor ()
      ensures Valid()
      ensures currentStep == 1 && !isProcessing && shippingData == None
    {
      currentStep := 1;
      isProcessing := false;
      shippingData := None;
    }

    /** "Continue" on the review step. */
    method ContinueToShipping()
      requires Valid()
      modifies this`currentStep
      ensures Valid() && currentStep == 2
    {
      currentStep := 2;
    }

    /** "Back" on the shipping step. */
    method BackToReview()
      requires Valid()
      modifies this`currentStep
      ensures Valid() && currentStep == 1
    {
      currentStep := 1;
    }

    /** "Back" on the payment step; the shipping data is kept. */
    method BackToShipping()
      requires Valid()
      modifies this`currentStep
      ensures Valid() && currentStep == 2
    {
      currentStep := 2;
    }

    /** Submitting the shipping form: accepted values are saved and the payment step opens. */
    method SubmitShipping(values: ShippingValues)
      requires Valid()
      modifies this`currentStep, this`shippingData
      ensures Valid()
      ensures ShippingErrors(values) == [] ==> shippingData == Some(values) && currentStep == 3
      ensures ShippingErrors(values) != [] ==> shippingData == old(shippingData) && currentStep == old(currentStep)
    {
      if ShippingErrors(values) == [] {
        shippingData := Some(values);
        currentStep := 3;
      }
    }

    /**
     * Submitting the payment form. Rejected card details or missing shipping
     * data change nothing. Otherwise the records of `Submit` are written, one
     * item row per loop iteration, and the cart is cleared only at the end.
     */
    method SubmitPayment(
      values: PaymentValues, cart: Cart.CartStore, userId: Id, email: Option<string>, now: int,
      orderNumber: string, serviceOrderNumber: string, response: OrderInsertResult)
      returns (written: seq<Record>)
      requires Valid()
      modifies this`isProcessing, cart
      ensures Valid()
      ensures PaymentErrors(values) != [] || old(shippingData).None? ==>
        written == [] && cart.items == old(cart.items) && isProcessing == old(isProcessing)
      ensures PaymentErrors(values) == [] && old(shippingData).Some? ==>
        var s := Submit(old(cart.items), userId, email, old(shippingData).value, now, orderNumber, serviceOrderNumber, response);
        && written == s.written && !isProcessing
        && cart.items == (if s.clearsCart then [] else old(cart.items))
    {
      written := [];
      if PaymentErrors(values) != [] || shippingData.None? {
        return;
      }
      var shipping := shippingData.value;
      isProcessing := true;
      var items := cart.items;
      written := [OrderRecord(NewOrderRow(items, userId, shipping, now, orderNumber))];
      if response.InsertFailed? {
        isProcessing := false;
        return;
      }
      var orderId := response.id;
      var rows: seq<OrderItemRow> := [];
      for i := 0 to |items|
        invariant rows == ItemRows(orderId, items[..i])
      {
        assert items[..i + 1][..i] == items[..i];
        var row := ItemRow(orderId, items[i]);
        if row.Some? {
          rows := rows + [row.value];
        }
      }
      assert items[..|items|] == items;
      written := written + AsRecords(rows);
      var specs := Specs(items);
      if specs.None? {
        isProcessing := false;
        return;
      }
      var service := ServiceOrderRow(
        serviceOrderNumber, orderId, shipping.name, shipping.phone, email, specs.value,
        Cart.Subtotal(items), Cart.DepositAmount(items), Cart.RemainingBalance(items),
        ProductionDays, response.orderNumber);
      written := written + [ServiceOrderRecord(service), NotificationRecord(NotificationRow(userId, orderId, "order_confirmed", "Pedido Confirmado"))];
      cart.ClearCart();
      isProcessing := false;
    }
  }
}
