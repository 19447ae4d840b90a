/** The order document: a frozen copy of the purchased lines, shipping and
    payment details, the price breakdown, a status from a fixed set of six,
    paid/delivered flags, an order number given once and a status history
    appended to by a pre-save hook. */
module OrderModel {
  import opened Common

  datatype Status = Pending | Processing | Shipped | Delivered | Cancelled | Refunded

  function StatusName(s: Status): string {
    match s
    case Pending => "pending"
    case Processing => "processing"
    case Shipped => "shipped"
    case Delivered => "delivered"
    case Cancelled => "cancelled"
    case Refunded => "refunded"
  }

  /** Membership in the six valid status strings. */
  function ParseStatus(s: string): (r: Option<Status>)
    ensures r.Some? ==> StatusName(r.value) == s
  {
    if s == "pending" then Some(Pending)
    else if s == "processing" then Some(Processing)
    else if s == "shipped" then Some(Shipped)
    else if s == "delivered" then Some(Delivered)
    else if s == "cancelled" then Some(Cancelled)
    else if s == "refunded" then Some(Refunded)
    else None
  }

  /** Every status's own name is accepted and read back as that status. */
  lemma ParseStatusName(st: Status)
    ensures ParseStatus(StatusName(st)) == Some(st)
  {
    match st
    case Pending =>
    case Processing => assert "processing" != "pending";
    case Shipped => assert "shipped" != "pending" && "shipped" != "processing";
    case Delivered =>
    case Cancelled =>
    case Refunded =>
  }

  datatype PaymentMethod = CreditCard | DebitCard | PayPal | CashOnDelivery | BankTransfer

  function PaymentMethodName(m: PaymentMethod): string {
    match m
    case CreditCard => "credit_card"
    case DebitCard => "debit_card"
    case PayPal => "paypal"
    case CashOnDelivery => "cash_on_delivery"
    case BankTransfer => "bank_transfer"
  }

  /** The payment-method enum of the schema. */
  function ParsePaymentMethod(s: string): (r: Option<PaymentMethod>)
    ensures r.Some? ==> PaymentMethodName(r.value) == s
  {
    if s == "credit_card" then Some(CreditCard)
    else if s == "debit_card" then Some(DebitCard)
    else if s == "paypal" then Some(PayPal)
    else if s == "cash_on_delivery" then Some(CashOnDelivery)
    else if s == "bank_transfer" then Some(BankTransfer)
    else None
  }

  lemma ParsePaymentMethodName(m: PaymentMethod)
    ensures ParsePaymentMethod(PaymentMethodName(m)) == Some(m)
  {
    match m
    case CreditCard =>
    case DebitCard => assert "debit_card" != "credit_card";
    case PayPal =>
    case CashOnDelivery =>
    case BankTransfer =>
  }

  datatype OrderLine = OrderLine(product: ProductId, name: string, image: string, price: real, quantity: int)

  datatype Address = Address(address: string, city: string, postalCode: string, country: string, phone: string)

  datatype Prices = Prices(items: real, tax: real, shipping: real, total: real)

  datatype PaymentResult = PaymentResult(id: string, status: string, updateTime: string, emailAddress: string)

  datatype HistoryEntry = HistoryEntry(status: Status, timestamp: int)

  datatype Order = Order(
    user: UserId,
    items: seq<OrderLine>,
    shipping: Address,
    payment: PaymentMethod,
    prices: Prices,
    paymentResult: Option<PaymentResult>,
    status: Status,
    isPaid: bool,
    paidAt: Option<int>,
    isDelivered: bool,
    deliveredAt: Option<int>,
    orderNumber: string,
    trackingNumber: Option<string>,
    statusHistory: seq<HistoryEntry>)

  /** The order-line schema: required name and image, price at least 0,
      quantity at least 1. */
  predicate LineValid(l: OrderLine) {
    l.name != "" && l.image != "" && l.price >= 0.0 && l.quantity >= 1
  }

  predicate LinesValid(items: seq<OrderLine>) {
    forall i :: 0 <= i < |items| ==> LineValid(items[i])
  }

  /** The required parts of a shipping address. */
  predicate AddressValid(a: Address) {
    a.address != "" && a.city != "" && a.postalCode != "" && a.country != ""
  }

  predicate PricesValid(p: Prices) {
    p.items >= 0.0 && p.tax >= 0.0 && p.shipping >= 0.0 && p.total >= 0.0
  }

  /** An order as the store keeps it: every schema bound holds and the order
      number has been given. */
  predicate Stored(o: Order) {
    LinesValid(o.items) && AddressValid(o.shipping) && PricesValid(o.prices) && o.orderNumber != ""
  }

  /** `Date.now()` and the random order-number suffix, both opaque here;
      `stamp` stands for the text `${timestamp}-${random}`. */
  datatype Clock = Clock(now: int, stamp: string)

  /** `ORD-${timestamp}-${random}` */
  function OrderNumber(stamp: string): (n: string)
    ensures |n| >= 4 && n[..4] == "ORD-"
  {
    "ORD-" + stamp
  }

  /** What the status-history hook appends: one entry for the new status when
      an existing order's status was changed, nothing otherwise. */
  function HistoryAfterSave(history: seq<HistoryEntry>, isNew: bool, savedStatus: Status, status: Status, now: int): (h: seq<HistoryEntry>)
    ensures |history| <= |h| && h[..|history|] == history
    ensures |h| == |history| + 1 <==> !isNew && status != savedStatus
    ensures |h| > |history| ==> h[|history|] == HistoryEntry(status, now)
    ensures |h| <= |history| + 1
  {
    if !isNew && status != savedStatus then history + [HistoryEntry(status, now)] else history
  }

  /** The order `Order.create` starts from: the request's fields and the
      schema defaults, and no order number yet. */
  function NewOrder(user: UserId, items: seq<OrderLine>, shipping: Address, payment: PaymentMethod, prices: Prices): (o: Order)
    ensures o.status == Pending && !o.isPaid && !o.isDelivered && o.statusHistory == []
    ensures o.orderNumber == "" && !Stored(o)
  {
    Order(user, items, shipping, payment, prices, None, Pending, false, None, false, None, "", None, [])
  }

  /** `save()` in the order Mongoose runs it: the schema validators first,
      among them the `required` order number, and only then the pre-save
      hooks. An order that passes already has its number, so the number
      hook leaves it. */
  function SaveValidatingFirst(o: Order, isNew: bool, savedStatus: Status, clock: Clock): (r: Result<Order>)
    ensures r.Ok? <==> Stored(o)
    ensures r.Ok? ==> r.value.orderNumber == o.orderNumber && r.value.items == o.items && r.value.status == o.status
  {
    if !Stored(o) then Err(SchemaValidation)
    else Ok(o.(statusHistory := HistoryAfterSave(o.statusHistory, isNew, savedStatus, o.status, clock.now)))
  }

  /** Validating before the hooks, no order can be created: a new order
      never has a number when the validators run. */
  lemma CreateFailsValidation(user: UserId, items: seq<OrderLine>, shipping: Address, payment: PaymentMethod,
                              prices: Prices, clock: Clock)
    ensures SaveValidatingFirst(NewOrder(user, items, shipping, payment, prices), true, Pending, clock)
            == Err(SchemaValidation)
  {
  }

  /** An order document. `isNew` holds until its first save; `savedStatus`
      is the status last persisted, against which `isModified("status")`
      is decided. */
  class OrderDoc {
    var user: UserId
    var items: seq<OrderLine>
    var shipping: Address
    var payment: PaymentMethod
    var prices: Prices
    var paymentResult: Option<PaymentResult>
    var status: Status
    var isPaid: bool
    var paidAt: Option<int>
    var isDelivered: bool
    var deliveredAt: Option<int>
    var orderNumber: string
    var trackingNumber: Option<string>
    var statusHistory: seq<HistoryEntry>
    var isNew: bool
    var savedStatus: Status

    function Value(): Order
      reads this
    {
      Order(user, items, shipping, payment, prices, paymentResult, status, isPaid, paidAt,
            isDelivered, deliveredAt, orderNumber, trackingNumber, statusHistory)
    }

    /** `Order.findById`. */
    constructor Load(o: Order)
      ensures Value() == o && !isNew && savedStatus == o.status
    {
      user, items, shipping, payment, prices := o.user, o.items, o.shipping, o.payment, o.prices;
      paymentResult, status, isPaid, paidAt := o.paymentResult, o.status, o.isPaid, o.paidAt;
      isDelivered, deliveredAt, orderNumber := o.isDelivered, o.deliveredAt, o.orderNumber;
      trackingNumber, statusHistory := o.trackingNumber, o.statusHistory;
      isNew, savedStatus := false, o.status;
    }

    /** A new order with the schema defaults: pending, unpaid, undelivered,
        no order number yet and an empty history. */
    constructor Create(user: UserId, items: seq<OrderLine>, shipping: Address, payment: PaymentMethod, prices: Prices)
      ensures Value() == NewOrder(user, items, shipping, payment, prices)
      ensures isNew && savedStatus == Pending
    {
      this.user, this.items, this.shipping, this.payment, this.prices := user, items, shipping, payment, prices;
      paymentResult, status, isPaid, paidAt := None, Pending, false, None;
      isDelivered, deliveredAt, orderNumber := false, None, "";
      trackingNumber, statusHistory := None, [];
      isNew, savedStatus := true, Pending;
    }

    /** `save()`: the order-number hook, then the status-history hook. */
    method Save(clock: Clock)
      modifies this
      ensures orderNumber == if old(orderNumber) == "" then OrderNumber(clock.stamp) else old(orderNumber)
      ensures statusHistory == HistoryAfterSave(old(statusHistory), old(isNew), old(savedStatus), status, clock.now)
      ensures Value() == old(Value()).(orderNumber := orderNumber, statusHistory := statusHistory)
      ensures !isNew && savedStatus == status
    {
      if orderNumber == "" {
        orderNumber := OrderNumber(clock.stamp);
      }
      if status != savedStatus && !isNew {
        statusHistory := statusHistory + [HistoryEntry(status, clock.now)];
      }
      isNew := false;
      savedStatus := status;
    }
  }
}
