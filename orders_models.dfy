/** The order entities (orders/models.py): orders with their status and
    payment status, their items and their status history, the generated
    order number, and the database of orders, items, history rows and
    products that the views, the signal receivers and the admin change. */
module OrderModels {
  import opened Common
  import opened UserModels

  type OrderId = nat
  type ProductId = nat

  // ---------------------------------------------------------------------
  // Choices

  const STATUS_CHOICES: seq<(string, string)> := [
    ("pending", "En attente"),
    ("processing", "En traitement"),
    ("shipped", "Exp\U{e9}di\U{e9}e"),
    ("delivered", "Livr\U{e9}e"),
    ("cancelled", "Annul\U{e9}e")
  ]

  const PAYMENT_STATUS_CHOICES: seq<(string, string)> := [
    ("pending", "En attente"),
    ("paid", "Pay\U{e9}e"),
    ("failed", "\U{c9}chou\U{e9}"),
    ("refunded", "Rembours\U{e9}e")
  ]

  /** The stored values of a choice list, in order. */
  function ChoiceKeys(choices: seq<(string, string)>): (r: seq<string>)
    ensures |r| == |choices|
    ensures forall i :: 0 <= i < |choices| ==> r[i] == choices[i].0
  {
    if choices == [] then [] else [choices[0].0] + ChoiceKeys(choices[1..])
  }

  predicate IsOrderStatus(s: string)
  {
    s in ChoiceKeys(STATUS_CHOICES)
  }

  predicate IsPaymentStatus(s: string)
  {
    s in ChoiceKeys(PAYMENT_STATUS_CHOICES)
  }

  /** `get_FOO_display`: the label of a choice with that value, or the
      value itself when no choice has it. Django reads the label from a
      dictionary built from the choices, where a repeated value would keep
      its last label; the values of the status choices are distinct, so
      the first choice with the value is the only one. */
  function Display(choices: seq<(string, string)>, v: string): (r: string)
    ensures v !in ChoiceKeys(choices) ==> r == v
    ensures forall i :: (0 <= i < |choices| && choices[i].0 == v
                         && (forall j :: 0 <= j < i ==> choices[j].0 != v)) ==> r == choices[i].1
  {
    if choices == [] then v
    else if choices[0].0 == v then choices[0].1
    else
      assert ChoiceKeys(choices) == [choices[0].0] + ChoiceKeys(choices[1..]);
      Display(choices[1..], v)
  }

  /** Five order statuses and four payment statuses; 'paid' is a payment
      status and never an order status. */
  lemma ChoiceFacts()
    ensures |ChoiceKeys(STATUS_CHOICES)| == 5 && |ChoiceKeys(PAYMENT_STATUS_CHOICES)| == 4
    ensures IsPaymentStatus("paid") && !IsOrderStatus("paid")
    ensures forall s :: IsOrderStatus(s) ==> s != "paid"
    ensures IsOrderStatus("pending") && IsPaymentStatus("pending")
  {
    var ks := ChoiceKeys(STATUS_CHOICES);
    assert ks == ["pending", "processing", "shipped", "delivered", "cancelled"];
    assert ChoiceKeys(PAYMENT_STATUS_CHOICES)[1] == "paid";
  }

  /** 'paid' is not an order status. */
  lemma OrderStatusIsNotPaid(s: string)
    requires IsOrderStatus(s)
    ensures s != "paid"
  {
    ChoiceFacts();
  }

  // ---------------------------------------------------------------------
  // The clock and the order number

  /** An instant as the server clock reports it. */
  datatype DateTime = DateTime(year: nat, month: nat, day: nat, hour: nat, minute: nat, second: nat)

  /** A four-digit year and the usual ranges for the other fields. */
  predicate ValidDateTime(t: DateTime)
  {
    && 1000 <= t.year <= 9999 && 1 <= t.month <= 12 && 1 <= t.day <= 31
    && t.hour < 24 && t.minute < 60 && t.second < 60
  }

  /** `strftime("%Y%m%d%H%M%S")`. */
  function Timestamp(t: DateTime): (s: string)
    ensures |s| == 14 && AllDigits(s)
  {
    Fixed(t.year, 4) + Fixed(t.month, 2) + Fixed(t.day, 2)
      + Fixed(t.hour, 2) + Fixed(t.minute, 2) + Fixed(t.second, 2)
  }

  /** "ORD" followed by the timestamp of `t`. */
  function OrderNumberFor(t: DateTime): (s: string)
    ensures |s| == 17 && s[..3] == "ORD"
  {
    "ORD" + Timestamp(t)
  }

  /** The maximum length the `order_number` column accepts. */
  const ORDER_NUMBER_MAX_LENGTH: nat := 20

  /** Reads an order number back into the instant it was generated at. */
  function ParseOrderNumber(s: string): Option<DateTime>
  {
    if |s| != 17 || s[..3] != "ORD" || !AllDigits(s[3..]) then None
    else Some(DateTime(DigitsValue(s[3..7]), DigitsValue(s[7..9]), DigitsValue(s[9..11]),
                       DigitsValue(s[11..13]), DigitsValue(s[13..15]), DigitsValue(s[15..17])))
  }

  /** The number fits the column and names the instant it was made at. */
  lemma OrderNumberRoundTrip(t: DateTime)
    requires ValidDateTime(t)
    ensures |OrderNumberFor(t)| <= ORDER_NUMBER_MAX_LENGTH
    ensures ParseOrderNumber(OrderNumberFor(t)) == Some(t)
  {
    var s := OrderNumberFor(t);
    assert s[3..7] == Fixed(t.year, 4);
    assert s[7..9] == Fixed(t.month, 2);
    assert s[9..11] == Fixed(t.day, 2);
    assert s[11..13] == Fixed(t.hour, 2);
    assert s[13..15] == Fixed(t.minute, 2);
    assert s[15..17] == Fixed(t.second, 2);
    assert Pow10(2) == 100 && Pow10(4) == 10000;
    FixedRoundTrip(t.year, 4);
    FixedRoundTrip(t.month, 2);
    FixedRoundTrip(t.day, 2);
    FixedRoundTrip(t.hour, 2);
    FixedRoundTrip(t.minute, 2);
    FixedRoundTrip(t.second, 2);
  }

  /** Orders numbered at different seconds get different numbers. */
  lemma OrderNumberInjective(t1: DateTime, t2: DateTime)
    requires ValidDateTime(t1) && ValidDateTime(t2)
    requires OrderNumberFor(t1) == OrderNumberFor(t2)
    ensures t1 == t2
  {
    OrderNumberRoundTrip(t1);
    OrderNumberRoundTrip(t2);
  }

  /** `strftime('%d/%m/%Y %H:%M')`. */
  function DayMinute(t: DateTime): (s: string)
    ensures |s| == 16 && s[2] == '/' && s[5] == '/' && s[10] == ' ' && s[13] == ':'
  {
    Fixed(t.day, 2) + "/" + Fixed(t.month, 2) + "/" + Fixed(t.year, 4) + " "
      + Fixed(t.hour, 2) + ":" + Fixed(t.minute, 2)
  }

  /** A number that orders valid instants chronologically. */
  function TimeKey(t: DateTime): nat
  {
    ((((t.year * 13 + t.month) * 32 + t.day) * 24 + t.hour) * 60 + t.minute) * 60 + t.second
  }

  /** Chronological order of instants. */
  predicate NotAfter(a: DateTime, b: DateTime)
  {
    TimeKey(a) <= TimeKey(b)
  }

  // ---------------------------------------------------------------------
  // Entities

  /** An order. Money is exact; the creation and update stamps are left out. */
  datatype Order = Order(
    user: Option<UserId>,
    orderNumber: string,
    status: string,
    paymentStatus: string,
    shippingAddress: string,
    billingAddress: string,
    phoneNumber: string,
    email: string,
    totalAmount: real,
    taxAmount: real,
    shippingCost: real,
    notes: Option<string>,
    paidAt: Option<DateTime>)

  /** What the order form supplies. */
  datatype OrderFormData = OrderFormData(shippingAddress: string, billingAddress: string,
                                         phoneNumber: string, notes: Option<string>)

  /** A fresh order built from the order form: both statuses 'pending', no
      number yet, the optional amounts at their default of zero, no owner or
      e-mail until the view sets them. */
  function NewOrder(form: OrderFormData): (o: Order)
    ensures o.status == "pending" && o.paymentStatus == "pending"
    ensures o.orderNumber == "" && o.paidAt.None? && o.user.None?
    ensures o.taxAmount == 0.0 && o.shippingCost == 0.0
    ensures o.shippingAddress == form.shippingAddress && o.billingAddress == form.billingAddress
    ensures o.phoneNumber == form.phoneNumber && o.notes == form.notes
  {
    Order(None, "", "pending", "pending", form.shippingAddress, form.billingAddress,
          form.phoneNumber, "", 0.0, 0.0, 0.0, form.notes, None)
  }

  /** The number `Order.save` gives an order before writing it: an order
      that has one keeps it, an order without one gets the number of the
      current instant; nothing else changes. */
  function AssignOrderNumber(o: Order, now: DateTime): (r: Order)
    ensures o.orderNumber != "" ==> r == o
    ensures o.orderNumber == "" ==> r == o.(orderNumber := OrderNumberFor(now))
    ensures r.orderNumber != ""
  {
    if o.orderNumber != "" then o else o.(orderNumber := OrderNumberFor(now))
  }

  /** A number assigned by `save` names the instant of the save. */
  lemma AssignedNumberNamesInstant(o: Order, now: DateTime)
    requires o.orderNumber == "" && ValidDateTime(now)
    ensures ParseOrderNumber(AssignOrderNumber(o, now).orderNumber) == Some(now)
    ensures |AssignOrderNumber(o, now).orderNumber| == 17
  {
    OrderNumberRoundTrip(now);
  }

  /** `get_total_cost`. */
  function GetTotalCost(o: Order): (r: real)
    ensures o.totalAmount >= 0.0 && o.taxAmount >= 0.0 && o.shippingCost >= 0.0 ==> r >= o.totalAmount
  {
    o.totalAmount + o.taxAmount + o.shippingCost
  }

  /** An order line: the product (null once the product is deleted), the
      unit price at ordering time and the quantity. */
  datatype OrderItem = OrderItem(product: Option<ProductId>, price: real, quantity: nat)

  /** `get_cost`. */
  function GetCost(i: OrderItem): (r: real)
    ensures i.price >= 0.0 ==> r >= 0.0
    ensures i.quantity == 0 ==> r == 0.0
  {
    i.price * i.quantity as real
  }

  /** The sum of the items' costs. */
  function ItemsCost(items: seq<OrderItem>): real
  {
    if items == [] then 0.0 else ItemsCost(items[..|items| - 1]) + GetCost(items[|items| - 1])
  }

  /** A product as the orders see it: its name, price and stock. */
  datatype Product = Product(name: string, price: real, stock: int)

  const DELETED_PRODUCT := "[Produit supprim\U{e9}]"

  /** `OrderItem.__str__`: "<quantity>x <product name>", with a placeholder
      once the product is gone. */
  function ItemString(i: OrderItem, products: map<ProductId, Product>): (r: string)
    ensures i.product.None? ==> r == NatToString(i.quantity) + "x " + DELETED_PRODUCT
    ensures i.product.Some? && i.product.value in products ==>
              r == NatToString(i.quantity) + "x " + products[i.product.value].name
  {
    NatToString(i.quantity) + "x "
      + (if i.product.Some? && i.product.value in products then products[i.product.value].name
         else DELETED_PRODUCT)
  }

  /** A status-history row. */
  datatype HistoryRow = HistoryRow(status: string, notes: Option<string>, createdBy: Option<UserId>, createdAt: DateTime)

  // ---------------------------------------------------------------------
  // The database

  /** The tables the order code reads and writes. */
  datatype Db = Db(orders: map<OrderId, Order>,
                   items: map<OrderId, seq<OrderItem>>,
                   history: map<OrderId, seq<HistoryRow>>,
                   products: map<ProductId, Product>,
                   nextId: nat)

  /** Another order than `except` already carries `number` (the column is
      unique). */
  predicate NumberTaken(orders: map<OrderId, Order>, number: string, except: Option<OrderId>)
  {
    exists id :: id in orders && orders[id].orderNumber == number && Some(id) != except
  }

  /** Every order has its item list and its history. */
  predicate Keyed(db: Db)
  {
    forall id :: id in db.orders ==> id in db.items && id in db.history
  }

  /** Every order has its items and its history; ids count up from 1, as
      an auto-increment key does (so no stored order has the falsy pk 0),
      and stay below the next one to hand out; order numbers are present
      and unique. */
  predicate DbValid(db: Db)
  {
    && Keyed(db)
    && db.nextId >= 1
    && (forall id :: id in db.orders ==> 1 <= id < db.nextId)
    && (forall id :: id in db.orders ==> db.orders[id].orderNumber != "")
    && (forall a, b :: a in db.orders && b in db.orders && db.orders[a].orderNumber == db.orders[b].orderNumber ==> a == b)
  }

  /** The tables with `row` appended to order `id`'s history (a new
      `OrderStatusHistory` row). */
  function AppendRow(db: Db, id: OrderId, row: HistoryRow): Db
    requires id in db.history
  {
    db.(history := db.history[id := db.history[id] + [row]])
  }

  /** The tables with `lines` added to order `id`'s items. */
  function AddItems(db: Db, id: OrderId, lines: seq<OrderItem>): Db
    requires id in db.items
  {
    db.(items := db.items[id := db.items[id] + lines])
  }

  /** Adding history rows or items to a stored order keeps the tables
      consistent. */
  lemma AppendKeepsValid(db: Db, id: OrderId, row: HistoryRow, lines: seq<OrderItem>)
    requires DbValid(db) && id in db.orders
    ensures DbValid(AppendRow(db, id, row))
    ensures DbValid(AddItems(db, id, lines))
  {
    assert AppendRow(db, id, row).orders == db.orders;
    assert AddItems(db, id, lines).orders == db.orders;
  }

  /** The stored order, item, history and product tables. */
  class Store {
    var orders: map<OrderId, Order>
    var items: map<OrderId, seq<OrderItem>>
    var history: map<OrderId, seq<HistoryRow>>
    var products: map<ProductId, Product>
    var nextId: nat

    function State(): Db
      reads this
    {
      Db(orders, items, history, products, nextId)
    }

    predicate Valid()
      reads this
    {
      DbValid(State())
    }

    /** An empty shop with the given catalogue. */
    constructor (catalogue: map<ProductId, Product>)
      ensures State() == Db(map[], map[], map[], catalogue, 1)
      ensures Valid()
    {
      orders := map[];
      items := map[];
      history := map[];
      products := catalogue;
      nextId := 1;
    }

    /** `OrderStatusHistory.objects.create` for order `id`. */
    method AddHistory(id: OrderId, row: HistoryRow)
      requires id in history
      modifies this
      ensures State() == AppendRow(old(State()), id, row)
    {
      history := history[id := history[id] + [row]];
    }

    /** `OrderItem.objects.bulk_create` of `lines` for order `id`. */
    method BulkCreateItems(id: OrderId, lines: seq<OrderItem>)
      requires id in items
      modifies this
      ensures State() == AddItems(old(State()), id, lines)
    {
      items := items[id := items[id] + lines];
    }
  }
}
