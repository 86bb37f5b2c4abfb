/** The order views (orders/views.py): placing an order from the cart,
    the customer's cancellation, and the staff status update. Each view is
    a method on the store, proved against a function that says what the
    request does to the tables; the lemmas state what that function
    promises, with the signal receivers connected or not. */
module OrderViews {
  import opened Common
  import opened UserModels
  import opened OrderModels
  import opened OrderSignals

  // ---------------------------------------------------------------------
  // The cart

  /** A cart line: a product of the catalogue and how many of it. */
  datatype CartLine = CartLine(product: ProductId, quantity: nat)

  /** Every line of the cart names a product of the catalogue. */
  predicate InCatalogue(cart: seq<CartLine>, products: map<ProductId, Product>)
  {
    forall i :: 0 <= i < |cart| ==> cart[i].product in products
  }

  /** The order item a cart line becomes: the product, its current price,
      the quantity. */
  function LineItem(line: CartLine, products: map<ProductId, Product>): OrderItem
    requires line.product in products
  {
    OrderItem(Some(line.product), products[line.product].price, line.quantity)
  }

  /** One order item per cart line, in cart order, with the same product
      and quantity and the product's price at the time of ordering. */
  function CartItems(cart: seq<CartLine>, products: map<ProductId, Product>): (r: seq<OrderItem>)
    requires InCatalogue(cart, products)
    ensures |r| == |cart|
    ensures forall i :: 0 <= i < |cart| ==>
              r[i].product == Some(cart[i].product) && r[i].quantity == cart[i].quantity
              && r[i].price == products[cart[i].product].price
  {
    if cart == [] then []
    else CartItems(cart[..|cart| - 1], products) + [LineItem(cart[|cart| - 1], products)]
  }

  /** The sum of price times quantity over the cart lines. */
  function CartTotal(cart: seq<CartLine>, products: map<ProductId, Product>): real
    requires InCatalogue(cart, products)
  {
    if cart == [] then 0.0
    else CartTotal(cart[..|cart| - 1], products)
         + products[cart[|cart| - 1].product].price * cart[|cart| - 1].quantity as real
  }

  /** The order's total is the sum of the costs of the items created for
      it. */
  lemma {:induction false} CartTotalIsItemsCost(cart: seq<CartLine>, products: map<ProductId, Product>)
    requires InCatalogue(cart, products)
    ensures ItemsCost(CartItems(cart, products)) == CartTotal(cart, products)
  {
    if cart != [] {
      var n := |cart| - 1;
      var r := CartItems(cart, products);
      assert r[..n] == CartItems(cart[..n], products);
      CartTotalIsItemsCost(cart[..n], products);
    }
  }

  /** The loop over the cart: it adds up the subtotals, builds one item per
      line and saves each product as it is, so the stock stays as it was. */
  method CollectItems(store: Store, cart: seq<CartLine>) returns (items: seq<OrderItem>, total: real)
    requires InCatalogue(cart, store.products)
    modifies store
    ensures store.State() == old(store.State())
    ensures items == CartItems(cart, store.products)
    ensures total == CartTotal(cart, store.products)
  {
    items := [];
    total := 0.0;
    for i := 0 to |cart|
      invariant store.State() == old(store.State())
      invariant items == CartItems(cart[..i], store.products)
      invariant total == CartTotal(cart[..i], store.products)
    {
      assert cart[..i + 1][..i] == cart[..i];
      var p := cart[i].product;
      var price := store.products[p].price;
      var quantity := cart[i].quantity;
      total := total + price * quantity as real;
      items := items + [OrderItem(Some(p), price, quantity)];
      store.products := store.products[p := store.products[p]];
    }
    assert cart[..|cart|] == cart;
  }

  // ---------------------------------------------------------------------
  // Placing an order

  const BUYER_NOTE := "Commande cr\U{e9}\U{e9}e par le client"
  const EMPTY_CART := "Votre panier est vide"
  const CART_DETAIL := "cart:cart_detail"
  const PRODUCT_NOT_ADDED := "Erreur: Le produit n'a pas pu \U{ea}tre ajout\U{e9} au panier"
  const HOME := "app_urls:home"
  const TAX_RATE: real := 0.2
  const SHIPPING_COST: real := 10.0

  const CONFIRMATION_HEAD := "Confirmation de commande #"
  const CONFIRMATION_BODY := " : Votre commande a \U{e9}t\U{e9} enregistr\U{e9}e avec succ\U{e8}s. Un email de confirmation contenant votre facture et les d\U{e9}tails de votre commande vous sera envoy\U{e9} \U{e0} l'adresse "
  const CONFIRMATION_TAIL := ". Merci pour votre confiance !"

  /** The success message, naming the order number and the buyer's address. */
  function ConfirmationMessage(number: string, email: string): string
  {
    CONFIRMATION_HEAD + number + CONFIRMATION_BODY + email + CONFIRMATION_TAIL
  }

  /** How a request to place an order ends: refused with a message and a
      redirect, created (the redirect goes to the new order), or failed on
      the unique order number. */
  datatype CreateOutcome =
    | Rejected(error: string, redirect: string)
    | Created(id: OrderId, message: string)
    | ServerError

  /** The order the view saves: the form's fields, the buyer and the buyer's
      address, the cart total, the tax at 20% of it, flat shipping. */
  function CartOrder(form: OrderFormData, buyer: User, total: real): Order
  {
    NewOrder(form).(user := Some(buyer.id), email := buyer.email,
                    totalAmount := total, taxAmount := total * TAX_RATE, shippingCost := SHIPPING_COST)
  }

  /** The history row the view itself writes for a new order. */
  function BuyerRow(buyer: User, now: DateTime): HistoryRow
  {
    HistoryRow("pending", Some(BUYER_NOTE), Some(buyer.id), now)
  }

  /** What placing an order from a non-empty cart does: the order is saved
      (and numbered), the items are created, and the buyer's 'pending' row is
      appended to its history. A clash on the order number stops the request
      after the failed save. */
  function PlaceOrderSpec(db: Db, form: OrderFormData, buyer: User, cart: seq<CartLine>,
                          now: DateTime, signals: bool): (Db, CreateOutcome)
    requires DbValid(db)
    requires InCatalogue(cart, db.products)
  {
    PlaceSpec(db, CartOrder(form, buyer, CartTotal(cart, db.products)), CartItems(cart, db.products), buyer, now, signals)
  }

  /** Saving `order`, then adding `lines` and the buyer's row to it. */
  function PlaceSpec(db: Db, order: Order, lines: seq<OrderItem>, buyer: User,
                     now: DateTime, signals: bool): (Db, CreateOutcome)
    requires DbValid(db)
  {
    SaveEffect(db, None, order, now, signals);
    var (db1, res) := SaveSpec(db, None, order, now, signals);
    match res
    case IntegrityError => (db1, ServerError)
    case Saved(id, saved) =>
      (AppendRow(AddItems(db1, id, lines), id, BuyerRow(buyer, now)), Created(id, ConfirmationMessage(saved.orderNumber, buyer.email)))
  }

  /** The history a placed order starts with. */
  function PlacedHistory(o: Order, buyer: User, now: DateTime, signals: bool): seq<HistoryRow>
  {
    (if signals then [InitialRow(o, now)] else []) + [BuyerRow(buyer, now)]
  }

  /** The order `PlaceOrderSpec` saves, once numbered. */
  function PlacedOrder(form: OrderFormData, buyer: User, cart: seq<CartLine>,
                       products: map<ProductId, Product>, now: DateTime): Order
    requires InCatalogue(cart, products)
  {
    AssignOrderNumber(CartOrder(form, buyer, CartTotal(cart, products)), now)
  }

  /** Saving and completing an order either fails on the unique number,
      exactly when an order already holds the number it is given, and then
      nothing changes; or inserts the numbered order under the next id,
      then adds its items and then the buyer's row, and confirms with its
      number and the buyer's address. */
  lemma PlaceOutcome(db: Db, order: Order, lines: seq<OrderItem>, buyer: User, now: DateTime, signals: bool)
    requires DbValid(db)
    ensures var (db2, out) := PlaceSpec(db, order, lines, buyer, now, signals);
            var o := AssignOrderNumber(order, now);
            && (out.Created? || out.ServerError?)
            && (out.ServerError? <==> NumberTaken(db.orders, o.orderNumber, None))
            && (out.ServerError? ==> db2 == db)
            && (out.Created? ==>
                  && out.id == db.nextId
                  && out.message == ConfirmationMessage(o.orderNumber, buyer.email)
                  && db2 == AppendRow(AddItems(InsertOrder(db, o, if signals then [InitialRow(o, now)] else []),
                                               db.nextId, lines),
                                      db.nextId, BuyerRow(buyer, now)))
  {
    SaveNewOrder(db, order, now, signals);
  }

  /** Placing an order from the cart either fails on the unique number,
      exactly when an order already holds the number of the instant, and
      then nothing changes; or creates the order under the next id and
      confirms it with that number and the buyer's address. */
  lemma PlaceOrderOutcome(db: Db, form: OrderFormData, buyer: User, cart: seq<CartLine>,
                          now: DateTime, signals: bool)
    requires DbValid(db)
    requires InCatalogue(cart, db.products)
    ensures var (db2, out) := PlaceOrderSpec(db, form, buyer, cart, now, signals);
            && (out.Created? || out.ServerError?)
            && (out.ServerError? <==> NumberTaken(db.orders, OrderNumberFor(now), None))
            && (out.ServerError? ==> db2 == db)
            && (out.Created? ==> out.id == db.nextId && out.message == ConfirmationMessage(OrderNumberFor(now), buyer.email))
  {
    PlaceOutcome(db, CartOrder(form, buyer, CartTotal(cart, db.products)), CartItems(cart, db.products), buyer, now, signals);
  }

  /** The tables after inserting `o` with history `hist`, then adding
      `lines` and `row` to it: that order, those items and that history
      under the next id, the rest as it was. */
  lemma PlacedTables(db: Db, o: Order, hist: seq<HistoryRow>, lines: seq<OrderItem>, row: HistoryRow)
    ensures var db2 := AppendRow(AddItems(InsertOrder(db, o, hist), db.nextId, lines), db.nextId, row);
            && db2.orders == db.orders[db.nextId := o]
            && db2.items == db.items[db.nextId := lines]
            && db2.history == db.history[db.nextId := hist + [row]]
            && db2.products == db.products
            && db2.nextId == db.nextId + 1
  {
    assert [] + lines == lines;
  }

  /** Inserting an order under a new number and giving it items and a
      row keeps the tables consistent. */
  lemma PlacedKeepsValid(db: Db, o: Order, hist: seq<HistoryRow>, lines: seq<OrderItem>, row: HistoryRow)
    requires DbValid(db)
    requires o.orderNumber != "" && !NumberTaken(db.orders, o.orderNumber, None)
    ensures DbValid(AppendRow(AddItems(InsertOrder(db, o, hist), db.nextId, lines), db.nextId, row))
  {
    var db1 := InsertOrder(db, o, hist);
    InsertKeepsValid(db, o, hist);
    AppendKeepsValid(db1, db.nextId, row, lines);
    AppendKeepsValid(AddItems(db1, db.nextId, lines), db.nextId, row, []);
  }

  /** Placing an order keeps the tables consistent. */
  lemma PlaceOrderKeepsValid(db: Db, form: OrderFormData, buyer: User, cart: seq<CartLine>,
                             now: DateTime, signals: bool)
    requires DbValid(db)
    requires InCatalogue(cart, db.products)
    ensures DbValid(PlaceOrderSpec(db, form, buyer, cart, now, signals).0)
  {
    var order := CartOrder(form, buyer, CartTotal(cart, db.products));
    PlaceOutcome(db, order, CartItems(cart, db.products), buyer, now, signals);
    var o := AssignOrderNumber(order, now);
    if !NumberTaken(db.orders, o.orderNumber, None) {
      PlacedKeepsValid(db, o, if signals then [InitialRow(o, now)] else [], CartItems(cart, db.products), BuyerRow(buyer, now));
    }
  }

  /** A placed order holds what the cart held (see `PlacedOrderFields`):
      its items are the cart's lines; the stock is untouched; and its
      history is the buyer's row, after the receiver's initial row when the
      receivers are connected. Nothing else changes. */
  lemma PlaceOrderEffect(db: Db, form: OrderFormData, buyer: User, cart: seq<CartLine>,
                         now: DateTime, signals: bool)
    requires DbValid(db)
    requires InCatalogue(cart, db.products)
    ensures var (db2, out) := PlaceOrderSpec(db, form, buyer, cart, now, signals);
            var o := PlacedOrder(form, buyer, cart, db.products, now);
            out.Created? ==>
              && out.id !in db.orders
              && db2.orders == db.orders[out.id := o]
              && db2.items == db.items[out.id := CartItems(cart, db.products)]
              && db2.products == db.products
              && db2.history == db.history[out.id := PlacedHistory(o, buyer, now, signals)]
              && db2.nextId == db.nextId + 1
  {
    var order := CartOrder(form, buyer, CartTotal(cart, db.products));
    PlaceOutcome(db, order, CartItems(cart, db.products), buyer, now, signals);
    var o := AssignOrderNumber(order, now);
    PlacedTables(db, o, if signals then [InitialRow(o, now)] else [], CartItems(cart, db.products), BuyerRow(buyer, now));
  }

  /** The placed order's fields. */
  lemma PlacedOrderFields(form: OrderFormData, buyer: User, cart: seq<CartLine>,
                          products: map<ProductId, Product>, now: DateTime)
    requires InCatalogue(cart, products)
    ensures var o := PlacedOrder(form, buyer, cart, products, now);
            && o.totalAmount == ItemsCost(CartItems(cart, products))
            && o.taxAmount == o.totalAmount * 0.2 && o.shippingCost == 10.0
            && o.status == "pending" && o.paymentStatus == "pending" && o.paidAt.None?
            && o.user == Some(buyer.id) && o.email == buyer.email
            && o.orderNumber == OrderNumberFor(now)
            && o.shippingAddress == form.shippingAddress && o.billingAddress == form.billingAddress
            && o.phoneNumber == form.phoneNumber && o.notes == form.notes
  {
    CartTotalIsItemsCost(cart, products);
  }

  /** With the receivers connected a new order starts with two 'pending'
      rows (the receiver's and the view's); without them, with one. */
  lemma PendingRows(o: Order, buyer: User, now: DateTime, signals: bool)
    requires o.status == "pending"
    ensures |PlacedHistory(o, buyer, now, signals)| == (if signals then 2 else 1)
    ensures forall k :: 0 <= k < |PlacedHistory(o, buyer, now, signals)| ==>
              PlacedHistory(o, buyer, now, signals)[k].status == "pending"
  {
  }

  /** The steps of `PlaceOrderSpec` once the save is done. */
  lemma PlaceOrderSteps(db: Db, form: OrderFormData, buyer: User, cart: seq<CartLine>,
                        now: DateTime, signals: bool, db1: Db, res: SaveResult)
    requires DbValid(db)
    requires InCatalogue(cart, db.products)
    requires (db1, res) == SaveSpec(db, None, CartOrder(form, buyer, CartTotal(cart, db.products)), now, signals)
    ensures res.IntegrityError? ==> PlaceOrderSpec(db, form, buyer, cart, now, signals) == (db1, ServerError)
    ensures res.Saved? ==> res.id in db1.items && res.id in db1.history
    ensures res.Saved? ==>
              (PlaceOrderSpec(db, form, buyer, cart, now, signals)
                 == (AppendRow(AddItems(db1, res.id, CartItems(cart, db.products)), res.id, BuyerRow(buyer, now)),
                     Created(res.id, ConfirmationMessage(res.order.orderNumber, buyer.email))))
  {
    SaveEffect(db, None, CartOrder(form, buyer, CartTotal(cart, db.products)), now, signals);
  }

  /** The shared body of both `form_valid`s once the cart is known to hold
      something. */
  method PlaceOrder(store: Store, form: OrderFormData, buyer: User, cart: seq<CartLine>,
                    now: DateTime, signals: bool) returns (out: CreateOutcome)
    requires store.Valid()
    requires InCatalogue(cart, store.products)
    modifies store
    ensures store.Valid()
    ensures (store.State(), out) == PlaceOrderSpec(old(store.State()), form, buyer, cart, now, signals)
  {
    ghost var db := store.State();
    PlaceOrderKeepsValid(db, form, buyer, cart, now, signals);
    var items, total := CollectItems(store, cart);
    var order := CartOrder(form, buyer, total);
    var res := SaveOrder(store, None, order, now, signals);
    PlaceOrderSteps(db, form, buyer, cart, now, signals, store.State(), res);
    if res.IntegrityError? {
      return ServerError;
    }
    store.BulkCreateItems(res.id, items);
    store.AddHistory(res.id, BuyerRow(buyer, now));
    out := Created(res.id, ConfirmationMessage(res.order.orderNumber, buyer.email));
  }

  /** `OrderCreateView.form_valid`: an empty cart is refused with a message
      and a redirect to the cart; otherwise the order is placed and, once it
      is, the cart is emptied. The confirmation e-mails are not part of this
      model. */
  method OrderCreateFormValid(store: Store, form: OrderFormData, buyer: User, cart: seq<CartLine>,
                              now: DateTime, signals: bool) returns (out: CreateOutcome, cartAfter: seq<CartLine>)
    requires store.Valid()
    requires InCatalogue(cart, store.products)
    modifies store
    ensures store.Valid()
    ensures cart == [] ==> out == Rejected(EMPTY_CART, CART_DETAIL) && cartAfter == cart
                           && store.State() == old(store.State())
    ensures cart != [] ==> (store.State(), out) == PlaceOrderSpec(old(store.State()), form, buyer, cart, now, signals)
    ensures cartAfter == if out.Created? then [] else cart
  {
    if cart == [] {
      return Rejected(EMPTY_CART, CART_DETAIL), cart;
    }
    out := PlaceOrder(store, form, buyer, cart, now, signals);
    cartAfter := if out.Created? then [] else cart;
  }

  /** `OrderSingleProductView.form_valid`: the same, except for the message
      and the redirect when the cart is empty. */
  method SingleProductFormValid(store: Store, form: OrderFormData, buyer: User, cart: seq<CartLine>,
                                now: DateTime, signals: bool) returns (out: CreateOutcome, cartAfter: seq<CartLine>)
    requires store.Valid()
    requires InCatalogue(cart, store.products)
    modifies store
    ensures store.Valid()
    ensures cart == [] ==> out == Rejected(PRODUCT_NOT_ADDED, HOME) && cartAfter == cart
                           && store.State() == old(store.State())
    ensures cart != [] ==> (store.State(), out) == PlaceOrderSpec(old(store.State()), form, buyer, cart, now, signals)
    ensures cartAfter == if out.Created? then [] else cart
  {
    if |cart| == 0 {
      return Rejected(PRODUCT_NOT_ADDED, HOME), cart;
    }
    out := PlaceOrder(store, form, buyer, cart, now, signals);
    cartAfter := if out.Created? then [] else cart;
  }

  // ---------------------------------------------------------------------
  // The customer's cancellation

  const TERMINAL_STATUSES: seq<string> := ["cancelled", "shipped", "delivered"]
  const CANCEL_NOTE := "Commande annul\U{e9}e par le client"
  const CANCELLED_MESSAGE := "Votre commande a \U{e9}t\U{e9} annul\U{e9}e avec succ\U{e8}s."
  const CANNOT_CANCEL := "Impossible d'annuler cette commande."

  /** Order `id` has number `number` and belongs to `owner`. */
  predicate OwnOrder(db: Db, id: OrderId, number: string, owner: UserId)
  {
    id in db.orders && db.orders[id].orderNumber == number && db.orders[id].user == Some(owner)
  }

  /** The lookup by number among the requester's own orders. */
  function FindOwnOrder(db: Db, number: string, owner: UserId): (r: Option<OrderId>)
    requires DbValid(db)
    ensures r.Some? ==> OwnOrder(db, r.value, number, owner)
    ensures r.None? ==> forall id :: !OwnOrder(db, id, number, owner)
  {
    if exists id | id in db.orders :: OwnOrder(db, id, number, owner) then
      var id :| id in db.orders && OwnOrder(db, id, number, owner);
      Some(id)
    else None
  }

  /** Numbers are unique, so the lookup finds the one order that matches. */
  lemma FindOwnOrderFinds(db: Db, id: OrderId, number: string, owner: UserId)
    requires DbValid(db)
    requires OwnOrder(db, id, number, owner)
    ensures FindOwnOrder(db, number, owner) == Some(id)
  {
    var r := FindOwnOrder(db, number, owner);
    assert db.orders[r.value].orderNumber == db.orders[id].orderNumber;
  }

  /** How a cancellation request ends. */
  datatype CancelOutcome =
    | CancelNotFound
    | NotCancellable(id: OrderId, message: string)
    | Cancelled(id: OrderId, message: string)

  /** The row the view appends for a cancellation, attributed to the
      requester. */
  function CancelRow(requester: UserId, now: DateTime): HistoryRow
  {
    HistoryRow("cancelled", Some(CANCEL_NOTE), Some(requester), now)
  }

  /** `OrderCancelView.post`: only the requester's own order with that
      number is found; one already cancelled, shipped or delivered is left
      as it is; any other is saved as 'cancelled', its items' quantities go
      back to stock, and the requester's 'cancelled' row is appended. */
  function CancelSpec(db: Db, number: string, requester: UserId, now: DateTime, signals: bool): (r: (Db, CancelOutcome))
    requires DbValid(db)
  {
    match FindOwnOrder(db, number, requester)
    case None => (db, CancelNotFound)
    case Some(pk) =>
      var o := db.orders[pk];
      if o.status in TERMINAL_STATUSES then (db, NotCancellable(pk, CANNOT_CANCEL))
      else
        var inst := o.(status := "cancelled");
        SaveStoredTables(db, pk, inst, now, signals);
        var db1 := SaveSpec(db, Some(pk), inst, now, signals).0;
        var db2 := db1.(products := Restock(db1.products, db1.items[pk]));
        (AppendRow(db2, pk, CancelRow(requester, now)), Cancelled(pk, CANCELLED_MESSAGE))
  }

  /** A request for an order that is not the requester's, or that cannot be
      cancelled any more, changes nothing. */
  lemma CancelRefusalsChangeNothing(db: Db, number: string, requester: UserId, now: DateTime, signals: bool)
    requires DbValid(db)
    ensures var (db2, out) := CancelSpec(db, number, requester, now, signals);
            && (out.CancelNotFound? <==> forall id :: !OwnOrder(db, id, number, requester))
            && (out.NotCancellable? <==> exists id :: OwnOrder(db, id, number, requester)
                                                     && db.orders[id].status in TERMINAL_STATUSES)
            && (!out.Cancelled? ==> db2 == db)
  {
    var (db2, out) := CancelSpec(db, number, requester, now, signals);
    var found := FindOwnOrder(db, number, requester);
    if found.Some? {
      forall id | OwnOrder(db, id, number, requester)
        ensures id == found.value
      {
        FindOwnOrderFinds(db, id, number, requester);
      }
    }
  }

  /** The tables after a stored order was saved as `inst` (with the change
      row when `tracked`) and a row was appended to its history. */
  lemma RowAfterStoredSave(db: Db, db1: Db, db2: Db, pk: OrderId, inst: Order, row: HistoryRow,
                           tracked: bool, now: DateTime)
    requires pk in db.orders && pk in db.history
    requires db1.orders == db.orders[pk := inst] && db1.items == db.items
    requires db1.history == (if tracked then db.history[pk := db.history[pk] + [ChangeRow(db.orders[pk].status, inst, now)]]
                             else db.history)
    requires db2 == AppendRow(db1, pk, row)
    ensures db2.orders == db.orders[pk := inst] && db2.items == db.items && db2.products == db1.products
    ensures db2.history == db.history[pk := db.history[pk]
              + (if tracked then [ChangeRow(db.orders[pk].status, inst, now)] else []) + [row]]
  {
    if !tracked {
      assert db.history[pk] + [] == db.history[pk];
    }
  }

  /** A cancellation sets the status to 'cancelled' and touches no other
      order and no item; each product gets back the quantity the order held
      of it, twice when the receivers are connected (the receiver restocks
      too); the history gains the requester's row, after the receiver's
      status-change row when the receivers are connected. */
  lemma CancelEffect(db: Db, number: string, requester: UserId, now: DateTime, signals: bool)
    requires DbValid(db)
    ensures var (db2, out) := CancelSpec(db, number, requester, now, signals);
            out.Cancelled? ==>
              var pk := out.id;
              var o := db.orders[pk];
              && OwnOrder(db, pk, number, requester) && o.status !in TERMINAL_STATUSES
              && db2.orders == db.orders[pk := o.(status := "cancelled")]
              && db2.items == db.items
              && db2.products == (if signals then Restock(Restock(db.products, db.items[pk]), db.items[pk])
                                  else Restock(db.products, db.items[pk]))
              && db2.history == db.history[pk := db.history[pk]
                   + (if signals then [ChangeRow(o.status, o.(status := "cancelled"), now)] else [])
                   + [CancelRow(requester, now)]]
  {
    var found := FindOwnOrder(db, number, requester);
    if found.Some? {
      var pk := found.value;
      var o := db.orders[pk];
      if o.status !in TERMINAL_STATUSES {
        assert o.status != TERMINAL_STATUSES[0];
        var inst := o.(status := "cancelled");
        SaveStoredTables(db, pk, inst, now, signals);
        var db1 := SaveSpec(db, Some(pk), inst, now, signals).0;
        RowAfterStoredSave(db, db1.(products := Restock(db1.products, db1.items[pk])),
                           CancelSpec(db, number, requester, now, signals).0,
                           pk, inst, CancelRow(requester, now), signals, now);
        assert db1.items[pk] == db.items[pk];
      }
    }
  }

  /** A cancellation keeps the tables consistent. */
  lemma CancelKeepsValid(db: Db, number: string, requester: UserId, now: DateTime, signals: bool)
    requires DbValid(db)
    ensures DbValid(CancelSpec(db, number, requester, now, signals).0)
  {
    var found := FindOwnOrder(db, number, requester);
    if found.Some? {
      var pk := found.value;
      var o := db.orders[pk];
      if o.status !in TERMINAL_STATUSES {
        var inst := o.(status := "cancelled");
        SaveEffect(db, Some(pk), inst, now, signals);
        SaveStoredTables(db, pk, inst, now, signals);
        var db1 := SaveSpec(db, Some(pk), inst, now, signals).0;
        var db2 := db1.(products := Restock(db1.products, db1.items[pk]));
        assert DbValid(db2) by {
          assert db2.orders == db1.orders && db2.items == db1.items && db2.history == db1.history;
        }
        AppendKeepsValid(db2, pk, CancelRow(requester, now), []);
      }
    }
  }

  /** The stock after a cancellation: every product gains the quantity the
      cancelled order held of it, once without the receivers and twice with
      them. */
  lemma CancelRestocks(db: Db, number: string, requester: UserId, now: DateTime, signals: bool)
    requires DbValid(db)
    ensures var (db2, out) := CancelSpec(db, number, requester, now, signals);
            out.Cancelled? ==>
              && db2.products.Keys == db.products.Keys
              && forall p :: p in db.products ==>
                   db2.products[p].stock
                     == db.products[p].stock + (if signals then 2 else 1) * QuantityOf(db.items[out.id], p)
  {
    var (db2, out) := CancelSpec(db, number, requester, now, signals);
    CancelEffect(db, number, requester, now, signals);
    if out.Cancelled? {
      if signals {
        RestockTwice(db.products, db.items[out.id]);
      } else {
        RestockEffect(db.products, db.items[out.id]);
      }
    }
  }

  /** The view as it runs. */
  method OrderCancelPost(store: Store, number: string, requester: UserId, now: DateTime, signals: bool)
    returns (out: CancelOutcome)
    requires store.Valid()
    modifies store
    ensures store.Valid()
    ensures (store.State(), out) == CancelSpec(old(store.State()), number, requester, now, signals)
  {
    ghost var db := store.State();
    CancelKeepsValid(db, number, requester, now, signals);
    if !exists id | id in store.orders :: OwnOrder(store.State(), id, number, requester) {
      return CancelNotFound;
    }
    var pk :| pk in store.orders && OwnOrder(store.State(), pk, number, requester);
    FindOwnOrderFinds(db, pk, number, requester);
    var order := store.orders[pk];
    if order.status in TERMINAL_STATUSES {
      return NotCancellable(pk, CANNOT_CANCEL);
    }
    var inst := order.(status := "cancelled");
    SaveStoredTables(db, pk, inst, now, signals);
    var res := SaveOrder(store, Some(pk), inst, now, signals);
    ghost var db1 := store.State();
    RestoreItemStock(store, store.items[pk]);
    assert store.State() == db1.(products := Restock(db1.products, db1.items[pk]));
    store.AddHistory(pk, CancelRow(requester, now));
    out := Cancelled(pk, CANCELLED_MESSAGE);
  }

  // ---------------------------------------------------------------------
  // The staff status update

  const INVALID_STATUS := "Statut invalide"
  const STATUS_UPDATED := "Le statut de la commande a \U{e9}t\U{e9} mis \U{e0} jour: "

  /** The response: not found, the JSON answer of an AJAX request, or the
      redirect to the order's staff page. */
  datatype AdminResponse =
    | AdminForbidden
    | AdminNotFound
    | JsonSuccess(statusDisplay: string, updatedAt: string)
    | JsonFailure(error: string)
    | RedirectToOrder(id: OrderId)

  /** The response and the success message flashed, if any. */
  datatype AdminOutcome = AdminOutcome(response: AdminResponse, message: Option<string>)

  /** `AdminOrderStatusUpdateView.post` for order `pk` with the posted
      `status` (absent when not posted) and `notes` (absent means empty):
      a status among the order statuses, even the current one, is saved and
      recorded in a row attributed to the acting staff member; the 'paid'
      branch stamps `paid_at`; the answer is JSON for an AJAX request and a
      redirect otherwise. Any other status changes nothing. */
  function AdminUpdateSpec(db: Db, pk: OrderId, newStatus: Option<string>, notes: Option<string>,
                           actor: UserId, ajax: bool, now: DateTime, signals: bool): (r: (Db, AdminOutcome))
    requires DbValid(db)
  {
    if pk !in db.orders then (db, AdminOutcome(AdminNotFound, None))
    else if newStatus.Some? && IsOrderStatus(newStatus.value) then
      var s := newStatus.value;
      var o := db.orders[pk].(status := s);
      var inst := if s == "paid" && o.paidAt.None? then o.(paidAt := Some(now)) else o;
      OrderStatusIsNotPaid(s);
      SaveStoredTables(db, pk, inst, now, signals);
      var db1 := SaveSpec(db, Some(pk), inst, now, signals).0;
      var row := HistoryRow(s, Some(if notes.Some? then notes.value else ""), Some(actor), now);
      var shown := Display(STATUS_CHOICES, s);
      (AppendRow(db1, pk, row),
       AdminOutcome(if ajax then JsonSuccess(shown, DayMinute(now)) else RedirectToOrder(pk),
                    Some(STATUS_UPDATED + shown)))
    else (db, AdminOutcome(if ajax then JsonFailure(INVALID_STATUS) else RedirectToOrder(pk), None))
  }

  /** The view behind its access test: `test_func` lets staff members
      through, and a signed-in user who is not staff is refused with 403
      before the order is looked up. */
  function AdminRequestSpec(db: Db, staff: bool, pk: OrderId, newStatus: Option<string>, notes: Option<string>,
                            actor: UserId, ajax: bool, now: DateTime, signals: bool): (Db, AdminOutcome)
    requires DbValid(db)
  {
    if !staff then (db, AdminOutcome(AdminForbidden, None))
    else AdminUpdateSpec(db, pk, newStatus, notes, actor, ajax, now, signals)
  }

  /** A user who is not staff changes nothing, whatever the order and the
      posted status, and gets no message. */
  lemma AdminNonStaffRefused(db: Db, pk: OrderId, newStatus: Option<string>, notes: Option<string>,
                             actor: UserId, ajax: bool, now: DateTime, signals: bool)
    requires DbValid(db)
    ensures AdminRequestSpec(db, false, pk, newStatus, notes, actor, ajax, now, signals)
         == (db, AdminOutcome(AdminForbidden, None))
  {
  }

  /** A missing, or unlisted, status changes nothing and is answered with
      the JSON failure or the redirect. */
  lemma AdminInvalidStatusChangesNothing(db: Db, pk: OrderId, newStatus: Option<string>, notes: Option<string>,
                                         actor: UserId, ajax: bool, now: DateTime, signals: bool)
    requires DbValid(db) && pk in db.orders
    requires newStatus.None? || !IsOrderStatus(newStatus.value)
    ensures var (db2, out) := AdminUpdateSpec(db, pk, newStatus, notes, actor, ajax, now, signals);
            && db2 == db && out.message.None?
            && out.response == (if ajax then JsonFailure(INVALID_STATUS) else RedirectToOrder(pk))
  {
  }

  /** A listed status is stored (nothing else of the order changes, not
      even `paid_at`: 'paid' is not an order status) and the staff row with
      the notes closes the history; with the receivers connected and a
      changed status the receiver's row comes first, and a change to
      'cancelled' restocks through the receiver only. */
  lemma AdminValidStatusEffect(db: Db, pk: OrderId, s: string, notes: Option<string>,
                               actor: UserId, ajax: bool, now: DateTime, signals: bool)
    requires DbValid(db) && pk in db.orders
    requires IsOrderStatus(s)
    ensures var (db2, out) := AdminUpdateSpec(db, pk, Some(s), notes, actor, ajax, now, signals);
            var o := db.orders[pk];
            var tracked := signals && o.status != s;
            && db2.orders == db.orders[pk := o.(status := s)]
            && db2.items == db.items
            && db2.products == (if tracked && s == "cancelled" then Restock(db.products, db.items[pk]) else db.products)
            && db2.history == db.history[pk := db.history[pk]
                 + (if tracked then [ChangeRow(o.status, o.(status := s), now)] else [])
                 + [HistoryRow(s, Some(if notes.Some? then notes.value else ""), Some(actor), now)]]
  {
    OrderStatusIsNotPaid(s);
    var o := db.orders[pk];
    var inst := o.(status := s);
    SaveStoredTables(db, pk, inst, now, signals);
    var db1 := SaveSpec(db, Some(pk), inst, now, signals).0;
    var row := HistoryRow(s, Some(if notes.Some? then notes.value else ""), Some(actor), now);
    RowAfterStoredSave(db, db1, AdminUpdateSpec(db, pk, Some(s), notes, actor, ajax, now, signals).0,
                       pk, inst, row, signals && o.status != s, now);
  }

  /** A listed status is answered with its label and the time of the
      update for an AJAX request, with the redirect otherwise, and the
      label is flashed. */
  lemma AdminValidStatusAnswer(db: Db, pk: OrderId, s: string, notes: Option<string>,
                               actor: UserId, ajax: bool, now: DateTime, signals: bool)
    requires DbValid(db) && pk in db.orders
    requires IsOrderStatus(s)
    ensures var out := AdminUpdateSpec(db, pk, Some(s), notes, actor, ajax, now, signals).1;
            && out.message == Some(STATUS_UPDATED + Display(STATUS_CHOICES, s))
            && out.response == (if ajax then JsonSuccess(Display(STATUS_CHOICES, s), DayMinute(now)) else RedirectToOrder(pk))
  {
  }

  /** The staff update keeps the tables consistent. */
  lemma AdminUpdateKeepsValid(db: Db, pk: OrderId, newStatus: Option<string>, notes: Option<string>,
                              actor: UserId, ajax: bool, now: DateTime, signals: bool)
    requires DbValid(db)
    ensures DbValid(AdminUpdateSpec(db, pk, newStatus, notes, actor, ajax, now, signals).0)
  {
    if pk in db.orders && newStatus.Some? && IsOrderStatus(newStatus.value) {
      var s := newStatus.value;
      OrderStatusIsNotPaid(s);
      var inst := db.orders[pk].(status := s);
      SaveEffect(db, Some(pk), inst, now, signals);
      SaveStoredTables(db, pk, inst, now, signals);
      var db1 := SaveSpec(db, Some(pk), inst, now, signals).0;
      AppendKeepsValid(db1, pk, HistoryRow(s, Some(if notes.Some? then notes.value else ""), Some(actor), now), []);
    }
  }

  /** The view as it runs. */
  method AdminStatusUpdatePost(store: Store, staff: bool, pk: OrderId, newStatus: Option<string>, notes: Option<string>,
                               actor: UserId, ajax: bool, now: DateTime, signals: bool)
    returns (out: AdminOutcome)
    requires store.Valid()
    modifies store
    ensures store.Valid()
    ensures (store.State(), out)
         == AdminRequestSpec(old(store.State()), staff, pk, newStatus, notes, actor, ajax, now, signals)
  {
    if !staff {
      // `test_func` fails: `PermissionDenied`.
      return AdminOutcome(AdminForbidden, None);
    }
    ghost var db := store.State();
    AdminUpdateKeepsValid(db, pk, newStatus, notes, actor, ajax, now, signals);
    if pk !in store.orders {
      return AdminOutcome(AdminNotFound, None);
    }
    var order := store.orders[pk];
    var text := if notes.Some? then notes.value else "";
    if newStatus.Some? && IsOrderStatus(newStatus.value) {
      var s := newStatus.value;
      order := order.(status := s);
      if s == "paid" && order.paidAt.None? {
        order := order.(paidAt := Some(now));
      }
      OrderStatusIsNotPaid(s);
      SaveStoredTables(db, pk, order, now, signals);
      var res := SaveOrder(store, Some(pk), order, now, signals);
      store.AddHistory(pk, HistoryRow(s, Some(text), Some(actor), now));
      var shown := Display(STATUS_CHOICES, s);
      if ajax {
        return AdminOutcome(JsonSuccess(shown, DayMinute(now)), Some(STATUS_UPDATED + shown));
      }
      return AdminOutcome(RedirectToOrder(pk), Some(STATUS_UPDATED + shown));
    }
    if ajax {
      return AdminOutcome(JsonFailure(INVALID_STATUS), None);
    }
    out := AdminOutcome(RedirectToOrder(pk), None);
  }
}
