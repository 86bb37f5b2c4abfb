/** The order signal receivers (orders/signals.py) and `Order.save` with the
    receivers around it. Whether the receivers are connected is decided by
    application configuration outside this code, so every save takes a flag
    `signals` saying whether they run. */
module OrderSignals {
  import opened Common
  import opened UserModels
  import opened OrderModels

  // ---------------------------------------------------------------------
  // Restoring stock

  /** Adds one item's quantity back to its product, when it still has one. */
  function RestoreOne(products: map<ProductId, Product>, item: OrderItem): map<ProductId, Product>
  {
    if item.product.Some? && item.product.value in products then
      var p := item.product.value;
      products[p := products[p].(stock := products[p].stock + item.quantity)]
    else products
  }

  /** Adds every item's quantity back, item after item. */
  function Restock(products: map<ProductId, Product>, items: seq<OrderItem>): map<ProductId, Product>
  {
    if items == [] then products else RestoreOne(Restock(products, items[..|items| - 1]), items[|items| - 1])
  }

  /** The total quantity the items hold of product `p`. */
  function QuantityOf(items: seq<OrderItem>, p: ProductId): nat
  {
    if items == [] then 0
    else QuantityOf(items[..|items| - 1], p)
         + (if items[|items| - 1].product == Some(p) then items[|items| - 1].quantity else 0)
  }

  /** Restocking changes only stock, and each product's stock grows by
      exactly the quantity the items hold of it; items without a product
      change nothing. */
  lemma {:induction false} RestockEffect(products: map<ProductId, Product>, items: seq<OrderItem>)
    ensures Restock(products, items).Keys == products.Keys
    ensures forall p :: p in products ==>
              Restock(products, items)[p] == products[p].(stock := products[p].stock + QuantityOf(items, p))
  {
    if items != [] {
      RestockEffect(products, items[..|items| - 1]);
    }
  }

  /** Restocking the same items twice adds twice their quantities. */
  lemma RestockTwice(products: map<ProductId, Product>, items: seq<OrderItem>)
    ensures Restock(Restock(products, items), items).Keys == products.Keys
    ensures forall p :: p in products ==>
              Restock(Restock(products, items), items)[p]
                == products[p].(stock := products[p].stock + 2 * QuantityOf(items, p))
  {
    RestockEffect(products, items);
    RestockEffect(Restock(products, items), items);
  }

  /** `item.product.stock += item.quantity; item.product.save()` for every
      item of an order, one item at a time. */
  method RestoreItemStock(store: Store, items: seq<OrderItem>)
    modifies store
    ensures store.products == Restock(old(store.products), items)
    ensures store.orders == old(store.orders) && store.items == old(store.items)
    ensures store.history == old(store.history) && store.nextId == old(store.nextId)
  {
    var i := 0;
    while i < |items|
      invariant 0 <= i <= |items|
      invariant store.products == Restock(old(store.products), items[..i])
      invariant store.orders == old(store.orders) && store.items == old(store.items)
      invariant store.history == old(store.history) && store.nextId == old(store.nextId)
    {
      assert items[..i + 1][..i] == items[..i];
      var item := items[i];
      if item.product.Some? && item.product.value in store.products {
        var p := item.product.value;
        store.products := store.products[p := store.products[p].(stock := store.products[p].stock + item.quantity)];
      }
      i := i + 1;
    }
    assert items[..i] == items;
  }

  // ---------------------------------------------------------------------
  // pre_save: track_status_changes

  const CREATED_NOTE := "Commande cr\U{e9}\U{e9}e"

  /** "Statut changé de <old label> à <new label>". */
  function StatusChangeNotes(oldStatus: string, newStatus: string): string
  {
    "Statut chang\U{e9} de " + Display(STATUS_CHOICES, oldStatus) + " \U{e0} " + Display(STATUS_CHOICES, newStatus)
  }

  /** The row `track_status_changes` appends when the status of an order
      moves from `oldStatus` to that of `inst`. */
  function ChangeRow(oldStatus: string, inst: Order, now: DateTime): HistoryRow
  {
    HistoryRow(inst.status, Some(StatusChangeNotes(oldStatus, inst.status)), inst.user, now)
  }

  /** What `track_status_changes` does before an order is written: the new
      database and the instance as it will be written. Without a primary
      key, or when the stored row is missing, or when the status is the
      stored one, nothing happens. Otherwise one row with the new status,
      attributed to the order's owner, is appended to that order's history;
      a change to 'cancelled' restocks the order's items, and a change to
      'paid' stamps `paid_at` when it is unset. */
  function TrackSpec(db: Db, pk: Option<OrderId>, inst: Order, now: DateTime): (Db, Order)
    requires Keyed(db)
  {
    if pk.None? || pk.value !in db.orders then (db, inst)
    else
      var id := pk.value;
      var stored := db.orders[id];
      if stored.status == inst.status then (db, inst)
      else
        var row := ChangeRow(stored.status, inst, now);
        var db1 := db.(history := db.history[id := db.history[id] + [row]]);
        if inst.status == "cancelled" then (db1.(products := Restock(db.products, db.items[id])), inst)
        else if inst.status == "paid" && inst.paidAt.None? then (db1, inst.(paidAt := Some(now)))
        else (db1, inst)
  }

  /** The receiver leaves the orders, the items and the id counter alone
      and keeps every history; it does nothing unless a stored order's
      status changes, and then appends exactly one row for the change and
      restocks exactly on a change to 'cancelled'; the instance comes out
      as it went in, except for `paid_at` on a change to 'paid'. */
  lemma TrackEffect(db: Db, pk: Option<OrderId>, inst: Order, now: DateTime)
    requires Keyed(db)
    ensures var r := TrackSpec(db, pk, inst, now);
            && (forall id :: id in db.history ==> id in r.0.history)
            && r.0.orders == db.orders && r.0.items == db.items && r.0.nextId == db.nextId
            && (pk.None? || pk.value !in db.orders || db.orders[pk.value].status == inst.status ==> r == (db, inst))
            && (pk.Some? && pk.value in db.orders && db.orders[pk.value].status != inst.status ==>
                  && r.0.history == db.history[pk.value := db.history[pk.value]
                       + [ChangeRow(db.orders[pk.value].status, inst, now)]]
                  && r.0.products == (if inst.status == "cancelled" then Restock(db.products, db.items[pk.value]) else db.products))
            && (r.1 == inst || (inst.status == "paid" && inst.paidAt.None? && r.1 == inst.(paidAt := Some(now))))
            && (inst.paidAt.Some? ==> r.1 == inst)
  {
    if pk.Some? && pk.value in db.orders && db.orders[pk.value].status != inst.status {
      var id := pk.value;
      var row := ChangeRow(db.orders[id].status, inst, now);
      var db1 := db.(history := db.history[id := db.history[id] + [row]]);
      var r := TrackSpec(db, pk, inst, now);
      assert r.0 == db1 || r.0 == db1.(products := Restock(db.products, db.items[id]));
    }
  }

  lemma TrackKeepsValid(db: Db, pk: Option<OrderId>, inst: Order, now: DateTime)
    requires DbValid(db)
    ensures DbValid(TrackSpec(db, pk, inst, now).0)
  {
    TrackEffect(db, pk, inst, now);
  }

  /** The 'paid' branch cannot be taken: for an instance whose status is
      one of the order statuses, `paid_at` comes out as it went in. */
  lemma TrackNeverStampsPaidAt(db: Db, pk: Option<OrderId>, inst: Order, now: DateTime)
    requires Keyed(db)
    requires IsOrderStatus(inst.status)
    ensures TrackSpec(db, pk, inst, now).1 == inst
  {
    OrderStatusIsNotPaid(inst.status);
    TrackEffect(db, pk, inst, now);
  }

  /** The receiver itself. */
  method TrackStatusChanges(store: Store, pk: Option<OrderId>, inst: Order, now: DateTime) returns (r: Order)
    requires Keyed(store.State())
    modifies store
    ensures (store.State(), r) == TrackSpec(old(store.State()), pk, inst, now)
  {
    r := inst;
    if pk.Some? && pk.value in store.orders {
      var id := pk.value;
      var stored := store.orders[id];
      if stored.status != inst.status {
        var row := ChangeRow(stored.status, inst, now);
        store.history := store.history[id := store.history[id] + [row]];
        if inst.status == "cancelled" {
          RestoreItemStock(store, store.items[id]);
        } else if inst.status == "paid" && inst.paidAt.None? {
          r := inst.(paidAt := Some(now));
        }
      }
    }
  }

  // ---------------------------------------------------------------------
  // post_save: create_initial_status_history

  /** The row `create_initial_status_history` appends for a new order: its
      status, the creation note, and its owner. */
  function InitialRow(inst: Order, now: DateTime): (row: HistoryRow)
    ensures row.status == inst.status && row.createdBy == inst.user && row.notes == Some(CREATED_NOTE)
  {
    HistoryRow(inst.status, Some(CREATED_NOTE), inst.user, now)
  }

  /** The receiver: only a newly created order gets the row. */
  method CreateInitialStatusHistory(store: Store, id: OrderId, created: bool, inst: Order, now: DateTime)
    requires id in store.history
    modifies store
    ensures store.history == if created then old(store.history)[id := old(store.history)[id] + [InitialRow(inst, now)]]
                             else old(store.history)
    ensures store.orders == old(store.orders) && store.items == old(store.items)
    ensures store.products == old(store.products) && store.nextId == old(store.nextId)
  {
    if created {
      store.history := store.history[id := store.history[id] + [InitialRow(inst, now)]];
    }
  }

  // ---------------------------------------------------------------------
  // Order.save with the receivers around it

  datatype SaveResult = Saved(id: OrderId, order: Order) | IntegrityError

  /** A new order under the next id, with no items and the given history. */
  function InsertOrder(db: Db, o: Order, hist: seq<HistoryRow>): Db
  {
    db.(orders := db.orders[db.nextId := o], items := db.items[db.nextId := []],
        history := db.history[db.nextId := hist], nextId := db.nextId + 1)
  }

  /** Inserting an order whose number is new keeps the tables consistent. */
  lemma InsertKeepsValid(db: Db, o: Order, hist: seq<HistoryRow>)
    requires DbValid(db)
    requires o.orderNumber != "" && !NumberTaken(db.orders, o.orderNumber, None)
    ensures DbValid(InsertOrder(db, o, hist))
  {
    var db2 := InsertOrder(db, o, hist);
    assert Keyed(db2);
    forall a, b | a in db2.orders && b in db2.orders && db2.orders[a].orderNumber == db2.orders[b].orderNumber
      ensures a == b
    {
      if a != db.nextId && b != db.nextId {
        assert db.orders[a].orderNumber == db.orders[b].orderNumber;
      }
    }
  }

  /** Replacing a stored order by one whose number no other order holds
      keeps the tables consistent. */
  lemma UpdateKeepsValid(db: Db, pk: OrderId, o: Order)
    requires DbValid(db) && pk in db.orders
    requires o.orderNumber != "" && !NumberTaken(db.orders, o.orderNumber, Some(pk))
    ensures DbValid(db.(orders := db.orders[pk := o]))
  {
    var db2 := db.(orders := db.orders[pk := o]);
    assert Keyed(db2);
    forall a, b | a in db2.orders && b in db2.orders && db2.orders[a].orderNumber == db2.orders[b].orderNumber
      ensures a == b
    {
      if a != pk && b != pk {
        assert db.orders[a].orderNumber == db.orders[b].orderNumber;
      }
    }
  }

  /** The write `save` ends with: refused when another order already holds
      the number (the unique column); otherwise a new order is inserted
      under the next id, with its initial history row when the receivers
      are connected, or the stored row is replaced. */
  function WriteSpec(db: Db, pk: Option<OrderId>, inst: Order, now: DateTime, signals: bool): (Db, SaveResult)
  {
    if NumberTaken(db.orders, inst.orderNumber, pk) then (db, IntegrityError)
    else if pk.None? then
      (InsertOrder(db, inst, if signals then [InitialRow(inst, now)] else []), Saved(db.nextId, inst))
    else
      (db.(orders := db.orders[pk.value := inst]), Saved(pk.value, inst))
  }

  /** The write keeps the tables consistent; it is refused exactly when
      another order holds the number, and then changes nothing; a new
      order goes under the next id, which no order had; a stored one is
      replaced in place. */
  lemma WriteEffect(db: Db, pk: Option<OrderId>, inst: Order, now: DateTime, signals: bool)
    requires DbValid(db)
    requires pk.Some? ==> pk.value in db.orders
    requires inst.orderNumber != ""
    ensures var r := WriteSpec(db, pk, inst, now, signals);
            && DbValid(r.0)
            && (r.1.IntegrityError? <==> NumberTaken(db.orders, inst.orderNumber, pk))
            && (r.1.IntegrityError? ==> r.0 == db)
            && (r.1.Saved? ==> r.1.order == inst && r.1.id in r.0.orders && r.0.orders[r.1.id] == inst)
            && (r.1.Saved? && pk.Some? ==> r.1.id == pk.value && r.0 == db.(orders := db.orders[pk.value := inst]))
            && (r.1.Saved? && pk.None? ==>
                  && r.1.id == db.nextId && r.1.id !in db.orders
                  && r.0 == InsertOrder(db, inst, if signals then [InitialRow(inst, now)] else []))
  {
    if !NumberTaken(db.orders, inst.orderNumber, pk) {
      if pk.None? {
        InsertKeepsValid(db, inst, if signals then [InitialRow(inst, now)] else []);
      } else {
        UpdateKeepsValid(db, pk.value, inst);
      }
    }
  }

  /** `Order.save`: the number is assigned first; then, when the receivers
      are connected, `track_status_changes` runs; then the row is written.
      A refused write leaves what the receiver did in place. */
  function SaveSpec(db: Db, pk: Option<OrderId>, instance: Order, now: DateTime, signals: bool): (Db, SaveResult)
    requires Keyed(db)
  {
    var inst1 := AssignOrderNumber(instance, now);
    if signals then
      var tr := TrackSpec(db, pk, inst1, now);
      WriteSpec(tr.0, pk, tr.1, now, signals)
    else WriteSpec(db, pk, inst1, now, signals)
  }

  /** Saving keeps the tables consistent; a saved order is stored under
      the id the result names, under its primary key when it had one and
      under the next id, which no order had, when it is new; and it
      carries the number `save` assigned. */
  lemma SaveEffect(db: Db, pk: Option<OrderId>, instance: Order, now: DateTime, signals: bool)
    requires DbValid(db)
    requires pk.Some? ==> pk.value in db.orders
    ensures var r := SaveSpec(db, pk, instance, now, signals);
            && DbValid(r.0)
            && (r.1.Saved? ==> r.1.id in r.0.orders && r.0.orders[r.1.id] == r.1.order)
            && (r.1.Saved? ==> r.1.id in r.0.items && r.1.id in r.0.history)
            && (r.1.Saved? && pk.Some? ==> r.1.id == pk.value)
            && (r.1.Saved? && pk.None? ==> r.1.id == db.nextId && r.1.id !in db.orders)
            && (r.1.Saved? ==> r.1.order.orderNumber == AssignOrderNumber(instance, now).orderNumber)
  {
    var inst1 := AssignOrderNumber(instance, now);
    if signals {
      var tr := TrackSpec(db, pk, inst1, now);
      TrackEffect(db, pk, inst1, now);
      TrackKeepsValid(db, pk, inst1, now);
      WriteEffect(tr.0, pk, tr.1, now, signals);
    } else {
      WriteEffect(db, pk, inst1, now, signals);
    }
  }

  /** Saving a new order: refused exactly when its number is already
      taken, and then nothing changes; otherwise it is inserted under the
      next id, with the initial history row when the receivers are
      connected, and every existing order, item list, history and the stock
      stay as they were. */
  lemma SaveNewOrder(db: Db, instance: Order, now: DateTime, signals: bool)
    requires DbValid(db)
    ensures var (db2, res) := SaveSpec(db, None, instance, now, signals);
            var o := AssignOrderNumber(instance, now);
            && (res.IntegrityError? <==> NumberTaken(db.orders, o.orderNumber, None))
            && (res.IntegrityError? ==> db2 == db)
            && (res.Saved? ==>
                  && res.id == db.nextId && res.order == o
                  && db2 == InsertOrder(db, o, if signals then [InitialRow(o, now)] else []))
  {
    var inst1 := AssignOrderNumber(instance, now);
    if signals {
      TrackEffect(db, None, inst1, now);
    }
    WriteEffect(db, None, inst1, now, signals);
  }

  /** Saving a stored order under its own number always succeeds. */
  lemma SaveStoredOrder(db: Db, pk: OrderId, instance: Order, now: DateTime, signals: bool)
    requires DbValid(db) && pk in db.orders
    requires instance.orderNumber == db.orders[pk].orderNumber
    ensures var (db2, res) := SaveSpec(db, Some(pk), instance, now, signals);
            var (db1, inst) := if signals then TrackSpec(db, Some(pk), instance, now) else (db, instance);
            && res == Saved(pk, inst)
            && db2 == db1.(orders := db1.orders[pk := inst])
  {
    var (db1, inst) := if signals then TrackSpec(db, Some(pk), instance, now) else (db, instance);
    TrackEffect(db, Some(pk), instance, now);
    assert AssignOrderNumber(instance, now) == instance;
    assert db1.orders == db.orders && inst.orderNumber == instance.orderNumber;
    assert forall id :: id in db1.orders && db1.orders[id].orderNumber == inst.orderNumber ==> id == pk;
  }

  /** Saving a stored order under its own number, with a status other
      than 'paid' or a `paid_at` already set: it is stored as given, the
      items stay, and only when the receivers are connected and the status
      changes does its history gain the change row, and the stock is
      restocked when the change is to 'cancelled'. */
  lemma SaveStoredTables(db: Db, pk: OrderId, inst: Order, now: DateTime, signals: bool)
    requires DbValid(db) && pk in db.orders
    requires inst.orderNumber == db.orders[pk].orderNumber
    requires inst.status != "paid" || inst.paidAt.Some?
    ensures var (db1, res) := SaveSpec(db, Some(pk), inst, now, signals);
            var tracked := signals && db.orders[pk].status != inst.status;
            && res == Saved(pk, inst)
            && db1.orders == db.orders[pk := inst]
            && db1.items == db.items
            && db1.nextId == db.nextId
            && db1.products == (if tracked && inst.status == "cancelled" then Restock(db.products, db.items[pk]) else db.products)
            && db1.history == (if tracked then db.history[pk := db.history[pk] + [ChangeRow(db.orders[pk].status, inst, now)]]
                               else db.history)
  {
    SaveStoredOrder(db, pk, inst, now, signals);
    TrackEffect(db, Some(pk), inst, now);
  }

  /** The write step of `save`. */
  method WriteOrder(store: Store, pk: Option<OrderId>, inst: Order, now: DateTime, signals: bool)
    returns (res: SaveResult)
    requires store.Valid()
    requires pk.Some? ==> pk.value in store.orders
    requires inst.orderNumber != ""
    modifies store
    ensures (store.State(), res) == WriteSpec(old(store.State()), pk, inst, now, signals)
  {
    ghost var db := store.State();
    if exists id :: id in store.orders && store.orders[id].orderNumber == inst.orderNumber && Some(id) != pk {
      res := IntegrityError;
      return;
    }
    var hist := if signals then [InitialRow(inst, now)] else [];
    if pk.None? {
      var id := store.nextId;
      store.orders := store.orders[id := inst];
      store.items := store.items[id := []];
      store.history := store.history[id := []];
      store.nextId := id + 1;
      CreateInitialStatusHistory(store, id, signals, inst, now);
      assert [] + [InitialRow(inst, now)] == [InitialRow(inst, now)];
      assert store.history == db.history[id := hist];
      assert store.State() == InsertOrder(db, inst, hist);
      res := Saved(id, inst);
    } else {
      store.orders := store.orders[pk.value := inst];
      res := Saved(pk.value, inst);
    }
  }

  /** `save` as it runs. */
  method SaveOrder(store: Store, pk: Option<OrderId>, instance: Order, now: DateTime, signals: bool)
    returns (res: SaveResult)
    requires store.Valid()
    requires pk.Some? ==> pk.value in store.orders
    modifies store
    ensures store.Valid()
    ensures (store.State(), res) == SaveSpec(old(store.State()), pk, instance, now, signals)
  {
    SaveEffect(store.State(), pk, instance, now, signals);
    var inst := AssignOrderNumber(instance, now);
    if signals {
      TrackEffect(store.State(), pk, inst, now);
      TrackKeepsValid(store.State(), pk, inst, now);
      inst := TrackStatusChanges(store, pk, inst, now);
    }
    res := WriteOrder(store, pk, inst, now, signals);
  }
}
