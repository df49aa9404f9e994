/*
 * models/inventory/inventory.model.js and services/InventoryService.js: the
 * stock counters of one inventory document, its movement log and stock
 * alerts, and the service's create / update / delete / read guards over the
 * collection with their (product, warehouse) uniqueness check and the query
 * dispatch of getAllInventoryItems.
 */
module Inventory {
  import opened Common

  const DEFAULT_LOW: int := 10
  const DEFAULT_CRITICAL: int := 5
  const DEFAULT_REORDER: int := 20

  const MSG_PRODUCT_NOT_FOUND: string := "Product not found"
  const MSG_WAREHOUSE_NOT_FOUND: string := "Warehouse not found"
  const MSG_ITEM_EXISTS: string := "Inventory item already exists for this product in the warehouse"
  const MSG_ITEM_NOT_FOUND: string := "Inventory item not found"
  const MSG_VALIDATION: string := "Inventory validation failed"
  const MSG_DELETED: string := "Inventory item deleted successfully"
  /** The repository has update and delete but no findByIdAndUpdate, findByIdAndDelete or searchInventory. */
  const MSG_NO_FIND_BY_ID_AND_UPDATE: string := "this.inventoryRepository.findByIdAndUpdate is not a function"
  const MSG_NO_FIND_BY_ID_AND_DELETE: string := "this.inventoryRepository.findByIdAndDelete is not a function"
  const MSG_NO_SEARCH: string := "this.inventoryRepository.searchInventory is not a function"

  datatype MovementType = In | Out | Adjustment | Transfer | Return

  datatype Movement = Movement(kind: MovementType, quantity: int, reason: string, user: string, timestamp: int)

  datatype AlertKind = LowStock | CriticalStock | Expired | ExpiringSoon

  datatype Alert = Alert(kind: AlertKind, message: string, acknowledged: bool, createdAt: int)

  datatype Stock = Stock(quantity: int, reserved: int, committed: int, available: int)

  datatype Thresholds = Thresholds(low: int, critical: int, reorder: int)

  /** The availableStock virtual: no lower clamp. */
  function Available(s: Stock): int
  {
    s.quantity - s.reserved - s.committed
  }

  /** The quantity after a movement of the given type. */
  function Moved(quantity: int, kind: MovementType, amount: int): (q: int)
    ensures kind == In ==> q == quantity + amount
    ensures kind == Out ==> q >= 0 && (quantity >= amount ==> q == quantity - amount) && (quantity < amount ==> q == 0)
    ensures kind == Adjustment ==> q >= 0 && (amount >= 0 ==> q == amount)
    ensures kind == Transfer || kind == Return ==> q == quantity
  {
    match kind
    case In => quantity + amount
    case Out => if quantity - amount > 0 then quantity - amount else 0
    case Adjustment => if amount > 0 then amount else 0
    case Transfer => quantity
    case Return => quantity
  }

  /** Receiving n units and then shipping them leaves a non-negative quantity as it was. */
  lemma InThenOutRestores(quantity: int, n: int)
    requires quantity >= 0
    ensures Moved(Moved(quantity, In, n), Out, n) == quantity
  {
  }

  /** An adjustment forgets the previous quantity. */
  lemma AdjustmentOverrides(q1: int, q2: int, amount: int)
    ensures Moved(q1, Adjustment, amount) == Moved(q2, Adjustment, amount)
  {
  }

  predicate IsStockAlert(a: Alert)
  {
    a.kind == LowStock || a.kind == CriticalStock
  }

  predicate NotStockAlert(a: Alert)
  {
    !IsStockAlert(a)
  }

  /** The stock alert checkStockAlerts adds for this available quantity, if any. */
  function StockAlertFor(available: int, t: Thresholds, now: int): (r: seq<Alert>)
    ensures |r| <= 1
    ensures forall a :: a in r ==> IsStockAlert(a) && !a.acknowledged && a.createdAt == now
    ensures |r| == 1 ==> (r[0].kind == CriticalStock <==> available <= t.critical)
    ensures |r| == 0 <==> available > t.critical && available > t.low
  {
    if available <= t.critical then
      [Alert(CriticalStock, "Critical stock level: " + IntToString(available) + " units remaining", false, now)]
    else if available <= t.low then
      [Alert(LowStock, "Low stock level: " + IntToString(available) + " units remaining", false, now)]
    else []
  }

  /** checkStockAlerts: drop every low- and critical-stock alert, keep the rest in order, add the current one. */
  function AlertsAfter(alerts: seq<Alert>, available: int, t: Thresholds, now: int): seq<Alert>
  {
    Filter(alerts, NotStockAlert) + StockAlertFor(available, t, now)
  }

  function StockAlertCount(alerts: seq<Alert>): nat
  {
    Count(alerts, IsStockAlert)
  }

  lemma {:induction false} FilterDropsStockAlerts(alerts: seq<Alert>)
    ensures StockAlertCount(Filter(alerts, NotStockAlert)) == 0
  {
    if alerts != [] {
      var init := alerts[..|alerts| - 1];
      FilterDropsStockAlerts(init);
      var last := alerts[|alerts| - 1];
      var kept := if NotStockAlert(last) then [last] else [];
      CountAppend(Filter(init, NotStockAlert), kept, IsStockAlert);
    }
  }

  /**
   * After the check, every other alert is kept and exactly one stock alert
   * remains when the available quantity is at or under a threshold, none
   * otherwise; it is critical exactly when at or under the critical threshold.
   */
  lemma AlertsAfterShape(alerts: seq<Alert>, available: int, t: Thresholds, now: int)
    ensures var r := AlertsAfter(alerts, available, t, now);
            (forall a :: a in alerts && !IsStockAlert(a) ==> a in r) &&
            StockAlertCount(r) == (if available <= t.critical || available <= t.low then 1 else 0) &&
            (forall a :: a in r && IsStockAlert(a) ==> (a.kind == CriticalStock <==> available <= t.critical))
  {
    var kept := Filter(alerts, NotStockAlert);
    var added := StockAlertFor(available, t, now);
    FilterDropsStockAlerts(alerts);
    CountAppend(kept, added, IsStockAlert);
    if added != [] {
      assert added[..0] == [];
    }
  }

  /** Running the check twice at one instant gives what running it once gives. */
  lemma AlertsAfterIdempotent(alerts: seq<Alert>, available: int, t: Thresholds, now: int)
    ensures AlertsAfter(AlertsAfter(alerts, available, t, now), available, t, now) == AlertsAfter(alerts, available, t, now)
  {
    var kept := Filter(alerts, NotStockAlert);
    var added := StockAlertFor(available, t, now);
    FilterAppend(kept, added, NotStockAlert);
    FilterOfFiltered(alerts, NotStockAlert);
    assert Filter(added, NotStockAlert) == [] by {
      if added != [] {
        assert added[..0] == [];
      }
    }
    assert kept + [] == kept;
  }

  /** The schema's minimums that save() enforces on the stock and thresholds. */
  predicate SaveValid(s: Stock, t: Thresholds)
  {
    s.quantity >= 0 && s.reserved >= 0 && s.committed >= 0 && s.available >= 0 &&
    t.low >= 0 && t.critical >= 0 && t.reorder >= 0
  }

  /** One inventory document: its counters, thresholds, movement log and alerts. */
  class InventoryDoc {
    var stock: Stock
    var thresholds: Thresholds
    var movements: seq<Movement>
    var alerts: seq<Alert>

    /** A new document with the schema defaults. */
    constructor ()
      ensures stock == Stock(0, 0, 0, 0) && thresholds == Thresholds(DEFAULT_LOW, DEFAULT_CRITICAL, DEFAULT_REORDER)
      ensures movements == [] && alerts == []
    {
      stock := Stock(0, 0, 0, 0);
      thresholds := Thresholds(DEFAULT_LOW, DEFAULT_CRITICAL, DEFAULT_REORDER);
      movements := [];
      alerts := [];
    }

    function AvailableStock(): int
      reads this
    {
      Available(stock)
    }

    method CheckStockAlerts(now: int)
      modifies this
      ensures alerts == AlertsAfter(old(alerts), AvailableStock(), thresholds, now)
      ensures stock == old(stock) && thresholds == old(thresholds) && movements == old(movements)
    {
      var availableStock := AvailableStock();
      alerts := Filter(alerts, NotStockAlert);
      alerts := alerts + StockAlertFor(availableStock, thresholds, now);
    }

    /**
     * updateStock: log the movement, apply it, refresh stock.available, check
     * the alerts, and save; `saved` is false when the schema minimums refuse
     * the save (the in-memory document has changed either way).
     */
    method UpdateStock(quantity: int, kind: MovementType, reason: string, user: string, now: int) returns (saved: bool)
      modifies this
      ensures movements == old(movements) + [Movement(kind, quantity, reason, user, now)]
      ensures stock.quantity == Moved(old(stock.quantity), kind, quantity)
      ensures stock.reserved == old(stock.reserved) && stock.committed == old(stock.committed)
      ensures stock.available == AvailableStock()
      ensures alerts == AlertsAfter(old(alerts), AvailableStock(), thresholds, now)
      ensures thresholds == old(thresholds)
      ensures saved <==> SaveValid(stock, thresholds)
    {
      movements := movements + [Movement(kind, quantity, reason, user, now)];
      var q := stock.quantity;
      if kind == In {
        q := q + quantity;
      } else if kind == Out {
        q := if 0 > q - quantity then 0 else q - quantity;
      } else if kind == Adjustment {
        q := if 0 > quantity then 0 else quantity;
      }
      stock := stock.(quantity := q);
      stock := stock.(available := AvailableStock());
      CheckStockAlerts(now);
      saved := SaveValid(stock, thresholds);
    }
  }

  // ---- InventoryService over the collection ----

  datatype Status = Active | Inactive | Discontinued

  datatype Location = Location(aisle: Option<string>, rack: Option<string>, shelf: Option<string>, bin: Option<string>)

  /** A stored inventory item, restricted to the fields the service reads or writes. */
  datatype Item = Item(
    id: string,
    product: string,
    warehouse: string,
    status: Status,
    quantity: int,
    batchNumber: Option<string>,
    expiryDate: Option<int>,
    location: Location,
    createdBy: Option<string>,
    updatedBy: Option<string>)

  /** The fields an update may carry. */
  datatype ItemPatch = ItemPatch(product: Option<string>, warehouse: Option<string>, status: Option<Status>)

  datatype Outcome<T> = Outcome(result: Result<T>, items: seq<Item>)

  function IndexOfItem(items: seq<Item>, id: string): (i: int)
    ensures -1 <= i < |items|
    ensures 0 <= i ==> items[i].id == id
    ensures i < 0 ==> forall k :: 0 <= k < |items| ==> items[k].id != id
  {
    if items == [] then -1
    else if items[0].id == id then 0
    else
      var k := IndexOfItem(items[1..], id);
      if k < 0 then -1 else k + 1
  }

  /** findByProductAndWarehouse: the first item with that pair. */
  function IndexOfPair(items: seq<Item>, product: string, warehouse: string): (i: int)
    ensures -1 <= i < |items|
    ensures 0 <= i ==> items[i].product == product && items[i].warehouse == warehouse
    ensures i < 0 ==> forall k :: 0 <= k < |items| ==> !(items[k].product == product && items[k].warehouse == warehouse)
  {
    if items == [] then -1
    else if items[0].product == product && items[0].warehouse == warehouse then 0
    else
      var k := IndexOfPair(items[1..], product, warehouse);
      if k < 0 then -1 else k + 1
  }

  predicate UniqueIds(items: seq<Item>)
  {
    forall i, j :: 0 <= i < j < |items| ==> items[i].id != items[j].id
  }

  /** No two items share a (product, warehouse) pair. */
  predicate UniquePairs(items: seq<Item>)
  {
    forall i, j :: 0 <= i < j < |items| ==>
      !(items[i].product == items[j].product && items[i].warehouse == items[j].warehouse)
  }

  /** createInventoryItem. */
  function CreateSpec(items: seq<Item>, products: set<string>, warehouses: set<string>, item: Item, userId: string)
    : Outcome<Item>
  {
    if item.product !in products then Outcome(Fail(AppError(404, MSG_PRODUCT_NOT_FOUND)), items)
    else if item.warehouse !in warehouses then Outcome(Fail(AppError(404, MSG_WAREHOUSE_NOT_FOUND)), items)
    else if IndexOfPair(items, item.product, item.warehouse) >= 0 then Outcome(Fail(AppError(400, MSG_ITEM_EXISTS)), items)
    else
      var created := item.(createdBy := Some(userId));
      Outcome(Ok(created), items + [created])
  }

  /** The patched fields override the stored ones, and updatedBy is stamped. */
  function ApplyItemPatch(it: Item, p: ItemPatch, userId: string): (r: Item)
    ensures r.id == it.id
  {
    it.(product := if p.product.Some? then p.product.value else it.product,
        warehouse := if p.warehouse.Some? then p.warehouse.value else it.warehouse,
        status := if p.status.Some? then p.status.value else it.status,
        updatedBy := Some(userId))
  }

  /** updateInventoryItem: the pair is re-checked only when product or warehouse changes. */
  function UpdateSpec(items: seq<Item>, id: string, p: ItemPatch, userId: string): Outcome<Item>
  {
    var i := IndexOfItem(items, id);
    if i < 0 then Outcome(Fail(AppError(404, MSG_ITEM_NOT_FOUND)), items)
    else
      var it := items[i];
      var changes := (Truthy(p.product) && p.product.value != it.product) ||
                     (Truthy(p.warehouse) && p.warehouse.value != it.warehouse);
      var product := if Truthy(p.product) then p.product.value else it.product;
      var warehouse := if Truthy(p.warehouse) then p.warehouse.value else it.warehouse;
      var k := IndexOfPair(items, product, warehouse);
      if changes && k >= 0 && items[k].id != id then Outcome(Fail(AppError(400, MSG_ITEM_EXISTS)), items)
      else
        var updated := ApplyItemPatch(it, p, userId);
        Outcome(Ok(updated), items[i := updated])
  }

  /** A created item records its creator and is appended; the three guards come in order. */
  lemma CreateGuardsInOrder(items: seq<Item>, products: set<string>, warehouses: set<string>, item: Item, userId: string)
    ensures var out := CreateSpec(items, products, warehouses, item, userId);
            (item.product !in products ==> out.result == Fail(AppError(404, MSG_PRODUCT_NOT_FOUND))) &&
            (item.product in products && item.warehouse !in warehouses ==>
               out.result == Fail(AppError(404, MSG_WAREHOUSE_NOT_FOUND))) &&
            (out.result.Ok? ==> out.result.value.createdBy == Some(userId) && out.items == items + [out.result.value])
  {
  }

  /** Creation keeps (product, warehouse) pairs unique. */
  lemma CreateKeepsPairsUnique(items: seq<Item>, products: set<string>, warehouses: set<string>, item: Item, userId: string)
    requires UniquePairs(items)
    ensures UniquePairs(CreateSpec(items, products, warehouses, item, userId).items)
  {
  }

  /** An update that leaves product and warehouse as they are never reports a duplicate pair. */
  lemma UpdateWithoutMoveNeverDuplicate(items: seq<Item>, id: string, status: Option<Status>, userId: string)
    ensures UpdateSpec(items, id, ItemPatch(None, None, status), userId).result.Ok? <==> IndexOfItem(items, id) >= 0
  {
  }

  /** When pairs are unique, an accepted update keeps them unique (the item itself is ignored). */
  lemma UpdateKeepsPairsUnique(items: seq<Item>, id: string, p: ItemPatch, userId: string)
    requires UniquePairs(items) && UniqueIds(items)
    requires p.product.Some? ==> p.product.value != ""
    requires p.warehouse.Some? ==> p.warehouse.value != ""
    ensures UniquePairs(UpdateSpec(items, id, p, userId).items)
  {
    var i := IndexOfItem(items, id);
    if i >= 0 {
      var it := items[i];
      var updated := ApplyItemPatch(it, p, userId);
      var out := UpdateSpec(items, id, p, userId);
      if out.result.Ok? {
        forall a, b | 0 <= a < b < |out.items|
          ensures !(out.items[a].product == out.items[b].product && out.items[a].warehouse == out.items[b].warehouse)
        {
          if a == i || b == i {
            var other := if a == i then b else a;
            if items[other].product == updated.product && items[other].warehouse == updated.warehouse {
              assert false;
            }
          }
        }
      }
    }
  }

  /** deleteInventoryItem through the repository's delete: 404 for an unknown id, else that record goes. */
  function DeleteSpec(items: seq<Item>, id: string): Outcome<string>
  {
    var i := IndexOfItem(items, id);
    if i < 0 then Outcome(Fail(AppError(404, MSG_ITEM_NOT_FOUND)), items)
    else Outcome(Ok(MSG_DELETED), items[..i] + items[i + 1..])
  }

  /** updateInventoryItem as written: the guards, then a call the repository does not define. */
  function UpdateAsWritten(items: seq<Item>, id: string, p: ItemPatch, userId: string): Outcome<Item>
  {
    var out := UpdateSpec(items, id, p, userId);
    if out.result.Fail? then out else Outcome(Fail(Thrown(MSG_NO_FIND_BY_ID_AND_UPDATE)), items)
  }

  /** deleteInventoryItem as written. */
  function DeleteAsWritten(items: seq<Item>, id: string): Outcome<string>
  {
    if IndexOfItem(items, id) < 0 then Outcome(Fail(AppError(404, MSG_ITEM_NOT_FOUND)), items)
    else Outcome(Fail(Thrown(MSG_NO_FIND_BY_ID_AND_DELETE)), items)
  }

  /**
   * As written, no update and no delete ever reaches the collection: every
   * call that passes the guards throws, so a stored item can be changed only
   * through updateStock and updateStatus. The corrected operations apply
   * exactly where the as-written ones throw.
   */
  lemma UpdateDeleteNeverApplyAsWritten(items: seq<Item>, id: string, p: ItemPatch, userId: string)
    ensures UpdateAsWritten(items, id, p, userId).items == items && UpdateAsWritten(items, id, p, userId).result.Fail?
    ensures UpdateSpec(items, id, p, userId).result.Ok? <==>
            UpdateAsWritten(items, id, p, userId).result == Fail(Thrown(MSG_NO_FIND_BY_ID_AND_UPDATE))
    ensures DeleteAsWritten(items, id).items == items && DeleteAsWritten(items, id).result.Fail?
    ensures DeleteSpec(items, id).result.Ok? <==>
            DeleteAsWritten(items, id).result == Fail(Thrown(MSG_NO_FIND_BY_ID_AND_DELETE))
  {
  }

  /** Corrected delete: the record with the id is gone and every other record stays, in order. */
  lemma DeleteRemovesOnlyThatItem(items: seq<Item>, id: string)
    requires UniqueIds(items) && IndexOfItem(items, id) >= 0
    ensures var out := DeleteSpec(items, id);
            |out.items| == |items| - 1 && UniqueIds(out.items) &&
            (forall x :: x in out.items <==> x in items && x.id != id)
  {
    var i := IndexOfItem(items, id);
    assert DeleteSpec(items, id).items == items[..i] + items[i + 1..];
    CutItem(items, i, DeleteSpec(items, id).items);
    CutItemUnique(items, i, DeleteSpec(items, id).items);
  }

  /** Cutting one item out of a list with unique ids leaves exactly the items with other ids. */
  lemma CutItem(items: seq<Item>, i: int, after: seq<Item>)
    requires UniqueIds(items) && 0 <= i < |items|
    requires after == items[..i] + items[i + 1..]
    ensures |after| == |items| - 1
    ensures forall x :: x in after <==> x in items && x.id != items[i].id
  {
    forall x | x in after ensures x in items && x.id != items[i].id {
      var k :| 0 <= k < |after| && after[k] == x;
      if k < i { assert after[k] == items[k]; } else { assert after[k] == items[k + 1]; }
    }
    forall x | x in items && x.id != items[i].id ensures x in after {
      var k :| 0 <= k < |items| && items[k] == x;
      if k < i { assert after[k] == x; } else { assert after[k - 1] == x; }
    }
  }

  lemma CutItemUnique(items: seq<Item>, i: int, after: seq<Item>)
    requires UniqueIds(items) && 0 <= i < |items|
    requires after == items[..i] + items[i + 1..]
    ensures UniqueIds(after)
  {
    forall a, b | 0 <= a < b < |after| ensures after[a].id != after[b].id {
      var a' := if a < i then a else a + 1;
      var b' := if b < i then b else b + 1;
      assert after[a] == items[a'] && after[b] == items[b'];
    }
  }

  /** The query parameters of getAllInventoryItems; a present value is a non-empty string. */
  datatype Query = Query(status: Option<string>, search: Option<string>, batchNumber: Option<string>,
                         expiryStart: Option<int>, expiryEnd: Option<int>)

  /** The repository call a query selects. */
  datatype Lookup = BySearch(text: string) | ByStatus(status: string) | ByBatch(batch: string)
                  | ByExpiry(start: int, end: int) | All

  /** getAllInventoryItems: search, then status, then batchNumber, then a complete expiry range, else all. */
  function Dispatch(q: Query): (l: Lookup)
    ensures Truthy(q.search) ==> l == BySearch(q.search.value)
    ensures !Truthy(q.search) && Truthy(q.status) ==> l == ByStatus(q.status.value)
    ensures l.ByExpiry? ==> q.expiryStart.Some? && q.expiryEnd.Some?
    ensures l == All <==> !Truthy(q.search) && !Truthy(q.status) && !Truthy(q.batchNumber) &&
                          (q.expiryStart.None? || q.expiryEnd.None?)
  {
    if Truthy(q.search) then BySearch(q.search.value)
    else if Truthy(q.status) then ByStatus(q.status.value)
    else if Truthy(q.batchNumber) then ByBatch(q.batchNumber.value)
    else if q.expiryStart.Some? && q.expiryEnd.Some? then ByExpiry(q.expiryStart.value, q.expiryEnd.value)
    else All
  }

  /** Half an expiry range is ignored: the query falls through to all items. */
  lemma HalfRangeIgnored(start: int)
    ensures Dispatch(Query(None, None, None, Some(start), None)) == All
  {
  }

  function StatusName(s: Status): string
  {
    match s
    case Active => "active"
    case Inactive => "inactive"
    case Discontinued => "discontinued"
  }

  /** Whether a lookup keeps an item; `matchesSearch` is the text search. */
  predicate Selects(l: Lookup, x: Item, matchesSearch: (Item, string) -> bool)
  {
    match l
    case BySearch(text) => matchesSearch(x, text)
    case ByStatus(s) => StatusName(x.status) == s
    case ByBatch(b) => x.batchNumber == Some(b)
    case ByExpiry(start, end) => x.expiryDate.Some? && start <= x.expiryDate.value <= end
    case All => true
  }

  /** The items a lookup returns, in stored order. */
  function Run(items: seq<Item>, l: Lookup, matchesSearch: (Item, string) -> bool): (r: seq<Item>)
    ensures forall x :: x in r <==> x in items && Selects(l, x, matchesSearch)
    ensures l == All ==> r == items
  {
    if items == [] then []
    else
      var init := Run(items[..|items| - 1], l, matchesSearch);
      var x := items[|items| - 1];
      assert items == items[..|items| - 1] + [x];
      init + (if Selects(l, x, matchesSearch) then [x] else [])
  }

  /** Only a search lookup depends on the text search. */
  lemma {:induction false} RunWithoutSearch(items: seq<Item>, l: Lookup, f: (Item, string) -> bool, g: (Item, string) -> bool)
    requires !l.BySearch?
    ensures Run(items, l, f) == Run(items, l, g)
  {
    if items != [] {
      RunWithoutSearch(items[..|items| - 1], l, f, g);
    }
  }

  /**
   * getAllInventoryItems as written: InventoryRepository defines no
   * searchInventory, so a query with a search text throws a TypeError; every
   * other lookup runs.
   */
  function GetAllAsWritten(items: seq<Item>, q: Query): Result<seq<Item>>
  {
    var l := Dispatch(q);
    if l.BySearch? then Fail(Thrown(MSG_NO_SEARCH))
    else Ok(Run(items, l, (x: Item, text: string) => false))
  }

  /**
   * As written, every query with a search text fails, and every other query
   * returns what the lookup with a working text search returns.
   */
  lemma SearchAsWrittenThrows(items: seq<Item>, q: Query, matchesSearch: (Item, string) -> bool)
    ensures GetAllAsWritten(items, q).Fail? <==> Truthy(q.search)
    ensures Truthy(q.search) ==> GetAllAsWritten(items, q) == Fail(Thrown(MSG_NO_SEARCH))
    ensures !Truthy(q.search) ==> GetAllAsWritten(items, q) == Ok(Run(items, Dispatch(q), matchesSearch))
  {
    if !Truthy(q.search) {
      RunWithoutSearch(items, Dispatch(q), (x: Item, text: string) => false, matchesSearch);
    }
  }

  class InventoryService {
    var items: seq<Item>
    var products: set<string>
    var warehouses: set<string>

    predicate Valid()
      reads this
    {
      UniqueIds(items)
    }

    constructor (products: set<string>, warehouses: set<string>)
      ensures Valid() && items == [] && this.products == products && this.warehouses == warehouses
    {
      items := [];
      this.products := products;
      this.warehouses := warehouses;
    }

    method CreateInventoryItem(item: Item, userId: string) returns (r: Result<Item>)
      requires Valid() && IndexOfItem(items, item.id) < 0
      modifies this
      ensures Valid() && products == old(products) && warehouses == old(warehouses)
      ensures Outcome(r, items) == CreateSpec(old(items), products, warehouses, item, userId)
    {
      if item.product !in products {
        return Fail(AppError(404, MSG_PRODUCT_NOT_FOUND));
      }
      if item.warehouse !in warehouses {
        return Fail(AppError(404, MSG_WAREHOUSE_NOT_FOUND));
      }
      if IndexOfPair(items, item.product, item.warehouse) >= 0 {
        return Fail(AppError(400, MSG_ITEM_EXISTS));
      }
      var created := item.(createdBy := Some(userId));
      items := items + [created];
      r := Ok(created);
    }

    method UpdateInventoryItem(id: string, p: ItemPatch, userId: string) returns (r: Result<Item>)
      requires Valid()
      modifies this
      ensures Valid() && products == old(products) && warehouses == old(warehouses)
      ensures Outcome(r, items) == UpdateSpec(old(items), id, p, userId)
    {
      var i := IndexOfItem(items, id);
      if i < 0 {
        return Fail(AppError(404, MSG_ITEM_NOT_FOUND));
      }
      var it := items[i];
      if (Truthy(p.product) && p.product.value != it.product) || (Truthy(p.warehouse) && p.warehouse.value != it.warehouse) {
        var product := if Truthy(p.product) then p.product.value else it.product;
        var warehouse := if Truthy(p.warehouse) then p.warehouse.value else it.warehouse;
        var k := IndexOfPair(items, product, warehouse);
        if k >= 0 && items[k].id != id {
          return Fail(AppError(400, MSG_ITEM_EXISTS));
        }
      }
      var updated := ApplyItemPatch(it, p, userId);
      items := items[i := updated];
      r := Ok(updated);
    }

    method DeleteInventoryItem(id: string) returns (r: Result<string>)
      requires Valid()
      modifies this
      ensures Valid() && products == old(products) && warehouses == old(warehouses)
      ensures Outcome(r, items) == DeleteSpec(old(items), id)
    {
      var i := IndexOfItem(items, id);
      if i < 0 {
        return Fail(AppError(404, MSG_ITEM_NOT_FOUND));
      }
      ghost var before := items;
      items := items[..i] + items[i + 1..];
      assert forall k :: 0 <= k < |items| ==> items[k] == (if k < i then before[k] else before[k + 1]);
      r := Ok(MSG_DELETED);
    }

    method GetInventoryItem(id: string) returns (r: Result<Item>)
      ensures r.Ok? <==> exists k :: 0 <= k < |items| && items[k].id == id
      ensures r.Ok? ==> r.value in items && r.value.id == id
      ensures r.Fail? ==> r == Fail(AppError(404, MSG_ITEM_NOT_FOUND))
    {
      var i := IndexOfItem(items, id);
      if i < 0 {
        return Fail(AppError(404, MSG_ITEM_NOT_FOUND));
      }
      r := Ok(items[i]);
    }

    /** updateStock: 404 guard, then the repository writes quantity and updatedBy. */
    method UpdateStock(id: string, quantity: int, userId: string) returns (r: Result<Item>)
      requires Valid()
      modifies this
      ensures Valid() && products == old(products) && warehouses == old(warehouses)
      ensures IndexOfItem(old(items), id) < 0 ==> r == Fail(AppError(404, MSG_ITEM_NOT_FOUND)) && items == old(items)
      ensures IndexOfItem(old(items), id) >= 0 ==>
                var i := IndexOfItem(old(items), id);
                var u := old(items)[i].(quantity := quantity, updatedBy := Some(userId));
                r == Ok(u) && items == old(items)[i := u]
    {
      var i := IndexOfItem(items, id);
      if i < 0 {
        return Fail(AppError(404, MSG_ITEM_NOT_FOUND));
      }
      var u := items[i].(quantity := quantity, updatedBy := Some(userId));
      items := items[i := u];
      r := Ok(u);
    }

    method UpdateStatus(id: string, status: Status, userId: string) returns (r: Result<Item>)
      requires Valid()
      modifies this
      ensures Valid() && products == old(products) && warehouses == old(warehouses)
      ensures IndexOfItem(old(items), id) < 0 ==> r == Fail(AppError(404, MSG_ITEM_NOT_FOUND)) && items == old(items)
      ensures IndexOfItem(old(items), id) >= 0 ==>
                var i := IndexOfItem(old(items), id);
                var u := old(items)[i].(status := status, updatedBy := Some(userId));
                r == Ok(u) && items == old(items)[i := u]
    {
      var i := IndexOfItem(items, id);
      if i < 0 {
        return Fail(AppError(404, MSG_ITEM_NOT_FOUND));
      }
      var u := items[i].(status := status, updatedBy := Some(userId));
      items := items[i := u];
      r := Ok(u);
    }

    method GetAllInventoryItems(q: Query, matchesSearch: (Item, string) -> bool) returns (r: seq<Item>)
      ensures r == Run(items, Dispatch(q), matchesSearch)
      ensures forall x :: x in r <==> x in items && Selects(Dispatch(q), x, matchesSearch)
    {
      r := Run(items, Dispatch(q), matchesSearch);
    }

    /** getWarehouseInventory: 404 for an unknown warehouse, else that warehouse's items. */
    method GetWarehouseInventory(warehouse: string) returns (r: Result<seq<Item>>)
      ensures warehouse !in warehouses <==> r == Fail(AppError(404, MSG_WAREHOUSE_NOT_FOUND))
      ensures r.Ok? ==> forall x :: x in r.value <==> x in items && x.warehouse == warehouse
    {
      if warehouse !in warehouses {
        return Fail(AppError(404, MSG_WAREHOUSE_NOT_FOUND));
      }
      r := Ok(Filter(items, (x: Item) => x.warehouse == warehouse));
    }

    /** getProductInventory: 404 for an unknown product, else that product's items. */
    method GetProductInventory(product: string) returns (r: Result<seq<Item>>)
      ensures product !in products <==> r == Fail(AppError(404, MSG_PRODUCT_NOT_FOUND))
      ensures r.Ok? ==> forall x :: x in r.value <==> x in items && x.product == product
    {
      if product !in products {
        return Fail(AppError(404, MSG_PRODUCT_NOT_FOUND));
      }
      r := Ok(Filter(items, (x: Item) => x.product == product));
    }

    /** findByLocation: 404 for an unknown warehouse, else the items at that location in it. */
    method FindByLocation(warehouse: string, location: Location) returns (r: Result<seq<Item>>)
      ensures warehouse !in warehouses <==> r == Fail(AppError(404, MSG_WAREHOUSE_NOT_FOUND))
      ensures r.Ok? ==> forall x :: x in r.value <==> x in items && x.warehouse == warehouse && x.location == location
    {
      if warehouse !in warehouses {
        return Fail(AppError(404, MSG_WAREHOUSE_NOT_FOUND));
      }
      r := Ok(Filter(items, (x: Item) => x.warehouse == warehouse && x.location == location));
    }
  }
}
