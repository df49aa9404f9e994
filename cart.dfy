/*
 * models/cart/cart.model.js, services/cart/cart.service.js and
 * repositories/cart/cart.repository.js: the cart document with its totals
 * formula and pre-save recomputation, the repository's $push / $pull / $set
 * updates on the items array, and the service's stock guards, re-totalling
 * and validation. The product service is the parameter `products` (product
 * id to the fields the cart reads); clock readings are the parameter `now`.
 */
module Carts {
  import opened Common

  const TAX_RATE: real := 0.1
  const CART_LIFETIME_MS: int := 30 * DAY_MS
  const DEFAULT_ABANDONED_DAYS: int := 7

  const MSG_PRODUCT_NOT_FOUND: string := "Product not found"
  const MSG_INSUFFICIENT_STOCK: string := "Insufficient stock"
  const MSG_ITEM_NOT_IN_CART: string := "Item not found in cart"
  /** Mongoose's message when schema validation refuses a save. */
  const MSG_VALIDATION: string := "Cart validation failed"

  datatype CartStatus = Active | Abandoned | Converted

  datatype CartItem = CartItem(id: string, product: string, store: string, quantity: int, price: real)

  datatype Cart = Cart(
    id: string,
    user: string,
    items: seq<CartItem>,
    status: CartStatus,
    subtotal: real,
    tax: real,
    shipping: real,
    discount: real,
    total: real,
    lastUpdated: int,
    createdBy: Option<string>)

  /** A product as the product service returns it: the fields the cart reads. */
  datatype Product = Product(name: string, stock: int, price: real)

  function LineTotal(it: CartItem): real
  {
    it.price * (it.quantity as real)
  }

  /** items.reduce((sum, item) => sum + item.price * item.quantity, 0). */
  function Subtotal(items: seq<CartItem>): real
  {
    if items == [] then 0.0 else Subtotal(items[..|items| - 1]) + LineTotal(items[|items| - 1])
  }

  /** The subtotal is additive over concatenation. */
  lemma {:induction false} SubtotalConcat(a: seq<CartItem>, b: seq<CartItem>)
    ensures Subtotal(a + b) == Subtotal(a) + Subtotal(b)
  {
    if b == [] {
      assert a + b == a;
    } else {
      assert (a + b)[..|a + b| - 1] == a + b[..|b| - 1];
      SubtotalConcat(a, b[..|b| - 1]);
    }
  }

  lemma SubtotalSingle(x: CartItem)
    ensures Subtotal([x]) == LineTotal(x)
  {
    assert [x][..0] == [];
  }

  /** Replacing one line changes the subtotal by exactly the difference of the two line totals. */
  lemma SubtotalReplace(items: seq<CartItem>, k: int, x: CartItem)
    requires 0 <= k < |items|
    ensures Subtotal(items[k := x]) == Subtotal(items) - LineTotal(items[k]) + LineTotal(x)
  {
    var pre := items[..k];
    var post := items[k + 1..];
    assert items == pre + [items[k]] + post;
    assert items[k := x] == pre + [x] + post;
    SubtotalConcat(pre + [items[k]], post);
    SubtotalConcat(pre, [items[k]]);
    SubtotalConcat(pre + [x], post);
    SubtotalConcat(pre, [x]);
    SubtotalSingle(items[k]);
    SubtotalSingle(x);
  }

  /** The schema's bounds on one line: quantity at least 1, price at least 0. */
  predicate ItemWellFormed(it: CartItem)
  {
    it.quantity >= 1 && it.price >= 0.0
  }

  predicate ItemsWellFormed(items: seq<CartItem>)
  {
    forall k :: 0 <= k < |items| ==> ItemWellFormed(items[k])
  }

  /**
   * What schema validation, the first step of every save, demands: a user, a
   * creator (both required) and every line within bounds.
   */
  predicate Saveable(user: string, createdBy: Option<string>, items: seq<CartItem>)
  {
    user != "" && Truthy(createdBy) && ItemsWellFormed(items)
  }

  lemma {:induction false} SubtotalNonNegative(items: seq<CartItem>)
    requires ItemsWellFormed(items)
    ensures Subtotal(items) >= 0.0
  {
    if items != [] {
      SubtotalNonNegative(items[..|items| - 1]);
      var last := items[|items| - 1];
      assert ItemWellFormed(last);
    }
  }

  datatype Totals = Totals(subtotal: real, tax: real, total: real)

  /** calculateTotals. */
  function TotalsOf(items: seq<CartItem>, shipping: real, discount: real): Totals
  {
    var subtotal := Subtotal(items);
    var tax := subtotal * TAX_RATE;
    Totals(subtotal, tax, subtotal + tax + shipping - discount)
  }

  /** The total is 110% of the subtotal plus shipping minus discount; with well-formed lines the tax is never negative. */
  lemma TotalsFormula(items: seq<CartItem>, shipping: real, discount: real)
    ensures var t := TotalsOf(items, shipping, discount);
            t.total == Subtotal(items) * 1.1 + shipping - discount && t.tax * 10.0 == t.subtotal
    ensures ItemsWellFormed(items) ==> TotalsOf(items, shipping, discount).tax >= 0.0
  {
    if ItemsWellFormed(items) {
      SubtotalNonNegative(items);
    }
  }

  /** The total is not clamped: a discount larger than the rest makes it negative. */
  lemma TotalMayBeNegative()
    ensures TotalsOf([], 0.0, 5.0).total == -5.0
  {
  }

  /** Adding one line raises the subtotal by that line's total. */
  lemma SubtotalAfterPush(items: seq<CartItem>, x: CartItem)
    ensures TotalsOf(items + [x], 0.0, 0.0).subtotal == Subtotal(items) + LineTotal(x)
  {
    SubtotalConcat(items, [x]);
    SubtotalSingle(x);
  }

  /** The cart document: its lines, charges and the totals its save hook keeps. */
  class CartDoc {
    var user: string
    var items: seq<CartItem>
    var status: CartStatus
    var currency: string
    var subtotal: real
    var tax: real
    var shipping: real
    var discount: real
    var total: real
    var lastUpdated: int
    var expiresAt: int
    var createdBy: Option<string>

    /** A new cart with the schema defaults; it expires 30 days after creation. */
    constructor (user: string, createdBy: Option<string>, now: int)
      ensures this.user == user && this.createdBy == createdBy && items == [] && status == Active && currency == "USD"
      ensures subtotal == 0.0 && tax == 0.0 && shipping == 0.0 && discount == 0.0 && total == 0.0
      ensures lastUpdated == now && expiresAt == now + CART_LIFETIME_MS
    {
      this.user := user;
      this.createdBy := createdBy;
      items := [];
      status := Active;
      currency := "USD";
      subtotal := 0.0;
      tax := 0.0;
      shipping := 0.0;
      discount := 0.0;
      total := 0.0;
      lastUpdated := now;
      expiresAt := now + CART_LIFETIME_MS;
    }

    /** calculateTotals: the subtotal by a pass over the lines, then tax and total. */
    method CalculateTotals()
      modifies this
      ensures Totals(subtotal, tax, total) == TotalsOf(items, shipping, discount)
      ensures items == old(items) && shipping == old(shipping) && discount == old(discount)
      ensures status == old(status) && lastUpdated == old(lastUpdated) && user == old(user)
      ensures currency == old(currency) && expiresAt == old(expiresAt) && createdBy == old(createdBy)
    {
      var sum := 0.0;
      var k := 0;
      while k < |items|
        invariant 0 <= k <= |items|
        invariant sum == Subtotal(items[..k])
      {
        assert items[..k + 1][..k] == items[..k];
        sum := sum + LineTotal(items[k]);
        k := k + 1;
      }
      assert items[..|items|] == items;
      subtotal := sum;
      tax := subtotal * TAX_RATE;
      total := subtotal + tax + shipping - discount;
    }

    /**
     * save: schema validation first (user and creator present, every line
     * within bounds), then the pre-save hook re-totals and stamps lastUpdated.
     * A refused save changes nothing.
     */
    method Save(now: int) returns (saved: bool)
      modifies this
      ensures saved <==> Saveable(user, createdBy, items)
      ensures saved ==> Totals(subtotal, tax, total) == TotalsOf(items, shipping, discount) && lastUpdated == now
      ensures !saved ==> subtotal == old(subtotal) && tax == old(tax) && total == old(total) && lastUpdated == old(lastUpdated)
      ensures items == old(items) && shipping == old(shipping) && discount == old(discount)
      ensures status == old(status) && user == old(user) && currency == old(currency) && expiresAt == old(expiresAt)
      ensures createdBy == old(createdBy)
    {
      saved := Saveable(user, createdBy, items);
      if saved {
        CalculateTotals();
        lastUpdated := now;
      }
    }
  }

  // ---- Repository: single-document updates on the stored carts ----

  function IndexOfCart(carts: seq<Cart>, id: string): (i: int)
    ensures -1 <= i < |carts|
    ensures 0 <= i ==> carts[i].id == id && forall k :: 0 <= k < i ==> carts[k].id != id
    ensures i < 0 ==> forall k :: 0 <= k < |carts| ==> carts[k].id != id
  {
    FindIndex(carts, (c: Cart) => c.id == id)
  }

  function IndexOfItem(items: seq<CartItem>, itemId: string): (i: int)
    ensures -1 <= i < |items|
    ensures 0 <= i ==> items[i].id == itemId && forall k :: 0 <= k < i ==> items[k].id != itemId
    ensures i < 0 ==> forall k :: 0 <= k < |items| ==> items[k].id != itemId
  {
    if items == [] then -1
    else if items[0].id == itemId then 0
    else
      var k := IndexOfItem(items[1..], itemId);
      if k < 0 then -1 else k + 1
  }

  predicate IsActiveOf(c: Cart, user: string)
  {
    c.user == user && c.status == Active
  }

  /** The first active cart of a user (findOne({ user, status: 'active' })). */
  function IndexOfActive(carts: seq<Cart>, user: string): (i: int)
    ensures -1 <= i < |carts|
    ensures 0 <= i ==> IsActiveOf(carts[i], user) && forall k :: 0 <= k < i ==> !IsActiveOf(carts[k], user)
    ensures i < 0 ==> forall k :: 0 <= k < |carts| ==> !IsActiveOf(carts[k], user)
  {
    if carts == [] then -1
    else if IsActiveOf(carts[0], user) then 0
    else
      var k := IndexOfActive(carts[1..], user);
      if k < 0 then -1 else k + 1
  }

  predicate UniqueIds(carts: seq<Cart>)
  {
    forall i, j :: 0 <= i < j < |carts| ==> carts[i].id != carts[j].id
  }

  function NotItem(itemId: string): CartItem -> bool
  {
    (it: CartItem) => it.id != itemId
  }

  /** $pull { items: { _id } }: every line with that id goes, the rest stay in order. */
  function PullItem(items: seq<CartItem>, itemId: string): seq<CartItem>
  {
    Filter(items, NotItem(itemId))
  }

  /** $set { 'items.$.quantity' }: the first line with that id takes the quantity. */
  function SetQuantity(items: seq<CartItem>, itemId: string, quantity: int): (r: seq<CartItem>)
    ensures |r| == |items|
    ensures forall j :: 0 <= j < |items| && j != IndexOfItem(items, itemId) ==> r[j] == items[j]
    ensures IndexOfItem(items, itemId) >= 0 ==> r[IndexOfItem(items, itemId)].quantity == quantity
  {
    var k := IndexOfItem(items, itemId);
    if k < 0 then items else items[k := items[k].(quantity := quantity)]
  }

  /** Removing a freshly pushed line gives the old lines back. */
  lemma RemoveAfterAddRestores(items: seq<CartItem>, x: CartItem)
    requires forall k :: 0 <= k < |items| ==> items[k].id != x.id
    ensures PullItem(items + [x], x.id) == items
  {
    FilterAppend(items, [x], NotItem(x.id));
    FilterAllKept(items, NotItem(x.id));
    assert [x][..0] == [];
  }

  /** A quantity change moves the subtotal by the difference of the old and new line totals. */
  lemma SetQuantitySubtotal(items: seq<CartItem>, itemId: string, quantity: int)
    requires IndexOfItem(items, itemId) >= 0
    ensures var k := IndexOfItem(items, itemId);
            Subtotal(SetQuantity(items, itemId, quantity)) ==
              Subtotal(items) - LineTotal(items[k]) + LineTotal(items[k].(quantity := quantity))
  {
    var k := IndexOfItem(items, itemId);
    SubtotalReplace(items, k, items[k].(quantity := quantity));
  }

  /** ... and that difference is the price times the change in quantity. */
  lemma LineDifference(it: CartItem, quantity: int)
    ensures LineTotal(it.(quantity := quantity)) - LineTotal(it) == it.price * ((quantity - it.quantity) as real)
  {
    var p := it.price;
    var q1 := it.quantity as real;
    var q2 := quantity as real;
    assert p * q2 - p * q1 == p * (q2 - q1);
  }

  datatype Outcome<T> = Outcome(result: T, carts: seq<Cart>)

  /** findByIdAndUpdate with `new: true`: null for an unknown id, else the updated cart. */
  function UpdateCart(carts: seq<Cart>, id: string, c: Cart): Outcome<Option<Cart>>
  {
    var i := IndexOfCart(carts, id);
    if i < 0 then Outcome(None, carts) else Outcome(Some(c), carts[i := c])
  }

  function AddItemSpec(carts: seq<Cart>, id: string, item: CartItem): Outcome<Option<Cart>>
  {
    var i := IndexOfCart(carts, id);
    if i < 0 then Outcome(None, carts)
    else UpdateCart(carts, id, carts[i].(items := carts[i].items + [item]))
  }

  function RemoveItemSpec(carts: seq<Cart>, id: string, itemId: string): Outcome<Option<Cart>>
  {
    var i := IndexOfCart(carts, id);
    if i < 0 then Outcome(None, carts)
    else UpdateCart(carts, id, carts[i].(items := PullItem(carts[i].items, itemId)))
  }

  /** findOneAndUpdate({ _id, 'items._id' }): null unless the cart exists and holds the line. */
  function UpdateItemQuantitySpec(carts: seq<Cart>, id: string, itemId: string, quantity: int): Outcome<Option<Cart>>
  {
    var i := IndexOfCart(carts, id);
    if i < 0 || IndexOfItem(carts[i].items, itemId) < 0 then Outcome(None, carts)
    else UpdateCart(carts, id, carts[i].(items := SetQuantity(carts[i].items, itemId, quantity)))
  }

  function ClearCartSpec(carts: seq<Cart>, id: string): Outcome<Option<Cart>>
  {
    var i := IndexOfCart(carts, id);
    if i < 0 then Outcome(None, carts) else UpdateCart(carts, id, carts[i].(items := []))
  }

  function UpdateStatusSpec(carts: seq<Cart>, id: string, status: CartStatus): Outcome<Option<Cart>>
  {
    var i := IndexOfCart(carts, id);
    if i < 0 then Outcome(None, carts) else UpdateCart(carts, id, carts[i].(status := status))
  }

  /** The service's write of freshly computed totals and lastUpdated. */
  function WriteTotalsSpec(carts: seq<Cart>, id: string, t: Totals, now: int): Outcome<Option<Cart>>
  {
    var i := IndexOfCart(carts, id);
    if i < 0 then Outcome(None, carts)
    else UpdateCart(carts, id, carts[i].(subtotal := t.subtotal, tax := t.tax, total := t.total, lastUpdated := now))
  }

  /** A single-cart update leaves every other cart as it was and keeps ids unique. */
  lemma UpdateCartFrame(carts: seq<Cart>, id: string, c: Cart)
    requires UniqueIds(carts) && c.id == id
    ensures var out := UpdateCart(carts, id, c);
            UniqueIds(out.carts) && |out.carts| == |carts| &&
            forall k :: 0 <= k < |carts| && carts[k].id != id ==> out.carts[k] == carts[k]
  {
  }

  /** findAbandonedCarts: active and last touched strictly before `days` days ago. */
  predicate IsAbandoned(c: Cart, now: int, days: int)
  {
    c.status == Active && c.lastUpdated < now - days * DAY_MS
  }

  /** The pre-save hook on a new cart: totals from its own lines and charges, lastUpdated stamped. */
  function SavedAs(c: Cart, now: int): Cart
  {
    var t := TotalsOf(c.items, c.shipping, c.discount);
    c.(subtotal := t.subtotal, tax := t.tax, total := t.total, lastUpdated := now)
  }

  /**
   * create (BaseRepository): a cart that fails validation is refused and
   * nothing is stored; otherwise it is stored as the hook leaves it.
   */
  function CreateSpec(carts: seq<Cart>, c: Cart, now: int): Outcome<Result<Cart>>
  {
    if !Saveable(c.user, c.createdBy, c.items) then Outcome(Fail(Thrown(MSG_VALIDATION)), carts)
    else Outcome(Ok(SavedAs(c, now)), carts + [SavedAs(c, now)])
  }

  /**
   * A create succeeds exactly when the cart is saveable; then the stored cart
   * is the given one with its totals recomputed from its lines and charges and
   * lastUpdated stamped, appended after every earlier cart, whatever totals the
   * caller supplied; a refused create stores nothing.
   */
  lemma CreateStoresRetotalledCart(carts: seq<Cart>, c: Cart, now: int)
    requires UniqueIds(carts) && IndexOfCart(carts, c.id) < 0
    ensures var out := CreateSpec(carts, c, now);
            (out.result.Ok? <==> Saveable(c.user, c.createdBy, c.items)) &&
            (out.result.Fail? ==> out.carts == carts) &&
            (out.result.Ok? ==>
              var s := out.result.value;
              out.carts == carts + [s] && UniqueIds(out.carts) &&
              s.id == c.id && s.user == c.user && s.items == c.items && s.status == c.status &&
              s.createdBy == c.createdBy && s.lastUpdated == now &&
              Totals(s.subtotal, s.tax, s.total) == TotalsOf(c.items, c.shipping, c.discount) &&
              s.tax >= 0.0 && s.total == s.subtotal * 1.1 + s.shipping - s.discount)
  {
    if Saveable(c.user, c.createdBy, c.items) {
      TotalsFormula(c.items, c.shipping, c.discount);
    }
  }

  /** Stored totals of 0 on a line of two at 5 become a subtotal of 10, a tax of 1 and a total of 11. */
  lemma CreateTotalsExample(carts: seq<Cart>, now: int)
    ensures var c := Cart("c", "u", [CartItem("i", "p", "s", 2, 5.0)], Active, 0.0, 0.0, 0.0, 0.0, 0.0, 0, Some("u"));
            var out := CreateSpec(carts, c, now);
            out.result.Ok? && out.result.value.subtotal == 10.0 && out.result.value.tax == 1.0 &&
            out.result.value.total == 11.0
  {
    SubtotalSingle(CartItem("i", "p", "s", 2, 5.0));
  }

  /** The service's re-totalling right after a create writes back what the save hook stored. */
  lemma RetotalAfterCreateChangesNothing(carts: seq<Cart>, c: Cart, now: int)
    requires IndexOfCart(carts, c.id) < 0
    ensures RetotalSpec(carts + [SavedAs(c, now)], SavedAs(c, now), now) == carts + [SavedAs(c, now)]
  {
    var s := SavedAs(c, now);
    var all := carts + [s];
    assert all[|carts|] == s;
    assert forall k :: 0 <= k < |carts| ==> all[k] == carts[k] && carts[k].id != s.id;
    var i := IndexOfCart(all, s.id);
    assert 0 <= i;
    assert i == |carts|;
  }

  class CartRepository {
    var carts: seq<Cart>

    predicate Valid()
      reads this
    {
      UniqueIds(carts)
    }

    constructor ()
      ensures Valid() && carts == []
    {
      carts := [];
    }

    method FindById(id: string) returns (r: Option<Cart>)
      ensures r.None? <==> IndexOfCart(carts, id) < 0
      ensures r.Some? ==> r.value == carts[IndexOfCart(carts, id)]
    {
      var i := IndexOfCart(carts, id);
      r := if i < 0 then None else Some(carts[i]);
    }

    /** findActiveByUser: the first active cart of the user. */
    method FindActiveByUser(user: string) returns (r: Option<Cart>)
      ensures r.None? <==> forall k :: 0 <= k < |carts| ==> !IsActiveOf(carts[k], user)
      ensures r.Some? ==> r.value == carts[IndexOfActive(carts, user)]
    {
      var i := IndexOfActive(carts, user);
      r := if i < 0 then None else Some(carts[i]);
    }

    method FindByUser(user: string) returns (r: seq<Cart>)
      ensures forall c :: c in r <==> c in carts && c.user == user
    {
      r := Filter(carts, (c: Cart) => c.user == user);
    }

    method FindByStatus(status: CartStatus) returns (r: seq<Cart>)
      ensures forall c :: c in r <==> c in carts && c.status == status
    {
      r := Filter(carts, (c: Cart) => c.status == status);
    }

    method FindAbandonedCarts(now: int, days: int) returns (r: seq<Cart>)
      ensures forall c :: c in r <==> c in carts && IsAbandoned(c, now, days)
    {
      r := Filter(carts, (c: Cart) => IsAbandoned(c, now, days));
    }

    /** create: `new Cart(data).save()`, validation and then the pre-save hook. */
    method Create(c: Cart, now: int) returns (r: Result<Cart>)
      requires Valid() && IndexOfCart(carts, c.id) < 0
      modifies this
      ensures Valid() && Outcome(r, carts) == CreateSpec(old(carts), c, now)
    {
      if !Saveable(c.user, c.createdBy, c.items) {
        return Fail(Thrown(MSG_VALIDATION));
      }
      var saved := SavedAs(c, now);
      carts := carts + [saved];
      r := Ok(saved);
    }

    method AddItem(id: string, item: CartItem) returns (r: Option<Cart>)
      requires Valid()
      modifies this
      ensures Valid() && Outcome(r, carts) == AddItemSpec(old(carts), id, item)
    {
      var i := IndexOfCart(carts, id);
      if i < 0 {
        return None;
      }
      var c := carts[i].(items := carts[i].items + [item]);
      carts := carts[i := c];
      r := Some(c);
    }

    method RemoveItem(id: string, itemId: string) returns (r: Option<Cart>)
      requires Valid()
      modifies this
      ensures Valid() && Outcome(r, carts) == RemoveItemSpec(old(carts), id, itemId)
    {
      var i := IndexOfCart(carts, id);
      if i < 0 {
        return None;
      }
      var c := carts[i].(items := PullItem(carts[i].items, itemId));
      carts := carts[i := c];
      r := Some(c);
    }

    method UpdateItemQuantity(id: string, itemId: string, quantity: int) returns (r: Option<Cart>)
      requires Valid()
      modifies this
      ensures Valid() && Outcome(r, carts) == UpdateItemQuantitySpec(old(carts), id, itemId, quantity)
    {
      var i := IndexOfCart(carts, id);
      if i < 0 || IndexOfItem(carts[i].items, itemId) < 0 {
        return None;
      }
      var c := carts[i].(items := SetQuantity(carts[i].items, itemId, quantity));
      carts := carts[i := c];
      r := Some(c);
    }

    method ClearCart(id: string) returns (r: Option<Cart>)
      requires Valid()
      modifies this
      ensures Valid() && Outcome(r, carts) == ClearCartSpec(old(carts), id)
    {
      var i := IndexOfCart(carts, id);
      if i < 0 {
        return None;
      }
      var c := carts[i].(items := []);
      carts := carts[i := c];
      r := Some(c);
    }

    method UpdateStatus(id: string, status: CartStatus) returns (r: Option<Cart>)
      requires Valid()
      modifies this
      ensures Valid() && Outcome(r, carts) == UpdateStatusSpec(old(carts), id, status)
    {
      var i := IndexOfCart(carts, id);
      if i < 0 {
        return None;
      }
      var c := carts[i].(status := status);
      carts := carts[i := c];
      r := Some(c);
    }

    method WriteTotals(id: string, t: Totals, now: int) returns (r: Option<Cart>)
      requires Valid()
      modifies this
      ensures Valid() && Outcome(r, carts) == WriteTotalsSpec(old(carts), id, t, now)
    {
      var i := IndexOfCart(carts, id);
      if i < 0 {
        return None;
      }
      var c := carts[i].(subtotal := t.subtotal, tax := t.tax, total := t.total, lastUpdated := now);
      carts := carts[i := c];
      r := Some(c);
    }
  }

  // ---- Service ----

  /** The service's calculateTotals(cart): totals from the given cart's lines, written to the stored cart. */
  function RetotalSpec(carts: seq<Cart>, c: Cart, now: int): seq<Cart>
  {
    WriteTotalsSpec(carts, c.id, TotalsOf(c.items, c.shipping, c.discount), now).carts
  }

  /**
   * A repository update followed by calculateTotals on what it returned: null
   * makes calculateTotals read `items` of null; otherwise the caller gets the
   * repository's cart, not the re-totalled one.
   */
  function ThenRetotal(a: Outcome<Option<Cart>>, now: int): Outcome<Result<Cart>>
  {
    if a.result.None? then Outcome(Fail(Thrown(MSG_NULL_READ)), a.carts)
    else Outcome(Ok(a.result.value), RetotalSpec(a.carts, a.result.value, now))
  }

  /** addItem: unknown product, then stock, then push at the product's current price. */
  function ServiceAddItemSpec(carts: seq<Cart>, products: map<string, Product>, id: string, item: CartItem, now: int)
    : Outcome<Result<Cart>>
  {
    if item.product !in products then Outcome(Fail(Thrown(MSG_PRODUCT_NOT_FOUND)), carts)
    else if products[item.product].stock < item.quantity then Outcome(Fail(Thrown(MSG_INSUFFICIENT_STOCK)), carts)
    else ThenRetotal(AddItemSpec(carts, id, item.(price := products[item.product].price)), now)
  }

  /** updateItemQuantity: the cart must exist, hold the line, and its product must have the stock. */
  function ServiceUpdateQuantitySpec(carts: seq<Cart>, products: map<string, Product>, id: string, itemId: string,
                                     quantity: int, now: int): Outcome<Result<Cart>>
  {
    var i := IndexOfCart(carts, id);
    if i < 0 then Outcome(Fail(Thrown(MSG_NULL_READ)), carts)
    else
      var k := IndexOfItem(carts[i].items, itemId);
      if k < 0 then Outcome(Fail(Thrown(MSG_ITEM_NOT_IN_CART)), carts)
      else
        var product := carts[i].items[k].product;
        if product !in products then Outcome(Fail(Thrown(MSG_PRODUCT_NOT_FOUND)), carts)
        else if products[product].stock < quantity then Outcome(Fail(Thrown(MSG_INSUFFICIENT_STOCK)), carts)
        else ThenRetotal(UpdateItemQuantitySpec(carts, id, itemId, quantity), now)
  }

  /** addItem succeeds exactly when the product is known, has the stock, and the cart exists. */
  lemma AddItemSucceedsIff(carts: seq<Cart>, products: map<string, Product>, id: string, item: CartItem, now: int)
    ensures ServiceAddItemSpec(carts, products, id, item, now).result.Ok? <==>
            item.product in products && products[item.product].stock >= item.quantity && IndexOfCart(carts, id) >= 0
  {
  }

  /**
   * A successful addItem stores the line at the product's price at the end of
   * the cart and re-totals the stored cart; the cart handed back still carries
   * the totals from before the line was added.
   */
  lemma AddItemStoresCurrentPriceAndRetotals(carts: seq<Cart>, products: map<string, Product>, id: string,
                                             item: CartItem, now: int)
    requires UniqueIds(carts)
    ensures var out := ServiceAddItemSpec(carts, products, id, item, now);
            out.result.Ok? ==>
              var i := IndexOfCart(carts, id);
              var line := item.(price := products[item.product].price);
              var stored := out.carts[i];
              stored.items == carts[i].items + [line] &&
              Totals(stored.subtotal, stored.tax, stored.total) == TotalsOf(stored.items, stored.shipping, stored.discount) &&
              stored.subtotal == Subtotal(carts[i].items) + LineTotal(line) &&
              out.result.value.items == stored.items && out.result.value.total == carts[i].total
  {
    var out := ServiceAddItemSpec(carts, products, id, item, now);
    if out.result.Ok? {
      var i := IndexOfCart(carts, id);
      var line := item.(price := products[item.product].price);
      SubtotalConcat(carts[i].items, [line]);
      SubtotalSingle(line);
    }
  }

  /** addItem at the service keeps every cart in place: same length, same ids, ids still unique. */
  lemma AddItemKeepsIds(carts: seq<Cart>, products: map<string, Product>, id: string, item: CartItem, now: int)
    requires UniqueIds(carts)
    ensures var out := ServiceAddItemSpec(carts, products, id, item, now);
            |out.carts| == |carts| && UniqueIds(out.carts) &&
            forall j :: 0 <= j < |carts| ==> out.carts[j].id == carts[j].id
  {
    var out := ServiceAddItemSpec(carts, products, id, item, now);
    if item.product in products && products[item.product].stock >= item.quantity {
      var a := AddItemSpec(carts, id, item.(price := products[item.product].price));
      assert forall j :: 0 <= j < |a.carts| ==> a.carts[j].id == carts[j].id;
    }
  }

  /** With unique ids, a cart's own id finds it. */
  lemma IndexOfOwnId(carts: seq<Cart>, k: int)
    requires UniqueIds(carts) && 0 <= k < |carts|
    ensures IndexOfCart(carts, carts[k].id) == k
  {
  }

  /** Two store states with the same ids in the same places find every id at the same place. */
  lemma SameIdsSameIndex(a: seq<Cart>, b: seq<Cart>, id: string)
    requires |a| == |b| && forall j :: 0 <= j < |a| ==> a[j].id == b[j].id
    ensures IndexOfCart(a, id) == IndexOfCart(b, id)
  {
    var i := IndexOfCart(a, id);
    var j := IndexOfCart(b, id);
    if 0 <= i {
      assert b[i].id == id;
    }
    if 0 <= j {
      assert a[j].id == id;
    }
  }

  /** A quantity change that passes the guards re-totals the stored cart by the difference of the old and new line totals. */
  lemma UpdateQuantityRetotals(carts: seq<Cart>, products: map<string, Product>, id: string, itemId: string,
                               quantity: int, now: int)
    requires UniqueIds(carts)
    ensures var out := ServiceUpdateQuantitySpec(carts, products, id, itemId, quantity, now);
            out.result.Ok? ==>
              var i := IndexOfCart(carts, id);
              var k := IndexOfItem(carts[i].items, itemId);
              out.carts[i].subtotal ==
                Subtotal(carts[i].items) - LineTotal(carts[i].items[k]) + LineTotal(carts[i].items[k].(quantity := quantity)) &&
              products[carts[i].items[k].product].stock >= quantity
  {
    var out := ServiceUpdateQuantitySpec(carts, products, id, itemId, quantity, now);
    if out.result.Ok? {
      var i := IndexOfCart(carts, id);
      var items2 := SetQuantity(carts[i].items, itemId, quantity);
      var u := UpdateItemQuantitySpec(carts, id, itemId, quantity);
      var c := carts[i].(items := items2);
      assert u == Outcome(Some(c), carts[i := c]);
      assert forall j :: 0 <= j < |u.carts| ==> u.carts[j].id == carts[j].id;
      assert u.carts[i].id == id;
      assert IndexOfCart(u.carts, id) == i;
      assert out.carts[i].subtotal == Subtotal(items2);
      var k := IndexOfItem(carts[i].items, itemId);
      SubtotalReplace(carts[i].items, k, carts[i].items[k].(quantity := quantity));
    }
  }

  /** The errors validateCart records for one line. */
  function LineErrors(it: CartItem, products: map<string, Product>): (r: seq<string>)
    ensures |r| <= 2
    ensures it.product !in products ==> r == ["Product " + it.product + " not found"]
    ensures r == [] <==> it.product in products && products[it.product].stock >= it.quantity &&
                         products[it.product].price == it.price
  {
    if it.product !in products then ["Product " + it.product + " not found"]
    else
      var p := products[it.product];
      (if p.stock < it.quantity then ["Insufficient stock for product " + p.name] else []) +
      (if p.price != it.price then ["Price mismatch for product " + p.name] else [])
  }

  function ValidationErrors(items: seq<CartItem>, products: map<string, Product>): seq<string>
  {
    if items == [] then [] else ValidationErrors(items[..|items| - 1], products) + LineErrors(items[|items| - 1], products)
  }

  predicate LineValid(it: CartItem, products: map<string, Product>)
  {
    it.product in products && products[it.product].stock >= it.quantity && products[it.product].price == it.price
  }

  /** No errors exactly when every line's product exists, has the stock, and still has the line's price. */
  lemma {:induction false} NoErrorsIffAllLinesValid(items: seq<CartItem>, products: map<string, Product>)
    ensures ValidationErrors(items, products) == [] <==> forall k :: 0 <= k < |items| ==> LineValid(items[k], products)
  {
    if items != [] {
      var init := items[..|items| - 1];
      NoErrorsIffAllLinesValid(init, products);
      assert forall k :: 0 <= k < |init| ==> init[k] == items[k];
    }
  }

  /** At most two errors per line. */
  lemma {:induction false} ErrorsBounded(items: seq<CartItem>, products: map<string, Product>)
    ensures |ValidationErrors(items, products)| <= 2 * |items|
  {
    if items != [] {
      ErrorsBounded(items[..|items| - 1], products);
    }
  }

  class CartService {
    const repo: CartRepository

    constructor (repo: CartRepository)
      ensures this.repo == repo
    {
      this.repo := repo;
    }

    /** calculateTotals(cart): write the totals computed from this cart's lines; returns the stored result. */
    method CalculateTotals(c: Cart, now: int) returns (r: Option<Cart>)
      requires repo.Valid()
      modifies repo
      ensures repo.Valid()
      ensures Outcome(r, repo.carts) == WriteTotalsSpec(old(repo.carts), c.id, TotalsOf(c.items, c.shipping, c.discount), now)
    {
      var subtotal := Subtotal(c.items);
      var tax := subtotal * TAX_RATE;
      var total := subtotal + tax + c.shipping - c.discount;
      r := repo.WriteTotals(c.id, Totals(subtotal, tax, total), now);
    }

    /**
     * create: the repository's save, then calculateTotals on the saved cart,
     * which writes back the totals the save hook already stored.
     */
    method Create(c: Cart, now: int) returns (r: Result<Cart>)
      requires repo.Valid() && IndexOfCart(repo.carts, c.id) < 0
      modifies repo
      ensures repo.Valid() && Outcome(r, repo.carts) == CreateSpec(old(repo.carts), c, now)
    {
      r := repo.Create(c, now);
      if r.Ok? {
        RetotalAfterCreateChangesNothing(old(repo.carts), c, now);
        var _ := CalculateTotals(r.value, now);
      }
    }

    method AddItem(id: string, item: CartItem, products: map<string, Product>, now: int) returns (r: Result<Cart>)
      requires repo.Valid()
      modifies repo
      ensures repo.Valid()
      ensures Outcome(r, repo.carts) == ServiceAddItemSpec(old(repo.carts), products, id, item, now)
    {
      if item.product !in products {
        return Fail(Thrown(MSG_PRODUCT_NOT_FOUND));
      }
      var product := products[item.product];
      if product.stock < item.quantity {
        return Fail(Thrown(MSG_INSUFFICIENT_STOCK));
      }
      var c := repo.AddItem(id, item.(price := product.price));
      if c.None? {
        return Fail(Thrown(MSG_NULL_READ));
      }
      var _ := CalculateTotals(c.value, now);
      r := Ok(c.value);
    }

    method RemoveItem(id: string, itemId: string, now: int) returns (r: Result<Cart>)
      requires repo.Valid()
      modifies repo
      ensures repo.Valid()
      ensures Outcome(r, repo.carts) == ThenRetotal(RemoveItemSpec(old(repo.carts), id, itemId), now)
    {
      var c := repo.RemoveItem(id, itemId);
      if c.None? {
        return Fail(Thrown(MSG_NULL_READ));
      }
      var _ := CalculateTotals(c.value, now);
      r := Ok(c.value);
    }

    method UpdateItemQuantity(id: string, itemId: string, quantity: int, products: map<string, Product>, now: int)
      returns (r: Result<Cart>)
      requires repo.Valid()
      modifies repo
      ensures repo.Valid()
      ensures Outcome(r, repo.carts) == ServiceUpdateQuantitySpec(old(repo.carts), products, id, itemId, quantity, now)
    {
      var c := repo.FindById(id);
      if c.None? {
        return Fail(Thrown(MSG_NULL_READ));
      }
      var k := IndexOfItem(c.value.items, itemId);
      if k < 0 {
        return Fail(Thrown(MSG_ITEM_NOT_IN_CART));
      }
      var product := c.value.items[k].product;
      if product !in products {
        return Fail(Thrown(MSG_PRODUCT_NOT_FOUND));
      }
      if products[product].stock < quantity {
        return Fail(Thrown(MSG_INSUFFICIENT_STOCK));
      }
      var updated := repo.UpdateItemQuantity(id, itemId, quantity);
      if updated.None? {
        assert false;
        return Fail(Thrown(MSG_NULL_READ));
      }
      var _ := CalculateTotals(updated.value, now);
      r := Ok(updated.value);
    }

    method ClearCart(id: string, now: int) returns (r: Result<Cart>)
      requires repo.Valid()
      modifies repo
      ensures repo.Valid()
      ensures Outcome(r, repo.carts) == ThenRetotal(ClearCartSpec(old(repo.carts), id), now)
    {
      var c := repo.ClearCart(id);
      if c.None? {
        return Fail(Thrown(MSG_NULL_READ));
      }
      var _ := CalculateTotals(c.value, now);
      r := Ok(c.value);
    }

    /** validateCart: one pass over the lines collecting the messages. */
    method ValidateCart(c: Cart, products: map<string, Product>) returns (isValid: bool, errors: seq<string>)
      ensures errors == ValidationErrors(c.items, products)
      ensures isValid <==> forall k :: 0 <= k < |c.items| ==> LineValid(c.items[k], products)
    {
      errors := [];
      var k := 0;
      while k < |c.items|
        invariant 0 <= k <= |c.items|
        invariant errors == ValidationErrors(c.items[..k], products)
      {
        var item := c.items[k];
        assert c.items[..k + 1][..k] == c.items[..k];
        if item.product !in products {
          errors := errors + ["Product " + item.product + " not found"];
        } else {
          var product := products[item.product];
          if product.stock < item.quantity {
            errors := errors + ["Insufficient stock for product " + product.name];
          }
          if product.price != item.price {
            errors := errors + ["Price mismatch for product " + product.name];
          }
        }
        k := k + 1;
      }
      assert c.items[..|c.items|] == c.items;
      isValid := |errors| == 0;
      NoErrorsIffAllLinesValid(c.items, products);
    }
  }
}
