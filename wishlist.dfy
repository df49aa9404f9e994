/*
 * models/wishlist/wishlist.model.js, services/wishlist/wishlist.service.js and
 * repositories/wishlist/wishlist.repository.js: the wishlist document's item
 * and sharing lists, its one-default-per-user save hook, the repository's
 * updates, and the service's moves from a wishlist into the user's active cart.
 * Product lookups are parameters: `stores` maps a product id to its store,
 * `prices` to its base price; Mongo-generated ids are parameters too.
 */
module Wishlists {
  import opened Common
  import Carts

  const MSG_PRODUCT_NOT_FOUND: string := "Product not found"
  const MSG_ALREADY_PRESENT: string := "Product already in wishlist"
  const MSG_ITEM_NOT_IN_WISHLIST: string := "Item not found in wishlist"
  /** What calling an undefined method throws (a TypeError). */
  const MSG_FIND_BY_ID_MISSING: string := "this.findById is not a function"
  const MSG_CART_ADD_ITEM_MISSING: string := "cart.addItem is not a function"
  const MSG_UPDATE_MANY_MISSING: string := "this.repository.updateMany is not a function"

  datatype Priority = Low | Medium | High

  datatype PriceAlert = PriceAlert(enabled: bool, targetPrice: Option<real>, lastChecked: Option<int>)

  datatype WishItem = WishItem(
    id: string,
    product: string,
    store: string,
    addedAt: int,
    notes: Option<string>,
    priority: Priority,
    priceAlert: PriceAlert)

  datatype Permission = View | Edit

  datatype Share = Share(user: string, permission: Permission, sharedAt: int)

  /** The options or updates a caller may give for an item. */
  datatype ItemFields = ItemFields(notes: Option<string>, priority: Option<Priority>, priceAlert: Option<PriceAlert>)

  /** One reported price alert. */
  datatype Hit = Hit(product: string, currentPrice: real, targetPrice: real)

  // ---- The item list ----

  function IndexOfProduct(items: seq<WishItem>, product: string): (i: int)
    ensures -1 <= i < |items|
    ensures 0 <= i ==> items[i].product == product && forall k :: 0 <= k < i ==> items[k].product != product
    ensures i < 0 ==> forall k :: 0 <= k < |items| ==> items[k].product != product
  {
    if items == [] then -1
    else if items[0].product == product then 0
    else
      var k := IndexOfProduct(items[1..], product);
      if k < 0 then -1 else k + 1
  }

  /** Each product appears at most once. */
  predicate NoDuplicateProducts(items: seq<WishItem>)
  {
    forall i, j :: 0 <= i < j < |items| ==> items[i].product != items[j].product
  }

  /** The pushed item: product and store, the schema defaults overridden by the options, then addedAt. */
  function NewItem(id: string, product: string, store: string, opts: ItemFields, now: int): WishItem
  {
    WishItem(id, product, store, now, opts.notes,
             if opts.priority.Some? then opts.priority.value else Medium,
             if opts.priceAlert.Some? then opts.priceAlert.value else PriceAlert(false, None, None))
  }

  /** Object.assign(item, updates). */
  function Merge(it: WishItem, upd: ItemFields): WishItem
  {
    it.(notes := if upd.notes.Some? then upd.notes else it.notes,
        priority := if upd.priority.Some? then upd.priority.value else it.priority,
        priceAlert := if upd.priceAlert.Some? then upd.priceAlert.value else it.priceAlert)
  }

  /** addItem on the document: unknown product, then already present, then push. */
  function AddItemSpec(items: seq<WishItem>, stores: map<string, string>, product: string, opts: ItemFields,
                       id: string, now: int): Result<seq<WishItem>>
  {
    if product !in stores then Fail(Thrown(MSG_PRODUCT_NOT_FOUND))
    else if IndexOfProduct(items, product) >= 0 then Fail(Thrown(MSG_ALREADY_PRESENT))
    else Ok(items + [NewItem(id, product, stores[product], opts, now)])
  }

  /** addItem accepts exactly a known product not yet listed, and never creates a duplicate. */
  lemma AddItemNeverDuplicates(items: seq<WishItem>, stores: map<string, string>, product: string, opts: ItemFields,
                               id: string, now: int)
    requires NoDuplicateProducts(items)
    ensures var r := AddItemSpec(items, stores, product, opts, id, now);
            (r.Ok? <==> product in stores && forall k :: 0 <= k < |items| ==> items[k].product != product) &&
            (r.Ok? ==> NoDuplicateProducts(r.value) && r.value[..|items|] == items &&
                       r.value[|items|].product == product && r.value[|items|].store == stores[product])
  {
  }

  function NotProduct(product: string): WishItem -> bool
  {
    (it: WishItem) => it.product != product
  }

  /** removeItem on the document: every item for the product goes. */
  function RemoveProduct(items: seq<WishItem>, product: string): seq<WishItem>
  {
    Filter(items, NotProduct(product))
  }

  /** Adding a product and removing it again gives the list back. */
  lemma RemoveAfterAddRestores(items: seq<WishItem>, stores: map<string, string>, product: string, opts: ItemFields,
                               id: string, now: int)
    requires AddItemSpec(items, stores, product, opts, id, now).Ok?
    ensures RemoveProduct(AddItemSpec(items, stores, product, opts, id, now).value, product) == items
  {
    var x := NewItem(id, product, stores[product], opts, now);
    FilterAppend(items, [x], NotProduct(product));
    FilterAllKept(items, NotProduct(product));
    assert [x][..0] == [];
  }

  /** updateItem on the document: the first item for the product takes the updates; no match, no change. */
  function UpdateItemSpec(items: seq<WishItem>, product: string, upd: ItemFields): seq<WishItem>
  {
    var k := IndexOfProduct(items, product);
    if k < 0 then items else items[k := Merge(items[k], upd)]
  }

  /** An update touches only the matching item, keeps its identity, and keeps products unique. */
  lemma UpdateItemTouchesOnlyMatch(items: seq<WishItem>, product: string, upd: ItemFields)
    requires NoDuplicateProducts(items)
    ensures var r := UpdateItemSpec(items, product, upd);
            |r| == |items| && NoDuplicateProducts(r) &&
            forall k :: 0 <= k < |items| ==>
              (items[k].product != product ==> r[k] == items[k]) &&
              r[k].id == items[k].id && r[k].product == items[k].product && r[k].store == items[k].store
  {
  }

  // ---- Sharing ----

  function IndexOfShare(shares: seq<Share>, user: string): (i: int)
    ensures -1 <= i < |shares|
    ensures 0 <= i ==> shares[i].user == user
    ensures i < 0 ==> forall k :: 0 <= k < |shares| ==> shares[k].user != user
  {
    if shares == [] then -1
    else if shares[0].user == user then 0
    else
      var k := IndexOfShare(shares[1..], user);
      if k < 0 then -1 else k + 1
  }

  predicate UniqueShareUsers(shares: seq<Share>)
  {
    forall i, j :: 0 <= i < j < |shares| ==> shares[i].user != shares[j].user
  }

  /** shareWith: refresh the user's share, or append one. */
  function ShareSpec(shares: seq<Share>, user: string, permission: Permission, now: int): seq<Share>
  {
    var k := IndexOfShare(shares, user);
    if k >= 0 then shares[k := Share(user, permission, now)] else shares + [Share(user, permission, now)]
  }

  function NotSharedWith(user: string): Share -> bool
  {
    (s: Share) => s.user != user
  }

  /** unshareWith. */
  function UnshareSpec(shares: seq<Share>, user: string): seq<Share>
  {
    Filter(shares, NotSharedWith(user))
  }

  /** After shareWith the user holds exactly one share, with the new permission, and users stay unique. */
  lemma ShareKeepsUsersUnique(shares: seq<Share>, user: string, permission: Permission, now: int)
    requires UniqueShareUsers(shares)
    ensures var r := ShareSpec(shares, user, permission, now);
            UniqueShareUsers(r) && Share(user, permission, now) in r &&
            (forall s :: s in shares && s.user != user ==> s in r) &&
            (forall s :: s in r && s.user == user ==> s == Share(user, permission, now))
  {
    var r := ShareSpec(shares, user, permission, now);
    var k := IndexOfShare(shares, user);
    forall s | s in shares && s.user != user
      ensures s in r
    {
      var j :| 0 <= j < |shares| && shares[j] == s;
      assert r[j] == s;
    }
    if k >= 0 {
      assert forall j :: 0 <= j < |r| ==> r[j].user == shares[j].user;
    } else {
      assert forall j :: 0 <= j < |shares| ==> r[j] == shares[j];
    }
    forall s | s in r && s.user == user
      ensures s == Share(user, permission, now)
    {
      var j :| 0 <= j < |r| && r[j] == s;
      if k >= 0 {
        assert j == k;
      }
    }
  }

  /** unshareWith removes exactly that user's share. */
  lemma UnshareRemovesOnlyThatUser(shares: seq<Share>, user: string)
    ensures forall s :: s in UnshareSpec(shares, user) <==> s in shares && s.user != user
  {
  }

  // ---- Price alerts ----

  /** One item's alert: enabled, product found, and its base price at or under a set target. */
  predicate AlertFires(it: WishItem, prices: map<string, real>)
  {
    it.priceAlert.enabled && it.product in prices && it.priceAlert.targetPrice.Some? &&
    prices[it.product] <= it.priceAlert.targetPrice.value
  }

  function HitFor(it: WishItem, prices: map<string, real>): Hit
    requires AlertFires(it, prices)
  {
    Hit(it.product, prices[it.product], it.priceAlert.targetPrice.value)
  }

  function Hits(items: seq<WishItem>, prices: map<string, real>): seq<Hit>
  {
    if items == [] then []
    else
      var last := items[|items| - 1];
      Hits(items[..|items| - 1], prices) + (if AlertFires(last, prices) then [HitFor(last, prices)] else [])
  }

  /** Every enabled alert is stamped as checked. */
  function Stamp(it: WishItem, now: int): WishItem
  {
    if it.priceAlert.enabled then it.(priceAlert := it.priceAlert.(lastChecked := Some(now))) else it
  }

  /** One hit per firing item, in item order, and none for any other item. */
  lemma {:induction false} HitsExactlyFiring(items: seq<WishItem>, prices: map<string, real>)
    ensures |Hits(items, prices)| == Count(items, (it: WishItem) => AlertFires(it, prices))
    ensures forall h :: h in Hits(items, prices) ==>
              exists k :: 0 <= k < |items| && AlertFires(items[k], prices) && h == HitFor(items[k], prices)
    ensures forall k :: 0 <= k < |items| && AlertFires(items[k], prices) ==> HitFor(items[k], prices) in Hits(items, prices)
  {
    if items != [] {
      var init := items[..|items| - 1];
      HitsExactlyFiring(init, prices);
      assert forall k :: 0 <= k < |init| ==> init[k] == items[k];
    }
  }

  /** moveToCart on the document: it calls cart.addItem, which the cart document does not define. */
  function DocMoveToCart(items: seq<WishItem>, product: string): (e: Error)
    ensures e == Thrown(MSG_ITEM_NOT_IN_WISHLIST) <==> forall k :: 0 <= k < |items| ==> items[k].product != product
    ensures e.Thrown?
  {
    if IndexOfProduct(items, product) < 0 then Thrown(MSG_ITEM_NOT_IN_WISHLIST) else Thrown(MSG_CART_ADD_ITEM_MISSING)
  }

  /** The wishlist document's own methods; the save each ends with is WishlistRepository.Save. */
  class WishlistDoc {
    var user: string
    var items: seq<WishItem>
    var sharedWith: seq<Share>
    var lastUpdated: int

    constructor (user: string, now: int)
      ensures this.user == user && items == [] && sharedWith == [] && lastUpdated == now
    {
      this.user := user;
      items := [];
      sharedWith := [];
      lastUpdated := now;
    }

    method AddItem(product: string, opts: ItemFields, stores: map<string, string>, id: string, now: int)
      returns (r: Result<()>)
      modifies this
      ensures var spec := AddItemSpec(old(items), stores, product, opts, id, now);
              (r.Ok? <==> spec.Ok?) &&
              (spec.Ok? ==> items == spec.value && lastUpdated == now) &&
              (spec.Fail? ==> r == Fail(spec.error) && items == old(items) && lastUpdated == old(lastUpdated))
      ensures sharedWith == old(sharedWith) && user == old(user)
    {
      if product !in stores {
        return Fail(Thrown(MSG_PRODUCT_NOT_FOUND));
      }
      if IndexOfProduct(items, product) >= 0 {
        return Fail(Thrown(MSG_ALREADY_PRESENT));
      }
      items := items + [NewItem(id, product, stores[product], opts, now)];
      lastUpdated := now;
      r := Ok(());
    }

    method RemoveItem(product: string, now: int)
      modifies this
      ensures items == RemoveProduct(old(items), product) && lastUpdated == now
      ensures sharedWith == old(sharedWith) && user == old(user)
    {
      items := Filter(items, NotProduct(product));
      lastUpdated := now;
    }

    method UpdateItem(product: string, upd: ItemFields, now: int)
      modifies this
      ensures items == UpdateItemSpec(old(items), product, upd)
      ensures lastUpdated == if IndexOfProduct(old(items), product) >= 0 then now else old(lastUpdated)
      ensures sharedWith == old(sharedWith) && user == old(user)
    {
      var k := IndexOfProduct(items, product);
      if k >= 0 {
        items := items[k := Merge(items[k], upd)];
        lastUpdated := now;
      }
    }

    method ShareWith(other: string, permission: Permission, now: int)
      modifies this
      ensures sharedWith == ShareSpec(old(sharedWith), other, permission, now)
      ensures items == old(items) && lastUpdated == old(lastUpdated) && user == old(user)
    {
      var k := IndexOfShare(sharedWith, other);
      if k >= 0 {
        sharedWith := sharedWith[k := Share(other, permission, now)];
      } else {
        sharedWith := sharedWith + [Share(other, permission, now)];
      }
    }

    method UnshareWith(other: string)
      modifies this
      ensures sharedWith == UnshareSpec(old(sharedWith), other)
      ensures items == old(items) && lastUpdated == old(lastUpdated) && user == old(user)
    {
      sharedWith := Filter(sharedWith, NotSharedWith(other));
    }

    /** checkPriceAlerts: one pass collecting the hits and stamping every enabled item. */
    method CheckPriceAlerts(prices: map<string, real>, now: int) returns (alerts: seq<Hit>)
      modifies this
      ensures alerts == Hits(old(items), prices)
      ensures |items| == |old(items)| && forall k :: 0 <= k < |items| ==> items[k] == Stamp(old(items)[k], now)
      ensures sharedWith == old(sharedWith) && lastUpdated == old(lastUpdated) && user == old(user)
    {
      alerts := [];
      ghost var before := items;
      var k := 0;
      while k < |items|
        invariant 0 <= k <= |items| && |items| == |before|
        invariant alerts == Hits(before[..k], prices)
        invariant forall j :: 0 <= j < k ==> items[j] == Stamp(before[j], now)
        invariant forall j :: k <= j < |items| ==> items[j] == before[j]
      invariant sharedWith == old(sharedWith) && lastUpdated == old(lastUpdated) && user == old(user)
      {
        var item := items[k];
        assert before[..k + 1][..k] == before[..k];
        if item.priceAlert.enabled {
          if item.product in prices && item.priceAlert.targetPrice.Some? &&
             prices[item.product] <= item.priceAlert.targetPrice.value {
            alerts := alerts + [Hit(item.product, prices[item.product], item.priceAlert.targetPrice.value)];
          }
          items := items[k := item.(priceAlert := item.priceAlert.(lastChecked := Some(now)))];
        }
        k := k + 1;
      }
      assert before[..|before|] == before;
    }
  }

  // ---- Repository over the stored wishlists ----

  datatype Wishlist = Wishlist(
    id: string,
    user: string,
    name: string,
    description: Option<string>,
    isDefault: bool,
    isPublic: bool,
    items: seq<WishItem>)

  /** The fields an update may set. */
  datatype Patch = Patch(name: Option<string>, description: Option<string>, isDefault: Option<bool>,
                         isPublic: Option<bool>, items: Option<seq<WishItem>>)

  function IndexOfList(lists: seq<Wishlist>, id: string): (i: int)
    ensures -1 <= i < |lists|
    ensures 0 <= i ==> lists[i].id == id
    ensures i < 0 ==> forall k :: 0 <= k < |lists| ==> lists[k].id != id
  {
    if lists == [] then -1
    else if lists[0].id == id then 0
    else
      var k := IndexOfList(lists[1..], id);
      if k < 0 then -1 else k + 1
  }

  function IndexOfWishItem(items: seq<WishItem>, id: string): (i: int)
    ensures -1 <= i < |items|
    ensures 0 <= i ==> items[i].id == id
    ensures i < 0 ==> forall k :: 0 <= k < |items| ==> items[k].id != id
  {
    if items == [] then -1
    else if items[0].id == id then 0
    else
      var k := IndexOfWishItem(items[1..], id);
      if k < 0 then -1 else k + 1
  }

  predicate UniqueIds(lists: seq<Wishlist>)
  {
    forall i, j :: 0 <= i < j < |lists| ==> lists[i].id != lists[j].id
  }

  /** The number of a user's wishlists marked default. */
  function DefaultCount(lists: seq<Wishlist>, user: string): nat
  {
    Count(lists, (w: Wishlist) => w.user == user && w.isDefault)
  }

  /** updateMany({ user }, { isDefault: false }). */
  function ClearDefaults(lists: seq<Wishlist>, user: string): (r: seq<Wishlist>)
    ensures |r| == |lists|
    ensures forall k :: 0 <= k < |lists| ==>
              r[k] == (if lists[k].user == user then lists[k].(isDefault := false) else lists[k])
  {
    if lists == [] then []
    else
      var w := lists[|lists| - 1];
      ClearDefaults(lists[..|lists| - 1], user) + [if w.user == user then w.(isDefault := false) else w]
  }

  /** The pre-save hook's updateMany: the user's other wishlists lose isDefault. */
  function ClearOtherDefaults(lists: seq<Wishlist>, user: string, id: string): (r: seq<Wishlist>)
    ensures |r| == |lists|
    ensures forall k :: 0 <= k < |lists| ==>
              r[k] == (if lists[k].user == user && lists[k].id != id then lists[k].(isDefault := false) else lists[k])
  {
    if lists == [] then []
    else
      var w := lists[|lists| - 1];
      ClearOtherDefaults(lists[..|lists| - 1], user, id) + [if w.user == user && w.id != id then w.(isDefault := false) else w]
  }

  /** Saving a document: the hook (for a default list), then the write (replace, or insert a new one). */
  function SaveSpec(lists: seq<Wishlist>, w: Wishlist): seq<Wishlist>
  {
    var cleared := if w.isDefault then ClearOtherDefaults(lists, w.user, w.id) else lists;
    var i := IndexOfList(cleared, w.id);
    if i < 0 then cleared + [w] else cleared[i := w]
  }

  function ApplyPatch(w: Wishlist, p: Patch): Wishlist
  {
    w.(name := if p.name.Some? then p.name.value else w.name,
       description := if p.description.Some? then p.description else w.description,
       isDefault := if p.isDefault.Some? then p.isDefault.value else w.isDefault,
       isPublic := if p.isPublic.Some? then p.isPublic.value else w.isPublic,
       items := if p.items.Some? then p.items.value else w.items)
  }

  datatype Outcome<T> = Outcome(result: T, lists: seq<Wishlist>)

  /** findByIdAndUpdate: null for an unknown id. */
  function UpdateSpec(lists: seq<Wishlist>, id: string, p: Patch): Outcome<Option<Wishlist>>
  {
    var i := IndexOfList(lists, id);
    if i < 0 then Outcome(None, lists) else Outcome(Some(ApplyPatch(lists[i], p)), lists[i := ApplyPatch(lists[i], p)])
  }

  /** setDefault: clear all of userId's defaults, then mark the given id. */
  function SetDefaultSpec(lists: seq<Wishlist>, id: string, user: string): Outcome<Option<Wishlist>>
  {
    UpdateSpec(ClearDefaults(lists, user), id, Patch(None, None, Some(true), None, None))
  }

  /** When the default flag is set on one of the user's lists, it is the user's only default. */
  predicate OnlyDefault(lists: seq<Wishlist>, user: string, id: string)
  {
    forall k :: 0 <= k < |lists| && lists[k].user == user ==> (lists[k].isDefault <==> lists[k].id == id)
  }

  /** Saving a default wishlist leaves it its user's only default. */
  lemma SaveDefaultIsOnlyDefault(lists: seq<Wishlist>, w: Wishlist)
    requires UniqueIds(lists) && w.isDefault
    ensures OnlyDefault(SaveSpec(lists, w), w.user, w.id)
    ensures UniqueIds(SaveSpec(lists, w))
  {
    var cleared := ClearOtherDefaults(lists, w.user, w.id);
    assert forall k :: 0 <= k < |cleared| ==> cleared[k].id == lists[k].id;
  }

  /** setDefault on one of the user's own lists leaves exactly that list default among theirs. */
  lemma SetDefaultOwnListIsOnlyDefault(lists: seq<Wishlist>, id: string, user: string)
    requires UniqueIds(lists)
    requires var i := IndexOfList(lists, id); i >= 0 && lists[i].user == user
    ensures OnlyDefault(SetDefaultSpec(lists, id, user).lists, user, id)
    ensures DefaultCount(SetDefaultSpec(lists, id, user).lists, user) == 1
  {
    var i := IndexOfList(lists, id);
    var cleared := ClearDefaults(lists, user);
    SameListIds(cleared, lists);
    IndexOfOwnList(cleared, i);
    var patch := Patch(None, None, Some(true), None, None);
    assert SetDefaultSpec(lists, id, user).lists == cleared[i := ApplyPatch(cleared[i], patch)];
    ClearThenMark(lists, user, i, ApplyPatch(cleared[i], patch));
  }

  /** Clearing a user's defaults and then marking one of their lists leaves that list their only default. */
  lemma ClearThenMark(lists: seq<Wishlist>, user: string, i: int, w: Wishlist)
    requires UniqueIds(lists) && 0 <= i < |lists| && lists[i].user == user
    requires w.id == lists[i].id && w.user == user && w.isDefault
    ensures var r := ClearDefaults(lists, user)[i := w];
            UniqueIds(r) && OnlyDefault(r, user, w.id) && DefaultCount(r, user) == 1
  {
    var r := ClearDefaults(lists, user)[i := w];
    assert forall k :: 0 <= k < |r| ==> r[k].id == lists[k].id;
    forall k | 0 <= k < |r| && r[k].user == user
      ensures r[k].isDefault <==> r[k].id == w.id
    {
      if k != i {
        assert lists[k].id != lists[i].id;
      }
    }
    OnlyDefaultCount(r, user, w.id, i);
  }

  /** Clearing defaults keeps every id in place. */
  lemma SameListIds(cleared: seq<Wishlist>, lists: seq<Wishlist>)
    requires UniqueIds(lists) && |cleared| == |lists|
    requires forall k :: 0 <= k < |lists| ==> cleared[k] == lists[k] || cleared[k] == lists[k].(isDefault := false)
    ensures UniqueIds(cleared) && forall k :: 0 <= k < |lists| ==> cleared[k].id == lists[k].id
  {
    assert forall k :: 0 <= k < |lists| ==> cleared[k].id == lists[k].id;
  }

  lemma OnlyDefaultCount(lists: seq<Wishlist>, user: string, id: string, i: int)
    requires UniqueIds(lists) && 0 <= i < |lists| && lists[i].id == id && lists[i].user == user
    requires OnlyDefault(lists, user, id)
    ensures DefaultCount(lists, user) == 1
  {
    var p := (w: Wishlist) => w.user == user && w.isDefault;
    assert lists == lists[..i] + [lists[i]] + lists[i + 1..];
    CountAppend(lists[..i] + [lists[i]], lists[i + 1..], p);
    CountAppend(lists[..i], [lists[i]], p);
    NoneCounted(lists[..i], p);
    NoneCounted(lists[i + 1..], p);
    assert [lists[i]][..0] == [];
  }

  lemma {:induction false} NoneCounted<T>(s: seq<T>, p: T -> bool)
    requires forall k :: 0 <= k < |s| ==> !p(s[k])
    ensures Count(s, p) == 0
  {
    if s != [] {
      NoneCounted(s[..|s| - 1], p);
    }
  }

  /** setDefault on another user's list marks it without clearing that owner's other defaults. */
  lemma SetDefaultForeignListExample()
    ensures var lists := [Wishlist("a", "u1", "A", None, true, false, []), Wishlist("b", "u1", "B", None, false, false, [])];
            DefaultCount(SetDefaultSpec(lists, "b", "u2").lists, "u1") == 2
  {
    var lists := [Wishlist("a", "u1", "A", None, true, false, []), Wishlist("b", "u1", "B", None, false, false, [])];
    var r := SetDefaultSpec(lists, "b", "u2").lists;
    assert r == [lists[0], lists[1].(isDefault := true)];
    var p := (w: Wishlist) => w.user == "u1" && w.isDefault;
    assert r[..1] == [r[0]] && [r[0]][..0] == [];
  }

  function NotWishItem(itemId: string): WishItem -> bool
  {
    (it: WishItem) => it.id != itemId
  }

  function PullWishItem(items: seq<WishItem>, itemId: string): seq<WishItem>
  {
    Filter(items, NotWishItem(itemId))
  }

  function AddItemToListSpec(lists: seq<Wishlist>, id: string, item: WishItem): Outcome<Option<Wishlist>>
  {
    var i := IndexOfList(lists, id);
    if i < 0 then Outcome(None, lists)
    else UpdateSpec(lists, id, Patch(None, None, None, None, Some(lists[i].items + [item])))
  }

  function RemoveItemFromListSpec(lists: seq<Wishlist>, id: string, itemId: string): Outcome<Option<Wishlist>>
  {
    var i := IndexOfList(lists, id);
    if i < 0 then Outcome(None, lists)
    else UpdateSpec(lists, id, Patch(None, None, None, None, Some(PullWishItem(lists[i].items, itemId))))
  }

  /** search: public lists whose name or description matches the query (`matches` is the case-insensitive regex test). */
  predicate SearchHit(w: Wishlist, query: string, matches: (string, string) -> bool)
  {
    w.isPublic && (matches(w.name, query) || (w.description.Some? && matches(w.description.value, query)))
  }

  class WishlistRepository {
    var lists: seq<Wishlist>

    predicate Valid()
      reads this
    {
      UniqueIds(lists)
    }

    constructor ()
      ensures Valid() && lists == []
    {
      lists := [];
    }

    method FindById(id: string) returns (r: Option<Wishlist>)
      ensures r.None? <==> IndexOfList(lists, id) < 0
      ensures r.Some? ==> r.value == lists[IndexOfList(lists, id)]
    {
      var i := IndexOfList(lists, id);
      r := if i < 0 then None else Some(lists[i]);
    }

    method FindByUser(user: string) returns (r: seq<Wishlist>)
      ensures forall w :: w in r <==> w in lists && w.user == user
    {
      r := Filter(lists, (w: Wishlist) => w.user == user);
    }

    /** findDefaultByUser: the first default list of the user. */
    method FindDefaultByUser(user: string) returns (r: Option<Wishlist>)
      ensures r.Some? ==> r.value in lists && r.value.user == user && r.value.isDefault
      ensures r.None? <==> forall k :: 0 <= k < |lists| ==> !(lists[k].user == user && lists[k].isDefault)
    {
      var i := FindIndex(lists, (w: Wishlist) => w.user == user && w.isDefault);
      r := if i < 0 then None else Some(lists[i]);
    }

    method FindPublic() returns (r: seq<Wishlist>)
      ensures forall w :: w in r <==> w in lists && w.isPublic
    {
      r := Filter(lists, (w: Wishlist) => w.isPublic);
    }

    method Search(query: string, matches: (string, string) -> bool) returns (r: seq<Wishlist>)
      ensures forall w :: w in r <==> w in lists && SearchHit(w, query, matches)
      ensures forall w :: w in r ==> w.isPublic
    {
      r := Filter(lists, (w: Wishlist) => SearchHit(w, query, matches));
    }

    /** save (create or a document's save): the default hook, then the write. */
    method Save(w: Wishlist)
      requires Valid()
      modifies this
      ensures Valid() && lists == SaveSpec(old(lists), w)
    {
      if w.isDefault {
        lists := ClearOtherDefaults(lists, w.user, w.id);
        assert forall k :: 0 <= k < |lists| ==> lists[k].id == old(lists)[k].id;
      }
      var i := IndexOfList(lists, w.id);
      if i < 0 {
        lists := lists + [w];
      } else {
        lists := lists[i := w];
      }
    }

    /** The model's updateMany clearing a user's defaults, as setDefault runs it; the service expects it on the repository. */
    method UpdateMany(user: string)
      requires Valid()
      modifies this
      ensures Valid() && lists == ClearDefaults(old(lists), user)
    {
      lists := ClearDefaults(lists, user);
      assert forall k :: 0 <= k < |lists| ==> lists[k].id == old(lists)[k].id;
    }

    method Update(id: string, p: Patch) returns (r: Option<Wishlist>)
      requires Valid()
      modifies this
      ensures Valid() && Outcome(r, lists) == UpdateSpec(old(lists), id, p)
    {
      var i := IndexOfList(lists, id);
      if i < 0 {
        return None;
      }
      var w := ApplyPatch(lists[i], p);
      lists := lists[i := w];
      r := Some(w);
    }

    method AddItem(id: string, item: WishItem) returns (r: Option<Wishlist>)
      requires Valid()
      modifies this
      ensures Valid() && Outcome(r, lists) == AddItemToListSpec(old(lists), id, item)
    {
      var i := IndexOfList(lists, id);
      if i < 0 {
        return None;
      }
      r := Update(id, Patch(None, None, None, None, Some(lists[i].items + [item])));
    }

    method RemoveItem(id: string, itemId: string) returns (r: Option<Wishlist>)
      requires Valid()
      modifies this
      ensures Valid() && Outcome(r, lists) == RemoveItemFromListSpec(old(lists), id, itemId)
    {
      var i := IndexOfList(lists, id);
      if i < 0 {
        return None;
      }
      r := Update(id, Patch(None, None, None, None, Some(PullWishItem(lists[i].items, itemId))));
    }

    method UpdateVisibility(id: string, isPublic: bool) returns (r: Option<Wishlist>)
      requires Valid()
      modifies this
      ensures Valid() && Outcome(r, lists) == UpdateSpec(old(lists), id, Patch(None, None, None, Some(isPublic), None))
    {
      r := Update(id, Patch(None, None, None, Some(isPublic), None));
    }

    method SetDefault(id: string, user: string) returns (r: Option<Wishlist>)
      requires Valid()
      modifies this
      ensures Valid() && Outcome(r, lists) == SetDefaultSpec(old(lists), id, user)
    {
      UpdateMany(user);
      r := Update(id, Patch(None, None, Some(true), None, None));
    }
  }

  /** updateVisibility changes isPublic and nothing else. */
  lemma VisibilityChangesOnlyIsPublic(lists: seq<Wishlist>, id: string, isPublic: bool)
    ensures var out := UpdateSpec(lists, id, Patch(None, None, None, Some(isPublic), None));
            |out.lists| == |lists| &&
            forall k :: 0 <= k < |lists| ==> out.lists[k] == (if lists[k].id == id && k == IndexOfList(lists, id)
                                                             then lists[k].(isPublic := isPublic) else lists[k])
  {
  }

  // ---- Service ----

  /** The line moveToCart / moveAllToCart hand to the cart service: the product and store, quantity 1. */
  function LineFor(it: WishItem, lineId: string): Carts.CartItem
  {
    Carts.CartItem(lineId, it.product, it.store, 1, 0.0)
  }

  /** The data of cartService.create({ user, items: [] }), with the creator the call passes. */
  function NewCart(id: string, user: string, creator: Option<string>, now: int): Carts.Cart
  {
    Carts.Cart(id, user, [], Carts.Active, 0.0, 0.0, 0.0, 0.0, 0.0, now, creator)
  }

  /** The user's active cart, or a new one created through the cart service with that creator. */
  function ActiveOrNewCartWith(carts: seq<Carts.Cart>, user: string, newId: string, creator: Option<string>, now: int)
    : Carts.Outcome<Result<Carts.Cart>>
  {
    var k := Carts.IndexOfActive(carts, user);
    if k >= 0 then Carts.Outcome(Ok(carts[k]), carts)
    else Carts.CreateSpec(carts, NewCart(newId, user, creator, now), now)
  }

  /** As written, moveToCart and moveAllToCart create the cart without the required createdBy. */
  function ActiveOrNewCartAsWritten(carts: seq<Carts.Cart>, user: string, newId: string, now: int)
    : Carts.Outcome<Result<Carts.Cart>>
  {
    ActiveOrNewCartWith(carts, user, newId, None, now)
  }

  /** As written, a user without an active cart never gets one: the create is refused and nothing is stored. */
  lemma NewCartWithoutCreatorRefused(carts: seq<Carts.Cart>, user: string, newId: string, now: int)
    ensures var out := ActiveOrNewCartAsWritten(carts, user, newId, now);
            (out.result.Ok? <==> Carts.IndexOfActive(carts, user) >= 0) &&
            (Carts.IndexOfActive(carts, user) < 0 ==> out == Carts.Outcome(Fail(Thrown(Carts.MSG_VALIDATION)), carts))
  {
  }

  /** Corrected: the user is recorded as the creator of the cart made for them. */
  function ActiveOrNewCart(carts: seq<Carts.Cart>, user: string, newId: string, now: int)
    : Carts.Outcome<Result<Carts.Cart>>
  {
    ActiveOrNewCartWith(carts, user, newId, Some(user), now)
  }

  datatype Moved = Moved(result: Result<Carts.Cart>, lists: seq<Wishlist>, carts: seq<Carts.Cart>)

  /** moveToCart as written: `this.findById` is not defined, so the call throws before anything happens. */
  function MoveToCartAsWritten(lists: seq<Wishlist>, carts: seq<Carts.Cart>): Moved
  {
    Moved(Fail(Thrown(MSG_FIND_BY_ID_MISSING)), lists, carts)
  }

  /** As written, moving an item from a wishlist to the cart never succeeds, whatever the state. */
  lemma MoveToCartAsWrittenNeverMoves(lists: seq<Wishlist>, carts: seq<Carts.Cart>)
    ensures MoveToCartAsWritten(lists, carts).result.Fail?
    ensures MoveToCartAsWritten(lists, carts).lists == lists && MoveToCartAsWritten(lists, carts).carts == carts
  {
  }

  /**
   * moveToCart with the wishlist looked up through the repository: the item
   * must be in the list; the user's active cart (created if missing) gets the
   * product with quantity 1 through the cart service, then the item leaves the list.
   */
  function MoveToCartSpec(lists: seq<Wishlist>, carts: seq<Carts.Cart>, products: map<string, Carts.Product>,
                          wishlistId: string, itemId: string, user: string, newCartId: string, lineId: string,
                          now: int): Moved
  {
    var i := IndexOfList(lists, wishlistId);
    if i < 0 then Moved(Fail(Thrown(MSG_NULL_READ)), lists, carts)
    else
      var k := IndexOfWishItem(lists[i].items, itemId);
      if k < 0 then Moved(Fail(Thrown(MSG_ITEM_NOT_IN_WISHLIST)), lists, carts)
      else
        var made := ActiveOrNewCart(carts, user, newCartId, now);
        if made.result.Fail? then Moved(Fail(made.result.error), lists, made.carts)
        else
          var cart := made.result.value;
          var added := Carts.ServiceAddItemSpec(made.carts, products, cart.id, LineFor(lists[i].items[k], lineId), now);
          if added.result.Fail? then Moved(Fail(added.result.error), lists, added.carts)
          else Moved(Ok(cart), RemoveItemFromListSpec(lists, wishlistId, itemId).lists, added.carts)
  }

  /**
   * Corrected, the user gets a cart exactly when they have an active one or a
   * user id to create one under; the cart is then their active cart, stored
   * as returned, and ids stay unique; otherwise nothing is stored.
   */
  lemma ActiveOrNewCartFacts(carts: seq<Carts.Cart>, user: string, newId: string, now: int)
    requires Carts.UniqueIds(carts)
    requires Carts.IndexOfActive(carts, user) < 0 ==> Carts.IndexOfCart(carts, newId) < 0
    ensures var out := ActiveOrNewCart(carts, user, newId, now);
            (out.result.Ok? <==> Carts.IndexOfActive(carts, user) >= 0 || user != "") &&
            (out.result.Fail? ==> out.carts == carts) &&
            (out.result.Ok? ==>
              var cart := out.result.value;
              Carts.UniqueIds(out.carts) && Carts.IsActiveOf(cart, user) && Carts.IndexOfCart(out.carts, cart.id) >= 0 &&
              out.carts[Carts.IndexOfCart(out.carts, cart.id)] == cart)
  {
    var k := Carts.IndexOfActive(carts, user);
    if k >= 0 {
      Carts.IndexOfOwnId(carts, k);
    } else {
      var c := NewCart(newId, user, Some(user), now);
      Carts.CreateStoresRetotalledCart(carts, c, now);
      var out := Carts.CreateSpec(carts, c, now);
      if out.result.Ok? {
        Carts.IndexOfOwnId(out.carts, |carts|);
      }
    }
  }

  /**
   * A move succeeds exactly when the item is listed and its product is known
   * with stock for one unit; it then leaves the list and ends the active cart
   * as a quantity-1 line at the product's price.
   */
  lemma MoveToCartMovesOneLine(lists: seq<Wishlist>, carts: seq<Carts.Cart>, products: map<string, Carts.Product>,
                               wishlistId: string, itemId: string, user: string, newCartId: string, lineId: string,
                               now: int)
    requires UniqueIds(lists) && Carts.UniqueIds(carts)
    requires Carts.IndexOfActive(carts, user) < 0 ==> Carts.IndexOfCart(carts, newCartId) < 0
    ensures var out := MoveToCartSpec(lists, carts, products, wishlistId, itemId, user, newCartId, lineId, now);
            var i := IndexOfList(lists, wishlistId);
            out.result.Ok? <==>
              i >= 0 && IndexOfWishItem(lists[i].items, itemId) >= 0 &&
              (Carts.IndexOfActive(carts, user) >= 0 || user != "") &&
              var item := lists[i].items[IndexOfWishItem(lists[i].items, itemId)];
              item.product in products && products[item.product].stock >= 1
    ensures var out := MoveToCartSpec(lists, carts, products, wishlistId, itemId, user, newCartId, lineId, now);
            var i := IndexOfList(lists, wishlistId);
            out.result.Ok? ==>
              var item := lists[i].items[IndexOfWishItem(lists[i].items, itemId)];
              var j := Carts.IndexOfCart(out.carts, out.result.value.id);
              out.lists[i].items == PullWishItem(lists[i].items, itemId) &&
              j >= 0 &&
              out.carts[j].items == out.result.value.items + [Carts.CartItem(lineId, item.product, item.store, 1, products[item.product].price)]
    ensures var out := MoveToCartSpec(lists, carts, products, wishlistId, itemId, user, newCartId, lineId, now);
            out.result.Fail? ==> out.lists == lists
  {
    var out := MoveToCartSpec(lists, carts, products, wishlistId, itemId, user, newCartId, lineId, now);
    var i := IndexOfList(lists, wishlistId);
    if i >= 0 && IndexOfWishItem(lists[i].items, itemId) >= 0 {
      var item := lists[i].items[IndexOfWishItem(lists[i].items, itemId)];
      var made := ActiveOrNewCart(carts, user, newCartId, now);
      ActiveOrNewCartFacts(carts, user, newCartId, now);
      if made.result.Ok? {
        var cart := made.result.value;
        var carts1 := made.carts;
        var line := LineFor(item, lineId);
        Carts.AddItemSucceedsIff(carts1, products, cart.id, line, now);
        Carts.AddItemStoresCurrentPriceAndRetotals(carts1, products, cart.id, line, now);
        var added := Carts.ServiceAddItemSpec(carts1, products, cart.id, line, now);
        if added.result.Ok? {
          var j := Carts.IndexOfCart(carts1, cart.id);
          assert added.carts[j].id == cart.id;
          Carts.AddItemKeepsIds(carts1, products, cart.id, line, now);
          Carts.SameIdsSameIndex(added.carts, carts1, cart.id);
        }
      }
    }
  }

  /** moveAllToCart's loop: each item to the cart in order, stopping at the first failure. */
  function AddAllSpec(carts: seq<Carts.Cart>, products: map<string, Carts.Product>, cartId: string,
                      items: seq<WishItem>, lineIds: nat -> string, now: int): Carts.Outcome<Result<()>>
  {
    if items == [] then Carts.Outcome(Ok(()), carts)
    else
      var n := |items| - 1;
      var prev := AddAllSpec(carts, products, cartId, items[..n], lineIds, now);
      if prev.result.Fail? then prev
      else
        var a := Carts.ServiceAddItemSpec(prev.carts, products, cartId, LineFor(items[n], lineIds(n)), now);
        Carts.Outcome(if a.result.Ok? then Ok(()) else Fail(a.result.error), a.carts)
  }

  /** The lines moveAllToCart appends, in item order. */
  function LinesFor(items: seq<WishItem>, lineIds: nat -> string, products: map<string, Carts.Product>): seq<Carts.CartItem>
    requires forall k :: 0 <= k < |items| ==> Movable(items[k], products)
  {
    if items == [] then []
    else
      var n := |items| - 1;
      assert Movable(items[n], products);
      LinesFor(items[..n], lineIds, products) +
        [Carts.CartItem(lineIds(n), items[n].product, items[n].store, 1, products[items[n].product].price)]
  }

  predicate Movable(it: WishItem, products: map<string, Carts.Product>)
  {
    it.product in products && products[it.product].stock >= 1
  }

  /** Two store states holding the same cart ids in the same places. */
  predicate SameIds(a: seq<Carts.Cart>, b: seq<Carts.Cart>)
  {
    |a| == |b| && forall j :: 0 <= j < |a| ==> a[j].id == b[j].id
  }

  /** Moving items never adds, drops or reorders carts. */
  lemma {:induction false} AddAllKeepsIds(carts: seq<Carts.Cart>, products: map<string, Carts.Product>, cartId: string,
                                          items: seq<WishItem>, lineIds: nat -> string, now: int)
    requires Carts.UniqueIds(carts)
    ensures var out := AddAllSpec(carts, products, cartId, items, lineIds, now);
            SameIds(out.carts, carts) && Carts.UniqueIds(out.carts)
  {
    if items != [] {
      var n := |items| - 1;
      AddAllKeepsIds(carts, products, cartId, items[..n], lineIds, now);
      var prev := AddAllSpec(carts, products, cartId, items[..n], lineIds, now);
      if prev.result.Ok? {
        Carts.AddItemKeepsIds(prev.carts, products, cartId, LineFor(items[n], lineIds(n)), now);
      }
    }
  }

  /** Every item's product is known with stock for one unit. */
  predicate AllMovable(items: seq<WishItem>, products: map<string, Carts.Product>)
  {
    forall k :: 0 <= k < |items| ==> Movable(items[k], products)
  }

  lemma AllMovableSnoc(items: seq<WishItem>, products: map<string, Carts.Product>)
    requires items != []
    ensures AllMovable(items, products) <==>
            AllMovable(items[..|items| - 1], products) && Movable(items[|items| - 1], products)
  {
    var n := |items| - 1;
    assert forall k :: 0 <= k < n ==> items[..n][k] == items[k];
  }

  /** Moving every item succeeds exactly when each product is known with stock for one unit. */
  lemma {:induction false} AddAllOkIffMovable(carts: seq<Carts.Cart>, products: map<string, Carts.Product>, cartId: string,
                                              items: seq<WishItem>, lineIds: nat -> string, now: int)
    requires Carts.UniqueIds(carts) && Carts.IndexOfCart(carts, cartId) >= 0
    ensures AddAllSpec(carts, products, cartId, items, lineIds, now).result.Ok? <==> AllMovable(items, products)
  {
    if items != [] {
      var n := |items| - 1;
      AddAllOkIffMovable(carts, products, cartId, items[..n], lineIds, now);
      AllMovableSnoc(items, products);
      if AddAllSpec(carts, products, cartId, items[..n], lineIds, now).result.Fail? {
        AddAllStopsAtFailure(carts, products, cartId, items, lineIds, now, n);
      } else {
        AddAllLastStep(carts, products, cartId, items, lineIds, now);
      }
    }
  }

  /** After a successful prefix, the whole move succeeds exactly when the last item is movable. */
  lemma AddAllLastStep(carts: seq<Carts.Cart>, products: map<string, Carts.Product>, cartId: string,
                       items: seq<WishItem>, lineIds: nat -> string, now: int)
    requires Carts.UniqueIds(carts) && Carts.IndexOfCart(carts, cartId) >= 0 && items != []
    requires AddAllSpec(carts, products, cartId, items[..|items| - 1], lineIds, now).result.Ok?
    ensures AddAllSpec(carts, products, cartId, items, lineIds, now).result.Ok? <==> Movable(items[|items| - 1], products)
  {
    var n := |items| - 1;
    var prev := AddAllSpec(carts, products, cartId, items[..n], lineIds, now);
    AddAllKeepsIds(carts, products, cartId, items[..n], lineIds, now);
    Carts.SameIdsSameIndex(prev.carts, carts, cartId);
    Carts.AddItemSucceedsIff(prev.carts, products, cartId, LineFor(items[n], lineIds(n)), now);
  }

  /** After a successful move of every item the cart holds its old lines followed by one quantity-1 line per item, in order. */
  lemma {:induction false} AddAllAppendsLines(carts: seq<Carts.Cart>, products: map<string, Carts.Product>, cartId: string,
                                              items: seq<WishItem>, lineIds: nat -> string, now: int)
    requires Carts.UniqueIds(carts) && Carts.IndexOfCart(carts, cartId) >= 0
    requires AllMovable(items, products)
    ensures var out := AddAllSpec(carts, products, cartId, items, lineIds, now);
            var c := Carts.IndexOfCart(carts, cartId);
            SameIds(out.carts, carts) &&
            out.carts[c].items == carts[c].items + LinesFor(items, lineIds, products)
  {
    AddAllKeepsIds(carts, products, cartId, items, lineIds, now);
    if items != [] {
      var n := |items| - 1;
      var init := items[..n];
      AllMovableSnoc(items, products);
      AddAllAppendsLines(carts, products, cartId, init, lineIds, now);
      AddAllOkIffMovable(carts, products, cartId, init, lineIds, now);
      AddAllLastLine(carts, products, cartId, items, lineIds, now);
    }
  }

  /** After a successful prefix, moving a movable last item appends its line to the cart. */
  lemma AddAllLastLine(carts: seq<Carts.Cart>, products: map<string, Carts.Product>, cartId: string,
                       items: seq<WishItem>, lineIds: nat -> string, now: int)
    requires Carts.UniqueIds(carts) && Carts.IndexOfCart(carts, cartId) >= 0 && items != []
    requires AddAllSpec(carts, products, cartId, items[..|items| - 1], lineIds, now).result.Ok?
    requires Movable(items[|items| - 1], products)
    ensures var n := |items| - 1;
            var c := Carts.IndexOfCart(carts, cartId);
            var prev := AddAllSpec(carts, products, cartId, items[..n], lineIds, now).carts;
            var out := AddAllSpec(carts, products, cartId, items, lineIds, now).carts;
            |prev| == |out| == |carts| &&
            out[c].items == prev[c].items +
              [Carts.CartItem(lineIds(n), items[n].product, items[n].store, 1, products[items[n].product].price)]
  {
    var n := |items| - 1;
    var prev := AddAllSpec(carts, products, cartId, items[..n], lineIds, now);
    AddAllKeepsIds(carts, products, cartId, items[..n], lineIds, now);
    AddAllKeepsIds(carts, products, cartId, items, lineIds, now);
    Carts.SameIdsSameIndex(prev.carts, carts, cartId);
    Carts.AddItemStoresCurrentPriceAndRetotals(prev.carts, products, cartId, LineFor(items[n], lineIds(n)), now);
  }

  /** After a successful prefix, the next item's move decides the next outcome. */
  lemma AddAllPrefixStep(carts: seq<Carts.Cart>, products: map<string, Carts.Product>, cartId: string,
                         items: seq<WishItem>, lineIds: nat -> string, now: int, k: nat)
    requires k < |items|
    requires AddAllSpec(carts, products, cartId, items[..k], lineIds, now).result.Ok?
    ensures var a := Carts.ServiceAddItemSpec(AddAllSpec(carts, products, cartId, items[..k], lineIds, now).carts,
                                              products, cartId, LineFor(items[k], lineIds(k)), now);
            AddAllSpec(carts, products, cartId, items[..k + 1], lineIds, now) ==
              Carts.Outcome(if a.result.Ok? then Ok(()) else Fail(a.result.error), a.carts)
  {
    assert items[..k + 1][..k] == items[..k];
  }

  /** Once a move fails, the later items are not tried: the outcome is the failed prefix's. */
  lemma {:induction false} AddAllStopsAtFailure(carts: seq<Carts.Cart>, products: map<string, Carts.Product>, cartId: string,
                                                items: seq<WishItem>, lineIds: nat -> string, now: int, m: nat)
    requires m <= |items|
    requires AddAllSpec(carts, products, cartId, items[..m], lineIds, now).result.Fail?
    ensures AddAllSpec(carts, products, cartId, items, lineIds, now) == AddAllSpec(carts, products, cartId, items[..m], lineIds, now)
  {
    if m < |items| {
      var n := |items| - 1;
      assert items[..n][..m] == items[..m];
      AddAllStopsAtFailure(carts, products, cartId, items[..n], lineIds, now, m);
    } else {
      assert items[..m] == items;
    }
  }

  /** moveAllToCart as written: `this.findById` is not defined, so it throws before anything happens. */
  function MoveAllToCartAsWritten(lists: seq<Wishlist>, carts: seq<Carts.Cart>): Moved
  {
    Moved(Fail(Thrown(MSG_FIND_BY_ID_MISSING)), lists, carts)
  }

  /**
   * moveAllToCart with the repository lookup: every item goes to the active
   * cart (created if missing), then the list is emptied; a failing item aborts
   * with the lines before it already in the cart and the list untouched.
   */
  function MoveAllToCartSpec(lists: seq<Wishlist>, carts: seq<Carts.Cart>, products: map<string, Carts.Product>,
                             wishlistId: string, user: string, newCartId: string, lineIds: nat -> string,
                             now: int): Moved
  {
    var i := IndexOfList(lists, wishlistId);
    if i < 0 then Moved(Fail(Thrown(MSG_NULL_READ)), lists, carts)
    else
      var made := ActiveOrNewCart(carts, user, newCartId, now);
      if made.result.Fail? then Moved(Fail(made.result.error), lists, made.carts)
      else
        var cart := made.result.value;
        var added := AddAllSpec(made.carts, products, cart.id, lists[i].items, lineIds, now);
        if added.result.Fail? then Moved(Fail(added.result.error), lists, added.carts)
        else Moved(Ok(cart), UpdateSpec(lists, wishlistId, Patch(None, None, None, None, Some([]))).lists, added.carts)
  }

  /** A successful moveAllToCart leaves the wishlist empty and every item in the cart. */
  lemma MoveAllEmptiesList(lists: seq<Wishlist>, carts: seq<Carts.Cart>, products: map<string, Carts.Product>,
                           wishlistId: string, user: string, newCartId: string, lineIds: nat -> string, now: int)
    requires UniqueIds(lists) && Carts.UniqueIds(carts)
    requires Carts.IndexOfActive(carts, user) < 0 ==> Carts.IndexOfCart(carts, newCartId) < 0
    ensures var out := MoveAllToCartSpec(lists, carts, products, wishlistId, user, newCartId, lineIds, now);
            var i := IndexOfList(lists, wishlistId);
            out.result.Ok? ==>
              out.lists[i].items == [] &&
              (forall k :: 0 <= k < |lists[i].items| ==> Movable(lists[i].items[k], products)) &&
              var j := Carts.IndexOfCart(out.carts, out.result.value.id);
              j >= 0 && out.carts[j].items == out.result.value.items + LinesFor(lists[i].items, lineIds, products)
  {
    var i := IndexOfList(lists, wishlistId);
    var made := ActiveOrNewCart(carts, user, newCartId, now);
    ActiveOrNewCartFacts(carts, user, newCartId, now);
    if i >= 0 && made.result.Ok? {
      var cart := made.result.value;
      var carts1 := made.carts;
      AddAllOkIffMovable(carts1, products, cart.id, lists[i].items, lineIds, now);
      if forall k :: 0 <= k < |lists[i].items| ==> Movable(lists[i].items[k], products) {
        AddAllAppendsLines(carts1, products, cart.id, lists[i].items, lineIds, now);
      }
      AddAllKeepsIds(carts1, products, cart.id, lists[i].items, lineIds, now);
      var added := AddAllSpec(carts1, products, cart.id, lists[i].items, lineIds, now);
      Carts.SameIdsSameIndex(added.carts, carts1, cart.id);
    }
  }

  /**
   * update as written: with isDefault set it first calls the undefined
   * `this.findById` (and after it the undefined `this.repository.updateMany`).
   */
  function UpdateAsWritten(lists: seq<Wishlist>, id: string, p: Patch): Outcome<Result<Option<Wishlist>>>
  {
    if p.isDefault == Some(true) then Outcome(Fail(Thrown(MSG_FIND_BY_ID_MISSING)), lists)
    else var u := UpdateSpec(lists, id, p); Outcome(Ok(u.result), u.lists)
  }

  /** As written, no update can make a wishlist the default. */
  lemma UpdateToDefaultAsWrittenThrows(lists: seq<Wishlist>, id: string, p: Patch)
    requires p.isDefault == Some(true)
    ensures UpdateAsWritten(lists, id, p) == Outcome(Fail(Thrown(MSG_FIND_BY_ID_MISSING)), lists)
  {
  }

  /** update with the repository lookup: setting isDefault first clears the owner's defaults. */
  function UpdateCorrected(lists: seq<Wishlist>, id: string, p: Patch): Outcome<Result<Option<Wishlist>>>
  {
    if p.isDefault == Some(true) then
      var i := IndexOfList(lists, id);
      if i < 0 then Outcome(Fail(Thrown(MSG_NULL_READ)), lists)
      else var u := UpdateSpec(ClearDefaults(lists, lists[i].user), id, p); Outcome(Ok(u.result), u.lists)
    else var u := UpdateSpec(lists, id, p); Outcome(Ok(u.result), u.lists)
  }

  /** Corrected, an update that sets isDefault leaves the list its owner's only default. */
  lemma UpdateCorrectedLeavesOneDefault(lists: seq<Wishlist>, id: string, p: Patch)
    requires UniqueIds(lists) && p.isDefault == Some(true)
    requires IndexOfList(lists, id) >= 0
    ensures var i := IndexOfList(lists, id);
            var out := UpdateCorrected(lists, id, p);
            out.result.Ok? && OnlyDefault(out.lists, lists[i].user, id) &&
            DefaultCount(out.lists, lists[i].user) == 1
  {
    var i := IndexOfList(lists, id);
    var user := lists[i].user;
    var cleared := ClearDefaults(lists, user);
    SameListIds(cleared, lists);
    IndexOfOwnList(cleared, i);
    assert UpdateCorrected(lists, id, p).lists == cleared[i := ApplyPatch(cleared[i], p)];
    ClearThenMark(lists, user, i, ApplyPatch(cleared[i], p));
  }

  /** With unique ids, a wishlist's own id finds it. */
  lemma IndexOfOwnList(lists: seq<Wishlist>, k: int)
    requires UniqueIds(lists) && 0 <= k < |lists|
    ensures IndexOfList(lists, lists[k].id) == k
  {
  }

  /** create: with isDefault, clear the user's defaults first; the save hook runs as well. */
  function CreateSpec(lists: seq<Wishlist>, w: Wishlist): seq<Wishlist>
  {
    SaveSpec(if w.isDefault then ClearDefaults(lists, w.user) else lists, w)
  }

  /**
   * create as written: with isDefault set it calls `this.repository.updateMany`,
   * which neither the wishlist repository nor its base defines, so it throws
   * before anything is saved.
   */
  function CreateAsWritten(lists: seq<Wishlist>, w: Wishlist): Outcome<Result<Wishlist>>
  {
    if w.isDefault then Outcome(Fail(Thrown(MSG_UPDATE_MANY_MISSING)), lists)
    else Outcome(Ok(w), SaveSpec(lists, w))
  }

  /** As written, no wishlist can be created as a default one; others are saved as intended. */
  lemma CreateDefaultAsWrittenThrows(lists: seq<Wishlist>, w: Wishlist)
    ensures w.isDefault ==> CreateAsWritten(lists, w) == Outcome(Fail(Thrown(MSG_UPDATE_MANY_MISSING)), lists)
    ensures !w.isDefault ==> CreateAsWritten(lists, w) == Outcome(Ok(w), CreateSpec(lists, w))
  {
  }

  /** Corrected, creating a default wishlist leaves it its user's only default, ids staying unique. */
  lemma CreateDefaultIsOnlyDefault(lists: seq<Wishlist>, w: Wishlist)
    requires UniqueIds(lists) && w.isDefault
    ensures OnlyDefault(CreateSpec(lists, w), w.user, w.id) && UniqueIds(CreateSpec(lists, w))
  {
    var cleared := ClearDefaults(lists, w.user);
    SameListIds(cleared, lists);
    SaveDefaultIsOnlyDefault(cleared, w);
  }

  class WishlistService {
    const repo: WishlistRepository
    const cartService: Carts.CartService

    constructor (repo: WishlistRepository, cartService: Carts.CartService)
      ensures this.repo == repo && this.cartService == cartService
    {
      this.repo := repo;
      this.cartService := cartService;
    }

    predicate Valid()
      reads repo, cartService.repo
    {
      repo.Valid() && cartService.repo.Valid()
    }

    /** create, with the repository's updateMany supplied (see CreateAsWritten). */
    method Create(w: Wishlist) returns (r: Wishlist)
      requires Valid() && IndexOfList(repo.lists, w.id) < 0
      modifies repo
      ensures Valid() && r == w
      ensures repo.lists == CreateSpec(old(repo.lists), w)
    {
      if w.isDefault {
        repo.UpdateMany(w.user);
      }
      repo.Save(w);
      r := w;
    }

    /** update, with the owner looked up through the repository (see UpdateAsWritten). */
    method Update(id: string, p: Patch) returns (r: Result<Option<Wishlist>>)
      requires Valid()
      modifies repo
      ensures Valid()
      ensures Outcome(r, repo.lists) == UpdateCorrected(old(repo.lists), id, p)
    {
      if p.isDefault == Some(true) {
        var w := repo.FindById(id);
        if w.None? {
          return Fail(Thrown(MSG_NULL_READ));
        }
        repo.UpdateMany(w.value.user);
      }
      var u := repo.Update(id, p);
      r := Ok(u);
    }

    /** addItem: unknown product fails; the item takes the product's store. */
    method AddItem(id: string, item: WishItem, stores: map<string, string>) returns (r: Result<Option<Wishlist>>)
      requires Valid()
      modifies repo
      ensures Valid()
      ensures item.product !in stores ==> r == Fail(Thrown(MSG_PRODUCT_NOT_FOUND)) && repo.lists == old(repo.lists)
      ensures item.product in stores ==>
                var out := AddItemToListSpec(old(repo.lists), id, item.(store := stores[item.product]));
                r == Ok(out.result) && repo.lists == out.lists
    {
      if item.product !in stores {
        return Fail(Thrown(MSG_PRODUCT_NOT_FOUND));
      }
      var u := repo.AddItem(id, item.(store := stores[item.product]));
      r := Ok(u);
    }

    /** clearWishlist. */
    method ClearWishlist(id: string) returns (r: Option<Wishlist>)
      requires Valid()
      modifies repo
      ensures Valid()
      ensures Outcome(r, repo.lists) == UpdateSpec(old(repo.lists), id, Patch(None, None, None, None, Some([])))
      ensures r.Some? ==> r.value.items == []
    {
      r := repo.Update(id, Patch(None, None, None, None, Some([])));
    }

    /** The active cart of the user, or one created for them with the user as its creator. */
    method ActiveOrNew(user: string, newCartId: string, now: int) returns (r: Result<Carts.Cart>)
      requires Valid()
      requires Carts.IndexOfActive(cartService.repo.carts, user) < 0 ==> Carts.IndexOfCart(cartService.repo.carts, newCartId) < 0
      modifies cartService.repo
      ensures Valid()
      ensures Carts.Outcome(r, cartService.repo.carts) == ActiveOrNewCart(old(cartService.repo.carts), user, newCartId, now)
    {
      var found := cartService.repo.FindActiveByUser(user);
      if found.Some? {
        r := Ok(found.value);
      } else {
        r := cartService.Create(NewCart(newCartId, user, Some(user), now), now);
      }
    }

    /** moveToCart, with the wishlist looked up through the repository (see MoveToCartAsWritten). */
    method MoveToCart(wishlistId: string, itemId: string, user: string, products: map<string, Carts.Product>,
                      newCartId: string, lineId: string, now: int) returns (r: Result<Carts.Cart>)
      requires Valid()
      requires Carts.IndexOfActive(cartService.repo.carts, user) < 0 ==> Carts.IndexOfCart(cartService.repo.carts, newCartId) < 0
      modifies repo, cartService.repo
      ensures Valid()
      ensures Moved(r, repo.lists, cartService.repo.carts) ==
              MoveToCartSpec(old(repo.lists), old(cartService.repo.carts), products, wishlistId, itemId, user,
                             newCartId, lineId, now)
    {
      var w := repo.FindById(wishlistId);
      if w.None? {
        return Fail(Thrown(MSG_NULL_READ));
      }
      var k := IndexOfWishItem(w.value.items, itemId);
      if k < 0 {
        return Fail(Thrown(MSG_ITEM_NOT_IN_WISHLIST));
      }
      var item := w.value.items[k];
      var made := ActiveOrNew(user, newCartId, now);
      if made.Fail? {
        return Fail(made.error);
      }
      var cart := made.value;
      var added := cartService.AddItem(cart.id, LineFor(item, lineId), products, now);
      if added.Fail? {
        return Fail(added.error);
      }
      var _ := repo.RemoveItem(wishlistId, itemId);
      r := Ok(cart);
    }

    /** moveAllToCart's loop: each item through the cart service, stopping at the first failure. */
    method AddAll(cartId: string, items: seq<WishItem>, products: map<string, Carts.Product>,
                  lineIds: nat -> string, now: int) returns (r: Result<()>)
      requires cartService.repo.Valid()
      modifies cartService.repo
      ensures cartService.repo.Valid()
      ensures Carts.Outcome(r, cartService.repo.carts) == AddAllSpec(old(cartService.repo.carts), products, cartId, items, lineIds, now)
    {
      var k := 0;
      while k < |items|
        invariant 0 <= k <= |items|
        invariant cartService.repo.Valid()
        invariant AddAllSpec(old(cartService.repo.carts), products, cartId, items[..k], lineIds, now) ==
                  Carts.Outcome(Ok(()), cartService.repo.carts)
      {
        AddAllPrefixStep(old(cartService.repo.carts), products, cartId, items, lineIds, now, k);
        var added := cartService.AddItem(cartId, LineFor(items[k], lineIds(k)), products, now);
        if added.Fail? {
          AddAllStopsAtFailure(old(cartService.repo.carts), products, cartId, items, lineIds, now, k + 1);
          return Fail(added.error);
        }
        k := k + 1;
      }
      assert items[..|items|] == items;
      r := Ok(());
    }

    /** moveAllToCart, with the wishlist looked up through the repository (see MoveAllToCartAsWritten). */
    method MoveAllToCart(wishlistId: string, user: string, products: map<string, Carts.Product>,
                         newCartId: string, lineIds: nat -> string, now: int) returns (r: Result<Carts.Cart>)
      requires Valid()
      requires Carts.IndexOfActive(cartService.repo.carts, user) < 0 ==> Carts.IndexOfCart(cartService.repo.carts, newCartId) < 0
      modifies repo, cartService.repo
      ensures Valid()
      ensures Moved(r, repo.lists, cartService.repo.carts) ==
              MoveAllToCartSpec(old(repo.lists), old(cartService.repo.carts), products, wishlistId, user,
                                newCartId, lineIds, now)
    {
      var w := repo.FindById(wishlistId);
      if w.None? {
        return Fail(Thrown(MSG_NULL_READ));
      }
      var made := ActiveOrNew(user, newCartId, now);
      if made.Fail? {
        return Fail(made.error);
      }
      var cart := made.value;
      var added := AddAll(cart.id, w.value.items, products, lineIds, now);
      if added.Fail? {
        return Fail(added.error);
      }
      var _ := ClearWishlist(wishlistId);
      r := Ok(cart);
    }
  }
}
