/*
 * models/user.model.js, the earlier user model: an embedded cart whose item
 * count is kept by a pre-save hook, a password hook without history, the
 * same lock-out rule as the current model, and a boolean password check.
 */
module LegacyUser {
  import opened Common
  import UserSecurity

  const MSG_COMPARE_FAILED: string := "Password comparison failed"

  /** One entry of cart.items; the schema demands quantity >= 1. */
  datatype CartLine = CartLine(product: string, quantity: int, addedAt: int)

  predicate QuantitiesValid(items: seq<CartLine>)
  {
    forall i :: 0 <= i < |items| ==> items[i].quantity >= 1
  }

  /** cart.items.reduce((total, item) => total + item.quantity, 0). */
  function TotalItems(items: seq<CartLine>): int
  {
    if items == [] then 0 else TotalItems(items[..|items| - 1]) + items[|items| - 1].quantity
  }

  lemma {:induction false} TotalItemsAppend(items: seq<CartLine>, more: seq<CartLine>)
    ensures TotalItems(items + more) == TotalItems(items) + TotalItems(more)
  {
    if more == [] {
      assert items + more == items;
    } else {
      assert (items + more)[..|items + more| - 1] == items + more[..|more| - 1];
      TotalItemsAppend(items, more[..|more| - 1]);
    }
  }

  /** With every quantity at least 1, the total is at least the number of lines. */
  lemma {:induction false} TotalItemsAtLeastLines(items: seq<CartLine>)
    requires QuantitiesValid(items)
    ensures TotalItems(items) >= |items|
  {
    if items != [] {
      TotalItemsAtLeastLines(items[..|items| - 1]);
    }
  }

  /**
   * comparePassword of this model: bcrypt's verdict is returned as a boolean;
   * only a bcrypt failure (here: no stored hash) is thrown.
   */
  function ComparePassword(stored: Option<string>, candidate: string, matches: (string, string) -> bool): (r: Result<bool>)
    ensures stored.Some? ==> r == Ok(matches(candidate, stored.value))
    ensures stored.None? ==> r == Fail(Thrown(MSG_COMPARE_FAILED))
  {
    if stored.None? then Fail(Thrown(MSG_COMPARE_FAILED)) else Ok(matches(candidate, stored.value))
  }

  /** A mismatch is reported as Ok(false), where the current model throws instead. */
  lemma MismatchIsFalseNotThrown(stored: string, candidate: string, matches: (string, string) -> bool)
    requires stored != "" && !matches(candidate, stored)
    ensures ComparePassword(Some(stored), candidate, matches) == Ok(false)
    ensures UserSecurity.ComparePassword(Some(stored), candidate, matches).Fail?
  {
  }

  class LegacyUserDoc {
    var password: Option<string>
    var passwordModified: bool
    var cartItems: seq<CartLine>
    var cartItemsModified: bool
    var totalItems: int
    var cartLastUpdated: int
    var lockout: UserSecurity.Lockout

    predicate Valid()
      reads this
    {
      QuantitiesValid(cartItems) && (!cartItemsModified ==> totalItems == TotalItems(cartItems))
    }

    constructor (plain: string, now: int)
      ensures Valid()
      ensures password == Some(plain) && passwordModified
      ensures cartItems == [] && totalItems == 0 && lockout == UserSecurity.Lockout(0, None)
    {
      password := Some(plain);
      passwordModified := true;
      cartItems := [];
      cartItemsModified := false;
      totalItems := 0;
      cartLastUpdated := now;
      lockout := UserSecurity.Lockout(0, None);
    }

    /** Pushing onto cart.items marks the path modified; the schema rejects quantity < 1. */
    method AddCartLine(line: CartLine) returns (ok: bool)
      requires Valid()
      modifies this
      ensures Valid()
      ensures ok <==> line.quantity >= 1
      ensures ok ==> cartItems == old(cartItems) + [line] && cartItemsModified
      ensures !ok ==> cartItems == old(cartItems) && cartItemsModified == old(cartItemsModified)
      ensures totalItems == old(totalItems) && password == old(password)
    {
      ok := line.quantity >= 1;
      if ok {
        cartItems := cartItems + [line];
        cartItemsModified := true;
      }
    }

    /** Both pre-save hooks: re-hash only a modified password; recount only a modified cart. */
    method Save(now: int, hashed: string)
      requires Valid()
      modifies this
      ensures Valid()
      ensures password == (if old(passwordModified) then Some(hashed) else old(password))
      ensures old(cartItemsModified) ==> totalItems == TotalItems(cartItems) && cartLastUpdated == now
      ensures !old(cartItemsModified) ==> totalItems == old(totalItems) && cartLastUpdated == old(cartLastUpdated)
      ensures cartItems == old(cartItems) && totalItems >= |cartItems|
      ensures !passwordModified && !cartItemsModified && lockout == old(lockout)
    {
      if passwordModified {
        password := Some(hashed);
      }
      if cartItemsModified {
        totalItems := TotalItems(cartItems);
        cartLastUpdated := now;
      }
      passwordModified := false;
      cartItemsModified := false;
      TotalItemsAtLeastLines(cartItems);
    }

    /** incLoginAttempts: the same rule as the current model. */
    method IncLoginAttempts(now: int)
      requires Valid()
      modifies this
      ensures Valid()
      ensures lockout == UserSecurity.IncAttempts(old(lockout), now)
      ensures cartItems == old(cartItems) && totalItems == old(totalItems) && password == old(password)
    {
      lockout := UserSecurity.IncAttempts(lockout, now);
    }
  }
}
