/*
 * models/promotion/promotion.model.js: isValid, isApplicable and
 * calculateDiscount. The clock is the parameter `now` (milliseconds), and
 * identifiers are compared as strings.
 */
module Promotions {
  import opened Common

  datatype Promotion = Promotion(
    kind: string,
    value: real,
    minimumPurchase: real,
    maximumDiscount: Option<real>,
    customerGroups: seq<string>,
    products: seq<string>,
    totalUses: Option<nat>,
    usedCount: nat,
    startDate: int,
    endDate: int,
    status: string)

  /** What the methods read of an order: the customer's group may be missing. */
  datatype Order = Order(subtotal: real, shipping: real, group: Option<string>, productIds: seq<string>)

  /** isValid: active, inside its validity window, and with uses left when a non-zero limit is set. */
  predicate IsValid(p: Promotion, now: int)
  {
    p.status == "active" && p.startDate <= now && now <= p.endDate &&
    (p.totalUses.None? || p.totalUses.value == 0 || p.usedCount < p.totalUses.value)
  }

  /** isApplicable: valid, a subtotal reaching the minimum, a listed group and a listed product when lists are given. */
  predicate IsApplicable(p: Promotion, o: Order, now: int)
  {
    IsValid(p, now) &&
    !(o.subtotal < p.minimumPurchase) &&
    (|p.customerGroups| > 0 ==> o.group.Some? && o.group.value in p.customerGroups) &&
    (|p.products| > 0 ==> exists id :: id in o.productIds && id in p.products)
  }

  /** The discount the switch computes before the cap. */
  function RawDiscount(p: Promotion, o: Order): real
  {
    if p.kind == "percentage" then o.subtotal * (p.value / 100.0)
    else if p.kind == "fixed" then p.value
    else if p.kind == "free-shipping" then o.shipping
    else 0.0
  }

  /** The cap applies when maximumDiscount is set and non-zero. */
  function Capped(discount: real, maximumDiscount: Option<real>): real
  {
    if maximumDiscount.Some? && maximumDiscount.value != 0.0 && discount > maximumDiscount.value
    then maximumDiscount.value else discount
  }

  /**
   * calculateDiscount as written: isApplicable is async, so the guard
   * negates a Promise, which is always false, and the applicability check
   * never takes effect.
   */
  function CalculateDiscountAsWritten(p: Promotion, o: Order, now: int): real
  {
    Capped(RawDiscount(p, o), p.maximumDiscount)
  }

  /** calculateDiscount with the applicability awaited. */
  function CalculateDiscount(p: Promotion, o: Order, now: int): real
  {
    if !IsApplicable(p, o, now) then 0.0 else Capped(RawDiscount(p, o), p.maximumDiscount)
  }

  /** A promotion is valid only inside its window, and never once a non-zero limit of uses is reached. */
  lemma ValidityWindow(p: Promotion, now: int)
    ensures IsValid(p, now) ==> p.startDate <= now <= p.endDate && p.status == "active"
    ensures p.totalUses.Some? && p.totalUses.value > 0 && p.usedCount >= p.totalUses.value ==> !IsValid(p, now)
    ensures p.status == "active" && p.startDate <= now <= p.endDate && (p.totalUses.None? || p.totalUses.value == 0)
            ==> IsValid(p, now)
  {
  }

  /** The cap never raises a discount, and keeps it at or below a set, non-zero maximum. */
  lemma CapBounds(discount: real, maximumDiscount: Option<real>)
    ensures Capped(discount, maximumDiscount) <= discount
    ensures maximumDiscount.Some? && maximumDiscount.value != 0.0 ==> Capped(discount, maximumDiscount) <= maximumDiscount.value
    ensures Capped(discount, maximumDiscount) == discount || Capped(discount, maximumDiscount) == maximumDiscount.value
    ensures maximumDiscount.Some? && maximumDiscount.value >= 0.0 && discount >= 0.0 ==> Capped(discount, maximumDiscount) >= 0.0
  {
  }

  /**
   * The discount of an applicable promotion per type, with non-negative
   * amounts: never negative, never above a set cap, and for a percentage of
   * at most 100 never above the subtotal; other types give nothing.
   */
  lemma DiscountBounds(p: Promotion, o: Order, now: int)
    requires p.value >= 0.0 && o.subtotal >= 0.0 && o.shipping >= 0.0
    requires p.maximumDiscount.Some? ==> p.maximumDiscount.value >= 0.0
    ensures var d := CalculateDiscount(p, o, now);
            0.0 <= d &&
            (!IsApplicable(p, o, now) ==> d == 0.0) &&
            (p.maximumDiscount.Some? && p.maximumDiscount.value != 0.0 ==> d <= p.maximumDiscount.value) &&
            (p.kind == "percentage" && p.value <= 100.0 ==> d <= o.subtotal) &&
            (p.kind == "fixed" ==> d <= p.value) &&
            (p.kind == "free-shipping" ==> d <= o.shipping) &&
            (p.kind != "percentage" && p.kind != "fixed" && p.kind != "free-shipping" ==> d == 0.0)
  {
    CapBounds(RawDiscount(p, o), p.maximumDiscount);
    if p.kind == "percentage" && p.value <= 100.0 {
      var f := p.value / 100.0;
      assert 0.0 <= f <= 1.0;
      ProductNonNegative(o.subtotal, f);
      ProductNonNegative(o.subtotal, 1.0 - f);
      assert o.subtotal * f + o.subtotal * (1.0 - f) == o.subtotal;
    }
  }

  lemma ProductNonNegative(a: real, b: real)
    requires a >= 0.0 && b >= 0.0
    ensures a * b >= 0.0
  {
  }

  /**
   * As written the applicability check is lost: the result is the capped
   * discount whatever the promotion's status, dates, minimum or groups, and
   * it agrees with the corrected one exactly when the promotion applies or
   * the capped discount is 0. An expired 50-off promotion still gives 50.
   */
  lemma ApplicabilityIgnoredAsWritten(p: Promotion, o: Order, now: int)
    ensures IsApplicable(p, o, now) ==> CalculateDiscountAsWritten(p, o, now) == CalculateDiscount(p, o, now)
    ensures !IsApplicable(p, o, now) ==> CalculateDiscount(p, o, now) == 0.0
    ensures CalculateDiscountAsWritten(p, o, now) == CalculateDiscountAsWritten(p.(status := "expired"), o, now)
    ensures var expired := Promotion("fixed", 50.0, 0.0, None, [], [], None, 0, 0, 10, "expired");
            CalculateDiscountAsWritten(expired, Order(100.0, 0.0, None, []), 20) == 50.0 &&
            CalculateDiscount(expired, Order(100.0, 0.0, None, []), 20) == 0.0
  {
  }

  /** Raising the subtotal never makes an applicable promotion inapplicable. */
  lemma ApplicableUpwardInSubtotal(p: Promotion, o: Order, now: int, more: real)
    requires more >= o.subtotal
    ensures IsApplicable(p, o, now) ==> IsApplicable(p, o.(subtotal := more), now)
  {
  }

  /** A customer without a group never qualifies for a promotion restricted to groups. */
  lemma GroupListExcludesMissingGroup(p: Promotion, o: Order, now: int)
    requires |p.customerGroups| > 0 && o.group.None?
    ensures !IsApplicable(p, o, now) && CalculateDiscount(p, o, now) == 0.0
  {
  }
}
