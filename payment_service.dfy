/*
 * services/payment/payment.service.js over repositories/payment/
 * payment.repository.js: payment records and the status of their orders.
 * Each provider call is remote, so what it answers (or the error it throws)
 * is a parameter; the provider is looked up in the factory's registry as
 * it stands. repositories/order/order.repository.js is not part of this
 * model: its findById is taken as a lookup by id and its updateStatus as a
 * write of the order's status that changes nothing for an unknown id.
 */
module PaymentService {
  import opened Common
  import opened ProviderFactory
  import Razorpay
  import OtpCodes

  const MSG_ORDER_NOT_FOUND: string := "Order not found"
  const MSG_PAYMENT_NOT_FOUND: string := "Payment not found"
  const MSG_ONLY_COMPLETED: string := "Can only refund completed payments"
  const MSG_REFUND_TOO_LARGE: string := "Refund amount cannot exceed payment amount"
  const MSG_VALIDATION: string := "Payment validation failed"

  datatype Payment = Payment(
    id: string,
    order: string,
    user: string,
    amount: real,
    currency: string,
    provider: string,
    providerOrderId: string,
    providerPaymentId: Option<string>,
    providerSignature: Option<string>,
    status: string,
    refundAmount: real,
    refundReason: Option<string>,
    refundedAt: Option<int>,
    createdBy: string)

  datatype Order = Order(id: string, orderNumber: string, total: real, status: string)

  datatype Store = Store(payments: seq<Payment>, orders: seq<Order>)

  datatype Outcome<T> = Outcome(result: Result<T>, store: Store)

  datatype Created = Created(payment: Payment)

  datatype Details = Details(payment: Payment, providerDetails: Option<Razorpay.PaymentInfo>)

  datatype Refunded = Refunded(payment: Payment, refund: Razorpay.Refund)

  /** The providers the payment schema accepts. */
  predicate KnownProvider(name: string)
  {
    name == "razorpay" || name == "stripe" || name == "paypal"
  }

  function PaymentIndex(ps: seq<Payment>, id: string): (i: int)
    ensures -1 <= i < |ps|
    ensures 0 <= i ==> ps[i].id == id
    ensures i < 0 ==> forall k :: 0 <= k < |ps| ==> ps[k].id != id
  {
    FindIndex(ps, (p: Payment) => p.id == id)
  }

  function OrderIndex(os: seq<Order>, id: string): (i: int)
    ensures -1 <= i < |os|
    ensures 0 <= i ==> os[i].id == id
    ensures i < 0 ==> forall k :: 0 <= k < |os| ==> os[k].id != id
  {
    FindIndex(os, (o: Order) => o.id == id)
  }

  /** orderRepository.updateStatus */
  function SetOrderStatus(os: seq<Order>, id: string, status: string): (r: seq<Order>)
    ensures |r| == |os|
    ensures OrderIndex(os, id) >= 0 ==> r == os[OrderIndex(os, id) := os[OrderIndex(os, id)].(status := status)]
    ensures OrderIndex(os, id) < 0 ==> r == os
  {
    var i := OrderIndex(os, id);
    if i < 0 then os else os[i := os[i].(status := status)]
  }

  /**
   * createPayment, given what the provider's createPayment answered: the
   * order, then the provider, then the provider's answer, then the schema's
   * checks on the new record.
   */
  function CreateSpec(st: Store, orderId: string, userId: string, providerName: string,
                      providers: map<string, string>, answer: Result<Razorpay.Created>, newId: string): Outcome<Created>
  {
    if OrderIndex(st.orders, orderId) < 0 then Outcome(Fail(Thrown(MSG_ORDER_NOT_FOUND)), st)
    else if GetProviderSpec(providers, providerName, "", "").Fail? then
      Outcome(Fail(GetProviderSpec(providers, providerName, "", "").error), st)
    else if answer.Fail? then Outcome(Fail(answer.error), st)
    else if !KnownProvider(providerName) then Outcome(Fail(Thrown(MSG_VALIDATION)), st)
    else if exists k :: 0 <= k < |st.payments| && st.payments[k].providerOrderId == answer.value.providerOrderId then
      Outcome(Fail(Thrown(MSG_DUPLICATE_KEY)), st)
    else
      var p := Payment(newId, orderId, userId, answer.value.amount, answer.value.currency, providerName,
                       answer.value.providerOrderId, None, None, "created", 0.0, None, None, userId);
      Outcome(Ok(Created(p)), st.(payments := st.payments + [p]))
  }

  /** The payment with the verified provider ids and status recorded. */
  function Verified(p: Payment, v: Razorpay.Verified): Payment
  {
    p.(providerPaymentId := Some(v.providerPaymentId), providerSignature := Some(v.providerSignature), status := v.status)
  }

  /** verifyPayment, given what the provider's verifyPayment answered, with the provider ids stored. */
  function VerifySpec(st: Store, paymentId: string, providers: map<string, string>, answer: Result<Razorpay.Verified>)
    : Outcome<Payment>
  {
    var i := PaymentIndex(st.payments, paymentId);
    if i < 0 then Outcome(Fail(Thrown(MSG_PAYMENT_NOT_FOUND)), st)
    else if GetProviderSpec(providers, st.payments[i].provider, "", "").Fail? then
      Outcome(Fail(GetProviderSpec(providers, st.payments[i].provider, "", "").error), st)
    else if answer.Fail? then Outcome(Fail(answer.error), st)
    else
      var p := Verified(st.payments[i], answer.value);
      Outcome(Ok(p), Store(st.payments[i := p], SetOrderStatus(st.orders, st.payments[i].order, "paid")))
  }

  /**
   * verifyPayment as written: updatePaymentDetails reads `paymentId` and
   * `signature` where the service passes `providerPaymentId` and
   * `providerSignature`, and writes them to `razorpayPaymentId` and
   * `razorpaySignature`, which the schema does not have; only the status
   * 'completed' is stored.
   */
  function VerifyAsWritten(st: Store, paymentId: string, providers: map<string, string>,
                           answer: Result<Razorpay.Verified>): Outcome<Payment>
  {
    var i := PaymentIndex(st.payments, paymentId);
    var out := VerifySpec(st, paymentId, providers, answer);
    if out.result.Fail? then out
    else
      var p := st.payments[i].(status := "completed");
      Outcome(Ok(p), Store(st.payments[i := p], SetOrderStatus(st.orders, st.payments[i].order, "paid")))
  }

  /** getPaymentDetails, given what the provider's getPaymentDetails answered. */
  function DetailsSpec(st: Store, paymentId: string, providers: map<string, string>,
                       answer: Result<Razorpay.PaymentInfo>): Result<Details>
  {
    var i := PaymentIndex(st.payments, paymentId);
    if i < 0 then Fail(Thrown(MSG_PAYMENT_NOT_FOUND))
    else if !Truthy(st.payments[i].providerPaymentId) then Ok(Details(st.payments[i], None))
    else if GetProviderSpec(providers, st.payments[i].provider, "", "").Fail? then
      Fail(GetProviderSpec(providers, st.payments[i].provider, "", "").error)
    else if answer.Fail? then Fail(answer.error)
    else Ok(Details(st.payments[i], Some(answer.value)))
  }

  /** processRefund, given what the provider's processRefund answered. */
  function RefundSpec(st: Store, paymentId: string, amount: real, reason: Option<string>, now: int,
                      providers: map<string, string>, answer: Result<Razorpay.Refund>): Outcome<Refunded>
  {
    var i := PaymentIndex(st.payments, paymentId);
    if i < 0 then Outcome(Fail(Thrown(MSG_PAYMENT_NOT_FOUND)), st)
    else
      var p := st.payments[i];
      if p.status != "completed" then Outcome(Fail(Thrown(MSG_ONLY_COMPLETED)), st)
      else if amount > p.amount then Outcome(Fail(Thrown(MSG_REFUND_TOO_LARGE)), st)
      else if GetProviderSpec(providers, p.provider, "", "").Fail? then
        Outcome(Fail(GetProviderSpec(providers, p.provider, "", "").error), st)
      else if answer.Fail? then Outcome(Fail(answer.error), st)
      else
        var q := p.(refundAmount := amount, refundReason := reason, refundedAt := Some(now), status := "refunded");
        var orders := if amount == p.amount then SetOrderStatus(st.orders, p.order, "refunded") else st.orders;
        Outcome(Ok(Refunded(q, answer.value)), Store(st.payments[i := q], orders))
  }

  /**
   * A created payment has status 'created', the provider's amount and
   * order id and no provider payment id, and it cannot be refunded before
   * it is verified.
   */
  lemma CreatedPaymentNotRefundable(st: Store, orderId: string, userId: string, providerName: string,
                                    providers: map<string, string>, answer: Result<Razorpay.Created>, newId: string,
                                    amount: real, reason: Option<string>, now: int, refund: Result<Razorpay.Refund>)
    requires PaymentIndex(st.payments, newId) < 0
    requires CreateSpec(st, orderId, userId, providerName, providers, answer, newId).result.Ok?
    ensures var out := CreateSpec(st, orderId, userId, providerName, providers, answer, newId);
            var p := out.result.value.payment;
            answer.Ok? && p.status == "created" && p.amount == answer.value.amount &&
            p.providerOrderId == answer.value.providerOrderId && p.providerPaymentId.None? &&
            out.store == st.(payments := st.payments + [p]) &&
            RefundSpec(out.store, newId, amount, reason, now, providers, refund) == Outcome(Fail(Thrown(MSG_ONLY_COMPLETED)), out.store)
  {
    var out := CreateSpec(st, orderId, userId, providerName, providers, answer, newId);
    var ps := out.store.payments;
    assert ps[|st.payments|].id == newId;
    assert forall k :: 0 <= k < |st.payments| ==> ps[k] == st.payments[k];
    assert PaymentIndex(ps, newId) == |st.payments|;
  }

  /** Creating a payment for a Razorpay order records the order's total in INR. */
  lemma CreateRecordsOrderTotal(st: Store, orderId: string, userId: string, providers: map<string, string>,
                                info: Razorpay.OrderInfo, providerOrderId: string, newId: string)
    requires CreateSpec(st, orderId, userId, "razorpay", providers, Ok(Razorpay.CreatedFor(info, providerOrderId)), newId).result.Ok?
    ensures var p := CreateSpec(st, orderId, userId, "razorpay", providers, Ok(Razorpay.CreatedFor(info, providerOrderId)), newId)
                       .result.value.payment;
            p.amount == info.total && p.currency == "INR" && Razorpay.OrderRequestFor(info).amount == Razorpay.ToPaise(p.amount)
  {
  }

  /**
   * The refund checks run in order: an unknown payment, then a payment that
   * is not completed, then an amount above the payment's; a refund that
   * passes them and the provider is recorded on the payment, and the order
   * is marked refunded exactly when the whole amount is refunded.
   */
  lemma RefundEffect(st: Store, paymentId: string, amount: real, reason: Option<string>, now: int,
                     providers: map<string, string>, answer: Result<Razorpay.Refund>)
    ensures var out := RefundSpec(st, paymentId, amount, reason, now, providers, answer);
            var i := PaymentIndex(st.payments, paymentId);
            (i < 0 ==> out.result == Fail(Thrown(MSG_PAYMENT_NOT_FOUND))) &&
            (i >= 0 && st.payments[i].status != "completed" ==> out.result == Fail(Thrown(MSG_ONLY_COMPLETED))) &&
            (i >= 0 && st.payments[i].status == "completed" && amount > st.payments[i].amount ==>
               out.result == Fail(Thrown(MSG_REFUND_TOO_LARGE))) &&
            (out.result.Fail? ==> out.store == st) &&
            (out.result.Ok? ==>
               i >= 0 && st.payments[i].status == "completed" && amount <= st.payments[i].amount && answer.Ok? &&
               out.store.payments == st.payments[i := out.result.value.payment] &&
               out.result.value.payment.status == "refunded" &&
               out.result.value.payment.refundAmount == amount &&
               out.result.value.payment.refundedAt == Some(now) &&
               (amount == st.payments[i].amount ==> out.store.orders == SetOrderStatus(st.orders, st.payments[i].order, "refunded")) &&
               (amount != st.payments[i].amount ==> out.store.orders == st.orders))
  {
  }

  /** After a refund, full or partial, the payment is no longer completed: a second refund is refused. */
  lemma SecondRefundRejected(st: Store, paymentId: string, a1: real, a2: real, r1: Option<string>, r2: Option<string>,
                             now: int, later: int, providers: map<string, string>,
                             ans1: Result<Razorpay.Refund>, ans2: Result<Razorpay.Refund>)
    requires RefundSpec(st, paymentId, a1, r1, now, providers, ans1).result.Ok?
    ensures var mid := RefundSpec(st, paymentId, a1, r1, now, providers, ans1).store;
            RefundSpec(mid, paymentId, a2, r2, later, providers, ans2) == Outcome(Fail(Thrown(MSG_ONLY_COMPLETED)), mid)
  {
    var i := PaymentIndex(st.payments, paymentId);
    var mid := RefundSpec(st, paymentId, a1, r1, now, providers, ans1).store;
    assert PaymentIndex(mid.payments, paymentId) == i by {
      assert forall k :: 0 <= k < |mid.payments| ==> mid.payments[k].id == st.payments[k].id;
    }
  }

  /**
   * A verification the provider accepts completes the payment, records the
   * provider's ids and marks the order paid; nothing in verifyPayment looks
   * at the payment's status, so a refunded payment verified again becomes
   * completed and refundable.
   */
  lemma VerifyEffect(st: Store, paymentId: string, providers: map<string, string>, v: Razorpay.Verified)
    requires PaymentIndex(st.payments, paymentId) >= 0
    requires GetProviderSpec(providers, st.payments[PaymentIndex(st.payments, paymentId)].provider, "", "").Ok?
    ensures var i := PaymentIndex(st.payments, paymentId);
            var out := VerifySpec(st, paymentId, providers, Ok(v));
            out.result == Ok(Verified(st.payments[i], v)) &&
            out.store.payments == st.payments[i := Verified(st.payments[i], v)] &&
            out.store.orders == SetOrderStatus(st.orders, st.payments[i].order, "paid") &&
            (v.status == "completed" ==> out.store.payments[i].status == "completed")
  {
  }

  /** With the Razorpay provider, verification succeeds exactly when the signature is the expected HMAC digest. */
  lemma RazorpayVerification(st: Store, paymentId: string, providers: map<string, string>,
                             mac: (string, string) -> seq<OtpCodes.byte>, keySecret: string, d: Razorpay.Details)
    requires PaymentIndex(st.payments, paymentId) >= 0
    requires GetProviderSpec(providers, st.payments[PaymentIndex(st.payments, paymentId)].provider, "", "").Ok?
    ensures var out := VerifySpec(st, paymentId, providers, Razorpay.VerifyPayment(mac, keySecret, d));
            (out.result.Ok? <==> d.signature == Razorpay.ExpectedSignature(mac, keySecret, d)) &&
            (out.result.Ok? ==> out.result.value.status == "completed" &&
                                out.result.value.providerPaymentId == Some(d.paymentId)) &&
            (out.result.Fail? ==> out.result.error == Thrown(Razorpay.MSG_INVALID_SIGNATURE) && out.store == st)
  {
  }

  /**
   * As written, verification stores the status only: the provider's payment
   * id is never recorded, so getPaymentDetails never consults the provider
   * for a payment made through createPayment, where the corrected
   * verification makes it do so.
   */
  lemma ProviderIdLostAsWritten(st: Store, paymentId: string, providers: map<string, string>,
                                v: Razorpay.Verified, answer: Result<Razorpay.PaymentInfo>)
    requires PaymentIndex(st.payments, paymentId) >= 0
    requires GetProviderSpec(providers, st.payments[PaymentIndex(st.payments, paymentId)].provider, "", "").Ok?
    requires st.payments[PaymentIndex(st.payments, paymentId)].providerPaymentId.None?
    requires v.providerPaymentId != "" && answer.Ok?
    ensures var written := VerifyAsWritten(st, paymentId, providers, Ok(v));
            var i := PaymentIndex(st.payments, paymentId);
            written.result.Ok? && written.store.payments[i].providerPaymentId.None? &&
            written.store.payments[i].status == "completed" &&
            DetailsSpec(written.store, paymentId, providers, answer) == Ok(Details(written.store.payments[i], None))
    ensures var corrected := VerifySpec(st, paymentId, providers, Ok(v));
            DetailsSpec(corrected.store, paymentId, providers, answer).Ok? &&
            DetailsSpec(corrected.store, paymentId, providers, answer).value.providerDetails == Some(answer.value)
  {
    var i := PaymentIndex(st.payments, paymentId);
    var written := VerifyAsWritten(st, paymentId, providers, Ok(v));
    var corrected := VerifySpec(st, paymentId, providers, Ok(v));
    assert PaymentIndex(written.store.payments, paymentId) == i by {
      assert forall k :: 0 <= k < |written.store.payments| ==> written.store.payments[k].id == st.payments[k].id;
    }
    assert PaymentIndex(corrected.store.payments, paymentId) == i by {
      assert forall k :: 0 <= k < |corrected.store.payments| ==> corrected.store.payments[k].id == st.payments[k].id;
    }
  }

  /** The payment service over the payment and order collections. */
  class PaymentService {
    var payments: seq<Payment>
    var orders: seq<Order>

    function State(): Store
      reads this
    {
      Store(payments, orders)
    }

    constructor (initialOrders: seq<Order>)
      ensures State() == Store([], initialOrders)
    {
      payments := [];
      orders := initialOrders;
    }

    method CreatePayment(orderId: string, userId: string, providerName: string, registry: Registry,
                         answer: Result<Razorpay.Created>, newId: string) returns (r: Result<Created>)
      modifies this
      ensures Outcome(r, State()) == CreateSpec(old(State()), orderId, userId, providerName, registry.providers, answer, newId)
    {
      if OrderIndex(orders, orderId) < 0 {
        return Fail(Thrown(MSG_ORDER_NOT_FOUND));
      }
      var provider := registry.GetProvider(providerName, "", "");
      if provider.Fail? {
        return Fail(provider.error);
      }
      if answer.Fail? {
        return Fail(answer.error);
      }
      if !KnownProvider(providerName) {
        return Fail(Thrown(MSG_VALIDATION));
      }
      if exists k :: 0 <= k < |payments| && payments[k].providerOrderId == answer.value.providerOrderId {
        return Fail(Thrown(MSG_DUPLICATE_KEY));
      }
      var p := Payment(newId, orderId, userId, answer.value.amount, answer.value.currency, providerName,
                       answer.value.providerOrderId, None, None, "created", 0.0, None, None, userId);
      payments := payments + [p];
      r := Ok(Created(p));
    }

    method VerifyPayment(paymentId: string, registry: Registry, answer: Result<Razorpay.Verified>)
      returns (r: Result<Payment>)
      modifies this
      ensures Outcome(r, State()) == VerifySpec(old(State()), paymentId, registry.providers, answer)
    {
      var i := PaymentIndex(payments, paymentId);
      if i < 0 {
        return Fail(Thrown(MSG_PAYMENT_NOT_FOUND));
      }
      var provider := registry.GetProvider(payments[i].provider, "", "");
      if provider.Fail? {
        return Fail(provider.error);
      }
      if answer.Fail? {
        return Fail(answer.error);
      }
      var p := Verified(payments[i], answer.value);
      orders := SetOrderStatus(orders, payments[i].order, "paid");
      payments := payments[i := p];
      r := Ok(p);
    }

    method GetPaymentDetails(paymentId: string, registry: Registry, answer: Result<Razorpay.PaymentInfo>)
      returns (r: Result<Details>)
      ensures r == DetailsSpec(State(), paymentId, registry.providers, answer)
      ensures r.Ok? ==> (r.value.providerDetails.Some? <==> Truthy(r.value.payment.providerPaymentId))
      ensures r.Ok? ==> r.value.payment in payments && r.value.payment.id == paymentId
    {
      var i := PaymentIndex(payments, paymentId);
      if i < 0 {
        return Fail(Thrown(MSG_PAYMENT_NOT_FOUND));
      }
      if !Truthy(payments[i].providerPaymentId) {
        return Ok(Details(payments[i], None));
      }
      var provider := registry.GetProvider(payments[i].provider, "", "");
      if provider.Fail? {
        return Fail(provider.error);
      }
      if answer.Fail? {
        return Fail(answer.error);
      }
      r := Ok(Details(payments[i], Some(answer.value)));
    }

    method ProcessRefund(paymentId: string, amount: real, reason: Option<string>, now: int, registry: Registry,
                         answer: Result<Razorpay.Refund>) returns (r: Result<Refunded>)
      modifies this
      ensures Outcome(r, State()) == RefundSpec(old(State()), paymentId, amount, reason, now, registry.providers, answer)
    {
      var i := PaymentIndex(payments, paymentId);
      if i < 0 {
        return Fail(Thrown(MSG_PAYMENT_NOT_FOUND));
      }
      var p := payments[i];
      if p.status != "completed" {
        return Fail(Thrown(MSG_ONLY_COMPLETED));
      }
      if amount > p.amount {
        return Fail(Thrown(MSG_REFUND_TOO_LARGE));
      }
      var provider := registry.GetProvider(p.provider, "", "");
      if provider.Fail? {
        return Fail(provider.error);
      }
      if answer.Fail? {
        return Fail(answer.error);
      }
      var q := p.(refundAmount := amount, refundReason := reason, refundedAt := Some(now), status := "refunded");
      payments := payments[i := q];
      if amount == p.amount {
        orders := SetOrderStatus(orders, p.order, "refunded");
      }
      r := Ok(Refunded(q, answer.value));
    }
  }
}
