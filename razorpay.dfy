/*
 * services/payment/providers/razorpay.provider.js: the amounts sent to and
 * read from the Razorpay API, and the check of a payment signature. The
 * API's answers are parameters (the created order's id, the refund's id,
 * the fetched payment), and so is HMAC-SHA256 (RFC 2104 over FIPS 180-4):
 * `mac(key, message)` stands for its 32-byte digest.
 */
module Razorpay {
  import opened Common
  import opened OtpCodes

  const CURRENCY: string := "INR"
  const MSG_INVALID_SIGNATURE: string := "Invalid signature"

  /** What the provider reads of an order. */
  datatype OrderInfo = OrderInfo(id: string, orderNumber: string, total: real)

  /** The body of orders.create. */
  datatype OrderRequest = OrderRequest(amount: real, currency: string, receipt: string, notesOrderId: string)

  /** What createPayment reports to the service. */
  datatype Created = Created(providerOrderId: string, amount: real, currency: string)

  datatype Details = Details(orderId: string, paymentId: string, signature: string)

  datatype Verified = Verified(providerPaymentId: string, providerSignature: string, status: string)

  datatype Refund = Refund(providerRefundId: string, status: string, amount: real)

  /** What payments.fetch returns, amounts in paise. */
  datatype Fetched = Fetched(id: string, status: string, amount: real, currency: string, payMethod: string)

  datatype PaymentInfo = PaymentInfo(providerPaymentId: string, status: string, amount: real, currency: string, payMethod: string)

  /** Rupees to paise. */
  function ToPaise(amount: real): real
  {
    amount * 100.0
  }

  /** Paise to rupees. */
  function FromPaise(paise: real): real
  {
    paise / 100.0
  }

  /** The two conversions invert each other. */
  lemma PaiseRoundTrip(x: real)
    ensures FromPaise(ToPaise(x)) == x && ToPaise(FromPaise(x)) == x
  {
  }

  /** createPayment: the request to orders.create. */
  function OrderRequestFor(o: OrderInfo): OrderRequest
  {
    OrderRequest(ToPaise(o.total), CURRENCY, o.orderNumber, o.id)
  }

  /** createPayment: the report, given the id of the created Razorpay order. */
  function CreatedFor(o: OrderInfo, providerOrderId: string): Created
  {
    Created(providerOrderId, o.total, CURRENCY)
  }

  /** The provider is asked for the total in paise and reports the total in rupees, both in INR. */
  lemma CreateAmounts(o: OrderInfo, providerOrderId: string)
    ensures OrderRequestFor(o).amount == ToPaise(CreatedFor(o, providerOrderId).amount)
    ensures CreatedFor(o, providerOrderId).amount == o.total
    ensures OrderRequestFor(o).currency == CreatedFor(o, providerOrderId).currency == "INR"
    ensures OrderRequestFor(o).receipt == o.orderNumber
  {
  }

  /** The message the signature authenticates. */
  function SignedMessage(orderId: string, paymentId: string): (m: string)
    ensures |m| == |orderId| + 1 + |paymentId|
    ensures m[..|orderId|] == orderId && m[|orderId|] == '|' && m[|orderId| + 1..] == paymentId
  {
    orderId + "|" + paymentId
  }

  /**
   * For order ids without a '|', as Razorpay issues them, the message
   * determines the pair it was framed from, so a signature binds both ids.
   */
  lemma SignedMessageInjective(o1: string, p1: string, o2: string, p2: string)
    requires '|' !in o1 && '|' !in o2
    requires SignedMessage(o1, p1) == SignedMessage(o2, p2)
    ensures o1 == o2 && p1 == p2
  {
  }

  /** The hex digest the signature must equal. */
  function ExpectedSignature(mac: (string, string) -> seq<byte>, keySecret: string, d: Details): string
  {
    HexEncode(mac(keySecret, SignedMessage(d.orderId, d.paymentId)))
  }

  /** verifyPayment */
  function VerifyPayment(mac: (string, string) -> seq<byte>, keySecret: string, d: Details): (r: Result<Verified>)
    ensures r.Ok? <==> d.signature == ExpectedSignature(mac, keySecret, d)
    ensures r.Ok? ==> r.value == Verified(d.paymentId, d.signature, "completed")
    ensures r.Fail? ==> r.error == Thrown(MSG_INVALID_SIGNATURE)
  {
    if ExpectedSignature(mac, keySecret, d) != d.signature then Fail(Thrown(MSG_INVALID_SIGNATURE))
    else Ok(Verified(d.paymentId, d.signature, "completed"))
  }

  /**
   * An accepted signature is the lower-case hex of the digest, two digits a
   * byte: a signature in upper case, or of another length, is refused.
   */
  lemma AcceptedSignatureShape(mac: (string, string) -> seq<byte>, keySecret: string, d: Details)
    requires VerifyPayment(mac, keySecret, d).Ok?
    ensures |d.signature| == 2 * |mac(keySecret, SignedMessage(d.orderId, d.paymentId))|
    ensures forall k :: 0 <= k < |d.signature| ==> !('A' <= d.signature[k] <= 'Z')
    ensures HexDecode(d.signature) == mac(keySecret, SignedMessage(d.orderId, d.paymentId))
  {
    HexRoundTrip(mac(keySecret, SignedMessage(d.orderId, d.paymentId)));
  }

  /** processRefund: the paise amount sent to payments.refund. */
  function RefundRequestAmount(amount: real): real
  {
    ToPaise(amount)
  }

  /** processRefund: the report, given the id of the created refund. */
  function RefundFor(amount: real, providerRefundId: string): Refund
  {
    Refund(providerRefundId, "refunded", amount)
  }

  /** getPaymentDetails */
  function PaymentInfoFor(f: Fetched): PaymentInfo
  {
    PaymentInfo(f.id, f.status, FromPaise(f.amount), f.currency, f.payMethod)
  }

  /** A refund requested in paise and fetched back reads as the rupee amount that was asked for. */
  lemma RefundAndFetchAgree(amount: real, providerRefundId: string, f: Fetched)
    requires f.amount == RefundRequestAmount(amount)
    ensures PaymentInfoFor(f).amount == RefundFor(amount, providerRefundId).amount == amount
  {
  }
}
