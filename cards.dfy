/** The card gateway client and its service functions: payment initiation, the callback the
    gateway posts, the status query and refunds. The HTTP exchanges are inputs: the reply the
    gateway gave, or the exception the call raised. */
module CardServices {
  import opened Common
  import opened Js
  import opened Python
  import SalesModels
  import opened PaymentsModels

  /** The payment request, without the API key and the signature: amount (in cents here; the
      client sends a float), the payment's transaction reference, and the customer contacts. */
  datatype CardRequest = CardRequest(amount: int, transactionId: string, customerEmail: string, customerPhone: string)

  /** `initiate_payment`'s payload: the payment's own phone number, or the sale's customer phone
      when the payment has none. */
  function CardRequestFor(payment: Payment, cashierEmail: string): (r: CardRequest)
    ensures r.amount == payment.amount && r.transactionId == payment.transactionReference
    ensures payment.phoneNumber != "" ==> r.customerPhone == payment.phoneNumber
    ensures payment.phoneNumber == "" ==> r.customerPhone == payment.sale.customerPhone
  {
    CardRequest(payment.amount, payment.transactionReference, cashierEmail,
                if payment.phoneNumber != "" then payment.phoneNumber else payment.sale.customerPhone)
  }

  /** What the initiation exchange produced: an exception, or the reply's status, message and
      the three `data` fields (None when missing). */
  datatype InitiateReply =
    | InitiateRaised(exceptionText: string)
    | InitiateJson(status: Option<Scalar>, message: Option<Scalar>, transactionId: Option<Scalar>,
                   paymentUrl: Option<Scalar>, redirectUrl: Option<Scalar>)

  function GatewayMetadata(reply: InitiateReply): (m: map<string, Json>)
    requires reply.InitiateJson?
  {
    map["gateway_transaction_id" := ScalarJson(Get(reply.transactionId, PyNone)),
        "payment_url" := ScalarJson(Get(reply.paymentUrl, PyNone)),
        "redirect_url" := ScalarJson(Get(reply.redirectUrl, PyNone))]
  }

  /** The answer `initiate_card_payment` gives for a reply. */
  function InitiateOutcome(reply: InitiateReply): ServiceResult {
    match reply
    case InitiateRaised(m) => Refused(PyStr(m))
    case InitiateJson(status, message, _, _, _) =>
      if status == Some(PyStr("success")) then Succeeded else Refused(Get(message, PyStr("Gateway request failed")))
  }

  /** `initiate_card_payment`: the payment moves to 'processing', keeping the gateway's
      transaction id and URLs, only when the reply's status is 'success'; any other reply is a
      refusal with its message ('Gateway request failed' when there is none), and an exception
      a refusal with its text. A refusal changes nothing. */
  method Initiate(payment: Payment, reply: InitiateReply) returns (r: ServiceResult)
    modifies payment
    ensures r == InitiateOutcome(reply)
    ensures reply.InitiateRaised? ==> r == Refused(PyStr(reply.exceptionText))
    ensures reply.InitiateJson? ==>
      if reply.status == Some(PyStr("success")) then
        r == Succeeded && payment.status == Processing && payment.metadata == GatewayMetadata(reply)
      else
        r == Refused(Get(reply.message, PyStr("Gateway request failed")))
    ensures r.Refused? ==> unchanged(payment)
    ensures payment.externalReference == old(payment.externalReference)
    ensures payment.errorMessage == old(payment.errorMessage) && payment.completedAt == old(payment.completedAt)
  {
    match reply
    case InitiateRaised(m) =>
      r := Refused(PyStr(m));
    case InitiateJson(status, message, _, _, _) =>
      if status == Some(PyStr("success")) {
        payment.status := Processing;
        payment.metadata := GatewayMetadata(reply);
        r := Succeeded;
      } else {
        r := Refused(Get(message, PyStr("Gateway request failed")));
      }
  }

  /** A card callback: our transaction reference, the status, the gateway's id, the card
      details and the message; Python's None for a missing scalar, None for a missing key where
      the code supplies a default. */
  datatype CardCallback = CardCallback(
    transactionId: Scalar,
    status: Scalar,
    gatewayTransactionId: Option<Scalar>,
    cardType: Scalar,
    cardLast4: Scalar,
    message: Option<Scalar>)

  /** The card details merged into a payment's metadata; every other key is kept. */
  function WithCard(m: map<string, Json>, cb: CardCallback): (r: map<string, Json>)
    ensures forall k :: k in m && k != "card_type" && k != "card_last4" ==> k in r && r[k] == m[k]
    ensures r.Keys == m.Keys + {"card_type", "card_last4"}
    ensures r["card_type"] == ScalarJson(cb.cardType) && r["card_last4"] == ScalarJson(cb.cardLast4)
  {
    m["card_type" := ScalarJson(cb.cardType)]["card_last4" := ScalarJson(cb.cardLast4)]
  }

  /** `process_card_callback`. Status 'success' marks the payment with that reference
      successful, with the gateway's id as its external reference and the card details merged
      into its metadata, and credits its sale; any other status marks it failed with the
      message, 'Payment failed' when there is none. A text that is None where a row needs one
      (the log's transaction id, the payment's external reference, the failure message) makes
      that save fail, and then the payment and sale are as they were. */
  method ProcessCallback(payments: seq<Payment>, cb: CardCallback, now: int) returns (r: ServiceResult, found: Option<Payment>)
    modifies Touched(FindByReference(payments, cb.transactionId))
    ensures found == FindByReference(payments, cb.transactionId)
    ensures cb.status == PyStr("success") ==>
      var logged := Get(cb.gatewayTransactionId, cb.transactionId);
      var reference := Get(cb.gatewayTransactionId, PyNone);
      if logged == PyNone || (found.Some? && reference == PyNone) then
        r == Refused(PyStr(NotNullFailure)) && (found.Some? ==> unchanged(found.value, found.value.sale))
      else
        r == Succeeded && (found.Some? ==>
          found.value.status == Success && found.value.externalReference == ColumnText(reference).value
          && found.value.completedAt == Some(now) && found.value.errorMessage == old(found.value.errorMessage)
          && found.value.metadata == WithCard(old(found.value.metadata), cb)
          && Credited(found.value.sale, found.value.amount))
    ensures cb.status != PyStr("success") ==>
      var message := Get(cb.message, PyStr("Payment failed"));
      if message == PyNone then
        r == Refused(PyStr(NotNullFailure)) && (found.Some? ==> unchanged(found.value, found.value.sale))
      else
        r == Succeeded && (found.Some? ==>
          found.value.status == Failed && found.value.errorMessage == ColumnText(message).value
          && found.value.externalReference == old(found.value.externalReference)
          && found.value.completedAt == old(found.value.completedAt)
          && found.value.metadata == old(found.value.metadata) && unchanged(found.value.sale))
  {
    found := FindByReference(payments, cb.transactionId);
    if cb.status == PyStr("success") {
      if Get(cb.gatewayTransactionId, cb.transactionId) == PyNone {
        return Refused(PyStr(NotNullFailure)), found;
      }
      if found.Some? {
        var reference := Get(cb.gatewayTransactionId, PyNone);
        if reference == PyNone {
          return Refused(PyStr(NotNullFailure)), found;
        }
        var p := found.value;
        p.status := Success;
        p.externalReference := ColumnText(reference).value;
        p.completedAt := Some(now);
        p.metadata := WithCard(p.metadata, cb);
        CreditSale(p.sale, p.amount);
      }
    } else {
      var message := Get(cb.message, PyStr("Payment failed"));
      if message == PyNone {
        return Refused(PyStr(NotNullFailure)), found;
      }
      if found.Some? {
        var p := found.value;
        p.status := Failed;
        p.errorMessage := ColumnText(message).value;
      }
    }
    r := Succeeded;
  }

  /** What the verification request produced: an exception, or the reply's status, the
      gateway's id under `data` and the message (None when missing). */
  datatype VerifyReply =
    | VerifyRaised(exceptionText: string)
    | VerifyJson(status: Option<Scalar>, gatewayTransactionId: Option<Scalar>, message: Option<Scalar>)

  /** `verify_card_payment`: 'success' succeeds with the gateway's id as external reference and
      credits the sale, 'failed' and 'declined' fail with the message ('Payment failed' when
      there is none), and any other status leaves the payment as it is. The current status is
      not consulted. */
  twostate predicate Verified(payment: Payment, reply: VerifyReply, now: int, r: ServiceResult)
    reads payment, payment.sale
  {
    (reply.VerifyRaised? ==> r == Refused(PyStr(reply.exceptionText)))
    && (reply.VerifyJson? ==>
       var status := Get(reply.status, PyNone);
       var reference := Get(reply.gatewayTransactionId, PyNone);
       var message := Get(reply.message, PyStr("Payment failed"));
       if status == PyStr("success") then
         if reference == PyNone then
           r == Refused(PyStr(NotNullFailure))
         else
           r == Succeeded && payment.status == Success && payment.externalReference == ColumnText(reference).value
           && payment.completedAt == Some(now) && payment.errorMessage == old(payment.errorMessage)
           && Credited(payment.sale, payment.amount)
       else if status == PyStr("failed") || status == PyStr("declined") then
         if message == PyNone then
           r == Refused(PyStr(NotNullFailure))
         else
           r == Succeeded && payment.status == Failed && payment.errorMessage == ColumnText(message).value
           && payment.externalReference == old(payment.externalReference)
           && payment.completedAt == old(payment.completedAt) && unchanged(payment.sale)
       else
         r == Succeeded && unchanged(payment, payment.sale))
    && (r.Refused? ==> unchanged(payment, payment.sale))
    && (payment.metadata == old(payment.metadata))
  }

  /** The status query and its effect on the payment, as `Verified` states them. */
  method Verify(payment: Payment, reply: VerifyReply, now: int) returns (r: ServiceResult)
    modifies payment, payment.sale
    ensures Verified(payment, reply, now, r)
  {
    match reply
    case VerifyRaised(m) =>
      r := Refused(PyStr(m));
    case VerifyJson(s, gatewayTransactionId, m) =>
      var status := Get(s, PyNone);
      if status == PyStr("success") {
        var reference := Get(gatewayTransactionId, PyNone);
        if reference == PyNone {
          return Refused(PyStr(NotNullFailure));
        }
        payment.status := Success;
        payment.externalReference := ColumnText(reference).value;
        payment.completedAt := Some(now);
        CreditSale(payment.sale, payment.amount);
      } else if status == PyStr("failed") || status == PyStr("declined") {
        var message := Get(m, PyStr("Payment failed"));
        if message == PyNone {
          return Refused(PyStr(NotNullFailure));
        }
        payment.status := Failed;
        payment.errorMessage := ColumnText(message).value;
      }
      r := Succeeded;
  }

  /** The refund request: the payment's external reference, the amount and the reason. */
  datatype RefundRequest = RefundRequest(transactionId: string, amount: int, reason: string)

  function RefundRequestFor(refund: Refund): (r: RefundRequest)
    reads refund.payment
    ensures r.transactionId == refund.payment.externalReference
    ensures r.amount == refund.amount && r.reason == refund.reason
  {
    RefundRequest(refund.payment.externalReference, refund.amount, refund.reason)
  }

  /** What the refund exchange produced: an exception, or the reply's status, the refund id
      under `data` and the message (None when missing). */
  datatype RefundReply =
    | RefundRaised(exceptionText: string)
    | RefundJson(status: Option<Scalar>, refundId: Option<Scalar>, message: Option<Scalar>)

  /** The answer `process_card_refund` gives for a reply. */
  function RefundOutcome(reply: RefundReply): ServiceResult {
    match reply
    case RefundRaised(m) => Refused(PyStr(m))
    case RefundJson(status, refundId, message) =>
      if Get(status, PyNone) == PyStr("success") then
        if Get(refundId, PyNone) == PyNone then Refused(PyStr(NotNullFailure)) else Succeeded
      else Refused(Get(message, PyStr("Refund failed")))
  }

  /** A 'success' reply without a refund id: the refund's save fails after its fields were set
      in memory, leaving a None external reference on the object. */
  predicate LeavesNoneReference(reply: RefundReply) {
    reply.RefundJson? && Get(reply.status, PyNone) == PyStr("success") && Get(reply.refundId, PyNone) == PyNone
  }

  /** `process_card_refund`: a 'success' reply completes the refund, recording the gateway's
      refund id, the time and the requester as approver, and marks the payment refunded; any
      other reply is a refusal with its message ('Refund failed' when there is none). A refusal
      changes nothing. */
  method ProcessRefund(refund: Refund, reply: RefundReply, now: int) returns (r: ServiceResult)
    modifies refund, refund.payment
    ensures r == RefundOutcome(reply)
    ensures reply.RefundRaised? ==> r == Refused(PyStr(reply.exceptionText))
    ensures reply.RefundJson? ==>
      var refundId := Get(reply.refundId, PyNone);
      if Get(reply.status, PyNone) == PyStr("success") then
        if refundId == PyNone then
          r == Refused(PyStr(NotNullFailure))
        else
          r == Succeeded && refund.status == RefundCompleted
          && refund.externalReference == ColumnText(refundId).value
          && refund.completedAt == Some(now) && refund.approvedBy == Some(refund.requestedBy)
          && refund.errorMessage == old(refund.errorMessage)
          && refund.payment.status == Refunded
      else
        r == Refused(Get(reply.message, PyStr("Refund failed")))
    ensures r.Refused? ==> unchanged(refund, refund.payment)
    ensures refund.payment.externalReference == old(refund.payment.externalReference)
    ensures refund.payment.metadata == old(refund.payment.metadata)
    ensures refund.payment.completedAt == old(refund.payment.completedAt)
    ensures refund.payment.errorMessage == old(refund.payment.errorMessage)
  {
    match reply
    case RefundRaised(m) =>
      r := Refused(PyStr(m));
    case RefundJson(status, refundIdValue, message) =>
      if Get(status, PyNone) == PyStr("success") {
        var refundId := Get(refundIdValue, PyNone);
        if refundId == PyNone {
          return Refused(PyStr(NotNullFailure));
        }
        refund.status := RefundCompleted;
        refund.externalReference := ColumnText(refundId).value;
        refund.completedAt := Some(now);
        refund.approvedBy := Some(refund.requestedBy);
        refund.payment.status := Refunded;
        r := Succeeded;
      } else {
        r := Refused(Get(message, PyStr("Refund failed")));
      }
  }
}
