/** The Airtel Money client and its service functions: payment initiation, the callback Airtel
    posts, and the status query. The HTTP exchanges are inputs: the reply the gateway gave, or
    the exception the call raised. */
module AirtelServices {
  import opened Common
  import opened Js
  import opened Python
  import PhoneNumbers
  import SalesModels
  import opened PaymentsModels

  /** The settings the client reads. */
  datatype AirtelConfig = AirtelConfig(clientId: string, clientSecret: string, callbackUrl: string)

  /** Without both credentials the service runs in simulation mode. */
  predicate Simulated(c: AirtelConfig) {
    c.clientId == "" || c.clientSecret == ""
  }

  /** The payment request: the transaction reference is both the request reference and the
      transaction id; the amount is in cents here (the client sends it as a float). */
  datatype PaymentRequest = PaymentRequest(reference: string, msisdn: string, amount: int, transactionId: string)

  /** `initiate_payment`'s payload for a payment. */
  function PaymentRequestFor(payment: Payment): (r: PaymentRequest)
    ensures r.msisdn == PhoneNumbers.Normalize(payment.phoneNumber) && StartsWith(r.msisdn, "254")
    ensures r.reference == r.transactionId == payment.transactionReference
    ensures r.amount == payment.amount
  {
    PaymentRequest(payment.transactionReference, PhoneNumbers.Normalize(payment.phoneNumber), payment.amount,
                   payment.transactionReference)
  }

  /** What the initiation exchange produced: an exception, or the reply's status code and
      message and its transaction id (None when missing). */
  datatype InitiateReply =
    | InitiateRaised(message: string)
    | InitiateJson(statusCode: Option<Scalar>, statusMessage: Option<Scalar>, transactionId: Option<Scalar>)

  function SimulationMetadata(payment: Payment): (m: map<string, Json>) {
    map["airtel_transaction_id" := JStr("sim_airtel_" + payment.transactionReference),
        "simulation_mode" := JBool(true)]
  }

  /** The answer `initiate_airtel_payment` gives for a configuration and a reply. */
  function InitiateOutcome(c: AirtelConfig, reply: InitiateReply): ServiceResult {
    if Simulated(c) then Succeeded
    else match reply
      case InitiateRaised(m) => Refused(PyStr(m))
      case InitiateJson(code, message, _) =>
        if code == Some(PyStr("200")) then Succeeded else Refused(Get(message, PyStr("Airtel request failed")))
  }

  /** `initiate_airtel_payment`. In simulation mode the payment succeeds at once and the sale is
      credited. Otherwise the payment moves to 'processing', keeping Airtel's transaction id,
      only when the status code is the string '200'; any other reply, and any exception, is a
      refusal that changes nothing. */
  method Initiate(c: AirtelConfig, payment: Payment, reply: InitiateReply, now: int) returns (r: ServiceResult)
    modifies payment, payment.sale
    ensures r == InitiateOutcome(c, reply)
    ensures Simulated(c) ==> (r == Succeeded && payment.status == Success && payment.completedAt == Some(now)
      && payment.metadata == SimulationMetadata(payment) && Credited(payment.sale, payment.amount))
    ensures !Simulated(c) && reply.InitiateRaised? ==> r == Refused(PyStr(reply.message))
    ensures !Simulated(c) && reply.InitiateJson? ==>
      if reply.statusCode == Some(PyStr("200")) then
        r == Succeeded && payment.status == Processing && payment.completedAt == old(payment.completedAt)
        && payment.metadata == map["airtel_transaction_id" := ScalarJson(Get(reply.transactionId, PyNone))]
      else
        r == Refused(Get(reply.statusMessage, PyStr("Airtel request failed")))
    ensures !Simulated(c) ==> unchanged(payment.sale)
    ensures r.Refused? ==> unchanged(payment)
    ensures payment.externalReference == old(payment.externalReference)
    ensures payment.errorMessage == old(payment.errorMessage)
  {
    if Simulated(c) {
      payment.status := Processing;
      payment.metadata := SimulationMetadata(payment);
      payment.status := Success;
      payment.completedAt := Some(now);
      CreditSale(payment.sale, payment.amount);
      return Succeeded;
    }
    match reply
    case InitiateRaised(m) =>
      r := Refused(PyStr(m));
    case InitiateJson(code, message, transactionId) =>
      if code == Some(PyStr("200")) {
        payment.status := Processing;
        payment.metadata := map["airtel_transaction_id" := ScalarJson(Get(transactionId, PyNone))];
        r := Succeeded;
      } else {
        r := Refused(Get(message, PyStr("Airtel request failed")));
      }
  }

  /** The `transaction` object of a callback: id, status code, status message (None when
      missing) and payer number. */
  datatype AirtelCallback = AirtelCallback(transactionId: Scalar, statusCode: Scalar, statusMessage: Option<Scalar>, msisdn: Scalar)

  /** `process_airtel_callback`. The callback is logged first; the log row cannot be saved when
      a text it needs is None (the id or payer number of a success, the message of a failure),
      and then nothing changes. Otherwise status code 'TS' marks the payment with that
      reference successful, with the id as its external reference, and credits its sale; any
      other code marks it failed with the message, '' when there is none. */
  method ProcessCallback(payments: seq<Payment>, cb: AirtelCallback, now: int) returns (r: ServiceResult, found: Option<Payment>)
    modifies Touched(FindByReference(payments, cb.transactionId))
    ensures found == FindByReference(payments, cb.transactionId)
    ensures cb.statusCode == PyStr("TS") ==>
      if cb.transactionId == PyNone || cb.msisdn == PyNone then
        r == Refused(PyStr(NotNullFailure)) && (found.Some? ==> unchanged(found.value, found.value.sale))
      else
        r == Succeeded && (found.Some? ==>
          found.value.status == Success && found.value.externalReference == ColumnText(cb.transactionId).value
          && found.value.completedAt == Some(now) && found.value.errorMessage == old(found.value.errorMessage)
          && found.value.metadata == old(found.value.metadata) && Credited(found.value.sale, found.value.amount))
    ensures cb.statusCode != PyStr("TS") ==>
      var message := Get(cb.statusMessage, PyStr(""));
      if message == PyNone then
        r == Refused(PyStr(NotNullFailure)) && (found.Some? ==> unchanged(found.value, found.value.sale))
      else
        r == Succeeded && (found.Some? ==>
          found.value.status == Failed && found.value.errorMessage == ColumnText(message).value
          && found.value.externalReference == old(found.value.externalReference)
          && found.value.completedAt == old(found.value.completedAt)
          && found.value.metadata == old(found.value.metadata) && unchanged(found.value.sale))
  {
    found := FindByReference(payments, cb.transactionId);
    if cb.statusCode == PyStr("TS") {
      if cb.transactionId == PyNone || cb.msisdn == PyNone {
        return Refused(PyStr(NotNullFailure)), found;
      }
      if found.Some? {
        var p := found.value;
        p.status := Success;
        p.externalReference := ColumnText(cb.transactionId).value;
        p.completedAt := Some(now);
        CreditSale(p.sale, p.amount);
      }
    } else {
      var message := Get(cb.statusMessage, PyStr(""));
      if message == PyNone {
        return Refused(PyStr(NotNullFailure)), found;
      }
      if found.Some? {
        var p := found.value;
        p.status := Failed;
        p.errorMessage := ColumnText(message).value;
      }
    }
    r := Succeeded;
  }

  /** What the status query produced: an exception, or the transaction's status code (None
      when missing) and message. */
  datatype QueryReply = QueryRaised(message: string) | QueryJson(statusCode: Scalar, statusMessage: Option<Scalar>)

  /** `verify_airtel_payment`: 'TS' succeeds and credits the sale, 'TF' and 'TD' fail with the
      message ('' when there is none), and any other code leaves the payment as it is. The
      current status is not consulted. */
  twostate predicate Verified(payment: Payment, reply: QueryReply, now: int, r: ServiceResult)
    reads payment, payment.sale
  {
    (reply.QueryRaised? ==> r == Refused(PyStr(reply.message)))
    && (reply.QueryJson? ==>
       var message := Get(reply.statusMessage, PyStr(""));
       if reply.statusCode == PyStr("TS") then
         r == Succeeded && payment.status == Success && payment.completedAt == Some(now)
         && payment.errorMessage == old(payment.errorMessage) && Credited(payment.sale, payment.amount)
       else if reply.statusCode == PyStr("TF") || reply.statusCode == PyStr("TD") then
         if message == PyNone then
           r == Refused(PyStr(NotNullFailure))
         else
           r == Succeeded && payment.status == Failed && payment.errorMessage == ColumnText(message).value
           && payment.completedAt == old(payment.completedAt) && unchanged(payment.sale)
       else
         r == Succeeded && unchanged(payment, payment.sale))
    && (r.Refused? ==> unchanged(payment, payment.sale))
    && (payment.externalReference == old(payment.externalReference) && payment.metadata == old(payment.metadata))
  }

  /** The status query and its effect on the payment, as `Verified` states them. */
  method Verify(payment: Payment, reply: QueryReply, now: int) returns (r: ServiceResult)
    modifies payment, payment.sale
    ensures Verified(payment, reply, now, r)
  {
    match reply
    case QueryRaised(m) =>
      r := Refused(PyStr(m));
    case QueryJson(code, statusMessage) =>
      if code == PyStr("TS") {
        payment.status := Success;
        payment.completedAt := Some(now);
        CreditSale(payment.sale, payment.amount);
      } else if code == PyStr("TF") || code == PyStr("TD") {
        var message := Get(statusMessage, PyStr(""));
        if message == PyNone {
          return Refused(PyStr(NotNullFailure));
        }
        payment.status := Failed;
        payment.errorMessage := ColumnText(message).value;
      }
      r := Succeeded;
  }

  /** `process_airtel_refund`: Airtel refunds are never processed automatically. */
  const RefundRefusal: ServiceResult := Refused(PyStr("Airtel refunds require manual processing or separate API setup"))
}
