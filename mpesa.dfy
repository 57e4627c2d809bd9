/** The M-Pesa (Safaricom Daraja) client and the three service functions built on it: the STK
    push that starts a payment, the callback Safaricom posts when the customer answers, and the
    status query. The HTTP exchanges are inputs: the reply the gateway gave, or the exception
    the call raised. */
module MpesaServices {
  import opened Common
  import opened Js
  import opened Python
  import opened Stamps
  import Base64
  import PhoneNumbers
  import SalesModels
  import opened PaymentsModels

  /** The settings the client reads. */
  datatype MpesaConfig = MpesaConfig(
    consumerKey: string,
    consumerSecret: string,
    shortcode: string,
    passkey: string,
    callbackUrl: string)

  /** Without both credentials the service runs in simulation mode. */
  predicate Simulated(c: MpesaConfig) {
    c.consumerKey == "" || c.consumerSecret == ""
  }

  /** `generate_password`: the base64 text of the UTF-8 bytes of shortcode, passkey and
      timestamp, in that order. */
  function Password(c: MpesaConfig, timestamp: string): (r: string)
    ensures |r| % 4 == 0
  {
    Base64.EncodedLength(Base64.Utf8(c.shortcode + c.passkey + timestamp));
    Base64.Encode(Base64.Utf8(c.shortcode + c.passkey + timestamp))
  }

  /** The password is the RFC 4648 section 4 encoding of the three strings: decoding it gives
      back their bytes. */
  lemma PasswordDecodes(c: MpesaConfig, timestamp: string)
    ensures Base64.Decode(Password(c, timestamp)) == Some(Base64.Utf8(c.shortcode + c.passkey + timestamp))
  {
    Base64.DecodeEncode(Base64.Utf8(c.shortcode + c.passkey + timestamp));
  }

  /** The STK push payload. */
  datatype StkPushRequest = StkPushRequest(
    businessShortCode: string,
    password: string,
    timestamp: string,
    transactionType: string,
    amount: int,
    partyA: string,
    partyB: string,
    phoneNumber: string,
    callbackUrl: string,
    accountReference: string,
    transactionDesc: string)

  /** `stk_push`'s payload for a payment at a given time: the normalised phone number pays the
      shortcode the whole shillings of the amount, referenced by the payment's transaction
      reference. */
  function StkPush(c: MpesaConfig, payment: Payment, clock: DateTime): (r: StkPushRequest)
    requires ValidDateTime(clock)
    ensures r.partyA == r.phoneNumber == PhoneNumbers.Normalize(payment.phoneNumber)
    ensures StartsWith(r.phoneNumber, "254")
    ensures r.businessShortCode == r.partyB == c.shortcode
    ensures r.timestamp == DateTimeStamp(clock) && r.password == Password(c, r.timestamp)
    ensures payment.amount >= 0 ==> r.amount * 100 <= payment.amount < r.amount * 100 + 100
    ensures r.accountReference == payment.transactionReference
    ensures r.transactionDesc == "Payment for Sale " + payment.sale.saleNumber
  {
    var timestamp := DateTimeStamp(clock);
    var phone := PhoneNumbers.Normalize(payment.phoneNumber);
    StkPushRequest(c.shortcode, Password(c, timestamp), timestamp, "CustomerPayBillOnline",
                   TruncateCents(payment.amount), phone, c.shortcode, phone, c.callbackUrl,
                   payment.transactionReference, "Payment for Sale " + payment.sale.saleNumber)
  }

  /** The fields of an STK push reply the service looks at; None for a missing key. */
  datatype StkFields = StkFields(
    responseCode: Option<Scalar>,
    responseDescription: Option<Scalar>,
    checkoutRequestId: Option<Scalar>,
    merchantRequestId: Option<Scalar>,
    errorCode: Option<Scalar>,
    errorMessage: Option<Scalar>)

  /** What the STK push exchange produced: an exception (the token request failed or the
      network did), a body that is not JSON, or a JSON body. */
  datatype StkReply = StkRaised(message: string) | StkNonJson(text: string) | StkJson(fields: StkFields)

  /** What `stk_push` returns to the service, or the exception message: a body that is not JSON
      is replaced by a refusal carrying at most 200 characters of it. */
  function StkResult(reply: StkReply): Result<StkFields> {
    match reply
    case StkRaised(m) => Err(m)
    case StkNonJson(text) =>
      Ok(StkFields(Some(PyStr("1")), Some(PyStr("Invalid response from M-Pesa: " + Take(text, 200))), None, None,
                   Some(PyStr("INVALID_RESPONSE")), Some(PyStr(text))))
    case StkJson(f) => Ok(f)
  }

  /** A body that is not JSON never counts as accepted, and its description quotes a prefix of
      the body no longer than 200 characters. */
  lemma NonJsonRefused(text: string)
    ensures StkResult(StkNonJson(text)).Ok?
    ensures StkResult(StkNonJson(text)).value.responseCode != Some(PyStr("0"))
    ensures StkResult(StkNonJson(text)).value.errorCode == Some(PyStr("INVALID_RESPONSE"))
    ensures exists t :: (|t| <= 200 && StartsWith(text, t)
      && StkResult(StkNonJson(text)).value.responseDescription == Some(PyStr("Invalid response from M-Pesa: " + t)))
  {
    var t := Take(text, 200);
    assert StartsWith(text, t);
  }

  /** The metadata of a simulated payment. */
  function SimulationMetadata(payment: Payment): (m: map<string, Json>) {
    map["checkout_request_id" := JStr("sim_" + payment.transactionReference),
        "merchant_request_id" := JStr("sim_merchant_" + NatToDecimal(payment.id)),
        "simulation_mode" := JBool(true)]
  }

  /** The metadata of an accepted STK push: the two request ids as the reply gave them. */
  function PushMetadata(f: StkFields): (m: map<string, Json>) {
    map["checkout_request_id" := ScalarJson(Get(f.checkoutRequestId, PyNone)),
        "merchant_request_id" := ScalarJson(Get(f.merchantRequestId, PyNone))]
  }

  /** The answer `initiate_mpesa_payment` gives for a configuration and an STK push reply. */
  function InitiateOutcome(c: MpesaConfig, reply: StkReply): ServiceResult {
    if Simulated(c) then Succeeded
    else match StkResult(reply)
      case Err(m) => Refused(PyStr(m))
      case Ok(f) =>
        if f.responseCode == Some(PyStr("0")) then Succeeded
        else Refused(Get(f.responseDescription, PyStr("M-Pesa request failed")))
  }

  /** `initiate_mpesa_payment`. In simulation mode the payment succeeds at once and the sale is
      credited. Otherwise the payment moves to 'processing', keeping the request ids, only when
      the reply's ResponseCode is the string '0'; any other reply, and any exception, is a
      refusal that changes nothing. */
  method Initiate(c: MpesaConfig, payment: Payment, reply: StkReply, now: int) returns (r: ServiceResult)
    modifies payment, payment.sale
    ensures r == InitiateOutcome(c, reply)
    ensures Simulated(c) ==> (r == Succeeded && payment.status == Success && payment.completedAt == Some(now)
      && payment.metadata == SimulationMetadata(payment) && Credited(payment.sale, payment.amount))
    ensures !Simulated(c) && StkResult(reply).Err? ==> r == Refused(PyStr(StkResult(reply).error))
    ensures !Simulated(c) && StkResult(reply).Ok? ==>
      var f := StkResult(reply).value;
      if f.responseCode == Some(PyStr("0")) then
        r == Succeeded && payment.status == Processing && payment.metadata == PushMetadata(f)
        && payment.completedAt == old(payment.completedAt)
      else
        r == Refused(Get(f.responseDescription, PyStr("M-Pesa request failed")))
    ensures !Simulated(c) ==> unchanged(payment.sale)
    ensures r.Refused? ==> unchanged(payment)
    ensures payment.externalReference == old(payment.externalReference)
    ensures payment.errorMessage == old(payment.errorMessage)
  {
    if Simulated(c) {
      payment.status := Processing;
      payment.metadata := SimulationMetadata(payment);
      payment.status := Success;
      payment.completedAt := Some(now);
      CreditSale(payment.sale, payment.amount);
      return Succeeded;
    }
    match StkResult(reply)
    case Err(m) =>
      r := Refused(PyStr(m));
    case Ok(f) =>
      if f.responseCode == Some(PyStr("0")) {
        payment.status := Processing;
        payment.metadata := PushMetadata(f);
        r := Succeeded;
      } else {
        r := Refused(Get(f.responseDescription, PyStr("M-Pesa request failed")));
      }
  }

  /** One `{'Name': ..., 'Value': ...}` entry of the callback metadata. */
  datatype MetadataItem = MetadataItem(name: Scalar, value: Scalar)

  /** The `stkCallback` body: checkout id, result code and description (Python's None when
      the key is missing) and the metadata items (none when missing). */
  datatype StkCallback = StkCallback(
    checkoutRequestId: Scalar,
    resultCode: Scalar,
    resultDesc: Scalar,
    items: seq<MetadataItem>)

  /** The value of the last item carrying the name; None when no item does. */
  function LastValue(items: seq<MetadataItem>, name: string): (r: Scalar)
    ensures r != PyNone ==> exists k :: 0 <= k < |items| && items[k].name == PyStr(name) && items[k].value == r
  {
    if items == [] then PyNone
    else if items[|items| - 1].name == PyStr(name) then items[|items| - 1].value
    else LastValue(items[..|items| - 1], name)
  }

  /** A later item with the name overrides every earlier one. */
  lemma LastItemWins(items: seq<MetadataItem>, name: string, v: Scalar)
    ensures LastValue(items + [MetadataItem(PyStr(name), v)], name) == v
  {
  }

  /** Items with other names do not disturb the value. */
  lemma OtherItemsIgnored(items: seq<MetadataItem>, name: string, other: MetadataItem)
    requires other.name != PyStr(name)
    ensures LastValue(items + [other], name) == LastValue(items, name)
  {
    assert (items + [other])[..|items|] == items;
  }

  /** The extraction loop of the callback: each of the three names keeps the value of the
      last item that carries it. */
  method ReadDetails(items: seq<MetadataItem>) returns (transactionId: Scalar, amount: Scalar, phone: Scalar)
    ensures transactionId == LastValue(items, "MpesaReceiptNumber")
    ensures amount == LastValue(items, "Amount")
    ensures phone == LastValue(items, "PhoneNumber")
  {
    transactionId, amount, phone := PyNone, PyNone, PyNone;
    var i := 0;
    while i < |items|
      invariant 0 <= i <= |items|
      invariant transactionId == LastValue(items[..i], "MpesaReceiptNumber")
      invariant amount == LastValue(items[..i], "Amount")
      invariant phone == LastValue(items[..i], "PhoneNumber")
    {
      assert items[..i + 1][..i] == items[..i];
      var item := items[i];
      if item.name == PyStr("MpesaReceiptNumber") {
        transactionId := item.value;
      } else if item.name == PyStr("Amount") {
        amount := item.value;
      } else if item.name == PyStr("PhoneNumber") {
        phone := item.value;
      }
      i := i + 1;
    }
    assert items[..i] == items;
  }

  /** `metadata.get('checkout_request_id')`. */
  function CheckoutId(m: map<string, Json>): (r: Option<Json>)
    ensures r.Some? <==> "checkout_request_id" in m
  {
    if "checkout_request_id" in m then Some(m["checkout_request_id"]) else None
  }

  /** `Payment.objects.filter(metadata__checkout_request_id=key).first()`: the first payment,
      in table order, whose metadata holds the key with that value. */
  function FindByCheckout(payments: seq<Payment>, key: Json): (r: Option<Payment>)
    reads payments
    ensures r.Some? ==> exists k :: (0 <= k < |payments| && payments[k] == r.value
      && CheckoutId(payments[k].metadata) == Some(key)
      && forall j :: 0 <= j < k ==> CheckoutId(payments[j].metadata) != Some(key))
    ensures r.None? ==> forall k :: 0 <= k < |payments| ==> CheckoutId(payments[k].metadata) != Some(key)
  {
    if payments == [] then None
    else if CheckoutId(payments[0].metadata) == Some(key) then Some(payments[0])
    else
      var rest := FindByCheckout(payments[1..], key);
      if rest.Some? then
        ghost var k :| 0 <= k < |payments| - 1 && payments[1..][k] == rest.value
          && CheckoutId(payments[1..][k].metadata) == Some(key)
          && forall j :: 0 <= j < k ==> CheckoutId(payments[1..][j].metadata) != Some(key);
        assert payments[k + 1] == rest.value;
        assert forall j :: 1 <= j < k + 1 ==> payments[j] == payments[1..][j - 1];
        rest
      else
        assert forall k :: 1 <= k < |payments| ==> payments[k] == payments[1..][k - 1];
        rest
  }

  /** The rows a callback may change: the payment it names and that payment's sale. */
  /** `process_mpesa_callback`. The callback is logged first; the log row cannot be saved when
      a text it needs is None (the receipt number or phone number of a success, the description
      of a failure), and then nothing changes. Otherwise a ResultCode equal to 0 marks the
      payment, if one carries the checkout id, successful with the last receipt number as its
      external reference and credits its sale; any other code marks it failed with the
      description. */
  method ProcessCallback(payments: seq<Payment>, cb: StkCallback, now: int) returns (r: ServiceResult, found: Option<Payment>)
    modifies Touched(FindByCheckout(payments, ScalarJson(cb.checkoutRequestId)))
    ensures found == old(FindByCheckout(payments, ScalarJson(cb.checkoutRequestId)))
    ensures ScalarEqualsInt(cb.resultCode, 0) ==>
      var receipt := LastValue(cb.items, "MpesaReceiptNumber");
      var phone := LastValue(cb.items, "PhoneNumber");
      if receipt == PyNone || phone == PyNone then
        r == Refused(PyStr(NotNullFailure)) && (found.Some? ==> unchanged(found.value, found.value.sale))
      else
        r == Succeeded && (found.Some? ==>
          found.value.status == Success && found.value.externalReference == ColumnText(receipt).value
          && found.value.completedAt == Some(now) && found.value.errorMessage == old(found.value.errorMessage)
          && found.value.metadata == old(found.value.metadata) && Credited(found.value.sale, found.value.amount))
    ensures !ScalarEqualsInt(cb.resultCode, 0) ==>
      if cb.resultDesc == PyNone then
        r == Refused(PyStr(NotNullFailure)) && (found.Some? ==> unchanged(found.value, found.value.sale))
      else
        r == Succeeded && (found.Some? ==>
          found.value.status == Failed && found.value.errorMessage == ColumnText(cb.resultDesc).value
          && found.value.externalReference == old(found.value.externalReference)
          && found.value.completedAt == old(found.value.completedAt)
          && found.value.metadata == old(found.value.metadata) && unchanged(found.value.sale))
  {
    found := FindByCheckout(payments, ScalarJson(cb.checkoutRequestId));
    if ScalarEqualsInt(cb.resultCode, 0) {
      var transactionId, amount, phone := ReadDetails(cb.items);
      if transactionId == PyNone || phone == PyNone {
        return Refused(PyStr(NotNullFailure)), found;
      }
      if found.Some? {
        var p := found.value;
        p.status := Success;
        p.externalReference := ColumnText(transactionId).value;
        p.completedAt := Some(now);
        CreditSale(p.sale, p.amount);
      }
    } else {
      if cb.resultDesc == PyNone {
        return Refused(PyStr(NotNullFailure)), found;
      }
      if found.Some? {
        var p := found.value;
        p.status := Failed;
        p.errorMessage := ColumnText(cb.resultDesc).value;
      }
    }
    r := Succeeded;
  }

  /** What the status query produced: an exception (token, network, or a body that is not
      JSON), or the reply's errorCode and ResultCode (None when missing) and ResultDesc. */
  datatype QueryReply = QueryRaised(message: string) | QueryJson(errorCode: Scalar, resultCode: Scalar, resultDesc: Option<Scalar>)

  /** `verify_mpesa_payment`. A payment without a checkout id, a failed query and a reply
      carrying an errorCode leave the payment as it is. Otherwise the ResultCode string decides:
      '0' succeeds and credits the sale, '1032' cancels, '1037' fails as a timeout and any other
      code fails with the description. The current status is not consulted. */
  twostate predicate Verified(payment: Payment, reply: QueryReply, now: int, r: ServiceResult)
    reads payment, payment.sale
  {
    (!PyTruthy(CheckoutId(old(payment.metadata))) ==> r == Refused(PyStr("No checkout request ID found")))
    && (PyTruthy(CheckoutId(old(payment.metadata))) && reply.QueryRaised? ==> r == Refused(PyStr(reply.message)))
    && (PyTruthy(CheckoutId(old(payment.metadata))) && reply.QueryJson? && ScalarTruthy(reply.errorCode) ==>
       r == Succeeded && unchanged(payment, payment.sale))
    && (PyTruthy(CheckoutId(old(payment.metadata))) && reply.QueryJson? && !ScalarTruthy(reply.errorCode) ==>
       var code := reply.resultCode;
       var desc := Get(reply.resultDesc, PyStr("Transaction failed"));
       if code == PyStr("0") then
         r == Succeeded && payment.status == Success && payment.completedAt == Some(now)
         && payment.errorMessage == old(payment.errorMessage) && Credited(payment.sale, payment.amount)
       else if code == PyStr("1032") then
         r == Succeeded && payment.status == Cancelled && payment.errorMessage == "Cancelled by user"
         && payment.completedAt == old(payment.completedAt) && unchanged(payment.sale)
       else if code == PyStr("1037") then
         r == Succeeded && payment.status == Failed && payment.errorMessage == "Request timeout - no user response"
         && payment.completedAt == old(payment.completedAt) && unchanged(payment.sale)
       else if desc == PyNone then
         r == Refused(PyStr(NotNullFailure))
       else
         r == Succeeded && payment.status == Failed && payment.errorMessage == ColumnText(desc).value
         && payment.completedAt == old(payment.completedAt) && unchanged(payment.sale))
    && (r.Refused? ==> unchanged(payment, payment.sale))
    && (payment.externalReference == old(payment.externalReference) && payment.metadata == old(payment.metadata))
  }

  /** The status query and its effect on the payment, as `Verified` states them. */
  method Verify(payment: Payment, reply: QueryReply, now: int) returns (r: ServiceResult)
    modifies payment, payment.sale
    ensures Verified(payment, reply, now, r)
  {
    if !PyTruthy(CheckoutId(payment.metadata)) {
      return Refused(PyStr("No checkout request ID found"));
    }
    match reply
    case QueryRaised(m) =>
      r := Refused(PyStr(m));
    case QueryJson(errorCode, code, resultDesc) =>
      if ScalarTruthy(errorCode) {
        return Succeeded;
      }
      if code == PyStr("0") {
        payment.status := Success;
        payment.completedAt := Some(now);
        CreditSale(payment.sale, payment.amount);
      } else if code == PyStr("1032") {
        payment.status := Cancelled;
        payment.errorMessage := "Cancelled by user";
      } else if code == PyStr("1037") {
        payment.status := Failed;
        payment.errorMessage := "Request timeout - no user response";
      } else {
        var desc := Get(resultDesc, PyStr("Transaction failed"));
        if desc == PyNone {
          return Refused(PyStr(NotNullFailure));
        }
        payment.status := Failed;
        payment.errorMessage := ColumnText(desc).value;
      }
      r := Succeeded;
  }

  /** Verifying the same successful payment twice credits its sale twice: nothing stops a
      second '0' reply from adding the amount again. */
  method VerifyTwice(payment: Payment, now: int) returns (r1: ServiceResult, r2: ServiceResult)
    requires PyTruthy(CheckoutId(payment.metadata))
    modifies payment, payment.sale
    ensures r1 == Succeeded && r2 == Succeeded && payment.status == Success
    ensures payment.sale.amountPaid == old(payment.sale.amountPaid) + 2 * payment.amount
  {
    var reply := QueryJson(PyNone, PyStr("0"), None);
    r1 := Verify(payment, reply, now);
    r2 := Verify(payment, reply, now);
  }

  /** `process_mpesa_refund`: M-Pesa refunds are never processed automatically. */
  const RefundRefusal: ServiceResult := Refused(PyStr("M-Pesa refunds require manual processing or B2C API setup"))
}
