/** The payment dialog of the checkout: the checks made before a payment request is sent,
    the change given for cash, what the dialog reports to the checkout once a payment is
    complete, the one delayed confirmation of a mobile payment, and the message shown when
    the server refuses a payment. Amounts are in cents. */
module PaymentModal {
  import opened Common
  import opened Js
  import Python
  import ApiClient
  import PosCheckout
  import PaymentsSerializers
  import PaymentsViews
  import SalesModels

  /** The first truthy of the body's `error`, the first of its `non_field_errors`, and the
      first element of its first value; otherwise `fallback`. */
  function InitiateErrorMessage(data: Option<Json>, fallback: string): (m: Json)
    requires fallback != ""
    ensures Truthy(Some(m))
    ensures Truthy(Prop(data, "error")) ==> m == Prop(data, "error").value
    ensures !Truthy(Prop(data, "error")) && Truthy(Prop(Prop(data, "non_field_errors"), "0")) ==>
      m == Prop(Prop(data, "non_field_errors"), "0").value
    ensures !Truthy(data) ==> m == JStr(fallback)
  {
    var values := Values(Or(data, Some(JObj([]))).value);
    var firstValue := if values == [] then None else Some(values[0]);
    Or(Prop(data, "error"),
       Or(Prop(Prop(data, "non_field_errors"), "0"),
          Or(Prop(firstValue, "0"), Some(JStr(fallback))))).value
  }

  lemma IndexZero()
    ensures IndexKey("0") == Some(0)
  {
    assert AllDigits("0") && DecimalValue("0") == 0;
  }

  /** A refusal the serializer raises as a whole, such as a sale already paid, is shown as
      it was written. */
  lemma NonFieldErrorShown(msg: string, fallback: string)
    requires msg != "" && fallback != ""
    ensures InitiateErrorMessage(Some(JObj([("non_field_errors", JArr([JStr(msg)]))])), fallback) == JStr(msg)
  {
    IndexZero();
  }

  /** A refusal of one field shows that field's first message. */
  lemma FieldErrorShown(field: string, msg: string, fallback: string)
    requires field != "error" && field != "non_field_errors" && msg != "" && fallback != ""
    ensures InitiateErrorMessage(Some(JObj([(field, JArr([JStr(msg)]))])), fallback) == JStr(msg)
  {
    IndexZero();
    assert Values(JObj([(field, JArr([JStr(msg)]))]))[0] == JArr([JStr(msg)]);
  }

  /** The body of a payment request: the sale when the dialog was given one (`undefined`
      members are dropped by `JSON.stringify`), the method, the method's own member, and the
      amount. */
  function InitiateBody(saleId: Option<int>, paymentMethod: string, extra: seq<(string, Json)>, amount: int)
    : (body: seq<(string, Json)>)
    ensures body != [] && body[|body| - 1] == ("amount", JNum(amount))
    ensures saleId.Some? ==> body[0] == ("sale", JNum(saleId.value))
    ensures saleId.None? && extra == [] ==> body == [("method", JStr(paymentMethod)), ("amount", JNum(amount))]
  {
    (if saleId.Some? then [("sale", JNum(saleId.value))] else [])
    + [("method", JStr(paymentMethod))] + extra + [("amount", JNum(amount))]
  }

  datatype Toast =
    | ErrorToast(message: Json)
    | SuccessToast(text: string)
    | LoadingToast(text: string, durationMs: int)
    | DismissAll

  datatype Request = Initiate(body: seq<(string, Json)>) | Post(path: string)

  /** The delayed confirmation of a mobile payment, run after `delayMs`. */
  datatype Timer = Timer(delayMs: int, paymentId: Option<Json>, paymentMethod: string)

  /** The reply to a request: success or failure, with the response body (None when there
      was no response). */
  datatype Reply = Succeeded(data: Option<Json>) | Failed(data: Option<Json>)

  /** What one press of the pay button does: the toasts shown, the request sent, what is
      reported to the checkout, the processing flag after it, and the confirmation
      scheduled. */
  datatype Effects = Effects(toasts: seq<Toast>, request: Option<Request>,
                             completion: Option<PosCheckout.PaymentData>, processing: bool, timer: Option<Timer>)

  /** A phone number the dialog accepts: not empty and at least ten UTF-16 units long. */
  predicate PhoneAccepted(phone: string) {
    phone != "" && Utf16Length(phone) >= 10
  }

  /** A card number the dialog accepts: not empty and at least sixteen UTF-16 units long. */
  predicate CardAccepted(card: string) {
    card != "" && Utf16Length(card) >= 16
  }

  /** `handlePayment` for cash. */
  function CashEffects(saleId: Option<int>, total: int, amountPaid: int, processing: bool, reply: Reply): (e: Effects)
    ensures e.timer.None? && e.processing == processing
    ensures amountPaid < total <==> e.request.None?
  {
    if amountPaid < total then Effects([ErrorToast(JStr("Amount paid is less than total"))], None, None, processing, None)
    else
      var change := amountPaid - total;
      var changeToast := if change > 0 then [SuccessToast("Change: Ksh " + Python.CentsText(change))] else [];
      var request := Initiate(InitiateBody(saleId, "cash", [], total));
      if reply.Succeeded? then
        Effects(changeToast, Some(request), Some(PosCheckout.PaymentData("cash", amountPaid)), processing, None)
      else
        Effects(changeToast + [ErrorToast(InitiateErrorMessage(reply.data, "Payment initiation failed"))],
                Some(request), None, processing, None)
  }

  /** `handlePayment` for M-Pesa and Airtel Money. */
  function MobileEffects(saleId: Option<int>, paymentMethod: string, total: int, phone: string, processing: bool,
                         reply: Reply): (e: Effects)
    ensures !PhoneAccepted(phone) <==> e.request.None?
    ensures e.completion.Some? ==> e.completion.value == PosCheckout.PaymentData(paymentMethod, total)
  {
    if !PhoneAccepted(phone) then
      Effects([ErrorToast(JStr("Please enter a valid phone number"))], None, None, processing, None)
    else
      var request := Initiate(InitiateBody(saleId, paymentMethod, [("phone_number", JStr(phone))], total));
      if reply.Failed? then
        Effects([ErrorToast(InitiateErrorMessage(reply.data, "Failed to initiate payment"))], Some(request), None, false, None)
      else
        var status := Prop(reply.data, "status");
        if status == Some(JStr("success")) then
          Effects([SuccessToast("Payment confirmed!")], Some(request),
                  Some(PosCheckout.PaymentData(paymentMethod, total)), true, None)
        else if status == Some(JStr("pending")) || status == Some(JStr("processing")) then
          Effects([DismissAll, LoadingToast("Check your phone and enter PIN to complete payment", 30000)],
                  Some(request), None, true, Some(Timer(15000, Prop(reply.data, "id"), paymentMethod)))
        else Effects([], Some(request), None, true, None)
  }

  /** `handlePayment` for a card. */
  function CardEffects(saleId: Option<int>, total: int, card: string, processing: bool, reply: Reply): (e: Effects)
    ensures !CardAccepted(card) <==> e.request.None?
    ensures e.request.Some? ==> !e.processing
    ensures e.timer.None?
  {
    if !CardAccepted(card) then
      Effects([ErrorToast(JStr("Please enter a valid card number"))], None, None, processing, None)
    else
      var request := Initiate(InitiateBody(saleId, "card", [("card_number", JStr(card))], total));
      if reply.Succeeded? then
        Effects([SuccessToast("Card payment processed")], Some(request), Some(PosCheckout.PaymentData("card", total)), false, None)
      else Effects([ErrorToast(JStr("Card payment failed"))], Some(request), None, false, None)
  }

  /** `handlePayment`: the effects of the selected method. */
  function PaymentEffects(selectedMethod: string, saleId: Option<int>, total: int, amountPaid: int, phone: string,
                          card: string, processing: bool, reply: Reply): (e: Effects)
    ensures selectedMethod == "cash" ==> e == CashEffects(saleId, total, amountPaid, processing, reply)
    ensures selectedMethod == "mpesa" || selectedMethod == "airtel" ==>
      e == MobileEffects(saleId, selectedMethod, total, phone, processing, reply)
    ensures selectedMethod == "card" ==> e == CardEffects(saleId, total, card, processing, reply)
    ensures selectedMethod !in {"cash", "mpesa", "airtel", "card"} ==> e == Effects([], None, None, processing, None)
  {
    if selectedMethod == "cash" then CashEffects(saleId, total, amountPaid, processing, reply)
    else if selectedMethod == "mpesa" || selectedMethod == "airtel" then
      MobileEffects(saleId, selectedMethod, total, phone, processing, reply)
    else if selectedMethod == "card" then CardEffects(saleId, total, card, processing, reply)
    else Effects([], None, None, processing, None)
  }

  /** Cash short of the total is refused before any request, and nothing is reported. */
  lemma ShortCashRefused(saleId: Option<int>, total: int, amountPaid: int, processing: bool, reply: Reply)
    requires amountPaid < total
    ensures var e := CashEffects(saleId, total, amountPaid, processing, reply);
      e.request.None? && e.completion.None? && e.toasts == [ErrorToast(JStr("Amount paid is less than total"))]
  {
  }

  /** Cash: the change is the amount paid less the total and is announced only when
      positive; the request asks for the total, but the checkout is told the amount paid. */
  lemma CashChangeAndAmounts(saleId: Option<int>, total: int, amountPaid: int, processing: bool, data: Option<Json>)
    requires amountPaid >= total
    ensures var e := CashEffects(saleId, total, amountPaid, processing, Succeeded(data));
      e.request == Some(Initiate(InitiateBody(saleId, "cash", [], total)))
      && e.completion == Some(PosCheckout.PaymentData("cash", amountPaid))
      && (amountPaid > total ==> e.toasts == [SuccessToast("Change: Ksh " + Python.CentsText(amountPaid - total))])
      && (amountPaid == total ==> e.toasts == [])
  {
  }

  /** A refused cash payment reports nothing to the checkout and shows the server's reason
      after any change announced. */
  lemma CashRefusalShown(saleId: Option<int>, total: int, amountPaid: int, processing: bool, data: Option<Json>)
    requires amountPaid >= total
    ensures var e := CashEffects(saleId, total, amountPaid, processing, Failed(data));
      e.completion.None? && e.toasts[|e.toasts| - 1] == ErrorToast(InitiateErrorMessage(data, "Payment initiation failed"))
  {
  }

  /** A mobile payment the server reports as done completes at once with the total; one it
      reports as pending schedules exactly one confirmation, fifteen seconds later, and
      completes nothing yet. */
  lemma MobileOutcomes(saleId: Option<int>, paymentMethod: string, total: int, phone: string, processing: bool,
                       fields: seq<(string, Json)>, status: string)
    requires PhoneAccepted(phone)
    requires Member(fields, "status") == Some(JStr(status))
    ensures var e := MobileEffects(saleId, paymentMethod, total, phone, processing, Succeeded(Some(JObj(fields))));
      (status == "success" ==> e.completion == Some(PosCheckout.PaymentData(paymentMethod, total)) && e.timer.None?)
      && (status in {"pending", "processing"} ==>
            e.completion.None? && e.timer == Some(Timer(15000, Member(fields, "id"), paymentMethod)) && e.processing)
      && (status !in {"success", "pending", "processing"} ==> e.completion.None? && e.timer.None? && e.processing)
  {
    var data := Some(JObj(fields));
    assert Prop(data, "status") == Some(JStr(status));
    var e := MobileEffects(saleId, paymentMethod, total, phone, processing, Succeeded(data));
    if status == "success" {
      assert e.completion == Some(PosCheckout.PaymentData(paymentMethod, total)) && e.timer.None?;
    } else if status == "pending" || status == "processing" {
      assert Prop(data, "id") == Member(fields, "id");
      assert e.timer == Some(Timer(15000, Member(fields, "id"), paymentMethod));
    } else {
      assert e.timer.None?;
    }
  }

  /** A phone number of fewer than ten characters, none outside the Basic Multilingual Plane,
      is refused before any request. */
  lemma ShortPhoneRefused(saleId: Option<int>, paymentMethod: string, total: int, phone: string, processing: bool,
                          reply: Reply)
    requires InBmp(phone) && |phone| < 10
    ensures MobileEffects(saleId, paymentMethod, total, phone, processing, reply).request.None?
  {
    BmpLength(phone);
  }

  /** `setCardNumber(e.target.value.replace(/\s/g, ''))` on an input of at most sixteen
      units: the text kept has no whitespace and is at most sixteen units long. */
  function CardInput(value: string): (card: string)
    ensures Utf16Length(card) <= 16
    ensures forall i :: 0 <= i < |card| ==> !IsSpace(card[i])
  {
    var kept := TakeUtf16(value, 16);
    RemovingSpacesShortens(kept);
    RemoveSpaces(kept)
  }

  lemma {:induction false} RemovingSpacesShortens(s: string)
    ensures Utf16Length(RemoveSpaces(s)) <= Utf16Length(s)
  {
    if s != [] {
      RemovingSpacesShortens(s[1..]);
      if !IsSpace(s[0]) {
        assert ([s[0]] + RemoveSpaces(s[1..]))[1..] == RemoveSpaces(s[1..]);
      }
    }
  }

  lemma {:induction false} RemovingASpaceShortens(s: string, i: nat)
    requires i < |s| && IsSpace(s[i])
    ensures Utf16Length(RemoveSpaces(s)) < Utf16Length(s)
  {
    if i == 0 {
      RemovingSpacesShortens(s[1..]);
    } else {
      RemovingASpaceShortens(s[1..], i - 1);
      if !IsSpace(s[0]) {
        assert ([s[0]] + RemoveSpaces(s[1..]))[1..] == RemoveSpaces(s[1..]);
      }
    }
  }

  /** A card number pasted in the placeholder's grouped form is cut at sixteen characters
      before its spaces are removed, so fewer than sixteen digits are left and the dialog
      refuses it. */
  lemma GroupedCardNumberRefused()
    ensures !CardAccepted(CardInput("1234 5678 9012 3456"))
  {
    var pasted := "1234 5678 9012 3456";
    BmpTake(pasted, 16);
    var kept := pasted[..16];
    BmpLength(kept);
    RemovingASpaceShortens(kept, 4);
  }

  /** The dialog's state and what it has done. `completed` lists the reports to the
      checkout (`onComplete`), `timers` the confirmations scheduled and not yet run. */
  class PaymentDialog {
    const saleId: Option<int>
    const total: int
    var selectedMethod: string
    var phoneNumber: string
    var cardNumber: string
    var amountPaid: int
    var processing: bool
    var toasts: seq<Toast>
    var sent: seq<Request>
    var completed: seq<PosCheckout.PaymentData>
    var timers: seq<Timer>

    /** The dialog opens on cash, with the total as the amount paid. */
    constructor (saleId: Option<int>, total: int)
      ensures this.saleId == saleId && this.total == total
      ensures selectedMethod == "cash" && amountPaid == total && phoneNumber == "" && cardNumber == ""
      ensures !processing && toasts == [] && sent == [] && completed == [] && timers == []
    {
      this.saleId := saleId;
      this.total := total;
      selectedMethod := "cash";
      phoneNumber := "";
      cardNumber := "";
      amountPaid := total;
      processing := false;
      toasts := [];
      sent := [];
      completed := [];
      timers := [];
    }

    /** The card number box. */
    method TypeCardNumber(value: string)
      modifies this
      ensures cardNumber == CardInput(value)
      ensures selectedMethod == old(selectedMethod) && phoneNumber == old(phoneNumber) && amountPaid == old(amountPaid)
      ensures processing == old(processing) && toasts == old(toasts) && sent == old(sent)
      ensures completed == old(completed) && timers == old(timers)
    {
      cardNumber := CardInput(value);
    }

    /** `handlePayment`, with the reply the payment request would get. */
    method HandlePayment(reply: Reply)
      modifies this
      ensures var e := PaymentEffects(old(selectedMethod), saleId, total, old(amountPaid), old(phoneNumber),
                                      old(cardNumber), old(processing), reply);
        toasts == old(toasts) + e.toasts
        && sent == old(sent) + Listed(e.request)
        && completed == old(completed) + Listed(e.completion)
        && timers == old(timers) + Listed(e.timer)
        && processing == e.processing
      ensures selectedMethod == old(selectedMethod) && phoneNumber == old(phoneNumber)
      ensures cardNumber == old(cardNumber) && amountPaid == old(amountPaid)
    {
      var e := PaymentEffects(selectedMethod, saleId, total, amountPaid, phoneNumber, cardNumber, processing, reply);
      toasts, sent, completed, timers, processing :=
        toasts + e.toasts, sent + Listed(e.request), completed + Listed(e.completion), timers + Listed(e.timer),
        e.processing;
    }

    /** The scheduled confirmation runs, as written: it reads `paymentsAPI.api.post`, but
        the payments endpoint object has no `api` member (see `PaymentsEndpoints`), so the
        call throws before any request leaves; the catch always runs, says the confirmation
        failed and lets the cashier try again. Nothing is reported to the checkout. */
    method RunTimer()
      requires timers != []
      modifies this
      ensures timers == old(timers)[1..]
      ensures sent == old(sent) && completed == old(completed)
      ensures toasts == old(toasts) + [DismissAll, ErrorToast(JStr("Payment confirmation failed. Please verify manually."))]
      ensures !processing
      ensures selectedMethod == old(selectedMethod) && phoneNumber == old(phoneNumber)
      ensures cardNumber == old(cardNumber) && amountPaid == old(amountPaid)
    {
      timers := timers[1..];
      toasts := toasts + [DismissAll, ErrorToast(JStr("Payment confirmation failed. Please verify manually."))];
      processing := false;
    }

    /** The confirmation as evidently intended, through the endpoint that exists: the payment
        is verified (`paymentsAPI.verify(id)`), and only a verified payment whose status came
        back 'success' is confirmed and reported with the total; any other answer says the
        confirmation failed and lets the cashier try again. */
    method ConfirmByVerify(reply: Reply)
      requires timers != []
      modifies this
      ensures timers == old(timers)[1..]
      ensures sent == old(sent) + [Post(VerifyPath(old(timers)[0].paymentId))]
      ensures reply.Succeeded? && Prop(reply.data, "status") == Some(JStr("success")) ==>
        toasts == old(toasts) + [DismissAll, SuccessToast("Payment confirmed!")]
        && completed == old(completed) + [PosCheckout.PaymentData(old(timers)[0].paymentMethod, total)]
        && processing == old(processing)
      ensures !(reply.Succeeded? && Prop(reply.data, "status") == Some(JStr("success"))) ==>
        toasts == old(toasts) + [DismissAll, ErrorToast(JStr("Payment confirmation failed. Please verify manually."))]
        && completed == old(completed) && !processing
      ensures selectedMethod == old(selectedMethod) && phoneNumber == old(phoneNumber)
      ensures cardNumber == old(cardNumber) && amountPaid == old(amountPaid)
    {
      var timer := timers[0];
      timers := timers[1..];
      sent := sent + [Post(VerifyPath(timer.paymentId))];
      if reply.Succeeded? && Prop(reply.data, "status") == Some(JStr("success")) {
        toasts := toasts + [DismissAll, SuccessToast("Payment confirmed!")];
        completed := completed + [PosCheckout.PaymentData(timer.paymentMethod, total)];
      } else {
        toasts := toasts + [DismissAll, ErrorToast(JStr("Payment confirmation failed. Please verify manually."))];
        processing := false;
      }
    }
  }

  /** The members of the front end's payments endpoint object. */
  const PaymentsEndpoints: seq<string> :=
    ["getAll", "initiate", "verify", "getPending", "getRefunds", "createRefund", "approveRefund"]

  /** The endpoint object has no `api` member, while `verify` exists. */
  lemma NoApiEndpoint()
    ensures "api" !in PaymentsEndpoints && "verify" in PaymentsEndpoints
  {
  }

  /** A mobile payment the server leaves pending is never confirmed: the scheduled
      confirmation sends nothing and reports nothing, whatever happened on the phone. */
  method PendingMobileNeverConfirmed(total: int, phone: string, fields: seq<(string, Json)>)
    returns (d: PaymentDialog)
    requires PhoneAccepted(phone) && Member(fields, "status") == Some(JStr("pending"))
    ensures d.completed == [] && d.timers == [] && !d.processing
    ensures d.sent == [Initiate(InitiateBody(None, "mpesa", [("phone_number", JStr(phone))], total))]
  {
    d := new PaymentDialog(None, total);
    d.selectedMethod := "mpesa";
    d.phoneNumber := phone;
    var reply := Succeeded(Some(JObj(fields)));
    PendingMpesaEffects(total, phone, fields);
    d.HandlePayment(reply);
    d.RunTimer();
  }

  /** What `handlePayment` does for an M-Pesa payment the server left pending. */
  lemma PendingMpesaEffects(total: int, phone: string, fields: seq<(string, Json)>)
    requires PhoneAccepted(phone) && Member(fields, "status") == Some(JStr("pending"))
    ensures var e := PaymentEffects("mpesa", None, total, total, phone, "", false, Succeeded(Some(JObj(fields))));
      e.request == Some(Initiate(InitiateBody(None, "mpesa", [("phone_number", JStr(phone))], total)))
      && e.completion.None? && e.timer.Some?
  {
    MobileOutcomes(None, "mpesa", total, phone, false, fields, "pending");
  }

  /** The path `paymentsAPI.verify(id)` posts to. */
  function VerifyPath(paymentId: Option<Json>): string {
    "/payments/payments/" + ApiClient.Template(paymentId) + "/verify/"
  }

  /** The checkout opens the dialog without a sale: no payment request it sends names one. */
  lemma CheckoutPaymentsNameNoSale(paymentMethod: string, extra: seq<(string, Json)>, amount: int)
    requires forall k :: 0 <= k < |extra| ==> extra[k].0 != "sale"
    ensures var body := InitiateBody(None, paymentMethod, extra, amount);
      forall k :: 0 <= k < |body| ==> body[k].0 != "sale"
  {
  }
  /** The errors of a request the server reads without a sale, as the dialog shows them: the
      answer is 400, the sale's message comes first, and that is the message shown. */
  lemma MissingSaleShown(sales: seq<SalesModels.Sale>, req: PaymentsSerializers.InitiateRequest, fallback: string)
    requires req.sale.None? && fallback != ""
    ensures var check := PaymentsSerializers.ValidateInitiateRequest(sales, req);
      check.Invalid? && check.refusal.FieldErrors? && check.refusal.errors[0] == ("sale", PaymentsSerializers.Required)
      && InitiateErrorMessage(Some(PaymentsViews.ErrorBody(check.refusal)), fallback) == JStr(PaymentsSerializers.Required)
  {
    var check := PaymentsSerializers.ValidateInitiateRequest(sales, req);
    FirstFieldErrorShown(check.refusal.errors, fallback);
  }

  /** Field errors none of which is named `error` or `non_field_errors` show the first
      field's message. */
  lemma FirstFieldErrorShown(e: seq<(string, string)>, fallback: string)
    requires e != [] && e[0].1 != "" && fallback != ""
    requires forall k :: 0 <= k < |e| ==> e[k].0 in {"sale", "method", "amount", "phone_number", "account_number"}
    ensures InitiateErrorMessage(Some(PaymentsViews.ErrorBody(PaymentsSerializers.FieldErrors(e))), fallback) == JStr(e[0].1)
  {
    var body := PaymentsViews.ErrorBody(PaymentsSerializers.FieldErrors(e));
    assert forall k :: 0 <= k < |body.fields| ==> body.fields[k].0 == e[k].0;
    assert Prop(Some(body), "error") == None;
    assert Prop(Some(body), "non_field_errors") == None;
    IndexZero();
    assert Values(body)[0] == JArr([JStr(e[0].1)]);
  }

  /** The checkout opens the dialog without a sale, so every cash or mobile payment it asks
      for is refused by the server for the missing sale, the cashier is shown "This field is
      required.", and nothing is reported to the checkout; a card payment is refused the same
      way and shows the dialog's own card message. */
  lemma CheckoutPaymentRefused(sales: seq<SalesModels.Sale>, req: PaymentsSerializers.InitiateRequest,
                               selectedMethod: string, total: int, amountPaid: int, phone: string, card: string,
                               processing: bool)
    requires selectedMethod in {"cash", "mpesa", "airtel", "card"}
    requires var e := PaymentEffects(selectedMethod, None, total, amountPaid, phone, card, processing, Failed(None));
      e.request.Some? && (Member(e.request.value.body, "sale") == None ==> req.sale.None?)
    ensures var check := PaymentsSerializers.ValidateInitiateRequest(sales, req);
      check.Invalid? && check.refusal.FieldErrors? && check.refusal.errors != []
      && check.refusal.errors[0] == ("sale", PaymentsSerializers.Required)
      && var e := PaymentEffects(selectedMethod, None, total, amountPaid, phone, card, processing,
                                 Failed(Some(PaymentsViews.ErrorBody(check.refusal))));
         e.completion.None?
         && (selectedMethod != "card" ==> e.toasts != [] && e.toasts[|e.toasts| - 1] == ErrorToast(JStr(PaymentsSerializers.Required)))
         && (selectedMethod == "card" ==> e.toasts == [ErrorToast(JStr("Card payment failed"))])
  {
    CheckoutRequestNamesNoSale(selectedMethod, total, amountPaid, phone, card, processing);
    var check := PaymentsSerializers.ValidateInitiateRequest(sales, req);
    RefusedEffects(selectedMethod, total, amountPaid, phone, card, processing, Some(PaymentsViews.ErrorBody(check.refusal)));
    MissingSaleShown(sales, req, "Failed to initiate payment");
    MissingSaleShown(sales, req, "Payment initiation failed");
  }

  /** Whatever the method, the request the checkout's dialog sends has no `sale` member. */
  lemma CheckoutRequestNamesNoSale(selectedMethod: string, total: int, amountPaid: int, phone: string, card: string,
                                   processing: bool)
    requires selectedMethod in {"cash", "mpesa", "airtel", "card"}
    requires PaymentEffects(selectedMethod, None, total, amountPaid, phone, card, processing, Failed(None)).request.Some?
    ensures Member(PaymentEffects(selectedMethod, None, total, amountPaid, phone, card, processing, Failed(None))
                     .request.value.body, "sale") == None
  {
    var extra := if selectedMethod == "cash" then [] else if selectedMethod == "card" then [("card_number", JStr(card))]
                 else [("phone_number", JStr(phone))];
    CheckoutPaymentsNameNoSale(selectedMethod, extra, total);
  }

  /** A method whose request goes out and comes back refused reports nothing; cash and mobile
      money show the refusal's message, a card its own message. */
  lemma RefusedEffects(selectedMethod: string, total: int, amountPaid: int, phone: string, card: string,
                       processing: bool, data: Option<Json>)
    requires selectedMethod in {"cash", "mpesa", "airtel", "card"}
    requires PaymentEffects(selectedMethod, None, total, amountPaid, phone, card, processing, Failed(None)).request.Some?
    ensures var e := PaymentEffects(selectedMethod, None, total, amountPaid, phone, card, processing, Failed(data));
      e.completion.None?
      && (selectedMethod == "cash" ==>
            e.toasts != [] && e.toasts[|e.toasts| - 1] == ErrorToast(InitiateErrorMessage(data, "Payment initiation failed")))
      && (selectedMethod in {"mpesa", "airtel"} ==>
            e.toasts == [ErrorToast(InitiateErrorMessage(data, "Failed to initiate payment"))])
      && (selectedMethod == "card" ==> e.toasts == [ErrorToast(JStr("Card payment failed"))])
  {
  }

  /** A dialog opened with the sale's id names it, and the server's sale field then accepts
      it: no error is reported for the sale, and a request whose other fields pass and whose
      amount fits is valid for that sale. */
  lemma NamedSaleAccepted(sales: seq<SalesModels.Sale>, sale: SalesModels.Sale, req: PaymentsSerializers.InitiateRequest,
                          paymentMethod: string, extra: seq<(string, Json)>, total: int)
    requires PaymentsSerializers.FindByKey(sales, PaymentsSerializers.SaleId, sale.id) == Some(sale)
    requires Member(InitiateBody(Some(sale.id), paymentMethod, extra, total), "sale") == Some(JNum(sale.id)) ==>
      req.sale == Some(Python.PyInt(sale.id))
    ensures PaymentsSerializers.SaleField(sales, req.sale) == PaymentsSerializers.Parsed(sale)
    ensures var e := PaymentsSerializers.InitiateFieldErrors(sales, req);
      forall k :: 0 <= k < |e| ==> e[k].0 != "sale"
  {
    var body := InitiateBody(Some(sale.id), paymentMethod, extra, total);
    assert Member(body, "sale") == Some(JNum(sale.id));
    assert sale in sales;
  }
}
