/** The payment and refund endpoints: `initiate` routes a new payment to its gateway (cash
    settles at once) and marks a refused payment failed; `verify` asks the payment's gateway
    again; `pending` lists the payments still open; `approve` processes a pending refund. */
module PaymentsViews {
  import opened Common
  import opened Js
  import opened Python
  import SalesModels
  import opened PaymentsModels
  import PaymentsSerializers
  import MpesaServices
  import AirtelServices
  import CardServices
  import opened Stamps

  /** The gateway settings and the answer each gateway gives to a new payment. */
  datatype Gateways = Gateways(
    mpesaConfig: MpesaServices.MpesaConfig,
    mpesaReply: MpesaServices.StkReply,
    airtelConfig: AirtelServices.AirtelConfig,
    airtelReply: AirtelServices.InitiateReply,
    cardReply: CardServices.InitiateReply)

  /** What initiation answers for each method: the gateway's answer for mobile money and
      cards, success for cash, and a refusal for anything else. */
  function InitiateOutcome(m: Method, g: Gateways): ServiceResult {
    match m
    case Mpesa => MpesaServices.InitiateOutcome(g.mpesaConfig, g.mpesaReply)
    case Airtel => AirtelServices.InitiateOutcome(g.airtelConfig, g.airtelReply)
    case Card => CardServices.InitiateOutcome(g.cardReply)
    case Cash => Succeeded
    case Bank => Refused(PyStr("Unsupported payment method"))
  }

  /** The HTTP answer of an action: done (201 for a payment, 200 for a refund), 400 with the
      error, 500 when the view's own save raises, or 400 with the request serializer's
      errors. */
  datatype Response = Done | BadRequest(error: string) | ServerError
    | InvalidRequest(refusal: PaymentsSerializers.Validation)

  /** The body of a 400 answer from a request serializer: each failing field's name with the
      list of its message, or the whole-object error under `non_field_errors`. */
  function ErrorBody(v: PaymentsSerializers.Validation): (j: Json)
    ensures j.JObj?
    ensures v.FieldErrors? ==>
      |j.fields| == |v.errors| && forall k :: 0 <= k < |v.errors| ==> j.fields[k] == (v.errors[k].0, JArr([JStr(v.errors[k].1)]))
    ensures v.NonFieldError? ==> j == JObj([("non_field_errors", JArr([JStr(v.message)]))])
  {
    match v
    case Accepted => JObj([])
    case FieldErrors(e) => JObj(seq(|e|, k requires 0 <= k < |e| => (e[k].0, JArr([JStr(e[k].1)]))))
    case NonFieldError(m) => JObj([("non_field_errors", JArr([JStr(m)]))])
  }

  /** A refusal is answered 400 with its error, unless the error is None: then the failure
      cannot be saved and the request ends in a server error. */
  function ResponseFor(out: ServiceResult): (r: Response)
    ensures out == Succeeded <==> r == Done
    ensures out.Refused? && out.error != PyNone ==> r == BadRequest(ColumnText(out.error).value)
    ensures out.Refused? && out.error == PyNone ==> r == ServerError
  {
    match out
    case Succeeded => Done
    case Refused(e) => if e == PyNone then ServerError else BadRequest(ColumnText(e).value)
  }

  /** `initiate`: the request is validated (`is_valid(raise_exception=True)`), and an invalid
      one is answered 400 with the serializer's errors before anything is stored; the sale a
      request leaves out is reported first. A valid request creates the pending payment and
      routes it. */
  method Initiate(sales: seq<SalesModels.Sale>, req: PaymentsSerializers.InitiateRequest, g: Gateways, id: nat,
                  clock: DateTime, uuidHex: string, user: nat, now: int)
    returns (resp: Response, payment: Option<Payment>)
    requires ValidDateTime(clock) && UuidHex(uuidHex)
    modifies sales
    ensures var check := old(PaymentsSerializers.ValidateInitiateRequest(sales, req));
      check.Invalid? ==> resp == InvalidRequest(check.refusal) && payment.None? && unchanged(sales)
    ensures req.sale.None? ==>
      resp.InvalidRequest? && resp.refusal.FieldErrors? && resp.refusal.errors[0] == ("sale", PaymentsSerializers.Required)
    ensures var check := old(PaymentsSerializers.ValidateInitiateRequest(sales, req));
      check.Valid? ==>
        payment.Some? && fresh(payment.value) && payment.value.sale == check.sale
        && payment.value.paymentMethod == check.input.paymentMethod && payment.value.amount == check.input.amount
        && payment.value.initiatedBy == user && payment.value.initiatedAt == now
        && payment.value.transactionReference == TimedReference("PAY", clock, uuidHex)
        && resp == ResponseFor(InitiateOutcome(check.input.paymentMethod, g))
        && (check.input.paymentMethod == Cash ==>
              payment.value.status == Success && payment.value.completedAt == Some(now)
              && Credited(check.sale, check.input.amount))
        && (resp.BadRequest? ==> payment.value.status == Failed && payment.value.errorMessage == resp.error)
  {
    var check := PaymentsSerializers.ValidateInitiateRequest(sales, req);
    match check
    case Invalid(refusal) =>
      resp, payment := InvalidRequest(refusal), None;
    case Valid(sale, input) =>
      var p := PaymentsSerializers.CreatePayment(id, sale, input, clock, uuidHex, user, now);
      resp := Route(p, g, now);
      payment := Some(p);
  }

  /** The routing step of `initiate`, once the payment row exists: the method's service runs
      (cash is settled inline: success, completion time, sale credited) and a refusal marks the
      payment failed with the error. */
  method Route(payment: Payment, g: Gateways, now: int) returns (resp: Response)
    modifies payment, payment.sale
    ensures resp == ResponseFor(InitiateOutcome(payment.paymentMethod, g))
    ensures payment.paymentMethod == Cash ==>
      payment.status == Success && payment.completedAt == Some(now) && Credited(payment.sale, payment.amount)
    ensures payment.paymentMethod == Bank ==>
      resp == BadRequest("Unsupported payment method") && payment.status == Failed
      && payment.errorMessage == "Unsupported payment method"
    ensures resp.BadRequest? ==>
      (payment.status == Failed && payment.errorMessage == resp.error
       && payment.completedAt == old(payment.completedAt) && payment.metadata == old(payment.metadata)
       && payment.externalReference == old(payment.externalReference) && unchanged(payment.sale))
    ensures resp == ServerError ==> unchanged(payment, payment.sale)
  {
    var result: ServiceResult;
    match payment.paymentMethod {
      case Mpesa =>
        result := MpesaServices.Initiate(g.mpesaConfig, payment, g.mpesaReply, now);
      case Airtel =>
        result := AirtelServices.Initiate(g.airtelConfig, payment, g.airtelReply, now);
      case Card =>
        result := CardServices.Initiate(payment, g.cardReply);
      case Cash =>
        payment.status := Success;
        payment.completedAt := Some(now);
        CreditSale(payment.sale, payment.amount);
        result := Succeeded;
      case Bank =>
        result := Refused(PyStr("Unsupported payment method"));
    }
    resp := ResponseFor(result);
    if resp.BadRequest? {
      payment.status := Failed;
      payment.errorMessage := resp.error;
    }
  }

  /** The answers each gateway gives to a status query. */
  datatype Queries = Queries(
    mpesa: MpesaServices.QueryReply,
    airtel: AirtelServices.QueryReply,
    card: CardServices.VerifyReply)

  /** `verify`: the payment's gateway service is asked again, with exactly the effect that
      service states; a cash or bank payment has none, is left exactly as it is and gets a
      refusal the view then ignores. Whatever the outcome, the answer is the payment itself. */
  method Verify(payment: Payment, q: Queries, now: int) returns (result: ServiceResult)
    modifies payment, payment.sale
    ensures payment.paymentMethod == Mpesa ==> MpesaServices.Verified(payment, q.mpesa, now, result)
    ensures payment.paymentMethod == Airtel ==> AirtelServices.Verified(payment, q.airtel, now, result)
    ensures payment.paymentMethod == Card ==> CardServices.Verified(payment, q.card, now, result)
    ensures payment.paymentMethod == Cash || payment.paymentMethod == Bank ==>
      result == Refused(PyStr("Cannot verify this payment method")) && unchanged(payment, payment.sale)
  {
    match payment.paymentMethod
    case Mpesa =>
      result := MpesaServices.Verify(payment, q.mpesa, now);
    case Airtel =>
      result := AirtelServices.Verify(payment, q.airtel, now);
    case Card =>
      result := CardServices.Verify(payment, q.card, now);
    case Cash =>
      result := Refused(PyStr("Cannot verify this payment method"));
    case Bank =>
      result := Refused(PyStr("Cannot verify this payment method"));
  }

  predicate IsOpen(p: Payment)
    reads p
  {
    p.status == Pending || p.status == Processing
  }

  /** The date filter of `get_queryset`: both bounds are inclusive, on the initiation time,
      and arrive already parsed to instants (None when not given). */
  predicate InitiatedWithin(p: Payment, startDate: Option<int>, endDate: Option<int>) {
    (startDate.Some? ==> startDate.value <= p.initiatedAt) && (endDate.Some? ==> p.initiatedAt <= endDate.value)
  }

  predicate PendingListed(p: Payment, startDate: Option<int>, endDate: Option<int>)
    reads p
  {
    IsOpen(p) && InitiatedWithin(p, startDate, endDate)
  }

  /** `pending`: the payments, in the table's order, that are 'pending' or 'processing' and
      pass the date filter of `get_queryset`. */
  function PendingPayments(payments: seq<Payment>, startDate: Option<int>, endDate: Option<int>): (r: seq<Payment>)
    reads payments
    ensures |r| <= |payments|
    ensures forall k :: 0 <= k < |r| ==> r[k] in payments && PendingListed(r[k], startDate, endDate)
    ensures forall k :: 0 <= k < |payments| && PendingListed(payments[k], startDate, endDate) ==> payments[k] in r
  {
    if payments == [] then []
    else
      var rest := PendingPayments(payments[..|payments| - 1], startDate, endDate);
      var p := payments[|payments| - 1];
      if PendingListed(p, startDate, endDate) then rest + [p] else rest
  }

  /** The payment when it is listed on its own. */
  function PendingOne(x: Payment, startDate: Option<int>, endDate: Option<int>): Option<Payment>
    reads x
  {
    if PendingListed(x, startDate, endDate) then Some(x) else None
  }

  /** The list keeps the table's order (newest first) and takes each payment once: the
      listed payments of two runs of payments are those of the first followed by those of the
      second, and a single payment is listed exactly when it is open and within the dates. */
  lemma {:induction false} PendingPaymentsKeepOrder(a: seq<Payment>, b: seq<Payment>, startDate: Option<int>,
                                                   endDate: Option<int>)
    ensures PendingPayments(a + b, startDate, endDate) ==
      PendingPayments(a, startDate, endDate) + PendingPayments(b, startDate, endDate)
    ensures forall x :: PendingPayments([x], startDate, endDate) == Listed(PendingOne(x, startDate, endDate))
  {
    forall x
      ensures PendingPayments([x], startDate, endDate) == Listed(PendingOne(x, startDate, endDate))
    {
      PendingPaymentsLast([x], startDate, endDate);
      assert [x][..0] == [];
    }
    PendingPaymentsAppend(a, b, startDate, endDate);
  }

  lemma {:induction false} PendingPaymentsAppend(a: seq<Payment>, b: seq<Payment>, startDate: Option<int>,
                                                endDate: Option<int>)
    ensures PendingPayments(a + b, startDate, endDate) ==
      PendingPayments(a, startDate, endDate) + PendingPayments(b, startDate, endDate)
    decreases |b|
  {
    if b == [] {
      assert a + b == a;
    } else {
      var n := |b| - 1;
      var ab := a + b;
      assert ab[..|ab| - 1] == a + b[..n];
      assert ab[|ab| - 1] == b[n];
      PendingPaymentsAppend(a, b[..n], startDate, endDate);
      PendingPaymentsLast(ab, startDate, endDate);
      PendingPaymentsLast(b, startDate, endDate);
    }
  }

  lemma PendingPaymentsLast(s: seq<Payment>, startDate: Option<int>, endDate: Option<int>)
    requires s != []
    ensures PendingPayments(s, startDate, endDate)
      == if PendingListed(s[|s| - 1], startDate, endDate) then PendingPayments(s[..|s| - 1], startDate, endDate) + [s[|s| - 1]]
         else PendingPayments(s[..|s| - 1], startDate, endDate)
  {
  }

  /** What a refund answers for each method of the refunded payment, cash aside: a fixed
      refusal for mobile money, the card gateway's answer for cards, and a refusal for the
      rest. */
  function RefundOutcome(m: Method, cardReply: CardServices.RefundReply): ServiceResult {
    match m
    case Mpesa => MpesaServices.RefundRefusal
    case Airtel => AirtelServices.RefundRefusal
    case Card => CardServices.RefundOutcome(cardReply)
    case Cash => Succeeded
    case Bank => Refused(PyStr("Unsupported refund method"))
  }

  /** `approve` as written. A refund that is not pending is refused and nothing changes. A cash
      refund completes with the approver and the time and the payment becomes 'refunded'; a
      card refund goes to the gateway; mobile money and the rest are refused. A refusal marks
      the refund failed with the error. A card refund whose save failed leaves the refund
      object with a None reference, so the view's own save fails too. The refundable balance is
      not looked at again. */
  method Approve(refund: Refund, user: nat, cardReply: CardServices.RefundReply, now: int) returns (resp: Response)
    modifies refund, refund.payment
    ensures old(refund.status) != RefundPending ==>
      resp == BadRequest("Refund is not pending") && unchanged(refund, refund.payment)
    ensures (old(refund.status) == RefundPending && refund.payment.paymentMethod == Card
             && CardServices.LeavesNoneReference(cardReply)) ==>
      resp == ServerError && unchanged(refund, refund.payment)
    ensures old(refund.status) == RefundPending && !(refund.payment.paymentMethod == Card && CardServices.LeavesNoneReference(cardReply)) ==>
      resp == ResponseFor(RefundOutcome(refund.payment.paymentMethod, cardReply))
    ensures old(refund.status) == RefundPending && refund.payment.paymentMethod == Cash ==>
      refund.status == RefundCompleted && refund.approvedBy == Some(user) && refund.completedAt == Some(now)
      && refund.payment.status == Refunded
    ensures resp == Done ==> refund.status == RefundCompleted && refund.payment.status == Refunded
    ensures old(refund.status) == RefundPending && resp.BadRequest? ==>
      refund.status == RefundFailed && refund.errorMessage == resp.error && unchanged(refund.payment)
    ensures resp == ServerError ==> unchanged(refund, refund.payment)
    ensures refund.status == old(refund.status) || refund.status == RefundCompleted || refund.status == RefundFailed
  {
    if refund.status != RefundPending {
      return BadRequest("Refund is not pending");
    }
    var payment := refund.payment;
    var result: ServiceResult;
    match payment.paymentMethod {
      case Mpesa =>
        result := MpesaServices.RefundRefusal;
      case Airtel =>
        result := AirtelServices.RefundRefusal;
      case Card =>
        result := CardServices.ProcessRefund(refund, cardReply, now);
        if CardServices.LeavesNoneReference(cardReply) {
          return ServerError;
        }
      case Cash =>
        refund.status := RefundCompleted;
        refund.approvedBy := Some(user);
        refund.completedAt := Some(now);
        payment.status := Refunded;
        result := Succeeded;
      case Bank =>
        result := Refused(PyStr("Unsupported refund method"));
    }
    resp := ResponseFor(result);
    if resp.BadRequest? {
      refund.status := RefundFailed;
      refund.errorMessage := resp.error;
    }
  }

  /** What one refund adds to the completed sum of payment p in a given status. */
  function Contribution(r: Refund, p: Payment, status: RefundState): int {
    if r.payment == p && status == RefundCompleted then r.amount else 0
  }

  predicate Distinct(refunds: seq<Refund>) {
    refunds == [] || (Distinct(refunds[..|refunds| - 1]) && refunds[|refunds| - 1] !in refunds[..|refunds| - 1])
  }

  /** In a list of distinct refunds, no other place holds the refund at place i. */
  lemma {:induction false} DistinctAt(refunds: seq<Refund>, i: nat)
    requires Distinct(refunds) && i < |refunds|
    ensures forall k :: 0 <= k < |refunds| && k != i ==> refunds[k] != refunds[i]
  {
    var n := |refunds| - 1;
    var init := refunds[..n];
    if i < n {
      DistinctAt(init, i);
      assert refunds[i] == init[i] && refunds[i] in init;
    } else {
      assert forall k :: 0 <= k < n ==> refunds[k] == init[k] && init[k] in init;
    }
  }

  /** The status of each refund of a list. */
  function Statuses(refunds: seq<Refund>): (s: seq<RefundState>)
    reads refunds
    ensures |s| == |refunds| && forall k :: 0 <= k < |refunds| ==> s[k] == refunds[k].status
  {
    if refunds == [] then [] else Statuses(refunds[..|refunds| - 1]) + [refunds[|refunds| - 1].status]
  }

  /** The completed sum of payment p over a list whose refunds are in the given statuses. */
  function CompletedUnder(refunds: seq<Refund>, p: Payment, statuses: seq<RefundState>): int
    requires |statuses| == |refunds|
  {
    if refunds == [] then 0
    else
      var n := |refunds| - 1;
      CompletedUnder(refunds[..n], p, statuses[..n]) + Contribution(refunds[n], p, statuses[n])
  }

  /** The completed sum is the sum under the refunds' present statuses. */
  lemma {:induction false} CompletedUnderPresent(refunds: seq<Refund>, p: Payment)
    ensures CompletedRefunds(refunds, p) == CompletedUnder(refunds, p, Statuses(refunds))
  {
    if refunds != [] {
      var n := |refunds| - 1;
      CompletedUnderPresent(refunds[..n], p);
      assert Statuses(refunds)[..n] == Statuses(refunds[..n]);
    }
  }

  /** Changing the status of one refund moves the sum by exactly the change in that refund's
      contribution. */
  lemma {:induction false} CompletedUnderUpdate(refunds: seq<Refund>, p: Payment, statuses: seq<RefundState>, i: nat,
                                                 s: RefundState)
    requires |statuses| == |refunds| && i < |refunds|
    ensures CompletedUnder(refunds, p, statuses[i := s]) ==
      CompletedUnder(refunds, p, statuses) + Contribution(refunds[i], p, s) - Contribution(refunds[i], p, statuses[i])
  {
    var n := |refunds| - 1;
    if i == n {
      assert statuses[i := s][..n] == statuses[..n];
    } else {
      assert statuses[i := s][..n] == statuses[..n][i := s];
      CompletedUnderUpdate(refunds[..n], p, statuses[..n], i, s);
    }
  }

  /** `approve` with the balance checked again before the money goes out: a refund larger than
      what is left after the completed refunds is refused. Completed refunds then never exceed
      the payment. */
  method ApproveChecked(refund: Refund, refunds: seq<Refund>, user: nat, cardReply: CardServices.RefundReply, now: int)
    returns (resp: Response)
    requires Distinct(refunds) && refund in refunds
    modifies refund, refund.payment
    ensures (old(refund.status) == RefundPending
             && refund.amount > refund.payment.amount - old(CompletedRefunds(refunds, refund.payment))) ==>
      (resp == BadRequest("Refund amount exceeds available: "
                         + CentsText(refund.payment.amount - old(CompletedRefunds(refunds, refund.payment))))
      && unchanged(refund, refund.payment))
    ensures (old(refund.status) == RefundPending
             && refund.amount <= refund.payment.amount - old(CompletedRefunds(refunds, refund.payment))
             && !(refund.payment.paymentMethod == Card && CardServices.LeavesNoneReference(cardReply))) ==>
      resp == ResponseFor(RefundOutcome(refund.payment.paymentMethod, cardReply))
    ensures old(CompletedRefunds(refunds, refund.payment)) <= refund.payment.amount ==>
      CompletedRefunds(refunds, refund.payment) <= refund.payment.amount
    ensures resp == Done ==>
      CompletedRefunds(refunds, refund.payment) == old(CompletedRefunds(refunds, refund.payment)) + refund.amount
  {
    if refund.status != RefundPending {
      return BadRequest("Refund is not pending");
    }
    var available := refund.payment.amount - CompletedRefunds(refunds, refund.payment);
    if refund.amount > available {
      return BadRequest("Refund amount exceeds available: " + CentsText(available));
    }
    ghost var i :| 0 <= i < |refunds| && refunds[i] == refund;
    ghost var before := Statuses(refunds);
    CompletedUnderPresent(refunds, refund.payment);
    resp := Approve(refund, user, cardReply, now);
    CompletedUnderPresent(refunds, refund.payment);
    DistinctAt(refunds, i);
    assert Statuses(refunds) == before[i := refund.status] by {
      forall k | 0 <= k < |refunds| && k != i
        ensures refunds[k].status == old(refunds[k].status)
      {
      }
    }
    CompletedUnderUpdate(refunds, refund.payment, before, i, refund.status);
  }

  /** While the first whole refund of a payment is pending, a second one is accepted. */
  lemma WholeRefundAccepted(payment: Payment, first: Refund)
    requires payment.status == Success && payment.amount == 10000
    requires first.payment == payment && first.status == RefundPending
    ensures PaymentsSerializers.ValidateRefund(payment, [], 10000, "x") == PaymentsSerializers.Accepted
    ensures PaymentsSerializers.ValidateRefund(payment, [first], 10000, "x") == PaymentsSerializers.Accepted
  {
    AcceptedWhileNoneCompleted(payment, [], 10000);
    assert CompletedRefunds([first], payment) == 0 by {
      assert [first][..0] == [];
    }
    AcceptedWhileNoneCompleted(payment, [first], 10000);
  }

  /** While no refund of a successful payment has completed, any amount up to the payment
      is accepted. */
  lemma AcceptedWhileNoneCompleted(payment: Payment, refunds: seq<Refund>, amount: int)
    requires payment.status == Success && 0 < payment.amount && amount <= payment.amount
    requires CompletedRefunds(refunds, payment) == 0
    ensures PaymentsSerializers.ValidateRefund(payment, refunds, amount, "x") == PaymentsSerializers.Accepted
  {
    assert Strip("x") == "x" by {
      assert StripStart("x") == "x" && StripEnd("x") == "x";
    }
  }

  /** Two refunds of a whole cash payment, each accepted when it was requested because neither
      had completed yet, are both approved: the completed refunds come to twice the payment. */
  method DoubleRefundAsWritten(sale: SalesModels.Sale, now: int)
    returns (payment: Payment, first: Refund, second: Refund, accepted: bool, r1: Response, r2: Response)
    ensures accepted && r1 == Done && r2 == Done
    ensures CompletedRefunds([first, second], payment) == 2 * payment.amount > payment.amount
  {
    payment := new Payment(1, sale, Cash, 10000, "PAY-1", "", "", 1, 0);
    payment.status := Success;
    var ok1 := PaymentsSerializers.ValidateRefund(payment, [], 10000, "x") == PaymentsSerializers.Accepted;
    first := new Refund(1, payment, 10000, "x", "REF-1", 1);
    var ok2 := PaymentsSerializers.ValidateRefund(payment, [first], 10000, "x") == PaymentsSerializers.Accepted;
    WholeRefundAccepted(payment, first);
    second := new Refund(2, payment, 10000, "x", "REF-2", 1);
    accepted := ok1 && ok2;
    r1 := Approve(first, 1, CardServices.RefundRaised(""), now);
    r2 := Approve(second, 1, CardServices.RefundRaised(""), now);
    CompletedPair(first, second, payment);
  }

  /** The completed sum over two refunds, one term per refund. */
  lemma CompletedPair(a: Refund, b: Refund, p: Payment)
    ensures CompletedRefunds([a, b], p) ==
      (if a.payment == p && a.status == RefundCompleted then a.amount else 0)
      + (if b.payment == p && b.status == RefundCompleted then b.amount else 0)
  {
    assert [a, b][..1] == [a] && [a][..0] == [];
    assert CompletedRefunds([a], p) == (if a.payment == p && a.status == RefundCompleted then a.amount else 0);
  }

  /** The same two requests with the balance checked at approval: the second is refused and the
      completed refunds stay at the payment amount. */
  method DoubleRefundChecked(sale: SalesModels.Sale, now: int)
    returns (payment: Payment, first: Refund, second: Refund, r1: Response, r2: Response)
    ensures r1 == Done && r2 == BadRequest("Refund amount exceeds available: " + CentsText(0))
    ensures CompletedRefunds([first, second], payment) == payment.amount
  {
    payment := new Payment(1, sale, Cash, 10000, "PAY-1", "", "", 1, 0);
    payment.status := Success;
    first := new Refund(1, payment, 10000, "x", "REF-1", 1);
    second := new Refund(2, payment, 10000, "x", "REF-2", 1);
    CompletedPair(first, second, payment);
    r1 := ApproveChecked(first, [first, second], 1, CardServices.RefundRaised(""), now);
    CompletedPair(first, second, payment);
    r2 := ApproveChecked(second, [first, second], 1, CardServices.RefundRaised(""), now);
    CompletedPair(first, second, payment);
  }
}
