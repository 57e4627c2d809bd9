/** Payments against a sale and refunds of payments. A payment row is an object whose status,
    references, error message and metadata the gateway services update in place; a refund
    likewise. Amounts are integer cents. */
module PaymentsModels {
  import opened Common
  import opened Js
  import opened Python
  import SalesModels

  datatype Method = Cash | Mpesa | Airtel | Card | Bank

  /** The stored name of each method: the keys of `METHOD_CHOICES`. */
  function MethodName(m: Method): string {
    match m
    case Cash => "cash"
    case Mpesa => "mpesa"
    case Airtel => "airtel"
    case Card => "card"
    case Bank => "bank"
  }

  /** The method a stored name stands for; None for any other text. */
  function ParseMethod(s: string): (r: Option<Method>)
    ensures r.Some? ==> MethodName(r.value) == s
    ensures r.None? ==> s !in {"cash", "mpesa", "airtel", "card", "bank"}
  {
    if s == "cash" then Some(Cash)
    else if s == "mpesa" then Some(Mpesa)
    else if s == "airtel" then Some(Airtel)
    else if s == "card" then Some(Card)
    else if s == "bank" then Some(Bank)
    else None
  }

  /** Every method is read back from its stored name. */
  lemma MethodNameRoundTrip(m: Method)
    ensures ParseMethod(MethodName(m)) == Some(m)
  {
  }

  datatype PaymentState = Pending | Processing | Success | Failed | Cancelled | Refunded

  datatype RefundState = RefundPending | RefundProcessing | RefundCompleted | RefundFailed

  /** A reply value as it is kept in the metadata dictionary. */
  function ScalarJson(v: Scalar): Json {
    match v
    case PyNone => JNull
    case PyStr(s) => JStr(s)
    case PyInt(i) => JNum(i)
    case PyBool(b) => JBool(b)
  }

  /** What a gateway service function returns: `{'success': True}`, or `{'success': False,
      'error': e}`, where e may be any value the reply held, None included. */
  datatype ServiceResult = Succeeded | Refused(error: Scalar)

  /** The message of the integrity error a save raises when a NOT NULL text column is given
      None (its wording depends on the database). */
  const NotNullFailure: string := "NOT NULL constraint failed"

  class Payment {
    const id: nat
    const sale: SalesModels.Sale
    const paymentMethod: Method
    const amount: int
    const transactionReference: string
    const phoneNumber: string
    const accountNumber: string
    const initiatedBy: nat
    const initiatedAt: int
    var status: PaymentState
    var externalReference: string
    var completedAt: Option<int>
    var errorMessage: string
    var metadata: map<string, Json>

    /** `Payment.objects.create(...)`: the given fields, the creation time as initiation
        time, status 'pending', empty references, message and metadata. */
    constructor (id: nat, sale: SalesModels.Sale, paymentMethod: Method, amount: int, transactionReference: string,
                 phoneNumber: string, accountNumber: string, initiatedBy: nat, initiatedAt: int)
      ensures this.id == id && this.sale == sale && this.paymentMethod == paymentMethod && this.amount == amount
      ensures this.transactionReference == transactionReference && this.phoneNumber == phoneNumber
      ensures this.accountNumber == accountNumber
      ensures this.initiatedBy == initiatedBy && this.initiatedAt == initiatedAt
      ensures status == Pending && externalReference == "" && completedAt == None
      ensures errorMessage == "" && metadata == map[]
    {
      this.id := id;
      this.sale := sale;
      this.paymentMethod := paymentMethod;
      this.amount := amount;
      this.transactionReference := transactionReference;
      this.phoneNumber := phoneNumber;
      this.accountNumber := accountNumber;
      this.initiatedBy := initiatedBy;
      this.initiatedAt := initiatedAt;
      status := Pending;
      externalReference := "";
      completedAt := None;
      errorMessage := "";
      metadata := map[];
    }
  }

  class Refund {
    const id: nat
    const payment: Payment
    const amount: int
    const reason: string
    const refundReference: string
    const requestedBy: nat
    var status: RefundState
    var externalReference: string
    var approvedBy: Option<nat>
    var completedAt: Option<int>
    var errorMessage: string

    /** `Refund.objects.create(...)`: the given fields, status 'pending'. */
    constructor (id: nat, payment: Payment, amount: int, reason: string, refundReference: string,
                 requestedBy: nat)
      ensures this.id == id && this.payment == payment && this.amount == amount
      ensures this.reason == reason && this.refundReference == refundReference
      ensures this.requestedBy == requestedBy
      ensures status == RefundPending && externalReference == "" && approvedBy == None
      ensures completedAt == None && errorMessage == ""
    {
      this.id := id;
      this.payment := payment;
      this.amount := amount;
      this.reason := reason;
      this.refundReference := refundReference;
      this.requestedBy := requestedBy;
      status := RefundPending;
      externalReference := "";
      approvedBy := None;
      completedAt := None;
      errorMessage := "";
    }
  }

  /** The sale was credited with amount: the amount paid went up by it and the payment status
      was recomputed, while the totals, the items, the sale status, the change and the
      completion time stayed as they were. */
  twostate predicate Credited(sale: SalesModels.Sale, amount: int)
    reads sale
  {
    sale.amountPaid == old(sale.amountPaid) + amount
    && sale.paymentStatus == SalesModels.PaymentStatusFor(sale.amountPaid, sale.total)
    && sale.total == old(sale.total) && sale.subtotal == old(sale.subtotal)
    && sale.taxAmount == old(sale.taxAmount) && sale.items == old(sale.items)
    && sale.status == old(sale.status) && sale.change == old(sale.change)
    && sale.completedAt == old(sale.completedAt)
  }

  /** The sale credit every successful payment path performs: the payment amount is added to
      the amount paid and the payment status recomputed. The sale status is left alone. */
  method CreditSale(sale: SalesModels.Sale, amount: int)
    modifies sale
    ensures Credited(sale, amount)
  {
    sale.amountPaid := sale.amountPaid + amount;
    sale.UpdatePaymentStatus();
  }

  /** `Payment.objects.filter(transaction_reference=id).first()`: the text column is compared
      with the id's text, and None matches no row. */
  function FindByReference(payments: seq<Payment>, id: Scalar): (r: Option<Payment>)
    ensures r.Some? ==> r.value in payments && ColumnText(id) == Some(r.value.transactionReference)
    ensures r.None? ==> forall k :: 0 <= k < |payments| ==> ColumnText(id) != Some(payments[k].transactionReference)
  {
    if payments == [] then None
    else if ColumnText(id) == Some(payments[0].transactionReference) then Some(payments[0])
    else
      var rest := FindByReference(payments[1..], id);
      assert forall k :: 1 <= k < |payments| ==> payments[k] == payments[1..][k - 1];
      rest
  }

  /** The objects a callback may change: the payment it found and that payment's sale. */
  function Touched(found: Option<Payment>): set<object> {
    if found.Some? then {found.value, found.value.sale} else {}
  }

  /** The sum of the amounts of the completed refunds of payment p. */
  function CompletedRefunds(refunds: seq<Refund>, p: Payment): int
    reads refunds
  {
    if refunds == [] then 0
    else
      var r := refunds[|refunds| - 1];
      CompletedRefunds(refunds[..|refunds| - 1], p) + (if r.payment == p && r.status == RefundCompleted then r.amount else 0)
  }

  /** With no negative refund amounts the completed sum is never negative. */
  lemma {:induction false} CompletedRefundsBound(refunds: seq<Refund>, p: Payment)
    requires forall k :: 0 <= k < |refunds| ==> refunds[k].amount >= 0
    ensures CompletedRefunds(refunds, p) >= 0
  {
    if refunds != [] {
      CompletedRefundsBound(refunds[..|refunds| - 1], p);
    }
  }
}
