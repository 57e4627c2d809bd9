/** Sales and their line items. Amounts are integer cents held with two decimal places; a
    Decimal that the database keeps with two places is rounded half-even. A sale's totals and
    payment status are derived from its items and the amount paid, and are recomputed in
    place. */
module SalesModels {
  import opened Common
  import Money
  import opened ProductsModels

  datatype SaleStatus = Pending | Completed | Cancelled

  datatype PaymentStatus = Unpaid | Partial | Paid | Refunded

  /** The three stored amounts of a sale line. */
  datatype LineAmounts = LineAmounts(subtotal: int, taxAmount: int, total: int)

  /** The amounts `SaleItem.save` computes: the subtotal is price times quantity, the tax is
      the subtotal times the rate percentage, the total is their sum; tax and total are
      each stored to the nearest cent. */
  function ComputeLine(unitPrice: int, quantity: int, taxRate: int): (a: LineAmounts)
    ensures a.subtotal == unitPrice * quantity
    ensures -5000 <= 10000 * a.taxAmount - a.subtotal * taxRate <= 5000
    ensures -5000 <= 10000 * a.total - (10000 * a.subtotal + a.subtotal * taxRate) <= 5000
    ensures -1 <= a.total - (a.subtotal + a.taxAmount) <= 1
  {
    var sub := unitPrice * quantity;
    LineAmounts(sub, Money.RoundHalfEven(sub * taxRate, 10000),
                Money.RoundHalfEven(10000 * sub + sub * taxRate, 10000))
  }

  /** A product's rendered total price is what a sale line of one unit of it at its own
      price and tax stores as its total. */
  lemma TotalPriceIsOneUnitLine(p: Product)
    ensures p.TotalPrice() == ComputeLine(p.price, 1, p.tax).total
  {
    assert p.price * 1 == p.price;
  }

  /** The stored total is exactly subtotal plus stored tax unless the exact tax ends in half a
      cent; without tax the tax is zero and the total is the subtotal. */
  lemma LineTotalIsSum(unitPrice: int, quantity: int, taxRate: int)
    ensures var a := ComputeLine(unitPrice, quantity, taxRate);
      2 * ((a.subtotal * taxRate) % 10000) != 10000 ==> a.total == a.subtotal + a.taxAmount
    ensures taxRate == 0 ==> ComputeLine(unitPrice, quantity, taxRate) == LineAmounts(unitPrice * quantity, 0, unitPrice * quantity)
  {
    var sub := unitPrice * quantity;
    if 2 * ((sub * taxRate) % 10000) != 10000 {
      Money.RoundShift(sub, sub * taxRate, 10000);
    }
    if taxRate == 0 {
      Money.RoundExact(0, 10000);
      Money.RoundExact(sub, 10000);
    }
  }

  /** A line item with the product details copied at the time of sale. Its amounts are
      computed by `save` when the item is created; no code path changes an item afterwards,
      so every field is fixed from then on. */
  class SaleItem {
    const product: Product
    const productName: string
    const productBarcode: string
    const unitPrice: int
    const costPrice: int
    const quantity: int
    const taxRate: int
    const subtotal: int
    const taxAmount: int
    const total: int

    /** `SaleItem.objects.create(...)`: the given fields, and the amounts `save` computes. */
    constructor (product: Product, productName: string, productBarcode: string, unitPrice: int,
                 costPrice: int, quantity: int, taxRate: int)
      ensures this.product == product && this.productName == productName
      ensures this.productBarcode == productBarcode && this.unitPrice == unitPrice
      ensures this.costPrice == costPrice && this.quantity == quantity && this.taxRate == taxRate
      ensures Amounts() == ComputeLine(unitPrice, quantity, taxRate)
    {
      this.product := product;
      this.productName := productName;
      this.productBarcode := productBarcode;
      this.unitPrice := unitPrice;
      this.costPrice := costPrice;
      this.quantity := quantity;
      this.taxRate := taxRate;
      var a := ComputeLine(unitPrice, quantity, taxRate);
      subtotal := a.subtotal;
      taxAmount := a.taxAmount;
      total := a.total;
    }

    function Amounts(): LineAmounts {
      LineAmounts(subtotal, taxAmount, total)
    }
  }

  /** The sum of the line subtotals. */
  function SumSubtotal(items: seq<SaleItem>): int {
    if items == [] then 0 else SumSubtotal(items[..|items| - 1]) + items[|items| - 1].subtotal
  }

  /** The sum of the line tax amounts. */
  function SumTax(items: seq<SaleItem>): int {
    if items == [] then 0 else SumTax(items[..|items| - 1]) + items[|items| - 1].taxAmount
  }

  /** The quantity of product p over the lines. */
  function SumItemQuantity(items: seq<SaleItem>, p: Product): int {
    if items == [] then 0
    else SumItemQuantity(items[..|items| - 1], p) + (if items[|items| - 1].product == p then items[|items| - 1].quantity else 0)
  }

  /** The classification `update_payment_status` applies. */
  function PaymentStatusFor(amountPaid: int, total: int): (s: PaymentStatus)
    ensures s == Paid <==> amountPaid >= total
    ensures s == Partial <==> 0 < amountPaid < total
    ensures s == Unpaid <==> amountPaid <= 0 && amountPaid < total
    ensures s != Refunded
  {
    if amountPaid >= total then Paid
    else if amountPaid > 0 then Partial
    else Unpaid
  }

  function PaymentRank(s: PaymentStatus): int {
    match s
    case Unpaid => 0
    case Partial => 1
    case Paid => 2
    case Refunded => 3
  }

  /** Paying more never moves a sale down from paid to partial or unpaid, nor from partial to
      unpaid. */
  lemma PaymentStatusMonotone(paid1: int, paid2: int, total: int)
    requires paid1 <= paid2
    ensures PaymentRank(PaymentStatusFor(paid1, total)) <= PaymentRank(PaymentStatusFor(paid2, total))
  {
  }

  /** A sale whose total is zero or less counts as paid with nothing paid at all. */
  lemma NothingDueIsPaid(total: int)
    requires total <= 0
    ensures PaymentStatusFor(0, total) == Paid
  {
  }

  class Sale {
    const id: nat
    const saleNumber: string
    const cashier: nat
    const customerName: string
    const customerPhone: string
    const createdAt: int
    const discount: int
    var subtotal: int
    var taxAmount: int
    var total: int
    var amountPaid: int
    var change: int
    var status: SaleStatus
    var paymentStatus: PaymentStatus
    var completedAt: Option<int>
    var items: seq<SaleItem>

    /** `Sale.objects.create(...)` with the field defaults for everything not given. */
    constructor (id: nat, saleNumber: string, cashier: nat, customerName: string, customerPhone: string,
                 discount: int, amountPaid: int, createdAt: int)
      ensures this.id == id && this.saleNumber == saleNumber && this.cashier == cashier
      ensures this.customerName == customerName && this.customerPhone == customerPhone
      ensures this.discount == discount && this.amountPaid == amountPaid && this.createdAt == createdAt
      ensures subtotal == 0 && taxAmount == 0 && total == 0 && change == 0
      ensures status == Pending && paymentStatus == Unpaid && completedAt == None && items == []
    {
      this.id := id;
      this.saleNumber := saleNumber;
      this.cashier := cashier;
      this.customerName := customerName;
      this.customerPhone := customerPhone;
      this.discount := discount;
      this.amountPaid := amountPaid;
      this.createdAt := createdAt;
      subtotal := 0;
      taxAmount := 0;
      total := 0;
      change := 0;
      status := Pending;
      paymentStatus := Unpaid;
      completedAt := None;
      items := [];
    }

    /** `calculate_totals`: subtotal and tax are the sums over the items, the total is their
        sum less the discount. The status, payment fields and items are left alone. */
    method CalculateTotals()
      modifies this
      ensures subtotal == SumSubtotal(items) && taxAmount == SumTax(items)
      ensures total == subtotal + taxAmount - discount
      ensures items == old(items) && amountPaid == old(amountPaid) && change == old(change)
      ensures status == old(status) && paymentStatus == old(paymentStatus) && completedAt == old(completedAt)
    {
      subtotal := SumSubtotal(items);
      taxAmount := SumTax(items);
      total := subtotal + taxAmount - discount;
    }

    /** `update_payment_status`: the classification of the amount paid against the total;
        nothing else changes, in particular not the sale status. */
    method UpdatePaymentStatus()
      modifies this
      ensures paymentStatus == PaymentStatusFor(amountPaid, total)
      ensures items == old(items) && amountPaid == old(amountPaid) && total == old(total)
      ensures subtotal == old(subtotal) && taxAmount == old(taxAmount) && change == old(change)
      ensures status == old(status) && completedAt == old(completedAt)
    {
      if amountPaid >= total {
        paymentStatus := Paid;
      } else if amountPaid > 0 {
        paymentStatus := Partial;
      } else {
        paymentStatus := Unpaid;
      }
    }
  }
}
