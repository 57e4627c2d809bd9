/** Sale creation: validation of the posted items, creation of the sale with one line per
    item (product details copied), stock decrements and the automatic completion of a sale
    paid in full; and the sale update that records a payment amount. */
module SalesSerializers {
  import opened Common
  import opened Js
  import opened Stamps
  import opened ProductsModels
  import opened SalesModels

  /** One posted item: a product primary key and a quantity. */
  datatype ItemInput = ItemInput(product: nat, quantity: int)

  /** Field name and message of a validation error. */
  type Errors = seq<(string, string)>

  /** A validated item: the product object it names and the quantity. */
  datatype Line = Line(product: Product, quantity: int)

  datatype ItemCheck = Valid(line: Line) | Invalid(errors: Errors)

  /** The field validators of one item: the product must exist and be active
      (`validate_product`), the quantity must be positive (`validate_quantity`); both fields
      are checked and their errors reported together. */
  function ItemFieldErrors(products: seq<Product>, item: ItemInput): (e: Errors)
    reads products
    ensures e == [] <==> (FindProduct(products, item.product).Some?
                          && FindProduct(products, item.product).value.isActive && item.quantity > 0)
  {
    var productErrors :=
      match FindProduct(products, item.product)
      case None => [("product", "Invalid pk \"" + NatToDecimal(item.product) + "\" - object does not exist.")]
      case Some(p) => if !p.isActive then [("product", "Product is not active")] else [];
    var quantityErrors := if item.quantity <= 0 then [("quantity", "Quantity must be greater than zero")] else [];
    productErrors + quantityErrors
  }

  /** Validation of one item: the field validators first, then `validate`, which refuses a
      quantity above the product's current stock. */
  function ValidateItem(products: seq<Product>, item: ItemInput): (r: ItemCheck)
    reads products
    ensures r.Valid? <==> exists p :: p in products && p.id == item.product && p.isActive
                                     && 0 < item.quantity <= p.stock
                                     && FindProduct(products, item.product) == Some(p)
    ensures r.Valid? ==> r.line.product.id == item.product && r.line.quantity == item.quantity
  {
    var e := ItemFieldErrors(products, item);
    if e != [] then Invalid(e)
    else
      var p := FindProduct(products, item.product).value;
      if p.stock < item.quantity then Invalid([("quantity", "Insufficient stock. Available: " + IntToDecimal(p.stock))])
      else Valid(Line(p, item.quantity))
  }

  /** A line that stands for an item: an active product with that key, and a positive
      quantity within its stock. */
  predicate ValidLine(products: seq<Product>, item: ItemInput, l: Line)
    reads products, l.product
  {
    l.product in products && l.product.id == item.product && l.product.isActive
    && l.quantity == item.quantity && 0 < l.quantity <= l.product.stock
  }

  datatype ItemsCheck = ItemsOk(lines: seq<Line>) | ItemsInvalid(errors: seq<Errors>) | NoItems

  function ItemErrorsOf(products: seq<Product>, items: seq<ItemInput>): (e: seq<Errors>)
    reads products
    ensures |e| == |items|
  {
    if items == [] then []
    else
      var last := match ValidateItem(products, items[|items| - 1]) case Invalid(err) => err case Valid(_) => [];
      ItemErrorsOf(products, items[..|items| - 1]) + [last]
  }

  function LinesOf(products: seq<Product>, items: seq<ItemInput>): (ls: seq<Line>)
    requires forall k :: 0 <= k < |items| ==> ValidateItem(products, items[k]).Valid?
    reads products
    ensures |ls| == |items|
    ensures forall k :: 0 <= k < |items| ==> ls[k] == ValidateItem(products, items[k]).line
  {
    if items == [] then []
    else LinesOf(products, items[..|items| - 1]) + [ValidateItem(products, items[|items| - 1]).line]
  }

  /** Validation of the `items` list: every item is validated (each against the stock as it
      is before the sale, so two items for one product are checked separately), then
      `validate_items` refuses an empty list. */
  function ValidateItems(products: seq<Product>, items: seq<ItemInput>): (r: ItemsCheck)
    reads products
    ensures r.NoItems? <==> items == []
    ensures r.ItemsOk? <==> items != [] && forall k :: 0 <= k < |items| ==> ValidateItem(products, items[k]).Valid?
    ensures r.ItemsOk? ==> |r.lines| == |items|
    ensures r.ItemsOk? ==> forall k :: 0 <= k < |items| ==> ValidLine(products, items[k], r.lines[k])
  {
    if exists k :: 0 <= k < |items| && ValidateItem(products, items[k]).Invalid? then
      ItemsInvalid(ItemErrorsOf(products, items))
    else if items == [] then NoItems
    else ItemsOk(LinesOf(products, items))
  }

  /** Each item is checked on its own against the stock before the sale: two items for the
      same product each within stock pass, even when together they exceed it. */
  lemma ItemsCheckedSeparately(products: seq<Product>, p: Product, a: int, b: int)
    requires p in products && p.isActive && FindProduct(products, p.id) == Some(p)
    requires 0 < a <= p.stock && 0 < b <= p.stock
    ensures ValidateItems(products, [ItemInput(p.id, a), ItemInput(p.id, b)]).ItemsOk?
  {
    var items := [ItemInput(p.id, a), ItemInput(p.id, b)];
    assert ValidateItem(products, items[0]).Valid?;
    assert ValidateItem(products, items[1]).Valid?;
  }

  /** The products the lines name. */
  function ProductsOf(lines: seq<Line>): set<Product> {
    set k | 0 <= k < |lines| :: lines[k].product
  }

  /** The total quantity of product p over the lines. */
  function SumQuantity(lines: seq<Line>, p: Product): int {
    if lines == [] then 0
    else SumQuantity(lines[..|lines| - 1], p) + (if lines[|lines| - 1].product == p then lines[|lines| - 1].quantity else 0)
  }

  /** The product fields a sale line copies. */
  datatype Details = Details(name: string, barcode: string, price: int, costPrice: int, tax: int)

  function DetailsOf(p: Product): Details
    reads p
  {
    Details(p.name, p.barcode, p.price, p.costPrice, p.tax)
  }

  /** The details of each line's product, in line order. */
  function DetailsOfLines(lines: seq<Line>): (ds: seq<Details>)
    reads ProductsOf(lines)
    ensures |ds| == |lines|
    ensures forall k :: 0 <= k < |lines| ==> ds[k] == DetailsOf(lines[k].product)
  {
    if lines == [] then []
    else
      assert ProductsOf(lines[..|lines| - 1]) <= ProductsOf(lines);
      DetailsOfLines(lines[..|lines| - 1]) + [DetailsOf(lines[|lines| - 1].product)]
  }

  /** The sum of the line subtotals of the lines priced with details ds. */
  function LinesSubtotal(lines: seq<Line>, ds: seq<Details>): int
    requires |ds| == |lines|
  {
    if lines == [] then 0
    else
      var n := |lines| - 1;
      LinesSubtotal(lines[..n], ds[..n]) + ComputeLine(ds[n].price, lines[n].quantity, ds[n].tax).subtotal
  }

  /** The sum of the line tax amounts of the lines priced with details ds. */
  function LinesTax(lines: seq<Line>, ds: seq<Details>): int
    requires |ds| == |lines|
  {
    if lines == [] then 0
    else
      var n := |lines| - 1;
      LinesTax(lines[..n], ds[..n]) + ComputeLine(ds[n].price, lines[n].quantity, ds[n].tax).taxAmount
  }

  /** A sale line records the line's product and quantity, the product details d as they
      were when the sale was made, and the amounts computed from them. */
  predicate SnapshotOf(item: SaleItem, line: Line, d: Details)
  {
    item.product == line.product && item.quantity == line.quantity
    && item.productName == d.name && item.productBarcode == d.barcode
    && item.unitPrice == d.price && item.costPrice == d.costPrice && item.taxRate == d.tax
    && item.Amounts() == ComputeLine(d.price, line.quantity, d.tax)
  }

  /** One iteration of the creation loop: the sale line copying the product, and the product's
      stock lowered by the quantity. */
  method SellLine(l: Line) returns (item: SaleItem)
    modifies l.product
    ensures fresh(item) && SnapshotOf(item, l, old(DetailsOf(l.product)))
    ensures l.product.stock == old(l.product.stock) - l.quantity
    ensures DetailsOf(l.product) == old(DetailsOf(l.product))
  {
    var p := l.product;
    item := new SaleItem(p, p.name, p.barcode, p.price, p.costPrice, l.quantity, p.tax);
    p.stock := p.stock - l.quantity;
  }

  /** The sums of a sale's lines are the sums of the line amounts computed from the copied
      details. */
  lemma {:induction false} SnapshotSums(items: seq<SaleItem>, lines: seq<Line>, ds: seq<Details>)
    requires |items| == |lines| == |ds|
    requires forall k :: 0 <= k < |items| ==> SnapshotOf(items[k], lines[k], ds[k])
    ensures SumSubtotal(items) == LinesSubtotal(lines, ds)
    ensures SumTax(items) == LinesTax(lines, ds)
  {
    if items != [] {
      var n := |items| - 1;
      SnapshotSums(items[..n], lines[..n], ds[..n]);
      assert SnapshotOf(items[n], lines[n], ds[n]);
    }
  }

  /** Adding one line adds its quantity to its own product's total only. */
  lemma SumQuantityStep(lines: seq<Line>, i: nat, p: Product)
    requires i < |lines|
    ensures SumQuantity(lines[..i + 1], p) ==
      SumQuantity(lines[..i], p) + (if lines[i].product == p then lines[i].quantity else 0)
  {
    assert lines[..i + 1][..i] == lines[..i];
  }

  /** The loop of `create`: one sale line per item, copying the product's details, and each
      product's stock lowered by its total quantity over the items. */
  method SellLines(lines: seq<Line>) returns (items: seq<SaleItem>)
    modifies ProductsOf(lines)
    ensures |items| == |lines|
    ensures forall k :: 0 <= k < |lines| ==>
      fresh(items[k]) && SnapshotOf(items[k], lines[k], old(DetailsOfLines(lines))[k])
    ensures forall p :: p in ProductsOf(lines) ==> p.stock == old(p.stock) - SumQuantity(lines, p)
    ensures forall p :: p in ProductsOf(lines) ==> DetailsOf(p) == old(DetailsOf(p))
  {
    ghost var details := DetailsOfLines(lines);
    items := [];
    var i := 0;
    while i < |lines|
      invariant 0 <= i <= |lines|
      invariant |items| == i
      invariant forall k :: 0 <= k < i ==> fresh(items[k]) && SnapshotOf(items[k], lines[k], details[k])
      invariant forall p :: p in ProductsOf(lines) ==> p.stock == old(p.stock) - SumQuantity(lines[..i], p)
      invariant forall p :: p in ProductsOf(lines) ==> DetailsOf(p) == old(DetailsOf(p))
    {
      assert lines[i].product in ProductsOf(lines);
      assert details[i] == DetailsOf(lines[i].product);
      var item := SellLine(lines[i]);
      items := items + [item];
      forall p | p in ProductsOf(lines)
        ensures p.stock == old(p.stock) - SumQuantity(lines[..i + 1], p)
      {
        SumQuantityStep(lines, i, p);
      }
      i := i + 1;
    }
    assert lines[..|lines|] == lines;
  }

  /** The end of `create`: a sale paid in full is completed at once, with its change. */
  method SettleIfPaid(sale: Sale, now: int)
    modifies sale
    ensures sale.items == old(sale.items) && sale.amountPaid == old(sale.amountPaid)
    ensures sale.subtotal == old(sale.subtotal) && sale.taxAmount == old(sale.taxAmount)
    ensures sale.total == old(sale.total) && sale.paymentStatus == old(sale.paymentStatus)
    ensures sale.paymentStatus == Paid ==>
      sale.status == Completed && sale.completedAt == Some(now) && sale.change == sale.amountPaid - sale.total
    ensures sale.paymentStatus != Paid ==>
      sale.status == old(sale.status) && sale.completedAt == old(sale.completedAt) && sale.change == old(sale.change)
  {
    if sale.paymentStatus == Paid {
      sale.status := Completed;
      sale.completedAt := Some(now);
      sale.change := sale.amountPaid - sale.total;
    }
  }

  /** `SaleCreateSerializer.create` on validated lines whose products are shared objects:
      one sale line per item with the product's details copied, each product's stock lowered
      by its total quantity, totals computed, the payment status classified, and a sale paid
      in full completed at once with its change. Nothing else about the products changes. */
  method CreateSale(lines: seq<Line>, id: nat, clock: DateTime, uuidHex: string, cashier: nat,
                    customerName: string, customerPhone: string, discount: int, amountPaid: int,
                    now: int)
    returns (sale: Sale)
    requires ValidDateTime(clock) && UuidHex(uuidHex)
    modifies ProductsOf(lines)
    ensures fresh(sale)
    ensures sale.saleNumber == SaleNumber(clock, uuidHex) && sale.cashier == cashier
    ensures sale.customerName == customerName && sale.customerPhone == customerPhone
    ensures sale.discount == discount && sale.amountPaid == amountPaid && sale.createdAt == now
    ensures |sale.items| == |lines|
    ensures forall k :: 0 <= k < |lines| ==>
      fresh(sale.items[k]) && SnapshotOf(sale.items[k], lines[k], old(DetailsOfLines(lines))[k])
    ensures forall p :: p in ProductsOf(lines) ==> p.stock == old(p.stock) - SumQuantity(lines, p)
    ensures forall p :: p in ProductsOf(lines) ==> DetailsOf(p) == old(DetailsOf(p))
    ensures sale.subtotal == LinesSubtotal(lines, old(DetailsOfLines(lines)))
    ensures sale.taxAmount == LinesTax(lines, old(DetailsOfLines(lines)))
    ensures sale.total == sale.subtotal + sale.taxAmount - discount
    ensures sale.paymentStatus == PaymentStatusFor(amountPaid, sale.total)
    ensures sale.paymentStatus == Paid ==>
      sale.status == Completed && sale.completedAt == Some(now) && sale.change == amountPaid - sale.total
    ensures sale.paymentStatus != Paid ==>
      sale.status == Pending && sale.completedAt == None && sale.change == 0
  {
    ghost var details := DetailsOfLines(lines);
    sale := new Sale(id, SaleNumber(clock, uuidHex), cashier, customerName, customerPhone, discount, amountPaid, now);
    var items := SellLines(lines);
    SnapshotSums(items, lines, details);
    sale.items := items;
    FinishSale(sale, now);
  }

  /** The end of `create`: the totals are computed, the payment status classified, and a sale
      paid in full is completed with its change; the items and the amount paid stay. */
  method FinishSale(sale: Sale, now: int)
    modifies sale
    ensures sale.items == old(sale.items) && sale.amountPaid == old(sale.amountPaid)
    ensures sale.subtotal == SumSubtotal(sale.items) && sale.taxAmount == SumTax(sale.items)
    ensures sale.total == sale.subtotal + sale.taxAmount - sale.discount
    ensures sale.paymentStatus == PaymentStatusFor(sale.amountPaid, sale.total)
    ensures sale.paymentStatus == Paid ==>
      sale.status == Completed && sale.completedAt == Some(now) && sale.change == sale.amountPaid - sale.total
    ensures sale.paymentStatus != Paid ==>
      sale.status == old(sale.status) && sale.completedAt == old(sale.completedAt) && sale.change == old(sale.change)
  {
    sale.CalculateTotals();
    sale.UpdatePaymentStatus();
    SettleIfPaid(sale, now);
  }

  /** What the source does on the stock column: each item's product is loaded as its own
      object during validation, so each line saves (stock at validation − its quantity) and
      the last line for a product overwrites the earlier ones. Stock is keyed by product id. */
  function StockAfterCreateAsWritten(before: map<nat, int>, items: seq<ItemInput>): (after: map<nat, int>)
    requires forall k :: 0 <= k < |items| ==> items[k].product in before
    ensures after.Keys == before.Keys
  {
    if items == [] then before
    else
      var last := items[|items| - 1];
      StockAfterCreateAsWritten(before, items[..|items| - 1])[last.product := before[last.product] - last.quantity]
  }

  /** Two items for one product, each within stock: the source leaves stock 10 at 7 after
      selling 2 + 3 units, where 5 was intended; CreateSale on shared product objects lowers it
      by the full 5. */
  lemma DuplicateItemsLoseDecrement()
    ensures StockAfterCreateAsWritten(map[7 := 10], [ItemInput(7, 2), ItemInput(7, 3)])[7] == 7
    ensures 10 - (2 + 3) == 5
  {
    var items := [ItemInput(7, 2), ItemInput(7, 3)];
    assert items[..1] == [ItemInput(7, 2)];
    assert items[..1][..0] == [];
  }

  /** The source is right whenever no product appears twice: then each line's product is
      lowered by exactly its quantity. */
  lemma {:induction false} AsWrittenAgreesWithoutDuplicates(before: map<nat, int>, items: seq<ItemInput>, k: nat)
    requires forall j :: 0 <= j < |items| ==> items[j].product in before
    requires k < |items|
    requires forall j :: 0 <= j < |items| && j != k ==> items[j].product != items[k].product
    ensures StockAfterCreateAsWritten(before, items)[items[k].product] == before[items[k].product] - items[k].quantity
  {
    if k < |items| - 1 {
      AsWrittenAgreesWithoutDuplicates(before, items[..|items| - 1], k);
    }
  }

  /** `SaleUpdateSerializer.update`: the given fields are set; when `amount_paid` is given the
      payment status is recomputed and the change is the overpayment (never negative); a
      pending sale whose payment status is then 'paid' is completed. */
  method UpdateSale(sale: Sale, status: Option<SaleStatus>, amountPaid: Option<int>, now: int)
    modifies sale
    ensures sale.items == old(sale.items) && sale.total == old(sale.total)
    ensures sale.subtotal == old(sale.subtotal) && sale.taxAmount == old(sale.taxAmount)
    ensures sale.amountPaid == (if amountPaid.Some? then amountPaid.value else old(sale.amountPaid))
    ensures amountPaid.Some? ==>
      sale.paymentStatus == PaymentStatusFor(amountPaid.value, sale.total)
      && sale.change == (if amountPaid.value - sale.total > 0 then amountPaid.value - sale.total else 0)
    ensures amountPaid.None? ==> sale.paymentStatus == old(sale.paymentStatus) && sale.change == old(sale.change)
    ensures var given := if status.Some? then status.value else old(sale.status);
      if sale.paymentStatus == Paid && given == Pending then
        sale.status == Completed && sale.completedAt == Some(now)
      else
        sale.status == given && sale.completedAt == old(sale.completedAt)
  {
    if status.Some? {
      sale.status := status.value;
    }
    if amountPaid.Some? {
      sale.amountPaid := amountPaid.value;
      sale.UpdatePaymentStatus();
      sale.change := if sale.amountPaid - sale.total > 0 then sale.amountPaid - sale.total else 0;
    }
    if sale.paymentStatus == Paid && sale.status == Pending {
      sale.status := Completed;
      sale.completedAt := Some(now);
    }
  }
}
