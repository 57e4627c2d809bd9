/** The sales endpoints: the list query with its role, field, date and search filters, and
    the `cancel` and `complete` actions. Cancelling puts every line's quantity back on its
    product's stock. */
module SalesViews {
  import opened Common
  import opened Stamps
  import opened UsersModels
  import opened ProductsModels
  import opened SalesModels
  import opened SalesSerializers

  /** The list query: the exact-match filters on status, payment status and cashier, the
      date bounds (already parsed to instants), and the search text ("" for none). */
  datatype SaleQuery = SaleQuery(
    status: Option<SaleStatus>,
    paymentStatus: Option<PaymentStatus>,
    cashier: Option<nat>,
    startDate: Option<int>,
    endDate: Option<int>,
    search: string)

  /** A cashier sees only the sales they rang up; an admin sees every sale. */
  predicate VisibleTo(s: Sale, user: User) {
    user.role == Cashier ==> s.cashier == user.id
  }

  predicate MatchesFields(s: Sale, q: SaleQuery)
    reads s
  {
    (q.status.Some? ==> s.status == q.status.value)
    && (q.paymentStatus.Some? ==> s.paymentStatus == q.paymentStatus.value)
    && (q.cashier.Some? ==> s.cashier == q.cashier.value)
  }

  /** Both date bounds are inclusive. */
  predicate InDateRange(s: Sale, q: SaleQuery) {
    (q.startDate.Some? ==> q.startDate.value <= s.createdAt)
    && (q.endDate.Some? ==> s.createdAt <= q.endDate.value)
  }

  /** The search text occurs, ignoring case, in the sale number, the customer name or the
      customer phone. */
  predicate MatchesSearch(s: Sale, search: string) {
    search == []
    || IContains(s.saleNumber, search) || IContains(s.customerName, search) || IContains(s.customerPhone, search)
  }

  predicate Listed(s: Sale, user: User, q: SaleQuery)
    reads s
  {
    VisibleTo(s, user) && MatchesFields(s, q) && InDateRange(s, q) && MatchesSearch(s, q.search)
  }

  /** `get_queryset` with the field filters: the sales, in their stored order, that pass every
      filter. */
  function ListSales(sales: seq<Sale>, user: User, q: SaleQuery): (r: seq<Sale>)
    reads sales
    ensures |r| <= |sales|
    ensures forall k :: 0 <= k < |r| ==> r[k] in sales && Listed(r[k], user, q)
    ensures forall k :: 0 <= k < |sales| && Listed(sales[k], user, q) ==> sales[k] in r
  {
    if sales == [] then []
    else
      var rest := ListSales(sales[..|sales| - 1], user, q);
      var s := sales[|sales| - 1];
      if Listed(s, user, q) then rest + [s] else rest
  }

  /** The list keeps the stored order (newest first) and takes each sale once: the listed
      sales of two runs of sales are those of the first followed by those of the second, and
      a single sale is listed exactly when it passes every filter. */
  lemma {:induction false} ListSalesKeepsOrder(a: seq<Sale>, b: seq<Sale>, user: User, q: SaleQuery)
    ensures ListSales(a + b, user, q) == ListSales(a, user, q) + ListSales(b, user, q)
    ensures forall x :: ListSales([x], user, q) == if Listed(x, user, q) then [x] else []
  {
    forall x
      ensures ListSales([x], user, q) == if Listed(x, user, q) then [x] else []
    {
      ListSalesOne(x, user, q);
    }
    ListSalesAppend(a, b, user, q);
  }

  lemma ListSalesOne(x: Sale, user: User, q: SaleQuery)
    ensures ListSales([x], user, q) == if Listed(x, user, q) then [x] else []
  {
    assert [x][..0] == [];
  }

  lemma {:induction false} ListSalesAppend(a: seq<Sale>, b: seq<Sale>, user: User, q: SaleQuery)
    ensures ListSales(a + b, user, q) == ListSales(a, user, q) + ListSales(b, user, q)
    decreases |b|
  {
    if b == [] {
      assert a + b == a;
    } else {
      var n := |b| - 1;
      var ab := a + b;
      assert ab[..|ab| - 1] == a + b[..n];
      assert ab[|ab| - 1] == b[n];
      ListSalesAppend(a, b[..n], user, q);
      ListSalesLast(ab, user, q);
      ListSalesLast(b, user, q);
    }
  }

  lemma ListSalesLast(s: seq<Sale>, user: User, q: SaleQuery)
    requires s != []
    ensures ListSales(s, user, q)
      == if Listed(s[|s| - 1], user, q) then ListSales(s[..|s| - 1], user, q) + [s[|s| - 1]]
         else ListSales(s[..|s| - 1], user, q)
  {
  }

  /** Whatever the query, a cashier's list holds only their own sales. */
  lemma CashierSeesOwnSales(sales: seq<Sale>, user: User, q: SaleQuery)
    requires user.role == Cashier
    ensures forall k :: 0 <= k < |ListSales(sales, user, q)| ==> ListSales(sales, user, q)[k].cashier == user.id
  {
  }

  /** With no filter an admin sees every sale, in order. */
  lemma {:induction false} AdminSeesAll(sales: seq<Sale>, user: User)
    requires user.role == Admin
    ensures ListSales(sales, user, SaleQuery(None, None, None, None, None, "")) == sales
  {
    if sales != [] {
      AdminSeesAll(sales[..|sales| - 1], user);
      assert sales[..|sales| - 1] + [sales[|sales| - 1]] == sales;
    }
  }

  /** A sale made exactly at a bound is listed: the bounds are inclusive. */
  lemma BoundsInclusive(s: Sale, user: User, t: int)
    requires user.role == Admin && s.createdAt == t
    ensures Listed(s, user, SaleQuery(None, None, None, Some(t), Some(t), ""))
  {
  }

  /** The search ignores case: searching for the sale number in lower case finds the sale. */
  lemma SearchIgnoresCase(s: Sale, user: User)
    requires user.role == Admin && s.saleNumber != []
    ensures Listed(s, user, SaleQuery(None, None, None, None, None, Lower(s.saleNumber)))
  {
    LowerIdempotent(s.saleNumber);
    assert Lower(s.saleNumber)[0..|Lower(s.saleNumber)|] == Lower(s.saleNumber);
    ContainsItself(Lower(s.saleNumber));
  }

  lemma LowerIdempotent(s: string)
    ensures Lower(Lower(s)) == Lower(s)
  {
  }

  lemma ContainsItself(s: string)
    ensures Contains(s, s)
  {
    assert StartsWith(s, s);
  }

  /** The outcome of an action on one sale. */
  datatype ActionResult = Done | Rejected(error: string)

  /** The products the lines of a sale name. */
  function ProductsOfItems(items: seq<SaleItem>): set<Product> {
    set k | 0 <= k < |items| :: items[k].product
  }

  lemma SumItemQuantityStep(items: seq<SaleItem>, i: nat, p: Product)
    requires i < |items|
    ensures SumItemQuantity(items[..i + 1], p) ==
      SumItemQuantity(items[..i], p) + (if items[i].product == p then items[i].quantity else 0)
  {
    assert items[..i + 1][..i] == items[..i];
  }

  /** The loop of `cancel`: each line's quantity goes back on its product's stock. */
  method RestoreStock(items: seq<SaleItem>)
    modifies ProductsOfItems(items)
    ensures forall p :: p in ProductsOfItems(items) ==> p.stock == old(p.stock) + SumItemQuantity(items, p)
    ensures forall p :: p in ProductsOfItems(items) ==> DetailsOf(p) == old(DetailsOf(p))
  {
    var i := 0;
    while i < |items|
      invariant 0 <= i <= |items|
      invariant forall p :: p in ProductsOfItems(items) ==> p.stock == old(p.stock) + SumItemQuantity(items[..i], p)
      invariant forall p :: p in ProductsOfItems(items) ==> DetailsOf(p) == old(DetailsOf(p))
    {
      var p := items[i].product;
      assert p in ProductsOfItems(items);
      p.stock := p.stock + items[i].quantity;
      forall q | q in ProductsOfItems(items)
        ensures q.stock == old(q.stock) + SumItemQuantity(items[..i + 1], q)
      {
        SumItemQuantityStep(items, i, q);
      }
      i := i + 1;
    }
    assert items[..|items|] == items;
  }

  /** `cancel`: a cancelled sale and a sale paid in full are refused and nothing changes;
      otherwise the stock is restored and the sale is cancelled. Nothing else about the sale
      changes. */
  method Cancel(sale: Sale) returns (r: ActionResult)
    modifies sale, ProductsOfItems(sale.items)
    ensures old(sale.status) == Cancelled ==> r == Rejected("Sale is already cancelled")
    ensures old(sale.status) != Cancelled && old(sale.paymentStatus) == Paid ==>
      r == Rejected("Cannot cancel a paid sale. Issue refund instead.")
    ensures r == Done <==> old(sale.status) != Cancelled && old(sale.paymentStatus) != Paid
    ensures sale.status == (if r == Done then Cancelled else old(sale.status))
    ensures forall p :: p in ProductsOfItems(old(sale.items)) ==>
      p.stock == old(p.stock) + (if r == Done then SumItemQuantity(old(sale.items), p) else 0)
    ensures forall p :: p in ProductsOfItems(old(sale.items)) ==> DetailsOf(p) == old(DetailsOf(p))
    ensures sale.items == old(sale.items) && sale.paymentStatus == old(sale.paymentStatus)
    ensures sale.amountPaid == old(sale.amountPaid) && sale.total == old(sale.total)
    ensures sale.change == old(sale.change) && sale.completedAt == old(sale.completedAt)
  {
    if sale.status == Cancelled {
      return Rejected("Sale is already cancelled");
    }
    if sale.paymentStatus == Paid {
      return Rejected("Cannot cancel a paid sale. Issue refund instead.");
    }
    RestoreStock(sale.items);
    sale.status := Cancelled;
    r := Done;
  }

  /** `complete`: an already completed sale and a sale not paid in full are refused; any other
      sale, a cancelled one included, is marked completed, without a completion time. */
  method Complete(sale: Sale) returns (r: ActionResult)
    modifies sale
    ensures old(sale.status) == Completed ==> r == Rejected("Sale is already completed")
    ensures old(sale.status) != Completed && old(sale.paymentStatus) != Paid ==>
      r == Rejected("Sale must be fully paid before completing")
    ensures r == Done <==> old(sale.status) != Completed && old(sale.paymentStatus) == Paid
    ensures sale.status == (if r == Done then Completed else old(sale.status))
    ensures sale.items == old(sale.items) && sale.paymentStatus == old(sale.paymentStatus)
    ensures sale.amountPaid == old(sale.amountPaid) && sale.total == old(sale.total)
    ensures sale.change == old(sale.change) && sale.completedAt == old(sale.completedAt)
  {
    if sale.status == Completed {
      return Rejected("Sale is already completed");
    }
    if sale.paymentStatus != Paid {
      return Rejected("Sale must be fully paid before completing");
    }
    sale.status := Completed;
    r := Done;
  }

  /** A sale's lines name the same products with the same quantities as the lines it was
      made from. */
  lemma {:induction false} SameQuantities(items: seq<SaleItem>, lines: seq<Line>, ds: seq<Details>, p: Product)
    requires |items| == |lines| == |ds|
    requires forall k :: 0 <= k < |items| ==> SnapshotOf(items[k], lines[k], ds[k])
    ensures SumItemQuantity(items, p) == SumQuantity(lines, p)
  {
    if items != [] {
      var n := |items| - 1;
      SameQuantities(items[..n], lines[..n], ds[..n], p);
      assert SnapshotOf(items[n], lines[n], ds[n]);
    }
  }

  lemma SameProducts(items: seq<SaleItem>, lines: seq<Line>, ds: seq<Details>)
    requires |items| == |lines| == |ds|
    requires forall k :: 0 <= k < |items| ==> SnapshotOf(items[k], lines[k], ds[k])
    ensures ProductsOfItems(items) == ProductsOf(lines)
  {
    forall p | p in ProductsOf(lines)
      ensures p in ProductsOfItems(items)
    {
      var k :| 0 <= k < |lines| && lines[k].product == p;
      assert SnapshotOf(items[k], lines[k], ds[k]);
    }
  }

  /** A sale made and then cancelled: the cancel is accepted exactly when the sale was not
      paid in full at creation, and then every product's stock is back where it was. */
  method CreateThenCancel(lines: seq<Line>, id: nat, clock: DateTime, uuidHex: string, cashier: nat,
                          discount: int, amountPaid: int, now: int)
    returns (sale: Sale, r: ActionResult)
    requires ValidDateTime(clock) && UuidHex(uuidHex)
    modifies ProductsOf(lines)
    ensures r == Done <==> sale.paymentStatus != Paid
    ensures r == Done ==> sale.status == Cancelled
    ensures r == Done ==> forall p :: p in ProductsOf(lines) ==> p.stock == old(p.stock)
  {
    sale := CreateSale(lines, id, clock, uuidHex, cashier, "", "", discount, amountPaid, now);
    ghost var ds := old(DetailsOfLines(lines));
    SameProducts(sale.items, lines, ds);
    ghost var items := sale.items;
    r := Cancel(sale);
    forall p | p in ProductsOf(lines)
      ensures r == Done ==> p.stock == old(p.stock)
    {
      SameQuantities(items, lines, ds, p);
    }
  }
}
