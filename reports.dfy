/** The report endpoints' arithmetic: the reporting period each request selects, the sales
    summary (completed sales only), the ten best-selling products, the inventory summary over
    active products, and the profit summary. Instants are microseconds since the epoch, in
    UTC; amounts are integer cents. A ratio the endpoints render as a float is kept exact as
    a fraction. */
module Reports {
  import opened Common
  import opened ProductsModels
  import opened SalesModels
  import opened InventoryModels
  import InventoryViews

  const Second: int := 1000000
  const Day: int := 86400 * Second

  /** `now.replace(hour=0, minute=0, second=0)`: midnight of the same day, plus the fraction of
      a second `now` carries (the microseconds are not reset). */
  function DayStart(now: int): (r: int)
    ensures r <= now < r + Day
  {
    now - now % Day + (now % Day) % Second
  }

  /** A date query parameter: its text and what the date parser makes of it (None when the
      parser raises). */
  datatype DateParam = DateParam(text: string, parsed: Option<int>)

  /** The parameter is present and not empty. */
  predicate Given(p: Option<DateParam>) {
    p.Some? && p.value.text != ""
  }

  datatype Range = Range(start: int, end: int)

  /** `request.query_params.get('period', 'today')`. */
  function Label(period: Option<string>): string {
    if period.Some? then period.value else "today"
  }

  /** How many days a named period reaches back in the sales report (0 for the others). */
  function SalesLookback(periodName: string): int {
    if periodName == "week" then 7 else if periodName == "month" then 30 else if periodName == "year" then 365 else 0
  }

  /** The sales report's period: today runs from the start of the day to now; week, month and
      year reach 7, 30 and 365 days back from now; custom takes both dates, and needs both,
      otherwise it is today. None when a date cannot be parsed (the request fails). */
  function SalesPeriod(period: Option<string>, startDate: Option<DateParam>, endDate: Option<DateParam>, now: int)
    : (r: Option<Range>)
    ensures (Label(period) == "custom" && Given(startDate) && Given(endDate)) ==>
      (r.Some? <==> (startDate.value.parsed.Some? && endDate.value.parsed.Some?))
      && (r.Some? ==> r == Some(Range(startDate.value.parsed.value, endDate.value.parsed.value)))
    ensures Label(period) == "week" ==> r == Some(Range(now - 7 * Day, now))
    ensures Label(period) == "month" ==> r == Some(Range(now - 30 * Day, now))
    ensures Label(period) == "year" ==> r == Some(Range(now - 365 * Day, now))
    ensures !(Label(period) == "custom" && Given(startDate) && Given(endDate)) ==>
      r.Some? && r.value.end == now && now - 365 * Day <= r.value.start <= now
      && (SalesLookback(Label(period)) == 0 <==> r.value.start == DayStart(now))
  {
    var periodName := Label(period);
    if periodName == "today" then Some(Range(DayStart(now), now))
    else if periodName == "week" || periodName == "month" || periodName == "year" then
      Some(Range(now - SalesLookback(periodName) * Day, now))
    else if periodName == "custom" && Given(startDate) && Given(endDate) then
      if startDate.value.parsed.Some? && endDate.value.parsed.Some? then
        Some(Range(startDate.value.parsed.value, endDate.value.parsed.value))
      else None
    else Some(Range(DayStart(now), now))
  }

  /** A missing period, an unknown one, and custom without both dates all mean today. */
  lemma SalesPeriodFallsBackToToday(period: Option<string>, startDate: Option<DateParam>, endDate: Option<DateParam>,
                                    now: int)
    requires Label(period) !in {"week", "month", "year"}
    requires !(Label(period) == "custom" && Given(startDate) && Given(endDate))
    ensures SalesPeriod(period, startDate, endDate, now) == SalesPeriod(None, None, None, now)
    ensures SalesPeriod(None, None, None, now) == Some(Range(DayStart(now), now))
  {
  }

  /** The profit report's period: today, week and month as in the sales report, custom when a
      start date is given; there is no year, which falls back to today. The end is now unless
      an end date is given, whatever the period. */
  function ProfitPeriod(period: Option<string>, startDate: Option<DateParam>, endDate: Option<DateParam>, now: int)
    : (r: Option<Range>)
    ensures Given(endDate) && endDate.value.parsed.None? ==> r.None?
    ensures !Given(endDate) && Label(period) != "custom" ==> r.Some? && r.value.end == now
    ensures r.Some? && Given(endDate) ==> r.value.end == endDate.value.parsed.value
    ensures r.Some? && Label(period) == "week" ==> r.value.start == now - 7 * Day
    ensures r.Some? && Label(period) == "month" ==> r.value.start == now - 30 * Day
    ensures Label(period) == "custom" && Given(startDate) ==>
      (r.Some? <==> startDate.value.parsed.Some? && (Given(endDate) ==> endDate.value.parsed.Some?))
      && (r.Some? ==> r.value.start == startDate.value.parsed.value)
    ensures r.Some? && Label(period) != "week" && Label(period) != "month" && !(Label(period) == "custom" && Given(startDate)) ==>
      r.value.start == DayStart(now)
  {
    var periodName := Label(period);
    var start :=
      if periodName == "week" then Some(now - 7 * Day)
      else if periodName == "month" then Some(now - 30 * Day)
      else if periodName == "custom" && Given(startDate) then startDate.value.parsed
      else Some(DayStart(now));
    var end := if Given(endDate) then endDate.value.parsed else Some(now);
    if start.Some? && end.Some? then Some(Range(start.value, end.value)) else None
  }

  /** The two reports disagree on 'year': a year of sales, but only today's profit. */
  lemma YearDiffersBetweenReports(now: int)
    ensures SalesPeriod(Some("year"), None, None, now) == Some(Range(now - 365 * Day, now))
    ensures ProfitPeriod(Some("year"), None, None, now) == Some(Range(DayStart(now), now))
  {
  }

  /** A sale counts toward a report when it is completed and created within the range, both
      ends included. */
  predicate Counts(s: Sale, r: Range)
    reads s
  {
    s.status == Completed && r.start <= s.createdAt <= r.end
  }

  /** The completed sales of the range, in order. */
  function CompletedIn(sales: seq<Sale>, r: Range): (c: seq<Sale>)
    reads sales
    ensures |c| <= |sales|
    ensures forall k :: 0 <= k < |c| ==> c[k] in sales && Counts(c[k], r)
    ensures forall k :: 0 <= k < |sales| && Counts(sales[k], r) ==> sales[k] in c
  {
    if sales == [] then []
    else
      var rest := CompletedIn(sales[..|sales| - 1], r);
      var s := sales[|sales| - 1];
      if Counts(s, r) then rest + [s] else rest
  }

  /** The filter keeps the sales' order and takes each sale once: the counting sales of two
      runs of sales are those of the first followed by those of the second, and a single sale
      is kept exactly when it counts. */
  lemma {:induction false} CompletedInKeepsOrder(a: seq<Sale>, b: seq<Sale>, r: Range)
    ensures CompletedIn(a + b, r) == CompletedIn(a, r) + CompletedIn(b, r)
    ensures forall x :: CompletedIn([x], r) == if Counts(x, r) then [x] else []
  {
    forall x
      ensures CompletedIn([x], r) == if Counts(x, r) then [x] else []
    {
      CompletedInLast([x], r);
      assert [x][..0] == [];
    }
    CompletedInAppend(a, b, r);
  }

  lemma {:induction false} CompletedInAppend(a: seq<Sale>, b: seq<Sale>, r: Range)
    ensures CompletedIn(a + b, r) == CompletedIn(a, r) + CompletedIn(b, r)
    decreases |b|
  {
    if b == [] {
      assert a + b == a;
    } else {
      var n := |b| - 1;
      var ab := a + b;
      assert ab[..|ab| - 1] == a + b[..n];
      assert ab[|ab| - 1] == b[n];
      CompletedInAppend(a, b[..n], r);
      CompletedInLast(ab, r);
      CompletedInLast(b, r);
    }
  }

  lemma CompletedInLast(s: seq<Sale>, r: Range)
    requires s != []
    ensures CompletedIn(s, r)
      == if Counts(s[|s| - 1], r) then CompletedIn(s[..|s| - 1], r) + [s[|s| - 1]] else CompletedIn(s[..|s| - 1], r)
  {
  }

  function Revenue(sales: seq<Sale>): int
    reads sales
  {
    if sales == [] then 0 else Revenue(sales[..|sales| - 1]) + sales[|sales| - 1].total
  }

  function TaxTotal(sales: seq<Sale>): int
    reads sales
  {
    if sales == [] then 0 else TaxTotal(sales[..|sales| - 1]) + sales[|sales| - 1].taxAmount
  }

  function DiscountTotal(sales: seq<Sale>): int
    reads sales
  {
    if sales == [] then 0 else DiscountTotal(sales[..|sales| - 1]) + sales[|sales| - 1].discount
  }

  /** An exact ratio num / den, with den > 0. */
  datatype Fraction = Fraction(num: int, den: int)

  /** `revenue / count if count > 0 else 0`. */
  function Average(revenue: int, count: nat): (f: Fraction)
    ensures f.den > 0
    ensures count == 0 ==> f.num == 0
    ensures count > 0 ==> f.num * count == revenue * f.den
  {
    if count > 0 then Fraction(revenue, count) else Fraction(0, 1)
  }

  datatype SalesSummary = SalesSummary(totalSales: nat, totalRevenue: int, totalTax: int, totalDiscount: int,
                                       averageSale: Fraction)

  /** The summary of the sales report over a range. */
  function SalesSummaryOf(sales: seq<Sale>, r: Range): (s: SalesSummary)
    reads sales
    ensures s.totalSales == |CompletedIn(sales, r)| && s.totalRevenue == Revenue(CompletedIn(sales, r))
    ensures s.totalTax == TaxTotal(CompletedIn(sales, r)) && s.totalDiscount == DiscountTotal(CompletedIn(sales, r))
    ensures s.averageSale == Average(s.totalRevenue, s.totalSales)
  {
    var c := CompletedIn(sales, r);
    SalesSummary(|c|, Revenue(c), TaxTotal(c), DiscountTotal(c), Average(Revenue(c), |c|))
  }

  /** A sale that does not count, a pending or cancelled one or one outside the range, leaves
      the summary as it is. */
  lemma OnlyCountingSalesMatter(sales: seq<Sale>, s: Sale, r: Range)
    requires !Counts(s, r)
    ensures SalesSummaryOf(sales + [s], r) == SalesSummaryOf(sales, r)
  {
    assert (sales + [s])[..|sales|] == sales;
  }

  /** A completed sale of the range adds one to the count and its total, tax and discount to
      the three sums. */
  lemma CountingSaleAdds(sales: seq<Sale>, s: Sale, r: Range)
    requires Counts(s, r)
    ensures var before, after := SalesSummaryOf(sales, r), SalesSummaryOf(sales + [s], r);
      after.totalSales == before.totalSales + 1 && after.totalRevenue == before.totalRevenue + s.total
      && after.totalTax == before.totalTax + s.taxAmount && after.totalDiscount == before.totalDiscount + s.discount
  {
    assert (sales + [s])[..|sales|] == sales;
    CompletedInLast(sales + [s], r);
    var c := CompletedIn(sales, r) + [s];
    assert c[..|c| - 1] == CompletedIn(sales, r);
  }

  /** Totals between lo and hi give a revenue between lo and hi times the count. */
  lemma {:induction false} RevenueBounds(sales: seq<Sale>, lo: int, hi: int)
    requires forall k :: 0 <= k < |sales| ==> lo <= sales[k].total <= hi
    ensures lo * |sales| <= Revenue(sales) <= hi * |sales|
  {
    if sales != [] {
      var n := |sales| - 1;
      RevenueBounds(sales[..n], lo, hi);
      assert lo * |sales| == lo * n + lo && hi * |sales| == hi * n + hi;
    }
  }

  /** The average sale lies between the smallest and the largest sale total. */
  lemma AverageWithinTotals(sales: seq<Sale>, r: Range, lo: int, hi: int)
    requires forall k :: 0 <= k < |sales| && Counts(sales[k], r) ==> lo <= sales[k].total <= hi
    ensures var a := SalesSummaryOf(sales, r).averageSale;
      SalesSummaryOf(sales, r).totalSales > 0 ==> lo * a.den <= a.num <= hi * a.den
  {
    var c := CompletedIn(sales, r);
    forall k | 0 <= k < |c|
      ensures lo <= c[k].total <= hi
    {
      var j :| 0 <= j < |sales| && sales[j] == c[k];
    }
    RevenueBounds(c, lo, hi);
  }

  /** The active products, in order. */
  function ActiveProducts(products: seq<Product>): (a: seq<Product>)
    reads products
    ensures forall k :: 0 <= k < |a| ==> a[k] in products && a[k].isActive
    ensures forall k :: 0 <= k < |products| && products[k].isActive ==> products[k] in a
  {
    if products == [] then []
    else
      var rest := ActiveProducts(products[..|products| - 1]);
      var p := products[|products| - 1];
      if p.isActive then rest + [p] else rest
  }

  /** The filter keeps the products' order and takes each product once: the active products
      of two runs of products are those of the first followed by those of the second, and a
      single product is kept exactly when it is active. */
  lemma {:induction false} ActiveProductsKeepOrder(a: seq<Product>, b: seq<Product>)
    ensures ActiveProducts(a + b) == ActiveProducts(a) + ActiveProducts(b)
    ensures forall x :: ActiveProducts([x]) == if x.isActive then [x] else []
  {
    forall x
      ensures ActiveProducts([x]) == if x.isActive then [x] else []
    {
      ActiveProductsLast([x]);
      assert [x][..0] == [];
    }
    ActiveProductsAppend(a, b);
  }

  lemma {:induction false} ActiveProductsAppend(a: seq<Product>, b: seq<Product>)
    ensures ActiveProducts(a + b) == ActiveProducts(a) + ActiveProducts(b)
    decreases |b|
  {
    if b == [] {
      assert a + b == a;
    } else {
      var n := |b| - 1;
      var ab := a + b;
      assert ab[..|ab| - 1] == a + b[..n];
      assert ab[|ab| - 1] == b[n];
      ActiveProductsAppend(a, b[..n]);
      ActiveProductsLast(ab);
      ActiveProductsLast(b);
    }
  }

  lemma ActiveProductsLast(s: seq<Product>)
    requires s != []
    ensures ActiveProducts(s)
      == if s[|s| - 1].isActive then ActiveProducts(s[..|s| - 1]) + [s[|s| - 1]] else ActiveProducts(s[..|s| - 1])
  {
  }

  /** The sum of stock times cost price. */
  function StockValue(products: seq<Product>): int
    reads products
  {
    if products == [] then 0
    else StockValue(products[..|products| - 1]) + products[|products| - 1].stock * products[|products| - 1].costPrice
  }

  function LowStockCount(products: seq<Product>): nat
    reads products
  {
    if products == [] then 0
    else LowStockCount(products[..|products| - 1]) + (if products[|products| - 1].IsLowStock() then 1 else 0)
  }

  function OutOfStockCount(products: seq<Product>): nat
    reads products
  {
    if products == [] then 0
    else OutOfStockCount(products[..|products| - 1]) + (if products[|products| - 1].stock == 0 then 1 else 0)
  }

  /** The positions of the active products. */
  function ActiveIndices(products: seq<Product>): set<int>
    reads products
  {
    set k | 0 <= k < |products| && products[k].isActive
  }

  /** The positions of the active products at or below their low-stock threshold. */
  function LowIndices(products: seq<Product>): set<int>
    reads products
  {
    set k | 0 <= k < |products| && products[k].isActive && products[k].stock <= products[k].lowStockThreshold
  }

  /** The positions of the active products with no stock. */
  function OutIndices(products: seq<Product>): set<int>
    reads products
  {
    set k | 0 <= k < |products| && products[k].isActive && products[k].stock == 0
  }

  /** Stock times cost price summed over all the products, an inactive one adding nothing. */
  function ActiveStockValue(products: seq<Product>): int
    reads products
  {
    if products == [] then 0
    else
      var p := products[|products| - 1];
      ActiveStockValue(products[..|products| - 1]) + (if p.isActive then p.stock * p.costPrice else 0)
  }

  datatype InventorySummary = InventorySummary(totalProducts: nat, totalStockValue: int, lowStockCount: nat,
                                               outOfStockCount: nat, activeAlerts: nat)

  /** The summary of the inventory report: counts and stock value over the active products
      only, and the number of active alerts. */
  function InventorySummaryOf(products: seq<Product>, alerts: seq<StockAlert>): (s: InventorySummary)
    reads products, alerts
    ensures s.totalProducts == |ActiveProducts(products)| == |ActiveIndices(products)| <= |products|
    ensures s.totalStockValue == ActiveStockValue(products)
    ensures s.lowStockCount == |LowIndices(products)| && s.outOfStockCount == |OutIndices(products)|
    ensures s.lowStockCount <= s.totalProducts && s.outOfStockCount <= s.totalProducts
    ensures s.activeAlerts == |InventoryViews.ActiveIndices(alerts)| <= |alerts|
  {
    var a := ActiveProducts(products);
    ActiveNoMore(products);
    CountsBounded(a);
    ActiveCounts(products);
    ActiveValue(products);
    InventoryViews.ActiveAlertsCount(alerts);
    InventorySummary(|a|, StockValue(a), LowStockCount(a), OutOfStockCount(a),
                     |InventoryViews.ActiveAlerts(alerts)|)
  }

  /** An inactive product leaves the inventory summary as it is. */
  lemma OnlyActiveProductsMatter(products: seq<Product>, p: Product, alerts: seq<StockAlert>)
    requires !p.isActive
    ensures InventorySummaryOf(products + [p], alerts) == InventorySummaryOf(products, alerts)
  {
    assert (products + [p])[..|products|] == products;
  }

  lemma {:induction false} ActiveNoMore(products: seq<Product>)
    ensures |ActiveProducts(products)| <= |products|
  {
    if products != [] {
      ActiveNoMore(products[..|products| - 1]);
    }
  }

  /** Counting over the filtered list is counting the positions of the original one. */
  lemma ActiveCounts(products: seq<Product>)
    ensures |ActiveProducts(products)| == |ActiveIndices(products)|
    ensures LowStockCount(ActiveProducts(products)) == |LowIndices(products)|
    ensures OutOfStockCount(ActiveProducts(products)) == |OutIndices(products)|
  {
    ActiveCount(products);
    ActiveLowCount(products);
    ActiveOutCount(products);
  }

  lemma {:induction false} ActiveCount(products: seq<Product>)
    ensures |ActiveProducts(products)| == |ActiveIndices(products)|
  {
    if products != [] {
      var n := |products| - 1;
      ActiveCount(products[..n]);
      ActiveProductsLast(products);
      ActiveIndicesLast(products);
    }
  }

  lemma ActiveIndicesLast(products: seq<Product>)
    requires products != []
    ensures var n := |products| - 1;
      ActiveIndices(products) == ActiveIndices(products[..n]) + (if products[n].isActive then {n} else {})
      && n !in ActiveIndices(products[..n])
  {
  }

  lemma {:induction false} ActiveLowCount(products: seq<Product>)
    ensures LowStockCount(ActiveProducts(products)) == |LowIndices(products)|
  {
    if products != [] {
      var n := |products| - 1;
      var p := products[n];
      ActiveLowCount(products[..n]);
      ActiveProductsLast(products);
      CountsOfLast(ActiveProducts(products[..n]), p);
      LowIndicesLast(products);
    }
  }

  lemma {:induction false} ActiveOutCount(products: seq<Product>)
    ensures OutOfStockCount(ActiveProducts(products)) == |OutIndices(products)|
  {
    if products != [] {
      var n := |products| - 1;
      var p := products[n];
      ActiveOutCount(products[..n]);
      ActiveProductsLast(products);
      CountsOfLast(ActiveProducts(products[..n]), p);
      OutIndicesLast(products);
    }
  }

  /** Both counts of a list with one more product grow by that product's share. */
  lemma CountsOfLast(a: seq<Product>, p: Product)
    ensures LowStockCount(a + [p]) == LowStockCount(a) + (if p.IsLowStock() then 1 else 0)
    ensures OutOfStockCount(a + [p]) == OutOfStockCount(a) + (if p.stock == 0 then 1 else 0)
  {
    assert (a + [p])[..|a|] == a;
  }

  lemma LowIndicesLast(products: seq<Product>)
    requires products != []
    ensures var n := |products| - 1; var p := products[n];
      LowIndices(products) == LowIndices(products[..n]) + (if p.isActive && p.IsLowStock() then {n} else {})
      && n !in LowIndices(products[..n])
  {
  }

  lemma OutIndicesLast(products: seq<Product>)
    requires products != []
    ensures var n := |products| - 1; var p := products[n];
      OutIndices(products) == OutIndices(products[..n]) + (if p.isActive && p.stock == 0 then {n} else {})
      && n !in OutIndices(products[..n])
  {
  }

  /** The stock value over the filtered list is the value over the active products. */
  lemma {:induction false} ActiveValue(products: seq<Product>)
    ensures StockValue(ActiveProducts(products)) == ActiveStockValue(products)
  {
    if products != [] {
      var n := |products| - 1;
      var a := ActiveProducts(products[..n]);
      ActiveValue(products[..n]);
      ActiveProductsLast(products);
      assert (a + [products[n]])[..|a|] == a;
    }
  }

  lemma {:induction false} CountsBounded(products: seq<Product>)
    ensures LowStockCount(products) <= |products| && OutOfStockCount(products) <= |products|
  {
    if products != [] {
      CountsBounded(products[..|products| - 1]);
    }
  }

  /** With non-negative thresholds every product out of stock is also low on stock, so the
      out-of-stock count never exceeds the low-stock count. */
  lemma {:induction false} OutOfStockWithinLowStock(products: seq<Product>)
    requires forall k :: 0 <= k < |products| ==> products[k].lowStockThreshold >= 0
    ensures OutOfStockCount(products) <= LowStockCount(products)
  {
    if products != [] {
      OutOfStockWithinLowStock(products[..|products| - 1]);
    }
  }

  /** Stock and cost prices that are never negative give a stock value that is never
      negative. */
  lemma {:induction false} StockValueNonNegative(products: seq<Product>)
    requires forall k :: 0 <= k < |products| ==> products[k].stock >= 0 && products[k].costPrice >= 0
    ensures StockValue(products) >= 0
  {
    if products != [] {
      StockValueNonNegative(products[..|products| - 1]);
    }
  }

  /** The line items of the sales, sale by sale. */
  function ItemsOf(sales: seq<Sale>): seq<SaleItem>
    reads sales
  {
    if sales == [] then [] else ItemsOf(sales[..|sales| - 1]) + sales[|sales| - 1].items
  }

  function ItemRevenue(items: seq<SaleItem>): int {
    if items == [] then 0 else ItemRevenue(items[..|items| - 1]) + items[|items| - 1].total
  }

  function ItemCost(items: seq<SaleItem>): int {
    if items == [] then 0
    else ItemCost(items[..|items| - 1]) + items[|items| - 1].costPrice * items[|items| - 1].quantity
  }

  datatype ProfitSummary = ProfitSummary(totalRevenue: int, totalCost: int, totalTax: int, grossProfit: int,
                                         profitMargin: Fraction)

  /** The summary of the profit report: revenue and cost over the items of the completed
      sales of the range, tax over the sales themselves; the margin is the gross profit as a
      percentage of revenue, or 0 without revenue. */
  function ProfitSummaryOf(sales: seq<Sale>, r: Range): (s: ProfitSummary)
    reads sales
    ensures s.totalRevenue == ItemRevenue(ItemsOf(CompletedIn(sales, r)))
    ensures s.totalCost == ItemCost(ItemsOf(CompletedIn(sales, r)))
    ensures s.totalTax == TaxTotal(CompletedIn(sales, r))
    ensures s.grossProfit == s.totalRevenue - s.totalTax - s.totalCost
    ensures s.profitMargin.den > 0
    ensures s.totalRevenue <= 0 ==> s.profitMargin.num == 0
    ensures s.totalRevenue > 0 ==> s.profitMargin.num * s.totalRevenue == 100 * s.grossProfit * s.profitMargin.den
  {
    var c := CompletedIn(sales, r);
    var items := ItemsOf(c);
    var revenue := ItemRevenue(items);
    var cost := ItemCost(items);
    var tax := TaxTotal(c);
    var gross := revenue - tax - cost;
    ProfitSummary(revenue, cost, tax, gross, if revenue > 0 then Fraction(100 * gross, revenue) else Fraction(0, 1))
  }

  lemma {:induction false} ItemRevenueAppend(a: seq<SaleItem>, b: seq<SaleItem>)
    ensures ItemRevenue(a + b) == ItemRevenue(a) + ItemRevenue(b)
    decreases |b|
  {
    if b != [] {
      var n := |b| - 1;
      assert (a + b)[..|a + b| - 1] == a + b[..n];
      ItemRevenueAppend(a, b[..n]);
    } else {
      assert a + b == a;
    }
  }

  lemma {:induction false} ItemCostAppend(a: seq<SaleItem>, b: seq<SaleItem>)
    ensures ItemCost(a + b) == ItemCost(a) + ItemCost(b)
    decreases |b|
  {
    if b != [] {
      var n := |b| - 1;
      assert (a + b)[..|a + b| - 1] == a + b[..n];
      ItemCostAppend(a, b[..n]);
    } else {
      assert a + b == a;
    }
  }

  /** A sale that does not count leaves the profit summary as it is. */
  lemma ProfitOnlyCountingSalesMatter(sales: seq<Sale>, s: Sale, r: Range)
    requires !Counts(s, r)
    ensures ProfitSummaryOf(sales + [s], r) == ProfitSummaryOf(sales, r)
  {
    assert (sales + [s])[..|sales|] == sales;
  }

  /** A completed sale of the range adds its items' revenue and cost, and its own tax, to the
      profit summary. */
  lemma ProfitCountingSaleAdds(sales: seq<Sale>, s: Sale, r: Range)
    requires Counts(s, r)
    ensures var before, after := ProfitSummaryOf(sales, r), ProfitSummaryOf(sales + [s], r);
      after.totalRevenue == before.totalRevenue + ItemRevenue(s.items)
      && after.totalCost == before.totalCost + ItemCost(s.items)
      && after.totalTax == before.totalTax + s.taxAmount
  {
    assert (sales + [s])[..|sales|] == sales;
    CompletedInLast(sales + [s], r);
    var c := CompletedIn(sales, r) + [s];
    assert c[..|c| - 1] == CompletedIn(sales, r);
    ItemRevenueAppend(ItemsOf(CompletedIn(sales, r)), s.items);
    ItemCostAppend(ItemsOf(CompletedIn(sales, r)), s.items);
  }

  /** When tax and cost are not negative, the margin is at most 100 percent, and it is exactly
      100 only when both are zero. */
  lemma MarginAtMostHundred(sales: seq<Sale>, r: Range)
    requires ProfitSummaryOf(sales, r).totalTax >= 0 && ProfitSummaryOf(sales, r).totalCost >= 0
    ensures var s := ProfitSummaryOf(sales, r);
      s.profitMargin.num <= 100 * s.profitMargin.den
      && (s.totalRevenue > 0 ==> (s.profitMargin.num == 100 * s.profitMargin.den <==> s.totalTax + s.totalCost == 0))
  {
  }

  /** One product's line in the best-seller list: units sold and revenue, summed over every
      line item carrying that product name. */
  datatype ProductSales = ProductSales(productName: string, quantitySold: int, totalRevenue: int)

  function QuantitySold(items: seq<SaleItem>, name: string): int {
    if items == [] then 0
    else (QuantitySold(items[..|items| - 1], name)
          + if items[|items| - 1].productName == name then items[|items| - 1].quantity else 0)
  }

  function RevenueOf(items: seq<SaleItem>, name: string): int {
    if items == [] then 0
    else (RevenueOf(items[..|items| - 1], name)
          + if items[|items| - 1].productName == name then items[|items| - 1].total else 0)
  }

  predicate Sold(items: seq<SaleItem>, name: string) {
    exists k :: 0 <= k < |items| && items[k].productName == name
  }

  predicate Distinct<T(==)>(s: seq<T>) {
    forall i, j :: 0 <= i < j < |s| ==> s[i] != s[j]
  }

  /** The product names of the items, each once, in order of first appearance. */
  function Names(items: seq<SaleItem>): (ns: seq<string>)
    ensures Distinct(ns)
    ensures forall n :: n in ns <==> Sold(items, n)
  {
    if items == [] then []
    else
      var init := items[..|items| - 1];
      var ns := Names(init);
      var n := items[|items| - 1].productName;
      assert forall m :: Sold(init, m) ==> Sold(items, m) by {
        forall m | Sold(init, m)
          ensures Sold(items, m)
        {
          var k :| 0 <= k < |init| && init[k].productName == m;
          assert items[k].productName == m;
        }
      }
      assert forall m :: Sold(items, m) ==> Sold(init, m) || m == n;
      if n in ns then ns else ns + [n]
  }

  /** The grouped line of each name. */
  function Lines(items: seq<SaleItem>, names: seq<string>): (g: seq<ProductSales>)
    ensures |g| == |names|
    ensures forall k :: 0 <= k < |g| ==>
      g[k] == ProductSales(names[k], QuantitySold(items, names[k]), RevenueOf(items, names[k]))
  {
    if names == [] then []
    else [ProductSales(names[0], QuantitySold(items, names[0]), RevenueOf(items, names[0]))] + Lines(items, names[1..])
  }

  predicate SortedByQuantity(s: seq<ProductSales>) {
    forall i, j :: 0 <= i < j < |s| ==> s[i].quantitySold >= s[j].quantitySold
  }

  /** Inserting a line into a list sorted by units sold, before the first line that sold no
      more. */
  function Insert(x: ProductSales, s: seq<ProductSales>): (r: seq<ProductSales>)
    requires SortedByQuantity(s)
    ensures SortedByQuantity(r)
    ensures multiset(r) == multiset(s) + multiset{x}
  {
    if s == [] then [x]
    else if x.quantitySold >= s[0].quantitySold then [x] + s
    else
      var rest := Insert(x, s[1..]);
      assert s == [s[0]] + s[1..];
      HeadOutsells(s);
      forall k | 0 <= k < |rest|
        ensures s[0].quantitySold >= rest[k].quantitySold
      {
        assert rest[k] in multiset(rest);
      }
      ConsSorted(s[0], rest);
      [s[0]] + rest
  }

  /** The first line of a sorted list sold at least as many units as any line after it. */
  lemma HeadOutsells(s: seq<ProductSales>)
    requires SortedByQuantity(s) && s != []
    ensures forall y :: y in multiset(s[1..]) ==> s[0].quantitySold >= y.quantitySold
  {
    forall y | y in multiset(s[1..])
      ensures s[0].quantitySold >= y.quantitySold
    {
      var k :| 0 <= k < |s[1..]| && s[1..][k] == y;
      assert s[k + 1] == y;
    }
  }

  /** A line that sold at least as many units as every line of a sorted list can go first. */
  lemma ConsSorted(h: ProductSales, rest: seq<ProductSales>)
    requires SortedByQuantity(rest)
    requires forall k :: 0 <= k < |rest| ==> h.quantitySold >= rest[k].quantitySold
    ensures SortedByQuantity([h] + rest)
  {
    var r := [h] + rest;
    forall i, j | 0 <= i < j < |r|
      ensures r[i].quantitySold >= r[j].quantitySold
    {
      assert r[j] == rest[j - 1];
      if i > 0 {
        assert r[i] == rest[i - 1];
      }
    }
  }

  /** The lines ordered by units sold, most first. */
  function SortByQuantity(s: seq<ProductSales>): (r: seq<ProductSales>)
    ensures SortedByQuantity(r)
    ensures multiset(r) == multiset(s)
  {
    if s == [] then []
    else
      assert s == s[..|s| - 1] + [s[|s| - 1]];
      Insert(s[|s| - 1], SortByQuantity(s[..|s| - 1]))
  }

  /** The line of a product name that was sold: its units and its revenue over all the items
      carrying that name. */
  predicate GroupedLine(items: seq<SaleItem>, l: ProductSales) {
    Sold(items, l.productName)
    && l == ProductSales(l.productName, QuantitySold(items, l.productName), RevenueOf(items, l.productName))
  }

  /** Every sorted line is the grouped line of a product name that was sold. */
  lemma SortedLinesGrouped(items: seq<SaleItem>)
    ensures forall l :: l in SortByQuantity(Lines(items, Names(items))) ==> GroupedLine(items, l)
  {
    var names := Names(items);
    var lines := Lines(items, names);
    forall l | l in SortByQuantity(lines)
      ensures GroupedLine(items, l)
    {
      assert l in multiset(SortByQuantity(lines));
      assert l in multiset(lines);
      var j :| 0 <= j < |lines| && lines[j] == l;
      assert names[j] in names;
    }
  }

  /** The top products of the sales report: the ten lines that sold the most units. */
  function TopProducts(items: seq<SaleItem>): (r: seq<ProductSales>)
    ensures |r| == if |Names(items)| < 10 then |Names(items)| else 10
    ensures SortedByQuantity(r)
    ensures forall k :: 0 <= k < |r| ==> GroupedLine(items, r[k])
  {
    TopLines(items);
    Take(SortByQuantity(Lines(items, Names(items))), 10)
  }

  /** The first ten sorted lines: as many as there are products sold, up to ten, sorted, and
      each the grouped line of its product. */
  lemma TopLines(items: seq<SaleItem>)
    ensures var r := Take(SortByQuantity(Lines(items, Names(items))), 10);
      |r| == (if |Names(items)| < 10 then |Names(items)| else 10)
      && SortedByQuantity(r)
      && forall k :: 0 <= k < |r| ==> GroupedLine(items, r[k])
  {
    var sorted := SortByQuantity(Lines(items, Names(items)));
    SortedLinesCount(items);
    SortedLinesGrouped(items);
    var r := Take(sorted, 10);
    SortedPrefix(sorted, |r|);
    PrefixGrouped(items, sorted, |r|);
  }

  /** Every line of a prefix of lines that are all grouped lines is one. */
  lemma PrefixGrouped(items: seq<SaleItem>, s: seq<ProductSales>, m: nat)
    requires m <= |s| && forall l :: l in s ==> GroupedLine(items, l)
    ensures forall k :: 0 <= k < |s[..m]| ==> GroupedLine(items, s[..m][k])
  {
    assert forall k :: 0 <= k < m ==> s[..m][k] == s[k] && s[k] in s;
  }

  /** Sorting keeps one line per product sold. */
  lemma SortedLinesCount(items: seq<SaleItem>)
    ensures |SortByQuantity(Lines(items, Names(items)))| == |Names(items)|
  {
    var sorted := SortByQuantity(Lines(items, Names(items)));
    assert |sorted| == |multiset(sorted)| == |Names(items)|;
  }

  /** A prefix of a sorted list is sorted. */
  lemma SortedPrefix(s: seq<ProductSales>, m: nat)
    requires SortedByQuantity(s) && m <= |s|
    ensures SortedByQuantity(s[..m])
  {
  }

  /** Equal elements at two places of a sequence show up twice in its multiset. */
  lemma RepeatCounted<T>(s: seq<T>, i: nat, j: nat)
    requires i < j < |s| && s[i] == s[j]
    ensures multiset(s)[s[i]] >= 2
  {
    assert s == s[..j] + s[j..];
    assert s[i] in s[..j];
    assert s[j] == s[j..][0];
    assert multiset(s) == multiset(s[..j]) + multiset(s[j..]);
  }

  /** A sequence without repeats holds each element at most once in its multiset. */
  lemma {:induction false} DistinctCountedOnce<T>(s: seq<T>, x: T)
    requires Distinct(s)
    ensures multiset(s)[x] <= 1
  {
    if s != [] {
      var n := |s| - 1;
      assert s == s[..n] + [s[n]];
      assert Distinct(s[..n]);
      DistinctCountedOnce(s[..n], x);
      assert s[n] !in s[..n];
    }
  }

  /** No product has two lines among the sorted lines. */
  lemma LinesOnce(items: seq<SaleItem>)
    ensures Distinct(SortByQuantity(Lines(items, Names(items))))
  {
    var names := Names(items);
    var lines := Lines(items, names);
    var sorted := SortByQuantity(lines);
    assert Distinct(lines) by {
      forall i, j | 0 <= i < j < |lines|
        ensures lines[i] != lines[j]
      {
        assert lines[i].productName == names[i] && lines[j].productName == names[j];
      }
    }
    forall i, j | 0 <= i < j < |sorted|
      ensures sorted[i] != sorted[j]
    {
      if sorted[i] == sorted[j] {
        RepeatCounted(sorted, i, j);
        DistinctCountedOnce(lines, sorted[i]);
        assert false;
      }
    }
  }

  /** In a list sorted by units sold, the first n lines sold at least as many units as any
      line from position n on. */
  lemma TakeOutsells(sorted: seq<ProductSales>, n: nat, j: nat, top: seq<ProductSales>, q: int)
    requires SortedByQuantity(sorted) && n <= j < |sorted|
    requires top == Take(sorted, n) && sorted[j].quantitySold == q
    ensures forall k :: 0 <= k < |top| ==> top[k].quantitySold >= q
  {
  }

  /** A product that was sold has its grouped line somewhere in the sorted list. */
  lemma SoldLineAt(items: seq<SaleItem>, name: string) returns (j: nat)
    requires Sold(items, name)
    ensures var sorted := SortByQuantity(Lines(items, Names(items)));
      j < |sorted| && sorted[j].productName == name && sorted[j].quantitySold == QuantitySold(items, name)
  {
    var names := Names(items);
    var lines := Lines(items, names);
    var sorted := SortByQuantity(lines);
    var i :| 0 <= i < |names| && names[i] == name;
    assert lines[i].productName == name && lines[i].quantitySold == QuantitySold(items, name);
    assert lines[i] in multiset(sorted);
    j :| 0 <= j < |sorted| && sorted[j] == lines[i];
  }

  /** A line whose product is not named in the first ten lies beyond them. */
  lemma OutsideTake(sorted: seq<ProductSales>, top: seq<ProductSales>, j: nat)
    requires top == Take(sorted, 10) && j < |sorted|
    requires forall k :: 0 <= k < |top| ==> top[k].productName != sorted[j].productName
    ensures j >= 10
  {
    assert sorted[j] !in top;
  }

  /** Every product left out of the top ten sold no more units than any product in it. */
  lemma NoBetterSellerLeftOut(items: seq<SaleItem>, name: string)
    requires Sold(items, name)
    requires forall k :: 0 <= k < |TopProducts(items)| ==> TopProducts(items)[k].productName != name
    ensures forall k :: 0 <= k < |TopProducts(items)| ==> TopProducts(items)[k].quantitySold >= QuantitySold(items, name)
  {
    var sorted := SortByQuantity(Lines(items, Names(items)));
    var top := TopProducts(items);
    var j := SoldLineAt(items, name);
    assert top == Take(sorted, 10);
    OutsideTake(sorted, top, j);
    TakeOutsells(sorted, 10, j, top, QuantitySold(items, name));
  }
}
