/** The alert actions (resolve, ignore, the active list) and the stock count actions (start a
    count, add a counted product, complete the count and apply its adjustments). */
module InventoryViews {
  import opened Common
  import opened Python
  import opened Stamps
  import opened ProductsModels
  import opened InventoryModels

  datatype ActionResult = Done | Rejected(error: string)

  /** `resolve`: an alert already resolved is refused and left alone; any other alert, an
      ignored one included, is resolved by the user at the given time. */
  method Resolve(alert: StockAlert, user: nat, now: int) returns (r: ActionResult)
    modifies alert
    ensures old(alert.status) == Resolved ==> r == Rejected("Alert is already resolved") && unchanged(alert)
    ensures old(alert.status) != Resolved ==>
      r == Done && alert.status == Resolved && alert.resolvedBy == Some(user) && alert.resolvedAt == Some(now)
  {
    if alert.status == Resolved {
      return Rejected("Alert is already resolved");
    }
    alert.status := Resolved;
    alert.resolvedBy := Some(user);
    alert.resolvedAt := Some(now);
    r := Done;
  }

  /** `ignore`: whatever its status, a resolved one included, the alert becomes ignored; a
      resolution already recorded stays recorded. */
  method Ignore(alert: StockAlert)
    modifies alert
    ensures alert.status == Ignored
    ensures alert.resolvedBy == old(alert.resolvedBy) && alert.resolvedAt == old(alert.resolvedAt)
  {
    alert.status := Ignored;
  }

  /** `active`: the alerts, in order, whose status is active. */
  function ActiveAlerts(alerts: seq<StockAlert>): (r: seq<StockAlert>)
    reads alerts
    ensures |r| <= |alerts|
    ensures forall k :: 0 <= k < |r| ==> r[k] in alerts && r[k].status == Active
    ensures forall k :: 0 <= k < |alerts| && alerts[k].status == Active ==> alerts[k] in r
  {
    if alerts == [] then []
    else
      var rest := ActiveAlerts(alerts[..|alerts| - 1]);
      var a := alerts[|alerts| - 1];
      if a.status == Active then rest + [a] else rest
  }

  /** The filter keeps the table's order (newest first) and takes each alert once: the
      active alerts of two runs of alerts are those of the first followed by those of the
      second, and a single alert is kept exactly when it is active. */
  lemma {:induction false} ActiveAlertsKeepOrder(a: seq<StockAlert>, b: seq<StockAlert>)
    ensures ActiveAlerts(a + b) == ActiveAlerts(a) + ActiveAlerts(b)
    ensures forall x :: ActiveAlerts([x]) == if x.status == Active then [x] else []
  {
    forall x
      ensures ActiveAlerts([x]) == if x.status == Active then [x] else []
    {
      ActiveAlertsLast([x]);
      assert [x][..0] == [];
    }
    ActiveAlertsAppend(a, b);
  }

  lemma {:induction false} ActiveAlertsAppend(a: seq<StockAlert>, b: seq<StockAlert>)
    ensures ActiveAlerts(a + b) == ActiveAlerts(a) + ActiveAlerts(b)
    decreases |b|
  {
    if b == [] {
      assert a + b == a;
    } else {
      var n := |b| - 1;
      var ab := a + b;
      assert ab[..|ab| - 1] == a + b[..n];
      assert ab[|ab| - 1] == b[n];
      ActiveAlertsAppend(a, b[..n]);
      ActiveAlertsLast(ab);
      ActiveAlertsLast(b);
    }
  }

  lemma ActiveAlertsLast(s: seq<StockAlert>)
    requires s != []
    ensures ActiveAlerts(s)
      == if s[|s| - 1].status == Active then ActiveAlerts(s[..|s| - 1]) + [s[|s| - 1]] else ActiveAlerts(s[..|s| - 1])
  {
  }

  /** The positions of the active alerts. */
  function ActiveIndices(alerts: seq<StockAlert>): set<int>
    reads alerts
  {
    set k | 0 <= k < |alerts| && alerts[k].status == Active
  }

  /** There are as many active alerts listed as there are active alerts in the table. */
  lemma {:induction false} ActiveAlertsCount(alerts: seq<StockAlert>)
    ensures |ActiveAlerts(alerts)| == |ActiveIndices(alerts)|
  {
    if alerts != [] {
      var n := |alerts| - 1;
      ActiveAlertsCount(alerts[..n]);
      ActiveAlertsLast(alerts);
      ActiveIndicesLast(alerts);
    }
  }

  /** The active positions of a run are those of the run without its last alert, and the
      last position when that alert is active. */
  lemma ActiveIndicesLast(alerts: seq<StockAlert>)
    requires alerts != []
    ensures var n := |alerts| - 1;
      ActiveIndices(alerts) == ActiveIndices(alerts[..n]) + (if alerts[n].status == Active then {n} else {})
      && n !in ActiveIndices(alerts[..n])
  {
    var n := |alerts| - 1;
    var init := alerts[..n];
    assert forall k :: 0 <= k < n ==> alerts[k] == init[k];
  }

  /** `create` of a stock count: the number is "COUNT-<date>-<six upper-case hex digits>" and
      the description defaults to ''. A description given as null cannot be stored, and no
      count is created. */
  method CreateCount(id: nat, clock: DateTime, uuidHex: string, description: Option<Scalar>, user: nat)
    returns (count: Option<StockCount>)
    requires ValidDateTime(clock) && UuidHex(uuidHex)
    ensures count.Some? <==> Get(description, PyStr("")) != PyNone
    ensures count.Some? ==>
      fresh(count.value) && count.value.countNumber == CountNumber(clock, uuidHex)
      && count.value.description == ColumnText(Get(description, PyStr(""))).value
      && count.value.startedBy == user && count.value.status == InProgress && count.value.items == []
      && count.value.Valid()
  {
    var text := ColumnText(Get(description, PyStr("")));
    if text.None? {
      return None;
    }
    var c := new StockCount(id, CountNumber(clock, uuidHex), text.value, user);
    count := Some(c);
  }

  /** `int(v)` of a request scalar, as the primary-key lookup applies it. */
  function ScalarInt(v: Scalar): (r: IntConversion)
    ensures v.PyInt? ==> r == Converted(v.i)
    ensures v.PyNone? ==> r == TypeError
  {
    match v
    case PyInt(i) => Converted(i)
    case PyBool(b) => Converted(if b then 1 else 0)
    case PyStr(s) => (match ParseInt(s) case Some(n) => Converted(n) case None => ValueError)
    case PyNone => TypeError
  }

  datatype Lookup = Found(product: Product) | Missing | LookupFailed

  /** `Product.objects.get(id=product_id)`: a missing or null id matches no product; an id
      that is no integer makes the query itself fail. */
  function LookupProduct(products: seq<Product>, productId: Option<Scalar>): (r: Lookup)
    reads products
    ensures r.Found? ==>
      (r.product in products && productId.Some? && ScalarInt(productId.value) == Converted(r.product.id))
    ensures (productId.None? || productId == Some(PyNone)) ==> r == Missing
    ensures productId.Some? && productId.value.PyInt? && productId.value.i >= 0 ==>
      (r.Found? <==> FindProduct(products, productId.value.i).Some?)
  {
    if productId.None? || productId.value.PyNone? then Missing
    else match ScalarInt(productId.value)
      case Converted(n) =>
        if n >= 0 && FindProduct(products, n).Some? then Found(FindProduct(products, n).value) else Missing
      case _ => LookupFailed
  }

  /** The counted quantity as the item's `save` can use it: an integer (a boolean counts as 0
      or 1); a string or null makes the variance subtraction raise. */
  function CountedQuantity(v: Option<Scalar>): (r: Option<int>)
    ensures (v.None? || v == Some(PyNone)) ==> r.None?
    ensures v.Some? && v.value.PyInt? ==> r == Some(v.value.i)
  {
    match v
    case Some(PyInt(i)) => Some(i)
    case Some(PyBool(b)) => Some(if b then 1 else 0)
    case _ => None
  }

  /** The position of the product's item in a count's items, if it has one. */
  function FindItem(items: seq<StockCountItem>, product: Product): (r: Option<nat>)
    ensures r.Some? ==> r.value < |items| && items[r.value].product == product
    ensures r.None? ==> forall k :: 0 <= k < |items| ==> items[k].product != product
  {
    if items == [] then None
    else if items[|items| - 1].product == product then Some(|items| - 1)
    else FindItem(items[..|items| - 1], product)
  }

  datatype AddItemResponse =
    | ItemCreated(item: StockCountItem)
    | ItemUpdated(item: StockCountItem)
    | AddBadRequest(error: string)
    | AddNotFound(error: string)
    | AddServerError

  /** `add_item`. Only a count in progress takes items, and the product must exist. The item
      for that product is created, or updated when the count already has one: its system
      quantity is the product's present stock, its counted quantity and notes are the
      request's, and its variance is recomputed. A count never holds two items for one
      product. A request whose quantity or notes cannot be saved changes nothing. */
  method AddItem(count: StockCount, products: seq<Product>, productId: Option<Scalar>,
                 physicalQuantity: Option<Scalar>, notes: Option<Scalar>) returns (r: AddItemResponse)
    requires count.Valid()
    modifies count, count.items
    ensures count.Valid()
    ensures old(count.status) != InProgress ==> r == AddBadRequest("Can only add items to in-progress counts")
    ensures old(count.status) == InProgress && LookupProduct(products, productId) == Missing ==>
      r == AddNotFound("Product not found")
    ensures (old(count.status) == InProgress
             && (LookupProduct(products, productId) == LookupFailed
                 || (LookupProduct(products, productId).Found?
                     && (CountedQuantity(physicalQuantity).None? || ColumnText(Get(notes, PyStr(""))).None?)))) ==>
      r == AddServerError
    ensures !(r.ItemCreated? || r.ItemUpdated?) ==> count.items == old(count.items) && unchanged(old(count.items))
    ensures r.ItemCreated? || r.ItemUpdated? ==>
      (LookupProduct(products, productId).Found?
       && r.item.product == LookupProduct(products, productId).product
       && r.item.systemQuantity == r.item.product.stock
       && Some(r.item.physicalQuantity) == CountedQuantity(physicalQuantity)
       && Some(r.item.notes) == ColumnText(Get(notes, PyStr("")))
       && r.item.variance == r.item.physicalQuantity - r.item.systemQuantity
       && FindItem(count.items, r.item.product).Some?
       && count.items[FindItem(count.items, r.item.product).value] == r.item)
    ensures r.ItemCreated? ==>
      FindItem(old(count.items), r.item.product).None? && fresh(r.item) && count.items == old(count.items) + [r.item]
    ensures r.ItemUpdated? ==> FindItem(old(count.items), r.item.product).Some? && count.items == old(count.items)
    ensures r.ItemUpdated? ==> forall k :: 0 <= k < |count.items| && count.items[k] != r.item ==> unchanged(count.items[k])
    ensures count.status == old(count.status)
  {
    if count.status != InProgress {
      return AddBadRequest("Can only add items to in-progress counts");
    }
    var lookup := LookupProduct(products, productId);
    if lookup.Missing? {
      return AddNotFound("Product not found");
    }
    if lookup.LookupFailed? {
      return AddServerError;
    }
    var product := lookup.product;
    var quantity := CountedQuantity(physicalQuantity);
    var text := ColumnText(Get(notes, PyStr("")));
    if quantity.None? || text.None? {
      return AddServerError;
    }
    var at := FindItem(count.items, product);
    if at.Some? {
      var item := Recount(count, at.value, quantity.value, text.value);
      r := ItemUpdated(item);
    } else {
      var item := AppendItem(count, product, quantity.value, text.value);
      r := ItemCreated(item);
    }
  }

  /** The update branch of `add_item`: the product's item takes the present stock as its
      system quantity and the request's count and notes, and is saved. */
  method Recount(count: StockCount, at: nat, physicalQuantity: int, notes: string) returns (item: StockCountItem)
    requires count.Valid() && at < |count.items|
    modifies count.items[at]
    ensures item == count.items[at] && count.Valid()
    ensures item.systemQuantity == item.product.stock && item.physicalQuantity == physicalQuantity
    ensures item.notes == notes && item.variance == physicalQuantity - item.systemQuantity
    ensures forall k :: 0 <= k < |count.items| && count.items[k] != item ==> unchanged(count.items[k])
  {
    item := count.items[at];
    item.systemQuantity := item.product.stock;
    item.physicalQuantity := physicalQuantity;
    item.notes := notes;
    item.Save();
  }

  /** The create branch of `add_item`: a new saved item for a product the count does not hold
      yet goes at the end of the count. */
  method AppendItem(count: StockCount, product: Product, physicalQuantity: int, notes: string) returns (item: StockCountItem)
    requires count.Valid() && FindItem(count.items, product).None?
    modifies count
    ensures fresh(item) && count.items == old(count.items) + [item] && count.Valid()
    ensures item.product == product && item.systemQuantity == product.stock && item.physicalQuantity == physicalQuantity
    ensures item.notes == notes && item.variance == physicalQuantity - item.systemQuantity
    ensures count.status == old(count.status) && count.completedBy == old(count.completedBy)
    ensures count.completedAt == old(count.completedAt)
  {
    item := new StockCountItem(product, product.stock, physicalQuantity, notes);
    count.items := count.items + [item];
  }

  function ProductsOf(items: seq<StockCountItem>): set<Product>
    reads items
  {
    set k | 0 <= k < |items| :: items[k].product
  }

  /** The adjustment movement `complete` writes for an item that shows a variance. */
  function AdjustmentFor(item: StockCountItem, countNumber: string, user: nat): StockMovement
    reads item
  {
    StockMovement(item.product, Adjustment, item.variance, item.systemQuantity, item.physicalQuantity, countNumber,
                  "Stock count adjustment: " + item.notes, user)
  }

  /** The movements `complete` writes: one adjustment per item with a variance, in order. */
  function Adjustments(items: seq<StockCountItem>, countNumber: string, user: nat): seq<StockMovement>
    reads items
  {
    if items == [] then []
    else
      var last := items[|items| - 1];
      Adjustments(items[..|items| - 1], countNumber, user)
      + (if last.variance != 0 then [AdjustmentFor(last, countNumber, user)] else [])
  }

  /** Every adjustment of a count of saved items moves stock by a non-zero quantity, from the
      system quantity to the counted one. */
  lemma {:induction false} AdjustmentsConsistent(items: seq<StockCountItem>, countNumber: string, user: nat)
    requires forall k :: 0 <= k < |items| ==> items[k].Saved()
    ensures forall m :: m in Adjustments(items, countNumber, user) ==>
      m.movementType == Adjustment && m.quantity != 0 && m.stockAfter - m.stockBefore == m.quantity
      && m.product in ProductsOf(items)
  {
    if items != [] {
      var init := items[..|items| - 1];
      AdjustmentsConsistent(init, countNumber, user);
      assert ProductsOf(init) <= ProductsOf(items) by {
        forall p | p in ProductsOf(init)
          ensures p in ProductsOf(items)
        {
          var k :| 0 <= k < |init| && init[k].product == p;
          assert items[k].product == p;
        }
      }
      assert items[|items| - 1].product in ProductsOf(items);
    }
  }

  /** One pass of the loop of `complete`: an item with a variance writes its adjustment and
      sets its product's stock to the counted quantity; an item without one does nothing. */
  method ApplyItem(item: StockCountItem, countNumber: string, user: nat) returns (written: seq<StockMovement>)
    modifies item.product
    ensures written == if item.variance != 0 then [AdjustmentFor(item, countNumber, user)] else []
    ensures item.product.stock == if item.variance != 0 then item.physicalQuantity else old(item.product.stock)
    ensures item.product.Details() == old(item.product.Details())
  {
    written := [];
    if item.variance != 0 {
      written := [AdjustmentFor(item, countNumber, user)];
      item.product.stock := item.physicalQuantity;
    }
  }

  /** One turn of the loop of `complete`: only the product of item `i` can change. */
  method ApplyStep(items: seq<StockCountItem>, i: nat, countNumber: string, user: nat) returns (written: seq<StockMovement>)
    requires i < |items|
    requires forall a, b :: 0 <= a < b < |items| ==> items[a].product != items[b].product
    modifies items[i].product
    ensures written == if items[i].variance != 0 then [AdjustmentFor(items[i], countNumber, user)] else []
    ensures forall k :: 0 <= k < |items| ==>
      items[k].product.stock == (if k == i && items[i].variance != 0 then items[i].physicalQuantity else old(items[k].product.stock))
      && items[k].product.Details() == old(items[k].product.Details())
  {
    written := ApplyItem(items[i], countNumber, user);
    assert forall k :: 0 <= k < |items| && k != i ==> items[k].product != items[i].product;
  }

  /** The loop of `complete`: every item with a variance writes its adjustment and sets its
      product's stock to the counted quantity; an item without one leaves its product alone,
      even when the stock has moved since it was counted. No other field of a product changes. */
  method ApplyCount(items: seq<StockCountItem>, countNumber: string, user: nat) returns (movements: seq<StockMovement>)
    requires forall i, j :: 0 <= i < j < |items| ==> items[i].product != items[j].product
    modifies ProductsOf(items)
    ensures movements == Adjustments(items, countNumber, user)
    ensures forall k :: 0 <= k < |items| ==>
      items[k].product.stock == (if items[k].variance != 0 then items[k].physicalQuantity else old(items[k].product.stock))
    ensures forall k :: 0 <= k < |items| ==> items[k].product.Details() == old(items[k].product.Details())
  {
    movements := [];
    var i := 0;
    while i < |items|
      invariant 0 <= i <= |items|
      invariant movements == Adjustments(items[..i], countNumber, user)
      invariant forall k :: 0 <= k < |items| ==>
        items[k].product.stock == (if k < i && items[k].variance != 0 then items[k].physicalQuantity else old(items[k].product.stock))
        && items[k].product.Details() == old(items[k].product.Details())
    {
      assert items[..i + 1][..i] == items[..i];
      assert items[i].product in ProductsOf(items);
      var written := ApplyStep(items, i, countNumber, user);
      movements := movements + written;
      i := i + 1;
    }
    assert items[..|items|] == items;
  }

  /** `complete`. A count not in progress is refused and nothing changes. Otherwise the
      adjustments are applied and the count is completed by the user at the given time. */
  method Complete(count: StockCount, user: nat, now: int) returns (r: ActionResult, movements: seq<StockMovement>)
    requires count.Valid()
    modifies count, ProductsOf(count.items)
    ensures count.items == old(count.items)
    ensures old(count.status) != InProgress ==>
      r == Rejected("Stock count is not in progress") && movements == [] && unchanged(count)
      && forall p :: p in ProductsOf(count.items) ==> unchanged(p)
    ensures old(count.status) == InProgress ==>
      r == Done && count.status == CountCompleted && count.completedBy == Some(user) && count.completedAt == Some(now)
      && movements == Adjustments(count.items, count.countNumber, user)
      && (forall k :: 0 <= k < |count.items| ==>
            count.items[k].product.stock ==
              (if count.items[k].variance != 0 then count.items[k].physicalQuantity
               else old(count.items[k].product.stock)))
      && (forall k :: 0 <= k < |count.items| ==> count.items[k].product.Details() == old(count.items[k].product.Details()))
    ensures old(count.status) == InProgress ==>
      forall k :: 0 <= k < |count.items| && old(count.items[k].product.stock) == count.items[k].systemQuantity ==>
        count.items[k].product.stock == count.items[k].physicalQuantity
  {
    if count.status != InProgress {
      return Rejected("Stock count is not in progress"), [];
    }
    movements := ApplyCount(count.items, count.countNumber, user);
    count.status := CountCompleted;
    count.completedBy := Some(user);
    count.completedAt := Some(now);
    r := Done;
  }
}
