/** Recording a stock movement: the quantity's sign is set by the movement type, the product's
    stock moves by the quantity, and a low-stock alert is raised when the product ends at or
    below its threshold and has no active alert yet. */
module InventorySerializers {
  import opened Common
  import opened Js
  import opened ProductsModels
  import opened InventoryModels

  /** The raw `movement_type` of the request is one that takes stock out. */
  predicate TakesStockOut(movementType: Option<Json>) {
    movementType == Some(JStr("sale")) || movementType == Some(JStr("damage"))
    || movementType == Some(JStr("transfer"))
  }

  /** The raw `movement_type` of the request is one that brings stock in. */
  predicate BringsStockIn(movementType: Option<Json>) {
    movementType == Some(JStr("purchase")) || movementType == Some(JStr("return"))
  }

  function Abs(n: int): (r: int)
    ensures r >= 0 && (r == n || r == -n)
  {
    if n < 0 then -n else n
  }

  /** `validate_quantity`, given the request's raw movement type: a positive quantity of an
      outgoing movement is negated, a negative quantity of an incoming movement is made
      positive, and any other quantity or type passes unchanged. */
  function NormalizeQuantity(movementType: Option<Json>, value: int): (r: int)
    ensures TakesStockOut(movementType) ==> r == -Abs(value) && r <= 0
    ensures BringsStockIn(movementType) ==> r == Abs(value) && r >= 0
    ensures !TakesStockOut(movementType) && !BringsStockIn(movementType) ==> r == value
    ensures Abs(r) == Abs(value)
  {
    if TakesStockOut(movementType) && value > 0 then -Abs(value)
    else if BringsStockIn(movementType) && value < 0 then Abs(value)
    else value
  }

  /** Normalising twice changes nothing more than normalising once. */
  lemma NormalizeIdempotent(movementType: Option<Json>, value: int)
    ensures NormalizeQuantity(movementType, NormalizeQuantity(movementType, value)) == NormalizeQuantity(movementType, value)
  {
  }

  /** Every movement type the choice field accepts is sorted the same way by its stored
      name: sales, damage and transfers take stock out, purchases and returns bring it in,
      adjustments are taken as given. */
  lemma NormalizeByType(t: MovementType, value: int)
    ensures (t == SaleMovement || t == Damage || t == Transfer) ==>
      NormalizeQuantity(Some(JStr(MovementName(t))), value) == -Abs(value)
    ensures (t == Purchase || t == Return) ==> NormalizeQuantity(Some(JStr(MovementName(t))), value) == Abs(value)
    ensures t == Adjustment ==> NormalizeQuantity(Some(JStr(MovementName(t))), value) == value
  {
  }

  /** Some alert of the table is active for the product. */
  predicate HasActiveAlert(alerts: seq<StockAlert>, product: Product)
    reads alerts
  {
    exists k :: 0 <= k < |alerts| && alerts[k].product == product && alerts[k].status == Active
  }

  /** The validated request of `StockMovementCreateSerializer`; the quantity is already
      normalised. */
  datatype MovementInput = MovementInput(
    product: Product,
    movementType: MovementType,
    quantity: int,
    referenceNumber: string,
    notes: string)

  /** `StockMovementCreateSerializer.create`: the movement records the stock before and after,
      the product's stock becomes the stock after, and an alert recording the new stock and
      the threshold is raised exactly when the product is now low on stock and none of its
      alerts is active. Nothing else about the product changes. */
  method CreateMovement(input: MovementInput, user: nat, alerts: seq<StockAlert>, alertId: nat)
    returns (movement: StockMovement, alert: Option<StockAlert>)
    modifies input.product
    ensures movement == StockMovement(input.product, input.movementType, input.quantity, old(input.product.stock),
                                      old(input.product.stock) + input.quantity, input.referenceNumber, input.notes, user)
    ensures input.product.stock == movement.stockAfter
    ensures movement.stockAfter - movement.stockBefore == movement.quantity
    ensures alert.Some? <==> (input.product.IsLowStock() && !HasActiveAlert(alerts, input.product))
    ensures alert.Some? ==>
      fresh(alert.value) && alert.value.product == input.product && alert.value.status == Active
      && alert.value.currentStock == input.product.stock && alert.value.threshold == input.product.lowStockThreshold
    ensures input.product.lowStockThreshold == old(input.product.lowStockThreshold)
    ensures input.product.price == old(input.product.price) && input.product.costPrice == old(input.product.costPrice)
    ensures input.product.name == old(input.product.name) && input.product.isActive == old(input.product.isActive)
    ensures input.product.barcode == old(input.product.barcode) && input.product.tax == old(input.product.tax)
  {
    var product := input.product;
    var stockBefore := product.stock;
    var stockAfter := stockBefore + input.quantity;
    movement := StockMovement(product, input.movementType, input.quantity, stockBefore, stockAfter,
                              input.referenceNumber, input.notes, user);
    product.stock := stockAfter;
    if product.IsLowStock() && !HasActiveAlert(alerts, product) {
      var a := new StockAlert(alertId, product, product.stock, product.lowStockThreshold);
      alert := Some(a);
    } else {
      alert := None;
    }
  }
}
