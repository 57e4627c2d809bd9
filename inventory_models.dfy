/** The inventory records: stock movements (written once, never changed), low-stock alerts
    (their status changes as they are handled), stock counts and the items counted in them
    (an item's variance is recomputed whenever it is saved). */
module InventoryModels {
  import opened Common
  import opened ProductsModels

  /** The six kinds of movement. */
  datatype MovementType = Purchase | SaleMovement | Adjustment | Return | Damage | Transfer

  /** The value stored in `movement_type`. */
  function MovementName(t: MovementType): string {
    match t
    case Purchase => "purchase"
    case SaleMovement => "sale"
    case Adjustment => "adjustment"
    case Return => "return"
    case Damage => "damage"
    case Transfer => "transfer"
  }

  /** The choice field: one of the six stored names, or nothing. */
  function ParseMovementType(s: string): (r: Option<MovementType>)
    ensures r.Some? ==> MovementName(r.value) == s
  {
    if s == "purchase" then Some(Purchase)
    else if s == "sale" then Some(SaleMovement)
    else if s == "adjustment" then Some(Adjustment)
    else if s == "return" then Some(Return)
    else if s == "damage" then Some(Damage)
    else if s == "transfer" then Some(Transfer)
    else None
  }

  /** Every movement type's stored name is accepted back as that type. */
  lemma MovementNameRoundTrip(t: MovementType)
    ensures ParseMovementType(MovementName(t)) == Some(t)
  {
  }

  /** A stock movement row: the product, the signed quantity, the stock before and after it,
      a reference, notes and the user who recorded it. */
  datatype StockMovement = StockMovement(
    product: Product,
    movementType: MovementType,
    quantity: int,
    stockBefore: int,
    stockAfter: int,
    referenceNumber: string,
    notes: string,
    createdBy: nat)

  datatype AlertStatus = Active | Resolved | Ignored

  /** A low-stock alert. The stock and threshold it records are those of the moment it was
      raised; only its status and resolution change afterwards. */
  class StockAlert {
    const id: nat
    const product: Product
    const currentStock: int
    const threshold: int
    var status: AlertStatus
    var resolvedBy: Option<nat>
    var resolvedAt: Option<int>

    /** A new alert is active and unresolved. */
    constructor (id: nat, product: Product, currentStock: int, threshold: int)
      ensures this.id == id && this.product == product
      ensures this.currentStock == currentStock && this.threshold == threshold
      ensures status == Active && resolvedBy == None && resolvedAt == None
    {
      this.id := id;
      this.product := product;
      this.currentStock := currentStock;
      this.threshold := threshold;
      status := Active;
      resolvedBy := None;
      resolvedAt := None;
    }
  }

  datatype CountStatus = InProgress | CountCompleted | CountCancelled

  /** One product counted in a stock count. */
  class StockCountItem {
    const product: Product
    var systemQuantity: int
    var physicalQuantity: int
    var variance: int
    var notes: string

    /** A saved item: its variance is what was counted less what the system held. */
    predicate Saved()
      reads this
    {
      variance == physicalQuantity - systemQuantity
    }

    /** Creating an item saves it, so the variance is computed at once. */
    constructor (product: Product, systemQuantity: int, physicalQuantity: int, notes: string)
      ensures this.product == product && this.systemQuantity == systemQuantity
      ensures this.physicalQuantity == physicalQuantity && this.notes == notes
      ensures Saved()
    {
      this.product := product;
      this.systemQuantity := systemQuantity;
      this.physicalQuantity := physicalQuantity;
      this.notes := notes;
      variance := physicalQuantity - systemQuantity;
    }

    /** `save`: the variance is recomputed from the two quantities before the row is written;
        it is zero exactly when the count agrees with the system. */
    method Save()
      modifies this
      ensures Saved() && (variance == 0 <==> physicalQuantity == systemQuantity)
      ensures systemQuantity == old(systemQuantity) && physicalQuantity == old(physicalQuantity)
      ensures notes == old(notes)
    {
      variance := physicalQuantity - systemQuantity;
    }
  }

  /** A stock count and its items, in insertion order. */
  class StockCount {
    const id: nat
    const countNumber: string
    const description: string
    const startedBy: nat
    var status: CountStatus
    var completedBy: Option<nat>
    var completedAt: Option<int>
    var items: seq<StockCountItem>

    /** The stored state of a count: at most one item per product (the table is unique on
        count and product) and every item saved. */
    predicate Valid()
      reads this, items
    {
      (forall i, j :: 0 <= i < j < |items| ==> items[i].product != items[j].product)
      && (forall i :: 0 <= i < |items| ==> items[i].Saved())
    }

    /** A new count is in progress and holds no items. */
    constructor (id: nat, countNumber: string, description: string, startedBy: nat)
      ensures this.id == id && this.countNumber == countNumber
      ensures this.description == description && this.startedBy == startedBy
      ensures status == InProgress && completedBy == None && completedAt == None && items == []
      ensures Valid()
    {
      this.id := id;
      this.countNumber := countNumber;
      this.description := description;
      this.startedBy := startedBy;
      status := InProgress;
      completedBy := None;
      completedAt := None;
      items := [];
    }
  }
}
