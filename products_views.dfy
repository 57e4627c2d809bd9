/** The product endpoints beyond plain CRUD: lookup by barcode for the scanner, the low-stock
    list, and the guarded stock adjustment. The catalogue is a sequence of product objects. */
module ProductsViews {
  import opened Common
  import opened Js
  import opened Python
  import opened ProductsModels

  /** `by_barcode`: the active product with the barcode; None is the 404 response. */
  function ByBarcode(products: seq<Product>, barcode: string): (r: Option<Product>)
    reads products
    ensures r.Some? ==> r.value in products && r.value.barcode == barcode && r.value.isActive
    ensures r.None? ==> forall p :: p in products && p.barcode == barcode ==> !p.isActive
  {
    if products == [] then None
    else if products[0].barcode == barcode && products[0].isActive then Some(products[0])
    else ByBarcode(products[1..], barcode)
  }

  /** `low_stock`: the products (active or not) that are low on stock, in catalogue order. */
  function LowStock(products: seq<Product>): (r: seq<Product>)
    reads products
    ensures |r| <= |products|
    ensures forall p :: p in r ==> p in products && p.IsLowStock()
    ensures forall p :: p in products && p.IsLowStock() ==> p in r
  {
    if products == [] then []
    else (if products[0].IsLowStock() then [products[0]] else []) + LowStock(products[1..])
  }

  /** The response of `update_stock`. A value `int()` cannot convert at all (null, a list, an
      object) raises TypeError, which the view does not catch: a server error. */
  datatype StockUpdateResult = Updated(stock: int) | BadRequest(error: string) | ServerError

  /** What `update_stock` does to a stock level, given the request's `quantity` and
      `operation` members (None when absent: they default to 0 and 'add'). */
  function StockUpdate(stock: int, quantity: Option<Json>, operation: Option<Json>): (r: StockUpdateResult)
  {
    var q := Int(if quantity.None? then JNum(0) else quantity.value);
    var op := if operation.None? then JStr("add") else operation.value;
    match q
    case TypeError => ServerError
    case ValueError => BadRequest("Invalid quantity")
    case Converted(n) =>
      if op == JStr("add") then Updated(stock + n)
      else if op == JStr("subtract") then
        (if stock < n then BadRequest("Insufficient stock") else Updated(stock - n))
      else Updated(stock)
  }

  /** `update_stock` on a product row: the stock changes exactly as StockUpdate says, and
      only when the request is accepted. */
  method UpdateStock(product: Product, quantity: Option<Json>, operation: Option<Json>)
    returns (r: StockUpdateResult)
    modifies product
    ensures r == StockUpdate(old(product.stock), quantity, operation)
    ensures r.Updated? ==> product.stock == r.stock
    ensures !r.Updated? ==> product.stock == old(product.stock)
  {
    r := StockUpdate(product.stock, quantity, operation);
    if r.Updated? {
      product.stock := r.stock;
    }
  }

  /** 'add' raises the stock by the converted quantity, whatever its sign. */
  lemma AddAddsQuantity(stock: int, n: int)
    ensures StockUpdate(stock, Some(JNum(n)), Some(JStr("add"))) == Updated(stock + n)
    ensures StockUpdate(stock, Some(JNum(n)), None) == Updated(stock + n)
  {
  }

  /** 'subtract' is refused with the stock unchanged when it asks for more than there is, and
      otherwise lowers the stock by the quantity; it never takes a non-negative stock below
      zero. */
  lemma SubtractGuarded(stock: int, quantity: Option<Json>)
    ensures var r := StockUpdate(stock, quantity, Some(JStr("subtract")));
      var q := Int(if quantity.None? then JNum(0) else quantity.value);
      (q.Converted? && q.value > stock ==> r == BadRequest("Insufficient stock"))
      && (q.Converted? && q.value <= stock ==> r == Updated(stock - q.value))
      && (stock >= 0 && r.Updated? ==> r.stock >= 0)
  {
  }

  /** Any operation other than 'add' or 'subtract' accepts the request and leaves the stock as
      it was. */
  lemma UnknownOperationKeepsStock(stock: int, quantity: Option<Json>, op: Json)
    requires op != JStr("add") && op != JStr("subtract")
    ensures StockUpdate(stock, quantity, Some(op)).Updated? ==> StockUpdate(stock, quantity, Some(op)).stock == stock
  {
  }

  /** A quantity string that is not an integer is answered with 'Invalid quantity'; a numeric
      string is converted as Python's int() does. */
  lemma InvalidQuantityText(stock: int, s: string, op: Option<Json>)
    ensures ParseInt(s).None? ==> StockUpdate(stock, Some(JStr(s)), op) == BadRequest("Invalid quantity")
    ensures StockUpdate(stock, Some(JStr(IntToDecimal(stock))), Some(JStr("subtract"))) == Updated(0)
  {
    ParseIntOfDecimal(stock);
  }
}
