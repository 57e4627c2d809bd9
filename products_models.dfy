/** The product catalogue. A product row is an object: its stock is updated in place by
    sales, cancellations, stock movements, stock counts and the stock-update endpoint, and its
    other fields by the product edit form. Prices
    are integer cents; the tax rate is in hundredths of a percent (1600 is 16.00%). */
module ProductsModels {
  import opened Common
  import Money

  /** The default of `low_stock_threshold` for a new product. */
  const DefaultLowStockThreshold: int := 10

  /** The fields of a product other than its identity and its stock. */
  datatype ProductDetails = ProductDetails(name: string, barcode: string, price: int, costPrice: int, tax: int,
                                           lowStockThreshold: int, isActive: bool)

  class Product {
    const id: nat
    var name: string
    var barcode: string
    var price: int
    var costPrice: int
    var tax: int
    var lowStockThreshold: int
    var isActive: bool
    var stock: int

    constructor (id: nat, name: string, barcode: string, price: int, costPrice: int, tax: int,
                 stock: int, lowStockThreshold: int, isActive: bool)
      ensures this.id == id && this.name == name && this.barcode == barcode
      ensures this.price == price && this.costPrice == costPrice && this.tax == tax
      ensures this.stock == stock && this.lowStockThreshold == lowStockThreshold
      ensures this.isActive == isActive
    {
      this.id := id;
      this.name := name;
      this.barcode := barcode;
      this.price := price;
      this.costPrice := costPrice;
      this.tax := tax;
      this.stock := stock;
      this.lowStockThreshold := lowStockThreshold;
      this.isActive := isActive;
    }

    /** A product created without stock or threshold takes the field defaults (0 and 10),
        and is therefore low on stock from the start. */
    constructor WithDefaults(id: nat, name: string, barcode: string, price: int, costPrice: int,
                             tax: int, isActive: bool)
      ensures this.id == id && this.name == name && this.barcode == barcode
      ensures this.price == price && this.costPrice == costPrice && this.tax == tax
      ensures this.isActive == isActive
      ensures stock == 0 && lowStockThreshold == DefaultLowStockThreshold
      ensures IsLowStock()
    {
      this.id := id;
      this.name := name;
      this.barcode := barcode;
      this.price := price;
      this.costPrice := costPrice;
      this.tax := tax;
      this.stock := 0;
      this.lowStockThreshold := DefaultLowStockThreshold;
      this.isActive := isActive;
    }

    /** Every stored field but the stock. */
    function Details(): ProductDetails
      reads this
    {
      ProductDetails(name, barcode, price, costPrice, tax, lowStockThreshold, isActive)
    }

    /** `is_low_stock`: at or below the threshold (equality counts as low). */
    predicate IsLowStock()
      reads this
    {
      stock <= lowStockThreshold
    }

    /** `total_price` as the API renders it: the exact sum price + price × tax / 100 quantised
        once, as a whole, to two decimal places half-even. It lies within half a cent of the
        exact amount, and a tie goes to the even cent. */
    function TotalPrice(): (r: int)
      reads this
      ensures -5000 <= 10000 * r - (10000 * price + price * tax) <= 5000
      ensures 10000 * r - (10000 * price + price * tax) in {5000, -5000} ==> r % 2 == 0
    {
      Money.RoundHalfEven(10000 * price + price * tax, 10000)
    }
  }

  /** `Product.objects.get(id=...)`: the product with the given primary key. */
  function FindProduct(products: seq<Product>, id: nat): (r: Option<Product>)
    reads products
    ensures r.Some? ==> r.value in products && r.value.id == id
    ensures r.None? ==> forall p :: p in products ==> p.id != id
  {
    if products == [] then None
    else if products[0].id == id then Some(products[0])
    else FindProduct(products[1..], id)
  }

  /** A price never drops when a non-negative tax is added, and is unchanged without tax. */
  lemma TotalPriceAtLeastPrice(p: Product)
    requires p.price >= 0 && p.tax >= 0
    ensures p.TotalPrice() >= p.price
    ensures p.tax == 0 ==> p.TotalPrice() == p.price
  {
  }

  /** Unless the exact tax ends in exactly half a cent, the rendered total price is the price
      plus the tax rounded on its own. */
  lemma TotalPriceSplits(p: Product)
    requires 2 * ((p.price * p.tax) % 10000) != 10000
    ensures p.TotalPrice() == p.price + Money.RoundHalfEven(p.price * p.tax, 10000)
  {
    Money.RoundShift(p.price, p.price * p.tax, 10000);
  }
}
