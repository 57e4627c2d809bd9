/** The checkout page: the cart of product lines, the stock checks made as lines are added
    or changed, the running total, and the sale sent once payment is complete.

    The page reads a product's stock from its `stock_quantity` member, which the product API
    does not send (it sends `stock`), so the page's stock checks compare with `undefined`
    and never refuse anything. `StockField` names the member read: `StockQuantity` models
    the page as written, `Stock` the page reading the member the API sends. */
module PosCheckout {
  import opened Common
  import opened Js
  import ApiClient

  /** A product as the API returns it; the price is in cents. */
  datatype Product = Product(id: int, name: string, price: int, stock: int)

  datatype StockField = StockQuantity | Stock

  /** The stock the page reads from a product: `undefined` for `stock_quantity`, a member
      the API does not send. */
  function Limit(p: Product, field: StockField): (r: Option<int>)
    ensures r.Some? <==> field == Stock
    ensures r.Some? ==> r.value == p.stock
  {
    match field
    case StockQuantity => None
    case Stock => Some(p.stock)
  }

  /** `x > limit`, false when the limit is undefined. */
  predicate Exceeds(x: int, limit: Option<int>) {
    limit.Some? && x > limit.value
  }

  /** A cart line: the product as it was when added, and the quantity. */
  datatype Line = Line(item: Product, quantity: int)

  /** The cart total: the sum of price times quantity over the lines. */
  /** What a line adds to the total: its price times its quantity. */
  function Amount(l: Line): int {
    l.item.price * l.quantity
  }

  function Total(cart: seq<Line>): int {
    if cart == [] then 0
    else Total(cart[..|cart| - 1]) + cart[|cart| - 1].item.price * cart[|cart| - 1].quantity
  }

  /** No two lines are for the same product. */
  predicate UniqueIds(cart: seq<Line>) {
    cart == [] ||
    (UniqueIds(cart[..|cart| - 1]) && forall k :: 0 <= k < |cart| - 1 ==> cart[k].item.id != cart[|cart| - 1].item.id)
  }

  /** Line by line, one line per product means no two lines share a product. */
  lemma {:induction false} UniquePairs(cart: seq<Line>)
    requires UniqueIds(cart)
    ensures forall i, j :: 0 <= i < j < |cart| ==> cart[i].item.id != cart[j].item.id
  {
    if cart != [] {
      var init := cart[..|cart| - 1];
      UniquePairs(init);
      forall i, j | 0 <= i < j < |cart| ensures cart[i].item.id != cart[j].item.id {
        if j < |init| {
          assert cart[i] == init[i] && cart[j] == init[j];
        }
      }
    }
  }

  lemma {:induction false} PairsUnique(cart: seq<Line>)
    requires forall i, j :: 0 <= i < j < |cart| ==> cart[i].item.id != cart[j].item.id
    ensures UniqueIds(cart)
  {
    if cart != [] {
      var init := cart[..|cart| - 1];
      forall i, j | 0 <= i < j < |init| ensures init[i].item.id != init[j].item.id {
        assert init[i] == cart[i] && init[j] == cart[j];
      }
      PairsUnique(init);
    }
  }

  /** Every line holds at least one unit and no more than the product's stock. */
  predicate WellStocked(cart: seq<Line>) {
    forall k :: 0 <= k < |cart| ==> 1 <= cart[k].quantity <= cart[k].item.stock
  }

  /** `cart.find(item => item.id === id)`, as the index of the line found. */
  function Find(cart: seq<Line>, id: int): (r: Option<nat>)
    ensures r.Some? ==> r.value < |cart| && cart[r.value].item.id == id
    ensures r.Some? ==> forall j :: 0 <= j < r.value ==> cart[j].item.id != id
    ensures r.None? <==> forall j :: 0 <= j < |cart| ==> cart[j].item.id != id
  {
    if cart == [] then None
    else if cart[0].item.id == id then Some(0)
    else
      var rest := Find(cart[1..], id);
      if rest.Some? then Some(rest.value + 1) else None
  }

  /** `cart.map(...)`: the product's line takes the new quantity, every other line stays. */
  function SetQuantity(cart: seq<Line>, id: int, n: int): (r: seq<Line>)
    ensures |r| == |cart|
    ensures forall k :: 0 <= k < |cart| ==>
      r[k] == (if cart[k].item.id == id then cart[k].(quantity := n) else cart[k])
  {
    seq(|cart|, k requires 0 <= k < |cart| => if cart[k].item.id == id then cart[k].(quantity := n) else cart[k])
  }

  /** `cart.filter(item => item.id !== id)`. */
  function Remove(cart: seq<Line>, id: int): (r: seq<Line>)
    ensures |r| <= |cart|
    ensures forall k :: 0 <= k < |r| ==> r[k].item.id != id
  {
    if cart == [] then []
    else
      var last := cart[|cart| - 1];
      Remove(cart[..|cart| - 1], id) + (if last.item.id != id then [last] else [])
  }

  /** The filter keeps only lines of the cart, and every line of another product. */
  lemma {:induction false} RemoveMembers(cart: seq<Line>, id: int)
    ensures forall k :: 0 <= k < |Remove(cart, id)| ==> Remove(cart, id)[k] in cart
    ensures forall k :: 0 <= k < |cart| && cart[k].item.id != id ==> cart[k] in Remove(cart, id)
  {
    if cart != [] {
      var init := cart[..|cart| - 1];
      var last := cart[|cart| - 1];
      RemoveMembers(init, id);
      var r := Remove(init, id);
      var tail := if last.item.id != id then [last] else [];
      assert Remove(cart, id) == r + tail;
      forall k | 0 <= k < |r + tail| ensures (r + tail)[k] in cart {
        if k < |r| {
          assert (r + tail)[k] == r[k];
          var j :| 0 <= j < |init| && init[j] == r[k];
          assert cart[j] == init[j];
        } else {
          assert (r + tail)[k] == last == cart[|cart| - 1];
        }
      }
      forall k | 0 <= k < |cart| && cart[k].item.id != id ensures cart[k] in r + tail {
        if k < |init| {
          assert cart[k] == init[k];
          var j :| 0 <= j < |r| && r[j] == init[k];
          assert (r + tail)[j] == r[j];
        } else {
          assert (r + tail)[|r|] == last;
        }
      }
    }
  }

  /** A new cart, the error toast shown if any, and whether the product search was
      cleared. */
  datatype Change = Change(cart: seq<Line>, toast: Option<string>, cleared: bool)

  /** `updateQuantity` on a product in the cart: a quantity above the line's stock is
      refused; a quantity of zero or less removes the line; otherwise the line takes it.
      The stock test comes first. */
  function UpdateQuantity(cart: seq<Line>, id: int, n: int, field: StockField): (c: Change)
    requires Find(cart, id).Some?
    ensures !c.cleared
    ensures c.toast.Some? <==> Exceeds(n, Limit(cart[Find(cart, id).value].item, field))
    ensures c.toast.Some? ==> c.toast == Some("Insufficient stock") && c.cart == cart
    ensures c.toast.None? && n <= 0 ==> c.cart == Remove(cart, id)
    ensures c.toast.None? && n > 0 ==> c.cart == SetQuantity(cart, id, n)
  {
    var line := cart[Find(cart, id).value];
    if Exceeds(n, Limit(line.item, field)) then Change(cart, Some("Insufficient stock"), false)
    else if n <= 0 then Change(Remove(cart, id), None, false)
    else Change(SetQuantity(cart, id, n), None, false)
  }

  /** `addToCart`: a product with no stock is refused; a product already in the cart whose
      line holds its whole stock is refused; otherwise its line goes up by one, or a new
      line of one is added at the end. The search is cleared unless the product was
      refused here (a refusal by the update keeps the clearing). */
  function AddToCart(cart: seq<Line>, p: Product, field: StockField): (c: Change)
    ensures Limit(p, field).Some? && Limit(p, field).value <= 0 ==>
      c == Change(cart, Some("Product out of stock"), false)
    ensures Find(cart, p.id).None? && !(Limit(p, field).Some? && Limit(p, field).value <= 0) ==>
      c == Change(cart + [Line(p, 1)], None, true)
    ensures Find(cart, p.id).Some? && Limit(p, field).Some? && 0 < Limit(p, field).value <= cart[Find(cart, p.id).value].quantity ==>
      c == Change(cart, Some("Insufficient stock"), false)
    ensures c.toast.None? ==> c.cleared
  {
    if Limit(p, field).Some? && Limit(p, field).value <= 0 then Change(cart, Some("Product out of stock"), false)
    else
      var existing := Find(cart, p.id);
      if existing.Some? then
        var q := cart[existing.value].quantity;
        if Limit(p, field).Some? && q >= Limit(p, field).value then Change(cart, Some("Insufficient stock"), false)
        else
          var u := UpdateQuantity(cart, p.id, q + 1, field);
          Change(u.cart, u.toast, true)
      else Change(cart + [Line(p, 1)], None, true)
  }

  /** A product already in the cart, below its stock both now and when it was added, gets
      exactly one more unit, and no other line changes. */
  lemma AddExistingIncrements(cart: seq<Line>, p: Product)
    requires Find(cart, p.id).Some?
    requires var i := Find(cart, p.id).value;
      cart[i].quantity < p.stock && cart[i].quantity + 1 <= cart[i].item.stock && cart[i].quantity + 1 > 0
    ensures var i := Find(cart, p.id).value;
      AddToCart(cart, p, Stock) == Change(SetQuantity(cart, p.id, cart[i].quantity + 1), None, true)
  {
  }

  /** Adding, changing and removing keep one line per product, whichever member is read. */
  lemma {:induction false} RemoveKeepsUnique(cart: seq<Line>, id: int)
    requires UniqueIds(cart)
    ensures UniqueIds(Remove(cart, id))
  {
    if cart != [] {
      var init := cart[..|cart| - 1];
      var last := cart[|cart| - 1];
      RemoveKeepsUnique(init, id);
      RemoveMembers(init, id);
      var r := Remove(init, id);
      if last.item.id != id {
        assert Remove(cart, id) == r + [last];
        assert (r + [last])[..|r|] == r;
        forall k | 0 <= k < |r| ensures r[k].item.id != last.item.id {
          var j :| 0 <= j < |init| && init[j] == r[k];
        }
      } else {
        assert Remove(cart, id) == r;
      }
    }
  }

  lemma AddKeepsUnique(cart: seq<Line>, p: Product, field: StockField)
    requires UniqueIds(cart)
    ensures UniqueIds(AddToCart(cart, p, field).cart)
  {
    if Find(cart, p.id).Some? {
      UpdateKeepsUnique(cart, p.id, cart[Find(cart, p.id).value].quantity + 1, field);
    } else {
      AppendNewKeepsUnique(cart, Line(p, 1));
    }
  }

  lemma AppendNewKeepsUnique(cart: seq<Line>, line: Line)
    requires UniqueIds(cart) && Find(cart, line.item.id).None?
    ensures UniqueIds(cart + [line])
  {
    assert (cart + [line])[..|cart|] == cart;
  }

  lemma UpdateKeepsUnique(cart: seq<Line>, id: int, n: int, field: StockField)
    requires UniqueIds(cart) && Find(cart, id).Some?
    ensures UniqueIds(UpdateQuantity(cart, id, n, field).cart)
  {
    var c := UpdateQuantity(cart, id, n, field);
    if c.toast.None? {
      if n <= 0 {
        RemoveKeepsUnique(cart, id);
      } else {
        UniquePairs(cart);
        PairsUnique(c.cart);
      }
    }
  }

  /** Reading the stock the API sends, every line always holds between one unit and the
      stock of its product: adding, changing and removing keep this. */
  lemma {:induction false} RemoveKeepsStocked(cart: seq<Line>, id: int)
    requires WellStocked(cart)
    ensures WellStocked(Remove(cart, id))
  {
    RemoveMembers(cart, id);
    var r := Remove(cart, id);
    forall k | 0 <= k < |r| ensures 1 <= r[k].quantity <= r[k].item.stock {
      var j :| 0 <= j < |cart| && cart[j] == r[k];
    }
  }

  lemma UpdateKeepsStocked(cart: seq<Line>, id: int, n: int)
    requires UniqueIds(cart) && WellStocked(cart) && Find(cart, id).Some?
    ensures WellStocked(UpdateQuantity(cart, id, n, Stock).cart)
  {
    RemoveKeepsStocked(cart, id);
    UniquePairs(cart);
    var i := Find(cart, id).value;
    var c := UpdateQuantity(cart, id, n, Stock);
    if c.toast.None? && n > 0 {
      forall k | 0 <= k < |cart| ensures 1 <= c.cart[k].quantity <= c.cart[k].item.stock {
        if cart[k].item.id == id {
          assert cart[k].item.id == cart[i].item.id;
        }
      }
    }
  }

  lemma AddKeepsStocked(cart: seq<Line>, p: Product)
    requires UniqueIds(cart) && WellStocked(cart)
    ensures WellStocked(AddToCart(cart, p, Stock).cart)
  {
    if Find(cart, p.id).Some? {
      UpdateKeepsStocked(cart, p.id, cart[Find(cart, p.id).value].quantity + 1);
    }
  }

  /** As written, the page adds a product whose stock is zero, and the line holds more than
      the stock. */
  lemma AsWrittenSellsOutOfStock(p: Product)
    requires p.stock <= 0
    ensures AddToCart([], p, StockQuantity) == Change([Line(p, 1)], None, true)
    ensures !WellStocked(AddToCart([], p, StockQuantity).cart)
  {
    assert !(1 <= AddToCart([], p, StockQuantity).cart[0].quantity <= p.stock);
  }

  /** As written, no quantity is ever refused for want of stock. */
  lemma AsWrittenNeverInsufficient(cart: seq<Line>, id: int, n: int)
    requires Find(cart, id).Some?
    ensures UpdateQuantity(cart, id, n, StockQuantity).toast.None?
  {
  }

  /** Removing the line of a product that is not in the cart changes nothing. */
  lemma {:induction false} RemoveAbsent(cart: seq<Line>, id: int)
    requires Find(cart, id).None?
    ensures Remove(cart, id) == cart
  {
    if cart != [] {
      var init := cart[..|cart| - 1];
      RemoveAbsent(init, id);
      assert init + [cart[|cart| - 1]] == cart;
    }
  }

  /** One more line adds its price times its quantity to the total. */
  lemma TotalAppend(cart: seq<Line>, l: Line)
    ensures Total(cart + [l]) == Total(cart) + Amount(l)
  {
    assert (cart + [l])[..|cart + [l]| - 1] == cart;
  }

  /** Changing a product's quantity replaces its line's amount in the total by the amount at
      the new quantity. */
  lemma {:induction false} TotalSetQuantity(cart: seq<Line>, id: int, n: int)
    requires UniqueIds(cart) && Find(cart, id).Some?
    ensures var i := Find(cart, id).value;
      Total(SetQuantity(cart, id, n)) == Total(cart) - Amount(cart[i]) + Amount(cart[i].(quantity := n))
  {
    var init := cart[..|cart| - 1];
    var last := cart[|cart| - 1];
    var r := SetQuantity(cart, id, n);
    assert r[..|r| - 1] == SetQuantity(init, id, n);
    if last.item.id == id {
      assert Find(init, id).None?;
      assert SetQuantity(init, id, n) == init;
      assert Find(cart, id).value == |cart| - 1;
    } else {
      FindInInit(cart, id);
      TotalSetQuantity(init, id, n);
    }
  }

  /** A product found before the last line is found at the same place without that line. */
  lemma FindInInit(cart: seq<Line>, id: int)
    requires cart != [] && cart[|cart| - 1].item.id != id && Find(cart, id).Some?
    ensures Find(cart[..|cart| - 1], id) == Find(cart, id)
  {
    var init := cart[..|cart| - 1];
    var i := Find(cart, id).value;
    assert init[i] == cart[i];
    var f := Find(init, id);
    assert f.Some?;
    assert init[f.value] == cart[f.value];
  }

  /** A line's amount changes by its price times the change in quantity. */
  lemma AmountChange(l: Line, n: int)
    ensures Amount(l.(quantity := n)) - Amount(l) == l.item.price * (n - l.quantity)
  {
    assert l.item.price * (n - l.quantity) == l.item.price * n - l.item.price * l.quantity;
  }

  /** Removing a product's line takes its price times its quantity off the total. */
  lemma {:induction false} TotalRemove(cart: seq<Line>, id: int)
    requires UniqueIds(cart) && Find(cart, id).Some?
    ensures var i := Find(cart, id).value;
      Total(Remove(cart, id)) == Total(cart) - Amount(cart[i])
  {
    var init := cart[..|cart| - 1];
    var last := cart[|cart| - 1];
    if last.item.id == id {
      assert Find(init, id).None?;
      RemoveAbsent(init, id);
      assert Remove(cart, id) == Remove(init, id);
      assert Find(cart, id).value == |cart| - 1;
    } else {
      FindInInit(cart, id);
      TotalRemove(init, id);
      TotalAppend(Remove(init, id), last);
    }
  }

  /** What `removeFromCart` relies on: the cart stays well formed, an absent product leaves it
      as it was and a present one takes its line's amount off the total. */
  lemma RemoveKeepsCart(cart: seq<Line>, id: int, field: StockField)
    requires UniqueIds(cart) && (field == Stock ==> WellStocked(cart))
    ensures UniqueIds(Remove(cart, id)) && (field == Stock ==> WellStocked(Remove(cart, id)))
    ensures Find(cart, id).None? ==> Remove(cart, id) == cart
    ensures Find(cart, id).Some? ==>
      Total(Remove(cart, id)) == Total(cart) - Amount(cart[Find(cart, id).value])
  {
    RemoveKeepsUnique(cart, id);
    if field == Stock {
      RemoveKeepsStocked(cart, id);
    }
    if Find(cart, id).Some? {
      TotalRemove(cart, id);
    } else {
      RemoveAbsent(cart, id);
    }
  }

  /** The total follows a quantity change: unchanged when it is refused, less the line's
      amount when the line is removed, and the price times the difference otherwise. */
  lemma UpdateTotal(cart: seq<Line>, id: int, n: int, field: StockField)
    requires UniqueIds(cart) && Find(cart, id).Some?
    ensures UpdateQuantity(cart, id, n, field).toast.Some? ==> Total(UpdateQuantity(cart, id, n, field).cart) == Total(cart)
    ensures var i := Find(cart, id).value;
      UpdateQuantity(cart, id, n, field).toast.None? && n <= 0 ==>
        Total(UpdateQuantity(cart, id, n, field).cart) == Total(cart) - Amount(cart[i])
    ensures var i := Find(cart, id).value;
      UpdateQuantity(cart, id, n, field).toast.None? && n > 0 ==>
        Total(UpdateQuantity(cart, id, n, field).cart) == Total(cart) + cart[i].item.price * (n - cart[i].quantity)
  {
    var c := UpdateQuantity(cart, id, n, field);
    if c.toast.None? {
      if n <= 0 {
        TotalRemove(cart, id);
      } else {
        TotalSetQuantity(cart, id, n);
        AmountChange(cart[Find(cart, id).value], n);
      }
    }
  }

  /** What the payment step reports: the payment method and the amount paid. */
  datatype PaymentData = PaymentData(paymentMethod: string, amount: int)

  datatype SaleItem = SaleItem(product: int, quantity: int, price: int)

  datatype SalePayload = SalePayload(items: seq<SaleItem>, paymentMethod: string, amountPaid: int)

  /** The sale sent once payment is complete: one item per line, in cart order. */
  function SaleOf(cart: seq<Line>, payment: PaymentData): (s: SalePayload)
    ensures |s.items| == |cart|
    ensures forall k :: 0 <= k < |cart| ==>
      s.items[k] == SaleItem(cart[k].item.id, cart[k].quantity, cart[k].item.price)
    ensures s.paymentMethod == payment.paymentMethod && s.amountPaid == payment.amount
  {
    SalePayload(seq(|cart|, k requires 0 <= k < |cart| => SaleItem(cart[k].item.id, cart[k].quantity, cart[k].item.price)),
                payment.paymentMethod, payment.amount)
  }

  function ItemsTotal(items: seq<SaleItem>): int {
    if items == [] then 0
    else ItemsTotal(items[..|items| - 1]) + items[|items| - 1].price * items[|items| - 1].quantity
  }

  /** The sale sent is worth the total the page showed. */
  lemma {:induction false} SaleWorthTotal(cart: seq<Line>, payment: PaymentData)
    ensures ItemsTotal(SaleOf(cart, payment).items) == Total(cart)
  {
    if cart != [] {
      var init := cart[..|cart| - 1];
      SaleWorthTotal(init, payment);
      assert SaleOf(cart, payment).items[..|cart| - 1] == SaleOf(init, payment).items;
    }
  }

  /** A reply: success with its value, or a failure. */
  datatype Reply<T> = Succeeded(value: T) | Failed

  datatype Request = ProductByBarcode(code: string) | SearchProducts(query: string) | CreateSale(sale: SalePayload)

  function ToastsOf(t: Option<string>): (r: seq<string>)
    ensures t.None? <==> r == []
  {
    if t.Some? then [t.value] else []
  }

  /** The page's state. `cartTotal` is recomputed from the cart whenever the cart changes. */
  class Checkout {
    const field: StockField
    var barcode: string
    var searchQuery: string
    var products: seq<Product>
    var cart: seq<Line>
    var cartTotal: int
    var loading: bool
    var showPayment: bool
    var toasts: seq<string>
    var sent: seq<Request>

    /** One line per product and the total shown matches the cart; reading the member the
        API sends, every line is also within its stock. */
    predicate Valid()
      reads this
    {
      UniqueIds(cart) && cartTotal == Total(cart) && (field == Stock ==> WellStocked(cart))
    }

    constructor (field: StockField)
      ensures Valid() && this.field == field
      ensures cart == [] && cartTotal == 0 && products == [] && searchQuery == "" && barcode == ""
      ensures !loading && !showPayment && toasts == [] && sent == []
    {
      this.field := field;
      barcode := "";
      searchQuery := "";
      products := [];
      cart := [];
      cartTotal := 0;
      loading := false;
      showPayment := false;
      toasts := [];
      sent := [];
    }

    /** `addToCart`, followed by the total's recomputation. */
    method AddProduct(p: Product)
      requires Valid()
      modifies this
      ensures Valid()
      ensures var c := AddToCart(old(cart), p, field);
        cart == c.cart && toasts == old(toasts) + ToastsOf(c.toast)
        && (c.cleared ==> products == [] && searchQuery == "")
        && (!c.cleared ==> products == old(products) && searchQuery == old(searchQuery))
      ensures barcode == old(barcode) && loading == old(loading) && showPayment == old(showPayment) && sent == old(sent)
    {
      var c := AddToCart(cart, p, field);
      AddKeepsUnique(cart, p, field);
      if field == Stock {
        AddKeepsStocked(cart, p);
      }
      var total := Total(c.cart);
      var shown, query := products, searchQuery;
      if c.cleared {
        shown, query := [], "";
      }
      cart, cartTotal, toasts, products, searchQuery := c.cart, total, toasts + ToastsOf(c.toast), shown, query;
    }

    /** `updateQuantity` from a line's buttons. */
    method ChangeQuantity(id: int, n: int)
      requires Valid() && Find(cart, id).Some?
      modifies this
      ensures Valid()
      ensures var c := UpdateQuantity(old(cart), id, n, field);
        cart == c.cart && toasts == old(toasts) + ToastsOf(c.toast)
      ensures UpdateQuantity(old(cart), id, n, field).toast.Some? ==> cartTotal == old(cartTotal)
      ensures var i := Find(old(cart), id).value;
        UpdateQuantity(old(cart), id, n, field).toast.None? && n <= 0 ==>
          cartTotal == old(cartTotal) - Amount(old(cart)[i])
      ensures var i := Find(old(cart), id).value;
        UpdateQuantity(old(cart), id, n, field).toast.None? && n > 0 ==>
          cartTotal == old(cartTotal) + old(cart)[i].item.price * (n - old(cart)[i].quantity)
      ensures products == old(products) && searchQuery == old(searchQuery) && barcode == old(barcode)
      ensures loading == old(loading) && showPayment == old(showPayment) && sent == old(sent)
    {
      var c := UpdateQuantity(cart, id, n, field);
      UpdateKeepsUnique(cart, id, n, field);
      if field == Stock {
        UpdateKeepsStocked(cart, id, n);
      }
      UpdateTotal(cart, id, n, field);
      var total := Total(c.cart);
      cart, cartTotal, toasts := c.cart, total, toasts + ToastsOf(c.toast);
    }

    /** `removeFromCart`: the product's line goes, and its amount leaves the total. */
    method RemoveFromCart(id: int)
      requires Valid()
      modifies this
      ensures Valid()
      ensures cart == Remove(old(cart), id)
      ensures Find(old(cart), id).None? ==> cart == old(cart) && cartTotal == old(cartTotal)
      ensures Find(old(cart), id).Some? ==> cartTotal == old(cartTotal) - Amount(old(cart)[Find(old(cart), id).value])
      ensures products == old(products) && searchQuery == old(searchQuery) && barcode == old(barcode)
      ensures loading == old(loading) && showPayment == old(showPayment) && sent == old(sent) && toasts == old(toasts)
    {
      RemoveKeepsCart(cart, id, field);
      var rest := Remove(cart, id);
      var total := Total(rest);
      cart := rest;
      cartTotal := total;
    }

    /** `clearCart`: the cart, the search results, the search and the barcode are emptied. */
    method ClearCart()
      requires Valid()
      modifies this
      ensures Valid()
      ensures cart == [] && cartTotal == 0 && products == [] && searchQuery == "" && barcode == ""
      ensures loading == old(loading) && showPayment == old(showPayment) && sent == old(sent) && toasts == old(toasts)
    {
      cart := [];
      products := [];
      searchQuery := "";
      barcode := "";
      cartTotal := 0;
    }

    /** `handleCheckout`: an empty cart is refused; otherwise the payment step opens. */
    method HandleCheckout()
      requires Valid()
      modifies this
      ensures Valid()
      ensures old(cart) == [] ==> toasts == old(toasts) + ["Cart is empty"] && showPayment == old(showPayment)
      ensures old(cart) != [] ==> toasts == old(toasts) && showPayment
      ensures cart == old(cart) && cartTotal == old(cartTotal) && products == old(products) && sent == old(sent)
      ensures searchQuery == old(searchQuery) && barcode == old(barcode) && loading == old(loading)
    {
      if cart == [] {
        toasts := toasts + ["Cart is empty"];
        return;
      }
      showPayment := true;
    }

    /** `handlePaymentComplete` with the reply to the sale's creation: the sale is sent;
        the cart is cleared and the payment step closed only when the sale was created. */
    method HandlePaymentComplete(payment: PaymentData, reply: Reply<Option<Json>>)
      requires Valid()
      modifies this
      ensures Valid()
      ensures sent == old(sent) + [CreateSale(SaleOf(old(cart), payment))]
      ensures reply.Succeeded? ==>
        toasts == old(toasts) + ["Sale completed! Receipt #" + ApiClient.Template(Prop(reply.value, "receipt_number"))]
        && cart == [] && cartTotal == 0 && products == [] && searchQuery == "" && barcode == "" && !showPayment
      ensures reply.Failed? ==>
        toasts == old(toasts) + ["Failed to complete sale"]
        && cart == old(cart) && cartTotal == old(cartTotal) && products == old(products)
        && searchQuery == old(searchQuery) && barcode == old(barcode) && showPayment == old(showPayment)
      ensures loading == old(loading)
    {
      sent := sent + [CreateSale(SaleOf(cart, payment))];
      if reply.Succeeded? {
        toasts := toasts + ["Sale completed! Receipt #" + ApiClient.Template(Prop(reply.value, "receipt_number"))];
        ClearCart();
        showPayment := false;
      } else {
        toasts := toasts + ["Failed to complete sale"];
      }
    }

    /** `handleBarcodeSubmit`: a blank barcode does nothing; otherwise the product with the
        trimmed code is asked for; a product found is added (and announced as added even
        when the cart refused it) and the barcode emptied. */
    method HandleBarcodeSubmit(reply: Reply<Product>)
      requires Valid()
      modifies this
      ensures Valid()
      ensures Trim(old(barcode)) == "" ==>
        sent == old(sent) && cart == old(cart) && cartTotal == old(cartTotal) && toasts == old(toasts)
        && barcode == old(barcode) && products == old(products) && searchQuery == old(searchQuery)
        && loading == old(loading)
      ensures Trim(old(barcode)) != "" ==> sent == old(sent) + [ProductByBarcode(Trim(old(barcode)))] && !loading
      ensures Trim(old(barcode)) != "" && reply.Succeeded? ==>
        var c := AddToCart(old(cart), reply.value, field);
        cart == c.cart && barcode == ""
        && toasts == old(toasts) + ToastsOf(c.toast) + ["Added " + reply.value.name + " to cart"]
        && (c.cleared ==> products == [] && searchQuery == "")
        && (!c.cleared ==> products == old(products) && searchQuery == old(searchQuery))
      ensures Trim(old(barcode)) != "" && reply.Failed? ==>
        cart == old(cart) && cartTotal == old(cartTotal) && barcode == old(barcode)
        && toasts == old(toasts) + ["Product not found"]
        && products == old(products) && searchQuery == old(searchQuery)
      ensures showPayment == old(showPayment)
    {
      var code := Trim(barcode);
      if code == "" {
        return;
      }
      loading := true;
      sent := sent + [ProductByBarcode(code)];
      if reply.Succeeded? {
        AddProduct(reply.value);
        barcode := "";
        toasts := toasts + ["Added " + reply.value.name + " to cart"];
      } else {
        toasts := toasts + ["Product not found"];
      }
      loading := false;
    }

    /** `handleProductSearch`: a blank search does nothing; otherwise the products matching
        the search as typed are listed, or the failure is announced. */
    method HandleProductSearch(reply: Reply<seq<Product>>)
      requires Valid()
      modifies this
      ensures Valid()
      ensures Trim(old(searchQuery)) == "" ==> sent == old(sent) && products == old(products) && toasts == old(toasts)
      ensures Trim(old(searchQuery)) != "" ==> sent == old(sent) + [SearchProducts(old(searchQuery))] && !loading
      ensures Trim(old(searchQuery)) != "" && reply.Succeeded? ==> products == reply.value && toasts == old(toasts)
      ensures Trim(old(searchQuery)) != "" && reply.Failed? ==>
        products == old(products) && toasts == old(toasts) + ["Failed to search products"]
      ensures Trim(old(searchQuery)) == "" ==> loading == old(loading)
      ensures cart == old(cart) && cartTotal == old(cartTotal) && searchQuery == old(searchQuery)
      ensures barcode == old(barcode) && showPayment == old(showPayment)
    {
      var query := Trim(searchQuery);
      if query == "" {
        return;
      }
      loading := true;
      sent := sent + [SearchProducts(searchQuery)];
      if reply.Succeeded? {
        products := reply.value;
      } else {
        toasts := toasts + ["Failed to search products"];
      }
      loading := false;
    }
  }
}
