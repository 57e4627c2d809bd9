/** Barcode validation on product create and update. The barcode column is unique, so the
    generated model serializer runs a uniqueness validator on the field first; the serializer's
    own `validate_barcode` then repeats the same test with its own message. Both exclude the
    product being edited, compared by primary key. */
module ProductsSerializers {
  import opened Common
  import opened ProductsModels

  /** Some product other than the one being edited (if any) already uses `value`. */
  predicate BarcodeTaken(products: seq<Product>, instance: Option<Product>, value: string)
    reads products
  {
    exists i :: 0 <= i < |products| && products[i].barcode == value
      && !(instance.Some? && products[i].id == instance.value.id)
  }

  /** The database invariant of the unique column: no two products share a barcode. */
  predicate UniqueBarcodes(products: seq<Product>)
    reads products
  {
    forall i, j :: 0 <= i < |products| && 0 <= j < |products| && products[i].barcode == products[j].barcode ==>
      products[i].id == products[j].id
  }

  /** The field's uniqueness validator, derived from the unique column. */
  function UniqueBarcode(products: seq<Product>, instance: Option<Product>, value: string): (r: Result<string>)
    reads products
  {
    if BarcodeTaken(products, instance, value)
    then Err("product with this barcode already exists.")
    else Ok(value)
  }

  /** `validate_barcode`: on update, any other product with the barcode is a conflict; on
      create, any product at all. An accepted barcode is returned unchanged. */
  function ValidateBarcode(products: seq<Product>, instance: Option<Product>, value: string): (r: Result<string>)
    reads products
    ensures instance.None? ==> (r.Ok? <==> forall p :: p in products ==> p.barcode != value)
    ensures instance.Some? ==>
      (r.Ok? <==> forall p :: p in products && p.id != instance.value.id ==> p.barcode != value)
    ensures r.Ok? ==> r.value == value
  {
    if instance.Some? then
      if exists i :: 0 <= i < |products| && products[i].id != instance.value.id && products[i].barcode == value
      then Err("Product with this barcode already exists.")
      else Ok(value)
    else
      if exists i :: 0 <= i < |products| && products[i].barcode == value
      then Err("Product with this barcode already exists.")
      else Ok(value)
  }

  /** Field validation of `barcode`: the column's validator, then `validate_barcode`. */
  function CleanBarcode(products: seq<Product>, instance: Option<Product>, value: string): (r: Result<string>)
    reads products
  {
    match UniqueBarcode(products, instance, value)
    case Err(e) => Err(e)
    case Ok(v) => ValidateBarcode(products, instance, v)
  }

  /** The two validators test the same condition, so `validate_barcode` never rejects what the
      column's validator let through: a duplicate is always reported with the column's message. */
  lemma CustomCheckNeverFires(products: seq<Product>, instance: Option<Product>, value: string)
    ensures UniqueBarcode(products, instance, value).Ok? <==> ValidateBarcode(products, instance, value).Ok?
    ensures CleanBarcode(products, instance, value).Ok? <==> !BarcodeTaken(products, instance, value)
    ensures CleanBarcode(products, instance, value).Err? ==>
      CleanBarcode(products, instance, value).error == "product with this barcode already exists."
  {
  }

  /** Saving a product with its own barcode is accepted when barcodes are unique, because the
      product itself is excluded from the test. */
  lemma KeepOwnBarcode(products: seq<Product>, p: Product)
    requires p in products
    requires UniqueBarcodes(products)
    ensures CleanBarcode(products, Some(p), p.barcode) == Ok(p.barcode)
  {
  }

  /** On create, a barcode already in the catalogue is rejected. */
  lemma DuplicateRejectedOnCreate(products: seq<Product>, p: Product)
    requires p in products
    ensures CleanBarcode(products, None, p.barcode).Err?
  {
    var i :| 0 <= i < |products| && products[i] == p;
    assert BarcodeTaken(products, None, p.barcode);
  }
}
