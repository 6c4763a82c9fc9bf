/**
 * Request and response bodies of the product API and the field constraints
 * that request bodies are validated against before any handler runs.
 */
module Schemas {
  import opened Wrappers

  const NameMaxLength: nat := 255
  const DescriptionMaxLength: nat := 2000

  /** A product as returned to clients: its id and exactly four record fields.
      It is also the shape of a stored row. */
  datatype Product = Product(
    id: string,
    name: string,
    description: string,
    price: real,
    stockQuantity: int)

  /** Body of a create request: all four fields are required. */
  datatype ProductCreate = ProductCreate(
    name: string,
    description: string,
    price: real,
    stockQuantity: int)

  /** One field of an update body: left out, sent as JSON null, or sent with a value. */
  datatype Patch<+T> = Unset | Null | Given(value: T)

  /** Body of an update request: every field is optional. */
  datatype ProductUpdate = ProductUpdate(
    name: Patch<string>,
    description: Patch<string>,
    price: Patch<real>,
    stockQuantity: Patch<int>)

  predicate ValidName(name: string) {
    1 <= |name| <= NameMaxLength
  }

  predicate ValidDescription(description: string) {
    1 <= |description| <= DescriptionMaxLength
  }

  /** The bound is strict: a price of zero is rejected. */
  predicate ValidPrice(price: real) {
    price > 0.0
  }

  predicate ValidStockQuantity(stockQuantity: int) {
    stockQuantity >= 0
  }

  predicate ValidCreate(c: ProductCreate) {
    && ValidName(c.name)
    && ValidDescription(c.description)
    && ValidPrice(c.price)
    && ValidStockQuantity(c.stockQuantity)
  }

  /** The four value fields of a record satisfy the create constraints. */
  predicate ValidFields(p: Product) {
    && ValidName(p.name)
    && ValidDescription(p.description)
    && ValidPrice(p.price)
    && ValidStockQuantity(p.stockQuantity)
  }

  /** The update constraints exactly as declared: each field is `T | None`, so an
      explicit null is accepted, and a supplied value must meet the create bound. */
  predicate ValidUpdateAsWritten(u: ProductUpdate) {
    && (u.name.Given? ==> ValidName(u.name.value))
    && (u.description.Given? ==> ValidDescription(u.description.value))
    && (u.price.Given? ==> ValidPrice(u.price.value))
    && (u.stockQuantity.Given? ==> ValidStockQuantity(u.stockQuantity.value))
  }

  predicate HasNull(u: ProductUpdate) {
    u.name.Null? || u.description.Null? || u.price.Null? || u.stockQuantity.Null?
  }

  /** The update constraints with explicit nulls rejected, as every column is
      NOT NULL: the corrected check. */
  predicate ValidUpdate(u: ProductUpdate) {
    ValidUpdateAsWritten(u) && !HasNull(u)
  }

  /** No field of the update body was supplied at all. */
  predicate NothingSupplied(u: ProductUpdate) {
    u.name.Unset? && u.description.Unset? && u.price.Unset? && u.stockQuantity.Unset?
  }

  /** One entry of the update body's dump of supplied fields: the field and the
      value it was sent with (None for an explicit null). */
  datatype Assignment =
    | NameTo(name: Option<string>)
    | DescriptionTo(description: Option<string>)
    | PriceTo(price: Option<real>)
    | StockQuantityTo(stockQuantity: Option<int>)

  function ValueOf<T>(f: Patch<T>): Option<T> {
    if f.Given? then Some(f.value) else None
  }

  /** The supplied fields of an update body, in declaration order, leaving out the
      ones never set (a dump that excludes unset fields). */
  function SuppliedFields(u: ProductUpdate): (items: seq<Assignment>)
    ensures items == [] <==> NothingSupplied(u)
    ensures |items| <= 4
  {
    (if u.name.Unset? then [] else [NameTo(ValueOf(u.name))])
    + (if u.description.Unset? then [] else [DescriptionTo(ValueOf(u.description))])
    + (if u.price.Unset? then [] else [PriceTo(ValueOf(u.price))])
    + (if u.stockQuantity.Unset? then [] else [StockQuantityTo(ValueOf(u.stockQuantity))])
  }

  /** The record a create body describes, under the id the store assigns. */
  function NewProduct(id: string, c: ProductCreate): Product {
    Product(id, c.name, c.description, c.price, c.stockQuantity)
  }

  /** An update body that supplies every field with the values of a create body. */
  function FullUpdate(c: ProductCreate): ProductUpdate {
    ProductUpdate(Given(c.name), Given(c.description), Given(c.price), Given(c.stockQuantity))
  }

  /** A create body is valid exactly when the record it yields has valid fields. */
  lemma CreateValidIffRecordValid(id: string, c: ProductCreate)
    ensures ValidCreate(c) <==> ValidFields(NewProduct(id, c))
    ensures NewProduct(id, c).id == id
  {
  }

  /** A supplied update field is held to the same bound as the create field. */
  lemma UpdateBoundsMatchCreate(c: ProductCreate)
    ensures ValidUpdate(FullUpdate(c)) <==> ValidCreate(c)
  {
  }

  /** The corrected update check is strictly stronger than the declared one. */
  lemma ValidUpdateRefinesDeclared(u: ProductUpdate)
    ensures ValidUpdate(u) ==> ValidUpdateAsWritten(u)
    ensures ValidUpdateAsWritten(u) && !ValidUpdate(u) <==> ValidUpdateAsWritten(u) && HasNull(u)
  {
  }
}
