/**
 * The record store: a table of product rows keyed by id, and the repository
 * operations the API performs on it (create, look up, partial update, delete,
 * count, and the seeding done once at startup).
 */
module ProductRepository {
  import opened Wrappers
  import opened Schemas

  /** The primary key of every row is the row's own id. */
  predicate KeysMatchIds(rows: map<string, Product>) {
    forall id :: id in rows ==> rows[id].id == id
  }

  /** Every row satisfies the create constraints (the store only receives validated data). */
  predicate AllFieldsValid(rows: map<string, Product>) {
    forall id :: id in rows ==> ValidFields(rows[id])
  }

  /** The products table as seen through a database session. */
  class Database {
    var rows: map<string, Product>

    ghost predicate Valid()
      reads this
    {
      KeysMatchIds(rows)
    }

    constructor (rows: map<string, Product>)
      requires KeysMatchIds(rows)
      ensures Valid()
      ensures this.rows == rows
    {
      this.rows := rows;
    }
  }

  /** Inserts one row with the fresh id and exactly the payload's four values. */
  method CreateProduct(db: Database, payload: ProductCreate, freshId: string) returns (product: Product)
    requires db.Valid()
    requires freshId !in db.rows
    modifies db
    ensures db.Valid()
    ensures product == NewProduct(freshId, payload)
    ensures db.rows == old(db.rows)[freshId := product]
    ensures |db.rows| == |old(db.rows)| + 1
  {
    product := NewProduct(freshId, payload);
    db.rows := db.rows[freshId := product];
  }

  /** The row stored under an id, if any; a pure read. */
  function GetProductById(db: Database, productId: string): (r: Option<Product>)
    reads db
    requires db.Valid()
    ensures r.Some? <==> productId in db.rows
    ensures r.Some? ==> r.value.id == productId && db.rows[productId] == r.value
  {
    if productId in db.rows then Some(db.rows[productId]) else None
  }

  /** The ORM object while the update assigns its attributes: a column may hold None. */
  datatype PendingRow = PendingRow(
    id: string,
    name: Option<string>,
    description: Option<string>,
    price: Option<real>,
    stockQuantity: Option<int>)

  function Loaded(p: Product): PendingRow {
    PendingRow(p.id, Some(p.name), Some(p.description), Some(p.price), Some(p.stockQuantity))
  }

  /** One attribute assignment of the update loop. */
  function SetAttr(o: PendingRow, a: Assignment): PendingRow {
    match a
    case NameTo(v) => o.(name := v)
    case DescriptionTo(v) => o.(description := v)
    case PriceTo(v) => o.(price := v)
    case StockQuantityTo(v) => o.(stockQuantity := v)
  }

  /** The assignments applied left to right. */
  function ApplyAll(o: PendingRow, items: seq<Assignment>): PendingRow
    decreases |items|
  {
    if items == [] then o else ApplyAll(SetAttr(o, items[0]), items[1..])
  }

  datatype CommitResult = Committed(row: Product) | IntegrityError

  /** Committing the object: every column is declared NOT NULL, so a None
      column makes the commit fail and the transaction leaves the table as it was. */
  function Commit(o: PendingRow): (r: CommitResult)
    ensures r.Committed? <==> o.name.Some? && o.description.Some? && o.price.Some? && o.stockQuantity.Some?
    ensures r.Committed? ==> r.row.id == o.id
  {
    match (o.name, o.description, o.price, o.stockQuantity)
    case (Some(n), Some(d), Some(p), Some(q)) => Committed(Product(o.id, n, d, p, q))
    case _ => IntegrityError
  }

  /** A field's value after an update: the supplied value, or the current one. */
  function Overwrite<T>(f: Patch<T>, current: T): T {
    if f.Given? then f.value else current
  }

  /** The intended effect of a partial update, field by field. */
  function Patched(p: Product, u: ProductUpdate): Product {
    Product(
      p.id,
      Overwrite(u.name, p.name),
      Overwrite(u.description, p.description),
      Overwrite(u.price, p.price),
      Overwrite(u.stockQuantity, p.stockQuantity))
  }

  /** What an update commits: the patched row, or an integrity error when a
      supplied field is null. */
  function PatchResult(p: Product, u: ProductUpdate): (r: CommitResult)
    ensures r.Committed? <==> !HasNull(u)
    ensures r.Committed? ==> r.row.id == p.id
  {
    if HasNull(u) then IntegrityError else Committed(Patched(p, u))
  }

  /** A partial update overwrites exactly the supplied fields; the id and every
      field left out keep their values. */
  lemma PatchOverwritesExactlySupplied(p: Product, u: ProductUpdate)
    requires !HasNull(u)
    ensures Patched(p, u).id == p.id
    ensures u.name.Given? ==> Patched(p, u).name == u.name.value
    ensures u.name.Unset? ==> Patched(p, u).name == p.name
    ensures u.description.Given? ==> Patched(p, u).description == u.description.value
    ensures u.description.Unset? ==> Patched(p, u).description == p.description
    ensures u.price.Given? ==> Patched(p, u).price == u.price.value
    ensures u.price.Unset? ==> Patched(p, u).price == p.price
    ensures u.stockQuantity.Given? ==> Patched(p, u).stockQuantity == u.stockQuantity.value
    ensures u.stockQuantity.Unset? ==> Patched(p, u).stockQuantity == p.stockQuantity
  {
  }

  /** A valid update of a valid record yields a valid record. */
  lemma PatchKeepsValidFields(p: Product, u: ProductUpdate)
    requires ValidFields(p) && ValidUpdate(u)
    ensures ValidFields(Patched(p, u))
  {
  }

  /** For a body without nulls, the declared update check passes exactly when the
      patched record stays within the create bounds. */
  lemma UpdateValidIffPatchedValid(p: Product, u: ProductUpdate)
    requires ValidFields(p) && !HasNull(u)
    ensures ValidUpdateAsWritten(u) <==> ValidFields(Patched(p, u))
  {
  }

  lemma {:induction false} ApplyAllAppend(o: PendingRow, a: seq<Assignment>, b: seq<Assignment>)
    ensures ApplyAll(o, a + b) == ApplyAll(ApplyAll(o, a), b)
    decreases |a|
  {
    if a == [] {
      assert a + b == b;
    } else {
      assert (a + b)[0] == a[0];
      assert (a + b)[1..] == a[1..] + b;
      ApplyAllAppend(SetAttr(o, a[0]), a[1..], b);
    }
  }

  lemma ApplyOptional(o: PendingRow, cond: bool, a: Assignment)
    ensures ApplyAll(o, if cond then [] else [a]) == if cond then o else SetAttr(o, a)
  {
  }

  /** Assigning the supplied fields one by one and committing gives exactly the
      intended patch: supplied fields overwritten, id and the other fields kept,
      and an integrity error exactly when a supplied value is null. */
  lemma SetAttrLoopMeetsPatch(p: Product, u: ProductUpdate)
    ensures Commit(ApplyAll(Loaded(p), SuppliedFields(u))) == PatchResult(p, u)
  {
    var a := if u.name.Unset? then [] else [NameTo(ValueOf(u.name))];
    var b := if u.description.Unset? then [] else [DescriptionTo(ValueOf(u.description))];
    var c := if u.price.Unset? then [] else [PriceTo(ValueOf(u.price))];
    var d := if u.stockQuantity.Unset? then [] else [StockQuantityTo(ValueOf(u.stockQuantity))];
    assert SuppliedFields(u) == ((a + b) + c) + d;
    var o0 := Loaded(p);
    ApplyAllAppend(o0, (a + b) + c, d);
    ApplyAllAppend(o0, a + b, c);
    ApplyAllAppend(o0, a, b);
    ApplyOptional(o0, u.name.Unset?, NameTo(ValueOf(u.name)));
    var o1 := ApplyAll(o0, a);
    ApplyOptional(o1, u.description.Unset?, DescriptionTo(ValueOf(u.description)));
    var o2 := ApplyAll(o1, b);
    ApplyOptional(o2, u.price.Unset?, PriceTo(ValueOf(u.price)));
    var o3 := ApplyAll(o2, c);
    ApplyOptional(o3, u.stockQuantity.Unset?, StockQuantityTo(ValueOf(u.stockQuantity)));
    var o4 := ApplyAll(o3, d);
    assert o4.id == p.id;
    assert o4.name == (if u.name.Unset? then Some(p.name) else ValueOf(u.name));
    assert o4.description == (if u.description.Unset? then Some(p.description) else ValueOf(u.description));
    assert o4.price == (if u.price.Unset? then Some(p.price) else ValueOf(u.price));
    assert o4.stockQuantity == (if u.stockQuantity.Unset? then Some(p.stockQuantity) else ValueOf(u.stockQuantity));
  }

  /** Overwrites the supplied fields of a stored row one attribute at a time, then commits. */
  method UpdateProduct(db: Database, product: Product, payload: ProductUpdate) returns (r: CommitResult)
    requires db.Valid()
    requires product.id in db.rows && db.rows[product.id] == product
    modifies db
    ensures db.Valid()
    ensures r == PatchResult(product, payload)
    ensures r.Committed? ==> db.rows == old(db.rows)[product.id := r.row]
    ensures r.IntegrityError? ==> db.rows == old(db.rows)
  {
    var updateValues := SuppliedFields(payload);
    var pending := Loaded(product);
    var i := 0;
    while i < |updateValues|
      invariant 0 <= i <= |updateValues|
      invariant ApplyAll(pending, updateValues[i..]) == ApplyAll(Loaded(product), updateValues)
    {
      assert updateValues[i..][1..] == updateValues[i + 1..];
      pending := SetAttr(pending, updateValues[i]);
      i := i + 1;
    }
    assert updateValues[i..] == [];
    SetAttrLoopMeetsPatch(product, payload);
    r := Commit(pending);
    if r.Committed? {
      db.rows := db.rows[product.id := r.row];
    }
  }

  /** Removes exactly the row of the given product. */
  method DeleteProduct(db: Database, product: Product)
    requires db.Valid()
    requires product.id in db.rows
    modifies db
    ensures db.Valid()
    ensures db.rows == old(db.rows) - {product.id}
    ensures |db.rows| == |old(db.rows)| - 1
  {
    db.rows := db.rows - {product.id};
  }

  /** The number of rows; zero exactly when the table is empty. */
  function CountProducts(db: Database): (n: nat)
    reads db
    ensures n == 0 <==> db.rows == map[]
  {
    var n := |db.rows|;
    assert n == 0 ==> db.rows.Keys == {};
    n
  }

  /** The three sample products, under three fresh ids. */
  function SampleProducts(ids: seq<string>): map<string, Product>
    requires |ids| == 3
  {
    map[
      ids[0] := Product(ids[0], "Wireless Mouse", "Ergonomic 2.4GHz wireless mouse", 24.99, 120),
      ids[1] := Product(ids[1], "Mechanical Keyboard", "RGB backlit mechanical keyboard", 79.50, 75),
      ids[2] := Product(ids[2], "USB-C Hub", "7-in-1 USB-C hub for laptops", 39.00, 200)]
  }

  predicate Distinct3(ids: seq<string>) {
    |ids| == 3 && ids[0] != ids[1] && ids[0] != ids[2] && ids[1] != ids[2]
  }

  /** The table after seeding: unchanged unless it was empty. */
  function Seeded(rows: map<string, Product>, ids: seq<string>): map<string, Product>
    requires |ids| == 3
  {
    if |rows| > 0 then rows else SampleProducts(ids)
  }

  /** Seeds the sample products only when the table has no rows. */
  method SeedProducts(db: Database, ids: seq<string>)
    requires db.Valid()
    requires Distinct3(ids)
    modifies db
    ensures db.Valid()
    ensures db.rows == Seeded(old(db.rows), ids)
  {
    if CountProducts(db) > 0 {
      return;
    }
    db.rows := db.rows + SampleProducts(ids);
  }

  /** Seeding an empty table adds exactly three valid rows with distinct ids. */
  lemma SeedingEmptyTableAddsThree(ids: seq<string>)
    requires Distinct3(ids)
    ensures Seeded(map[], ids).Keys == {ids[0], ids[1], ids[2]}
    ensures |Seeded(map[], ids)| == 3
    ensures KeysMatchIds(Seeded(map[], ids)) && AllFieldsValid(Seeded(map[], ids))
  {
  }

  /** A second seeding, whatever ids it draws, leaves the table as the first left it. */
  lemma SeedingIsIdempotent(rows: map<string, Product>, first: seq<string>, second: seq<string>)
    requires |first| == 3 && |second| == 3
    ensures Seeded(Seeded(rows, first), second) == Seeded(rows, first)
    ensures |Seeded(Seeded(rows, first), second)| == |Seeded(rows, first)|
  {
  }
}
