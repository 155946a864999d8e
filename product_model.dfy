/**
 * The `products` table: the ordered listings, lookup by id, insert, the
 * partial update built clause by clause, and delete (refused while a cart
 * line references the product).
 */
module ProductModel {
  import opened Store
  import opened Query

  // ---------------------------------------------------------------------------
  // Listings: `SELECT * FROM products WHERE ... ORDER BY name`.

  function NameKey(p: Product): string {
    p.name
  }

  function AnyProduct(p: Product): bool {
    true
  }

  /** `name ILIKE '%' || term || '%'`: the term is pasted into the pattern as it is. */
  function NameLike(term: string): Product -> bool {
    (p: Product) => ILike(p.name, "%" + term + "%")
  }

  function InCategory(category: string): Product -> bool {
    (p: Product) => p.category == Some(category)
  }

  function OfBrand(brand: string): Product -> bool {
    (p: Product) => p.brand == Some(brand)
  }

  function IsOnSale(p: Product): bool {
    p.onSale
  }

  method SearchProducts(db: Database, term: string) returns (rows: seq<Product>)
    ensures SortedBy(rows, NameKey)
    ensures multiset(rows) == multiset(Matching(db.products.Values, NameLike(term)))
  {
    rows := SelectOrdered(db.products.Values, NameLike(term), NameKey);
  }

  method GetAll(db: Database) returns (rows: seq<Product>)
    ensures SortedBy(rows, NameKey)
    ensures multiset(rows) == multiset(db.products.Values)
  {
    rows := SelectOrdered(db.products.Values, AnyProduct, NameKey);
    assert Matching(db.products.Values, AnyProduct) == db.products.Values;
  }

  method GetByCategory(db: Database, category: string) returns (rows: seq<Product>)
    ensures SortedBy(rows, NameKey)
    ensures multiset(rows) == multiset(Matching(db.products.Values, InCategory(category)))
  {
    rows := SelectOrdered(db.products.Values, InCategory(category), NameKey);
  }

  method GetByBrand(db: Database, brand: string) returns (rows: seq<Product>)
    ensures SortedBy(rows, NameKey)
    ensures multiset(rows) == multiset(Matching(db.products.Values, OfBrand(brand)))
  {
    rows := SelectOrdered(db.products.Values, OfBrand(brand), NameKey);
  }

  method GetOnSale(db: Database) returns (rows: seq<Product>)
    ensures SortedBy(rows, NameKey)
    ensures multiset(rows) == multiset(Matching(db.products.Values, IsOnSale))
  {
    rows := SelectOrdered(db.products.Values, IsOnSale, NameKey);
  }

  /**
   * For a term without `%`, `_` or `\`, the search returns exactly the
   * products whose name contains the term, ignoring ASCII case.
   */
  lemma SearchIsContainment(vals: set<Product>, term: string)
    requires PlainTerm(term)
    ensures forall p :: p in Matching(vals, NameLike(term)) <==> p in vals && ContainsFolded(p.name, term)
  {
    forall p | p in vals {
      SearchPatternIsContainment(p.name, term);
    }
  }

  /** The row whose `id` column is `id`, or none when no stored row has that id. */
  function GetById(db: Database, id: ProductId): (r: Option<Product>)
    reads db
    requires db.Valid()
    ensures r.Some? ==> id in db.products && r.value == db.products[id] && r.value.id == id
    ensures r.None? ==> forall k :: k in db.products ==> db.products[k].id != id
  {
    if id in db.products then Some(db.products[id]) else None
  }

  // ---------------------------------------------------------------------------
  // Insert.

  /** The values `createProduct` binds; None is an SQL NULL (also what `undefined` becomes). */
  datatype NewProduct = NewProduct(
    name: Option<string>,
    description: Option<string>,
    price: Option<Cents>,
    category: Option<string>,
    stock: Option<int>,
    image: Option<string>,
    brand: Option<string>,
    onSale: Option<bool>,
    createdBy: Option<UserId>)

  /**
   * Every column is listed in the INSERT, so no column default applies: a NULL
   * for a NOT NULL column is refused, and so is a creator that is no user.
   */
  function InsertError(users: map<UserId, User>, p: NewProduct): Option<DbError> {
    if p.name.None? || p.price.None? || p.stock.None? || p.onSale.None? then Some(NotNullViolation)
    else if p.createdBy.Some? && p.createdBy.value !in users then Some(ForeignKeyViolation)
    else None
  }

  /** The row an accepted insert stores. */
  function Inserted(id: ProductId, p: NewProduct, now: Time): Product
    requires p.name.Some? && p.price.Some? && p.stock.Some? && p.onSale.Some?
  {
    Product(id, p.name.value, p.description, p.price.value, p.category, p.stock.value,
            p.image, p.brand, p.onSale.value, p.createdBy, None, now, None)
  }

  /** The serial is drawn before the row is checked, so a refused insert still consumes an id. */
  method CreateProduct(db: Database, p: NewProduct, now: Time) returns (r: Result<Product>)
    requires db.Valid()
    modifies db`products, db`nextProductId
    ensures db.Valid()
    ensures db.nextProductId == old(db.nextProductId) + 1
    ensures var e := InsertError(old(db.users), p);
      && (e.Some? ==> r == Err(e.value) && db.products == old(db.products))
      && (e.None? ==> r == Ok(Inserted(old(db.nextProductId), p, now))
                      && old(db.nextProductId) !in old(db.products)
                      && db.products == old(db.products)[old(db.nextProductId) := r.value])
  {
    var id := db.nextProductId;
    db.nextProductId := db.nextProductId + 1;
    var e := InsertError(db.users, p);
    if e.Some? {
      return Err(e.value);
    }
    var row := Inserted(id, p, now);
    db.products := db.products[id := row];
    r := Ok(row);
  }

  // ---------------------------------------------------------------------------
  // Partial update.

  datatype ProductColumn = Name | Description | Price | Category | Stock | Image | Brand | OnSale | UpdatedBy | UpdatedAt

  /** The keys `updateProduct` looks at; a present key may hold null. */
  datatype ProductUpdates = ProductUpdates(
    name: Field<Option<string>>,
    description: Field<Option<string>>,
    price: Field<Option<Cents>>,
    category: Field<Option<string>>,
    stock: Field<Option<int>>,
    image: Field<Option<string>>,
    brand: Field<Option<string>>,
    onSale: Field<Option<bool>>,
    updatedBy: Field<Option<UserId>>)

  /** The supplied keys as (column, value) pairs, in the fixed order the statement lists them. */
  function SuppliedProductFields(u: ProductUpdates): seq<(ProductColumn, SqlValue)> {
    Supplied(u.name, Name, TextOrNull)
    + Supplied(u.description, Description, TextOrNull)
    + Supplied(u.price, Price, IntOrNull)
    + Supplied(u.category, Category, TextOrNull)
    + Supplied(u.stock, Stock, IntOrNull)
    + Supplied(u.image, Image, TextOrNull)
    + Supplied(u.brand, Brand, TextOrNull)
    + Supplied(u.onSale, OnSale, BoolOrNull)
    + Supplied(u.updatedBy, UpdatedBy, IntOrNull)
  }

  /** The statement for an update: the supplied columns, then `updated_at = NOW()`, then `WHERE id`. */
  function ProductStatement(id: ProductId, u: ProductUpdates): UpdateStatement<ProductColumn> {
    StatementFor(SuppliedProductFields(u), [SetNow(UpdatedAt)], id)
  }

  /** Whether the update body holds the key for `column`; `updated_at` is never a body key. */
  predicate ProductKeyGiven(u: ProductUpdates, column: ProductColumn) {
    match column
    case Name => u.name.Given?
    case Description => u.description.Given?
    case Price => u.price.Given?
    case Category => u.category.Given?
    case Stock => u.stock.Given?
    case Image => u.image.Given?
    case Brand => u.brand.Given?
    case OnSale => u.onSale.Given?
    case UpdatedBy => u.updatedBy.Given?
    case UpdatedAt => false
  }

  /**
   * The statement has one numbered clause per supplied key, then
   * `updated_at = NOW()` as its last clause (so it is never empty), and the
   * id bound to the WHERE placeholder that follows them.
   */
  lemma ProductStatementShape(id: ProductId, u: ProductUpdates)
    ensures var stmt := ProductStatement(id, u);
      var s := SuppliedProductFields(u);
      && WellNumbered(stmt)
      && stmt.whereIndex == |s| + 1
      && stmt.params[stmt.whereIndex - 1] == SqlInt(id)
      && |stmt.assignments| == |s| + 1
      && stmt.assignments[|s|] == SetNow(UpdatedAt)
      && (forall i :: 0 <= i < |s| ==> stmt.assignments[i] == Param(s[i].0, i + 1) && stmt.params[i] == s[i].1)
  {
    StatementForBinds(SuppliedProductFields(u), [SetNow(UpdatedAt)], id);
  }

  /** A SET clause is emitted for a column exactly when the body holds its key. */
  lemma {:induction false} SuppliedProductColumns(u: ProductUpdates, c: ProductColumn)
    ensures c in Columns(SuppliedProductFields(u)) <==> ProductKeyGiven(u, c)
  {
    var o1 := Supplied(u.name, Name, TextOrNull);
    var o2 := Supplied(u.description, Description, TextOrNull);
    var o3 := Supplied(u.price, Price, IntOrNull);
    var o4 := Supplied(u.category, Category, TextOrNull);
    var o5 := Supplied(u.stock, Stock, IntOrNull);
    var o6 := Supplied(u.image, Image, TextOrNull);
    var o7 := Supplied(u.brand, Brand, TextOrNull);
    var o8 := Supplied(u.onSale, OnSale, BoolOrNull);
    var o9 := Supplied(u.updatedBy, UpdatedBy, IntOrNull);
    ColumnsAppend(o1 + o2 + o3 + o4 + o5 + o6 + o7 + o8, o9);
    ColumnsAppend(o1 + o2 + o3 + o4 + o5 + o6 + o7, o8);
    ColumnsAppend(o1 + o2 + o3 + o4 + o5 + o6, o7);
    ColumnsAppend(o1 + o2 + o3 + o4 + o5, o6);
    ColumnsAppend(o1 + o2 + o3 + o4, o5);
    ColumnsAppend(o1 + o2 + o3, o4);
    ColumnsAppend(o1 + o2, o3);
    ColumnsAppend(o1, o2);
    ColumnsOfSupplied(u.name, Name, TextOrNull, c);
    ColumnsOfSupplied(u.description, Description, TextOrNull, c);
    ColumnsOfSupplied(u.price, Price, IntOrNull, c);
    ColumnsOfSupplied(u.category, Category, TextOrNull, c);
    ColumnsOfSupplied(u.stock, Stock, IntOrNull, c);
    ColumnsOfSupplied(u.image, Image, TextOrNull, c);
    ColumnsOfSupplied(u.brand, Brand, TextOrNull, c);
    ColumnsOfSupplied(u.onSale, OnSale, BoolOrNull, c);
    ColumnsOfSupplied(u.updatedBy, UpdatedBy, IntOrNull, c);
  }

  method BuildProductUpdate(id: ProductId, u: ProductUpdates) returns (stmt: UpdateStatement<ProductColumn>)
    ensures stmt == ProductStatement(id, u)
  {
    var fields: seq<Assignment<ProductColumn>> := [];
    var values: seq<SqlValue> := [];
    var idx: nat := 1;
    ghost var supplied: seq<(ProductColumn, SqlValue)> := [];
    fields, values, idx, supplied := PushIfGiven(fields, values, idx, supplied, u.name, Name, TextOrNull);
    assert supplied == Supplied(u.name, Name, TextOrNull);
    fields, values, idx, supplied := PushIfGiven(fields, values, idx, supplied, u.description, Description, TextOrNull);
    fields, values, idx, supplied := PushIfGiven(fields, values, idx, supplied, u.price, Price, IntOrNull);
    fields, values, idx, supplied := PushIfGiven(fields, values, idx, supplied, u.category, Category, TextOrNull);
    fields, values, idx, supplied := PushIfGiven(fields, values, idx, supplied, u.stock, Stock, IntOrNull);
    fields, values, idx, supplied := PushIfGiven(fields, values, idx, supplied, u.image, Image, TextOrNull);
    fields, values, idx, supplied := PushIfGiven(fields, values, idx, supplied, u.brand, Brand, TextOrNull);
    fields, values, idx, supplied := PushIfGiven(fields, values, idx, supplied, u.onSale, OnSale, BoolOrNull);
    fields, values, idx, supplied := PushIfGiven(fields, values, idx, supplied, u.updatedBy, UpdatedBy, IntOrNull);
    // updated_at is always set, and the id takes the next placeholder
    fields := fields + [SetNow(UpdatedAt)];
    values := values + [SqlInt(id)];
    stmt := UpdateStatement(fields, values, idx);
  }

  /** What the store does with one bound clause on a `products` row. */
  function AssignProductColumn(row: Product, column: ProductColumn, v: Option<SqlValue>, now: Time): Result<Product> {
    match column
    case Name => (match RequiredText(v) case Ok(x) => Ok(row.(name := x)) case Err(e) => Err(e))
    case Description => (match NullableText(v) case Ok(x) => Ok(row.(description := x)) case Err(e) => Err(e))
    case Price => (match RequiredInt(v) case Ok(x) => Ok(row.(price := x)) case Err(e) => Err(e))
    case Category => (match NullableText(v) case Ok(x) => Ok(row.(category := x)) case Err(e) => Err(e))
    case Stock => (match RequiredInt(v) case Ok(x) => Ok(row.(stock := x)) case Err(e) => Err(e))
    case Image => (match NullableText(v) case Ok(x) => Ok(row.(image := x)) case Err(e) => Err(e))
    case Brand => (match NullableText(v) case Ok(x) => Ok(row.(brand := x)) case Err(e) => Err(e))
    case OnSale => (match RequiredBool(v) case Ok(x) => Ok(row.(onSale := x)) case Err(e) => Err(e))
    case UpdatedBy => (match NullableInt(v) case Ok(x) => Ok(row.(updatedBy := x)) case Err(e) => Err(e))
    case UpdatedAt => if v.None? then Ok(row.(updatedAt := Some(now))) else Err(InvalidInput)
  }

  function ProductAssigner(now: Time): (Product, ProductColumn, Option<SqlValue>) -> Result<Product> {
    (row, column, v) => AssignProductColumn(row, column, v, now)
  }

  /** Some NOT NULL column (name, price, stock, on_sale) is given null. */
  predicate RejectsNull(u: ProductUpdates) {
    u.name == Given(None) || u.price == Given(None) || u.stock == Given(None) || u.onSale == Given(None)
  }

  /** The new value of a nullable column: the supplied one, or the current one when the key is absent. */
  function NewOr<T>(f: Field<T>, current: T): T {
    if f.Given? then f.value else current
  }

  /** The new value of a NOT NULL column: the supplied one, or the current one when the key is absent. */
  function NewNonNullOr<T>(f: Field<Option<T>>, current: T): T {
    if f.Given? && f.value.Some? then f.value.value else current
  }

  /**
   * The row an update should produce when no NOT NULL column is given null:
   * every supplied key replaces its column, every absent key keeps it,
   * `updated_at` becomes now, and the id, the creator and `created_at` stay.
   */
  function MergedProduct(row: Product, u: ProductUpdates, now: Time): Product {
    row.(name := NewNonNullOr(u.name, row.name),
         description := NewOr(u.description, row.description),
         price := NewNonNullOr(u.price, row.price),
         category := NewOr(u.category, row.category),
         stock := NewNonNullOr(u.stock, row.stock),
         image := NewOr(u.image, row.image),
         brand := NewOr(u.brand, row.brand),
         onSale := NewNonNullOr(u.onSale, row.onSale),
         updatedBy := NewOr(u.updatedBy, row.updatedBy),
         updatedAt := Some(now))
  }

  /** The clauses the store binds for an update, grouped from the right. */
  function BoundProductClauses(u: ProductUpdates): seq<(ProductColumn, Option<SqlValue>)> {
    BoundField(u.name, Name, TextOrNull) +
    (BoundField(u.description, Description, TextOrNull) +
    (BoundField(u.price, Price, IntOrNull) +
    (BoundField(u.category, Category, TextOrNull) +
    (BoundField(u.stock, Stock, IntOrNull) +
    (BoundField(u.image, Image, TextOrNull) +
    (BoundField(u.brand, Brand, TextOrNull) +
    (BoundField(u.onSale, OnSale, BoolOrNull) +
    (BoundField(u.updatedBy, UpdatedBy, IntOrNull) +
    [(UpdatedAt, None)]))))))))
  }

  lemma ProductStatementBinds(id: ProductId, u: ProductUpdates)
    ensures var stmt := ProductStatement(id, u);
      Bindings(stmt.assignments, stmt.params) == BoundProductClauses(u)
  {
    var o1 := Supplied(u.name, Name, TextOrNull);
    var o2 := Supplied(u.description, Description, TextOrNull);
    var o3 := Supplied(u.price, Price, IntOrNull);
    var o4 := Supplied(u.category, Category, TextOrNull);
    var o5 := Supplied(u.stock, Stock, IntOrNull);
    var o6 := Supplied(u.image, Image, TextOrNull);
    var o7 := Supplied(u.brand, Brand, TextOrNull);
    var o8 := Supplied(u.onSale, OnSale, BoolOrNull);
    var o9 := Supplied(u.updatedBy, UpdatedBy, IntOrNull);
    var t10: seq<(ProductColumn, Option<SqlValue>)> := [(UpdatedAt, None)];
    var t9 := Bound(o9) + t10;
    var t8 := Bound(o8) + t9;
    var t7 := Bound(o7) + t8;
    var t6 := Bound(o6) + t7;
    var t5 := Bound(o5) + t6;
    var t4 := Bound(o4) + t5;
    var t3 := Bound(o3) + t4;
    var stmt := ProductStatement(id, u);
    StatementForBinds(SuppliedProductFields(u), [SetNow(UpdatedAt)], id);
    assert Bindings([SetNow(UpdatedAt)], stmt.params) == t10;
    BoundThen(o1 + o2 + o3 + o4 + o5 + o6 + o7 + o8, o9, t10);
    BoundThen(o1 + o2 + o3 + o4 + o5 + o6 + o7, o8, t9);
    BoundThen(o1 + o2 + o3 + o4 + o5 + o6, o7, t8);
    BoundThen(o1 + o2 + o3 + o4 + o5, o6, t7);
    BoundThen(o1 + o2 + o3 + o4, o5, t6);
    BoundThen(o1 + o2 + o3, o4, t5);
    BoundThen(o1 + o2, o3, t4);
    BoundThen(o1, o2, t3);
    BoundSupplied(u.name, Name, TextOrNull);
    BoundSupplied(u.description, Description, TextOrNull);
    BoundSupplied(u.price, Price, IntOrNull);
    BoundSupplied(u.category, Category, TextOrNull);
    BoundSupplied(u.stock, Stock, IntOrNull);
    BoundSupplied(u.image, Image, TextOrNull);
    BoundSupplied(u.brand, Brand, TextOrNull);
    BoundSupplied(u.onSale, OnSale, BoolOrNull);
    BoundSupplied(u.updatedBy, UpdatedBy, IntOrNull);
  }

  type Clauses = seq<(ProductColumn, Option<SqlValue>)>

  // One lemma per clause: it fails on a null for a NOT NULL column, and
  // otherwise moves the row on with its column replaced (or kept when absent).

  lemma NameClause(row: Product, u: ProductUpdates, tail: Clauses, now: Time)
    ensures ApplyBindings(row, BoundField(u.name, Name, TextOrNull) + tail, ProductAssigner(now)) ==
      if u.name == Given(None) then Err(NotNullViolation)
      else ApplyBindings(row.(name := NewNonNullOr(u.name, row.name)), tail, ProductAssigner(now))
  {
    ApplyField(row, u.name, Name, TextOrNull, tail, ProductAssigner(now));
  }

  lemma DescriptionClause(row: Product, u: ProductUpdates, tail: Clauses, now: Time)
    ensures ApplyBindings(row, BoundField(u.description, Description, TextOrNull) + tail, ProductAssigner(now)) ==
      ApplyBindings(row.(description := NewOr(u.description, row.description)), tail, ProductAssigner(now))
  {
    ApplyField(row, u.description, Description, TextOrNull, tail, ProductAssigner(now));
  }

  lemma PriceClause(row: Product, u: ProductUpdates, tail: Clauses, now: Time)
    ensures ApplyBindings(row, BoundField(u.price, Price, IntOrNull) + tail, ProductAssigner(now)) ==
      if u.price == Given(None) then Err(NotNullViolation)
      else ApplyBindings(row.(price := NewNonNullOr(u.price, row.price)), tail, ProductAssigner(now))
  {
    ApplyField(row, u.price, Price, IntOrNull, tail, ProductAssigner(now));
  }

  lemma CategoryClause(row: Product, u: ProductUpdates, tail: Clauses, now: Time)
    ensures ApplyBindings(row, BoundField(u.category, Category, TextOrNull) + tail, ProductAssigner(now)) ==
      ApplyBindings(row.(category := NewOr(u.category, row.category)), tail, ProductAssigner(now))
  {
    ApplyField(row, u.category, Category, TextOrNull, tail, ProductAssigner(now));
  }

  lemma StockClause(row: Product, u: ProductUpdates, tail: Clauses, now: Time)
    ensures ApplyBindings(row, BoundField(u.stock, Stock, IntOrNull) + tail, ProductAssigner(now)) ==
      if u.stock == Given(None) then Err(NotNullViolation)
      else ApplyBindings(row.(stock := NewNonNullOr(u.stock, row.stock)), tail, ProductAssigner(now))
  {
    ApplyField(row, u.stock, Stock, IntOrNull, tail, ProductAssigner(now));
  }

  lemma ImageClause(row: Product, u: ProductUpdates, tail: Clauses, now: Time)
    ensures ApplyBindings(row, BoundField(u.image, Image, TextOrNull) + tail, ProductAssigner(now)) ==
      ApplyBindings(row.(image := NewOr(u.image, row.image)), tail, ProductAssigner(now))
  {
    ApplyField(row, u.image, Image, TextOrNull, tail, ProductAssigner(now));
  }

  lemma BrandClause(row: Product, u: ProductUpdates, tail: Clauses, now: Time)
    ensures ApplyBindings(row, BoundField(u.brand, Brand, TextOrNull) + tail, ProductAssigner(now)) ==
      ApplyBindings(row.(brand := NewOr(u.brand, row.brand)), tail, ProductAssigner(now))
  {
    ApplyField(row, u.brand, Brand, TextOrNull, tail, ProductAssigner(now));
  }

  lemma OnSaleClause(row: Product, u: ProductUpdates, tail: Clauses, now: Time)
    ensures ApplyBindings(row, BoundField(u.onSale, OnSale, BoolOrNull) + tail, ProductAssigner(now)) ==
      if u.onSale == Given(None) then Err(NotNullViolation)
      else ApplyBindings(row.(onSale := NewNonNullOr(u.onSale, row.onSale)), tail, ProductAssigner(now))
  {
    ApplyField(row, u.onSale, OnSale, BoolOrNull, tail, ProductAssigner(now));
  }

  lemma UpdatedByClause(row: Product, u: ProductUpdates, tail: Clauses, now: Time)
    ensures ApplyBindings(row, BoundField(u.updatedBy, UpdatedBy, IntOrNull) + tail, ProductAssigner(now)) ==
      ApplyBindings(row.(updatedBy := NewOr(u.updatedBy, row.updatedBy)), tail, ProductAssigner(now))
  {
    ApplyField(row, u.updatedBy, UpdatedBy, IntOrNull, tail, ProductAssigner(now));
  }

  /** The clauses applied one after the other give the merged row, or the NOT NULL error. */
  lemma {:induction false} ApplyProductClauses(row: Product, u: ProductUpdates, now: Time)
    ensures ApplyBindings(row, BoundProductClauses(u), ProductAssigner(now)) ==
      if RejectsNull(u) then Err(NotNullViolation) else Ok(MergedProduct(row, u, now))
  {
    var t10: Clauses := [(UpdatedAt, None)];
    var t9 := BoundField(u.updatedBy, UpdatedBy, IntOrNull) + t10;
    var t8 := BoundField(u.onSale, OnSale, BoolOrNull) + t9;
    var t7 := BoundField(u.brand, Brand, TextOrNull) + t8;
    var t6 := BoundField(u.image, Image, TextOrNull) + t7;
    var t5 := BoundField(u.stock, Stock, IntOrNull) + t6;
    var t4 := BoundField(u.category, Category, TextOrNull) + t5;
    var t3 := BoundField(u.price, Price, IntOrNull) + t4;
    var t2 := BoundField(u.description, Description, TextOrNull) + t3;
    var r1 := row.(name := NewNonNullOr(u.name, row.name));
    var r2 := r1.(description := NewOr(u.description, row.description));
    var r3 := r2.(price := NewNonNullOr(u.price, row.price));
    var r4 := r3.(category := NewOr(u.category, row.category));
    var r5 := r4.(stock := NewNonNullOr(u.stock, row.stock));
    var r6 := r5.(image := NewOr(u.image, row.image));
    var r7 := r6.(brand := NewOr(u.brand, row.brand));
    var r8 := r7.(onSale := NewNonNullOr(u.onSale, row.onSale));
    var r9 := r8.(updatedBy := NewOr(u.updatedBy, row.updatedBy));
    NameClause(row, u, t2, now);
    DescriptionClause(r1, u, t3, now);
    PriceClause(r2, u, t4, now);
    CategoryClause(r3, u, t5, now);
    StockClause(r4, u, t6, now);
    ImageClause(r5, u, t7, now);
    BrandClause(r6, u, t8, now);
    OnSaleClause(r7, u, t9, now);
    UpdatedByClause(r8, u, t10, now);
    assert ApplyBindings(r9, t10, ProductAssigner(now)) == Ok(r9.(updatedAt := Some(now)));
  }

  /**
   * Running the built statement on a row yields the merged row, unless a NOT
   * NULL column was given null, which fails the whole statement.
   */
  lemma ProductUpdateEffect(row: Product, id: ProductId, u: ProductUpdates, now: Time)
    ensures ExecUpdate(row, ProductStatement(id, u), ProductAssigner(now)) ==
      if RejectsNull(u) then Err(NotNullViolation) else Ok(MergedProduct(row, u, now))
  {
    ProductStatementBinds(id, u);
    ApplyProductClauses(row, u, now);
  }

  /** What `updateProduct` answers. */
  function UpdateProductResult(products: map<ProductId, Product>, id: ProductId, u: ProductUpdates, now: Time): Result<Option<Product>> {
    if id !in products then Ok(None)
    else if RejectsNull(u) then Err(NotNullViolation)
    else Ok(Some(MergedProduct(products[id], u, now)))
  }

  /** The `products` table after `updateProduct`. */
  function ProductsAfterUpdate(products: map<ProductId, Product>, id: ProductId, u: ProductUpdates, now: Time): map<ProductId, Product> {
    if id in products && !RejectsNull(u) then products[id := MergedProduct(products[id], u, now)] else products
  }

  /**
   * No row with the id gives no row back; a null for a NOT NULL column is an
   * error and changes nothing; otherwise the merged row replaces the old one
   * and is answered.
   */
  lemma UpdateProductCases(products: map<ProductId, Product>, id: ProductId, u: ProductUpdates, now: Time)
    ensures id !in products ==> UpdateProductResult(products, id, u, now) == Ok(None) && ProductsAfterUpdate(products, id, u, now) == products
    ensures id in products && RejectsNull(u) ==>
      UpdateProductResult(products, id, u, now) == Err(NotNullViolation) && ProductsAfterUpdate(products, id, u, now) == products
    ensures id in products && !RejectsNull(u) ==>
      && ProductsAfterUpdate(products, id, u, now)[id] == MergedProduct(products[id], u, now)
      && UpdateProductResult(products, id, u, now) == Ok(Some(ProductsAfterUpdate(products, id, u, now)[id]))
  {
  }

  /**
   * An update changes at most the one row; it never changes the id, the
   * creator or the creation time, and a successful one always stamps
   * `updated_at` with the statement time.
   */
  lemma UpdateKeepsIdentity(products: map<ProductId, Product>, id: ProductId, u: ProductUpdates, now: Time)
    ensures var after := ProductsAfterUpdate(products, id, u, now);
      && after.Keys == products.Keys
      && (forall k :: k in products && k != id ==> after[k] == products[k])
      && (forall k :: k in products ==>
            after[k].id == products[k].id && after[k].createdBy == products[k].createdBy && after[k].createdAt == products[k].createdAt)
      && (id in products && !RejectsNull(u) ==> after[id].updatedAt == Some(now))
  {
  }

  /** `UPDATE ... RETURNING *`, run on the row with the id. */
  method UpdateProduct(db: Database, id: ProductId, u: ProductUpdates, now: Time) returns (r: Result<Option<Product>>)
    requires db.Valid()
    modifies db`products
    ensures db.Valid()
    ensures r == UpdateProductResult(old(db.products), id, u, now)
    ensures db.products == ProductsAfterUpdate(old(db.products), id, u, now)
  {
    var stmt := BuildProductUpdate(id, u);
    if id !in db.products {
      return Ok(None);
    }
    var row := db.products[id];
    ProductUpdateEffect(row, id, u, now);
    match ExecUpdate(row, stmt, ProductAssigner(now))
    case Err(e) =>
      r := Err(e);
    case Ok(updated) =>
      db.products := db.products[id := updated];
      r := Ok(Some(updated));
  }

  // ---------------------------------------------------------------------------
  // Delete.

  /** `ON DELETE RESTRICT` on `cart_items.product_id` refuses to delete a product still in a cart. */
  method DeleteProduct(db: Database, id: ProductId) returns (r: Result<bool>)
    requires db.Valid()
    modifies db`products
    ensures db.Valid()
    ensures ProductReferenced(old(db.cartItems), id) ==>
      r == Err(ForeignKeyViolation) && db.products == old(db.products)
    ensures !ProductReferenced(old(db.cartItems), id) ==>
      r == Ok(id in old(db.products)) && db.products == old(db.products) - {id}
  {
    if ProductReferenced(db.cartItems, id) {
      return Err(ForeignKeyViolation);
    }
    r := Ok(id in db.products);
    db.products := db.products - {id};
  }
}
