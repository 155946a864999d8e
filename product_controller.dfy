/**
 * The product handlers: the public listings and lookup, and the three admin
 * writes (create, update, delete). Store errors are answered with 500 and the
 * error itself.
 */
module ProductController {
  import opened Store
  import opened Http
  import Query
  import ProductModel

  const ProductNotFoundMessage: string := "Produto não encontrado"

  // ---------------------------------------------------------------------------
  // Listings and lookup.

  /** `search` is used only when truthy: present and not empty. */
  predicate Searching(search: Option<string>) {
    search.Some? && search.value != ""
  }

  /** GET /products: the name search when `search` is truthy, otherwise every product; always by name. */
  method GetAll(db: Database, search: Option<string>) returns (reply: Reply)
    requires db.Valid()
    ensures reply.Reply? && reply.status == 200 && reply.payload.ProductList?
    ensures Query.SortedBy(reply.payload.products, ProductModel.NameKey)
    ensures Searching(search) ==>
      multiset(reply.payload.products) == multiset(Query.Matching(db.products.Values, ProductModel.NameLike(search.value)))
    ensures !Searching(search) ==> multiset(reply.payload.products) == multiset(db.products.Values)
  {
    var rows: seq<Product>;
    if Searching(search) {
      rows := ProductModel.SearchProducts(db, search.value);
    } else {
      rows := ProductModel.GetAll(db);
    }
    reply := Reply(200, ProductList(rows));
  }

  /** An empty search term would list every product anyway: the truthiness test changes no answer. */
  lemma {:induction false} EmptySearchMatchesAll(vals: set<Product>)
    ensures Query.Matching(vals, ProductModel.NameLike("")) == vals
  {
    forall p | p in vals ensures ProductModel.NameLike("")(p) {
      Query.SearchPatternIsContainment(p.name, "");
      assert Query.PrefixFolded("", p.name[0..]);
    }
  }

  /** GET /products/category/:category */
  method GetByCategory(db: Database, category: string) returns (reply: Reply)
    requires db.Valid()
    ensures reply.Reply? && reply.status == 200 && reply.payload.ProductList?
    ensures Query.SortedBy(reply.payload.products, ProductModel.NameKey)
    ensures multiset(reply.payload.products) == multiset(Query.Matching(db.products.Values, ProductModel.InCategory(category)))
  {
    var rows := ProductModel.GetByCategory(db, category);
    reply := Reply(200, ProductList(rows));
  }

  /** GET /products/brand/:brand */
  method GetByBrand(db: Database, brand: string) returns (reply: Reply)
    requires db.Valid()
    ensures reply.Reply? && reply.status == 200 && reply.payload.ProductList?
    ensures Query.SortedBy(reply.payload.products, ProductModel.NameKey)
    ensures multiset(reply.payload.products) == multiset(Query.Matching(db.products.Values, ProductModel.OfBrand(brand)))
  {
    var rows := ProductModel.GetByBrand(db, brand);
    reply := Reply(200, ProductList(rows));
  }

  /** GET /products/outlet */
  method GetOnSale(db: Database) returns (reply: Reply)
    requires db.Valid()
    ensures reply.Reply? && reply.status == 200 && reply.payload.ProductList?
    ensures Query.SortedBy(reply.payload.products, ProductModel.NameKey)
    ensures multiset(reply.payload.products) == multiset(Query.Matching(db.products.Values, ProductModel.IsOnSale))
  {
    var rows := ProductModel.GetOnSale(db);
    reply := Reply(200, ProductList(rows));
  }

  /** GET /products/:id: the stored row, or 404. */
  method GetById(db: Database, id: ProductId) returns (reply: Reply)
    requires db.Valid()
    ensures id in db.products ==> reply == Reply(200, OneProduct(db.products[id]))
    ensures id !in db.products ==> reply == Reply(404, ErrorMessage(ProductNotFoundMessage))
  {
    var p := ProductModel.GetById(db, id);
    reply := if p.Some? then Reply(200, OneProduct(p.value)) else Reply(404, ErrorMessage(ProductNotFoundMessage));
  }

  // ---------------------------------------------------------------------------
  // Create.

  /** The `images` key: one value (a string or null) or an array of them. */
  datatype Images = Single(value: Option<string>) | List(items: seq<Option<string>>)

  /** `Array.isArray(images) ? images[0] : images`; the first element of an empty array is `undefined`. */
  function FirstImage(images: Images): Field<Option<string>> {
    match images
    case Single(v) => Given(v)
    case List(items) => if items == [] then Absent else Given(items[0])
  }

  /** The body of POST /products; absent keys and nulls both reach the store as NULL. */
  datatype CreateBody = CreateBody(
    name: Option<string>,
    description: Option<string>,
    price: Option<Cents>,
    category: Option<string>,
    stock: Option<int>,
    images: Field<Images>,
    brand: Option<string>,
    onSale: Option<bool>)

  function Unwrapped(f: Field<Option<string>>): Option<string> {
    if f.Given? then f.value else None
  }

  /** The row `createProduct` asks for: the first image, `on_sale`, and the caller as creator. */
  function NewProductOf(body: CreateBody, creator: UserId): ProductModel.NewProduct {
    var image := if body.images.Given? then Unwrapped(FirstImage(body.images.value)) else None;
    ProductModel.NewProduct(body.name, body.description, body.price, body.category, body.stock,
                            image, body.brand, body.onSale, Some(creator))
  }

  /** 201 with the stored row; a store error is 500. */
  function CreateReply(r: Result<Product>): Reply {
    match r
    case Ok(p) => Reply(201, OneProduct(p))
    case Err(e) => Reply(500, StoreFailure(e))
  }

  /** POST /products, behind `authenticate` and `isAdmin`. */
  method CreateProduct(db: Database, body: CreateBody, user: PublicUser, now: Time) returns (reply: Reply)
    requires db.Valid()
    modifies db`products, db`nextProductId
    ensures db.Valid()
    ensures var p := NewProductOf(body, user.id);
      var e := ProductModel.InsertError(old(db.users), p);
      && (e.Some? ==> reply == Reply(500, StoreFailure(e.value)) && db.products == old(db.products))
      && (e.None? ==>
            var row := ProductModel.Inserted(old(db.nextProductId), p, now);
            && reply == Reply(201, OneProduct(row))
            && db.products == old(db.products)[row.id := row])
    ensures db.nextProductId == old(db.nextProductId) + 1
  {
    var r := ProductModel.CreateProduct(db, NewProductOf(body, user.id), now);
    reply := CreateReply(r);
  }

  /**
   * Created by a stored user, a product is refused only for a missing name,
   * price, stock or `on_sale`, never for its creator, and the stored row
   * names that user as creator and carries the first image sent.
   */
  lemma CreateByStoredUser(users: map<UserId, User>, body: CreateBody, creator: UserId, id: ProductId, now: Time)
    requires creator in users
    ensures var p := NewProductOf(body, creator);
      ProductModel.InsertError(users, p).None? <==>
        body.name.Some? && body.price.Some? && body.stock.Some? && body.onSale.Some?
    ensures ProductModel.InsertError(users, NewProductOf(body, creator)) != Some(ForeignKeyViolation)
    ensures var p := NewProductOf(body, creator);
      ProductModel.InsertError(users, p).None? ==>
        && ProductModel.Inserted(id, p, now).createdBy == Some(creator)
        && (body.images.Given? && body.images.value.List? && body.images.value.items != [] ==>
              ProductModel.Inserted(id, p, now).image == body.images.value.items[0])
  {
  }

  // ---------------------------------------------------------------------------
  // Update.

  /** The body of PUT /products/:id; any `updatedBy` it holds is overwritten, so it is not a key here. */
  datatype UpdateBody = UpdateBody(
    name: Field<Option<string>>,
    description: Field<Option<string>>,
    price: Field<Option<Cents>>,
    category: Field<Option<string>>,
    stock: Field<Option<int>>,
    image: Field<Option<string>>,
    images: Field<Images>,
    brand: Field<Option<string>>,
    onSale: Field<Option<bool>>)

  /** `{ ...req.body, updatedBy: req.user.id }`, with `images`, when present, replacing `image`. */
  function UpdatesOf(body: UpdateBody, editor: UserId): ProductModel.ProductUpdates {
    var image := if body.images.Given? then FirstImage(body.images.value) else body.image;
    ProductModel.ProductUpdates(body.name, body.description, body.price, body.category, body.stock,
                                image, body.brand, body.onSale, Given(Some(editor)))
  }

  /** No row is 404, the updated row 200, a store error 500. */
  function UpdateReply(r: Result<Option<Product>>): Reply {
    match r
    case Ok(Some(p)) => Reply(200, OneProduct(p))
    case Ok(None) => Reply(404, ErrorMessage(ProductNotFoundMessage))
    case Err(e) => Reply(500, StoreFailure(e))
  }

  /** PUT /products/:id, behind `authenticate` and `isAdmin`. */
  method UpdateProduct(db: Database, id: ProductId, body: UpdateBody, user: PublicUser, now: Time) returns (reply: Reply)
    requires db.Valid()
    modifies db`products
    ensures db.Valid()
    ensures reply == UpdateReply(ProductModel.UpdateProductResult(old(db.products), id, UpdatesOf(body, user.id), now))
    ensures db.products == ProductModel.ProductsAfterUpdate(old(db.products), id, UpdatesOf(body, user.id), now)
  {
    var r := ProductModel.UpdateProduct(db, id, UpdatesOf(body, user.id), now);
    reply := UpdateReply(r);
  }

  /**
   * An accepted update, even of an empty body, records the caller as the
   * last editor and the statement time; `images` wins over `image`; an
   * unknown id is 404 and a null name, price, stock or `on_sale` is 500.
   */
  lemma UpdateRecordsEditor(products: map<ProductId, Product>, id: ProductId, body: UpdateBody, editor: UserId, now: Time)
    ensures id !in products ==>
      UpdateReply(ProductModel.UpdateProductResult(products, id, UpdatesOf(body, editor), now)) == Reply(404, ErrorMessage(ProductNotFoundMessage))
    ensures id in products && ProductModel.RejectsNull(UpdatesOf(body, editor)) ==>
      UpdateReply(ProductModel.UpdateProductResult(products, id, UpdatesOf(body, editor), now)) == Reply(500, StoreFailure(NotNullViolation))
    ensures ProductModel.RejectsNull(UpdatesOf(body, editor)) <==>
      body.name == Given(None) || body.price == Given(None) || body.stock == Given(None) || body.onSale == Given(None)
    ensures id in products && !ProductModel.RejectsNull(UpdatesOf(body, editor)) ==>
      var after := ProductModel.ProductsAfterUpdate(products, id, UpdatesOf(body, editor), now);
      && after[id].updatedBy == Some(editor)
      && after[id].updatedAt == Some(now)
      && (body.images.Given? && body.images.value.List? && body.images.value.items != [] ==>
            after[id].image == body.images.value.items[0])
  {
  }

  // ---------------------------------------------------------------------------
  // Delete.

  /** 204 when a row went, 404 when none had the id, 500 on a store error. */
  function DeleteReply(r: Result<bool>): Reply {
    match r
    case Ok(true) => Reply(204, NoBody)
    case Ok(false) => Reply(404, ErrorMessage(ProductNotFoundMessage))
    case Err(e) => Reply(500, StoreFailure(e))
  }

  /** DELETE /products/:id, behind `authenticate` and `isAdmin`: a product still in a cart is not deleted. */
  method DeleteProduct(db: Database, id: ProductId) returns (reply: Reply)
    requires db.Valid()
    modifies db`products
    ensures db.Valid()
    ensures ProductReferenced(old(db.cartItems), id) ==>
      reply == Reply(500, StoreFailure(ForeignKeyViolation)) && db.products == old(db.products)
    ensures !ProductReferenced(old(db.cartItems), id) && id in old(db.products) ==>
      reply == Reply(204, NoBody) && db.products == old(db.products) - {id}
    ensures !ProductReferenced(old(db.cartItems), id) && id !in old(db.products) ==>
      reply == Reply(404, ErrorMessage(ProductNotFoundMessage)) && db.products == old(db.products)
  {
    var r := ProductModel.DeleteProduct(db, id);
    reply := DeleteReply(r);
  }
}
