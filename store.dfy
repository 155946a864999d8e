/**
 * The relational store behind the backend, as abstract state: the `users`,
 * `products` and `cart_items` tables, the row shapes the queries return, and
 * the schema constraints the store enforces (primary keys, the unique email,
 * the composite cart key, the foreign keys with their CASCADE / RESTRICT /
 * SET NULL actions).
 */
module Store {

  datatype Option<T> = None | Some(value: T)

  /** A JSON body key: absent (`undefined` in JavaScript) or present with a value. */
  datatype Field<T> = Absent | Given(value: T)

  type UserId = int
  type ProductId = int
  /** Timestamps are opaque clock readings supplied by the caller (`NOW()`). */
  type Time = int
  /** `numeric(10,2)` prices, held as a whole number of cents. */
  type Cents = int

  /** Errors the store raises instead of performing a write. */
  datatype DbError =
    | ForeignKeyViolation
    | UniqueViolation
    | NotNullViolation
    | IntegerOutOfRange
    | InvalidInput

  datatype Result<T> = Ok(value: T) | Err(error: DbError)

  datatype Outcome = Done | Failed(error: DbError)

  /** Range of the PostgreSQL `integer` type. */
  const Int32Min: int := -0x8000_0000
  const Int32Max: int := 0x7fff_ffff

  predicate FitsInt32(x: int) {
    Int32Min <= x <= Int32Max
  }

  /** Column default of `users.role`. */
  const DefaultRole: string := "user"
  const AdminRole: string := "admin"

  /** A row of `users`. */
  datatype User = User(
    id: UserId,
    email: string,
    passwordHash: string,
    firstName: Option<string>,
    lastName: Option<string>,
    address: Option<string>,
    role: string,
    createdAt: Time)

  /** A row of `products`. */
  datatype Product = Product(
    id: ProductId,
    name: string,
    description: Option<string>,
    price: Cents,
    category: Option<string>,
    stock: int,
    image: Option<string>,
    brand: Option<string>,
    onSale: bool,
    createdBy: Option<UserId>,
    updatedBy: Option<UserId>,
    createdAt: Time,
    updatedAt: Option<Time>)

  /** The composite primary key of `cart_items`. */
  datatype CartKey = CartKey(userId: UserId, productId: ProductId)

  /** `id, email, first_name, last_name, address, role`: a user without the hash. */
  datatype PublicUser = PublicUser(
    id: UserId,
    email: string,
    firstName: Option<string>,
    lastName: Option<string>,
    address: Option<string>,
    role: string)

  /** A public user together with `created_at`. */
  datatype DatedUser = DatedUser(user: PublicUser, createdAt: Time)

  /** `id, email, password_hash, role`: what the login lookup selects. */
  datatype Credentials = Credentials(id: UserId, email: string, passwordHash: string, role: string)

  /** A cart line joined with the product's display columns. */
  datatype CartRow = CartRow(productId: ProductId, quantity: int, name: string, price: Cents, image: Option<string>)

  function PublicOf(u: User): PublicUser {
    PublicUser(u.id, u.email, u.firstName, u.lastName, u.address, u.role)
  }

  function DatedOf(u: User): DatedUser {
    DatedUser(PublicOf(u), u.createdAt)
  }

  function CredentialsOf(u: User): Credentials {
    Credentials(u.id, u.email, u.passwordHash, u.role)
  }

  /** Every row is stored under its own id, and ids were drawn from the serial below `next`. */
  predicate UsersKeyed(users: map<UserId, User>, next: UserId) {
    forall id :: id in users ==> users[id].id == id && 0 < id < next
  }

  predicate ProductsKeyed(products: map<ProductId, Product>, next: ProductId) {
    forall id :: id in products ==> products[id].id == id && 0 < id < next
  }

  /** `users.email` is UNIQUE. */
  predicate UniqueEmails(users: map<UserId, User>) {
    forall a, b :: a in users && b in users && users[a].email == users[b].email ==> a == b
  }

  predicate EmailTaken(users: map<UserId, User>, email: string) {
    exists id :: id in users && users[id].email == email
  }

  /** Both foreign keys of `cart_items` resolve: no line outlives its user or its product. */
  predicate CartReferencesResolve(users: map<UserId, User>, products: map<ProductId, Product>, cart: map<CartKey, int>) {
    forall k :: k in cart ==> k.userId in users && k.productId in products
  }

  /** `products.created_by` references `users(id)`. */
  predicate CreatorsResolve(users: map<UserId, User>, products: map<ProductId, Product>) {
    forall id :: id in products && products[id].createdBy.Some? ==> products[id].createdBy.value in users
  }

  /** Some cart line references the product (what `ON DELETE RESTRICT` checks). */
  predicate ProductReferenced(cart: map<CartKey, int>, id: ProductId) {
    exists k :: k in cart && k.productId == id
  }

  /** The cart with every line of user `u` deleted. */
  function LinesWithoutUser(cart: map<CartKey, int>, u: UserId): (r: map<CartKey, int>)
    ensures forall k :: k in r <==> k in cart && k.userId != u
    ensures forall k :: k in r ==> r[k] == cart[k]
  {
    map k | k in cart && k.userId != u :: cart[k]
  }

  /** `created_by` set to NULL on every product that user `u` created. */
  function CreatorCleared(products: map<ProductId, Product>, u: UserId): (r: map<ProductId, Product>)
    ensures r.Keys == products.Keys
    ensures forall id :: id in r ==> r[id].createdBy != Some(u)
    ensures forall id :: id in r ==> r[id] == products[id].(createdBy := r[id].createdBy)
    ensures forall id :: id in r && products[id].createdBy != Some(u) ==> r[id] == products[id]
  {
    map id | id in products ::
      if products[id].createdBy == Some(u) then products[id].(createdBy := None) else products[id]
  }

  /** The database: one object shared by every model, as the connection pool is. */
  class Database {
    var users: map<UserId, User>
    var products: map<ProductId, Product>
    var cartItems: map<CartKey, int>
    var nextUserId: UserId
    var nextProductId: ProductId

    /** The schema constraints of the three tables. */
    ghost predicate Valid()
      reads this
    {
      && 0 < nextUserId && 0 < nextProductId
      && UsersKeyed(users, nextUserId)
      && ProductsKeyed(products, nextProductId)
      && UniqueEmails(users)
      && CartReferencesResolve(users, products, cartItems)
      && CreatorsResolve(users, products)
    }

    constructor ()
      ensures Valid()
      ensures users == map[] && products == map[] && cartItems == map[]
    {
      users, products, cartItems := map[], map[], map[];
      nextUserId, nextProductId := 1, 1;
    }

    /**
     * Deleting a user row: the store cascades to the user's cart lines and
     * sets `created_by` to NULL on the products the user created.
     */
    method DeleteUser(id: UserId) returns (deleted: bool)
      requires Valid()
      modifies this`users, this`products, this`cartItems
      ensures Valid()
      ensures deleted == (id in old(users))
      ensures users == old(users) - {id}
      ensures cartItems == LinesWithoutUser(old(cartItems), id)
      ensures products == CreatorCleared(old(products), id)
    {
      deleted := id in users;
      users := users - {id};
      cartItems := LinesWithoutUser(cartItems, id);
      products := CreatorCleared(products, id);
    }
  }
}
