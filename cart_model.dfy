/**
 * The `cart_items` table as a state machine over the composite key
 * (user, product): merge-add, two-step decrement, remove, clear, and the
 * joined listing.
 */
module CartModel {
  import opened Store

  // ---------------------------------------------------------------------------
  // The effect of each statement on the table.

  /** `INSERT ... ON CONFLICT (user_id, product_id) DO UPDATE SET quantity = quantity + $3`. */
  function Upserted(cart: map<CartKey, int>, k: CartKey, q: int): map<CartKey, int> {
    cart[k := if k in cart then cart[k] + q else q]
  }

  /** `UPDATE cart_items SET quantity = quantity - $3 WHERE (user_id, product_id) = k`. */
  function Subtracted(cart: map<CartKey, int>, k: CartKey, q: int): map<CartKey, int> {
    if k in cart then cart[k := cart[k] - q] else cart
  }

  /** `DELETE FROM cart_items WHERE (user_id, product_id) = k AND quantity <= 0`. */
  function NonPositiveDeleted(cart: map<CartKey, int>, k: CartKey): map<CartKey, int> {
    if k in cart && cart[k] <= 0 then cart - {k} else cart
  }

  /** The two statements of a decrement, run one after the other. */
  function Decremented(cart: map<CartKey, int>, k: CartKey, q: int): map<CartKey, int> {
    NonPositiveDeleted(Subtracted(cart, k, q), k)
  }

  /** The error the upsert raises, if any: an out-of-range `integer`, or a missing user or product. */
  function UpsertError(users: map<UserId, User>, products: map<ProductId, Product>,
                       cart: map<CartKey, int>, k: CartKey, q: int): Option<DbError>
  {
    if !FitsInt32(q) then Some(IntegerOutOfRange)
    else if k in cart then (if FitsInt32(cart[k] + q) then None else Some(IntegerOutOfRange))
    else if k.userId !in users || k.productId !in products then Some(ForeignKeyViolation)
    else None
  }

  /** The error the first statement of a decrement raises, if any. */
  function DecrementError(cart: map<CartKey, int>, k: CartKey, q: int): Option<DbError> {
    if !FitsInt32(q) then Some(IntegerOutOfRange)
    else if k in cart && !FitsInt32(cart[k] - q) then Some(IntegerOutOfRange)
    else None
  }

  /** Lines other than `k` are the same in both tables. */
  ghost predicate SameElsewhere(a: map<CartKey, int>, b: map<CartKey, int>, k: CartKey) {
    forall k' :: k' != k ==> (k' in a <==> k' in b) && (k' in a ==> a[k'] == b[k'])
  }

  /** Every stored quantity is at least one. */
  predicate AllPositive(cart: map<CartKey, int>) {
    forall k :: k in cart ==> cart[k] >= 1
  }

  // ---------------------------------------------------------------------------
  // Properties of the statements.

  /** Add creates an absent line with the given quantity, grows a present one, and touches nothing else. */
  lemma UpsertEffect(cart: map<CartKey, int>, k: CartKey, q: int)
    ensures k !in cart ==> k in Upserted(cart, k, q) && Upserted(cart, k, q)[k] == q
    ensures k in cart ==> k in Upserted(cart, k, q) && Upserted(cart, k, q)[k] == cart[k] + q
    ensures SameElsewhere(cart, Upserted(cart, k, q), k)
  {
  }

  /** Two adds of `a` then `b` to one pair leave the original quantity (or none) plus `a + b`. */
  lemma {:induction false} UpsertTwice(cart: map<CartKey, int>, k: CartKey, a: int, b: int)
    ensures Upserted(Upserted(cart, k, a), k, b) == Upserted(cart, k, a + b)
    ensures Upserted(Upserted(cart, k, a), k, b)[k] == (if k in cart then cart[k] else 0) + a + b
  {
  }

  /**
   * After a decrement by `d`, a line that held `q` holds `q - d` when that is
   * at least one and is gone otherwise; an absent line leaves the whole table
   * unchanged; other lines are untouched.
   */
  lemma DecrementEffect(cart: map<CartKey, int>, k: CartKey, d: int)
    ensures k in cart && cart[k] - d >= 1 ==> k in Decremented(cart, k, d) && Decremented(cart, k, d)[k] == cart[k] - d
    ensures k in cart && cart[k] - d <= 0 ==> k !in Decremented(cart, k, d)
    ensures k !in cart ==> Decremented(cart, k, d) == cart
    ensures SameElsewhere(cart, Decremented(cart, k, d), k)
  {
  }

  /** A decrement never leaves a non-positive quantity behind, whatever `d` is. */
  lemma DecrementKeepsPositive(cart: map<CartKey, int>, k: CartKey, d: int)
    requires AllPositive(cart)
    ensures AllPositive(Decremented(cart, k, d))
  {
  }

  /** An add of a positive quantity keeps every quantity positive. */
  lemma UpsertKeepsPositive(cart: map<CartKey, int>, k: CartKey, q: int)
    requires AllPositive(cart) && q >= 1
    ensures AllPositive(Upserted(cart, k, q))
  {
  }

  /** Nothing stops an add of a negative quantity from storing a non-positive line. */
  lemma NegativeAddStoresNonPositiveLine(k: CartKey)
    ensures AllPositive(map[])
    ensures !AllPositive(Upserted(map[], k, -1))
  {
    assert Upserted(map[], k, -1)[k] == -1;
  }

  /** Adding `q` to a line and then taking `q` away leaves the cart as it was. */
  lemma {:induction false} DecrementUndoesUpsert(cart: map<CartKey, int>, k: CartKey, q: int)
    requires AllPositive(cart)
    ensures Decremented(Upserted(cart, k, q), k, q) == cart
  {
    if k in cart {
      assert Subtracted(Upserted(cart, k, q), k, q) == cart;
    } else {
      assert Subtracted(Upserted(cart, k, q), k, q) == cart[k := 0];
      assert cart[k := 0] - {k} == cart;
    }
  }

  /** After remove the pair is absent whether or not it was there, and nothing else changes. */
  lemma RemoveEffect(cart: map<CartKey, int>, k: CartKey)
    ensures k !in cart - {k}
    ensures SameElsewhere(cart, cart - {k}, k)
  {
  }

  /** The cart statements keep both foreign keys of `cart_items` satisfied. */
  lemma StatementsKeepReferences(users: map<UserId, User>, products: map<ProductId, Product>,
                                 cart: map<CartKey, int>, k: CartKey, q: int)
    requires CartReferencesResolve(users, products, cart)
    ensures UpsertError(users, products, cart, k, q).None? ==> CartReferencesResolve(users, products, Upserted(cart, k, q))
    ensures CartReferencesResolve(users, products, Decremented(cart, k, q))
    ensures CartReferencesResolve(users, products, cart - {k})
    ensures CartReferencesResolve(users, products, LinesWithoutUser(cart, k.userId))
  {
  }

  // ---------------------------------------------------------------------------
  // The model functions of cartModel.js.

  method UpsertCartItem(db: Database, userId: UserId, productId: ProductId, quantity: int) returns (r: Outcome)
    requires db.Valid()
    modifies db`cartItems
    ensures db.Valid()
    ensures var k := CartKey(userId, productId);
      var e := UpsertError(old(db.users), old(db.products), old(db.cartItems), k, quantity);
      && (e.Some? ==> r == Failed(e.value) && db.cartItems == old(db.cartItems))
      && (e.None? ==> r == Done && db.cartItems == Upserted(old(db.cartItems), k, quantity))
  {
    var k := CartKey(userId, productId);
    var e := UpsertError(db.users, db.products, db.cartItems, k, quantity);
    if e.Some? {
      return Failed(e.value);
    }
    StatementsKeepReferences(db.users, db.products, db.cartItems, k, quantity);
    db.cartItems := Upserted(db.cartItems, k, quantity);
    r := Done;
  }

  /** Subtract, then delete the line if it is no longer positive: two writes in sequence. */
  method DecrementCartItem(db: Database, userId: UserId, productId: ProductId, quantity: int) returns (r: Outcome)
    requires db.Valid()
    modifies db`cartItems
    ensures db.Valid()
    ensures var k := CartKey(userId, productId);
      var e := DecrementError(old(db.cartItems), k, quantity);
      && (e.Some? ==> r == Failed(e.value) && db.cartItems == old(db.cartItems))
      && (e.None? ==> r == Done && db.cartItems == Decremented(old(db.cartItems), k, quantity))
  {
    var k := CartKey(userId, productId);
    StatementsKeepReferences(db.users, db.products, db.cartItems, k, quantity);
    // first statement: UPDATE ... SET quantity = quantity - $3
    if !FitsInt32(quantity) {
      return Failed(IntegerOutOfRange);
    }
    if k in db.cartItems {
      if !FitsInt32(db.cartItems[k] - quantity) {
        return Failed(IntegerOutOfRange);
      }
      db.cartItems := db.cartItems[k := db.cartItems[k] - quantity];
    }
    // second statement: DELETE ... AND quantity <= 0
    if k in db.cartItems && db.cartItems[k] <= 0 {
      db.cartItems := db.cartItems - {k};
    }
    r := Done;
  }

  method RemoveCartItem(db: Database, userId: UserId, productId: ProductId)
    requires db.Valid()
    modifies db`cartItems
    ensures db.Valid()
    ensures db.cartItems == old(db.cartItems) - {CartKey(userId, productId)}
  {
    StatementsKeepReferences(db.users, db.products, db.cartItems, CartKey(userId, productId), 0);
    db.cartItems := db.cartItems - {CartKey(userId, productId)};
  }

  method ClearCart(db: Database, userId: UserId)
    requires db.Valid()
    modifies db`cartItems
    ensures db.Valid()
    ensures db.cartItems == LinesWithoutUser(old(db.cartItems), userId)
  {
    StatementsKeepReferences(db.users, db.products, db.cartItems, CartKey(userId, 0), 0);
    db.cartItems := LinesWithoutUser(db.cartItems, userId);
  }

  /** A line joined with its product's current name, price and image. */
  function JoinedRow(products: map<ProductId, Product>, k: CartKey, quantity: int): CartRow
    requires k.productId in products
  {
    var p := products[k.productId];
    CartRow(k.productId, quantity, p.name, p.price, p.image)
  }

  /** The lines of one user, each joined with its product; every line exactly once. */
  method GetCartItems(db: Database, userId: UserId) returns (rows: seq<CartRow>)
    requires db.Valid()
    ensures forall i :: 0 <= i < |rows| ==>
      var k := CartKey(userId, rows[i].productId);
      k in db.cartItems && rows[i] == JoinedRow(db.products, k, db.cartItems[k])
    ensures forall k :: k in db.cartItems && k.userId == userId ==>
      exists i :: 0 <= i < |rows| && rows[i].productId == k.productId
    ensures forall i, j :: 0 <= i < j < |rows| ==> rows[i].productId != rows[j].productId
  {
    var lines := set k | k in db.cartItems && k.userId == userId;
    var todo := lines;
    rows := [];
    while todo != {}
      invariant todo <= lines
      invariant forall i :: 0 <= i < |rows| ==>
        var k := CartKey(userId, rows[i].productId);
        k in lines - todo && rows[i] == JoinedRow(db.products, k, db.cartItems[k])
      invariant forall k :: k in lines - todo ==>
        exists i :: 0 <= i < |rows| && rows[i].productId == k.productId
      invariant forall i, j :: 0 <= i < j < |rows| ==> rows[i].productId != rows[j].productId
      decreases |todo|
    {
      var k :| k in todo;
      ghost var before := rows;
      rows := rows + [JoinedRow(db.products, k, db.cartItems[k])];
      assert forall i :: 0 <= i < |before| ==> rows[i] == before[i];
      assert rows[|before|].productId == k.productId;
      todo := todo - {k};
    }
    assert lines - todo == lines;
    forall k | k in db.cartItems && k.userId == userId
      ensures exists i :: 0 <= i < |rows| && rows[i].productId == k.productId
    {
      assert k in lines - todo;
    }
  }
}
