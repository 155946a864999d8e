/**
 * The cart handlers, all behind `authenticate` and keyed by the caller's
 * `req.userId`. None of them catches a store error: the failure is left to
 * the promise the handler returns.
 */
module CartController {
  import opened Store
  import opened Http
  import CartModel

  /** `quantity || 1`: a missing, null or zero quantity adds one; anything else, negatives included, is used as sent. */
  function AddQuantity(quantity: Option<int>): (q: int)
    ensures q != 0
    ensures quantity.Some? && quantity.value != 0 ==> q == quantity.value
    ensures (quantity.None? || quantity.value == 0) ==> q == 1
  {
    if quantity.None? || quantity.value == 0 then 1 else quantity.value
  }

  /** `{ quantity = 1 } = req.body`: only a missing key defaults. */
  function DecrementQuantity(quantity: Field<int>): int {
    if quantity.Absent? then 1 else quantity.value
  }

  /** 204 with no body, or the store error left unhandled. */
  function CartReply(o: Outcome): (reply: Reply)
    ensures o.Done? <==> reply == Reply(204, NoBody)
  {
    match o
    case Done => Reply(204, NoBody)
    case Failed(e) => Unhandled(e)
  }

  /** GET /cart: `res.json` of the caller's joined lines. */
  method FetchCart(db: Database, userId: UserId) returns (reply: Reply)
    requires db.Valid()
    ensures reply.Reply? && reply.status == 200 && reply.payload.CartList?
    ensures var rows := reply.payload.rows;
      && (forall i :: 0 <= i < |rows| ==>
            var k := CartKey(userId, rows[i].productId);
            k in db.cartItems && rows[i] == CartModel.JoinedRow(db.products, k, db.cartItems[k]))
      && (forall k :: k in db.cartItems && k.userId == userId ==>
            exists i :: 0 <= i < |rows| && rows[i].productId == k.productId)
      && (forall i, j :: 0 <= i < j < |rows| ==> rows[i].productId != rows[j].productId)
  {
    var rows := CartModel.GetCartItems(db, userId);
    reply := Reply(200, CartList(rows));
  }

  /**
   * The error of an upsert whose `product_id` is NULL: the quantity is bound
   * as an `integer` first, then the row is refused by NOT NULL before any key
   * or reference is looked at.
   */
  function NullProductError(q: int): (e: DbError)
    ensures e == NotNullViolation <==> FitsInt32(q)
    ensures e == IntegerOutOfRange <==> !FitsInt32(q)
  {
    if FitsInt32(q) then NotNullViolation else IntegerOutOfRange
  }

  /** POST /cart: the body is not validated, so `productId` may be missing or null. */
  method AddToCart(db: Database, userId: UserId, productId: Option<ProductId>, quantity: Option<int>) returns (reply: Reply)
    requires db.Valid()
    modifies db`cartItems
    ensures db.Valid()
    ensures productId.None? ==>
      reply == Unhandled(NullProductError(AddQuantity(quantity))) && db.cartItems == old(db.cartItems)
    ensures productId.Some? ==>
      var k := CartKey(userId, productId.value);
      var q := AddQuantity(quantity);
      var e := CartModel.UpsertError(old(db.users), old(db.products), old(db.cartItems), k, q);
      && (e.Some? ==> reply == Unhandled(e.value) && db.cartItems == old(db.cartItems))
      && (e.None? ==> reply == Reply(204, NoBody) && db.cartItems == CartModel.Upserted(old(db.cartItems), k, q))
  {
    if productId.None? {
      return Unhandled(NullProductError(AddQuantity(quantity)));
    }
    var o := CartModel.UpsertCartItem(db, userId, productId.value, AddQuantity(quantity));
    reply := CartReply(o);
  }

  /** PATCH /cart/:productId */
  method DecrementFromCart(db: Database, userId: UserId, productId: ProductId, quantity: Field<int>) returns (reply: Reply)
    requires db.Valid()
    modifies db`cartItems
    ensures db.Valid()
    ensures var k := CartKey(userId, productId);
      var q := DecrementQuantity(quantity);
      var e := CartModel.DecrementError(old(db.cartItems), k, q);
      && (e.Some? ==> reply == Unhandled(e.value) && db.cartItems == old(db.cartItems))
      && (e.None? ==> reply == Reply(204, NoBody) && db.cartItems == CartModel.Decremented(old(db.cartItems), k, q))
  {
    var o := CartModel.DecrementCartItem(db, userId, productId, DecrementQuantity(quantity));
    reply := CartReply(o);
  }

  /** DELETE /cart/:productId */
  method RemoveFromCart(db: Database, userId: UserId, productId: ProductId) returns (reply: Reply)
    requires db.Valid()
    modifies db`cartItems
    ensures db.Valid()
    ensures reply == Reply(204, NoBody)
    ensures db.cartItems == old(db.cartItems) - {CartKey(userId, productId)}
  {
    CartModel.RemoveCartItem(db, userId, productId);
    reply := Reply(204, NoBody);
  }

  /** DELETE /cart */
  method EmptyCart(db: Database, userId: UserId) returns (reply: Reply)
    requires db.Valid()
    modifies db`cartItems
    ensures db.Valid()
    ensures reply == Reply(204, NoBody)
    ensures db.cartItems == LinesWithoutUser(old(db.cartItems), userId)
  {
    CartModel.ClearCart(db, userId);
    reply := Reply(204, NoBody);
  }

  /**
   * For an authenticated caller the user reference always resolves, so an
   * add fails only for an unknown product or an out-of-range quantity.
   */
  lemma AddFailsOnlyForProductOrRange(users: map<UserId, User>, products: map<ProductId, Product>,
                                      cart: map<CartKey, int>, userId: UserId, productId: ProductId, quantity: Option<int>)
    requires userId in users
    ensures var e := CartModel.UpsertError(users, products, cart, CartKey(userId, productId), AddQuantity(quantity));
      && (e == Some(ForeignKeyViolation) ==> productId !in products)
      && (e.Some? ==> e == Some(ForeignKeyViolation) || e == Some(IntegerOutOfRange))
  {
  }

  /** Adding without a quantity and then decrementing without one leaves a cart of positive lines as it was. */
  lemma DefaultAddThenDefaultDecrement(cart: map<CartKey, int>, k: CartKey)
    requires CartModel.AllPositive(cart)
    ensures CartModel.Decremented(CartModel.Upserted(cart, k, AddQuantity(None)), k, DecrementQuantity(Absent)) == cart
  {
    CartModel.DecrementUndoesUpsert(cart, k, 1);
  }
}
