/** What a handler or middleware hands back to the HTTP layer. */
module Http {
  import opened Store

  /** The JSON body of a response. */
  datatype Payload =
    | NoBody
    | ErrorMessage(text: string)
    | FieldErrors(errors: seq<string>)
    | StoreFailure(error: DbError)
    | OneUser(user: PublicUser)
    | UserList(users: seq<DatedUser>)
    | OneProduct(product: Product)
    | ProductList(products: seq<Product>)
    | CartList(rows: seq<CartRow>)
    | Session(token: string, email: string)

  /**
   * A handler either answers with a status and a body, or its promise
   * rejects with a store error that no `try` catches.
   */
  datatype Reply = Reply(status: int, payload: Payload) | Unhandled(error: DbError)

  /** A middleware either calls `next()` or answers and stops the chain. */
  datatype GateOutcome = Next | Halt(status: int, message: string)

  const ServerError: string := "Erro no servidor"
}
