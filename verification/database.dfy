/**
 * The persisted rows the services read and write, and the store that holds
 * them. Tables looked up only by their unique key are maps; tables the services
 * scan with `findFirst`/`findMany` are sequences of rows in insertion order.
 */
module Db {
  import opened Wrappers

  /**
   * A signed refresh token. Signing is deterministic, so two tokens are the same
   * string exactly when they carry the same claims; anything else presented as
   * a token is `Forged`.
   */
  datatype RefreshJwt =
    | Signed(userId: string, sessionId: string, issuedAt: int, expiresAt: int)
    | Forged(raw: string)

  datatype User = User(id: string, name: string, email: string, password: string)

  datatype Session = Session(
    id: string,
    userId: string,
    refreshToken: RefreshJwt,
    expiresAt: int,
    deleted: bool,
    deletedAt: Option<int>)

  datatype Category = Category(id: string, name: string)

  /**
   * A product row. `price` is the naira amount as entered (an exact rational
   * here) and `unitPrice` the integer kobo amount derived from it.
   */
  datatype Product = Product(
    id: string,
    sku: string,
    name: string,
    description: string,
    price: real,
    unitPrice: int,
    stockLevel: int,
    createdBy: string,
    categoryId: string)

  /** A stored idempotency key; `productId` names a product that may since have been deleted. */
  datatype IdempotencyRecord = IdempotencyRecord(
    id: string,
    key: string,
    userId: string,
    productId: string,
    expiresAt: int)

  datatype Cart = Cart(id: string, createdBy: string)

  datatype CartItem = CartItem(id: string, cartId: string, productId: string, quantity: int)

  /** The store every service shares. */
  class Database {
    var users: seq<User>
    var sessions: seq<Session>
    var categories: map<string, Category>
    var products: map<string, Product>
    /** Keyed by the idempotency key itself, which is unique. */
    var idempotencyKeys: map<string, IdempotencyRecord>
    var carts: seq<Cart>
    var cartItems: seq<CartItem>

    constructor ()
      ensures users == [] && sessions == [] && carts == [] && cartItems == []
      ensures categories == map[] && products == map[] && idempotencyKeys == map[]
    {
      users := [];
      sessions := [];
      categories := map[];
      products := map[];
      idempotencyKeys := map[];
      carts := [];
      cartItems := [];
    }
  }
}
