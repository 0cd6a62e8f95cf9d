/**
 * The cart engine: each user owns at most one cart, created on first use, and a
 * cart holds at most one line per product. Adding, re-quantifying and removing
 * lines check the product and its stock first; every call answers with a view
 * of the cart whose totals are integer kobo.
 *
 * Each operation is specified by a step function from the cart and cart-item
 * tables (and the product table it reads) to the outcome and the new tables;
 * `CartService`'s methods are proved to perform exactly that step.
 */
module Carts {
  import opened Wrappers
  import opened JsString
  import opened Db

  const QuantityMessage := "Quantity must be at least 1"
  const ProductMissingMessage := "Product not found"
  const OwnProductMessage := "You cannot add your own products to your cart"
  const LineMissingMessage := "Item not found in cart"

  function StockMessage(requested: int, stock: int): string {
    "Requested quantity (" + IntToString(requested) + ") exceeds available stock (" + IntToString(stock) + ")"
  }

  /** The two tables the cart engine writes. */
  datatype CartState = CartState(carts: seq<Cart>, items: seq<CartItem>)

  /** What a call answers and the tables it leaves behind. */
  datatype Step<+T> = Step(result: Result<T, ApiError>, state: CartState)

  datatype CartViewItem = CartViewItem(
    productId: string,
    sku: string,
    name: string,
    price: real,
    unitPrice: int,
    quantity: int,
    itemTotalKobo: int)

  datatype CartView = CartView(id: string, items: seq<CartViewItem>, subtotalKobo: int)

  // ------------------------------------------------------------------ carts

  /** The position of the first cart `userId` created (`findFirst`), or `|carts|`. */
  function CartIndex(carts: seq<Cart>, userId: string): (k: nat)
    ensures k <= |carts|
    ensures k < |carts| ==> carts[k].createdBy == userId
    ensures forall j :: 0 <= j < k ==> carts[j].createdBy != userId
  {
    if carts == [] then 0
    else if carts[0].createdBy == userId then 0
    else 1 + CartIndex(carts[1..], userId)
  }

  function FindCart(carts: seq<Cart>, userId: string): Option<Cart> {
    var k := CartIndex(carts, userId);
    if k < |carts| then Some(carts[k]) else None
  }

  predicate HasCartId(carts: seq<Cart>, id: string) {
    exists j :: 0 <= j < |carts| && carts[j].id == id
  }

  /** `getOrCreateUserCart`: the user's cart, appended with `freshId` when there is none yet. */
  function GetOrCreateUserCart(carts: seq<Cart>, userId: string, freshId: string): (r: (Cart, seq<Cart>))
    ensures r.0.createdBy == userId
    ensures FindCart(r.1, userId) == Some(r.0)
    ensures FindCart(carts, userId).Some? ==> r == (FindCart(carts, userId).value, carts)
    ensures FindCart(carts, userId).None? ==> r == (Cart(freshId, userId), carts + [Cart(freshId, userId)])
  {
    var k := CartIndex(carts, userId);
    if k < |carts| then (carts[k], carts)
    else
      var cart := Cart(freshId, userId);
      assert CartIndex(carts + [cart], userId) == |carts| by {
        assert forall j :: 0 <= j < |carts| ==> (carts + [cart])[j] == carts[j];
        CartIndexOfAppend(carts, cart, userId);
      }
      (cart, carts + [cart])
  }

  lemma {:induction false} CartIndexOfAppend(carts: seq<Cart>, cart: Cart, userId: string)
    requires forall j :: 0 <= j < |carts| ==> carts[j].createdBy != userId
    requires cart.createdBy == userId
    ensures CartIndex(carts + [cart], userId) == |carts|
  {
    if carts != [] {
      assert (carts + [cart])[1..] == carts[1..] + [cart];
      CartIndexOfAppend(carts[1..], cart, userId);
    }
  }

  // ------------------------------------------------------------------ lines

  predicate IsLine(item: CartItem, cartId: string, productId: string) {
    item.cartId == cartId && item.productId == productId
  }

  predicate SameKey(a: CartItem, b: CartItem) {
    a.cartId == b.cartId && a.productId == b.productId
  }

  /** The position of the line for (`cartId`, `productId`), or `|items|`. */
  function LineIndex(items: seq<CartItem>, cartId: string, productId: string): (k: nat)
    ensures k <= |items|
    ensures k < |items| ==> IsLine(items[k], cartId, productId)
    ensures forall j :: 0 <= j < k ==> !IsLine(items[j], cartId, productId)
  {
    if items == [] then 0
    else if IsLine(items[0], cartId, productId) then 0
    else 1 + LineIndex(items[1..], cartId, productId)
  }

  /** `cartItem.findUnique({cartId_productId})` */
  function FindLine(items: seq<CartItem>, cartId: string, productId: string): (r: Option<CartItem>)
    ensures r.Some? ==> IsLine(r.value, cartId, productId)
  {
    var k := LineIndex(items, cartId, productId);
    if k < |items| then Some(items[k]) else None
  }

  /** There is no line for (`cartId`, `productId`) exactly when no row has that key. */
  lemma {:induction false} FindLineNone(items: seq<CartItem>, cartId: string, productId: string)
    ensures FindLine(items, cartId, productId).None? <==> forall j :: 0 <= j < |items| ==> !IsLine(items[j], cartId, productId)
  {
  }

  /** The quantity of the line for (`cartId`, `productId`), 0 when there is none. */
  function LineQuantity(items: seq<CartItem>, cartId: string, productId: string): int {
    match FindLine(items, cartId, productId)
    case Some(item) => item.quantity
    case None => 0
  }

  /** `cartItem.update({cartId_productId}, {quantity})` */
  function SetLine(items: seq<CartItem>, cartId: string, productId: string, quantity: int): seq<CartItem> {
    var k := LineIndex(items, cartId, productId);
    if k == |items| then items else items[k := items[k].(quantity := quantity)]
  }

  /** `cartItem.delete({cartId_productId})` */
  function RemoveLine(items: seq<CartItem>, cartId: string, productId: string): seq<CartItem> {
    var k := LineIndex(items, cartId, productId);
    if k == |items| then items else items[..k] + items[k + 1..]
  }

  /** `cartItem.findMany({where: {cartId}})`: the cart's lines in table order. */
  function LinesOf(items: seq<CartItem>, cartId: string): (r: seq<CartItem>)
    ensures forall i :: 0 <= i < |r| ==> r[i].cartId == cartId && r[i] in items
  {
    if items == [] then []
    else if items[0].cartId == cartId then [items[0]] + LinesOf(items[1..], cartId)
    else LinesOf(items[1..], cartId)
  }

  lemma {:induction false} LineIndexConcat(a: seq<CartItem>, b: seq<CartItem>, cartId: string, productId: string)
    ensures LineIndex(a + b, cartId, productId)
      == if LineIndex(a, cartId, productId) < |a| then LineIndex(a, cartId, productId) else |a| + LineIndex(b, cartId, productId)
  {
    if a == [] {
      assert a + b == b;
    } else {
      assert (a + b)[0] == a[0];
      if !IsLine(a[0], cartId, productId) {
        assert (a + b)[1..] == a[1..] + b;
        LineIndexConcat(a[1..], b, cartId, productId);
      }
    }
  }

  lemma {:induction false} FindLineConcat(a: seq<CartItem>, b: seq<CartItem>, cartId: string, productId: string)
    ensures FindLine(a + b, cartId, productId)
      == if FindLine(a, cartId, productId).Some? then FindLine(a, cartId, productId) else FindLine(b, cartId, productId)
  {
    LineIndexConcat(a, b, cartId, productId);
    var k := LineIndex(a, cartId, productId);
    if k < |a| {
      assert (a + b)[k] == a[k];
    } else {
      var m := LineIndex(b, cartId, productId);
      if m < |b| {
        assert (a + b)[|a| + m] == b[m];
      }
    }
  }

  /** Looking a key up in `a + [x] + b`: first in `a`, then `x`, then `b`. */
  lemma {:induction false} FindLineSplice(a: seq<CartItem>, x: CartItem, b: seq<CartItem>, cartId: string, productId: string)
    ensures FindLine(a + [x] + b, cartId, productId)
      == if FindLine(a, cartId, productId).Some? then FindLine(a, cartId, productId)
         else if IsLine(x, cartId, productId) then Some(x)
         else FindLine(b, cartId, productId)
  {
    assert a + [x] + b == a + ([x] + b);
    FindLineConcat(a, [x] + b, cartId, productId);
    assert ([x] + b)[0] == x;
    if !IsLine(x, cartId, productId) {
      assert ([x] + b)[1..] == b;
    }
  }

  lemma {:induction false} LinesOfConcat(a: seq<CartItem>, b: seq<CartItem>, cartId: string)
    ensures LinesOf(a + b, cartId) == LinesOf(a, cartId) + LinesOf(b, cartId)
  {
    if a == [] {
      assert a + b == b;
    } else {
      assert (a + b)[0] == a[0];
      assert (a + b)[1..] == a[1..] + b;
      LinesOfConcat(a[1..], b, cartId);
    }
  }

  lemma {:induction false} LinesOfSingle(x: CartItem, cartId: string)
    ensures LinesOf([x], cartId) == if x.cartId == cartId then [x] else []
  {
    assert [x][1..] == [];
  }

  // -------------------------------------------------------------- invariant

  /** Every user has at most one cart. */
  ghost predicate OneCartPerUser(carts: seq<Cart>) {
    forall i, j :: 0 <= i < j < |carts| ==> carts[i].createdBy != carts[j].createdBy
  }

  ghost predicate DistinctCartIds(carts: seq<Cart>) {
    forall i, j :: 0 <= i < j < |carts| ==> carts[i].id != carts[j].id
  }

  /** At most one line per (cart, product): the `cartId_productId` unique key. */
  ghost predicate OneLinePerProduct(items: seq<CartItem>) {
    forall i, j :: 0 <= i < j < |items| ==> !SameKey(items[i], items[j])
  }

  ghost predicate PositiveQuantities(items: seq<CartItem>) {
    forall i :: 0 <= i < |items| ==> items[i].quantity >= 1
  }

  ghost predicate LinesInCarts(s: CartState) {
    forall i :: 0 <= i < |s.items| ==> HasCartId(s.carts, s.items[i].cartId)
  }

  /** What every step keeps. */
  ghost predicate Valid(s: CartState) {
    OneCartPerUser(s.carts) && DistinctCartIds(s.carts)
    && OneLinePerProduct(s.items) && PositiveQuantities(s.items) && LinesInCarts(s)
  }

  // ------------------------------------------------------------------- view

  /** One cart line joined to its product: the element `transformCartItems` maps it to. */
  function ViewLine(line: CartItem, product: Product): CartViewItem {
    CartViewItem(line.productId, product.sku, product.name, product.price, product.unitPrice,
                 line.quantity, product.unitPrice * line.quantity)
  }

  /** `transformCartItems` over the lines whose product still exists. */
  function ViewItems(lines: seq<CartItem>, products: map<string, Product>): (r: seq<CartViewItem>)
    ensures |r| <= |lines|
    ensures forall i :: 0 <= i < |r| ==> r[i].itemTotalKobo == r[i].unitPrice * r[i].quantity
  {
    if lines == [] then []
    else
      var line := lines[0];
      var rest := ViewItems(lines[1..], products);
      if line.productId in products then [ViewLine(line, products[line.productId])] + rest
      else rest
  }

  /** The view of a concatenation of lines is the concatenation of their views. */
  lemma {:induction false} ViewItemsConcat(a: seq<CartItem>, b: seq<CartItem>, products: map<string, Product>)
    ensures ViewItems(a + b, products) == ViewItems(a, products) + ViewItems(b, products)
  {
    if a == [] {
      assert a + b == b;
    } else {
      assert (a + b)[0] == a[0];
      assert (a + b)[1..] == a[1..] + b;
      ViewItemsConcat(a[1..], b, products);
    }
  }

  /** A single line appears, joined to its product, exactly when that product exists. */
  lemma {:induction false} ViewItemsSingle(x: CartItem, products: map<string, Product>)
    ensures ViewItems([x], products)
         == if x.productId in products then [ViewLine(x, products[x.productId])] else []
  {
    assert [x][1..] == [];
  }

  /** When every line's product exists, the view has one element per line, in order, each joined to its product. */
  lemma {:induction false} ViewItemsAllPresent(lines: seq<CartItem>, products: map<string, Product>)
    requires forall i :: 0 <= i < |lines| ==> lines[i].productId in products
    ensures |ViewItems(lines, products)| == |lines|
    ensures forall i :: 0 <= i < |lines| ==>
      ViewItems(lines, products)[i] == ViewLine(lines[i], products[lines[i].productId])
  {
    if lines != [] {
      ViewItemsAllPresent(lines[1..], products);
      var rest := ViewItems(lines[1..], products);
      assert ViewItems(lines, products) == [ViewLine(lines[0], products[lines[0].productId])] + rest;
      forall i | 1 <= i < |lines|
        ensures ViewItems(lines, products)[i] == ViewLine(lines[i], products[lines[i].productId])
      {
        assert lines[i] == lines[1..][i - 1];
      }
    }
  }

  /** The sum of the line totals. */
  function Sum(items: seq<CartViewItem>): int {
    if items == [] then 0 else items[0].itemTotalKobo + Sum(items[1..])
  }

  /** `items.reduce((sum, item) => sum + item.itemTotalKobo, acc)`: a left-to-right fold. */
  function Reduce(items: seq<CartViewItem>, acc: int): int {
    if items == [] then acc else Reduce(items[1..], acc + items[0].itemTotalKobo)
  }

  /** The fold the service computes adds up exactly the line totals. */
  lemma {:induction false} ReduceIsSum(items: seq<CartViewItem>, acc: int)
    ensures Reduce(items, acc) == acc + Sum(items)
  {
    if items != [] {
      ReduceIsSum(items[1..], acc + items[0].itemTotalKobo);
    }
  }

  lemma {:induction false} SumConcat(a: seq<CartViewItem>, b: seq<CartViewItem>)
    ensures Sum(a + b) == Sum(a) + Sum(b)
  {
    if a == [] {
      assert a + b == b;
    } else {
      assert (a + b)[1..] == a[1..] + b;
      SumConcat(a[1..], b);
    }
  }

  /** `buildCartView` */
  function BuildCartView(cartId: string, lines: seq<CartItem>, products: map<string, Product>): (v: CartView)
    ensures v.id == cartId
    ensures v.subtotalKobo == Sum(v.items)
  {
    var transformedItems := ViewItems(lines, products);
    ReduceIsSum(transformedItems, 0);
    CartView(cartId, transformedItems, Reduce(transformedItems, 0))
  }

  /** A cart without lines has a zero subtotal, and the subtotal of a cart is additive over its lines. */
  lemma {:induction false} ViewSubtotalAdditive(a: seq<CartItem>, b: seq<CartItem>, products: map<string, Product>)
    ensures BuildCartView("", [], products).subtotalKobo == 0
    ensures Sum(ViewItems(a + b, products)) == Sum(ViewItems(a, products)) + Sum(ViewItems(b, products))
  {
    if a == [] {
      assert a + b == b;
    } else {
      assert (a + b)[0] == a[0];
      assert (a + b)[1..] == a[1..] + b;
      ViewSubtotalAdditive(a[1..], b, products);
    }
  }

  /**
   * Two units of a product priced 99 999 kobo make one view line with a total of
   * 199 998 kobo, and that is the subtotal of a cart holding only that line.
   */
  lemma {:induction false} SingleLineViewExample(cartId: string, x: CartItem, products: map<string, Product>)
    requires x.productId in products && products[x.productId].unitPrice == 99999
    requires x.quantity == 2
    ensures var v := BuildCartView(cartId, [x], products);
      |v.items| == 1 && v.items[0].quantity == 2 && v.items[0].itemTotalKobo == 199998
      && v.subtotalKobo == 199998
  {
    ViewItemsSingle(x, products);
    var items := ViewItems([x], products);
    assert Sum(items) == items[0].itemTotalKobo + Sum(items[1..]);
    assert items[1..] == [];
  }

  /** The view of the cart `cartId` in the given tables. */
  function CartViewOf(cartId: string, items: seq<CartItem>, products: map<string, Product>): CartView {
    BuildCartView(cartId, LinesOf(items, cartId), products)
  }

  // ------------------------------------------------------------- operations

  /** `getCart`: the user's cart, created if missing, and its view. It never fails. */
  function GetCartStep(s: CartState, products: map<string, Product>, userId: string, freshCartId: string): Step<CartView> {
    var (cart, carts) := GetOrCreateUserCart(s.carts, userId, freshCartId);
    Step(Ok(CartViewOf(cart.id, s.items, products)), CartState(carts, s.items))
  }

  /**
   * The transaction of `addItem`: the line's new total (its quantity, or 0, plus
   * `quantity`) is checked against the stock, then the line is updated or created.
   */
  function AddToLine(
    items: seq<CartItem>, cartId: string, productId: string, quantity: int, stock: int,
    freshItemId: string): Result<seq<CartItem>, ApiError>
  {
    var newQuantity := LineQuantity(items, cartId, productId) + quantity;
    if newQuantity > stock then Err(ApiError(BadRequest, StockMessage(newQuantity, stock)))
    else if FindLine(items, cartId, productId).Some? then Ok(SetLine(items, cartId, productId, newQuantity))
    else Ok(items + [CartItem(freshItemId, cartId, productId, newQuantity)])
  }

  /** `addItem` */
  function AddItemStep(
    s: CartState, products: map<string, Product>, userId: string, productId: string, quantity: int,
    freshCartId: string, freshItemId: string): Step<CartView>
  {
    if quantity < 1 then Step(Err(ApiError(BadRequest, QuantityMessage)), s)
    else
      var (cart, carts) := GetOrCreateUserCart(s.carts, userId, freshCartId);
      var afterCart := CartState(carts, s.items);
      if productId !in products then Step(Err(ApiError(NotFound, ProductMissingMessage)), afterCart)
      else if products[productId].createdBy == userId then Step(Err(ApiError(BadRequest, OwnProductMessage)), afterCart)
      else
        match AddToLine(s.items, cart.id, productId, quantity, products[productId].stockLevel, freshItemId)
        case Err(e) => Step(Err(e), afterCart)
        case Ok(items) => Step(Ok(CartViewOf(cart.id, items, products)), CartState(carts, items))
  }

  /** `updateItemQuantity` */
  function UpdateItemQuantityStep(
    s: CartState, products: map<string, Product>, userId: string, productId: string, quantity: int,
    freshCartId: string): Step<CartView>
  {
    if quantity < 1 then Step(Err(ApiError(BadRequest, QuantityMessage)), s)
    else
      var (cart, carts) := GetOrCreateUserCart(s.carts, userId, freshCartId);
      var afterCart := CartState(carts, s.items);
      if productId !in products then Step(Err(ApiError(NotFound, ProductMissingMessage)), afterCart)
      else if FindLine(s.items, cart.id, productId).None? then Step(Err(ApiError(NotFound, LineMissingMessage)), afterCart)
      else if quantity > products[productId].stockLevel then
        Step(Err(ApiError(BadRequest, StockMessage(quantity, products[productId].stockLevel))), afterCart)
      else
        var items := SetLine(s.items, cart.id, productId, quantity);
        Step(Ok(CartViewOf(cart.id, items, products)), CartState(carts, items))
  }

  /** `removeItem` */
  function RemoveItemStep(
    s: CartState, products: map<string, Product>, userId: string, productId: string, freshCartId: string): Step<CartView>
  {
    var (cart, carts) := GetOrCreateUserCart(s.carts, userId, freshCartId);
    if FindLine(s.items, cart.id, productId).None? then
      Step(Err(ApiError(NotFound, LineMissingMessage)), CartState(carts, s.items))
    else
      var items := RemoveLine(s.items, cart.id, productId);
      Step(Ok(CartViewOf(cart.id, items, products)), CartState(carts, items))
  }

  // ------------------------------------------------------ line-table lemmas

  /** The rows before the first line for a key hold no line for it. */
  lemma {:induction false} NoLineBefore(items: seq<CartItem>, cartId: string, productId: string)
    ensures var k := LineIndex(items, cartId, productId);
      FindLine(items[..k], cartId, productId).None?
  {
    var k := LineIndex(items, cartId, productId);
    var a := items[..k];
    assert forall j :: 0 <= j < |a| ==> !IsLine(a[j], cartId, productId);
    FindLineNone(a, cartId, productId);
  }

  /** Re-quantifying the line for (`cartId`, `productId`) changes that line's quantity and no other line. */
  lemma {:induction false} SetLineFind(items: seq<CartItem>, cartId: string, productId: string, quantity: int, c: string, p: string)
    requires FindLine(items, cartId, productId).Some?
    ensures FindLine(SetLine(items, cartId, productId, quantity), c, p)
      == if c == cartId && p == productId
         then Some(FindLine(items, cartId, productId).value.(quantity := quantity))
         else FindLine(items, c, p)
  {
    var k := LineIndex(items, cartId, productId);
    var x := items[k];
    var a, b := items[..k], items[k + 1..];
    assert items == a + [x] + b;
    assert SetLine(items, cartId, productId, quantity) == a + [x.(quantity := quantity)] + b;
    FindLineSplice(a, x, b, c, p);
    FindLineSplice(a, x.(quantity := quantity), b, c, p);
    NoLineBefore(items, cartId, productId);
  }

  /** Re-quantifying a line of one cart leaves the lines of every other cart as they were. */
  lemma {:induction false} SetLineOtherCarts(items: seq<CartItem>, cartId: string, productId: string, quantity: int, c: string)
    requires c != cartId
    ensures LinesOf(SetLine(items, cartId, productId, quantity), c) == LinesOf(items, c)
  {
    var k := LineIndex(items, cartId, productId);
    if k < |items| {
      var x := items[k];
      var a, b := items[..k], items[k + 1..];
      assert items == a + ([x] + b);
      assert SetLine(items, cartId, productId, quantity) == a + ([x.(quantity := quantity)] + b);
      LinesOfConcat(a, [x] + b, c);
      LinesOfConcat(a, [x.(quantity := quantity)] + b, c);
      LinesOfConcat([x], b, c);
      LinesOfConcat([x.(quantity := quantity)], b, c);
      LinesOfSingle(x, c);
      LinesOfSingle(x.(quantity := quantity), c);
    }
  }

  /** Deleting the line for (`cartId`, `productId`) removes it and changes no other line. */
  lemma {:induction false} RemoveLineFind(items: seq<CartItem>, cartId: string, productId: string, c: string, p: string)
    requires OneLinePerProduct(items)
    requires FindLine(items, cartId, productId).Some?
    ensures FindLine(RemoveLine(items, cartId, productId), c, p)
      == if c == cartId && p == productId then None else FindLine(items, c, p)
  {
    var k := LineIndex(items, cartId, productId);
    var x := items[k];
    var a, b := items[..k], items[k + 1..];
    assert items == a + [x] + b;
    assert RemoveLine(items, cartId, productId) == a + b;
    FindLineSplice(a, x, b, c, p);
    FindLineConcat(a, b, c, p);
    if c == cartId && p == productId {
      NoLineBefore(items, cartId, productId);
      forall j | 0 <= j < |b| ensures !IsLine(b[j], c, p) {
        assert b[j] == items[k + 1 + j];
        assert !SameKey(items[k], items[k + 1 + j]);
      }
      FindLineNone(b, c, p);
    }
  }

  /** Deleting a line of one cart leaves the lines of every other cart as they were. */
  lemma {:induction false} RemoveLineOtherCarts(items: seq<CartItem>, cartId: string, productId: string, c: string)
    requires c != cartId
    ensures LinesOf(RemoveLine(items, cartId, productId), c) == LinesOf(items, c)
  {
    var k := LineIndex(items, cartId, productId);
    if k < |items| {
      var x := items[k];
      var a, b := items[..k], items[k + 1..];
      assert items == a + ([x] + b);
      assert RemoveLine(items, cartId, productId) == a + b;
      LinesOfConcat(a, [x] + b, c);
      LinesOfConcat(a, b, c);
      LinesOfConcat([x], b, c);
      LinesOfSingle(x, c);
    }
  }

  /** Appending a line for a new (`cartId`, `productId`) adds it and changes no other line. */
  lemma {:induction false} AppendLineEffect(items: seq<CartItem>, line: CartItem, c: string, p: string)
    ensures FindLine(items + [line], c, p)
      == if FindLine(items, c, p).Some? then FindLine(items, c, p) else if IsLine(line, c, p) then Some(line) else None
    ensures c != line.cartId ==> LinesOf(items + [line], c) == LinesOf(items, c)
  {
    FindLineSplice(items, line, [], c, p);
    assert items + [line] + [] == items + [line];
    LinesOfConcat(items, [line], c);
    LinesOfSingle(line, c);
  }

  // --------------------------------------------------------- the invariant

  lemma {:induction false} GetOrCreateKeepsCarts(carts: seq<Cart>, userId: string, freshId: string)
    requires OneCartPerUser(carts) && DistinctCartIds(carts)
    requires !HasCartId(carts, freshId)
    ensures var r := GetOrCreateUserCart(carts, userId, freshId);
      OneCartPerUser(r.1) && DistinctCartIds(r.1) && HasCartId(r.1, r.0.id)
      && forall id :: HasCartId(carts, id) ==> HasCartId(r.1, id)
  {
    var r := GetOrCreateUserCart(carts, userId, freshId);
    var k := CartIndex(carts, userId);
    if k < |carts| {
      assert r.1[k].id == r.0.id;
    } else {
      assert r.1[|carts|].id == r.0.id;
      forall id | HasCartId(carts, id) ensures HasCartId(r.1, id) {
        var j :| 0 <= j < |carts| && carts[j].id == id;
        assert r.1[j].id == id;
      }
    }
  }

  /** The line invariants survive a rewrite that keeps every row's key and cart and keeps quantities positive. */
  lemma {:induction false} SameKeysKeepLines(s: CartState, carts: seq<Cart>, items: seq<CartItem>)
    requires OneLinePerProduct(s.items) && LinesInCarts(s)
    requires forall id :: HasCartId(s.carts, id) ==> HasCartId(carts, id)
    requires |items| == |s.items|
    requires forall i :: 0 <= i < |items| ==> SameKey(items[i], s.items[i]) && items[i].quantity >= 1
    ensures OneLinePerProduct(items) && PositiveQuantities(items) && LinesInCarts(CartState(carts, items))
  {
    forall i | 0 <= i < |items| ensures HasCartId(carts, items[i].cartId) {
      assert HasCartId(s.carts, s.items[i].cartId);
    }
  }

  /** The line invariants survive dropping one row. */
  lemma {:induction false} DropKeepsLines(s: CartState, carts: seq<Cart>, k: nat)
    requires OneLinePerProduct(s.items) && PositiveQuantities(s.items) && LinesInCarts(s)
    requires forall id :: HasCartId(s.carts, id) ==> HasCartId(carts, id)
    requires k < |s.items|
    ensures var items := s.items[..k] + s.items[k + 1..];
      OneLinePerProduct(items) && PositiveQuantities(items) && LinesInCarts(CartState(carts, items))
  {
    var items := s.items[..k] + s.items[k + 1..];
    assert forall i :: 0 <= i < |items| ==> items[i] == s.items[if i < k then i else i + 1];
    forall i | 0 <= i < |items| ensures HasCartId(carts, items[i].cartId) {
      assert HasCartId(s.carts, s.items[if i < k then i else i + 1].cartId);
    }
  }

  /** The line invariants survive appending a positive line with a new key in an existing cart. */
  lemma {:induction false} AppendKeepsLines(s: CartState, carts: seq<Cart>, line: CartItem)
    requires OneLinePerProduct(s.items) && PositiveQuantities(s.items) && LinesInCarts(s)
    requires forall id :: HasCartId(s.carts, id) ==> HasCartId(carts, id)
    requires FindLine(s.items, line.cartId, line.productId).None? && line.quantity >= 1
    requires HasCartId(carts, line.cartId)
    ensures var items := s.items + [line];
      OneLinePerProduct(items) && PositiveQuantities(items) && LinesInCarts(CartState(carts, items))
  {
    FindLineNone(s.items, line.cartId, line.productId);
    var items := s.items + [line];
    forall i | 0 <= i < |items| ensures HasCartId(carts, items[i].cartId) {
      if i < |s.items| {
        assert items[i] == s.items[i];
        assert HasCartId(s.carts, s.items[i].cartId);
      }
    }
  }

  lemma {:induction false} SetLineShape(items: seq<CartItem>, cartId: string, productId: string, quantity: int)
    ensures var r := SetLine(items, cartId, productId, quantity);
      |r| == |items| && forall i :: 0 <= i < |r| ==> SameKey(r[i], items[i]) && (r[i] == items[i] || r[i].quantity == quantity)
  {
  }

  /** Every step on a valid state leaves a valid state, provided the cart id it may draw is fresh. */
  lemma {:induction false} AddItemKeepsValid(
    s: CartState, products: map<string, Product>, userId: string, productId: string, quantity: int,
    freshCartId: string, freshItemId: string)
    requires Valid(s) && !HasCartId(s.carts, freshCartId)
    ensures Valid(AddItemStep(s, products, userId, productId, quantity, freshCartId, freshItemId).state)
  {
    var t := AddItemStep(s, products, userId, productId, quantity, freshCartId, freshItemId).state;
    if quantity >= 1 {
      var (cart, carts) := GetOrCreateUserCart(s.carts, userId, freshCartId);
      GetOrCreateKeepsCarts(s.carts, userId, freshCartId);
      if productId !in products || products[productId].createdBy == userId {
        assert t == CartState(carts, s.items);
        SameKeysKeepLines(s, carts, s.items);
      } else {
        AddItemPastChecks(s, products, userId, productId, quantity, freshCartId, freshItemId);
        var total := LineQuantity(s.items, cart.id, productId) + quantity;
        if total > products[productId].stockLevel {
          assert t == CartState(carts, s.items);
          SameKeysKeepLines(s, carts, s.items);
        } else if FindLine(s.items, cart.id, productId).Some? {
          var items := SetLine(s.items, cart.id, productId, total);
          assert t == CartState(carts, items);
          SetLineShape(s.items, cart.id, productId, total);
          SameKeysKeepLines(s, carts, items);
        } else {
          var line := CartItem(freshItemId, cart.id, productId, total);
          assert t == CartState(carts, s.items + [line]);
          AppendKeepsLines(s, carts, line);
        }
      }
    }
  }

  lemma {:induction false} UpdateItemQuantityKeepsValid(
    s: CartState, products: map<string, Product>, userId: string, productId: string, quantity: int,
    freshCartId: string)
    requires Valid(s) && !HasCartId(s.carts, freshCartId)
    ensures Valid(UpdateItemQuantityStep(s, products, userId, productId, quantity, freshCartId).state)
  {
    var t := UpdateItemQuantityStep(s, products, userId, productId, quantity, freshCartId).state;
    if quantity >= 1 {
      var (cart, carts) := GetOrCreateUserCart(s.carts, userId, freshCartId);
      GetOrCreateKeepsCarts(s.carts, userId, freshCartId);
      if t.items == s.items {
        SameKeysKeepLines(s, carts, s.items);
      } else {
        SetLineShape(s.items, cart.id, productId, quantity);
        SameKeysKeepLines(s, carts, t.items);
      }
    }
  }

  lemma {:induction false} RemoveItemKeepsValid(
    s: CartState, products: map<string, Product>, userId: string, productId: string, freshCartId: string)
    requires Valid(s) && !HasCartId(s.carts, freshCartId)
    ensures Valid(RemoveItemStep(s, products, userId, productId, freshCartId).state)
  {
    var t := RemoveItemStep(s, products, userId, productId, freshCartId).state;
    var (cart, carts) := GetOrCreateUserCart(s.carts, userId, freshCartId);
    GetOrCreateKeepsCarts(s.carts, userId, freshCartId);
    if t.items == s.items {
      SameKeysKeepLines(s, carts, s.items);
    } else {
      DropKeepsLines(s, carts, LineIndex(s.items, cart.id, productId));
    }
  }

  lemma {:induction false} GetCartKeepsValid(s: CartState, products: map<string, Product>, userId: string, freshCartId: string)
    requires Valid(s) && !HasCartId(s.carts, freshCartId)
    ensures Valid(GetCartStep(s, products, userId, freshCartId).state)
  {
    var (cart, carts) := GetOrCreateUserCart(s.carts, userId, freshCartId);
    GetOrCreateKeepsCarts(s.carts, userId, freshCartId);
    SameKeysKeepLines(s, carts, s.items);
  }

  // ------------------------------------------------------------- behaviour

  /**
   * `addItem`: a quantity below 1 fails before anything changes; otherwise the
   * user's cart exists afterwards, and a missing product, one's own product or
   * a total above the stock fails without touching any line.
   */
  lemma {:induction false} AddItemFailures(
    s: CartState, products: map<string, Product>, userId: string, productId: string, quantity: int,
    freshCartId: string, freshItemId: string)
    ensures var step := AddItemStep(s, products, userId, productId, quantity, freshCartId, freshItemId);
      && (quantity < 1 ==> step == Step(Err(ApiError(BadRequest, QuantityMessage)), s))
      && (quantity >= 1 ==> FindCart(step.state.carts, userId).Some?)
      && (quantity >= 1 && productId !in products ==> step.result == Err(ApiError(NotFound, ProductMissingMessage)))
      && (quantity >= 1 && productId in products && products[productId].createdBy == userId ==>
            step.result == Err(ApiError(BadRequest, OwnProductMessage)))
      && (step.result.Err? ==> step.state.items == s.items)
  {
  }

  /** The transaction fails when the line's total would exceed the stock, naming the total and the stock. */
  lemma {:induction false} AddToLineOverStock(
    items: seq<CartItem>, cartId: string, productId: string, quantity: int, stock: int, freshItemId: string)
    requires LineQuantity(items, cartId, productId) + quantity > stock
    ensures AddToLine(items, cartId, productId, quantity, stock, freshItemId)
      == Err(ApiError(BadRequest, StockMessage(LineQuantity(items, cartId, productId) + quantity, stock)))
  {
  }

  /** Past its early checks, `addItem` answers whatever its transaction does to the lines. */
  lemma {:induction false} AddItemPastChecks(
    s: CartState, products: map<string, Product>, userId: string, productId: string, quantity: int,
    freshCartId: string, freshItemId: string)
    requires quantity >= 1 && productId in products && products[productId].createdBy != userId
    ensures var (cart, carts) := GetOrCreateUserCart(s.carts, userId, freshCartId);
      var step := AddItemStep(s, products, userId, productId, quantity, freshCartId, freshItemId);
      match AddToLine(s.items, cart.id, productId, quantity, products[productId].stockLevel, freshItemId)
      case Err(e) => step == Step(Err(e), CartState(carts, s.items))
      case Ok(items) => step == Step(Ok(CartViewOf(cart.id, items, products)), CartState(carts, items))
  {
  }

  /** `addItem` fails when the line's total would exceed the stock, and changes no line. */
  lemma {:induction false} AddItemOverStock(
    s: CartState, products: map<string, Product>, userId: string, productId: string, quantity: int,
    freshCartId: string, freshItemId: string)
    requires quantity >= 1 && productId in products && products[productId].createdBy != userId
    requires var cartId := GetOrCreateUserCart(s.carts, userId, freshCartId).0.id;
      LineQuantity(s.items, cartId, productId) + quantity > products[productId].stockLevel
    ensures var cartId := GetOrCreateUserCart(s.carts, userId, freshCartId).0.id;
      var total := LineQuantity(s.items, cartId, productId) + quantity;
      var step := AddItemStep(s, products, userId, productId, quantity, freshCartId, freshItemId);
      step.result == Err(ApiError(BadRequest, StockMessage(total, products[productId].stockLevel)))
      && step.state.items == s.items
  {
    var cartId := GetOrCreateUserCart(s.carts, userId, freshCartId).0.id;
    AddToLineOverStock(s.items, cartId, productId, quantity, products[productId].stockLevel, freshItemId);
    AddItemPastChecks(s, products, userId, productId, quantity, freshCartId, freshItemId);
  }

  /**
   * A successful `addItem` raises the line's quantity by exactly the requested
   * amount (creating the line at that amount) and leaves every other line as it
   * was; the answer is the view of the user's cart afterwards.
   */
  lemma {:induction false} AddItemQuantity(
    s: CartState, products: map<string, Product>, userId: string, productId: string, quantity: int,
    freshCartId: string, freshItemId: string, c: string, p: string)
    requires quantity >= 1 && productId in products && products[productId].createdBy != userId
    requires var cartId := GetOrCreateUserCart(s.carts, userId, freshCartId).0.id;
      LineQuantity(s.items, cartId, productId) + quantity <= products[productId].stockLevel
    ensures var step := AddItemStep(s, products, userId, productId, quantity, freshCartId, freshItemId);
      var cartId := GetOrCreateUserCart(s.carts, userId, freshCartId).0.id;
      && step.result == Ok(CartViewOf(cartId, step.state.items, products))
      && LineQuantity(step.state.items, cartId, productId) == LineQuantity(s.items, cartId, productId) + quantity
      && (!(c == cartId && p == productId) ==> FindLine(step.state.items, c, p) == FindLine(s.items, c, p))
      && (c != cartId ==> LinesOf(step.state.items, c) == LinesOf(s.items, c))
  {
    var cartId := GetOrCreateUserCart(s.carts, userId, freshCartId).0.id;
    var total := LineQuantity(s.items, cartId, productId) + quantity;
    var items := AddItemStep(s, products, userId, productId, quantity, freshCartId, freshItemId).state.items;
    if FindLine(s.items, cartId, productId).Some? {
      assert items == SetLine(s.items, cartId, productId, total);
      SetLineFind(s.items, cartId, productId, total, c, p);
      SetLineFind(s.items, cartId, productId, total, cartId, productId);
      if c != cartId {
        SetLineOtherCarts(s.items, cartId, productId, total, c);
      }
    } else {
      var line := CartItem(freshItemId, cartId, productId, total);
      assert items == s.items + [line];
      AppendLineEffect(s.items, line, c, p);
      AppendLineEffect(s.items, line, cartId, productId);
    }
  }

  /**
   * `updateItemQuantity` fails, in this order, on a quantity below 1, an unknown
   * product, a product not in the cart and a quantity above the stock, changing
   * no line; otherwise it sets the line to exactly the requested quantity and
   * changes no other line.
   */
  lemma {:induction false} UpdateItemQuantityOutcome(
    s: CartState, products: map<string, Product>, userId: string, productId: string, quantity: int,
    freshCartId: string, c: string, p: string)
    ensures var step := UpdateItemQuantityStep(s, products, userId, productId, quantity, freshCartId);
      var cartId := GetOrCreateUserCart(s.carts, userId, freshCartId).0.id;
      && (quantity < 1 ==> step == Step(Err(ApiError(BadRequest, QuantityMessage)), s))
      && (quantity >= 1 && productId !in products ==> step.result == Err(ApiError(NotFound, ProductMissingMessage)))
      && (quantity >= 1 && productId in products && FindLine(s.items, cartId, productId).None? ==>
            step.result == Err(ApiError(NotFound, LineMissingMessage)))
      && (quantity >= 1 && productId in products && FindLine(s.items, cartId, productId).Some?
          && quantity > products[productId].stockLevel ==>
            step.result == Err(ApiError(BadRequest, StockMessage(quantity, products[productId].stockLevel))))
      && (step.result.Err? ==> step.state.items == s.items)
      && (step.result.Ok? ==>
            && LineQuantity(step.state.items, cartId, productId) == quantity
            && (!(c == cartId && p == productId) ==> FindLine(step.state.items, c, p) == FindLine(s.items, c, p))
            && (c != cartId ==> LinesOf(step.state.items, c) == LinesOf(s.items, c)))
  {
    var step := UpdateItemQuantityStep(s, products, userId, productId, quantity, freshCartId);
    var cartId := GetOrCreateUserCart(s.carts, userId, freshCartId).0.id;
    if step.result.Ok? {
      SetLineFind(s.items, cartId, productId, quantity, c, p);
      SetLineFind(s.items, cartId, productId, quantity, cartId, productId);
      if c != cartId {
        SetLineOtherCarts(s.items, cartId, productId, quantity, c);
      }
    }
  }

  /**
   * `removeItem` fails when the product has no line in the cart, changing no line;
   * otherwise that line is gone and every other line is as it was.
   */
  lemma {:induction false} RemoveItemOutcome(
    s: CartState, products: map<string, Product>, userId: string, productId: string, freshCartId: string,
    c: string, p: string)
    requires Valid(s)
    ensures var step := RemoveItemStep(s, products, userId, productId, freshCartId);
      var cartId := GetOrCreateUserCart(s.carts, userId, freshCartId).0.id;
      && (step.result.Err? <==> FindLine(s.items, cartId, productId).None?)
      && (step.result.Err? ==> step.result.error == ApiError(NotFound, LineMissingMessage) && step.state.items == s.items)
      && (step.result.Ok? ==>
            && FindLine(step.state.items, cartId, productId).None?
            && (!(c == cartId && p == productId) ==> FindLine(step.state.items, c, p) == FindLine(s.items, c, p))
            && (c != cartId ==> LinesOf(step.state.items, c) == LinesOf(s.items, c)))
  {
    var step := RemoveItemStep(s, products, userId, productId, freshCartId);
    var cartId := GetOrCreateUserCart(s.carts, userId, freshCartId).0.id;
    if step.result.Ok? {
      RemoveLineFind(s.items, cartId, productId, c, p);
      RemoveLineFind(s.items, cartId, productId, cartId, productId);
      if c != cartId {
        RemoveLineOtherCarts(s.items, cartId, productId, c);
      }
    }
  }

  /** `getCart` changes no line, and only creates the user's cart when it is missing. */
  lemma {:induction false} GetCartOutcome(s: CartState, products: map<string, Product>, userId: string, freshCartId: string)
    ensures var step := GetCartStep(s, products, userId, freshCartId);
      && step.result.Ok?
      && step.state.items == s.items
      && (FindCart(s.carts, userId).Some? ==> step.state == s)
      && step.result.value.id == FindCart(step.state.carts, userId).value.id
  {
  }

  /** `t` holds the cart of `other` and that cart's lines exactly as `s` does. */
  ghost predicate Untouched(s: CartState, t: CartState, other: string)
    requires FindCart(s.carts, other).Some?
  {
    var otherCart := FindCart(s.carts, other).value;
    FindCart(t.carts, other) == Some(otherCart) && LinesOf(t.items, otherCart.id) == LinesOf(s.items, otherCart.id)
  }

  /** Finding or creating one user's cart keeps another user's cart, whose id differs. */
  lemma {:induction false} OtherCartSurvives(s: CartState, userId: string, other: string, freshCartId: string)
    requires Valid(s) && !HasCartId(s.carts, freshCartId)
    requires other != userId && FindCart(s.carts, other).Some?
    ensures var (cart, carts) := GetOrCreateUserCart(s.carts, userId, freshCartId);
      cart.id != FindCart(s.carts, other).value.id && FindCart(carts, other) == FindCart(s.carts, other)
  {
    var otherCart := FindCart(s.carts, other).value;
    var (cart, carts) := GetOrCreateUserCart(s.carts, userId, freshCartId);
    var ko := CartIndex(s.carts, other);
    if CartIndex(s.carts, userId) < |s.carts| {
      var ku := CartIndex(s.carts, userId);
      assert s.carts[ku].id != s.carts[ko].id;
    } else {
      assert s.carts[ko].id == otherCart.id;
      assert carts == s.carts + [cart];
      CartIndexPrefix(s.carts, [cart], other);
    }
  }

  /**
   * Carts of different users are independent: any step by one user leaves another
   * user's cart, and that cart's lines, exactly as they were.
   */
  lemma {:induction false} OtherUsersUnaffected(
    s: CartState, products: map<string, Product>, userId: string, other: string, productId: string,
    quantity: int, freshCartId: string, freshItemId: string)
    requires Valid(s) && !HasCartId(s.carts, freshCartId)
    requires other != userId && FindCart(s.carts, other).Some?
    ensures Untouched(s, AddItemStep(s, products, userId, productId, quantity, freshCartId, freshItemId).state, other)
    ensures Untouched(s, UpdateItemQuantityStep(s, products, userId, productId, quantity, freshCartId).state, other)
    ensures Untouched(s, RemoveItemStep(s, products, userId, productId, freshCartId).state, other)
    ensures Untouched(s, GetCartStep(s, products, userId, freshCartId).state, other)
  {
    AddItemUntouched(s, products, userId, other, productId, quantity, freshCartId, freshItemId);
    UpdateItemQuantityUntouched(s, products, userId, other, productId, quantity, freshCartId);
    RemoveItemUntouched(s, products, userId, other, productId, freshCartId);
    OtherCartSurvives(s, userId, other, freshCartId);
  }

  lemma {:induction false} AddItemUntouched(
    s: CartState, products: map<string, Product>, userId: string, other: string, productId: string,
    quantity: int, freshCartId: string, freshItemId: string)
    requires Valid(s) && !HasCartId(s.carts, freshCartId)
    requires other != userId && FindCart(s.carts, other).Some?
    ensures Untouched(s, AddItemStep(s, products, userId, productId, quantity, freshCartId, freshItemId).state, other)
  {
    var otherId := FindCart(s.carts, other).value.id;
    OtherCartSurvives(s, userId, other, freshCartId);
    AddItemQuantityOtherCart(s, products, userId, productId, quantity, freshCartId, freshItemId, otherId);
  }

  lemma {:induction false} UpdateItemQuantityUntouched(
    s: CartState, products: map<string, Product>, userId: string, other: string, productId: string,
    quantity: int, freshCartId: string)
    requires Valid(s) && !HasCartId(s.carts, freshCartId)
    requires other != userId && FindCart(s.carts, other).Some?
    ensures Untouched(s, UpdateItemQuantityStep(s, products, userId, productId, quantity, freshCartId).state, other)
  {
    var otherId := FindCart(s.carts, other).value.id;
    var t := UpdateItemQuantityStep(s, products, userId, productId, quantity, freshCartId).state;
    if quantity >= 1 {
      var (cart, carts) := GetOrCreateUserCart(s.carts, userId, freshCartId);
      OtherCartSurvives(s, userId, other, freshCartId);
      if productId in products && FindLine(s.items, cart.id, productId).Some?
         && quantity <= products[productId].stockLevel {
        assert t == CartState(carts, SetLine(s.items, cart.id, productId, quantity));
        SetLineOtherCarts(s.items, cart.id, productId, quantity, otherId);
      } else {
        assert t == CartState(carts, s.items);
      }
    }
  }

  lemma {:induction false} RemoveItemUntouched(
    s: CartState, products: map<string, Product>, userId: string, other: string, productId: string,
    freshCartId: string)
    requires Valid(s) && !HasCartId(s.carts, freshCartId)
    requires other != userId && FindCart(s.carts, other).Some?
    ensures Untouched(s, RemoveItemStep(s, products, userId, productId, freshCartId).state, other)
  {
    var otherId := FindCart(s.carts, other).value.id;
    var t := RemoveItemStep(s, products, userId, productId, freshCartId).state;
    var (cart, carts) := GetOrCreateUserCart(s.carts, userId, freshCartId);
    OtherCartSurvives(s, userId, other, freshCartId);
    if FindLine(s.items, cart.id, productId).Some? {
      assert t == CartState(carts, RemoveLine(s.items, cart.id, productId));
      RemoveLineOtherCarts(s.items, cart.id, productId, otherId);
    } else {
      assert t == CartState(carts, s.items);
    }
  }


  lemma {:induction false} CartIndexPrefix(a: seq<Cart>, b: seq<Cart>, userId: string)
    requires CartIndex(a, userId) < |a|
    ensures CartIndex(a + b, userId) == CartIndex(a, userId)
  {
    if a[0].createdBy != userId {
      assert (a + b)[1..] == a[1..] + b;
      CartIndexPrefix(a[1..], b, userId);
    }
  }

  lemma {:induction false} AddItemQuantityOtherCart(
    s: CartState, products: map<string, Product>, userId: string, productId: string, quantity: int,
    freshCartId: string, freshItemId: string, otherCartId: string)
    requires otherCartId != GetOrCreateUserCart(s.carts, userId, freshCartId).0.id
    ensures var step := AddItemStep(s, products, userId, productId, quantity, freshCartId, freshItemId);
      LinesOf(step.state.items, otherCartId) == LinesOf(s.items, otherCartId)
  {
    var step := AddItemStep(s, products, userId, productId, quantity, freshCartId, freshItemId);
    if step.result.Ok? {
      AddItemQuantity(s, products, userId, productId, quantity, freshCartId, freshItemId, otherCartId, "");
    }
  }

  // ---------------------------------------------------------------- service

  /** `CartService` over the shared store: it writes the cart tables and reads the product table. */
  class CartService {
    const db: Database

    constructor (db: Database)
      ensures this.db == db
    {
      this.db := db;
    }

    /** `getOrCreateUserCart` */
    method GetOrCreateCart(userId: string, freshCartId: string) returns (cart: Cart)
      modifies db`carts
      ensures (cart, db.carts) == GetOrCreateUserCart(old(db.carts), userId, freshCartId)
    {
      var k := CartIndex(db.carts, userId);
      if k < |db.carts| {
        cart := db.carts[k];
      } else {
        cart := Cart(freshCartId, userId);
        db.carts := db.carts + [cart];
      }
    }

    /** `getCart` */
    method GetCart(userId: string, freshCartId: string) returns (r: Result<CartView, ApiError>)
      modifies db`carts
      ensures var step := GetCartStep(CartState(old(db.carts), db.cartItems), db.products, userId, freshCartId);
        r == step.result && db.carts == step.state.carts
    {
      var cart := GetOrCreateCart(userId, freshCartId);
      var items := LinesOf(db.cartItems, cart.id);
      r := Ok(BuildCartView(cart.id, items, db.products));
    }

    /** `addItem` */
    method AddItem(userId: string, productId: string, quantity: int, freshCartId: string, freshItemId: string)
      returns (r: Result<CartView, ApiError>)
      modifies db`carts, db`cartItems
      ensures var step := AddItemStep(CartState(old(db.carts), old(db.cartItems)), db.products,
                                      userId, productId, quantity, freshCartId, freshItemId);
        r == step.result && db.carts == step.state.carts && db.cartItems == step.state.items
    {
      if quantity < 1 {
        return Err(ApiError(BadRequest, QuantityMessage));
      }
      var cart := GetOrCreateCart(userId, freshCartId);
      if productId !in db.products {
        return Err(ApiError(NotFound, ProductMissingMessage));
      }
      var product := db.products[productId];
      if product.createdBy == userId {
        return Err(ApiError(BadRequest, OwnProductMessage));
      }
      var added := AddToCart(cart.id, productId, quantity, product.stockLevel, freshItemId);
      if added.Err? {
        return Err(added.error);
      }
      r := Ok(BuildCartView(cart.id, LinesOf(db.cartItems, cart.id), db.products));
    }

    /** The `$transaction` block of `addItem`. */
    method AddToCart(cartId: string, productId: string, quantity: int, stock: int, freshItemId: string)
      returns (r: Result<(), ApiError>)
      modifies db`cartItems
      ensures match AddToLine(old(db.cartItems), cartId, productId, quantity, stock, freshItemId)
        case Ok(items) => r.Ok? && db.cartItems == items
        case Err(e) => r == Err(e) && db.cartItems == old(db.cartItems)
    {
      var existingCartItem := FindLine(db.cartItems, cartId, productId);
      var newQuantity := (if existingCartItem.Some? then existingCartItem.value.quantity else 0) + quantity;
      if newQuantity > stock {
        return Err(ApiError(BadRequest, StockMessage(newQuantity, stock)));
      }
      if existingCartItem.Some? {
        db.cartItems := SetLine(db.cartItems, cartId, productId, newQuantity);
      } else {
        db.cartItems := db.cartItems + [CartItem(freshItemId, cartId, productId, newQuantity)];
      }
      r := Ok(());
    }

    /** `updateItemQuantity` */
    method UpdateItemQuantity(userId: string, productId: string, quantity: int, freshCartId: string)
      returns (r: Result<CartView, ApiError>)
      modifies db`carts, db`cartItems
      ensures var step := UpdateItemQuantityStep(CartState(old(db.carts), old(db.cartItems)), db.products,
                                                 userId, productId, quantity, freshCartId);
        r == step.result && db.carts == step.state.carts && db.cartItems == step.state.items
    {
      if quantity < 1 {
        return Err(ApiError(BadRequest, QuantityMessage));
      }
      var cart := GetOrCreateCart(userId, freshCartId);
      if productId !in db.products {
        return Err(ApiError(NotFound, ProductMissingMessage));
      }
      var product := db.products[productId];
      var existingCartItem := FindLine(db.cartItems, cart.id, productId);
      if existingCartItem.None? {
        return Err(ApiError(NotFound, LineMissingMessage));
      }
      if quantity > product.stockLevel {
        return Err(ApiError(BadRequest, StockMessage(quantity, product.stockLevel)));
      }
      db.cartItems := SetLine(db.cartItems, cart.id, productId, quantity);
      r := Ok(BuildCartView(cart.id, LinesOf(db.cartItems, cart.id), db.products));
    }

    /** `removeItem` */
    method RemoveItem(userId: string, productId: string, freshCartId: string) returns (r: Result<CartView, ApiError>)
      modifies db`carts, db`cartItems
      ensures var step := RemoveItemStep(CartState(old(db.carts), old(db.cartItems)), db.products,
                                         userId, productId, freshCartId);
        r == step.result && db.carts == step.state.carts && db.cartItems == step.state.items
    {
      var cart := GetOrCreateCart(userId, freshCartId);
      var existingCartItem := FindLine(db.cartItems, cart.id, productId);
      if existingCartItem.None? {
        return Err(ApiError(NotFound, LineMissingMessage));
      }
      db.cartItems := RemoveLine(db.cartItems, cart.id, productId);
      r := Ok(BuildCartView(cart.id, LinesOf(db.cartItems, cart.id), db.products));
    }
  }
}
