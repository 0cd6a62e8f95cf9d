/**
 * The product service's rules: idempotency-keyed creation, the per-creator
 * name-and-price conflict, ownership checks on update and delete, SKU
 * regeneration when the category changes, and the normalisation of listing
 * query parameters with its pagination arithmetic.
 *
 * Each write is specified by a step function over the category, product and
 * idempotency-key tables; `ProductService`'s methods are proved to perform
 * exactly that step.
 */
module Products {
  import opened Wrappers
  import opened JsString
  import opened UlidHelper
  import opened Db
  import opened Sku

  const ProductMissingMessage := "Product not found"
  const CategoryNotFoundMessage := "Category not found"
  const DuplicateMessage := "A product with the same name and price already exists"
  const UpdateForbiddenMessage := "You can only update your own products"
  const DeleteForbiddenMessage := "You can only delete your own products"
  /** What the store reports when a second record with an existing idempotency key is inserted. */
  const KeyTakenMessage := "Unique constraint failed on the fields: (`key`)"

  /** How long a stored idempotency key is kept: 24 hours, in milliseconds. */
  const KeyLifetimeMs := 24 * 60 * 60 * 1000

  // ------------------------------------------------------ query parameters

  /** A query value as it arrives: absent, still text, or already converted to a number. */
  datatype QueryNumber = Absent | Text(text: string) | Num(n: int)

  /** A boolean query value: absent, still text, or already converted. */
  datatype QueryFlag = NoFlag | FlagText(text: string) | Flag(b: bool)

  datatype ProductQuery = ProductQuery(
    page: QueryNumber,
    limit: QueryNumber,
    sortBy: Option<string>,
    sortOrder: Option<string>,
    categoryId: Option<string>,
    search: Option<string>,
    inStock: QueryFlag)

  datatype QueryParams = QueryParams(
    page: int,
    limit: int,
    sortBy: string,
    sortOrder: string,
    categoryId: Option<string>,
    search: Option<string>,
    inStock: Option<bool>)

  /** `Math.min(max, Math.max(min, x))`, with no upper bound for `Infinity`. */
  function Clamp(x: int, min: int, max: Option<int>): int {
    var low := if x < min then min else x;
    if max.Some? && max.value < low then max.value else low
  }

  /**
   * `parseNumber`: text goes through `parseInt(value, 10)` and is clamped, or
   * gives the default when it is not a number; anything else is `value ||
   * default`, unclamped.
   */
  function ParseNumber(value: QueryNumber, min: int, max: Option<int>, default: int): (r: int)
    ensures value.Text? && ParseInt(value.text, 10).NaN? ==> r == default
    ensures value.Absent? || value == Num(0) ==> r == default
    ensures value.Num? && value.n != 0 ==> r == value.n
  {
    match value
    case Text(text) =>
      (match ParseInt(text, 10)
       case NaN => default
       case Int(parsed) => Clamp(parsed, min, max))
    case Num(n) => if n != 0 then n else default
    case Absent => default
  }

  /** Parsed text always lands in `[min, max]`, and a value already in range is kept. */
  lemma {:induction false} ParseNumberClamps(text: string, min: int, max: Option<int>, default: int)
    requires max.None? || min <= max.value
    requires ParseInt(text, 10).Int?
    ensures var r := ParseNumber(Text(text), min, max, default);
      var parsed := ParseInt(text, 10).value;
      min <= r && (max.Some? ==> r <= max.value)
      && (min <= parsed && (max.None? || parsed <= max.value) ==> r == parsed)
  {
  }

  /** The text of an integer parses back to that integer, clamped. */
  lemma {:induction false} ParseNumberOfDecimal(n: int, min: int, max: Option<int>, default: int)
    ensures ParseNumber(Text(IntToString(n)), min, max, default) == Clamp(n, min, max)
  {
    IntToStringRoundTrip(n);
  }

  /** `parseBoolean`: the text `true` is true, any other text false; a boolean is kept. */
  function ParseBoolean(value: QueryFlag): (r: Option<bool>)
    ensures value.NoFlag? <==> r.None?
    ensures value.FlagText? ==> r == Some(value.text == "true")
    ensures value.Flag? ==> r == Some(value.b)
  {
    match value
    case NoFlag => None
    case FlagText(text) => Some(text == "true")
    case Flag(b) => Some(b)
  }

  /** `a || b` on optional strings: absent and empty both fall back. */
  function OrDefault(value: Option<string>, default: string): string {
    if value.Some? && value.value != "" then value.value else default
  }

  /** `parseQueryParams` */
  function ParseQueryParams(q: ProductQuery): QueryParams {
    QueryParams(
      ParseNumber(q.page, 1, None, 1),
      ParseNumber(q.limit, 1, Some(100), 10),
      OrDefault(q.sortBy, "createdAt"),
      OrDefault(q.sortOrder, "desc"),
      q.categoryId,
      q.search,
      ParseBoolean(q.inStock))
  }

  /** An empty query means page 1 of 10, newest first. */
  lemma {:induction false} QueryDefaults()
    ensures ParseQueryParams(ProductQuery(Absent, Absent, None, None, None, None, NoFlag))
      == QueryParams(1, 10, "createdAt", "desc", None, None, None)
  {
  }

  /**
   * The page is at least 1 and the limit between 1 and 100, given that numbers
   * reaching the service passed the listing schema (`page >= 1`, `1 <= limit <= 100`).
   */
  lemma {:induction false} QueryParamsInRange(q: ProductQuery)
    requires q.page.Num? ==> q.page.n >= 1
    requires q.limit.Num? ==> 1 <= q.limit.n <= 100
    ensures ParseQueryParams(q).page >= 1
    ensures 1 <= ParseQueryParams(q).limit <= 100
  {
  }

  // ------------------------------------------------------------- pagination

  /** `skip = (page - 1) * limit` */
  function Skip(page: int, limit: int): int {
    (page - 1) * limit
  }

  /** `Math.ceil(total / limit)` for a positive limit. */
  function TotalPages(total: nat, limit: int): (pages: nat)
    requires limit >= 1
    ensures pages * limit >= total
    ensures pages > 0 ==> (pages - 1) * limit < total
  {
    (total + limit - 1) / limit
  }

  /** The tests' example: three products, two per page, make two pages. */
  lemma {:induction false} TotalPagesExample()
    ensures TotalPages(3, 2) == 2 && TotalPages(0, 10) == 0
  {
  }

  /**
   * The rows a page shows: `skip` rows dropped, at most `limit` taken. A page past
   * the end is empty and the last page holds what remains.
   */
  function Page(rows: seq<Product>, page: int, limit: int): (r: seq<Product>)
    requires page >= 1 && limit >= 1
    ensures |r| <= limit
    ensures |r| == if |rows| <= Skip(page, limit) then 0
                   else if |rows| - Skip(page, limit) < limit then |rows| - Skip(page, limit)
                   else limit
    ensures forall j :: 0 <= j < |r| ==> r[j] == rows[Skip(page, limit) + j]
  {
    var skip := Skip(page, limit);
    if skip >= |rows| then []
    else if skip + limit <= |rows| then rows[skip..skip + limit]
    else rows[skip..]
  }

  /** Three rows at two per page: the second page holds the last row alone, the third none. */
  lemma {:induction false} PageExample(rows: seq<Product>)
    requires |rows| == 3
    ensures Page(rows, 2, 2) == [rows[2]]
    ensures Page(rows, 3, 2) == []
  {
  }

  /** Position `j` of a page is row `skip + j`, whenever that row exists. */
  lemma {:induction false} PageAt(rows: seq<Product>, page: int, limit: int, j: nat)
    requires page >= 1 && limit >= 1
    requires j < limit && Skip(page, limit) + j < |rows|
    ensures j < |Page(rows, page, limit)| && Page(rows, page, limit)[j] == rows[Skip(page, limit) + j]
  {
  }

  /** A row's page is within the page count. */
  lemma {:induction false} PageOfRowExists(total: nat, limit: int, i: nat)
    requires limit >= 1 && i < total
    ensures i / limit + 1 <= TotalPages(total, limit)
  {
    var q := i / limit;
    var pages := TotalPages(total, limit);
    if pages < q + 1 {
      MulMonotone(pages, q, limit);
      assert false;
    }
  }

  lemma {:induction false} MulMonotone(a: int, b: int, k: int)
    requires a <= b && k >= 1
    ensures a * k <= b * k
  {
  }

  /** Every row lies on exactly the page its index says, and that page exists. */
  lemma {:induction false} EveryRowOnItsPage(rows: seq<Product>, limit: int, i: nat)
    requires limit >= 1 && i < |rows|
    ensures var page := i / limit + 1;
      page <= TotalPages(|rows|, limit)
      && i % limit < |Page(rows, page, limit)|
      && Page(rows, page, limit)[i % limit] == rows[i]
  {
    var q, m := i / limit, i % limit;
    assert Skip(q + 1, limit) + m == i;
    PageAt(rows, q + 1, limit, m);
    PageOfRowExists(|rows|, limit, i);
  }

  // --------------------------------------------------------------- creation

  /** The tables the product service writes. */
  datatype Catalog = Catalog(
    categories: map<string, Category>,
    products: map<string, Product>,
    keys: map<string, IdempotencyRecord>)

  /** What a call answers and the tables it leaves behind. */
  datatype Step<+T> = Step(result: Result<T, ApiError>, state: Catalog)

  datatype CreateProductDto = CreateProductDto(
    name: string, description: string, price: real, stockLevel: int, categoryId: string)

  /** The values a creation draws from `ulid()`: the product and record ids and the two SKU draws. */
  datatype Draws = Draws(productId: string, recordId: string, sku1: string, sku2: string)

  /** Only a non-empty key takes part (`if (idempotencyKey)`). */
  predicate KeyGiven(key: Option<string>) {
    key.Some? && key.value != ""
  }

  /** `checkIdempotencyKey`: the product of a record stored by the same user, while that product exists. */
  function CheckIdempotencyKey(c: Catalog, key: string, userId: string): (r: Option<Product>)
    ensures r.Some? <==> key in c.keys && c.keys[key].userId == userId && c.keys[key].productId in c.products
    ensures r.Some? ==> r.value == c.products[c.keys[key].productId]
  {
    if key in c.keys && c.keys[key].userId == userId && c.keys[key].productId in c.products
    then Some(c.products[c.keys[key].productId])
    else None
  }

  /** `checkDuplicateProduct`: the user already created a product with this name and price. */
  predicate IsDuplicate(products: map<string, Product>, userId: string, name: string, price: real) {
    exists id :: id in products && products[id].createdBy == userId
      && products[id].name == name && products[id].price == price
  }

  /** `createProduct` */
  function CreateProductStep(
    c: Catalog, userId: string, dto: CreateProductDto, key: Option<string>, d: Draws, now: int,
    timeDecodes: string -> bool, toKobo: real -> int): Step<Product>
    requires IsUlidString(d.sku1) && IsUlidString(d.sku2)
  {
    if KeyGiven(key) && CheckIdempotencyKey(c, key.value, userId).Some? then
      Step(Ok(CheckIdempotencyKey(c, key.value, userId).value), c)
    else if IsDuplicate(c.products, userId, dto.name, dto.price) then
      Step(Err(ApiError(Conflict, DuplicateMessage)), c)
    else if dto.categoryId !in c.categories then
      Step(Err(ApiError(BadRequest, CategoryNotFoundMessage)), c)
    else
      match ProductSku(c.categories, c.products, dto.categoryId, userId, d.sku1, d.sku2, timeDecodes)
      case Err(e) => Step(Err(e), c)
      case Ok(sku) => Created(c, userId, dto, key, d, now, sku, toKobo)
  }

  /** The tail of `createProduct` once the SKU is known: insert the product, then store the key. */
  function Created(
    c: Catalog, userId: string, dto: CreateProductDto, key: Option<string>, d: Draws, now: int,
    sku: string, toKobo: real -> int): Step<Product>
  {
    var product := Db.Product(d.productId, sku, dto.name, dto.description, dto.price, toKobo(dto.price),
                              dto.stockLevel, userId, dto.categoryId);
    var created := c.(products := c.products[d.productId := product]);
    if !KeyGiven(key) then Step(Ok(product), created)
    else if key.value in c.keys then Step(Err(ApiError(InternalServerError, KeyTakenMessage)), created)
    else
      var record := IdempotencyRecord(d.recordId, key.value, userId, d.productId, now + KeyLifetimeMs);
      Step(Ok(product), created.(keys := c.keys[key.value := record]))
  }

  /**
   * A key whose record the same user stored, for a product that still exists,
   * answers that product and changes nothing.
   */
  lemma {:induction false} CreateReplaysStoredKey(
    c: Catalog, userId: string, dto: CreateProductDto, key: string, d: Draws, now: int,
    timeDecodes: string -> bool, toKobo: real -> int)
    requires IsUlidString(d.sku1) && IsUlidString(d.sku2)
    requires key != ""
    requires key in c.keys && c.keys[key].userId == userId && c.keys[key].productId in c.products
    ensures CreateProductStep(c, userId, dto, Some(key), d, now, timeDecodes, toKobo)
      == Step(Ok(c.products[c.keys[key].productId]), c)
  {
  }

  /**
   * Without a replay, creation fails in this order, changing nothing: the same
   * creator, name and price conflict; then a missing category; then a SKU failure.
   */
  lemma {:induction false} CreateFailures(
    c: Catalog, userId: string, dto: CreateProductDto, key: Option<string>, d: Draws, now: int,
    timeDecodes: string -> bool, toKobo: real -> int)
    requires IsUlidString(d.sku1) && IsUlidString(d.sku2)
    requires !(KeyGiven(key) && CheckIdempotencyKey(c, key.value, userId).Some?)
    ensures var step := CreateProductStep(c, userId, dto, key, d, now, timeDecodes, toKobo);
      && (IsDuplicate(c.products, userId, dto.name, dto.price) ==>
            step == Step(Err(ApiError(Conflict, DuplicateMessage)), c))
      && (!IsDuplicate(c.products, userId, dto.name, dto.price) && dto.categoryId !in c.categories ==>
            step == Step(Err(ApiError(BadRequest, CategoryNotFoundMessage)), c))
      && (!IsDuplicate(c.products, userId, dto.name, dto.price) && dto.categoryId in c.categories
          && UserIdCode(userId, timeDecodes).Err? ==>
            step == Step(Err(ApiError(BadRequest, UserIdMessage)), c))
  {
  }

  /** A product with the same name and price by another creator is no conflict. */
  lemma {:induction false} OtherCreatorNoConflict(products: map<string, Product>, userId: string, name: string, price: real)
    requires forall id :: (id in products && products[id].name == name && products[id].price == price
      ==> products[id].createdBy != userId)
    ensures !IsDuplicate(products, userId, name, price)
  {
  }

  /**
   * A successful creation (without a replay) adds exactly one product, owned by
   * the caller and carrying the request's fields and a SKU for its category; a
   * given key is stored for 24 hours, and no key leaves the key table alone.
   */
  lemma {:induction false} CreateSuccess(
    c: Catalog, userId: string, dto: CreateProductDto, key: Option<string>, d: Draws, now: int,
    timeDecodes: string -> bool, toKobo: real -> int)
    requires IsUlidString(d.sku1) && IsUlidString(d.sku2)
    requires !(KeyGiven(key) && CheckIdempotencyKey(c, key.value, userId).Some?)
    requires CreateProductStep(c, userId, dto, key, d, now, timeDecodes, toKobo).result.Ok?
    ensures var step := CreateProductStep(c, userId, dto, key, d, now, timeDecodes, toKobo);
      var p := step.result.value;
      && step.state.products == c.products[d.productId := p]
      && step.state.categories == c.categories
      && p.id == d.productId && p.createdBy == userId && p.name == dto.name && p.price == dto.price
      && p.unitPrice == toKobo(dto.price) && p.stockLevel == dto.stockLevel && p.categoryId == dto.categoryId
      && p.sku == ProductSku(c.categories, c.products, dto.categoryId, userId, d.sku1, d.sku2, timeDecodes).value
      && (KeyGiven(key) ==> step.state.keys == c.keys[key.value :=
            IdempotencyRecord(d.recordId, key.value, userId, d.productId, now + KeyLifetimeMs)])
      && (!KeyGiven(key) ==> step.state.keys == c.keys)
  {
    var sku := ProductSku(c.categories, c.products, dto.categoryId, userId, d.sku1, d.sku2, timeDecodes);
    assert sku.Ok?;
    assert CreateProductStep(c, userId, dto, key, d, now, timeDecodes, toKobo)
      == Created(c, userId, dto, key, d, now, sku.value, toKobo);
  }

  /**
   * Creating twice with the same fresh key: the second call answers the product
   * the first created and changes nothing.
   */
  lemma {:induction false} CreateIsIdempotent(
    c: Catalog, userId: string, dto: CreateProductDto, dto2: CreateProductDto, key: string,
    d: Draws, d2: Draws, now: int, now2: int, timeDecodes: string -> bool, toKobo: real -> int)
    requires IsUlidString(d.sku1) && IsUlidString(d.sku2) && IsUlidString(d2.sku1) && IsUlidString(d2.sku2)
    requires key != "" && key !in c.keys
    requires CreateProductStep(c, userId, dto, Some(key), d, now, timeDecodes, toKobo).result.Ok?
    ensures var first := CreateProductStep(c, userId, dto, Some(key), d, now, timeDecodes, toKobo);
      CreateProductStep(first.state, userId, dto2, Some(key), d2, now2, timeDecodes, toKobo)
        == Step(first.result, first.state)
  {
    var first := CreateProductStep(c, userId, dto, Some(key), d, now, timeDecodes, toKobo);
    CreateSuccess(c, userId, dto, Some(key), d, now, timeDecodes, toKobo);
    CreateReplaysStoredKey(first.state, userId, dto2, key, d2, now2, timeDecodes, toKobo);
  }

  /**
   * A key another user already stored does not replay: a product is created,
   * then storing the key again violates its uniqueness, so the call fails although
   * the product stays.
   */
  lemma {:induction false} CreateWithForeignKey(
    c: Catalog, userId: string, dto: CreateProductDto, key: string, d: Draws, now: int,
    timeDecodes: string -> bool, toKobo: real -> int)
    requires IsUlidString(d.sku1) && IsUlidString(d.sku2)
    requires key != "" && key in c.keys && c.keys[key].userId != userId
    requires !IsDuplicate(c.products, userId, dto.name, dto.price) && dto.categoryId in c.categories
    requires UserIdCode(userId, timeDecodes).Ok?
    ensures var step := CreateProductStep(c, userId, dto, Some(key), d, now, timeDecodes, toKobo);
      step.result == Err(ApiError(InternalServerError, KeyTakenMessage))
      && d.productId in step.state.products && step.state.keys == c.keys
  {
  }

  /** `cleanupExpiredIdempotencyKeys`: records that expired before `now` are dropped. */
  function CleanupExpired(keys: map<string, IdempotencyRecord>, now: int): (r: map<string, IdempotencyRecord>)
    ensures forall k :: k in r ==> k in keys && r[k] == keys[k] && r[k].expiresAt >= now
    ensures forall k :: k in keys && keys[k].expiresAt >= now ==> k in r
  {
    map k | k in keys && !(keys[k].expiresAt < now) :: keys[k]
  }

  /** A stored key survives the cleanup for the whole 24 hours after its creation. */
  lemma {:induction false} StoredKeySurvivesADay(c: Catalog, key: string, record: IdempotencyRecord, created: int, now: int)
    requires record.expiresAt == created + KeyLifetimeMs
    requires now <= created + KeyLifetimeMs
    ensures key in CleanupExpired(c.keys[key := record], now)
  {
  }

  // ----------------------------------------------------------------- update

  datatype UpdateProductDto = UpdateProductDto(
    name: Option<string>,
    description: Option<string>,
    price: Option<real>,
    stockLevel: Option<int>,
    categoryId: Option<string>)

  function Or<T>(value: Option<T>, current: T): T {
    if value.Some? then value.value else current
  }

  /** The request's fields over the product's, with the kobo price derived from a new price. */
  function ApplyUpdate(p: Product, dto: UpdateProductDto, toKobo: real -> int): Product {
    p.(name := Or(dto.name, p.name),
       description := Or(dto.description, p.description),
       price := Or(dto.price, p.price),
       unitPrice := if dto.price.Some? then toKobo(dto.price.value) else p.unitPrice,
       stockLevel := Or(dto.stockLevel, p.stockLevel),
       categoryId := Or(dto.categoryId, p.categoryId))
  }

  /** `updateProduct`. */
  function UpdateProductStep(
    c: Catalog, productId: string, userId: string, dto: UpdateProductDto, sku1: string, sku2: string,
    timeDecodes: string -> bool, toKobo: real -> int): Step<Product>
    requires IsUlidString(sku1) && IsUlidString(sku2)
  {
    if productId !in c.products then Step(Err(ApiError(NotFound, ProductMissingMessage)), c)
    else
      var existing := c.products[productId];
      if existing.createdBy != userId then Step(Err(ApiError(Forbidden, UpdateForbiddenMessage)), c)
      else if dto.categoryId.Some? && dto.categoryId.value != "" && dto.categoryId.value !in c.categories then
        Step(Err(ApiError(BadRequest, CategoryNotFoundMessage)), c)
      else
        var updated := ApplyUpdate(existing, dto, toKobo);
        if dto.categoryId.Some? && dto.categoryId.value != "" && dto.categoryId.value != existing.categoryId then
          match ProductSku(c.categories, c.products, dto.categoryId.value, userId, sku1, sku2, timeDecodes)
          case Err(e) => Step(Err(e), c)
          case Ok(sku) =>
            var product := updated.(sku := sku);
            Step(Ok(product), c.(products := c.products[productId := product]))
        else Step(Ok(updated), c.(products := c.products[productId := updated]))
  }

  /**
   * `updateProduct` fails, in this order and changing nothing, on a missing
   * product, a caller who is not its creator, and a provided category that does
   * not exist.
   */
  lemma {:induction false} UpdateFailures(
    c: Catalog, productId: string, userId: string, dto: UpdateProductDto, sku1: string, sku2: string,
    timeDecodes: string -> bool, toKobo: real -> int)
    requires IsUlidString(sku1) && IsUlidString(sku2)
    ensures var step := UpdateProductStep(c, productId, userId, dto, sku1, sku2, timeDecodes, toKobo);
      && (productId !in c.products ==> step == Step(Err(ApiError(NotFound, ProductMissingMessage)), c))
      && (productId in c.products && c.products[productId].createdBy != userId ==>
            step == Step(Err(ApiError(Forbidden, UpdateForbiddenMessage)), c))
      && (productId in c.products && c.products[productId].createdBy == userId
          && dto.categoryId.Some? && dto.categoryId.value != "" && dto.categoryId.value !in c.categories ==>
            step == Step(Err(ApiError(BadRequest, CategoryNotFoundMessage)), c))
      && (step.result.Err? ==> step.state == c)
  {
  }

  /**
   * A successful update changes that product only: provided fields take the
   * request's values, the others keep theirs, the kobo price follows a new price,
   * the id and creator stay, and the SKU changes only when a different category
   * is provided.
   */
  lemma {:induction false} UpdateSuccess(
    c: Catalog, productId: string, userId: string, dto: UpdateProductDto, sku1: string, sku2: string,
    timeDecodes: string -> bool, toKobo: real -> int)
    requires IsUlidString(sku1) && IsUlidString(sku2)
    requires dto.categoryId != Some("")
    requires UpdateProductStep(c, productId, userId, dto, sku1, sku2, timeDecodes, toKobo).result.Ok?
    ensures var step := UpdateProductStep(c, productId, userId, dto, sku1, sku2, timeDecodes, toKobo);
      var old_ := c.products[productId];
      var p := step.result.value;
      && step.state == c.(products := c.products[productId := p])
      && p.id == old_.id && p.createdBy == old_.createdBy == userId
      && p.name == Or(dto.name, old_.name) && p.description == Or(dto.description, old_.description)
      && p.price == Or(dto.price, old_.price) && p.stockLevel == Or(dto.stockLevel, old_.stockLevel)
      && p.categoryId == Or(dto.categoryId, old_.categoryId)
      && (dto.price.None? ==> p.unitPrice == old_.unitPrice)
      && (dto.price.Some? ==> p.unitPrice == toKobo(dto.price.value))
      && (dto.categoryId.None? || dto.categoryId.value == old_.categoryId ==> p.sku == old_.sku)
      && (dto.categoryId.Some? && dto.categoryId.value != old_.categoryId ==>
            p.sku == ProductSku(c.categories, c.products, dto.categoryId.value, userId, sku1, sku2, timeDecodes).value)
  {
  }

  // ----------------------------------------------------------------- delete

  /** `deleteProduct` */
  function DeleteProductStep(c: Catalog, productId: string, userId: string): Step<()> {
    if productId !in c.products then Step(Err(ApiError(NotFound, ProductMissingMessage)), c)
    else if c.products[productId].createdBy != userId then Step(Err(ApiError(Forbidden, DeleteForbiddenMessage)), c)
    else Step(Ok(()), c.(products := c.products - {productId}))
  }

  /**
   * Only the creator deletes: a missing product or another caller fails and
   * leaves every product in place; the creator's call removes that product and
   * no other.
   */
  lemma {:induction false} DeleteOutcome(c: Catalog, productId: string, userId: string)
    ensures var step := DeleteProductStep(c, productId, userId);
      && (step.result.Ok? <==> productId in c.products && c.products[productId].createdBy == userId)
      && (step.result.Err? ==> step.state == c)
      && (step.result.Ok? ==> (productId !in step.state.products
            && forall id :: id != productId ==> (id in step.state.products <==> id in c.products)))
      && (forall id :: id in step.state.products ==> step.state.products[id] == c.products[id])
  {
  }

  // ---------------------------------------------------------------- service

  /** `ProductService` over the shared store, with the SKU helper it owns. */
  class ProductService {
    const db: Database
    const skuHelper: SkuHelper

    constructor (db: Database)
      ensures this.db == db && skuHelper.db == db
    {
      this.db := db;
      skuHelper := new SkuHelper(db);
    }

    function CatalogOf(): Catalog
      reads db
    {
      Catalog(db.categories, db.products, db.idempotencyKeys)
    }

    /** `createProduct` */
    method CreateProduct(
      userId: string, dto: CreateProductDto, key: Option<string>, d: Draws, now: int,
      timeDecodes: string -> bool, toKobo: real -> int) returns (r: Result<Product, ApiError>)
      requires skuHelper.db == db
      requires IsUlidString(d.sku1) && IsUlidString(d.sku2)
      modifies db`products, db`idempotencyKeys
      ensures var step := CreateProductStep(old(CatalogOf()), userId, dto, key, d, now, timeDecodes, toKobo);
        r == step.result && CatalogOf() == step.state
    {
      if KeyGiven(key) {
        var existingProduct := CheckIdempotencyKey(CatalogOf(), key.value, userId);
        if existingProduct.Some? {
          return Ok(existingProduct.value);
        }
      }
      if IsDuplicate(db.products, userId, dto.name, dto.price) {
        return Err(ApiError(Conflict, DuplicateMessage));
      }
      if dto.categoryId !in db.categories {
        return Err(ApiError(BadRequest, CategoryNotFoundMessage));
      }
      var sku := skuHelper.GenerateProductSku(dto.categoryId, userId, d.sku1, d.sku2, timeDecodes);
      if sku.Err? {
        return Err(sku.error);
      }
      assert CreateProductStep(old(CatalogOf()), userId, dto, key, d, now, timeDecodes, toKobo)
        == Created(old(CatalogOf()), userId, dto, key, d, now, sku.value, toKobo);
      r := InsertCreated(userId, dto, key, d, now, sku.value, toKobo);
    }

    /** The tail of `createProduct`: insert the product, then store the key when one was given. */
    method InsertCreated(
      userId: string, dto: CreateProductDto, key: Option<string>, d: Draws, now: int,
      sku: string, toKobo: real -> int) returns (r: Result<Product, ApiError>)
      modifies db`products, db`idempotencyKeys
      ensures var step := Created(old(CatalogOf()), userId, dto, key, d, now, sku, toKobo);
        r == step.result && CatalogOf() == step.state
    {
      var product := Db.Product(d.productId, sku, dto.name, dto.description, dto.price, toKobo(dto.price),
                             dto.stockLevel, userId, dto.categoryId);
      db.products := db.products[d.productId := product];
      if KeyGiven(key) {
        var stored := StoreIdempotencyKey(key.value, userId, d.productId, d.recordId, now);
        if stored.Err? {
          return Err(stored.error);
        }
      }
      r := Ok(product);
    }

    /** `storeIdempotencyKey`: the insert fails when the key is already stored. */
    method StoreIdempotencyKey(key: string, userId: string, productId: string, recordId: string, now: int)
      returns (r: Result<(), ApiError>)
      modifies db`idempotencyKeys
      ensures key in old(db.idempotencyKeys) ==>
        r == Err(ApiError(InternalServerError, KeyTakenMessage)) && db.idempotencyKeys == old(db.idempotencyKeys)
      ensures key !in old(db.idempotencyKeys) ==> (r.Ok? &&
        db.idempotencyKeys == old(db.idempotencyKeys)[key := IdempotencyRecord(recordId, key, userId, productId, now + KeyLifetimeMs)])
    {
      if key in db.idempotencyKeys {
        return Err(ApiError(InternalServerError, KeyTakenMessage));
      }
      var expiresAt := now + KeyLifetimeMs;
      db.idempotencyKeys := db.idempotencyKeys[key := IdempotencyRecord(recordId, key, userId, productId, expiresAt)];
      r := Ok(());
    }

    /** `cleanupExpiredIdempotencyKeys` */
    method CleanupExpiredIdempotencyKeys(now: int)
      modifies db`idempotencyKeys
      ensures db.idempotencyKeys == CleanupExpired(old(db.idempotencyKeys), now)
    {
      db.idempotencyKeys := map k | k in db.idempotencyKeys && !(db.idempotencyKeys[k].expiresAt < now) :: db.idempotencyKeys[k];
    }

    /** `updateProduct` */
    method UpdateProduct(
      productId: string, userId: string, dto: UpdateProductDto, sku1: string, sku2: string,
      timeDecodes: string -> bool, toKobo: real -> int) returns (r: Result<Product, ApiError>)
      requires skuHelper.db == db
      requires IsUlidString(sku1) && IsUlidString(sku2)
      modifies db`products
      ensures var step := UpdateProductStep(old(CatalogOf()), productId, userId, dto, sku1, sku2, timeDecodes, toKobo);
        r == step.result && CatalogOf() == step.state
    {
      if productId !in db.products {
        return Err(ApiError(NotFound, ProductMissingMessage));
      }
      var existingProduct := db.products[productId];
      if existingProduct.createdBy != userId {
        return Err(ApiError(Forbidden, UpdateForbiddenMessage));
      }
      if dto.categoryId.Some? && dto.categoryId.value != "" && dto.categoryId.value !in db.categories {
        return Err(ApiError(BadRequest, CategoryNotFoundMessage));
      }
      var updateData := ApplyUpdate(existingProduct, dto, toKobo);
      if dto.categoryId.Some? && dto.categoryId.value != "" && dto.categoryId.value != existingProduct.categoryId {
        var newSku := skuHelper.GenerateProductSku(dto.categoryId.value, userId, sku1, sku2, timeDecodes);
        if newSku.Err? {
          return Err(newSku.error);
        }
        updateData := updateData.(sku := newSku.value);
      }
      db.products := db.products[productId := updateData];
      r := Ok(updateData);
    }

    /** `deleteProduct` */
    method DeleteProduct(productId: string, userId: string) returns (r: Result<(), ApiError>)
      modifies db`products
      ensures var step := DeleteProductStep(old(CatalogOf()), productId, userId);
        r == step.result && CatalogOf() == step.state
    {
      if productId !in db.products {
        return Err(ApiError(NotFound, ProductMissingMessage));
      }
      if db.products[productId].createdBy != userId {
        return Err(ApiError(Forbidden, DeleteForbiddenMessage));
      }
      db.products := db.products - {productId};
      r := Ok(());
    }
  }
}
