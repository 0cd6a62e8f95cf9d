/**
 * SKU derivation: `CATEGORY-USER-SUFFIX`, where the category code comes from a
 * fixed table or the category name, the user code from the user id's ULID part,
 * and the suffix from the tail of a freshly drawn ULID (drawn again, once, on a
 * collision).
 */
module Sku {
  import opened Wrappers
  import opened JsString
  import opened UlidHelper
  import opened Db

  const UserIdMessage := "Invalid user ID format: must be a valid ULID"

  /** The ten category names with a fixed code. */
  const CategoryTable: map<string, string> := map[
    "Electronics" := "ELEC",
    "Clothing" := "CLTH",
    "Books" := "BOOK",
    "Home & Garden" := "HOME",
    "Sports" := "SPRT",
    "Beauty" := "BEAU",
    "Automotive" := "AUTO",
    "Toys" := "TOYS",
    "Health" := "HLTH",
    "Food" := "FOOD"]

  function CategoryMissingMessage(categoryId: string): string {
    "Category with id " + categoryId + " not found"
  }

  // ---------------------------------------------------------- category code

  /** `parts.filter(word => word.length > 0)` */
  function NonEmptyWords(parts: seq<string>): (ws: seq<string>)
    ensures |ws| <= |parts|
    ensures forall i :: 0 <= i < |ws| ==> ws[i] != "" && ws[i] in parts
  {
    if parts == [] then []
    else if parts[0] == "" then NonEmptyWords(parts[1..])
    else [parts[0]] + NonEmptyWords(parts[1..])
  }

  /** `name.split(' ').filter(word => word.length > 0)`: the non-empty runs between spaces. */
  function Words(name: string): (ws: seq<string>)
    ensures forall i :: 0 <= i < |ws| ==> ws[i] != "" && ' ' !in ws[i]
  {
    NonEmptyWords(Split(name, ' '))
  }

  /** Filtering works piecewise over the pieces. */
  lemma {:induction false} NonEmptyWordsConcat(a: seq<string>, b: seq<string>)
    ensures NonEmptyWords(a + b) == NonEmptyWords(a) + NonEmptyWords(b)
  {
    if a == [] {
      assert a + b == b;
    } else {
      assert (a + b)[0] == a[0];
      assert (a + b)[1..] == a[1..] + b;
      NonEmptyWordsConcat(a[1..], b);
    }
  }

  /** One piece is kept exactly when it is not empty. */
  lemma {:induction false} NonEmptyWordsSingle(w: string)
    ensures NonEmptyWords([w]) == if w == "" then [] else [w]
  {
    assert [w][1..] == [];
  }

  /** Pieces that are all non-empty are kept as they are. */
  lemma {:induction false} NonEmptyWordsKeepsAll(parts: seq<string>)
    requires forall i :: 0 <= i < |parts| ==> parts[i] != ""
    ensures NonEmptyWords(parts) == parts
  {
    if parts != [] {
      NonEmptyWordsKeepsAll(parts[1..]);
    }
  }

  /** Non-empty words without spaces, joined by single spaces, split back into those words. */
  lemma {:induction false} WordsOfJoin(ws: seq<string>)
    requires |ws| >= 1
    requires forall i :: 0 <= i < |ws| ==> ws[i] != "" && ' ' !in ws[i]
    ensures Words(Join(ws, ' ')) == ws
  {
    SplitJoin(ws, ' ');
    NonEmptyWordsKeepsAll(ws);
  }

  /** Two words separated by two spaces give just those two words: the empty piece between is dropped. */
  lemma {:induction false} WordsAcrossDoubleSpace(a: string, b: string)
    requires a != "" && ' ' !in a
    requires b != "" && ' ' !in b
    ensures Words(a + "  " + b) == [a, b]
  {
    var pieces := [a, "", b];
    JoinAroundEmpty(a, b);
    SplitJoin(pieces, ' ');
    assert pieces == [a] + ([""] + [b]);
    NonEmptyWordsConcat([a], [""] + [b]);
    NonEmptyWordsConcat([""], [b]);
    NonEmptyWordsSingle(a);
    NonEmptyWordsSingle("");
    NonEmptyWordsSingle(b);
  }

  /** Joining a word, an empty piece and a word puts two spaces between the words. */
  lemma {:induction false} JoinAroundEmpty(a: string, b: string)
    ensures Join([a, "", b], ' ') == a + "  " + b
  {
    assert [a, "", b] == [a] + ["", b];
    assert ["", b] == [""] + [b];
    JoinCons(a, ["", b], ' ');
    JoinCons("", [b], ' ');
    assert Join([b], ' ') == b;
    assert a + [' '] + ("" + [' '] + b) == a + "  " + b;
  }

  /** A run of several spaces yields no empty word. */
  lemma {:induction false} WordsExample()
    ensures Words("Home  Garden") == ["Home", "Garden"]
  {
    assert "Home  Garden" == "Home" + "  " + "Garden";
    WordsAcrossDoubleSpace("Home", "Garden");
  }

  /** `words.map(word => word.charAt(0)).join('')` */
  function Initials(ws: seq<string>): (r: string)
    requires forall i :: 0 <= i < |ws| ==> ws[i] != ""
    ensures |r| == |ws|
    ensures forall i :: 0 <= i < |ws| ==> r[i] == ws[i][0]
  {
    seq(|ws|, i requires 0 <= i < |ws| && ws[i] != "" => ws[i][0])
  }

  /** `getCategoryCode` once the category is found: the table, else one word, else initials. */
  function CategoryCode(name: string): string {
    if name in CategoryTable then CategoryTable[name]
    else
      var ws := Words(name);
      if |ws| == 1 then AsciiUpper(TakeFirst(ws[0], 4))
      else AsciiUpper(TakeFirst(PadEnd(Initials(ws), 4, 'X'), 4))
  }

  predicate IsUpperLetters(s: string) {
    forall i :: 0 <= i < |s| ==> 'A' <= s[i] <= 'Z'
  }

  /** Every tabled name gets its fixed code, which is four upper-case letters. */
  lemma {:induction false} TabledCategoryCodes(name: string)
    requires name in CategoryTable
    ensures CategoryCode(name) == CategoryTable[name]
    ensures |CategoryCode(name)| == 4 && IsUpperLetters(CategoryCode(name))
  {
  }

  /** The table's first entry, as the tests use it. */
  lemma {:induction false} ElectronicsCode()
    ensures CategoryCode("Electronics") == "ELEC"
  {
    assert "Electronics" in CategoryTable;
  }

  /**
   * An untabled one-word name gives the word's first four characters, upper-cased:
   * a word shorter than four characters gives a code just as short.
   */
  lemma {:induction false} SingleWordCategoryCode(name: string)
    requires name !in CategoryTable && |Words(name)| == 1
    ensures var w := Words(name)[0]; var code := CategoryCode(name);
      |code| == (if |w| < 4 then |w| else 4) && 1 <= |code|
      && forall i :: 0 <= i < |code| ==> code[i] == UpperChar(w[i])
  {
  }

  /**
   * An untabled name with no word or several words gives exactly four characters:
   * the upper-cased initials of the first words, then `X` for each missing word.
   */
  lemma {:induction false} InitialsCategoryCode(name: string)
    requires name !in CategoryTable && |Words(name)| != 1
    ensures var ws := Words(name); var code := CategoryCode(name);
      |code| == 4
      && (forall i :: 0 <= i < 4 && i < |ws| ==> code[i] == UpperChar(ws[i][0]))
      && (forall i :: |ws| <= i < 4 ==> code[i] == 'X')
  {
    var ws := Words(name);
    var padded := PadEnd(Initials(ws), 4, 'X');
    forall i | 0 <= i < 4 && i < |ws| ensures padded[i] == ws[i][0] {
      assert padded[..|ws|] == Initials(ws);
      assert padded[i] == padded[..|ws|][i];
    }
  }

  /** A name with no word at all (empty, or only spaces) gives `XXXX`. */
  lemma {:induction false} NoWordCategoryCode(name: string)
    requires name !in CategoryTable && Words(name) == []
    ensures CategoryCode(name) == "XXXX"
  {
    InitialsCategoryCode(name);
    var code := CategoryCode(name);
    assert code[0] == 'X' && code[1] == 'X' && code[2] == 'X' && code[3] == 'X';
  }

  // -------------------------------------------------------------- user code

  /** The second piece of a split is the segment `UlidHelper.parse` reads as the ULID. */
  lemma {:induction false} SplitSecondPiece(s: string, sep: char)
    requires sep in s
    ensures |Split(s, sep)| >= 2
    ensures var rest := s[IndexOf(s, sep) + 1..]; Split(s, sep)[1] == rest[..IndexOf(rest, sep)]
  {
  }

  /**
   * `getUserIdCode`: the last four characters, upper-cased, of the part after the
   * first underscore. A missing or empty part, or one the ULID library cannot
   * decode a time from (`timeDecodes`), fails.
   */
  function UserIdCode(userId: string, timeDecodes: string -> bool): (r: Result<string, ApiError>)
    ensures '_' !in userId ==> r.Err?
    ensures r.Err? ==> r.error == ApiError(BadRequest, UserIdMessage)
    ensures r.Ok? <==> '_' in userId && SecondSegment(userId) != "" && timeDecodes(SecondSegment(userId))
    ensures r.Ok? ==> var part := SecondSegment(userId);
      |r.value| == (if |part| < 4 then |part| else 4)
      && forall i :: 0 <= i < |r.value| ==> r.value[i] == UpperChar(part[|part| - |r.value| + i])
  {
    var parts := Split(userId, '_');
    if |parts| < 2 || parts[1] == "" then Err(ApiError(BadRequest, UserIdMessage))
    else
      SplitSecondPiece(userId, '_');
      var ulidPart := parts[1];
      if !timeDecodes(ulidPart) then Err(ApiError(BadRequest, UserIdMessage))
      else Ok(AsciiUpper(TakeLast(ulidPart, 4)))
  }

  /** The user code of a generated user id is the ULID's last four characters, as they are. */
  lemma {:induction false} UserIdCodeOfGenerated(u: string, timeDecodes: string -> bool)
    requires IsUlidString(u) && timeDecodes(u)
    ensures UserIdCode(Generate(EntityPrefix.User, u), timeDecodes) == Ok(u[22..])
  {
    var id := Generate(EntityPrefix.User, u);
    GenerateRoundTrip(EntityPrefix.User, u);
    assert '_' in id && SecondSegment(id) == u;
    assert timeDecodes(SecondSegment(id));
    assert UserIdCode(id, timeDecodes).Ok?;
    var code := UserIdCode(id, timeDecodes).value;
    assert |code| == 4;
    forall i | 0 <= i < 4 ensures code[i] == u[22..][i] {
      assert IsCrockfordChar(u[22 + i]);
      assert code[i] == UpperChar(u[22 + i]);
    }
    assert code == u[22..];
  }

  // ------------------------------------------------------------------- SKUs

  function SkuOf(categoryCode: string, userCode: string, uniqueId: string): string {
    categoryCode + "-" + userCode + "-" + uniqueId
  }

  /** Some stored product already carries `sku`. */
  predicate SkuTaken(products: map<string, Product>, sku: string) {
    exists id :: id in products && products[id].sku == sku
  }

  /**
   * `generateProductSku` over the category and product tables, with the two
   * ULIDs it may draw. The user code is computed before the category is looked
   * up, so a malformed user id wins over a missing category. The second
   * candidate is not checked against the table.
   */
  function ProductSku(
    categories: map<string, Category>, products: map<string, Product>,
    categoryId: string, userId: string, draw1: string, draw2: string,
    timeDecodes: string -> bool): (r: Result<string, ApiError>)
    requires IsUlidString(draw1) && IsUlidString(draw2)
    ensures UserIdCode(userId, timeDecodes).Err? ==> r == Err(ApiError(BadRequest, UserIdMessage))
    ensures UserIdCode(userId, timeDecodes).Ok? && categoryId !in categories ==>
      r == Err(ApiError(NotFound, CategoryMissingMessage(categoryId)))
    ensures r.Ok? <==> UserIdCode(userId, timeDecodes).Ok? && categoryId in categories
  {
    var userCode := UserIdCode(userId, timeDecodes);
    if userCode.Err? then Err(userCode.error)
    else if categoryId !in categories then Err(ApiError(NotFound, CategoryMissingMessage(categoryId)))
    else
      var categoryCode := CategoryCode(categories[categoryId].name);
      var candidateSku := SkuOf(categoryCode, userCode.value, TakeLast(draw1, 6));
      if SkuTaken(products, candidateSku) then Ok(SkuOf(categoryCode, userCode.value, TakeLast(draw2, 6)))
      else Ok(candidateSku)
  }

  /**
   * A successful SKU is the category's code, the user code and the last six
   * characters of the first draw, or of the second draw exactly when the first
   * candidate is already taken.
   */
  lemma {:induction false} ProductSkuParts(
    categories: map<string, Category>, products: map<string, Product>,
    categoryId: string, userId: string, draw1: string, draw2: string,
    timeDecodes: string -> bool)
    requires IsUlidString(draw1) && IsUlidString(draw2)
    requires ProductSku(categories, products, categoryId, userId, draw1, draw2, timeDecodes).Ok?
    ensures var code := CategoryCode(categories[categoryId].name);
      var user := UserIdCode(userId, timeDecodes).value;
      var first := SkuOf(code, user, draw1[20..]);
      ProductSku(categories, products, categoryId, userId, draw1, draw2, timeDecodes).value
        == if SkuTaken(products, first) then SkuOf(code, user, draw2[20..]) else first
  {
    assert TakeLast(draw1, 6) == draw1[20..];
    assert TakeLast(draw2, 6) == draw2[20..];
  }

  /** When the first candidate is free the SKU returned is not carried by any stored product. */
  lemma {:induction false} ProductSkuFreshWhenFirstFree(
    categories: map<string, Category>, products: map<string, Product>,
    categoryId: string, userId: string, draw1: string, draw2: string,
    timeDecodes: string -> bool)
    requires IsUlidString(draw1) && IsUlidString(draw2)
    requires ProductSku(categories, products, categoryId, userId, draw1, draw2, timeDecodes).Ok?
    requires var user := UserIdCode(userId, timeDecodes).value;
      !SkuTaken(products, SkuOf(CategoryCode(categories[categoryId].name), user, TakeLast(draw1, 6)))
    ensures !SkuTaken(products, ProductSku(categories, products, categoryId, userId, draw1, draw2, timeDecodes).value)
  {
  }

  /**
   * The retry is not re-checked: when both candidates are taken, the SKU
   * returned duplicates one a stored product already carries.
   */
  lemma {:induction false} ProductSkuSecondCollision(
    categories: map<string, Category>, products: map<string, Product>,
    categoryId: string, userId: string, draw1: string, draw2: string,
    timeDecodes: string -> bool)
    requires IsUlidString(draw1) && IsUlidString(draw2)
    requires ProductSku(categories, products, categoryId, userId, draw1, draw2, timeDecodes).Ok?
    requires var code := CategoryCode(categories[categoryId].name);
      var user := UserIdCode(userId, timeDecodes).value;
      SkuTaken(products, SkuOf(code, user, TakeLast(draw1, 6))) && SkuTaken(products, SkuOf(code, user, TakeLast(draw2, 6)))
    ensures SkuTaken(products, ProductSku(categories, products, categoryId, userId, draw1, draw2, timeDecodes).value)
  {
  }

  /** For a generated user id, a tabled category and a free first candidate the SKU is `CODE-UUUU-SSSSSS`. */
  lemma {:induction false} ProductSkuOfGeneratedUser(
    categories: map<string, Category>, products: map<string, Product>,
    categoryId: string, u: string, draw1: string, draw2: string,
    timeDecodes: string -> bool)
    requires IsUlidString(u) && timeDecodes(u)
    requires IsUlidString(draw1) && IsUlidString(draw2)
    requires categoryId in categories && categories[categoryId].name in CategoryTable
    requires !SkuTaken(products, SkuOf(CategoryTable[categories[categoryId].name], u[22..], draw1[20..]))
    ensures ProductSku(categories, products, categoryId, Generate(EntityPrefix.User, u), draw1, draw2, timeDecodes)
      == Ok(CategoryTable[categories[categoryId].name] + "-" + u[22..] + "-" + draw1[20..])
  {
    UserIdCodeOfGenerated(u, timeDecodes);
    assert TakeLast(draw1, 6) == draw1[20..];
  }

  /** `SkuHelper`: SKU generation against the shared store, which it only reads. */
  class SkuHelper {
    const db: Database

    constructor (db: Database)
      ensures this.db == db
    {
      this.db := db;
    }

    /** `generateProductSku(categoryId, userId)`, given the ULIDs `ulid()` would return. */
    method GenerateProductSku(categoryId: string, userId: string, draw1: string, draw2: string, timeDecodes: string -> bool)
      returns (r: Result<string, ApiError>)
      requires IsUlidString(draw1) && IsUlidString(draw2)
      ensures r == ProductSku(db.categories, db.products, categoryId, userId, draw1, draw2, timeDecodes)
    {
      var userIdCode := UserIdCode(userId, timeDecodes);
      if userIdCode.Err? {
        return Err(userIdCode.error);
      }
      if categoryId !in db.categories {
        return Err(ApiError(NotFound, CategoryMissingMessage(categoryId)));
      }
      var categoryCode := CategoryCode(db.categories[categoryId].name);
      var uniqueId := TakeLast(draw1, 6);
      var candidateSku := SkuOf(categoryCode, userIdCode.value, uniqueId);
      if SkuTaken(db.products, candidateSku) {
        var newUniqueId := TakeLast(draw2, 6);
        return Ok(SkuOf(categoryCode, userIdCode.value, newUniqueId));
      }
      return Ok(candidateSku);
    }
  }
}
