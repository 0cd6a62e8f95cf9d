# A verified model of the future-stack e-commerce backend core

This project is a Dafny model of the logic at the core of an Express/Prisma
e-commerce backend. That logic consists of:

- **Prefixed identifiers.** Ids have the form `usr_<ULID>`, `prd_<ULID>`, and so on.
- **Request validators.**
  - password strength;
  - identifier checks;
  - string sanitising;
  - e-mail normalisation;
  - the `X-Idempotency-Key` header check.
- **SKU derivation.**
- **Cart engine.** Each user has one cart, with one line per product and stock checks.
- **Product service.**
  - idempotent creation;
  - the per-creator name-and-price conflict;
  - owner-only update and delete;
  - SKU regeneration on a category change;
  - listing-query normalisation and pagination.
- **Session lifecycle.** Register, login, refresh-token rotation and logout.

Persistence is a `Db.Database` object whose tables are Dafny `seq`s and `map`s. Users,
carts, cart lines and sessions are sequences in insertion order, because the services
use the first match of a `findFirst` or the order of a `findMany` on them. Products,
categories and idempotency records are maps. The services read them by unique key,
with two exceptions where the order does not matter:

- The two `findFirst` calls on products (a taken SKU in `src/utils/sku-helper.ts`, a
  duplicate name and price in `checkDuplicateProduct`) only test whether a match
  exists, so the model states them as existence over the map.
- The product listing's `findMany` takes its filtered and sorted rows as a sequence
  parameter; only the page window over those rows is modelled.

Each service is a class over that object. Each of its methods is proved to perform
exactly one *step function*: a pure function from the tables it touches to the answer
and the new tables. The properties the services promise are proved as lemmas about
those step functions. They cover:

- the order in which errors are checked;
- what stays unchanged;
- the invariants each step keeps (one cart per user, one line per product, unique
  session ids, sessions bound to their users and tokens);
- round trips and idempotence.

The following enter as parameters:

- what the ULID generator, the clock and the random source produce;
- the password hash and its comparison;
- `decodeTime` from the `ulid` library;
- the naira-to-kobo conversion.

A signed refresh token is the datatype `Db.RefreshJwt`. Its issue time is in whole
seconds, so two tokens for the same claims are equal exactly when they are signed in
the same second.

Modules, one file each:

- `Wrappers`: `Option`, `Result`, HTTP status and `ApiError`.
- `JsString`: the JavaScript string and number primitives used, namely `trim`,
  `split`, `indexOf`, `slice`, `padEnd`, ASCII case mapping, `parseInt` and integer
  text.
- `UlidHelper`
- `CustomValidation`: the validators of `src/utils/customValidation.ts`.
  - Its `ulid` and `ulidWithPrefix` use the identifier helper of `src`, whose prefix
    set has seven kinds: the five of `UlidHelper.EntityPrefix`, plus user sessions and
    idempotency records. Their tag texts are not part of this model, so the two
    validators take them as the parameter `ExtraTags`.
  - The copy in `express-prisma/src/utils/customValidation.ts` has the same password
    rule and the same two ULID validators, but imports the five-kind helper.
    `CustomValidation.IsValidIdOfFive` states the difference: the two copies disagree
    exactly on well-formed ids that carry one of the two extra tags. The src copy
    accepts those ids and the express-prisma copy rejects them.
  - The table cites the `src` copy only.
- `Idempotency`
- `Db`
- `Sku`
- `Carts`
- `Products`
- `Auth`

## Model

| member | source | states |
|---|---|---|
| UlidHelper.Tag | express-prisma/src/utils/ulid.helper.ts:3-9 | each of the five entity kinds has a three-letter tag without an underscore |
| UlidHelper.PrefixOf | express-prisma/src/utils/ulid.helper.ts:45-46 | only the five entity tags are recognised, each as its own kind |
| UlidHelper.PrefixOfTag | express-prisma/src/utils/ulid.helper.ts:45-48 | every tag is recognised as the kind it belongs to, so the tags are pairwise distinct |
| UlidHelper.Parse | express-prisma/src/utils/ulid.helper.ts:22-38 | no result without an underscore (so none for the empty string); a result exactly when the text before the first underscore is non-empty and the segment after it, up to any second underscore, has 26 characters; the result is that prefix, that segment and the input unchanged |
| UlidHelper.ParseLayout | express-prisma/src/utils/ulid.helper.ts:27-37 | a parsed id starts with `prefix_ulid` and continues only with another underscore |
| UlidHelper.ParseComposed | express-prisma/src/utils/ulid.helper.ts:27 | `prefix_ulid` followed by nothing or by `_…` parses back into exactly that prefix and ULID: a second underscore truncates the ULID part |
| UlidHelper.IsValid | express-prisma/src/utils/ulid.helper.ts:40-55 | valid iff the id parses, its prefix is one of the five tags and its ULID part is 26 Crockford characters |
| UlidHelper.ValidatePrefix | express-prisma/src/utils/ulid.helper.ts:57-60 | holds iff the id parses and its prefix is the expected tag; the alphabet is not checked |
| UlidHelper.ExtractUlid | express-prisma/src/utils/ulid.helper.ts:62-65 | none exactly when parsing fails, otherwise the 26-character segment |
| UlidHelper.ExtractPrefix | express-prisma/src/utils/ulid.helper.ts:67-70 | none exactly when parsing fails, otherwise the non-empty prefix |
| UlidHelper.GenerateWithTagParses | express-prisma/src/utils/ulid.helper.ts:18-20 | any tag without an underscore followed by `_` and a ULID parses back into tag and ULID (this covers the session and idempotency-record prefixes too) |
| UlidHelper.GenerateRoundTrip | express-prisma/src/utils/ulid.helper.ts:18-20 | a generated id parses to its prefix and ULID, is valid, passes `validatePrefix` for its own kind, and both parts extract back out |
| UlidHelper.GenerateMultipleValid | express-prisma/src/utils/ulid.helper.ts:84-86 | every id of a batch is a valid id of the prefix and carries its own drawn ULID, in order |
| UlidHelper.GenerateMultipleDistinct | express-prisma/src/utils/ulid.helper.ts:84-86 | distinct ULIDs give pairwise distinct ids |
| UlidHelper.GetTimestamp | express-prisma/src/utils/ulid.helper.ts:72-82 | none exactly when parsing fails (the value is stated by the two lemmas below) |
| UlidHelper.GetTimestampValue | express-prisma/src/utils/ulid.helper.ts:72-82 | for a ULID part starting with neither white space nor a sign: the radix-32 value of the longest leading run of radix-32 digits among the first ten characters, or NaN when that run is empty |
| UlidHelper.GetTimestampOfValid | express-prisma/src/utils/ulid.helper.ts:72-82 | for a valid id the run ends exactly at the first `W`, `X`, `Y` or `Z` among the ten characters, and the result is that run's radix-32 value, or NaN when the first character is one of those letters |
| UlidHelper.GetTimestampOfDigits | express-prisma/src/utils/ulid.helper.ts:77 | when all ten characters are radix-32 digits, the result is their radix-32 value |
| UlidHelper.GetTimestampMisreadsCrockford | express-prisma/src/utils/ulid.helper.ts:77 | for `usr_00000000JZ0000000000000000` the code yields 19, while the time the ULID encodes is 607 (first finding) |
| UlidHelper.RadixReadOfMisreadUlid | express-prisma/src/utils/ulid.helper.ts:77 | radix-32 `parseInt` reads `J` as 19 and stops at `Z` |
| UlidHelper.DecodeEncodeTime | express-prisma/src/utils/ulid.helper.ts:72-82 | the Crockford decoding inverts the generator's n-character time encoding |
| UlidHelper.DecodeTimestampOfGenerate | express-prisma/src/utils/ulid.helper.ts:72-82 | corrected `getTimestamp`: an id generated at time t decodes to t |
| JsString.Trim | src/utils/customValidation.ts:53 | the result is the slice of the input that starts after its leading white space and is followed only by white space, and it neither starts nor ends with white space; so it is the input with white space removed at both ends |
| JsString.TrimNoEndSpaces | src/utils/customValidation.ts:53 | text that neither starts nor ends with white space is its own trim |
| JsString.TrimExample | src/utils/customValidation.ts:53 | `" a b "` trims to `"a b"`: inner white space stays |
| JsString.TrimIdempotent | src/utils/customValidation.ts:53 | trimming twice equals trimming once |
| JsString.Split | src/utils/sku-helper.ts:61 | pieces hold no separator, the first piece runs to the first separator, and there is one piece exactly when the separator is absent |
| JsString.JoinSplit | src/utils/sku-helper.ts:61 | joining the pieces of a split restores the string |
| JsString.SplitJoin | src/utils/sku-helper.ts:61 | splitting a join of separator-free pieces restores the pieces |
| JsString.TakeFirst | src/utils/sku-helper.ts:64 | `substring(0, n)`: the first min(n, length) characters |
| JsString.TakeLast | src/utils/sku-helper.ts:78 | `slice(-n)`: the last min(n, length) characters |
| JsString.PadEnd | src/utils/sku-helper.ts:67 | the string followed by the fill character up to length n |
| JsString.AsciiUpper | src/utils/sku-helper.ts:64 | character-wise upper-casing, same length |
| JsString.AsciiLower | src/utils/customValidation.ts:73 | character-wise lower-casing, same length |
| JsString.ParseIntUnsigned | express-prisma/src/utils/ulid.helper.ts:77 | text starting with neither white space nor a sign parses to the value of its leading digit run, or NaN when there is none |
| JsString.ParseIntOfDigits | src/services/product.service.ts:21 | a string starting with k digits of the radix parses to their value |
| JsString.NatToStringValue | src/services/cart.service.ts:99 | the decimal digits of a natural number denote that number |
| JsString.IntToStringRoundTrip | src/services/cart.service.ts:99 | the decimal text of any integer parses back to it |
| CustomValidation.Contains | src/utils/customValidation.ts:6-9 | true iff some character of the value is in the class |
| CustomValidation.Password | src/utils/customValidation.ts:4-18 | accepted iff length ≥ 8 and the value has an upper-case letter, a lower-case letter, a digit and a listed special character; accepted values are returned unchanged; rejection carries the fixed message |
| CustomValidation.PasswordExamples | src/utils/customValidation.ts:4-18 | `P@ssw0rd123` is accepted unchanged and `Password!` (no digit) rejected |
| CustomValidation.KindTagInjective | src/services/auth.service.ts:28 | under the tag assumptions, the seven kinds have non-empty, underscore-free, pairwise distinct tags |
| CustomValidation.IsValidId | src/utils/customValidation.ts:21 | `isValid` over the seven kinds: it parses, the prefix is one of the seven tags, and the ULID part is Crockford; every five-kind valid id is valid |
| CustomValidation.IsValidIdOfFive | src/utils/customValidation.ts:2 | well-formed ids with an extra tag are valid for the seven-kind check and invalid for the five-kind one; on every other id the two checks agree |
| CustomValidation.Ulid | src/utils/customValidation.ts:20-26 | 'Invalid ULID format' iff the seven-kind `isValid` fails; otherwise the value unchanged |
| CustomValidation.UlidOfGenerated | src/utils/customValidation.ts:20-26 | a generated id of every kind is accepted, including session and idempotency-record ids, which the five-kind check rejects |
| CustomValidation.UlidWithPrefix | src/utils/customValidation.ts:28-42 | an id invalid for the seven-kind check gives 'Invalid ULID format'; a valid id with another prefix gives the message naming the expected tag; accepted exactly when valid with that prefix, unchanged |
| CustomValidation.UlidWithPrefixMessagesDiffer | src/utils/customValidation.ts:31-37 | the two failure messages are distinct for every kind |
| CustomValidation.UlidWithPrefixOfGenerated | src/utils/customValidation.ts:28-42 | a generated id passes for its own kind and fails with the prefix message for any other of the seven kinds |
| CustomValidation.UlidWithPrefixAcceptedShape | src/utils/customValidation.ts:28-42 | an accepted id is the kind's tag, `_`, 26 Crockford characters, then nothing or `_…` |
| CustomValidation.Filter | src/utils/customValidation.ts:50-52 | a regex `replace(…, '')` pass keeps only admitted characters and never lengthens the text |
| CustomValidation.FilterSingleton | src/utils/customValidation.ts:50-52 | one character is kept exactly when it is admitted |
| CustomValidation.FilterConcat | src/utils/customValidation.ts:50-52 | the pass works piecewise over concatenation, so with `FilterSingleton` it keeps exactly the admitted characters, in order |
| CustomValidation.FilterKeepsAll | src/utils/customValidation.ts:50-52 | text whose every character is admitted is unchanged |
| CustomValidation.FilterFromInput | src/utils/customValidation.ts:50-52 | every kept character comes from the input |
| CustomValidation.FilterFilter | src/utils/customValidation.ts:50-52 | two passes in a row keep what both classes admit |
| CustomValidation.Sanitized | src/utils/customValidation.ts:49-53 | the output is the trim of the input's clean characters (no `< > { }`, printable ASCII, tab, LF or CR), in order; so it holds only clean characters and no white space at either end |
| CustomValidation.SanitizeString | src/utils/customValidation.ts:44-60 | fails 'String contains only invalid characters' iff the cleaned result is empty while the input was not; otherwise returns the cleaned result |
| CustomValidation.SanitizedFixedPoint | src/utils/customValidation.ts:49-53 | clean, trimmed text is left as it is |
| CustomValidation.SanitizeIdempotent | src/utils/customValidation.ts:49-59 | sanitising an accepted output again returns the same output |
| CustomValidation.FilterDropsTags | src/utils/customValidation.ts:50 | two angle-bracket tags among clean texts lose only their brackets |
| CustomValidation.SanitizeAroundScript | src/utils/customValidation.ts:44-60 | a `<script>…</script>` element between clean texts is accepted with only its angle brackets removed |
| CustomValidation.SanitizeProductNameExample | tests/integrations/product.integration.test.ts:180-200 | `Gaming <script>alert("xss")</script> Laptop` becomes `Gaming scriptalert("xss")/script Laptop` |
| CustomValidation.SanitizeUserNameExample | tests/integrations/auth.integration.test.ts:125-139 | `Test <script>alert("xss")</script> User` becomes `Test scriptalert("xss")/script User` |
| CustomValidation.SanitizeRejectsStrippedOnly | src/utils/customValidation.ts:55-57 | non-empty input made only of stripped characters or white space is rejected |
| CustomValidation.EmailMatchesIff | src/utils/customValidation.ts:63-65 | the computed check agrees, in both directions, with the e-mail pattern `local@domain.tld` |
| CustomValidation.EmailMatchesToPattern | src/utils/customValidation.ts:63-65 | a value the computed check accepts has a split `local@domain.tld` the pattern admits |
| CustomValidation.PatternToEmailMatches | src/utils/customValidation.ts:63-65 | a value with such a split is accepted by the computed check |
| CustomValidation.EmailMatchesChars | src/utils/customValidation.ts:63 | a matching value holds only pattern characters |
| CustomValidation.EmailTrimIsNoop | src/utils/customValidation.ts:73 | the final `trim()` never changes a matching, lower-cased value |
| CustomValidation.EmailMatchesLower | src/utils/customValidation.ts:63-73 | lower-casing a matching value keeps it matching |
| CustomValidation.Email | src/utils/customValidation.ts:62-74 | the pattern is checked first ('Invalid email format'), then the 254-character limit ('Email is too long'); an accepted value is returned lower-cased |
| CustomValidation.AsciiLowerIdempotent | src/utils/customValidation.ts:73 | lower-casing is idempotent and leaves no upper-case letter |
| CustomValidation.EmailAcceptsNormalised | src/utils/customValidation.ts:62-74 | a matching, lower-case address within the limit is accepted unchanged |
| CustomValidation.EmailNormalisedLowerCase | src/utils/customValidation.ts:73 | an accepted address contains no upper-case letter |
| CustomValidation.EmailIdempotent | src/utils/customValidation.ts:62-74 | validating an accepted address again gives the same result |
| Idempotency.KeySchema | src/middlewares/idempotency.ts:6-15 | accepted iff 1 ≤ length ≤ 255 and every character is in `[A-Za-z0-9_-]`, returned unchanged; rules apply in declaration order |
| Idempotency.CheckHeader | src/middlewares/idempotency.ts:17-27 | an absent or empty header gives BAD_REQUEST 'X-Idempotency-Key header is required'; otherwise accepted iff well-formed; every failure is BAD_REQUEST |
| Idempotency.EmptyKeyReportsMissingHeader | src/middlewares/idempotency.ts:20-22 | an empty header reports the missing-header message, never the schema's empty-key message |
| Idempotency.TooLongKeyMessage | src/middlewares/idempotency.ts:9 | any key longer than 255 characters fails with the length message |
| Idempotency.BadCharacterKeyMessage | src/middlewares/idempotency.ts:10 | a key of acceptable length with a character outside the class fails with the pattern message |
| Idempotency.FailureMessagesDistinct | src/middlewares/idempotency.ts:12-14 | the three failure messages a sent header can produce are distinct |
| Idempotency.Request.ValidateIdempotencyKey | src/middlewares/idempotency.ts:17-31 | on acceptance the key is attached unchanged and `next` runs exactly once; on rejection the request is unchanged |
| Sku.NonEmptyWords | src/utils/sku-helper.ts:61 | keeps only non-empty pieces of the input and never more pieces than it had |
| Sku.NonEmptyWordsConcat | src/utils/sku-helper.ts:61 | the filter works piecewise over concatenation |
| Sku.NonEmptyWordsSingle | src/utils/sku-helper.ts:61 | one piece is kept exactly when it is non-empty, so with `NonEmptyWordsConcat` exactly the non-empty pieces are kept, in order |
| Sku.NonEmptyWordsKeepsAll | src/utils/sku-helper.ts:61 | all-non-empty pieces are kept as they are |
| Sku.Words | src/utils/sku-helper.ts:61 | the words are non-empty and space-free |
| Sku.WordsOfJoin | src/utils/sku-helper.ts:61 | non-empty space-free words joined by single spaces give back exactly those words |
| Sku.WordsAcrossDoubleSpace | src/utils/sku-helper.ts:61 | two words separated by two spaces give exactly those two words |
| Sku.WordsExample | src/utils/sku-helper.ts:61 | `"Home  Garden"` gives `["Home", "Garden"]` |
| Sku.Initials | src/utils/sku-helper.ts:66 | one character per word: its first |
| Sku.TabledCategoryCodes | src/utils/sku-helper.ts:44-59 | each of the ten tabled names gets its fixed code, four upper-case letters |
| Sku.ElectronicsCode | src/utils/sku-helper.ts:45 | Electronics gives ELEC |
| Sku.SingleWordCategoryCode | src/utils/sku-helper.ts:63-64 | an untabled one-word name gives its first ≤ 4 characters upper-cased, so possibly fewer than 4 |
| Sku.InitialsCategoryCode | src/utils/sku-helper.ts:65-68 | otherwise the code is the initials padded with X to 4, cut to 4, upper-cased |
| Sku.NoWordCategoryCode | src/utils/sku-helper.ts:65-68 | a name with no words gives XXXX |
| Sku.SplitSecondPiece | src/utils/sku-helper.ts:73 | `split('_')[1]` is the segment identifier parsing reads as the ULID |
| Sku.UserIdCode | src/utils/sku-helper.ts:71-82 | fails BAD_REQUEST 'Invalid user ID format: must be a valid ULID' iff the second segment is missing, empty or not decodable; otherwise its last four characters, upper-cased |
| Sku.UserIdCodeOfGenerated | src/utils/sku-helper.ts:71-82 | a generated user id's code is its ULID's last four characters |
| Sku.ProductSku | src/utils/sku-helper.ts:11-33 | a bad user id fails even when the category is also missing; then a missing category fails NOT_FOUND 'Category with id … not found'; succeeds otherwise |
| Sku.ProductSkuParts | src/utils/sku-helper.ts:17-32 | the SKU is category code, `-`, user code, `-`, the last six characters of the first draw when that candidate is free and of the second draw otherwise |
| Sku.ProductSkuFreshWhenFirstFree | src/utils/sku-helper.ts:20-32 | when the first candidate is free, no stored product carries the returned SKU |
| Sku.ProductSkuSecondCollision | src/utils/sku-helper.ts:24-29 | the second candidate is not re-checked: it may duplicate a stored SKU |
| Sku.ProductSkuOfGeneratedUser | src/utils/sku-helper.ts:11-33 | a tabled category, a generated user id and a free first candidate give `CODE-UUUU-SSSSSS` |
| Sku.SkuHelper.GenerateProductSku | src/utils/sku-helper.ts:11-33 | the method returns exactly `ProductSku` over the store's categories and products |
| Carts.CartIndex | src/services/cart.service.ts:11-13 | `findFirst` position: the first cart the user created, all earlier carts belong to others |
| Carts.GetOrCreateUserCart | src/services/cart.service.ts:10-22 | an existing cart is returned with the table unchanged; otherwise one cart for the user is appended and returned |
| Carts.CartIndexOfAppend | src/services/cart.service.ts:15-20 | a cart appended for a user without one is found afterwards |
| Carts.LineIndex | src/services/cart.service.ts:85-92 | the position of the first line for the (cart, product) key, none before it |
| Carts.FindLine | src/services/cart.service.ts:85-92 | a found line has the requested cart and product |
| Carts.FindLineNone | src/services/cart.service.ts:85-92 | no line is found exactly when no line has that key |
| Carts.LinesOf | src/services/cart.service.ts:56-59 | `findMany({ cartId })`: lines of that cart only, taken from the table |
| Carts.ViewItems | src/services/cart.service.ts:24-39 | each view line's `itemTotalKobo` is `unitPrice × quantity`, and there are no more view lines than cart lines |
| Carts.ViewItemsConcat | src/services/cart.service.ts:24-39 | the view of concatenated lines is the concatenation of their views |
| Carts.ViewItemsSingle | src/services/cart.service.ts:24-39 | one line appears, joined to its product's SKU, name, prices and total, exactly when the product exists |
| Carts.ViewItemsAllPresent | src/services/cart.service.ts:24-39 | when every line's product exists, the view has one element per line, in order, each that line joined to its product |
| Carts.SingleLineViewExample | src/services/cart.service.ts:24-51 | two units at 99 999 kobo give one view line of 199 998 kobo and a subtotal of 199 998 |
| Carts.ReduceIsSum | src/services/cart.service.ts:43 | the left fold from 0 equals the sum of line totals |
| Carts.SumConcat | src/services/cart.service.ts:43 | the sum of line totals is additive over concatenation |
| Carts.BuildCartView | src/services/cart.service.ts:41-51 | the view carries the cart id and a subtotal equal to the sum of its lines' totals |
| Carts.ViewSubtotalAdditive | src/services/cart.service.ts:41-51 | an empty cart's subtotal is 0 and subtotals add over line concatenation |
| Carts.SetLineFind | src/services/cart.service.ts:103-112 | updating a line sets that line's quantity and every other key's line is unchanged |
| Carts.SetLineOtherCarts | src/services/cart.service.ts:103-112 | updating a line leaves other carts' lines unchanged |
| Carts.RemoveLineFind | src/services/cart.service.ts:207-214 | deleting a line removes that key and keeps every other key's line |
| Carts.RemoveLineOtherCarts | src/services/cart.service.ts:207-214 | deleting a line leaves other carts' lines unchanged |
| Carts.AppendLineEffect | src/services/cart.service.ts:114-121 | a created line is found for its key; other keys and other carts are unchanged |
| Carts.GetOrCreateKeepsCarts | src/services/cart.service.ts:10-22 | finding or creating a cart keeps one cart per user and distinct cart ids |
| Carts.AddItemKeepsValid | src/services/cart.service.ts:64-131 | `addItem` keeps one cart per user, one line per product, positive quantities and lines in existing carts |
| Carts.UpdateItemQuantityKeepsValid | src/services/cart.service.ts:133-189 | `updateItemQuantity` keeps the same invariant |
| Carts.RemoveItemKeepsValid | src/services/cart.service.ts:191-222 | `removeItem` keeps the same invariant |
| Carts.GetCartKeepsValid | src/services/cart.service.ts:53-62 | `getCart` keeps the same invariant |
| Carts.AddItemFailures | src/services/cart.service.ts:67-82 | a quantity below 1 fails before anything changes; otherwise the cart exists afterwards; an unknown product fails NOT_FOUND, one's own product fails BAD_REQUEST; no failure touches a line |
| Carts.AddToLineOverStock | src/services/cart.service.ts:94-101 | the transaction fails when existing-or-0 plus the request exceeds the stock, naming both numbers |
| Carts.AddItemOverStock | src/services/cart.service.ts:94-101 | `addItem` then fails with 'Requested quantity (n) exceeds available stock (s)' and no line changes |
| Carts.AddItemQuantity | src/services/cart.service.ts:94-122 | on success the line becomes existing-or-0 plus the request, every other line and every other cart is unchanged, and the answer is the cart's new view |
| Carts.UpdateItemQuantityOutcome | src/services/cart.service.ts:140-181 | failures in order: quantity below 1, unknown product, line absent, above stock, each changing no line; on success the line is exactly q and nothing else changes |
| Carts.RemoveItemOutcome | src/services/cart.service.ts:203-214 | fails 'Item not found in cart' iff the line is absent; otherwise only that line is removed |
| Carts.GetCartOutcome | src/services/cart.service.ts:53-62 | always succeeds, changes no line, creates the cart only when missing, and answers for the user's cart |
| Carts.OtherCartSurvives | src/services/cart.service.ts:10-22 | finding or creating one user's cart keeps another user's cart |
| Carts.OtherUsersUnaffected | src/services/cart.service.ts:53-222 | every cart operation by one user leaves another user's cart and its lines exactly as they were |
| Carts.AddItemUntouched | src/services/cart.service.ts:64-131 | `addItem` by one user leaves another user's cart and lines as they were |
| Carts.UpdateItemQuantityUntouched | src/services/cart.service.ts:133-189 | the same for `updateItemQuantity` |
| Carts.RemoveItemUntouched | src/services/cart.service.ts:191-222 | the same for `removeItem` |
| Carts.AddItemPastChecks | src/services/cart.service.ts:84-123 | once the quantity and product checks pass, `addItem`'s answer and new lines are those of the transaction on the user's cart |
| Carts.AddItemQuantityOtherCart | src/services/cart.service.ts:84-123 | `addItem` leaves the lines of every other cart unchanged |
| Carts.CartService.GetOrCreateCart | src/services/cart.service.ts:10-22 | the method performs `GetOrCreateUserCart` on the cart table |
| Carts.CartService.GetCart | src/services/cart.service.ts:53-62 | the method performs the get-cart step |
| Carts.CartService.AddItem | src/services/cart.service.ts:64-131 | the method performs the add-item step |
| Carts.CartService.AddToCart | src/services/cart.service.ts:84-123 | the transaction updates or creates the line, or fails without a change |
| Carts.CartService.UpdateItemQuantity | src/services/cart.service.ts:133-189 | the method performs the update-quantity step |
| Carts.CartService.RemoveItem | src/services/cart.service.ts:191-222 | the method performs the remove-item step |
| Products.ParseNumber | src/services/product.service.ts:19-25 | text that is not a number gives the default; absent or 0 gives the default; any other number is kept unclamped |
| Products.ParseNumberClamps | src/services/product.service.ts:21-22 | parsed text always lands in [min, max] and an in-range value is kept |
| Products.ParseNumberOfDecimal | src/services/product.service.ts:21-22 | the text of an integer parses to that integer, clamped |
| Products.ParseBoolean | src/services/product.service.ts:36-39 | absent stays absent; text is true exactly when it is `true`; a boolean is kept |
| Products.QueryDefaults | src/services/product.service.ts:52-62 | an empty query means page 1, limit 10, sorted by createdAt, descending |
| Products.QueryParamsInRange | src/services/product.service.ts:53-54 | for inputs the listing schema admits, page ≥ 1 and 1 ≤ limit ≤ 100 |
| Products.TotalPages | src/services/product.service.ts:259 | `ceil(total / limit)`: the pages cover all rows and the last page is non-empty |
| Products.TotalPagesExample | tests/units/product.service.test.ts:273-283 | 3 rows at 2 per page make 2 pages; no rows make 0 |
| Products.Page | src/services/product.service.ts:204 | `skip (page-1)·limit, take limit`: a page past the end is empty, a full page has `limit` rows, the last page holds what remains, and position j is row skip+j |
| Products.PageExample | src/services/product.service.ts:204 | three rows at two per page: page 2 is the last row alone and page 3 is empty |
| Products.PageAt | src/services/product.service.ts:204 | position j of a page is row `skip + j` |
| Products.PageOfRowExists | src/services/product.service.ts:259 | every row's page number is within `totalPages` |
| Products.EveryRowOnItsPage | src/services/product.service.ts:204 | row i is at position i mod limit of page ⌊i/limit⌋+1, and that page exists |
| Products.CheckIdempotencyKey | src/services/product.service.ts:80-102 | a product comes back exactly when the key's record belongs to the caller and its product still exists |
| Products.CreateReplaysStoredKey | src/services/product.service.ts:147-152 | such a key answers the stored product and changes nothing |
| Products.CreateFailures | src/services/product.service.ts:154-166 | without a replay, checks run in this order, each changing nothing: same creator, name and price gives CONFLICT; then a missing category gives BAD_REQUEST 'Category not found'; then a bad user id fails SKU generation |
| Products.OtherCreatorNoConflict | src/services/product.service.ts:104-116 | the same name and price by another creator is no conflict |
| Products.CreateSuccess | src/services/product.service.ts:164-198 | success adds exactly one product, owned by the caller, with the request's fields, the kobo price and a SKU for its category; a key is stored as `{key, userId, productId, now + 24 h}` only when given |
| Products.CreateIsIdempotent | src/services/product.service.ts:144-199 | a second creation with the same fresh key by the same user answers the first product and changes nothing |
| Products.CreateWithForeignKey | src/services/product.service.ts:97-101 | a key stored by another user does not replay: the product is created, then storing the key again violates its uniqueness, so the call fails while the product stays |
| Products.CleanupExpired | src/services/product.service.ts:133-142 | exactly the records with `expiresAt < now` are removed; the rest are unchanged |
| Products.StoredKeySurvivesADay | src/services/product.service.ts:118-142 | a stored key survives cleanup for the 24 hours after it was stored |
| Products.UpdateFailures | src/services/product.service.ts:353-373 | failures in order, each changing nothing: missing product 404, non-owner 403, provided unknown category 400 |
| Products.UpdateSuccess | src/services/product.service.ts:375-404 | only that product changes; provided fields take the request's values and the rest keep theirs; the kobo price follows a new price; id and creator stay; the SKU changes only for a different category, and then to a fresh SKU for it |
| Products.DeleteOutcome | src/services/product.service.ts:407-426 | succeeds iff the product exists and the caller created it; failures leave every product; success removes that product only |
| Products.ProductService.CreateProduct | src/services/product.service.ts:144-199 | the method performs the creation step on the product and key tables |
| Products.ProductService.InsertCreated | src/services/product.service.ts:164-198 | inserts the new product and, with a key, stores its record or fails on a taken key; the tables become those of the creation step |
| Products.ProductService.StoreIdempotencyKey | src/services/product.service.ts:118-131 | inserts the record expiring 24 h later, or fails on an existing key without a change |
| Products.ProductService.CleanupExpiredIdempotencyKeys | src/services/product.service.ts:133-142 | the key table becomes `CleanupExpired` of the old one |
| Products.ProductService.UpdateProduct | src/services/product.service.ts:353-405 | the method performs the update step |
| Products.ProductService.DeleteProduct | src/services/product.service.ts:407-426 | the method performs the delete step |
| Auth.SignRefresh | src/services/auth.service.ts:42 | a refresh token names its user and session and expires `days` days after its issue second |
| Auth.SignRefreshSecondsDiffer | src/services/auth.service.ts:130-142 | two tokens for the same claims are equal iff they are signed in the same second |
| Auth.FindUserByEmail | src/services/auth.service.ts:12-16 | a found user has that email; none exactly when no user has it |
| Auth.FindSession | src/services/auth.service.ts:97-110 | a found session matches id, user, exact token, not deleted and (for refresh) not expired; none exactly when no session does |
| Auth.RegisterOutcome | src/services/auth.service.ts:19-57 | fails BAD_REQUEST 'Email already registered' iff the email is taken, changing nothing; otherwise adds one user and one session for it, whose token is the returned one, and returns the user without its password |
| Auth.RegisterKeepsValid | src/services/auth.service.ts:19-57 | with fresh ids, registration keeps unique emails, user ids and session ids, and sessions bound to their users and tokens |
| Auth.LoginFailuresAlike | src/services/auth.service.ts:66-68 | an unknown email fails, and every failure is the same UNAUTHORIZED 'Incorrect email or password' with nothing changed |
| Auth.LoginSucceedsIff | src/services/auth.service.ts:62-68 | with unique emails, login succeeds iff the user with that email has a matching password |
| Auth.LoginAddsOneSession | src/services/auth.service.ts:70-83 | a successful login appends exactly one live session for the user, holding the returned token and expiring `days` days later, and leaves the rest |
| Auth.LoginKeepsValid | src/services/auth.service.ts:59-89 | login keeps the invariant |
| Auth.RefreshOutcome | src/services/auth.service.ts:94-151 | every failure is UNAUTHORIZED 'Invalid refresh token' with nothing changed; success iff the token verifies and a live, unexpired session of an existing user holds it |
| Auth.RefreshRotates | src/services/auth.service.ts:116-133 | success marks the matched session deleted at `now`, keeps every other session, and appends one live session for the same user; in the corrected step that session holds the returned token |
| Auth.RefreshKeepsValid | src/services/auth.service.ts:91-152 | refresh keeps the invariant |
| Auth.MatchUnique | src/services/auth.service.ts:97-106 | under the invariant a token matches at most one session |
| Auth.RefreshReplayFails | src/services/auth.service.ts:121-124 | after a successful refresh the old token fails, whenever replayed |
| Auth.RefreshChains | src/services/auth.service.ts:126-145 | the token a refresh returns refreshes again while it and its session are unexpired (second finding, corrected) |
| Auth.RefreshAsWrittenStrandsToken | src/services/auth.service.ts:126-142 | as written, when the two signings fall in different seconds the returned token neither refreshes nor logs out, at any later time (second finding) |
| Auth.RefreshAsWrittenAgrees | src/services/auth.service.ts:91-152 | the code as written and the corrected step leave the same tables, succeed together and fail alike; the answers differ only in the refresh token, which is the stored one iff both signings fall in the same second |
| Auth.RefreshAsWrittenRotates | src/services/auth.service.ts:116-142 | as written, success marks the matched session deleted and appends one live session holding the token signed first; the answer carries that token iff both signings fall in the same second |
| Auth.RefreshAsWrittenKeepsValid | src/services/auth.service.ts:91-152 | refresh as written keeps the invariant |
| Auth.RefreshAsWrittenReplayFails | src/services/auth.service.ts:121-124 | as written too, the old token fails after a successful refresh, whenever replayed |
| Auth.RefreshAsWrittenExample | src/services/auth.service.ts:130-142 | tokens signed at 999 ms and 1000 ms differ |
| Auth.LogoutOutcome | src/services/auth.service.ts:154-183 | failures are UNAUTHORIZED 'Invalid refresh token' with nothing changed; success iff the token verifies and a live session holds it, which is then marked deleted |
| Auth.LogoutIgnoresSessionExpiry | src/services/auth.service.ts:160-167 | an expired session's valid token still logs out, though it no longer refreshes |
| Auth.LogoutTwiceFails | src/services/auth.service.ts:165-176 | a second logout with the same token fails |
| Auth.LogoutKeepsValid | src/services/auth.service.ts:154-183 | logout keeps the invariant |
| Auth.AuthService.IsEmailTakenQuery | src/services/auth.service.ts:12-17 | true iff some user has that email |
| Auth.AuthService.Register | src/services/auth.service.ts:19-57 | the method performs the register step |
| Auth.AuthService.Login | src/services/auth.service.ts:59-89 | the method performs the login step |
| Auth.AuthService.RefreshToken | src/services/auth.service.ts:91-152 | the method performs the corrected refresh step |
| Auth.AuthService.Logout | src/services/auth.service.ts:154-183 | the method performs the logout step |

## Left out

- **Money.** The naira amount `price` is a Dafny `real`. The kobo conversion
  (`nairaToKobo`, floating-point `Math.round`) is a function parameter `toKobo`. The
  naira display fields of the cart view and the currency field are not modelled.
- **Number width.** Kobo totals are unbounded integers. JavaScript number precision
  above 2^53 is not modelled.
- **String length and positions.** A Dafny `string` is a sequence of Unicode scalar
  values. JavaScript's `.length`, `substring`, `slice`, `charAt` and `split` count
  UTF-16 code units. The two agree unless the text holds a character outside the Basic
  Multilingual Plane (an emoji, say), which is two code units in the source and one
  character here. The members below count characters, not UTF-16 units:
  - `CustomValidation.Password`: the length rule. `"Aa1!😀😀"` is 8 units, which the
    source accepts, but 6 characters, which the model rejects.
  - `UlidHelper.Parse`, and through it `UlidHelper.ValidatePrefix`,
    `UlidHelper.IsValid`, `UlidHelper.ExtractUlid`, `UlidHelper.ExtractPrefix` and
    `CustomValidation.IsValidId`: the 26-character length of the ULID part. `usr_` followed by 25 `A`s and an emoji parses
    here, but the source sees 27 units and returns null.
  - `Idempotency.KeySchema`: the 255-character limit. A key of 200 emoji is 400 units,
    so the source gives the length message where the model gives the pattern message.
  - `JsString.TakeFirst`, `JsString.TakeLast` and `Sku.Initials`: they take characters
    where the source takes code units, so an astral character is never split in half.
- **Case mapping** (`toUpperCase`/`toLowerCase`) is ASCII-only. Non-ASCII letters are
  left unchanged.
- **Category-code table lookup.** The table is a map. A category named after an
  `Object.prototype` property (such as `constructor`) would hit that property in the
  source's plain-object lookup; the model does not capture this.
- **Date arithmetic.**
  - `setHours(+24)` and `setDate(+n)` are `now + 86 400 000 ms` and
    `now + n · 86 400 000 ms`. Local-time daylight-saving shifts are ignored.
  - A refresh or logout uses one clock reading both for token verification and for the
    session lookup.
- **Listing queries.** The ORM filtering and ordering in `getProducts` and
  `getUserProducts` are not modelled: category, substring search, price range, stock
  filter and `orderBy`.
  - `Products.Page` takes the already filtered and ordered rows.
  - `parseFloat` for the price bounds is not modelled.
  - `getProductById` is not modelled.
  - `transformProduct` is not modelled: the methods answer the stored product row
    rather than its display reshaping.
- **Concurrency.** Each service call is one atomic step, so interleavings of
  concurrent requests are not modelled. The one ordering effect of `Promise.all` is
  kept: the SKU helper's user-id error takes precedence.
- **External libraries and random draws.**
  - `ulid()`, `decodeTime`, bcrypt hashing and comparison, and JWT signing and
    verification are parameters or the `RefreshJwt` datatype.
  - Freshly drawn ids are assumed unused. Lemmas that need this state it as a
    precondition.
  - The access token carries only its user and issue second. Its lifetime is not
    modelled.
- **Entity prefixes.**
  - `UlidHelper.EntityPrefix` holds the five kinds of the express-prisma helper.
  - The `src` helper's two further kinds are `CustomValidation.ExtraTags`. Their texts
    are parameters, assumed non-empty, free of underscores and distinct from the
    other tags.
  - The services treat session and idempotency-record ids as opaque strings.
    `UlidHelper.GenerateWithTagParses` covers their shape.
- **Unique-key failure.** A second idempotency record with the same key is reported as
  an INTERNAL_SERVER_ERROR `ApiError` with a fixed message. The source raises an ORM
  exception whose HTTP mapping lies outside this model.
- **Database schema.** Product and cart rows are the schema's fields as the services
  use them. A unique constraint on SKUs, and referential actions on deletion, are not
  part of this model. The cart view joins lines to existing products and skips lines
  whose product is gone.
- **Validation layer.** The request schemas are modelled only as preconditions.
  - `Products.UpdateSuccess` requires a provided `categoryId` to be non-empty, since
    the schema's string rule rejects empty strings.
  - `Products.QueryParamsInRange` assumes numbers within the listing schema's bounds.
- **Unmodelled source functions.** `noSqlInjection` needs a regex engine. The
  non-string branch of `sanitizeString` cannot arise over strings.
- `UlidHelper.GetTimestampValue`: its value is stated for ULID parts that start with
  neither white space nor a sign. For such a part, `parseInt` first skips the white
  space or reads the sign. `JsString.ParseInt` models that, but no lemma states the
  resulting timestamp. Valid identifiers never start this way; they are covered by
  `UlidHelper.GetTimestampOfValid`.
- `Carts.FindLine`: its own contract says only that a found line has the requested
  key. `Carts.FindLineNone` and `Carts.LineIndex` carry the rest.
- `Auth.AuthService.RefreshToken`: returns the token the new session stores, which is
  the corrected behaviour from the second finding. The code as written is
  `Auth.RefreshAsWritten`.

## Findings

| source | as written | input that shows it | evidently intended | confidence | as-written member | corrected member |
|---|---|---|---|---|---|---|
| express-prisma/src/utils/ulid.helper.ts:77 | `getTimestamp` reads the ULID time part with `parseInt(…, 32)`, whose digits are 0-9 then A-V, not the Crockford alphabet used by ULIDs (which skips I, L, O, U and uses W-Z); it stops at the first W, X, Y or Z and misvalues every letter after H | `usr_00000000JZ0000000000000000` gives 19; its encoded time is 18·32 + 31 = 607 | decode the ten time characters in Crockford base 32, so that an id generated at time t gives t | high (not executed) | UlidHelper.GetTimestampMisreadsCrockford | UlidHelper.DecodeTimestampOfGenerate |
| src/services/auth.service.ts:126-142 | `refreshToken` stores a token signed while creating the new session, then signs a second token for the answer; signing records the issue second, so when the two calls straddle a second boundary the answer is not the stored token | a refresh whose first signing falls at 999 ms and whose second falls at 1000 ms: the returned token then fails every later refresh and logout | return the very token stored with the new session, so the answer always refreshes again | medium (not executed; depends on timing) | Auth.RefreshAsWrittenStrandsToken | Auth.RefreshChains |
