/**
 * The custom validators plugged into the request schemas: password strength,
 * prefixed-identifier checks, string sanitising and e-mail normalisation. Each
 * returns the (possibly transformed) value or the message the schema reports.
 */
module CustomValidation {
  import opened Wrappers
  import opened JsString
  import opened UlidHelper

  // --------------------------------------------------------------- password

  const PasswordMessage := "Password must be at least 8 characters long and contain uppercase, lowercase, number, and special character"

  /** The character classes a password must each hit at least once. */
  datatype CharClass = Upper | Lower | Digit | Special

  /** `[!@#$%^&*()_+\-=[\]{};':"\\|,.<>/?]` */
  predicate IsSpecialChar(c: char) {
    c == '!' || c == '@' || c == '#' || c == '$' || c == '%' || c == '^' || c == '&' || c == '*'
    || c == '(' || c == ')' || c == '_' || c == '+' || c == '-' || c == '=' || c == '[' || c == ']'
    || c == '{' || c == '}' || c == ';' || c == '\'' || c == ':' || c == '"' || c == '\\' || c == '|'
    || c == ',' || c == '.' || c == '<' || c == '>' || c == '/' || c == '?'
  }

  predicate InClass(c: char, k: CharClass) {
    match k
    case Upper => 'A' <= c <= 'Z'
    case Lower => 'a' <= c <= 'z'
    case Digit => '0' <= c <= '9'
    case Special => IsSpecialChar(c)
  }

  /** `v` holds at least one character of class `k`. */
  ghost predicate HasClass(v: string, k: CharClass) {
    exists i :: 0 <= i < |v| && InClass(v[i], k)
  }

  /** `/[class]/.test(v)`: a left-to-right search for a character of class `k`. */
  function Contains(v: string, k: CharClass): (b: bool)
    ensures b <==> HasClass(v, k)
  {
    if v == [] then false
    else if InClass(v[0], k) then true
    else
      assert forall i :: 1 <= i < |v| ==> v[i] == v[1..][i - 1];
      Contains(v[1..], k)
  }

  /** `password`: at least 8 characters with an upper-case letter, a lower-case letter, a digit and a special character. */
  function Password(value: string): (r: Result<string, string>)
    ensures r.Ok? <==> |value| >= 8 && HasClass(value, Upper) && HasClass(value, Lower)
                       && HasClass(value, Digit) && HasClass(value, Special)
    ensures r.Ok? ==> r.value == value
    ensures r.Err? ==> r.error == PasswordMessage
  {
    var hasMinLength := |value| >= 8;
    var hasUppercase := Contains(value, Upper);
    var hasLowercase := Contains(value, Lower);
    var hasNumber := Contains(value, Digit);
    var hasSpecialChar := Contains(value, Special);
    if !hasMinLength || !hasUppercase || !hasLowercase || !hasNumber || !hasSpecialChar then
      Err(PasswordMessage)
    else
      Ok(value)
  }

  /** The password the test suites register with is accepted; one without a digit is not. */
  lemma {:induction false} PasswordExamples()
    ensures Password("P@ssw0rd123") == Ok("P@ssw0rd123")
    ensures Password("Password!").Err?
  {
    var good := "P@ssw0rd123";
    assert InClass(good[0], Upper) && InClass(good[2], Lower) && InClass(good[5], Digit) && InClass(good[1], Special);
    var bad := "Password!";
    assert forall i :: 0 <= i < |bad| ==> !InClass(bad[i], Digit);
  }

  // ------------------------------------------------------------ identifiers

  const UlidMessage := "Invalid ULID format"

  /**
   * The tags of the two kinds the helper imported here adds to the five of
   * `UlidHelper.EntityPrefix`: user sessions and idempotency records. Their texts
   * are not part of this model, so they are a parameter.
   */
  datatype ExtraTags = ExtraTags(session: string, idempotencyKey: string)

  /** Both extra tags are non-empty, free of underscores, and distinct from each other and from the five. */
  predicate ExtraTagsOk(x: ExtraTags) {
    && x.session != "" && '_' !in x.session
    && x.idempotencyKey != "" && '_' !in x.idempotencyKey
    && x.session != x.idempotencyKey
    && PrefixOf(x.session).None? && PrefixOf(x.idempotencyKey).None?
  }

  /** The seven entity kinds: the five of `UlidHelper.EntityPrefix` and the two extra ones. */
  datatype IdKind = Entity(p: EntityPrefix) | UserSession | IdempotencyKey

  function KindTag(x: ExtraTags, k: IdKind): string {
    match k
    case Entity(p) => Tag(p)
    case UserSession => x.session
    case IdempotencyKey => x.idempotencyKey
  }

  /** Distinct kinds have distinct tags, none containing an underscore. */
  lemma {:induction false} KindTagInjective(x: ExtraTags, k: IdKind, k2: IdKind)
    requires ExtraTagsOk(x)
    ensures KindTag(x, k) != "" && '_' !in KindTag(x, k)
    ensures KindTag(x, k) == KindTag(x, k2) <==> k == k2
  {
    if k.Entity? { PrefixOfTag(k.p); }
    if k2.Entity? { PrefixOfTag(k2.p); }
  }

  /** `Object.values(EntityPrefix).includes(s)` over the seven kinds. */
  predicate IsKnownTag(x: ExtraTags, s: string) {
    PrefixOf(s).Some? || s == x.session || s == x.idempotencyKey
  }

  /** `UlidHelper.isValid` over the seven kinds: as `UlidHelper.IsValid`, with the two extra tags admitted too. */
  function IsValidId(x: ExtraTags, id: string): (b: bool)
    ensures b <==> Parse(id).Some? && IsKnownTag(x, Parse(id).value.prefix) && IsUlidString(Parse(id).value.ulid)
    ensures IsValid(id) ==> b
  {
    match Parse(id)
    case None => false
    case Some(c) => IsKnownTag(x, c.prefix) && forall i :: 0 <= i < |c.ulid| ==> IsCrockfordChar(c.ulid[i])
  }

  /**
   * The seven-kind check and the five-kind one differ exactly on ids with an
   * extra tag; those are valid here and invalid for `UlidHelper.IsValid`.
   */
  lemma {:induction false} IsValidIdOfFive(x: ExtraTags, id: string)
    requires ExtraTagsOk(x)
    ensures Parse(id).Some? && (Parse(id).value.prefix == x.session || Parse(id).value.prefix == x.idempotencyKey)
            ==> !IsValid(id)
    ensures !(Parse(id).Some? && (Parse(id).value.prefix == x.session || Parse(id).value.prefix == x.idempotencyKey))
            ==> (IsValidId(x, id) <==> IsValid(id))
  {
  }

  /** `ulid`: accepts exactly the identifiers the seven-kind `isValid` accepts, unchanged. */
  function Ulid(x: ExtraTags, value: string): (r: Result<string, string>)
    ensures r.Ok? <==> IsValidId(x, value)
    ensures r.Ok? ==> r.value == value
    ensures r.Err? ==> r.error == UlidMessage
  {
    if !IsValidId(x, value) then Err(UlidMessage) else Ok(value)
  }

  /** An identifier generated for a kind, from its tag and a drawn ULID. */
  function GenerateKind(x: ExtraTags, k: IdKind, u: string): string {
    KindTag(x, k) + "_" + u
  }

  /** `ulid` accepts a generated identifier of every kind, the two extra ones included. */
  lemma {:induction false} UlidOfGenerated(x: ExtraTags, k: IdKind, u: string)
    requires ExtraTagsOk(x) && IsUlidString(u)
    ensures Ulid(x, GenerateKind(x, k, u)) == Ok(GenerateKind(x, k, u))
    ensures k.Entity? <==> IsValid(GenerateKind(x, k, u))
  {
    KindTagInjective(x, k, k);
    GenerateWithTagParses(KindTag(x, k), u);
    if k.Entity? { PrefixOfTag(k.p); }
  }

  /** The message `ulidWithPrefix` gives for a valid identifier with another prefix. */
  function PrefixMessage(x: ExtraTags, k: IdKind): string {
    "Invalid ULID format or prefix. Expected prefix: " + KindTag(x, k)
  }

  /**
   * `ulidWithPrefix(k)`: first the seven-kind `isValid`, then `validatePrefix`, which
   * compares the text before the first underscore with the tag of `k`; an accepted
   * value is returned unchanged.
   */
  function UlidWithPrefix(x: ExtraTags, k: IdKind, value: string): (r: Result<string, string>)
    ensures !IsValidId(x, value) ==> r == Err(UlidMessage)
    ensures IsValidId(x, value) && HeadSegment(value) != KindTag(x, k) ==> r == Err(PrefixMessage(x, k))
    ensures r.Ok? <==> IsValidId(x, value) && HeadSegment(value) == KindTag(x, k)
    ensures r.Ok? ==> r.value == value
    ensures k.Entity? ==> (r.Ok? <==> IsValidId(x, value) && ValidatePrefix(value, k.p))
  {
    if !IsValidId(x, value) then Err(UlidMessage)
    else if Parse(value).value.prefix != KindTag(x, k) then Err(PrefixMessage(x, k))
    else Ok(value)
  }

  /** The two failure messages of `ulidWithPrefix` are distinct. */
  lemma {:induction false} UlidWithPrefixMessagesDiffer(x: ExtraTags, k: IdKind)
    ensures UlidMessage != PrefixMessage(x, k)
  {
    assert |UlidMessage| < |PrefixMessage(x, k)|;
  }

  /**
   * `ulidWithPrefix(k)` accepts a generated identifier of kind `k`, and one of any
   * other of the seven kinds fails with the prefix message.
   */
  lemma {:induction false} UlidWithPrefixOfGenerated(x: ExtraTags, k: IdKind, k2: IdKind, u: string)
    requires ExtraTagsOk(x) && IsUlidString(u)
    ensures UlidWithPrefix(x, k, GenerateKind(x, k, u)) == Ok(GenerateKind(x, k, u))
    ensures k2 != k ==> UlidWithPrefix(x, k, GenerateKind(x, k2, u)) == Err(PrefixMessage(x, k))
  {
    UlidOfGenerated(x, k, u);
    UlidOfGenerated(x, k2, u);
    KindTagInjective(x, k, k2);
    GenerateWithTagParses(KindTag(x, k), u);
    GenerateWithTagParses(KindTag(x, k2), u);
  }

  /** Every identifier `ulidWithPrefix(k)` accepts is the tag of `k`, `_`, a Crockford ULID, then nothing or `_...`. */
  lemma {:induction false} UlidWithPrefixAcceptedShape(x: ExtraTags, k: IdKind, value: string)
    requires UlidWithPrefix(x, k, value).Ok?
    ensures var n := |KindTag(x, k)|;
      && |value| >= n + 27 && value[..n + 1] == KindTag(x, k) + "_"
      && IsUlidString(value[n + 1..n + 27])
      && (|value| > n + 27 ==> value[n + 27] == '_')
  {
    ParseLayout(value);
    var c := Parse(value).value;
    var n := |KindTag(x, k)|;
    assert c.prefix == KindTag(x, k);
    assert value[..n + 27] == KindTag(x, k) + "_" + c.ulid;
    assert value[n + 1..n + 27] == value[..n + 27][n + 1..];
    assert value[..n + 1] == value[..n + 27][..n + 1];
  }

  // ------------------------------------------------------------- sanitising

  const SanitizeMessage := "String contains only invalid characters"

  /** The characters of `s` that `keep` admits, in order (`s.replace(/[^...]/g, '')`). */
  function Filter(s: string, keep: char -> bool): (r: string)
    ensures |r| <= |s|
    ensures forall i :: 0 <= i < |r| ==> keep(r[i])
  {
    if s == [] then []
    else
      var rest := Filter(s[1..], keep);
      if keep(s[0]) then [s[0]] + rest else rest
  }

  /** Every kept character comes from the input. */
  lemma {:induction false} FilterFromInput(s: string, keep: char -> bool)
    ensures forall i :: 0 <= i < |Filter(s, keep)| ==> Filter(s, keep)[i] in s
  {
    if s != [] {
      FilterFromInput(s[1..], keep);
    }
  }

  /** A string whose every character is admitted passes the filter unchanged. */
  lemma {:induction false} FilterKeepsAll(s: string, keep: char -> bool)
    requires forall i :: 0 <= i < |s| ==> keep(s[i])
    ensures Filter(s, keep) == s
  {
    if s != [] {
      FilterKeepsAll(s[1..], keep);
    }
  }

  /** One character is kept exactly when the predicate admits it. */
  lemma {:induction false} FilterSingleton(c: char, keep: char -> bool)
    ensures Filter([c], keep) == if keep(c) then [c] else []
  {
    assert [c][1..] == [];
  }

  /** Filtering works piecewise: the filter of a concatenation is the concatenation of the filters. */
  lemma {:induction false} FilterConcat(a: string, b: string, keep: char -> bool)
    ensures Filter(a + b, keep) == Filter(a, keep) + Filter(b, keep)
  {
    if a == [] {
      assert a + b == b;
    } else {
      assert (a + b)[0] == a[0];
      assert (a + b)[1..] == a[1..] + b;
      FilterConcat(a[1..], b, keep);
    }
  }

  /** Two filters in a row keep what both predicates admit. */
  lemma {:induction false} FilterFilter(s: string, p: char -> bool, q: char -> bool, both: char -> bool)
    requires forall c :: both(c) == (p(c) && q(c))
    ensures Filter(Filter(s, p), q) == Filter(s, both)
  {
    if s != [] {
      FilterFilter(s[1..], p, q, both);
      var rest := Filter(s[1..], p);
      if p(s[0]) {
        assert Filter(s, p) == [s[0]] + rest;
        assert ([s[0]] + rest)[0] == s[0];
        assert ([s[0]] + rest)[1..] == rest;
      }
    }
  }

  predicate NotAngle(c: char) { c != '<' && c != '>' }
  predicate NotBrace(c: char) { c != '{' && c != '}' }

  /** Neither an angle bracket nor a brace: what the first two replacements keep. */
  predicate NoMarkup(c: char) { NotAngle(c) && NotBrace(c) }

  /** `[\u0020-\u007E\t\n\r]`: printable ASCII, tab, line feed or carriage return. */
  predicate IsPrintable(c: char) { (' ' <= c <= '~') || c == '\t' || c == '\n' || c == '\r' }

  /** A character that survives all three replacements. */
  predicate IsClean(c: char) { NotAngle(c) && NotBrace(c) && IsPrintable(c) }

  predicate AllClean(s: string) { forall i :: 0 <= i < |s| ==> IsClean(s[i]) }

  /**
   * The three replacements of `sanitizeString` followed by `trim`: the clean
   * characters of the input, in order, with white space stripped from both ends.
   */
  function Sanitized(value: string): (r: string)
    ensures r == Trim(Filter(value, IsClean))
    ensures forall i :: 0 <= i < |r| ==> IsClean(r[i])
    ensures r == [] || (!IsJsSpace(r[0]) && !IsJsSpace(r[|r| - 1]))
  {
    var noAngles := Filter(value, NotAngle);
    var noBraces := Filter(noAngles, NotBrace);
    var printable := Filter(noBraces, IsPrintable);
    FilterFilter(value, NotAngle, NotBrace, NoMarkup);
    FilterFilter(value, NoMarkup, IsPrintable, IsClean);
    Trim(printable)
  }

  /**
   * `sanitizeString`: the sanitised text, or an error when sanitising empties a
   * non-empty input (white space only counts as empty).
   */
  function SanitizeString(value: string): (r: Result<string, string>)
    ensures r.Err? <==> Sanitized(value) == [] && value != []
    ensures r.Err? ==> r.error == SanitizeMessage
    ensures r.Ok? ==> r.value == Sanitized(value)
  {
    var sanitized := Sanitized(value);
    if |sanitized| == 0 && |value| > 0 then Err(SanitizeMessage) else Ok(sanitized)
  }

  /** A clean prefix passes the filter unchanged. */
  lemma {:induction false} FilterCleanPrefix(x: string, y: string)
    requires AllClean(x)
    ensures Filter(x + y, IsClean) == x + Filter(y, IsClean)
  {
    FilterConcat(x, y, IsClean);
    FilterKeepsAll(x, IsClean);
  }

  /** A leading character that is not clean is dropped. */
  lemma {:induction false} FilterDropsFirst(c: char, y: string)
    requires !IsClean(c)
    ensures Filter([c] + y, IsClean) == Filter(y, IsClean)
  {
    FilterConcat([c], y, IsClean);
    FilterSingleton(c, IsClean);
  }

  /** Two bracketed tags between clean texts lose only their angle brackets. */
  lemma {:induction false} FilterDropsTags(a: string, b: string, c: string, d: string, e: string)
    requires AllClean(a)
    requires AllClean(b)
    requires AllClean(c)
    requires AllClean(d)
    requires AllClean(e)
    ensures Filter(a + "<" + b + ">" + c + "<" + d + ">" + e, IsClean) == a + b + c + d + e
  {
    var t7 := ['>'] + e;
    var t6 := d + t7;
    var t5 := ['<'] + t6;
    var t4 := c + t5;
    var t3 := ['>'] + t4;
    var t2 := b + t3;
    var t1 := ['<'] + t2;
    var de := d + e;
    var cde := c + de;
    var bcde := b + cde;
    assert Filter(t7, IsClean) == e by { FilterDropsFirst('>', e); FilterKeepsAll(e, IsClean); }
    assert Filter(t5, IsClean) == de by { FilterDropsFirst('<', t6); FilterCleanPrefix(d, t7); }
    assert Filter(t3, IsClean) == cde by { FilterDropsFirst('>', t4); FilterCleanPrefix(c, t5); }
    assert Filter(t1, IsClean) == bcde by { FilterDropsFirst('<', t2); FilterCleanPrefix(b, t3); }
    assert Filter(a + t1, IsClean) == a + bcde by { FilterCleanPrefix(a, t1); }
    TagsRegroup(a, b, c, d, e);
  }

  /** Regrouping the concatenations `FilterDropsTags` peels from the left. */
  lemma {:induction false} TagsRegroup(a: string, b: string, c: string, d: string, e: string)
    ensures a + "<" + b + ">" + c + "<" + d + ">" + e
         == a + (['<'] + (b + (['>'] + (c + (['<'] + (d + (['>'] + e)))))))
    ensures a + (b + (c + (d + e))) == a + b + c + d + e
  {
  }

  /**
   * The markup in a product name is dropped and the text around it kept, as the
   * product request shows (the string is written out at its angle brackets).
   */
  lemma {:induction false} SanitizeProductNameExample()
    ensures SanitizeString("Gaming " + "<" + "script" + ">" + "alert(\"xss\")" + "<" + "/script" + ">" + " Laptop")
         == Ok("Gaming " + "script" + "alert(\"xss\")" + "/script" + " Laptop")
  {
    SanitizeAroundScript("Gaming ", " Laptop");
  }

  /** The same for the name given at registration. */
  lemma {:induction false} SanitizeUserNameExample()
    ensures SanitizeString("Test " + "<" + "script" + ">" + "alert(\"xss\")" + "<" + "/script" + ">" + " User")
         == Ok("Test " + "script" + "alert(\"xss\")" + "/script" + " User")
  {
    SanitizeAroundScript("Test ", " User");
  }

  /** A script element between two clean texts loses only its angle brackets. */
  lemma {:induction false} SanitizeAroundScript(before: string, after: string)
    requires |before| > 0 && !IsJsSpace(before[0])
    requires |after| > 0 && !IsJsSpace(after[|after| - 1])
    requires AllClean(before) && AllClean(after)
    ensures SanitizeString(before + "<" + "script" + ">" + "alert(\"xss\")" + "<" + "/script" + ">" + after)
         == Ok(before + "script" + "alert(\"xss\")" + "/script" + after)
  {
    FilterDropsTags(before, "script", "alert(\"xss\")", "/script", after);
    var r := before + "script" + "alert(\"xss\")" + "/script" + after;
    assert r[0] == before[0];
    assert r[|r| - 1] == after[|after| - 1];
    TrimNoEndSpaces(r);
  }

  /** A string that is already clean and trimmed comes out of `Sanitized` unchanged. */
  lemma {:induction false} SanitizedFixedPoint(s: string)
    requires forall i :: 0 <= i < |s| ==> IsClean(s[i])
    requires s == [] || (!IsJsSpace(s[0]) && !IsJsSpace(s[|s| - 1]))
    ensures Sanitized(s) == s
  {
    FilterKeepsAll(s, IsClean);
    TrimNoEndSpaces(s);
  }

  /** Sanitising is idempotent: re-sanitising an accepted output returns it unchanged. */
  lemma {:induction false} SanitizeIdempotent(value: string)
    requires SanitizeString(value).Ok?
    ensures SanitizeString(SanitizeString(value).value) == SanitizeString(value)
  {
    var s := Sanitized(value);
    SanitizedFixedPoint(s);
  }

  /** Input made only of white space and stripped characters is rejected. */
  lemma {:induction false} SanitizeRejectsStrippedOnly(value: string)
    requires value != []
    requires forall i :: 0 <= i < |value| ==> !IsClean(value[i]) || IsJsSpace(value[i])
    ensures SanitizeString(value) == Err(SanitizeMessage)
  {
    var clean := Filter(value, IsClean);
    FilterFromInput(value, IsClean);
    forall i | 0 <= i < |clean| ensures IsJsSpace(clean[i]) {
      var j :| 0 <= j < |value| && value[j] == clean[i];
    }
    assert LeadingSpaces(clean) == |clean|;
  }

  // ------------------------------------------------------------------ email

  const EmailFormatMessage := "Invalid email format"
  const EmailLengthMessage := "Email is too long"

  /** `[a-zA-Z0-9._%+-]` */
  predicate IsLocalChar(c: char) {
    ('a' <= c <= 'z') || ('A' <= c <= 'Z') || ('0' <= c <= '9')
    || c == '.' || c == '_' || c == '%' || c == '+' || c == '-'
  }

  /** `[a-zA-Z0-9.-]` */
  predicate IsDomainChar(c: char) {
    ('a' <= c <= 'z') || ('A' <= c <= 'Z') || ('0' <= c <= '9') || c == '.' || c == '-'
  }

  predicate IsLetter(c: char) { ('a' <= c <= 'z') || ('A' <= c <= 'Z') }

  /**
   * `/^[a-zA-Z0-9._%+-]+@[a-zA-Z0-9.-]+\.[a-zA-Z]{2,}$/` read as a pattern: some
   * split of `v` into a local part, `@`, a domain, `.` and a top-level part of at
   * least two letters.
   */
  ghost predicate MatchesEmailPattern(v: string) {
    exists at: nat, dot: nat :: EmailSplitAt(v, at, dot)
  }

  /** `v` is a local part, `@` at `at`, a domain, `.` at `dot` and two or more letters. */
  predicate EmailSplitAt(v: string, at: nat, dot: nat) {
    0 < at && at + 1 < dot && dot + 3 <= |v|
    && (forall k :: 0 <= k < at ==> IsLocalChar(v[k]))
    && v[at] == '@'
    && (forall k :: at < k < dot ==> IsDomainChar(v[k]))
    && v[dot] == '.'
    && (forall k :: dot < k < |v| ==> IsLetter(v[k]))
  }

  /**
   * The same test computed without search: the `@` must be the first one (the
   * local part has none) and the `.` must be the last one (the top-level part has none).
   */
  function EmailMatches(v: string): bool {
    var at := IndexOf(v, '@');
    var dot := LastIndexOf(v, '.');
    && 0 < at < |v|
    && at + 1 < dot && dot + 3 <= |v|
    && (forall k :: 0 <= k < at ==> IsLocalChar(v[k]))
    && (forall k :: at < k < dot ==> IsDomainChar(v[k]))
    && (forall k :: dot < k < |v| ==> IsLetter(v[k]))
  }

  /** The first occurrence of `c` is where `IndexOf` finds it. */
  lemma {:induction false} IndexOfFirst(v: string, c: char, i: nat)
    requires i < |v| && v[i] == c
    requires forall k :: 0 <= k < i ==> v[k] != c
    ensures IndexOf(v, c) == i
  {
    var j := IndexOf(v, c);
    assert j <= i;
    assert j < |v|;
  }

  /** The last occurrence of `c` is where `LastIndexOf` finds it. */
  lemma {:induction false} LastIndexOfLast(v: string, c: char, i: nat)
    requires i < |v| && v[i] == c
    requires forall k :: i < k < |v| ==> v[k] != c
    ensures LastIndexOf(v, c) == i
  {
    var j := LastIndexOf(v, c);
    assert j >= i;
  }

  /** A string the computed test accepts matches the pattern. */
  lemma {:induction false} EmailMatchesToPattern(v: string)
    requires EmailMatches(v)
    ensures MatchesEmailPattern(v)
  {
    var at := IndexOf(v, '@');
    var dot := LastIndexOf(v, '.');
    var atn: nat, dotn: nat := at, dot;
    assert EmailSplitAt(v, atn, dotn);
  }

  /** A string that matches the pattern passes the computed test. */
  lemma {:induction false} PatternToEmailMatches(v: string)
    requires MatchesEmailPattern(v)
    ensures EmailMatches(v)
  {
    var at: nat, dot: nat :| EmailSplitAt(v, at, dot);
    forall k | 0 <= k < at ensures v[k] != '@' {
      assert IsLocalChar(v[k]);
    }
    forall k | dot < k < |v| ensures v[k] != '.' {
      assert IsLetter(v[k]);
    }
    IndexOfFirst(v, '@', at);
    LastIndexOfLast(v, '.', dot);
  }

  /** The computed test and the pattern agree on every string, in both directions. */
  lemma {:induction false} EmailMatchesIff(v: string)
    ensures EmailMatches(v) <==> MatchesEmailPattern(v)
  {
    if EmailMatches(v) {
      EmailMatchesToPattern(v);
    }
    if MatchesEmailPattern(v) {
      PatternToEmailMatches(v);
    }
  }

  /** A character the e-mail pattern admits anywhere. */
  predicate IsEmailChar(c: char) {
    IsLocalChar(c) || c == '@'
  }

  /** Every character of a matching address is one the pattern admits. */
  lemma {:induction false} EmailMatchesChars(v: string)
    requires EmailMatches(v)
    ensures forall i :: 0 <= i < |v| ==> IsEmailChar(v[i])
  {
    var at := IndexOf(v, '@');
    var dot := LastIndexOf(v, '.');
    forall i | 0 <= i < |v| ensures IsEmailChar(v[i]) {
      if i < at {
        assert IsLocalChar(v[i]);
      } else if i == at {
        assert v[i] == '@';
      } else if i < dot {
        assert IsDomainChar(v[i]);
      } else if i == dot {
        assert v[i] == '.';
      } else {
        assert IsLetter(v[i]);
      }
    }
  }

  /** A lower-cased matching address has no white space for `trim` to remove. */
  lemma {:induction false} EmailTrimIsNoop(v: string)
    requires EmailMatches(v)
    ensures Trim(AsciiLower(v)) == AsciiLower(v)
  {
    EmailMatchesChars(v);
    var e := AsciiLower(v);
    forall i | 0 <= i < |e| ensures !IsJsSpace(e[i]) {
      assert IsEmailChar(v[i]);
      assert e[i] == LowerChar(v[i]);
    }
  }

  /** Lower-casing keeps a matching address matching. */
  lemma {:induction false} EmailMatchesLower(v: string)
    requires EmailMatches(v)
    ensures EmailMatches(AsciiLower(v))
  {
    var e := AsciiLower(v);
    var at := IndexOf(v, '@');
    var dot := LastIndexOf(v, '.');
    forall k | 0 <= k < |v|
      ensures (e[k] == '@' <==> v[k] == '@') && (e[k] == '.' <==> v[k] == '.')
      ensures IsLocalChar(v[k]) ==> IsLocalChar(e[k])
      ensures IsDomainChar(v[k]) ==> IsDomainChar(e[k])
      ensures IsLetter(v[k]) ==> IsLetter(e[k])
    {
      assert e[k] == LowerChar(v[k]);
    }
    IndexOfFirst(e, '@', at);
    LastIndexOfLast(e, '.', dot);
  }

  /** `email`: the pattern first, then the 254-character limit; an accepted value is lower-cased and trimmed. */
  function Email(value: string): (r: Result<string, string>)
    ensures !MatchesEmailPattern(value) ==> r == Err(EmailFormatMessage)
    ensures MatchesEmailPattern(value) && |value| > 254 ==> r == Err(EmailLengthMessage)
    ensures r.Ok? <==> MatchesEmailPattern(value) && |value| <= 254
    ensures r.Ok? ==> r.value == AsciiLower(value)
  {
    EmailMatchesIff(value);
    if !EmailMatches(value) then Err(EmailFormatMessage)
    else if |value| > 254 then Err(EmailLengthMessage)
    else
      EmailTrimIsNoop(value);
      Ok(Trim(AsciiLower(value)))
  }

  /** Lower-casing twice changes nothing more, and leaves no upper-case letter. */
  lemma {:induction false} AsciiLowerIdempotent(v: string)
    ensures AsciiLower(AsciiLower(v)) == AsciiLower(v)
    ensures forall i :: 0 <= i < |v| ==> !('A' <= AsciiLower(v)[i] <= 'Z')
  {
    var e := AsciiLower(v);
    forall i | 0 <= i < |e| ensures LowerChar(e[i]) == e[i] && !('A' <= e[i] <= 'Z') {
      assert e[i] == LowerChar(v[i]);
    }
  }

  /** A lower-case address that passes the computed test is accepted unchanged. */
  lemma {:induction false} EmailAcceptsNormalised(e: string)
    requires EmailMatches(e) && |e| <= 254 && AsciiLower(e) == e
    ensures Email(e) == Ok(e)
  {
    EmailTrimIsNoop(e);
  }

  /** An accepted address has no upper-case letter. */
  lemma {:induction false} EmailNormalisedLowerCase(value: string)
    requires Email(value).Ok?
    ensures forall i :: 0 <= i < |Email(value).value| ==> !('A' <= Email(value).value[i] <= 'Z')
  {
    AsciiLowerIdempotent(value);
  }

  /** Validating an accepted address again accepts it unchanged. */
  lemma {:induction false} EmailIdempotent(value: string)
    requires Email(value).Ok?
    ensures Email(Email(value).value) == Email(value)
  {
    var e := AsciiLower(value);
    EmailMatchesIff(value);
    EmailMatchesLower(value);
    AsciiLowerIdempotent(value);
    EmailAcceptsNormalised(e);
  }
}
