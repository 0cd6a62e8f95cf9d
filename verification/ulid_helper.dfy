/**
 * Prefixed identifiers `{prefix}_{ulid}`: generation from a ULID, parsing on the
 * first underscore, validation against the known prefixes and the Crockford
 * base-32 alphabet, and the timestamp read back from the first ten ULID characters.
 */
module UlidHelper {
  import opened Wrappers
  import opened JsString

  /** The entity kinds a generated identifier names. */
  datatype EntityPrefix = User | Product | Category | Cart | CartItem

  /** The text each entity kind puts before the underscore. */
  function Tag(p: EntityPrefix): (s: string)
    ensures |s| == 3 && '_' !in s
  {
    match p
    case User => "usr"
    case Product => "prd"
    case Category => "cat"
    case Cart => "crt"
    case CartItem => "cit"
  }

  /** The entity kind whose tag is `s`, if any (`Object.values(EntityPrefix).includes(s)`). */
  function PrefixOf(s: string): (r: Option<EntityPrefix>)
    ensures r.Some? ==> Tag(r.value) == s
  {
    if s == "usr" then Some(User)
    else if s == "prd" then Some(Product)
    else if s == "cat" then Some(Category)
    else if s == "crt" then Some(Cart)
    else if s == "cit" then Some(CartItem)
    else None
  }

  /** Every tag is recognised as its own entity kind, so tags are pairwise distinct. */
  lemma {:induction false} PrefixOfTag(p: EntityPrefix)
    ensures PrefixOf(Tag(p)) == Some(p)
  {
    match p
    case User =>
    case Product => assert Tag(p) != "usr";
    case Category => assert Tag(p) != "usr" && Tag(p) != "prd";
    case Cart => assert Tag(p) != "usr" && Tag(p) != "prd" && Tag(p) != "cat";
    case CartItem => assert Tag(p) != "usr" && Tag(p) != "prd" && Tag(p) != "cat" && Tag(p) != "crt";
  }

  /** A character of the class `[0123456789ABCDEFGHJKMNPQRSTVWXYZ]` (no I, L, O, U). */
  predicate IsCrockfordChar(c: char) {
    ('0' <= c <= '9') || ('A' <= c <= 'Z' && c != 'I' && c != 'L' && c != 'O' && c != 'U')
  }

  /** `/^[0123456789ABCDEFGHJKMNPQRSTVWXYZ]{26}$/`: what `ulid()` produces. */
  predicate IsUlidString(u: string) {
    |u| == 26 && forall i :: 0 <= i < |u| ==> IsCrockfordChar(u[i])
  }

  datatype UlidComponents = UlidComponents(prefix: string, ulid: string, fullId: string)

  /** The text before the first underscore. */
  function HeadSegment(id: string): string {
    id[..IndexOf(id, '_')]
  }

  /** The text after the first underscore, up to the next underscore or the end. */
  function SecondSegment(id: string): string
    requires '_' in id
  {
    var rest := id[IndexOf(id, '_') + 1..];
    rest[..IndexOf(rest, '_')]
  }

  /**
   * `UlidHelper.parse`: the two first pieces of `id.split('_', 2)`, accepted when the
   * first is non-empty and the second has exactly 26 characters. Anything after a
   * second underscore is dropped from the ULID part but kept in `fullId`.
   */
  function Parse(id: string): (r: Option<UlidComponents>)
    ensures '_' !in id ==> r.None?
    ensures r.Some? <==> '_' in id && HeadSegment(id) != "" && |SecondSegment(id)| == 26
    ensures r.Some? ==> r.value == UlidComponents(HeadSegment(id), SecondSegment(id), id)
  {
    if id == "" || '_' !in id then None
    else
      var parts := Split(id, '_');
      var prefix := parts[0];
      var ulidPart := parts[1];
      if prefix == "" || ulidPart == "" || |ulidPart| != 26 then None
      else Some(UlidComponents(prefix, ulidPart, id))
  }

  /** The pieces of a parsed identifier sit where `Parse` says: `id` starts with `prefix_ulid`. */
  lemma {:induction false} ParseLayout(id: string)
    requires Parse(id).Some?
    ensures var c := Parse(id).value;
      && c.prefix != "" && '_' !in c.prefix && |c.ulid| == 26 && '_' !in c.ulid
      && |id| >= |c.prefix| + 27
      && id[..|c.prefix| + 27] == c.prefix + "_" + c.ulid
      && (|id| > |c.prefix| + 27 ==> id[|c.prefix| + 27] == '_')
  {
    var c := Parse(id).value;
    var i := IndexOf(id, '_');
    var rest := id[i + 1..];
    var j := IndexOf(rest, '_');
    assert c.prefix == id[..i] && c.ulid == rest[..j];
    assert id[..i + 1 + j] == id[..i] + "_" + rest[..j];
  }

  /** `prefix_ulid` followed by nothing or by `_...` parses back into exactly its pieces. */
  lemma {:induction false} ParseComposed(prefix: string, u: string, t: string)
    requires prefix != "" && '_' !in prefix
    requires |u| == 26 && '_' !in u
    requires t == "" || t[0] == '_'
    ensures Parse(prefix + "_" + u + t) == Some(UlidComponents(prefix, u, prefix + "_" + u + t))
  {
    var id := prefix + "_" + u + t;
    assert id[|prefix|] == '_';
    assert IndexOf(id, '_') == |prefix| by {
      forall k | 0 <= k < |prefix| ensures id[k] != '_' { assert id[k] == prefix[k]; }
    }
    assert HeadSegment(id) == prefix;
    var rest := id[|prefix| + 1..];
    assert rest == u + t;
    assert IndexOf(rest, '_') == 26 by {
      forall k | 0 <= k < 26 ensures rest[k] != '_' { assert rest[k] == u[k]; }
      if t != "" { assert rest[26] == t[0]; }
    }
    assert SecondSegment(id) == u;
  }

  /** `UlidHelper.isValid`: parses, has a known prefix and a ULID part in the Crockford alphabet. */
  function IsValid(id: string): (b: bool)
    ensures b <==> Parse(id).Some? && PrefixOf(Parse(id).value.prefix).Some?
                   && IsUlidString(Parse(id).value.ulid)
  {
    match Parse(id)
    case None => false
    case Some(c) => PrefixOf(c.prefix).Some? && forall i :: 0 <= i < |c.ulid| ==> IsCrockfordChar(c.ulid[i])
  }

  /** `UlidHelper.validatePrefix`: parses and the prefix is that of `p`; the alphabet is not checked. */
  function ValidatePrefix(id: string, p: EntityPrefix): (b: bool)
    ensures b <==> Parse(id).Some? && HeadSegment(id) == Tag(p)
  {
    Parse(id).Some? && Parse(id).value.prefix == Tag(p)
  }

  /** `UlidHelper.extractUlid`. */
  function ExtractUlid(id: string): (r: Option<string>)
    ensures r.None? <==> Parse(id).None?
    ensures r.Some? ==> r.value == SecondSegment(id) && |r.value| == 26
  {
    match Parse(id)
    case None => None
    case Some(c) => if c.ulid == "" then None else Some(c.ulid)
  }

  /** `UlidHelper.extractPrefix`. */
  function ExtractPrefix(id: string): (r: Option<string>)
    ensures r.None? <==> Parse(id).None?
    ensures r.Some? ==> r.value == HeadSegment(id) && r.value != ""
  {
    match Parse(id)
    case None => None
    case Some(c) => if c.prefix == "" then None else Some(c.prefix)
  }

  /** `UlidHelper.generate`: the prefix tag, an underscore and the ULID `u` drawn from `ulid()`. */
  function Generate(p: EntityPrefix, u: string): string {
    Tag(p) + "_" + u
  }

  /** Any tag without an underscore, followed by a ULID, parses back into its two parts. */
  lemma {:induction false} GenerateWithTagParses(tag: string, u: string)
    requires tag != "" && '_' !in tag
    requires IsUlidString(u)
    ensures Parse(tag + "_" + u) == Some(UlidComponents(tag, u, tag + "_" + u))
  {
    assert forall i :: 0 <= i < |u| ==> u[i] != '_';
    ParseComposed(tag, u, "");
    assert tag + "_" + u + "" == tag + "_" + u;
  }

  /** A generated identifier is valid, carries its prefix, and its pieces extract back out. */
  lemma {:induction false} GenerateRoundTrip(p: EntityPrefix, u: string)
    requires IsUlidString(u)
    ensures Parse(Generate(p, u)) == Some(UlidComponents(Tag(p), u, Generate(p, u)))
    ensures IsValid(Generate(p, u))
    ensures ValidatePrefix(Generate(p, u), p)
    ensures ExtractPrefix(Generate(p, u)) == Some(Tag(p))
    ensures ExtractUlid(Generate(p, u)) == Some(u)
  {
    GenerateWithTagParses(Tag(p), u);
    PrefixOfTag(p);
  }

  /** `UlidHelper.generateMultiple`: one identifier per ULID drawn, in order. */
  function GenerateMultiple(p: EntityPrefix, us: seq<string>): (ids: seq<string>)
    ensures |ids| == |us|
    ensures forall k :: 0 <= k < |ids| ==> ids[k] == Generate(p, us[k])
  {
    seq(|us|, k requires 0 <= k < |us| => Generate(p, us[k]))
  }

  /** Every id of a batch is valid and carries its own ULID. */
  lemma {:induction false} GenerateMultipleValid(p: EntityPrefix, us: seq<string>)
    requires forall k :: 0 <= k < |us| ==> IsUlidString(us[k])
    ensures var ids := GenerateMultiple(p, us);
      forall k :: 0 <= k < |ids| ==> IsValid(ids[k]) && ExtractUlid(ids[k]) == Some(us[k])
  {
    forall k | 0 <= k < |us| ensures IsValid(Generate(p, us[k])) && ExtractUlid(Generate(p, us[k])) == Some(us[k]) {
      GenerateRoundTrip(p, us[k]);
    }
  }

  lemma {:induction false} GenerateMultipleDistinct(p: EntityPrefix, us: seq<string>)
    requires forall k :: 0 <= k < |us| ==> IsUlidString(us[k])
    requires forall i, j :: 0 <= i < j < |us| ==> us[i] != us[j]
    ensures var ids := GenerateMultiple(p, us);
      forall i, j :: 0 <= i < j < |ids| ==> ids[i] != ids[j]
  {
    var ids := GenerateMultiple(p, us);
    GenerateMultipleValid(p, us);
    forall i, j | 0 <= i < j < |ids| ensures ids[i] != ids[j] {
      assert ExtractUlid(ids[i]) == Some(us[i]);
      assert ExtractUlid(ids[j]) == Some(us[j]);
    }
  }

  // ------------------------------------------------------------- timestamps

  /**
   * `UlidHelper.getTimestamp` as written: `parseInt` of the first ten ULID characters
   * in radix 32, whose digits are `0-9` then `A-V` (either case). This is not the
   * Crockford alphabet; see `DecodeTimestamp`.
   */
  function GetTimestamp(id: string): (r: Option<ParsedInt>)
    ensures r.None? <==> Parse(id).None?
  {
    match Parse(id)
    case None => None
    case Some(c) => Some(ParseInt(c.ulid[..10], 32))
  }

  /** When the first ten ULID characters are all radix-32 digits, `GetTimestamp` is their value. */
  lemma {:induction false} GetTimestampOfDigits(id: string)
    requires Parse(id).Some?
    requires forall i :: 0 <= i < 10 ==> DigitValue(Parse(id).value.ulid[i]) < 32
    ensures GetTimestamp(id) == Some(Int(DigitsValue(Parse(id).value.ulid[..10], 32)))
  {
    var t := Parse(id).value.ulid[..10];
    ParseIntOfDigits(t, 32, 10);
    assert t[..10] == t;
  }

  /**
   * For a ULID part that starts with neither white space nor a sign, `GetTimestamp`
   * is the radix-32 value of the longest leading run of radix-32 digits among the
   * first ten characters, or NaN when the first of them is no such digit.
   */
  lemma {:induction false} GetTimestampValue(id: string)
    requires Parse(id).Some?
    requires var u := Parse(id).value.ulid; !IsJsSpace(u[0]) && u[0] != '-' && u[0] != '+'
    ensures var t := Parse(id).value.ulid[..10]; var k := LeadingDigits(t, 32);
      GetTimestamp(id) == Some(if k == 0 then NaN else Int(DigitsValue(t[..k], 32)))
  {
    var t := Parse(id).value.ulid[..10];
    assert t[0] == Parse(id).value.ulid[0];
    ParseIntUnsigned(t, 32);
  }

  /**
   * For a valid identifier the run `GetTimestamp` reads ends at the first `W`, `X`,
   * `Y` or `Z` among the first ten ULID characters: the digits before it are
   * valued, and a leading one of those letters gives NaN.
   */
  lemma {:induction false} GetTimestampOfValid(id: string)
    requires IsValid(id)
    ensures var t := Parse(id).value.ulid[..10]; var k := LeadingDigits(t, 32);
      (forall i :: 0 <= i < k ==> !('W' <= t[i] <= 'Z'))
      && (k < 10 ==> 'W' <= t[k] <= 'Z')
      && GetTimestamp(id) == Some(if k == 0 then NaN else Int(DigitsValue(t[..k], 32)))
  {
    var u := Parse(id).value.ulid;
    var t := u[..10];
    assert forall i :: 0 <= i < |t| ==> IsCrockfordChar(t[i]);
    CrockfordRadixRun(t);
    GetTimestampValue(id);
  }

  /** Among Crockford characters, the radix-32 digits are exactly those other than `W`-`Z`. */
  lemma {:induction false} CrockfordRadixRun(t: string)
    requires forall i :: 0 <= i < |t| ==> IsCrockfordChar(t[i])
    ensures var k := LeadingDigits(t, 32);
      (forall i :: 0 <= i < k ==> !('W' <= t[i] <= 'Z'))
      && (k < |t| ==> 'W' <= t[k] <= 'Z')
      && (|t| > 0 ==> !IsJsSpace(t[0]) && t[0] != '-' && t[0] != '+')
  {
  }

  /** Position of a character in the Crockford alphabet. */
  function CrockfordIndex(c: char): (d: nat)
    requires IsCrockfordChar(c)
    ensures d < 32
  {
    if '0' <= c <= '9' then c as int - '0' as int
    else if c <= 'H' then c as int - 'A' as int + 10
    else if c <= 'K' then c as int - 'A' as int + 9
    else if c <= 'N' then c as int - 'A' as int + 8
    else if c <= 'T' then c as int - 'A' as int + 7
    else c as int - 'A' as int + 6
  }

  /** The Crockford character for a value below 32. */
  function CrockfordDigit(d: nat): (c: char)
    requires d < 32
    ensures IsCrockfordChar(c) && CrockfordIndex(c) == d
  {
    if d < 10 then ('0' as int + d) as char
    else if d < 18 then ('A' as int + d - 10) as char
    else if d < 20 then ('A' as int + d - 9) as char
    else if d < 22 then ('A' as int + d - 8) as char
    else if d < 27 then ('A' as int + d - 7) as char
    else ('A' as int + d - 6) as char
  }

  function CrockfordValue(d: string): nat
    requires forall i :: 0 <= i < |d| ==> IsCrockfordChar(d[i])
  {
    if d == [] then 0 else CrockfordValue(d[..|d| - 1]) * 32 + CrockfordIndex(d[|d| - 1])
  }

  /** The `n`-character Crockford encoding of `t` (most significant first), as `ulid()` writes time. */
  function EncodeTime(t: nat, n: nat): (s: string)
    ensures |s| == n
    ensures forall i :: 0 <= i < n ==> IsCrockfordChar(s[i])
  {
    if n == 0 then "" else EncodeTime(t / 32, n - 1) + [CrockfordDigit(t % 32)]
  }

  function Pow32(n: nat): (r: nat)
    ensures r > 0
  {
    if n == 0 then 1 else 32 * Pow32(n - 1)
  }

  lemma {:induction false} DecodeEncodeTime(t: nat, n: nat)
    requires t < Pow32(n)
    ensures CrockfordValue(EncodeTime(t, n)) == t
  {
    if n > 0 {
      var s := EncodeTime(t, n);
      assert s[..|s| - 1] == EncodeTime(t / 32, n - 1);
      DecodeEncodeTime(t / 32, n - 1);
    }
  }

  /**
   * The timestamp the ULID part was generated with: the Crockford value of its first
   * ten characters, or None when the identifier does not parse or those characters
   * leave the alphabet. This is what `getTimestamp` is meant to return.
   */
  function DecodeTimestamp(id: string): (r: Option<nat>)
    ensures r.Some? ==> Parse(id).Some?
  {
    match Parse(id)
    case None => None
    case Some(c) =>
      if forall i :: 0 <= i < 10 ==> IsCrockfordChar(c.ulid[i]) then Some(CrockfordValue(c.ulid[..10]))
      else None
  }

  /** A ULID whose time part encodes `t` gives back `t` once prefixed and decoded. */
  lemma {:induction false} DecodeTimestampOfGenerate(p: EntityPrefix, t: nat, random: string)
    requires t < Pow32(10)
    requires |random| == 16 && forall i :: 0 <= i < 16 ==> IsCrockfordChar(random[i])
    ensures DecodeTimestamp(Generate(p, EncodeTime(t, 10) + random)) == Some(t)
  {
    var u := EncodeTime(t, 10) + random;
    assert IsUlidString(u);
    GenerateRoundTrip(p, u);
    assert u[..10] == EncodeTime(t, 10);
    DecodeEncodeTime(t, 10);
  }

  /** `n` zero digits. */
  function Zeros(n: nat): (z: string)
    ensures |z| == n && forall i :: 0 <= i < n ==> z[i] == '0'
  {
    seq(n, _ => '0')
  }

  /** The ULID part `00000000JZ0000000000000000`: a valid ULID whose time part ends in `JZ`. */
  function MisreadUlid(): (u: string)
    ensures IsUlidString(u)
  {
    Zeros(8) + ['J', 'Z'] + Zeros(16)
  }

  /**
   * `getTimestamp` disagrees with the time a ULID encodes: for `usr_` followed by
   * `MisreadUlid()`, radix 32 reads `J` as 19 and stops at `Z`, giving 19, while the
   * Crockford value of the time part is 18 * 32 + 31 = 607.
   */
  lemma {:induction false} GetTimestampMisreadsCrockford()
    ensures GetTimestamp(Generate(User, MisreadUlid())) == Some(Int(19))
    ensures DecodeTimestamp(Generate(User, MisreadUlid())) == Some(607)
  {
    var u := MisreadUlid();
    GenerateRoundTrip(User, u);
    assert u[..10] == Zeros(8) + ['J', 'Z'];
    RadixReadOfMisreadUlid();
    CrockfordReadOfMisreadUlid();
  }

  lemma {:induction false} RadixReadOfMisreadUlid()
    ensures ParseInt(Zeros(8) + ['J', 'Z'], 32) == Int(19)
  {
    var d := Zeros(8) + ['J'];
    assert Zeros(8) + ['J', 'Z'] == d + ['Z'];
    ParseIntStopsAt(d, 'Z', 32);
    ZerosValue(8);
    DigitsValueSnoc(Zeros(8), 'J', 32);
  }

  lemma {:induction false} ParseIntStopsAt(d: string, c: char, radix: nat)
    requires 2 <= radix <= 36 && radix != 16
    requires d != [] && forall i :: 0 <= i < |d| ==> DigitValue(d[i]) < radix
    requires DigitValue(c) >= radix
    ensures ParseInt(d + [c], radix) == Int(DigitsValue(d, radix))
  {
    var t := d + [c];
    ParseIntOfDigits(t, radix, |d|);
    assert t[..|d|] == d;
  }

  lemma {:induction false} CrockfordReadOfMisreadUlid()
    ensures forall i :: 0 <= i < 10 ==> IsCrockfordChar(MisreadUlid()[i])
    ensures CrockfordValue(Zeros(8) + ['J', 'Z']) == 607
  {
    var t := Zeros(8) + ['J', 'Z'];
    var d := Zeros(8) + ['J'];
    assert t[..9] == d;
    assert d[..8] == Zeros(8);
    CrockfordZeros(8);
  }

  lemma {:induction false} ZerosValue(n: nat)
    ensures DigitsValue(Zeros(n), 32) == 0
  {
    if n > 0 {
      assert Zeros(n)[..n - 1] == Zeros(n - 1);
      ZerosValue(n - 1);
    }
  }

  lemma {:induction false} CrockfordZeros(n: nat)
    ensures CrockfordValue(Zeros(n)) == 0
  {
    if n > 0 {
      assert Zeros(n)[..n - 1] == Zeros(n - 1);
      CrockfordZeros(n - 1);
    }
  }
}
