/**
 * The JavaScript string and number primitives the services lean on, stated over
 * `seq<char>`: `trim`, `indexOf`, `split` with a one-character separator,
 * `substring`/`slice`, `padEnd`, ASCII case mapping, `parseInt` and the decimal
 * text of an integer inside a template literal.
 */
module JsString {

  /** WhiteSpace and LineTerminator code points: what `trim` strips and `parseInt` skips. */
  predicate IsJsSpace(c: char) {
    c == '\t' || c == '\n' || c == '\U{000B}' || c == '\U{000C}' || c == '\r' || c == ' '
    || c == '\U{00A0}' || c == '\U{1680}' || ('\U{2000}' <= c <= '\U{200A}')
    || c == '\U{2028}' || c == '\U{2029}' || c == '\U{202F}' || c == '\U{205F}'
    || c == '\U{3000}' || c == '\U{FEFF}'
  }

  /** Number of white-space characters at the front of `s`. */
  function LeadingSpaces(s: string): (k: nat)
    ensures k <= |s|
    ensures forall i :: 0 <= i < k ==> IsJsSpace(s[i])
    ensures k < |s| ==> !IsJsSpace(s[k])
  {
    if s == [] || !IsJsSpace(s[0]) then 0 else 1 + LeadingSpaces(s[1..])
  }

  /** Number of white-space characters at the end of `s`. */
  function TrailingSpaces(s: string): (k: nat)
    ensures k <= |s|
    ensures forall i :: |s| - k <= i < |s| ==> IsJsSpace(s[i])
    ensures k < |s| ==> !IsJsSpace(s[|s| - 1 - k])
  {
    if s == [] || !IsJsSpace(s[|s| - 1]) then 0 else 1 + TrailingSpaces(s[..|s| - 1])
  }

  /**
   * `String.prototype.trim`: the input with its leading and trailing white space
   * removed. The result is the slice of `s` that starts after the leading white
   * space, everything after it is white space, and it neither starts nor ends
   * with white space.
   */
  function Trim(s: string): (r: string)
    ensures r == [] || (!IsJsSpace(r[0]) && !IsJsSpace(r[|r| - 1]))
    ensures LeadingSpaces(s) + |r| <= |s|
    ensures r == s[LeadingSpaces(s)..LeadingSpaces(s) + |r|]
    ensures forall i :: LeadingSpaces(s) + |r| <= i < |s| ==> IsJsSpace(s[i])
    ensures (forall i :: 0 <= i < |s| ==> !IsJsSpace(s[i])) ==> r == s
  {
    var t := s[LeadingSpaces(s)..];
    var r := t[..|t| - TrailingSpaces(t)];
    assert forall i :: LeadingSpaces(s) + |r| <= i < |s| ==> s[i] == t[i - LeadingSpaces(s)];
    r
  }

  /** A string that neither starts nor ends with white space is its own trim. */
  lemma {:induction false} TrimNoEndSpaces(s: string)
    requires s == [] || (!IsJsSpace(s[0]) && !IsJsSpace(s[|s| - 1]))
    ensures Trim(s) == s
  {
    if s != [] {
      assert LeadingSpaces(s) == 0;
      assert !IsJsSpace(s[|s| - 1]);
    }
  }

  /** Interior white space is kept: only the ends are stripped. */
  lemma {:induction false} TrimExample()
    ensures Trim(" a b ") == "a b"
  {
    var s := " a b ";
    assert LeadingSpaces(s) == 1 by {
      assert IsJsSpace(s[0]) && !IsJsSpace(s[1]);
      assert LeadingSpaces(s[1..]) == 0;
    }
    var t := s[1..];
    assert t == "a b ";
    assert TrailingSpaces(t) == 1 by {
      assert IsJsSpace(t[3]) && !IsJsSpace(t[2]);
      assert TrailingSpaces(t[..3]) == 0;
    }
  }

  /** Trimming a string twice strips nothing more. */
  lemma {:induction false} TrimIdempotent(s: string)
    ensures Trim(Trim(s)) == Trim(s)
  {
    var r := Trim(s);
    if r != [] {
      assert LeadingSpaces(r) == 0;
      assert TrailingSpaces(r) == 0;
    }
  }

  /** `s.indexOf(c)`, with "absent" reported as `|s|` rather than -1. */
  function IndexOf(s: string, c: char): (i: nat)
    ensures i <= |s|
    ensures i < |s| ==> s[i] == c
    ensures forall k :: 0 <= k < i ==> s[k] != c
    ensures i == |s| <==> c !in s
  {
    if s == [] then 0 else if s[0] == c then 0 else 1 + IndexOf(s[1..], c)
  }

  /** `s.lastIndexOf(c)`: the last position holding `c`, or -1. */
  function LastIndexOf(s: string, c: char): (i: int)
    ensures -1 <= i < |s|
    ensures 0 <= i ==> s[i] == c
    ensures forall k :: i < k < |s| ==> s[k] != c
  {
    if s == [] then -1 else if s[|s| - 1] == c then |s| - 1 else LastIndexOf(s[..|s| - 1], c)
  }

  /** `s.split(sep)` for a one-character separator: the pieces between separators. */
  function Split(s: string, sep: char): (parts: seq<string>)
    ensures |parts| >= 1
    ensures forall k :: 0 <= k < |parts| ==> sep !in parts[k]
    ensures parts[0] == s[..IndexOf(s, sep)]
    ensures |parts| == 1 <==> sep !in s
    decreases |s|
  {
    var i := IndexOf(s, sep);
    if i == |s| then [s] else [s[..i]] + Split(s[i + 1..], sep)
  }

  /** `parts.join(sep)`, the inverse of `Split`. */
  function Join(parts: seq<string>, sep: char): string
    requires |parts| >= 1
  {
    if |parts| == 1 then parts[0] else parts[0] + [sep] + Join(parts[1..], sep)
  }

  /** Joining a leading piece onto at least one more piece puts one separator between them. */
  lemma {:induction false} JoinCons(head: string, tail: seq<string>, sep: char)
    requires |tail| >= 1
    ensures Join([head] + tail, sep) == head + [sep] + Join(tail, sep)
  {
    assert ([head] + tail)[1..] == tail;
  }

  /** A string with a separator splits into the text before it and the split of the rest. */
  lemma {:induction false} SplitCons(s: string, sep: char, i: nat)
    requires i == IndexOf(s, sep) < |s|
    ensures Split(s, sep) == [s[..i]] + Split(s[i + 1..], sep)
  {
  }

  /** A string is the text before position `i`, the character at `i`, and the text after. */
  lemma {:induction false} Recompose(s: string, i: nat, c: char)
    requires i < |s| && s[i] == c
    ensures s[..i] + [c] + s[i + 1..] == s
  {
  }

  /** Joining the pieces of a split gives back the original string. */
  lemma {:induction false} JoinSplit(s: string, sep: char)
    ensures Join(Split(s, sep), sep) == s
    decreases |s|
  {
    var i := IndexOf(s, sep);
    if i < |s| {
      var rest := s[i + 1..];
      SplitCons(s, sep, i);
      JoinCons(s[..i], Split(rest, sep), sep);
      JoinSplit(rest, sep);
      Recompose(s, i, sep);
    } else {
      assert Split(s, sep) == [s];
    }
  }

  /** Splitting a join of separator-free pieces gives back the pieces. */
  lemma {:induction false} SplitJoin(parts: seq<string>, sep: char)
    requires |parts| >= 1
    requires forall k :: 0 <= k < |parts| ==> sep !in parts[k]
    ensures Split(Join(parts, sep), sep) == parts
  {
    if |parts| > 1 {
      var s := Join(parts, sep);
      var head := parts[0];
      var rest := Join(parts[1..], sep);
      assert s == head + [sep] + rest;
      assert s[..|head|] == head;
      assert IndexOf(s, sep) == |head| by {
        assert s[|head|] == sep;
        forall k | 0 <= k < |head| ensures s[k] != sep { assert s[k] == head[k]; }
      }
      assert s[|head| + 1..] == rest;
      SplitJoin(parts[1..], sep);
    }
  }

  /** `s.substring(0, n)`. */
  function TakeFirst(s: string, n: nat): (r: string)
    ensures |r| == if |s| < n then |s| else n
    ensures r == s[..|r|]
  {
    if |s| <= n then s else s[..n]
  }

  /** `s.slice(-n)` for a positive `n`: the last `n` characters, or all of a shorter `s`. */
  function TakeLast(s: string, n: nat): (r: string)
    requires n > 0
    ensures |r| == if |s| < n then |s| else n
    ensures r == s[|s| - |r|..]
  {
    if |s| <= n then s else s[|s| - n..]
  }

  /** `s.padEnd(n, c)` for a one-character pad string. */
  function PadEnd(s: string, n: nat, c: char): (r: string)
    ensures |r| == if |s| < n then n else |s|
    ensures r[..|s|] == s
    ensures forall i :: |s| <= i < |r| ==> r[i] == c
  {
    if |s| >= n then s else s + seq(n - |s|, _ => c)
  }

  function UpperChar(c: char): char {
    if 'a' <= c <= 'z' then (c as int - 32) as char else c
  }

  function LowerChar(c: char): char {
    if 'A' <= c <= 'Z' then (c as int + 32) as char else c
  }

  /** `toUpperCase` on the ASCII range. */
  function AsciiUpper(s: string): (r: string)
    ensures |r| == |s|
    ensures forall i :: 0 <= i < |s| ==> r[i] == UpperChar(s[i])
  {
    seq(|s|, i requires 0 <= i < |s| => UpperChar(s[i]))
  }

  /** `toLowerCase` on the ASCII range. */
  function AsciiLower(s: string): (r: string)
    ensures |r| == |s|
    ensures forall i :: 0 <= i < |s| ==> r[i] == LowerChar(s[i])
  {
    seq(|s|, i requires 0 <= i < |s| => LowerChar(s[i]))
  }

  // ---------------------------------------------------------------- parseInt

  /** The value of `c` as a digit of radix 36 (`0-9`, then `a-z` or `A-Z`), 36 if none. */
  function DigitValue(c: char): (d: nat)
    ensures d <= 36
  {
    if '0' <= c <= '9' then c as int - '0' as int
    else if 'a' <= c <= 'z' then c as int - 'a' as int + 10
    else if 'A' <= c <= 'Z' then c as int - 'A' as int + 10
    else 36
  }

  /** Length of the longest prefix of `s` made of digits of `radix`. */
  function LeadingDigits(s: string, radix: nat): (k: nat)
    ensures k <= |s|
    ensures forall i :: 0 <= i < k ==> DigitValue(s[i]) < radix
    ensures k < |s| ==> DigitValue(s[k]) >= radix
  {
    if s == [] || DigitValue(s[0]) >= radix then 0 else 1 + LeadingDigits(s[1..], radix)
  }

  /** Positional value of a string of digits, most significant first. */
  function DigitsValue(d: string, radix: nat): (v: nat)
  {
    if d == [] then 0 else DigitsValue(d[..|d| - 1], radix) * radix + DigitValue(d[|d| - 1])
  }

  /** Appending a digit shifts the value one place and adds the digit. */
  lemma {:induction false} DigitsValueSnoc(d: string, c: char, radix: nat)
    ensures DigitsValue(d + [c], radix) == DigitsValue(d, radix) * radix + DigitValue(c)
  {
    assert (d + [c])[..|d|] == d;
  }

  /** What `parseInt` yields: NaN or an integer. */
  datatype ParsedInt = NaN | Int(value: int)

  /**
   * `parseInt(s, radix)`: skip leading white space, read an optional sign, then the
   * longest run of digits of `radix`; NaN when that run is empty. Radix 16, whose
   * optional `0x` prefix `parseInt` also skips, is not covered.
   */
  function ParseInt(s: string, radix: nat): ParsedInt
    requires 2 <= radix <= 36 && radix != 16
  {
    var t := s[LeadingSpaces(s)..];
    var negative := |t| > 0 && t[0] == '-';
    var u := if |t| > 0 && (t[0] == '-' || t[0] == '+') then t[1..] else t;
    var k := LeadingDigits(u, radix);
    if k == 0 then NaN
    else Int(if negative then 0 - DigitsValue(u[..k], radix) else DigitsValue(u[..k], radix) as int)
  }

  /** A string that starts with its digits parses to the value of those digits. */
  lemma {:induction false} ParseIntOfDigits(s: string, radix: nat, k: nat)
    requires 2 <= radix <= 36 && radix != 16
    requires 0 < k <= |s|
    requires forall i :: 0 <= i < k ==> DigitValue(s[i]) < radix
    requires k < |s| ==> DigitValue(s[k]) >= radix
    ensures ParseInt(s, radix) == Int(DigitsValue(s[..k], radix))
  {
    assert !IsJsSpace(s[0]) by { assert DigitValue(s[0]) < radix; }
    assert LeadingSpaces(s) == 0;
    assert LeadingDigits(s, radix) == k by { LeadingDigitsExact(s, radix, k); }
  }

  /**
   * Text that starts with neither white space nor a sign: `parseInt` reads the
   * longest leading run of digits of `radix`, and gives NaN when that run is empty.
   */
  lemma {:induction false} ParseIntUnsigned(s: string, radix: nat)
    requires 2 <= radix <= 36 && radix != 16
    requires s == [] || (!IsJsSpace(s[0]) && s[0] != '-' && s[0] != '+')
    ensures var k := LeadingDigits(s, radix);
      ParseInt(s, radix) == if k == 0 then NaN else Int(DigitsValue(s[..k], radix))
  {
    if s != [] {
      assert LeadingSpaces(s) == 0;
    }
  }

  lemma {:induction false} LeadingDigitsExact(s: string, radix: nat, k: nat)
    requires k <= |s|
    requires forall i :: 0 <= i < k ==> DigitValue(s[i]) < radix
    requires k < |s| ==> DigitValue(s[k]) >= radix
    ensures LeadingDigits(s, radix) == k
  {
    if k > 0 {
      LeadingDigitsExact(s[1..], radix, k - 1);
    }
  }

  // ------------------------------------------------------- integer to text

  function DigitChar(d: nat): (c: char)
    requires d < 10
    ensures DigitValue(c) == d
  {
    ('0' as int + d) as char
  }

  /** Decimal text of a natural number, as a template literal renders it. */
  function NatToString(n: nat): (s: string)
    ensures |s| >= 1
    ensures forall i :: 0 <= i < |s| ==> '0' <= s[i] <= '9'
  {
    if n < 10 then [DigitChar(n)] else NatToString(n / 10) + [DigitChar(n % 10)]
  }

  /** The decimal text of `n` has the value `n`. */
  lemma {:induction false} NatToStringValue(n: nat)
    ensures DigitsValue(NatToString(n), 10) == n
  {
    if n < 10 {
      assert [DigitChar(n)][..0] == [];
    } else {
      NatToStringValue(n / 10);
      DigitsValueSnoc(NatToString(n / 10), DigitChar(n % 10), 10);
    }
  }

  /** Decimal text of an integer (`${n}`). */
  function IntToString(n: int): (s: string)
  {
    if n < 0 then "-" + NatToString(-n) else NatToString(n)
  }

  /** A run of decimal digits parses to its value. */
  lemma {:induction false} ParseDecimalDigits(d: string)
    requires |d| >= 1 && forall i :: 0 <= i < |d| ==> '0' <= d[i] <= '9'
    ensures ParseInt(d, 10) == Int(DigitsValue(d, 10))
  {
    assert forall i :: 0 <= i < |d| ==> DigitValue(d[i]) < 10;
    ParseIntOfDigits(d, 10, |d|);
    assert d[..|d|] == d;
  }

  /** A minus sign followed by a run of decimal digits parses to the negated value. */
  lemma {:induction false} ParseNegatedDigits(d: string)
    requires |d| >= 1 && forall i :: 0 <= i < |d| ==> '0' <= d[i] <= '9'
    ensures ParseInt("-" + d, 10) == Int(0 - DigitsValue(d, 10))
  {
    var s := "-" + d;
    assert forall i :: 0 <= i < |d| ==> DigitValue(d[i]) < 10;
    assert s[0] == '-' && !IsJsSpace(s[0]);
    assert LeadingSpaces(s) == 0;
    assert s[1..] == d;
    LeadingDigitsExact(d, 10, |d|);
    assert d[..|d|] == d;
  }

  /** `parseInt(String(n), 10) == n`: the decimal text of an integer reads back as that integer. */
  lemma {:induction false} IntToStringRoundTrip(n: int)
    ensures ParseInt(IntToString(n), 10) == Int(n)
  {
    if n < 0 {
      var d := NatToString(-n);
      calc {
        ParseInt(IntToString(n), 10);
        ParseInt("-" + d, 10);
        { ParseNegatedDigits(d); }
        Int(0 - DigitsValue(d, 10));
        { NatToStringValue(-n); }
        Int(n);
      }
    } else {
      var d := NatToString(n);
      calc {
        ParseInt(IntToString(n), 10);
        ParseInt(d, 10);
        { ParseDecimalDigits(d); }
        Int(DigitsValue(d, 10));
        { NatToStringValue(n); }
        Int(n);
      }
    }
  }
}
