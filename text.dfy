/** Character and string helpers shared by the validators and the schema:
    hexadecimal digits, ECMAScript whitespace and trimming, decimal rendering. */
module Text {

  predicate IsHexDigit(c: char)
  {
    '0' <= c <= '9' || 'a' <= c <= 'f' || 'A' <= c <= 'F'
  }

  /** Every character is a hexadecimal digit, in either case. */
  predicate IsHex(s: string)
  {
    forall i :: 0 <= i < |s| ==> IsHexDigit(s[i])
  }

  function DigitValue(c: char): (d: nat)
    requires IsHexDigit(c)
    ensures d < 16
  {
    if '0' <= c <= '9' then (c - '0') as nat
    else if 'a' <= c <= 'f' then (c - 'a') as nat + 10
    else (c - 'A') as nat + 10
  }

  function Pow16(n: nat): (p: nat)
    ensures p >= 1
  {
    if n == 0 then 1 else 16 * Pow16(n - 1)
  }

  /** The number a hexadecimal string denotes, most significant digit first. */
  function HexValue(s: string): (v: nat)
    requires IsHex(s)
    ensures v < Pow16(|s|)
  {
    if |s| == 0 then 0
    else HexValue(s[..|s| - 1]) * 16 + DigitValue(s[|s| - 1])
  }

  /** The lower-case hexadecimal digit of value d. */
  function HexDigit(d: nat): (c: char)
    requires d < 16
    ensures IsHexDigit(c) && DigitValue(c) == d
  {
    if d < 10 then ('0' as int + d) as char else ('a' as int + d - 10) as char
  }

  /** n written with exactly `width` lower-case hexadecimal digits; HexValue reads it back. */
  function HexString(n: nat, width: nat): (s: string)
    requires n < Pow16(width)
    ensures |s| == width && IsHex(s) && HexValue(s) == n
  {
    if width == 0 then ""
    else
      var s := HexString(n / 16, width - 1) + [HexDigit(n % 16)];
      assert s[..|s| - 1] == HexString(n / 16, width - 1);
      s
  }

  /** The whitespace and line terminators that String.prototype.trim removes. */
  predicate IsSpace(c: char)
  {
    || c == '\t' || c == '\n' || c == '\U{000B}' || c == '\U{000C}' || c == '\r' || c == ' '
    || c == '\U{00A0}' || c == '\U{1680}' || ('\U{2000}' <= c <= '\U{200A}')
    || c == '\U{2028}' || c == '\U{2029}' || c == '\U{202F}' || c == '\U{205F}'
    || c == '\U{3000}' || c == '\U{FEFF}'
  }

  /** How many whitespace characters open `s`. */
  function Leading(s: string): (n: nat)
    ensures n <= |s|
    ensures forall i :: 0 <= i < n ==> IsSpace(s[i])
    ensures n < |s| ==> !IsSpace(s[n])
  {
    if |s| == 0 || !IsSpace(s[0]) then 0 else 1 + Leading(s[1..])
  }

  /** How many whitespace characters close `s`. */
  function Trailing(s: string): (n: nat)
    ensures n <= |s|
    ensures forall i :: |s| - n <= i < |s| ==> IsSpace(s[i])
    ensures n < |s| ==> !IsSpace(s[|s| - 1 - n])
  {
    if |s| == 0 || !IsSpace(s[|s| - 1]) then 0 else 1 + Trailing(s[..|s| - 1])
  }

  /** String.prototype.trim: `s` without its leading and trailing whitespace. */
  function Trim(s: string): (r: string)
    ensures |r| <= |s|
    ensures r != [] ==> !IsSpace(r[0]) && !IsSpace(r[|r| - 1])
    ensures (forall i :: 0 <= i < |s| ==> IsSpace(s[i])) <==> r == []
    ensures Leading(s) + |r| <= |s| && r == s[Leading(s)..Leading(s) + |r|]
    ensures forall i :: Leading(s) + |r| <= i < |s| ==> IsSpace(s[i])
  {
    var front := s[Leading(s)..];
    var r := front[..|front| - Trailing(front)];
    assert forall i :: Leading(s) + |r| <= i < |s| ==> s[i] == front[i - Leading(s)];
    r
  }

  /** Every character is whitespace. */
  predicate AllSpace(s: string)
  {
    forall i :: 0 <= i < |s| ==> IsSpace(s[i])
  }

  /** A string with no whitespace at either end. */
  predicate Trimmed(s: string)
  {
    s == [] || (!IsSpace(s[0]) && !IsSpace(s[|s| - 1]))
  }

  /** Trimming yields a trimmed string, and a trimmed string is its own trim,
      so trimming twice changes nothing. */
  lemma TrimmedIsFixed(s: string)
    requires Trimmed(s)
    ensures Trim(s) == s
  {
    if s != [] {
      assert Leading(s) == 0;
      assert Trailing(s) == 0;
    }
  }

  lemma {:induction false} TrimIdempotent(s: string)
    ensures Trimmed(Trim(s))
    ensures Trim(Trim(s)) == Trim(s)
  {
    TrimmedIsFixed(Trim(s));
  }

  predicate IsDigit(c: char)
  {
    '0' <= c <= '9'
  }

  /** Every character is a decimal digit. */
  predicate IsDecimal(s: string)
  {
    forall i :: 0 <= i < |s| ==> IsDigit(s[i])
  }

  /** The number a string of decimal digits denotes, most significant digit first. */
  function DecimalValue(s: string): (v: nat)
    requires IsDecimal(s)
  {
    if |s| == 0 then 0
    else DecimalValue(s[..|s| - 1]) * 10 + (s[|s| - 1] - '0') as nat
  }

  /** A decimal spelling in canonical form: at least one digit, and no leading
      zero unless the number is 0 itself. */
  predicate Canonical(s: string)
  {
    |s| >= 1 && IsDecimal(s) && (s[0] == '0' ==> |s| == 1)
  }

  function DigitChar(d: nat): (c: char)
    requires d < 10
    ensures IsDigit(c) && (c - '0') as nat == d
  {
    ('0' as int + d) as char
  }

  /** The decimal spelling of `n`, without leading zeros. */
  function NatToString(n: nat): (r: string)
    ensures Canonical(r) && DecimalValue(r) == n
    ensures n >= 10 ==> |r| >= 2
  {
    if n < 10 then [DigitChar(n)]
    else
      var r := NatToString(n / 10) + [DigitChar(n % 10)];
      assert r[..|r| - 1] == NatToString(n / 10);
      r
  }

  /** A canonical spelling that does not start with 0 denotes a positive number. */
  lemma {:induction false} LeadingDigitPositive(s: string)
    requires Canonical(s) && s[0] != '0'
    ensures DecimalValue(s) >= 1
    decreases |s|
  {
    if |s| > 1 {
      var t := s[..|s| - 1];
      assert t[0] == s[0];
      LeadingDigitPositive(t);
    }
  }

  /** Every canonical spelling is the spelling NatToString gives its value, so
      two canonical spellings of one number are the same string. */
  lemma {:induction false} DecimalRoundTrip(s: string)
    requires Canonical(s)
    ensures NatToString(DecimalValue(s)) == s
    decreases |s|
  {
    if |s| > 1 {
      var t := s[..|s| - 1];
      assert t[0] == s[0];
      LeadingDigitPositive(t);
      DecimalRoundTrip(t);
      var d := (s[|s| - 1] - '0') as nat;
      assert DecimalValue(s) / 10 == DecimalValue(t) && DecimalValue(s) % 10 == d;
      assert s == t + [s[|s| - 1]];
    }
  }

  /** `items` separated by `sep`, as Array.prototype.join. */
  function Join(items: seq<string>, sep: string): (r: string)
    ensures |items| == 0 ==> r == ""
    ensures |items| == 1 ==> r == items[0]
    ensures |items| >= 2 ==> |r| >= |items[0]| + |sep| && r[..|items[0]| + |sep|] == items[0] + sep
  {
    if |items| == 0 then ""
    else if |items| == 1 then items[0]
    else items[0] + sep + Join(items[1..], sep)
  }

  /** Appending an item appends the separator and the item: the joined string
      grows at its end, one item at a time. */
  lemma {:induction false} JoinAppend(items: seq<string>, item: string, sep: string)
    requires items != []
    ensures Join(items + [item], sep) == Join(items, sep) + sep + item
    decreases |items|
  {
    var longer := items + [item];
    assert longer[0] == items[0] && longer[1..] == items[1..] + [item];
    if |items| == 1 {
      assert longer[1..] == [item];
    } else {
      JoinAppend(items[1..], item, sep);
      assert Join(longer, sep) == items[0] + sep + (Join(items[1..], sep) + sep + item);
    }
  }
}
