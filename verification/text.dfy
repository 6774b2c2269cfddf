/** Rust `String` behaviour the two programs rely on: `str::trim`, `len()`
    (a count of UTF-8 bytes, not of characters), `as_bytes()`, and the
    decimal rendering of an unsigned integer by `format!("{}", n)`.
    A Rust string is modelled as the sequence of its Unicode scalar values. */
module Text {
  import opened Primitives

  /** `char::is_whitespace`: the characters with the Unicode White_Space property. */
  predicate IsWhitespace(c: char) {
    var n := c as int;
    (0x09 <= n <= 0x0D) || n == 0x20 || n == 0x85 || n == 0xA0 || n == 0x1680
    || (0x2000 <= n <= 0x200A) || n == 0x2028 || n == 0x2029 || n == 0x202F
    || n == 0x205F || n == 0x3000
  }

  /** `str::trim_start`: the longest suffix that does not begin with whitespace. */
  function TrimStart(s: string): (r: string)
    ensures |r| <= |s| && r == s[|s| - |r|..]
    ensures r == [] || !IsWhitespace(r[0])
    ensures forall k :: 0 <= k < |s| - |r| ==> IsWhitespace(s[k])
  {
    if s != [] && IsWhitespace(s[0]) then TrimStart(s[1..]) else s
  }

  /** `str::trim_end`: the longest prefix that does not end with whitespace. */
  function TrimEnd(s: string): (r: string)
    ensures |r| <= |s| && r == s[..|r|]
    ensures r == [] || !IsWhitespace(r[|r| - 1])
    ensures forall k :: |r| <= k < |s| ==> IsWhitespace(s[k])
  {
    if s != [] && IsWhitespace(s[|s| - 1]) then TrimEnd(s[..|s| - 1]) else s
  }

  /** `str::trim`: whitespace removed from both ends. With `i` the length
      of the leading whitespace, `TrimStart(s)` is `s[i..]`, so the result,
      a prefix of it, is the slice of `s` from `i` and is followed only by
      whitespace. It is empty exactly when the input is all whitespace, has
      no whitespace at either end, and never has more bytes than the input. */
  function Trim(s: string): (r: string)
    ensures var i := |s| - |TrimStart(s)|;
      && i + |r| <= |s| && r == TrimStart(s)[..|r|]
      && (forall k :: 0 <= k < i ==> IsWhitespace(s[k]))
      && (forall k :: i + |r| <= k < |s| ==> IsWhitespace(s[k]))
    ensures r == [] <==> forall k :: 0 <= k < |s| ==> IsWhitespace(s[k])
    ensures r != [] ==> !IsWhitespace(r[0]) && !IsWhitespace(r[|r| - 1])
    ensures ByteLen(r) <= ByteLen(s)
  {
    var t := TrimStart(s);
    var r := TrimEnd(t);
    ByteLenOfSuffix(s, |s| - |t|);
    ByteLenOfPrefix(t, |r|);
    r
  }

  /** Trimming a trimmed string changes nothing. */
  lemma TrimIdempotent(s: string)
    ensures Trim(Trim(s)) == Trim(s)
  {
  }

  // ---------------------------------------------------------------------
  // UTF-8

  /** The UTF-8 encoding of one scalar value: 1 to 4 bytes. */
  function EncodeChar(c: char): (b: seq<u8>)
    ensures 1 <= |b| <= 4
    ensures |b| == 1 <==> c as int < 0x80
    ensures |b| == 1 ==> b[0] as int == c as int
  {
    var n := c as int;
    if n < 0x80 then [n as u8]
    else if n < 0x800 then [(0xC0 + n / 0x40) as u8, (0x80 + n % 0x40) as u8]
    else if n < 0x1_0000 then
      [(0xE0 + n / 0x1000) as u8, (0x80 + n / 0x40 % 0x40) as u8, (0x80 + n % 0x40) as u8]
    else
      [(0xF0 + n / 0x4_0000) as u8, (0x80 + n / 0x1000 % 0x40) as u8,
       (0x80 + n / 0x40 % 0x40) as u8, (0x80 + n % 0x40) as u8]
  }

  /** The number of bytes UTF-8 uses for one scalar value. */
  function CharWidth(c: char): (w: nat)
    ensures 1 <= w <= 4 && (w == 1 <==> c as int < 0x80)
  {
    if c as int < 0x80 then 1
    else if c as int < 0x800 then 2
    else if c as int < 0x1_0000 then 3
    else 4
  }

  /** `str::as_bytes`. */
  function Utf8(s: string): (b: seq<u8>)
    ensures |b| >= |s|
    ensures IsAscii(s) ==> |b| == |s| && forall k :: 0 <= k < |s| ==> b[k] as int == s[k] as int
  {
    if s == [] then [] else EncodeChar(s[0]) + Utf8(s[1..])
  }

  /** `str::len`: the number of bytes, not of characters. */
  function ByteLen(s: string): (n: nat)
    ensures n >= |s|
    ensures n == |s| <==> IsAscii(s)
  {
    if s == [] then 0 else CharWidth(s[0]) + ByteLen(s[1..])
  }

  /** `ByteLen` counts exactly the bytes of the encoding. */
  lemma {:induction false} ByteLenIsUtf8Length(s: string)
    ensures ByteLen(s) == |Utf8(s)|
  {
    if s != [] {
      assert |EncodeChar(s[0])| == CharWidth(s[0]);
      ByteLenIsUtf8Length(s[1..]);
    }
  }

  lemma {:induction false} ByteLenAppend(a: string, b: string)
    ensures ByteLen(a + b) == ByteLen(a) + ByteLen(b)
  {
    if a == [] {
      assert a + b == b;
    } else {
      assert (a + b)[0] == a[0];
      assert (a + b)[1..] == a[1..] + b;
      ByteLenAppend(a[1..], b);
    }
  }

  lemma ByteLenOfPrefix(s: string, k: nat)
    requires k <= |s|
    ensures ByteLen(s[..k]) <= ByteLen(s)
  {
    assert s == s[..k] + s[k..];
    ByteLenAppend(s[..k], s[k..]);
  }

  lemma ByteLenOfSuffix(s: string, k: nat)
    requires k <= |s|
    ensures ByteLen(s[k..]) <= ByteLen(s)
  {
    assert s == s[..k] + s[k..];
    ByteLenAppend(s[..k], s[k..]);
  }

  predicate IsAscii(s: string) {
    forall k :: 0 <= k < |s| ==> s[k] as int < 0x80
  }

  // ---------------------------------------------------------------------
  // Decimal rendering of unsigned integers

  predicate IsDigit(c: char) {
    '0' <= c <= '9'
  }

  predicate AllDigits(s: string) {
    forall k :: 0 <= k < |s| ==> IsDigit(s[k])
  }

  function DigitChar(d: nat): (c: char)
    requires d < 10
    ensures IsDigit(c) && c as int - '0' as int == d
  {
    (0x30 + d) as char
  }

  /** `format!("{}", n)` for an unsigned integer: no sign, no leading zero
      (except for 0 itself). */
  function Dec(n: nat): (s: string)
    ensures s != [] && AllDigits(s)
    ensures |s| > 1 ==> s[0] != '0'
  {
    if n < 10 then [DigitChar(n)] else Dec(n / 10) + [DigitChar(n % 10)]
  }

  /** The value a string of decimal digits denotes; the partner of `Dec`. */
  function DecValue(s: string): nat
    requires AllDigits(s)
  {
    if s == [] then 0 else 10 * DecValue(s[..|s| - 1]) + (s[|s| - 1] as int - '0' as int)
  }

  lemma {:induction false} DecRoundTrip(n: nat)
    ensures DecValue(Dec(n)) == n
  {
    if n >= 10 {
      var s := Dec(n);
      assert s[..|s| - 1] == Dec(n / 10);
      DecRoundTrip(n / 10);
    }
  }

  /** Distinct numbers render differently. */
  lemma DecInjective(a: nat, b: nat)
    requires Dec(a) == Dec(b)
    ensures a == b
  {
    DecRoundTrip(a);
    DecRoundTrip(b);
  }

  function Pow10(k: nat): (p: nat)
    ensures p >= 1
  {
    if k == 0 then 1 else 10 * Pow10(k - 1)
  }

  lemma {:induction false} DecLength(n: nat, k: nat)
    requires 1 <= k && n < Pow10(k)
    ensures |Dec(n)| <= k
  {
    if n >= 10 {
      assert Pow10(1) == 10;
      DecLength(n / 10, k - 1);
    }
  }

  /** A `u64` renders in at most 20 ASCII digits, hence at most 20 bytes. */
  lemma DecU64Bytes(n: u64)
    ensures |Dec(n as nat)| <= 20 && ByteLen(Dec(n as nat)) == |Dec(n as nat)|
  {
    assert Pow10(5) == 100_000;
    assert Pow10(10) == 100_000 * Pow10(5);
    assert Pow10(15) == 100_000 * Pow10(10);
    assert Pow10(20) == 100_000 * Pow10(15);
    DecLength(n as nat, 20);
  }
}
