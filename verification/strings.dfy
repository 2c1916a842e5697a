/**
 * The freestanding string helpers the misc tests exercise: `memchr`
 * (C11 7.24.5.1), `memrchr` (the GNU extension), `strnlen`
 * (POSIX.1-2008) and `strtol`/`strtoul` (C11 7.22.1.4) on a target where
 * `long` and `unsigned long` are 32 bits wide.  Memory is a sequence of
 * bytes; a pointer into it is an index, and a null result is `None`.
 */
module Strings {
  import opened Common

  type byte = x: int | 0 <= x <= UINT8_MAX

  /** The `(unsigned char)c` conversion that memchr and memrchr apply to `c`. */
  function UnsignedChar(c: int): (b: byte)
    ensures b == c % 256
  {
    c % 256
  }

  // ---------------------------------------------------------------------
  // memchr / memrchr

  /**
   * `memchr(s, c, n)`: the index of the first of the first `n` bytes that
   * equals `(unsigned char)c`, or null.  NUL bytes are ordinary bytes.
   */
  function MemChr(s: seq<byte>, c: int, n: nat): (r: Option<nat>)
    requires n <= |s|
    ensures r.Some? ==> r.value < n && s[r.value] == UnsignedChar(c)
    ensures r.Some? ==> forall j :: 0 <= j < r.value ==> s[j] != UnsignedChar(c)
    ensures r.None? <==> forall j :: 0 <= j < n ==> s[j] != UnsignedChar(c)
  {
    MemChrFrom(s, UnsignedChar(c), 0, n)
  }

  function MemChrFrom(s: seq<byte>, b: byte, i: nat, n: nat): (r: Option<nat>)
    requires i <= n <= |s|
    requires forall j :: 0 <= j < i ==> s[j] != b
    ensures r.Some? ==> i <= r.value < n && s[r.value] == b
    ensures r.Some? ==> forall j :: 0 <= j < r.value ==> s[j] != b
    ensures r.None? <==> forall j :: 0 <= j < n ==> s[j] != b
    decreases n - i
  {
    if i == n then None
    else if s[i] == b then Some(i)
    else MemChrFrom(s, b, i + 1, n)
  }

  /**
   * `memrchr(s, c, n)`: the index of the last of the first `n` bytes that
   * equals `(unsigned char)c`, or null.
   */
  function MemRChr(s: seq<byte>, c: int, n: nat): (r: Option<nat>)
    requires n <= |s|
    ensures r.Some? ==> r.value < n && s[r.value] == UnsignedChar(c)
    ensures r.Some? ==> forall j :: r.value < j < n ==> s[j] != UnsignedChar(c)
    ensures r.None? <==> forall j :: 0 <= j < n ==> s[j] != UnsignedChar(c)
  {
    MemRChrBelow(s, UnsignedChar(c), n, n)
  }

  function MemRChrBelow(s: seq<byte>, b: byte, i: nat, n: nat): (r: Option<nat>)
    requires i <= n <= |s|
    requires forall j :: i <= j < n ==> s[j] != b
    ensures r.Some? ==> r.value < i && s[r.value] == b
    ensures r.Some? ==> forall j :: r.value < j < n ==> s[j] != b
    ensures r.None? <==> forall j :: 0 <= j < n ==> s[j] != b
    decreases i
  {
    if i == 0 then None
    else if s[i - 1] == b then Some(i - 1)
    else MemRChrBelow(s, b, i - 1, n)
  }

  /** memchr and memrchr agree exactly when the byte occurs once in range. */
  lemma MemChrMemRChrAgree(s: seq<byte>, c: int, n: nat)
    requires n <= |s|
    ensures MemChr(s, c, n).None? <==> MemRChr(s, c, n).None?
    ensures MemChr(s, c, n).Some? ==> MemChr(s, c, n).value <= MemRChr(s, c, n).value
    ensures MemChr(s, c, n) == MemRChr(s, c, n) <==>
              (MemChr(s, c, n).None? ||
               forall j :: 0 <= j < n && s[j] == UnsignedChar(c) ==> j == MemChr(s, c, n).value)
  {
  }

  // ---------------------------------------------------------------------
  // strnlen

  /**
   * `strnlen(s, maxlen)`: the number of bytes before the first NUL, but at
   * most `maxlen`.  It reads no byte at or past index `maxlen`, so the
   * string needs a terminator only when `maxlen` exceeds the memory given.
   */
  function StrNLen(s: seq<byte>, maxlen: nat): (r: nat)
    requires maxlen <= |s| || 0 in s
    ensures r <= maxlen && r <= |s|
    ensures forall j :: 0 <= j < r ==> s[j] != 0
    ensures r == maxlen || s[r] == 0
  {
    StrNLenFrom(s, maxlen, 0)
  }

  function StrNLenFrom(s: seq<byte>, maxlen: nat, i: nat): (r: nat)
    requires i <= maxlen && i <= |s|
    requires forall j :: 0 <= j < i ==> s[j] != 0
    requires maxlen <= |s| || 0 in s[i..]
    ensures i <= r <= maxlen && r <= |s|
    ensures forall j :: 0 <= j < r ==> s[j] != 0
    ensures r == maxlen || s[r] == 0
    decreases maxlen - i
  {
    if i == maxlen then i
    else if s[i] == 0 then i
    else
      assert i < |s|;
      assert s[i..] == [s[i]] + s[i + 1..];
      StrNLenFrom(s, maxlen, i + 1)
  }

  /** `strlen(s)`: the index of the first NUL. */
  function StrLen(s: seq<byte>): (r: nat)
    requires 0 in s
    ensures r < |s| && s[r] == 0
    ensures forall j :: 0 <= j < r ==> s[j] != 0
  {
    var r := MemChr(s, 0, |s|);
    r.value
  }

  /** `strnlen(s, m)` is `min(m, strlen(s))`. */
  lemma StrNLenIsMinStrLen(s: seq<byte>, maxlen: nat)
    requires 0 in s
    ensures StrNLen(s, maxlen) == Min(maxlen, StrLen(s))
  {
  }

  // ---------------------------------------------------------------------
  // strtol / strtoul

  /** The `isspace` bytes of the C locale. */
  predicate IsSpace(b: byte)
  {
    b == 32 || (9 <= b <= 13)
  }

  /** The value of a digit or letter in bases up to 36; 36 for any other byte. */
  function DigitValue(b: byte): (d: nat)
    ensures d <= 36
  {
    if '0' as int <= b <= '9' as int then b - '0' as int
    else if 'a' as int <= b <= 'z' as int then b - 'a' as int + 10
    else if 'A' as int <= b <= 'Z' as int then b - 'A' as int + 10
    else 36
  }

  /** The first index at or after `i` that is not white space. */
  function SkipSpaces(s: seq<byte>, i: nat): (j: nat)
    requires i <= |s|
    ensures i <= j <= |s|
    ensures forall k :: i <= k < j ==> IsSpace(s[k])
    ensures j == |s| || !IsSpace(s[j])
    decreases |s| - i
  {
    if i == |s| || !IsSpace(s[i]) then i else SkipSpaces(s, i + 1)
  }

  /** The end of the longest run of base-`base` digits starting at `i`. */
  function DigitsEnd(s: seq<byte>, i: nat, base: nat): (j: nat)
    requires i <= |s|
    ensures i <= j <= |s|
    ensures forall k :: i <= k < j ==> DigitValue(s[k]) < base
    ensures j == |s| || DigitValue(s[j]) >= base
    decreases |s| - i
  {
    if i == |s| || DigitValue(s[i]) >= base then i else DigitsEnd(s, i + 1, base)
  }

  /** The number that the digits `ds` spell in base `base`, most significant first. */
  function DigitsValue(ds: seq<byte>, base: nat): nat
  {
    if ds == [] then 0
    else DigitsValue(ds[..|ds| - 1], base) * base + DigitValue(ds[|ds| - 1])
  }

  /**
   * The subject sequence of C11 7.22.1.4: after white space, an optional
   * sign, for base 0 or 16 an optional `0x`/`0X` prefix (taken only when a
   * hex digit follows it), then the longest run of digits.  Base 0 picks 16
   * after the prefix, 8 after a leading `0` and 10 otherwise.  `end` is the
   * index just past the last digit, or 0 when nothing was converted.
   */
  datatype Subject = Subject(negative: bool, magnitude: nat, end: nat)

  function ParseSubject(s: seq<byte>, base: nat): (r: Subject)
    ensures r.end <= |s|
    ensures r.end == 0 ==> r.magnitude == 0 && !r.negative
  {
    if base == 1 || base > 36 then Subject(false, 0, 0)
    else
      var i := SkipSpaces(s, 0);
      var j := SignEnd(s, i);
      var b := EffectiveBase(s, j, base);
      var k := if HexPrefixAt(s, j, base) then j + 2 else j;
      var e := DigitsEnd(s, k, b);
      if e == k then Subject(false, 0, 0)
      else Subject(j > i && s[i] == '-' as int, DigitsValue(s[k..e], b), e)
  }

  /** The index past an optional `+` or `-` at `i`. */
  function SignEnd(s: seq<byte>, i: nat): (j: nat)
    requires i <= |s|
    ensures j == i || (j == i + 1 && i < |s| && (s[i] == '+' as int || s[i] == '-' as int))
    ensures j <= |s|
  {
    if i < |s| && (s[i] == '+' as int || s[i] == '-' as int) then i + 1 else i
  }

  /** Whether a `0x`/`0X` prefix followed by a hex digit starts at `j` (bases 0 and 16). */
  predicate HexPrefixAt(s: seq<byte>, j: nat, base: nat)
  {
    (base == 0 || base == 16) && j + 2 < |s| && s[j] == '0' as int
    && (s[j + 1] == 'x' as int || s[j + 1] == 'X' as int)
    && DigitValue(s[j + 2]) < 16
  }

  /** The base the digits are read in; base 0 chooses from the prefix. */
  function EffectiveBase(s: seq<byte>, j: nat, base: nat): (b: nat)
    requires base != 1 && base <= 36
    ensures 2 <= b <= 36
  {
    if base != 0 then base
    else if HexPrefixAt(s, j, base) then 16
    else if j < |s| && s[j] == '0' as int then 8
    else 10
  }

  /** A conversion result: the value and the index `*endptr` points at. */
  datatype Conversion = Conversion(value: int, end: nat)

  /**
   * `strtoul(s, &end, base)`: out-of-range magnitudes give `ULONG_MAX`; a
   * minus sign negates in unsigned arithmetic.
   */
  function StrToUL(s: seq<byte>, base: nat): (r: Conversion)
    ensures 0 <= r.value <= UINT32_MAX
    ensures r.end <= |s|
    ensures r.end == 0 ==> r.value == 0
  {
    var sub := ParseSubject(s, base);
    var v := if sub.magnitude > UINT32_MAX then UINT32_MAX
             else if sub.negative then (UINT32_MAX + 1 - sub.magnitude) % (UINT32_MAX + 1)
             else sub.magnitude;
    Conversion(v, sub.end)
  }

  /**
   * `strtol(s, &end, base)`: out-of-range values clamp to `LONG_MIN` or
   * `LONG_MAX`.
   */
  function StrToL(s: seq<byte>, base: nat): (r: Conversion)
    ensures INT32_MIN <= r.value <= INT32_MAX
    ensures r.end <= |s|
    ensures r.end == 0 ==> r.value == 0
  {
    var sub := ParseSubject(s, base);
    var v := if sub.negative then Max(INT32_MIN, 0 - sub.magnitude as int)
             else Min(INT32_MAX, sub.magnitude);
    Conversion(v, sub.end)
  }
}

module StringsProofs {
  import opened Common
  import opened Strings

  /** The ASCII decimal rendering of `n`, most significant digit first. */
  function Decimal(n: nat): (r: seq<byte>)
    ensures |r| >= 1
    ensures forall k :: 0 <= k < |r| ==> '0' as int <= r[k] <= '9' as int
    ensures n >= 10 ==> r[0] != '0' as int
  {
    if n < 10 then ['0' as int + n] else Decimal(n / 10) + ['0' as int + n % 10]
  }

  /** The lower-case ASCII hexadecimal rendering of `n`. */
  function Hex(n: nat): (r: seq<byte>)
    ensures |r| >= 1
    ensures forall k :: 0 <= k < |r| ==> DigitValue(r[k]) < 16
  {
    if n < 16 then [HexDigit(n)] else Hex(n / 16) + [HexDigit(n % 16)]
  }

  function HexDigit(d: nat): (b: byte)
    requires d < 16
    ensures DigitValue(b) == d
  {
    if d < 10 then '0' as int + d else 'a' as int + d - 10
  }

  /** Appending one digit multiplies by the base and adds the digit. */
  lemma DigitsValueSnoc(ds: seq<byte>, d: byte, base: nat)
    ensures DigitsValue(ds + [d], base) == DigitsValue(ds, base) * base + DigitValue(d)
  {
    assert (ds + [d])[..|ds|] == ds;
  }

  lemma {:induction false} DecimalValue(n: nat)
    ensures DigitsValue(Decimal(n), 10) == n
  {
    if n < 10 {
      DigitsValueSnoc([], '0' as int + n, 10);
      assert [] + ['0' as int + n] == Decimal(n);
    } else {
      DecimalValue(n / 10);
      DigitsValueSnoc(Decimal(n / 10), '0' as int + n % 10, 10);
    }
  }

  lemma {:induction false} HexValue(n: nat)
    ensures DigitsValue(Hex(n), 16) == n
  {
    if n < 16 {
      DigitsValueSnoc([], HexDigit(n), 16);
      assert [] + [HexDigit(n)] == Hex(n);
    } else {
      HexValue(n / 16);
      DigitsValueSnoc(Hex(n / 16), HexDigit(n % 16), 16);
    }
  }

  /** The digit run of a digit string followed by a non-digit ends at the non-digit. */
  lemma DigitsEndOfRun(s: seq<byte>, k: nat, e: nat, base: nat)
    requires k <= e <= |s|
    requires forall i :: k <= i < e ==> DigitValue(s[i]) < base
    requires e == |s| || DigitValue(s[e]) >= base
    ensures DigitsEnd(s, k, base) == e
    decreases e - k
  {
    if k < e {
      DigitsEndOfRun(s, k + 1, e, base);
    }
  }

  /** The subject of a decimal rendering is all of it, with its value. */
  lemma ParseDecimal(n: nat)
    ensures ParseSubject(Decimal(n), 10) == Subject(false, n, |Decimal(n)|)
  {
    var s := Decimal(n);
    assert SkipSpaces(s, 0) == 0 && SignEnd(s, 0) == 0 && EffectiveBase(s, 0, 10) == 10;
    DigitsEndOfRun(s, 0, |s|, 10);
    DecimalValue(n);
    assert s[0..|s|] == s;
  }

  /**
   * strtoul and strtol read back every decimal rendering within their
   * range, in base 10, and end just past its last digit.
   */
  lemma DecimalRoundTrip(n: nat)
    ensures n <= UINT32_MAX ==> StrToUL(Decimal(n), 10) == Conversion(n, |Decimal(n)|)
    ensures n <= INT32_MAX ==> StrToL(Decimal(n), 10) == Conversion(n, |Decimal(n)|)
  {
    ParseDecimal(n);
  }

  /**
   * strtol reads back the negation of every decimal rendering down to
   * `LONG_MIN`, in base 10 and, when no octal `0` leads, in base 0.
   */
  lemma StrToLNegativeRoundTrip(m: nat, base: nat)
    requires m <= -INT32_MIN
    requires base == 10 || (base == 0 && m >= 1)
    ensures StrToL(['-' as int] + Decimal(m), base) == Conversion(-(m as int), 1 + |Decimal(m)|)
  {
    ParseNegativeDecimal(m, base);
  }

  /** The subject of "-" and a decimal rendering is all of it, negative, with its value. */
  lemma ParseNegativeDecimal(m: nat, base: nat)
    requires base == 10 || (base == 0 && m >= 1)
    ensures ParseSubject(['-' as int] + Decimal(m), base) == Subject(true, m, 1 + |Decimal(m)|)
  {
    var d := Decimal(m);
    var s := ['-' as int] + d;
    assert s[1..] == d;
    assert m < 10 ==> d == ['0' as int + m];
    assert SkipSpaces(s, 0) == 0 && SignEnd(s, 0) == 1 && EffectiveBase(s, 1, base) == 10;
    assert !HexPrefixAt(s, 1, base);
    DigitsEndOfRun(s, 1, |s|, 10);
    DecimalValue(m);
    assert s[1..|s|] == d;
  }

  /**
   * Out of range, the conversions clamp: a decimal above `ULONG_MAX` reads
   * as `ULONG_MAX`, one above `LONG_MAX` as `LONG_MAX`, and the negation of
   * one above `-LONG_MIN` as `LONG_MIN`, each still consuming every digit.
   */
  lemma DecimalOutOfRangeClamps(n: nat)
    ensures n > UINT32_MAX ==> StrToUL(Decimal(n), 10) == Conversion(UINT32_MAX, |Decimal(n)|)
    ensures n > INT32_MAX ==> StrToL(Decimal(n), 10) == Conversion(INT32_MAX, |Decimal(n)|)
    ensures n > -INT32_MIN ==> StrToL(['-' as int] + Decimal(n), 10) == Conversion(INT32_MIN, 1 + |Decimal(n)|)
  {
    ParseDecimal(n);
    ParseNegativeDecimal(n, 10);
  }

  /**
   * In base 0 a `0x` prefix followed by hex digits converts in base 16, and
   * the end index points just past the last hex digit, before whatever
   * non-digit follows.
   */
  lemma StrToULHexPrefix(n: nat, rest: seq<byte>)
    requires n <= UINT32_MAX
    requires rest == [] || DigitValue(rest[0]) >= 16
    ensures StrToUL(['0' as int, 'x' as int] + Hex(n) + rest, 0) == Conversion(n, 2 + |Hex(n)|)
  {
    var h := Hex(n);
    var s := ['0' as int, 'x' as int] + h + rest;
    assert s[2..2 + |h|] == h;
    assert SkipSpaces(s, 0) == 0 && SignEnd(s, 0) == 0 && HexPrefixAt(s, 0, 0);
    DigitsEndOfRun(s, 2, 2 + |h|, 16);
    HexValue(n);
  }

  /** `strtol("0", nullptr, 10)` is 0. */
  lemma CheckStrtolZero()
    ensures StrToL(Decimal(0), 10) == Conversion(0, 1)
  {
    DecimalRoundTrip(0);
  }

  /** `strtoul("4294967295", nullptr, 10)` is `UINT32_MAX`. */
  lemma CheckStrtoulMax()
    ensures StrToUL(Decimal(UINT32_MAX), 10).value == UINT32_MAX
  {
    DecimalRoundTrip(UINT32_MAX);
  }

  /** `strtol("-2147483648", nullptr, 10)` is `INT32_MIN`. */
  lemma CheckStrtolMin()
    ensures StrToL(['-' as int] + Decimal(-INT32_MIN), 10).value == INT32_MIN
  {
    StrToLNegativeRoundTrip(-INT32_MIN, 10);
  }

  /** `strtol("-1", nullptr, 0)` is -1. */
  lemma CheckStrtolMinusOne()
    ensures StrToL(['-' as int] + Decimal(1), 0).value == -1
  {
    StrToLNegativeRoundTrip(1, 0);
  }

  /** `strtoul("0x123 45", &r, 0)` is 0x123 with `r` five bytes in. */
  lemma CheckStrtoulPrefix()
    ensures StrToUL(['0' as int, 'x' as int, '1' as int, '2' as int, '3' as int,
                     ' ' as int, '4' as int, '5' as int], 0) == Conversion(0x123, 5)
  {
    StrToULHexPrefix(0x123, [' ' as int, '4' as int, '5' as int]);
    assert ['0' as int, 'x' as int] + Hex(0x123) + [' ' as int, '4' as int, '5' as int]
        == ['0' as int, 'x' as int, '1' as int, '2' as int, '3' as int,
            ' ' as int, '4' as int, '5' as int];
  }

  /** "CHERRIES", the buffer of `check_memchr`. */
  const Cherries: seq<byte> := ['C' as int, 'H' as int, 'E' as int, 'R' as int,
                                'R' as int, 'I' as int, 'E' as int, 'S' as int]
  /** "YES\0NO\0", the buffer with embedded NULs of `check_memchr`. */
  const YesNo: seq<byte> := ['Y' as int, 'E' as int, 'S' as int, 0, 'N' as int, 'O' as int, 0]
  /** "CHERRIOT", the buffer of `check_memrchr`. */
  const Cherriot: seq<byte> := ['C' as int, 'H' as int, 'E' as int, 'R' as int,
                                'R' as int, 'I' as int, 'O' as int, 'T' as int]
  /** "FU\0BAR\0", the buffer with embedded NULs of `check_memrchr`. */
  const FuBar: seq<byte> := ['F' as int, 'U' as int, 0, 'B' as int, 'A' as int, 'R' as int, 0]
  /** "Hello world" with its terminator, the string of the `strnlen` checks. */
  const HelloWorld: seq<byte> := ['H' as int, 'e' as int, 'l' as int, 'l' as int, 'o' as int,
                                  ' ' as int, 'w' as int, 'o' as int, 'r' as int, 'l' as int,
                                  'd' as int, 0]

  /** The expectations of `check_memchr`. */
  lemma CheckMemChr()
    ensures MemChr(Cherries, 'C' as int, 8) == Some(0)
    ensures MemChr(Cherries, 'R' as int, 8) == Some(3)
    ensures MemChr(Cherries, 'S' as int, 8) == Some(7)
    ensures MemChr(Cherries, 'X' as int, 8) == None
    ensures MemChr(YesNo, 'N' as int, 7) == Some(4)
    ensures MemChr(YesNo, 'N' as int, 0) == None
  {
  }

  /**
   * The expectations of `check_memrchr`; its first check calls `memchr`,
   * whose answer for the unique 'C' is the same.
   */
  lemma CheckMemRChr()
    ensures MemChr(Cherriot, 'C' as int, 8) == Some(0)
    ensures MemRChr(Cherriot, 'C' as int, 8) == Some(0)
    ensures MemRChr(Cherriot, 'R' as int, 8) == Some(4)
    ensures MemRChr(Cherriot, 'T' as int, 8) == Some(7)
    ensures MemRChr(Cherriot, 'X' as int, 8) == None
    ensures MemRChr(FuBar, 'F' as int, 7) == Some(0)
    ensures MemRChr(FuBar, 'Y' as int, 0) == None
  {
  }

  /** The `strnlen` expectations of `test_misc`. */
  lemma CheckStrNLen()
    ensures StrNLen(HelloWorld, 3) == 3
    ensures StrNLen(HelloWorld, UINT32_MAX) == 11
  {
    assert HelloWorld[11] == 0;
  }
}
