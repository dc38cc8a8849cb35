/** The integer key built from a timestamp by XOR-ing its fields, with the year
    contributing `int(hex(year)[-2:], 16)`. */
module TimestampKey {
  import opened Wrappers
  import opened Bits
  import opened Calendar

  const HexAlphabet: string := "0123456789abcdef"

  function HexDigit(d: int): char
    requires 0 <= d < 16
  {
    HexAlphabet[d]
  }

  /** The value of one hexadecimal digit, in either case; None for any other
      character. */
  function HexValue(c: char): (r: Option<nat>)
    ensures r.Some? ==> r.value < 16
  {
    if '0' <= c <= '9' then Some(c as int - '0' as int)
    else if 'a' <= c <= 'f' then Some(c as int - 'a' as int + 10)
    else if 'A' <= c <= 'F' then Some(c as int - 'A' as int + 10)
    else None
  }

  /** The digits of n in base 16, most significant first, without leading zeros. */
  function HexDigits(n: nat): (s: string)
    ensures |s| >= 1
    decreases n
  {
    if n < 16 then [HexDigit(n)] else HexDigits(n / 16) + [HexDigit(n % 16)]
  }

  /** Python's `hex(n)` for a non-negative n. */
  function Hex(n: nat): (s: string)
    ensures |s| >= 3 && s[..2] == "0x"
  {
    "0x" + HexDigits(n)
  }

  /** `int(s, 16)` on a string of hexadecimal digits: None (a ValueError) when s
      is empty or holds any other character. */
  function ParseHex(s: string): (r: Option<nat>)
    ensures r.Some? <==> |s| > 0 && forall i :: 0 <= i < |s| ==> HexValue(s[i]).Some?
    decreases |s|
  {
    if |s| == 0 then None
    else
      var last := HexValue(s[|s| - 1]);
      if last.None? then None
      else if |s| == 1 then last
      else
        var high := ParseHex(s[..|s| - 1]);
        if high.None? then None else Some(16 * high.value + last.value)
  }

  lemma HexValueOfDigit(d: int)
    requires 0 <= d < 16
    ensures HexValue(HexDigit(d)) == Some(d)
  {
  }

  /** Reading back the digits that `hex` writes gives the number again. */
  lemma {:induction false} ParseHexDigits(n: nat)
    ensures ParseHex(HexDigits(n)) == Some(n)
    decreases n
  {
    HexValueOfDigit(n % 16);
    if n < 16 {
      assert HexDigits(n) == [HexDigit(n)];
    } else {
      var s := HexDigits(n);
      var high := HexDigits(n / 16);
      assert s == high + [HexDigit(n % 16)];
      assert s[..|s| - 1] == high && s[|s| - 1] == HexDigit(n % 16);
      ParseHexDigits(n / 16);
    }
  }

  /** `int(hex(year)[-2:], 16)`: the last two characters of `hex(year)` read as a
      hexadecimal number. */
  function YearByte(year: nat): (r: Option<nat>)
    ensures r.Some? ==> r.value < 256
  {
    var h := Hex(year);
    assert h[|h| - 2..] == [h[|h| - 2], h[|h| - 1]];
    ParseTwoChars(h[|h| - 2], h[|h| - 1]);
    ParseHex(h[|h| - 2..])
  }

  /** `int` on a two-character string: both characters must be digits. */
  lemma ParseTwoChars(c1: char, c2: char)
    ensures ParseHex([c1, c2]) ==
      if HexValue(c1).Some? && HexValue(c2).Some?
      then Some(16 * HexValue(c1).value + HexValue(c2).value) else None
  {
    assert [c1, c2][..1] == [c1];
  }

  /** The last hexadecimal digit of n written by `hex`, for n of two digits or more. */
  lemma LastTwoHexDigits(n: nat)
    requires n >= 16
    ensures var h := Hex(n); h[|h| - 2..] == [HexDigit((n / 16) % 16), HexDigit(n % 16)]
  {
    var q := n / 16;
    var high := HexDigits(q);
    assert high[|high| - 1] == HexDigit(q % 16) by {
      if q >= 16 {
        assert high == HexDigits(q / 16) + [HexDigit(q % 16)];
      }
    }
    var h := "0x" + high + [HexDigit(n % 16)];
    assert Hex(n) == h;
    assert h[|h| - 2] == high[|high| - 1];
  }

  /** The last two hexadecimal digits of n make up n modulo 256. */
  lemma LowTwoDigits(n: nat)
    ensures 16 * ((n / 16) % 16) + n % 16 == n % 256
  {
    var a := n / 256;
    var r := n % 256;
    assert n == 16 * (16 * a + r / 16) + r % 16;
    assert n / 16 == 16 * a + r / 16 && n % 16 == r % 16;
    assert (n / 16) % 16 == r / 16;
  }

  /** The year transform keeps the last two HEXADECIMAL digits, so it is the year
      modulo 256; below 16, `hex` has a single digit and the slice holds the `x`,
      which `int` rejects. */
  lemma YearByteIsLowByte(year: nat)
    ensures YearByte(year) == if year >= 16 then Some(year % 256) else None
  {
    var h := Hex(year);
    if year >= 16 {
      var d1, d0 := (year / 16) % 16, year % 16;
      LastTwoHexDigits(year);
      HexValueOfDigit(d1);
      HexValueOfDigit(d0);
      ParseTwoChars(HexDigit(d1), HexDigit(d0));
      assert YearByte(year) == Some(16 * d1 + d0);
      LowTwoDigits(year);
    } else {
      assert h[|h| - 2..] == ['x', HexDigit(year)];
      ParseTwoChars('x', HexDigit(year));
    }
  }

  /** The year 2024 contributes 0xe8 = 232, not 0x24 = 36 as reading the last two
      DECIMAL digits as hexadecimal would give. */
  lemma YearByte2024()
    ensures YearByte(2024) == Some(232)
    ensures YearByte(2024) != Some(0x24)
  {
    YearByteIsLowByte(2024);
  }

  /** Years from 16 on have a year byte; the key is defined for them. */
  predicate HasKey(t: Timestamp)
  {
    Valid(t) && t.year >= 16
  }

  /** `day ^ month ^ int(hex(year)[-2:], 16) ^ hour ^ minute ^ second`. */
  function Key(t: Timestamp): (r: nat)
    requires HasKey(t)
    ensures r < 256
    ensures r == Xor(Xor(Xor(Xor(Xor(t.day, t.month), t.year % 256), t.hour), t.minute), t.second)
  {
    YearByteIsLowByte(t.year);
    var yb := YearByte(t.year).value;
    XorByte(t.day, t.month);
    XorByte(Xor(t.day, t.month), yb);
    XorByte(Xor(Xor(t.day, t.month), yb), t.hour);
    XorByte(Xor(Xor(Xor(t.day, t.month), yb), t.hour), t.minute);
    XorByte(Xor(Xor(Xor(Xor(t.day, t.month), yb), t.hour), t.minute), t.second);
    Xor(Xor(Xor(Xor(Xor(t.day, t.month), yb), t.hour), t.minute), t.second)
  }

  /** Mixing in any byte keeps the key a byte. */
  lemma KeyWithByte(t: Timestamp, b: nat)
    requires HasKey(t) && b < 256
    ensures Xor(Key(t), b) < 256
  {
    XorByte(Key(t), b);
  }
}
