/**
 * Two small helpers of the folding-door demo.
 *
 * `hexToRgb` reads the six-digit form of the CSS hex colour notation
 * (CSS Color Module Level 4, section 5.2): an optional '#', then two hex
 * digits per channel, letters in either case. Each channel becomes its
 * byte value over 255; any other string gives white.
 *
 * `isPowerOf2` tests `value & (value - 1)` against 0, where JavaScript's
 * `&` works on the 32-bit two's-complement patterns of its operands.
 */
module HexColor {
  import opened Algebra

  datatype Option<T> = None | Some(value: T)

  /** The three channel bytes a hex colour names. */
  datatype Rgb8 = Rgb8(r: nat, g: nat, b: nat)

  predicate IsByte(n: nat) {
    n < 256
  }

  predicate IsRgb8(c: Rgb8) {
    IsByte(c.r) && IsByte(c.g) && IsByte(c.b)
  }

  /** The class `[a-f\d]` under the `i` flag. */
  predicate IsHexDigit(ch: char) {
    ('0' <= ch <= '9') || ('a' <= ch <= 'f') || ('A' <= ch <= 'F')
  }

  /** The value of one hex digit, as `parseInt(.., 16)` reads it. */
  function DigitValue(ch: char): (d: nat)
    requires IsHexDigit(ch)
    ensures d < 16
  {
    if '0' <= ch <= '9' then ch as int - '0' as int
    else if 'a' <= ch <= 'f' then ch as int - 'a' as int + 10
    else ch as int - 'A' as int + 10
  }

  /** `parseInt(hi + lo, 16)` */
  function ByteValue(hi: char, lo: char): (b: nat)
    requires IsHexDigit(hi) && IsHexDigit(lo)
    ensures IsByte(b)
  {
    16 * DigitValue(hi) + DigitValue(lo)
  }

  /**
   * `/^#?([a-f\d]{2})([a-f\d]{2})([a-f\d]{2})$/i.exec(hex)`: the six
   * captured digits, or None when the string does not match. Backing off
   * the optional '#' never helps, since '#' is not a hex digit.
   */
  function MatchDigits(hex: string): (m: Option<string>)
    ensures m.Some? ==> |m.value| == 6 && forall i :: 0 <= i < 6 ==> IsHexDigit(m.value[i])
    ensures m.Some? <==> |hex| == 6 + (if |hex| > 0 && hex[0] == '#' then 1 else 0)
                         && forall i :: 0 <= i < |hex| && !(i == 0 && hex[0] == '#') ==> IsHexDigit(hex[i])
  {
    var body := if |hex| > 0 && hex[0] == '#' then hex[1..] else hex;
    if |body| == 6 && forall i :: 0 <= i < 6 ==> IsHexDigit(body[i]) then Some(body) else None
  }

  /** The three channel bytes of a matching string. */
  function ParseHex(hex: string): (c: Option<Rgb8>)
    ensures c.Some? ==> IsRgb8(c.value)
    ensures c.Some? <==> MatchDigits(hex).Some?
  {
    match MatchDigits(hex)
    case None => None
    case Some(d) => Some(Rgb8(ByteValue(d[0], d[1]), ByteValue(d[2], d[3]), ByteValue(d[4], d[5])))
  }

  const WHITE: Vec3 := Vec3(1.0, 1.0, 1.0)

  /** `hexToRgb(hex)`: each channel in [0, 1]; white for a string that does not match. */
  function HexToRgb(hex: string): (rgb: Vec3)
    ensures 0.0 <= rgb.x <= 1.0 && 0.0 <= rgb.y <= 1.0 && 0.0 <= rgb.z <= 1.0
    ensures MatchDigits(hex).None? ==> rgb == WHITE
    ensures ParseHex(hex).Some? ==> rgb == Vec3(ParseHex(hex).value.r as real / 255.0,
                                                ParseHex(hex).value.g as real / 255.0,
                                                ParseHex(hex).value.b as real / 255.0)
  {
    match ParseHex(hex)
    case None => WHITE
    case Some(c) => Vec3(c.r as real / 255.0, c.g as real / 255.0, c.b as real / 255.0)
  }

  // ---------------------------------------------------------------------
  // Writing a colour in hex: the reference the parser is checked against

  /** The hex digit of d, in lower or upper case. */
  function HexDigit(d: nat, upper: bool): (ch: char)
    requires d < 16
    ensures IsHexDigit(ch)
  {
    if d < 10 then ('0' as int + d) as char
    else if upper then ('A' as int + d - 10) as char
    else ('a' as int + d - 10) as char
  }

  /** A byte as two hex digits, high digit first. */
  function ByteHex(b: nat, upper: bool): (s: string)
    requires IsByte(b)
    ensures |s| == 2
  {
    [HexDigit(b / 16, upper), HexDigit(b % 16, upper)]
  }

  /** A colour in the six-digit notation, with or without the '#'. */
  function Encode(c: Rgb8, hash: bool, upper: bool): (s: string)
    requires IsRgb8(c)
    ensures |s| == if hash then 7 else 6
  {
    (if hash then "#" else "") + ByteHex(c.r, upper) + ByteHex(c.g, upper) + ByteHex(c.b, upper)
  }

  /** Letter case folded to lower case; other characters unchanged. */
  function LowerChar(ch: char): (l: char)
    ensures IsHexDigit(ch) <==> IsHexDigit(l)
    ensures IsHexDigit(ch) ==> DigitValue(l) == DigitValue(ch)
  {
    if 'A' <= ch <= 'Z' then (ch as int - 'A' as int + 'a' as int) as char else ch
  }

  function Lower(s: string): (l: string)
    ensures |l| == |s|
    ensures forall i :: 0 <= i < |s| ==> l[i] == LowerChar(s[i])
  {
    seq(|s|, i requires 0 <= i < |s| => LowerChar(s[i]))
  }

  lemma DigitRoundTrip(d: nat, upper: bool)
    requires d < 16
    ensures DigitValue(HexDigit(d, upper)) == d
  {
  }

  lemma ByteRoundTrip(b: nat, upper: bool)
    requires IsByte(b)
    ensures var s := ByteHex(b, upper); ByteValue(s[0], s[1]) == b
  {
    DigitRoundTrip(b / 16, upper);
    DigitRoundTrip(b % 16, upper);
  }

  /** Every colour written in the notation, with or without '#', in either case, reads back as itself. */
  lemma ParseEncode(c: Rgb8, hash: bool, upper: bool)
    requires IsRgb8(c)
    ensures ParseHex(Encode(c, hash, upper)) == Some(c)
  {
    var s := Encode(c, hash, upper);
    var body := ByteHex(c.r, upper) + ByteHex(c.g, upper) + ByteHex(c.b, upper);
    assert s == (if hash then "#" else "") + body;
    assert (if hash then s[1..] else s) == body;
    ByteRoundTrip(c.r, upper);
    ByteRoundTrip(c.g, upper);
    ByteRoundTrip(c.b, upper);
  }

  /** Lower case of a hex digit is the lower-case digit of its value. */
  lemma LowerDigit(ch: char)
    requires IsHexDigit(ch)
    ensures LowerChar(ch) == HexDigit(DigitValue(ch), false)
  {
  }

  lemma LowerByte(hi: char, lo: char)
    requires IsHexDigit(hi) && IsHexDigit(lo)
    ensures [LowerChar(hi), LowerChar(lo)] == ByteHex(ByteValue(hi, lo), false)
  {
    var b := ByteValue(hi, lo);
    assert b / 16 == DigitValue(hi) && b % 16 == DigitValue(lo);
    LowerDigit(hi);
    LowerDigit(lo);
  }

  /**
   * The parser accepts nothing but the notation: a string it reads as c is,
   * up to letter case, c written in hex, with the '#' exactly when it is
   * seven characters long.
   */
  lemma ParseOnlyEncodings(hex: string)
    requires ParseHex(hex).Some?
    ensures Lower(hex) == Encode(ParseHex(hex).value, |hex| == 7, false)
  {
    var c := ParseHex(hex).value;
    var d := MatchDigits(hex).value;
    var prefix := if |hex| == 7 then "#" else "";
    assert hex == prefix + d[0..2] + d[2..4] + d[4..6];
    LowerAppend(prefix + d[0..2] + d[2..4], d[4..6]);
    LowerAppend(prefix + d[0..2], d[2..4]);
    LowerAppend(prefix, d[0..2]);
    LowerByte(d[0], d[1]);
    LowerByte(d[2], d[3]);
    LowerByte(d[4], d[5]);
    assert Lower(prefix) == prefix;
    assert Lower(d[0..2]) == [LowerChar(d[0]), LowerChar(d[1])];
    assert Lower(d[2..4]) == [LowerChar(d[2]), LowerChar(d[3])];
    assert Lower(d[4..6]) == [LowerChar(d[4]), LowerChar(d[5])];
  }

  lemma LowerAppend(a: string, b: string)
    ensures Lower(a + b) == Lower(a) + Lower(b)
  {
  }

  /** The `i` flag: the parse does not depend on letter case. */
  lemma ParseIgnoresCase(hex: string)
    ensures ParseHex(Lower(hex)) == ParseHex(hex)
  {
    var l := Lower(hex);
    assert |l| > 0 && l[0] == '#' <==> |hex| > 0 && hex[0] == '#';
    if MatchDigits(hex).Some? {
      var d := MatchDigits(hex).value;
      var ld := MatchDigits(l).value;
      assert forall i :: 0 <= i < 6 ==> ld[i] == LowerChar(d[i]);
    }
  }

  /** The three-digit short form is not read: it gives white. */
  lemma ShortFormIsWhite()
    ensures HexToRgb("#fff") == WHITE
    ensures HexToRgb("") == WHITE
  {
  }

  /** An example of a match: "#FF8800" is (1, 136/255, 0). */
  lemma OrangeExample()
    ensures HexToRgb("#FF8800") == Vec3(1.0, 136.0 / 255.0, 0.0)
  {
    assert MatchDigits("#FF8800") == Some("FF8800");
  }

  // ---------------------------------------------------------------------
  // isPowerOf2

  const TWO_32: int := 0x1_0000_0000

  /** The unsigned reading of the 32-bit pattern `ToInt32` gives an integer value. */
  function Bits32(v: int): (u: nat)
    ensures u < TWO_32
  {
    v % TWO_32
  }

  /** Bitwise and of two naturals, bit by bit from the lowest. */
  function BitAnd(a: nat, b: nat): (r: nat)
    ensures r <= a && r <= b
    decreases a
  {
    if a == 0 || b == 0 then 0
    else 2 * BitAnd(a / 2, b / 2) + (if a % 2 == 1 && b % 2 == 1 then 1 else 0)
  }

  /** `isPowerOf2(value)`: the 32-bit `value & (value - 1)` is zero. */
  function IsPowerOf2(value: int): bool {
    BitAnd(Bits32(value), Bits32(value - 1)) == 0
  }

  /** The reference: n is 1, 2, 4, 8, ... */
  predicate IsPow2(n: nat)
    decreases n
  {
    n == 1 || (n > 1 && n % 2 == 0 && IsPow2(n / 2))
  }

  function Pow2(k: nat): (p: nat)
    ensures p >= 1
  {
    if k == 0 then 1 else 2 * Pow2(k - 1)
  }

  lemma {:induction false} BitAndSelf(a: nat)
    ensures BitAnd(a, a) == a
    decreases a
  {
    if a > 0 {
      BitAndSelf(a / 2);
    }
  }

  /** A positive n has no bit in common with n - 1 exactly when it is a power of two. */
  lemma {:induction false} BitAndPredecessor(n: nat)
    requires n > 0
    ensures BitAnd(n, n - 1) == 0 <==> IsPow2(n)
    decreases n
  {
    if n > 1 {
      if n % 2 == 1 {
        // n - 1 is n with its lowest bit cleared: the two share every higher bit.
        assert (n - 1) / 2 == n / 2;
        BitAndSelf(n / 2);
      } else {
        assert (n - 1) / 2 == n / 2 - 1;
        BitAndPredecessor(n / 2);
      }
    }
  }

  lemma {:induction false} Pow2IsPow2(k: nat)
    ensures IsPow2(Pow2(k))
  {
    if k > 0 {
      Pow2IsPow2(k - 1);
    }
  }

  /**
   * For every value in the range a texture size can take (below 2^32), the
   * test holds exactly for 0 and the powers of two: 0 passes because
   * `0 & -1` is 0.
   */
  lemma IsPowerOf2Correct(value: int)
    requires 0 <= value < TWO_32
    ensures IsPowerOf2(value) <==> value == 0 || IsPow2(value)
  {
    if value == 0 {
      assert Bits32(value) == 0;
      assert !IsPow2(0);
    } else {
      assert Bits32(value) == value && Bits32(value - 1) == value - 1;
      BitAndPredecessor(value);
    }
  }

  /** The powers of two up to 2^31 pass. */
  lemma PowersOfTwoPass(k: nat)
    requires k < 32
    ensures Pow2(k) < TWO_32 ==> IsPowerOf2(Pow2(k))
  {
    Pow2IsPow2(k);
    if Pow2(k) < TWO_32 {
      IsPowerOf2Correct(Pow2(k));
    }
  }

  /** Only the low 32 bits of the value are seen: 2^32 + 6 is judged as 6, and fails like it. */
  lemma WrapAround()
    ensures IsPowerOf2(TWO_32 + 6) == IsPowerOf2(6)
    ensures !IsPowerOf2(6)
  {
    assert Bits32(TWO_32 + 6) == 6;
    assert Bits32(TWO_32 + 5) == 5;
    assert BitAnd(6, 5) == 4;
  }
}
