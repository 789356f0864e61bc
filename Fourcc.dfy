/**
 * `fourcc_to_str`, shared verbatim by the camera report scripts and the
 * camera lister: the four bytes of an integer FOURCC code, lowest byte
 * first, each turned into the character with that code.
 *
 * Python's `i >> n` on an int is floor division by 2^n and `x & 0xFF` is the
 * non-negative remainder modulo 256, for negative numbers too; Dafny's `/`
 * and `%` with a positive divisor are exactly those.
 */
module Fourcc {
  function Pow2(n: nat): (p: nat)
    ensures p >= 1
  {
    if n == 0 then 1 else 2 * Pow2(n - 1)
  }

  /** Python's `i >> n`. */
  function Shr(i: int, n: nat): int {
    i / Pow2(n)
  }

  /** Python's `x & 0xFF`. */
  function LowByte(x: int): (b: nat)
    ensures b < 256
  {
    x % 256
  }

  /** The code of character `k` of the decoded string: `(i >> 8k) & 0xFF`. */
  function Code(i: int, k: nat): (b: nat)
    ensures b < 256
  {
    LowByte(Shr(i, 8 * k))
  }

  const Width: int := 0x1_0000_0000

  /** `fourcc_to_str(i)` for an integer `i`. */
  function FourccToStr(i: int): (s: string)
    ensures |s| == 4
    ensures forall k :: 0 <= k < 4 ==> s[k] as int == Code(i, k) && s[k] as int < 256
  {
    [Code(i, 0) as char, Code(i, 1) as char, Code(i, 2) as char, Code(i, 3) as char]
  }

  /** A string of four characters of code below 256, as `cv2.VideoWriter_fourcc` reads it. */
  predicate FourBytes(s: string) {
    |s| == 4 && forall k :: 0 <= k < 4 ==> s[k] as int < 256
  }

  /**
   * The integer whose bytes, lowest first, are the character codes of `s`
   * (`cv2.VideoWriter_fourcc`, which the scripts call on "MJPG").
   */
  function FourccValue(s: string): (v: int)
    requires FourBytes(s)
    ensures 0 <= v < Width
  {
    s[0] as int + 256 * s[1] as int + 65536 * s[2] as int + 16777216 * s[3] as int
  }

  lemma Pow2Bytes()
    ensures Pow2(0) == 1 && Pow2(8) == 256 && Pow2(16) == 65536 && Pow2(24) == 16777216
  {
    assert Pow2(8) == 256;
    assert Pow2(16) == 256 * 256 by {
      assert Pow2(16) == 256 * Pow2(8) by {
        assert Pow2(16) == 2 * 2 * 2 * 2 * 2 * 2 * 2 * 2 * Pow2(8);
      }
    }
    assert Pow2(24) == 256 * 65536 by {
      assert Pow2(24) == 2 * 2 * 2 * 2 * 2 * 2 * 2 * 2 * Pow2(16);
    }
  }

  /** The four codes, written with the divisors spelled out. */
  lemma Codes(i: int)
    ensures Code(i, 0) == i % 256
    ensures Code(i, 1) == (i / 256) % 256
    ensures Code(i, 2) == (i / 65536) % 256
    ensures Code(i, 3) == (i / 16777216) % 256
  {
    Pow2Bytes();
  }

  /** Euclidean division by a positive constant is determined by quotient and remainder. */
  lemma DivBy(x: int, d: int, q: int, r: int)
    requires d == 256 || d == 65536 || d == 16777216 || d == Width
    requires x == d * q + r && 0 <= r < d
    ensures x / d == q && x % d == r
  {
  }

  /** Shifting by 8 bits twice is shifting by 16, and three times by 24. */
  lemma ShiftTwice(i: int)
    ensures (i / 256) / 256 == i / 65536
    ensures ((i / 256) / 256) / 256 == i / 16777216
  {
    var q1 := i / 256;
    var q2 := q1 / 256;
    var q3 := q2 / 256;
    DivBy(i, 65536, q2, 256 * (q1 % 256) + i % 256);
    DivBy(i, 16777216, q3, 65536 * (q2 % 256) + 256 * (q1 % 256) + i % 256);
  }

  /** The four codes of `i` are its base-256 digits below 2^32. */
  lemma CodesReassemble(i: int)
    ensures Code(i, 0) + 256 * Code(i, 1) + 65536 * Code(i, 2) + 16777216 * Code(i, 3) == i % Width
  {
    Codes(i);
    ShiftTwice(i);
    var q1 := i / 256;
    var q2 := q1 / 256;
    var q3 := q2 / 256;
    var low := i % 256 + 256 * (q1 % 256) + 65536 * (q2 % 256) + 16777216 * (q3 % 256);
    assert i == 4294967296 * (q3 / 256) + low;
    DivBy(i, Width, q3 / 256, low);
  }

  /**
   * Decoding keeps exactly the low 32 bits: the codes of the four characters
   * reassemble `i` modulo 2^32, for every integer `i`, negative ones included.
   */
  lemma FourccRoundTrip(i: int)
    ensures FourBytes(FourccToStr(i))
    ensures FourccValue(FourccToStr(i)) == i % Width
  {
    CodesReassemble(i);
  }

  /** For a 32-bit code, decoding is lossless. */
  lemma FourccLossless(i: int)
    requires 0 <= i < Width
    ensures FourccValue(FourccToStr(i)) == i
  {
    FourccRoundTrip(i);
    DivBy(i, Width, 0, i);
  }

  /** Two integers with the same four codes decode to the same string. */
  lemma SameCodes(i: int, j: int)
    requires Code(i, 0) == Code(j, 0) && Code(i, 1) == Code(j, 1)
    requires Code(i, 2) == Code(j, 2) && Code(i, 3) == Code(j, 3)
    ensures FourccToStr(i) == FourccToStr(j)
  {
  }

  /** Adding a multiple of 256 leaves the low byte alone. */
  lemma AddMultiple(q: int, m: int)
    ensures (q + 256 * m) % 256 == q % 256
  {
    DivBy(q + 256 * m, 256, q / 256 + m, q % 256);
  }

  /** Bits above the 32nd are ignored: `i` and `i + 2^32` decode to the same string. */
  lemma FourccIgnoresHighBits(i: int)
    ensures FourccToStr(i + Width) == FourccToStr(i)
  {
    Codes(i);
    Codes(i + Width);
    DivBy(i + Width, 256, i / 256 + 16777216, i % 256);
    DivBy(i + Width, 65536, i / 65536 + 65536, i % 65536);
    DivBy(i + Width, 16777216, i / 16777216 + 256, i % 16777216);
    AddMultiple(i, 16777216);
    AddMultiple(i / 256, 65536);
    AddMultiple(i / 65536, 256);
    AddMultiple(i / 16777216, 1);
    SameCodes(i + Width, i);
  }

  /** Encoding a four-byte string and decoding the result gives the string back. */
  lemma FourccOfValue(s: string)
    requires FourBytes(s)
    ensures FourccToStr(FourccValue(s)) == s
  {
    var v := FourccValue(s);
    Codes(v);
    var a, b, c, d := s[0] as int, s[1] as int, s[2] as int, s[3] as int;
    DivBy(v, 256, b + 256 * c + 65536 * d, a);
    DivBy(v, 65536, c + 256 * d, a + 256 * b);
    DivBy(v, 16777216, d, a + 256 * b + 65536 * c);
    DivBy(b + 256 * c + 65536 * d, 256, c + 256 * d, b);
    DivBy(c + 256 * d, 256, d, c);
    DivBy(d, 256, 0, d);
    assert v / 256 % 256 == b && v / 65536 % 256 == c && v / 16777216 % 256 == d;
    var t := FourccToStr(v);
    assert t[0] == s[0] && t[1] == s[1] && t[2] == s[2] && t[3] == s[3];
  }
}
