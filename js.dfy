/**
 * The parts of JavaScript's number and string semantics that the fortune
 * code relies on: 32-bit integer conversion for the bitwise operators, the
 * remainder operator, `Math.abs`, UTF-16 code units (`charCodeAt`) and
 * `String.prototype.trim`.
 */
module Js {

  const TWO_31: int := 0x8000_0000
  const TWO_32: int := 0x1_0000_0000

  predicate IsInt32(x: int)
  {
    -TWO_31 <= x < TWO_31
  }

  /** ECMAScript ToInt32: the signed 32-bit integer congruent to x modulo 2^32. */
  function ToInt32(x: int): (r: int)
    ensures IsInt32(r)
    ensures (r - x) % TWO_32 == 0
  {
    (x + TWO_31) % TWO_32 - TWO_31
  }

  /** ECMAScript ToUint32: the integer in [0, 2^32) congruent to x modulo 2^32. */
  function ToUint32(x: int): (r: int)
    ensures 0 <= r < TWO_32
    ensures (r - x) % TWO_32 == 0
  {
    x % TWO_32
  }

  /** Reads a 32-bit pattern, given as an integer in [0, 2^32), as two's complement. */
  function FromUint32(n: int): (r: int)
    requires 0 <= n < TWO_32
    ensures IsInt32(r)
    ensures (r - n) % TWO_32 == 0
  {
    if n < TWO_31 then n else n - TWO_32
  }

  function Pow2(n: nat): (r: nat)
    ensures r >= 1
  {
    if n == 0 then 1 else 2 * Pow2(n - 1)
  }

  /** `x << n`: the left operand is converted by ToInt32, the shift count is taken modulo 32 and the result is truncated to int32. */
  function ShiftLeft(x: int, n: nat): (r: int)
    ensures IsInt32(r)
  {
    ToInt32(ToInt32(x) * Pow2(n % 32))
  }

  /** The low k bits of `a & b`, for non-negative a and b, computed bit by bit. */
  function AndBits(a: nat, b: nat, k: nat): (r: nat)
    ensures r < Pow2(k)
  {
    if k == 0 then 0
    else (if a % 2 == 1 && b % 2 == 1 then 1 else 0) + 2 * AndBits(a / 2, b / 2, k - 1)
  }

  /** `a & b`: both operands are converted to 32-bit patterns, combined bit by bit, and the pattern is read as int32. */
  function BitAnd(a: int, b: int): (r: int)
    ensures IsInt32(r)
  {
    Pow2At32();
    FromUint32(AndBits(ToUint32(a), ToUint32(b), 32))
  }

  /** `Math.abs` on an integral number (exact: no overflow on doubles of this size). */
  function Abs(x: int): (r: int)
    ensures r >= 0 && (r == x || r == -x)
  {
    if x < 0 then -x else x
  }

  /** The `%` operator on integral numbers: the remainder of division truncated toward zero, taking the sign of the dividend. */
  function Rem(a: int, n: int): (r: int)
    requires n > 0
    ensures a >= 0 ==> 0 <= r < n && r == a % n
    ensures a < 0 ==> -n < r <= 0
  {
    if a >= 0 then a % n else -((-a) % n)
  }

  // ---------------------------------------------------------------------
  // Lemmas about 32-bit truncation
  // ---------------------------------------------------------------------

  /** Two signed 32-bit values that are congruent modulo 2^32 are equal. */
  lemma Int32Unique(r1: int, r2: int)
    requires IsInt32(r1) && IsInt32(r2)
    requires (r1 - r2) % TWO_32 == 0
    ensures r1 == r2
  {
  }

  /** ToInt32 leaves a value that is already a signed 32-bit integer unchanged. */
  lemma ToInt32Id(x: int)
    requires IsInt32(x)
    ensures ToInt32(x) == x
  {
    Int32Unique(ToInt32(x), x);
  }

  /** ToInt32 only depends on its argument modulo 2^32. */
  lemma ToInt32Congruent(a: int, b: int)
    requires (a - b) % TWO_32 == 0
    ensures ToInt32(a) == ToInt32(b)
  {
    var ra, rb := ToInt32(a), ToInt32(b);
    ModSum3(ra - a, a - b, b - rb);
    assert ra - rb == (ra - a) + (a - b) + (b - rb);
    Int32Unique(ra, rb);
  }

  /** Multiples of 2^32 are closed under addition (and negation). */
  lemma ModSum3(x: int, y: int, z: int)
    requires x % TWO_32 == 0 && y % TWO_32 == 0 && (-z) % TWO_32 == 0
    ensures (x + y + z) % TWO_32 == 0
  {
    var qx, qy, qz := x / TWO_32, y / TWO_32, (-z) / TWO_32;
    assert x == TWO_32 * qx;
    assert y == TWO_32 * qy;
    assert -z == TWO_32 * qz;
    assert x + y + z == TWO_32 * (qx + qy - qz);
  }

  lemma Pow2At32()
    ensures Pow2(32) == TWO_32
  {
    Pow2Add16(0);
    Pow2Add16(16);
  }

  lemma Pow2Add16(n: nat)
    ensures Pow2(n + 16) == 0x1_0000 * Pow2(n)
  {
    Pow2Add4(n);
    Pow2Add4(n + 4);
    Pow2Add4(n + 8);
    Pow2Add4(n + 12);
  }

  lemma Pow2Add4(n: nat)
    ensures Pow2(n + 4) == 16 * Pow2(n)
  {
    var k := n + 4;
    assert Pow2(k) == 2 * Pow2(k - 1) == 4 * Pow2(k - 2) == 8 * Pow2(k - 3) == 16 * Pow2(n);
  }

  /** Every bit of a k-bit value survives its AND with itself. */
  lemma {:induction false} AndBitsSelf(a: nat, k: nat)
    requires a < Pow2(k)
    ensures AndBits(a, a, k) == a
  {
    if k > 0 {
      AndBitsSelf(a / 2, k - 1);
    }
  }

  /** `x & x` on a number is its ToInt32 conversion. */
  lemma SelfAnd(x: int)
    ensures BitAnd(x, x) == ToInt32(x)
  {
    var u := ToUint32(x);
    Pow2At32();
    AndBitsSelf(u, 32);
    ModSum3(FromUint32(u) - u, u - x, 0);
    Int32Unique(FromUint32(u), ToInt32(x));
  }

  // ---------------------------------------------------------------------
  // Strings as JavaScript sees them
  // ---------------------------------------------------------------------

  /** A UTF-16 code unit, the value `charCodeAt` returns. */
  predicate IsCodeUnit(u: int)
  {
    0 <= u < 0x1_0000
  }

  /** The UTF-16 code units of one Unicode scalar value: itself below U+10000, a surrogate pair above. */
  function CharUnits(c: char): (u: seq<int>)
    ensures 1 <= |u| <= 2
    ensures forall i :: 0 <= i < |u| ==> IsCodeUnit(u[i])
    ensures (c as int < 0x1_0000) <==> u == [c as int]
  {
    var n := c as int;
    if n < 0x1_0000 then [n]
    else [0xD800 + (n - 0x1_0000) / 0x400, 0xDC00 + (n - 0x1_0000) % 0x400]
  }

  /** The string as JavaScript stores it: the sequence of its UTF-16 code units, indexed by `charCodeAt`. */
  function CodeUnits(s: string): (u: seq<int>)
    ensures |s| <= |u| <= 2 * |s|
    ensures forall i :: 0 <= i < |u| ==> IsCodeUnit(u[i])
  {
    if s == [] then [] else CharUnits(s[0]) + CodeUnits(s[1..])
  }

  /** For text inside the Basic Multilingual Plane (dates, for one) `charCodeAt(i)` is the code of the i-th character. */
  lemma {:induction false} BmpCodeUnits(s: string)
    requires forall i :: 0 <= i < |s| ==> s[i] as int < 0x1_0000
    ensures |CodeUnits(s)| == |s|
    ensures forall i :: 0 <= i < |s| ==> CodeUnits(s)[i] == s[i] as int
  {
    if s != [] {
      BmpCodeUnits(s[1..]);
    }
  }

  /** The characters `trim` removes: ECMAScript WhiteSpace (including every Unicode space separator) and LineTerminator. */
  predicate IsJsSpace(c: char)
  {
    c == '\t' || c == '\n' || c == '\U{000B}' || c == '\U{000C}' || c == '\r' || c == ' '
    || c == '\U{00A0}' || c == '\U{1680}' || ('\U{2000}' <= c <= '\U{200A}')
    || c == '\U{2028}' || c == '\U{2029}' || c == '\U{202F}' || c == '\U{205F}'
    || c == '\U{3000}' || c == '\U{FEFF}'
  }

  /** True when s neither begins nor ends with a character that `trim` removes. */
  predicate IsTrimmed(s: string)
  {
    s == [] || (!IsJsSpace(s[0]) && !IsJsSpace(s[|s| - 1]))
  }

  predicate AllSpace(s: string)
  {
    forall i :: 0 <= i < |s| ==> IsJsSpace(s[i])
  }

  /** Drops the leading white space: the result is the suffix of s after its first non-space character's position. */
  function TrimStart(s: string): (r: string)
    ensures |r| <= |s| && r == s[|s| - |r|..]
    ensures AllSpace(s[..|s| - |r|])
    ensures r == [] || !IsJsSpace(r[0])
  {
    if s != [] && IsJsSpace(s[0]) then TrimStart(s[1..]) else s
  }

  /** Drops the trailing white space: the result is the prefix of s up to its last non-space character. */
  function TrimEnd(s: string): (r: string)
    ensures |r| <= |s| && r == s[..|r|]
    ensures AllSpace(s[|r|..])
    ensures r == [] || !IsJsSpace(r[|r| - 1])
  {
    if s != [] && IsJsSpace(s[|s| - 1]) then TrimEnd(s[..|s| - 1]) else s
  }

  /** `String.prototype.trim`. */
  function Trim(s: string): (r: string)
    ensures IsTrimmed(r)
    ensures |r| <= |s|
  {
    TrimEnd(TrimStart(s))
  }

  lemma {:induction false} TrimStartPadded(w: string, x: string)
    requires AllSpace(w)
    requires x == [] || !IsJsSpace(x[0])
    ensures TrimStart(w + x) == x
  {
    if w != [] {
      assert (w + x)[1..] == w[1..] + x;
      TrimStartPadded(w[1..], x);
    }
  }

  lemma {:induction false} TrimEndPadded(x: string, w: string)
    requires AllSpace(w)
    requires x == [] || !IsJsSpace(x[|x| - 1])
    ensures TrimEnd(x + w) == x
  {
    if w != [] {
      assert (x + w)[..|x + w| - 1] == x + w[..|w| - 1];
      TrimEndPadded(x, w[..|w| - 1]);
    } else {
      assert x + w == x;
    }
  }

  /** `trim` removes exactly the white space around a trimmed core, whatever its amount. */
  lemma TrimPadded(w1: string, x: string, w2: string)
    requires AllSpace(w1) && AllSpace(w2)
    requires IsTrimmed(x)
    ensures Trim(w1 + x + w2) == x
  {
    assert w1 + x + w2 == w1 + (x + w2);
    if x == [] {
      TrimStartPadded(w1 + w2, []);
      assert w1 + x + w2 == (w1 + w2) + [];
      assert TrimEnd([]) == [];
    } else {
      assert (x + w2)[0] == x[0];
      TrimStartPadded(w1, x + w2);
      TrimEndPadded(x, w2);
    }
  }

  /** Trimming twice is trimming once. */
  lemma TrimIdempotent(s: string)
    ensures Trim(Trim(s)) == Trim(s)
  {
    var t := Trim(s);
    TrimPadded([], t, []);
    assert [] + t + [] == t;
  }
}
