/**
 * The helpers of defs.h: the byte-split macros LOWBYTE and HIBYTE, the RESULT
 * codes with ISERR and CHECKRESULT, and the C bitwise operators they rest on.
 *
 * C's `&`, `|` and `>>` are modelled on non-negative integers, bit by bit, so
 * that every mask written in the driver is computed the way the C code writes
 * it and its arithmetic meaning is proved rather than assumed.
 */
module Defs {

  /** A byte as `inportb`/`outportb` see it. */
  type byte = x: int | 0 <= x < 256

  datatype Option<T> = None | Some(value: T)

  const RESULT_OK: int := 0
  const RESULT_ERR: int := -1

  function Pow2(k: nat): (r: nat)
    ensures r >= 1
  {
    if k == 0 then 1 else 2 * Pow2(k - 1)
  }

  /** Bit `i` of `a`; bit 0 is the least significant. */
  function Bit(a: nat, i: nat): (r: nat)
    ensures r < 2
  {
    if i == 0 then a % 2 else Bit(a / 2, i - 1)
  }

  /** C's `a & b` on non-negative operands. */
  function BitAnd(a: nat, b: nat): nat
    decreases a
  {
    if a == 0 || b == 0 then 0
    else 2 * BitAnd(a / 2, b / 2) + (if a % 2 == 1 && b % 2 == 1 then 1 else 0)
  }

  /** C's `a | b` on non-negative operands. */
  function BitOr(a: nat, b: nat): nat
    decreases a + b
  {
    if a == 0 then b
    else if b == 0 then a
    else 2 * BitOr(a / 2, b / 2) + (if a % 2 == 1 || b % 2 == 1 then 1 else 0)
  }

  /** C's `a >> k` on a non-negative operand. */
  function Shr(a: nat, k: nat): nat
  {
    var p := Pow2(k);
    QuotientOfNat(a, p);
    a / p
  }

  /** The bit pattern of a 32-bit two's-complement value, read as unsigned. */
  function Bits32(x: int): (r: nat)
    ensures r < 0x1_0000_0000 && (r - x) % 0x1_0000_0000 == 0
  {
    x % 0x1_0000_0000
  }

  /** Conversion of an integer value to `unsigned char` (reduction modulo 2^8),
      which is what `outportb` does to its data argument. */
  function ToUint8(x: int): byte
  {
    x % 256
  }

  /** A value that is already a byte converts to itself. */
  lemma SmallByte(x: int)
    requires 0 <= x < 256
    ensures ToUint8(x) == x
  {
  }

  /** `LOWBYTE(x)`, `(x) & 0xFF`, as bits 0..7 of the 32-bit pattern of `x`.
      LowByteIsMask proves it equal to the masked expression. */
  function LowByte(x: int): nat
  {
    Bits32(x) % 256
  }

  /** `HIBYTE(x)`, `((x) & 0xFF00) >> 8`, as bits 8..15 of the 32-bit pattern
      of `x`. HiByteIsMask proves it equal to the masked and shifted
      expression. */
  function HiByte(x: int): nat
  {
    (Bits32(x) / 256) % 256
  }

  /** `ISERR(result)`: `((int)(result)) < 0`. */
  predicate IsErr(result: int)
  {
    result < 0
  }

  /** Where `CHECKRESULT(expr)` sends control after `result = expr`. */
  datatype Flow = FallThrough | GotoOnError

  /** `CHECKRESULT(expr)`: the value stored in `result` and where control goes. */
  function CheckResult(e: int): (r: (int, Flow))
    ensures r.0 == e
    ensures r.1 == GotoOnError <==> e < 0
  {
    (e, if IsErr(e) then GotoOnError else FallThrough)
  }

  lemma ResultCodes()
    ensures !IsErr(RESULT_OK) && IsErr(RESULT_ERR)
    ensures CheckResult(RESULT_OK).1 == FallThrough && CheckResult(RESULT_ERR).1 == GotoOnError
  {
  }

  // ---------------------------------------------------------------------
  // Division and remainder facts
  // ---------------------------------------------------------------------

  lemma DivModUnique(a: int, d: int, q: int, r: int)
    requires d > 0 && 0 <= r < d && a == d * q + r
    ensures a / d == q && a % d == r
  {
    var q', r' := a / d, a % d;
    assert a == d * q' + r' && 0 <= r' < d;
    if q > q' {
      assert d * q - d * q' == d * (q - q');
      MulAtLeast(d, q - q');
    } else if q < q' {
      assert d * q' - d * q == d * (q' - q);
      MulAtLeast(d, q' - q);
    }
  }

  lemma QuotientOfNat(a: nat, p: nat)
    requires p >= 1
    ensures a / p >= 0
  {
    DivModUnique(a, p, a / p, a % p);
  }

  lemma MulAtLeast(d: int, k: int)
    requires d > 0 && k >= 1
    ensures d * k >= d
  {
  }

  lemma ModDouble(a: nat, p: nat, q: nat)
    requires p > 0 && q == 2 * p
    ensures a % q == 2 * ((a / 2) % p) + a % 2
  {
    var h := a / 2;
    assert a == 2 * h + a % 2;
    assert h == p * (h / p) + h % p;
    assert a == q * (h / p) + (2 * (h % p) + a % 2);
    DivModUnique(a, q, h / p, 2 * (h % p) + a % 2);
  }

  // ---------------------------------------------------------------------
  // Bitwise facts
  // ---------------------------------------------------------------------

  lemma {:induction false} BitOfZero(i: nat)
    ensures Bit(0, i) == 0
  {
    if i > 0 { BitOfZero(i - 1); }
  }

  /** Bit `i` of `a & b` is set iff bit `i` is set in both. */
  lemma {:induction false} BitAndBit(a: nat, b: nat, i: nat)
    ensures Bit(BitAnd(a, b), i) == (if Bit(a, i) == 1 && Bit(b, i) == 1 then 1 else 0)
    decreases a
  {
    if a == 0 || b == 0 {
      BitOfZero(i);
      assert Bit(a, i) == 0 || Bit(b, i) == 0;
    } else {
      var c := BitAnd(a, b);
      var e := if a % 2 == 1 && b % 2 == 1 then 1 else 0;
      assert c == 2 * BitAnd(a / 2, b / 2) + e;
      if i == 0 {
        assert c % 2 == e;
      } else {
        assert c / 2 == BitAnd(a / 2, b / 2);
        BitAndBit(a / 2, b / 2, i - 1);
      }
    }
  }

  /** `a & b` is never larger than `a`. */
  lemma {:induction false} BitAndAtMost(a: nat, b: nat)
    ensures BitAnd(a, b) <= a
    decreases a
  {
    if a != 0 && b != 0 {
      BitAndAtMost(a / 2, b / 2);
    }
  }

  /** Masking with `2^k - 1` keeps the `k` low bits: it is reduction modulo `2^k`. */
  lemma {:induction false} BitAndLowMask(a: nat, k: nat)
    ensures BitAnd(a, Pow2(k) - 1) == a % Pow2(k)
  {
    if k == 0 {
      DivModUnique(a, 1, a, 0);
    } else if a == 0 {
      DivModUnique(0, Pow2(k), 0, 0);
    } else {
      var p := Pow2(k - 1);
      var q := Pow2(k);
      LowMaskStep(a, p, q);
      BitAndLowMask(a / 2, k - 1);
      ModDouble(a, p, q);
    }
  }

  /** One step of BitAnd against the all-ones mask `q - 1`. */
  lemma LowMaskStep(a: nat, p: nat, q: nat)
    requires a > 0 && p > 0 && q == 2 * p
    ensures BitAnd(a, q - 1) == 2 * BitAnd(a / 2, p - 1) + a % 2
  {
    var m := q - 1;
    assert m == 2 * (p - 1) + 1;
    DivModUnique(m, 2, p - 1, 1);
  }

  /** Masking with the sum of two disjoint masks adds the two masked values. */
  lemma {:induction false} BitAndSplit(a: nat, m1: nat, m2: nat)
    requires BitAnd(m1, m2) == 0
    ensures BitAnd(a, m1 + m2) == BitAnd(a, m1) + BitAnd(a, m2)
    decreases a
  {
    if a != 0 && m1 != 0 && m2 != 0 {
      assert !(m1 % 2 == 1 && m2 % 2 == 1) && BitAnd(m1 / 2, m2 / 2) == 0;
      assert (m1 + m2) / 2 == m1 / 2 + m2 / 2;
      BitAndSplit(a / 2, m1 / 2, m2 / 2);
    }
  }

  /** `(a | b) == a + b` when the two share no bit. */
  lemma {:induction false} BitOrDisjoint(a: nat, b: nat)
    requires BitAnd(a, b) == 0
    ensures BitOr(a, b) == a + b
    decreases a + b
  {
    if a != 0 && b != 0 {
      assert !(a % 2 == 1 && b % 2 == 1) && BitAnd(a / 2, b / 2) == 0;
      BitOrDisjoint(a / 2, b / 2);
    }
  }

  /** `x & 0xFFFF0000` rounds a 32-bit value down to a multiple of 64 KiB. */
  lemma HighHalfMask(x: nat)
    requires x < 0x1_0000_0000
    ensures BitAnd(x, 0xFFFF0000) == x - x % 0x10000
  {
    Pow2Values();
    MaskSplit(x, 16, 16, 0x1_0000, 0x1_0000_0000, 0xFFFF_0000);
    DivModUnique(x, 0x1_0000_0000, 0, x);
  }

  /** `x & 0xFFFF` is `x` modulo 64 KiB. */
  lemma LowHalfMask(x: nat)
    ensures BitAnd(x, 0xFFFF) == x % 0x10000
  {
    Pow2Values();
    BitAndLowMask(x, 16);
  }

  lemma Pow2Values()
    ensures Pow2(1) == 2 && Pow2(2) == 4 && Pow2(8) == 0x100
    ensures Pow2(16) == 0x1_0000 && Pow2(24) == 0x100_0000 && Pow2(32) == 0x1_0000_0000
  {
    assert Pow2(2) == 4;
    assert Pow2(4) == 16;
    assert Pow2(8) == 0x100;
    assert Pow2(16) == 0x1_0000;
    assert Pow2(24) == 0x100_0000;
    assert Pow2(32) == 0x1_0000_0000;
  }

  // ---------------------------------------------------------------------
  // LOWBYTE and HIBYTE
  // ---------------------------------------------------------------------

  /** LOWBYTE is what C computes with `(x) & 0xFF`. */
  lemma LowByteIsMask(x: int)
    ensures LowByte(x) == BitAnd(Bits32(x), 0xFF)
  {
    Pow2Values();
    BitAndLowMask(Bits32(x), 8);
  }

  /** HIBYTE is what C computes with `((x) & 0xFF00) >> 8`. */
  lemma HiByteIsMask(x: int)
    ensures HiByte(x) == Shr(BitAnd(Bits32(x), 0xFF00), 8)
  {
    Pow2Values();
    MaskedByte(Bits32(x), 8);
  }

  /** LOWBYTE is a byte, and it is the value modulo 256 (for negative values
      too, since it reads the two's-complement pattern). */
  lemma LowByteIsMod256(x: int)
    ensures LowByte(x) == x % 256 && LowByte(x) < 256
  {
    var u := Bits32(x);
    var q := (x - u) / 0x1_0000_0000;
    assert x == 0x1_0000_0000 * q + u;
    DivModUnique(u, 256, u / 256, u % 256);
    DivModUnique(x, 256, 0x100_0000 * q + u / 256, u % 256);
  }

  /** HIBYTE is bits 8..15 of the value: nothing else influences it. */
  lemma HiByteIsBits8To15(x: int)
    ensures HiByte(x) == (x / 256) % 256 && HiByte(x) < 256
  {
    var u := Bits32(x);
    var h := (u / 256) % 256;
    var q := (x - u) / 0x1_0000_0000;
    assert x == 0x1_0000_0000 * q + u;
    DivModUnique(u, 256, u / 256, u % 256);
    DivModUnique(x, 256, 0x100_0000 * q + u / 256, u % 256);
    DivModUnique(u / 256, 256, (u / 256) / 256, h);
    DivModUnique(x / 256, 256, 0x1_0000 * q + (u / 256) / 256, h);
  }

  lemma {:induction false} Pow2Add(a: nat, b: nat)
    ensures Pow2(a + b) == Pow2(a) * Pow2(b)
  {
    if a > 0 {
      Pow2Add(a - 1, b);
    }
  }

  /** `(x & (0xFF << k)) >> k` is the byte of `x` that starts at bit `k`. */
  lemma MaskedByte(u: nat, k: nat)
    ensures Shr(BitAnd(u, 255 * Pow2(k)), k) == (u / Pow2(k)) % 256
  {
    var p := Pow2(k);
    var b := (u / p) % 256;
    assert BitAnd(u, 255 * p) == u % (256 * p) - u % p by {
      ByteMaskSplit(u, k);
    }
    ByteOfQuotient(u, p);
    DivModUnique(p * b, p, b, 0);
  }

  /** `x & (0xFF << k)` is what remains of `x` modulo `2^(k+8)` once its low
      `k` bits are removed. */
  lemma ByteMaskSplit(u: nat, k: nat)
    ensures BitAnd(u, 255 * Pow2(k)) == u % (256 * Pow2(k)) - u % Pow2(k)
  {
    var p := Pow2(k);
    assert Pow2(k + 8) == 256 * p by {
      Pow2Add(k, 8);
      Pow2Values();
    }
    MaskSplit(u, k, 8, p, 256 * p, 255 * p);
  }

  /** Masking with bits `k .. k+n-1` (the mask `hi - lo`, with `lo == 2^k` and
      `hi == 2^(k+n)`) keeps what remains of `x` modulo `hi` once its low `k`
      bits are removed. */
  lemma MaskSplit(u: nat, k: nat, n: nat, lo: nat, hi: nat, mask: nat)
    requires lo == Pow2(k) && hi == Pow2(k + n) && mask == hi - lo
    ensures BitAnd(u, mask) == u % hi - u % lo
  {
    assert BitAnd(mask, lo - 1) == 0 by {
      HighMaskIsMultiple(k, n, lo, hi, mask);
      LowMaskOf(mask, k, lo, lo - 1);
    }
    BitAndSplit(u, mask, lo - 1);
    LowMaskOf(u, k + n, hi, mask + (lo - 1));
    LowMaskOf(u, k, lo, lo - 1);
  }

  /** The mask of bits `k .. k+n-1` is a multiple of `2^k`. */
  lemma HighMaskIsMultiple(k: nat, n: nat, lo: nat, hi: nat, mask: nat)
    requires lo == Pow2(k) && hi == Pow2(k + n) && mask == hi - lo
    ensures mask % lo == 0
  {
    var t := Pow2(n);
    Pow2Add(k, n);
    assert mask == lo * (t - 1) by {
      MulPred(lo, t);
    }
    DivModUnique(mask, lo, t - 1, 0);
  }

  lemma MulPred(a: int, t: int)
    ensures a * t - a == a * (t - 1)
  {
  }

  /** `a >> k` is the quotient by `2^k`, passed by name. */
  lemma ShrIsQuotient(a: nat, k: nat, p: nat)
    requires p == Pow2(k)
    ensures Shr(a, k) == a / p
  {
  }

  /** BitAndLowMask with the modulus and the mask passed by name. */
  lemma LowMaskOf(u: nat, k: nat, p: nat, m: nat)
    requires p == Pow2(k) && m == p - 1
    ensures BitAnd(u, m) == u % p
  {
    BitAndLowMask(u, k);
    assert BitAnd(u, Pow2(k) - 1) == u % Pow2(k);
    assert Pow2(k) - 1 == m;
  }

  /** The byte of `u` that starts at place value `p`, as remainders. */
  lemma ByteOfQuotient(u: nat, p: nat)
    requires p > 0
    ensures u % (256 * p) - u % p == p * ((u / p) % 256)
  {
    var q := u / p;
    var r := u % p;
    var t := q / 256;
    var b := q % 256;
    assert u == p * q + r;
    assert q == 256 * t + b;
    MulSpread(p, t, b);
    MulBelow(p, b);
    DivModUnique(u, 256 * p, t, p * b + r);
  }

  lemma MulSpread(p: int, t: int, b: int)
    ensures p * (256 * t + b) == (256 * p) * t + p * b
  {
  }

  lemma MulBelow(p: nat, b: nat)
    requires b < 256
    ensures p * b <= p * 255
  {
  }

  /** HIBYTE and LOWBYTE of a 16-bit value reconstruct it. */
  lemma ByteSplitRoundTrip(x: int)
    requires 0 <= x < 0x10000
    ensures HiByte(x) * 256 + LowByte(x) == x
  {
    LowByteIsMod256(x);
    HiByteIsBits8To15(x);
    var h := x / 256;
    DivModUnique(x, 256, h, x % 256);
    DivModUnique(h, 256, 0, h);
  }

  /** What `outportb` receives for HIBYTE and LOWBYTE: bits 8..15 and bits
      0..7 of the value. */
  lemma SentBytes(x: int)
    ensures ToUint8(HiByte(x)) == (x / 256) % 256 && ToUint8(LowByte(x)) == x % 256
  {
    LowByteIsMod256(x);
    HiByteIsBits8To15(x);
  }

  /** Splitting the 16-bit value made of two bytes gives back those bytes. */
  lemma ByteSplitOfBytes(h: int, l: int)
    requires 0 <= h < 256 && 0 <= l < 256
    ensures HiByte(h * 256 + l) == h && LowByte(h * 256 + l) == l
  {
    var x := h * 256 + l;
    LowByteIsMod256(x);
    HiByteIsBits8To15(x);
    DivModUnique(x, 256, h, l);
    assert x / 256 == h && x % 256 == l;
  }

  // ---------------------------------------------------------------------
  // Single-bit masks: `~(1 << b)`
  // ---------------------------------------------------------------------

  /** Every bit of `2^w - 1` below `w` is set, and none above. */
  lemma {:induction false} BitOfAllOnes(w: nat, i: nat)
    ensures Bit(Pow2(w) - 1, i) == (if i < w then 1 else 0)
  {
    if w == 0 {
      BitOfZero(i);
    } else if i > 0 {
      assert (Pow2(w) - 1) / 2 == Pow2(w - 1) - 1;
      BitOfAllOnes(w - 1, i - 1);
    }
  }

  /** `~(1 << b)` in a `w`-bit word: every bit below `w` except bit `b`. */
  lemma {:induction false} Pow2Below(b: nat, w: nat)
    requires b < w
    ensures Pow2(b) < Pow2(w) && Pow2(w) - 1 - Pow2(b) >= 0
  {
    if b + 1 < w { Pow2Below(b, w - 1); }
  }

  lemma {:induction false} BitOfAllButOne(w: nat, b: nat, i: nat)
    requires b < w && Pow2(b) < Pow2(w)
    ensures Bit(Pow2(w) - 1 - Pow2(b), i) == (if i < w && i != b then 1 else 0)
  {
    if i > 0 {
      if b == 0 {
        HalveAllButOne(w, b);
        BitOfAllOnes(w - 1, i - 1);
      } else {
        Pow2Below(b - 1, w - 1);
        HalveAllButOne(w, b);
        BitOfAllButOne(w - 1, b - 1, i - 1);
      }
    }
  }

  lemma HalveAllButOne(w: nat, b: nat)
    requires b < w && Pow2(b) < Pow2(w)
    ensures b == 0 ==> (Pow2(w) - 1 - Pow2(b)) / 2 == Pow2(w - 1) - 1
    ensures b > 0 ==> (Pow2(w) - 1 - Pow2(b)) / 2 == Pow2(w - 1) - 1 - Pow2(b - 1)
  {
  }

  /** No bit at or above `i` is set in a value below `2^i`. */
  lemma {:induction false} BitAboveWidth(a: nat, w: nat, i: nat)
    requires a < Pow2(w) && w <= i
    ensures Bit(a, i) == 0
  {
    if w == 0 {
      assert a == 0;
      BitOfZero(i);
    } else {
      BitAboveWidth(a / 2, w - 1, i - 1);
    }
  }

  /** Two values whose bits agree everywhere below `w`, both below `2^w`, are equal. */
  lemma {:induction false} BitsDetermine(a: nat, b: nat, w: nat)
    requires a < Pow2(w) && b < Pow2(w)
    requires forall i :: 0 <= i < w ==> Bit(a, i) == Bit(b, i)
    ensures a == b
  {
    if w > 0 {
      assert Bit(a, 0) == Bit(b, 0);
      forall i | 0 <= i < w - 1
        ensures Bit(a / 2, i) == Bit(b / 2, i)
      {
        assert Bit(a, i + 1) == Bit(b, i + 1);
      }
      BitsDetermine(a / 2, b / 2, w - 1);
    }
  }
}
