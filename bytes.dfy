// Machine integers of the emulator (Rust u8 and u16) and the byte-level
// helpers that the fetch and decode steps are built from.
module Bytes {

  /** Rust `u8`. */
  newtype u8 = x: int | 0 <= x < 0x100

  /** Rust `u16`; arithmetic that could leave this range is written out explicitly. */
  newtype u16 = x: int | 0 <= x < 0x1_0000

  /** One 4-bit field of an opcode. */
  newtype nibble = x: int | 0 <= x < 0x10

  /** A 12-bit address operand NNN. */
  type addr = a: u16 | a < 0x1000

  function HighByte(w: u16): u8 {
    (w as int / 0x100) as u8
  }

  function LowByte(w: u16): u8 {
    (w as int % 0x100) as u8
  }

  /** `(hi << 8) | lo`: the big-endian word made of two bytes. */
  function Word(hi: u8, lo: u8): (w: u16)
    ensures HighByte(w) == hi && LowByte(w) == lo
  {
    (hi as int * 0x100 + lo as int) as u16
  }

  lemma DivMod256(n: int, q: int, r: int)
    requires n == 0x100 * q + r && 0 <= r < 0x100
    ensures n / 0x100 == q && n % 0x100 == r
  {
  }

  lemma DivMod16(n: int, q: int, r: int)
    requires n == 0x10 * q + r && 0 <= r < 0x10
    ensures n / 0x10 == q && n % 0x10 == r
  {
  }

  /** Splitting a word assembled from four nibbles gives the nibbles back. */
  lemma NibblesOf(op: u16, d1: nibble, d2: nibble, d3: nibble, d4: nibble)
    requires op as int == d1 as int * 0x1000 + d2 as int * 0x100 + d3 as int * 0x10 + d4 as int
    ensures Nibbles(op) == (d1, d2, d3, d4)
  {
    var hi, lo := d1 as int * 0x10 + d2 as int, d3 as int * 0x10 + d4 as int;
    DivMod256(op as int, hi, lo);
    DivMod16(hi, d1 as int, d2 as int);
    DivMod16(lo, d3 as int, d4 as int);
  }

  /** The four nibbles of an opcode, most significant first. */
  function Nibbles(op: u16): (d: (nibble, nibble, nibble, nibble))
    ensures op as int == d.0 as int * 0x1000 + d.1 as int * 0x100 + d.2 as int * 0x10 + d.3 as int
    ensures HighByte(op) as int == d.0 as int * 0x10 + d.1 as int
    ensures LowByte(op) as int == d.2 as int * 0x10 + d.3 as int
  {
    var hi, lo := HighByte(op) as int, LowByte(op) as int;
    assert op as int == 0x100 * hi + lo;
    assert hi == 0x10 * (hi / 0x10) + hi % 0x10;
    assert lo == 0x10 * (lo / 0x10) + lo % 0x10;
    ((hi / 0x10) as nibble, (hi % 0x10) as nibble, (lo / 0x10) as nibble, (lo % 0x10) as nibble)
  }

  /** `op & 0xFFF`: the three low nibbles. */
  function Low12(op: u16): (a: addr)
    ensures op as int == (Nibbles(op).0 as int) * 0x1000 + a as int
  {
    (Nibbles(op).1 as int * 0x100 + LowByte(op) as int) as addr
  }

  /** Rust `u8::overflowing_add`: the wrapped sum and whether it wrapped. */
  function OverflowingAdd(a: u8, b: u8): (r: (u8, bool))
    ensures r.1 <==> a as int + b as int > 0xFF
    ensures r.0 as int + (if r.1 then 0x100 else 0) == a as int + b as int
  {
    var sum := a as int + b as int;
    if sum >= 0x100 then ((sum - 0x100) as u8, true) else (sum as u8, false)
  }

  /** Rust `u8::overflowing_sub`: the wrapped difference and whether it borrowed. */
  function OverflowingSub(a: u8, b: u8): (r: (u8, bool))
    ensures r.1 <==> a < b
    ensures r.0 as int == a as int - b as int + (if r.1 then 0x100 else 0)
  {
    var diff := a as int - b as int;
    if diff < 0 then ((diff + 0x100) as u8, true) else (diff as u8, false)
  }

  /** Rust `u8::wrapping_add`. */
  function WrappingAdd(a: u8, b: u8): (r: u8)
    ensures r as int == (a as int + b as int) % 0x100
  {
    OverflowingAdd(a, b).0
  }

  /** Rust `u16::wrapping_add`. */
  function WrappingAdd16(a: u16, b: u16): (r: u16)
    ensures r as int == (a as int + b as int) % 0x1_0000
  {
    var sum := a as int + b as int;
    if sum >= 0x1_0000 then (sum - 0x1_0000) as u16 else sum as u16
  }

  /** A flag value for VF. */
  function Flag(b: bool): u8 {
    if b then 1 else 0
  }

  // ---------------------------------------------------------------- bitwise operators

  function Pow2(k: nat): (p: nat)
    ensures p >= 1
  {
    if k == 0 then 1 else 2 * Pow2(k - 1)
  }

  lemma Pow2Eight()
    ensures Pow2(8) == 0x100
  {
  }

  /** A number is its lowest bit plus twice the rest. */
  lemma SplitLowBit(r: int, bit: int, rest: int)
    requires r == bit + 2 * rest && 0 <= bit < 2
    ensures r % 2 == bit && r / 2 == rest
  {
  }

  /** The low k bits of `a & b`, one bit at a time from the least significant end. */
  function AndBits(a: nat, b: nat, k: nat): (r: nat)
    ensures r < Pow2(k)
  {
    if k == 0 then 0
    else (if a % 2 == 1 && b % 2 == 1 then 1 else 0) + 2 * AndBits(a / 2, b / 2, k - 1)
  }

  /** The low k bits of `a | b`. */
  function OrBits(a: nat, b: nat, k: nat): (r: nat)
    ensures r < Pow2(k)
  {
    if k == 0 then 0
    else (if a % 2 == 1 || b % 2 == 1 then 1 else 0) + 2 * OrBits(a / 2, b / 2, k - 1)
  }

  /** The low k bits of `a ^ b`. */
  function XorBits(a: nat, b: nat, k: nat): (r: nat)
    ensures r < Pow2(k)
  {
    if k == 0 then 0
    else (if a % 2 != b % 2 then 1 else 0) + 2 * XorBits(a / 2, b / 2, k - 1)
  }

  lemma {:induction false} AndBitsIdempotent(a: nat, b: nat, k: nat)
    ensures AndBits(AndBits(a, b, k), b, k) == AndBits(a, b, k)
  {
    if k > 0 {
      var bit := if a % 2 == 1 && b % 2 == 1 then 1 else 0;
      SplitLowBit(AndBits(a, b, k), bit, AndBits(a / 2, b / 2, k - 1));
      AndBitsIdempotent(a / 2, b / 2, k - 1);
    }
  }

  lemma {:induction false} OrBitsIdempotent(a: nat, b: nat, k: nat)
    ensures OrBits(OrBits(a, b, k), b, k) == OrBits(a, b, k)
  {
    if k > 0 {
      var bit := if a % 2 == 1 || b % 2 == 1 then 1 else 0;
      SplitLowBit(OrBits(a, b, k), bit, OrBits(a / 2, b / 2, k - 1));
      OrBitsIdempotent(a / 2, b / 2, k - 1);
    }
  }

  lemma {:induction false} XorBitsCancels(a: nat, b: nat, k: nat)
    requires a < Pow2(k)
    ensures XorBits(XorBits(a, b, k), b, k) == a
  {
    if k > 0 {
      var bit := if a % 2 != b % 2 then 1 else 0;
      SplitLowBit(XorBits(a, b, k), bit, XorBits(a / 2, b / 2, k - 1));
      XorBitsCancels(a / 2, b / 2, k - 1);
    }
  }

  lemma {:induction false} AndBitsZero(a: nat, k: nat)
    ensures AndBits(a, 0, k) == 0
  {
    if k > 0 {
      AndBitsZero(a / 2, k - 1);
    }
  }

  lemma {:induction false} AndBitsOnes(a: nat, k: nat)
    requires a < Pow2(k)
    ensures AndBits(a, Pow2(k) - 1, k) == a
  {
    if k > 0 {
      SplitLowBit(Pow2(k) - 1, 1, Pow2(k - 1) - 1);
      AndBitsOnes(a / 2, k - 1);
    }
  }

  lemma {:induction false} AndBitsSelf(a: nat, k: nat)
    requires a < Pow2(k)
    ensures AndBits(a, a, k) == a
  {
    if k > 0 {
      AndBitsSelf(a / 2, k - 1);
    }
  }

  lemma {:induction false} OrBitsSelf(a: nat, k: nat)
    requires a < Pow2(k)
    ensures OrBits(a, a, k) == a
  {
    if k > 0 {
      OrBitsSelf(a / 2, k - 1);
    }
  }

  /** `v >> k`. */
  function Shr(v: nat, k: nat): (r: nat)
    ensures r <= v
  {
    if k == 0 then v else Shr(v / 2, k - 1)
  }

  /** Bit i of v, counted from the least significant end: `(v >> i) & 1 == 1`. */
  predicate TestBit(v: nat, i: nat) {
    Shr(v, i) % 2 == 1
  }

  /** Bit i of `a | b` is set iff bit i of a or of b is. */
  lemma {:induction false} OrBitsBit(a: nat, b: nat, k: nat, i: nat)
    requires i < k
    ensures TestBit(OrBits(a, b, k), i) <==> TestBit(a, i) || TestBit(b, i)
  {
    var bit := if a % 2 == 1 || b % 2 == 1 then 1 else 0;
    SplitLowBit(OrBits(a, b, k), bit, OrBits(a / 2, b / 2, k - 1));
    if i > 0 {
      OrBitsBit(a / 2, b / 2, k - 1, i - 1);
    }
  }

  /** Bit i of `a & b` is set iff bit i of both a and b is. */
  lemma {:induction false} AndBitsBit(a: nat, b: nat, k: nat, i: nat)
    requires i < k
    ensures TestBit(AndBits(a, b, k), i) <==> TestBit(a, i) && TestBit(b, i)
  {
    var bit := if a % 2 == 1 && b % 2 == 1 then 1 else 0;
    SplitLowBit(AndBits(a, b, k), bit, AndBits(a / 2, b / 2, k - 1));
    if i > 0 {
      AndBitsBit(a / 2, b / 2, k - 1, i - 1);
    }
  }

  /** Bit i of `a ^ b` is set iff exactly one of bit i of a and bit i of b is. */
  lemma {:induction false} XorBitsBit(a: nat, b: nat, k: nat, i: nat)
    requires i < k
    ensures TestBit(XorBits(a, b, k), i) <==> TestBit(a, i) != TestBit(b, i)
  {
    var bit := if a % 2 != b % 2 then 1 else 0;
    SplitLowBit(XorBits(a, b, k), bit, XorBits(a / 2, b / 2, k - 1));
    if i > 0 {
      XorBitsBit(a / 2, b / 2, k - 1, i - 1);
    }
  }

  /** Rust `u8 | u8`. */
  function BitOr(a: u8, b: u8): u8 {
    Pow2Eight();
    OrBits(a as nat, b as nat, 8) as u8
  }

  /** Rust `u8 & u8`. */
  function BitAnd(a: u8, b: u8): u8 {
    Pow2Eight();
    AndBits(a as nat, b as nat, 8) as u8
  }

  /** Rust `u8 ^ u8`. */
  function BitXor(a: u8, b: u8): u8 {
    Pow2Eight();
    XorBits(a as nat, b as nat, 8) as u8
  }

  /** Or-ing in the same byte again changes nothing. */
  lemma BitOrIdempotent(a: u8, b: u8)
    ensures BitOr(BitOr(a, b), b) == BitOr(a, b)
  {
    OrBitsIdempotent(a as nat, b as nat, 8);
  }

  /** A byte or-ed or and-ed with itself is unchanged. */
  lemma BitSelf(a: u8)
    ensures BitOr(a, a) == a && BitAnd(a, a) == a
  {
    Pow2Eight();
    OrBitsSelf(a as nat, 8);
    AndBitsSelf(a as nat, 8);
  }

  /** Masking with the same byte again changes nothing. */
  lemma BitAndIdempotent(a: u8, b: u8)
    ensures BitAnd(BitAnd(a, b), b) == BitAnd(a, b)
  {
    AndBitsIdempotent(a as nat, b as nat, 8);
  }

  /** Xor-ing with the same byte twice gives the original back. */
  lemma BitXorCancels(a: u8, b: u8)
    ensures BitXor(BitXor(a, b), b) == a
  {
    Pow2Eight();
    XorBitsCancels(a as nat, b as nat, 8);
  }

  /** The all-zero mask clears a byte; the all-ones mask keeps it. */
  lemma BitAndMasks(a: u8)
    ensures BitAnd(a, 0) == 0 && BitAnd(a, 0xFF) == a
  {
    Pow2Eight();
    AndBitsZero(a as nat, 8);
    AndBitsOnes(a as nat, 8);
  }

  /** The three operators act bit by bit on the eight bits of a byte. */
  lemma BitwiseBits(a: u8, b: u8, i: nat)
    requires i < 8
    ensures TestBit(BitOr(a, b) as nat, i) <==> TestBit(a as nat, i) || TestBit(b as nat, i)
    ensures TestBit(BitAnd(a, b) as nat, i) <==> TestBit(a as nat, i) && TestBit(b as nat, i)
    ensures TestBit(BitXor(a, b) as nat, i) <==> TestBit(a as nat, i) != TestBit(b as nat, i)
  {
    OrBitsBit(a as nat, b as nat, 8, i);
    AndBitsBit(a as nat, b as nat, 8, i);
    XorBitsBit(a as nat, b as nat, 8, i);
  }

  /** `pixels & (0b1000_0000 >> col) != 0`: bit `col` of a sprite row, counted from the most significant bit. */
  predicate SpriteBit(row: u8, col: int)
    requires 0 <= col < 8
  {
    BitAnd(row, Shr(0x80, col) as u8) != 0
  }

  /** Shifting 2^k right by i <= k places gives 2^(k - i). */
  lemma {:induction false} ShrPow2(k: nat, i: nat)
    requires i <= k
    ensures Shr(Pow2(k), i) == Pow2(k - i)
  {
    if i > 0 {
      assert Pow2(k) / 2 == Pow2(k - 1);
      ShrPow2(k - 1, i - 1);
    }
  }

  /** Masking with the single bit 2^j keeps that bit of a and clears the rest. */
  lemma {:induction false} AndBitsPow2(a: nat, j: nat, k: nat)
    requires j < k
    ensures AndBits(a, Pow2(j), k) == if TestBit(a, j) then Pow2(j) else 0
  {
    if j == 0 {
      AndBitsZero(a / 2, k - 1);
    } else {
      assert Pow2(j) % 2 == 0 && Pow2(j) / 2 == Pow2(j - 1);
      AndBitsPow2(a / 2, j - 1, k - 1);
      assert TestBit(a, j) == TestBit(a / 2, j - 1);
    }
  }

  /** Column col of a sprite row is bit 7 - col of the byte: the leftmost pixel is the most significant bit. */
  lemma SpriteBitMsbFirst(row: u8, col: int)
    requires 0 <= col < 8
    ensures SpriteBit(row, col) <==> TestBit(row as nat, 7 - col)
  {
    assert Pow2(7) == 0x80;
    ShrPow2(7, col);
    Pow2Eight();
    AndBitsPow2(row as nat, 7 - col, 8);
  }
}
