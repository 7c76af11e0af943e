/** Machine words of the Intel 8080 interpreter. `byte`, `word` and `dword` stand for
    Rust's `u8`, `u16` and `u32`; they are bounded integers, so every wrap-around of the
    original is written out (`Wrap8`, `Wrap16`) and every non-wrapping operation is a
    range obligation. The bitwise `&` and `^` of the original are `And` and `Xor` below. */
module Word {
  type byte = x: int | 0 <= x < 0x100
  type word = x: int | 0 <= x < 0x1_0000
  type dword = x: int | 0 <= x < 0x1_0000_0000

  /** `wrapping_add` / `wrapping_sub` on `u8`: the sum or difference of two bytes
      reduced modulo 2^8. Such a value is off the range by at most one period. */
  function Wrap8(x: int): (r: byte)
    requires -0x100 <= x < 0x200
  {
    if x < 0 then x + 0x100 else if x < 0x100 then x else x - 0x100
  }

  /** `wrapping_add` / `wrapping_sub` on `u16`, as above modulo 2^16. */
  function Wrap16(x: int): (r: word)
    requires -0x1_0000 <= x < 0x2_0000
  {
    if x < 0 then x + 0x1_0000 else if x < 0x1_0000 then x else x - 0x1_0000
  }

  /** Both wrap-arounds are reduction modulo the word size. */
  lemma WrapIsModulo(x: int)
    ensures -0x100 <= x < 0x200 ==> Wrap8(x) == x % 0x100
    ensures -0x1_0000 <= x < 0x2_0000 ==> Wrap16(x) == x % 0x1_0000
  {
  }

  /** Bitwise and, bit by bit from the least significant end. */
  function And(x: nat, y: nat): (r: nat)
    ensures r <= x && r <= y
  {
    if x == 0 || y == 0 then 0
    else 2 * And(x / 2, y / 2) + (if x % 2 == 1 && y % 2 == 1 then 1 else 0)
  }

  /** Bitwise exclusive or. The result is zero exactly when the operands are equal. */
  function Xor(x: nat, y: nat): (r: nat)
    ensures r == 0 <==> x == y
    decreases x + y
  {
    if x == 0 && y == 0 then 0
    else 2 * Xor(x / 2, y / 2) + (if x % 2 != y % 2 then 1 else 0)
  }

  /** One unfolding of `And`, stated for all operands. */
  lemma AndStep(x: nat, y: nat)
    ensures And(x, y) == 2 * And(x / 2, y / 2) + (if x % 2 == 1 && y % 2 == 1 then 1 else 0)
  {
  }

  /** Masking with 1 keeps bit 0. */
  lemma AndOne(x: nat)
    ensures And(x, 1) == x % 2
  {
    AndStep(x, 1);
  }

  /** Masking with 2^(k+1) keeps bit k+1: one level of the recursion per bit. */
  lemma AndBitUp(x: nat, m: nat)
    requires m > 0
    ensures And(x, 2 * m) == 2 * And(x / 2, m)
  {
    assert (2 * m) % 2 == 0 && (2 * m) / 2 == m;
    AndStep(x, 2 * m);
  }

  /** Masking with 2^(k+1) - 1 keeps bits 0..k. */
  lemma AndLowUp(x: nat, m: nat)
    ensures And(x, 2 * m + 1) == 2 * And(x / 2, m) + x % 2
  {
    assert (2 * m + 1) % 2 == 1 && (2 * m + 1) / 2 == m;
    AndStep(x, 2 * m + 1);
  }

  /** `x & 2`, `x & 4`, …, `x & 128`: a single bit, scaled. */
  lemma AndBit1(x: nat) ensures And(x, 2) == 2 * ((x / 2) % 2)
  {
    AndBitUp(x, 1); AndOne(x / 2);
  }

  lemma AndBit2(x: nat) ensures And(x, 4) == 4 * ((x / 4) % 2)
  {
    AndBitUp(x, 2); AndBit1(x / 2);
    DivTwice(x, 2);
  }

  lemma AndBit3(x: nat) ensures And(x, 8) == 8 * ((x / 8) % 2)
  {
    AndBitUp(x, 4); AndBit2(x / 2);
    DivTwice(x, 4);
  }

  lemma AndBit4(x: nat) ensures And(x, 16) == 16 * ((x / 16) % 2)
  {
    AndBitUp(x, 8); AndBit3(x / 2);
    DivTwice(x, 8);
  }

  lemma AndBit5(x: nat) ensures And(x, 32) == 32 * ((x / 32) % 2)
  {
    AndBitUp(x, 16); AndBit4(x / 2);
    DivTwice(x, 16);
  }

  lemma AndBit6(x: nat) ensures And(x, 64) == 64 * ((x / 64) % 2)
  {
    AndBitUp(x, 32); AndBit5(x / 2);
    DivTwice(x, 32);
  }

  lemma AndBit7(x: nat) ensures And(x, 128) == 128 * ((x / 128) % 2)
  {
    AndBitUp(x, 64); AndBit6(x / 2);
    DivTwice(x, 64);
  }

  /** `x & 3`, `x & 7`, …, `x & 255`: the low bits, that is, a remainder. */
  lemma AndLow2(x: nat) ensures And(x, 3) == x % 4
  {
    AndLowUp(x, 1); AndOne(x / 2); ModDouble(x, 2);
  }

  lemma AndLow3(x: nat) ensures And(x, 7) == x % 8
  {
    AndLowUp(x, 3); AndLow2(x / 2); ModDouble(x, 4);
  }

  lemma AndLow4(x: nat) ensures And(x, 15) == x % 16
  {
    AndLowUp(x, 7); AndLow3(x / 2); ModDouble(x, 8);
  }

  lemma AndLow5(x: nat) ensures And(x, 31) == x % 32
  {
    AndLowUp(x, 15); AndLow4(x / 2); ModDouble(x, 16);
  }

  lemma AndLow6(x: nat) ensures And(x, 63) == x % 64
  {
    AndLowUp(x, 31); AndLow5(x / 2); ModDouble(x, 32);
  }

  lemma AndLow7(x: nat) ensures And(x, 127) == x % 128
  {
    AndLowUp(x, 63); AndLow6(x / 2); ModDouble(x, 64);
  }

  lemma AndLow8(x: nat) ensures And(x, 255) == x % 256
  {
    AndLowUp(x, 127); AndLow7(x / 2); ModDouble(x, 128);
  }

  /** Halving, then dividing by `m`, is dividing by `2 * m`. */
  lemma DivTwice(x: nat, m: nat)
    requires m > 0
    ensures x / 2 / m == x / (2 * m)
  {
    var q := x / 2;
    assert x == 2 * m * (q / m) + (2 * (q % m) + x % 2);
    UniqueMod(x, 2 * m, q / m, 2 * (q % m) + x % 2);
  }

  /** Dividing by `m`, then halving, is dividing by `2 * m`. */
  lemma DivHalf(x: nat, m: nat)
    requires m > 0
    ensures x / m / 2 == x / (2 * m)
  {
    var q := x / m;
    assert x == 2 * m * (q / 2) + (m * (q % 2) + x % m);
    UniqueMod(x, 2 * m, q / 2, m * (q % 2) + x % m);
  }

  /** Two times the remainder of `x / 2`, plus the low bit, is the remainder modulo `2 * m`. */
  lemma ModDouble(x: nat, m: nat)
    requires m > 0
    ensures 2 * ((x / 2) % m) + x % 2 == x % (2 * m)
  {
    var q := x / 2;
    var r := 2 * (q % m) + x % 2;
    assert q == m * (q / m) + q % m;
    assert x == 2 * m * (q / m) + r;
    UniqueMod(x, 2 * m, q / m, r);
  }

  /** Quotient and remainder are determined by any decomposition `x == n * k + r` with
      `r < n`. */
  lemma UniqueMod(x: nat, n: nat, k: nat, r: nat)
    requires n > 0 && x == n * k + r && r < n
    ensures x / n == k && x % n == r
  {
    var d := x / n - k;
    assert n * d == r - x % n;
    if d >= 1 {
      MulGrows(n, d);
    } else if d <= -1 {
      MulGrows(n, -d);
    }
  }

  lemma MulGrows(n: nat, d: int)
    requires d >= 1
    ensures n * d >= n
  {
  }

  /** `x & 192` keeps bits 7 and 6. */
  lemma AndC0(x: nat) ensures And(x, 192) == 64 * ((x / 64) % 4)
  {
    AndBitUp(x, 96); AndBitUp(x / 2, 48); AndBitUp(x / 4, 24);
    AndBitUp(x / 8, 12); AndBitUp(x / 16, 6); AndBitUp(x / 32, 3);
    DivHalf(x, 2); DivHalf(x, 4); DivHalf(x, 8); DivHalf(x, 16); DivHalf(x, 32);
    AndLow2(x / 64);
  }

  /** `x & 56` keeps bits 5, 4 and 3. */
  lemma And38(x: nat) ensures And(x, 56) == 8 * ((x / 8) % 8)
  {
    AndBitUp(x, 28); AndBitUp(x / 2, 14); AndBitUp(x / 4, 7);
    assert x / 2 / 2 == x / 4 && x / 4 / 2 == x / 8;
    AndLow3(x / 8);
  }

  /** `x & 6` keeps bits 2 and 1. */
  lemma AndSix(x: nat) ensures And(x, 6) == 2 * ((x / 2) % 4)
  {
    AndBitUp(x, 3); AndLow2(x / 2);
  }

  /** The big-endian register-pair view, `((high as u16) << 8) + low as u16`. */
  function Pack(high: byte, low: byte): (w: word)
    ensures High(w) == high && Low(w) == low
  {
    high * 256 + low
  }

  /** `(value >> 8) as u8`: the upper byte of a word. */
  function High(w: word): byte
  {
    w / 256
  }

  /** `(value & 255) as u8`: the lower byte of a word; the mask is a remainder, see
      `LowIsMask`. */
  function Low(w: word): byte
  {
    w % 256
  }

  lemma LowIsMask(w: word)
    ensures Low(w) == And(w, 255)
  {
    AndLow8(w);
  }

  /** Splitting a word and packing the halves again gives the word back. */
  lemma PackSplit(w: word)
    ensures Pack(High(w), Low(w)) == w
  {
  }
}
