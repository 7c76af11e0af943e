/** The register file, flags and helper operations of the CPU, as functions on a value
    `State`. The imperative `Processor.CPU` class is proved against these functions. */
module Cpu {
  import opened Word
  import opened Memory

  /** Everything the CPU owns: seven 8-bit registers, `pc`, `sp`, five flags, the
      interrupt latch and the contents of the bus. */
  datatype State = State(
    a: byte, b: byte, c: byte, d: byte, e: byte, h: byte, l: byte,
    pc: word, sp: word,
    sign: bool, zero: bool, parity: bool, carry: bool, halfCarry: bool,
    interruptsEnabled: bool,
    mem: Image)

  /** `CPU::build`: every register 0xFF, every flag and the latch set, `pc` 0, `sp` 0xFFFF;
      the bus is taken over as it is. */
  function Build(mem: Image): (s: State)
    ensures s.a == s.b == s.c == s.d == s.e == s.h == s.l == 0xFF
    ensures s.pc == 0 && s.sp == 0xFFFF
    ensures s.sign && s.zero && s.parity && s.carry && s.halfCarry && s.interruptsEnabled
    ensures s.mem == mem
  {
    State(0xFF, 0xFF, 0xFF, 0xFF, 0xFF, 0xFF, 0xFF, 0, 0xFFFF,
          true, true, true, true, true, true, mem)
  }

  // Register pairs: views over two registers, never separate storage.

  function GetBC(s: State): (v: word)
    ensures v == s.b * 256 + s.c
    ensures High(v) == s.b && Low(v) == s.c
  {
    Pack(s.b, s.c)
  }

  function SetBC(s: State, v: word): (r: State)
    ensures GetBC(r) == v
    ensures r == s.(b := r.b, c := r.c)
  {
    s.(b := High(v), c := Low(v))
  }

  function GetDE(s: State): (v: word)
    ensures v == s.d * 256 + s.e
    ensures High(v) == s.d && Low(v) == s.e
  {
    Pack(s.d, s.e)
  }

  function SetDE(s: State, v: word): (r: State)
    ensures GetDE(r) == v
    ensures r == s.(d := r.d, e := r.e)
  {
    s.(d := High(v), e := Low(v))
  }

  function GetHL(s: State): (v: word)
    ensures v == s.h * 256 + s.l
    ensures High(v) == s.h && Low(v) == s.l
  {
    Pack(s.h, s.l)
  }

  function SetHL(s: State, v: word): (r: State)
    ensures GetHL(r) == v
    ensures r == s.(h := r.h, l := r.l)
  {
    s.(h := High(v), l := Low(v))
  }

  /** Writing a pair with the value it already reads leaves the state unchanged. */
  lemma SetOwnPair(s: State)
    ensures SetBC(s, GetBC(s)) == s && SetDE(s, GetDE(s)) == s && SetHL(s, GetHL(s)) == s
  {
  }

  // Flag updaters. Each one changes exactly one flag.

  /** `x as i32` for a `u32`: the two's-complement reading of the same 32 bits. */
  function AsI32(x: dword): (i: int)
    ensures -0x8000_0000 <= i < 0x8000_0000
    ensures i % 0x1_0000_0000 == x
  {
    if x < 0x8000_0000 then x else x - 0x1_0000_0000
  }

  /** `update_sign_flag`: the sign is that of the 32-bit result, so it is set exactly when
      bit 31 is; no 8-bit result sets it. */
  function UpdateSignFlag(s: State, result: dword): (r: State)
    ensures r.sign <==> result >= 0x8000_0000
    ensures result < 0x100 ==> !r.sign
    ensures r == s.(sign := r.sign)
  {
    s.(sign := AsI32(result) < 0)
  }

  /** `update_zero_flag`. */
  function UpdateZeroFlag(s: State, result: dword): (r: State)
    ensures r.zero <==> result == 0
    ensures r == s.(zero := r.zero)
  {
    s.(zero := result == 0)
  }

  /** `result as u8`: truncation to the low byte. */
  function LowByte(x: dword): (r: byte)
    ensures x < 0x100 ==> r == x
  {
    x % 0x100
  }

  /** The per-bit test of `update_parity_flag` as written: `(v & 2 ^ i) > 0` parses as
      `((v & 2) ^ i) > 0`. */
  predicate ParityTest(v: byte, i: nat)
  {
    Xor(And(v, 2), i) > 0
  }

  /** The value of the counter after the loop of `update_parity_flag` has run for
      `i` = 0 .. n-1. */
  function ParityCount(v: byte, n: nat): nat
  {
    if n == 0 then 0 else ParityCount(v, n - 1) + (if ParityTest(v, n - 1) then 1 else 0)
  }

  /** The test fails only for the index `v & 2` (0 or 2), so after `n` iterations the
      counter is `n` less one once that index is past. */
  lemma {:induction false} ParityCountValue(v: byte, n: nat)
    ensures ParityCount(v, n) == n - (if n > And(v, 2) then 1 else 0)
  {
    AndBit1(v);
    if n > 0 {
      ParityCountValue(v, n - 1);
    }
  }

  /** The loop counts 7 for every input, an odd number. */
  lemma ParityCountIsSeven(v: byte)
    ensures ParityCount(v, 8) == 7
  {
    ParityCountValue(v, 8);
    AndBit1(v);
  }

  /** `update_parity_flag`: only the low byte of the result is looked at, and as written
      the counter always ends at 7, so the flag is cleared for every input. */
  function UpdateParityFlag(s: State, result: dword): (r: State)
    ensures !r.parity
    ensures r == s.(parity := r.parity)
  {
    var v := LowByte(result);
    ParityCountIsSeven(v);
    s.(parity := ParityCount(v, 8) % 2 == 0)
  }

  /** `update_carry_flag_16`: the sum, taken in `i32` where it cannot overflow, exceeds
      0xFFFF exactly when the wrapped 16-bit sum is smaller than an operand. */
  function UpdateCarryFlag16(s: State, x: word, y: word): (r: State)
    ensures r.carry <==> Wrap16(x + y) < x
    ensures r == s.(carry := r.carry)
  {
    s.(carry := x + y > 0xFFFF)
  }

  /** `update_carry_flag_8`: as above for bytes. */
  function UpdateCarryFlag8(s: State, x: byte, y: byte): (r: State)
    ensures r.carry <==> Wrap8(x + y) < x
    ensures r == s.(carry := r.carry)
  {
    s.(carry := x + y > 255)
  }

  /** `update_half_carry`: the mask is 7, so this is the carry out of the low THREE bits
      into bit 3: the 3-bit sum wraps below an operand. */
  function UpdateHalfCarry(s: State, x: byte, y: byte): (r: State)
    ensures r.halfCarry <==> Wrap8(x + y) % 8 < x % 8
    ensures r == s.(halfCarry := r.halfCarry)
  {
    AndLow3(x);
    AndLow3(y);
    LowBitsOfSum(x, y);
    s.(halfCarry := And(x, 7) + And(y, 7) > 7)
  }

  /** The low three bits of a wrapped byte sum are the wrapped sum of the low three bits. */
  lemma LowBitsOfSum(x: byte, y: byte)
    ensures Wrap8(x + y) % 8 == (x % 8 + y % 8) % 8
  {
    var low := x % 8 + y % 8;
    if x + y < 0x100 {
      UniqueMod(Wrap8(x + y), 8, x / 8 + y / 8 + low / 8, low % 8);
    } else {
      UniqueMod(Wrap8(x + y), 8, x / 8 + y / 8 + low / 8 - 32, low % 8);
    }
  }

  /** `update_borrow_16`: the wrapped difference exceeds the minuend exactly when the
      subtraction borrowed. */
  function UpdateBorrow16(s: State, x: word, y: word): (r: State)
    ensures r.carry <==> Wrap16(x - y) > x
    ensures r == s.(carry := r.carry)
  {
    s.(carry := x < y)
  }

  /** `update_borrow_8`: as above for bytes. */
  function UpdateBorrow8(s: State, x: byte, y: byte): (r: State)
    ensures r.carry <==> Wrap8(x - y) > x
    ensures r == s.(carry := r.carry)
  {
    s.(carry := x < y)
  }

  /** `update_half_borrow`: compares bit 3 only, so it is set exactly when bit 3 of `x`
      is clear and bit 3 of `y` is set. */
  function UpdateHalfBorrow(s: State, x: byte, y: byte): (r: State)
    ensures r.halfCarry <==> (x / 8) % 2 == 0 && (y / 8) % 2 == 1
    ensures r == s.(halfCarry := r.halfCarry)
  {
    AndBit3(x);
    AndBit3(y);
    s.(halfCarry := And(x, 8) < And(y, 8))
  }

  // Memory access through the bus.

  /** `read_8`. */
  function Read8(s: State, address: word): byte
  {
    Read(s.mem, address)
  }

  /** `write_8`: only the addressed cell of the bus changes. */
  function Write8(s: State, address: word, value: byte): (r: State)
    ensures Read8(r, address) == value
    ensures forall i :: 0 <= i < SIZE && i != Loc(address) ==> r.mem[i] == s.mem[i]
    ensures r == s.(mem := r.mem)
  {
    s.(mem := Write(s.mem, address, value))
  }

  /** `fetch`: the byte under `pc`; `pc` advances by one, wrapping. */
  function Fetch(s: State): (State, byte)
  {
    (s.(pc := Wrap16(s.pc + 1)), Read(s.mem, s.pc))
  }

  /** `fetch_16`: two fetches, the first giving the low byte; little-endian. */
  function Fetch16(s: State): (rv: (State, word))
    ensures rv.1 == Pack(Read(s.mem, Wrap16(s.pc + 1)), Read(s.mem, s.pc))
    ensures rv.0 == s.(pc := Wrap16(s.pc + 2))
  {
    var (s1, low) := Fetch(s);
    var (s2, high) := Fetch(s1);
    (s2, high * 256 + low)
  }

  /** `read_16`: returns (high, low), the low byte read at `address`. `address + 1` does
      not wrap in the original, so `address` must be below 0xFFFF. */
  function Read16(s: State, address: word): (byte, byte)
    requires address < 0xFFFF
  {
    (Read(s.mem, address + 1), Read(s.mem, address))
  }

  /** `write_16`: stores `value.1` at `address` and `value.0` at `address + 1`; no other
      cell changes. */
  function Write16(s: State, address: word, value: (byte, byte)): (r: State)
    requires address < 0xFFFF
    ensures Read(r.mem, address) == value.1 && Read(r.mem, address + 1) == value.0
    ensures forall i :: 0 <= i < SIZE && i != Loc(address) && i != Loc(address + 1) ==> r.mem[i] == s.mem[i]
    ensures r == s.(mem := r.mem)
  {
    NeighboursDistinct(address);
    s.(mem := Write(Write(s.mem, address, value.1), address + 1, value.0))
  }

  /** A 16-bit write read back at the same address gives the same pair. */
  lemma Read16AfterWrite16(s: State, address: word, value: (byte, byte))
    requires address < 0xFFFF
    ensures Read16(Write16(s, address, value), address) == value
  {
  }

  /** `push`: `sp - 1` and `sp - 2` do not wrap in the original, so `sp` must be at least 2.
      The second component goes to `sp - 1`, the first to `sp - 2`, and `sp` drops by 2. */
  function Push(s: State, value: (byte, byte)): (r: State)
    requires s.sp >= 2
    ensures Read(r.mem, s.sp - 1) == value.1 && Read(r.mem, s.sp - 2) == value.0
    ensures forall i :: 0 <= i < SIZE && i != Loc(s.sp - 1) && i != Loc(s.sp - 2) ==> r.mem[i] == s.mem[i]
    ensures r.sp == s.sp - 2
    ensures r == s.(mem := r.mem, sp := r.sp)
  {
    NeighboursDistinct(s.sp - 2);
    var m := Write(Write(s.mem, s.sp - 1, value.1), s.sp - 2, value.0);
    s.(mem := m, sp := Wrap16(s.sp - 2))
  }

  /** `pop`: `sp + 1` does not wrap in the original, so `sp` must be below 0xFFFF. Returns
      (byte at `sp + 1`, byte at `sp`) and raises `sp` by 2, wrapping. */
  function Pop(s: State): (rv: (State, (byte, byte)))
    requires s.sp < 0xFFFF
    ensures rv.1 == (Read(s.mem, s.sp + 1), Read(s.mem, s.sp))
    ensures rv.0 == s.(sp := Wrap16(s.sp + 2))
  {
    var value := (Read(s.mem, s.sp + 1), Read(s.mem, s.sp));
    (s.(sp := Wrap16(s.sp + 2)), value)
  }

  /** Popping straight after a push restores `sp` and keeps the pushed memory, but the
      pair comes back with its halves swapped. */
  lemma PopAfterPush(s: State, high: byte, low: byte)
    requires s.sp >= 2
    ensures Push(s, (high, low)).sp < 0xFFFF
    ensures Pop(Push(s, (high, low))) == (Push(s, (high, low)).(sp := s.sp), (low, high))
  {
  }

  // The flag byte of the Program Status Word.

  /** `flag as u8`. */
  function Bit(f: bool): byte
  {
    if f then 1 else 0
  }

  /** `psw_get_flags`: bit 7 sign, 6 zero, 4 half carry, 2 parity, 0 carry; bit 1 is
      always set and bits 5 and 3 always clear. */
  function PswGetFlags(s: State): (v: byte)
    ensures And(v, 128) == 128 <==> s.sign
    ensures And(v, 64) == 64 <==> s.zero
    ensures And(v, 32) == 0
    ensures And(v, 16) == 16 <==> s.halfCarry
    ensures And(v, 8) == 0
    ensures And(v, 4) == 4 <==> s.parity
    ensures And(v, 2) == 2
    ensures And(v, 1) == 1 <==> s.carry
  {
    var v := Bit(s.sign) * 128 + Bit(s.zero) * 64 + Bit(s.halfCarry) * 16 + Bit(s.parity) * 4 + 2 + Bit(s.carry);
    FlagByteBits(Bit(s.sign), Bit(s.zero), Bit(s.halfCarry), Bit(s.parity), Bit(s.carry));
    AndBit7(v); AndBit6(v); AndBit5(v); AndBit4(v); AndBit3(v); AndBit2(v); AndBit1(v); AndOne(v);
    v
  }

  /** Bit by bit, what the flag byte built from the bits `S`, `Z`, `H`, `P`, `C` holds. */
  lemma FlagByteBits(S: byte, Z: byte, H: byte, P: byte, C: byte)
    requires S < 2 && Z < 2 && H < 2 && P < 2 && C < 2
    ensures var v := S * 128 + Z * 64 + H * 16 + P * 4 + 2 + C;
      (v / 128) % 2 == S && (v / 64) % 2 == Z && (v / 32) % 2 == 0 && (v / 16) % 2 == H &&
      (v / 8) % 2 == 0 && (v / 4) % 2 == P && (v / 2) % 2 == 1 && v % 2 == C
  {
    var v := S * 128 + Z * 64 + H * 16 + P * 4 + 2 + C;
    UniqueMod(v, 128, S, Z * 64 + H * 16 + P * 4 + 2 + C);
    UniqueMod(v, 64, 2 * S + Z, H * 16 + P * 4 + 2 + C);
    UniqueMod(v, 32, 4 * S + 2 * Z, H * 16 + P * 4 + 2 + C);
    UniqueMod(v, 16, 8 * S + 4 * Z + H, P * 4 + 2 + C);
    UniqueMod(v, 8, 16 * S + 8 * Z + 2 * H, P * 4 + 2 + C);
    UniqueMod(v, 4, 32 * S + 16 * Z + 4 * H + P, 2 + C);
    UniqueMod(v, 2, 64 * S + 32 * Z + 8 * H + 2 * P + 1, C);
  }

  /** `psw_set_flags`: reads the five flags from their bit positions and ignores bits
      5, 3 and 1; nothing but the flags changes. */
  function PswSetFlags(s: State, v: byte): (r: State)
    ensures r.sign <==> v >= 128
    ensures r.zero <==> (v / 64) % 2 == 1
    ensures r.halfCarry <==> (v / 16) % 2 == 1
    ensures r.parity <==> (v / 4) % 2 == 1
    ensures r.carry <==> v % 2 == 1
    ensures r == s.(sign := r.sign, zero := r.zero, halfCarry := r.halfCarry, parity := r.parity, carry := r.carry)
  {
    AndBit7(v); AndBit6(v); AndBit4(v); AndBit2(v); AndOne(v);
    s.(sign := And(v, 128) == 128, zero := And(v, 64) == 64, halfCarry := And(v, 16) == 16,
       parity := And(v, 4) == 4, carry := And(v, 1) == 1)
  }

  /** Restoring the flag byte that was just read leaves the whole state unchanged. */
  lemma PswSetGet(s: State)
    ensures PswSetFlags(s, PswGetFlags(s)) == s
  {
  }

  /** `v & 0xD5` keeps bits 7, 6, 4, 2 and 0 of a byte. */
  lemma AndD5(v: byte)
    ensures And(v, 0xD5) == 128 * ((v / 128) % 2) + 64 * ((v / 64) % 2) + 16 * ((v / 16) % 2)
                            + 4 * ((v / 4) % 2) + v % 2
  {
    AndLowUp(v, 106);
    AndBitUp(v / 2, 53);
    assert v / 2 / 2 == v / 4;
    AndLowUp(v / 4, 26);
    AndBitUp(v / 8, 13);
    assert v / 4 / 2 == v / 8 && v / 8 / 2 == v / 16;
    AndLowUp(v / 16, 6);
    AndBitUp(v / 32, 3);
    assert v / 16 / 2 == v / 32 && v / 32 / 2 == v / 64;
    AndLow2(v / 64);
    ModDouble(v / 64, 2);
    assert v / 64 / 2 == v / 128;
  }

  /** Reading the flags back after setting them from `v` gives `(v & 0xD5) | 0x02`: bits
      5 and 3 cleared, bit 1 set (bit 1 of `v & 0xD5` is clear, so `| 0x02` is `+ 2`). */
  lemma PswGetSet(s: State, v: byte)
    ensures PswGetFlags(PswSetFlags(s, v)) == And(v, 0xD5) + 2
  {
    var r := PswSetFlags(s, v);
    assert Bit(r.sign) == (v / 128) % 2 && Bit(r.zero) == (v / 64) % 2;
    assert Bit(r.halfCarry) == (v / 16) % 2 && Bit(r.parity) == (v / 4) % 2 && Bit(r.carry) == v % 2;
    AndD5(v);
  }
}
