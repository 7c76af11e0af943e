/** The instruction handlers of `src/instructions.rs` as functions on `Cpu.State`: the
    dispatcher over the implemented opcodes, the `inr`/`dcr` helpers, the bit-field
    decoder and the `mov` family. */
module Instructions {
  import opened Word
  import opened Memory
  import opened Cpu

  /** What one call of the dispatcher ends with: the final value of its local `cycles`
      counter, or the panic arm with the `pc` (already past the opcode) and the opcode it
      reports. */
  datatype Outcome = Executed(cycles: nat) | Unimplemented(pc: word, opcode: byte)

  // The ALU helpers.

  /** `inr`: the result is the wrapped successor. It is handed to the flag updaters as a
      `u32`, so the sign flag ends clear, and the parity flag ends clear as it always does;
      zero and half carry follow the increment; carry is left alone. */
  function Inr(s: State, value: byte): (r: (State, byte))
    ensures r.1 == Wrap8(value + 1)
    ensures r.0.zero <==> value == 255
    ensures r.0.halfCarry <==> value % 8 == 7
    ensures !r.0.sign && !r.0.parity
    ensures r.0 == s.(sign := r.0.sign, zero := r.0.zero, parity := r.0.parity, halfCarry := r.0.halfCarry)
  {
    var result := Wrap8(value + 1);
    IncrementLowBits(value);
    var s1 := UpdateSignFlag(s, result);
    var s2 := UpdateZeroFlag(s1, result);
    var s3 := UpdateParityFlag(s2, result);
    var s4 := UpdateHalfCarry(s3, value, 1);
    (s4, LowByte(result))
  }

  /** Adding 1 carries out of the low three bits exactly when they are all set. */
  lemma IncrementLowBits(value: byte)
    ensures Wrap8(value + 1) % 8 < value % 8 <==> value % 8 == 7
  {
    LowBitsOfSum(value, 1);
    if value % 8 == 7 {
      assert (value % 8 + 1) % 8 == 0;
    } else {
      assert (value % 8 + 1) % 8 == value % 8 + 1;
    }
  }

  /** `dcr`: the result is the wrapped predecessor. Half borrow compares bit 3 of the
      operand with bit 3 of 1, which is clear, so half carry ends clear. */
  function Dcr(s: State, value: byte): (r: (State, byte))
    ensures r.1 == Wrap8(value - 1)
    ensures r.0.zero <==> value == 1
    ensures !r.0.halfCarry && !r.0.sign && !r.0.parity
    ensures r.0 == s.(sign := r.0.sign, zero := r.0.zero, parity := r.0.parity, halfCarry := r.0.halfCarry)
  {
    var result := Wrap8(value - 1);
    var s1 := UpdateSignFlag(s, result);
    var s2 := UpdateZeroFlag(s1, result);
    var s3 := UpdateParityFlag(s2, result);
    var s4 := UpdateHalfBorrow(s3, value, 1);
    (s4, LowByte(result))
  }

  /** Decrementing the result of an increment gives the operand back. */
  lemma DcrAfterInr(s: State, value: byte)
    ensures Dcr(Inr(s, value).0, Inr(s, value).1).1 == value
    ensures Dcr(Inr(s, value).0, Inr(s, value).1).0.carry == s.carry
  {
    if value < 255 {
      assert Wrap8(value + 1) == value + 1;
    }
  }

  // The bit-field decoder.

  /** The five fields `decode` returns. */
  datatype Fields = Fields(x: byte, y: byte, z: byte, p: byte, q: byte)

  /** `decode`: `y` is bits 5..3 and `z` bits 2..0 of the opcode, `p` and `q` the upper
      two bits and the low bit of `y`. `x` keeps bits 7..6 but is shifted by 5, not 6, so
      it is twice their value; together the fields still determine the opcode. */
  function Decode(opcode: byte): (f: Fields)
    ensures f.z == opcode % 8 && f.y == (opcode / 8) % 8 && f.x == 2 * (opcode / 64)
    ensures f.p == f.y / 2 && f.q == f.y % 2 && f.y == 2 * f.p + f.q
    ensures f.x % 2 == 0 && f.x <= 6 && f.y < 8 && f.z < 8 && f.p < 4 && f.q < 2
    ensures opcode == 32 * f.x + 8 * f.y + f.z
  {
    AndC0(opcode);
    And38(opcode);
    AndLow3(opcode);
    var y := And(opcode, 56) / 8;
    AndSix(y);
    AndOne(y);
    FieldArithmetic(opcode);
    Fields(And(opcode, 192) / 32, y, And(opcode, 7), And(y, 6) / 2, And(y, 1))
  }

  /** The arithmetic behind `Decode`: the masked fields, shifted down, are quotients and
      remainders of the opcode, and they add up to it again. */
  lemma FieldArithmetic(opcode: byte)
    ensures opcode / 64 < 4 && 64 * ((opcode / 64) % 4) / 32 == 2 * (opcode / 64)
    ensures 8 * ((opcode / 8) % 8) / 8 == (opcode / 8) % 8
    ensures var y := (opcode / 8) % 8; 2 * ((y / 2) % 4) / 2 == y / 2 && y == 2 * (y / 2) + y % 2
    ensures opcode == 64 * (opcode / 64) + 8 * ((opcode / 8) % 8) + opcode % 8
  {
    assert opcode == 8 * (opcode / 8) + opcode % 8;
    assert opcode / 8 == 8 * (opcode / 64) + (opcode / 8) % 8;
  }

  // The `mov` family.

  /** The `source` match of `mov`: register number `z` in the order B C D E H L - A;
      number 6 (the memory operand) and numbers 8 and above read as 0. */
  function Source(s: State, z: byte): byte
  {
    if z == 0 then s.b else if z == 1 then s.c else if z == 2 then s.d
    else if z == 3 then s.e else if z == 4 then s.h else if z == 5 then s.l
    else if z == 7 then s.a else 0
  }

  /** The register assignments of `mov`: register number `z` becomes `value`; for number
      6, and numbers 8 and above, the catch-all arm changes nothing. */
  function SetRegister(s: State, z: byte, value: byte): (r: State)
    ensures z < 8 && z != 6 ==> Source(r, z) == value
    ensures !(z < 8 && z != 6) ==> r == s
    ensures r == s.(a := r.a, b := r.b, c := r.c, d := r.d, e := r.e, h := r.h, l := r.l)
  {
    if z == 0 then s.(b := value) else if z == 1 then s.(c := value)
    else if z == 2 then s.(d := value) else if z == 3 then s.(e := value)
    else if z == 4 then s.(h := value) else if z == 5 then s.(l := value)
    else if z == 7 then s.(a := value) else s
  }

  /** Assigning register `z` leaves every other register number reading as before. */
  lemma SetRegisterKeepsOthers(s: State, z: byte, value: byte, j: byte)
    requires j != z
    ensures Source(SetRegister(s, z, value), j) == Source(s, j)
  {
    if z == 0 {} else if z == 1 {} else if z == 2 {} else if z == 3 {}
    else if z == 4 {} else if z == 5 {} else if z == 7 {}
  }

  /** `mov`: both the source and the destination register are chosen by `z`; the cases
      are stated by the lemmas below. */
  function Mov(s: State, opcode: byte): State
  {
    var f := Decode(opcode);
    var source := Source(s, f.z);
    if f.z == 6 && f.y == 6 then s.(pc := Wrap16(s.pc - 2))
    else if f.z == 6 then s.(mem := Write(s.mem, GetHL(s), source))
    else if f.y == 6 then SetRegister(s, f.z, Read(s.mem, GetHL(s)))
    else SetRegister(s, f.z, source)
  }

  /** (6, 6), HLT, moves `pc` back by 2, wrapping, and changes nothing else. */
  lemma MovHalt(s: State, opcode: byte)
    requires opcode % 8 == 6 && (opcode / 8) % 8 == 6
    ensures Mov(s, opcode) == s.(pc := Wrap16(s.pc - 2))
  {
  }

  /** `z == 6` with `y != 6` stores the source at HL; the source of number 6 is 0. */
  lemma MovStore(s: State, opcode: byte)
    requires opcode % 8 == 6 && (opcode / 8) % 8 != 6
    ensures Mov(s, opcode) == Write8(s, GetHL(s), 0)
  {
  }

  /** `y == 6` with `z != 6` loads register `z` from HL; no other register, no flag and
      no memory cell changes. */
  lemma MovLoad(s: State, opcode: byte)
    requires opcode % 8 != 6 && (opcode / 8) % 8 == 6
    ensures var r, z := Mov(s, opcode), opcode % 8;
      Source(r, z) == Read8(s, GetHL(s)) &&
      (forall j: byte :: j != z ==> Source(r, j) == Source(s, j)) &&
      r == s.(a := r.a, b := r.b, c := r.c, d := r.d, e := r.e, h := r.h, l := r.l)
  {
    var z := opcode % 8;
    forall j: byte | j != z
      ensures Source(Mov(s, opcode), j) == Source(s, j)
    {
      SetRegisterKeepsOthers(s, z, Read(s.mem, GetHL(s)), j);
    }
  }

  /** Every other opcode gives register `z` its own value, which changes nothing. */
  lemma MovSelf(s: State, opcode: byte)
    requires opcode % 8 != 6 && (opcode / 8) % 8 != 6
    ensures Mov(s, opcode) == s
  {
    var z := opcode % 8;
    assert Source(Mov(s, opcode), z) == Source(s, z);
  }

  // The rotates.

  /** RLC: carry takes bit 7, and the byte is shifted left (`<<=` drops bit 7) with the
      carry put back into bit 0, which is clear after the shift, so the `+= 1` cannot
      overflow. */
  function Rlc(s: State): (r: State)
    ensures r.carry <==> s.a >= 128
    ensures r.a == (2 * s.a) % 256 + s.a / 128
    ensures r == s.(a := r.a, carry := r.carry)
  {
    AndBit7(s.a);
    var carry := And(s.a, 128) == 128;
    var shifted := Wrap8(s.a * 2);
    s.(carry := carry, a := if carry then shifted + 1 else shifted)
  }

  /** RRC: carry takes bit 0, and the byte is shifted right with the carry put into
      bit 7, which is clear after the shift, so the `+= 128` cannot overflow. */
  function Rrc(s: State): (r: State)
    ensures r.carry <==> s.a % 2 == 1
    ensures r.a == s.a / 2 + 128 * (s.a % 2)
    ensures r == s.(a := r.a, carry := r.carry)
  {
    AndOne(s.a);
    var carry := And(s.a, 1) == 1;
    var shifted := s.a / 2;
    s.(carry := carry, a := if carry then shifted + 128 else shifted)
  }

  /** The two rotates undo each other on the accumulator. */
  lemma RotatesInverse(s: State)
    ensures Rrc(Rlc(s)).a == s.a && Rlc(Rrc(s)).a == s.a
  {
    var a := s.a;
    var high, rest := a / 128, a % 128;
    UniqueMod(2 * a as int, 256, high, 2 * rest as int);
    UniqueMod(2 * rest as int + high, 2, rest, high);
    var t := a / 2 + 128 * (a % 2);
    UniqueMod(t, 128, a % 2, a / 2);
    UniqueMod(2 * t as int, 256, a % 2, 2 * (a / 2) as int);
  }

  // The dispatcher.

  /** The opcodes the match of `do_instruction` has an arm for. */
  predicate Implemented(opcode: byte)
  {
    opcode <= 0x17 || opcode in {0x18, 0x20, 0x28, 0x30, 0x38}
  }

  /** The opcodes whose arm only counts 4 cycles. */
  predicate NoOperation(opcode: byte)
  {
    opcode in {0x00, 0x08, 0x10, 0x18, 0x20, 0x28, 0x30, 0x38}
  }

  /** The body of the match of `do_instruction`, entered with the opcode already fetched:
      the new state and the final value of `cycles`, or the panic arm for an opcode
      without an arm, which leaves the state as it is. RAL (0x17) is coded exactly like
      RLC. */
  function Execute(s: State, opcode: byte): (r: (State, Outcome))
    ensures r.1.Unimplemented? <==> !Implemented(opcode)
    ensures r.1.Unimplemented? ==> r == (s, Unimplemented(s.pc, opcode))
    ensures r.1.Executed? ==> r.1.cycles in {4, 5, 7, 10}
  {
    if NoOperation(opcode) then (s, Executed(4))
    else if opcode == 0x01 then var (s1, v) := Fetch16(s); (SetBC(s1, v), Executed(10))
    else if opcode == 0x02 then (Write8(s, GetBC(s), s.a), Executed(7))
    else if opcode == 0x03 then (SetBC(s, Wrap16(GetBC(s) + 1)), Executed(5))
    else if opcode == 0x04 then var (s1, v) := Inr(s, s.b); (s1.(b := v), Executed(5))
    else if opcode == 0x05 then var (s1, v) := Dcr(s, s.b); (s1.(b := v), Executed(5))
    else if opcode == 0x06 then var (s1, v) := Fetch(s); (s1.(b := v), Executed(5))
    else if opcode == 0x07 then (Rlc(s), Executed(4))
    else if opcode == 0x09 then
      var s1 := UpdateCarryFlag16(s, GetHL(s), GetBC(s));
      (SetHL(s1, Wrap16(GetHL(s1) + GetBC(s1))), Executed(10))
    else if opcode == 0x0a then (s.(a := Read8(s, GetBC(s))), Executed(7))
    else if opcode == 0x0b then (SetBC(s, Wrap16(GetBC(s) - 1)), Executed(5))
    else if opcode == 0x0c then var (s1, v) := Inr(s, s.c); (s1.(c := v), Executed(5))
    else if opcode == 0x0d then var (s1, v) := Dcr(s, s.c); (s1.(c := v), Executed(5))
    else if opcode == 0x0e then var (s1, v) := Fetch(s); (s1.(c := v), Executed(7))
    else if opcode == 0x0f then (Rrc(s), Executed(4))
    else if opcode == 0x11 then var (s1, v) := Fetch16(s); (SetDE(s1, v), Executed(10))
    else if opcode == 0x12 then (Write8(s, GetDE(s), s.a), Executed(7))
    else if opcode == 0x13 then (SetDE(s, Wrap16(GetDE(s) + 1)), Executed(5))
    else if opcode == 0x14 then var (s1, v) := Inr(s, s.d); (s1.(d := v), Executed(5))
    else if opcode == 0x15 then var (s1, v) := Dcr(s, s.d); (s1.(d := v), Executed(5))
    else if opcode == 0x16 then var (s1, v) := Fetch(s); (s1.(d := v), Executed(7))
    else if opcode == 0x17 then (Rlc(s), Executed(4))
    else (s, Unimplemented(s.pc, opcode))
  }

  /** `do_instruction`: fetch the opcode under `pc`, then run its arm. */
  function Step(s: State): (State, Outcome)
  {
    var (s1, opcode) := Fetch(s);
    Execute(s1, opcode)
  }

  /** The opcode `Step` runs. */
  function Opcode(s: State): byte
  {
    Read(s.mem, s.pc)
  }

  /** The state after the opcode fetch. */
  function Next(s: State): State
  {
    s.(pc := Wrap16(s.pc + 1))
  }

  /** `Step` is the arm of the opcode under `pc`, run once `pc` has moved past it. */
  lemma StepIsFetchThenExecute(s: State)
    ensures Step(s) == Execute(Next(s), Opcode(s))
  {
  }

  /** An opcode outside the implemented set reaches the panic arm, and only those do; the
      reported `pc` is the one after the opcode. */
  lemma UnimplementedPanics(s: State)
    ensures Step(s).1.Unimplemented? <==> !Implemented(Opcode(s))
    ensures !Implemented(Opcode(s)) ==> Step(s) == (Next(s), Unimplemented(Wrap16(s.pc + 1), Opcode(s)))
  {
    StepIsFetchThenExecute(s);
  }

  /** The NOP-class opcodes only move `pc` past themselves and count 4 cycles. */
  lemma NoOperationSteps(s: State)
    requires NoOperation(Opcode(s))
    ensures Step(s) == (Next(s), Executed(4))
  {
    StepIsFetchThenExecute(s);
  }

  /** LXI B loads the little-endian immediate into BC and moves `pc` past it; nothing
      else changes. */
  lemma LoadImmediateBC(s: State)
    requires Opcode(s) == 0x01
    ensures var imm := Pack(Read(s.mem, Wrap16(s.pc + 2)), Read(s.mem, Wrap16(s.pc + 1)));
      Step(s) == (SetBC(s.(pc := Wrap16(s.pc + 3)), imm), Executed(10))
  {
    StepIsFetchThenExecute(s);
    assert Wrap16(Wrap16(s.pc + 1) + 2) == Wrap16(s.pc + 3);
    assert Wrap16(Wrap16(s.pc + 1) + 1) == Wrap16(s.pc + 2);
  }

  /** LXI D, the same for DE. */
  lemma LoadImmediateDE(s: State)
    requires Opcode(s) == 0x11
    ensures var imm := Pack(Read(s.mem, Wrap16(s.pc + 2)), Read(s.mem, Wrap16(s.pc + 1)));
      Step(s) == (SetDE(s.(pc := Wrap16(s.pc + 3)), imm), Executed(10))
  {
    StepIsFetchThenExecute(s);
    assert Wrap16(Wrap16(s.pc + 1) + 2) == Wrap16(s.pc + 3);
    assert Wrap16(Wrap16(s.pc + 1) + 1) == Wrap16(s.pc + 2);
  }

  /** The bytes `01 34 12` at address 0 load 0x1234 into BC in 10 cycles and leave `pc`
      at 3. */
  lemma LoadImmediateExample(s: State)
    requires s.pc == 0
    requires Read(s.mem, 0) == 0x01 && Read(s.mem, 1) == 0x34 && Read(s.mem, 2) == 0x12
    ensures GetBC(Step(s).0) == 0x1234 && Step(s).0.pc == 3 && Step(s).1 == Executed(10)
  {
    LoadImmediateBC(s);
  }

  /** MVI B, MVI C and MVI D load the next byte into their register and move `pc` past
      it; MVI B counts 5 cycles, the other two 7. */
  lemma LoadImmediateByte(s: State)
    requires Opcode(s) in {0x06, 0x0e, 0x16}
    ensures var imm := Read(s.mem, Wrap16(s.pc + 1));
      var s' := s.(pc := Wrap16(s.pc + 2));
      Step(s) == (if Opcode(s) == 0x06 then (s'.(b := imm), Executed(5))
                  else if Opcode(s) == 0x0e then (s'.(c := imm), Executed(7))
                  else (s'.(d := imm), Executed(7)))
  {
    StepIsFetchThenExecute(s);
    assert Wrap16(Wrap16(s.pc + 1) + 1) == Wrap16(s.pc + 2);
  }

  /** INX B steps BC up by one modulo 2^16 and changes nothing else but `pc`. */
  lemma IncrementBC(s: State)
    requires Opcode(s) == 0x03
    ensures Step(s) == (SetBC(Next(s), Wrap16(GetBC(s) + 1)), Executed(5))
  {
    StepIsFetchThenExecute(s);
    var t := Next(s);
    assert GetBC(t) == GetBC(s);
    assert Execute(t, 0x03) == (SetBC(t, Wrap16(GetBC(t) + 1)), Executed(5));
  }

  /** INX D steps DE up by one modulo 2^16 and changes nothing else but `pc`. */
  lemma IncrementDE(s: State)
    requires Opcode(s) == 0x13
    ensures Step(s) == (SetDE(Next(s), Wrap16(GetDE(s) + 1)), Executed(5))
  {
    StepIsFetchThenExecute(s);
    var t := Next(s);
    assert GetDE(t) == GetDE(s);
    assert Execute(t, 0x13) == (SetDE(t, Wrap16(GetDE(t) + 1)), Executed(5));
  }

  /** DCX B steps BC down by one modulo 2^16 and changes nothing else but `pc`. */
  lemma DecrementBC(s: State)
    requires Opcode(s) == 0x0b
    ensures Step(s) == (SetBC(Next(s), Wrap16(GetBC(s) - 1)), Executed(5))
  {
    StepIsFetchThenExecute(s);
  }

  /** The DCX B arm on its own: BC steps down by one modulo 2^16, in 5 cycles. */
  lemma DecrementBCArm(s: State, bc: word, r: State)
    requires bc == GetBC(s) && r == SetBC(s, Wrap16(bc - 1))
    ensures Execute(s, 0x0b) == (r, Executed(5))
  {
    assert Execute(s, 0x0b) == (SetBC(s, Wrap16(GetBC(s) - 1)), Executed(5));
  }

  /** The DAD B arm on its own: carry from the 16-bit sum, then HL := HL + BC wrapped,
      in 10 cycles. */
  lemma DoubleAddArm(s: State, hl: word, bc: word, s1: State, r: State)
    requires hl == GetHL(s) && bc == GetBC(s)
    requires s1 == UpdateCarryFlag16(s, hl, bc) && r == SetHL(s1, Wrap16(hl + bc))
    ensures Execute(s, 0x09) == (r, Executed(10))
  {
    assert GetHL(s1) == hl && GetBC(s1) == bc;
  }

  /** INX B followed by DCX B restores BC, wrap-around included. */
  lemma IncrementThenDecrement(s: State)
    requires Opcode(s) == 0x03 && Read(s.mem, Wrap16(s.pc + 1)) == 0x0b
    ensures GetBC(Step(Step(s).0).0) == GetBC(s)
    ensures Step(Step(s).0).0.pc == Wrap16(s.pc + 2)
  {
    IncrementBC(s);
    var t := Step(s).0;
    assert t == SetBC(Next(s), Wrap16(GetBC(s) + 1));
    assert GetBC(Next(t)) == GetBC(t);
    assert Opcode(t) == 0x0b;
    DecrementBC(t);
  }

  /** DAD B adds BC to HL modulo 2^16 and sets carry exactly when the sum exceeds 0xFFFF;
      no other flag and no other register changes. */
  lemma DoubleAdd(s: State)
    requires Opcode(s) == 0x09
    ensures var r := Step(s).0;
      GetHL(r) == Wrap16(GetHL(s) + GetBC(s)) && (r.carry <==> GetHL(s) + GetBC(s) > 0xFFFF) &&
      r == Next(s).(h := r.h, l := r.l, carry := r.carry) && Step(s).1 == Executed(10)
  {
    StepIsFetchThenExecute(s);
  }

  /** STAX B and STAX D store A at the address in their pair; LDAX B loads A from the
      address in BC; `pc` moves past the opcode. */
  lemma IndirectAccess(s: State)
    requires Opcode(s) in {0x02, 0x12, 0x0a}
    ensures Opcode(s) == 0x02 ==> Step(s) == (Write8(Next(s), GetBC(s), s.a), Executed(7))
    ensures Opcode(s) == 0x12 ==> Step(s) == (Write8(Next(s), GetDE(s), s.a), Executed(7))
    ensures Opcode(s) == 0x0a ==> Step(s) == (Next(s).(a := Read8(s, GetBC(s))), Executed(7))
  {
    StepIsFetchThenExecute(s);
  }

  /** STAX B followed by LDAX B keeps A and BC: the byte stored is the byte loaded. */
  lemma StoreThenLoad(s: State)
    requires Opcode(s) == 0x02 && Opcode(Step(s).0) == 0x0a
    ensures Step(Step(s).0).0.a == s.a && GetBC(Step(Step(s).0).0) == GetBC(s)
  {
    IndirectAccess(s);
    IndirectAccess(Step(s).0);
  }

  /** INR B, INR C and INR D replace their register by what `inr` returns. */
  lemma IncrementRegister(s: State)
    requires Opcode(s) in {0x04, 0x0c, 0x14}
    ensures var (r, v) := Inr(Next(s), if Opcode(s) == 0x04 then s.b else if Opcode(s) == 0x0c then s.c else s.d);
      Step(s) == (if Opcode(s) == 0x04 then r.(b := v) else if Opcode(s) == 0x0c then r.(c := v) else r.(d := v),
                  Executed(5))
  {
    StepIsFetchThenExecute(s);
  }

  /** DCR B, DCR C and DCR D replace their register by what `dcr` returns. */
  lemma DecrementRegister(s: State)
    requires Opcode(s) in {0x05, 0x0d, 0x15}
    ensures var (r, v) := Dcr(Next(s), if Opcode(s) == 0x05 then s.b else if Opcode(s) == 0x0d then s.c else s.d);
      Step(s) == (if Opcode(s) == 0x05 then r.(b := v) else if Opcode(s) == 0x0d then r.(c := v) else r.(d := v),
                  Executed(5))
  {
    StepIsFetchThenExecute(s);
  }

  /** RAL has exactly the effect of RLC. */
  lemma RalIsRlc(s: State)
    ensures Execute(s, 0x17) == Execute(s, 0x07)
  {
  }

  /** RLC, RAL and RRC rotate A and put the bit rotated out into carry. */
  lemma RotateStep(s: State)
    requires Opcode(s) in {0x07, 0x17, 0x0f}
    ensures Opcode(s) != 0x0f ==> Step(s) == (Rlc(Next(s)), Executed(4))
    ensures Opcode(s) == 0x0f ==> Step(s) == (Rrc(Next(s)), Executed(4))
  {
    StepIsFetchThenExecute(s);
  }
}
