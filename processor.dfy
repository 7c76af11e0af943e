/** The `CPU` struct of the original as a class whose fields the methods update in
    place. Each method is proved against a function on `Cpu.State`: the snapshot of the
    fields and the bus after the call (and the result) is that function applied to the
    snapshot before it. Most share the name of their function in `Cpu` or
    `Instructions`; `Register` is proved against `Instructions.Source`, `DoInstruction`
    against `Instructions.Step`, and each per-arm method against `Instructions.Execute`
    at its opcode. */
module Processor {
  import opened Word
  import opened Memory
  import Cpu
  import Instructions

  class CPU {
    var a: byte
    var b: byte
    var c: byte
    var d: byte
    var e: byte
    var h: byte
    var l: byte
    var pc: word
    var sp: word
    var signFlag: bool
    var zeroFlag: bool
    var parityFlag: bool
    var carryFlag: bool
    var halfCarryFlag: bool
    var interruptsEnabled: bool
    /** The bus the processor owns; its array is updated in place. */
    const bus: Machine

    predicate Valid()
    {
      bus.Valid()
    }

    /** The registers, flags and bus contents as one value. */
    function Snapshot(): Cpu.State
      reads this, bus.memory
      requires Valid()
    {
      Cpu.State(a, b, c, d, e, h, l, pc, sp,
                signFlag, zeroFlag, parityFlag, carryFlag, halfCarryFlag,
                interruptsEnabled, bus.Contents())
    }

    /** `CPU::build`: takes over the bus and sets the power-on values. */
    constructor Build(bus: Machine)
      requires bus.Valid()
      ensures Valid() && this.bus == bus
      ensures Snapshot() == Cpu.Build(bus.Contents())
    {
      a, b, c, d, e, h, l := 0xFF, 0xFF, 0xFF, 0xFF, 0xFF, 0xFF, 0xFF;
      pc, sp := 0, 0xFFFF;
      signFlag, zeroFlag, parityFlag, carryFlag, halfCarryFlag := true, true, true, true, true;
      interruptsEnabled := true;
      this.bus := bus;
    }

    // Register pairs.

    function GetBC(): (v: word)
      reads this
      ensures High(v) == b && Low(v) == c
    {
      Pack(b, c)
    }

    method SetBC(value: word)
      requires Valid()
      modifies this
      ensures Snapshot() == Cpu.SetBC(old(Snapshot()), value)
    {
      b := High(value);
      c := Low(value);
    }

    function GetDE(): (v: word)
      reads this
      ensures High(v) == d && Low(v) == e
    {
      Pack(d, e)
    }

    method SetDE(value: word)
      requires Valid()
      modifies this
      ensures Snapshot() == Cpu.SetDE(old(Snapshot()), value)
    {
      d := High(value);
      e := Low(value);
    }

    method SetHL(value: word)
      requires Valid()
      modifies this
      ensures Snapshot() == Cpu.SetHL(old(Snapshot()), value)
    {
      h := High(value);
      l := Low(value);
    }

    function GetHL(): (v: word)
      reads this
      ensures High(v) == h && Low(v) == l
    {
      Pack(h, l)
    }

    // Flag updaters.

    method UpdateSignFlag(result: dword)
      requires Valid()
      modifies this
      ensures Snapshot() == Cpu.UpdateSignFlag(old(Snapshot()), result)
    {
      signFlag := Cpu.AsI32(result) < 0;
    }

    method UpdateZeroFlag(result: dword)
      requires Valid()
      modifies this
      ensures Snapshot() == Cpu.UpdateZeroFlag(old(Snapshot()), result)
    {
      zeroFlag := result == 0;
    }

    /** `update_parity_flag`: counts the indices 0..=7 that pass the (misparenthesised)
        test; as `Cpu.ParityCountIsSeven` shows, the flag always ends clear. */
    method UpdateParityFlag(result: dword)
      requires Valid()
      modifies this
      ensures Snapshot() == Cpu.UpdateParityFlag(old(Snapshot()), result)
      ensures !parityFlag
    {
      var v := Cpu.LowByte(result);
      var count := 0;
      for i := 0 to 8
        invariant count == Cpu.ParityCount(v, i)
      {
        if Xor(And(v, 2), i) > 0 {
          count := count + 1;
        }
      }
      parityFlag := count % 2 == 0;
    }

    method UpdateCarryFlag16(x: word, y: word)
      requires Valid()
      modifies this
      ensures Snapshot() == Cpu.UpdateCarryFlag16(old(Snapshot()), x, y)
    {
      carryFlag := x + y > 0xFFFF;
    }

    method UpdateCarryFlag8(x: byte, y: byte)
      requires Valid()
      modifies this
      ensures Snapshot() == Cpu.UpdateCarryFlag8(old(Snapshot()), x, y)
    {
      carryFlag := x + y > 255;
    }

    method UpdateHalfCarry(x: byte, y: byte)
      requires Valid()
      modifies this
      ensures Snapshot() == Cpu.UpdateHalfCarry(old(Snapshot()), x, y)
    {
      halfCarryFlag := And(x, 7) + And(y, 7) > 7;
    }

    method UpdateBorrow16(x: word, y: word)
      requires Valid()
      modifies this
      ensures Snapshot() == Cpu.UpdateBorrow16(old(Snapshot()), x, y)
    {
      carryFlag := x < y;
    }

    method UpdateBorrow8(x: byte, y: byte)
      requires Valid()
      modifies this
      ensures Snapshot() == Cpu.UpdateBorrow8(old(Snapshot()), x, y)
    {
      carryFlag := x < y;
    }

    method UpdateHalfBorrow(x: byte, y: byte)
      requires Valid()
      modifies this
      ensures Snapshot() == Cpu.UpdateHalfBorrow(old(Snapshot()), x, y)
    {
      halfCarryFlag := And(x, 8) < And(y, 8);
    }

    // Memory access.

    /** `read_8`: changes nothing. */
    method Read8(address: word) returns (value: byte)
      requires Valid()
      ensures value == Cpu.Read8(Snapshot(), address)
    {
      value := bus.ReadByte(address);
    }

    method Write8(address: word, value: byte)
      requires Valid()
      modifies bus.memory
      ensures Snapshot() == Cpu.Write8(old(Snapshot()), address, value)
    {
      bus.WriteByte(address, value);
    }

    method Fetch() returns (value: byte)
      requires Valid()
      modifies this
      ensures (Snapshot(), value) == Cpu.Fetch(old(Snapshot()))
    {
      value := bus.ReadByte(pc);
      pc := Wrap16(pc + 1);
    }

    method Fetch16() returns (value: word)
      requires Valid()
      modifies this
      ensures (Snapshot(), value) == Cpu.Fetch16(old(Snapshot()))
    {
      var low := Fetch();
      var high := Fetch();
      value := high as int * 256 + low;
    }

    /** `read_16`: changes nothing; `address + 1` must not overflow. */
    method Read16(address: word) returns (value: (byte, byte))
      requires Valid()
      requires address < 0xFFFF
      ensures value == Cpu.Read16(Snapshot(), address)
    {
      var low := bus.ReadByte(address);
      var high := bus.ReadByte(address + 1);
      value := (high, low);
    }

    method Write16(address: word, value: (byte, byte))
      requires Valid()
      requires address < 0xFFFF
      modifies bus.memory
      ensures Snapshot() == Cpu.Write16(old(Snapshot()), address, value)
    {
      bus.WriteByte(address, value.1);
      bus.WriteByte(address + 1, value.0);
    }

    // The stack.

    method Push(value: (byte, byte))
      requires Valid()
      requires sp >= 2
      modifies this, bus.memory
      ensures Snapshot() == Cpu.Push(old(Snapshot()), value)
    {
      bus.WriteByte(sp - 1, value.1);
      bus.WriteByte(sp - 2, value.0);
      sp := Wrap16(sp - 2);
    }

    method Pop() returns (value: (byte, byte))
      requires Valid()
      requires sp < 0xFFFF
      modifies this
      ensures (Snapshot(), value) == Cpu.Pop(old(Snapshot()))
    {
      var high := bus.ReadByte(sp + 1);
      var low := bus.ReadByte(sp);
      sp := Wrap16(sp + 2);
      value := (high, low);
    }

    // The Program Status Word.

    /** `psw_get_flags`: changes nothing. */
    method PswGetFlags() returns (value: byte)
      requires Valid()
      ensures value == Cpu.PswGetFlags(Snapshot())
    {
      value := Cpu.Bit(signFlag) * 128 + Cpu.Bit(zeroFlag) * 64 + Cpu.Bit(halfCarryFlag) * 16
               + Cpu.Bit(parityFlag) * 4 + 2 + Cpu.Bit(carryFlag);
    }

    method PswSetFlags(value: byte)
      requires Valid()
      modifies this
      ensures Snapshot() == Cpu.PswSetFlags(old(Snapshot()), value)
    {
      signFlag := And(value, 128) == 128;
      zeroFlag := And(value, 64) == 64;
      halfCarryFlag := And(value, 16) == 16;
      parityFlag := And(value, 4) == 4;
      carryFlag := And(value, 1) == 1;
    }

    // Instruction helpers.

    method Inr(value: byte) returns (result: byte)
      requires Valid()
      modifies this
      ensures (Snapshot(), result) == Instructions.Inr(old(Snapshot()), value)
    {
      var wide := Wrap8(value + 1);
      UpdateSignFlag(wide);
      UpdateZeroFlag(wide);
      UpdateParityFlag(wide);
      UpdateHalfCarry(value, 1);
      result := Cpu.LowByte(wide);
    }

    method Dcr(value: byte) returns (result: byte)
      requires Valid()
      modifies this
      ensures (Snapshot(), result) == Instructions.Dcr(old(Snapshot()), value)
    {
      var wide := Wrap8(value - 1);
      UpdateSignFlag(wide);
      UpdateZeroFlag(wide);
      UpdateParityFlag(wide);
      UpdateHalfBorrow(value, 1);
      result := Cpu.LowByte(wide);
    }

    /** `mov`: selects the source register by `z` and then assigns by `(z, y)`. */
    method Mov(opcode: byte)
      requires Valid()
      modifies this, bus.memory
      ensures Snapshot() == Instructions.Mov(old(Snapshot()), opcode)
    {
      var f := Instructions.Decode(opcode);
      var y, z := f.y, f.z;
      var source := Register(z);
      if z == 6 && y == 6 {
        pc := Wrap16(pc - 2);
      } else if z == 6 {
        bus.WriteByte(GetHL(), source);
      } else if y == 6 {
        var value := bus.ReadByte(GetHL());
        SetRegister(z, value);
      } else {
        SetRegister(z, source);
      }
    }

    /** The `source` match of `mov`. */
    method Register(z: byte) returns (value: byte)
      requires Valid()
      ensures value == Instructions.Source(Snapshot(), z)
    {
      if z == 0 { value := b; }
      else if z == 1 { value := c; }
      else if z == 2 { value := d; }
      else if z == 3 { value := e; }
      else if z == 4 { value := h; }
      else if z == 5 { value := l; }
      else if z == 7 { value := a; }
      else { value := 0; }
    }

    /** The register assignments of `mov`, the catch-all arm included. */
    method SetRegister(z: byte, value: byte)
      requires Valid()
      modifies this
      ensures Snapshot() == Instructions.SetRegister(old(Snapshot()), z, value)
    {
      if z == 0 { b := value; }
      else if z == 1 { c := value; }
      else if z == 2 { d := value; }
      else if z == 3 { e := value; }
      else if z == 4 { h := value; }
      else if z == 5 { l := value; }
      else if z == 7 { a := value; }
    }

    /** `do_instruction`: fetches one opcode and runs its arm, accumulating the local
        `cycles`, whose final value is returned; an opcode without an arm returns the
        panic's report instead. Each arm's statements are the method named after its
        mnemonic below. */
    method DoInstruction() returns (outcome: Instructions.Outcome)
      requires Valid()
      modifies this, bus.memory
      ensures (Snapshot(), outcome) == Instructions.Step(old(Snapshot()))
    {
      Instructions.StepIsFetchThenExecute(Snapshot());
      var cycles := 0;
      var opcode := Fetch();
      if Instructions.NoOperation(opcode) {
        cycles := cycles + 4;
      } else if opcode == 0x01 {
        LxiB();
        cycles := cycles + 10;
      } else if opcode == 0x02 {
        StaxB();
        cycles := cycles + 7;
      } else if opcode == 0x03 {
        InxB();
        cycles := cycles + 5;
      } else if opcode == 0x04 {
        InrB();
        cycles := cycles + 5;
      } else if opcode == 0x05 {
        DcrB();
        cycles := cycles + 5;
      } else if opcode == 0x06 {
        MviB();
        cycles := cycles + 5;
      } else if opcode == 0x07 {
        Rlc();
        cycles := cycles + 4;
      } else if opcode == 0x09 {
        DadB();
        cycles := cycles + 10;
      } else if opcode == 0x0a {
        LdaxB();
        cycles := cycles + 7;
      } else if opcode == 0x0b {
        DcxB();
        cycles := cycles + 5;
      } else if opcode == 0x0c {
        InrC();
        cycles := cycles + 5;
      } else if opcode == 0x0d {
        DcrC();
        cycles := cycles + 5;
      } else if opcode == 0x0e {
        MviC();
        cycles := cycles + 7;
      } else if opcode == 0x0f {
        Rrc();
        cycles := cycles + 4;
      } else if opcode == 0x11 {
        LxiD();
        cycles := cycles + 10;
      } else if opcode == 0x12 {
        StaxD();
        cycles := cycles + 7;
      } else if opcode == 0x13 {
        InxD();
        cycles := cycles + 5;
      } else if opcode == 0x14 {
        InrD();
        cycles := cycles + 5;
      } else if opcode == 0x15 {
        DcrD();
        cycles := cycles + 5;
      } else if opcode == 0x16 {
        MviD();
        cycles := cycles + 7;
      } else if opcode == 0x17 {
        Ral();
        cycles := cycles + 4;
      } else {
        return Instructions.Unimplemented(pc, opcode);
      }
      outcome := Instructions.Executed(cycles);
    }

    /** LXI B: the 16-bit immediate into BC. */
    method LxiB()
      requires Valid()
      modifies this
      ensures Instructions.Execute(old(Snapshot()), 0x01) == (Snapshot(), Instructions.Executed(10))
    {
      var value := Fetch16();
      SetBC(value);
    }

    /** STAX B: A into the cell BC names. */
    method StaxB()
      requires Valid()
      modifies this, bus.memory
      ensures Instructions.Execute(old(Snapshot()), 0x02) == (Snapshot(), Instructions.Executed(7))
    {
      Write8(GetBC(), a);
    }

    /** INX B: BC up by one, wrapping. */
    method InxB()
      requires Valid()
      modifies this
      ensures Instructions.Execute(old(Snapshot()), 0x03) == (Snapshot(), Instructions.Executed(5))
    {
      SetBC(Wrap16(GetBC() + 1));
    }

    /** INR B. */
    method InrB()
      requires Valid()
      modifies this
      ensures Instructions.Execute(old(Snapshot()), 0x04) == (Snapshot(), Instructions.Executed(5))
    {
      ghost var s0 := Snapshot();
      b := Inr(b);
      assert Instructions.Execute(s0, 0x04) ==
        (Instructions.Inr(s0, s0.b).0.(b := Instructions.Inr(s0, s0.b).1), Instructions.Executed(5));
    }

    /** DCR B. */
    method DcrB()
      requires Valid()
      modifies this
      ensures Instructions.Execute(old(Snapshot()), 0x05) == (Snapshot(), Instructions.Executed(5))
    {
      ghost var s0 := Snapshot();
      b := Dcr(b);
      assert Instructions.Execute(s0, 0x05) ==
        (Instructions.Dcr(s0, s0.b).0.(b := Instructions.Dcr(s0, s0.b).1), Instructions.Executed(5));
    }

    /** MVI B: the 8-bit immediate into B. */
    method MviB()
      requires Valid()
      modifies this
      ensures Instructions.Execute(old(Snapshot()), 0x06) == (Snapshot(), Instructions.Executed(5))
    {
      b := Fetch();
    }

    /** RLC: rotate A left; bit 7 goes to carry and to bit 0. */
    method Rlc()
      requires Valid()
      modifies this
      ensures Instructions.Execute(old(Snapshot()), 0x07) == (Snapshot(), Instructions.Executed(4))
    {
      carryFlag := And(a, 128) == 128;
      a := Wrap8(a * 2);
      if carryFlag {
        a := a + 1;
      }
    }

    /** DAD B: BC added to HL, wrapping; carry from the 16-bit sum. */
    method DadB()
      requires Valid()
      modifies this
      ensures Instructions.Execute(old(Snapshot()), 0x09) == (Snapshot(), Instructions.Executed(10))
    {
      ghost var s0 := Snapshot();
      var hl, bc := GetHL(), GetBC();
      UpdateCarryFlag16(hl, bc);
      ghost var s1 := Snapshot();
      SetHL(Wrap16(hl as int + bc));
      Instructions.DoubleAddArm(s0, hl, bc, s1, Snapshot());
    }

    method LdaxB()
      requires Valid()
      modifies this
      ensures Instructions.Execute(old(Snapshot()), 0x0a) == (Snapshot(), Instructions.Executed(7))
    {
      a := Read8(GetBC());
    }

    /** DCX B: BC down by one, wrapping. */
    method DcxB()
      requires Valid()
      modifies this
      ensures Instructions.Execute(old(Snapshot()), 0x0b) == (Snapshot(), Instructions.Executed(5))
    {
      ghost var s0 := Snapshot();
      var bc := GetBC();
      SetBC(Wrap16(bc as int - 1));
      Instructions.DecrementBCArm(s0, bc, Snapshot());
    }

    method InrC()
      requires Valid()
      modifies this
      ensures Instructions.Execute(old(Snapshot()), 0x0c) == (Snapshot(), Instructions.Executed(5))
    {
      ghost var s0 := Snapshot();
      c := Inr(c);
      assert Instructions.Execute(s0, 0x0c) ==
        (Instructions.Inr(s0, s0.c).0.(c := Instructions.Inr(s0, s0.c).1), Instructions.Executed(5));
    }

    /** DCR C. */
    method DcrC()
      requires Valid()
      modifies this
      ensures Instructions.Execute(old(Snapshot()), 0x0d) == (Snapshot(), Instructions.Executed(5))
    {
      ghost var s0 := Snapshot();
      c := Dcr(c);
      assert Instructions.Execute(s0, 0x0d) ==
        (Instructions.Dcr(s0, s0.c).0.(c := Instructions.Dcr(s0, s0.c).1), Instructions.Executed(5));
    }

    /** MVI C: the 8-bit immediate into C. */
    method MviC()
      requires Valid()
      modifies this
      ensures Instructions.Execute(old(Snapshot()), 0x0e) == (Snapshot(), Instructions.Executed(7))
    {
      c := Fetch();
    }

    /** RRC: rotate A right; bit 0 goes to carry and to bit 7. */
    method Rrc()
      requires Valid()
      modifies this
      ensures Instructions.Execute(old(Snapshot()), 0x0f) == (Snapshot(), Instructions.Executed(4))
    {
      carryFlag := And(a, 1) == 1;
      a := a / 2;
      if carryFlag {
        a := a + 128;
      }
    }

    /** LXI D: the 16-bit immediate into DE. */
    method LxiD()
      requires Valid()
      modifies this
      ensures Instructions.Execute(old(Snapshot()), 0x11) == (Snapshot(), Instructions.Executed(10))
    {
      var value := Fetch16();
      SetDE(value);
    }

    /** STAX D: A into the cell DE names. */
    method StaxD()
      requires Valid()
      modifies this, bus.memory
      ensures Instructions.Execute(old(Snapshot()), 0x12) == (Snapshot(), Instructions.Executed(7))
    {
      Write8(GetDE(), a);
    }

    /** INX D: DE up by one, wrapping. */
    method InxD()
      requires Valid()
      modifies this
      ensures Instructions.Execute(old(Snapshot()), 0x13) == (Snapshot(), Instructions.Executed(5))
    {
      SetDE(Wrap16(GetDE() + 1));
    }

    /** INR D. */
    method InrD()
      requires Valid()
      modifies this
      ensures Instructions.Execute(old(Snapshot()), 0x14) == (Snapshot(), Instructions.Executed(5))
    {
      ghost var s0 := Snapshot();
      d := Inr(d);
      assert Instructions.Execute(s0, 0x14) ==
        (Instructions.Inr(s0, s0.d).0.(d := Instructions.Inr(s0, s0.d).1), Instructions.Executed(5));
    }

    /** DCR D. */
    method DcrD()
      requires Valid()
      modifies this
      ensures Instructions.Execute(old(Snapshot()), 0x15) == (Snapshot(), Instructions.Executed(5))
    {
      ghost var s0 := Snapshot();
      d := Dcr(d);
      assert Instructions.Execute(s0, 0x15) ==
        (Instructions.Dcr(s0, s0.d).0.(d := Instructions.Dcr(s0, s0.d).1), Instructions.Executed(5));
    }

    /** MVI D: the 8-bit immediate into D. */
    method MviD()
      requires Valid()
      modifies this
      ensures Instructions.Execute(old(Snapshot()), 0x16) == (Snapshot(), Instructions.Executed(7))
    {
      d := Fetch();
    }

    /** RAL, coded exactly like RLC. */
    method Ral()
      requires Valid()
      modifies this
      ensures Instructions.Execute(old(Snapshot()), 0x17) == (Snapshot(), Instructions.Executed(4))
    {
      carryFlag := And(a, 128) == 128;
      a := Wrap8(a * 2);
      if carryFlag {
        a := a + 1;
      }
    }
  }
}
