/** The memory bus (`Machine` in the original): a fixed array of 0x4000 bytes that every
    16-bit address is reduced onto modulo 0x4000, so the 64 KiB address space sees the
    array mirrored four times and no access can fail. */
module Memory {
  import opened Word

  /** Number of physical bytes behind the bus. */
  const SIZE: nat := 0x4000

  /** The contents of the physical array, as a value. */
  type Image = m: seq<byte> | |m| == SIZE witness seq(0x4000, _ => 0)

  /** The power-on image: every cell zero. */
  function Blank(): (m: Image)
    ensures forall i :: 0 <= i < SIZE ==> m[i] == 0
  {
    seq(SIZE, _ => 0)
  }

  /** `(address as usize) % 0x4000`: the array cell an address is mapped to. */
  function Loc(address: word): (i: nat)
    ensures i < SIZE
  {
    address % SIZE
  }

  /** Specification of `read_byte`. */
  function Read(m: Image, address: word): byte
  {
    m[Loc(address)]
  }

  /** Specification of `write_byte`: the addressed cell holds `value` afterwards, every
      other cell is unchanged. */
  function Write(m: Image, address: word, value: byte): (m': Image)
    ensures Read(m', address) == value
    ensures forall i :: 0 <= i < SIZE && i != Loc(address) ==> m'[i] == m[i]
  {
    m[Loc(address) := value]
  }

  /** Two neighbouring addresses are never mirrors of each other, even across the
      16-bit wrap. */
  lemma NeighboursDistinct(address: word)
    ensures Loc(address) != Loc(Wrap16(address + 1))
  {
  }

  /** Mirroring: `address` and `address + 0x4000 * k` name the same cell whenever the sum
      still fits in 16 bits. */
  lemma {:induction false} Mirror(m: Image, address: word, k: nat)
    requires address + SIZE * k < 0x1_0000
    ensures Loc(address) == Loc(address + SIZE * k)
    ensures Read(m, address) == Read(m, address + SIZE * k)
  {
    if k > 0 {
      Mirror(m, address, k - 1);
      assert address + SIZE * k == (address + SIZE * (k - 1)) + SIZE;
    }
  }

  /** Writing through the first mirror is seen at address 0. */
  lemma WriteMirrorReadsBack(m: Image, x: byte)
    ensures Read(Write(m, 0x4000, x), 0) == x
  {
  }

  /** The bus. The array reference never changes; only its cells do. */
  class Machine {
    const memory: array<byte>

    predicate Valid()
    {
      memory.Length == SIZE
    }

    /** The current contents of the array. */
    function Contents(): Image
      reads memory
      requires Valid()
    {
      memory[..]
    }

    /** `Machine::new`: 0x4000 zero bytes. */
    constructor ()
      ensures Valid() && fresh(memory)
      ensures Contents() == Blank()
    {
      memory := new byte[SIZE](_ => 0);
    }

    /** `read_byte`: reads the mirrored cell; it changes nothing. */
    method ReadByte(address: word) returns (value: byte)
      requires Valid()
      ensures value == Read(Contents(), address)
    {
      value := memory[address % SIZE];
    }

    /** `write_byte`: stores `value` in the mirrored cell. */
    method WriteByte(address: word, value: byte)
      requires Valid()
      modifies memory
      ensures Contents() == Write(old(Contents()), address, value)
    {
      memory[address % SIZE] := value;
    }
  }
}
