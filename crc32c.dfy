// The CRC-32C routines of groups/bdl/bdlde/bdlde_crc32c.cpp: the table-driven
// software routine, the serial hardware routine with the CRC instruction
// taken as the bytewise step, the strategy the calculator picks once, and
// the public entry points with their zero-length short-circuit.
//
// The source works on a pointer and a length.  Here the bytes are a
// sequence, a pointer into them is an index, and the address of the first
// byte (whose remainder modulo the pointer size decides where the aligned
// part starts) is a parameter, as is the pointer size of the build.

module Crc32c {
  import opened Crc32cTables
  import opened Crc32cSpec

  /**
   * The width of a pointer in the build, `sizeof(bsls::Types::IntPtr)`: the
   * software routine aligns to it, and the serial hardware routine reads
   * words of it.
   */
  datatype Word = Bits32 | Bits64 {
    function Size(): (n: nat)
      ensures n == 4 || n == 8
    {
      if this == Bits32 then 4 else 8
    }
  }

  /** The values of the source's `unsigned int length`. */
  type Length = n: nat | n < 0x1_0000_0000

  /** The `data` argument of the entry points: a null pointer, or readable bytes. */
  datatype Buffer = Null | Bytes(bytes: seq<bv8>)

  /** `length` bytes can be read from data; a null pointer only with a length of 0. */
  predicate Readable(data: Buffer, length: nat) {
    match data
    case Null => length == 0
    case Bytes(s) => length <= |s|
  }

  /** The `length` bytes the call covers. */
  function Covered(data: Buffer, length: nat): (s: seq<bv8>)
    requires Readable(data, length)
    ensures |s| == length
    ensures data.Bytes? ==> s == data.bytes[..length]
  {
    if data.Null? then [] else data.bytes[..length]
  }

  // ---------------------------------------------------------------------
  // crc32cSoftware
  // ---------------------------------------------------------------------

  /**
   * `adj`, the number of bytes the software routine takes one at a time
   * before the first pointer-size boundary, never more than length.  The
   * head ends on a boundary unless it takes the whole buffer, and it is
   * never a whole word, so it ends at the first boundary.
   */
  function HeadCount(word: Word, address: nat, length: nat): (adj: nat)
    ensures adj < word.Size() && adj <= length
    ensures adj == length || (address + adj) % word.Size() == 0
  {
    var misaligned := address % word.Size();
    var adj := if misaligned != 0 then word.Size() - misaligned else 0;
    if adj > length then length else adj
  }

  /** The first boundary is less than a word away, so adj is the distance to it, capped at length. */
  lemma HeadCountIsDistance(word: Word, address: nat, length: nat, k: nat)
    requires (address + k) % word.Size() == 0
    ensures HeadCount(word, address, length) <= k
  {
    if word == Bits32 {
      BoundaryDistance4(address, k);
    } else {
      BoundaryDistance8(address, k);
    }
  }

  /** A step k to a 4-byte boundary covers the rest of the word the address is in. */
  lemma BoundaryDistance4(address: nat, k: nat)
    requires (address + k) % 4 == 0
    ensures address % 4 == 0 || 4 - address % 4 <= k
  {
  }

  /** A step k to an 8-byte boundary covers the rest of the word the address is in. */
  lemma BoundaryDistance8(address: nat, k: nat)
    requires (address + k) % 8 == 0
    ensures address % 8 == 0 || 8 - address % 8 <= k
  {
  }

  /**
   * The fall-through `switch` of the software routine (used for the head and
   * for the tail): `count` statements
   * `crc = k_CRC_TABLE_IL8_O32[(crc ^ data[i]) & 0xFF] ^ (crc >> 8); ++i;`
   * from offset `from`.  Given the register over the bytes before `from`, it
   * leaves the register over the bytes before `from + count`.
   */
  method TableBytes(data: seq<bv8>, ghost init: bv32, crc: bv32, from: nat, count: nat)
    returns (r: bv32)
    requires from + count <= |data|
    requires crc == Register(init, data[..from])
    ensures r == Register(init, data[..from + count])
  {
    r := crc;
    var i := 0;
    while i < count
      invariant i <= count
      invariant r == Register(init, data[..from + i])
    {
      TableStepIsByteStep(r, data[from + i]);
      RegisterSnoc(init, data, from + i);
      r := TableStep(r, data[from + i]);
      i := i + 1;
    }
  }

  /**
   * The 8-byte loop of the software routine, from offset `from` to `end`
   * (a whole number of blocks): two little-endian words per iteration,
   * folded in by the eight slice tables.
   */
  method SliceBlocks(data: seq<bv8>, ghost init: bv32, crc: bv32, from: nat, end: nat)
    returns (r: bv32)
    requires from <= end <= |data| && (end - from) % 8 == 0
    requires crc == Register(init, data[..from])
    ensures r == Register(init, data[..end])
  {
    r := crc;
    var pos := from;
    while pos < end
      invariant from <= pos <= end
      invariant (end - pos) % 8 == 0
      invariant r == Register(init, data[..pos])
    {
      SliceBlock(init, data, pos);
      var u32a := LoadLE32(data[pos..pos + 4]);
      pos := pos + 4;
      var u32b := LoadLE32(data[pos..pos + 4]);
      pos := pos + 4;
      r := SliceStep(r, u32a, u32b);
    }
  }

  /**
   * The software routine over the first `length` bytes of data, whose first
   * byte sits at `address`, in a build whose pointers are `word` wide: the
   * seed is inverted, the head of adj bytes (up to the first pointer-size
   * boundary) goes
   * through k_CRC_TABLE_IL8_O32 a byte at a time, the 8-byte blocks through
   * the eight slice tables, the last length & 7 bytes a byte at a time, and
   * the register is inverted again.  The result is the CRC-32C of the bytes
   * whatever the address, and the three phases split the bytes into a head
   * of adj bytes, whole blocks and a tail of fewer than eight.
   */
  method Crc32cSoftware(data: seq<bv8>, length: Length, crc: bv32, address: nat, word: Word)
    returns (r: bv32, ghost head: nat, ghost blocks: nat, ghost tail: nat)
    requires length <= |data|
    ensures r == Checksum(data[..length], crc)
    ensures head == HeadCount(word, address, length)
    ensures blocks % 8 == 0 && tail == (length - head) % 8
    ensures head + blocks + tail == length
  {
    ghost var init := Invert(crc);
    var reg := Invert(crc);

    // [1] the bytes before the first pointer-size boundary
    var adj := HeadCount(word, address, length);
    reg := TableBytes(data, init, reg, 0, adj);
    var remaining := length - adj;
    var pos := adj;

    // [2] eight bytes at a time: `end` is `data + (length & ~7)`
    var end := pos + (remaining - remaining % 8);
    reg := SliceBlocks(data, init, reg, pos, end);
    pos := end;

    // [3] the last `length & 7` bytes
    remaining := remaining % 8;
    reg := TableBytes(data, init, reg, pos, remaining);
    r := Invert(reg);
    head, blocks, tail := adj, end - adj, remaining;
  }

  // ---------------------------------------------------------------------
  // crc32cHardwareSerial
  // ---------------------------------------------------------------------

  /** The one-byte CRC instruction (`crc32qi`), taken as one bytewise step of the register. */
  function Crc32qi(sum: bv32, b: bv8): bv32 {
    ByteStep(sum, b)
  }

  /** The four-byte CRC instruction (`crc32si`): the bytes of the word, least significant first. */
  function Crc32si(sum: bv32, w: bv32): bv32 {
    Register(sum, StoreLE32(w))
  }

  /** The eight-byte CRC instruction (`crc32di`): the bytes of the word, least significant first. */
  function Crc32di(sum: bv32, w: bv64): bv32 {
    Register(sum, StoreLE64(w))
  }

  /** The eight-byte instruction on the word loaded at offset p continues the register over those bytes. */
  lemma Crc32diBlock(init: bv32, s: seq<bv8>, p: nat)
    requires p + 8 <= |s|
    ensures Crc32di(Register(init, s[..p]), LoadLE64(s[p..p + 8])) == Register(init, s[..p + 8])
  {
    StoreLoadLE64(s[p..p + 8]);
    assert s[p..p + 8][..8] == s[p..p + 8];
    RegisterAppend(init, s[..p], s[p..p + 8]);
    assert s[..p] + s[p..p + 8] == s[..p + 8];
  }

  /** The four-byte instruction on the word loaded at offset p continues the register over those bytes. */
  lemma Crc32siBlock(init: bv32, s: seq<bv8>, p: nat)
    requires p + 4 <= |s|
    ensures Crc32si(Register(init, s[..p]), LoadLE32(s[p..p + 4])) == Register(init, s[..p + 4])
  {
    StoreLoadLE32(s[p..p + 4]);
    assert s[p..p + 4][..4] == s[p..p + 4];
    RegisterAppend(init, s[..p], s[p..p + 4]);
    assert s[..p] + s[p..p + 4] == s[..p + 4];
  }

  /** The offsets lo, lo + 1, .., hi - 1 in order. */
  function Offsets(lo: nat, hi: nat): (o: seq<nat>)
    requires lo <= hi
    ensures |o| == hi - lo
    ensures forall k :: 0 <= k < |o| ==> o[k] == lo + k
  {
    seq(hi - lo, k requires 0 <= k < hi - lo => lo + k)
  }

  /** The offsets of two adjacent ranges, one after the other, are the offsets of their union. */
  lemma OffsetsAppend(lo: nat, mid: nat, hi: nat)
    requires lo <= mid <= hi
    ensures Offsets(lo, mid) + Offsets(mid, hi) == Offsets(lo, hi)
  {
    assert forall k :: 0 <= k < hi - lo ==> (Offsets(lo, mid) + Offsets(mid, hi))[k] == lo + k;
  }

  /**
   * A loop of one-byte instructions over the offsets [from, to), recording
   * each offset it consumes.
   */
  method ByteInstructions(data: seq<bv8>, ghost init: bv32, sum: bv32, from: nat, to: nat)
    returns (r: bv32, ghost visits: seq<nat>)
    requires from <= to <= |data|
    requires sum == Register(init, data[..from])
    ensures r == Register(init, data[..to])
    ensures visits == Offsets(from, to)
  {
    r := sum;
    var offset := from;
    visits := [];
    while offset < to
      invariant from <= offset <= to
      invariant r == Register(init, data[..offset])
      invariant visits == Offsets(from, offset)
    {
      RegisterSnoc(init, data, offset);
      r := Crc32qi(r, data[offset]);
      visits := visits + [offset];
      offset := offset + 1;
    }
  }

  /**
   * The loop of eight-byte instructions from offset `from` while eight bytes
   * remain before `length`; it stops fewer than eight bytes before the end.
   */
  method BlockInstructions(data: seq<bv8>, ghost init: bv32, sum: bv32, from: nat, length: nat)
    returns (r: bv32, offset: nat, ghost visits: seq<nat>)
    requires from <= length <= |data|
    requires sum == Register(init, data[..from])
    ensures from <= offset <= length < offset + 8
    ensures (offset - from) % 8 == 0
    ensures r == Register(init, data[..offset])
    ensures visits == Offsets(from, offset)
  {
    r := sum;
    offset := from;
    visits := [];
    while offset + 8 <= length
      invariant from <= offset <= length
      invariant (offset - from) % 8 == 0
      invariant r == Register(init, data[..offset])
      invariant visits == Offsets(from, offset)
    {
      Crc32diBlock(init, data, offset);
      r := Crc32di(r, LoadLE64(data[offset..offset + 8]));
      visits := visits + Offsets(offset, offset + 8);
      offset := offset + 8;
    }
  }

  /**
   * The loop of four-byte instructions from offset `from` while four bytes
   * remain before `length` (the 32-bit build); it stops fewer than four
   * bytes before the end.
   */
  method WordInstructions(data: seq<bv8>, ghost init: bv32, sum: bv32, from: nat, length: nat)
    returns (r: bv32, offset: nat, ghost visits: seq<nat>)
    requires from <= length <= |data|
    requires sum == Register(init, data[..from])
    ensures from <= offset <= length < offset + 4
    ensures (offset - from) % 4 == 0
    ensures r == Register(init, data[..offset])
    ensures visits == Offsets(from, offset)
  {
    r := sum;
    offset := from;
    visits := [];
    while offset + 4 <= length
      invariant from <= offset <= length
      invariant (offset - from) % 4 == 0
      invariant r == Register(init, data[..offset])
      invariant visits == Offsets(from, offset)
    {
      Crc32siBlock(init, data, offset);
      r := Crc32si(r, LoadLE32(data[offset..offset + 4]));
      visits := visits + Offsets(offset, offset + 4);
      offset := offset + 4;
    }
  }

  /**
   * The first loop of the serial hardware routine: when the address is not
   * on a word boundary, byte instructions up to the boundary or to the end
   * of the bytes, whichever comes first.  It takes the same head as the
   * software routine.
   */
  method AlignInstructions(data: seq<bv8>, ghost init: bv32, sum: bv32, length: nat, address: nat, word: Word)
    returns (r: bv32, offset: nat, ghost visits: seq<nat>)
    requires length <= |data|
    requires sum == Register(init, [])
    ensures offset == HeadCount(word, address, length)
    ensures r == Register(init, data[..offset])
    ensures visits == Offsets(0, offset)
  {
    r, offset, visits := sum, 0, [];
    assert data[..0] == [];
    var mask := address % word.Size();
    if mask != 0 {
      var limit := if length < word.Size() - mask then length else word.Size() - mask;
      r, visits := ByteInstructions(data, init, r, 0, limit);
      offset := limit;
    }
  }

  /**
   * The serial hardware routine in a build whose pointers are `word` wide:
   * byte instructions up to the first word boundary (when the address is not
   * on one), then word instructions (`crc32di` on eight bytes in a 64-bit
   * build, `crc32si` on four in a 32-bit one) while a word remains, then
   * byte instructions for the rest.  `visits` lists the offset of every byte
   * the instructions consume, in order: every offset in [0, length) exactly
   * once.  The result is the CRC-32C of the bytes, the same value the
   * software routine computes.
   */
  method Crc32cHardwareSerial(data: seq<bv8>, length: Length, crc: bv32, address: nat, word: Word)
    returns (r: bv32, ghost visits: seq<nat>)
    requires length <= |data|
    ensures r == Checksum(data[..length], crc)
    ensures visits == Offsets(0, length)
  {
    ghost var init := Invert(crc);
    var sum, offset;
    sum, offset, visits := AlignInstructions(data, init, Invert(crc), length, address, word);

    ghost var aligned, more := offset, [];
    if word == Bits64 {
      sum, offset, more := BlockInstructions(data, init, sum, offset, length);
    } else {
      sum, offset, more := WordInstructions(data, init, sum, offset, length);
    }
    OffsetsAppend(0, aligned, offset);
    visits := visits + more;

    ghost var last := offset;
    sum, more := ByteInstructions(data, init, sum, offset, length);
    OffsetsAppend(0, last, length);
    visits := visits + more;
    r := Invert(sum);
  }

  // ---------------------------------------------------------------------
  // The calculator and its one-time choice of routine
  // ---------------------------------------------------------------------

  /** The processor the calculator's constructor finds, with what it learns about it. */
  datatype Cpu =
    | X86(gnuOrClang: bool, sse42: bool)  // x86 or x86-64
    | Sparc(crc32cAvailable: bool)
    | OtherCpu

  /** What the calculator's constructor learns about the build and the processor. */
  datatype Platform = Platform(cpu: Cpu, word: Word)

  /** The routine `g_crc32cFn` points to. */
  datatype Routine = Software | HardwareSerial | Sse64Bit | SparcHardware

  /**
   * The calculator of the source.  Its constructor stores the routine for the
   * platform once; calls only read it.
   */
  class Crc32cCalculator {
    const routine: Routine
    const word: Word

    /**
     * On x86 built by GCC or Clang with SSE 4.2: the 64-bit SSE routine in
     * 64-bit mode, the serial hardware routine in 32-bit mode; on SPARC with
     * the CRC instruction: the SPARC routine; everywhere else: the software
     * routine.  The pointer width of the build is kept for the routines.
     */
    constructor (platform: Platform)
      ensures word == platform.word
      ensures routine == Software <==>
        !(platform.cpu.X86? && platform.cpu.gnuOrClang && platform.cpu.sse42) &&
        !(platform.cpu.Sparc? && platform.cpu.crc32cAvailable)
      ensures routine == HardwareSerial <==>
        platform.cpu.X86? && platform.cpu.gnuOrClang && platform.cpu.sse42 && platform.word == Bits32
      ensures routine == Sse64Bit <==>
        platform.cpu.X86? && platform.cpu.gnuOrClang && platform.cpu.sse42 && platform.word == Bits64
      ensures routine == SparcHardware <==> platform.cpu.Sparc? && platform.cpu.crc32cAvailable
    {
      word := platform.word;
      match platform.cpu
      case X86(gnuOrClang, sse42) =>
        if gnuOrClang {
          if sse42 {
            if platform.word == Bits64 {
              routine := Sse64Bit;
            } else {
              routine := HardwareSerial;
            }
          } else {
            routine := Software;
          }
        } else {
          routine := Software;
        }
      case Sparc(available) =>
        if available {
          routine := SparcHardware;
        } else {
          routine := Software;
        }
      case OtherCpu =>
        routine := Software;
    }

    /**
     * `operator()`: the CRC-32C of the bytes by the stored routine.  The
     * serial hardware routine is stored only in 32-bit builds, so it runs its
     * 32-bit loops.  The 64-bit SSE routine and the SPARC routine are not part
     * of this model and stand here for the value they are to compute.
     */
    method Apply(data: seq<bv8>, length: Length, crc: bv32, address: nat) returns (r: bv32)
      requires length <= |data|
      ensures r == Checksum(data[..length], crc)
    {
      match routine
      case Software =>
        ghost var head, blocks, tail;
        r, head, blocks, tail := Crc32cSoftware(data, length, crc, address, word);
      case HardwareSerial =>
        ghost var visits;
        r, visits := Crc32cHardwareSerial(data, length, crc, address, Bits32);
      case Sse64Bit =>
        r := Checksum(data[..length], crc);
      case SparcHardware =>
        r := Checksum(data[..length], crc);
    }
  }

  // ---------------------------------------------------------------------
  // The entry points
  // ---------------------------------------------------------------------

  /**
   * `Crc32c::calculate`: the CRC-32C of the `length` bytes at data continuing
   * from crc, by the routine the calculator chose.  A zero length gives back
   * crc without reading data, which may then be null.
   */
  method Calculate(calculator: Crc32cCalculator, data: Buffer, length: Length, crc: bv32, address: nat)
    returns (r: bv32)
    requires Readable(data, length)
    ensures r == Checksum(Covered(data, length), crc)
    ensures length == 0 ==> r == crc
  {
    if length == 0 {
      ChecksumEmpty(crc);
      return crc;
    }
    r := calculator.Apply(data.bytes, length, crc, address);
  }

  /** `Crc32c_Impl::calculateSoftware`: the same, always by the software routine of the build. */
  method CalculateSoftware(data: Buffer, length: Length, crc: bv32, address: nat, word: Word) returns (r: bv32)
    requires Readable(data, length)
    ensures r == Checksum(Covered(data, length), crc)
    ensures length == 0 ==> r == crc
  {
    if length == 0 {
      ChecksumEmpty(crc);
      return crc;
    }
    ghost var head, blocks, tail;
    r, head, blocks, tail := Crc32cSoftware(data.bytes, length, crc, address, word);
  }

  /**
   * `Crc32c_Impl::calculateHardwareSerial` (as built by GCC or Clang): the
   * same, always by the serial hardware routine of the build.
   */
  method CalculateHardwareSerial(data: Buffer, length: Length, crc: bv32, address: nat, word: Word) returns (r: bv32)
    requires Readable(data, length)
    ensures r == Checksum(Covered(data, length), crc)
    ensures length == 0 ==> r == crc
  {
    if length == 0 {
      ChecksumEmpty(crc);
      return crc;
    }
    ghost var visits;
    r, visits := Crc32cHardwareSerial(data.bytes, length, crc, address, word);
  }
}
