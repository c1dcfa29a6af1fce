// The CRC-32C checksum as a pure function of the bytes, and the algebra that
// ties the table-driven update of groups/bdl/bdlde/bdlde_crc32c.cpp to the
// bit-at-a-time reflected shift register.

module Crc32cSpec {
  import opened Crc32cTables

  // ---------------------------------------------------------------------
  // Bytes and words
  // ---------------------------------------------------------------------

  /** The low eight bits of x (the source's `x & 0x000000FF` used as an index). */
  function LowByte(x: bv32): (b: bv8)
    ensures b as bv32 == Low(x)
  {
    (x & 0xFF) as bv8
  }

  /**
   * The little-endian 32-bit word made of the first four bytes of s, the
   * `data[0] | data[1] << 8 | data[2] << 16 | data[3] << 24` of the
   * 8-byte loop (and the value an x86 32-bit load yields).
   */
  function LoadLE32(s: seq<bv8>): bv32
    requires |s| >= 4
  {
    (s[0] as bv32) | (s[1] as bv32 << 8) | (s[2] as bv32 << 16) | (s[3] as bv32 << 24)
  }

  /** The four bytes of w, least significant first. */
  function StoreLE32(w: bv32): (s: seq<bv8>)
    ensures |s| == 4
  {
    [LowByte(w), LowByte(Down(w)), LowByte(Down(Down(w))), LowByte(Down(Down(Down(w))))]
  }

  /** The little-endian 64-bit word made of the first eight bytes of s (an x86 64-bit load). */
  function LoadLE64(s: seq<bv8>): bv64
    requires |s| >= 8
  {
    (LoadLE32(s) as bv64) | (LoadLE32(s[4..]) as bv64 << 32)
  }

  /** The eight bytes of w, least significant first. */
  function StoreLE64(w: bv64): (s: seq<bv8>)
    ensures |s| == 8
  {
    StoreLE32((w & 0xFFFF_FFFF) as bv32) + StoreLE32((w >> 32) as bv32)
  }

  lemma StoreLoadLE32(s: seq<bv8>)
    requires |s| >= 4
    ensures StoreLE32(LoadLE32(s)) == s[..4]
  {
  }

  lemma StoreLoadLE64(s: seq<bv8>)
    requires |s| >= 8
    ensures StoreLE64(LoadLE64(s)) == s[..8]
  {
    StoreLoadLE32(s);
    StoreLoadLE32(s[4..]);
  }

  // ---------------------------------------------------------------------
  // Registers as polynomials
  // ---------------------------------------------------------------------

  /**
   * Addition of polynomials over GF(2), that is exclusive or.  The algebra
   * below is stated with it, and with Low, Upper and Down, rather than with
   * the bit-vector operators directly: each bit-vector fact is then proved
   * once, on plain variables, and used by name.
   */
  function Add(a: bv32, b: bv32): bv32 { a ^ b }

  /** The low byte of a register, left in place. */
  function Low(x: bv32): bv32 { x & 0xFF }

  /** Everything above the low byte of a register, left in place. */
  function Upper(x: bv32): bv32 { x & 0xFFFF_FF00 }

  /** A register moved down by one byte. */
  function Down(x: bv32): bv32 { x >> 8 }

  lemma AddAssociates(a: bv32, b: bv32, c: bv32)
    ensures Add(Add(a, b), c) == Add(a, Add(b, c))
  {
  }

  lemma AddCommutes(a: bv32, b: bv32)
    ensures Add(a, b) == Add(b, a)
  {
  }

  lemma AddZero(a: bv32)
    ensures Add(a, 0) == a
  {
  }

  /** A register is its low byte plus the rest. */
  lemma SplitLowByte(x: bv32)
    ensures Add(Low(x), Upper(x)) == x
    ensures Low(Upper(x)) == 0
    ensures Down(Upper(x)) == Down(x)
  {
  }

  /** Adding only the low byte of w changes the low byte as adding w does. */
  lemma LowOfAddLow(r: bv32, w: bv32)
    ensures Low(Add(r, Low(w))) == Low(Add(r, w))
  {
  }

  /** Adding only the low byte of w leaves the upper bytes of r alone. */
  lemma DownOfAddLow(r: bv32, w: bv32)
    ensures Down(Add(r, Low(w))) == Down(r)
  {
  }

  /** Moving down a byte distributes over addition. */
  lemma DownOfAdd(r: bv32, w: bv32)
    ensures Down(Add(r, w)) == Add(Down(r), Down(w))
  {
  }

  /** Adding a byte leaves the upper bytes of the register alone. */
  lemma DownOfAddByte(crc: bv32, b: bv8)
    ensures Down(Add(crc, b as bv32)) == crc >> 8
  {
  }

  /** Four bytes down, nothing of a 32-bit register is left. */
  lemma DownFour(w: bv32)
    ensures Down(Down(Down(Down(w)))) == 0
  {
  }

  // ---------------------------------------------------------------------
  // The shift register, bit by bit
  // ---------------------------------------------------------------------

  lemma BitStepOddOdd(a: bv32, b: bv32)
    requires a & 1 == 1 && b & 1 == 1
    ensures BitStep(Add(a, b)) == Add(BitStep(a), BitStep(b))
  {
    assert (a ^ b) & 1 == 0;
  }

  lemma BitStepOddEven(a: bv32, b: bv32)
    requires a & 1 == 1 && b & 1 == 0
    ensures BitStep(Add(a, b)) == Add(BitStep(a), BitStep(b))
  {
    assert (a ^ b) & 1 == 1;
  }

  lemma BitStepEvenEven(a: bv32, b: bv32)
    requires a & 1 == 0 && b & 1 == 0
    ensures BitStep(Add(a, b)) == Add(BitStep(a), BitStep(b))
  {
    assert (a ^ b) & 1 == 0;
  }

  /** A bit step is linear. */
  lemma BitStepLinear(a: bv32, b: bv32)
    ensures BitStep(Add(a, b)) == Add(BitStep(a), BitStep(b))
  {
    if a & 1 == 1 {
      if b & 1 == 1 {
        BitStepOddOdd(a, b);
      } else {
        BitStepOddEven(a, b);
      }
    } else if b & 1 == 1 {
      BitStepOddEven(b, a);
      AddCommutes(a, b);
      AddCommutes(BitStep(a), BitStep(b));
    } else {
      BitStepEvenEven(a, b);
    }
  }

  /** So is any number of bit steps. */
  lemma {:induction false} ShiftBitsLinear(a: bv32, b: bv32, n: nat)
    ensures ShiftBits(Add(a, b), n) == Add(ShiftBits(a, n), ShiftBits(b, n))
    decreases n
  {
    if n > 0 {
      BitStepLinear(a, b);
      ShiftBitsLinear(BitStep(a), BitStep(b), n - 1);
    }
  }

  /** m bit steps followed by n more are m + n bit steps. */
  lemma {:induction false} ShiftBitsCompose(c: bv32, m: nat, n: nat)
    ensures ShiftBits(ShiftBits(c, m), n) == ShiftBits(c, m + n)
    decreases m
  {
    if m > 0 {
      ShiftBitsCompose(BitStep(c), m - 1, n);
    }
  }

  /** With a clear low bit, a bit step is a plain shift. */
  lemma BitStepEven(c: bv32)
    requires c & 1 == 0
    ensures BitStep(c) == c >> 1
  {
  }

  lemma ShiftOutClearBits1(c: bv32)
    requires c & 0x01 == 0
    ensures ShiftBits(c, 1) == c >> 1
  {
    BitStepEven(c);
  }

  lemma ShiftOutClearBits2(c: bv32)
    requires c & 0x03 == 0
    ensures ShiftBits(c, 2) == c >> 2
  {
    BitStepEven(c);
    ShiftOutClearBits1(c >> 1);
    assert (c >> 1) >> 1 == c >> 2;
  }

  lemma ShiftOutClearBits3(c: bv32)
    requires c & 0x07 == 0
    ensures ShiftBits(c, 3) == c >> 3
  {
    BitStepEven(c);
    ShiftOutClearBits2(c >> 1);
    assert (c >> 1) >> 2 == c >> 3;
  }

  lemma ShiftOutClearBits4(c: bv32)
    requires c & 0x0F == 0
    ensures ShiftBits(c, 4) == c >> 4
  {
    BitStepEven(c);
    ShiftOutClearBits3(c >> 1);
    assert (c >> 1) >> 3 == c >> 4;
  }

  lemma ShiftOutClearBits5(c: bv32)
    requires c & 0x1F == 0
    ensures ShiftBits(c, 5) == c >> 5
  {
    BitStepEven(c);
    ShiftOutClearBits4(c >> 1);
    assert (c >> 1) >> 4 == c >> 5;
  }

  lemma ShiftOutClearBits6(c: bv32)
    requires c & 0x3F == 0
    ensures ShiftBits(c, 6) == c >> 6
  {
    BitStepEven(c);
    ShiftOutClearBits5(c >> 1);
    assert (c >> 1) >> 5 == c >> 6;
  }

  lemma ShiftOutClearBits7(c: bv32)
    requires c & 0x7F == 0
    ensures ShiftBits(c, 7) == c >> 7
  {
    BitStepEven(c);
    ShiftOutClearBits6(c >> 1);
    assert (c >> 1) >> 6 == c >> 7;
  }

  /** A register whose low byte is clear just moves down through eight bit steps. */
  lemma ShiftOutClearByte(c: bv32)
    requires Low(c) == 0
    ensures ShiftBits(c, 8) == Down(c)
  {
    BitStepEven(c);
    ShiftOutClearBits7(c >> 1);
    assert (c >> 1) >> 7 == c >> 8;
  }

  /**
   * Eight bit steps of any register: the low byte goes through eight steps,
   * the rest just moves down a byte.
   */
  lemma ShiftByte(x: bv32)
    ensures ShiftBits(x, 8) == Add(ShiftBits(Low(x), 8), Down(x))
  {
    SplitLowByte(x);
    ShiftBitsLinear(Low(x), Upper(x), 8);
    ShiftOutClearByte(Upper(x));
  }

  /** The same, followed by n more bit steps. */
  lemma ShiftByteThen(x: bv32, n: nat)
    ensures ShiftBits(x, 8 + n) == Add(ShiftBits(Low(x), 8 + n), ShiftBits(Down(x), n))
  {
    ShiftByte(x);
    ShiftBitsCompose(x, 8, n);
    ShiftBitsCompose(Low(x), 8, n);
    ShiftBitsLinear(ShiftBits(Low(x), 8), Down(x), n);
  }

  // ---------------------------------------------------------------------
  // The checksum, byte by byte
  // ---------------------------------------------------------------------

  /**
   * One byte through the reflected CRC-32C register: the byte is added into
   * the low end of the register, which then takes eight bit steps.
   */
  function ByteStep(crc: bv32, b: bv8): bv32 {
    ShiftBits(Add(crc, b as bv32), 8)
  }

  /** The register after the bytes of s, fed in order, starting from crc. */
  function Register(crc: bv32, s: seq<bv8>): bv32
    decreases |s|
  {
    if |s| == 0 then crc else ByteStep(Register(crc, s[..|s| - 1]), s[|s| - 1])
  }

  /**
   * The CRC-32C of s continuing from the checksum seed: the register starts
   * from the inverted seed and the result is inverted again.  A seed of 0
   * gives the checksum of s alone.
   */
  function Checksum(s: seq<bv8>, seed: bv32): bv32 {
    Invert(Register(Invert(seed), s))
  }

  /** The pre- and post-inversion, `crc ^ 0xFFFFFFFF`. */
  function Invert(x: bv32): bv32 { x ^ 0xFFFF_FFFF }

  lemma InvertInvolutive(x: bv32)
    ensures Invert(Invert(x)) == x
  {
  }

  /** Feeding s then t is feeding s + t. */
  lemma {:induction false} RegisterAppend(crc: bv32, s: seq<bv8>, t: seq<bv8>)
    ensures Register(crc, s + t) == Register(Register(crc, s), t)
    decreases |t|
  {
    if |t| > 0 {
      var n := |t| - 1;
      var st := s + t;
      assert st[..|st| - 1] == s + t[..n];
      assert st[|st| - 1] == t[n];
      RegisterAppend(crc, s, t[..n]);
    } else {
      assert s + t == s;
    }
  }

  /** One more byte at the end is one more step. */
  lemma RegisterPush(crc: bv32, s: seq<bv8>, b: bv8)
    ensures Register(crc, s + [b]) == ByteStep(Register(crc, s), b)
  {
    assert (s + [b])[..|s|] == s;
  }

  /** The same, as a loop over s sees it. */
  lemma RegisterSnoc(crc: bv32, s: seq<bv8>, i: nat)
    requires i < |s|
    ensures Register(crc, s[..i + 1]) == ByteStep(Register(crc, s[..i]), s[i])
  {
    assert s[..i + 1][..i] == s[..i];
  }

  /** An empty buffer gives back the seed. */
  lemma ChecksumEmpty(seed: bv32)
    ensures Checksum([], seed) == seed
  {
  }

  /**
   * The seed is the starting point of the calculation: the checksum of t
   * seeded with the checksum of s is the checksum of s + t.
   */
  lemma ChecksumChain(s: seq<bv8>, t: seq<bv8>, seed: bv32)
    ensures Checksum(t, Checksum(s, seed)) == Checksum(s + t, seed)
  {
    InvertInvolutive(Register(Invert(seed), s));
    RegisterAppend(Invert(seed), s, t);
  }

  // ---------------------------------------------------------------------
  // The table-driven update of the source
  // ---------------------------------------------------------------------

  /**
   * The statement `crc = k_CRC_TABLE_IL8_O32[(crc ^ data[i]) & 0xFF] ^ (crc >> 8)`
   * of the software routine.
   */
  function TableStep(crc: bv32, b: bv8): bv32 {
    O32(LowByte(crc ^ b as bv32)) ^ (crc >> 8)
  }

  lemma O32OfLowByte(x: bv32)
    ensures O32(LowByte(x)) == ShiftBits(Low(x), 8)
  {
    O32IsBitwise(LowByte(x));
  }

  /** The table update with the looked-up entry e of the low byte of x = crc ^ b. */
  lemma TableUpdate(crc: bv32, b: bv8, x: bv32, e: bv32)
    requires x == Add(crc, b as bv32) && e == ShiftBits(Low(x), 8)
    ensures e ^ (crc >> 8) == ByteStep(crc, b)
  {
    ShiftByte(x);
    DownOfAddByte(crc, b);
  }

  /** The table update computes the bytewise register step. */
  lemma TableStepIsByteStep(crc: bv32, b: bv8)
    ensures TableStep(crc, b) == ByteStep(crc, b)
  {
    O32OfLowByte(crc ^ b as bv32);
    TableUpdate(crc, b, crc ^ b as bv32, O32(LowByte(crc ^ b as bv32)));
  }

  // ---------------------------------------------------------------------
  // Whole words
  // ---------------------------------------------------------------------

  lemma RegisterFour(crc: bv32, b0: bv8, b1: bv8, b2: bv8, b3: bv8)
    ensures Register(crc, [b0, b1, b2, b3]) == ByteStep(ByteStep(ByteStep(ByteStep(crc, b0), b1), b2), b3)
  {
    RegisterPush(crc, [], b0);
    assert [] + [b0] == [b0];
    RegisterPush(crc, [b0], b1);
    assert [b0] + [b1] == [b0, b1];
    RegisterPush(crc, [b0, b1], b2);
    assert [b0, b1] + [b2] == [b0, b1, b2];
    RegisterPush(crc, [b0, b1, b2], b3);
    assert [b0, b1, b2] + [b3] == [b0, b1, b2, b3];
  }

  lemma ByteStepOfLowByte(r: bv32, w: bv32)
    ensures ByteStep(r, LowByte(w)) == ShiftBits(Add(r, Low(w)), 8)
  {
  }

  /**
   * Eight bit steps of r plus a word w: the low byte of w goes through one
   * bytewise step, the rest of w is still to come.
   */
  lemma PeelByte(r: bv32, w: bv32)
    ensures ShiftBits(Add(r, w), 8) == Add(ByteStep(r, LowByte(w)), Down(w))
  {
    ShiftByte(Add(r, w));
    ShiftByte(Add(r, Low(w)));
    LowOfAddLow(r, w);
    DownOfAddLow(r, w);
    DownOfAdd(r, w);
    ByteStepOfLowByte(r, w);
    AddAssociates(ShiftBits(Low(Add(r, w)), 8), Down(r), Down(w));
  }

  lemma PeelByteThen(r: bv32, w: bv32, n: nat)
    ensures ShiftBits(Add(r, w), 8 + n) == ShiftBits(Add(ByteStep(r, LowByte(w)), Down(w)), n)
  {
    ShiftBitsCompose(Add(r, w), 8, n);
    PeelByte(r, w);
  }

  /** Two bytewise steps peel the two low bytes of w off the register. */
  lemma TwoSteps(r: bv32, w: bv32, n: nat)
    ensures ShiftBits(Add(r, w), 16 + n)
         == ShiftBits(Add(ByteStep(ByteStep(r, LowByte(w)), LowByte(Down(w))), Down(Down(w))), n)
  {
    PeelByteThen(r, w, 8 + n);
    PeelByteThen(ByteStep(r, LowByte(w)), Down(w), n);
  }

  /** Thirty-two bit steps of r plus w are four bytewise steps over the bytes of w. */
  lemma FourByteSteps(r: bv32, w: bv32)
    ensures ShiftBits(Add(r, w), 32)
         == ByteStep(ByteStep(ByteStep(ByteStep(r, LowByte(w)), LowByte(Down(w))), LowByte(Down(Down(w)))),
                     LowByte(Down(Down(Down(w)))))
  {
    var w2 := Down(Down(w));
    var r2 := ByteStep(ByteStep(r, LowByte(w)), LowByte(Down(w)));
    TwoSteps(r, w, 16);
    TwoSteps(r2, w2, 0);
    DownFour(w);
    AddZero(ByteStep(ByteStep(r2, LowByte(w2)), LowByte(Down(w2))));
  }

  /**
   * Four bytewise steps over the bytes of a little-endian word equal 32 bit
   * steps of the register with the whole word added in.
   */
  lemma FourSteps(r: bv32, w: bv32)
    ensures ShiftBits(Add(r, w), 32) == Register(r, StoreLE32(w))
  {
    FourByteSteps(r, w);
    RegisterFour(r, LowByte(w), LowByte(Down(w)), LowByte(Down(Down(w))), LowByte(Down(Down(Down(w)))));
  }

  // ---------------------------------------------------------------------
  // The slice tables on a register's low byte
  // ---------------------------------------------------------------------

  /** Entry k of k_CRC_TABLE_IL8_O40 is k shifted through 16 bit steps. */
  lemma O40OfLowByte(x: bv32)
    ensures O40(LowByte(x)) == ShiftBits(Low(x), 16)
  {
    O40AdvancesO32(LowByte(x));
    O32OfLowByte(x);
    ShiftBitsCompose(Low(x), 8, 8);
  }

  /** Entry k of k_CRC_TABLE_IL8_O48 is k shifted through 24 bit steps. */
  lemma O48OfLowByte(x: bv32)
    ensures O48(LowByte(x)) == ShiftBits(Low(x), 24)
  {
    O48AdvancesO40(LowByte(x));
    O40OfLowByte(x);
    ShiftBitsCompose(Low(x), 16, 8);
  }

  /** Entry k of k_CRC_TABLE_IL8_O56 is k shifted through 32 bit steps. */
  lemma O56OfLowByte(x: bv32)
    ensures O56(LowByte(x)) == ShiftBits(Low(x), 32)
  {
    O56AdvancesO48(LowByte(x));
    O48OfLowByte(x);
    ShiftBitsCompose(Low(x), 24, 8);
  }

  /** Entry k of k_CRC_TABLE_IL8_O64 is k shifted through 40 bit steps. */
  lemma O64OfLowByte(x: bv32)
    ensures O64(LowByte(x)) == ShiftBits(Low(x), 40)
  {
    O64AdvancesO56(LowByte(x));
    O56OfLowByte(x);
    ShiftBitsCompose(Low(x), 32, 8);
  }

  /** Entry k of k_CRC_TABLE_IL8_O72 is k shifted through 48 bit steps. */
  lemma O72OfLowByte(x: bv32)
    ensures O72(LowByte(x)) == ShiftBits(Low(x), 48)
  {
    O72AdvancesO64(LowByte(x));
    O64OfLowByte(x);
    ShiftBitsCompose(Low(x), 40, 8);
  }

  /** Entry k of k_CRC_TABLE_IL8_O80 is k shifted through 56 bit steps. */
  lemma O80OfLowByte(x: bv32)
    ensures O80(LowByte(x)) == ShiftBits(Low(x), 56)
  {
    O80AdvancesO72(LowByte(x));
    O72OfLowByte(x);
    ShiftBitsCompose(Low(x), 48, 8);
  }

  /** Entry k of k_CRC_TABLE_IL8_O88 is k shifted through 64 bit steps. */
  lemma O88OfLowByte(x: bv32)
    ensures O88(LowByte(x)) == ShiftBits(Low(x), 64)
  {
    O88AdvancesO80(LowByte(x));
    O80OfLowByte(x);
    ShiftBitsCompose(Low(x), 56, 8);
  }

  // ---------------------------------------------------------------------
  // One iteration of the 8-byte loop
  // ---------------------------------------------------------------------

  /**
   * The first half of the 8-byte loop body, on `c = crc ^ u32a`: the four
   * bytes of c looked up in k_CRC_TABLE_IL8_O88 .. O64 and added up
   * (term1, then term2 = c moved down two bytes, as the source names them).
   */
  function SliceHigh(c: bv32): bv32 {
    var term1 := Add(O88(LowByte(c)), O80(LowByte(Down(c))));
    var term2 := Down(Down(c));
    Add(Add(term1, O72(LowByte(term2))), O64(LowByte(Down(term2))))
  }

  /** The second half, on `u32b`: its four bytes looked up in k_CRC_TABLE_IL8_O56 .. O32. */
  function SliceLow(u: bv32): bv32 {
    var term1 := Add(O56(LowByte(u)), O48(LowByte(Down(u))));
    var term2 := Down(Down(u));
    Add(Add(term1, O40(LowByte(term2))), O32(LowByte(Down(term2))))
  }

  /**
   * The register after one iteration of the 8-byte loop over the words
   * `u32a` and `u32b` (the exclusive ors of the second half regrouped).
   */
  function SliceStep(crc: bv32, u32a: bv32, u32b: bv32): bv32 {
    Add(SliceHigh(Add(crc, u32a)), SliceLow(u32b))
  }

  /** The top byte of a register, moved down three bytes, is all that is left. */
  lemma TopByte(c: bv32)
    ensures Low(Down(Down(Down(c)))) == Down(Down(Down(c)))
  {
  }

  /** Regrouping a sum of four. */
  lemma AddFour(e0: bv32, e1: bv32, e2: bv32, e3: bv32)
    ensures Add(Add(Add(e0, e1), e2), e3) == Add(e0, Add(e1, Add(e2, e3)))
  {
    AddAssociates(Add(e0, e1), e2, e3);
    AddAssociates(e0, e1, Add(e2, e3));
  }

  /**
   * Sixty-four bit steps of c split into its four bytes, each taking the
   * steps that remain after it: the sum e0 + e1 + e2 + e3 of the first half.
   */
  lemma SliceHighSum(c: bv32, e0: bv32, e1: bv32, e2: bv32, e3: bv32)
    requires e0 == ShiftBits(Low(c), 64)
    requires e1 == ShiftBits(Low(Down(c)), 56)
    requires e2 == ShiftBits(Low(Down(Down(c))), 48)
    requires e3 == ShiftBits(Low(Down(Down(Down(c)))), 40)
    ensures Add(Add(Add(e0, e1), e2), e3) == ShiftBits(c, 64)
  {
    ShiftByteThen(c, 56);
    ShiftByteThen(Down(c), 48);
    ShiftByteThen(Down(Down(c)), 40);
    TopByte(c);
    AddFour(e0, e1, e2, e3);
  }

  /** The same for the thirty-two bit steps of the second word. */
  lemma SliceLowSum(u: bv32, e0: bv32, e1: bv32, e2: bv32, e3: bv32)
    requires e0 == ShiftBits(Low(u), 32)
    requires e1 == ShiftBits(Low(Down(u)), 24)
    requires e2 == ShiftBits(Low(Down(Down(u))), 16)
    requires e3 == ShiftBits(Low(Down(Down(Down(u)))), 8)
    ensures Add(Add(Add(e0, e1), e2), e3) == ShiftBits(u, 32)
  {
    ShiftByteThen(u, 24);
    ShiftByteThen(Down(u), 16);
    ShiftByteThen(Down(Down(u)), 8);
    TopByte(u);
    AddFour(e0, e1, e2, e3);
  }

  /** The first half of the loop body is sixty-four bit steps of c. */
  lemma SliceHighIsShift(c: bv32)
    ensures SliceHigh(c) == ShiftBits(c, 64)
  {
    O88OfLowByte(c);
    O80OfLowByte(Down(c));
    O72OfLowByte(Down(Down(c)));
    O64OfLowByte(Down(Down(Down(c))));
    SliceHighSum(c, O88(LowByte(c)), O80(LowByte(Down(c))),
      O72(LowByte(Down(Down(c)))), O64(LowByte(Down(Down(Down(c))))));
  }

  /** The second half is thirty-two bit steps of u. */
  lemma SliceLowIsShift(u: bv32)
    ensures SliceLow(u) == ShiftBits(u, 32)
  {
    O56OfLowByte(u);
    O48OfLowByte(Down(u));
    O40OfLowByte(Down(Down(u)));
    O32OfLowByte(Down(Down(Down(u))));
    SliceLowSum(u, O56(LowByte(u)), O48(LowByte(Down(u))),
      O40(LowByte(Down(Down(u)))), O32(LowByte(Down(Down(Down(u))))));
  }

  /** Eight bytewise steps over two little-endian words, in closed form. */
  lemma EightSteps(r: bv32, a: bv32, u: bv32)
    ensures Register(r, StoreLE32(a) + StoreLE32(u)) == Add(ShiftBits(Add(r, a), 64), ShiftBits(u, 32))
  {
    RegisterAppend(r, StoreLE32(a), StoreLE32(u));
    FourSteps(r, a);
    FourSteps(Register(r, StoreLE32(a)), u);
    ShiftBitsLinear(Register(r, StoreLE32(a)), u, 32);
    ShiftBitsCompose(Add(r, a), 32, 32);
  }

  /**
   * One iteration of the 8-byte loop over eight bytes s, read as the
   * little-endian words s[..4] and s[4..], equals eight successive bytewise
   * steps over them.
   */
  lemma SliceStepIsEightSteps(crc: bv32, s: seq<bv8>)
    requires |s| == 8
    ensures SliceStep(crc, LoadLE32(s[..4]), LoadLE32(s[4..])) == Register(crc, s)
  {
    var a, u := LoadLE32(s[..4]), LoadLE32(s[4..]);
    SliceStepOfWords(crc, a, u);
    StoreLoadLE32(s[..4]);
    StoreLoadLE32(s[4..]);
    assert s == s[..4][..4] + s[4..][..4];
  }

  /** The same over the bytes of the two words. */
  lemma SliceStepOfWords(crc: bv32, a: bv32, u: bv32)
    ensures SliceStep(crc, a, u) == Register(crc, StoreLE32(a) + StoreLE32(u))
  {
    SliceHighIsShift(Add(crc, a));
    SliceLowIsShift(u);
    EightSteps(crc, a, u);
  }

  /** The same, for the block at offset p of a buffer whose first p bytes are already in the register. */
  lemma SliceBlock(crc: bv32, s: seq<bv8>, p: nat)
    requires p + 8 <= |s|
    ensures SliceStep(Register(crc, s[..p]), LoadLE32(s[p..p + 4]), LoadLE32(s[p + 4..p + 8]))
         == Register(crc, s[..p + 8])
  {
    var block := s[p..p + 8];
    assert block[..4] == s[p..p + 4] && block[4..] == s[p + 4..p + 8];
    SliceStepIsEightSteps(Register(crc, s[..p]), block);
    RegisterAppend(crc, s[..p], block);
    assert s[..p] + block == s[..p + 8];
  }

  // ---------------------------------------------------------------------
  // A worked example: RFC 3720, appendix B.4
  // ---------------------------------------------------------------------

  /** Bytes 8k .. 8k + 7 of the "incrementing" example: 0x00, 0x01, .., 0x1F. */
  function IncrementingBlock(k: nat): (s: seq<bv8>)
    requires k < 4
    ensures |s| == 8
  {
    seq(8, i requires 0 <= i < 8 => (8 * k + i) as bv8)
  }

  /** Bytes 0 .. 7 of the example, one slice step from register 0xFFFFFFFF. */
  lemma IncrementingBlockStep0()
    ensures Register(0xFFFFFFFF, IncrementingBlock(0)) == 0x75D343C4
  {
    var s := IncrementingBlock(0);
    assert s == [0x00, 0x01, 0x02, 0x03, 0x04, 0x05, 0x06, 0x07];
    assert LoadLE32(s[..4]) == 0x03020100 && LoadLE32(s[4..]) == 0x07060504;
    SliceStepIsEightSteps(0xFFFFFFFF, s);
    IncrementingSlice0();
  }

  lemma IncrementingSlice0()
    ensures SliceStep(0xFFFFFFFF, 0x03020100, 0x07060504) == 0x75D343C4
  {
  }

  /** Bytes 8 .. 15 of the example, one slice step from register 0x75D343C4. */
  lemma IncrementingBlockStep1()
    ensures Register(0x75D343C4, IncrementingBlock(1)) == 0x2636F714
  {
    var s := IncrementingBlock(1);
    assert s == [0x08, 0x09, 0x0A, 0x0B, 0x0C, 0x0D, 0x0E, 0x0F];
    assert LoadLE32(s[..4]) == 0x0B0A0908 && LoadLE32(s[4..]) == 0x0F0E0D0C;
    SliceStepIsEightSteps(0x75D343C4, s);
    IncrementingSlice1();
  }

  lemma IncrementingSlice1()
    ensures SliceStep(0x75D343C4, 0x0B0A0908, 0x0F0E0D0C) == 0x2636F714
  {
  }

  /** Bytes 16 .. 23 of the example, one slice step from register 0x2636F714. */
  lemma IncrementingBlockStep2()
    ensures Register(0x2636F714, IncrementingBlock(2)) == 0xD643786A
  {
    var s := IncrementingBlock(2);
    assert s == [0x10, 0x11, 0x12, 0x13, 0x14, 0x15, 0x16, 0x17];
    assert LoadLE32(s[..4]) == 0x13121110 && LoadLE32(s[4..]) == 0x17161514;
    SliceStepIsEightSteps(0x2636F714, s);
    IncrementingSlice2();
  }

  lemma IncrementingSlice2()
    ensures SliceStep(0x2636F714, 0x13121110, 0x17161514) == 0xD643786A
  {
  }

  /** Bytes 24 .. 31 of the example, one slice step from register 0xD643786A. */
  lemma IncrementingBlockStep3()
    ensures Register(0xD643786A, IncrementingBlock(3)) == 0xB92286B1
  {
    var s := IncrementingBlock(3);
    assert s == [0x18, 0x19, 0x1A, 0x1B, 0x1C, 0x1D, 0x1E, 0x1F];
    assert LoadLE32(s[..4]) == 0x1B1A1918 && LoadLE32(s[4..]) == 0x1F1E1D1C;
    SliceStepIsEightSteps(0xD643786A, s);
    IncrementingSlice3();
  }

  lemma IncrementingSlice3()
    ensures SliceStep(0xD643786A, 0x1B1A1918, 0x1F1E1D1C) == 0xB92286B1
  {
  }

  /** The register after the first 8, 16, 24 and 32 bytes of the example. */
  lemma IncrementingPrefixes()
    ensures Register(0xFFFF_FFFF, IncrementingBlock(0)) == 0x75D343C4
    ensures Register(0xFFFF_FFFF, IncrementingBlock(0) + IncrementingBlock(1)) == 0x2636F714
    ensures Register(0xFFFF_FFFF, IncrementingBlock(0) + IncrementingBlock(1) + IncrementingBlock(2)) == 0xD643786A
    ensures Register(0xFFFF_FFFF, IncrementingBlock(0) + IncrementingBlock(1) + IncrementingBlock(2)
                                  + IncrementingBlock(3)) == 0xB92286B1
  {
    var b0, b1, b2, b3 := IncrementingBlock(0), IncrementingBlock(1), IncrementingBlock(2), IncrementingBlock(3);
    IncrementingBlockStep0();
    IncrementingBlockStep1();
    IncrementingBlockStep2();
    IncrementingBlockStep3();
    RegisterAppend(0xFFFF_FFFF, b0, b1);
    RegisterAppend(0xFFFF_FFFF, b0 + b1, b2);
    RegisterAppend(0xFFFF_FFFF, b0 + b1 + b2, b3);
  }

  /**
   * The CRC-32C of the 32 bytes 0x00 .. 0x1F with a seed of 0 is 0x46DD794E,
   * stored least significant byte first as 4e 79 dd 46, as the example gives.
   */
  lemma IncrementingChecksum()
    ensures Checksum(IncrementingBlock(0) + IncrementingBlock(1) + IncrementingBlock(2) + IncrementingBlock(3), 0)
         == 0x46DD794E
  {
    IncrementingPrefixes();
  }
}
