// The eight slice tables of the software CRC-32C routine
// (groups/bdl/bdlde/bdlde_crc32c.cpp, k_CRC_TABLE_IL8_O32 .. O88), and the
// reflected shift register they tabulate.
//
// Each table is written as a lookup on the bits of the index, most
// significant bit first; read top to bottom, the leaves are the source's
// entries in index order, two to a line.  (A decision on the index lets the
// verifier open only the entries a proof needs.)  Two facts are proved about
// the tables, sixteen entries at a time and then for every index b:
//   * entry b of O32 is the register holding b shifted through eight steps of
//     the reflected Castagnoli polynomial (the bytewise CRC-32C table);
//   * entry b of each later table is entry b of the previous table shifted
//     through eight more steps (one zero byte later).

module Crc32cTables {

  /** The Castagnoli generator polynomial, in normal (most significant bit first) form. */
  const Polynomial: bv32 := 0x1EDC6F41

  /** The same polynomial bit-reversed, as the reflected algorithm uses it. */
  const ReflectedPolynomial: bv32 := 0x82F63B78

  /** Bit i of the reflected constant is bit 31 - i of the generator. */
  lemma ReflectedPolynomialIsReversal()
    ensures forall i: bv32 {:trigger Polynomial >> i} | i < 32 ::
      (Polynomial >> i) & 1 == (ReflectedPolynomial >> (31 - i)) & 1
  {
  }

  // ---------------------------------------------------------------------
  // The reflected shift register
  // ---------------------------------------------------------------------

  /**
   * One bit of the reflected shift register: shift right by one and fold in
   * the polynomial when the bit shifted out was set.
   */
  function BitStep(c: bv32): bv32 {
    if c & 1 == 1 then (c >> 1) ^ ReflectedPolynomial else c >> 1
  }

  /**
   * The register c after n bit steps.  (The decreases clause names c as
   * well as n so that the definition is unrolled all the way only when both
   * arguments are literals.)
   */
  function ShiftBits(c: bv32, n: nat): bv32
    decreases n, c
  {
    if n == 0 then c else ShiftBits(BitStep(c), n - 1)
  }

  // ---------------------------------------------------------------------
  // The tables as written in the source
  // ---------------------------------------------------------------------

  /** Entry b of k_CRC_TABLE_IL8_O32. */
  function O32(b: bv8): bv32 {
    if b & 0x80 == 0 then
      if b & 0x40 == 0 then
        if b & 0x20 == 0 then
          if b & 0x10 == 0 then
            if b & 0x08 == 0 then
              if b & 0x04 == 0 then
                if b & 0x02 == 0 then
                  (if b & 0x01 == 0 then 0x00000000 else 0xF26B8303)
                else
                  (if b & 0x01 == 0 then 0xE13B70F7 else 0x1350F3F4)
              else
                if b & 0x02 == 0 then
                  (if b & 0x01 == 0 then 0xC79A971F else 0x35F1141C)
                else
                  (if b & 0x01 == 0 then 0x26A1E7E8 else 0xD4CA64EB)
            else
              if b & 0x04 == 0 then
                if b & 0x02 == 0 then
                  (if b & 0x01 == 0 then 0x8AD958CF else 0x78B2DBCC)
                else
                  (if b & 0x01 == 0 then 0x6BE22838 else 0x9989AB3B)
              else
                if b & 0x02 == 0 then
                  (if b & 0x01 == 0 then 0x4D43CFD0 else 0xBF284CD3)
                else
                  (if b & 0x01 == 0 then 0xAC78BF27 else 0x5E133C24)
          else
            if b & 0x08 == 0 then
              if b & 0x04 == 0 then
                if b & 0x02 == 0 then
                  (if b & 0x01 == 0 then 0x105EC76F else 0xE235446C)
                else
                  (if b & 0x01 == 0 then 0xF165B798 else 0x030E349B)
              else
                if b & 0x02 == 0 then
                  (if b & 0x01 == 0 then 0xD7C45070 else 0x25AFD373)
                else
                  (if b & 0x01 == 0 then 0x36FF2087 else 0xC494A384)
            else
              if b & 0x04 == 0 then
                if b & 0x02 == 0 then
                  (if b & 0x01 == 0 then 0x9A879FA0 else 0x68EC1CA3)
                else
                  (if b & 0x01 == 0 then 0x7BBCEF57 else 0x89D76C54)
              else
                if b & 0x02 == 0 then
                  (if b & 0x01 == 0 then 0x5D1D08BF else 0xAF768BBC)
                else
                  (if b & 0x01 == 0 then 0xBC267848 else 0x4E4DFB4B)
        else
          if b & 0x10 == 0 then
            if b & 0x08 == 0 then
              if b & 0x04 == 0 then
                if b & 0x02 == 0 then
                  (if b & 0x01 == 0 then 0x20BD8EDE else 0xD2D60DDD)
                else
                  (if b & 0x01 == 0 then 0xC186FE29 else 0x33ED7D2A)
              else
                if b & 0x02 == 0 then
                  (if b & 0x01 == 0 then 0xE72719C1 else 0x154C9AC2)
                else
                  (if b & 0x01 == 0 then 0x061C6936 else 0xF477EA35)
            else
              if b & 0x04 == 0 then
                if b & 0x02 == 0 then
                  (if b & 0x01 == 0 then 0xAA64D611 else 0x580F5512)
                else
                  (if b & 0x01 == 0 then 0x4B5FA6E6 else 0xB93425E5)
              else
                if b & 0x02 == 0 then
                  (if b & 0x01 == 0 then 0x6DFE410E else 0x9F95C20D)
                else
                  (if b & 0x01 == 0 then 0x8CC531F9 else 0x7EAEB2FA)
          else
            if b & 0x08 == 0 then
              if b & 0x04 == 0 then
                if b & 0x02 == 0 then
                  (if b & 0x01 == 0 then 0x30E349B1 else 0xC288CAB2)
                else
                  (if b & 0x01 == 0 then 0xD1D83946 else 0x23B3BA45)
              else
                if b & 0x02 == 0 then
                  (if b & 0x01 == 0 then 0xF779DEAE else 0x05125DAD)
                else
                  (if b & 0x01 == 0 then 0x1642AE59 else 0xE4292D5A)
            else
              if b & 0x04 == 0 then
                if b & 0x02 == 0 then
                  (if b & 0x01 == 0 then 0xBA3A117E else 0x4851927D)
                else
                  (if b & 0x01 == 0 then 0x5B016189 else 0xA96AE28A)
              else
                if b & 0x02 == 0 then
                  (if b & 0x01 == 0 then 0x7DA08661 else 0x8FCB0562)
                else
                  (if b & 0x01 == 0 then 0x9C9BF696 else 0x6EF07595)
      else
        if b & 0x20 == 0 then
          if b & 0x10 == 0 then
            if b & 0x08 == 0 then
              if b & 0x04 == 0 then
                if b & 0x02 == 0 then
                  (if b & 0x01 == 0 then 0x417B1DBC else 0xB3109EBF)
                else
                  (if b & 0x01 == 0 then 0xA0406D4B else 0x522BEE48)
              else
                if b & 0x02 == 0 then
                  (if b & 0x01 == 0 then 0x86E18AA3 else 0x748A09A0)
                else
                  (if b & 0x01 == 0 then 0x67DAFA54 else 0x95B17957)
            else
              if b & 0x04 == 0 then
                if b & 0x02 == 0 then
                  (if b & 0x01 == 0 then 0xCBA24573 else 0x39C9C670)
                else
                  (if b & 0x01 == 0 then 0x2A993584 else 0xD8F2B687)
              else
                if b & 0x02 == 0 then
                  (if b & 0x01 == 0 then 0x0C38D26C else 0xFE53516F)
                else
                  (if b & 0x01 == 0 then 0xED03A29B else 0x1F682198)
          else
            if b & 0x08 == 0 then
              if b & 0x04 == 0 then
                if b & 0x02 == 0 then
                  (if b & 0x01 == 0 then 0x5125DAD3 else 0xA34E59D0)
                else
                  (if b & 0x01 == 0 then 0xB01EAA24 else 0x42752927)
              else
                if b & 0x02 == 0 then
                  (if b & 0x01 == 0 then 0x96BF4DCC else 0x64D4CECF)
                else
                  (if b & 0x01 == 0 then 0x77843D3B else 0x85EFBE38)
            else
              if b & 0x04 == 0 then
                if b & 0x02 == 0 then
                  (if b & 0x01 == 0 then 0xDBFC821C else 0x2997011F)
                else
                  (if b & 0x01 == 0 then 0x3AC7F2EB else 0xC8AC71E8)
              else
                if b & 0x02 == 0 then
                  (if b & 0x01 == 0 then 0x1C661503 else 0xEE0D9600)
                else
                  (if b & 0x01 == 0 then 0xFD5D65F4 else 0x0F36E6F7)
        else
          if b & 0x10 == 0 then
            if b & 0x08 == 0 then
              if b & 0x04 == 0 then
                if b & 0x02 == 0 then
                  (if b & 0x01 == 0 then 0x61C69362 else 0x93AD1061)
                else
                  (if b & 0x01 == 0 then 0x80FDE395 else 0x72966096)
              else
                if b & 0x02 == 0 then
                  (if b & 0x01 == 0 then 0xA65C047D else 0x5437877E)
                else
                  (if b & 0x01 == 0 then 0x4767748A else 0xB50CF789)
            else
              if b & 0x04 == 0 then
                if b & 0x02 == 0 then
                  (if b & 0x01 == 0 then 0xEB1FCBAD else 0x197448AE)
                else
                  (if b & 0x01 == 0 then 0x0A24BB5A else 0xF84F3859)
              else
                if b & 0x02 == 0 then
                  (if b & 0x01 == 0 then 0x2C855CB2 else 0xDEEEDFB1)
                else
                  (if b & 0x01 == 0 then 0xCDBE2C45 else 0x3FD5AF46)
          else
            if b & 0x08 == 0 then
              if b & 0x04 == 0 then
                if b & 0x02 == 0 then
                  (if b & 0x01 == 0 then 0x7198540D else 0x83F3D70E)
                else
                  (if b & 0x01 == 0 then 0x90A324FA else 0x62C8A7F9)
              else
                if b & 0x02 == 0 then
                  (if b & 0x01 == 0 then 0xB602C312 else 0x44694011)
                else
                  (if b & 0x01 == 0 then 0x5739B3E5 else 0xA55230E6)
            else
              if b & 0x04 == 0 then
                if b & 0x02 == 0 then
                  (if b & 0x01 == 0 then 0xFB410CC2 else 0x092A8FC1)
                else
                  (if b & 0x01 == 0 then 0x1A7A7C35 else 0xE811FF36)
              else
                if b & 0x02 == 0 then
                  (if b & 0x01 == 0 then 0x3CDB9BDD else 0xCEB018DE)
                else
                  (if b & 0x01 == 0 then 0xDDE0EB2A else 0x2F8B6829)
    else
      if b & 0x40 == 0 then
        if b & 0x20 == 0 then
          if b & 0x10 == 0 then
            if b & 0x08 == 0 then
              if b & 0x04 == 0 then
                if b & 0x02 == 0 then
                  (if b & 0x01 == 0 then 0x82F63B78 else 0x709DB87B)
                else
                  (if b & 0x01 == 0 then 0x63CD4B8F else 0x91A6C88C)
              else
                if b & 0x02 == 0 then
                  (if b & 0x01 == 0 then 0x456CAC67 else 0xB7072F64)
                else
                  (if b & 0x01 == 0 then 0xA457DC90 else 0x563C5F93)
            else
              if b & 0x04 == 0 then
                if b & 0x02 == 0 then
                  (if b & 0x01 == 0 then 0x082F63B7 else 0xFA44E0B4)
                else
                  (if b & 0x01 == 0 then 0xE9141340 else 0x1B7F9043)
              else
                if b & 0x02 == 0 then
                  (if b & 0x01 == 0 then 0xCFB5F4A8 else 0x3DDE77AB)
                else
                  (if b & 0x01 == 0 then 0x2E8E845F else 0xDCE5075C)
          else
            if b & 0x08 == 0 then
              if b & 0x04 == 0 then
                if b & 0x02 == 0 then
                  (if b & 0x01 == 0 then 0x92A8FC17 else 0x60C37F14)
                else
                  (if b & 0x01 == 0 then 0x73938CE0 else 0x81F80FE3)
              else
                if b & 0x02 == 0 then
                  (if b & 0x01 == 0 then 0x55326B08 else 0xA759E80B)
                else
                  (if b & 0x01 == 0 then 0xB4091BFF else 0x466298FC)
            else
              if b & 0x04 == 0 then
                if b & 0x02 == 0 then
                  (if b & 0x01 == 0 then 0x1871A4D8 else 0xEA1A27DB)
                else
                  (if b & 0x01 == 0 then 0xF94AD42F else 0x0B21572C)
              else
                if b & 0x02 == 0 then
                  (if b & 0x01 == 0 then 0xDFEB33C7 else 0x2D80B0C4)
                else
                  (if b & 0x01 == 0 then 0x3ED04330 else 0xCCBBC033)
        else
          if b & 0x10 == 0 then
            if b & 0x08 == 0 then
              if b & 0x04 == 0 then
                if b & 0x02 == 0 then
                  (if b & 0x01 == 0 then 0xA24BB5A6 else 0x502036A5)
                else
                  (if b & 0x01 == 0 then 0x4370C551 else 0xB11B4652)
              else
                if b & 0x02 == 0 then
                  (if b & 0x01 == 0 then 0x65D122B9 else 0x97BAA1BA)
                else
                  (if b & 0x01 == 0 then 0x84EA524E else 0x7681D14D)
            else
              if b & 0x04 == 0 then
                if b & 0x02 == 0 then
                  (if b & 0x01 == 0 then 0x2892ED69 else 0xDAF96E6A)
                else
                  (if b & 0x01 == 0 then 0xC9A99D9E else 0x3BC21E9D)
              else
                if b & 0x02 == 0 then
                  (if b & 0x01 == 0 then 0xEF087A76 else 0x1D63F975)
                else
                  (if b & 0x01 == 0 then 0x0E330A81 else 0xFC588982)
          else
            if b & 0x08 == 0 then
              if b & 0x04 == 0 then
                if b & 0x02 == 0 then
                  (if b & 0x01 == 0 then 0xB21572C9 else 0x407EF1CA)
                else
                  (if b & 0x01 == 0 then 0x532E023E else 0xA145813D)
              else
                if b & 0x02 == 0 then
                  (if b & 0x01 == 0 then 0x758FE5D6 else 0x87E466D5)
                else
                  (if b & 0x01 == 0 then 0x94B49521 else 0x66DF1622)
            else
              if b & 0x04 == 0 then
                if b & 0x02 == 0 then
                  (if b & 0x01 == 0 then 0x38CC2A06 else 0xCAA7A905)
                else
                  (if b & 0x01 == 0 then 0xD9F75AF1 else 0x2B9CD9F2)
              else
                if b & 0x02 == 0 then
                  (if b & 0x01 == 0 then 0xFF56BD19 else 0x0D3D3E1A)
                else
                  (if b & 0x01 == 0 then 0x1E6DCDEE else 0xEC064EED)
      else
        if b & 0x20 == 0 then
          if b & 0x10 == 0 then
            if b & 0x08 == 0 then
              if b & 0x04 == 0 then
                if b & 0x02 == 0 then
                  (if b & 0x01 == 0 then 0xC38D26C4 else 0x31E6A5C7)
                else
                  (if b & 0x01 == 0 then 0x22B65633 else 0xD0DDD530)
              else
                if b & 0x02 == 0 then
                  (if b & 0x01 == 0 then 0x0417B1DB else 0xF67C32D8)
                else
                  (if b & 0x01 == 0 then 0xE52CC12C else 0x1747422F)
            else
              if b & 0x04 == 0 then
                if b & 0x02 == 0 then
                  (if b & 0x01 == 0 then 0x49547E0B else 0xBB3FFD08)
                else
                  (if b & 0x01 == 0 then 0xA86F0EFC else 0x5A048DFF)
              else
                if b & 0x02 == 0 then
                  (if b & 0x01 == 0 then 0x8ECEE914 else 0x7CA56A17)
                else
                  (if b & 0x01 == 0 then 0x6FF599E3 else 0x9D9E1AE0)
          else
            if b & 0x08 == 0 then
              if b & 0x04 == 0 then
                if b & 0x02 == 0 then
                  (if b & 0x01 == 0 then 0xD3D3E1AB else 0x21B862A8)
                else
                  (if b & 0x01 == 0 then 0x32E8915C else 0xC083125F)
              else
                if b & 0x02 == 0 then
                  (if b & 0x01 == 0 then 0x144976B4 else 0xE622F5B7)
                else
                  (if b & 0x01 == 0 then 0xF5720643 else 0x07198540)
            else
              if b & 0x04 == 0 then
                if b & 0x02 == 0 then
                  (if b & 0x01 == 0 then 0x590AB964 else 0xAB613A67)
                else
                  (if b & 0x01 == 0 then 0xB831C993 else 0x4A5A4A90)
              else
                if b & 0x02 == 0 then
                  (if b & 0x01 == 0 then 0x9E902E7B else 0x6CFBAD78)
                else
                  (if b & 0x01 == 0 then 0x7FAB5E8C else 0x8DC0DD8F)
        else
          if b & 0x10 == 0 then
            if b & 0x08 == 0 then
              if b & 0x04 == 0 then
                if b & 0x02 == 0 then
                  (if b & 0x01 == 0 then 0xE330A81A else 0x115B2B19)
                else
                  (if b & 0x01 == 0 then 0x020BD8ED else 0xF0605BEE)
              else
                if b & 0x02 == 0 then
                  (if b & 0x01 == 0 then 0x24AA3F05 else 0xD6C1BC06)
                else
                  (if b & 0x01 == 0 then 0xC5914FF2 else 0x37FACCF1)
            else
              if b & 0x04 == 0 then
                if b & 0x02 == 0 then
                  (if b & 0x01 == 0 then 0x69E9F0D5 else 0x9B8273D6)
                else
                  (if b & 0x01 == 0 then 0x88D28022 else 0x7AB90321)
              else
                if b & 0x02 == 0 then
                  (if b & 0x01 == 0 then 0xAE7367CA else 0x5C18E4C9)
                else
                  (if b & 0x01 == 0 then 0x4F48173D else 0xBD23943E)
          else
            if b & 0x08 == 0 then
              if b & 0x04 == 0 then
                if b & 0x02 == 0 then
                  (if b & 0x01 == 0 then 0xF36E6F75 else 0x0105EC76)
                else
                  (if b & 0x01 == 0 then 0x12551F82 else 0xE03E9C81)
              else
                if b & 0x02 == 0 then
                  (if b & 0x01 == 0 then 0x34F4F86A else 0xC69F7B69)
                else
                  (if b & 0x01 == 0 then 0xD5CF889D else 0x27A40B9E)
            else
              if b & 0x04 == 0 then
                if b & 0x02 == 0 then
                  (if b & 0x01 == 0 then 0x79B737BA else 0x8BDCB4B9)
                else
                  (if b & 0x01 == 0 then 0x988C474D else 0x6AE7C44E)
              else
                if b & 0x02 == 0 then
                  (if b & 0x01 == 0 then 0xBE2DA0A5 else 0x4C4623A6)
                else
                  (if b & 0x01 == 0 then 0x5F16D052 else 0xAD7D5351)
  }

  /** Entry b of k_CRC_TABLE_IL8_O40. */
  function O40(b: bv8): bv32 {
    if b & 0x80 == 0 then
      if b & 0x40 == 0 then
        if b & 0x20 == 0 then
          if b & 0x10 == 0 then
            if b & 0x08 == 0 then
              if b & 0x04 == 0 then
                if b & 0x02 == 0 then
                  (if b & 0x01 == 0 then 0x00000000 else 0x13A29877)
                else
                  (if b & 0x01 == 0 then 0x274530EE else 0x34E7A899)
              else
                if b & 0x02 == 0 then
                  (if b & 0x01 == 0 then 0x4E8A61DC else 0x5D28F9AB)
                else
                  (if b & 0x01 == 0 then 0x69CF5132 else 0x7A6DC945)
            else
              if b & 0x04 == 0 then
                if b & 0x02 == 0 then
                  (if b & 0x01 == 0 then 0x9D14C3B8 else 0x8EB65BCF)
                else
                  (if b & 0x01 == 0 then 0xBA51F356 else 0xA9F36B21)
              else
                if b & 0x02 == 0 then
                  (if b & 0x01 == 0 then 0xD39EA264 else 0xC03C3A13)
                else
                  (if b & 0x01 == 0 then 0xF4DB928A else 0xE7790AFD)
          else
            if b & 0x08 == 0 then
              if b & 0x04 == 0 then
                if b & 0x02 == 0 then
                  (if b & 0x01 == 0 then 0x3FC5F181 else 0x2C6769F6)
                else
                  (if b & 0x01 == 0 then 0x1880C16F else 0x0B225918)
              else
                if b & 0x02 == 0 then
                  (if b & 0x01 == 0 then 0x714F905D else 0x62ED082A)
                else
                  (if b & 0x01 == 0 then 0x560AA0B3 else 0x45A838C4)
            else
              if b & 0x04 == 0 then
                if b & 0x02 == 0 then
                  (if b & 0x01 == 0 then 0xA2D13239 else 0xB173AA4E)
                else
                  (if b & 0x01 == 0 then 0x859402D7 else 0x96369AA0)
              else
                if b & 0x02 == 0 then
                  (if b & 0x01 == 0 then 0xEC5B53E5 else 0xFFF9CB92)
                else
                  (if b & 0x01 == 0 then 0xCB1E630B else 0xD8BCFB7C)
        else
          if b & 0x10 == 0 then
            if b & 0x08 == 0 then
              if b & 0x04 == 0 then
                if b & 0x02 == 0 then
                  (if b & 0x01 == 0 then 0x7F8BE302 else 0x6C297B75)
                else
                  (if b & 0x01 == 0 then 0x58CED3EC else 0x4B6C4B9B)
              else
                if b & 0x02 == 0 then
                  (if b & 0x01 == 0 then 0x310182DE else 0x22A31AA9)
                else
                  (if b & 0x01 == 0 then 0x1644B230 else 0x05E62A47)
            else
              if b & 0x04 == 0 then
                if b & 0x02 == 0 then
                  (if b & 0x01 == 0 then 0xE29F20BA else 0xF13DB8CD)
                else
                  (if b & 0x01 == 0 then 0xC5DA1054 else 0xD6788823)
              else
                if b & 0x02 == 0 then
                  (if b & 0x01 == 0 then 0xAC154166 else 0xBFB7D911)
                else
                  (if b & 0x01 == 0 then 0x8B507188 else 0x98F2E9FF)
          else
            if b & 0x08 == 0 then
              if b & 0x04 == 0 then
                if b & 0x02 == 0 then
                  (if b & 0x01 == 0 then 0x404E1283 else 0x53EC8AF4)
                else
                  (if b & 0x01 == 0 then 0x670B226D else 0x74A9BA1A)
              else
                if b & 0x02 == 0 then
                  (if b & 0x01 == 0 then 0x0EC4735F else 0x1D66EB28)
                else
                  (if b & 0x01 == 0 then 0x298143B1 else 0x3A23DBC6)
            else
              if b & 0x04 == 0 then
                if b & 0x02 == 0 then
                  (if b & 0x01 == 0 then 0xDD5AD13B else 0xCEF8494C)
                else
                  (if b & 0x01 == 0 then 0xFA1FE1D5 else 0xE9BD79A2)
              else
                if b & 0x02 == 0 then
                  (if b & 0x01 == 0 then 0x93D0B0E7 else 0x80722890)
                else
                  (if b & 0x01 == 0 then 0xB4958009 else 0xA737187E)
      else
        if b & 0x20 == 0 then
          if b & 0x10 == 0 then
            if b & 0x08 == 0 then
              if b & 0x04 == 0 then
                if b & 0x02 == 0 then
                  (if b & 0x01 == 0 then 0xFF17C604 else 0xECB55E73)
                else
                  (if b & 0x01 == 0 then 0xD852F6EA else 0xCBF06E9D)
              else
                if b & 0x02 == 0 then
                  (if b & 0x01 == 0 then 0xB19DA7D8 else 0xA23F3FAF)
                else
                  (if b & 0x01 == 0 then 0x96D89736 else 0x857A0F41)
            else
              if b & 0x04 == 0 then
                if b & 0x02 == 0 then
                  (if b & 0x01 == 0 then 0x620305BC else 0x71A19DCB)
                else
                  (if b & 0x01 == 0 then 0x45463552 else 0x56E4AD25)
              else
                if b & 0x02 == 0 then
                  (if b & 0x01 == 0 then 0x2C896460 else 0x3F2BFC17)
                else
                  (if b & 0x01 == 0 then 0x0BCC548E else 0x186ECCF9)
          else
            if b & 0x08 == 0 then
              if b & 0x04 == 0 then
                if b & 0x02 == 0 then
                  (if b & 0x01 == 0 then 0xC0D23785 else 0xD370AFF2)
                else
                  (if b & 0x01 == 0 then 0xE797076B else 0xF4359F1C)
              else
                if b & 0x02 == 0 then
                  (if b & 0x01 == 0 then 0x8E585659 else 0x9DFACE2E)
                else
                  (if b & 0x01 == 0 then 0xA91D66B7 else 0xBABFFEC0)
            else
              if b & 0x04 == 0 then
                if b & 0x02 == 0 then
                  (if b & 0x01 == 0 then 0x5DC6F43D else 0x4E646C4A)
                else
                  (if b & 0x01 == 0 then 0x7A83C4D3 else 0x69215CA4)
              else
                if b & 0x02 == 0 then
                  (if b & 0x01 == 0 then 0x134C95E1 else 0x00EE0D96)
                else
                  (if b & 0x01 == 0 then 0x3409A50F else 0x27AB3D78)
        else
          if b & 0x10 == 0 then
            if b & 0x08 == 0 then
              if b & 0x04 == 0 then
                if b & 0x02 == 0 then
                  (if b & 0x01 == 0 then 0x809C2506 else 0x933EBD71)
                else
                  (if b & 0x01 == 0 then 0xA7D915E8 else 0xB47B8D9F)
              else
                if b & 0x02 == 0 then
                  (if b & 0x01 == 0 then 0xCE1644DA else 0xDDB4DCAD)
                else
                  (if b & 0x01 == 0 then 0xE9537434 else 0xFAF1EC43)
            else
              if b & 0x04 == 0 then
                if b & 0x02 == 0 then
                  (if b & 0x01 == 0 then 0x1D88E6BE else 0x0E2A7EC9)
                else
                  (if b & 0x01 == 0 then 0x3ACDD650 else 0x296F4E27)
              else
                if b & 0x02 == 0 then
                  (if b & 0x01 == 0 then 0x53028762 else 0x40A01F15)
                else
                  (if b & 0x01 == 0 then 0x7447B78C else 0x67E52FFB)
          else
            if b & 0x08 == 0 then
              if b & 0x04 == 0 then
                if b & 0x02 == 0 then
                  (if b & 0x01 == 0 then 0xBF59D487 else 0xACFB4CF0)
                else
                  (if b & 0x01 == 0 then 0x981CE469 else 0x8BBE7C1E)
              else
                if b & 0x02 == 0 then
                  (if b & 0x01 == 0 then 0xF1D3B55B else 0xE2712D2C)
                else
                  (if b & 0x01 == 0 then 0xD69685B5 else 0xC5341DC2)
            else
              if b & 0x04 == 0 then
                if b & 0x02 == 0 then
                  (if b & 0x01 == 0 then 0x224D173F else 0x31EF8F48)
                else
                  (if b & 0x01 == 0 then 0x050827D1 else 0x16AABFA6)
              else
                if b & 0x02 == 0 then
                  (if b & 0x01 == 0 then 0x6CC776E3 else 0x7F65EE94)
                else
                  (if b & 0x01 == 0 then 0x4B82460D else 0x5820DE7A)
    else
      if b & 0x40 == 0 then
        if b & 0x20 == 0 then
          if b & 0x10 == 0 then
            if b & 0x08 == 0 then
              if b & 0x04 == 0 then
                if b & 0x02 == 0 then
                  (if b & 0x01 == 0 then 0xFBC3FAF9 else 0xE861628E)
                else
                  (if b & 0x01 == 0 then 0xDC86CA17 else 0xCF245260)
              else
                if b & 0x02 == 0 then
                  (if b & 0x01 == 0 then 0xB5499B25 else 0xA6EB0352)
                else
                  (if b & 0x01 == 0 then 0x920CABCB else 0x81AE33BC)
            else
              if b & 0x04 == 0 then
                if b & 0x02 == 0 then
                  (if b & 0x01 == 0 then 0x66D73941 else 0x7575A136)
                else
                  (if b & 0x01 == 0 then 0x419209AF else 0x523091D8)
              else
                if b & 0x02 == 0 then
                  (if b & 0x01 == 0 then 0x285D589D else 0x3BFFC0EA)
                else
                  (if b & 0x01 == 0 then 0x0F186873 else 0x1CBAF004)
          else
            if b & 0x08 == 0 then
              if b & 0x04 == 0 then
                if b & 0x02 == 0 then
                  (if b & 0x01 == 0 then 0xC4060B78 else 0xD7A4930F)
                else
                  (if b & 0x01 == 0 then 0xE3433B96 else 0xF0E1A3E1)
              else
                if b & 0x02 == 0 then
                  (if b & 0x01 == 0 then 0x8A8C6AA4 else 0x992EF2D3)
                else
                  (if b & 0x01 == 0 then 0xADC95A4A else 0xBE6BC23D)
            else
              if b & 0x04 == 0 then
                if b & 0x02 == 0 then
                  (if b & 0x01 == 0 then 0x5912C8C0 else 0x4AB050B7)
                else
                  (if b & 0x01 == 0 then 0x7E57F82E else 0x6DF56059)
              else
                if b & 0x02 == 0 then
                  (if b & 0x01 == 0 then 0x1798A91C else 0x043A316B)
                else
                  (if b & 0x01 == 0 then 0x30DD99F2 else 0x237F0185)
        else
          if b & 0x10 == 0 then
            if b & 0x08 == 0 then
              if b & 0x04 == 0 then
                if b & 0x02 == 0 then
                  (if b & 0x01 == 0 then 0x844819FB else 0x97EA818C)
                else
                  (if b & 0x01 == 0 then 0xA30D2915 else 0xB0AFB162)
              else
                if b & 0x02 == 0 then
                  (if b & 0x01 == 0 then 0xCAC27827 else 0xD960E050)
                else
                  (if b & 0x01 == 0 then 0xED8748C9 else 0xFE25D0BE)
            else
              if b & 0x04 == 0 then
                if b & 0x02 == 0 then
                  (if b & 0x01 == 0 then 0x195CDA43 else 0x0AFE4234)
                else
                  (if b & 0x01 == 0 then 0x3E19EAAD else 0x2DBB72DA)
              else
                if b & 0x02 == 0 then
                  (if b & 0x01 == 0 then 0x57D6BB9F else 0x447423E8)
                else
                  (if b & 0x01 == 0 then 0x70938B71 else 0x63311306)
          else
            if b & 0x08 == 0 then
              if b & 0x04 == 0 then
                if b & 0x02 == 0 then
                  (if b & 0x01 == 0 then 0xBB8DE87A else 0xA82F700D)
                else
                  (if b & 0x01 == 0 then 0x9CC8D894 else 0x8F6A40E3)
              else
                if b & 0x02 == 0 then
                  (if b & 0x01 == 0 then 0xF50789A6 else 0xE6A511D1)
                else
                  (if b & 0x01 == 0 then 0xD242B948 else 0xC1E0213F)
            else
              if b & 0x04 == 0 then
                if b & 0x02 == 0 then
                  (if b & 0x01 == 0 then 0x26992BC2 else 0x353BB3B5)
                else
                  (if b & 0x01 == 0 then 0x01DC1B2C else 0x127E835B)
              else
                if b & 0x02 == 0 then
                  (if b & 0x01 == 0 then 0x68134A1E else 0x7BB1D269)
                else
                  (if b & 0x01 == 0 then 0x4F567AF0 else 0x5CF4E287)
      else
        if b & 0x20 == 0 then
          if b & 0x10 == 0 then
            if b & 0x08 == 0 then
              if b & 0x04 == 0 then
                if b & 0x02 == 0 then
                  (if b & 0x01 == 0 then 0x04D43CFD else 0x1776A48A)
                else
                  (if b & 0x01 == 0 then 0x23910C13 else 0x30339464)
              else
                if b & 0x02 == 0 then
                  (if b & 0x01 == 0 then 0x4A5E5D21 else 0x59FCC556)
                else
                  (if b & 0x01 == 0 then 0x6D1B6DCF else 0x7EB9F5B8)
            else
              if b & 0x04 == 0 then
                if b & 0x02 == 0 then
                  (if b & 0x01 == 0 then 0x99C0FF45 else 0x8A626732)
                else
                  (if b & 0x01 == 0 then 0xBE85CFAB else 0xAD2757DC)
              else
                if b & 0x02 == 0 then
                  (if b & 0x01 == 0 then 0xD74A9E99 else 0xC4E806EE)
                else
                  (if b & 0x01 == 0 then 0xF00FAE77 else 0xE3AD3600)
          else
            if b & 0x08 == 0 then
              if b & 0x04 == 0 then
                if b & 0x02 == 0 then
                  (if b & 0x01 == 0 then 0x3B11CD7C else 0x28B3550B)
                else
                  (if b & 0x01 == 0 then 0x1C54FD92 else 0x0FF665E5)
              else
                if b & 0x02 == 0 then
                  (if b & 0x01 == 0 then 0x759BACA0 else 0x663934D7)
                else
                  (if b & 0x01 == 0 then 0x52DE9C4E else 0x417C0439)
            else
              if b & 0x04 == 0 then
                if b & 0x02 == 0 then
                  (if b & 0x01 == 0 then 0xA6050EC4 else 0xB5A796B3)
                else
                  (if b & 0x01 == 0 then 0x81403E2A else 0x92E2A65D)
              else
                if b & 0x02 == 0 then
                  (if b & 0x01 == 0 then 0xE88F6F18 else 0xFB2DF76F)
                else
                  (if b & 0x01 == 0 then 0xCFCA5FF6 else 0xDC68C781)
        else
          if b & 0x10 == 0 then
            if b & 0x08 == 0 then
              if b & 0x04 == 0 then
                if b & 0x02 == 0 then
                  (if b & 0x01 == 0 then 0x7B5FDFFF else 0x68FD4788)
                else
                  (if b & 0x01 == 0 then 0x5C1AEF11 else 0x4FB87766)
              else
                if b & 0x02 == 0 then
                  (if b & 0x01 == 0 then 0x35D5BE23 else 0x26772654)
                else
                  (if b & 0x01 == 0 then 0x12908ECD else 0x013216BA)
            else
              if b & 0x04 == 0 then
                if b & 0x02 == 0 then
                  (if b & 0x01 == 0 then 0xE64B1C47 else 0xF5E98430)
                else
                  (if b & 0x01 == 0 then 0xC10E2CA9 else 0xD2ACB4DE)
              else
                if b & 0x02 == 0 then
                  (if b & 0x01 == 0 then 0xA8C17D9B else 0xBB63E5EC)
                else
                  (if b & 0x01 == 0 then 0x8F844D75 else 0x9C26D502)
          else
            if b & 0x08 == 0 then
              if b & 0x04 == 0 then
                if b & 0x02 == 0 then
                  (if b & 0x01 == 0 then 0x449A2E7E else 0x5738B609)
                else
                  (if b & 0x01 == 0 then 0x63DF1E90 else 0x707D86E7)
              else
                if b & 0x02 == 0 then
                  (if b & 0x01 == 0 then 0x0A104FA2 else 0x19B2D7D5)
                else
                  (if b & 0x01 == 0 then 0x2D557F4C else 0x3EF7E73B)
            else
              if b & 0x04 == 0 then
                if b & 0x02 == 0 then
                  (if b & 0x01 == 0 then 0xD98EEDC6 else 0xCA2C75B1)
                else
                  (if b & 0x01 == 0 then 0xFECBDD28 else 0xED69455F)
              else
                if b & 0x02 == 0 then
                  (if b & 0x01 == 0 then 0x97048C1A else 0x84A6146D)
                else
                  (if b & 0x01 == 0 then 0xB041BCF4 else 0xA3E32483)
  }

  /** Entry b of k_CRC_TABLE_IL8_O48. */
  function O48(b: bv8): bv32 {
    if b & 0x80 == 0 then
      if b & 0x40 == 0 then
        if b & 0x20 == 0 then
          if b & 0x10 == 0 then
            if b & 0x08 == 0 then
              if b & 0x04 == 0 then
                if b & 0x02 == 0 then
                  (if b & 0x01 == 0 then 0x00000000 else 0xA541927E)
                else
                  (if b & 0x01 == 0 then 0x4F6F520D else 0xEA2EC073)
              else
                if b & 0x02 == 0 then
                  (if b & 0x01 == 0 then 0x9EDEA41A else 0x3B9F3664)
                else
                  (if b & 0x01 == 0 then 0xD1B1F617 else 0x74F06469)
            else
              if b & 0x04 == 0 then
                if b & 0x02 == 0 then
                  (if b & 0x01 == 0 then 0x38513EC5 else 0x9D10ACBB)
                else
                  (if b & 0x01 == 0 then 0x773E6CC8 else 0xD27FFEB6)
              else
                if b & 0x02 == 0 then
                  (if b & 0x01 == 0 then 0xA68F9ADF else 0x03CE08A1)
                else
                  (if b & 0x01 == 0 then 0xE9E0C8D2 else 0x4CA15AAC)
          else
            if b & 0x08 == 0 then
              if b & 0x04 == 0 then
                if b & 0x02 == 0 then
                  (if b & 0x01 == 0 then 0x70A27D8A else 0xD5E3EFF4)
                else
                  (if b & 0x01 == 0 then 0x3FCD2F87 else 0x9A8CBDF9)
              else
                if b & 0x02 == 0 then
                  (if b & 0x01 == 0 then 0xEE7CD990 else 0x4B3D4BEE)
                else
                  (if b & 0x01 == 0 then 0xA1138B9D else 0x045219E3)
            else
              if b & 0x04 == 0 then
                if b & 0x02 == 0 then
                  (if b & 0x01 == 0 then 0x48F3434F else 0xEDB2D131)
                else
                  (if b & 0x01 == 0 then 0x079C1142 else 0xA2DD833C)
              else
                if b & 0x02 == 0 then
                  (if b & 0x01 == 0 then 0xD62DE755 else 0x736C752B)
                else
                  (if b & 0x01 == 0 then 0x9942B558 else 0x3C032726)
        else
          if b & 0x10 == 0 then
            if b & 0x08 == 0 then
              if b & 0x04 == 0 then
                if b & 0x02 == 0 then
                  (if b & 0x01 == 0 then 0xE144FB14 else 0x4405696A)
                else
                  (if b & 0x01 == 0 then 0xAE2BA919 else 0x0B6A3B67)
              else
                if b & 0x02 == 0 then
                  (if b & 0x01 == 0 then 0x7F9A5F0E else 0xDADBCD70)
                else
                  (if b & 0x01 == 0 then 0x30F50D03 else 0x95B49F7D)
            else
              if b & 0x04 == 0 then
                if b & 0x02 == 0 then
                  (if b & 0x01 == 0 then 0xD915C5D1 else 0x7C5457AF)
                else
                  (if b & 0x01 == 0 then 0x967A97DC else 0x333B05A2)
              else
                if b & 0x02 == 0 then
                  (if b & 0x01 == 0 then 0x47CB61CB else 0xE28AF3B5)
                else
                  (if b & 0x01 == 0 then 0x08A433C6 else 0xADE5A1B8)
          else
            if b & 0x08 == 0 then
              if b & 0x04 == 0 then
                if b & 0x02 == 0 then
                  (if b & 0x01 == 0 then 0x91E6869E else 0x34A714E0)
                else
                  (if b & 0x01 == 0 then 0xDE89D493 else 0x7BC846ED)
              else
                if b & 0x02 == 0 then
                  (if b & 0x01 == 0 then 0x0F382284 else 0xAA79B0FA)
                else
                  (if b & 0x01 == 0 then 0x40577089 else 0xE516E2F7)
            else
              if b & 0x04 == 0 then
                if b & 0x02 == 0 then
                  (if b & 0x01 == 0 then 0xA9B7B85B else 0x0CF62A25)
                else
                  (if b & 0x01 == 0 then 0xE6D8EA56 else 0x43997828)
              else
                if b & 0x02 == 0 then
                  (if b & 0x01 == 0 then 0x37691C41 else 0x92288E3F)
                else
                  (if b & 0x01 == 0 then 0x78064E4C else 0xDD47DC32)
      else
        if b & 0x20 == 0 then
          if b & 0x10 == 0 then
            if b & 0x08 == 0 then
              if b & 0x04 == 0 then
                if b & 0x02 == 0 then
                  (if b & 0x01 == 0 then 0xC76580D9 else 0x622412A7)
                else
                  (if b & 0x01 == 0 then 0x880AD2D4 else 0x2D4B40AA)
              else
                if b & 0x02 == 0 then
                  (if b & 0x01 == 0 then 0x59BB24C3 else 0xFCFAB6BD)
                else
                  (if b & 0x01 == 0 then 0x16D476CE else 0xB395E4B0)
            else
              if b & 0x04 == 0 then
                if b & 0x02 == 0 then
                  (if b & 0x01 == 0 then 0xFF34BE1C else 0x5A752C62)
                else
                  (if b & 0x01 == 0 then 0xB05BEC11 else 0x151A7E6F)
              else
                if b & 0x02 == 0 then
                  (if b & 0x01 == 0 then 0x61EA1A06 else 0xC4AB8878)
                else
                  (if b & 0x01 == 0 then 0x2E85480B else 0x8BC4DA75)
          else
            if b & 0x08 == 0 then
              if b & 0x04 == 0 then
                if b & 0x02 == 0 then
                  (if b & 0x01 == 0 then 0xB7C7FD53 else 0x12866F2D)
                else
                  (if b & 0x01 == 0 then 0xF8A8AF5E else 0x5DE93D20)
              else
                if b & 0x02 == 0 then
                  (if b & 0x01 == 0 then 0x29195949 else 0x8C58CB37)
                else
                  (if b & 0x01 == 0 then 0x66760B44 else 0xC337993A)
            else
              if b & 0x04 == 0 then
                if b & 0x02 == 0 then
                  (if b & 0x01 == 0 then 0x8F96C396 else 0x2AD751E8)
                else
                  (if b & 0x01 == 0 then 0xC0F9919B else 0x65B803E5)
              else
                if b & 0x02 == 0 then
                  (if b & 0x01 == 0 then 0x1148678C else 0xB409F5F2)
                else
                  (if b & 0x01 == 0 then 0x5E273581 else 0xFB66A7FF)
        else
          if b & 0x10 == 0 then
            if b & 0x08 == 0 then
              if b & 0x04 == 0 then
                if b & 0x02 == 0 then
                  (if b & 0x01 == 0 then 0x26217BCD else 0x8360E9B3)
                else
                  (if b & 0x01 == 0 then 0x694E29C0 else 0xCC0FBBBE)
              else
                if b & 0x02 == 0 then
                  (if b & 0x01 == 0 then 0xB8FFDFD7 else 0x1DBE4DA9)
                else
                  (if b & 0x01 == 0 then 0xF7908DDA else 0x52D11FA4)
            else
              if b & 0x04 == 0 then
                if b & 0x02 == 0 then
                  (if b & 0x01 == 0 then 0x1E704508 else 0xBB31D776)
                else
                  (if b & 0x01 == 0 then 0x511F1705 else 0xF45E857B)
              else
                if b & 0x02 == 0 then
                  (if b & 0x01 == 0 then 0x80AEE112 else 0x25EF736C)
                else
                  (if b & 0x01 == 0 then 0xCFC1B31F else 0x6A802161)
          else
            if b & 0x08 == 0 then
              if b & 0x04 == 0 then
                if b & 0x02 == 0 then
                  (if b & 0x01 == 0 then 0x56830647 else 0xF3C29439)
                else
                  (if b & 0x01 == 0 then 0x19EC544A else 0xBCADC634)
              else
                if b & 0x02 == 0 then
                  (if b & 0x01 == 0 then 0xC85DA25D else 0x6D1C3023)
                else
                  (if b & 0x01 == 0 then 0x8732F050 else 0x2273622E)
            else
              if b & 0x04 == 0 then
                if b & 0x02 == 0 then
                  (if b & 0x01 == 0 then 0x6ED23882 else 0xCB93AAFC)
                else
                  (if b & 0x01 == 0 then 0x21BD6A8F else 0x84FCF8F1)
              else
                if b & 0x02 == 0 then
                  (if b & 0x01 == 0 then 0xF00C9C98 else 0x554D0EE6)
                else
                  (if b & 0x01 == 0 then 0xBF63CE95 else 0x1A225CEB)
    else
      if b & 0x40 == 0 then
        if b & 0x20 == 0 then
          if b & 0x10 == 0 then
            if b & 0x08 == 0 then
              if b & 0x04 == 0 then
                if b & 0x02 == 0 then
                  (if b & 0x01 == 0 then 0x8B277743 else 0x2E66E53D)
                else
                  (if b & 0x01 == 0 then 0xC448254E else 0x6109B730)
              else
                if b & 0x02 == 0 then
                  (if b & 0x01 == 0 then 0x15F9D359 else 0xB0B84127)
                else
                  (if b & 0x01 == 0 then 0x5A968154 else 0xFFD7132A)
            else
              if b & 0x04 == 0 then
                if b & 0x02 == 0 then
                  (if b & 0x01 == 0 then 0xB3764986 else 0x1637DBF8)
                else
                  (if b & 0x01 == 0 then 0xFC191B8B else 0x595889F5)
              else
                if b & 0x02 == 0 then
                  (if b & 0x01 == 0 then 0x2DA8ED9C else 0x88E97FE2)
                else
                  (if b & 0x01 == 0 then 0x62C7BF91 else 0xC7862DEF)
          else
            if b & 0x08 == 0 then
              if b & 0x04 == 0 then
                if b & 0x02 == 0 then
                  (if b & 0x01 == 0 then 0xFB850AC9 else 0x5EC498B7)
                else
                  (if b & 0x01 == 0 then 0xB4EA58C4 else 0x11ABCABA)
              else
                if b & 0x02 == 0 then
                  (if b & 0x01 == 0 then 0x655BAED3 else 0xC01A3CAD)
                else
                  (if b & 0x01 == 0 then 0x2A34FCDE else 0x8F756EA0)
            else
              if b & 0x04 == 0 then
                if b & 0x02 == 0 then
                  (if b & 0x01 == 0 then 0xC3D4340C else 0x6695A672)
                else
                  (if b & 0x01 == 0 then 0x8CBB6601 else 0x29FAF47F)
              else
                if b & 0x02 == 0 then
                  (if b & 0x01 == 0 then 0x5D0A9016 else 0xF84B0268)
                else
                  (if b & 0x01 == 0 then 0x1265C21B else 0xB7245065)
        else
          if b & 0x10 == 0 then
            if b & 0x08 == 0 then
              if b & 0x04 == 0 then
                if b & 0x02 == 0 then
                  (if b & 0x01 == 0 then 0x6A638C57 else 0xCF221E29)
                else
                  (if b & 0x01 == 0 then 0x250CDE5A else 0x804D4C24)
              else
                if b & 0x02 == 0 then
                  (if b & 0x01 == 0 then 0xF4BD284D else 0x51FCBA33)
                else
                  (if b & 0x01 == 0 then 0xBBD27A40 else 0x1E93E83E)
            else
              if b & 0x04 == 0 then
                if b & 0x02 == 0 then
                  (if b & 0x01 == 0 then 0x5232B292 else 0xF77320EC)
                else
                  (if b & 0x01 == 0 then 0x1D5DE09F else 0xB81C72E1)
              else
                if b & 0x02 == 0 then
                  (if b & 0x01 == 0 then 0xCCEC1688 else 0x69AD84F6)
                else
                  (if b & 0x01 == 0 then 0x83834485 else 0x26C2D6FB)
          else
            if b & 0x08 == 0 then
              if b & 0x04 == 0 then
                if b & 0x02 == 0 then
                  (if b & 0x01 == 0 then 0x1AC1F1DD else 0xBF8063A3)
                else
                  (if b & 0x01 == 0 then 0x55AEA3D0 else 0xF0EF31AE)
              else
                if b & 0x02 == 0 then
                  (if b & 0x01 == 0 then 0x841F55C7 else 0x215EC7B9)
                else
                  (if b & 0x01 == 0 then 0xCB7007CA else 0x6E3195B4)
            else
              if b & 0x04 == 0 then
                if b & 0x02 == 0 then
                  (if b & 0x01 == 0 then 0x2290CF18 else 0x87D15D66)
                else
                  (if b & 0x01 == 0 then 0x6DFF9D15 else 0xC8BE0F6B)
              else
                if b & 0x02 == 0 then
                  (if b & 0x01 == 0 then 0xBC4E6B02 else 0x190FF97C)
                else
                  (if b & 0x01 == 0 then 0xF321390F else 0x5660AB71)
      else
        if b & 0x20 == 0 then
          if b & 0x10 == 0 then
            if b & 0x08 == 0 then
              if b & 0x04 == 0 then
                if b & 0x02 == 0 then
                  (if b & 0x01 == 0 then 0x4C42F79A else 0xE90365E4)
                else
                  (if b & 0x01 == 0 then 0x032DA597 else 0xA66C37E9)
              else
                if b & 0x02 == 0 then
                  (if b & 0x01 == 0 then 0xD29C5380 else 0x77DDC1FE)
                else
                  (if b & 0x01 == 0 then 0x9DF3018D else 0x38B293F3)
            else
              if b & 0x04 == 0 then
                if b & 0x02 == 0 then
                  (if b & 0x01 == 0 then 0x7413C95F else 0xD1525B21)
                else
                  (if b & 0x01 == 0 then 0x3B7C9B52 else 0x9E3D092C)
              else
                if b & 0x02 == 0 then
                  (if b & 0x01 == 0 then 0xEACD6D45 else 0x4F8CFF3B)
                else
                  (if b & 0x01 == 0 then 0xA5A23F48 else 0x00E3AD36)
          else
            if b & 0x08 == 0 then
              if b & 0x04 == 0 then
                if b & 0x02 == 0 then
                  (if b & 0x01 == 0 then 0x3CE08A10 else 0x99A1186E)
                else
                  (if b & 0x01 == 0 then 0x738FD81D else 0xD6CE4A63)
              else
                if b & 0x02 == 0 then
                  (if b & 0x01 == 0 then 0xA23E2E0A else 0x077FBC74)
                else
                  (if b & 0x01 == 0 then 0xED517C07 else 0x4810EE79)
            else
              if b & 0x04 == 0 then
                if b & 0x02 == 0 then
                  (if b & 0x01 == 0 then 0x04B1B4D5 else 0xA1F026AB)
                else
                  (if b & 0x01 == 0 then 0x4BDEE6D8 else 0xEE9F74A6)
              else
                if b & 0x02 == 0 then
                  (if b & 0x01 == 0 then 0x9A6F10CF else 0x3F2E82B1)
                else
                  (if b & 0x01 == 0 then 0xD50042C2 else 0x7041D0BC)
        else
          if b & 0x10 == 0 then
            if b & 0x08 == 0 then
              if b & 0x04 == 0 then
                if b & 0x02 == 0 then
                  (if b & 0x01 == 0 then 0xAD060C8E else 0x08479EF0)
                else
                  (if b & 0x01 == 0 then 0xE2695E83 else 0x4728CCFD)
              else
                if b & 0x02 == 0 then
                  (if b & 0x01 == 0 then 0x33D8A894 else 0x96993AEA)
                else
                  (if b & 0x01 == 0 then 0x7CB7FA99 else 0xD9F668E7)
            else
              if b & 0x04 == 0 then
                if b & 0x02 == 0 then
                  (if b & 0x01 == 0 then 0x9557324B else 0x3016A035)
                else
                  (if b & 0x01 == 0 then 0xDA386046 else 0x7F79F238)
              else
                if b & 0x02 == 0 then
                  (if b & 0x01 == 0 then 0x0B899651 else 0xAEC8042F)
                else
                  (if b & 0x01 == 0 then 0x44E6C45C else 0xE1A75622)
          else
            if b & 0x08 == 0 then
              if b & 0x04 == 0 then
                if b & 0x02 == 0 then
                  (if b & 0x01 == 0 then 0xDDA47104 else 0x78E5E37A)
                else
                  (if b & 0x01 == 0 then 0x92CB2309 else 0x378AB177)
              else
                if b & 0x02 == 0 then
                  (if b & 0x01 == 0 then 0x437AD51E else 0xE63B4760)
                else
                  (if b & 0x01 == 0 then 0x0C158713 else 0xA954156D)
            else
              if b & 0x04 == 0 then
                if b & 0x02 == 0 then
                  (if b & 0x01 == 0 then 0xE5F54FC1 else 0x40B4DDBF)
                else
                  (if b & 0x01 == 0 then 0xAA9A1DCC else 0x0FDB8FB2)
              else
                if b & 0x02 == 0 then
                  (if b & 0x01 == 0 then 0x7B2BEBDB else 0xDE6A79A5)
                else
                  (if b & 0x01 == 0 then 0x3444B9D6 else 0x91052BA8)
  }

  /** Entry b of k_CRC_TABLE_IL8_O56. */
  function O56(b: bv8): bv32 {
    if b & 0x80 == 0 then
      if b & 0x40 == 0 then
        if b & 0x20 == 0 then
          if b & 0x10 == 0 then
            if b & 0x08 == 0 then
              if b & 0x04 == 0 then
                if b & 0x02 == 0 then
                  (if b & 0x01 == 0 then 0x00000000 else 0xDD45AAB8)
                else
                  (if b & 0x01 == 0 then 0xBF672381 else 0x62228939)
              else
                if b & 0x02 == 0 then
                  (if b & 0x01 == 0 then 0x7B2231F3 else 0xA6679B4B)
                else
                  (if b & 0x01 == 0 then 0xC4451272 else 0x1900B8CA)
            else
              if b & 0x04 == 0 then
                if b & 0x02 == 0 then
                  (if b & 0x01 == 0 then 0xF64463E6 else 0x2B01C95E)
                else
                  (if b & 0x01 == 0 then 0x49234067 else 0x9466EADF)
              else
                if b & 0x02 == 0 then
                  (if b & 0x01 == 0 then 0x8D665215 else 0x5023F8AD)
                else
                  (if b & 0x01 == 0 then 0x32017194 else 0xEF44DB2C)
          else
            if b & 0x08 == 0 then
              if b & 0x04 == 0 then
                if b & 0x02 == 0 then
                  (if b & 0x01 == 0 then 0xE964B13D else 0x34211B85)
                else
                  (if b & 0x01 == 0 then 0x560392BC else 0x8B463804)
              else
                if b & 0x02 == 0 then
                  (if b & 0x01 == 0 then 0x924680CE else 0x4F032A76)
                else
                  (if b & 0x01 == 0 then 0x2D21A34F else 0xF06409F7)
            else
              if b & 0x04 == 0 then
                if b & 0x02 == 0 then
                  (if b & 0x01 == 0 then 0x1F20D2DB else 0xC2657863)
                else
                  (if b & 0x01 == 0 then 0xA047F15A else 0x7D025BE2)
              else
                if b & 0x02 == 0 then
                  (if b & 0x01 == 0 then 0x6402E328 else 0xB9474990)
                else
                  (if b & 0x01 == 0 then 0xDB65C0A9 else 0x06206A11)
        else
          if b & 0x10 == 0 then
            if b & 0x08 == 0 then
              if b & 0x04 == 0 then
                if b & 0x02 == 0 then
                  (if b & 0x01 == 0 then 0xD725148B else 0x0A60BE33)
                else
                  (if b & 0x01 == 0 then 0x6842370A else 0xB5079DB2)
              else
                if b & 0x02 == 0 then
                  (if b & 0x01 == 0 then 0xAC072578 else 0x71428FC0)
                else
                  (if b & 0x01 == 0 then 0x136006F9 else 0xCE25AC41)
            else
              if b & 0x04 == 0 then
                if b & 0x02 == 0 then
                  (if b & 0x01 == 0 then 0x2161776D else 0xFC24DDD5)
                else
                  (if b & 0x01 == 0 then 0x9E0654EC else 0x4343FE54)
              else
                if b & 0x02 == 0 then
                  (if b & 0x01 == 0 then 0x5A43469E else 0x8706EC26)
                else
                  (if b & 0x01 == 0 then 0xE524651F else 0x3861CFA7)
          else
            if b & 0x08 == 0 then
              if b & 0x04 == 0 then
                if b & 0x02 == 0 then
                  (if b & 0x01 == 0 then 0x3E41A5B6 else 0xE3040F0E)
                else
                  (if b & 0x01 == 0 then 0x81268637 else 0x5C632C8F)
              else
                if b & 0x02 == 0 then
                  (if b & 0x01 == 0 then 0x45639445 else 0x98263EFD)
                else
                  (if b & 0x01 == 0 then 0xFA04B7C4 else 0x27411D7C)
            else
              if b & 0x04 == 0 then
                if b & 0x02 == 0 then
                  (if b & 0x01 == 0 then 0xC805C650 else 0x15406CE8)
                else
                  (if b & 0x01 == 0 then 0x7762E5D1 else 0xAA274F69)
              else
                if b & 0x02 == 0 then
                  (if b & 0x01 == 0 then 0xB327F7A3 else 0x6E625D1B)
                else
                  (if b & 0x01 == 0 then 0x0C40D422 else 0xD1057E9A)
      else
        if b & 0x20 == 0 then
          if b & 0x10 == 0 then
            if b & 0x08 == 0 then
              if b & 0x04 == 0 then
                if b & 0x02 == 0 then
                  (if b & 0x01 == 0 then 0xABA65FE7 else 0x76E3F55F)
                else
                  (if b & 0x01 == 0 then 0x14C17C66 else 0xC984D6DE)
              else
                if b & 0x02 == 0 then
                  (if b & 0x01 == 0 then 0xD0846E14 else 0x0DC1C4AC)
                else
                  (if b & 0x01 == 0 then 0x6FE34D95 else 0xB2A6E72D)
            else
              if b & 0x04 == 0 then
                if b & 0x02 == 0 then
                  (if b & 0x01 == 0 then 0x5DE23C01 else 0x80A796B9)
                else
                  (if b & 0x01 == 0 then 0xE2851F80 else 0x3FC0B538)
              else
                if b & 0x02 == 0 then
                  (if b & 0x01 == 0 then 0x26C00DF2 else 0xFB85A74A)
                else
                  (if b & 0x01 == 0 then 0x99A72E73 else 0x44E284CB)
          else
            if b & 0x08 == 0 then
              if b & 0x04 == 0 then
                if b & 0x02 == 0 then
                  (if b & 0x01 == 0 then 0x42C2EEDA else 0x9F874462)
                else
                  (if b & 0x01 == 0 then 0xFDA5CD5B else 0x20E067E3)
              else
                if b & 0x02 == 0 then
                  (if b & 0x01 == 0 then 0x39E0DF29 else 0xE4A57591)
                else
                  (if b & 0x01 == 0 then 0x8687FCA8 else 0x5BC25610)
            else
              if b & 0x04 == 0 then
                if b & 0x02 == 0 then
                  (if b & 0x01 == 0 then 0xB4868D3C else 0x69C32784)
                else
                  (if b & 0x01 == 0 then 0x0BE1AEBD else 0xD6A40405)
              else
                if b & 0x02 == 0 then
                  (if b & 0x01 == 0 then 0xCFA4BCCF else 0x12E11677)
                else
                  (if b & 0x01 == 0 then 0x70C39F4E else 0xAD8635F6)
        else
          if b & 0x10 == 0 then
            if b & 0x08 == 0 then
              if b & 0x04 == 0 then
                if b & 0x02 == 0 then
                  (if b & 0x01 == 0 then 0x7C834B6C else 0xA1C6E1D4)
                else
                  (if b & 0x01 == 0 then 0xC3E468ED else 0x1EA1C255)
              else
                if b & 0x02 == 0 then
                  (if b & 0x01 == 0 then 0x07A17A9F else 0xDAE4D027)
                else
                  (if b & 0x01 == 0 then 0xB8C6591E else 0x6583F3A6)
            else
              if b & 0x04 == 0 then
                if b & 0x02 == 0 then
                  (if b & 0x01 == 0 then 0x8AC7288A else 0x57828232)
                else
                  (if b & 0x01 == 0 then 0x35A00B0B else 0xE8E5A1B3)
              else
                if b & 0x02 == 0 then
                  (if b & 0x01 == 0 then 0xF1E51979 else 0x2CA0B3C1)
                else
                  (if b & 0x01 == 0 then 0x4E823AF8 else 0x93C79040)
          else
            if b & 0x08 == 0 then
              if b & 0x04 == 0 then
                if b & 0x02 == 0 then
                  (if b & 0x01 == 0 then 0x95E7FA51 else 0x48A250E9)
                else
                  (if b & 0x01 == 0 then 0x2A80D9D0 else 0xF7C57368)
              else
                if b & 0x02 == 0 then
                  (if b & 0x01 == 0 then 0xEEC5CBA2 else 0x3380611A)
                else
                  (if b & 0x01 == 0 then 0x51A2E823 else 0x8CE7429B)
            else
              if b & 0x04 == 0 then
                if b & 0x02 == 0 then
                  (if b & 0x01 == 0 then 0x63A399B7 else 0xBEE6330F)
                else
                  (if b & 0x01 == 0 then 0xDCC4BA36 else 0x0181108E)
              else
                if b & 0x02 == 0 then
                  (if b & 0x01 == 0 then 0x1881A844 else 0xC5C402FC)
                else
                  (if b & 0x01 == 0 then 0xA7E68BC5 else 0x7AA3217D)
    else
      if b & 0x40 == 0 then
        if b & 0x20 == 0 then
          if b & 0x10 == 0 then
            if b & 0x08 == 0 then
              if b & 0x04 == 0 then
                if b & 0x02 == 0 then
                  (if b & 0x01 == 0 then 0x52A0C93F else 0x8FE56387)
                else
                  (if b & 0x01 == 0 then 0xEDC7EABE else 0x30824006)
              else
                if b & 0x02 == 0 then
                  (if b & 0x01 == 0 then 0x2982F8CC else 0xF4C75274)
                else
                  (if b & 0x01 == 0 then 0x96E5DB4D else 0x4BA071F5)
            else
              if b & 0x04 == 0 then
                if b & 0x02 == 0 then
                  (if b & 0x01 == 0 then 0xA4E4AAD9 else 0x79A10061)
                else
                  (if b & 0x01 == 0 then 0x1B838958 else 0xC6C623E0)
              else
                if b & 0x02 == 0 then
                  (if b & 0x01 == 0 then 0xDFC69B2A else 0x02833192)
                else
                  (if b & 0x01 == 0 then 0x60A1B8AB else 0xBDE41213)
          else
            if b & 0x08 == 0 then
              if b & 0x04 == 0 then
                if b & 0x02 == 0 then
                  (if b & 0x01 == 0 then 0xBBC47802 else 0x6681D2BA)
                else
                  (if b & 0x01 == 0 then 0x04A35B83 else 0xD9E6F13B)
              else
                if b & 0x02 == 0 then
                  (if b & 0x01 == 0 then 0xC0E649F1 else 0x1DA3E349)
                else
                  (if b & 0x01 == 0 then 0x7F816A70 else 0xA2C4C0C8)
            else
              if b & 0x04 == 0 then
                if b & 0x02 == 0 then
                  (if b & 0x01 == 0 then 0x4D801BE4 else 0x90C5B15C)
                else
                  (if b & 0x01 == 0 then 0xF2E73865 else 0x2FA292DD)
              else
                if b & 0x02 == 0 then
                  (if b & 0x01 == 0 then 0x36A22A17 else 0xEBE780AF)
                else
                  (if b & 0x01 == 0 then 0x89C50996 else 0x5480A32E)
        else
          if b & 0x10 == 0 then
            if b & 0x08 == 0 then
              if b & 0x04 == 0 then
                if b & 0x02 == 0 then
                  (if b & 0x01 == 0 then 0x8585DDB4 else 0x58C0770C)
                else
                  (if b & 0x01 == 0 then 0x3AE2FE35 else 0xE7A7548D)
              else
                if b & 0x02 == 0 then
                  (if b & 0x01 == 0 then 0xFEA7EC47 else 0x23E246FF)
                else
                  (if b & 0x01 == 0 then 0x41C0CFC6 else 0x9C85657E)
            else
              if b & 0x04 == 0 then
                if b & 0x02 == 0 then
                  (if b & 0x01 == 0 then 0x73C1BE52 else 0xAE8414EA)
                else
                  (if b & 0x01 == 0 then 0xCCA69DD3 else 0x11E3376B)
              else
                if b & 0x02 == 0 then
                  (if b & 0x01 == 0 then 0x08E38FA1 else 0xD5A62519)
                else
                  (if b & 0x01 == 0 then 0xB784AC20 else 0x6AC10698)
          else
            if b & 0x08 == 0 then
              if b & 0x04 == 0 then
                if b & 0x02 == 0 then
                  (if b & 0x01 == 0 then 0x6CE16C89 else 0xB1A4C631)
                else
                  (if b & 0x01 == 0 then 0xD3864F08 else 0x0EC3E5B0)
              else
                if b & 0x02 == 0 then
                  (if b & 0x01 == 0 then 0x17C35D7A else 0xCA86F7C2)
                else
                  (if b & 0x01 == 0 then 0xA8A47EFB else 0x75E1D443)
            else
              if b & 0x04 == 0 then
                if b & 0x02 == 0 then
                  (if b & 0x01 == 0 then 0x9AA50F6F else 0x47E0A5D7)
                else
                  (if b & 0x01 == 0 then 0x25C22CEE else 0xF8878656)
              else
                if b & 0x02 == 0 then
                  (if b & 0x01 == 0 then 0xE1873E9C else 0x3CC29424)
                else
                  (if b & 0x01 == 0 then 0x5EE01D1D else 0x83A5B7A5)
      else
        if b & 0x20 == 0 then
          if b & 0x10 == 0 then
            if b & 0x08 == 0 then
              if b & 0x04 == 0 then
                if b & 0x02 == 0 then
                  (if b & 0x01 == 0 then 0xF90696D8 else 0x24433C60)
                else
                  (if b & 0x01 == 0 then 0x4661B559 else 0x9B241FE1)
              else
                if b & 0x02 == 0 then
                  (if b & 0x01 == 0 then 0x8224A72B else 0x5F610D93)
                else
                  (if b & 0x01 == 0 then 0x3D4384AA else 0xE0062E12)
            else
              if b & 0x04 == 0 then
                if b & 0x02 == 0 then
                  (if b & 0x01 == 0 then 0x0F42F53E else 0xD2075F86)
                else
                  (if b & 0x01 == 0 then 0xB025D6BF else 0x6D607C07)
              else
                if b & 0x02 == 0 then
                  (if b & 0x01 == 0 then 0x7460C4CD else 0xA9256E75)
                else
                  (if b & 0x01 == 0 then 0xCB07E74C else 0x16424DF4)
          else
            if b & 0x08 == 0 then
              if b & 0x04 == 0 then
                if b & 0x02 == 0 then
                  (if b & 0x01 == 0 then 0x106227E5 else 0xCD278D5D)
                else
                  (if b & 0x01 == 0 then 0xAF050464 else 0x7240AEDC)
              else
                if b & 0x02 == 0 then
                  (if b & 0x01 == 0 then 0x6B401616 else 0xB605BCAE)
                else
                  (if b & 0x01 == 0 then 0xD4273597 else 0x09629F2F)
            else
              if b & 0x04 == 0 then
                if b & 0x02 == 0 then
                  (if b & 0x01 == 0 then 0xE6264403 else 0x3B63EEBB)
                else
                  (if b & 0x01 == 0 then 0x59416782 else 0x8404CD3A)
              else
                if b & 0x02 == 0 then
                  (if b & 0x01 == 0 then 0x9D0475F0 else 0x4041DF48)
                else
                  (if b & 0x01 == 0 then 0x22635671 else 0xFF26FCC9)
        else
          if b & 0x10 == 0 then
            if b & 0x08 == 0 then
              if b & 0x04 == 0 then
                if b & 0x02 == 0 then
                  (if b & 0x01 == 0 then 0x2E238253 else 0xF36628EB)
                else
                  (if b & 0x01 == 0 then 0x9144A1D2 else 0x4C010B6A)
              else
                if b & 0x02 == 0 then
                  (if b & 0x01 == 0 then 0x5501B3A0 else 0x88441918)
                else
                  (if b & 0x01 == 0 then 0xEA669021 else 0x37233A99)
            else
              if b & 0x04 == 0 then
                if b & 0x02 == 0 then
                  (if b & 0x01 == 0 then 0xD867E1B5 else 0x05224B0D)
                else
                  (if b & 0x01 == 0 then 0x6700C234 else 0xBA45688C)
              else
                if b & 0x02 == 0 then
                  (if b & 0x01 == 0 then 0xA345D046 else 0x7E007AFE)
                else
                  (if b & 0x01 == 0 then 0x1C22F3C7 else 0xC167597F)
          else
            if b & 0x08 == 0 then
              if b & 0x04 == 0 then
                if b & 0x02 == 0 then
                  (if b & 0x01 == 0 then 0xC747336E else 0x1A0299D6)
                else
                  (if b & 0x01 == 0 then 0x782010EF else 0xA565BA57)
              else
                if b & 0x02 == 0 then
                  (if b & 0x01 == 0 then 0xBC65029D else 0x6120A825)
                else
                  (if b & 0x01 == 0 then 0x0302211C else 0xDE478BA4)
            else
              if b & 0x04 == 0 then
                if b & 0x02 == 0 then
                  (if b & 0x01 == 0 then 0x31035088 else 0xEC46FA30)
                else
                  (if b & 0x01 == 0 then 0x8E647309 else 0x5321D9B1)
              else
                if b & 0x02 == 0 then
                  (if b & 0x01 == 0 then 0x4A21617B else 0x9764CBC3)
                else
                  (if b & 0x01 == 0 then 0xF54642FA else 0x2803E842)
  }

  /** Entry b of k_CRC_TABLE_IL8_O64. */
  function O64(b: bv8): bv32 {
    if b & 0x80 == 0 then
      if b & 0x40 == 0 then
        if b & 0x20 == 0 then
          if b & 0x10 == 0 then
            if b & 0x08 == 0 then
              if b & 0x04 == 0 then
                if b & 0x02 == 0 then
                  (if b & 0x01 == 0 then 0x00000000 else 0x38116FAC)
                else
                  (if b & 0x01 == 0 then 0x7022DF58 else 0x4833B0F4)
              else
                if b & 0x02 == 0 then
                  (if b & 0x01 == 0 then 0xE045BEB0 else 0xD854D11C)
                else
                  (if b & 0x01 == 0 then 0x906761E8 else 0xA8760E44)
            else
              if b & 0x04 == 0 then
                if b & 0x02 == 0 then
                  (if b & 0x01 == 0 then 0xC5670B91 else 0xFD76643D)
                else
                  (if b & 0x01 == 0 then 0xB545D4C9 else 0x8D54BB65)
              else
                if b & 0x02 == 0 then
                  (if b & 0x01 == 0 then 0x2522B521 else 0x1D33DA8D)
                else
                  (if b & 0x01 == 0 then 0x55006A79 else 0x6D1105D5)
          else
            if b & 0x08 == 0 then
              if b & 0x04 == 0 then
                if b & 0x02 == 0 then
                  (if b & 0x01 == 0 then 0x8F2261D3 else 0xB7330E7F)
                else
                  (if b & 0x01 == 0 then 0xFF00BE8B else 0xC711D127)
              else
                if b & 0x02 == 0 then
                  (if b & 0x01 == 0 then 0x6F67DF63 else 0x5776B0CF)
                else
                  (if b & 0x01 == 0 then 0x1F45003B else 0x27546F97)
            else
              if b & 0x04 == 0 then
                if b & 0x02 == 0 then
                  (if b & 0x01 == 0 then 0x4A456A42 else 0x725405EE)
                else
                  (if b & 0x01 == 0 then 0x3A67B51A else 0x0276DAB6)
              else
                if b & 0x02 == 0 then
                  (if b & 0x01 == 0 then 0xAA00D4F2 else 0x9211BB5E)
                else
                  (if b & 0x01 == 0 then 0xDA220BAA else 0xE2336406)
        else
          if b & 0x10 == 0 then
            if b & 0x08 == 0 then
              if b & 0x04 == 0 then
                if b & 0x02 == 0 then
                  (if b & 0x01 == 0 then 0x1BA8B557 else 0x23B9DAFB)
                else
                  (if b & 0x01 == 0 then 0x6B8A6A0F else 0x539B05A3)
              else
                if b & 0x02 == 0 then
                  (if b & 0x01 == 0 then 0xFBED0BE7 else 0xC3FC644B)
                else
                  (if b & 0x01 == 0 then 0x8BCFD4BF else 0xB3DEBB13)
            else
              if b & 0x04 == 0 then
                if b & 0x02 == 0 then
                  (if b & 0x01 == 0 then 0xDECFBEC6 else 0xE6DED16A)
                else
                  (if b & 0x01 == 0 then 0xAEED619E else 0x96FC0E32)
              else
                if b & 0x02 == 0 then
                  (if b & 0x01 == 0 then 0x3E8A0076 else 0x069B6FDA)
                else
                  (if b & 0x01 == 0 then 0x4EA8DF2E else 0x76B9B082)
          else
            if b & 0x08 == 0 then
              if b & 0x04 == 0 then
                if b & 0x02 == 0 then
                  (if b & 0x01 == 0 then 0x948AD484 else 0xAC9BBB28)
                else
                  (if b & 0x01 == 0 then 0xE4A80BDC else 0xDCB96470)
              else
                if b & 0x02 == 0 then
                  (if b & 0x01 == 0 then 0x74CF6A34 else 0x4CDE0598)
                else
                  (if b & 0x01 == 0 then 0x04EDB56C else 0x3CFCDAC0)
            else
              if b & 0x04 == 0 then
                if b & 0x02 == 0 then
                  (if b & 0x01 == 0 then 0x51EDDF15 else 0x69FCB0B9)
                else
                  (if b & 0x01 == 0 then 0x21CF004D else 0x19DE6FE1)
              else
                if b & 0x02 == 0 then
                  (if b & 0x01 == 0 then 0xB1A861A5 else 0x89B90E09)
                else
                  (if b & 0x01 == 0 then 0xC18ABEFD else 0xF99BD151)
      else
        if b & 0x20 == 0 then
          if b & 0x10 == 0 then
            if b & 0x08 == 0 then
              if b & 0x04 == 0 then
                if b & 0x02 == 0 then
                  (if b & 0x01 == 0 then 0x37516AAE else 0x0F400502)
                else
                  (if b & 0x01 == 0 then 0x4773B5F6 else 0x7F62DA5A)
              else
                if b & 0x02 == 0 then
                  (if b & 0x01 == 0 then 0xD714D41E else 0xEF05BBB2)
                else
                  (if b & 0x01 == 0 then 0xA7360B46 else 0x9F2764EA)
            else
              if b & 0x04 == 0 then
                if b & 0x02 == 0 then
                  (if b & 0x01 == 0 then 0xF236613F else 0xCA270E93)
                else
                  (if b & 0x01 == 0 then 0x8214BE67 else 0xBA05D1CB)
              else
                if b & 0x02 == 0 then
                  (if b & 0x01 == 0 then 0x1273DF8F else 0x2A62B023)
                else
                  (if b & 0x01 == 0 then 0x625100D7 else 0x5A406F7B)
          else
            if b & 0x08 == 0 then
              if b & 0x04 == 0 then
                if b & 0x02 == 0 then
                  (if b & 0x01 == 0 then 0xB8730B7D else 0x806264D1)
                else
                  (if b & 0x01 == 0 then 0xC851D425 else 0xF040BB89)
              else
                if b & 0x02 == 0 then
                  (if b & 0x01 == 0 then 0x5836B5CD else 0x6027DA61)
                else
                  (if b & 0x01 == 0 then 0x28146A95 else 0x10050539)
            else
              if b & 0x04 == 0 then
                if b & 0x02 == 0 then
                  (if b & 0x01 == 0 then 0x7D1400EC else 0x45056F40)
                else
                  (if b & 0x01 == 0 then 0x0D36DFB4 else 0x3527B018)
              else
                if b & 0x02 == 0 then
                  (if b & 0x01 == 0 then 0x9D51BE5C else 0xA540D1F0)
                else
                  (if b & 0x01 == 0 then 0xED736104 else 0xD5620EA8)
        else
          if b & 0x10 == 0 then
            if b & 0x08 == 0 then
              if b & 0x04 == 0 then
                if b & 0x02 == 0 then
                  (if b & 0x01 == 0 then 0x2CF9DFF9 else 0x14E8B055)
                else
                  (if b & 0x01 == 0 then 0x5CDB00A1 else 0x64CA6F0D)
              else
                if b & 0x02 == 0 then
                  (if b & 0x01 == 0 then 0xCCBC6149 else 0xF4AD0EE5)
                else
                  (if b & 0x01 == 0 then 0xBC9EBE11 else 0x848FD1BD)
            else
              if b & 0x04 == 0 then
                if b & 0x02 == 0 then
                  (if b & 0x01 == 0 then 0xE99ED468 else 0xD18FBBC4)
                else
                  (if b & 0x01 == 0 then 0x99BC0B30 else 0xA1AD649C)
              else
                if b & 0x02 == 0 then
                  (if b & 0x01 == 0 then 0x09DB6AD8 else 0x31CA0574)
                else
                  (if b & 0x01 == 0 then 0x79F9B580 else 0x41E8DA2C)
          else
            if b & 0x08 == 0 then
              if b & 0x04 == 0 then
                if b & 0x02 == 0 then
                  (if b & 0x01 == 0 then 0xA3DBBE2A else 0x9BCAD186)
                else
                  (if b & 0x01 == 0 then 0xD3F96172 else 0xEBE80EDE)
              else
                if b & 0x02 == 0 then
                  (if b & 0x01 == 0 then 0x439E009A else 0x7B8F6F36)
                else
                  (if b & 0x01 == 0 then 0x33BCDFC2 else 0x0BADB06E)
            else
              if b & 0x04 == 0 then
                if b & 0x02 == 0 then
                  (if b & 0x01 == 0 then 0x66BCB5BB else 0x5EADDA17)
                else
                  (if b & 0x01 == 0 then 0x169E6AE3 else 0x2E8F054F)
              else
                if b & 0x02 == 0 then
                  (if b & 0x01 == 0 then 0x86F90B0B else 0xBEE864A7)
                else
                  (if b & 0x01 == 0 then 0xF6DBD453 else 0xCECABBFF)
    else
      if b & 0x40 == 0 then
        if b & 0x20 == 0 then
          if b & 0x10 == 0 then
            if b & 0x08 == 0 then
              if b & 0x04 == 0 then
                if b & 0x02 == 0 then
                  (if b & 0x01 == 0 then 0x6EA2D55C else 0x56B3BAF0)
                else
                  (if b & 0x01 == 0 then 0x1E800A04 else 0x269165A8)
              else
                if b & 0x02 == 0 then
                  (if b & 0x01 == 0 then 0x8EE76BEC else 0xB6F60440)
                else
                  (if b & 0x01 == 0 then 0xFEC5B4B4 else 0xC6D4DB18)
            else
              if b & 0x04 == 0 then
                if b & 0x02 == 0 then
                  (if b & 0x01 == 0 then 0xABC5DECD else 0x93D4B161)
                else
                  (if b & 0x01 == 0 then 0xDBE70195 else 0xE3F66E39)
              else
                if b & 0x02 == 0 then
                  (if b & 0x01 == 0 then 0x4B80607D else 0x73910FD1)
                else
                  (if b & 0x01 == 0 then 0x3BA2BF25 else 0x03B3D089)
          else
            if b & 0x08 == 0 then
              if b & 0x04 == 0 then
                if b & 0x02 == 0 then
                  (if b & 0x01 == 0 then 0xE180B48F else 0xD991DB23)
                else
                  (if b & 0x01 == 0 then 0x91A26BD7 else 0xA9B3047B)
              else
                if b & 0x02 == 0 then
                  (if b & 0x01 == 0 then 0x01C50A3F else 0x39D46593)
                else
                  (if b & 0x01 == 0 then 0x71E7D567 else 0x49F6BACB)
            else
              if b & 0x04 == 0 then
                if b & 0x02 == 0 then
                  (if b & 0x01 == 0 then 0x24E7BF1E else 0x1CF6D0B2)
                else
                  (if b & 0x01 == 0 then 0x54C56046 else 0x6CD40FEA)
              else
                if b & 0x02 == 0 then
                  (if b & 0x01 == 0 then 0xC4A201AE else 0xFCB36E02)
                else
                  (if b & 0x01 == 0 then 0xB480DEF6 else 0x8C91B15A)
        else
          if b & 0x10 == 0 then
            if b & 0x08 == 0 then
              if b & 0x04 == 0 then
                if b & 0x02 == 0 then
                  (if b & 0x01 == 0 then 0x750A600B else 0x4D1B0FA7)
                else
                  (if b & 0x01 == 0 then 0x0528BF53 else 0x3D39D0FF)
              else
                if b & 0x02 == 0 then
                  (if b & 0x01 == 0 then 0x954FDEBB else 0xAD5EB117)
                else
                  (if b & 0x01 == 0 then 0xE56D01E3 else 0xDD7C6E4F)
            else
              if b & 0x04 == 0 then
                if b & 0x02 == 0 then
                  (if b & 0x01 == 0 then 0xB06D6B9A else 0x887C0436)
                else
                  (if b & 0x01 == 0 then 0xC04FB4C2 else 0xF85EDB6E)
              else
                if b & 0x02 == 0 then
                  (if b & 0x01 == 0 then 0x5028D52A else 0x6839BA86)
                else
                  (if b & 0x01 == 0 then 0x200A0A72 else 0x181B65DE)
          else
            if b & 0x08 == 0 then
              if b & 0x04 == 0 then
                if b & 0x02 == 0 then
                  (if b & 0x01 == 0 then 0xFA2801D8 else 0xC2396E74)
                else
                  (if b & 0x01 == 0 then 0x8A0ADE80 else 0xB21BB12C)
              else
                if b & 0x02 == 0 then
                  (if b & 0x01 == 0 then 0x1A6DBF68 else 0x227CD0C4)
                else
                  (if b & 0x01 == 0 then 0x6A4F6030 else 0x525E0F9C)
            else
              if b & 0x04 == 0 then
                if b & 0x02 == 0 then
                  (if b & 0x01 == 0 then 0x3F4F0A49 else 0x075E65E5)
                else
                  (if b & 0x01 == 0 then 0x4F6DD511 else 0x777CBABD)
              else
                if b & 0x02 == 0 then
                  (if b & 0x01 == 0 then 0xDF0AB4F9 else 0xE71BDB55)
                else
                  (if b & 0x01 == 0 then 0xAF286BA1 else 0x9739040D)
      else
        if b & 0x20 == 0 then
          if b & 0x10 == 0 then
            if b & 0x08 == 0 then
              if b & 0x04 == 0 then
                if b & 0x02 == 0 then
                  (if b & 0x01 == 0 then 0x59F3BFF2 else 0x61E2D05E)
                else
                  (if b & 0x01 == 0 then 0x29D160AA else 0x11C00F06)
              else
                if b & 0x02 == 0 then
                  (if b & 0x01 == 0 then 0xB9B60142 else 0x81A76EEE)
                else
                  (if b & 0x01 == 0 then 0xC994DE1A else 0xF185B1B6)
            else
              if b & 0x04 == 0 then
                if b & 0x02 == 0 then
                  (if b & 0x01 == 0 then 0x9C94B463 else 0xA485DBCF)
                else
                  (if b & 0x01 == 0 then 0xECB66B3B else 0xD4A70497)
              else
                if b & 0x02 == 0 then
                  (if b & 0x01 == 0 then 0x7CD10AD3 else 0x44C0657F)
                else
                  (if b & 0x01 == 0 then 0x0CF3D58B else 0x34E2BA27)
          else
            if b & 0x08 == 0 then
              if b & 0x04 == 0 then
                if b & 0x02 == 0 then
                  (if b & 0x01 == 0 then 0xD6D1DE21 else 0xEEC0B18D)
                else
                  (if b & 0x01 == 0 then 0xA6F30179 else 0x9EE26ED5)
              else
                if b & 0x02 == 0 then
                  (if b & 0x01 == 0 then 0x36946091 else 0x0E850F3D)
                else
                  (if b & 0x01 == 0 then 0x46B6BFC9 else 0x7EA7D065)
            else
              if b & 0x04 == 0 then
                if b & 0x02 == 0 then
                  (if b & 0x01 == 0 then 0x13B6D5B0 else 0x2BA7BA1C)
                else
                  (if b & 0x01 == 0 then 0x63940AE8 else 0x5B856544)
              else
                if b & 0x02 == 0 then
                  (if b & 0x01 == 0 then 0xF3F36B00 else 0xCBE204AC)
                else
                  (if b & 0x01 == 0 then 0x83D1B458 else 0xBBC0DBF4)
        else
          if b & 0x10 == 0 then
            if b & 0x08 == 0 then
              if b & 0x04 == 0 then
                if b & 0x02 == 0 then
                  (if b & 0x01 == 0 then 0x425B0AA5 else 0x7A4A6509)
                else
                  (if b & 0x01 == 0 then 0x3279D5FD else 0x0A68BA51)
              else
                if b & 0x02 == 0 then
                  (if b & 0x01 == 0 then 0xA21EB415 else 0x9A0FDBB9)
                else
                  (if b & 0x01 == 0 then 0xD23C6B4D else 0xEA2D04E1)
            else
              if b & 0x04 == 0 then
                if b & 0x02 == 0 then
                  (if b & 0x01 == 0 then 0x873C0134 else 0xBF2D6E98)
                else
                  (if b & 0x01 == 0 then 0xF71EDE6C else 0xCF0FB1C0)
              else
                if b & 0x02 == 0 then
                  (if b & 0x01 == 0 then 0x6779BF84 else 0x5F68D028)
                else
                  (if b & 0x01 == 0 then 0x175B60DC else 0x2F4A0F70)
          else
            if b & 0x08 == 0 then
              if b & 0x04 == 0 then
                if b & 0x02 == 0 then
                  (if b & 0x01 == 0 then 0xCD796B76 else 0xF56804DA)
                else
                  (if b & 0x01 == 0 then 0xBD5BB42E else 0x854ADB82)
              else
                if b & 0x02 == 0 then
                  (if b & 0x01 == 0 then 0x2D3CD5C6 else 0x152DBA6A)
                else
                  (if b & 0x01 == 0 then 0x5D1E0A9E else 0x650F6532)
            else
              if b & 0x04 == 0 then
                if b & 0x02 == 0 then
                  (if b & 0x01 == 0 then 0x081E60E7 else 0x300F0F4B)
                else
                  (if b & 0x01 == 0 then 0x783CBFBF else 0x402DD013)
              else
                if b & 0x02 == 0 then
                  (if b & 0x01 == 0 then 0xE85BDE57 else 0xD04AB1FB)
                else
                  (if b & 0x01 == 0 then 0x9879010F else 0xA0686EA3)
  }

  /** Entry b of k_CRC_TABLE_IL8_O72. */
  function O72(b: bv8): bv32 {
    if b & 0x80 == 0 then
      if b & 0x40 == 0 then
        if b & 0x20 == 0 then
          if b & 0x10 == 0 then
            if b & 0x08 == 0 then
              if b & 0x04 == 0 then
                if b & 0x02 == 0 then
                  (if b & 0x01 == 0 then 0x00000000 else 0xEF306B19)
                else
                  (if b & 0x01 == 0 then 0xDB8CA0C3 else 0x34BCCBDA)
              else
                if b & 0x02 == 0 then
                  (if b & 0x01 == 0 then 0xB2F53777 else 0x5DC55C6E)
                else
                  (if b & 0x01 == 0 then 0x697997B4 else 0x8649FCAD)
            else
              if b & 0x04 == 0 then
                if b & 0x02 == 0 then
                  (if b & 0x01 == 0 then 0x6006181F else 0x8F367306)
                else
                  (if b & 0x01 == 0 then 0xBB8AB8DC else 0x54BAD3C5)
              else
                if b & 0x02 == 0 then
                  (if b & 0x01 == 0 then 0xD2F32F68 else 0x3DC34471)
                else
                  (if b & 0x01 == 0 then 0x097F8FAB else 0xE64FE4B2)
          else
            if b & 0x08 == 0 then
              if b & 0x04 == 0 then
                if b & 0x02 == 0 then
                  (if b & 0x01 == 0 then 0xC00C303E else 0x2F3C5B27)
                else
                  (if b & 0x01 == 0 then 0x1B8090FD else 0xF4B0FBE4)
              else
                if b & 0x02 == 0 then
                  (if b & 0x01 == 0 then 0x72F90749 else 0x9DC96C50)
                else
                  (if b & 0x01 == 0 then 0xA975A78A else 0x4645CC93)
            else
              if b & 0x04 == 0 then
                if b & 0x02 == 0 then
                  (if b & 0x01 == 0 then 0xA00A2821 else 0x4F3A4338)
                else
                  (if b & 0x01 == 0 then 0x7B8688E2 else 0x94B6E3FB)
              else
                if b & 0x02 == 0 then
                  (if b & 0x01 == 0 then 0x12FF1F56 else 0xFDCF744F)
                else
                  (if b & 0x01 == 0 then 0xC973BF95 else 0x2643D48C)
        else
          if b & 0x10 == 0 then
            if b & 0x08 == 0 then
              if b & 0x04 == 0 then
                if b & 0x02 == 0 then
                  (if b & 0x01 == 0 then 0x85F4168D else 0x6AC47D94)
                else
                  (if b & 0x01 == 0 then 0x5E78B64E else 0xB148DD57)
              else
                if b & 0x02 == 0 then
                  (if b & 0x01 == 0 then 0x370121FA else 0xD8314AE3)
                else
                  (if b & 0x01 == 0 then 0xEC8D8139 else 0x03BDEA20)
            else
              if b & 0x04 == 0 then
                if b & 0x02 == 0 then
                  (if b & 0x01 == 0 then 0xE5F20E92 else 0x0AC2658B)
                else
                  (if b & 0x01 == 0 then 0x3E7EAE51 else 0xD14EC548)
              else
                if b & 0x02 == 0 then
                  (if b & 0x01 == 0 then 0x570739E5 else 0xB83752FC)
                else
                  (if b & 0x01 == 0 then 0x8C8B9926 else 0x63BBF23F)
          else
            if b & 0x08 == 0 then
              if b & 0x04 == 0 then
                if b & 0x02 == 0 then
                  (if b & 0x01 == 0 then 0x45F826B3 else 0xAAC84DAA)
                else
                  (if b & 0x01 == 0 then 0x9E748670 else 0x7144ED69)
              else
                if b & 0x02 == 0 then
                  (if b & 0x01 == 0 then 0xF70D11C4 else 0x183D7ADD)
                else
                  (if b & 0x01 == 0 then 0x2C81B107 else 0xC3B1DA1E)
            else
              if b & 0x04 == 0 then
                if b & 0x02 == 0 then
                  (if b & 0x01 == 0 then 0x25FE3EAC else 0xCACE55B5)
                else
                  (if b & 0x01 == 0 then 0xFE729E6F else 0x1142F576)
              else
                if b & 0x02 == 0 then
                  (if b & 0x01 == 0 then 0x970B09DB else 0x783B62C2)
                else
                  (if b & 0x01 == 0 then 0x4C87A918 else 0xA3B7C201)
      else
        if b & 0x20 == 0 then
          if b & 0x10 == 0 then
            if b & 0x08 == 0 then
              if b & 0x04 == 0 then
                if b & 0x02 == 0 then
                  (if b & 0x01 == 0 then 0x0E045BEB else 0xE13430F2)
                else
                  (if b & 0x01 == 0 then 0xD588FB28 else 0x3AB89031)
              else
                if b & 0x02 == 0 then
                  (if b & 0x01 == 0 then 0xBCF16C9C else 0x53C10785)
                else
                  (if b & 0x01 == 0 then 0x677DCC5F else 0x884DA746)
            else
              if b & 0x04 == 0 then
                if b & 0x02 == 0 then
                  (if b & 0x01 == 0 then 0x6E0243F4 else 0x813228ED)
                else
                  (if b & 0x01 == 0 then 0xB58EE337 else 0x5ABE882E)
              else
                if b & 0x02 == 0 then
                  (if b & 0x01 == 0 then 0xDCF77483 else 0x33C71F9A)
                else
                  (if b & 0x01 == 0 then 0x077BD440 else 0xE84BBF59)
          else
            if b & 0x08 == 0 then
              if b & 0x04 == 0 then
                if b & 0x02 == 0 then
                  (if b & 0x01 == 0 then 0xCE086BD5 else 0x213800CC)
                else
                  (if b & 0x01 == 0 then 0x1584CB16 else 0xFAB4A00F)
              else
                if b & 0x02 == 0 then
                  (if b & 0x01 == 0 then 0x7CFD5CA2 else 0x93CD37BB)
                else
                  (if b & 0x01 == 0 then 0xA771FC61 else 0x48419778)
            else
              if b & 0x04 == 0 then
                if b & 0x02 == 0 then
                  (if b & 0x01 == 0 then 0xAE0E73CA else 0x413E18D3)
                else
                  (if b & 0x01 == 0 then 0x7582D309 else 0x9AB2B810)
              else
                if b & 0x02 == 0 then
                  (if b & 0x01 == 0 then 0x1CFB44BD else 0xF3CB2FA4)
                else
                  (if b & 0x01 == 0 then 0xC777E47E else 0x28478F67)
        else
          if b & 0x10 == 0 then
            if b & 0x08 == 0 then
              if b & 0x04 == 0 then
                if b & 0x02 == 0 then
                  (if b & 0x01 == 0 then 0x8BF04D66 else 0x64C0267F)
                else
                  (if b & 0x01 == 0 then 0x507CEDA5 else 0xBF4C86BC)
              else
                if b & 0x02 == 0 then
                  (if b & 0x01 == 0 then 0x39057A11 else 0xD6351108)
                else
                  (if b & 0x01 == 0 then 0xE289DAD2 else 0x0DB9B1CB)
            else
              if b & 0x04 == 0 then
                if b & 0x02 == 0 then
                  (if b & 0x01 == 0 then 0xEBF65579 else 0x04C63E60)
                else
                  (if b & 0x01 == 0 then 0x307AF5BA else 0xDF4A9EA3)
              else
                if b & 0x02 == 0 then
                  (if b & 0x01 == 0 then 0x5903620E else 0xB6330917)
                else
                  (if b & 0x01 == 0 then 0x828FC2CD else 0x6DBFA9D4)
          else
            if b & 0x08 == 0 then
              if b & 0x04 == 0 then
                if b & 0x02 == 0 then
                  (if b & 0x01 == 0 then 0x4BFC7D58 else 0xA4CC1641)
                else
                  (if b & 0x01 == 0 then 0x9070DD9B else 0x7F40B682)
              else
                if b & 0x02 == 0 then
                  (if b & 0x01 == 0 then 0xF9094A2F else 0x16392136)
                else
                  (if b & 0x01 == 0 then 0x2285EAEC else 0xCDB581F5)
            else
              if b & 0x04 == 0 then
                if b & 0x02 == 0 then
                  (if b & 0x01 == 0 then 0x2BFA6547 else 0xC4CA0E5E)
                else
                  (if b & 0x01 == 0 then 0xF076C584 else 0x1F46AE9D)
              else
                if b & 0x02 == 0 then
                  (if b & 0x01 == 0 then 0x990F5230 else 0x763F3929)
                else
                  (if b & 0x01 == 0 then 0x4283F2F3 else 0xADB399EA)
    else
      if b & 0x40 == 0 then
        if b & 0x20 == 0 then
          if b & 0x10 == 0 then
            if b & 0x08 == 0 then
              if b & 0x04 == 0 then
                if b & 0x02 == 0 then
                  (if b & 0x01 == 0 then 0x1C08B7D6 else 0xF338DCCF)
                else
                  (if b & 0x01 == 0 then 0xC7841715 else 0x28B47C0C)
              else
                if b & 0x02 == 0 then
                  (if b & 0x01 == 0 then 0xAEFD80A1 else 0x41CDEBB8)
                else
                  (if b & 0x01 == 0 then 0x75712062 else 0x9A414B7B)
            else
              if b & 0x04 == 0 then
                if b & 0x02 == 0 then
                  (if b & 0x01 == 0 then 0x7C0EAFC9 else 0x933EC4D0)
                else
                  (if b & 0x01 == 0 then 0xA7820F0A else 0x48B26413)
              else
                if b & 0x02 == 0 then
                  (if b & 0x01 == 0 then 0xCEFB98BE else 0x21CBF3A7)
                else
                  (if b & 0x01 == 0 then 0x1577387D else 0xFA475364)
          else
            if b & 0x08 == 0 then
              if b & 0x04 == 0 then
                if b & 0x02 == 0 then
                  (if b & 0x01 == 0 then 0xDC0487E8 else 0x3334ECF1)
                else
                  (if b & 0x01 == 0 then 0x0788272B else 0xE8B84C32)
              else
                if b & 0x02 == 0 then
                  (if b & 0x01 == 0 then 0x6EF1B09F else 0x81C1DB86)
                else
                  (if b & 0x01 == 0 then 0xB57D105C else 0x5A4D7B45)
            else
              if b & 0x04 == 0 then
                if b & 0x02 == 0 then
                  (if b & 0x01 == 0 then 0xBC029FF7 else 0x5332F4EE)
                else
                  (if b & 0x01 == 0 then 0x678E3F34 else 0x88BE542D)
              else
                if b & 0x02 == 0 then
                  (if b & 0x01 == 0 then 0x0EF7A880 else 0xE1C7C399)
                else
                  (if b & 0x01 == 0 then 0xD57B0843 else 0x3A4B635A)
        else
          if b & 0x10 == 0 then
            if b & 0x08 == 0 then
              if b & 0x04 == 0 then
                if b & 0x02 == 0 then
                  (if b & 0x01 == 0 then 0x99FCA15B else 0x76CCCA42)
                else
                  (if b & 0x01 == 0 then 0x42700198 else 0xAD406A81)
              else
                if b & 0x02 == 0 then
                  (if b & 0x01 == 0 then 0x2B09962C else 0xC439FD35)
                else
                  (if b & 0x01 == 0 then 0xF08536EF else 0x1FB55DF6)
            else
              if b & 0x04 == 0 then
                if b & 0x02 == 0 then
                  (if b & 0x01 == 0 then 0xF9FAB944 else 0x16CAD25D)
                else
                  (if b & 0x01 == 0 then 0x22761987 else 0xCD46729E)
              else
                if b & 0x02 == 0 then
                  (if b & 0x01 == 0 then 0x4B0F8E33 else 0xA43FE52A)
                else
                  (if b & 0x01 == 0 then 0x90832EF0 else 0x7FB345E9)
          else
            if b & 0x08 == 0 then
              if b & 0x04 == 0 then
                if b & 0x02 == 0 then
                  (if b & 0x01 == 0 then 0x59F09165 else 0xB6C0FA7C)
                else
                  (if b & 0x01 == 0 then 0x827C31A6 else 0x6D4C5ABF)
              else
                if b & 0x02 == 0 then
                  (if b & 0x01 == 0 then 0xEB05A612 else 0x0435CD0B)
                else
                  (if b & 0x01 == 0 then 0x308906D1 else 0xDFB96DC8)
            else
              if b & 0x04 == 0 then
                if b & 0x02 == 0 then
                  (if b & 0x01 == 0 then 0x39F6897A else 0xD6C6E263)
                else
                  (if b & 0x01 == 0 then 0xE27A29B9 else 0x0D4A42A0)
              else
                if b & 0x02 == 0 then
                  (if b & 0x01 == 0 then 0x8B03BE0D else 0x6433D514)
                else
                  (if b & 0x01 == 0 then 0x508F1ECE else 0xBFBF75D7)
      else
        if b & 0x20 == 0 then
          if b & 0x10 == 0 then
            if b & 0x08 == 0 then
              if b & 0x04 == 0 then
                if b & 0x02 == 0 then
                  (if b & 0x01 == 0 then 0x120CEC3D else 0xFD3C8724)
                else
                  (if b & 0x01 == 0 then 0xC9804CFE else 0x26B027E7)
              else
                if b & 0x02 == 0 then
                  (if b & 0x01 == 0 then 0xA0F9DB4A else 0x4FC9B053)
                else
                  (if b & 0x01 == 0 then 0x7B757B89 else 0x94451090)
            else
              if b & 0x04 == 0 then
                if b & 0x02 == 0 then
                  (if b & 0x01 == 0 then 0x720AF422 else 0x9D3A9F3B)
                else
                  (if b & 0x01 == 0 then 0xA98654E1 else 0x46B63FF8)
              else
                if b & 0x02 == 0 then
                  (if b & 0x01 == 0 then 0xC0FFC355 else 0x2FCFA84C)
                else
                  (if b & 0x01 == 0 then 0x1B736396 else 0xF443088F)
          else
            if b & 0x08 == 0 then
              if b & 0x04 == 0 then
                if b & 0x02 == 0 then
                  (if b & 0x01 == 0 then 0xD200DC03 else 0x3D30B71A)
                else
                  (if b & 0x01 == 0 then 0x098C7CC0 else 0xE6BC17D9)
              else
                if b & 0x02 == 0 then
                  (if b & 0x01 == 0 then 0x60F5EB74 else 0x8FC5806D)
                else
                  (if b & 0x01 == 0 then 0xBB794BB7 else 0x544920AE)
            else
              if b & 0x04 == 0 then
                if b & 0x02 == 0 then
                  (if b & 0x01 == 0 then 0xB206C41C else 0x5D36AF05)
                else
                  (if b & 0x01 == 0 then 0x698A64DF else 0x86BA0FC6)
              else
                if b & 0x02 == 0 then
                  (if b & 0x01 == 0 then 0x00F3F36B else 0xEFC39872)
                else
                  (if b & 0x01 == 0 then 0xDB7F53A8 else 0x344F38B1)
        else
          if b & 0x10 == 0 then
            if b & 0x08 == 0 then
              if b & 0x04 == 0 then
                if b & 0x02 == 0 then
                  (if b & 0x01 == 0 then 0x97F8FAB0 else 0x78C891A9)
                else
                  (if b & 0x01 == 0 then 0x4C745A73 else 0xA344316A)
              else
                if b & 0x02 == 0 then
                  (if b & 0x01 == 0 then 0x250DCDC7 else 0xCA3DA6DE)
                else
                  (if b & 0x01 == 0 then 0xFE816D04 else 0x11B1061D)
            else
              if b & 0x04 == 0 then
                if b & 0x02 == 0 then
                  (if b & 0x01 == 0 then 0xF7FEE2AF else 0x18CE89B6)
                else
                  (if b & 0x01 == 0 then 0x2C72426C else 0xC3422975)
              else
                if b & 0x02 == 0 then
                  (if b & 0x01 == 0 then 0x450BD5D8 else 0xAA3BBEC1)
                else
                  (if b & 0x01 == 0 then 0x9E87751B else 0x71B71E02)
          else
            if b & 0x08 == 0 then
              if b & 0x04 == 0 then
                if b & 0x02 == 0 then
                  (if b & 0x01 == 0 then 0x57F4CA8E else 0xB8C4A197)
                else
                  (if b & 0x01 == 0 then 0x8C786A4D else 0x63480154)
              else
                if b & 0x02 == 0 then
                  (if b & 0x01 == 0 then 0xE501FDF9 else 0x0A3196E0)
                else
                  (if b & 0x01 == 0 then 0x3E8D5D3A else 0xD1BD3623)
            else
              if b & 0x04 == 0 then
                if b & 0x02 == 0 then
                  (if b & 0x01 == 0 then 0x37F2D291 else 0xD8C2B988)
                else
                  (if b & 0x01 == 0 then 0xEC7E7252 else 0x034E194B)
              else
                if b & 0x02 == 0 then
                  (if b & 0x01 == 0 then 0x8507E5E6 else 0x6A378EFF)
                else
                  (if b & 0x01 == 0 then 0x5E8B4525 else 0xB1BB2E3C)
  }

  /** Entry b of k_CRC_TABLE_IL8_O80. */
  function O80(b: bv8): bv32 {
    if b & 0x80 == 0 then
      if b & 0x40 == 0 then
        if b & 0x20 == 0 then
          if b & 0x10 == 0 then
            if b & 0x08 == 0 then
              if b & 0x04 == 0 then
                if b & 0x02 == 0 then
                  (if b & 0x01 == 0 then 0x00000000 else 0x68032CC8)
                else
                  (if b & 0x01 == 0 then 0xD0065990 else 0xB8057558)
              else
                if b & 0x02 == 0 then
                  (if b & 0x01 == 0 then 0xA5E0C5D1 else 0xCDE3E919)
                else
                  (if b & 0x01 == 0 then 0x75E69C41 else 0x1DE5B089)
            else
              if b & 0x04 == 0 then
                if b & 0x02 == 0 then
                  (if b & 0x01 == 0 then 0x4E2DFD53 else 0x262ED19B)
                else
                  (if b & 0x01 == 0 then 0x9E2BA4C3 else 0xF628880B)
              else
                if b & 0x02 == 0 then
                  (if b & 0x01 == 0 then 0xEBCD3882 else 0x83CE144A)
                else
                  (if b & 0x01 == 0 then 0x3BCB6112 else 0x53C84DDA)
          else
            if b & 0x08 == 0 then
              if b & 0x04 == 0 then
                if b & 0x02 == 0 then
                  (if b & 0x01 == 0 then 0x9C5BFAA6 else 0xF458D66E)
                else
                  (if b & 0x01 == 0 then 0x4C5DA336 else 0x245E8FFE)
              else
                if b & 0x02 == 0 then
                  (if b & 0x01 == 0 then 0x39BB3F77 else 0x51B813BF)
                else
                  (if b & 0x01 == 0 then 0xE9BD66E7 else 0x81BE4A2F)
            else
              if b & 0x04 == 0 then
                if b & 0x02 == 0 then
                  (if b & 0x01 == 0 then 0xD27607F5 else 0xBA752B3D)
                else
                  (if b & 0x01 == 0 then 0x02705E65 else 0x6A7372AD)
              else
                if b & 0x02 == 0 then
                  (if b & 0x01 == 0 then 0x7796C224 else 0x1F95EEEC)
                else
                  (if b & 0x01 == 0 then 0xA7909BB4 else 0xCF93B77C)
        else
          if b & 0x10 == 0 then
            if b & 0x08 == 0 then
              if b & 0x04 == 0 then
                if b & 0x02 == 0 then
                  (if b & 0x01 == 0 then 0x3D5B83BD else 0x5558AF75)
                else
                  (if b & 0x01 == 0 then 0xED5DDA2D else 0x855EF6E5)
              else
                if b & 0x02 == 0 then
                  (if b & 0x01 == 0 then 0x98BB466C else 0xF0B86AA4)
                else
                  (if b & 0x01 == 0 then 0x48BD1FFC else 0x20BE3334)
            else
              if b & 0x04 == 0 then
                if b & 0x02 == 0 then
                  (if b & 0x01 == 0 then 0x73767EEE else 0x1B755226)
                else
                  (if b & 0x01 == 0 then 0xA370277E else 0xCB730BB6)
              else
                if b & 0x02 == 0 then
                  (if b & 0x01 == 0 then 0xD696BB3F else 0xBE9597F7)
                else
                  (if b & 0x01 == 0 then 0x0690E2AF else 0x6E93CE67)
          else
            if b & 0x08 == 0 then
              if b & 0x04 == 0 then
                if b & 0x02 == 0 then
                  (if b & 0x01 == 0 then 0xA100791B else 0xC90355D3)
                else
                  (if b & 0x01 == 0 then 0x7106208B else 0x19050C43)
              else
                if b & 0x02 == 0 then
                  (if b & 0x01 == 0 then 0x04E0BCCA else 0x6CE39002)
                else
                  (if b & 0x01 == 0 then 0xD4E6E55A else 0xBCE5C992)
            else
              if b & 0x04 == 0 then
                if b & 0x02 == 0 then
                  (if b & 0x01 == 0 then 0xEF2D8448 else 0x872EA880)
                else
                  (if b & 0x01 == 0 then 0x3F2BDDD8 else 0x5728F110)
              else
                if b & 0x02 == 0 then
                  (if b & 0x01 == 0 then 0x4ACD4199 else 0x22CE6D51)
                else
                  (if b & 0x01 == 0 then 0x9ACB1809 else 0xF2C834C1)
      else
        if b & 0x20 == 0 then
          if b & 0x10 == 0 then
            if b & 0x08 == 0 then
              if b & 0x04 == 0 then
                if b & 0x02 == 0 then
                  (if b & 0x01 == 0 then 0x7AB7077A else 0x12B42BB2)
                else
                  (if b & 0x01 == 0 then 0xAAB15EEA else 0xC2B27222)
              else
                if b & 0x02 == 0 then
                  (if b & 0x01 == 0 then 0xDF57C2AB else 0xB754EE63)
                else
                  (if b & 0x01 == 0 then 0x0F519B3B else 0x6752B7F3)
            else
              if b & 0x04 == 0 then
                if b & 0x02 == 0 then
                  (if b & 0x01 == 0 then 0x349AFA29 else 0x5C99D6E1)
                else
                  (if b & 0x01 == 0 then 0xE49CA3B9 else 0x8C9F8F71)
              else
                if b & 0x02 == 0 then
                  (if b & 0x01 == 0 then 0x917A3FF8 else 0xF9791330)
                else
                  (if b & 0x01 == 0 then 0x417C6668 else 0x297F4AA0)
          else
            if b & 0x08 == 0 then
              if b & 0x04 == 0 then
                if b & 0x02 == 0 then
                  (if b & 0x01 == 0 then 0xE6ECFDDC else 0x8EEFD114)
                else
                  (if b & 0x01 == 0 then 0x36EAA44C else 0x5EE98884)
              else
                if b & 0x02 == 0 then
                  (if b & 0x01 == 0 then 0x430C380D else 0x2B0F14C5)
                else
                  (if b & 0x01 == 0 then 0x930A619D else 0xFB094D55)
            else
              if b & 0x04 == 0 then
                if b & 0x02 == 0 then
                  (if b & 0x01 == 0 then 0xA8C1008F else 0xC0C22C47)
                else
                  (if b & 0x01 == 0 then 0x78C7591F else 0x10C475D7)
              else
                if b & 0x02 == 0 then
                  (if b & 0x01 == 0 then 0x0D21C55E else 0x6522E996)
                else
                  (if b & 0x01 == 0 then 0xDD279CCE else 0xB524B006)
        else
          if b & 0x10 == 0 then
            if b & 0x08 == 0 then
              if b & 0x04 == 0 then
                if b & 0x02 == 0 then
                  (if b & 0x01 == 0 then 0x47EC84C7 else 0x2FEFA80F)
                else
                  (if b & 0x01 == 0 then 0x97EADD57 else 0xFFE9F19F)
              else
                if b & 0x02 == 0 then
                  (if b & 0x01 == 0 then 0xE20C4116 else 0x8A0F6DDE)
                else
                  (if b & 0x01 == 0 then 0x320A1886 else 0x5A09344E)
            else
              if b & 0x04 == 0 then
                if b & 0x02 == 0 then
                  (if b & 0x01 == 0 then 0x09C17994 else 0x61C2555C)
                else
                  (if b & 0x01 == 0 then 0xD9C72004 else 0xB1C40CCC)
              else
                if b & 0x02 == 0 then
                  (if b & 0x01 == 0 then 0xAC21BC45 else 0xC422908D)
                else
                  (if b & 0x01 == 0 then 0x7C27E5D5 else 0x1424C91D)
          else
            if b & 0x08 == 0 then
              if b & 0x04 == 0 then
                if b & 0x02 == 0 then
                  (if b & 0x01 == 0 then 0xDBB77E61 else 0xB3B452A9)
                else
                  (if b & 0x01 == 0 then 0x0BB127F1 else 0x63B20B39)
              else
                if b & 0x02 == 0 then
                  (if b & 0x01 == 0 then 0x7E57BBB0 else 0x16549778)
                else
                  (if b & 0x01 == 0 then 0xAE51E220 else 0xC652CEE8)
            else
              if b & 0x04 == 0 then
                if b & 0x02 == 0 then
                  (if b & 0x01 == 0 then 0x959A8332 else 0xFD99AFFA)
                else
                  (if b & 0x01 == 0 then 0x459CDAA2 else 0x2D9FF66A)
              else
                if b & 0x02 == 0 then
                  (if b & 0x01 == 0 then 0x307A46E3 else 0x58796A2B)
                else
                  (if b & 0x01 == 0 then 0xE07C1F73 else 0x887F33BB)
    else
      if b & 0x40 == 0 then
        if b & 0x20 == 0 then
          if b & 0x10 == 0 then
            if b & 0x08 == 0 then
              if b & 0x04 == 0 then
                if b & 0x02 == 0 then
                  (if b & 0x01 == 0 then 0xF56E0EF4 else 0x9D6D223C)
                else
                  (if b & 0x01 == 0 then 0x25685764 else 0x4D6B7BAC)
              else
                if b & 0x02 == 0 then
                  (if b & 0x01 == 0 then 0x508ECB25 else 0x388DE7ED)
                else
                  (if b & 0x01 == 0 then 0x808892B5 else 0xE88BBE7D)
            else
              if b & 0x04 == 0 then
                if b & 0x02 == 0 then
                  (if b & 0x01 == 0 then 0xBB43F3A7 else 0xD340DF6F)
                else
                  (if b & 0x01 == 0 then 0x6B45AA37 else 0x034686FF)
              else
                if b & 0x02 == 0 then
                  (if b & 0x01 == 0 then 0x1EA33676 else 0x76A01ABE)
                else
                  (if b & 0x01 == 0 then 0xCEA56FE6 else 0xA6A6432E)
          else
            if b & 0x08 == 0 then
              if b & 0x04 == 0 then
                if b & 0x02 == 0 then
                  (if b & 0x01 == 0 then 0x6935F452 else 0x0136D89A)
                else
                  (if b & 0x01 == 0 then 0xB933ADC2 else 0xD130810A)
              else
                if b & 0x02 == 0 then
                  (if b & 0x01 == 0 then 0xCCD53183 else 0xA4D61D4B)
                else
                  (if b & 0x01 == 0 then 0x1CD36813 else 0x74D044DB)
            else
              if b & 0x04 == 0 then
                if b & 0x02 == 0 then
                  (if b & 0x01 == 0 then 0x27180901 else 0x4F1B25C9)
                else
                  (if b & 0x01 == 0 then 0xF71E5091 else 0x9F1D7C59)
              else
                if b & 0x02 == 0 then
                  (if b & 0x01 == 0 then 0x82F8CCD0 else 0xEAFBE018)
                else
                  (if b & 0x01 == 0 then 0x52FE9540 else 0x3AFDB988)
        else
          if b & 0x10 == 0 then
            if b & 0x08 == 0 then
              if b & 0x04 == 0 then
                if b & 0x02 == 0 then
                  (if b & 0x01 == 0 then 0xC8358D49 else 0xA036A181)
                else
                  (if b & 0x01 == 0 then 0x1833D4D9 else 0x7030F811)
              else
                if b & 0x02 == 0 then
                  (if b & 0x01 == 0 then 0x6DD54898 else 0x05D66450)
                else
                  (if b & 0x01 == 0 then 0xBDD31108 else 0xD5D03DC0)
            else
              if b & 0x04 == 0 then
                if b & 0x02 == 0 then
                  (if b & 0x01 == 0 then 0x8618701A else 0xEE1B5CD2)
                else
                  (if b & 0x01 == 0 then 0x561E298A else 0x3E1D0542)
              else
                if b & 0x02 == 0 then
                  (if b & 0x01 == 0 then 0x23F8B5CB else 0x4BFB9903)
                else
                  (if b & 0x01 == 0 then 0xF3FEEC5B else 0x9BFDC093)
          else
            if b & 0x08 == 0 then
              if b & 0x04 == 0 then
                if b & 0x02 == 0 then
                  (if b & 0x01 == 0 then 0x546E77EF else 0x3C6D5B27)
                else
                  (if b & 0x01 == 0 then 0x84682E7F else 0xEC6B02B7)
              else
                if b & 0x02 == 0 then
                  (if b & 0x01 == 0 then 0xF18EB23E else 0x998D9EF6)
                else
                  (if b & 0x01 == 0 then 0x2188EBAE else 0x498BC766)
            else
              if b & 0x04 == 0 then
                if b & 0x02 == 0 then
                  (if b & 0x01 == 0 then 0x1A438ABC else 0x7240A674)
                else
                  (if b & 0x01 == 0 then 0xCA45D32C else 0xA246FFE4)
              else
                if b & 0x02 == 0 then
                  (if b & 0x01 == 0 then 0xBFA34F6D else 0xD7A063A5)
                else
                  (if b & 0x01 == 0 then 0x6FA516FD else 0x07A63A35)
      else
        if b & 0x20 == 0 then
          if b & 0x10 == 0 then
            if b & 0x08 == 0 then
              if b & 0x04 == 0 then
                if b & 0x02 == 0 then
                  (if b & 0x01 == 0 then 0x8FD9098E else 0xE7DA2546)
                else
                  (if b & 0x01 == 0 then 0x5FDF501E else 0x37DC7CD6)
              else
                if b & 0x02 == 0 then
                  (if b & 0x01 == 0 then 0x2A39CC5F else 0x423AE097)
                else
                  (if b & 0x01 == 0 then 0xFA3F95CF else 0x923CB907)
            else
              if b & 0x04 == 0 then
                if b & 0x02 == 0 then
                  (if b & 0x01 == 0 then 0xC1F4F4DD else 0xA9F7D815)
                else
                  (if b & 0x01 == 0 then 0x11F2AD4D else 0x79F18185)
              else
                if b & 0x02 == 0 then
                  (if b & 0x01 == 0 then 0x6414310C else 0x0C171DC4)
                else
                  (if b & 0x01 == 0 then 0xB412689C else 0xDC114454)
          else
            if b & 0x08 == 0 then
              if b & 0x04 == 0 then
                if b & 0x02 == 0 then
                  (if b & 0x01 == 0 then 0x1382F328 else 0x7B81DFE0)
                else
                  (if b & 0x01 == 0 then 0xC384AAB8 else 0xAB878670)
              else
                if b & 0x02 == 0 then
                  (if b & 0x01 == 0 then 0xB66236F9 else 0xDE611A31)
                else
                  (if b & 0x01 == 0 then 0x66646F69 else 0x0E6743A1)
            else
              if b & 0x04 == 0 then
                if b & 0x02 == 0 then
                  (if b & 0x01 == 0 then 0x5DAF0E7B else 0x35AC22B3)
                else
                  (if b & 0x01 == 0 then 0x8DA957EB else 0xE5AA7B23)
              else
                if b & 0x02 == 0 then
                  (if b & 0x01 == 0 then 0xF84FCBAA else 0x904CE762)
                else
                  (if b & 0x01 == 0 then 0x2849923A else 0x404ABEF2)
        else
          if b & 0x10 == 0 then
            if b & 0x08 == 0 then
              if b & 0x04 == 0 then
                if b & 0x02 == 0 then
                  (if b & 0x01 == 0 then 0xB2828A33 else 0xDA81A6FB)
                else
                  (if b & 0x01 == 0 then 0x6284D3A3 else 0x0A87FF6B)
              else
                if b & 0x02 == 0 then
                  (if b & 0x01 == 0 then 0x17624FE2 else 0x7F61632A)
                else
                  (if b & 0x01 == 0 then 0xC7641672 else 0xAF673ABA)
            else
              if b & 0x04 == 0 then
                if b & 0x02 == 0 then
                  (if b & 0x01 == 0 then 0xFCAF7760 else 0x94AC5BA8)
                else
                  (if b & 0x01 == 0 then 0x2CA92EF0 else 0x44AA0238)
              else
                if b & 0x02 == 0 then
                  (if b & 0x01 == 0 then 0x594FB2B1 else 0x314C9E79)
                else
                  (if b & 0x01 == 0 then 0x8949EB21 else 0xE14AC7E9)
          else
            if b & 0x08 == 0 then
              if b & 0x04 == 0 then
                if b & 0x02 == 0 then
                  (if b & 0x01 == 0 then 0x2ED97095 else 0x46DA5C5D)
                else
                  (if b & 0x01 == 0 then 0xFEDF2905 else 0x96DC05CD)
              else
                if b & 0x02 == 0 then
                  (if b & 0x01 == 0 then 0x8B39B544 else 0xE33A998C)
                else
                  (if b & 0x01 == 0 then 0x5B3FECD4 else 0x333CC01C)
            else
              if b & 0x04 == 0 then
                if b & 0x02 == 0 then
                  (if b & 0x01 == 0 then 0x60F48DC6 else 0x08F7A10E)
                else
                  (if b & 0x01 == 0 then 0xB0F2D456 else 0xD8F1F89E)
              else
                if b & 0x02 == 0 then
                  (if b & 0x01 == 0 then 0xC5144817 else 0xAD1764DF)
                else
                  (if b & 0x01 == 0 then 0x15121187 else 0x7D113D4F)
  }

  /** Entry b of k_CRC_TABLE_IL8_O88. */
  function O88(b: bv8): bv32 {
    if b & 0x80 == 0 then
      if b & 0x40 == 0 then
        if b & 0x20 == 0 then
          if b & 0x10 == 0 then
            if b & 0x08 == 0 then
              if b & 0x04 == 0 then
                if b & 0x02 == 0 then
                  (if b & 0x01 == 0 then 0x00000000 else 0x493C7D27)
                else
                  (if b & 0x01 == 0 then 0x9278FA4E else 0xDB448769)
              else
                if b & 0x02 == 0 then
                  (if b & 0x01 == 0 then 0x211D826D else 0x6821FF4A)
                else
                  (if b & 0x01 == 0 then 0xB3657823 else 0xFA590504)
            else
              if b & 0x04 == 0 then
                if b & 0x02 == 0 then
                  (if b & 0x01 == 0 then 0x423B04DA else 0x0B0779FD)
                else
                  (if b & 0x01 == 0 then 0xD043FE94 else 0x997F83B3)
              else
                if b & 0x02 == 0 then
                  (if b & 0x01 == 0 then 0x632686B7 else 0x2A1AFB90)
                else
                  (if b & 0x01 == 0 then 0xF15E7CF9 else 0xB86201DE)
          else
            if b & 0x08 == 0 then
              if b & 0x04 == 0 then
                if b & 0x02 == 0 then
                  (if b & 0x01 == 0 then 0x847609B4 else 0xCD4A7493)
                else
                  (if b & 0x01 == 0 then 0x160EF3FA else 0x5F328EDD)
              else
                if b & 0x02 == 0 then
                  (if b & 0x01 == 0 then 0xA56B8BD9 else 0xEC57F6FE)
                else
                  (if b & 0x01 == 0 then 0x37137197 else 0x7E2F0CB0)
            else
              if b & 0x04 == 0 then
                if b & 0x02 == 0 then
                  (if b & 0x01 == 0 then 0xC64D0D6E else 0x8F717049)
                else
                  (if b & 0x01 == 0 then 0x5435F720 else 0x1D098A07)
              else
                if b & 0x02 == 0 then
                  (if b & 0x01 == 0 then 0xE7508F03 else 0xAE6CF224)
                else
                  (if b & 0x01 == 0 then 0x7528754D else 0x3C14086A)
        else
          if b & 0x10 == 0 then
            if b & 0x08 == 0 then
              if b & 0x04 == 0 then
                if b & 0x02 == 0 then
                  (if b & 0x01 == 0 then 0x0D006599 else 0x443C18BE)
                else
                  (if b & 0x01 == 0 then 0x9F789FD7 else 0xD644E2F0)
              else
                if b & 0x02 == 0 then
                  (if b & 0x01 == 0 then 0x2C1DE7F4 else 0x65219AD3)
                else
                  (if b & 0x01 == 0 then 0xBE651DBA else 0xF759609D)
            else
              if b & 0x04 == 0 then
                if b & 0x02 == 0 then
                  (if b & 0x01 == 0 then 0x4F3B6143 else 0x06071C64)
                else
                  (if b & 0x01 == 0 then 0xDD439B0D else 0x947FE62A)
              else
                if b & 0x02 == 0 then
                  (if b & 0x01 == 0 then 0x6E26E32E else 0x271A9E09)
                else
                  (if b & 0x01 == 0 then 0xFC5E1960 else 0xB5626447)
          else
            if b & 0x08 == 0 then
              if b & 0x04 == 0 then
                if b & 0x02 == 0 then
                  (if b & 0x01 == 0 then 0x89766C2D else 0xC04A110A)
                else
                  (if b & 0x01 == 0 then 0x1B0E9663 else 0x5232EB44)
              else
                if b & 0x02 == 0 then
                  (if b & 0x01 == 0 then 0xA86BEE40 else 0xE1579367)
                else
                  (if b & 0x01 == 0 then 0x3A13140E else 0x732F6929)
            else
              if b & 0x04 == 0 then
                if b & 0x02 == 0 then
                  (if b & 0x01 == 0 then 0xCB4D68F7 else 0x827115D0)
                else
                  (if b & 0x01 == 0 then 0x593592B9 else 0x1009EF9E)
              else
                if b & 0x02 == 0 then
                  (if b & 0x01 == 0 then 0xEA50EA9A else 0xA36C97BD)
                else
                  (if b & 0x01 == 0 then 0x782810D4 else 0x31146DF3)
      else
        if b & 0x20 == 0 then
          if b & 0x10 == 0 then
            if b & 0x08 == 0 then
              if b & 0x04 == 0 then
                if b & 0x02 == 0 then
                  (if b & 0x01 == 0 then 0x1A00CB32 else 0x533CB615)
                else
                  (if b & 0x01 == 0 then 0x8878317C else 0xC1444C5B)
              else
                if b & 0x02 == 0 then
                  (if b & 0x01 == 0 then 0x3B1D495F else 0x72213478)
                else
                  (if b & 0x01 == 0 then 0xA965B311 else 0xE059CE36)
            else
              if b & 0x04 == 0 then
                if b & 0x02 == 0 then
                  (if b & 0x01 == 0 then 0x583BCFE8 else 0x1107B2CF)
                else
                  (if b & 0x01 == 0 then 0xCA4335A6 else 0x837F4881)
              else
                if b & 0x02 == 0 then
                  (if b & 0x01 == 0 then 0x79264D85 else 0x301A30A2)
                else
                  (if b & 0x01 == 0 then 0xEB5EB7CB else 0xA262CAEC)
          else
            if b & 0x08 == 0 then
              if b & 0x04 == 0 then
                if b & 0x02 == 0 then
                  (if b & 0x01 == 0 then 0x9E76C286 else 0xD74ABFA1)
                else
                  (if b & 0x01 == 0 then 0x0C0E38C8 else 0x453245EF)
              else
                if b & 0x02 == 0 then
                  (if b & 0x01 == 0 then 0xBF6B40EB else 0xF6573DCC)
                else
                  (if b & 0x01 == 0 then 0x2D13BAA5 else 0x642FC782)
            else
              if b & 0x04 == 0 then
                if b & 0x02 == 0 then
                  (if b & 0x01 == 0 then 0xDC4DC65C else 0x9571BB7B)
                else
                  (if b & 0x01 == 0 then 0x4E353C12 else 0x07094135)
              else
                if b & 0x02 == 0 then
                  (if b & 0x01 == 0 then 0xFD504431 else 0xB46C3916)
                else
                  (if b & 0x01 == 0 then 0x6F28BE7F else 0x2614C358)
        else
          if b & 0x10 == 0 then
            if b & 0x08 == 0 then
              if b & 0x04 == 0 then
                if b & 0x02 == 0 then
                  (if b & 0x01 == 0 then 0x1700AEAB else 0x5E3CD38C)
                else
                  (if b & 0x01 == 0 then 0x857854E5 else 0xCC4429C2)
              else
                if b & 0x02 == 0 then
                  (if b & 0x01 == 0 then 0x361D2CC6 else 0x7F2151E1)
                else
                  (if b & 0x01 == 0 then 0xA465D688 else 0xED59ABAF)
            else
              if b & 0x04 == 0 then
                if b & 0x02 == 0 then
                  (if b & 0x01 == 0 then 0x553BAA71 else 0x1C07D756)
                else
                  (if b & 0x01 == 0 then 0xC743503F else 0x8E7F2D18)
              else
                if b & 0x02 == 0 then
                  (if b & 0x01 == 0 then 0x7426281C else 0x3D1A553B)
                else
                  (if b & 0x01 == 0 then 0xE65ED252 else 0xAF62AF75)
          else
            if b & 0x08 == 0 then
              if b & 0x04 == 0 then
                if b & 0x02 == 0 then
                  (if b & 0x01 == 0 then 0x9376A71F else 0xDA4ADA38)
                else
                  (if b & 0x01 == 0 then 0x010E5D51 else 0x48322076)
              else
                if b & 0x02 == 0 then
                  (if b & 0x01 == 0 then 0xB26B2572 else 0xFB575855)
                else
                  (if b & 0x01 == 0 then 0x2013DF3C else 0x692FA21B)
            else
              if b & 0x04 == 0 then
                if b & 0x02 == 0 then
                  (if b & 0x01 == 0 then 0xD14DA3C5 else 0x9871DEE2)
                else
                  (if b & 0x01 == 0 then 0x4335598B else 0x0A0924AC)
              else
                if b & 0x02 == 0 then
                  (if b & 0x01 == 0 then 0xF05021A8 else 0xB96C5C8F)
                else
                  (if b & 0x01 == 0 then 0x6228DBE6 else 0x2B14A6C1)
    else
      if b & 0x40 == 0 then
        if b & 0x20 == 0 then
          if b & 0x10 == 0 then
            if b & 0x08 == 0 then
              if b & 0x04 == 0 then
                if b & 0x02 == 0 then
                  (if b & 0x01 == 0 then 0x34019664 else 0x7D3DEB43)
                else
                  (if b & 0x01 == 0 then 0xA6796C2A else 0xEF45110D)
              else
                if b & 0x02 == 0 then
                  (if b & 0x01 == 0 then 0x151C1409 else 0x5C20692E)
                else
                  (if b & 0x01 == 0 then 0x8764EE47 else 0xCE589360)
            else
              if b & 0x04 == 0 then
                if b & 0x02 == 0 then
                  (if b & 0x01 == 0 then 0x763A92BE else 0x3F06EF99)
                else
                  (if b & 0x01 == 0 then 0xE44268F0 else 0xAD7E15D7)
              else
                if b & 0x02 == 0 then
                  (if b & 0x01 == 0 then 0x572710D3 else 0x1E1B6DF4)
                else
                  (if b & 0x01 == 0 then 0xC55FEA9D else 0x8C6397BA)
          else
            if b & 0x08 == 0 then
              if b & 0x04 == 0 then
                if b & 0x02 == 0 then
                  (if b & 0x01 == 0 then 0xB0779FD0 else 0xF94BE2F7)
                else
                  (if b & 0x01 == 0 then 0x220F659E else 0x6B3318B9)
              else
                if b & 0x02 == 0 then
                  (if b & 0x01 == 0 then 0x916A1DBD else 0xD856609A)
                else
                  (if b & 0x01 == 0 then 0x0312E7F3 else 0x4A2E9AD4)
            else
              if b & 0x04 == 0 then
                if b & 0x02 == 0 then
                  (if b & 0x01 == 0 then 0xF24C9B0A else 0xBB70E62D)
                else
                  (if b & 0x01 == 0 then 0x60346144 else 0x29081C63)
              else
                if b & 0x02 == 0 then
                  (if b & 0x01 == 0 then 0xD3511967 else 0x9A6D6440)
                else
                  (if b & 0x01 == 0 then 0x4129E329 else 0x08159E0E)
        else
          if b & 0x10 == 0 then
            if b & 0x08 == 0 then
              if b & 0x04 == 0 then
                if b & 0x02 == 0 then
                  (if b & 0x01 == 0 then 0x3901F3FD else 0x703D8EDA)
                else
                  (if b & 0x01 == 0 then 0xAB7909B3 else 0xE2457494)
              else
                if b & 0x02 == 0 then
                  (if b & 0x01 == 0 then 0x181C7190 else 0x51200CB7)
                else
                  (if b & 0x01 == 0 then 0x8A648BDE else 0xC358F6F9)
            else
              if b & 0x04 == 0 then
                if b & 0x02 == 0 then
                  (if b & 0x01 == 0 then 0x7B3AF727 else 0x32068A00)
                else
                  (if b & 0x01 == 0 then 0xE9420D69 else 0xA07E704E)
              else
                if b & 0x02 == 0 then
                  (if b & 0x01 == 0 then 0x5A27754A else 0x131B086D)
                else
                  (if b & 0x01 == 0 then 0xC85F8F04 else 0x8163F223)
          else
            if b & 0x08 == 0 then
              if b & 0x04 == 0 then
                if b & 0x02 == 0 then
                  (if b & 0x01 == 0 then 0xBD77FA49 else 0xF44B876E)
                else
                  (if b & 0x01 == 0 then 0x2F0F0007 else 0x66337D20)
              else
                if b & 0x02 == 0 then
                  (if b & 0x01 == 0 then 0x9C6A7824 else 0xD5560503)
                else
                  (if b & 0x01 == 0 then 0x0E12826A else 0x472EFF4D)
            else
              if b & 0x04 == 0 then
                if b & 0x02 == 0 then
                  (if b & 0x01 == 0 then 0xFF4CFE93 else 0xB67083B4)
                else
                  (if b & 0x01 == 0 then 0x6D3404DD else 0x240879FA)
              else
                if b & 0x02 == 0 then
                  (if b & 0x01 == 0 then 0xDE517CFE else 0x976D01D9)
                else
                  (if b & 0x01 == 0 then 0x4C2986B0 else 0x0515FB97)
      else
        if b & 0x20 == 0 then
          if b & 0x10 == 0 then
            if b & 0x08 == 0 then
              if b & 0x04 == 0 then
                if b & 0x02 == 0 then
                  (if b & 0x01 == 0 then 0x2E015D56 else 0x673D2071)
                else
                  (if b & 0x01 == 0 then 0xBC79A718 else 0xF545DA3F)
              else
                if b & 0x02 == 0 then
                  (if b & 0x01 == 0 then 0x0F1CDF3B else 0x4620A21C)
                else
                  (if b & 0x01 == 0 then 0x9D642575 else 0xD4585852)
            else
              if b & 0x04 == 0 then
                if b & 0x02 == 0 then
                  (if b & 0x01 == 0 then 0x6C3A598C else 0x250624AB)
                else
                  (if b & 0x01 == 0 then 0xFE42A3C2 else 0xB77EDEE5)
              else
                if b & 0x02 == 0 then
                  (if b & 0x01 == 0 then 0x4D27DBE1 else 0x041BA6C6)
                else
                  (if b & 0x01 == 0 then 0xDF5F21AF else 0x96635C88)
          else
            if b & 0x08 == 0 then
              if b & 0x04 == 0 then
                if b & 0x02 == 0 then
                  (if b & 0x01 == 0 then 0xAA7754E2 else 0xE34B29C5)
                else
                  (if b & 0x01 == 0 then 0x380FAEAC else 0x7133D38B)
              else
                if b & 0x02 == 0 then
                  (if b & 0x01 == 0 then 0x8B6AD68F else 0xC256ABA8)
                else
                  (if b & 0x01 == 0 then 0x19122CC1 else 0x502E51E6)
            else
              if b & 0x04 == 0 then
                if b & 0x02 == 0 then
                  (if b & 0x01 == 0 then 0xE84C5038 else 0xA1702D1F)
                else
                  (if b & 0x01 == 0 then 0x7A34AA76 else 0x3308D751)
              else
                if b & 0x02 == 0 then
                  (if b & 0x01 == 0 then 0xC951D255 else 0x806DAF72)
                else
                  (if b & 0x01 == 0 then 0x5B29281B else 0x1215553C)
        else
          if b & 0x10 == 0 then
            if b & 0x08 == 0 then
              if b & 0x04 == 0 then
                if b & 0x02 == 0 then
                  (if b & 0x01 == 0 then 0x230138CF else 0x6A3D45E8)
                else
                  (if b & 0x01 == 0 then 0xB179C281 else 0xF845BFA6)
              else
                if b & 0x02 == 0 then
                  (if b & 0x01 == 0 then 0x021CBAA2 else 0x4B20C785)
                else
                  (if b & 0x01 == 0 then 0x906440EC else 0xD9583DCB)
            else
              if b & 0x04 == 0 then
                if b & 0x02 == 0 then
                  (if b & 0x01 == 0 then 0x613A3C15 else 0x28064132)
                else
                  (if b & 0x01 == 0 then 0xF342C65B else 0xBA7EBB7C)
              else
                if b & 0x02 == 0 then
                  (if b & 0x01 == 0 then 0x4027BE78 else 0x091BC35F)
                else
                  (if b & 0x01 == 0 then 0xD25F4436 else 0x9B633911)
          else
            if b & 0x08 == 0 then
              if b & 0x04 == 0 then
                if b & 0x02 == 0 then
                  (if b & 0x01 == 0 then 0xA777317B else 0xEE4B4C5C)
                else
                  (if b & 0x01 == 0 then 0x350FCB35 else 0x7C33B612)
              else
                if b & 0x02 == 0 then
                  (if b & 0x01 == 0 then 0x866AB316 else 0xCF56CE31)
                else
                  (if b & 0x01 == 0 then 0x14124958 else 0x5D2E347F)
            else
              if b & 0x04 == 0 then
                if b & 0x02 == 0 then
                  (if b & 0x01 == 0 then 0xE54C35A1 else 0xAC704886)
                else
                  (if b & 0x01 == 0 then 0x7734CFEF else 0x3E08B2C8)
              else
                if b & 0x02 == 0 then
                  (if b & 0x01 == 0 then 0xC451B7CC else 0x8D6DCAEB)
                else
                  (if b & 0x01 == 0 then 0x56294D82 else 0x1F1530A5)
  }

  /** Two landmarks of the bytewise table: entry 0 is 0, entry 128 is the reflected polynomial. */
  lemma O32Landmarks()
    ensures O32(0) == 0
    ensures O32(128) == ReflectedPolynomial
  {
  }

  // ---------------------------------------------------------------------
  // Sixteen entries at a time (b >> 4 is the row of b)
  // ---------------------------------------------------------------------

  lemma O32IsBitwiseOnRow0(b: bv8)
    requires b >> 4 == 0
    ensures O32(b) == ShiftBits(b as bv32, 8)
  {
    if b == 0x00 { assert ShiftBits(0x00, 8) == 0x00000000; }
    else if b == 0x01 { assert ShiftBits(0x01, 8) == 0xF26B8303; }
    else if b == 0x02 { assert ShiftBits(0x02, 8) == 0xE13B70F7; }
    else if b == 0x03 { assert ShiftBits(0x03, 8) == 0x1350F3F4; }
    else if b == 0x04 { assert ShiftBits(0x04, 8) == 0xC79A971F; }
    else if b == 0x05 { assert ShiftBits(0x05, 8) == 0x35F1141C; }
    else if b == 0x06 { assert ShiftBits(0x06, 8) == 0x26A1E7E8; }
    else if b == 0x07 { assert ShiftBits(0x07, 8) == 0xD4CA64EB; }
    else if b == 0x08 { assert ShiftBits(0x08, 8) == 0x8AD958CF; }
    else if b == 0x09 { assert ShiftBits(0x09, 8) == 0x78B2DBCC; }
    else if b == 0x0A { assert ShiftBits(0x0A, 8) == 0x6BE22838; }
    else if b == 0x0B { assert ShiftBits(0x0B, 8) == 0x9989AB3B; }
    else if b == 0x0C { assert ShiftBits(0x0C, 8) == 0x4D43CFD0; }
    else if b == 0x0D { assert ShiftBits(0x0D, 8) == 0xBF284CD3; }
    else if b == 0x0E { assert ShiftBits(0x0E, 8) == 0xAC78BF27; }
    else if b == 0x0F { assert ShiftBits(0x0F, 8) == 0x5E133C24; }
  }

  lemma O32IsBitwiseOnRow1(b: bv8)
    requires b >> 4 == 1
    ensures O32(b) == ShiftBits(b as bv32, 8)
  {
    if b == 0x10 { assert ShiftBits(0x10, 8) == 0x105EC76F; }
    else if b == 0x11 { assert ShiftBits(0x11, 8) == 0xE235446C; }
    else if b == 0x12 { assert ShiftBits(0x12, 8) == 0xF165B798; }
    else if b == 0x13 { assert ShiftBits(0x13, 8) == 0x030E349B; }
    else if b == 0x14 { assert ShiftBits(0x14, 8) == 0xD7C45070; }
    else if b == 0x15 { assert ShiftBits(0x15, 8) == 0x25AFD373; }
    else if b == 0x16 { assert ShiftBits(0x16, 8) == 0x36FF2087; }
    else if b == 0x17 { assert ShiftBits(0x17, 8) == 0xC494A384; }
    else if b == 0x18 { assert ShiftBits(0x18, 8) == 0x9A879FA0; }
    else if b == 0x19 { assert ShiftBits(0x19, 8) == 0x68EC1CA3; }
    else if b == 0x1A { assert ShiftBits(0x1A, 8) == 0x7BBCEF57; }
    else if b == 0x1B { assert ShiftBits(0x1B, 8) == 0x89D76C54; }
    else if b == 0x1C { assert ShiftBits(0x1C, 8) == 0x5D1D08BF; }
    else if b == 0x1D { assert ShiftBits(0x1D, 8) == 0xAF768BBC; }
    else if b == 0x1E { assert ShiftBits(0x1E, 8) == 0xBC267848; }
    else if b == 0x1F { assert ShiftBits(0x1F, 8) == 0x4E4DFB4B; }
  }

  lemma O32IsBitwiseOnRow2(b: bv8)
    requires b >> 4 == 2
    ensures O32(b) == ShiftBits(b as bv32, 8)
  {
    if b == 0x20 { assert ShiftBits(0x20, 8) == 0x20BD8EDE; }
    else if b == 0x21 { assert ShiftBits(0x21, 8) == 0xD2D60DDD; }
    else if b == 0x22 { assert ShiftBits(0x22, 8) == 0xC186FE29; }
    else if b == 0x23 { assert ShiftBits(0x23, 8) == 0x33ED7D2A; }
    else if b == 0x24 { assert ShiftBits(0x24, 8) == 0xE72719C1; }
    else if b == 0x25 { assert ShiftBits(0x25, 8) == 0x154C9AC2; }
    else if b == 0x26 { assert ShiftBits(0x26, 8) == 0x061C6936; }
    else if b == 0x27 { assert ShiftBits(0x27, 8) == 0xF477EA35; }
    else if b == 0x28 { assert ShiftBits(0x28, 8) == 0xAA64D611; }
    else if b == 0x29 { assert ShiftBits(0x29, 8) == 0x580F5512; }
    else if b == 0x2A { assert ShiftBits(0x2A, 8) == 0x4B5FA6E6; }
    else if b == 0x2B { assert ShiftBits(0x2B, 8) == 0xB93425E5; }
    else if b == 0x2C { assert ShiftBits(0x2C, 8) == 0x6DFE410E; }
    else if b == 0x2D { assert ShiftBits(0x2D, 8) == 0x9F95C20D; }
    else if b == 0x2E { assert ShiftBits(0x2E, 8) == 0x8CC531F9; }
    else if b == 0x2F { assert ShiftBits(0x2F, 8) == 0x7EAEB2FA; }
  }

  lemma O32IsBitwiseOnRow3(b: bv8)
    requires b >> 4 == 3
    ensures O32(b) == ShiftBits(b as bv32, 8)
  {
    if b == 0x30 { assert ShiftBits(0x30, 8) == 0x30E349B1; }
    else if b == 0x31 { assert ShiftBits(0x31, 8) == 0xC288CAB2; }
    else if b == 0x32 { assert ShiftBits(0x32, 8) == 0xD1D83946; }
    else if b == 0x33 { assert ShiftBits(0x33, 8) == 0x23B3BA45; }
    else if b == 0x34 { assert ShiftBits(0x34, 8) == 0xF779DEAE; }
    else if b == 0x35 { assert ShiftBits(0x35, 8) == 0x05125DAD; }
    else if b == 0x36 { assert ShiftBits(0x36, 8) == 0x1642AE59; }
    else if b == 0x37 { assert ShiftBits(0x37, 8) == 0xE4292D5A; }
    else if b == 0x38 { assert ShiftBits(0x38, 8) == 0xBA3A117E; }
    else if b == 0x39 { assert ShiftBits(0x39, 8) == 0x4851927D; }
    else if b == 0x3A { assert ShiftBits(0x3A, 8) == 0x5B016189; }
    else if b == 0x3B { assert ShiftBits(0x3B, 8) == 0xA96AE28A; }
    else if b == 0x3C { assert ShiftBits(0x3C, 8) == 0x7DA08661; }
    else if b == 0x3D { assert ShiftBits(0x3D, 8) == 0x8FCB0562; }
    else if b == 0x3E { assert ShiftBits(0x3E, 8) == 0x9C9BF696; }
    else if b == 0x3F { assert ShiftBits(0x3F, 8) == 0x6EF07595; }
  }

  lemma O32IsBitwiseOnRow4(b: bv8)
    requires b >> 4 == 4
    ensures O32(b) == ShiftBits(b as bv32, 8)
  {
    if b == 0x40 { assert ShiftBits(0x40, 8) == 0x417B1DBC; }
    else if b == 0x41 { assert ShiftBits(0x41, 8) == 0xB3109EBF; }
    else if b == 0x42 { assert ShiftBits(0x42, 8) == 0xA0406D4B; }
    else if b == 0x43 { assert ShiftBits(0x43, 8) == 0x522BEE48; }
    else if b == 0x44 { assert ShiftBits(0x44, 8) == 0x86E18AA3; }
    else if b == 0x45 { assert ShiftBits(0x45, 8) == 0x748A09A0; }
    else if b == 0x46 { assert ShiftBits(0x46, 8) == 0x67DAFA54; }
    else if b == 0x47 { assert ShiftBits(0x47, 8) == 0x95B17957; }
    else if b == 0x48 { assert ShiftBits(0x48, 8) == 0xCBA24573; }
    else if b == 0x49 { assert ShiftBits(0x49, 8) == 0x39C9C670; }
    else if b == 0x4A { assert ShiftBits(0x4A, 8) == 0x2A993584; }
    else if b == 0x4B { assert ShiftBits(0x4B, 8) == 0xD8F2B687; }
    else if b == 0x4C { assert ShiftBits(0x4C, 8) == 0x0C38D26C; }
    else if b == 0x4D { assert ShiftBits(0x4D, 8) == 0xFE53516F; }
    else if b == 0x4E { assert ShiftBits(0x4E, 8) == 0xED03A29B; }
    else if b == 0x4F { assert ShiftBits(0x4F, 8) == 0x1F682198; }
  }

  lemma O32IsBitwiseOnRow5(b: bv8)
    requires b >> 4 == 5
    ensures O32(b) == ShiftBits(b as bv32, 8)
  {
    if b == 0x50 { assert ShiftBits(0x50, 8) == 0x5125DAD3; }
    else if b == 0x51 { assert ShiftBits(0x51, 8) == 0xA34E59D0; }
    else if b == 0x52 { assert ShiftBits(0x52, 8) == 0xB01EAA24; }
    else if b == 0x53 { assert ShiftBits(0x53, 8) == 0x42752927; }
    else if b == 0x54 { assert ShiftBits(0x54, 8) == 0x96BF4DCC; }
    else if b == 0x55 { assert ShiftBits(0x55, 8) == 0x64D4CECF; }
    else if b == 0x56 { assert ShiftBits(0x56, 8) == 0x77843D3B; }
    else if b == 0x57 { assert ShiftBits(0x57, 8) == 0x85EFBE38; }
    else if b == 0x58 { assert ShiftBits(0x58, 8) == 0xDBFC821C; }
    else if b == 0x59 { assert ShiftBits(0x59, 8) == 0x2997011F; }
    else if b == 0x5A { assert ShiftBits(0x5A, 8) == 0x3AC7F2EB; }
    else if b == 0x5B { assert ShiftBits(0x5B, 8) == 0xC8AC71E8; }
    else if b == 0x5C { assert ShiftBits(0x5C, 8) == 0x1C661503; }
    else if b == 0x5D { assert ShiftBits(0x5D, 8) == 0xEE0D9600; }
    else if b == 0x5E { assert ShiftBits(0x5E, 8) == 0xFD5D65F4; }
    else if b == 0x5F { assert ShiftBits(0x5F, 8) == 0x0F36E6F7; }
  }

  lemma O32IsBitwiseOnRow6(b: bv8)
    requires b >> 4 == 6
    ensures O32(b) == ShiftBits(b as bv32, 8)
  {
    if b == 0x60 { assert ShiftBits(0x60, 8) == 0x61C69362; }
    else if b == 0x61 { assert ShiftBits(0x61, 8) == 0x93AD1061; }
    else if b == 0x62 { assert ShiftBits(0x62, 8) == 0x80FDE395; }
    else if b == 0x63 { assert ShiftBits(0x63, 8) == 0x72966096; }
    else if b == 0x64 { assert ShiftBits(0x64, 8) == 0xA65C047D; }
    else if b == 0x65 { assert ShiftBits(0x65, 8) == 0x5437877E; }
    else if b == 0x66 { assert ShiftBits(0x66, 8) == 0x4767748A; }
    else if b == 0x67 { assert ShiftBits(0x67, 8) == 0xB50CF789; }
    else if b == 0x68 { assert ShiftBits(0x68, 8) == 0xEB1FCBAD; }
    else if b == 0x69 { assert ShiftBits(0x69, 8) == 0x197448AE; }
    else if b == 0x6A { assert ShiftBits(0x6A, 8) == 0x0A24BB5A; }
    else if b == 0x6B { assert ShiftBits(0x6B, 8) == 0xF84F3859; }
    else if b == 0x6C { assert ShiftBits(0x6C, 8) == 0x2C855CB2; }
    else if b == 0x6D { assert ShiftBits(0x6D, 8) == 0xDEEEDFB1; }
    else if b == 0x6E { assert ShiftBits(0x6E, 8) == 0xCDBE2C45; }
    else if b == 0x6F { assert ShiftBits(0x6F, 8) == 0x3FD5AF46; }
  }

  lemma O32IsBitwiseOnRow7(b: bv8)
    requires b >> 4 == 7
    ensures O32(b) == ShiftBits(b as bv32, 8)
  {
    if b == 0x70 { assert ShiftBits(0x70, 8) == 0x7198540D; }
    else if b == 0x71 { assert ShiftBits(0x71, 8) == 0x83F3D70E; }
    else if b == 0x72 { assert ShiftBits(0x72, 8) == 0x90A324FA; }
    else if b == 0x73 { assert ShiftBits(0x73, 8) == 0x62C8A7F9; }
    else if b == 0x74 { assert ShiftBits(0x74, 8) == 0xB602C312; }
    else if b == 0x75 { assert ShiftBits(0x75, 8) == 0x44694011; }
    else if b == 0x76 { assert ShiftBits(0x76, 8) == 0x5739B3E5; }
    else if b == 0x77 { assert ShiftBits(0x77, 8) == 0xA55230E6; }
    else if b == 0x78 { assert ShiftBits(0x78, 8) == 0xFB410CC2; }
    else if b == 0x79 { assert ShiftBits(0x79, 8) == 0x092A8FC1; }
    else if b == 0x7A { assert ShiftBits(0x7A, 8) == 0x1A7A7C35; }
    else if b == 0x7B { assert ShiftBits(0x7B, 8) == 0xE811FF36; }
    else if b == 0x7C { assert ShiftBits(0x7C, 8) == 0x3CDB9BDD; }
    else if b == 0x7D { assert ShiftBits(0x7D, 8) == 0xCEB018DE; }
    else if b == 0x7E { assert ShiftBits(0x7E, 8) == 0xDDE0EB2A; }
    else if b == 0x7F { assert ShiftBits(0x7F, 8) == 0x2F8B6829; }
  }

  lemma O32IsBitwiseOnRow8(b: bv8)
    requires b >> 4 == 8
    ensures O32(b) == ShiftBits(b as bv32, 8)
  {
    if b == 0x80 { assert ShiftBits(0x80, 8) == 0x82F63B78; }
    else if b == 0x81 { assert ShiftBits(0x81, 8) == 0x709DB87B; }
    else if b == 0x82 { assert ShiftBits(0x82, 8) == 0x63CD4B8F; }
    else if b == 0x83 { assert ShiftBits(0x83, 8) == 0x91A6C88C; }
    else if b == 0x84 { assert ShiftBits(0x84, 8) == 0x456CAC67; }
    else if b == 0x85 { assert ShiftBits(0x85, 8) == 0xB7072F64; }
    else if b == 0x86 { assert ShiftBits(0x86, 8) == 0xA457DC90; }
    else if b == 0x87 { assert ShiftBits(0x87, 8) == 0x563C5F93; }
    else if b == 0x88 { assert ShiftBits(0x88, 8) == 0x082F63B7; }
    else if b == 0x89 { assert ShiftBits(0x89, 8) == 0xFA44E0B4; }
    else if b == 0x8A { assert ShiftBits(0x8A, 8) == 0xE9141340; }
    else if b == 0x8B { assert ShiftBits(0x8B, 8) == 0x1B7F9043; }
    else if b == 0x8C { assert ShiftBits(0x8C, 8) == 0xCFB5F4A8; }
    else if b == 0x8D { assert ShiftBits(0x8D, 8) == 0x3DDE77AB; }
    else if b == 0x8E { assert ShiftBits(0x8E, 8) == 0x2E8E845F; }
    else if b == 0x8F { assert ShiftBits(0x8F, 8) == 0xDCE5075C; }
  }

  lemma O32IsBitwiseOnRow9(b: bv8)
    requires b >> 4 == 9
    ensures O32(b) == ShiftBits(b as bv32, 8)
  {
    if b == 0x90 { assert ShiftBits(0x90, 8) == 0x92A8FC17; }
    else if b == 0x91 { assert ShiftBits(0x91, 8) == 0x60C37F14; }
    else if b == 0x92 { assert ShiftBits(0x92, 8) == 0x73938CE0; }
    else if b == 0x93 { assert ShiftBits(0x93, 8) == 0x81F80FE3; }
    else if b == 0x94 { assert ShiftBits(0x94, 8) == 0x55326B08; }
    else if b == 0x95 { assert ShiftBits(0x95, 8) == 0xA759E80B; }
    else if b == 0x96 { assert ShiftBits(0x96, 8) == 0xB4091BFF; }
    else if b == 0x97 { assert ShiftBits(0x97, 8) == 0x466298FC; }
    else if b == 0x98 { assert ShiftBits(0x98, 8) == 0x1871A4D8; }
    else if b == 0x99 { assert ShiftBits(0x99, 8) == 0xEA1A27DB; }
    else if b == 0x9A { assert ShiftBits(0x9A, 8) == 0xF94AD42F; }
    else if b == 0x9B { assert ShiftBits(0x9B, 8) == 0x0B21572C; }
    else if b == 0x9C { assert ShiftBits(0x9C, 8) == 0xDFEB33C7; }
    else if b == 0x9D { assert ShiftBits(0x9D, 8) == 0x2D80B0C4; }
    else if b == 0x9E { assert ShiftBits(0x9E, 8) == 0x3ED04330; }
    else if b == 0x9F { assert ShiftBits(0x9F, 8) == 0xCCBBC033; }
  }

  lemma O32IsBitwiseOnRow10(b: bv8)
    requires b >> 4 == 10
    ensures O32(b) == ShiftBits(b as bv32, 8)
  {
    if b == 0xA0 { assert ShiftBits(0xA0, 8) == 0xA24BB5A6; }
    else if b == 0xA1 { assert ShiftBits(0xA1, 8) == 0x502036A5; }
    else if b == 0xA2 { assert ShiftBits(0xA2, 8) == 0x4370C551; }
    else if b == 0xA3 { assert ShiftBits(0xA3, 8) == 0xB11B4652; }
    else if b == 0xA4 { assert ShiftBits(0xA4, 8) == 0x65D122B9; }
    else if b == 0xA5 { assert ShiftBits(0xA5, 8) == 0x97BAA1BA; }
    else if b == 0xA6 { assert ShiftBits(0xA6, 8) == 0x84EA524E; }
    else if b == 0xA7 { assert ShiftBits(0xA7, 8) == 0x7681D14D; }
    else if b == 0xA8 { assert ShiftBits(0xA8, 8) == 0x2892ED69; }
    else if b == 0xA9 { assert ShiftBits(0xA9, 8) == 0xDAF96E6A; }
    else if b == 0xAA { assert ShiftBits(0xAA, 8) == 0xC9A99D9E; }
    else if b == 0xAB { assert ShiftBits(0xAB, 8) == 0x3BC21E9D; }
    else if b == 0xAC { assert ShiftBits(0xAC, 8) == 0xEF087A76; }
    else if b == 0xAD { assert ShiftBits(0xAD, 8) == 0x1D63F975; }
    else if b == 0xAE { assert ShiftBits(0xAE, 8) == 0x0E330A81; }
    else if b == 0xAF { assert ShiftBits(0xAF, 8) == 0xFC588982; }
  }

  lemma O32IsBitwiseOnRow11(b: bv8)
    requires b >> 4 == 11
    ensures O32(b) == ShiftBits(b as bv32, 8)
  {
    if b == 0xB0 { assert ShiftBits(0xB0, 8) == 0xB21572C9; }
    else if b == 0xB1 { assert ShiftBits(0xB1, 8) == 0x407EF1CA; }
    else if b == 0xB2 { assert ShiftBits(0xB2, 8) == 0x532E023E; }
    else if b == 0xB3 { assert ShiftBits(0xB3, 8) == 0xA145813D; }
    else if b == 0xB4 { assert ShiftBits(0xB4, 8) == 0x758FE5D6; }
    else if b == 0xB5 { assert ShiftBits(0xB5, 8) == 0x87E466D5; }
    else if b == 0xB6 { assert ShiftBits(0xB6, 8) == 0x94B49521; }
    else if b == 0xB7 { assert ShiftBits(0xB7, 8) == 0x66DF1622; }
    else if b == 0xB8 { assert ShiftBits(0xB8, 8) == 0x38CC2A06; }
    else if b == 0xB9 { assert ShiftBits(0xB9, 8) == 0xCAA7A905; }
    else if b == 0xBA { assert ShiftBits(0xBA, 8) == 0xD9F75AF1; }
    else if b == 0xBB { assert ShiftBits(0xBB, 8) == 0x2B9CD9F2; }
    else if b == 0xBC { assert ShiftBits(0xBC, 8) == 0xFF56BD19; }
    else if b == 0xBD { assert ShiftBits(0xBD, 8) == 0x0D3D3E1A; }
    else if b == 0xBE { assert ShiftBits(0xBE, 8) == 0x1E6DCDEE; }
    else if b == 0xBF { assert ShiftBits(0xBF, 8) == 0xEC064EED; }
  }

  lemma O32IsBitwiseOnRow12(b: bv8)
    requires b >> 4 == 12
    ensures O32(b) == ShiftBits(b as bv32, 8)
  {
    if b == 0xC0 { assert ShiftBits(0xC0, 8) == 0xC38D26C4; }
    else if b == 0xC1 { assert ShiftBits(0xC1, 8) == 0x31E6A5C7; }
    else if b == 0xC2 { assert ShiftBits(0xC2, 8) == 0x22B65633; }
    else if b == 0xC3 { assert ShiftBits(0xC3, 8) == 0xD0DDD530; }
    else if b == 0xC4 { assert ShiftBits(0xC4, 8) == 0x0417B1DB; }
    else if b == 0xC5 { assert ShiftBits(0xC5, 8) == 0xF67C32D8; }
    else if b == 0xC6 { assert ShiftBits(0xC6, 8) == 0xE52CC12C; }
    else if b == 0xC7 { assert ShiftBits(0xC7, 8) == 0x1747422F; }
    else if b == 0xC8 { assert ShiftBits(0xC8, 8) == 0x49547E0B; }
    else if b == 0xC9 { assert ShiftBits(0xC9, 8) == 0xBB3FFD08; }
    else if b == 0xCA { assert ShiftBits(0xCA, 8) == 0xA86F0EFC; }
    else if b == 0xCB { assert ShiftBits(0xCB, 8) == 0x5A048DFF; }
    else if b == 0xCC { assert ShiftBits(0xCC, 8) == 0x8ECEE914; }
    else if b == 0xCD { assert ShiftBits(0xCD, 8) == 0x7CA56A17; }
    else if b == 0xCE { assert ShiftBits(0xCE, 8) == 0x6FF599E3; }
    else if b == 0xCF { assert ShiftBits(0xCF, 8) == 0x9D9E1AE0; }
  }

  lemma O32IsBitwiseOnRow13(b: bv8)
    requires b >> 4 == 13
    ensures O32(b) == ShiftBits(b as bv32, 8)
  {
    if b == 0xD0 { assert ShiftBits(0xD0, 8) == 0xD3D3E1AB; }
    else if b == 0xD1 { assert ShiftBits(0xD1, 8) == 0x21B862A8; }
    else if b == 0xD2 { assert ShiftBits(0xD2, 8) == 0x32E8915C; }
    else if b == 0xD3 { assert ShiftBits(0xD3, 8) == 0xC083125F; }
    else if b == 0xD4 { assert ShiftBits(0xD4, 8) == 0x144976B4; }
    else if b == 0xD5 { assert ShiftBits(0xD5, 8) == 0xE622F5B7; }
    else if b == 0xD6 { assert ShiftBits(0xD6, 8) == 0xF5720643; }
    else if b == 0xD7 { assert ShiftBits(0xD7, 8) == 0x07198540; }
    else if b == 0xD8 { assert ShiftBits(0xD8, 8) == 0x590AB964; }
    else if b == 0xD9 { assert ShiftBits(0xD9, 8) == 0xAB613A67; }
    else if b == 0xDA { assert ShiftBits(0xDA, 8) == 0xB831C993; }
    else if b == 0xDB { assert ShiftBits(0xDB, 8) == 0x4A5A4A90; }
    else if b == 0xDC { assert ShiftBits(0xDC, 8) == 0x9E902E7B; }
    else if b == 0xDD { assert ShiftBits(0xDD, 8) == 0x6CFBAD78; }
    else if b == 0xDE { assert ShiftBits(0xDE, 8) == 0x7FAB5E8C; }
    else if b == 0xDF { assert ShiftBits(0xDF, 8) == 0x8DC0DD8F; }
  }

  lemma O32IsBitwiseOnRow14(b: bv8)
    requires b >> 4 == 14
    ensures O32(b) == ShiftBits(b as bv32, 8)
  {
    if b == 0xE0 { assert ShiftBits(0xE0, 8) == 0xE330A81A; }
    else if b == 0xE1 { assert ShiftBits(0xE1, 8) == 0x115B2B19; }
    else if b == 0xE2 { assert ShiftBits(0xE2, 8) == 0x020BD8ED; }
    else if b == 0xE3 { assert ShiftBits(0xE3, 8) == 0xF0605BEE; }
    else if b == 0xE4 { assert ShiftBits(0xE4, 8) == 0x24AA3F05; }
    else if b == 0xE5 { assert ShiftBits(0xE5, 8) == 0xD6C1BC06; }
    else if b == 0xE6 { assert ShiftBits(0xE6, 8) == 0xC5914FF2; }
    else if b == 0xE7 { assert ShiftBits(0xE7, 8) == 0x37FACCF1; }
    else if b == 0xE8 { assert ShiftBits(0xE8, 8) == 0x69E9F0D5; }
    else if b == 0xE9 { assert ShiftBits(0xE9, 8) == 0x9B8273D6; }
    else if b == 0xEA { assert ShiftBits(0xEA, 8) == 0x88D28022; }
    else if b == 0xEB { assert ShiftBits(0xEB, 8) == 0x7AB90321; }
    else if b == 0xEC { assert ShiftBits(0xEC, 8) == 0xAE7367CA; }
    else if b == 0xED { assert ShiftBits(0xED, 8) == 0x5C18E4C9; }
    else if b == 0xEE { assert ShiftBits(0xEE, 8) == 0x4F48173D; }
    else if b == 0xEF { assert ShiftBits(0xEF, 8) == 0xBD23943E; }
  }

  lemma O32IsBitwiseOnRow15(b: bv8)
    requires b >> 4 == 15
    ensures O32(b) == ShiftBits(b as bv32, 8)
  {
    if b == 0xF0 { assert ShiftBits(0xF0, 8) == 0xF36E6F75; }
    else if b == 0xF1 { assert ShiftBits(0xF1, 8) == 0x0105EC76; }
    else if b == 0xF2 { assert ShiftBits(0xF2, 8) == 0x12551F82; }
    else if b == 0xF3 { assert ShiftBits(0xF3, 8) == 0xE03E9C81; }
    else if b == 0xF4 { assert ShiftBits(0xF4, 8) == 0x34F4F86A; }
    else if b == 0xF5 { assert ShiftBits(0xF5, 8) == 0xC69F7B69; }
    else if b == 0xF6 { assert ShiftBits(0xF6, 8) == 0xD5CF889D; }
    else if b == 0xF7 { assert ShiftBits(0xF7, 8) == 0x27A40B9E; }
    else if b == 0xF8 { assert ShiftBits(0xF8, 8) == 0x79B737BA; }
    else if b == 0xF9 { assert ShiftBits(0xF9, 8) == 0x8BDCB4B9; }
    else if b == 0xFA { assert ShiftBits(0xFA, 8) == 0x988C474D; }
    else if b == 0xFB { assert ShiftBits(0xFB, 8) == 0x6AE7C44E; }
    else if b == 0xFC { assert ShiftBits(0xFC, 8) == 0xBE2DA0A5; }
    else if b == 0xFD { assert ShiftBits(0xFD, 8) == 0x4C4623A6; }
    else if b == 0xFE { assert ShiftBits(0xFE, 8) == 0x5F16D052; }
    else if b == 0xFF { assert ShiftBits(0xFF, 8) == 0xAD7D5351; }
  }

  lemma O40AdvancesOnRow0(b: bv8)
    requires b >> 4 == 0
    ensures O40(b) == ShiftBits(O32(b), 8)
  {
    assert ShiftBits(0x00000000, 8) == 0x00000000;
    assert ShiftBits(0xF26B8303, 8) == 0x13A29877;
    assert ShiftBits(0xE13B70F7, 8) == 0x274530EE;
    assert ShiftBits(0x1350F3F4, 8) == 0x34E7A899;
    assert ShiftBits(0xC79A971F, 8) == 0x4E8A61DC;
    assert ShiftBits(0x35F1141C, 8) == 0x5D28F9AB;
    assert ShiftBits(0x26A1E7E8, 8) == 0x69CF5132;
    assert ShiftBits(0xD4CA64EB, 8) == 0x7A6DC945;
    assert ShiftBits(0x8AD958CF, 8) == 0x9D14C3B8;
    assert ShiftBits(0x78B2DBCC, 8) == 0x8EB65BCF;
    assert ShiftBits(0x6BE22838, 8) == 0xBA51F356;
    assert ShiftBits(0x9989AB3B, 8) == 0xA9F36B21;
    assert ShiftBits(0x4D43CFD0, 8) == 0xD39EA264;
    assert ShiftBits(0xBF284CD3, 8) == 0xC03C3A13;
    assert ShiftBits(0xAC78BF27, 8) == 0xF4DB928A;
    assert ShiftBits(0x5E133C24, 8) == 0xE7790AFD;
  }

  lemma O40AdvancesOnRow1(b: bv8)
    requires b >> 4 == 1
    ensures O40(b) == ShiftBits(O32(b), 8)
  {
    assert ShiftBits(0x105EC76F, 8) == 0x3FC5F181;
    assert ShiftBits(0xE235446C, 8) == 0x2C6769F6;
    assert ShiftBits(0xF165B798, 8) == 0x1880C16F;
    assert ShiftBits(0x030E349B, 8) == 0x0B225918;
    assert ShiftBits(0xD7C45070, 8) == 0x714F905D;
    assert ShiftBits(0x25AFD373, 8) == 0x62ED082A;
    assert ShiftBits(0x36FF2087, 8) == 0x560AA0B3;
    assert ShiftBits(0xC494A384, 8) == 0x45A838C4;
    assert ShiftBits(0x9A879FA0, 8) == 0xA2D13239;
    assert ShiftBits(0x68EC1CA3, 8) == 0xB173AA4E;
    assert ShiftBits(0x7BBCEF57, 8) == 0x859402D7;
    assert ShiftBits(0x89D76C54, 8) == 0x96369AA0;
    assert ShiftBits(0x5D1D08BF, 8) == 0xEC5B53E5;
    assert ShiftBits(0xAF768BBC, 8) == 0xFFF9CB92;
    assert ShiftBits(0xBC267848, 8) == 0xCB1E630B;
    assert ShiftBits(0x4E4DFB4B, 8) == 0xD8BCFB7C;
  }

  lemma O40AdvancesOnRow2(b: bv8)
    requires b >> 4 == 2
    ensures O40(b) == ShiftBits(O32(b), 8)
  {
    assert ShiftBits(0x20BD8EDE, 8) == 0x7F8BE302;
    assert ShiftBits(0xD2D60DDD, 8) == 0x6C297B75;
    assert ShiftBits(0xC186FE29, 8) == 0x58CED3EC;
    assert ShiftBits(0x33ED7D2A, 8) == 0x4B6C4B9B;
    assert ShiftBits(0xE72719C1, 8) == 0x310182DE;
    assert ShiftBits(0x154C9AC2, 8) == 0x22A31AA9;
    assert ShiftBits(0x061C6936, 8) == 0x1644B230;
    assert ShiftBits(0xF477EA35, 8) == 0x05E62A47;
    assert ShiftBits(0xAA64D611, 8) == 0xE29F20BA;
    assert ShiftBits(0x580F5512, 8) == 0xF13DB8CD;
    assert ShiftBits(0x4B5FA6E6, 8) == 0xC5DA1054;
    assert ShiftBits(0xB93425E5, 8) == 0xD6788823;
    assert ShiftBits(0x6DFE410E, 8) == 0xAC154166;
    assert ShiftBits(0x9F95C20D, 8) == 0xBFB7D911;
    assert ShiftBits(0x8CC531F9, 8) == 0x8B507188;
    assert ShiftBits(0x7EAEB2FA, 8) == 0x98F2E9FF;
  }

  lemma O40AdvancesOnRow3(b: bv8)
    requires b >> 4 == 3
    ensures O40(b) == ShiftBits(O32(b), 8)
  {
    assert ShiftBits(0x30E349B1, 8) == 0x404E1283;
    assert ShiftBits(0xC288CAB2, 8) == 0x53EC8AF4;
    assert ShiftBits(0xD1D83946, 8) == 0x670B226D;
    assert ShiftBits(0x23B3BA45, 8) == 0x74A9BA1A;
    assert ShiftBits(0xF779DEAE, 8) == 0x0EC4735F;
    assert ShiftBits(0x05125DAD, 8) == 0x1D66EB28;
    assert ShiftBits(0x1642AE59, 8) == 0x298143B1;
    assert ShiftBits(0xE4292D5A, 8) == 0x3A23DBC6;
    assert ShiftBits(0xBA3A117E, 8) == 0xDD5AD13B;
    assert ShiftBits(0x4851927D, 8) == 0xCEF8494C;
    assert ShiftBits(0x5B016189, 8) == 0xFA1FE1D5;
    assert ShiftBits(0xA96AE28A, 8) == 0xE9BD79A2;
    assert ShiftBits(0x7DA08661, 8) == 0x93D0B0E7;
    assert ShiftBits(0x8FCB0562, 8) == 0x80722890;
    assert ShiftBits(0x9C9BF696, 8) == 0xB4958009;
    assert ShiftBits(0x6EF07595, 8) == 0xA737187E;
  }

  lemma O40AdvancesOnRow4(b: bv8)
    requires b >> 4 == 4
    ensures O40(b) == ShiftBits(O32(b), 8)
  {
    assert ShiftBits(0x417B1DBC, 8) == 0xFF17C604;
    assert ShiftBits(0xB3109EBF, 8) == 0xECB55E73;
    assert ShiftBits(0xA0406D4B, 8) == 0xD852F6EA;
    assert ShiftBits(0x522BEE48, 8) == 0xCBF06E9D;
    assert ShiftBits(0x86E18AA3, 8) == 0xB19DA7D8;
    assert ShiftBits(0x748A09A0, 8) == 0xA23F3FAF;
    assert ShiftBits(0x67DAFA54, 8) == 0x96D89736;
    assert ShiftBits(0x95B17957, 8) == 0x857A0F41;
    assert ShiftBits(0xCBA24573, 8) == 0x620305BC;
    assert ShiftBits(0x39C9C670, 8) == 0x71A19DCB;
    assert ShiftBits(0x2A993584, 8) == 0x45463552;
    assert ShiftBits(0xD8F2B687, 8) == 0x56E4AD25;
    assert ShiftBits(0x0C38D26C, 8) == 0x2C896460;
    assert ShiftBits(0xFE53516F, 8) == 0x3F2BFC17;
    assert ShiftBits(0xED03A29B, 8) == 0x0BCC548E;
    assert ShiftBits(0x1F682198, 8) == 0x186ECCF9;
  }

  lemma O40AdvancesOnRow5(b: bv8)
    requires b >> 4 == 5
    ensures O40(b) == ShiftBits(O32(b), 8)
  {
    assert ShiftBits(0x5125DAD3, 8) == 0xC0D23785;
    assert ShiftBits(0xA34E59D0, 8) == 0xD370AFF2;
    assert ShiftBits(0xB01EAA24, 8) == 0xE797076B;
    assert ShiftBits(0x42752927, 8) == 0xF4359F1C;
    assert ShiftBits(0x96BF4DCC, 8) == 0x8E585659;
    assert ShiftBits(0x64D4CECF, 8) == 0x9DFACE2E;
    assert ShiftBits(0x77843D3B, 8) == 0xA91D66B7;
    assert ShiftBits(0x85EFBE38, 8) == 0xBABFFEC0;
    assert ShiftBits(0xDBFC821C, 8) == 0x5DC6F43D;
    assert ShiftBits(0x2997011F, 8) == 0x4E646C4A;
    assert ShiftBits(0x3AC7F2EB, 8) == 0x7A83C4D3;
    assert ShiftBits(0xC8AC71E8, 8) == 0x69215CA4;
    assert ShiftBits(0x1C661503, 8) == 0x134C95E1;
    assert ShiftBits(0xEE0D9600, 8) == 0x00EE0D96;
    assert ShiftBits(0xFD5D65F4, 8) == 0x3409A50F;
    assert ShiftBits(0x0F36E6F7, 8) == 0x27AB3D78;
  }

  lemma O40AdvancesOnRow6(b: bv8)
    requires b >> 4 == 6
    ensures O40(b) == ShiftBits(O32(b), 8)
  {
    assert ShiftBits(0x61C69362, 8) == 0x809C2506;
    assert ShiftBits(0x93AD1061, 8) == 0x933EBD71;
    assert ShiftBits(0x80FDE395, 8) == 0xA7D915E8;
    assert ShiftBits(0x72966096, 8) == 0xB47B8D9F;
    assert ShiftBits(0xA65C047D, 8) == 0xCE1644DA;
    assert ShiftBits(0x5437877E, 8) == 0xDDB4DCAD;
    assert ShiftBits(0x4767748A, 8) == 0xE9537434;
    assert ShiftBits(0xB50CF789, 8) == 0xFAF1EC43;
    assert ShiftBits(0xEB1FCBAD, 8) == 0x1D88E6BE;
    assert ShiftBits(0x197448AE, 8) == 0x0E2A7EC9;
    assert ShiftBits(0x0A24BB5A, 8) == 0x3ACDD650;
    assert ShiftBits(0xF84F3859, 8) == 0x296F4E27;
    assert ShiftBits(0x2C855CB2, 8) == 0x53028762;
    assert ShiftBits(0xDEEEDFB1, 8) == 0x40A01F15;
    assert ShiftBits(0xCDBE2C45, 8) == 0x7447B78C;
    assert ShiftBits(0x3FD5AF46, 8) == 0x67E52FFB;
  }

  lemma O40AdvancesOnRow7(b: bv8)
    requires b >> 4 == 7
    ensures O40(b) == ShiftBits(O32(b), 8)
  {
    assert ShiftBits(0x7198540D, 8) == 0xBF59D487;
    assert ShiftBits(0x83F3D70E, 8) == 0xACFB4CF0;
    assert ShiftBits(0x90A324FA, 8) == 0x981CE469;
    assert ShiftBits(0x62C8A7F9, 8) == 0x8BBE7C1E;
    assert ShiftBits(0xB602C312, 8) == 0xF1D3B55B;
    assert ShiftBits(0x44694011, 8) == 0xE2712D2C;
    assert ShiftBits(0x5739B3E5, 8) == 0xD69685B5;
    assert ShiftBits(0xA55230E6, 8) == 0xC5341DC2;
    assert ShiftBits(0xFB410CC2, 8) == 0x224D173F;
    assert ShiftBits(0x092A8FC1, 8) == 0x31EF8F48;
    assert ShiftBits(0x1A7A7C35, 8) == 0x050827D1;
    assert ShiftBits(0xE811FF36, 8) == 0x16AABFA6;
    assert ShiftBits(0x3CDB9BDD, 8) == 0x6CC776E3;
    assert ShiftBits(0xCEB018DE, 8) == 0x7F65EE94;
    assert ShiftBits(0xDDE0EB2A, 8) == 0x4B82460D;
    assert ShiftBits(0x2F8B6829, 8) == 0x5820DE7A;
  }

  lemma O40AdvancesOnRow8(b: bv8)
    requires b >> 4 == 8
    ensures O40(b) == ShiftBits(O32(b), 8)
  {
    assert ShiftBits(0x82F63B78, 8) == 0xFBC3FAF9;
    assert ShiftBits(0x709DB87B, 8) == 0xE861628E;
    assert ShiftBits(0x63CD4B8F, 8) == 0xDC86CA17;
    assert ShiftBits(0x91A6C88C, 8) == 0xCF245260;
    assert ShiftBits(0x456CAC67, 8) == 0xB5499B25;
    assert ShiftBits(0xB7072F64, 8) == 0xA6EB0352;
    assert ShiftBits(0xA457DC90, 8) == 0x920CABCB;
    assert ShiftBits(0x563C5F93, 8) == 0x81AE33BC;
    assert ShiftBits(0x082F63B7, 8) == 0x66D73941;
    assert ShiftBits(0xFA44E0B4, 8) == 0x7575A136;
    assert ShiftBits(0xE9141340, 8) == 0x419209AF;
    assert ShiftBits(0x1B7F9043, 8) == 0x523091D8;
    assert ShiftBits(0xCFB5F4A8, 8) == 0x285D589D;
    assert ShiftBits(0x3DDE77AB, 8) == 0x3BFFC0EA;
    assert ShiftBits(0x2E8E845F, 8) == 0x0F186873;
    assert ShiftBits(0xDCE5075C, 8) == 0x1CBAF004;
  }

  lemma O40AdvancesOnRow9(b: bv8)
    requires b >> 4 == 9
    ensures O40(b) == ShiftBits(O32(b), 8)
  {
    assert ShiftBits(0x92A8FC17, 8) == 0xC4060B78;
    assert ShiftBits(0x60C37F14, 8) == 0xD7A4930F;
    assert ShiftBits(0x73938CE0, 8) == 0xE3433B96;
    assert ShiftBits(0x81F80FE3, 8) == 0xF0E1A3E1;
    assert ShiftBits(0x55326B08, 8) == 0x8A8C6AA4;
    assert ShiftBits(0xA759E80B, 8) == 0x992EF2D3;
    assert ShiftBits(0xB4091BFF, 8) == 0xADC95A4A;
    assert ShiftBits(0x466298FC, 8) == 0xBE6BC23D;
    assert ShiftBits(0x1871A4D8, 8) == 0x5912C8C0;
    assert ShiftBits(0xEA1A27DB, 8) == 0x4AB050B7;
    assert ShiftBits(0xF94AD42F, 8) == 0x7E57F82E;
    assert ShiftBits(0x0B21572C, 8) == 0x6DF56059;
    assert ShiftBits(0xDFEB33C7, 8) == 0x1798A91C;
    assert ShiftBits(0x2D80B0C4, 8) == 0x043A316B;
    assert ShiftBits(0x3ED04330, 8) == 0x30DD99F2;
    assert ShiftBits(0xCCBBC033, 8) == 0x237F0185;
  }

  lemma O40AdvancesOnRow10(b: bv8)
    requires b >> 4 == 10
    ensures O40(b) == ShiftBits(O32(b), 8)
  {
    assert ShiftBits(0xA24BB5A6, 8) == 0x844819FB;
    assert ShiftBits(0x502036A5, 8) == 0x97EA818C;
    assert ShiftBits(0x4370C551, 8) == 0xA30D2915;
    assert ShiftBits(0xB11B4652, 8) == 0xB0AFB162;
    assert ShiftBits(0x65D122B9, 8) == 0xCAC27827;
    assert ShiftBits(0x97BAA1BA, 8) == 0xD960E050;
    assert ShiftBits(0x84EA524E, 8) == 0xED8748C9;
    assert ShiftBits(0x7681D14D, 8) == 0xFE25D0BE;
    assert ShiftBits(0x2892ED69, 8) == 0x195CDA43;
    assert ShiftBits(0xDAF96E6A, 8) == 0x0AFE4234;
    assert ShiftBits(0xC9A99D9E, 8) == 0x3E19EAAD;
    assert ShiftBits(0x3BC21E9D, 8) == 0x2DBB72DA;
    assert ShiftBits(0xEF087A76, 8) == 0x57D6BB9F;
    assert ShiftBits(0x1D63F975, 8) == 0x447423E8;
    assert ShiftBits(0x0E330A81, 8) == 0x70938B71;
    assert ShiftBits(0xFC588982, 8) == 0x63311306;
  }

  lemma O40AdvancesOnRow11(b: bv8)
    requires b >> 4 == 11
    ensures O40(b) == ShiftBits(O32(b), 8)
  {
    assert ShiftBits(0xB21572C9, 8) == 0xBB8DE87A;
    assert ShiftBits(0x407EF1CA, 8) == 0xA82F700D;
    assert ShiftBits(0x532E023E, 8) == 0x9CC8D894;
    assert ShiftBits(0xA145813D, 8) == 0x8F6A40E3;
    assert ShiftBits(0x758FE5D6, 8) == 0xF50789A6;
    assert ShiftBits(0x87E466D5, 8) == 0xE6A511D1;
    assert ShiftBits(0x94B49521, 8) == 0xD242B948;
    assert ShiftBits(0x66DF1622, 8) == 0xC1E0213F;
    assert ShiftBits(0x38CC2A06, 8) == 0x26992BC2;
    assert ShiftBits(0xCAA7A905, 8) == 0x353BB3B5;
    assert ShiftBits(0xD9F75AF1, 8) == 0x01DC1B2C;
    assert ShiftBits(0x2B9CD9F2, 8) == 0x127E835B;
    assert ShiftBits(0xFF56BD19, 8) == 0x68134A1E;
    assert ShiftBits(0x0D3D3E1A, 8) == 0x7BB1D269;
    assert ShiftBits(0x1E6DCDEE, 8) == 0x4F567AF0;
    assert ShiftBits(0xEC064EED, 8) == 0x5CF4E287;
  }

  lemma O40AdvancesOnRow12(b: bv8)
    requires b >> 4 == 12
    ensures O40(b) == ShiftBits(O32(b), 8)
  {
    assert ShiftBits(0xC38D26C4, 8) == 0x04D43CFD;
    assert ShiftBits(0x31E6A5C7, 8) == 0x1776A48A;
    assert ShiftBits(0x22B65633, 8) == 0x23910C13;
    assert ShiftBits(0xD0DDD530, 8) == 0x30339464;
    assert ShiftBits(0x0417B1DB, 8) == 0x4A5E5D21;
    assert ShiftBits(0xF67C32D8, 8) == 0x59FCC556;
    assert ShiftBits(0xE52CC12C, 8) == 0x6D1B6DCF;
    assert ShiftBits(0x1747422F, 8) == 0x7EB9F5B8;
    assert ShiftBits(0x49547E0B, 8) == 0x99C0FF45;
    assert ShiftBits(0xBB3FFD08, 8) == 0x8A626732;
    assert ShiftBits(0xA86F0EFC, 8) == 0xBE85CFAB;
    assert ShiftBits(0x5A048DFF, 8) == 0xAD2757DC;
    assert ShiftBits(0x8ECEE914, 8) == 0xD74A9E99;
    assert ShiftBits(0x7CA56A17, 8) == 0xC4E806EE;
    assert ShiftBits(0x6FF599E3, 8) == 0xF00FAE77;
    assert ShiftBits(0x9D9E1AE0, 8) == 0xE3AD3600;
  }

  lemma O40AdvancesOnRow13(b: bv8)
    requires b >> 4 == 13
    ensures O40(b) == ShiftBits(O32(b), 8)
  {
    assert ShiftBits(0xD3D3E1AB, 8) == 0x3B11CD7C;
    assert ShiftBits(0x21B862A8, 8) == 0x28B3550B;
    assert ShiftBits(0x32E8915C, 8) == 0x1C54FD92;
    assert ShiftBits(0xC083125F, 8) == 0x0FF665E5;
    assert ShiftBits(0x144976B4, 8) == 0x759BACA0;
    assert ShiftBits(0xE622F5B7, 8) == 0x663934D7;
    assert ShiftBits(0xF5720643, 8) == 0x52DE9C4E;
    assert ShiftBits(0x07198540, 8) == 0x417C0439;
    assert ShiftBits(0x590AB964, 8) == 0xA6050EC4;
    assert ShiftBits(0xAB613A67, 8) == 0xB5A796B3;
    assert ShiftBits(0xB831C993, 8) == 0x81403E2A;
    assert ShiftBits(0x4A5A4A90, 8) == 0x92E2A65D;
    assert ShiftBits(0x9E902E7B, 8) == 0xE88F6F18;
    assert ShiftBits(0x6CFBAD78, 8) == 0xFB2DF76F;
    assert ShiftBits(0x7FAB5E8C, 8) == 0xCFCA5FF6;
    assert ShiftBits(0x8DC0DD8F, 8) == 0xDC68C781;
  }

  lemma O40AdvancesOnRow14(b: bv8)
    requires b >> 4 == 14
    ensures O40(b) == ShiftBits(O32(b), 8)
  {
    assert ShiftBits(0xE330A81A, 8) == 0x7B5FDFFF;
    assert ShiftBits(0x115B2B19, 8) == 0x68FD4788;
    assert ShiftBits(0x020BD8ED, 8) == 0x5C1AEF11;
    assert ShiftBits(0xF0605BEE, 8) == 0x4FB87766;
    assert ShiftBits(0x24AA3F05, 8) == 0x35D5BE23;
    assert ShiftBits(0xD6C1BC06, 8) == 0x26772654;
    assert ShiftBits(0xC5914FF2, 8) == 0x12908ECD;
    assert ShiftBits(0x37FACCF1, 8) == 0x013216BA;
    assert ShiftBits(0x69E9F0D5, 8) == 0xE64B1C47;
    assert ShiftBits(0x9B8273D6, 8) == 0xF5E98430;
    assert ShiftBits(0x88D28022, 8) == 0xC10E2CA9;
    assert ShiftBits(0x7AB90321, 8) == 0xD2ACB4DE;
    assert ShiftBits(0xAE7367CA, 8) == 0xA8C17D9B;
    assert ShiftBits(0x5C18E4C9, 8) == 0xBB63E5EC;
    assert ShiftBits(0x4F48173D, 8) == 0x8F844D75;
    assert ShiftBits(0xBD23943E, 8) == 0x9C26D502;
  }

  lemma O40AdvancesOnRow15(b: bv8)
    requires b >> 4 == 15
    ensures O40(b) == ShiftBits(O32(b), 8)
  {
    assert ShiftBits(0xF36E6F75, 8) == 0x449A2E7E;
    assert ShiftBits(0x0105EC76, 8) == 0x5738B609;
    assert ShiftBits(0x12551F82, 8) == 0x63DF1E90;
    assert ShiftBits(0xE03E9C81, 8) == 0x707D86E7;
    assert ShiftBits(0x34F4F86A, 8) == 0x0A104FA2;
    assert ShiftBits(0xC69F7B69, 8) == 0x19B2D7D5;
    assert ShiftBits(0xD5CF889D, 8) == 0x2D557F4C;
    assert ShiftBits(0x27A40B9E, 8) == 0x3EF7E73B;
    assert ShiftBits(0x79B737BA, 8) == 0xD98EEDC6;
    assert ShiftBits(0x8BDCB4B9, 8) == 0xCA2C75B1;
    assert ShiftBits(0x988C474D, 8) == 0xFECBDD28;
    assert ShiftBits(0x6AE7C44E, 8) == 0xED69455F;
    assert ShiftBits(0xBE2DA0A5, 8) == 0x97048C1A;
    assert ShiftBits(0x4C4623A6, 8) == 0x84A6146D;
    assert ShiftBits(0x5F16D052, 8) == 0xB041BCF4;
    assert ShiftBits(0xAD7D5351, 8) == 0xA3E32483;
  }

  lemma O48AdvancesOnRow0(b: bv8)
    requires b >> 4 == 0
    ensures O48(b) == ShiftBits(O40(b), 8)
  {
    assert ShiftBits(0x00000000, 8) == 0x00000000;
    assert ShiftBits(0x13A29877, 8) == 0xA541927E;
    assert ShiftBits(0x274530EE, 8) == 0x4F6F520D;
    assert ShiftBits(0x34E7A899, 8) == 0xEA2EC073;
    assert ShiftBits(0x4E8A61DC, 8) == 0x9EDEA41A;
    assert ShiftBits(0x5D28F9AB, 8) == 0x3B9F3664;
    assert ShiftBits(0x69CF5132, 8) == 0xD1B1F617;
    assert ShiftBits(0x7A6DC945, 8) == 0x74F06469;
    assert ShiftBits(0x9D14C3B8, 8) == 0x38513EC5;
    assert ShiftBits(0x8EB65BCF, 8) == 0x9D10ACBB;
    assert ShiftBits(0xBA51F356, 8) == 0x773E6CC8;
    assert ShiftBits(0xA9F36B21, 8) == 0xD27FFEB6;
    assert ShiftBits(0xD39EA264, 8) == 0xA68F9ADF;
    assert ShiftBits(0xC03C3A13, 8) == 0x03CE08A1;
    assert ShiftBits(0xF4DB928A, 8) == 0xE9E0C8D2;
    assert ShiftBits(0xE7790AFD, 8) == 0x4CA15AAC;
  }

  lemma O48AdvancesOnRow1(b: bv8)
    requires b >> 4 == 1
    ensures O48(b) == ShiftBits(O40(b), 8)
  {
    assert ShiftBits(0x3FC5F181, 8) == 0x70A27D8A;
    assert ShiftBits(0x2C6769F6, 8) == 0xD5E3EFF4;
    assert ShiftBits(0x1880C16F, 8) == 0x3FCD2F87;
    assert ShiftBits(0x0B225918, 8) == 0x9A8CBDF9;
    assert ShiftBits(0x714F905D, 8) == 0xEE7CD990;
    assert ShiftBits(0x62ED082A, 8) == 0x4B3D4BEE;
    assert ShiftBits(0x560AA0B3, 8) == 0xA1138B9D;
    assert ShiftBits(0x45A838C4, 8) == 0x045219E3;
    assert ShiftBits(0xA2D13239, 8) == 0x48F3434F;
    assert ShiftBits(0xB173AA4E, 8) == 0xEDB2D131;
    assert ShiftBits(0x859402D7, 8) == 0x079C1142;
    assert ShiftBits(0x96369AA0, 8) == 0xA2DD833C;
    assert ShiftBits(0xEC5B53E5, 8) == 0xD62DE755;
    assert ShiftBits(0xFFF9CB92, 8) == 0x736C752B;
    assert ShiftBits(0xCB1E630B, 8) == 0x9942B558;
    assert ShiftBits(0xD8BCFB7C, 8) == 0x3C032726;
  }

  lemma O48AdvancesOnRow2(b: bv8)
    requires b >> 4 == 2
    ensures O48(b) == ShiftBits(O40(b), 8)
  {
    assert ShiftBits(0x7F8BE302, 8) == 0xE144FB14;
    assert ShiftBits(0x6C297B75, 8) == 0x4405696A;
    assert ShiftBits(0x58CED3EC, 8) == 0xAE2BA919;
    assert ShiftBits(0x4B6C4B9B, 8) == 0x0B6A3B67;
    assert ShiftBits(0x310182DE, 8) == 0x7F9A5F0E;
    assert ShiftBits(0x22A31AA9, 8) == 0xDADBCD70;
    assert ShiftBits(0x1644B230, 8) == 0x30F50D03;
    assert ShiftBits(0x05E62A47, 8) == 0x95B49F7D;
    assert ShiftBits(0xE29F20BA, 8) == 0xD915C5D1;
    assert ShiftBits(0xF13DB8CD, 8) == 0x7C5457AF;
    assert ShiftBits(0xC5DA1054, 8) == 0x967A97DC;
    assert ShiftBits(0xD6788823, 8) == 0x333B05A2;
    assert ShiftBits(0xAC154166, 8) == 0x47CB61CB;
    assert ShiftBits(0xBFB7D911, 8) == 0xE28AF3B5;
    assert ShiftBits(0x8B507188, 8) == 0x08A433C6;
    assert ShiftBits(0x98F2E9FF, 8) == 0xADE5A1B8;
  }

  lemma O48AdvancesOnRow3(b: bv8)
    requires b >> 4 == 3
    ensures O48(b) == ShiftBits(O40(b), 8)
  {
    assert ShiftBits(0x404E1283, 8) == 0x91E6869E;
    assert ShiftBits(0x53EC8AF4, 8) == 0x34A714E0;
    assert ShiftBits(0x670B226D, 8) == 0xDE89D493;
    assert ShiftBits(0x74A9BA1A, 8) == 0x7BC846ED;
    assert ShiftBits(0x0EC4735F, 8) == 0x0F382284;
    assert ShiftBits(0x1D66EB28, 8) == 0xAA79B0FA;
    assert ShiftBits(0x298143B1, 8) == 0x40577089;
    assert ShiftBits(0x3A23DBC6, 8) == 0xE516E2F7;
    assert ShiftBits(0xDD5AD13B, 8) == 0xA9B7B85B;
    assert ShiftBits(0xCEF8494C, 8) == 0x0CF62A25;
    assert ShiftBits(0xFA1FE1D5, 8) == 0xE6D8EA56;
    assert ShiftBits(0xE9BD79A2, 8) == 0x43997828;
    assert ShiftBits(0x93D0B0E7, 8) == 0x37691C41;
    assert ShiftBits(0x80722890, 8) == 0x92288E3F;
    assert ShiftBits(0xB4958009, 8) == 0x78064E4C;
    assert ShiftBits(0xA737187E, 8) == 0xDD47DC32;
  }

  lemma O48AdvancesOnRow4(b: bv8)
    requires b >> 4 == 4
    ensures O48(b) == ShiftBits(O40(b), 8)
  {
    assert ShiftBits(0xFF17C604, 8) == 0xC76580D9;
    assert ShiftBits(0xECB55E73, 8) == 0x622412A7;
    assert ShiftBits(0xD852F6EA, 8) == 0x880AD2D4;
    assert ShiftBits(0xCBF06E9D, 8) == 0x2D4B40AA;
    assert ShiftBits(0xB19DA7D8, 8) == 0x59BB24C3;
    assert ShiftBits(0xA23F3FAF, 8) == 0xFCFAB6BD;
    assert ShiftBits(0x96D89736, 8) == 0x16D476CE;
    assert ShiftBits(0x857A0F41, 8) == 0xB395E4B0;
    assert ShiftBits(0x620305BC, 8) == 0xFF34BE1C;
    assert ShiftBits(0x71A19DCB, 8) == 0x5A752C62;
    assert ShiftBits(0x45463552, 8) == 0xB05BEC11;
    assert ShiftBits(0x56E4AD25, 8) == 0x151A7E6F;
    assert ShiftBits(0x2C896460, 8) == 0x61EA1A06;
    assert ShiftBits(0x3F2BFC17, 8) == 0xC4AB8878;
    assert ShiftBits(0x0BCC548E, 8) == 0x2E85480B;
    assert ShiftBits(0x186ECCF9, 8) == 0x8BC4DA75;
  }

  lemma O48AdvancesOnRow5(b: bv8)
    requires b >> 4 == 5
    ensures O48(b) == ShiftBits(O40(b), 8)
  {
    assert ShiftBits(0xC0D23785, 8) == 0xB7C7FD53;
    assert ShiftBits(0xD370AFF2, 8) == 0x12866F2D;
    assert ShiftBits(0xE797076B, 8) == 0xF8A8AF5E;
    assert ShiftBits(0xF4359F1C, 8) == 0x5DE93D20;
    assert ShiftBits(0x8E585659, 8) == 0x29195949;
    assert ShiftBits(0x9DFACE2E, 8) == 0x8C58CB37;
    assert ShiftBits(0xA91D66B7, 8) == 0x66760B44;
    assert ShiftBits(0xBABFFEC0, 8) == 0xC337993A;
    assert ShiftBits(0x5DC6F43D, 8) == 0x8F96C396;
    assert ShiftBits(0x4E646C4A, 8) == 0x2AD751E8;
    assert ShiftBits(0x7A83C4D3, 8) == 0xC0F9919B;
    assert ShiftBits(0x69215CA4, 8) == 0x65B803E5;
    assert ShiftBits(0x134C95E1, 8) == 0x1148678C;
    assert ShiftBits(0x00EE0D96, 8) == 0xB409F5F2;
    assert ShiftBits(0x3409A50F, 8) == 0x5E273581;
    assert ShiftBits(0x27AB3D78, 8) == 0xFB66A7FF;
  }

  lemma O48AdvancesOnRow6(b: bv8)
    requires b >> 4 == 6
    ensures O48(b) == ShiftBits(O40(b), 8)
  {
    assert ShiftBits(0x809C2506, 8) == 0x26217BCD;
    assert ShiftBits(0x933EBD71, 8) == 0x8360E9B3;
    assert ShiftBits(0xA7D915E8, 8) == 0x694E29C0;
    assert ShiftBits(0xB47B8D9F, 8) == 0xCC0FBBBE;
    assert ShiftBits(0xCE1644DA, 8) == 0xB8FFDFD7;
    assert ShiftBits(0xDDB4DCAD, 8) == 0x1DBE4DA9;
    assert ShiftBits(0xE9537434, 8) == 0xF7908DDA;
    assert ShiftBits(0xFAF1EC43, 8) == 0x52D11FA4;
    assert ShiftBits(0x1D88E6BE, 8) == 0x1E704508;
    assert ShiftBits(0x0E2A7EC9, 8) == 0xBB31D776;
    assert ShiftBits(0x3ACDD650, 8) == 0x511F1705;
    assert ShiftBits(0x296F4E27, 8) == 0xF45E857B;
    assert ShiftBits(0x53028762, 8) == 0x80AEE112;
    assert ShiftBits(0x40A01F15, 8) == 0x25EF736C;
    assert ShiftBits(0x7447B78C, 8) == 0xCFC1B31F;
    assert ShiftBits(0x67E52FFB, 8) == 0x6A802161;
  }

  lemma O48AdvancesOnRow7(b: bv8)
    requires b >> 4 == 7
    ensures O48(b) == ShiftBits(O40(b), 8)
  {
    assert ShiftBits(0xBF59D487, 8) == 0x56830647;
    assert ShiftBits(0xACFB4CF0, 8) == 0xF3C29439;
    assert ShiftBits(0x981CE469, 8) == 0x19EC544A;
    assert ShiftBits(0x8BBE7C1E, 8) == 0xBCADC634;
    assert ShiftBits(0xF1D3B55B, 8) == 0xC85DA25D;
    assert ShiftBits(0xE2712D2C, 8) == 0x6D1C3023;
    assert ShiftBits(0xD69685B5, 8) == 0x8732F050;
    assert ShiftBits(0xC5341DC2, 8) == 0x2273622E;
    assert ShiftBits(0x224D173F, 8) == 0x6ED23882;
    assert ShiftBits(0x31EF8F48, 8) == 0xCB93AAFC;
    assert ShiftBits(0x050827D1, 8) == 0x21BD6A8F;
    assert ShiftBits(0x16AABFA6, 8) == 0x84FCF8F1;
    assert ShiftBits(0x6CC776E3, 8) == 0xF00C9C98;
    assert ShiftBits(0x7F65EE94, 8) == 0x554D0EE6;
    assert ShiftBits(0x4B82460D, 8) == 0xBF63CE95;
    assert ShiftBits(0x5820DE7A, 8) == 0x1A225CEB;
  }

  lemma O48AdvancesOnRow8(b: bv8)
    requires b >> 4 == 8
    ensures O48(b) == ShiftBits(O40(b), 8)
  {
    assert ShiftBits(0xFBC3FAF9, 8) == 0x8B277743;
    assert ShiftBits(0xE861628E, 8) == 0x2E66E53D;
    assert ShiftBits(0xDC86CA17, 8) == 0xC448254E;
    assert ShiftBits(0xCF245260, 8) == 0x6109B730;
    assert ShiftBits(0xB5499B25, 8) == 0x15F9D359;
    assert ShiftBits(0xA6EB0352, 8) == 0xB0B84127;
    assert ShiftBits(0x920CABCB, 8) == 0x5A968154;
    assert ShiftBits(0x81AE33BC, 8) == 0xFFD7132A;
    assert ShiftBits(0x66D73941, 8) == 0xB3764986;
    assert ShiftBits(0x7575A136, 8) == 0x1637DBF8;
    assert ShiftBits(0x419209AF, 8) == 0xFC191B8B;
    assert ShiftBits(0x523091D8, 8) == 0x595889F5;
    assert ShiftBits(0x285D589D, 8) == 0x2DA8ED9C;
    assert ShiftBits(0x3BFFC0EA, 8) == 0x88E97FE2;
    assert ShiftBits(0x0F186873, 8) == 0x62C7BF91;
    assert ShiftBits(0x1CBAF004, 8) == 0xC7862DEF;
  }

  lemma O48AdvancesOnRow9(b: bv8)
    requires b >> 4 == 9
    ensures O48(b) == ShiftBits(O40(b), 8)
  {
    assert ShiftBits(0xC4060B78, 8) == 0xFB850AC9;
    assert ShiftBits(0xD7A4930F, 8) == 0x5EC498B7;
    assert ShiftBits(0xE3433B96, 8) == 0xB4EA58C4;
    assert ShiftBits(0xF0E1A3E1, 8) == 0x11ABCABA;
    assert ShiftBits(0x8A8C6AA4, 8) == 0x655BAED3;
    assert ShiftBits(0x992EF2D3, 8) == 0xC01A3CAD;
    assert ShiftBits(0xADC95A4A, 8) == 0x2A34FCDE;
    assert ShiftBits(0xBE6BC23D, 8) == 0x8F756EA0;
    assert ShiftBits(0x5912C8C0, 8) == 0xC3D4340C;
    assert ShiftBits(0x4AB050B7, 8) == 0x6695A672;
    assert ShiftBits(0x7E57F82E, 8) == 0x8CBB6601;
    assert ShiftBits(0x6DF56059, 8) == 0x29FAF47F;
    assert ShiftBits(0x1798A91C, 8) == 0x5D0A9016;
    assert ShiftBits(0x043A316B, 8) == 0xF84B0268;
    assert ShiftBits(0x30DD99F2, 8) == 0x1265C21B;
    assert ShiftBits(0x237F0185, 8) == 0xB7245065;
  }

  lemma O48AdvancesOnRow10(b: bv8)
    requires b >> 4 == 10
    ensures O48(b) == ShiftBits(O40(b), 8)
  {
    assert ShiftBits(0x844819FB, 8) == 0x6A638C57;
    assert ShiftBits(0x97EA818C, 8) == 0xCF221E29;
    assert ShiftBits(0xA30D2915, 8) == 0x250CDE5A;
    assert ShiftBits(0xB0AFB162, 8) == 0x804D4C24;
    assert ShiftBits(0xCAC27827, 8) == 0xF4BD284D;
    assert ShiftBits(0xD960E050, 8) == 0x51FCBA33;
    assert ShiftBits(0xED8748C9, 8) == 0xBBD27A40;
    assert ShiftBits(0xFE25D0BE, 8) == 0x1E93E83E;
    assert ShiftBits(0x195CDA43, 8) == 0x5232B292;
    assert ShiftBits(0x0AFE4234, 8) == 0xF77320EC;
    assert ShiftBits(0x3E19EAAD, 8) == 0x1D5DE09F;
    assert ShiftBits(0x2DBB72DA, 8) == 0xB81C72E1;
    assert ShiftBits(0x57D6BB9F, 8) == 0xCCEC1688;
    assert ShiftBits(0x447423E8, 8) == 0x69AD84F6;
    assert ShiftBits(0x70938B71, 8) == 0x83834485;
    assert ShiftBits(0x63311306, 8) == 0x26C2D6FB;
  }

  lemma O48AdvancesOnRow11(b: bv8)
    requires b >> 4 == 11
    ensures O48(b) == ShiftBits(O40(b), 8)
  {
    assert ShiftBits(0xBB8DE87A, 8) == 0x1AC1F1DD;
    assert ShiftBits(0xA82F700D, 8) == 0xBF8063A3;
    assert ShiftBits(0x9CC8D894, 8) == 0x55AEA3D0;
    assert ShiftBits(0x8F6A40E3, 8) == 0xF0EF31AE;
    assert ShiftBits(0xF50789A6, 8) == 0x841F55C7;
    assert ShiftBits(0xE6A511D1, 8) == 0x215EC7B9;
    assert ShiftBits(0xD242B948, 8) == 0xCB7007CA;
    assert ShiftBits(0xC1E0213F, 8) == 0x6E3195B4;
    assert ShiftBits(0x26992BC2, 8) == 0x2290CF18;
    assert ShiftBits(0x353BB3B5, 8) == 0x87D15D66;
    assert ShiftBits(0x01DC1B2C, 8) == 0x6DFF9D15;
    assert ShiftBits(0x127E835B, 8) == 0xC8BE0F6B;
    assert ShiftBits(0x68134A1E, 8) == 0xBC4E6B02;
    assert ShiftBits(0x7BB1D269, 8) == 0x190FF97C;
    assert ShiftBits(0x4F567AF0, 8) == 0xF321390F;
    assert ShiftBits(0x5CF4E287, 8) == 0x5660AB71;
  }

  lemma O48AdvancesOnRow12(b: bv8)
    requires b >> 4 == 12
    ensures O48(b) == ShiftBits(O40(b), 8)
  {
    assert ShiftBits(0x04D43CFD, 8) == 0x4C42F79A;
    assert ShiftBits(0x1776A48A, 8) == 0xE90365E4;
    assert ShiftBits(0x23910C13, 8) == 0x032DA597;
    assert ShiftBits(0x30339464, 8) == 0xA66C37E9;
    assert ShiftBits(0x4A5E5D21, 8) == 0xD29C5380;
    assert ShiftBits(0x59FCC556, 8) == 0x77DDC1FE;
    assert ShiftBits(0x6D1B6DCF, 8) == 0x9DF3018D;
    assert ShiftBits(0x7EB9F5B8, 8) == 0x38B293F3;
    assert ShiftBits(0x99C0FF45, 8) == 0x7413C95F;
    assert ShiftBits(0x8A626732, 8) == 0xD1525B21;
    assert ShiftBits(0xBE85CFAB, 8) == 0x3B7C9B52;
    assert ShiftBits(0xAD2757DC, 8) == 0x9E3D092C;
    assert ShiftBits(0xD74A9E99, 8) == 0xEACD6D45;
    assert ShiftBits(0xC4E806EE, 8) == 0x4F8CFF3B;
    assert ShiftBits(0xF00FAE77, 8) == 0xA5A23F48;
    assert ShiftBits(0xE3AD3600, 8) == 0x00E3AD36;
  }

  lemma O48AdvancesOnRow13(b: bv8)
    requires b >> 4 == 13
    ensures O48(b) == ShiftBits(O40(b), 8)
  {
    assert ShiftBits(0x3B11CD7C, 8) == 0x3CE08A10;
    assert ShiftBits(0x28B3550B, 8) == 0x99A1186E;
    assert ShiftBits(0x1C54FD92, 8) == 0x738FD81D;
    assert ShiftBits(0x0FF665E5, 8) == 0xD6CE4A63;
    assert ShiftBits(0x759BACA0, 8) == 0xA23E2E0A;
    assert ShiftBits(0x663934D7, 8) == 0x077FBC74;
    assert ShiftBits(0x52DE9C4E, 8) == 0xED517C07;
    assert ShiftBits(0x417C0439, 8) == 0x4810EE79;
    assert ShiftBits(0xA6050EC4, 8) == 0x04B1B4D5;
    assert ShiftBits(0xB5A796B3, 8) == 0xA1F026AB;
    assert ShiftBits(0x81403E2A, 8) == 0x4BDEE6D8;
    assert ShiftBits(0x92E2A65D, 8) == 0xEE9F74A6;
    assert ShiftBits(0xE88F6F18, 8) == 0x9A6F10CF;
    assert ShiftBits(0xFB2DF76F, 8) == 0x3F2E82B1;
    assert ShiftBits(0xCFCA5FF6, 8) == 0xD50042C2;
    assert ShiftBits(0xDC68C781, 8) == 0x7041D0BC;
  }

  lemma O48AdvancesOnRow14(b: bv8)
    requires b >> 4 == 14
    ensures O48(b) == ShiftBits(O40(b), 8)
  {
    assert ShiftBits(0x7B5FDFFF, 8) == 0xAD060C8E;
    assert ShiftBits(0x68FD4788, 8) == 0x08479EF0;
    assert ShiftBits(0x5C1AEF11, 8) == 0xE2695E83;
    assert ShiftBits(0x4FB87766, 8) == 0x4728CCFD;
    assert ShiftBits(0x35D5BE23, 8) == 0x33D8A894;
    assert ShiftBits(0x26772654, 8) == 0x96993AEA;
    assert ShiftBits(0x12908ECD, 8) == 0x7CB7FA99;
    assert ShiftBits(0x013216BA, 8) == 0xD9F668E7;
    assert ShiftBits(0xE64B1C47, 8) == 0x9557324B;
    assert ShiftBits(0xF5E98430, 8) == 0x3016A035;
    assert ShiftBits(0xC10E2CA9, 8) == 0xDA386046;
    assert ShiftBits(0xD2ACB4DE, 8) == 0x7F79F238;
    assert ShiftBits(0xA8C17D9B, 8) == 0x0B899651;
    assert ShiftBits(0xBB63E5EC, 8) == 0xAEC8042F;
    assert ShiftBits(0x8F844D75, 8) == 0x44E6C45C;
    assert ShiftBits(0x9C26D502, 8) == 0xE1A75622;
  }

  lemma O48AdvancesOnRow15(b: bv8)
    requires b >> 4 == 15
    ensures O48(b) == ShiftBits(O40(b), 8)
  {
    assert ShiftBits(0x449A2E7E, 8) == 0xDDA47104;
    assert ShiftBits(0x5738B609, 8) == 0x78E5E37A;
    assert ShiftBits(0x63DF1E90, 8) == 0x92CB2309;
    assert ShiftBits(0x707D86E7, 8) == 0x378AB177;
    assert ShiftBits(0x0A104FA2, 8) == 0x437AD51E;
    assert ShiftBits(0x19B2D7D5, 8) == 0xE63B4760;
    assert ShiftBits(0x2D557F4C, 8) == 0x0C158713;
    assert ShiftBits(0x3EF7E73B, 8) == 0xA954156D;
    assert ShiftBits(0xD98EEDC6, 8) == 0xE5F54FC1;
    assert ShiftBits(0xCA2C75B1, 8) == 0x40B4DDBF;
    assert ShiftBits(0xFECBDD28, 8) == 0xAA9A1DCC;
    assert ShiftBits(0xED69455F, 8) == 0x0FDB8FB2;
    assert ShiftBits(0x97048C1A, 8) == 0x7B2BEBDB;
    assert ShiftBits(0x84A6146D, 8) == 0xDE6A79A5;
    assert ShiftBits(0xB041BCF4, 8) == 0x3444B9D6;
    assert ShiftBits(0xA3E32483, 8) == 0x91052BA8;
  }

  lemma O56AdvancesOnRow0(b: bv8)
    requires b >> 4 == 0
    ensures O56(b) == ShiftBits(O48(b), 8)
  {
    assert ShiftBits(0x00000000, 8) == 0x00000000;
    assert ShiftBits(0xA541927E, 8) == 0xDD45AAB8;
    assert ShiftBits(0x4F6F520D, 8) == 0xBF672381;
    assert ShiftBits(0xEA2EC073, 8) == 0x62228939;
    assert ShiftBits(0x9EDEA41A, 8) == 0x7B2231F3;
    assert ShiftBits(0x3B9F3664, 8) == 0xA6679B4B;
    assert ShiftBits(0xD1B1F617, 8) == 0xC4451272;
    assert ShiftBits(0x74F06469, 8) == 0x1900B8CA;
    assert ShiftBits(0x38513EC5, 8) == 0xF64463E6;
    assert ShiftBits(0x9D10ACBB, 8) == 0x2B01C95E;
    assert ShiftBits(0x773E6CC8, 8) == 0x49234067;
    assert ShiftBits(0xD27FFEB6, 8) == 0x9466EADF;
    assert ShiftBits(0xA68F9ADF, 8) == 0x8D665215;
    assert ShiftBits(0x03CE08A1, 8) == 0x5023F8AD;
    assert ShiftBits(0xE9E0C8D2, 8) == 0x32017194;
    assert ShiftBits(0x4CA15AAC, 8) == 0xEF44DB2C;
  }

  lemma O56AdvancesOnRow1(b: bv8)
    requires b >> 4 == 1
    ensures O56(b) == ShiftBits(O48(b), 8)
  {
    assert ShiftBits(0x70A27D8A, 8) == 0xE964B13D;
    assert ShiftBits(0xD5E3EFF4, 8) == 0x34211B85;
    assert ShiftBits(0x3FCD2F87, 8) == 0x560392BC;
    assert ShiftBits(0x9A8CBDF9, 8) == 0x8B463804;
    assert ShiftBits(0xEE7CD990, 8) == 0x924680CE;
    assert ShiftBits(0x4B3D4BEE, 8) == 0x4F032A76;
    assert ShiftBits(0xA1138B9D, 8) == 0x2D21A34F;
    assert ShiftBits(0x045219E3, 8) == 0xF06409F7;
    assert ShiftBits(0x48F3434F, 8) == 0x1F20D2DB;
    assert ShiftBits(0xEDB2D131, 8) == 0xC2657863;
    assert ShiftBits(0x079C1142, 8) == 0xA047F15A;
    assert ShiftBits(0xA2DD833C, 8) == 0x7D025BE2;
    assert ShiftBits(0xD62DE755, 8) == 0x6402E328;
    assert ShiftBits(0x736C752B, 8) == 0xB9474990;
    assert ShiftBits(0x9942B558, 8) == 0xDB65C0A9;
    assert ShiftBits(0x3C032726, 8) == 0x06206A11;
  }

  lemma O56AdvancesOnRow2(b: bv8)
    requires b >> 4 == 2
    ensures O56(b) == ShiftBits(O48(b), 8)
  {
    assert ShiftBits(0xE144FB14, 8) == 0xD725148B;
    assert ShiftBits(0x4405696A, 8) == 0x0A60BE33;
    assert ShiftBits(0xAE2BA919, 8) == 0x6842370A;
    assert ShiftBits(0x0B6A3B67, 8) == 0xB5079DB2;
    assert ShiftBits(0x7F9A5F0E, 8) == 0xAC072578;
    assert ShiftBits(0xDADBCD70, 8) == 0x71428FC0;
    assert ShiftBits(0x30F50D03, 8) == 0x136006F9;
    assert ShiftBits(0x95B49F7D, 8) == 0xCE25AC41;
    assert ShiftBits(0xD915C5D1, 8) == 0x2161776D;
    assert ShiftBits(0x7C5457AF, 8) == 0xFC24DDD5;
    assert ShiftBits(0x967A97DC, 8) == 0x9E0654EC;
    assert ShiftBits(0x333B05A2, 8) == 0x4343FE54;
    assert ShiftBits(0x47CB61CB, 8) == 0x5A43469E;
    assert ShiftBits(0xE28AF3B5, 8) == 0x8706EC26;
    assert ShiftBits(0x08A433C6, 8) == 0xE524651F;
    assert ShiftBits(0xADE5A1B8, 8) == 0x3861CFA7;
  }

  lemma O56AdvancesOnRow3(b: bv8)
    requires b >> 4 == 3
    ensures O56(b) == ShiftBits(O48(b), 8)
  {
    assert ShiftBits(0x91E6869E, 8) == 0x3E41A5B6;
    assert ShiftBits(0x34A714E0, 8) == 0xE3040F0E;
    assert ShiftBits(0xDE89D493, 8) == 0x81268637;
    assert ShiftBits(0x7BC846ED, 8) == 0x5C632C8F;
    assert ShiftBits(0x0F382284, 8) == 0x45639445;
    assert ShiftBits(0xAA79B0FA, 8) == 0x98263EFD;
    assert ShiftBits(0x40577089, 8) == 0xFA04B7C4;
    assert ShiftBits(0xE516E2F7, 8) == 0x27411D7C;
    assert ShiftBits(0xA9B7B85B, 8) == 0xC805C650;
    assert ShiftBits(0x0CF62A25, 8) == 0x15406CE8;
    assert ShiftBits(0xE6D8EA56, 8) == 0x7762E5D1;
    assert ShiftBits(0x43997828, 8) == 0xAA274F69;
    assert ShiftBits(0x37691C41, 8) == 0xB327F7A3;
    assert ShiftBits(0x92288E3F, 8) == 0x6E625D1B;
    assert ShiftBits(0x78064E4C, 8) == 0x0C40D422;
    assert ShiftBits(0xDD47DC32, 8) == 0xD1057E9A;
  }

  lemma O56AdvancesOnRow4(b: bv8)
    requires b >> 4 == 4
    ensures O56(b) == ShiftBits(O48(b), 8)
  {
    assert ShiftBits(0xC76580D9, 8) == 0xABA65FE7;
    assert ShiftBits(0x622412A7, 8) == 0x76E3F55F;
    assert ShiftBits(0x880AD2D4, 8) == 0x14C17C66;
    assert ShiftBits(0x2D4B40AA, 8) == 0xC984D6DE;
    assert ShiftBits(0x59BB24C3, 8) == 0xD0846E14;
    assert ShiftBits(0xFCFAB6BD, 8) == 0x0DC1C4AC;
    assert ShiftBits(0x16D476CE, 8) == 0x6FE34D95;
    assert ShiftBits(0xB395E4B0, 8) == 0xB2A6E72D;
    assert ShiftBits(0xFF34BE1C, 8) == 0x5DE23C01;
    assert ShiftBits(0x5A752C62, 8) == 0x80A796B9;
    assert ShiftBits(0xB05BEC11, 8) == 0xE2851F80;
    assert ShiftBits(0x151A7E6F, 8) == 0x3FC0B538;
    assert ShiftBits(0x61EA1A06, 8) == 0x26C00DF2;
    assert ShiftBits(0xC4AB8878, 8) == 0xFB85A74A;
    assert ShiftBits(0x2E85480B, 8) == 0x99A72E73;
    assert ShiftBits(0x8BC4DA75, 8) == 0x44E284CB;
  }

  lemma O56AdvancesOnRow5(b: bv8)
    requires b >> 4 == 5
    ensures O56(b) == ShiftBits(O48(b), 8)
  {
    assert ShiftBits(0xB7C7FD53, 8) == 0x42C2EEDA;
    assert ShiftBits(0x12866F2D, 8) == 0x9F874462;
    assert ShiftBits(0xF8A8AF5E, 8) == 0xFDA5CD5B;
    assert ShiftBits(0x5DE93D20, 8) == 0x20E067E3;
    assert ShiftBits(0x29195949, 8) == 0x39E0DF29;
    assert ShiftBits(0x8C58CB37, 8) == 0xE4A57591;
    assert ShiftBits(0x66760B44, 8) == 0x8687FCA8;
    assert ShiftBits(0xC337993A, 8) == 0x5BC25610;
    assert ShiftBits(0x8F96C396, 8) == 0xB4868D3C;
    assert ShiftBits(0x2AD751E8, 8) == 0x69C32784;
    assert ShiftBits(0xC0F9919B, 8) == 0x0BE1AEBD;
    assert ShiftBits(0x65B803E5, 8) == 0xD6A40405;
    assert ShiftBits(0x1148678C, 8) == 0xCFA4BCCF;
    assert ShiftBits(0xB409F5F2, 8) == 0x12E11677;
    assert ShiftBits(0x5E273581, 8) == 0x70C39F4E;
    assert ShiftBits(0xFB66A7FF, 8) == 0xAD8635F6;
  }

  lemma O56AdvancesOnRow6(b: bv8)
    requires b >> 4 == 6
    ensures O56(b) == ShiftBits(O48(b), 8)
  {
    assert ShiftBits(0x26217BCD, 8) == 0x7C834B6C;
    assert ShiftBits(0x8360E9B3, 8) == 0xA1C6E1D4;
    assert ShiftBits(0x694E29C0, 8) == 0xC3E468ED;
    assert ShiftBits(0xCC0FBBBE, 8) == 0x1EA1C255;
    assert ShiftBits(0xB8FFDFD7, 8) == 0x07A17A9F;
    assert ShiftBits(0x1DBE4DA9, 8) == 0xDAE4D027;
    assert ShiftBits(0xF7908DDA, 8) == 0xB8C6591E;
    assert ShiftBits(0x52D11FA4, 8) == 0x6583F3A6;
    assert ShiftBits(0x1E704508, 8) == 0x8AC7288A;
    assert ShiftBits(0xBB31D776, 8) == 0x57828232;
    assert ShiftBits(0x511F1705, 8) == 0x35A00B0B;
    assert ShiftBits(0xF45E857B, 8) == 0xE8E5A1B3;
    assert ShiftBits(0x80AEE112, 8) == 0xF1E51979;
    assert ShiftBits(0x25EF736C, 8) == 0x2CA0B3C1;
    assert ShiftBits(0xCFC1B31F, 8) == 0x4E823AF8;
    assert ShiftBits(0x6A802161, 8) == 0x93C79040;
  }

  lemma O56AdvancesOnRow7(b: bv8)
    requires b >> 4 == 7
    ensures O56(b) == ShiftBits(O48(b), 8)
  {
    assert ShiftBits(0x56830647, 8) == 0x95E7FA51;
    assert ShiftBits(0xF3C29439, 8) == 0x48A250E9;
    assert ShiftBits(0x19EC544A, 8) == 0x2A80D9D0;
    assert ShiftBits(0xBCADC634, 8) == 0xF7C57368;
    assert ShiftBits(0xC85DA25D, 8) == 0xEEC5CBA2;
    assert ShiftBits(0x6D1C3023, 8) == 0x3380611A;
    assert ShiftBits(0x8732F050, 8) == 0x51A2E823;
    assert ShiftBits(0x2273622E, 8) == 0x8CE7429B;
    assert ShiftBits(0x6ED23882, 8) == 0x63A399B7;
    assert ShiftBits(0xCB93AAFC, 8) == 0xBEE6330F;
    assert ShiftBits(0x21BD6A8F, 8) == 0xDCC4BA36;
    assert ShiftBits(0x84FCF8F1, 8) == 0x0181108E;
    assert ShiftBits(0xF00C9C98, 8) == 0x1881A844;
    assert ShiftBits(0x554D0EE6, 8) == 0xC5C402FC;
    assert ShiftBits(0xBF63CE95, 8) == 0xA7E68BC5;
    assert ShiftBits(0x1A225CEB, 8) == 0x7AA3217D;
  }

  lemma O56AdvancesOnRow8(b: bv8)
    requires b >> 4 == 8
    ensures O56(b) == ShiftBits(O48(b), 8)
  {
    assert ShiftBits(0x8B277743, 8) == 0x52A0C93F;
    assert ShiftBits(0x2E66E53D, 8) == 0x8FE56387;
    assert ShiftBits(0xC448254E, 8) == 0xEDC7EABE;
    assert ShiftBits(0x6109B730, 8) == 0x30824006;
    assert ShiftBits(0x15F9D359, 8) == 0x2982F8CC;
    assert ShiftBits(0xB0B84127, 8) == 0xF4C75274;
    assert ShiftBits(0x5A968154, 8) == 0x96E5DB4D;
    assert ShiftBits(0xFFD7132A, 8) == 0x4BA071F5;
    assert ShiftBits(0xB3764986, 8) == 0xA4E4AAD9;
    assert ShiftBits(0x1637DBF8, 8) == 0x79A10061;
    assert ShiftBits(0xFC191B8B, 8) == 0x1B838958;
    assert ShiftBits(0x595889F5, 8) == 0xC6C623E0;
    assert ShiftBits(0x2DA8ED9C, 8) == 0xDFC69B2A;
    assert ShiftBits(0x88E97FE2, 8) == 0x02833192;
    assert ShiftBits(0x62C7BF91, 8) == 0x60A1B8AB;
    assert ShiftBits(0xC7862DEF, 8) == 0xBDE41213;
  }

  lemma O56AdvancesOnRow9(b: bv8)
    requires b >> 4 == 9
    ensures O56(b) == ShiftBits(O48(b), 8)
  {
    assert ShiftBits(0xFB850AC9, 8) == 0xBBC47802;
    assert ShiftBits(0x5EC498B7, 8) == 0x6681D2BA;
    assert ShiftBits(0xB4EA58C4, 8) == 0x04A35B83;
    assert ShiftBits(0x11ABCABA, 8) == 0xD9E6F13B;
    assert ShiftBits(0x655BAED3, 8) == 0xC0E649F1;
    assert ShiftBits(0xC01A3CAD, 8) == 0x1DA3E349;
    assert ShiftBits(0x2A34FCDE, 8) == 0x7F816A70;
    assert ShiftBits(0x8F756EA0, 8) == 0xA2C4C0C8;
    assert ShiftBits(0xC3D4340C, 8) == 0x4D801BE4;
    assert ShiftBits(0x6695A672, 8) == 0x90C5B15C;
    assert ShiftBits(0x8CBB6601, 8) == 0xF2E73865;
    assert ShiftBits(0x29FAF47F, 8) == 0x2FA292DD;
    assert ShiftBits(0x5D0A9016, 8) == 0x36A22A17;
    assert ShiftBits(0xF84B0268, 8) == 0xEBE780AF;
    assert ShiftBits(0x1265C21B, 8) == 0x89C50996;
    assert ShiftBits(0xB7245065, 8) == 0x5480A32E;
  }

  lemma O56AdvancesOnRow10(b: bv8)
    requires b >> 4 == 10
    ensures O56(b) == ShiftBits(O48(b), 8)
  {
    assert ShiftBits(0x6A638C57, 8) == 0x8585DDB4;
    assert ShiftBits(0xCF221E29, 8) == 0x58C0770C;
    assert ShiftBits(0x250CDE5A, 8) == 0x3AE2FE35;
    assert ShiftBits(0x804D4C24, 8) == 0xE7A7548D;
    assert ShiftBits(0xF4BD284D, 8) == 0xFEA7EC47;
    assert ShiftBits(0x51FCBA33, 8) == 0x23E246FF;
    assert ShiftBits(0xBBD27A40, 8) == 0x41C0CFC6;
    assert ShiftBits(0x1E93E83E, 8) == 0x9C85657E;
    assert ShiftBits(0x5232B292, 8) == 0x73C1BE52;
    assert ShiftBits(0xF77320EC, 8) == 0xAE8414EA;
    assert ShiftBits(0x1D5DE09F, 8) == 0xCCA69DD3;
    assert ShiftBits(0xB81C72E1, 8) == 0x11E3376B;
    assert ShiftBits(0xCCEC1688, 8) == 0x08E38FA1;
    assert ShiftBits(0x69AD84F6, 8) == 0xD5A62519;
    assert ShiftBits(0x83834485, 8) == 0xB784AC20;
    assert ShiftBits(0x26C2D6FB, 8) == 0x6AC10698;
  }

  lemma O56AdvancesOnRow11(b: bv8)
    requires b >> 4 == 11
    ensures O56(b) == ShiftBits(O48(b), 8)
  {
    assert ShiftBits(0x1AC1F1DD, 8) == 0x6CE16C89;
    assert ShiftBits(0xBF8063A3, 8) == 0xB1A4C631;
    assert ShiftBits(0x55AEA3D0, 8) == 0xD3864F08;
    assert ShiftBits(0xF0EF31AE, 8) == 0x0EC3E5B0;
    assert ShiftBits(0x841F55C7, 8) == 0x17C35D7A;
    assert ShiftBits(0x215EC7B9, 8) == 0xCA86F7C2;
    assert ShiftBits(0xCB7007CA, 8) == 0xA8A47EFB;
    assert ShiftBits(0x6E3195B4, 8) == 0x75E1D443;
    assert ShiftBits(0x2290CF18, 8) == 0x9AA50F6F;
    assert ShiftBits(0x87D15D66, 8) == 0x47E0A5D7;
    assert ShiftBits(0x6DFF9D15, 8) == 0x25C22CEE;
    assert ShiftBits(0xC8BE0F6B, 8) == 0xF8878656;
    assert ShiftBits(0xBC4E6B02, 8) == 0xE1873E9C;
    assert ShiftBits(0x190FF97C, 8) == 0x3CC29424;
    assert ShiftBits(0xF321390F, 8) == 0x5EE01D1D;
    assert ShiftBits(0x5660AB71, 8) == 0x83A5B7A5;
  }

  lemma O56AdvancesOnRow12(b: bv8)
    requires b >> 4 == 12
    ensures O56(b) == ShiftBits(O48(b), 8)
  {
    assert ShiftBits(0x4C42F79A, 8) == 0xF90696D8;
    assert ShiftBits(0xE90365E4, 8) == 0x24433C60;
    assert ShiftBits(0x032DA597, 8) == 0x4661B559;
    assert ShiftBits(0xA66C37E9, 8) == 0x9B241FE1;
    assert ShiftBits(0xD29C5380, 8) == 0x8224A72B;
    assert ShiftBits(0x77DDC1FE, 8) == 0x5F610D93;
    assert ShiftBits(0x9DF3018D, 8) == 0x3D4384AA;
    assert ShiftBits(0x38B293F3, 8) == 0xE0062E12;
    assert ShiftBits(0x7413C95F, 8) == 0x0F42F53E;
    assert ShiftBits(0xD1525B21, 8) == 0xD2075F86;
    assert ShiftBits(0x3B7C9B52, 8) == 0xB025D6BF;
    assert ShiftBits(0x9E3D092C, 8) == 0x6D607C07;
    assert ShiftBits(0xEACD6D45, 8) == 0x7460C4CD;
    assert ShiftBits(0x4F8CFF3B, 8) == 0xA9256E75;
    assert ShiftBits(0xA5A23F48, 8) == 0xCB07E74C;
    assert ShiftBits(0x00E3AD36, 8) == 0x16424DF4;
  }

  lemma O56AdvancesOnRow13(b: bv8)
    requires b >> 4 == 13
    ensures O56(b) == ShiftBits(O48(b), 8)
  {
    assert ShiftBits(0x3CE08A10, 8) == 0x106227E5;
    assert ShiftBits(0x99A1186E, 8) == 0xCD278D5D;
    assert ShiftBits(0x738FD81D, 8) == 0xAF050464;
    assert ShiftBits(0xD6CE4A63, 8) == 0x7240AEDC;
    assert ShiftBits(0xA23E2E0A, 8) == 0x6B401616;
    assert ShiftBits(0x077FBC74, 8) == 0xB605BCAE;
    assert ShiftBits(0xED517C07, 8) == 0xD4273597;
    assert ShiftBits(0x4810EE79, 8) == 0x09629F2F;
    assert ShiftBits(0x04B1B4D5, 8) == 0xE6264403;
    assert ShiftBits(0xA1F026AB, 8) == 0x3B63EEBB;
    assert ShiftBits(0x4BDEE6D8, 8) == 0x59416782;
    assert ShiftBits(0xEE9F74A6, 8) == 0x8404CD3A;
    assert ShiftBits(0x9A6F10CF, 8) == 0x9D0475F0;
    assert ShiftBits(0x3F2E82B1, 8) == 0x4041DF48;
    assert ShiftBits(0xD50042C2, 8) == 0x22635671;
    assert ShiftBits(0x7041D0BC, 8) == 0xFF26FCC9;
  }

  lemma O56AdvancesOnRow14(b: bv8)
    requires b >> 4 == 14
    ensures O56(b) == ShiftBits(O48(b), 8)
  {
    assert ShiftBits(0xAD060C8E, 8) == 0x2E238253;
    assert ShiftBits(0x08479EF0, 8) == 0xF36628EB;
    assert ShiftBits(0xE2695E83, 8) == 0x9144A1D2;
    assert ShiftBits(0x4728CCFD, 8) == 0x4C010B6A;
    assert ShiftBits(0x33D8A894, 8) == 0x5501B3A0;
    assert ShiftBits(0x96993AEA, 8) == 0x88441918;
    assert ShiftBits(0x7CB7FA99, 8) == 0xEA669021;
    assert ShiftBits(0xD9F668E7, 8) == 0x37233A99;
    assert ShiftBits(0x9557324B, 8) == 0xD867E1B5;
    assert ShiftBits(0x3016A035, 8) == 0x05224B0D;
    assert ShiftBits(0xDA386046, 8) == 0x6700C234;
    assert ShiftBits(0x7F79F238, 8) == 0xBA45688C;
    assert ShiftBits(0x0B899651, 8) == 0xA345D046;
    assert ShiftBits(0xAEC8042F, 8) == 0x7E007AFE;
    assert ShiftBits(0x44E6C45C, 8) == 0x1C22F3C7;
    assert ShiftBits(0xE1A75622, 8) == 0xC167597F;
  }

  lemma O56AdvancesOnRow15(b: bv8)
    requires b >> 4 == 15
    ensures O56(b) == ShiftBits(O48(b), 8)
  {
    assert ShiftBits(0xDDA47104, 8) == 0xC747336E;
    assert ShiftBits(0x78E5E37A, 8) == 0x1A0299D6;
    assert ShiftBits(0x92CB2309, 8) == 0x782010EF;
    assert ShiftBits(0x378AB177, 8) == 0xA565BA57;
    assert ShiftBits(0x437AD51E, 8) == 0xBC65029D;
    assert ShiftBits(0xE63B4760, 8) == 0x6120A825;
    assert ShiftBits(0x0C158713, 8) == 0x0302211C;
    assert ShiftBits(0xA954156D, 8) == 0xDE478BA4;
    assert ShiftBits(0xE5F54FC1, 8) == 0x31035088;
    assert ShiftBits(0x40B4DDBF, 8) == 0xEC46FA30;
    assert ShiftBits(0xAA9A1DCC, 8) == 0x8E647309;
    assert ShiftBits(0x0FDB8FB2, 8) == 0x5321D9B1;
    assert ShiftBits(0x7B2BEBDB, 8) == 0x4A21617B;
    assert ShiftBits(0xDE6A79A5, 8) == 0x9764CBC3;
    assert ShiftBits(0x3444B9D6, 8) == 0xF54642FA;
    assert ShiftBits(0x91052BA8, 8) == 0x2803E842;
  }

  lemma O64AdvancesOnRow0(b: bv8)
    requires b >> 4 == 0
    ensures O64(b) == ShiftBits(O56(b), 8)
  {
    assert ShiftBits(0x00000000, 8) == 0x00000000;
    assert ShiftBits(0xDD45AAB8, 8) == 0x38116FAC;
    assert ShiftBits(0xBF672381, 8) == 0x7022DF58;
    assert ShiftBits(0x62228939, 8) == 0x4833B0F4;
    assert ShiftBits(0x7B2231F3, 8) == 0xE045BEB0;
    assert ShiftBits(0xA6679B4B, 8) == 0xD854D11C;
    assert ShiftBits(0xC4451272, 8) == 0x906761E8;
    assert ShiftBits(0x1900B8CA, 8) == 0xA8760E44;
    assert ShiftBits(0xF64463E6, 8) == 0xC5670B91;
    assert ShiftBits(0x2B01C95E, 8) == 0xFD76643D;
    assert ShiftBits(0x49234067, 8) == 0xB545D4C9;
    assert ShiftBits(0x9466EADF, 8) == 0x8D54BB65;
    assert ShiftBits(0x8D665215, 8) == 0x2522B521;
    assert ShiftBits(0x5023F8AD, 8) == 0x1D33DA8D;
    assert ShiftBits(0x32017194, 8) == 0x55006A79;
    assert ShiftBits(0xEF44DB2C, 8) == 0x6D1105D5;
  }

  lemma O64AdvancesOnRow1(b: bv8)
    requires b >> 4 == 1
    ensures O64(b) == ShiftBits(O56(b), 8)
  {
    assert ShiftBits(0xE964B13D, 8) == 0x8F2261D3;
    assert ShiftBits(0x34211B85, 8) == 0xB7330E7F;
    assert ShiftBits(0x560392BC, 8) == 0xFF00BE8B;
    assert ShiftBits(0x8B463804, 8) == 0xC711D127;
    assert ShiftBits(0x924680CE, 8) == 0x6F67DF63;
    assert ShiftBits(0x4F032A76, 8) == 0x5776B0CF;
    assert ShiftBits(0x2D21A34F, 8) == 0x1F45003B;
    assert ShiftBits(0xF06409F7, 8) == 0x27546F97;
    assert ShiftBits(0x1F20D2DB, 8) == 0x4A456A42;
    assert ShiftBits(0xC2657863, 8) == 0x725405EE;
    assert ShiftBits(0xA047F15A, 8) == 0x3A67B51A;
    assert ShiftBits(0x7D025BE2, 8) == 0x0276DAB6;
    assert ShiftBits(0x6402E328, 8) == 0xAA00D4F2;
    assert ShiftBits(0xB9474990, 8) == 0x9211BB5E;
    assert ShiftBits(0xDB65C0A9, 8) == 0xDA220BAA;
    assert ShiftBits(0x06206A11, 8) == 0xE2336406;
  }

  lemma O64AdvancesOnRow2(b: bv8)
    requires b >> 4 == 2
    ensures O64(b) == ShiftBits(O56(b), 8)
  {
    assert ShiftBits(0xD725148B, 8) == 0x1BA8B557;
    assert ShiftBits(0x0A60BE33, 8) == 0x23B9DAFB;
    assert ShiftBits(0x6842370A, 8) == 0x6B8A6A0F;
    assert ShiftBits(0xB5079DB2, 8) == 0x539B05A3;
    assert ShiftBits(0xAC072578, 8) == 0xFBED0BE7;
    assert ShiftBits(0x71428FC0, 8) == 0xC3FC644B;
    assert ShiftBits(0x136006F9, 8) == 0x8BCFD4BF;
    assert ShiftBits(0xCE25AC41, 8) == 0xB3DEBB13;
    assert ShiftBits(0x2161776D, 8) == 0xDECFBEC6;
    assert ShiftBits(0xFC24DDD5, 8) == 0xE6DED16A;
    assert ShiftBits(0x9E0654EC, 8) == 0xAEED619E;
    assert ShiftBits(0x4343FE54, 8) == 0x96FC0E32;
    assert ShiftBits(0x5A43469E, 8) == 0x3E8A0076;
    assert ShiftBits(0x8706EC26, 8) == 0x069B6FDA;
    assert ShiftBits(0xE524651F, 8) == 0x4EA8DF2E;
    assert ShiftBits(0x3861CFA7, 8) == 0x76B9B082;
  }

  lemma O64AdvancesOnRow3(b: bv8)
    requires b >> 4 == 3
    ensures O64(b) == ShiftBits(O56(b), 8)
  {
    assert ShiftBits(0x3E41A5B6, 8) == 0x948AD484;
    assert ShiftBits(0xE3040F0E, 8) == 0xAC9BBB28;
    assert ShiftBits(0x81268637, 8) == 0xE4A80BDC;
    assert ShiftBits(0x5C632C8F, 8) == 0xDCB96470;
    assert ShiftBits(0x45639445, 8) == 0x74CF6A34;
    assert ShiftBits(0x98263EFD, 8) == 0x4CDE0598;
    assert ShiftBits(0xFA04B7C4, 8) == 0x04EDB56C;
    assert ShiftBits(0x27411D7C, 8) == 0x3CFCDAC0;
    assert ShiftBits(0xC805C650, 8) == 0x51EDDF15;
    assert ShiftBits(0x15406CE8, 8) == 0x69FCB0B9;
    assert ShiftBits(0x7762E5D1, 8) == 0x21CF004D;
    assert ShiftBits(0xAA274F69, 8) == 0x19DE6FE1;
    assert ShiftBits(0xB327F7A3, 8) == 0xB1A861A5;
    assert ShiftBits(0x6E625D1B, 8) == 0x89B90E09;
    assert ShiftBits(0x0C40D422, 8) == 0xC18ABEFD;
    assert ShiftBits(0xD1057E9A, 8) == 0xF99BD151;
  }

  lemma O64AdvancesOnRow4(b: bv8)
    requires b >> 4 == 4
    ensures O64(b) == ShiftBits(O56(b), 8)
  {
    assert ShiftBits(0xABA65FE7, 8) == 0x37516AAE;
    assert ShiftBits(0x76E3F55F, 8) == 0x0F400502;
    assert ShiftBits(0x14C17C66, 8) == 0x4773B5F6;
    assert ShiftBits(0xC984D6DE, 8) == 0x7F62DA5A;
    assert ShiftBits(0xD0846E14, 8) == 0xD714D41E;
    assert ShiftBits(0x0DC1C4AC, 8) == 0xEF05BBB2;
    assert ShiftBits(0x6FE34D95, 8) == 0xA7360B46;
    assert ShiftBits(0xB2A6E72D, 8) == 0x9F2764EA;
    assert ShiftBits(0x5DE23C01, 8) == 0xF236613F;
    assert ShiftBits(0x80A796B9, 8) == 0xCA270E93;
    assert ShiftBits(0xE2851F80, 8) == 0x8214BE67;
    assert ShiftBits(0x3FC0B538, 8) == 0xBA05D1CB;
    assert ShiftBits(0x26C00DF2, 8) == 0x1273DF8F;
    assert ShiftBits(0xFB85A74A, 8) == 0x2A62B023;
    assert ShiftBits(0x99A72E73, 8) == 0x625100D7;
    assert ShiftBits(0x44E284CB, 8) == 0x5A406F7B;
  }

  lemma O64AdvancesOnRow5(b: bv8)
    requires b >> 4 == 5
    ensures O64(b) == ShiftBits(O56(b), 8)
  {
    assert ShiftBits(0x42C2EEDA, 8) == 0xB8730B7D;
    assert ShiftBits(0x9F874462, 8) == 0x806264D1;
    assert ShiftBits(0xFDA5CD5B, 8) == 0xC851D425;
    assert ShiftBits(0x20E067E3, 8) == 0xF040BB89;
    assert ShiftBits(0x39E0DF29, 8) == 0x5836B5CD;
    assert ShiftBits(0xE4A57591, 8) == 0x6027DA61;
    assert ShiftBits(0x8687FCA8, 8) == 0x28146A95;
    assert ShiftBits(0x5BC25610, 8) == 0x10050539;
    assert ShiftBits(0xB4868D3C, 8) == 0x7D1400EC;
    assert ShiftBits(0x69C32784, 8) == 0x45056F40;
    assert ShiftBits(0x0BE1AEBD, 8) == 0x0D36DFB4;
    assert ShiftBits(0xD6A40405, 8) == 0x3527B018;
    assert ShiftBits(0xCFA4BCCF, 8) == 0x9D51BE5C;
    assert ShiftBits(0x12E11677, 8) == 0xA540D1F0;
    assert ShiftBits(0x70C39F4E, 8) == 0xED736104;
    assert ShiftBits(0xAD8635F6, 8) == 0xD5620EA8;
  }

  lemma O64AdvancesOnRow6(b: bv8)
    requires b >> 4 == 6
    ensures O64(b) == ShiftBits(O56(b), 8)
  {
    assert ShiftBits(0x7C834B6C, 8) == 0x2CF9DFF9;
    assert ShiftBits(0xA1C6E1D4, 8) == 0x14E8B055;
    assert ShiftBits(0xC3E468ED, 8) == 0x5CDB00A1;
    assert ShiftBits(0x1EA1C255, 8) == 0x64CA6F0D;
    assert ShiftBits(0x07A17A9F, 8) == 0xCCBC6149;
    assert ShiftBits(0xDAE4D027, 8) == 0xF4AD0EE5;
    assert ShiftBits(0xB8C6591E, 8) == 0xBC9EBE11;
    assert ShiftBits(0x6583F3A6, 8) == 0x848FD1BD;
    assert ShiftBits(0x8AC7288A, 8) == 0xE99ED468;
    assert ShiftBits(0x57828232, 8) == 0xD18FBBC4;
    assert ShiftBits(0x35A00B0B, 8) == 0x99BC0B30;
    assert ShiftBits(0xE8E5A1B3, 8) == 0xA1AD649C;
    assert ShiftBits(0xF1E51979, 8) == 0x09DB6AD8;
    assert ShiftBits(0x2CA0B3C1, 8) == 0x31CA0574;
    assert ShiftBits(0x4E823AF8, 8) == 0x79F9B580;
    assert ShiftBits(0x93C79040, 8) == 0x41E8DA2C;
  }

  lemma O64AdvancesOnRow7(b: bv8)
    requires b >> 4 == 7
    ensures O64(b) == ShiftBits(O56(b), 8)
  {
    assert ShiftBits(0x95E7FA51, 8) == 0xA3DBBE2A;
    assert ShiftBits(0x48A250E9, 8) == 0x9BCAD186;
    assert ShiftBits(0x2A80D9D0, 8) == 0xD3F96172;
    assert ShiftBits(0xF7C57368, 8) == 0xEBE80EDE;
    assert ShiftBits(0xEEC5CBA2, 8) == 0x439E009A;
    assert ShiftBits(0x3380611A, 8) == 0x7B8F6F36;
    assert ShiftBits(0x51A2E823, 8) == 0x33BCDFC2;
    assert ShiftBits(0x8CE7429B, 8) == 0x0BADB06E;
    assert ShiftBits(0x63A399B7, 8) == 0x66BCB5BB;
    assert ShiftBits(0xBEE6330F, 8) == 0x5EADDA17;
    assert ShiftBits(0xDCC4BA36, 8) == 0x169E6AE3;
    assert ShiftBits(0x0181108E, 8) == 0x2E8F054F;
    assert ShiftBits(0x1881A844, 8) == 0x86F90B0B;
    assert ShiftBits(0xC5C402FC, 8) == 0xBEE864A7;
    assert ShiftBits(0xA7E68BC5, 8) == 0xF6DBD453;
    assert ShiftBits(0x7AA3217D, 8) == 0xCECABBFF;
  }

  lemma O64AdvancesOnRow8(b: bv8)
    requires b >> 4 == 8
    ensures O64(b) == ShiftBits(O56(b), 8)
  {
    assert ShiftBits(0x52A0C93F, 8) == 0x6EA2D55C;
    assert ShiftBits(0x8FE56387, 8) == 0x56B3BAF0;
    assert ShiftBits(0xEDC7EABE, 8) == 0x1E800A04;
    assert ShiftBits(0x30824006, 8) == 0x269165A8;
    assert ShiftBits(0x2982F8CC, 8) == 0x8EE76BEC;
    assert ShiftBits(0xF4C75274, 8) == 0xB6F60440;
    assert ShiftBits(0x96E5DB4D, 8) == 0xFEC5B4B4;
    assert ShiftBits(0x4BA071F5, 8) == 0xC6D4DB18;
    assert ShiftBits(0xA4E4AAD9, 8) == 0xABC5DECD;
    assert ShiftBits(0x79A10061, 8) == 0x93D4B161;
    assert ShiftBits(0x1B838958, 8) == 0xDBE70195;
    assert ShiftBits(0xC6C623E0, 8) == 0xE3F66E39;
    assert ShiftBits(0xDFC69B2A, 8) == 0x4B80607D;
    assert ShiftBits(0x02833192, 8) == 0x73910FD1;
    assert ShiftBits(0x60A1B8AB, 8) == 0x3BA2BF25;
    assert ShiftBits(0xBDE41213, 8) == 0x03B3D089;
  }

  lemma O64AdvancesOnRow9(b: bv8)
    requires b >> 4 == 9
    ensures O64(b) == ShiftBits(O56(b), 8)
  {
    assert ShiftBits(0xBBC47802, 8) == 0xE180B48F;
    assert ShiftBits(0x6681D2BA, 8) == 0xD991DB23;
    assert ShiftBits(0x04A35B83, 8) == 0x91A26BD7;
    assert ShiftBits(0xD9E6F13B, 8) == 0xA9B3047B;
    assert ShiftBits(0xC0E649F1, 8) == 0x01C50A3F;
    assert ShiftBits(0x1DA3E349, 8) == 0x39D46593;
    assert ShiftBits(0x7F816A70, 8) == 0x71E7D567;
    assert ShiftBits(0xA2C4C0C8, 8) == 0x49F6BACB;
    assert ShiftBits(0x4D801BE4, 8) == 0x24E7BF1E;
    assert ShiftBits(0x90C5B15C, 8) == 0x1CF6D0B2;
    assert ShiftBits(0xF2E73865, 8) == 0x54C56046;
    assert ShiftBits(0x2FA292DD, 8) == 0x6CD40FEA;
    assert ShiftBits(0x36A22A17, 8) == 0xC4A201AE;
    assert ShiftBits(0xEBE780AF, 8) == 0xFCB36E02;
    assert ShiftBits(0x89C50996, 8) == 0xB480DEF6;
    assert ShiftBits(0x5480A32E, 8) == 0x8C91B15A;
  }

  lemma O64AdvancesOnRow10(b: bv8)
    requires b >> 4 == 10
    ensures O64(b) == ShiftBits(O56(b), 8)
  {
    assert ShiftBits(0x8585DDB4, 8) == 0x750A600B;
    assert ShiftBits(0x58C0770C, 8) == 0x4D1B0FA7;
    assert ShiftBits(0x3AE2FE35, 8) == 0x0528BF53;
    assert ShiftBits(0xE7A7548D, 8) == 0x3D39D0FF;
    assert ShiftBits(0xFEA7EC47, 8) == 0x954FDEBB;
    assert ShiftBits(0x23E246FF, 8) == 0xAD5EB117;
    assert ShiftBits(0x41C0CFC6, 8) == 0xE56D01E3;
    assert ShiftBits(0x9C85657E, 8) == 0xDD7C6E4F;
    assert ShiftBits(0x73C1BE52, 8) == 0xB06D6B9A;
    assert ShiftBits(0xAE8414EA, 8) == 0x887C0436;
    assert ShiftBits(0xCCA69DD3, 8) == 0xC04FB4C2;
    assert ShiftBits(0x11E3376B, 8) == 0xF85EDB6E;
    assert ShiftBits(0x08E38FA1, 8) == 0x5028D52A;
    assert ShiftBits(0xD5A62519, 8) == 0x6839BA86;
    assert ShiftBits(0xB784AC20, 8) == 0x200A0A72;
    assert ShiftBits(0x6AC10698, 8) == 0x181B65DE;
  }

  lemma O64AdvancesOnRow11(b: bv8)
    requires b >> 4 == 11
    ensures O64(b) == ShiftBits(O56(b), 8)
  {
    assert ShiftBits(0x6CE16C89, 8) == 0xFA2801D8;
    assert ShiftBits(0xB1A4C631, 8) == 0xC2396E74;
    assert ShiftBits(0xD3864F08, 8) == 0x8A0ADE80;
    assert ShiftBits(0x0EC3E5B0, 8) == 0xB21BB12C;
    assert ShiftBits(0x17C35D7A, 8) == 0x1A6DBF68;
    assert ShiftBits(0xCA86F7C2, 8) == 0x227CD0C4;
    assert ShiftBits(0xA8A47EFB, 8) == 0x6A4F6030;
    assert ShiftBits(0x75E1D443, 8) == 0x525E0F9C;
    assert ShiftBits(0x9AA50F6F, 8) == 0x3F4F0A49;
    assert ShiftBits(0x47E0A5D7, 8) == 0x075E65E5;
    assert ShiftBits(0x25C22CEE, 8) == 0x4F6DD511;
    assert ShiftBits(0xF8878656, 8) == 0x777CBABD;
    assert ShiftBits(0xE1873E9C, 8) == 0xDF0AB4F9;
    assert ShiftBits(0x3CC29424, 8) == 0xE71BDB55;
    assert ShiftBits(0x5EE01D1D, 8) == 0xAF286BA1;
    assert ShiftBits(0x83A5B7A5, 8) == 0x9739040D;
  }

  lemma O64AdvancesOnRow12(b: bv8)
    requires b >> 4 == 12
    ensures O64(b) == ShiftBits(O56(b), 8)
  {
    assert ShiftBits(0xF90696D8, 8) == 0x59F3BFF2;
    assert ShiftBits(0x24433C60, 8) == 0x61E2D05E;
    assert ShiftBits(0x4661B559, 8) == 0x29D160AA;
    assert ShiftBits(0x9B241FE1, 8) == 0x11C00F06;
    assert ShiftBits(0x8224A72B, 8) == 0xB9B60142;
    assert ShiftBits(0x5F610D93, 8) == 0x81A76EEE;
    assert ShiftBits(0x3D4384AA, 8) == 0xC994DE1A;
    assert ShiftBits(0xE0062E12, 8) == 0xF185B1B6;
    assert ShiftBits(0x0F42F53E, 8) == 0x9C94B463;
    assert ShiftBits(0xD2075F86, 8) == 0xA485DBCF;
    assert ShiftBits(0xB025D6BF, 8) == 0xECB66B3B;
    assert ShiftBits(0x6D607C07, 8) == 0xD4A70497;
    assert ShiftBits(0x7460C4CD, 8) == 0x7CD10AD3;
    assert ShiftBits(0xA9256E75, 8) == 0x44C0657F;
    assert ShiftBits(0xCB07E74C, 8) == 0x0CF3D58B;
    assert ShiftBits(0x16424DF4, 8) == 0x34E2BA27;
  }

  lemma O64AdvancesOnRow13(b: bv8)
    requires b >> 4 == 13
    ensures O64(b) == ShiftBits(O56(b), 8)
  {
    assert ShiftBits(0x106227E5, 8) == 0xD6D1DE21;
    assert ShiftBits(0xCD278D5D, 8) == 0xEEC0B18D;
    assert ShiftBits(0xAF050464, 8) == 0xA6F30179;
    assert ShiftBits(0x7240AEDC, 8) == 0x9EE26ED5;
    assert ShiftBits(0x6B401616, 8) == 0x36946091;
    assert ShiftBits(0xB605BCAE, 8) == 0x0E850F3D;
    assert ShiftBits(0xD4273597, 8) == 0x46B6BFC9;
    assert ShiftBits(0x09629F2F, 8) == 0x7EA7D065;
    assert ShiftBits(0xE6264403, 8) == 0x13B6D5B0;
    assert ShiftBits(0x3B63EEBB, 8) == 0x2BA7BA1C;
    assert ShiftBits(0x59416782, 8) == 0x63940AE8;
    assert ShiftBits(0x8404CD3A, 8) == 0x5B856544;
    assert ShiftBits(0x9D0475F0, 8) == 0xF3F36B00;
    assert ShiftBits(0x4041DF48, 8) == 0xCBE204AC;
    assert ShiftBits(0x22635671, 8) == 0x83D1B458;
    assert ShiftBits(0xFF26FCC9, 8) == 0xBBC0DBF4;
  }

  lemma O64AdvancesOnRow14(b: bv8)
    requires b >> 4 == 14
    ensures O64(b) == ShiftBits(O56(b), 8)
  {
    assert ShiftBits(0x2E238253, 8) == 0x425B0AA5;
    assert ShiftBits(0xF36628EB, 8) == 0x7A4A6509;
    assert ShiftBits(0x9144A1D2, 8) == 0x3279D5FD;
    assert ShiftBits(0x4C010B6A, 8) == 0x0A68BA51;
    assert ShiftBits(0x5501B3A0, 8) == 0xA21EB415;
    assert ShiftBits(0x88441918, 8) == 0x9A0FDBB9;
    assert ShiftBits(0xEA669021, 8) == 0xD23C6B4D;
    assert ShiftBits(0x37233A99, 8) == 0xEA2D04E1;
    assert ShiftBits(0xD867E1B5, 8) == 0x873C0134;
    assert ShiftBits(0x05224B0D, 8) == 0xBF2D6E98;
    assert ShiftBits(0x6700C234, 8) == 0xF71EDE6C;
    assert ShiftBits(0xBA45688C, 8) == 0xCF0FB1C0;
    assert ShiftBits(0xA345D046, 8) == 0x6779BF84;
    assert ShiftBits(0x7E007AFE, 8) == 0x5F68D028;
    assert ShiftBits(0x1C22F3C7, 8) == 0x175B60DC;
    assert ShiftBits(0xC167597F, 8) == 0x2F4A0F70;
  }

  lemma O64AdvancesOnRow15(b: bv8)
    requires b >> 4 == 15
    ensures O64(b) == ShiftBits(O56(b), 8)
  {
    assert ShiftBits(0xC747336E, 8) == 0xCD796B76;
    assert ShiftBits(0x1A0299D6, 8) == 0xF56804DA;
    assert ShiftBits(0x782010EF, 8) == 0xBD5BB42E;
    assert ShiftBits(0xA565BA57, 8) == 0x854ADB82;
    assert ShiftBits(0xBC65029D, 8) == 0x2D3CD5C6;
    assert ShiftBits(0x6120A825, 8) == 0x152DBA6A;
    assert ShiftBits(0x0302211C, 8) == 0x5D1E0A9E;
    assert ShiftBits(0xDE478BA4, 8) == 0x650F6532;
    assert ShiftBits(0x31035088, 8) == 0x081E60E7;
    assert ShiftBits(0xEC46FA30, 8) == 0x300F0F4B;
    assert ShiftBits(0x8E647309, 8) == 0x783CBFBF;
    assert ShiftBits(0x5321D9B1, 8) == 0x402DD013;
    assert ShiftBits(0x4A21617B, 8) == 0xE85BDE57;
    assert ShiftBits(0x9764CBC3, 8) == 0xD04AB1FB;
    assert ShiftBits(0xF54642FA, 8) == 0x9879010F;
    assert ShiftBits(0x2803E842, 8) == 0xA0686EA3;
  }

  lemma O72AdvancesOnRow0(b: bv8)
    requires b >> 4 == 0
    ensures O72(b) == ShiftBits(O64(b), 8)
  {
    assert ShiftBits(0x00000000, 8) == 0x00000000;
    assert ShiftBits(0x38116FAC, 8) == 0xEF306B19;
    assert ShiftBits(0x7022DF58, 8) == 0xDB8CA0C3;
    assert ShiftBits(0x4833B0F4, 8) == 0x34BCCBDA;
    assert ShiftBits(0xE045BEB0, 8) == 0xB2F53777;
    assert ShiftBits(0xD854D11C, 8) == 0x5DC55C6E;
    assert ShiftBits(0x906761E8, 8) == 0x697997B4;
    assert ShiftBits(0xA8760E44, 8) == 0x8649FCAD;
    assert ShiftBits(0xC5670B91, 8) == 0x6006181F;
    assert ShiftBits(0xFD76643D, 8) == 0x8F367306;
    assert ShiftBits(0xB545D4C9, 8) == 0xBB8AB8DC;
    assert ShiftBits(0x8D54BB65, 8) == 0x54BAD3C5;
    assert ShiftBits(0x2522B521, 8) == 0xD2F32F68;
    assert ShiftBits(0x1D33DA8D, 8) == 0x3DC34471;
    assert ShiftBits(0x55006A79, 8) == 0x097F8FAB;
    assert ShiftBits(0x6D1105D5, 8) == 0xE64FE4B2;
  }

  lemma O72AdvancesOnRow1(b: bv8)
    requires b >> 4 == 1
    ensures O72(b) == ShiftBits(O64(b), 8)
  {
    assert ShiftBits(0x8F2261D3, 8) == 0xC00C303E;
    assert ShiftBits(0xB7330E7F, 8) == 0x2F3C5B27;
    assert ShiftBits(0xFF00BE8B, 8) == 0x1B8090FD;
    assert ShiftBits(0xC711D127, 8) == 0xF4B0FBE4;
    assert ShiftBits(0x6F67DF63, 8) == 0x72F90749;
    assert ShiftBits(0x5776B0CF, 8) == 0x9DC96C50;
    assert ShiftBits(0x1F45003B, 8) == 0xA975A78A;
    assert ShiftBits(0x27546F97, 8) == 0x4645CC93;
    assert ShiftBits(0x4A456A42, 8) == 0xA00A2821;
    assert ShiftBits(0x725405EE, 8) == 0x4F3A4338;
    assert ShiftBits(0x3A67B51A, 8) == 0x7B8688E2;
    assert ShiftBits(0x0276DAB6, 8) == 0x94B6E3FB;
    assert ShiftBits(0xAA00D4F2, 8) == 0x12FF1F56;
    assert ShiftBits(0x9211BB5E, 8) == 0xFDCF744F;
    assert ShiftBits(0xDA220BAA, 8) == 0xC973BF95;
    assert ShiftBits(0xE2336406, 8) == 0x2643D48C;
  }

  lemma O72AdvancesOnRow2(b: bv8)
    requires b >> 4 == 2
    ensures O72(b) == ShiftBits(O64(b), 8)
  {
    assert ShiftBits(0x1BA8B557, 8) == 0x85F4168D;
    assert ShiftBits(0x23B9DAFB, 8) == 0x6AC47D94;
    assert ShiftBits(0x6B8A6A0F, 8) == 0x5E78B64E;
    assert ShiftBits(0x539B05A3, 8) == 0xB148DD57;
    assert ShiftBits(0xFBED0BE7, 8) == 0x370121FA;
    assert ShiftBits(0xC3FC644B, 8) == 0xD8314AE3;
    assert ShiftBits(0x8BCFD4BF, 8) == 0xEC8D8139;
    assert ShiftBits(0xB3DEBB13, 8) == 0x03BDEA20;
    assert ShiftBits(0xDECFBEC6, 8) == 0xE5F20E92;
    assert ShiftBits(0xE6DED16A, 8) == 0x0AC2658B;
    assert ShiftBits(0xAEED619E, 8) == 0x3E7EAE51;
    assert ShiftBits(0x96FC0E32, 8) == 0xD14EC548;
    assert ShiftBits(0x3E8A0076, 8) == 0x570739E5;
    assert ShiftBits(0x069B6FDA, 8) == 0xB83752FC;
    assert ShiftBits(0x4EA8DF2E, 8) == 0x8C8B9926;
    assert ShiftBits(0x76B9B082, 8) == 0x63BBF23F;
  }

  lemma O72AdvancesOnRow3(b: bv8)
    requires b >> 4 == 3
    ensures O72(b) == ShiftBits(O64(b), 8)
  {
    assert ShiftBits(0x948AD484, 8) == 0x45F826B3;
    assert ShiftBits(0xAC9BBB28, 8) == 0xAAC84DAA;
    assert ShiftBits(0xE4A80BDC, 8) == 0x9E748670;
    assert ShiftBits(0xDCB96470, 8) == 0x7144ED69;
    assert ShiftBits(0x74CF6A34, 8) == 0xF70D11C4;
    assert ShiftBits(0x4CDE0598, 8) == 0x183D7ADD;
    assert ShiftBits(0x04EDB56C, 8) == 0x2C81B107;
    assert ShiftBits(0x3CFCDAC0, 8) == 0xC3B1DA1E;
    assert ShiftBits(0x51EDDF15, 8) == 0x25FE3EAC;
    assert ShiftBits(0x69FCB0B9, 8) == 0xCACE55B5;
    assert ShiftBits(0x21CF004D, 8) == 0xFE729E6F;
    assert ShiftBits(0x19DE6FE1, 8) == 0x1142F576;
    assert ShiftBits(0xB1A861A5, 8) == 0x970B09DB;
    assert ShiftBits(0x89B90E09, 8) == 0x783B62C2;
    assert ShiftBits(0xC18ABEFD, 8) == 0x4C87A918;
    assert ShiftBits(0xF99BD151, 8) == 0xA3B7C201;
  }

  lemma O72AdvancesOnRow4(b: bv8)
    requires b >> 4 == 4
    ensures O72(b) == ShiftBits(O64(b), 8)
  {
    assert ShiftBits(0x37516AAE, 8) == 0x0E045BEB;
    assert ShiftBits(0x0F400502, 8) == 0xE13430F2;
    assert ShiftBits(0x4773B5F6, 8) == 0xD588FB28;
    assert ShiftBits(0x7F62DA5A, 8) == 0x3AB89031;
    assert ShiftBits(0xD714D41E, 8) == 0xBCF16C9C;
    assert ShiftBits(0xEF05BBB2, 8) == 0x53C10785;
    assert ShiftBits(0xA7360B46, 8) == 0x677DCC5F;
    assert ShiftBits(0x9F2764EA, 8) == 0x884DA746;
    assert ShiftBits(0xF236613F, 8) == 0x6E0243F4;
    assert ShiftBits(0xCA270E93, 8) == 0x813228ED;
    assert ShiftBits(0x8214BE67, 8) == 0xB58EE337;
    assert ShiftBits(0xBA05D1CB, 8) == 0x5ABE882E;
    assert ShiftBits(0x1273DF8F, 8) == 0xDCF77483;
    assert ShiftBits(0x2A62B023, 8) == 0x33C71F9A;
    assert ShiftBits(0x625100D7, 8) == 0x077BD440;
    assert ShiftBits(0x5A406F7B, 8) == 0xE84BBF59;
  }

  lemma O72AdvancesOnRow5(b: bv8)
    requires b >> 4 == 5
    ensures O72(b) == ShiftBits(O64(b), 8)
  {
    assert ShiftBits(0xB8730B7D, 8) == 0xCE086BD5;
    assert ShiftBits(0x806264D1, 8) == 0x213800CC;
    assert ShiftBits(0xC851D425, 8) == 0x1584CB16;
    assert ShiftBits(0xF040BB89, 8) == 0xFAB4A00F;
    assert ShiftBits(0x5836B5CD, 8) == 0x7CFD5CA2;
    assert ShiftBits(0x6027DA61, 8) == 0x93CD37BB;
    assert ShiftBits(0x28146A95, 8) == 0xA771FC61;
    assert ShiftBits(0x10050539, 8) == 0x48419778;
    assert ShiftBits(0x7D1400EC, 8) == 0xAE0E73CA;
    assert ShiftBits(0x45056F40, 8) == 0x413E18D3;
    assert ShiftBits(0x0D36DFB4, 8) == 0x7582D309;
    assert ShiftBits(0x3527B018, 8) == 0x9AB2B810;
    assert ShiftBits(0x9D51BE5C, 8) == 0x1CFB44BD;
    assert ShiftBits(0xA540D1F0, 8) == 0xF3CB2FA4;
    assert ShiftBits(0xED736104, 8) == 0xC777E47E;
    assert ShiftBits(0xD5620EA8, 8) == 0x28478F67;
  }

  lemma O72AdvancesOnRow6(b: bv8)
    requires b >> 4 == 6
    ensures O72(b) == ShiftBits(O64(b), 8)
  {
    assert ShiftBits(0x2CF9DFF9, 8) == 0x8BF04D66;
    assert ShiftBits(0x14E8B055, 8) == 0x64C0267F;
    assert ShiftBits(0x5CDB00A1, 8) == 0x507CEDA5;
    assert ShiftBits(0x64CA6F0D, 8) == 0xBF4C86BC;
    assert ShiftBits(0xCCBC6149, 8) == 0x39057A11;
    assert ShiftBits(0xF4AD0EE5, 8) == 0xD6351108;
    assert ShiftBits(0xBC9EBE11, 8) == 0xE289DAD2;
    assert ShiftBits(0x848FD1BD, 8) == 0x0DB9B1CB;
    assert ShiftBits(0xE99ED468, 8) == 0xEBF65579;
    assert ShiftBits(0xD18FBBC4, 8) == 0x04C63E60;
    assert ShiftBits(0x99BC0B30, 8) == 0x307AF5BA;
    assert ShiftBits(0xA1AD649C, 8) == 0xDF4A9EA3;
    assert ShiftBits(0x09DB6AD8, 8) == 0x5903620E;
    assert ShiftBits(0x31CA0574, 8) == 0xB6330917;
    assert ShiftBits(0x79F9B580, 8) == 0x828FC2CD;
    assert ShiftBits(0x41E8DA2C, 8) == 0x6DBFA9D4;
  }

  lemma O72AdvancesOnRow7(b: bv8)
    requires b >> 4 == 7
    ensures O72(b) == ShiftBits(O64(b), 8)
  {
    assert ShiftBits(0xA3DBBE2A, 8) == 0x4BFC7D58;
    assert ShiftBits(0x9BCAD186, 8) == 0xA4CC1641;
    assert ShiftBits(0xD3F96172, 8) == 0x9070DD9B;
    assert ShiftBits(0xEBE80EDE, 8) == 0x7F40B682;
    assert ShiftBits(0x439E009A, 8) == 0xF9094A2F;
    assert ShiftBits(0x7B8F6F36, 8) == 0x16392136;
    assert ShiftBits(0x33BCDFC2, 8) == 0x2285EAEC;
    assert ShiftBits(0x0BADB06E, 8) == 0xCDB581F5;
    assert ShiftBits(0x66BCB5BB, 8) == 0x2BFA6547;
    assert ShiftBits(0x5EADDA17, 8) == 0xC4CA0E5E;
    assert ShiftBits(0x169E6AE3, 8) == 0xF076C584;
    assert ShiftBits(0x2E8F054F, 8) == 0x1F46AE9D;
    assert ShiftBits(0x86F90B0B, 8) == 0x990F5230;
    assert ShiftBits(0xBEE864A7, 8) == 0x763F3929;
    assert ShiftBits(0xF6DBD453, 8) == 0x4283F2F3;
    assert ShiftBits(0xCECABBFF, 8) == 0xADB399EA;
  }

  lemma O72AdvancesOnRow8(b: bv8)
    requires b >> 4 == 8
    ensures O72(b) == ShiftBits(O64(b), 8)
  {
    assert ShiftBits(0x6EA2D55C, 8) == 0x1C08B7D6;
    assert ShiftBits(0x56B3BAF0, 8) == 0xF338DCCF;
    assert ShiftBits(0x1E800A04, 8) == 0xC7841715;
    assert ShiftBits(0x269165A8, 8) == 0x28B47C0C;
    assert ShiftBits(0x8EE76BEC, 8) == 0xAEFD80A1;
    assert ShiftBits(0xB6F60440, 8) == 0x41CDEBB8;
    assert ShiftBits(0xFEC5B4B4, 8) == 0x75712062;
    assert ShiftBits(0xC6D4DB18, 8) == 0x9A414B7B;
    assert ShiftBits(0xABC5DECD, 8) == 0x7C0EAFC9;
    assert ShiftBits(0x93D4B161, 8) == 0x933EC4D0;
    assert ShiftBits(0xDBE70195, 8) == 0xA7820F0A;
    assert ShiftBits(0xE3F66E39, 8) == 0x48B26413;
    assert ShiftBits(0x4B80607D, 8) == 0xCEFB98BE;
    assert ShiftBits(0x73910FD1, 8) == 0x21CBF3A7;
    assert ShiftBits(0x3BA2BF25, 8) == 0x1577387D;
    assert ShiftBits(0x03B3D089, 8) == 0xFA475364;
  }

  lemma O72AdvancesOnRow9(b: bv8)
    requires b >> 4 == 9
    ensures O72(b) == ShiftBits(O64(b), 8)
  {
    assert ShiftBits(0xE180B48F, 8) == 0xDC0487E8;
    assert ShiftBits(0xD991DB23, 8) == 0x3334ECF1;
    assert ShiftBits(0x91A26BD7, 8) == 0x0788272B;
    assert ShiftBits(0xA9B3047B, 8) == 0xE8B84C32;
    assert ShiftBits(0x01C50A3F, 8) == 0x6EF1B09F;
    assert ShiftBits(0x39D46593, 8) == 0x81C1DB86;
    assert ShiftBits(0x71E7D567, 8) == 0xB57D105C;
    assert ShiftBits(0x49F6BACB, 8) == 0x5A4D7B45;
    assert ShiftBits(0x24E7BF1E, 8) == 0xBC029FF7;
    assert ShiftBits(0x1CF6D0B2, 8) == 0x5332F4EE;
    assert ShiftBits(0x54C56046, 8) == 0x678E3F34;
    assert ShiftBits(0x6CD40FEA, 8) == 0x88BE542D;
    assert ShiftBits(0xC4A201AE, 8) == 0x0EF7A880;
    assert ShiftBits(0xFCB36E02, 8) == 0xE1C7C399;
    assert ShiftBits(0xB480DEF6, 8) == 0xD57B0843;
    assert ShiftBits(0x8C91B15A, 8) == 0x3A4B635A;
  }

  lemma O72AdvancesOnRow10(b: bv8)
    requires b >> 4 == 10
    ensures O72(b) == ShiftBits(O64(b), 8)
  {
    assert ShiftBits(0x750A600B, 8) == 0x99FCA15B;
    assert ShiftBits(0x4D1B0FA7, 8) == 0x76CCCA42;
    assert ShiftBits(0x0528BF53, 8) == 0x42700198;
    assert ShiftBits(0x3D39D0FF, 8) == 0xAD406A81;
    assert ShiftBits(0x954FDEBB, 8) == 0x2B09962C;
    assert ShiftBits(0xAD5EB117, 8) == 0xC439FD35;
    assert ShiftBits(0xE56D01E3, 8) == 0xF08536EF;
    assert ShiftBits(0xDD7C6E4F, 8) == 0x1FB55DF6;
    assert ShiftBits(0xB06D6B9A, 8) == 0xF9FAB944;
    assert ShiftBits(0x887C0436, 8) == 0x16CAD25D;
    assert ShiftBits(0xC04FB4C2, 8) == 0x22761987;
    assert ShiftBits(0xF85EDB6E, 8) == 0xCD46729E;
    assert ShiftBits(0x5028D52A, 8) == 0x4B0F8E33;
    assert ShiftBits(0x6839BA86, 8) == 0xA43FE52A;
    assert ShiftBits(0x200A0A72, 8) == 0x90832EF0;
    assert ShiftBits(0x181B65DE, 8) == 0x7FB345E9;
  }

  lemma O72AdvancesOnRow11(b: bv8)
    requires b >> 4 == 11
    ensures O72(b) == ShiftBits(O64(b), 8)
  {
    assert ShiftBits(0xFA2801D8, 8) == 0x59F09165;
    assert ShiftBits(0xC2396E74, 8) == 0xB6C0FA7C;
    assert ShiftBits(0x8A0ADE80, 8) == 0x827C31A6;
    assert ShiftBits(0xB21BB12C, 8) == 0x6D4C5ABF;
    assert ShiftBits(0x1A6DBF68, 8) == 0xEB05A612;
    assert ShiftBits(0x227CD0C4, 8) == 0x0435CD0B;
    assert ShiftBits(0x6A4F6030, 8) == 0x308906D1;
    assert ShiftBits(0x525E0F9C, 8) == 0xDFB96DC8;
    assert ShiftBits(0x3F4F0A49, 8) == 0x39F6897A;
    assert ShiftBits(0x075E65E5, 8) == 0xD6C6E263;
    assert ShiftBits(0x4F6DD511, 8) == 0xE27A29B9;
    assert ShiftBits(0x777CBABD, 8) == 0x0D4A42A0;
    assert ShiftBits(0xDF0AB4F9, 8) == 0x8B03BE0D;
    assert ShiftBits(0xE71BDB55, 8) == 0x6433D514;
    assert ShiftBits(0xAF286BA1, 8) == 0x508F1ECE;
    assert ShiftBits(0x9739040D, 8) == 0xBFBF75D7;
  }

  lemma O72AdvancesOnRow12(b: bv8)
    requires b >> 4 == 12
    ensures O72(b) == ShiftBits(O64(b), 8)
  {
    assert ShiftBits(0x59F3BFF2, 8) == 0x120CEC3D;
    assert ShiftBits(0x61E2D05E, 8) == 0xFD3C8724;
    assert ShiftBits(0x29D160AA, 8) == 0xC9804CFE;
    assert ShiftBits(0x11C00F06, 8) == 0x26B027E7;
    assert ShiftBits(0xB9B60142, 8) == 0xA0F9DB4A;
    assert ShiftBits(0x81A76EEE, 8) == 0x4FC9B053;
    assert ShiftBits(0xC994DE1A, 8) == 0x7B757B89;
    assert ShiftBits(0xF185B1B6, 8) == 0x94451090;
    assert ShiftBits(0x9C94B463, 8) == 0x720AF422;
    assert ShiftBits(0xA485DBCF, 8) == 0x9D3A9F3B;
    assert ShiftBits(0xECB66B3B, 8) == 0xA98654E1;
    assert ShiftBits(0xD4A70497, 8) == 0x46B63FF8;
    assert ShiftBits(0x7CD10AD3, 8) == 0xC0FFC355;
    assert ShiftBits(0x44C0657F, 8) == 0x2FCFA84C;
    assert ShiftBits(0x0CF3D58B, 8) == 0x1B736396;
    assert ShiftBits(0x34E2BA27, 8) == 0xF443088F;
  }

  lemma O72AdvancesOnRow13(b: bv8)
    requires b >> 4 == 13
    ensures O72(b) == ShiftBits(O64(b), 8)
  {
    assert ShiftBits(0xD6D1DE21, 8) == 0xD200DC03;
    assert ShiftBits(0xEEC0B18D, 8) == 0x3D30B71A;
    assert ShiftBits(0xA6F30179, 8) == 0x098C7CC0;
    assert ShiftBits(0x9EE26ED5, 8) == 0xE6BC17D9;
    assert ShiftBits(0x36946091, 8) == 0x60F5EB74;
    assert ShiftBits(0x0E850F3D, 8) == 0x8FC5806D;
    assert ShiftBits(0x46B6BFC9, 8) == 0xBB794BB7;
    assert ShiftBits(0x7EA7D065, 8) == 0x544920AE;
    assert ShiftBits(0x13B6D5B0, 8) == 0xB206C41C;
    assert ShiftBits(0x2BA7BA1C, 8) == 0x5D36AF05;
    assert ShiftBits(0x63940AE8, 8) == 0x698A64DF;
    assert ShiftBits(0x5B856544, 8) == 0x86BA0FC6;
    assert ShiftBits(0xF3F36B00, 8) == 0x00F3F36B;
    assert ShiftBits(0xCBE204AC, 8) == 0xEFC39872;
    assert ShiftBits(0x83D1B458, 8) == 0xDB7F53A8;
    assert ShiftBits(0xBBC0DBF4, 8) == 0x344F38B1;
  }

  lemma O72AdvancesOnRow14(b: bv8)
    requires b >> 4 == 14
    ensures O72(b) == ShiftBits(O64(b), 8)
  {
    assert ShiftBits(0x425B0AA5, 8) == 0x97F8FAB0;
    assert ShiftBits(0x7A4A6509, 8) == 0x78C891A9;
    assert ShiftBits(0x3279D5FD, 8) == 0x4C745A73;
    assert ShiftBits(0x0A68BA51, 8) == 0xA344316A;
    assert ShiftBits(0xA21EB415, 8) == 0x250DCDC7;
    assert ShiftBits(0x9A0FDBB9, 8) == 0xCA3DA6DE;
    assert ShiftBits(0xD23C6B4D, 8) == 0xFE816D04;
    assert ShiftBits(0xEA2D04E1, 8) == 0x11B1061D;
    assert ShiftBits(0x873C0134, 8) == 0xF7FEE2AF;
    assert ShiftBits(0xBF2D6E98, 8) == 0x18CE89B6;
    assert ShiftBits(0xF71EDE6C, 8) == 0x2C72426C;
    assert ShiftBits(0xCF0FB1C0, 8) == 0xC3422975;
    assert ShiftBits(0x6779BF84, 8) == 0x450BD5D8;
    assert ShiftBits(0x5F68D028, 8) == 0xAA3BBEC1;
    assert ShiftBits(0x175B60DC, 8) == 0x9E87751B;
    assert ShiftBits(0x2F4A0F70, 8) == 0x71B71E02;
  }

  lemma O72AdvancesOnRow15(b: bv8)
    requires b >> 4 == 15
    ensures O72(b) == ShiftBits(O64(b), 8)
  {
    assert ShiftBits(0xCD796B76, 8) == 0x57F4CA8E;
    assert ShiftBits(0xF56804DA, 8) == 0xB8C4A197;
    assert ShiftBits(0xBD5BB42E, 8) == 0x8C786A4D;
    assert ShiftBits(0x854ADB82, 8) == 0x63480154;
    assert ShiftBits(0x2D3CD5C6, 8) == 0xE501FDF9;
    assert ShiftBits(0x152DBA6A, 8) == 0x0A3196E0;
    assert ShiftBits(0x5D1E0A9E, 8) == 0x3E8D5D3A;
    assert ShiftBits(0x650F6532, 8) == 0xD1BD3623;
    assert ShiftBits(0x081E60E7, 8) == 0x37F2D291;
    assert ShiftBits(0x300F0F4B, 8) == 0xD8C2B988;
    assert ShiftBits(0x783CBFBF, 8) == 0xEC7E7252;
    assert ShiftBits(0x402DD013, 8) == 0x034E194B;
    assert ShiftBits(0xE85BDE57, 8) == 0x8507E5E6;
    assert ShiftBits(0xD04AB1FB, 8) == 0x6A378EFF;
    assert ShiftBits(0x9879010F, 8) == 0x5E8B4525;
    assert ShiftBits(0xA0686EA3, 8) == 0xB1BB2E3C;
  }

  lemma O80AdvancesOnRow0(b: bv8)
    requires b >> 4 == 0
    ensures O80(b) == ShiftBits(O72(b), 8)
  {
    assert ShiftBits(0x00000000, 8) == 0x00000000;
    assert ShiftBits(0xEF306B19, 8) == 0x68032CC8;
    assert ShiftBits(0xDB8CA0C3, 8) == 0xD0065990;
    assert ShiftBits(0x34BCCBDA, 8) == 0xB8057558;
    assert ShiftBits(0xB2F53777, 8) == 0xA5E0C5D1;
    assert ShiftBits(0x5DC55C6E, 8) == 0xCDE3E919;
    assert ShiftBits(0x697997B4, 8) == 0x75E69C41;
    assert ShiftBits(0x8649FCAD, 8) == 0x1DE5B089;
    assert ShiftBits(0x6006181F, 8) == 0x4E2DFD53;
    assert ShiftBits(0x8F367306, 8) == 0x262ED19B;
    assert ShiftBits(0xBB8AB8DC, 8) == 0x9E2BA4C3;
    assert ShiftBits(0x54BAD3C5, 8) == 0xF628880B;
    assert ShiftBits(0xD2F32F68, 8) == 0xEBCD3882;
    assert ShiftBits(0x3DC34471, 8) == 0x83CE144A;
    assert ShiftBits(0x097F8FAB, 8) == 0x3BCB6112;
    assert ShiftBits(0xE64FE4B2, 8) == 0x53C84DDA;
  }

  lemma O80AdvancesOnRow1(b: bv8)
    requires b >> 4 == 1
    ensures O80(b) == ShiftBits(O72(b), 8)
  {
    assert ShiftBits(0xC00C303E, 8) == 0x9C5BFAA6;
    assert ShiftBits(0x2F3C5B27, 8) == 0xF458D66E;
    assert ShiftBits(0x1B8090FD, 8) == 0x4C5DA336;
    assert ShiftBits(0xF4B0FBE4, 8) == 0x245E8FFE;
    assert ShiftBits(0x72F90749, 8) == 0x39BB3F77;
    assert ShiftBits(0x9DC96C50, 8) == 0x51B813BF;
    assert ShiftBits(0xA975A78A, 8) == 0xE9BD66E7;
    assert ShiftBits(0x4645CC93, 8) == 0x81BE4A2F;
    assert ShiftBits(0xA00A2821, 8) == 0xD27607F5;
    assert ShiftBits(0x4F3A4338, 8) == 0xBA752B3D;
    assert ShiftBits(0x7B8688E2, 8) == 0x02705E65;
    assert ShiftBits(0x94B6E3FB, 8) == 0x6A7372AD;
    assert ShiftBits(0x12FF1F56, 8) == 0x7796C224;
    assert ShiftBits(0xFDCF744F, 8) == 0x1F95EEEC;
    assert ShiftBits(0xC973BF95, 8) == 0xA7909BB4;
    assert ShiftBits(0x2643D48C, 8) == 0xCF93B77C;
  }

  lemma O80AdvancesOnRow2(b: bv8)
    requires b >> 4 == 2
    ensures O80(b) == ShiftBits(O72(b), 8)
  {
    assert ShiftBits(0x85F4168D, 8) == 0x3D5B83BD;
    assert ShiftBits(0x6AC47D94, 8) == 0x5558AF75;
    assert ShiftBits(0x5E78B64E, 8) == 0xED5DDA2D;
    assert ShiftBits(0xB148DD57, 8) == 0x855EF6E5;
    assert ShiftBits(0x370121FA, 8) == 0x98BB466C;
    assert ShiftBits(0xD8314AE3, 8) == 0xF0B86AA4;
    assert ShiftBits(0xEC8D8139, 8) == 0x48BD1FFC;
    assert ShiftBits(0x03BDEA20, 8) == 0x20BE3334;
    assert ShiftBits(0xE5F20E92, 8) == 0x73767EEE;
    assert ShiftBits(0x0AC2658B, 8) == 0x1B755226;
    assert ShiftBits(0x3E7EAE51, 8) == 0xA370277E;
    assert ShiftBits(0xD14EC548, 8) == 0xCB730BB6;
    assert ShiftBits(0x570739E5, 8) == 0xD696BB3F;
    assert ShiftBits(0xB83752FC, 8) == 0xBE9597F7;
    assert ShiftBits(0x8C8B9926, 8) == 0x0690E2AF;
    assert ShiftBits(0x63BBF23F, 8) == 0x6E93CE67;
  }

  lemma O80AdvancesOnRow3(b: bv8)
    requires b >> 4 == 3
    ensures O80(b) == ShiftBits(O72(b), 8)
  {
    assert ShiftBits(0x45F826B3, 8) == 0xA100791B;
    assert ShiftBits(0xAAC84DAA, 8) == 0xC90355D3;
    assert ShiftBits(0x9E748670, 8) == 0x7106208B;
    assert ShiftBits(0x7144ED69, 8) == 0x19050C43;
    assert ShiftBits(0xF70D11C4, 8) == 0x04E0BCCA;
    assert ShiftBits(0x183D7ADD, 8) == 0x6CE39002;
    assert ShiftBits(0x2C81B107, 8) == 0xD4E6E55A;
    assert ShiftBits(0xC3B1DA1E, 8) == 0xBCE5C992;
    assert ShiftBits(0x25FE3EAC, 8) == 0xEF2D8448;
    assert ShiftBits(0xCACE55B5, 8) == 0x872EA880;
    assert ShiftBits(0xFE729E6F, 8) == 0x3F2BDDD8;
    assert ShiftBits(0x1142F576, 8) == 0x5728F110;
    assert ShiftBits(0x970B09DB, 8) == 0x4ACD4199;
    assert ShiftBits(0x783B62C2, 8) == 0x22CE6D51;
    assert ShiftBits(0x4C87A918, 8) == 0x9ACB1809;
    assert ShiftBits(0xA3B7C201, 8) == 0xF2C834C1;
  }

  lemma O80AdvancesOnRow4(b: bv8)
    requires b >> 4 == 4
    ensures O80(b) == ShiftBits(O72(b), 8)
  {
    assert ShiftBits(0x0E045BEB, 8) == 0x7AB7077A;
    assert ShiftBits(0xE13430F2, 8) == 0x12B42BB2;
    assert ShiftBits(0xD588FB28, 8) == 0xAAB15EEA;
    assert ShiftBits(0x3AB89031, 8) == 0xC2B27222;
    assert ShiftBits(0xBCF16C9C, 8) == 0xDF57C2AB;
    assert ShiftBits(0x53C10785, 8) == 0xB754EE63;
    assert ShiftBits(0x677DCC5F, 8) == 0x0F519B3B;
    assert ShiftBits(0x884DA746, 8) == 0x6752B7F3;
    assert ShiftBits(0x6E0243F4, 8) == 0x349AFA29;
    assert ShiftBits(0x813228ED, 8) == 0x5C99D6E1;
    assert ShiftBits(0xB58EE337, 8) == 0xE49CA3B9;
    assert ShiftBits(0x5ABE882E, 8) == 0x8C9F8F71;
    assert ShiftBits(0xDCF77483, 8) == 0x917A3FF8;
    assert ShiftBits(0x33C71F9A, 8) == 0xF9791330;
    assert ShiftBits(0x077BD440, 8) == 0x417C6668;
    assert ShiftBits(0xE84BBF59, 8) == 0x297F4AA0;
  }

  lemma O80AdvancesOnRow5(b: bv8)
    requires b >> 4 == 5
    ensures O80(b) == ShiftBits(O72(b), 8)
  {
    assert ShiftBits(0xCE086BD5, 8) == 0xE6ECFDDC;
    assert ShiftBits(0x213800CC, 8) == 0x8EEFD114;
    assert ShiftBits(0x1584CB16, 8) == 0x36EAA44C;
    assert ShiftBits(0xFAB4A00F, 8) == 0x5EE98884;
    assert ShiftBits(0x7CFD5CA2, 8) == 0x430C380D;
    assert ShiftBits(0x93CD37BB, 8) == 0x2B0F14C5;
    assert ShiftBits(0xA771FC61, 8) == 0x930A619D;
    assert ShiftBits(0x48419778, 8) == 0xFB094D55;
    assert ShiftBits(0xAE0E73CA, 8) == 0xA8C1008F;
    assert ShiftBits(0x413E18D3, 8) == 0xC0C22C47;
    assert ShiftBits(0x7582D309, 8) == 0x78C7591F;
    assert ShiftBits(0x9AB2B810, 8) == 0x10C475D7;
    assert ShiftBits(0x1CFB44BD, 8) == 0x0D21C55E;
    assert ShiftBits(0xF3CB2FA4, 8) == 0x6522E996;
    assert ShiftBits(0xC777E47E, 8) == 0xDD279CCE;
    assert ShiftBits(0x28478F67, 8) == 0xB524B006;
  }

  lemma O80AdvancesOnRow6(b: bv8)
    requires b >> 4 == 6
    ensures O80(b) == ShiftBits(O72(b), 8)
  {
    assert ShiftBits(0x8BF04D66, 8) == 0x47EC84C7;
    assert ShiftBits(0x64C0267F, 8) == 0x2FEFA80F;
    assert ShiftBits(0x507CEDA5, 8) == 0x97EADD57;
    assert ShiftBits(0xBF4C86BC, 8) == 0xFFE9F19F;
    assert ShiftBits(0x39057A11, 8) == 0xE20C4116;
    assert ShiftBits(0xD6351108, 8) == 0x8A0F6DDE;
    assert ShiftBits(0xE289DAD2, 8) == 0x320A1886;
    assert ShiftBits(0x0DB9B1CB, 8) == 0x5A09344E;
    assert ShiftBits(0xEBF65579, 8) == 0x09C17994;
    assert ShiftBits(0x04C63E60, 8) == 0x61C2555C;
    assert ShiftBits(0x307AF5BA, 8) == 0xD9C72004;
    assert ShiftBits(0xDF4A9EA3, 8) == 0xB1C40CCC;
    assert ShiftBits(0x5903620E, 8) == 0xAC21BC45;
    assert ShiftBits(0xB6330917, 8) == 0xC422908D;
    assert ShiftBits(0x828FC2CD, 8) == 0x7C27E5D5;
    assert ShiftBits(0x6DBFA9D4, 8) == 0x1424C91D;
  }

  lemma O80AdvancesOnRow7(b: bv8)
    requires b >> 4 == 7
    ensures O80(b) == ShiftBits(O72(b), 8)
  {
    assert ShiftBits(0x4BFC7D58, 8) == 0xDBB77E61;
    assert ShiftBits(0xA4CC1641, 8) == 0xB3B452A9;
    assert ShiftBits(0x9070DD9B, 8) == 0x0BB127F1;
    assert ShiftBits(0x7F40B682, 8) == 0x63B20B39;
    assert ShiftBits(0xF9094A2F, 8) == 0x7E57BBB0;
    assert ShiftBits(0x16392136, 8) == 0x16549778;
    assert ShiftBits(0x2285EAEC, 8) == 0xAE51E220;
    assert ShiftBits(0xCDB581F5, 8) == 0xC652CEE8;
    assert ShiftBits(0x2BFA6547, 8) == 0x959A8332;
    assert ShiftBits(0xC4CA0E5E, 8) == 0xFD99AFFA;
    assert ShiftBits(0xF076C584, 8) == 0x459CDAA2;
    assert ShiftBits(0x1F46AE9D, 8) == 0x2D9FF66A;
    assert ShiftBits(0x990F5230, 8) == 0x307A46E3;
    assert ShiftBits(0x763F3929, 8) == 0x58796A2B;
    assert ShiftBits(0x4283F2F3, 8) == 0xE07C1F73;
    assert ShiftBits(0xADB399EA, 8) == 0x887F33BB;
  }

  lemma O80AdvancesOnRow8(b: bv8)
    requires b >> 4 == 8
    ensures O80(b) == ShiftBits(O72(b), 8)
  {
    assert ShiftBits(0x1C08B7D6, 8) == 0xF56E0EF4;
    assert ShiftBits(0xF338DCCF, 8) == 0x9D6D223C;
    assert ShiftBits(0xC7841715, 8) == 0x25685764;
    assert ShiftBits(0x28B47C0C, 8) == 0x4D6B7BAC;
    assert ShiftBits(0xAEFD80A1, 8) == 0x508ECB25;
    assert ShiftBits(0x41CDEBB8, 8) == 0x388DE7ED;
    assert ShiftBits(0x75712062, 8) == 0x808892B5;
    assert ShiftBits(0x9A414B7B, 8) == 0xE88BBE7D;
    assert ShiftBits(0x7C0EAFC9, 8) == 0xBB43F3A7;
    assert ShiftBits(0x933EC4D0, 8) == 0xD340DF6F;
    assert ShiftBits(0xA7820F0A, 8) == 0x6B45AA37;
    assert ShiftBits(0x48B26413, 8) == 0x034686FF;
    assert ShiftBits(0xCEFB98BE, 8) == 0x1EA33676;
    assert ShiftBits(0x21CBF3A7, 8) == 0x76A01ABE;
    assert ShiftBits(0x1577387D, 8) == 0xCEA56FE6;
    assert ShiftBits(0xFA475364, 8) == 0xA6A6432E;
  }

  lemma O80AdvancesOnRow9(b: bv8)
    requires b >> 4 == 9
    ensures O80(b) == ShiftBits(O72(b), 8)
  {
    assert ShiftBits(0xDC0487E8, 8) == 0x6935F452;
    assert ShiftBits(0x3334ECF1, 8) == 0x0136D89A;
    assert ShiftBits(0x0788272B, 8) == 0xB933ADC2;
    assert ShiftBits(0xE8B84C32, 8) == 0xD130810A;
    assert ShiftBits(0x6EF1B09F, 8) == 0xCCD53183;
    assert ShiftBits(0x81C1DB86, 8) == 0xA4D61D4B;
    assert ShiftBits(0xB57D105C, 8) == 0x1CD36813;
    assert ShiftBits(0x5A4D7B45, 8) == 0x74D044DB;
    assert ShiftBits(0xBC029FF7, 8) == 0x27180901;
    assert ShiftBits(0x5332F4EE, 8) == 0x4F1B25C9;
    assert ShiftBits(0x678E3F34, 8) == 0xF71E5091;
    assert ShiftBits(0x88BE542D, 8) == 0x9F1D7C59;
    assert ShiftBits(0x0EF7A880, 8) == 0x82F8CCD0;
    assert ShiftBits(0xE1C7C399, 8) == 0xEAFBE018;
    assert ShiftBits(0xD57B0843, 8) == 0x52FE9540;
    assert ShiftBits(0x3A4B635A, 8) == 0x3AFDB988;
  }

  lemma O80AdvancesOnRow10(b: bv8)
    requires b >> 4 == 10
    ensures O80(b) == ShiftBits(O72(b), 8)
  {
    assert ShiftBits(0x99FCA15B, 8) == 0xC8358D49;
    assert ShiftBits(0x76CCCA42, 8) == 0xA036A181;
    assert ShiftBits(0x42700198, 8) == 0x1833D4D9;
    assert ShiftBits(0xAD406A81, 8) == 0x7030F811;
    assert ShiftBits(0x2B09962C, 8) == 0x6DD54898;
    assert ShiftBits(0xC439FD35, 8) == 0x05D66450;
    assert ShiftBits(0xF08536EF, 8) == 0xBDD31108;
    assert ShiftBits(0x1FB55DF6, 8) == 0xD5D03DC0;
    assert ShiftBits(0xF9FAB944, 8) == 0x8618701A;
    assert ShiftBits(0x16CAD25D, 8) == 0xEE1B5CD2;
    assert ShiftBits(0x22761987, 8) == 0x561E298A;
    assert ShiftBits(0xCD46729E, 8) == 0x3E1D0542;
    assert ShiftBits(0x4B0F8E33, 8) == 0x23F8B5CB;
    assert ShiftBits(0xA43FE52A, 8) == 0x4BFB9903;
    assert ShiftBits(0x90832EF0, 8) == 0xF3FEEC5B;
    assert ShiftBits(0x7FB345E9, 8) == 0x9BFDC093;
  }

  lemma O80AdvancesOnRow11(b: bv8)
    requires b >> 4 == 11
    ensures O80(b) == ShiftBits(O72(b), 8)
  {
    assert ShiftBits(0x59F09165, 8) == 0x546E77EF;
    assert ShiftBits(0xB6C0FA7C, 8) == 0x3C6D5B27;
    assert ShiftBits(0x827C31A6, 8) == 0x84682E7F;
    assert ShiftBits(0x6D4C5ABF, 8) == 0xEC6B02B7;
    assert ShiftBits(0xEB05A612, 8) == 0xF18EB23E;
    assert ShiftBits(0x0435CD0B, 8) == 0x998D9EF6;
    assert ShiftBits(0x308906D1, 8) == 0x2188EBAE;
    assert ShiftBits(0xDFB96DC8, 8) == 0x498BC766;
    assert ShiftBits(0x39F6897A, 8) == 0x1A438ABC;
    assert ShiftBits(0xD6C6E263, 8) == 0x7240A674;
    assert ShiftBits(0xE27A29B9, 8) == 0xCA45D32C;
    assert ShiftBits(0x0D4A42A0, 8) == 0xA246FFE4;
    assert ShiftBits(0x8B03BE0D, 8) == 0xBFA34F6D;
    assert ShiftBits(0x6433D514, 8) == 0xD7A063A5;
    assert ShiftBits(0x508F1ECE, 8) == 0x6FA516FD;
    assert ShiftBits(0xBFBF75D7, 8) == 0x07A63A35;
  }

  lemma O80AdvancesOnRow12(b: bv8)
    requires b >> 4 == 12
    ensures O80(b) == ShiftBits(O72(b), 8)
  {
    assert ShiftBits(0x120CEC3D, 8) == 0x8FD9098E;
    assert ShiftBits(0xFD3C8724, 8) == 0xE7DA2546;
    assert ShiftBits(0xC9804CFE, 8) == 0x5FDF501E;
    assert ShiftBits(0x26B027E7, 8) == 0x37DC7CD6;
    assert ShiftBits(0xA0F9DB4A, 8) == 0x2A39CC5F;
    assert ShiftBits(0x4FC9B053, 8) == 0x423AE097;
    assert ShiftBits(0x7B757B89, 8) == 0xFA3F95CF;
    assert ShiftBits(0x94451090, 8) == 0x923CB907;
    assert ShiftBits(0x720AF422, 8) == 0xC1F4F4DD;
    assert ShiftBits(0x9D3A9F3B, 8) == 0xA9F7D815;
    assert ShiftBits(0xA98654E1, 8) == 0x11F2AD4D;
    assert ShiftBits(0x46B63FF8, 8) == 0x79F18185;
    assert ShiftBits(0xC0FFC355, 8) == 0x6414310C;
    assert ShiftBits(0x2FCFA84C, 8) == 0x0C171DC4;
    assert ShiftBits(0x1B736396, 8) == 0xB412689C;
    assert ShiftBits(0xF443088F, 8) == 0xDC114454;
  }

  lemma O80AdvancesOnRow13(b: bv8)
    requires b >> 4 == 13
    ensures O80(b) == ShiftBits(O72(b), 8)
  {
    assert ShiftBits(0xD200DC03, 8) == 0x1382F328;
    assert ShiftBits(0x3D30B71A, 8) == 0x7B81DFE0;
    assert ShiftBits(0x098C7CC0, 8) == 0xC384AAB8;
    assert ShiftBits(0xE6BC17D9, 8) == 0xAB878670;
    assert ShiftBits(0x60F5EB74, 8) == 0xB66236F9;
    assert ShiftBits(0x8FC5806D, 8) == 0xDE611A31;
    assert ShiftBits(0xBB794BB7, 8) == 0x66646F69;
    assert ShiftBits(0x544920AE, 8) == 0x0E6743A1;
    assert ShiftBits(0xB206C41C, 8) == 0x5DAF0E7B;
    assert ShiftBits(0x5D36AF05, 8) == 0x35AC22B3;
    assert ShiftBits(0x698A64DF, 8) == 0x8DA957EB;
    assert ShiftBits(0x86BA0FC6, 8) == 0xE5AA7B23;
    assert ShiftBits(0x00F3F36B, 8) == 0xF84FCBAA;
    assert ShiftBits(0xEFC39872, 8) == 0x904CE762;
    assert ShiftBits(0xDB7F53A8, 8) == 0x2849923A;
    assert ShiftBits(0x344F38B1, 8) == 0x404ABEF2;
  }

  lemma O80AdvancesOnRow14(b: bv8)
    requires b >> 4 == 14
    ensures O80(b) == ShiftBits(O72(b), 8)
  {
    assert ShiftBits(0x97F8FAB0, 8) == 0xB2828A33;
    assert ShiftBits(0x78C891A9, 8) == 0xDA81A6FB;
    assert ShiftBits(0x4C745A73, 8) == 0x6284D3A3;
    assert ShiftBits(0xA344316A, 8) == 0x0A87FF6B;
    assert ShiftBits(0x250DCDC7, 8) == 0x17624FE2;
    assert ShiftBits(0xCA3DA6DE, 8) == 0x7F61632A;
    assert ShiftBits(0xFE816D04, 8) == 0xC7641672;
    assert ShiftBits(0x11B1061D, 8) == 0xAF673ABA;
    assert ShiftBits(0xF7FEE2AF, 8) == 0xFCAF7760;
    assert ShiftBits(0x18CE89B6, 8) == 0x94AC5BA8;
    assert ShiftBits(0x2C72426C, 8) == 0x2CA92EF0;
    assert ShiftBits(0xC3422975, 8) == 0x44AA0238;
    assert ShiftBits(0x450BD5D8, 8) == 0x594FB2B1;
    assert ShiftBits(0xAA3BBEC1, 8) == 0x314C9E79;
    assert ShiftBits(0x9E87751B, 8) == 0x8949EB21;
    assert ShiftBits(0x71B71E02, 8) == 0xE14AC7E9;
  }

  lemma O80AdvancesOnRow15(b: bv8)
    requires b >> 4 == 15
    ensures O80(b) == ShiftBits(O72(b), 8)
  {
    assert ShiftBits(0x57F4CA8E, 8) == 0x2ED97095;
    assert ShiftBits(0xB8C4A197, 8) == 0x46DA5C5D;
    assert ShiftBits(0x8C786A4D, 8) == 0xFEDF2905;
    assert ShiftBits(0x63480154, 8) == 0x96DC05CD;
    assert ShiftBits(0xE501FDF9, 8) == 0x8B39B544;
    assert ShiftBits(0x0A3196E0, 8) == 0xE33A998C;
    assert ShiftBits(0x3E8D5D3A, 8) == 0x5B3FECD4;
    assert ShiftBits(0xD1BD3623, 8) == 0x333CC01C;
    assert ShiftBits(0x37F2D291, 8) == 0x60F48DC6;
    assert ShiftBits(0xD8C2B988, 8) == 0x08F7A10E;
    assert ShiftBits(0xEC7E7252, 8) == 0xB0F2D456;
    assert ShiftBits(0x034E194B, 8) == 0xD8F1F89E;
    assert ShiftBits(0x8507E5E6, 8) == 0xC5144817;
    assert ShiftBits(0x6A378EFF, 8) == 0xAD1764DF;
    assert ShiftBits(0x5E8B4525, 8) == 0x15121187;
    assert ShiftBits(0xB1BB2E3C, 8) == 0x7D113D4F;
  }

  lemma O88AdvancesOnRow0(b: bv8)
    requires b >> 4 == 0
    ensures O88(b) == ShiftBits(O80(b), 8)
  {
    assert ShiftBits(0x00000000, 8) == 0x00000000;
    assert ShiftBits(0x68032CC8, 8) == 0x493C7D27;
    assert ShiftBits(0xD0065990, 8) == 0x9278FA4E;
    assert ShiftBits(0xB8057558, 8) == 0xDB448769;
    assert ShiftBits(0xA5E0C5D1, 8) == 0x211D826D;
    assert ShiftBits(0xCDE3E919, 8) == 0x6821FF4A;
    assert ShiftBits(0x75E69C41, 8) == 0xB3657823;
    assert ShiftBits(0x1DE5B089, 8) == 0xFA590504;
    assert ShiftBits(0x4E2DFD53, 8) == 0x423B04DA;
    assert ShiftBits(0x262ED19B, 8) == 0x0B0779FD;
    assert ShiftBits(0x9E2BA4C3, 8) == 0xD043FE94;
    assert ShiftBits(0xF628880B, 8) == 0x997F83B3;
    assert ShiftBits(0xEBCD3882, 8) == 0x632686B7;
    assert ShiftBits(0x83CE144A, 8) == 0x2A1AFB90;
    assert ShiftBits(0x3BCB6112, 8) == 0xF15E7CF9;
    assert ShiftBits(0x53C84DDA, 8) == 0xB86201DE;
  }

  lemma O88AdvancesOnRow1(b: bv8)
    requires b >> 4 == 1
    ensures O88(b) == ShiftBits(O80(b), 8)
  {
    assert ShiftBits(0x9C5BFAA6, 8) == 0x847609B4;
    assert ShiftBits(0xF458D66E, 8) == 0xCD4A7493;
    assert ShiftBits(0x4C5DA336, 8) == 0x160EF3FA;
    assert ShiftBits(0x245E8FFE, 8) == 0x5F328EDD;
    assert ShiftBits(0x39BB3F77, 8) == 0xA56B8BD9;
    assert ShiftBits(0x51B813BF, 8) == 0xEC57F6FE;
    assert ShiftBits(0xE9BD66E7, 8) == 0x37137197;
    assert ShiftBits(0x81BE4A2F, 8) == 0x7E2F0CB0;
    assert ShiftBits(0xD27607F5, 8) == 0xC64D0D6E;
    assert ShiftBits(0xBA752B3D, 8) == 0x8F717049;
    assert ShiftBits(0x02705E65, 8) == 0x5435F720;
    assert ShiftBits(0x6A7372AD, 8) == 0x1D098A07;
    assert ShiftBits(0x7796C224, 8) == 0xE7508F03;
    assert ShiftBits(0x1F95EEEC, 8) == 0xAE6CF224;
    assert ShiftBits(0xA7909BB4, 8) == 0x7528754D;
    assert ShiftBits(0xCF93B77C, 8) == 0x3C14086A;
  }

  lemma O88AdvancesOnRow2(b: bv8)
    requires b >> 4 == 2
    ensures O88(b) == ShiftBits(O80(b), 8)
  {
    assert ShiftBits(0x3D5B83BD, 8) == 0x0D006599;
    assert ShiftBits(0x5558AF75, 8) == 0x443C18BE;
    assert ShiftBits(0xED5DDA2D, 8) == 0x9F789FD7;
    assert ShiftBits(0x855EF6E5, 8) == 0xD644E2F0;
    assert ShiftBits(0x98BB466C, 8) == 0x2C1DE7F4;
    assert ShiftBits(0xF0B86AA4, 8) == 0x65219AD3;
    assert ShiftBits(0x48BD1FFC, 8) == 0xBE651DBA;
    assert ShiftBits(0x20BE3334, 8) == 0xF759609D;
    assert ShiftBits(0x73767EEE, 8) == 0x4F3B6143;
    assert ShiftBits(0x1B755226, 8) == 0x06071C64;
    assert ShiftBits(0xA370277E, 8) == 0xDD439B0D;
    assert ShiftBits(0xCB730BB6, 8) == 0x947FE62A;
    assert ShiftBits(0xD696BB3F, 8) == 0x6E26E32E;
    assert ShiftBits(0xBE9597F7, 8) == 0x271A9E09;
    assert ShiftBits(0x0690E2AF, 8) == 0xFC5E1960;
    assert ShiftBits(0x6E93CE67, 8) == 0xB5626447;
  }

  lemma O88AdvancesOnRow3(b: bv8)
    requires b >> 4 == 3
    ensures O88(b) == ShiftBits(O80(b), 8)
  {
    assert ShiftBits(0xA100791B, 8) == 0x89766C2D;
    assert ShiftBits(0xC90355D3, 8) == 0xC04A110A;
    assert ShiftBits(0x7106208B, 8) == 0x1B0E9663;
    assert ShiftBits(0x19050C43, 8) == 0x5232EB44;
    assert ShiftBits(0x04E0BCCA, 8) == 0xA86BEE40;
    assert ShiftBits(0x6CE39002, 8) == 0xE1579367;
    assert ShiftBits(0xD4E6E55A, 8) == 0x3A13140E;
    assert ShiftBits(0xBCE5C992, 8) == 0x732F6929;
    assert ShiftBits(0xEF2D8448, 8) == 0xCB4D68F7;
    assert ShiftBits(0x872EA880, 8) == 0x827115D0;
    assert ShiftBits(0x3F2BDDD8, 8) == 0x593592B9;
    assert ShiftBits(0x5728F110, 8) == 0x1009EF9E;
    assert ShiftBits(0x4ACD4199, 8) == 0xEA50EA9A;
    assert ShiftBits(0x22CE6D51, 8) == 0xA36C97BD;
    assert ShiftBits(0x9ACB1809, 8) == 0x782810D4;
    assert ShiftBits(0xF2C834C1, 8) == 0x31146DF3;
  }

  lemma O88AdvancesOnRow4(b: bv8)
    requires b >> 4 == 4
    ensures O88(b) == ShiftBits(O80(b), 8)
  {
    assert ShiftBits(0x7AB7077A, 8) == 0x1A00CB32;
    assert ShiftBits(0x12B42BB2, 8) == 0x533CB615;
    assert ShiftBits(0xAAB15EEA, 8) == 0x8878317C;
    assert ShiftBits(0xC2B27222, 8) == 0xC1444C5B;
    assert ShiftBits(0xDF57C2AB, 8) == 0x3B1D495F;
    assert ShiftBits(0xB754EE63, 8) == 0x72213478;
    assert ShiftBits(0x0F519B3B, 8) == 0xA965B311;
    assert ShiftBits(0x6752B7F3, 8) == 0xE059CE36;
    assert ShiftBits(0x349AFA29, 8) == 0x583BCFE8;
    assert ShiftBits(0x5C99D6E1, 8) == 0x1107B2CF;
    assert ShiftBits(0xE49CA3B9, 8) == 0xCA4335A6;
    assert ShiftBits(0x8C9F8F71, 8) == 0x837F4881;
    assert ShiftBits(0x917A3FF8, 8) == 0x79264D85;
    assert ShiftBits(0xF9791330, 8) == 0x301A30A2;
    assert ShiftBits(0x417C6668, 8) == 0xEB5EB7CB;
    assert ShiftBits(0x297F4AA0, 8) == 0xA262CAEC;
  }

  lemma O88AdvancesOnRow5(b: bv8)
    requires b >> 4 == 5
    ensures O88(b) == ShiftBits(O80(b), 8)
  {
    assert ShiftBits(0xE6ECFDDC, 8) == 0x9E76C286;
    assert ShiftBits(0x8EEFD114, 8) == 0xD74ABFA1;
    assert ShiftBits(0x36EAA44C, 8) == 0x0C0E38C8;
    assert ShiftBits(0x5EE98884, 8) == 0x453245EF;
    assert ShiftBits(0x430C380D, 8) == 0xBF6B40EB;
    assert ShiftBits(0x2B0F14C5, 8) == 0xF6573DCC;
    assert ShiftBits(0x930A619D, 8) == 0x2D13BAA5;
    assert ShiftBits(0xFB094D55, 8) == 0x642FC782;
    assert ShiftBits(0xA8C1008F, 8) == 0xDC4DC65C;
    assert ShiftBits(0xC0C22C47, 8) == 0x9571BB7B;
    assert ShiftBits(0x78C7591F, 8) == 0x4E353C12;
    assert ShiftBits(0x10C475D7, 8) == 0x07094135;
    assert ShiftBits(0x0D21C55E, 8) == 0xFD504431;
    assert ShiftBits(0x6522E996, 8) == 0xB46C3916;
    assert ShiftBits(0xDD279CCE, 8) == 0x6F28BE7F;
    assert ShiftBits(0xB524B006, 8) == 0x2614C358;
  }

  lemma O88AdvancesOnRow6(b: bv8)
    requires b >> 4 == 6
    ensures O88(b) == ShiftBits(O80(b), 8)
  {
    assert ShiftBits(0x47EC84C7, 8) == 0x1700AEAB;
    assert ShiftBits(0x2FEFA80F, 8) == 0x5E3CD38C;
    assert ShiftBits(0x97EADD57, 8) == 0x857854E5;
    assert ShiftBits(0xFFE9F19F, 8) == 0xCC4429C2;
    assert ShiftBits(0xE20C4116, 8) == 0x361D2CC6;
    assert ShiftBits(0x8A0F6DDE, 8) == 0x7F2151E1;
    assert ShiftBits(0x320A1886, 8) == 0xA465D688;
    assert ShiftBits(0x5A09344E, 8) == 0xED59ABAF;
    assert ShiftBits(0x09C17994, 8) == 0x553BAA71;
    assert ShiftBits(0x61C2555C, 8) == 0x1C07D756;
    assert ShiftBits(0xD9C72004, 8) == 0xC743503F;
    assert ShiftBits(0xB1C40CCC, 8) == 0x8E7F2D18;
    assert ShiftBits(0xAC21BC45, 8) == 0x7426281C;
    assert ShiftBits(0xC422908D, 8) == 0x3D1A553B;
    assert ShiftBits(0x7C27E5D5, 8) == 0xE65ED252;
    assert ShiftBits(0x1424C91D, 8) == 0xAF62AF75;
  }

  lemma O88AdvancesOnRow7(b: bv8)
    requires b >> 4 == 7
    ensures O88(b) == ShiftBits(O80(b), 8)
  {
    assert ShiftBits(0xDBB77E61, 8) == 0x9376A71F;
    assert ShiftBits(0xB3B452A9, 8) == 0xDA4ADA38;
    assert ShiftBits(0x0BB127F1, 8) == 0x010E5D51;
    assert ShiftBits(0x63B20B39, 8) == 0x48322076;
    assert ShiftBits(0x7E57BBB0, 8) == 0xB26B2572;
    assert ShiftBits(0x16549778, 8) == 0xFB575855;
    assert ShiftBits(0xAE51E220, 8) == 0x2013DF3C;
    assert ShiftBits(0xC652CEE8, 8) == 0x692FA21B;
    assert ShiftBits(0x959A8332, 8) == 0xD14DA3C5;
    assert ShiftBits(0xFD99AFFA, 8) == 0x9871DEE2;
    assert ShiftBits(0x459CDAA2, 8) == 0x4335598B;
    assert ShiftBits(0x2D9FF66A, 8) == 0x0A0924AC;
    assert ShiftBits(0x307A46E3, 8) == 0xF05021A8;
    assert ShiftBits(0x58796A2B, 8) == 0xB96C5C8F;
    assert ShiftBits(0xE07C1F73, 8) == 0x6228DBE6;
    assert ShiftBits(0x887F33BB, 8) == 0x2B14A6C1;
  }

  lemma O88AdvancesOnRow8(b: bv8)
    requires b >> 4 == 8
    ensures O88(b) == ShiftBits(O80(b), 8)
  {
    assert ShiftBits(0xF56E0EF4, 8) == 0x34019664;
    assert ShiftBits(0x9D6D223C, 8) == 0x7D3DEB43;
    assert ShiftBits(0x25685764, 8) == 0xA6796C2A;
    assert ShiftBits(0x4D6B7BAC, 8) == 0xEF45110D;
    assert ShiftBits(0x508ECB25, 8) == 0x151C1409;
    assert ShiftBits(0x388DE7ED, 8) == 0x5C20692E;
    assert ShiftBits(0x808892B5, 8) == 0x8764EE47;
    assert ShiftBits(0xE88BBE7D, 8) == 0xCE589360;
    assert ShiftBits(0xBB43F3A7, 8) == 0x763A92BE;
    assert ShiftBits(0xD340DF6F, 8) == 0x3F06EF99;
    assert ShiftBits(0x6B45AA37, 8) == 0xE44268F0;
    assert ShiftBits(0x034686FF, 8) == 0xAD7E15D7;
    assert ShiftBits(0x1EA33676, 8) == 0x572710D3;
    assert ShiftBits(0x76A01ABE, 8) == 0x1E1B6DF4;
    assert ShiftBits(0xCEA56FE6, 8) == 0xC55FEA9D;
    assert ShiftBits(0xA6A6432E, 8) == 0x8C6397BA;
  }

  lemma O88AdvancesOnRow9(b: bv8)
    requires b >> 4 == 9
    ensures O88(b) == ShiftBits(O80(b), 8)
  {
    assert ShiftBits(0x6935F452, 8) == 0xB0779FD0;
    assert ShiftBits(0x0136D89A, 8) == 0xF94BE2F7;
    assert ShiftBits(0xB933ADC2, 8) == 0x220F659E;
    assert ShiftBits(0xD130810A, 8) == 0x6B3318B9;
    assert ShiftBits(0xCCD53183, 8) == 0x916A1DBD;
    assert ShiftBits(0xA4D61D4B, 8) == 0xD856609A;
    assert ShiftBits(0x1CD36813, 8) == 0x0312E7F3;
    assert ShiftBits(0x74D044DB, 8) == 0x4A2E9AD4;
    assert ShiftBits(0x27180901, 8) == 0xF24C9B0A;
    assert ShiftBits(0x4F1B25C9, 8) == 0xBB70E62D;
    assert ShiftBits(0xF71E5091, 8) == 0x60346144;
    assert ShiftBits(0x9F1D7C59, 8) == 0x29081C63;
    assert ShiftBits(0x82F8CCD0, 8) == 0xD3511967;
    assert ShiftBits(0xEAFBE018, 8) == 0x9A6D6440;
    assert ShiftBits(0x52FE9540, 8) == 0x4129E329;
    assert ShiftBits(0x3AFDB988, 8) == 0x08159E0E;
  }

  lemma O88AdvancesOnRow10(b: bv8)
    requires b >> 4 == 10
    ensures O88(b) == ShiftBits(O80(b), 8)
  {
    assert ShiftBits(0xC8358D49, 8) == 0x3901F3FD;
    assert ShiftBits(0xA036A181, 8) == 0x703D8EDA;
    assert ShiftBits(0x1833D4D9, 8) == 0xAB7909B3;
    assert ShiftBits(0x7030F811, 8) == 0xE2457494;
    assert ShiftBits(0x6DD54898, 8) == 0x181C7190;
    assert ShiftBits(0x05D66450, 8) == 0x51200CB7;
    assert ShiftBits(0xBDD31108, 8) == 0x8A648BDE;
    assert ShiftBits(0xD5D03DC0, 8) == 0xC358F6F9;
    assert ShiftBits(0x8618701A, 8) == 0x7B3AF727;
    assert ShiftBits(0xEE1B5CD2, 8) == 0x32068A00;
    assert ShiftBits(0x561E298A, 8) == 0xE9420D69;
    assert ShiftBits(0x3E1D0542, 8) == 0xA07E704E;
    assert ShiftBits(0x23F8B5CB, 8) == 0x5A27754A;
    assert ShiftBits(0x4BFB9903, 8) == 0x131B086D;
    assert ShiftBits(0xF3FEEC5B, 8) == 0xC85F8F04;
    assert ShiftBits(0x9BFDC093, 8) == 0x8163F223;
  }

  lemma O88AdvancesOnRow11(b: bv8)
    requires b >> 4 == 11
    ensures O88(b) == ShiftBits(O80(b), 8)
  {
    assert ShiftBits(0x546E77EF, 8) == 0xBD77FA49;
    assert ShiftBits(0x3C6D5B27, 8) == 0xF44B876E;
    assert ShiftBits(0x84682E7F, 8) == 0x2F0F0007;
    assert ShiftBits(0xEC6B02B7, 8) == 0x66337D20;
    assert ShiftBits(0xF18EB23E, 8) == 0x9C6A7824;
    assert ShiftBits(0x998D9EF6, 8) == 0xD5560503;
    assert ShiftBits(0x2188EBAE, 8) == 0x0E12826A;
    assert ShiftBits(0x498BC766, 8) == 0x472EFF4D;
    assert ShiftBits(0x1A438ABC, 8) == 0xFF4CFE93;
    assert ShiftBits(0x7240A674, 8) == 0xB67083B4;
    assert ShiftBits(0xCA45D32C, 8) == 0x6D3404DD;
    assert ShiftBits(0xA246FFE4, 8) == 0x240879FA;
    assert ShiftBits(0xBFA34F6D, 8) == 0xDE517CFE;
    assert ShiftBits(0xD7A063A5, 8) == 0x976D01D9;
    assert ShiftBits(0x6FA516FD, 8) == 0x4C2986B0;
    assert ShiftBits(0x07A63A35, 8) == 0x0515FB97;
  }

  lemma O88AdvancesOnRow12(b: bv8)
    requires b >> 4 == 12
    ensures O88(b) == ShiftBits(O80(b), 8)
  {
    assert ShiftBits(0x8FD9098E, 8) == 0x2E015D56;
    assert ShiftBits(0xE7DA2546, 8) == 0x673D2071;
    assert ShiftBits(0x5FDF501E, 8) == 0xBC79A718;
    assert ShiftBits(0x37DC7CD6, 8) == 0xF545DA3F;
    assert ShiftBits(0x2A39CC5F, 8) == 0x0F1CDF3B;
    assert ShiftBits(0x423AE097, 8) == 0x4620A21C;
    assert ShiftBits(0xFA3F95CF, 8) == 0x9D642575;
    assert ShiftBits(0x923CB907, 8) == 0xD4585852;
    assert ShiftBits(0xC1F4F4DD, 8) == 0x6C3A598C;
    assert ShiftBits(0xA9F7D815, 8) == 0x250624AB;
    assert ShiftBits(0x11F2AD4D, 8) == 0xFE42A3C2;
    assert ShiftBits(0x79F18185, 8) == 0xB77EDEE5;
    assert ShiftBits(0x6414310C, 8) == 0x4D27DBE1;
    assert ShiftBits(0x0C171DC4, 8) == 0x041BA6C6;
    assert ShiftBits(0xB412689C, 8) == 0xDF5F21AF;
    assert ShiftBits(0xDC114454, 8) == 0x96635C88;
  }

  lemma O88AdvancesOnRow13(b: bv8)
    requires b >> 4 == 13
    ensures O88(b) == ShiftBits(O80(b), 8)
  {
    assert ShiftBits(0x1382F328, 8) == 0xAA7754E2;
    assert ShiftBits(0x7B81DFE0, 8) == 0xE34B29C5;
    assert ShiftBits(0xC384AAB8, 8) == 0x380FAEAC;
    assert ShiftBits(0xAB878670, 8) == 0x7133D38B;
    assert ShiftBits(0xB66236F9, 8) == 0x8B6AD68F;
    assert ShiftBits(0xDE611A31, 8) == 0xC256ABA8;
    assert ShiftBits(0x66646F69, 8) == 0x19122CC1;
    assert ShiftBits(0x0E6743A1, 8) == 0x502E51E6;
    assert ShiftBits(0x5DAF0E7B, 8) == 0xE84C5038;
    assert ShiftBits(0x35AC22B3, 8) == 0xA1702D1F;
    assert ShiftBits(0x8DA957EB, 8) == 0x7A34AA76;
    assert ShiftBits(0xE5AA7B23, 8) == 0x3308D751;
    assert ShiftBits(0xF84FCBAA, 8) == 0xC951D255;
    assert ShiftBits(0x904CE762, 8) == 0x806DAF72;
    assert ShiftBits(0x2849923A, 8) == 0x5B29281B;
    assert ShiftBits(0x404ABEF2, 8) == 0x1215553C;
  }

  lemma O88AdvancesOnRow14(b: bv8)
    requires b >> 4 == 14
    ensures O88(b) == ShiftBits(O80(b), 8)
  {
    assert ShiftBits(0xB2828A33, 8) == 0x230138CF;
    assert ShiftBits(0xDA81A6FB, 8) == 0x6A3D45E8;
    assert ShiftBits(0x6284D3A3, 8) == 0xB179C281;
    assert ShiftBits(0x0A87FF6B, 8) == 0xF845BFA6;
    assert ShiftBits(0x17624FE2, 8) == 0x021CBAA2;
    assert ShiftBits(0x7F61632A, 8) == 0x4B20C785;
    assert ShiftBits(0xC7641672, 8) == 0x906440EC;
    assert ShiftBits(0xAF673ABA, 8) == 0xD9583DCB;
    assert ShiftBits(0xFCAF7760, 8) == 0x613A3C15;
    assert ShiftBits(0x94AC5BA8, 8) == 0x28064132;
    assert ShiftBits(0x2CA92EF0, 8) == 0xF342C65B;
    assert ShiftBits(0x44AA0238, 8) == 0xBA7EBB7C;
    assert ShiftBits(0x594FB2B1, 8) == 0x4027BE78;
    assert ShiftBits(0x314C9E79, 8) == 0x091BC35F;
    assert ShiftBits(0x8949EB21, 8) == 0xD25F4436;
    assert ShiftBits(0xE14AC7E9, 8) == 0x9B633911;
  }

  lemma O88AdvancesOnRow15(b: bv8)
    requires b >> 4 == 15
    ensures O88(b) == ShiftBits(O80(b), 8)
  {
    assert ShiftBits(0x2ED97095, 8) == 0xA777317B;
    assert ShiftBits(0x46DA5C5D, 8) == 0xEE4B4C5C;
    assert ShiftBits(0xFEDF2905, 8) == 0x350FCB35;
    assert ShiftBits(0x96DC05CD, 8) == 0x7C33B612;
    assert ShiftBits(0x8B39B544, 8) == 0x866AB316;
    assert ShiftBits(0xE33A998C, 8) == 0xCF56CE31;
    assert ShiftBits(0x5B3FECD4, 8) == 0x14124958;
    assert ShiftBits(0x333CC01C, 8) == 0x5D2E347F;
    assert ShiftBits(0x60F48DC6, 8) == 0xE54C35A1;
    assert ShiftBits(0x08F7A10E, 8) == 0xAC704886;
    assert ShiftBits(0xB0F2D456, 8) == 0x7734CFEF;
    assert ShiftBits(0xD8F1F89E, 8) == 0x3E08B2C8;
    assert ShiftBits(0xC5144817, 8) == 0xC451B7CC;
    assert ShiftBits(0xAD1764DF, 8) == 0x8D6DCAEB;
    assert ShiftBits(0x15121187, 8) == 0x56294D82;
    assert ShiftBits(0x7D113D4F, 8) == 0x1F1530A5;
  }

  // ---------------------------------------------------------------------
  // The same facts at every index
  // ---------------------------------------------------------------------

  /** Entry b of k_CRC_TABLE_IL8_O32 is b shifted through eight bit steps. */
  lemma O32IsBitwise(b: bv8)
    ensures O32(b) == ShiftBits(b as bv32, 8)
  {
    if b >> 4 == 0 {
      O32IsBitwiseOnRow0(b);
    } else if b >> 4 == 1 {
      O32IsBitwiseOnRow1(b);
    } else if b >> 4 == 2 {
      O32IsBitwiseOnRow2(b);
    } else if b >> 4 == 3 {
      O32IsBitwiseOnRow3(b);
    } else if b >> 4 == 4 {
      O32IsBitwiseOnRow4(b);
    } else if b >> 4 == 5 {
      O32IsBitwiseOnRow5(b);
    } else if b >> 4 == 6 {
      O32IsBitwiseOnRow6(b);
    } else if b >> 4 == 7 {
      O32IsBitwiseOnRow7(b);
    } else if b >> 4 == 8 {
      O32IsBitwiseOnRow8(b);
    } else if b >> 4 == 9 {
      O32IsBitwiseOnRow9(b);
    } else if b >> 4 == 10 {
      O32IsBitwiseOnRow10(b);
    } else if b >> 4 == 11 {
      O32IsBitwiseOnRow11(b);
    } else if b >> 4 == 12 {
      O32IsBitwiseOnRow12(b);
    } else if b >> 4 == 13 {
      O32IsBitwiseOnRow13(b);
    } else if b >> 4 == 14 {
      O32IsBitwiseOnRow14(b);
    } else {
      O32IsBitwiseOnRow15(b);
    }
  }

  /** Entry b of k_CRC_TABLE_IL8_O40 is entry b of O32 shifted through eight more bit steps. */
  lemma O40AdvancesO32(b: bv8)
    ensures O40(b) == ShiftBits(O32(b), 8)
  {
    if b >> 4 == 0 {
      O40AdvancesOnRow0(b);
    } else if b >> 4 == 1 {
      O40AdvancesOnRow1(b);
    } else if b >> 4 == 2 {
      O40AdvancesOnRow2(b);
    } else if b >> 4 == 3 {
      O40AdvancesOnRow3(b);
    } else if b >> 4 == 4 {
      O40AdvancesOnRow4(b);
    } else if b >> 4 == 5 {
      O40AdvancesOnRow5(b);
    } else if b >> 4 == 6 {
      O40AdvancesOnRow6(b);
    } else if b >> 4 == 7 {
      O40AdvancesOnRow7(b);
    } else if b >> 4 == 8 {
      O40AdvancesOnRow8(b);
    } else if b >> 4 == 9 {
      O40AdvancesOnRow9(b);
    } else if b >> 4 == 10 {
      O40AdvancesOnRow10(b);
    } else if b >> 4 == 11 {
      O40AdvancesOnRow11(b);
    } else if b >> 4 == 12 {
      O40AdvancesOnRow12(b);
    } else if b >> 4 == 13 {
      O40AdvancesOnRow13(b);
    } else if b >> 4 == 14 {
      O40AdvancesOnRow14(b);
    } else {
      O40AdvancesOnRow15(b);
    }
  }

  /** Entry b of k_CRC_TABLE_IL8_O48 is entry b of O40 shifted through eight more bit steps. */
  lemma O48AdvancesO40(b: bv8)
    ensures O48(b) == ShiftBits(O40(b), 8)
  {
    if b >> 4 == 0 {
      O48AdvancesOnRow0(b);
    } else if b >> 4 == 1 {
      O48AdvancesOnRow1(b);
    } else if b >> 4 == 2 {
      O48AdvancesOnRow2(b);
    } else if b >> 4 == 3 {
      O48AdvancesOnRow3(b);
    } else if b >> 4 == 4 {
      O48AdvancesOnRow4(b);
    } else if b >> 4 == 5 {
      O48AdvancesOnRow5(b);
    } else if b >> 4 == 6 {
      O48AdvancesOnRow6(b);
    } else if b >> 4 == 7 {
      O48AdvancesOnRow7(b);
    } else if b >> 4 == 8 {
      O48AdvancesOnRow8(b);
    } else if b >> 4 == 9 {
      O48AdvancesOnRow9(b);
    } else if b >> 4 == 10 {
      O48AdvancesOnRow10(b);
    } else if b >> 4 == 11 {
      O48AdvancesOnRow11(b);
    } else if b >> 4 == 12 {
      O48AdvancesOnRow12(b);
    } else if b >> 4 == 13 {
      O48AdvancesOnRow13(b);
    } else if b >> 4 == 14 {
      O48AdvancesOnRow14(b);
    } else {
      O48AdvancesOnRow15(b);
    }
  }

  /** Entry b of k_CRC_TABLE_IL8_O56 is entry b of O48 shifted through eight more bit steps. */
  lemma O56AdvancesO48(b: bv8)
    ensures O56(b) == ShiftBits(O48(b), 8)
  {
    if b >> 4 == 0 {
      O56AdvancesOnRow0(b);
    } else if b >> 4 == 1 {
      O56AdvancesOnRow1(b);
    } else if b >> 4 == 2 {
      O56AdvancesOnRow2(b);
    } else if b >> 4 == 3 {
      O56AdvancesOnRow3(b);
    } else if b >> 4 == 4 {
      O56AdvancesOnRow4(b);
    } else if b >> 4 == 5 {
      O56AdvancesOnRow5(b);
    } else if b >> 4 == 6 {
      O56AdvancesOnRow6(b);
    } else if b >> 4 == 7 {
      O56AdvancesOnRow7(b);
    } else if b >> 4 == 8 {
      O56AdvancesOnRow8(b);
    } else if b >> 4 == 9 {
      O56AdvancesOnRow9(b);
    } else if b >> 4 == 10 {
      O56AdvancesOnRow10(b);
    } else if b >> 4 == 11 {
      O56AdvancesOnRow11(b);
    } else if b >> 4 == 12 {
      O56AdvancesOnRow12(b);
    } else if b >> 4 == 13 {
      O56AdvancesOnRow13(b);
    } else if b >> 4 == 14 {
      O56AdvancesOnRow14(b);
    } else {
      O56AdvancesOnRow15(b);
    }
  }

  /** Entry b of k_CRC_TABLE_IL8_O64 is entry b of O56 shifted through eight more bit steps. */
  lemma O64AdvancesO56(b: bv8)
    ensures O64(b) == ShiftBits(O56(b), 8)
  {
    if b >> 4 == 0 {
      O64AdvancesOnRow0(b);
    } else if b >> 4 == 1 {
      O64AdvancesOnRow1(b);
    } else if b >> 4 == 2 {
      O64AdvancesOnRow2(b);
    } else if b >> 4 == 3 {
      O64AdvancesOnRow3(b);
    } else if b >> 4 == 4 {
      O64AdvancesOnRow4(b);
    } else if b >> 4 == 5 {
      O64AdvancesOnRow5(b);
    } else if b >> 4 == 6 {
      O64AdvancesOnRow6(b);
    } else if b >> 4 == 7 {
      O64AdvancesOnRow7(b);
    } else if b >> 4 == 8 {
      O64AdvancesOnRow8(b);
    } else if b >> 4 == 9 {
      O64AdvancesOnRow9(b);
    } else if b >> 4 == 10 {
      O64AdvancesOnRow10(b);
    } else if b >> 4 == 11 {
      O64AdvancesOnRow11(b);
    } else if b >> 4 == 12 {
      O64AdvancesOnRow12(b);
    } else if b >> 4 == 13 {
      O64AdvancesOnRow13(b);
    } else if b >> 4 == 14 {
      O64AdvancesOnRow14(b);
    } else {
      O64AdvancesOnRow15(b);
    }
  }

  /** Entry b of k_CRC_TABLE_IL8_O72 is entry b of O64 shifted through eight more bit steps. */
  lemma O72AdvancesO64(b: bv8)
    ensures O72(b) == ShiftBits(O64(b), 8)
  {
    if b >> 4 == 0 {
      O72AdvancesOnRow0(b);
    } else if b >> 4 == 1 {
      O72AdvancesOnRow1(b);
    } else if b >> 4 == 2 {
      O72AdvancesOnRow2(b);
    } else if b >> 4 == 3 {
      O72AdvancesOnRow3(b);
    } else if b >> 4 == 4 {
      O72AdvancesOnRow4(b);
    } else if b >> 4 == 5 {
      O72AdvancesOnRow5(b);
    } else if b >> 4 == 6 {
      O72AdvancesOnRow6(b);
    } else if b >> 4 == 7 {
      O72AdvancesOnRow7(b);
    } else if b >> 4 == 8 {
      O72AdvancesOnRow8(b);
    } else if b >> 4 == 9 {
      O72AdvancesOnRow9(b);
    } else if b >> 4 == 10 {
      O72AdvancesOnRow10(b);
    } else if b >> 4 == 11 {
      O72AdvancesOnRow11(b);
    } else if b >> 4 == 12 {
      O72AdvancesOnRow12(b);
    } else if b >> 4 == 13 {
      O72AdvancesOnRow13(b);
    } else if b >> 4 == 14 {
      O72AdvancesOnRow14(b);
    } else {
      O72AdvancesOnRow15(b);
    }
  }

  /** Entry b of k_CRC_TABLE_IL8_O80 is entry b of O72 shifted through eight more bit steps. */
  lemma O80AdvancesO72(b: bv8)
    ensures O80(b) == ShiftBits(O72(b), 8)
  {
    if b >> 4 == 0 {
      O80AdvancesOnRow0(b);
    } else if b >> 4 == 1 {
      O80AdvancesOnRow1(b);
    } else if b >> 4 == 2 {
      O80AdvancesOnRow2(b);
    } else if b >> 4 == 3 {
      O80AdvancesOnRow3(b);
    } else if b >> 4 == 4 {
      O80AdvancesOnRow4(b);
    } else if b >> 4 == 5 {
      O80AdvancesOnRow5(b);
    } else if b >> 4 == 6 {
      O80AdvancesOnRow6(b);
    } else if b >> 4 == 7 {
      O80AdvancesOnRow7(b);
    } else if b >> 4 == 8 {
      O80AdvancesOnRow8(b);
    } else if b >> 4 == 9 {
      O80AdvancesOnRow9(b);
    } else if b >> 4 == 10 {
      O80AdvancesOnRow10(b);
    } else if b >> 4 == 11 {
      O80AdvancesOnRow11(b);
    } else if b >> 4 == 12 {
      O80AdvancesOnRow12(b);
    } else if b >> 4 == 13 {
      O80AdvancesOnRow13(b);
    } else if b >> 4 == 14 {
      O80AdvancesOnRow14(b);
    } else {
      O80AdvancesOnRow15(b);
    }
  }

  /** Entry b of k_CRC_TABLE_IL8_O88 is entry b of O80 shifted through eight more bit steps. */
  lemma O88AdvancesO80(b: bv8)
    ensures O88(b) == ShiftBits(O80(b), 8)
  {
    if b >> 4 == 0 {
      O88AdvancesOnRow0(b);
    } else if b >> 4 == 1 {
      O88AdvancesOnRow1(b);
    } else if b >> 4 == 2 {
      O88AdvancesOnRow2(b);
    } else if b >> 4 == 3 {
      O88AdvancesOnRow3(b);
    } else if b >> 4 == 4 {
      O88AdvancesOnRow4(b);
    } else if b >> 4 == 5 {
      O88AdvancesOnRow5(b);
    } else if b >> 4 == 6 {
      O88AdvancesOnRow6(b);
    } else if b >> 4 == 7 {
      O88AdvancesOnRow7(b);
    } else if b >> 4 == 8 {
      O88AdvancesOnRow8(b);
    } else if b >> 4 == 9 {
      O88AdvancesOnRow9(b);
    } else if b >> 4 == 10 {
      O88AdvancesOnRow10(b);
    } else if b >> 4 == 11 {
      O88AdvancesOnRow11(b);
    } else if b >> 4 == 12 {
      O88AdvancesOnRow12(b);
    } else if b >> 4 == 13 {
      O88AdvancesOnRow13(b);
    } else if b >> 4 == 14 {
      O88AdvancesOnRow14(b);
    } else {
      O88AdvancesOnRow15(b);
    }
  }

}
