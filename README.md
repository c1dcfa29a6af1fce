# CRC-32C engine and delimiter tokenizer of BDE

This project models two sequential components of the BDE libraries and
proves properties of them in Dafny.

**CRC-32C** (`groups/bdl/bdlde/bdlde_crc32c.cpp`). This is the Castagnoli
CRC: generator 0x1EDC6F41, used in reflected form as 0x82F63B78. iSCSI uses
it for its digests (section 12.1 and appendix B.4 of RFC 3720).

- `crc32cSoftware` inverts the seed and runs three phases:
  - the head: bytes one at a time through `k_CRC_TABLE_IL8_O32` up to the first pointer-size boundary (`sizeof(bsls::Types::IntPtr)`: 8 bytes in a 64-bit build, 4 in a 32-bit one);
  - the blocks: eight bytes at a time through the eight slice tables `k_CRC_TABLE_IL8_O32` .. `O88`;
  - the tail: the last 0–7 bytes one at a time.
  It then inverts the register.
- `crc32cHardwareSerial` takes three phases with the CPU's CRC instructions: bytes up to a word boundary, then 8-byte words (`crc32di`) in a 64-bit build or 4-byte words (`crc32si`) in a 32-bit one, then the remaining bytes.
- `Crc32cCalculator` picks the routine once, from the platform.
- `Crc32c::calculate`, `Crc32c_Impl::calculateSoftware` and `calculateHardwareSerial` are the entry points. Each returns the seed for a zero length.

The reference is a bytewise specification in `Crc32cSpec`:
- `ShiftBits` is the reflected shift register, one polynomial step per bit;
- `ByteStep` folds in one byte and shifts it through eight steps;
- `Register` folds a byte sequence;
- `Checksum(s, seed)` is `Register` between the two inversions.

The 2048 table entries are written out as in the source (`Crc32cTables`). They are proved, entry by entry, to be the register shifts the reference defines. The software routine and the serial hardware routine, in both 32-bit and 64-bit builds, are proved to compute `Checksum` of exactly the bytes they are given, whatever the alignment. The 64-bit SSE routine and the SPARC routine are represented by that value.

**Tokenizer** (`groups/bdl/bdlb/bdlb_tokenizer.cpp`).

- `Tokenizer_Data` gives each of the 256 characters a class: token (TOK), soft delimiter (SFT) or hard delimiter (HRD).
- `Tokenizer::operator++` and `TokenizerIterator::operator++` run a four-state machine driven by `nextStateTable` and `actionTable`. The machine splits the input into a token `[d_token_p, d_postDelim_p)` followed by a delimiter `[d_postDelim_p, d_cursor_p)`.
- `resetImpl` skips the leading soft delimiters and steps to the first token.
- `hasSoft`, `isHard`, `hasPreviousSoft` and `isPreviousHard` scan the delimiter ranges.

`TokenizerSpec` holds the tables and the scan as functions. It also says, without the machine, what a step finds: `RunEnd` (a run of one class) and `DelimiterEnd` (soft delimiters with at most one hard one). The invariant kept between steps is `Between`. `Tokenizers` holds the classes; each method is proved against those functions.

Pointers are indices into a sequence of bytes (`seq<bv8>` for the CRC, `Byte` values 0..255 for the tokenizer). The integer operations the source does on pointers are explicit:
- the address of the first byte is a parameter, and the pointer width of the build is the parameter `word` (`Bits32` or `Bits64`, of size 4 or 8). `data & (sizeof(IntPtr) - 1)` is `address % word.Size()`;
- `length & ~7` is `remaining - remaining % 8`;
- `length & 7` is `remaining % 8`.

`length` is an `unsigned int` (type `Length`, below 2^32), and every offset is at most `length`. The one sum that can wrap in the source is `offset + sizeof(unsigned int)` in the 32-bit build of `crc32cHardwareSerial`. It wraps only when `length >= 0xFFFFFFFC`, a buffer no 32-bit address space can hold. The model computes that sum on unbounded integers (see "## Left out").

In the 8-byte loop, the source folds in the terms in the order `crc ^ term1 ^ O40[..] ^ O32[..]`. The model groups the same exclusive-or of eight table entries as `SliceHigh(crc ^ u32a) ^ SliceLow(u32b)` (`SliceStep`). Exclusive-or is associative and commutative, so the value is the same.

## Model

| member | source | states |
|---|---|---|
| Crc32cTables.ReflectedPolynomialIsReversal | groups/bdl/bdlde/bdlde_crc32c.cpp:251-262 | The reflected constant 0x82F63B78 is the bit reversal of the generator polynomial 0x1EDC6F41 named in the table's header. |
| Crc32cTables.O32Landmarks | groups/bdl/bdlde/bdlde_crc32c.cpp:264-296 | Entry 0 of k_CRC_TABLE_IL8_O32 is 0 and entry 128 is the reflected polynomial 0x82F63B78. |
| Crc32cTables.O32IsBitwise | groups/bdl/bdlde/bdlde_crc32c.cpp:251-328 | For every byte b, entry b of k_CRC_TABLE_IL8_O32 is b shifted through eight steps of the reflected register: the bytewise CRC-32C table. |
| Crc32cTables.O40AdvancesO32 | groups/bdl/bdlde/bdlde_crc32c.cpp:330-407 | For every b, entry b of k_CRC_TABLE_IL8_O40 is entry b of O32 shifted eight more bits (one zero byte later). |
| Crc32cTables.O48AdvancesO40 | groups/bdl/bdlde/bdlde_crc32c.cpp:409-486 | Entry b of O48 is entry b of O40 shifted eight more bits. |
| Crc32cTables.O56AdvancesO48 | groups/bdl/bdlde/bdlde_crc32c.cpp:488-565 | Entry b of O56 is entry b of O48 shifted eight more bits. |
| Crc32cTables.O64AdvancesO56 | groups/bdl/bdlde/bdlde_crc32c.cpp:567-644 | Entry b of O64 is entry b of O56 shifted eight more bits. |
| Crc32cTables.O72AdvancesO64 | groups/bdl/bdlde/bdlde_crc32c.cpp:646-723 | Entry b of O72 is entry b of O64 shifted eight more bits. |
| Crc32cTables.O80AdvancesO72 | groups/bdl/bdlde/bdlde_crc32c.cpp:725-802 | Entry b of O80 is entry b of O72 shifted eight more bits. |
| Crc32cTables.O88AdvancesO80 | groups/bdl/bdlde/bdlde_crc32c.cpp:804-881 | Entry b of O88 is entry b of O80 shifted eight more bits. |
| Crc32cSpec.StoreLoadLE32 | groups/bdl/bdlde/bdlde_crc32c.cpp:966-977 | Reading four bytes as a little-endian word (as u32a and u32b are read) and storing the word back gives the same four bytes. |
| Crc32cSpec.StoreLoadLE64 | groups/bdl/bdlde/bdlde_crc32c.cpp:1432-1436 | The 64-bit word read at an offset, stored back as eight little-endian bytes, is the eight bytes at that offset. |
| Crc32cSpec.TableStepIsByteStep | groups/bdl/bdlde/bdlde_crc32c.cpp:931 | One statement `crc = O32[(crc ^ b) & 0xFF] ^ (crc >> 8)` equals one bytewise step of the reference: b folded in and shifted through eight bits. |
| Crc32cSpec.SliceStepIsEightSteps | groups/bdl/bdlde/bdlde_crc32c.cpp:966-995 | One iteration of the 8-byte loop (two little-endian words, eight slice-table lookups) equals eight successive bytewise steps over those eight bytes. |
| Crc32cSpec.SliceBlock | groups/bdl/bdlde/bdlde_crc32c.cpp:965-996 | At any offset p with eight bytes left, one slice iteration on the register over the bytes before p gives the register over the bytes before p + 8. |
| Crc32cSpec.ChecksumEmpty | groups/bdl/bdlde/bdlde_crc32c.cpp:910 | The checksum of no bytes is the seed: the two inversions cancel. |
| Crc32cSpec.ChecksumChain | groups/bdl/bdlde/bdlde_crc32c.cpp:906-910 | Chaining: the checksum of t seeded with the checksum of s is the checksum of s + t, so the seed is the starting point of the calculation. |
| Crc32cSpec.IncrementingChecksum | groups/bdl/bdlde/bdlde_crc32c.cpp:903-1033 | The 32 bytes 0x00, 0x01, .., 0x1F with seed 0 have CRC-32C 0x46DD794E, the value in appendix B.4 of RFC 3720; the 8-byte slice step is evaluated block by block. |
| Crc32c.HeadCount | groups/bdl/bdlde/bdlde_crc32c.cpp:914-926 | adj is less than the pointer size (at most 3 in a 32-bit build, 7 in a 64-bit one) and at most length. The head ends on a pointer-size boundary unless it takes the whole length. |
| Crc32c.HeadCountIsDistance | groups/bdl/bdlde/bdlde_crc32c.cpp:918-926 | adj is no more than the distance to any pointer-size boundary, so the head stops at the first one. |
| Crc32c.TableBytes | groups/bdl/bdlde/bdlde_crc32c.cpp:928-958 | The fall-through switch of `count` table statements from offset `from` turns the register over the bytes before `from` into the register over the bytes before `from + count`. |
| Crc32c.SliceBlocks | groups/bdl/bdlde/bdlde_crc32c.cpp:962-996 | The 8-byte loop from `from` to `end` (a whole number of blocks) turns the register over the bytes before `from` into the register over the bytes before `end`. |
| Crc32c.Crc32cSoftware | groups/bdl/bdlde/bdlde_crc32c.cpp:901-1034 | In either build, the result is the CRC-32C of exactly the first `length` bytes from the seed, whatever the address. The bytes are split into a head of adj bytes, a multiple of eight in blocks, and a tail of (length - adj) % 8 bytes, which add up to length. |
| Crc32c.Crc32diBlock | groups/bdl/bdlde/bdlde_crc32c.cpp:1431-1437 | The eight-byte instruction on the 64-bit word read at offset p advances the register over the eight bytes at p. |
| Crc32c.Crc32siBlock | groups/bdl/bdlde/bdlde_crc32c.cpp:1463-1468 | The four-byte instruction on the 32-bit word read at offset p advances the register over the four bytes at p. |
| Crc32c.Offsets | groups/bdl/bdlde/bdlde_crc32c.cpp:1415-1474 | The offsets lo .. hi - 1 in order, each once. |
| Crc32c.AlignInstructions | groups/bdl/bdlde/bdlde_crc32c.cpp:1415-1428 | When the address is off a word boundary, the first loop stops at the boundary or at length, whichever comes first: it takes exactly the software routine's head count adj. It advances the register over exactly the bytes before it and visits their offsets once, in order. The 32-bit build's loop at lines 1450-1460 is the same with a 4-byte word. |
| Crc32c.ByteInstructions | groups/bdl/bdlde/bdlde_crc32c.cpp:1424-1427 | The loop of one-byte instructions over [from, to) advances the register over exactly those bytes and visits each offset of [from, to) once, in order. |
| Crc32c.BlockInstructions | groups/bdl/bdlde/bdlde_crc32c.cpp:1431-1437 | The loop of eight-byte instructions stops fewer than eight bytes before length, after whole blocks only. It advances the register over exactly the bytes it passes and visits each of their offsets once, in order. |
| Crc32c.WordInstructions | groups/bdl/bdlde/bdlde_crc32c.cpp:1462-1468 | The 32-bit build's loop of four-byte instructions stops fewer than four bytes before length, after whole words only. It advances the register over exactly the bytes it passes and visits each of their offsets once, in order. |
| Crc32c.Crc32cHardwareSerial | groups/bdl/bdlde/bdlde_crc32c.cpp:1400-1478 | In either build, the offsets consumed by the align, word and tail loops are [0, length), each exactly once, in order. The result is the CRC-32C of the bytes, the same value as the software routine. |
| Crc32c.Crc32cCalculator.constructor | groups/bdl/bdlde/bdlde_crc32c.cpp:1488-1542 | The build's pointer width is kept. Each routine is chosen exactly when its platform conditions hold: 64-bit SSE on GCC/Clang x86 with SSE 4.2 in 64-bit mode; serial hardware in 32-bit mode; the SPARC routine when the SPARC instruction is available; otherwise software. |
| Crc32c.Crc32cCalculator.Apply | groups/bdl/bdlde/bdlde_crc32c.cpp:1559-1565 | Whatever routine the constructor stored, the call returns the CRC-32C of the bytes from the seed. The software routine runs with the build's pointer width. The serial hardware routine, stored only in 32-bit builds, runs its 32-bit loops. |
| Crc32c.Calculate | groups/bdl/bdlde/bdlde_crc32c.cpp:1574-1589 | With data null only when the length is 0, the result is the CRC-32C of the covered bytes. A zero length returns the seed without reading data. |
| Crc32c.CalculateSoftware | groups/bdl/bdlde/bdlde_crc32c.cpp:1595-1612 | The same contract, by the software routine of the given build. |
| Crc32c.CalculateHardwareSerial | groups/bdl/bdlde/bdlde_crc32c.cpp:1614-1634 | The same contract, by the serial hardware routine of the given build. |
| TokenizerSpec.ActionFor | groups/bdl/bdlb/bdlb_tokenizer.cpp:47-54 | The only error entry of actionTable is START on a soft delimiter. A token character is accumulated exactly in START and TOKEN on token input. |
| TokenizerSpec.BackToStartOnlyByReturn | groups/bdl/bdlb/bdlb_tokenizer.cpp:38-54 | Every transition of nextStateTable back to START is a return or the error entry. |
| TokenizerSpec.FirstNul | groups/bdl/bdlb/bdlb_tokenizer.cpp:325-335 | In a NUL-terminated input, the end is the first NUL. |
| TokenizerSpec.Limit | groups/bdl/bdlb/bdlb_tokenizer.cpp:278-360 | The end of the input is d_end_p when it is set, else the first NUL, and lies within the input. |
| TokenizerSpec.AtEnd | groups/bdl/bdlb/bdlb_tokenizer.cpp:284-293 | The end test (`d_end_p == d_cursor_p`, or `0 == *d_cursor_p` without an end pointer) holds exactly at the end of the input. |
| TokenizerSpec.RunEnd | groups/bdl/bdlb/bdlb_tokenizer.cpp:375-380 | The end of a run of one class from k: every character before it has the class, and the character at it (if any) does not. |
| TokenizerSpec.RunEndIsFirstOther | groups/bdl/bdlb/bdlb_tokenizer.cpp:375-380 | Any index with those two properties is the run's end. |
| TokenizerSpec.DelimiterEnd | groups/bdl/bdlb/bdlb_tokenizer.cpp:38-54 | A delimiter ends at the end of the input, at a token character, or at a second hard delimiter. It holds no token character and at most one hard delimiter. |
| TokenizerSpec.ScanFromStart | groups/bdl/bdlb/bdlb_tokenizer.cpp:288-317 | The machine started in START on a non-soft character returns with the token end at the end of the token-character run and the cursor at the end of the delimiter after it. |
| TokenizerSpec.ScanFromToken | groups/bdl/bdlb/bdlb_tokenizer.cpp:288-317 | From TOKEN the machine accumulates to the end of the token run, then to the end of the delimiter. |
| TokenizerSpec.ScanFromSoft | groups/bdl/bdlb/bdlb_tokenizer.cpp:288-317 | From SOFTD the machine accumulates to the end of the delimiter. |
| TokenizerSpec.ScanFromHard | groups/bdl/bdlb/bdlb_tokenizer.cpp:288-317 | From HARDD the machine accumulates soft delimiters and returns at the next token character or hard delimiter. |
| TokenizerSpec.ScanWithinLimit | groups/bdl/bdlb/bdlb_tokenizer.cpp:288-317 | The machine reads no character at or after the end of the input. |
| TokenizerSpec.AdvanceStep | groups/bdl/bdlb/bdlb_tokenizer.cpp:275-362 | One step keeps `d_token_p ≤ d_postDelim_p ≤ d_cursor_p ≤ end`, token-only tokens, delimiters with no token character and at most one hard one, and a cursor never on a soft delimiter (so the error action is never reached). d_prevDelim_p takes the old d_postDelim_p. At the end the step sets d_isEnd with empty ranges; otherwise the cursor strictly advances. |
| TokenizerSpec.ResetFindsFirstToken | groups/bdl/bdlb/bdlb_tokenizer.cpp:364-383 | After a reset the previous delimiter is the leading soft delimiters, the token starts at the first other character, the tokenizer is ended exactly when no such character exists, and the invariant holds. |
| TokenizerSpec.BoundedMatchesNulTerminated | groups/bdl/bdlb/bdlb_tokenizer.cpp:278-360 | The length-bounded and the NUL-terminated copies of the loop agree: the same characters, bounded by their length or followed by a NUL, give the same end, the same step and the same reset. |
| TokenizerSpec.RunEndWithinLimit | groups/bdl/bdlb/bdlb_tokenizer.cpp:375-380 | The skip of soft delimiters reads no character at or after the end of the input. |
| Tokenizers.TokenizerData.WithSoft | groups/bdl/bdlb/bdlb_tokenizer.cpp:66-78 | Every soft delimiter character is SFT and every other character TOK. |
| Tokenizers.TokenizerData.constructor | groups/bdl/bdlb/bdlb_tokenizer.cpp:80-102 | Every hard delimiter is HRD (hard overrides soft), every other soft delimiter is SFT, every other character TOK. |
| Tokenizers.Mark | groups/bdl/bdlb/bdlb_tokenizer.cpp:85-101 | The loop over a delimiter string gives its characters the type and leaves every other entry as it was. |
| Tokenizers.RunMachine | groups/bdl/bdlb/bdlb_tokenizer.cpp:288-317 | The table-driven do/while loop returns exactly the token end and cursor of the scan from START, never taking the error action. |
| Tokenizers.SkipSoft | groups/bdl/bdlb/bdlb_tokenizer.cpp:375-380 | The skip loop leaves the cursor at the end of the run of soft delimiters. |
| Tokenizers.Tokenizer.constructor | groups/bdl/bdlb/bdlb_tokenizer.cpp:247-254 | The class table is built from soft and hard, and the pointers are where a reset to the input leaves them. |
| Tokenizers.Tokenizer.Increment | groups/bdl/bdlb/bdlb_tokenizer.cpp:275-362 | The new pointers are one step of the machine (Advance) from the old ones, and the invariant is kept. |
| Tokenizers.Tokenizer.Reset | groups/bdl/bdlb/bdlb_tokenizer.cpp:364-394 | The pointers are those of a reset to the new input, and the invariant holds. |
| Tokenizers.Tokenizer.Find | groups/bdl/bdlb/bdlb_tokenizer.cpp:402-411 | The scanning loop returns true exactly when some character of the range has the class. |
| Tokenizers.Tokenizer.HasSoft | groups/bdl/bdlb/bdlb_tokenizer.cpp:396-412 | False once ended; otherwise true exactly when [d_postDelim_p, d_cursor_p) holds a soft delimiter. |
| Tokenizers.Tokenizer.IsHard | groups/bdl/bdlb/bdlb_tokenizer.cpp:428-444 | False once ended; otherwise true exactly when [d_postDelim_p, d_cursor_p) holds a hard delimiter. |
| Tokenizers.Tokenizer.HasPreviousSoft | groups/bdl/bdlb/bdlb_tokenizer.cpp:414-426 | True exactly when [d_prevDelim_p, d_token_p) holds a soft delimiter. |
| Tokenizers.Tokenizer.IsPreviousHard | groups/bdl/bdlb/bdlb_tokenizer.cpp:446-458 | True exactly when [d_prevDelim_p, d_token_p) holds a hard delimiter. |
| Tokenizers.Tokenizer.Begin | groups/bdl/bdlb/bdlb_tokenizer.cpp:460-463 | The iterator shares the class table and input, and starts at the token and delimiter a reset finds. |
| Tokenizers.TokenizerIterator.AtEndOfInput | groups/bdl/bdlb/bdlb_tokenizer.cpp:109-118 | The end iterator: no class table, empty NUL-terminated input, ended, all pointers at the start. |
| Tokenizers.TokenizerIterator.constructor | groups/bdl/bdlb/bdlb_tokenizer.cpp:120-138 | After skipping the leading soft delimiters and one step, the iterator's pointers are those of a tokenizer reset to the same input. |
| Tokenizers.TokenizerIterator.Increment | groups/bdl/bdlb/bdlb_tokenizer.cpp:151-232 | The iterator's step is the tokenizer's step apart from d_prevDelim_p, which it does not keep; the invariant is kept. |

## Left out

- The 64-bit SSE routine (`crc32cSse64bit`, `crc32c1024SseInt`, `crc32c8s` and the tables `k_MUL_TABLE1_336/672`) and `sparcHardware` are not part of this model. The SSE routine's 1024-byte step (`crc32c1024SseInt`) runs three lanes of `crc32` instructions and recombines them by multiplying with the `k_MUL_TABLE1_336/672` tables over GF(2). `crc32c8s` is that routine's serial fallback for the rest of the input, a loop of 8-byte and 1-byte instructions. It is left out together with the routine. `sparcHardware` passes `crc ^ 0xFFFFFFFF` to the foreign SPARC function `sparc_crc32c` and byte-swaps its result. The source does not show what that function computes, so the model does not constrain the result. `Crc32c.Crc32cCalculator.Apply` returns the reference `Checksum` for these two routines; nothing is proved about them.
- The CPU instructions `crc32qi`, `crc32si` and `crc32di` are modelled as the bytewise step they compute (`Crc32qi`, `Crc32si`, `Crc32di`), not as hardware.
- `__cpuid`, `is_sparc_crc32c_avail` and the build macros become the `Platform` parameter of the calculator's constructor: the processor with what `__cpuid` or the SPARC probe reports, and the pointer width of the build.
- Logging (`BSLS_LOG_INFO`) has no effect on results and is left out.
- The thread-safe one-time construction in `Crc32cCalculator::instance()` is left out: it is concurrency. `Calculate` takes the calculator as a parameter, and the routine is stored once by its constructor.
- Pointer addresses are not modelled. The address of the first byte is a parameter, and only its remainder modulo the pointer size is used.
- The fall-through `switch` blocks are modelled as one loop of `count` table statements (`TableBytes`). The source unrolls the same statements.
- Crc32c.Crc32cHardwareSerial: in the 32-bit build the loop test `offset + sizeof(unsigned int) <= length` is 32-bit unsigned arithmetic. For `length >= 0xFFFFFFFC` it would wrap, read past the buffer and never end. The model (`Crc32c.WordInstructions`) computes it on unbounded integers and terminates. A 32-bit process cannot hold such a buffer, so the two agree on every buffer the 32-bit build can be given.
- Crc32c.CalculateHardwareSerial: the fallback to the software routine on compilers other than GCC and Clang is not modelled. It would give the same value.
- `bdlb_tokenizer.h` is not part of this model. `isEos()` is taken as the end test `AtEnd`, and `k_MAX_CHARS` as 256.
- The two textual copies of the loop in each `operator++` (length-bounded and NUL-terminated) are one loop over `AtEnd`. `BoundedMatchesNulTerminated` proves that the two bounds agree.
- The `Tokenizer` constructors differ only in `const char *` vs `StringRef` input and in whether a hard set is given. The model has one constructor taking both sets; the soft-only table is `TokenizerData.WithSoft`, which is `ClassOf` with an empty hard set.
- The copy constructors, the destructor, `end()` and the iterator's comparison operators are left out. They copy or compare pointers and hold no logic of the state machine.
