/**
 * The memory-to-memory DMA test: test patterns from a 32-bit linear
 * congruential generator, byte-wise verification, the two-instruction
 * SCRIPTS program that moves a buffer and raises an interrupt, the wait for
 * it, and the size-by-pattern test matrix with its pass/fail counters.
 * The generator's global seed is an explicit parameter and result.
 */
module DmaTest {
  import opened Common
  import opened Registers
  import opened Instr
  import opened Poll
  import opened Init

  /** A byte of a test buffer. */
  type byte = x: int | 0 <= x < 256

  // ------------------------------------------------------------ constants

  const TEST_SUCCESS: int := 0
  const TEST_FAILED: int := 1
  const TEST_TIMEOUT: int := 2
  const TEST_DMA_ERROR: int := 3
  const TEST_VERIFY_ERROR: int := 4

  const PATTERN_ZEROS: nat := 0
  const PATTERN_ONES: nat := 1
  const PATTERN_WALKING: nat := 2
  const PATTERN_ALTERNATING: nat := 3
  const PATTERN_RANDOM: nat := 4
  const NUM_TEST_PATTERNS: nat := 5

  const MIN_TEST_SIZE: nat := 4
  const MAX_TEST_SIZE: nat := 16 * 1024
  /** 128 KiB, whatever the header's comment says. */
  const TEST_BUFFER_SIZE: nat := 128 * 1024

  const INITIAL_SEED: u32 := 0x1234_5678

  const TestStatuses: seq<int> := [TEST_SUCCESS, TEST_FAILED, TEST_TIMEOUT, TEST_DMA_ERROR, TEST_VERIFY_ERROR]
  const Patterns: seq<nat> := [PATTERN_ZEROS, PATTERN_ONES, PATTERN_WALKING, PATTERN_ALTERNATING, PATTERN_RANDOM]

  /** Status codes and pattern ids are the distinct values 0..4, one per
   *  pattern the fill knows, and a full-size test fits the test buffers. */
  lemma TestConstants()
    ensures forall i :: 0 <= i < |TestStatuses| ==> TestStatuses[i] == i
    ensures forall i :: 0 <= i < |Patterns| ==> Patterns[i] == i
    ensures |Patterns| == NUM_TEST_PATTERNS && |TestStatuses| == 5
    ensures MIN_TEST_SIZE <= MAX_TEST_SIZE <= TEST_BUFFER_SIZE
  {
  }

  // ------------------------------------------------------------ GetRandom

  const LCG_MUL: int := 1103515245
  const LCG_ADD: int := 12345
  /** The multiplier's inverse modulo 2^32: LCG_MUL * LCG_MUL_INVERSE = 1 + LCG_K * 2^32. */
  const LCG_MUL_INVERSE: int := 4005161829
  const LCG_K: int := 1029054899

  /** GetRandom: the seed after one step, which is also the value returned. */
  function NextSeed(seed: u32): u32
  {
    (seed * LCG_MUL + LCG_ADD) % TWO_TO_32
  }

  /** The step run backwards. */
  function PrevSeed(s: u32): u32
  {
    ((s - LCG_ADD) * LCG_MUL_INVERSE) % TWO_TO_32
  }

  /** Adding a multiple of 2^32 does not change a 32-bit value's residue. */
  lemma ModOfMultiple(x: int, t: int)
    requires 0 <= x < TWO_TO_32
    ensures (x + t * TWO_TO_32) % TWO_TO_32 == x
  {
  }

  /** The generator is a permutation of the 32-bit seeds: stepping back undoes a step ... */
  lemma StepIsUndone(seed: u32)
    ensures PrevSeed(NextSeed(seed)) == seed
  {
    var q := (seed * LCG_MUL + LCG_ADD) / TWO_TO_32;
    var y := NextSeed(seed);
    assert y == seed * LCG_MUL + LCG_ADD - q * TWO_TO_32;
    assert LCG_MUL * LCG_MUL_INVERSE == 1 + LCG_K * TWO_TO_32;
    assert (y - LCG_ADD) * LCG_MUL_INVERSE
        == seed + (seed * LCG_K - q * LCG_MUL_INVERSE) * TWO_TO_32;
    ModOfMultiple(seed, seed * LCG_K - q * LCG_MUL_INVERSE);
  }

  /** ... and a step undoes stepping back. */
  lemma StepUndoesBack(s: u32)
    ensures NextSeed(PrevSeed(s)) == s
  {
    var q := ((s - LCG_ADD) * LCG_MUL_INVERSE) / TWO_TO_32;
    var x := PrevSeed(s);
    assert x == (s - LCG_ADD) * LCG_MUL_INVERSE - q * TWO_TO_32;
    assert LCG_MUL * LCG_MUL_INVERSE == 1 + LCG_K * TWO_TO_32;
    assert x * LCG_MUL + LCG_ADD
        == s + ((s - LCG_ADD) * LCG_K - q * LCG_MUL) * TWO_TO_32;
    ModOfMultiple(s, (s - LCG_ADD) * LCG_K - q * LCG_MUL);
  }

  /** The seed after `n` steps. */
  function SeedAfter(seed: u32, n: nat): u32
  {
    if n == 0 then seed else NextSeed(SeedAfter(seed, n - 1))
  }

  // ---------------------------------------------------------- FillPattern

  /** Byte `j` (0 = least significant) of a seed: (seed >> 8j) & 0xFF. */
  function SeedByte(seed: u32, j: nat): byte
    requires j < 4
  {
    if j == 0 then seed % 256
    else if j == 1 then (seed / 0x100) % 256
    else if j == 2 then (seed / 0x1_0000) % 256
    else seed / 0x100_0000
  }

  /** The four bytes of a seed put back together give the seed. */
  lemma SeedBytesAssemble(seed: u32)
    ensures SeedByte(seed, 0) + 0x100 * SeedByte(seed, 1)
            + 0x1_0000 * SeedByte(seed, 2) + 0x100_0000 * SeedByte(seed, 3) == seed
  {
    var s1 := seed / 0x100;
    var s2 := s1 / 0x100;
    assert seed == seed % 256 + 0x100 * s1;
    assert s1 == s1 % 256 + 0x100 * s2;
    assert s2 == s2 % 256 + 0x100 * (s2 / 0x100);
    assert seed / 0x1_0000 == s2;
    assert seed / 0x100_0000 == s2 / 0x100;
  }

  /** `1 << k` for a bit position k. */
  function Bit(k: nat): byte
    requires k < 8
  {
    [1, 2, 4, 8, 16, 32, 64, 128][k]
  }

  /**
   * Reference definition: the byte a fill with `pattern` writes at index
   * `i`; for RANDOM, `seed` is the generator's seed before the fill and the
   * seed is stepped once at the start of every four-byte group.
   */
  function PatternByte(pattern: nat, seed: u32, i: nat): byte
    requires pattern < NUM_TEST_PATTERNS
  {
    if pattern == PATTERN_ZEROS then 0
    else if pattern == PATTERN_ONES then 0xFF
    else if pattern == PATTERN_WALKING then Bit(i % 8)
    else if pattern == PATTERN_ALTERNATING then (if i % 2 == 1 then 0xAA else 0x55)
    else SeedByte(SeedAfter(seed, i / 4 + 1), i % 4)
  }

  /** The seed a fill leaves behind: RANDOM steps it once per started group. */
  function SeedAfterFill(pattern: nat, seed: u32, size: nat): u32
  {
    if pattern == PATTERN_RANDOM then SeedAfter(seed, (size + 3) / 4) else seed
  }

  /** Each group of four RANDOM bytes is one generator output, least significant byte first. */
  lemma RandomGroupIsOneOutput(seed: u32, g: nat)
    ensures PatternByte(PATTERN_RANDOM, seed, 4 * g)
          + 0x100 * PatternByte(PATTERN_RANDOM, seed, 4 * g + 1)
          + 0x1_0000 * PatternByte(PATTERN_RANDOM, seed, 4 * g + 2)
          + 0x100_0000 * PatternByte(PATTERN_RANDOM, seed, 4 * g + 3)
          == SeedAfter(seed, g + 1)
  {
    assert (4 * g) / 4 == g && (4 * g + 1) / 4 == g && (4 * g + 2) / 4 == g && (4 * g + 3) / 4 == g;
    SeedBytesAssemble(SeedAfter(seed, g + 1));
  }

  /** WALKING sets exactly one bit, moving up one place per byte and
   *  repeating every eight bytes; ALTERNATING is 0x55 / 0xAA, bitwise complements. */
  lemma FixedPatternShapes(seed: u32, i: nat)
    ensures PatternByte(PATTERN_WALKING, seed, i) == Bit(i % 8)
    ensures PatternByte(PATTERN_WALKING, seed, i + 8) == PatternByte(PATTERN_WALKING, seed, i)
    ensures i % 8 < 7 ==> PatternByte(PATTERN_WALKING, seed, i + 1) == 2 * PatternByte(PATTERN_WALKING, seed, i)
    ensures PatternByte(PATTERN_ALTERNATING, seed, i) + PatternByte(PATTERN_ALTERNATING, seed, i + 1) == 0xFF
    ensures PatternByte(PATTERN_ALTERNATING, seed, 2 * i) == 0x55
  {
  }

  /** Write `f(i)` at every index below `size`; the rest of the buffer is kept. */
  method FillWith(buffer: seq<byte>, size: nat, f: nat -> byte) returns (buf: seq<byte>)
    requires size <= |buffer|
    ensures |buf| == |buffer|
    ensures forall i :: 0 <= i < size ==> buf[i] == f(i)
    ensures forall i :: size <= i < |buf| ==> buf[i] == buffer[i]
  {
    buf := buffer;
    var i := 0;
    while i < size
      invariant i <= size && |buf| == |buffer|
      invariant forall j :: 0 <= j < i ==> buf[j] == f(j)
      invariant forall j :: i <= j < |buf| ==> buf[j] == buffer[j]
    {
      buf := buf[i := f(i)];
      i := i + 1;
    }
  }

  /** FillPattern: fills `buffer[0..size)` and returns the generator's new seed. */
  method FillPattern(buffer: seq<byte>, size: nat, pattern: nat, seed: u32)
    returns (buf: seq<byte>, seed': u32)
    requires size <= |buffer|
    ensures |buf| == |buffer|
    ensures pattern < NUM_TEST_PATTERNS ==> forall i :: 0 <= i < size ==> buf[i] == PatternByte(pattern, seed, i)
    ensures forall i :: size <= i < |buf| ==> buf[i] == buffer[i]
    ensures pattern >= NUM_TEST_PATTERNS ==> buf == buffer
    ensures seed' == SeedAfterFill(pattern, seed, size)
  {
    seed' := seed;
    if pattern == PATTERN_ZEROS {
      buf := FillWith(buffer, size, _ => 0);
    } else if pattern == PATTERN_ONES {
      buf := FillWith(buffer, size, _ => 0xFF);
    } else if pattern == PATTERN_WALKING {
      buf := FillWith(buffer, size, (i: nat) => Bit(i % 8));
    } else if pattern == PATTERN_ALTERNATING {
      buf := FillWith(buffer, size, (i: nat) => if i % 2 == 1 then 0xAA else 0x55);
    } else if pattern == PATTERN_RANDOM {
      buf, seed' := FillRandom(buffer, size, seed);
    } else {
      buf := buffer;
    }
  }

  /** The RANDOM case: a new generator output at every index divisible by four. */
  method FillRandom(buffer: seq<byte>, size: nat, seed: u32) returns (buf: seq<byte>, seed': u32)
    requires size <= |buffer|
    ensures |buf| == |buffer|
    ensures forall i :: 0 <= i < size ==> buf[i] == PatternByte(PATTERN_RANDOM, seed, i)
    ensures forall i :: size <= i < |buf| ==> buf[i] == buffer[i]
    ensures seed' == SeedAfter(seed, (size + 3) / 4)
  {
    buf := buffer;
    seed' := seed;
    var i := 0;
    while i < size
      invariant i <= size && |buf| == |buffer|
      invariant seed' == SeedAfter(seed, (i + 3) / 4)
      invariant forall j :: 0 <= j < i ==> buf[j] == PatternByte(PATTERN_RANDOM, seed, j)
      invariant forall j :: i <= j < |buf| ==> buf[j] == buffer[j]
    {
      RandomStep(seed, i, seed');
      if i % 4 == 0 {
        seed' := NextSeed(seed');
      }
      buf := buf[i := SeedByte(seed', i % 4)];
      i := i + 1;
    }
  }

  /** One index of the RANDOM fill: the seed is stepped exactly when a new
   *  group starts, and the byte written is the reference's. */
  lemma RandomStep(seed: u32, i: nat, s: u32)
    requires s == SeedAfter(seed, (i + 3) / 4)
    ensures var s' := if i % 4 == 0 then NextSeed(s) else s;
      s' == SeedAfter(seed, (i + 4) / 4) && SeedByte(s', i % 4) == PatternByte(PATTERN_RANDOM, seed, i)
  {
    if i % 4 == 0 {
      assert (i + 3) / 4 == i / 4 && (i + 4) / 4 == i / 4 + 1;
    } else {
      assert (i + 3) / 4 == i / 4 + 1 == (i + 4) / 4;
    }
  }

  // --------------------------------------------------------- VerifyBuffer

  /** The record one test fills in and prints. */
  datatype TestResult = TestResult(
    testNumber: nat, patternType: nat, size: nat, status: int,
    errorOffset: nat, expectedValue: byte, actualValue: byte)

  /** VerifyBuffer: compares the first `size` bytes; on a mismatch the record
   *  names the first differing offset and both bytes there. */
  method VerifyBuffer(src: seq<byte>, dst: seq<byte>, size: nat, result: TestResult)
    returns (r: int, result': TestResult)
    requires size <= |src| && size <= |dst|
    ensures r == TEST_SUCCESS <==> src[..size] == dst[..size]
    ensures r == TEST_SUCCESS || r == TEST_VERIFY_ERROR
    ensures r == TEST_SUCCESS ==> result' == result
    ensures r == TEST_VERIFY_ERROR ==>
      var k := result'.errorOffset;
      k < size && src[k] != dst[k] && (forall j :: 0 <= j < k ==> src[j] == dst[j])
      && result' == result.(errorOffset := k, expectedValue := src[k], actualValue := dst[k])
  {
    var i := 0;
    while i < size
      invariant i <= size
      invariant forall j :: 0 <= j < i ==> src[j] == dst[j]
    {
      if src[i] != dst[i] {
        assert src[..size][i] != dst[..size][i];
        return TEST_VERIFY_ERROR, result.(errorOffset := i, expectedValue := src[i], actualValue := dst[i]);
      }
      i := i + 1;
    }
    assert src[..size] == dst[..size];
    return TEST_SUCCESS, result;
  }

  // ------------------------------------------------------- BuildDMAScript

  const MEMORY_MOVE_OP: bv8 := 0xC0
  const INT_OP: bv8 := 0x98
  const INT_ALWAYS_CONTROL: bv8 := 0x08
  /** What the script leaves in DSPS when the move has finished. */
  const DMA_DONE_TOKEN: bv32 := 0xDEAD_BEEF

  /** A `memmove_inst`: opcode byte, 24-bit big-endian length, source, destination. */
  function MoveBytes(src: bv32, dst: bv32, size: bv32): (b: seq<bv8>)
    ensures |b| == 12
  {
    [MEMORY_MOVE_OP, ((size >> 16) & 0xFF) as bv8, ((size >> 8) & 0xFF) as bv8, (size & 0xFF) as bv8]
    + BigEndian32(src) + BigEndian32(dst)
  }

  /** A `jump_inst` set up as INT ALWAYS with the done token. */
  function IntBytes(): (b: seq<bv8>)
    ensures |b| == 8
  {
    [INT_OP, INT_ALWAYS_CONTROL, 0, 0] + BigEndian32(DMA_DONE_TOKEN)
  }

  /**
   * BuildDMAScript: the memory move followed by the interrupt, as the 68000
   * lays the two structures out in memory: 20 bytes, big-endian.
   */
  function BuildDMAScript(src: bv32, dst: bv32, size: bv32): (script: seq<bv8>)
    ensures |script| == 20
  {
    MoveBytes(src, dst, size) + IntBytes()
  }

  /** The two instructions' fields, read back out of the bytes. */
  datatype MemMove = MemMove(op: bv8, len: bv32, source: bv32, dest: bv32)
  datatype Jump = Jump(op: bv8, control: bv8, mask: bv8, data: bv8, addr: bv32)

  function ParseMemMove(b: seq<bv8>): MemMove
    requires |b| == 12
  {
    MemMove(b[0], ((b[1] as bv32) << 16) | ((b[2] as bv32) << 8) | (b[3] as bv32),
            FromBigEndian32(b[4..8]), FromBigEndian32(b[8..12]))
  }

  function ParseJump(b: seq<bv8>): Jump
    requires |b| == 8
  {
    Jump(b[0], b[1], b[2], b[3], FromBigEndian32(b[4..8]))
  }

  /** The 24-bit length field keeps the size modulo 2^24. */
  lemma LengthBytes(size: bv32)
    ensures ((((size >> 16) & 0xFF) as bv8 as bv32) << 16) | ((((size >> 8) & 0xFF) as bv8 as bv32) << 8)
            | ((size & 0xFF) as bv8 as bv32) == size & COUNT_MASK
  {
  }

  /** The move carries what it was built from: `size` modulo 2^24 bytes from `src` to `dst`. */
  lemma MoveFields(src: bv32, dst: bv32, size: bv32)
    ensures ParseMemMove(MoveBytes(src, dst, size)) == MemMove(MEMORY_MOVE_OP, size & COUNT_MASK, src, dst)
    ensures size <= COUNT_MASK ==> ParseMemMove(MoveBytes(src, dst, size)).len == size
  {
    MoveLength(src, dst, size);
    MoveAddresses(src, dst, size);
  }

  lemma MoveLength(src: bv32, dst: bv32, size: bv32)
    ensures ParseMemMove(MoveBytes(src, dst, size)).len == size & COUNT_MASK
  {
    var m := MoveBytes(src, dst, size);
    assert m[1] == ((size >> 16) & 0xFF) as bv8 && m[2] == ((size >> 8) & 0xFF) as bv8
      && m[3] == (size & 0xFF) as bv8;
    LengthBytes(size);
  }

  lemma MoveAddresses(src: bv32, dst: bv32, size: bv32)
    ensures ParseMemMove(MoveBytes(src, dst, size)).op == MEMORY_MOVE_OP
    ensures ParseMemMove(MoveBytes(src, dst, size)).source == src
    ensures ParseMemMove(MoveBytes(src, dst, size)).dest == dst
  {
    var m := MoveBytes(src, dst, size);
    assert m[4..8] == BigEndian32(src);
    assert m[8..12] == BigEndian32(dst);
  }

  /** The script splits into the move and the interrupt; the interrupt
   *  carries the done token, and the chip decodes it as INT with that token. */
  lemma DMAScriptFields(src: bv32, dst: bv32, size: bv32)
    ensures var s := BuildDMAScript(src, dst, size);
      ParseMemMove(s[..12]) == MemMove(MEMORY_MOVE_OP, size & COUNT_MASK, src, dst)
      && ParseJump(s[12..]) == Jump(INT_OP, INT_ALWAYS_CONTROL, 0, 0, DMA_DONE_TOKEN)
      && Decode(FromBigEndian32(s[12..16]), FromBigEndian32(s[16..20])) == Interrupt(DMA_DONE_TOKEN)
  {
    var s := BuildDMAScript(src, dst, size);
    assert s[..12] == MoveBytes(src, dst, size);
    assert s[12..] == IntBytes();
    MoveFields(src, dst, size);
    IntFields();
    assert s[12..16] == IntBytes()[..4];
    assert s[16..20] == IntBytes()[4..];
  }

  /** The interrupt's fields; its first word is the INT ALWAYS opcode word. */
  lemma IntFields()
    ensures ParseJump(IntBytes()) == Jump(INT_OP, INT_ALWAYS_CONTROL, 0, 0, DMA_DONE_TOKEN)
    ensures FromBigEndian32(IntBytes()[..4]) == INT_ALWAYS_WORD
    ensures FromBigEndian32(IntBytes()[4..]) == DMA_DONE_TOKEN
  {
    var b := IntBytes();
    assert b[4..8] == b[4..] == BigEndian32(DMA_DONE_TOKEN);
    assert b[..4] == [INT_OP, INT_ALWAYS_CONTROL, 0, 0];
  }

  // ----------------------------------------------------------- RunDMATest

  const DMA_POLLS: nat := 100000

  /**
   * One iteration of the DMA wait: ISTAT, then (with DIP) DSTAT and DSPS,
   * then the fresh ISTAT and DSTAT reads CheckNCRStatus makes.
   */
  datatype DmaTick = DmaTick(istat: bv8, dstat: bv8, dsps: bv32, recheckIstat: bv8, recheckDstat: bv8)

  function DmaDecide(t: DmaTick): Decision
  {
    if !Has(t.istat, ISTAT_DIP) then Continue
    else if Has(t.dstat, DSTAT_SIR) && t.dsps == DMA_DONE_TOKEN then Done(TEST_SUCCESS)
    else if CheckNCRStatus(t.recheckIstat, t.recheckDstat) < 0 then Done(TEST_DMA_ERROR)
    else Continue
  }

  /** Success only on DIP with SIR and the done token; an error only when the
   *  recheck finds a fatal DMA condition; anything else keeps waiting. */
  lemma DmaDecideIff(t: DmaTick)
    ensures DmaDecide(t) == Done(TEST_SUCCESS) <==>
      Has(t.istat, ISTAT_DIP) && Has(t.dstat, DSTAT_SIR) && t.dsps == DMA_DONE_TOKEN
    ensures DmaDecide(t) == Done(TEST_DMA_ERROR) <==>
      Has(t.istat, ISTAT_DIP) && !(Has(t.dstat, DSTAT_SIR) && t.dsps == DMA_DONE_TOKEN)
      && Has(t.recheckIstat, ISTAT_DIP) && t.recheckDstat & FATAL_DSTAT != 0
    ensures DmaDecide(t).Done? ==> DmaDecide(t).code in {TEST_SUCCESS, TEST_DMA_ERROR}
  {
    CheckStatusIff(t.recheckIstat, t.recheckDstat);
  }

  /** The result of a transfer, as a reference definition. */
  function DmaOutcome(chip: nat -> DmaTick): int
  {
    PollFrom(DmaDecide, chip, 0, DMA_POLLS, TEST_TIMEOUT).0
  }

  /**
   * RunDMATest: builds the script at `scriptAddr`, starts it with a long
   * write of its address to DSP, and waits. Returns the result, the number
   * of iterations, the script and the DSP write (address, value).
   */
  method RunDMATest(ncrBase: bv32, src: bv32, dst: bv32, size: bv32, scriptAddr: bv32,
                    chip: nat -> DmaTick)
    returns (r: int, polls: nat, script: seq<bv8>, dspWrite: (bv32, bv32))
    ensures script == BuildDMAScript(src, dst, size)
    ensures DecodeLongWrite(ncrBase, dspWrite.0) == Some(Dsp) && dspWrite.1 == scriptAddr
    ensures r == DmaOutcome(chip)
    ensures PollOutcome(DmaDecide, chip, DMA_POLLS, TEST_TIMEOUT, r, polls)
    ensures r == TEST_SUCCESS || r == TEST_TIMEOUT || r == TEST_DMA_ERROR
    ensures r == TEST_SUCCESS ==>
      1 <= polls <= DMA_POLLS && Has(chip(polls - 1).dstat, DSTAT_SIR)
      && chip(polls - 1).dsps == DMA_DONE_TOKEN
  {
    script := BuildDMAScript(src, dst, size);
    dspWrite := (LongWriteAddress(ncrBase, Dsp), scriptAddr);
    r, polls := Wait(DmaDecide, chip, DMA_POLLS, TEST_TIMEOUT);
    PollAgreesWithReference(DmaDecide, chip, DMA_POLLS, TEST_TIMEOUT, r, polls);
    if r != TEST_TIMEOUT {
      DecidedByAnIteration(DmaDecide, chip, DMA_POLLS, TEST_TIMEOUT, r, polls);
      DmaDecideIff(chip(polls - 1));
    }
  }

  // ------------------------------------------------- RunComprehensiveTest

  /** Reference definition: the sizes tested from `s` on, doubling while
   *  they fit both the buffer and the maximum test size. */
  function SizesFrom(s: nat, bufferSize: nat): seq<nat>
    requires s >= 1
    decreases 2 * MAX_TEST_SIZE - s
  {
    if s <= bufferSize && s <= MAX_TEST_SIZE then [s] + SizesFrom(2 * s, bufferSize) else []
  }

  function TestSizes(bufferSize: nat): seq<nat>
  {
    SizesFrom(MIN_TEST_SIZE, bufferSize)
  }

  /** The tested sizes start at `s` and double, each within both bounds,
   *  and stop exactly when the next doubling would exceed one of them. */
  lemma {:induction false} SizesFromDouble(s: nat, bufferSize: nat)
    requires s >= 1
    ensures var sz := SizesFrom(s, bufferSize);
      (|sz| > 0 <==> s <= bufferSize && s <= MAX_TEST_SIZE)
      && (|sz| > 0 ==> sz[0] == s && (2 * sz[|sz| - 1] > bufferSize || 2 * sz[|sz| - 1] > MAX_TEST_SIZE))
      && (forall i :: 0 <= i < |sz| ==> sz[i] <= bufferSize && sz[i] <= MAX_TEST_SIZE)
      && (forall i :: 0 < i < |sz| ==> sz[i] == 2 * sz[i - 1])
    decreases 2 * MAX_TEST_SIZE - s
  {
    if s <= bufferSize && s <= MAX_TEST_SIZE {
      SizesFromDouble(2 * s, bufferSize);
      var rest := SizesFrom(2 * s, bufferSize);
      var sz := SizesFrom(s, bufferSize);
      assert sz == [s] + rest;
      assert forall i :: 0 < i < |sz| ==> sz[i] == rest[i - 1];
    }
  }

  /** One step of the size loop: the size after the n-th is its double,
   *  and it exists exactly when the double is within both bounds. */
  lemma SizesNext(bufferSize: nat, n: nat)
    requires n < |TestSizes(bufferSize)|
    ensures var sizes := TestSizes(bufferSize);
      (n + 1 < |sizes| <==> 2 * sizes[n] <= bufferSize && 2 * sizes[n] <= MAX_TEST_SIZE)
      && (n + 1 < |sizes| ==> sizes[n + 1] == 2 * sizes[n])
  {
    SizesFromDouble(MIN_TEST_SIZE, bufferSize);
  }

  /** The size loop's entry: the first size is the minimum, tested exactly when it fits. */
  lemma SizesStart(bufferSize: nat)
    ensures var sizes := TestSizes(bufferSize);
      (0 < |sizes| <==> MIN_TEST_SIZE <= bufferSize && MIN_TEST_SIZE <= MAX_TEST_SIZE)
      && (0 < |sizes| ==> sizes[0] == MIN_TEST_SIZE)
  {
    SizesFromDouble(MIN_TEST_SIZE, bufferSize);
  }

  /** With the 128 KiB test buffers the sizes are 4, 8, ..., 16384: thirteen sizes, 65 tests. */
  lemma FullBufferSizes()
    ensures TestSizes(TEST_BUFFER_SIZE)
         == [4, 8, 16, 32, 64, 128, 256, 512, 1024, 2048, 4096, 8192, 16384]
  {
  }

  /** What one test sees of the machine: the chip during the wait, and the
   *  byte the transfer leaves at each destination offset. */
  datatype TestEnv = TestEnv(chip: nat -> DmaTick, landed: nat -> byte)

  /** Addresses the test runs with. */
  datatype Placement = Placement(ncrBase: bv32, src: bv32, dst: bv32, script: bv32)

  /** The destination after a transfer of `size` bytes. */
  function Landed(dst: seq<byte>, size: nat, landed: nat -> byte): (d: seq<byte>)
    ensures |d| == |dst|
  {
    seq(|dst|, j requires 0 <= j < |dst| => if j < size then landed(j) else dst[j])
  }

  /** Whether a test passes: the DMA reported success and every byte landed as written. */
  predicate Passes(env: TestEnv, pattern: nat, seed: u32, size: nat)
    requires pattern < NUM_TEST_PATTERNS
  {
    DmaOutcome(env.chip) == TEST_SUCCESS
    && forall j :: 0 <= j < size ==> env.landed(j) == PatternByte(pattern, seed, j)
  }

  /** The body of the inner loop: fill, clear, transfer, verify. */
  method RunOneTest(env: TestEnv, at: Placement, src: seq<byte>, dst: seq<byte>, size: nat,
                    pattern: nat, testNumber: nat, seed: u32)
    returns (result: TestResult, src': seq<byte>, dst': seq<byte>, seed': u32)
    requires size <= |src| && size <= |dst| && size <= MAX_TEST_SIZE
    requires pattern < NUM_TEST_PATTERNS
    ensures result.testNumber == testNumber && result.patternType == pattern && result.size == size
    ensures result.status == TEST_SUCCESS <==> Passes(env, pattern, seed, size)
    ensures result.status in {TEST_SUCCESS, TEST_TIMEOUT, TEST_DMA_ERROR, TEST_VERIFY_ERROR}
    ensures result.status != TEST_VERIFY_ERROR ==> result.status == DmaOutcome(env.chip)
    ensures DmaOutcome(env.chip) != TEST_SUCCESS ==> result.status == DmaOutcome(env.chip)
    ensures |src'| == |src| && |dst'| == |dst|
    ensures seed' == SeedAfterFill(pattern, seed, size)
  {
    result := TestResult(testNumber, pattern, size, TEST_FAILED, 0, 0, 0);
    src', seed' := FillPattern(src, size, pattern, seed);
    var s2;
    dst', s2 := FillPattern(dst, size, PATTERN_ZEROS, seed');
    var status, polls, script, dspWrite :=
      RunDMATest(at.ncrBase, at.src, at.dst, size as bv32, at.script, env.chip);
    if status == TEST_SUCCESS {
      dst' := Landed(dst', size, env.landed);
      status, result := VerifyBuffer(src', dst', size, result);
      if status == TEST_SUCCESS {
        forall j | 0 <= j < size
          ensures env.landed(j) == PatternByte(pattern, seed, j)
        {
          assert src'[..size][j] == dst'[..size][j];
        }
      } else {
        var k := result.errorOffset;
        assert env.landed(k) == dst'[k] != src'[k] == PatternByte(pattern, seed, k);
      }
    }
    result := result.(status := status);
  }

  /** How many records report success. */
  function CountPassed(results: seq<TestResult>): nat
  {
    if results == [] then 0
    else CountPassed(results[..|results| - 1]) + (if results[|results| - 1].status == TEST_SUCCESS then 1 else 0)
  }

  lemma CountPassedAppend(results: seq<TestResult>, r: TestResult)
    ensures CountPassed(results + [r]) == CountPassed(results) + (if r.status == TEST_SUCCESS then 1 else 0)
  {
    assert (results + [r])[..|results|] == results;
  }

  /** Nothing failed exactly when every record reports success. */
  lemma {:induction false} AllPassedIff(results: seq<TestResult>)
    ensures CountPassed(results) <= |results|
    ensures CountPassed(results) == |results| <==> forall k :: 0 <= k < |results| ==> results[k].status == TEST_SUCCESS
  {
    if results != [] {
      var init := results[..|results| - 1];
      AllPassedIff(init);
      assert forall k :: 0 <= k < |init| ==> init[k] == results[k];
    }
  }

  /** The records in test order: test n (from 1) is pattern (n-1) mod 5 at size index (n-1) / 5. */
  ghost predicate Numbered(results: seq<TestResult>, sizes: seq<nat>)
  {
    forall k :: 0 <= k < |results| ==>
      k / NUM_TEST_PATTERNS < |sizes|
      && results[k].testNumber == k + 1 && results[k].patternType == k % NUM_TEST_PATTERNS
      && results[k].size == sizes[k / NUM_TEST_PATTERNS]
  }

  /** Appending test `pattern` of size group `n` keeps the records in order. */
  lemma NumberedAppend(results: seq<TestResult>, sizes: seq<nat>, n: nat, pattern: nat, r: TestResult)
    requires Numbered(results, sizes) && n < |sizes| && pattern < NUM_TEST_PATTERNS
    requires |results| == NUM_TEST_PATTERNS * n + pattern
    requires r.testNumber == |results| + 1 && r.patternType == pattern && r.size == sizes[n]
    ensures Numbered(results + [r], sizes)
  {
    assert |results| / NUM_TEST_PATTERNS == n && |results| % NUM_TEST_PATTERNS == pattern;
  }

  /** The counters agree with the records. */
  ghost predicate Tallied(results: seq<TestResult>, passed: nat, failed: nat, testNum: nat)
  {
    testNum == |results| && passed + failed == testNum && passed == CountPassed(results)
  }

  /** The generator's seed when size group `n` starts: each earlier group's
   *  RANDOM fill stepped it once per started four-byte group, and the other
   *  patterns leave it alone. */
  function SeedAtSize(seed: u32, sizes: seq<nat>, n: nat): u32
    requires n <= |sizes|
  {
    if n == 0 then seed else SeedAfter(SeedAtSize(seed, sizes, n - 1), (sizes[n - 1] + 3) / 4)
  }

  /** The next group starts where this group's RANDOM fill left the seed. */
  lemma SeedAtNextSize(seed: u32, sizes: seq<nat>, n: nat)
    requires n < |sizes|
    ensures SeedAtSize(seed, sizes, n + 1) == SeedAfter(SeedAtSize(seed, sizes, n), (sizes[n] + 3) / 4)
  {
  }

  /** Whether test k + 1 of the matrix passes: pattern k mod 5 at size group
   *  k / 5, with the environment that test sees and its group's seed. */
  ghost predicate TestPasses(envs: nat -> TestEnv, seed: u32, sizes: seq<nat>, k: nat)
    requires k / NUM_TEST_PATTERNS < |sizes|
  {
    var n := k / NUM_TEST_PATTERNS;
    Passes(envs(k + 1), k % NUM_TEST_PATTERNS, SeedAtSize(seed, sizes, n), sizes[n])
  }

  /** Every test of the matrix passes. */
  ghost predicate MatrixPasses(envs: nat -> TestEnv, seed: u32, sizes: seq<nat>)
  {
    forall k: nat :: k < NUM_TEST_PATTERNS * |sizes| ==> TestPasses(envs, seed, sizes, k)
  }

  /** Each record reports success exactly when its own test passes. */
  ghost predicate Judged(results: seq<TestResult>, sizes: seq<nat>, envs: nat -> TestEnv, seed: u32)
  {
    forall k: nat {:trigger TestPasses(envs, seed, sizes, k)} :: k < |results| && k / NUM_TEST_PATTERNS < |sizes| ==>
      (results[k].status == TEST_SUCCESS <==> TestPasses(envs, seed, sizes, k))
  }

  /** Records `from` up to `to` are one size group's: record k reports
   *  success exactly when pattern k - from passed at `size` with `seed`. */
  ghost predicate GroupJudged(results: seq<TestResult>, from: nat, to: nat,
                              envs: nat -> TestEnv, seed: u32, size: nat)
  {
    forall k: nat :: from <= k < to && k < |results| && k - from < NUM_TEST_PATTERNS ==>
      (results[k].status == TEST_SUCCESS <==> Passes(envs(k + 1), k - from, seed, size))
  }

  /** Appending the next pattern's record, judged by its own test, keeps the group judged and the records before it. */
  lemma GroupJudgedAppend(results: seq<TestResult>, from: nat, envs: nat -> TestEnv, seed: u32,
                          size: nat, r: TestResult)
    requires from <= |results| < from + NUM_TEST_PATTERNS
    requires GroupJudged(results, from, |results|, envs, seed, size)
    requires r.status == TEST_SUCCESS <==> Passes(envs(|results| + 1), |results| - from, seed, size)
    ensures GroupJudged(results + [r], from, |results| + 1, envs, seed, size)
    ensures (results + [r])[..from] == results[..from]
  {
    var rs := results + [r];
    forall k: nat | from <= k < |results| + 1 && k < |rs| && k - from < NUM_TEST_PATTERNS
      ensures rs[k].status == TEST_SUCCESS <==> Passes(envs(k + 1), k - from, seed, size)
    {
      if k < |results| {
        assert rs[k] == results[k];
      }
    }
  }

  /** Five records of size group `n`, each judged by its own test, extend the judged records. */
  lemma JudgedAppendGroup(results: seq<TestResult>, results': seq<TestResult>, sizes: seq<nat>,
                          envs: nat -> TestEnv, seed: u32, n: nat)
    requires Judged(results, sizes, envs, seed) && |results| == NUM_TEST_PATTERNS * n && n < |sizes|
    requires |results'| == |results| + NUM_TEST_PATTERNS && results'[..|results|] == results
    requires GroupJudged(results', |results|, |results'|, envs, SeedAtSize(seed, sizes, n), sizes[n])
    ensures Judged(results', sizes, envs, seed)
  {
    forall k: nat | k < |results'| && k / NUM_TEST_PATTERNS < |sizes|
      ensures results'[k].status == TEST_SUCCESS <==> TestPasses(envs, seed, sizes, k)
    {
      if k < |results| {
        assert results'[k] == results'[..|results|][k];
      } else {
        assert k / NUM_TEST_PATTERNS == n && k % NUM_TEST_PATTERNS == k - |results|;
      }
    }
  }

  /** Over the whole matrix, every record succeeds exactly when every test passes. */
  lemma AllJudgedPass(results: seq<TestResult>, sizes: seq<nat>, envs: nat -> TestEnv, seed: u32)
    requires Judged(results, sizes, envs, seed) && Numbered(results, sizes)
    requires |results| == NUM_TEST_PATTERNS * |sizes|
    ensures (forall k :: 0 <= k < |results| ==> results[k].status == TEST_SUCCESS)
            <==> MatrixPasses(envs, seed, sizes)
  {
    if forall k :: 0 <= k < |results| ==> results[k].status == TEST_SUCCESS {
      forall k: nat | k < NUM_TEST_PATTERNS * |sizes|
        ensures TestPasses(envs, seed, sizes, k)
      {
        assert results[k].status == TEST_SUCCESS;
      }
    }
    if MatrixPasses(envs, seed, sizes) {
      forall k | 0 <= k < |results|
        ensures results[k].status == TEST_SUCCESS
      {
        assert TestPasses(envs, seed, sizes, k);
      }
    }
  }

  /** One pass of the pattern loop: run test `pattern` of size group `n`
   *  (whose records start at `from`), append its record and count it. */
  method RunPattern(envs: nat -> TestEnv, at: Placement, src: seq<byte>, dst: seq<byte>, size: nat,
                    pattern: nat, seed: u32, results: seq<TestResult>, passed: nat, failed: nat,
                    testNum: nat, ghost sizes: seq<nat>, ghost n: nat, ghost from: nat)
    returns (src': seq<byte>, dst': seq<byte>, seed': u32,
             results': seq<TestResult>, passed': nat, failed': nat, testNum': nat)
    requires size <= |src| && size <= |dst| && size <= MAX_TEST_SIZE && pattern < NUM_TEST_PATTERNS
    requires Tallied(results, passed, failed, testNum) && Numbered(results, sizes)
    requires from == NUM_TEST_PATTERNS * n && |results| == from + pattern && n < |sizes| && sizes[n] == size
    requires GroupJudged(results, from, |results|, envs, seed, size)
    ensures |src'| == |src| && |dst'| == |dst|
    ensures |results'| == |results| + 1 && results'[..from] == results[..from]
    ensures Tallied(results', passed', failed', testNum') && Numbered(results', sizes)
    ensures GroupJudged(results', from, |results'|, envs, seed, size)
    ensures seed' == SeedAfterFill(pattern, seed, size)
  {
    testNum' := testNum + 1;
    var result;
    result, src', dst', seed' := RunOneTest(envs(testNum'), at, src, dst, size, pattern, testNum', seed);
    passed', failed' := passed, failed;
    if result.status == TEST_SUCCESS {
      passed' := passed' + 1;
    } else {
      failed' := failed' + 1;
    }
    CountPassedAppend(results, result);
    NumberedAppend(results, sizes, n, pattern, result);
    GroupJudgedAppend(results, from, envs, seed, size, result);
    results' := results + [result];
  }

  /** The five patterns at one size, appended to the records so far; each
   *  record reports its own test, and only the last pattern, RANDOM, moves
   *  the generator's seed. */
  method RunSize(envs: nat -> TestEnv, at: Placement, src: seq<byte>, dst: seq<byte>, size: nat,
                 seed: u32, results: seq<TestResult>, passed: nat, failed: nat, testNum: nat,
                 ghost sizes: seq<nat>, ghost n: nat)
    returns (src': seq<byte>, dst': seq<byte>, seed': u32,
             results': seq<TestResult>, passed': nat, failed': nat, testNum': nat)
    requires size <= |src| && size <= |dst| && size <= MAX_TEST_SIZE
    requires Tallied(results, passed, failed, testNum) && Numbered(results, sizes)
    requires |results| == NUM_TEST_PATTERNS * n && n < |sizes| && sizes[n] == size
    ensures |src'| == |src| && |dst'| == |dst|
    ensures |results'| == |results| + NUM_TEST_PATTERNS && results'[..|results|] == results
    ensures Tallied(results', passed', failed', testNum') && Numbered(results', sizes)
    ensures GroupJudged(results', |results|, |results'|, envs, seed, size)
    ensures seed' == SeedAfter(seed, (size + 3) / 4)
  {
    src', dst', seed' := src, dst, seed;
    results', passed', failed', testNum' := results, passed, failed, testNum;
    var pattern := 0;
    while pattern < NUM_TEST_PATTERNS
      invariant pattern <= NUM_TEST_PATTERNS
      invariant |src'| == |src| && |dst'| == |dst|
      invariant |results'| == |results| + pattern && results'[..|results|] == results
      invariant Tallied(results', passed', failed', testNum') && Numbered(results', sizes)
      invariant GroupJudged(results', |results|, |results'|, envs, seed, size)
      invariant seed' == if pattern == NUM_TEST_PATTERNS then SeedAfter(seed, (size + 3) / 4) else seed
    {
      src', dst', seed', results', passed', failed', testNum' :=
        RunPattern(envs, at, src', dst', size, pattern, seed', results', passed', failed', testNum',
                   sizes, n, |results|);
      pattern := pattern + 1;
    }
  }

  /** The state after the first `n` size groups: their records, counted,
   *  in order and each reporting its own test, and the seed group `n` starts with. */
  ghost predicate MatrixSoFar(results: seq<TestResult>, passed: nat, failed: nat, testNum: nat,
                              sizes: seq<nat>, n: nat, envs: nat -> TestEnv, seed: u32, current: u32)
  {
    n <= |sizes| && |results| == NUM_TEST_PATTERNS * n
    && Tallied(results, passed, failed, testNum) && Numbered(results, sizes)
    && Judged(results, sizes, envs, seed) && current == SeedAtSize(seed, sizes, n)
  }

  /** Size group `n` of the matrix, run from the seed the group starts with. */
  method RunGroup(envs: nat -> TestEnv, at: Placement, src: seq<byte>, dst: seq<byte>, size: nat,
                  current: u32, results: seq<TestResult>, passed: nat, failed: nat, testNum: nat,
                  ghost sizes: seq<nat>, ghost n: nat, ghost seed: u32)
    returns (src': seq<byte>, dst': seq<byte>, current': u32,
             results': seq<TestResult>, passed': nat, failed': nat, testNum': nat)
    requires size <= |src| && size <= |dst| && size <= MAX_TEST_SIZE
    requires n < |sizes| && sizes[n] == size
    requires MatrixSoFar(results, passed, failed, testNum, sizes, n, envs, seed, current)
    ensures |src'| == |src| && |dst'| == |dst|
    ensures MatrixSoFar(results', passed', failed', testNum', sizes, n + 1, envs, seed, current')
  {
    src', dst', current', results', passed', failed', testNum' :=
      RunSize(envs, at, src, dst, size, current, results, passed, failed, testNum, sizes, n);
    JudgedAppendGroup(results, results', sizes, envs, seed, n);
    SeedAtNextSize(seed, sizes, n);
  }

  /** The size loop: every size of the test matrix, in order. */
  method RunAllSizes(envs: nat -> TestEnv, at: Placement, src: seq<byte>, dst: seq<byte>,
                     bufferSize: nat, seed: u32)
    returns (results: seq<TestResult>, passed: nat, failed: nat, testNum: nat, seed': u32)
    requires bufferSize <= |src| && bufferSize <= |dst|
    ensures |results| == NUM_TEST_PATTERNS * |TestSizes(bufferSize)|
    ensures Tallied(results, passed, failed, testNum) && Numbered(results, TestSizes(bufferSize))
    ensures Judged(results, TestSizes(bufferSize), envs, seed)
    ensures seed' == SeedAtSize(seed, TestSizes(bufferSize), |TestSizes(bufferSize)|)
  {
    ghost var sizes := TestSizes(bufferSize);
    var s, d := src, dst;
    seed' := seed;
    results := [];
    passed, failed, testNum := 0, 0, 0;
    var size := MIN_TEST_SIZE;
    ghost var n := 0;
    SizesStart(bufferSize);
    while size <= bufferSize && size <= MAX_TEST_SIZE
      invariant n <= |sizes|
      invariant n < |sizes| <==> size <= bufferSize && size <= MAX_TEST_SIZE
      invariant n < |sizes| ==> sizes[n] == size
      invariant |s| == |src| && |d| == |dst|
      invariant MatrixSoFar(results, passed, failed, testNum, sizes, n, envs, seed, seed')
      decreases 2 * MAX_TEST_SIZE - size
    {
      SizesNext(bufferSize, n);
      s, d, seed', results, passed, failed, testNum :=
        RunGroup(envs, at, s, d, size, seed', results, passed, failed, testNum, sizes, n, seed);
      size := size * 2;
      n := n + 1;
    }
  }

  /**
   * RunComprehensiveTest over buffers `src` and `dst` of `bufferSize` bytes;
   * test number n sees `envs(n)`. Returns the result, the records in
   * order, the counters and the generator's seed afterwards.
   */
  method RunComprehensiveTest(envs: nat -> TestEnv, at: Placement, src: seq<byte>, dst: seq<byte>,
                              bufferSize: nat, seed: u32)
    returns (r: int, results: seq<TestResult>, passed: nat, failed: nat, testNum: nat, seed': u32)
    requires bufferSize <= |src| && bufferSize <= |dst|
    ensures testNum == |results| == NUM_TEST_PATTERNS * |TestSizes(bufferSize)|
    ensures Numbered(results, TestSizes(bufferSize))
    ensures passed + failed == testNum && passed == CountPassed(results)
    ensures r == 0 <==> failed == 0
    ensures r == 0 <==> forall k :: 0 <= k < |results| ==> results[k].status == TEST_SUCCESS
    ensures Judged(results, TestSizes(bufferSize), envs, seed)
    ensures r == 0 <==> MatrixPasses(envs, seed, TestSizes(bufferSize))
    ensures seed' == SeedAtSize(seed, TestSizes(bufferSize), |TestSizes(bufferSize)|)
    ensures r == 0 || r == -1
  {
    results, passed, failed, testNum, seed' := RunAllSizes(envs, at, src, dst, bufferSize, seed);
    AllPassedIff(results);
    AllJudgedPass(results, TestSizes(bufferSize), envs, seed);
    r := if failed == 0 then 0 else -1;
  }
}
