/**
 * The table-indirect layer's commands: INQUIRY and one READ(10) chunk each
 * allocate a DSA entry, build it, start the shared script and poll; the
 * 32 MiB read issues 512 chunk reads of 128 blocks into one buffer; and the
 * INQUIRY report decodes the 36 returned bytes.
 */
module NcrScsiOps {
  import opened Common
  import opened ScsiDefs
  import opened Poll
  import opened Completion
  import opened Dsa

  const INQUIRY_POLLS: nat := 1_000_000
  const READ10_POLLS: nat := 5_000_000

  /**
   * What one command sees of the machine: whether its DSA entry could be
   * allocated, where it lives, and the chip's reads during the wait.
   */
  datatype Command = Command(allocOk: bool, dsaAddr: bv32, chip: nat -> Snapshot)

  /** The result a table-indirect command reports after polling at most `limit` times. */
  function NcrOutcome(c: Command, limit: nat): int
  {
    if !c.allocOk then NCR_ERR_ALLOC
    else PollFrom(NcrDecide, c.chip, 0, limit, NCR_ERR_TIMEOUT).0
  }

  /**
   * Start the shared script on an allocated entry and wait for it: the
   * polling both commands share.
   */
  method RunScript(c: Command, limit: nat) returns (r: int, polls: nat)
    requires c.allocOk
    ensures r == NcrOutcome(c, limit)
    ensures PollOutcome(NcrDecide, c.chip, limit, NCR_ERR_TIMEOUT, r, polls)
    ensures r == NCR_OK ==>
      1 <= polls <= limit && c.chip(polls - 1).dsps == TOKEN_INQUIRY_DONE
      && c.chip(polls - 1).status == STATUS_GOOD
  {
    r, polls := Wait(NcrDecide, c.chip, limit, NCR_ERR_TIMEOUT);
    PollAgreesWithReference(NcrDecide, c.chip, limit, NCR_ERR_TIMEOUT, r, polls);
    if r == NCR_OK {
      DecidedByAnIteration(NcrDecide, c.chip, limit, NCR_ERR_TIMEOUT, r, polls);
      NcrOkIff(c.chip(polls - 1));
    }
  }

  /** DoInquiry: INQUIRY of `target` into `dataBuf`. */
  method DoInquiry(c: Command, target: bv8, dataBuf: bv32) returns (r: int, polls: nat, dsa: Option<DsaEntry>)
    requires target < 8
    ensures r == NcrOutcome(c, INQUIRY_POLLS)
    ensures dsa.None? <==> !c.allocOk
    ensures !c.allocOk ==> r == NCR_ERR_ALLOC && polls == 0
    ensures c.allocOk ==>
      dsa.value == BuildInquiryDSA(c.dsaAddr, target, dataBuf)
      && PollOutcome(NcrDecide, c.chip, INQUIRY_POLLS, NCR_ERR_TIMEOUT, r, polls)
    ensures r == NCR_OK ==>
      1 <= polls <= INQUIRY_POLLS && c.chip(polls - 1).dsps == TOKEN_INQUIRY_DONE
      && c.chip(polls - 1).status == STATUS_GOOD
  {
    if !c.allocOk {
      return NCR_ERR_ALLOC, 0, None;
    }
    dsa := Some(BuildInquiryDSA(c.dsaAddr, target, dataBuf));
    r, polls := RunScript(c, INQUIRY_POLLS);
  }

  /** DoRead10Chunk: READ(10) of `blocks` blocks at `lba` into `dataBuf`. */
  method DoRead10Chunk(c: Command, target: bv8, lba: bv32, blocks: bv16, dataBuf: bv32)
    returns (r: int, polls: nat, dsa: Option<DsaEntry>)
    requires target < 8
    ensures r == NcrOutcome(c, READ10_POLLS)
    ensures dsa.None? <==> !c.allocOk
    ensures !c.allocOk ==> r == NCR_ERR_ALLOC && polls == 0
    ensures c.allocOk ==>
      dsa.value == BuildRead10DSA(c.dsaAddr, target, lba, blocks, dataBuf)
      && PollOutcome(NcrDecide, c.chip, READ10_POLLS, NCR_ERR_TIMEOUT, r, polls)
    ensures r == NCR_OK ==>
      1 <= polls <= READ10_POLLS && c.chip(polls - 1).dsps == TOKEN_INQUIRY_DONE
      && c.chip(polls - 1).status == STATUS_GOOD
  {
    if !c.allocOk {
      return NCR_ERR_ALLOC, 0, None;
    }
    dsa := Some(BuildRead10DSA(c.dsaAddr, target, lba, blocks, dataBuf));
    r, polls := RunScript(c, READ10_POLLS);
  }

  // ------------------------------------------------------------ 32 MiB read

  /** One chunk read as issued: start block, block count and destination address. */
  datatype ChunkRead = ChunkRead(lba: nat, blocks: nat, addr: nat)

  /** Bytes per chunk and chunks per transfer (see `ChunksTile`). */
  const CHUNK_BYTES: nat := 65536
  const CHUNK_COUNT: nat := 512

  /** The k-th chunk read of a transfer into `buffer`. */
  function NthChunk(buffer: nat, k: nat): ChunkRead
  {
    ChunkRead(k * READ_CHUNK_BLOCKS, READ_CHUNK_BLOCKS, buffer + k * CHUNK_BYTES)
  }

  /** Reference definition: given each chunk's result, the result of chunks
   *  `k` onward, namely the first failing chunk's code, or 0. */
  function FirstFailure(outcome: nat -> int, k: nat): int
    requires k <= CHUNK_COUNT
    decreases CHUNK_COUNT - k
  {
    if k == CHUNK_COUNT then NCR_OK
    else if outcome(k) != NCR_OK then outcome(k)
    else FirstFailure(outcome, k + 1)
  }

  /** Each chunk's result when chunk `k` sees `chunk(k)`. */
  function ChunkOutcomes(chunk: nat -> Command): nat -> int
  {
    (k: nat) => NcrOutcome(chunk(k), READ10_POLLS)
  }

  /** Chunk `k` reports what a READ(10) chunk command seeing `chunk(k)` reports. */
  lemma ChunkOutcomeIs(chunk: nat -> Command, k: nat)
    ensures ChunkOutcomes(chunk)(k) == NcrOutcome(chunk(k), READ10_POLLS)
    ensures !chunk(k).allocOk ==> ChunkOutcomes(chunk)(k) == NCR_ERR_ALLOC
  {
  }

  /** The result of the whole read. */
  function Read32Outcome(fastOk: bool, chipOk: bool, chunk: nat -> Command): int
  {
    if !fastOk && !chipOk then NCR_ERR_ALLOC else FirstFailure(ChunkOutcomes(chunk), 0)
  }

  /** The reference is 0 exactly when every chunk from `k` on succeeded, and
   *  otherwise the code of the first one that failed. */
  lemma {:induction false} FirstFailureIs(outcome: nat -> int, k: nat)
    requires k <= CHUNK_COUNT
    ensures FirstFailure(outcome, k) == NCR_OK <==> forall j :: k <= j < CHUNK_COUNT ==> outcome(j) == NCR_OK
    ensures FirstFailure(outcome, k) != NCR_OK ==>
      exists j :: k <= j < CHUNK_COUNT && FirstFailure(outcome, k) == outcome(j)
        && (forall i :: k <= i < j ==> outcome(i) == NCR_OK)
    decreases CHUNK_COUNT - k
  {
    if k < CHUNK_COUNT {
      FirstFailureIs(outcome, k + 1);
      if outcome(k) == NCR_OK && FirstFailure(outcome, k) != NCR_OK {
        var j :| k + 1 <= j < CHUNK_COUNT && FirstFailure(outcome, k + 1) == outcome(j)
                 && forall i :: k + 1 <= i < j ==> outcome(i) == NCR_OK;
        assert forall i :: k <= i < j ==> outcome(i) == NCR_OK;
      }
    }
  }

  /** Every chunk below `n` succeeded. */
  ghost predicate AllOk(outcome: nat -> int, n: nat)
  {
    forall j :: 0 <= j < n ==> outcome(j) == NCR_OK
  }

  /** Loop step: one more chunk succeeded. */
  lemma AllOkExtend(outcome: nat -> int, n: nat)
    requires AllOk(outcome, n) && outcome(n) == NCR_OK
    ensures AllOk(outcome, n + 1)
  {
  }

  /** A succeeding chunk does not change the first failure. */
  lemma FirstFailureSkips(outcome: nat -> int, k: nat)
    requires k < CHUNK_COUNT && outcome(k) == NCR_OK
    ensures FirstFailure(outcome, k) == FirstFailure(outcome, k + 1)
  {
  }

  /**
   * DoRead32MB: allocate the buffer in FAST memory, else CHIP memory, then
   * read it in chunks; `chunk(k)` is what the k-th chunk read sees. An
   * allocated buffer lies inside the 32-bit address space.
   */
  method DoRead32MB(fastOk: bool, fastAddr: nat, chipOk: bool, chipAddr: nat, target: bv8,
                    chunk: nat -> Command)
    returns (r: int, issued: seq<ChunkRead>)
    requires target < 8
    requires fastOk ==> fastAddr + READ_32MB_SIZE <= TWO_TO_32
    requires chipOk ==> chipAddr + READ_32MB_SIZE <= TWO_TO_32
    ensures r == Read32Outcome(fastOk, chipOk, chunk)
    ensures !fastOk && !chipOk ==> r == NCR_ERR_ALLOC && issued == []
    ensures fastOk || chipOk ==>
      ReadsInOrder(if fastOk then fastAddr else chipAddr, chunk, r, issued)
  {
    if fastOk {
      r, issued := ReadChunks(fastAddr, target, chunk);
    } else if chipOk {
      r, issued := ReadChunks(chipAddr, target, chunk);
    } else {
      return NCR_ERR_ALLOC, [];
    }
  }

  /**
   * What the chunk loop leaves behind: the reads issued are the first chunks
   * in order, every one but the last succeeded, the last one's code is the
   * result, and a shortened run always reports a failure.
   */
  ghost predicate ReadsInOrder(buffer: nat, chunk: nat -> Command, r: int, issued: seq<ChunkRead>)
  {
    1 <= |issued| <= CHUNK_COUNT
    && (forall k :: 0 <= k < |issued| ==> issued[k] == NthChunk(buffer, k))
    && AllOk(ChunkOutcomes(chunk), |issued| - 1)
    && r == ChunkOutcomes(chunk)(|issued| - 1)
    && (r == NCR_OK ==> |issued| == CHUNK_COUNT)
    && (|issued| < CHUNK_COUNT ==> r != NCR_OK)
  }

  /** The read loop over an allocated buffer. */
  method ReadChunks(buffer: nat, target: bv8, chunk: nat -> Command) returns (r: int, issued: seq<ChunkRead>)
    requires target < 8 && buffer + READ_32MB_SIZE <= TWO_TO_32
    ensures r == FirstFailure(ChunkOutcomes(chunk), 0)
    ensures ReadsInOrder(buffer, chunk, r, issued)
  {
    ghost var outcome := ChunkOutcomes(chunk);
    var lba: nat := 0;
    var blocksRead: nat := 0;
    issued := [];
    while blocksRead < READ_32MB_BLOCKS
      invariant blocksRead == |issued| * 128 <= 65536
      invariant lba == blocksRead
      invariant forall k :: 0 <= k < |issued| ==> issued[k] == NthChunk(buffer, k)
      invariant AllOk(outcome, |issued|)
      invariant FirstFailure(outcome, 0) == FirstFailure(outcome, |issued|)
    {
      var k := |issued|;
      var res, read := ReadChunk(chunk, target, buffer, k, blocksRead, lba);
      issued := issued + [read];
      if res != NCR_OK {
        return res, issued;
      }
      AllOkExtend(outcome, k);
      FirstFailureSkips(outcome, k);
      lba := lba + read.blocks;
      blocksRead := blocksRead + read.blocks;
    }
    r := NCR_OK;
  }

  /** One pass of the read loop: the k-th chunk, `blocksRead` blocks in. */
  method ReadChunk(chunk: nat -> Command, target: bv8, buffer: nat, k: nat, blocksRead: nat, lba: nat)
    returns (res: int, read: ChunkRead)
    requires target < 8 && buffer + READ_32MB_SIZE <= TWO_TO_32
    requires blocksRead == k * 128 < 65536 && lba == blocksRead
    ensures k < CHUNK_COUNT && read == NthChunk(buffer, k)
    ensures res == ChunkOutcomes(chunk)(k)
  {
    ReadGeometry();
    var blocksToRead: int := READ_CHUNK_BLOCKS;
    var chunkBuf: nat := buffer + blocksRead * BLOCK_SIZE;
    if blocksRead + blocksToRead > READ_32MB_BLOCKS {
      blocksToRead := READ_32MB_BLOCKS - blocksRead;
    }
    ChunkStep(buffer, k, blocksRead, blocksToRead, chunkBuf);
    var polls, dsa;
    res, polls, dsa := DoRead10Chunk(chunk(k), target, lba as bv32, blocksToRead as bv16, chunkBuf as bv32);
    read := ChunkRead(lba, blocksToRead, chunkBuf);
  }

  /** The loop's arithmetic: the next read is the k-th chunk. */
  lemma ChunkStep(buffer: nat, k: nat, blocksRead: nat, blocksToRead: nat, chunkBuf: nat)
    requires blocksRead == k * 128 < 65536 && blocksToRead == 128
    requires chunkBuf == buffer + blocksRead * 512
    ensures k < CHUNK_COUNT && blocksRead + blocksToRead <= 65536
    ensures ChunkRead(blocksRead, blocksToRead, chunkBuf) == NthChunk(buffer, k)
  {
    ReadGeometry();
    assert blocksRead * 512 == k * 65536;
  }

  /** The read reports success exactly when a buffer was allocated and all 512 chunks succeeded. */
  lemma Read32OkIff(fastOk: bool, chipOk: bool, chunk: nat -> Command)
    ensures Read32Outcome(fastOk, chipOk, chunk) == NCR_OK <==>
      (fastOk || chipOk) && forall k :: 0 <= k < CHUNK_COUNT ==> ChunkOutcomes(chunk)(k) == NCR_OK
  {
    FirstFailureIs(ChunkOutcomes(chunk), 0);
  }

  /** The chunks tile the first 32 MiB of the disk and of the buffer: 512 reads
   *  of 128 blocks, each starting where the previous one ended. */
  lemma ChunksTile(buffer: nat, k: nat)
    requires k + 1 < CHUNK_COUNT
    ensures CHUNK_COUNT == READ_32MB_BLOCKS / READ_CHUNK_BLOCKS && CHUNK_BYTES == READ_CHUNK_SIZE
    ensures NthChunk(buffer, k + 1).lba == NthChunk(buffer, k).lba + NthChunk(buffer, k).blocks
    ensures NthChunk(buffer, k + 1).addr == NthChunk(buffer, k).addr + NthChunk(buffer, k).blocks * BLOCK_SIZE
    ensures NthChunk(buffer, CHUNK_COUNT - 1).addr + CHUNK_BYTES == buffer + READ_32MB_SIZE
    ensures NthChunk(buffer, CHUNK_COUNT - 1).lba + READ_CHUNK_BLOCKS == READ_32MB_BLOCKS
  {
    ReadGeometry();
  }

  // -------------------------------------------------------- INQUIRY report

  /** The standard INQUIRY data the target returns (36 bytes). */
  datatype InquiryData = InquiryData(
    deviceType: bv8, removable: bv8, version: bv8, responseFormat: bv8, additionalLength: bv8,
    reserved: seq<bv8>, vendor: seq<bv8>, product: seq<bv8>, revision: seq<bv8>)

  predicate ValidInquiry(d: InquiryData)
  {
    |d.reserved| == 3 && |d.vendor| == 8 && |d.product| == 16 && |d.revision| == 4
  }

  /** The structure laid over the 36 received bytes. */
  function ParseInquiry(b: seq<bv8>): (d: InquiryData)
    requires |b| == 36
    ensures ValidInquiry(d)
  {
    InquiryData(b[0], b[1], b[2], b[3], b[4], b[5..8], b[8..16], b[16..32], b[32..36])
  }

  /** The bytes of the structure, in memory order. */
  function InquiryBytes(d: InquiryData): (b: seq<bv8>)
    requires ValidInquiry(d)
    ensures |b| == 36
  {
    [d.deviceType, d.removable, d.version, d.responseFormat, d.additionalLength]
      + d.reserved + d.vendor + d.product + d.revision
  }

  /** The layout is exact: parsing and laying out are inverse. */
  lemma InquiryLayoutRoundTrip(b: seq<bv8>, d: InquiryData)
    requires |b| == 36 && ValidInquiry(d)
    ensures InquiryBytes(ParseInquiry(b)) == b
    ensures ParseInquiry(InquiryBytes(d)) == d
  {
    assert b == b[..5] + b[5..8] + b[8..16] + b[16..32] + b[32..36];
    var e := InquiryBytes(d);
    assert e[5..8] == d.reserved && e[8..16] == d.vendor;
    assert e[16..32] == d.product && e[32..36] == d.revision;
  }

  const DeviceTypes: seq<string> := [
    "Direct-access (disk)", "Sequential-access (tape)", "Printer", "Processor",
    "Write-once", "CD-ROM", "Scanner", "Optical memory", "Medium changer", "Communications"]

  /** The printed name of a peripheral device type. */
  function DeviceTypeName(t: bv8): (name: string)
    ensures t < 10 ==> name == DeviceTypes[t]
    ensures name == "Unknown" <==> t >= 10
  {
    if t < 10 then DeviceTypes[t] else "Unknown"
  }

  /** A fixed-width field copied out and terminated. */
  function Terminated(field: seq<bv8>): (s: seq<bv8>)
    ensures |s| == |field| + 1 && s[..|field|] == field && s[|field|] == 0
  {
    field + [0]
  }

  /** What PrintInquiryData shows. */
  datatype InquiryReport = InquiryReport(
    typeCode: bv8, typeName: string, removable: bool, version: bv8,
    vendor: seq<bv8>, product: seq<bv8>, revision: seq<bv8>)

  function Report(d: InquiryData): (rep: InquiryReport)
    requires ValidInquiry(d)
    ensures rep.typeName == DeviceTypeName(d.deviceType)
    ensures rep.removable <==> d.removable >= 0x80
    ensures |rep.vendor| == 9 && rep.vendor[..8] == d.vendor && rep.vendor[8] == 0
    ensures |rep.product| == 17 && rep.product[..16] == d.product && rep.product[16] == 0
    ensures |rep.revision| == 5 && rep.revision[..4] == d.revision && rep.revision[4] == 0
  {
    InquiryReport(d.deviceType, DeviceTypeName(d.deviceType), d.removable & 0x80 != 0, d.version,
                  Terminated(d.vendor), Terminated(d.product), Terminated(d.revision))
  }
}
