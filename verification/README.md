# ncrtest in Dafny

A model of the test driver for the NCR 53C710 SCSI I/O processor on the
Amiga A4000T. The driver exercises the chip in four ways.

- It brings the chip up: a presence check through the GARY bus controller,
  a software reset through ISTAT, and register configuration.
- It runs memory-to-memory DMA tests. Each test is a two-instruction
  SCRIPTS program that moves a buffer and raises an interrupt. The tests
  form a matrix of sizes (4 bytes up to 16 KiB, doubling) and five fill
  patterns. Every transfer is checked byte by byte.
- It issues SCSI commands. TEST UNIT READY and READ(6) use self-built
  scripts with absolute addresses, and the bus scan is built on them.
  INQUIRY and READ(10) use a fixed table-indirect script driven by a DSA
  (data structure address) entry; a 32 MiB read is split into 64 KiB
  READ(10) chunks.
- It has an interrupt handler that counts the chip's interrupts and keeps
  the last status it read.

The chip is never touched directly. Register reads are inputs: a polling
loop sees a function from the iteration number to what that iteration
reads. Register writes are outputs: a written register file, or the
address a long-word write goes to. Memory allocation is a boolean input
plus the address it returned. Every wait loop is one generic loop
(`Poll.Wait`) over a per-command decision table. Each command's result is
proved equal to an independent reference definition (`PollFrom`).

Where the source's comments and its code differ, the model follows the code:

- The comments in scsi.c give each protocol-layer phase move its own phase
  ("WHEN MSG_OUT", "WHEN CMD", "WHEN STATUS"). The words as built carry
  `phase OR 6`, so every move reads back as a MSG OUT or MSG IN move
  (`ScsiScripts.PhaseMoveDecodes`).
- The comments in scsi.c on the protocol-layer SELECT contradict each
  other. Those above the instruction speak of relative addressing, a target
  ID bitmap and a relative jump offset, and call the table-indirect bit
  "RESELECT". The one above the fix-up says SELECT wants an absolute
  address. The code stores an absolute address (script + 56, or + 64 for
  READ(6)) under opcode 0x47, whose flags are relative, table-indirect and
  ATN. The chip therefore reads the ID bit as an offset into the DSA and the
  alternate word as a displacement (`ScsiScripts.SelectWordDecodes`,
  `ScsiScripts.SelectFailTargets`).
- The DMA test buffers are 128 KiB, as `TEST_BUFFER_SIZE` in ncr_dmatest.h
  says, not 64 KiB as the comment beside it says.

Modules, in dependency order:

- `Common`: 32-bit words and big-endian byte order.
- `Registers`: the register block layout and the long-word write window.
- `ScsiDefs`: SCSI constants.
- `Poll`: the shared wait loop and its reference definition.
- `Completion`: the decision tables of the wait loops.
- `Cdb`: command descriptor blocks and the IDENTIFY message.
- `Instr`: the SCRIPTS instruction encoding.
- `ScsiScripts`, `ScsiOps`: the protocol layer.
- `Dsa`, `NcrScsiOps`: the table-indirect layer.
- `Init`: detection, reset and configuration.
- `DmaTest`: the DMA test suite.
- `Interrupt`: the interrupt handler and its state.

## Model

| member | source | states |
|---|---|---|
| Common.Inc32 | ncr_interrupt.c:57 | An unsigned 32-bit counter increment: one more below the maximum, zero after the maximum. |
| Common.BigEndian32 | ncr_scsi.c:345-348 | A 32-bit word laid out as four bytes, most significant first, reads back as the same word. |
| Common.BigEndianOnto | ncr_scsi.c:345-348 | Every four bytes are the big-endian layout of the word they spell, so the layout is a bijection. |
| Registers.LayoutIsPacked | ncr_dmatest.h:21-62 | The register block is packed. SIEN sits at offset 0, each register starts where the previous ends, and the last one ends the block. Every long-word register is 4-aligned, and every register's offset decodes back to that register. |
| Registers.LongWriteAddress | ncr_dmatest.h:168-173 | A long-word write to a register goes through the write window 0x80 above the chip base, and that address decodes back to the same register. |
| Registers.LongOffsetMatchesLayout | ncr_dmatest.h:168-173 | The offset the long-write macro adds for a register is that register's offset in the layout. |
| Registers.LongWriteDecodes | ncr_dmatest.h:168-173 | For every long-word register, base + 0x80 + the register's offset decodes back to that register, whatever the base. |
| Registers.DspIsWrittenAtAC | ncr_dmatest.c:133 | Starting a script writes its address to DSP at chip base + 0xAC; DSP is at offset 44 in the block. |
| Registers.FlagsAreDistinctBits | ncr_dmatest.h:91-105 | The DSTAT and ISTAT flag constants are single bits, pairwise disjoint. |
| ScsiDefs.PhasesFitThreeLines | scsi.h:43-48 | The six bus phases are distinct values below 8, as the three phase lines encode them. |
| ScsiDefs.ResultCodesDistinct | scsi.h:121-127 | The protocol layer's result codes are distinct; OK is 0 and every error is negative. |
| ScsiDefs.ReadGeometry | ncr_scsi.h:21-27 | 32 MiB is 65536 blocks of 512 bytes, a chunk is 128 blocks, and the chunks divide the read exactly: 512 of them. |
| Poll.Wait | scsi.c:195-275 | The wait loop returns the code of the first iteration that decides anything, after exactly that many reads. If no iteration decides within the limit, it returns the timeout code after exactly `limit` reads. |
| Poll.PollFromMeetsOutcome | scsi.c:195-275 | The recursive reference definition, started from any iteration before which nothing decided, meets the loop's outcome description. |
| Poll.PollAgreesWithReference | scsi.c:195-275 | Any result and read count that meet the loop's outcome are the ones the recursive reference definition computes. |
| Poll.OutcomeIsUnique | scsi.c:195-275 | The outcome relation is functional: two results that both meet it are equal. |
| Poll.DecidedByAnIteration | scsi.c:195-275 | A non-timeout result (here: any result other than the timeout code) comes from an iteration within the limit that decided exactly that code. |
| Completion.ScsiOkIff | scsi.c:199-220 | TEST UNIT READY and READ(6) report OK exactly when the script raised its completion token 0xFEED0000 and the target's status byte is GOOD. |
| Completion.ScsiCheckIff | scsi.c:214-217 | CHECK CONDITION is reported exactly when the script completed and the status byte is CHECK. |
| Completion.ScsiContinueIff | scsi.c:195-268 | One iteration keeps polling exactly when it saw no decisive DMA interrupt and no SCSI interrupt with a timeout, disconnect or gross-error bit. |
| Completion.ScsiUnknownTokenKeepsPolling | scsi.c:205-229 | A script interrupt with a token other than the two the scripts raise does not end the loop. |
| Completion.ScsiCodesInRange | scsi.c:195-267 | Every decision is one of six result codes; BUSY is never reported. |
| Completion.ScsiInterruptPriority | scsi.c:242-267 | With no decisive DMA interrupt, a SCSI interrupt is classified by the first SSTAT0 bit set among selection timeout, unexpected disconnect, gross error. |
| Completion.NcrOkIff | ncr_scsi.c:203-220 | INQUIRY and READ(10) succeed exactly on the token 0xDEADBEEF with status GOOD. |
| Completion.NcrAnyTokenEnds | ncr_scsi.c:203-231 | In this layer every script interrupt ends the loop: success, bad status, selection failure, or an unexpected token exactly when the token is neither of the two known. |
| Completion.NcrDmaErrorIff | ncr_scsi.c:234-238 | A DMA error is reported exactly when DIP is set, SIR is not, and DSTAT has IID, ABRT or SSI. |
| Completion.NcrContinueIff | ncr_scsi.c:195-248 | Polling continues exactly when there is no SCSI interrupt and no DMA interrupt with SIR or an error bit. |
| Completion.NcrCodesInRange | ncr_scsi.c:195-248 | A register read never yields the allocation-failure or timeout codes; every decided code lies in -6..0. |
| Cdb.Identify | scsi.c:70 | The IDENTIFY message has bit 7 set and bit 6 (disconnect privilege) clear, and addresses the LUN masked to three bits. |
| Cdb.IdentifyIsOnto | scsi.h:32-40 | Every IDENTIFY without disconnect privilege or reserved bits is the message built for its own LUN. |
| Cdb.TestUnitReadyCdb | scsi.c:73-75 | TEST UNIT READY is six bytes: opcode 0 and all zeros, as its group code requires. |
| Cdb.InquiryCdb | ncr_scsi.c:143-148 | INQUIRY is six bytes with opcode 0x12, LUN 0, page 0 and the given allocation length. |
| Cdb.Read6Cdb | scsi.c:321-331 | A target decodes the READ(6) block as LUN masked to 3 bits, block address masked to 21 bits and the block count; the control byte is 0. |
| Cdb.Read6RoundTrip | scsi.c:321-331 | A LUN below 8 and an address below 2^21 come back exactly. |
| Cdb.Read6Onto | scsi.h:66-73 | Every READ(6) block with a zero control byte is the encoding of the fields it decodes to. |
| Cdb.Read10Cdb | ncr_scsi.c:342-353 | READ(10) carries the 32-bit address big-endian and the 16-bit count, with LUN, flags, group and control bytes zero, and decodes back to them. |
| Cdb.Read10Onto | scsi.h:76-83 | Every READ(10) block of that form is the encoding of what it decodes to. |
| Instr.DecodeEncode | scsi.c:83-127 | Decoding any two-word instruction gives a well-formed instruction whose encoding is those two words. |
| Instr.EncodeDecode | scsi.c:83-127 | Every well-formed instruction decodes back from its encoding. |
| Instr.WordsHoldPair | ncr_scsi.c:25-60 | Instruction k of a program sits in words 2k and 2k+1 of the flat array the chip fetches. |
| ScsiScripts.ClearedOp | scsi.c:158-163 | A freshly allocated, zero-cleared operation record has the buffer sizes of its declaration, with command bytes, length and status zero. |
| ScsiScripts.PhaseMoveDecodes | scsi.c:90-109 | A phase move word, as the builders write it, decodes to a block move of the given length and address. Its phase field reads `phase OR 6`, because the constant 0x0E000000 already sets bits 25-27. |
| ScsiScripts.PhaseFieldReadsSixOrSeven | scsi.c:90-109 | Every phase used therefore reads back as MSG OUT or MSG IN; in particular the COMMAND move carries MSG OUT's phase. |
| ScsiScripts.WithCommand | scsi.c:70-75 | The builder stores IDENTIFY in message byte 0 and the six-byte command, sets the command length to 6, and leaves everything else in the record unchanged. |
| ScsiScripts.BuildTestUnitReadyScript | scsi.c:53-135 | No script when its buffer cannot be allocated. Otherwise eight instructions: a SELECT whose operand field holds the target's ID bit, then moves of IDENTIFY, command, status and message-in from the record's addresses, WAIT DISCONNECT, the completion interrupt, and the selection-failure interrupt. The SELECT's alternate word is the absolute address of that last interrupt (byte 56). |
| ScsiScripts.SelectWordDecodes | scsi.c:78-84 | The SELECT word decodes with the target's ID bit as its operand and keeps the alternate word. Its flags read relative, table-indirect and ATN, so the chip takes the operand as a DSA offset, not as the ID bitmap the comment names, and the alternate word as a displacement, although the builder stores an absolute address there. |
| ScsiScripts.SelectFailTargets | scsi.c:129-132 | Taken as a relative displacement, the absolute failure address stored in the SELECT sends a failed selection to the failure interrupt (byte 56, or byte 64 as the READ(6) builder stores at scsi.c line 375) only when the script's address is 8 below a multiple of 2^24. |
| Instr.SelectFailTarget | ncr_scsi.c:29 | Where a failed SELECT continues: with relative addressing, the instruction after the SELECT plus the sign-extended 24-bit displacement; otherwise the alternate word itself. |
| ScsiScripts.BuildRead6Script | scsi.c:302-378 | As for TEST UNIT READY, with a DATA IN move of the record's data length into its data buffer before the status move. The selection-failure interrupt sits at byte 64. |
| ScsiOps.TestUnitReady | scsi.c:147-287 | If either allocation fails, the result is the timeout code and the chip is never polled. Otherwise the result is the first decisive iteration within one million, else timeout. OK implies the completion token and status GOOD in the deciding iteration. |
| ScsiOps.Read6Length | scsi.c:403 | The data length is blocks × 512. It fits the 24-bit move count. |
| ScsiOps.Read6 | scsi.c:395-532 | The same outcome shape as TEST UNIT READY with five million iterations. The script's data move reads blocks × 512 bytes into the caller's buffer, and the command in the record decodes to the masked LUN, address and count. |
| ScsiOps.ScanIds | scsi.c:548-551 | The scan visits every ID below 8 except the host's, in increasing order. |
| ScsiOps.FirstFoundIsLowest | scsi.c:539-574 | The reference picks the lowest ID whose TEST UNIT READY returned OK or CHECK CONDITION. It gives -1 exactly when no ID answered. |
| ScsiOps.ScanBus | scsi.c:539-574 | The scan probes exactly the IDs other than the host's, in order. It returns the lowest answering ID, or -1 exactly when none answered. |
| Dsa.LayoutIsPacked | ncr_scsi.h:87-100 | The DSA entry's twelve fields are packed in declaration order and end at 84 bytes. |
| Dsa.FieldOffsetsAgree | ncr_scsi.h:87-100 | The offsets written into the script's table-indirect operands agree with the entry's layout. |
| Dsa.OperandsAligned | ncr_scsi.h:87-100 | Every table-indirect operand is 4-aligned and lies before the buffers. |
| Dsa.FieldAtIsUnique | ncr_scsi.h:87-100 | Each byte offset of the entry belongs to exactly one field. |
| Dsa.InquiryScriptDecodes | ncr_scsi.c:25-60 | The fixed script is ten instructions: select from the entry, five table-indirect moves (message out, command, data in, status, message in), clear ACK, wait disconnect, and the done and failure interrupts. |
| Dsa.InquirySelectFallsThrough | ncr_scsi.c:26-59 | The SELECT is table-indirect and relative, with alternate 0, so a failed selection continues at the next instruction, the MSG OUT move. The BADBAD00 interrupt in the last pair is not reached from a failed select. |
| Dsa.InquiryScriptEncodes | ncr_scsi.c:25-60 | Those ten instructions encode back to the script's words. |
| Dsa.InquiryMovesFetchTheirFields | ncr_scsi.c:25-60 | Each table-indirect move fetches the entry field named for it: send message, command, data, status and receive message. |
| Dsa.SendBuffer | ncr_scsi.c:138-148 | The send buffer holds IDENTIFY, then the command, then zeros, 16 bytes in all. |
| Dsa.SetupIsCommon | ncr_scsi.c:114-148 | The shared part of both builders: the entry starts cleared, selects the target's ID bit asynchronously, and moves one byte each for status, message in and IDENTIFY. The command follows IDENTIFY in the send buffer, and the rest of the buffer stays zero. |
| Dsa.SetupPointers | ncr_scsi.c:127-142 | The status, receive and send moves point at the entry's own buffers; the command move points one byte into the send buffer. |
| Dsa.BuildInquiryDSA | ncr_scsi.c:111-149 | The entry selects the target's ID bit asynchronously. It moves 36 bytes into the caller's buffer, and that length equals the command's allocation length. The command is the six-byte INQUIRY. |
| Dsa.BuildRead10DSA | ncr_scsi.c:312-354 | Common setup as for INQUIRY. The data move is blocks × 512 bytes into the caller's buffer, and the ten command bytes decode to the given address and count. |
| Dsa.Read10FitsMoveCount | ncr_scsi.c:318-319 | A chunk of fewer than 32768 blocks fits the 24-bit move count. |
| NcrScsiOps.RunScript | ncr_scsi.c:195-256 | The table-indirect wait: the first decisive iteration's code within the limit, else timeout. Success implies token 0xDEADBEEF and status GOOD. |
| NcrScsiOps.DoInquiry | ncr_scsi.c:155-265 | Allocation failure returns -1 without polling. Otherwise the DSA is the INQUIRY entry and the result is the table-indirect outcome within one million iterations. |
| NcrScsiOps.DoRead10Chunk | ncr_scsi.c:360-454 | Allocation failure returns -1. Otherwise the DSA is the READ(10) entry for the address, count and buffer, and the result is the outcome within five million iterations. |
| NcrScsiOps.FirstFailureIs | ncr_scsi.c:490-521 | The chunk reference is 0 exactly when every chunk succeeded, and otherwise the code of the first failing chunk. |
| NcrScsiOps.FirstFailureSkips | ncr_scsi.c:505-510 | A succeeding chunk does not change the first failure. |
| NcrScsiOps.ChunkOutcomeIs | ncr_scsi.c:503 | Each chunk reports what a READ(10) chunk command reports, so a chunk whose entry cannot be allocated reports -1. |
| NcrScsiOps.DoRead32MB | ncr_scsi.c:460-541 | The buffer is allocated in FAST memory, else CHIP memory; with neither, the read returns -1 and issues nothing. Otherwise the chunks are issued in order, each 128 blocks further on and 64 KiB further into the buffer. Reading stops at the first failure, whose code is the result. |
| NcrScsiOps.ReadChunks | ncr_scsi.c:490-521 | The loop's result is the first failing chunk's code, or 0 after all 512 chunks. |
| NcrScsiOps.ChunkStep | ncr_scsi.c:491-498 | The loop's running block count and buffer pointer are those of the k-th chunk. |
| NcrScsiOps.Read32OkIff | ncr_scsi.c:460-541 | The read succeeds exactly when a buffer was allocated and every one of the 512 chunks succeeded. |
| NcrScsiOps.ChunksTile | ncr_scsi.c:490-521 | Consecutive chunks are adjacent both on the disk and in the buffer. The last one ends at block 65536 and at the end of the 32 MiB buffer. |
| NcrScsiOps.InquiryLayoutRoundTrip | ncr_scsi.h:115-125 | The 36-byte structure laid over the received bytes and the bytes of the structure are inverse. |
| NcrScsiOps.DeviceTypeName | ncr_scsi.c:274-300 | Device types 0 to 9 have their printed names, and "Unknown" is printed exactly for the others. |
| NcrScsiOps.Report | ncr_scsi.c:270-307 | The report shows the type's name, "removable" exactly when bit 7 is set, and the vendor, product and revision fields, each copied whole and terminated. |
| Init.CheckNCRStatus | ncr_init.c:194-246 | The result is -1 exactly for illegal instruction, abort or watchdog; a script interrupt or a SCSI interrupt alone gives 0. |
| Init.CheckStatusIff | ncr_init.c:194-246 | An error exactly when DIP is set and DSTAT has IID, ABRT or WTD; with DIP clear or SSI alone, no error. |
| Init.CheckStatusOrder | ncr_init.c:201-234 | The tests run IID, then ABRT; a script interrupt is reported exactly when SIR is set and no fatal bit is. |
| Init.DetectNCR | ncr_init.c:19-75 | The chip is missing exactly when GARY reports a timeout or both ISTAT reads return 0xFF. DCNTL gets EA and COM, and GARY is left in bus-error mode. |
| Init.ResetNCR | ncr_init.c:80-124 | Always 0. The wait sees RST clear exactly when some read within 10000 shows it clear, and stops at the first such read. RST is written and, if still set after the delay, cleared by writing 0. |
| Init.ResetForInit | ncr_init.c:116-120 | The last value written to ISTAT is 0 exactly when the late read still showed RST set, and RST otherwise. |
| Init.Configure | ncr_init.c:143-180 | After configuration SIEN is 0, DMODE is 0xD0, DIEN is 0x19, DCNTL is 0x20, the SCSI control registers are 0 and SCRATCH and TEMP are 0. ISTAT, DSP and DSA are untouched. |
| Init.InitNCR | ncr_init.c:130-188 | Failure exactly when detection fails, and then only DCNTL has changed and no long write happened. On success the chip is configured and SCRATCH and TEMP were written through the long-write window. |
| Init.ConfigurationIsCanonical | ncr_init.c:143-180 | Two configured chips agree on every register except ISTAT, DSP and DSA, whatever they held before. |
| Init.InitValues | ncr_dmatest.h:108-133 | The named DMODE, DIEN and DCNTL bits spell the configured values. |
| DmaTest.TestConstants | ncr_dmatest.h:176-198 | The test status codes and the pattern ids are the distinct values 0 to 4, there are five patterns, and the largest test size fits the 128 KiB buffers. |
| DmaTest.StepIsUndone | ncr_dmatest.c:19-23 | The generator step (×1103515245 + 12345 mod 2^32) is undone by the inverse step, so it is a permutation of the seeds. |
| DmaTest.StepUndoesBack | ncr_dmatest.c:19-23 | The inverse step is undone by the step. |
| DmaTest.SeedBytesAssemble | ncr_dmatest.c:55-62 | The four bytes a RANDOM group takes from a seed reassemble it. |
| DmaTest.RandomGroupIsOneOutput | ncr_dmatest.c:55-62 | Each group of four RANDOM bytes is one generator output, least significant byte first, the g-th output after the starting seed. |
| DmaTest.FixedPatternShapes | ncr_dmatest.c:43-53 | WALKING sets one bit, moving up one place per byte with period 8; ALTERNATING pairs sum to 0xFF and start at 0x55. |
| DmaTest.FillPattern | ncr_dmatest.c:28-64 | The first `size` bytes hold the pattern and the rest of the buffer is untouched. An unknown pattern changes nothing. The seed steps once per started group of four RANDOM bytes. |
| DmaTest.FillRandom | ncr_dmatest.c:55-62 | RANDOM bytes come from a fresh generator output at every index divisible by four, and the seed ends ⌈size/4⌉ steps on. |
| DmaTest.VerifyBuffer | ncr_dmatest.c:69-83 | Success exactly when the first `size` bytes agree. Otherwise the result records the first differing offset and both bytes there, and nothing else changes. |
| DmaTest.BuildDMAScript | ncr_dmatest.c:89-112 | The script is 20 bytes: a 12-byte memory move and an 8-byte interrupt. |
| DmaTest.MoveFields | ncr_dmatest.c:96-101 | The move reads back as opcode 0xC0 with the size modulo 2^24, then the source, then the destination. |
| DmaTest.DMAScriptFields | ncr_dmatest.c:89-112 | Reading the script back gives the move, then an INT ALWAYS whose words decode to an interrupt raising 0xDEADBEEF. |
| DmaTest.IntFields | ncr_dmatest.c:104-108 | The interrupt's bytes are opcode 0x98, control 0x08 and the done token; its first word is the INT ALWAYS word. |
| DmaTest.DmaDecideIff | ncr_dmatest.c:136-162 | Success exactly on DIP with SIR and the done token. A DMA error exactly when DIP is set without that and the status check finds IID, ABRT or WTD. |
| DmaTest.RunDMATest | ncr_dmatest.c:118-170 | The script is started by a long write of its address to DSP. The result is the first decisive iteration within 100000, else timeout; it is always success, timeout or DMA error. |
| DmaTest.SizesFromDouble | ncr_dmatest.c:228 | The sizes tested start at 4 and double, each within both the buffer and 16 KiB. They stop exactly when the next doubling would exceed one of the two. |
| DmaTest.SizesNext | ncr_dmatest.c:228 | The size after the n-th is its double, and exists exactly when that double is within both bounds. |
| DmaTest.FullBufferSizes | ncr_dmatest.c:228 | With 128 KiB buffers the sizes are 4, 8, …, 16384: thirteen sizes, 65 tests. |
| DmaTest.RunOneTest | ncr_dmatest.c:232-265 | A test passes exactly when the DMA reported success and every byte landed as the pattern wrote it. A failed transfer reports the DMA result (timeout or DMA error) and is not verified; only after a successful transfer does a landed mismatch report a verify error. |
| DmaTest.CountPassedAppend | ncr_dmatest.c:260-265 | The pass counter goes up exactly for a successful record. |
| DmaTest.AllPassedIff | ncr_dmatest.c:260-274 | Every record passed exactly when the pass count equals the number of records. |
| DmaTest.NumberedAppend | ncr_dmatest.c:229-239 | Test n is pattern (n-1) mod 5 at the ((n-1) div 5)-th size. |
| DmaTest.RunPattern | ncr_dmatest.c:230-265 | One test: its record reports success exactly when that pattern passed at this size with the seed the test starts with. The counters follow the record, and the seed moves only for RANDOM. |
| DmaTest.RunSize | ncr_dmatest.c:229-266 | Five more records, numbered in order, with the counters kept in step. Record p reports success exactly when pattern p passed at this size from the seed the size started with. Only RANDOM, the last pattern, moves the seed, by ⌈size/4⌉ steps. |
| DmaTest.SeedAtNextSize | ncr_dmatest.c:228-266 | Each size starts from the seed the previous size's RANDOM fill left behind. |
| DmaTest.RunGroup | ncr_dmatest.c:228-267 | Running one size extends the records, counted, in order and each reporting its own test, from the first n sizes to the first n + 1, and moves the seed to where size n + 1 starts. |
| DmaTest.RunAllSizes | ncr_dmatest.c:228-267 | Five records per tested size, numbered in order, with the counters consistent. Each record reports success exactly when its own test passed: its pattern at its size, with the environment that test saw and its size's starting seed. The seed ends where the last RANDOM fill left it. |
| DmaTest.AllJudgedPass | ncr_dmatest.c:260-274 | When each record reports its own test, every record succeeded exactly when every test of the matrix passed. |
| DmaTest.RunComprehensiveTest | ncr_dmatest.c:212-275 | Runs 5 × (number of sizes) tests. Passed plus failed is the test count, and passed counts the successful records. The result is 0 exactly when every test's transfer succeeded and its bytes landed as its pattern wrote them, and -1 otherwise. Each record reports its own test, and the seed ends stepped by every RANDOM fill. |
| Interrupt.Handle | ncr_interrupt.c:42-132 | The handler claims the interrupt, returning 1, exactly when DIP or SIP is set. An unclaimed interrupt changes nothing. A claimed one bumps the 32-bit total, bumps the DMA counter exactly when DIP is set and the SCSI counter exactly when SIP is set, records ISTAT, DSTAT, SSTAT0 and DSP, and keeps the chip pointer. |
| Interrupt.HandleKeepsCounted | ncr_interrupt.c:57-128 | While the total is below its maximum, handling keeps both type counters at most the total, and the total at most their sum. |
| Interrupt.TotalWraps | ncr_interrupt.c:57 | At the maximum, one more interrupt wraps the total to 0 and breaks that relation. |
| Interrupt.HandleAllCounts | ncr_interrupt.c:42-132 | After a run from zeroed counters, the total counts reads with DIP or SIP, the DMA counter counts DIP and the SCSI counter counts SIP. The last-status fields hold the last claimed read's values. |
| Interrupt.HandleAllKeepsCounted | ncr_interrupt.c:57-128 | Over any run too short to wrap, the counters stay consistent. |
| Interrupt.OursSplits | ncr_interrupt.c:53-55 | The claimed reads are at least the DMA reads and at least the SCSI reads, and at most both together. |
| Interrupt.Install | ncr_interrupt.c:137-164 | Returns 0. It zeroes the three counters, records the chip and enables every SCSI and DMA interrupt source. |
| Interrupt.Remove | ncr_interrupt.c:169-187 | With a chip installed it disables both enable registers; without one the chip is untouched. Either way no chip is left installed. |
| Interrupt.RemoveIsIdempotent | ncr_interrupt.c:169-187 | Removing twice is removing once. |
| Interrupt.InstallThenRemove | ncr_interrupt.c:137-187 | Install, any run of interrupts, and remove leave interrupts disabled and no chip installed, with counters that describe the run. |
| Interrupt.GetStats | ncr_interrupt.c:192-197 | Each requested counter is reported, and only the requested ones. |
| Interrupt.GetLast | ncr_interrupt.c:202-208 | Each requested last-status field is reported, and only the requested ones. |
| Interrupt.StatsReportCounts | ncr_interrupt.c:137-197 | After installation and a run of interrupts, the statistics report the number of claimed, DIP and SIP reads. |

## Left out

- InitNCRForSCSI (ncr_scsi.c): the core's command paths never call it.
- Text output: printf and debug output, hex dumps and PrintTestResults. PrintInquiryData is modelled as the report it formats (`NcrScsiOps.Report`). Result status codes stay within the name table PrintTestResults indexes.
- Cache flushes and FreeMem have no observable effect in the model. AllocMem is an input: a success flag plus the address it returned.
- TestMemoryTypes and TestMain only allocate buffers and call RunComprehensiveTest four times in sequence.
- TestResult.duration_ticks is declared but never set.
- The scatter-gather constants and the NCRIntState declaration are left out, as are the prototypes of SetupNCRInterrupts, CleanupNCRInterrupts and DoGenerateFile, which have no bodies.
- Side effects of register reads on the chip (interrupts cleared by reading) are left out. A read is a value the loop receives.
- The DSPS read the handler makes on a script interrupt is left out; its value is only printed.
- Membership of the PORTS interrupt chain (AddIntServer and RemIntServer) is left out.
- Concurrency between the interrupt handler and the polling loops is left out; each is modelled alone.
- The 256-byte zero-cleared script buffer beyond the instructions is not modelled.
- Interrupt.HandleKeepsCounted: requires a total below 2^32 - 1. The 32-bit counters wrap and the relation breaks there (`Interrupt.TotalWraps`).
- Interrupt.HandleAllCounts: requires fewer than 2^32 reads, so that no counter wraps.
- ScsiOps.TestUnitReady: requires a target ID below 8; the source shifts 1 by the ID with no check.
- NcrScsiOps.DoRead32MB: requires the allocated 32 MiB buffer to lie inside the 32-bit address space, which AllocMem guarantees.
- Init.ResetNCR: the post-reset delay loop is not modelled; only the ISTAT read after it matters.
- DmaTest.RunOneTest: the transfer's effect on memory is an input (the byte landed at each offset); the chip's copying is not modelled.
