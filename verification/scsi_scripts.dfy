/**
 * The protocol layer's SCRIPTS builders for TEST UNIT READY and READ(6).
 * Each builder fills the operation record's message and command buffers and
 * returns a program of word pairs that selects the target, moves IDENTIFY,
 * the command, any data, the status byte and the final message, waits for
 * disconnect and raises a completion interrupt; a selection failure
 * continues at the last pair, which raises a different interrupt.
 */
module ScsiScripts {
  import opened Common
  import opened ScsiDefs
  import opened Cdb
  import opened Instr
  import opened Completion

  /** The host-memory record one protocol-layer command works in. */
  datatype ScsiOp = ScsiOp(
    msgOut: seq<bv8>, msgIn: seq<bv8>, command: seq<bv8>, commandLen: bv8,
    status: bv8, data: bv32, dataLen: bv32, dataDirection: bv8)

  predicate ValidOp(op: ScsiOp)
  {
    |op.msgOut| == 8 && |op.msgIn| == 8 && |op.command| == 12
  }

  /** A freshly allocated, zero-filled record. */
  function ClearedOp(): (op: ScsiOp)
    ensures ValidOp(op)
    ensures forall i :: 0 <= i < 12 ==> op.command[i] == 0
    ensures op.commandLen == 0 && op.status == 0 && op.dataLen == 0
  {
    ScsiOp(seq(8, _ => 0), seq(8, _ => 0), seq(12, _ => 0), 0, 0, 0, 0, 0)
  }

  /** Host addresses of the record's buffers, which the script's moves name. */
  datatype OpAddrs = OpAddrs(msgOut: bv32, msgIn: bv32, command: bv32, status: bv32)

  /** A built program together with the record as the builder left it. */
  datatype Built = Built(script: Program, op: ScsiOp)

  /** First word of the SELECT the scripts start with; the target's ID bit is OR-ed in. */
  const SELECT_ATN_WORD: bv32 := 0x4700_0000

  /** Byte offset of the selection-failure pair in each program. */
  const TUR_FAIL_OFFSET: bv32 := 56
  const READ6_FAIL_OFFSET: bv32 := 64

  /**
   * First word of a phase-checked block move as the builders write it:
   * 0x0E000000 | (phase << 24) | len. The constant already sets bits 25-27,
   * so the phase field the chip decodes is `phase | 6` (see
   * `PhaseFieldReadsSixOrSeven`).
   */
  function PhaseMoveWord(phase: bv8, len: bv32): (w: bv32)
    requires phase < 8
  {
    0x0E00_0000 | ((phase as bv32) << 24) | len
  }

  /** The move the chip decodes from a phase-move word, for a 24-bit length. */
  lemma PhaseMoveDecodes(phase: bv8, len: bv32, addr: bv32)
    requires phase < 8 && len <= COUNT_MASK
    ensures Decode(PhaseMoveWord(phase, len), addr) == BlockMove(1, phase | 6, len, addr)
  {
    var w := PhaseMoveWord(phase, len);
    PhaseMoveFields(phase, len);
    DecodeMoveWord(w, addr);
  }

  lemma PhaseMoveFields(phase: bv8, len: bv32)
    requires phase < 8 && len <= COUNT_MASK
    ensures var w := 0x0E00_0000 | ((phase as bv32) << 24) | len;
      w >> 30 == 0 && ((w >> 27) & 7) as bv8 == 1 && ((w >> 24) & 7) as bv8 == phase | 6
      && w & COUNT_MASK == len
  {
  }

  /** Every phase the builders use reads back as MSG OUT or MSG IN; in
   *  particular the COMMAND move carries the MSG OUT phase. */
  lemma PhaseFieldReadsSixOrSeven(phase: bv8)
    requires phase < 8
    ensures phase | 6 == PHASE_MSG_OUT || phase | 6 == PHASE_MSG_IN
    ensures PHASE_COMMAND | 6 == PHASE_MSG_OUT
    ensures PHASE_STATUS | 6 == PHASE_MSG_IN && PHASE_DATA_IN | 6 == PHASE_MSG_IN
  {
  }

  /** The absolute address `fail` is that of pair `k` of a program loaded at
   *  `base`, and that pair raises `token`. */
  predicate FailsTo(s: Program, base: bv32, fail: bv32, k: nat, token: bv32)
  {
    k < |s| && k < 0x2000_0000 && fail == base + 8 * (k as bv32) && Pair(s, k) == Interrupt(token)
  }

  /** The record after the builder has stored IDENTIFY and a six-byte command. */
  function WithCommand(op: ScsiOp, lun: bv8, cdb: seq<bv8>): (op': ScsiOp)
    requires ValidOp(op) && |cdb| == 6
    ensures ValidOp(op')
    ensures op'.msgOut[0] == Identify(lun) && op'.msgOut[1..] == op.msgOut[1..]
    ensures op'.command[..6] == cdb && op'.command[6..] == op.command[6..]
    ensures op'.commandLen == 6
    ensures op'.msgIn == op.msgIn && op'.status == op.status && op'.data == op.data
    ensures op'.dataLen == op.dataLen && op'.dataDirection == op.dataDirection
  {
    op.(msgOut := op.msgOut[0 := Identify(lun)], command := cdb + op.command[6..], commandLen := 6)
  }

  /**
   * BuildTestUnitReadyScript: the program lives at `base`; `allocOk` says
   * whether its buffer could be allocated.
   */
  function BuildTestUnitReadyScript(allocOk: bool, base: bv32, target: bv8, lun: bv8,
                                    op: ScsiOp, at: OpAddrs): (r: Option<Built>)
    requires target < 8 && ValidOp(op)
    ensures r.None? <==> !allocOk
    ensures r.Some? ==>
      var s := r.value.script;
      |s| == 8
      && Pair(s, 0) == Select(7, 1 << target, base + TUR_FAIL_OFFSET)
      && s[1] == (PhaseMoveWord(PHASE_MSG_OUT, 1), at.msgOut)
      && s[2] == (PhaseMoveWord(PHASE_COMMAND, 6), at.command)
      && s[3] == (PhaseMoveWord(PHASE_STATUS, 1), at.status)
      && s[4] == (PhaseMoveWord(PHASE_MSG_IN, 1), at.msgIn)
      && Pair(s, 5) == WaitDisconnect
      && Pair(s, 6) == Interrupt(TOKEN_COMPLETE)
      && FailsTo(s, base, s[0].1, 7, TOKEN_SELECTION_FAILED)
    ensures r.Some? ==> r.value.op == WithCommand(op, lun, TestUnitReadyCdb())
  {
    if !allocOk then None
    else
      var s := [(SELECT_ATN_WORD | ((1 as bv32) << target), base + TUR_FAIL_OFFSET),
                (PhaseMoveWord(PHASE_MSG_OUT, 1), at.msgOut),
                (PhaseMoveWord(PHASE_COMMAND, 6), at.command),
                (PhaseMoveWord(PHASE_STATUS, 1), at.status),
                (PhaseMoveWord(PHASE_MSG_IN, 1), at.msgIn),
                (WAIT_DISCONNECT_WORD, 0),
                (INT_ALWAYS_WORD, TOKEN_COMPLETE),
                (INT_ALWAYS_WORD, TOKEN_SELECTION_FAILED)];
      SelectWordDecodes(target, base + TUR_FAIL_OFFSET);
      Some(Built(s, WithCommand(op, lun, TestUnitReadyCdb())))
  }

  /** The SELECT word carries the target's ID bit in its operand field, but
   *  its flags read relative, table-indirect and ATN: the chip takes the ID
   *  bit as an offset into the DSA and the alternate word as a displacement. */
  lemma SelectWordDecodes(target: bv8, alt: bv32)
    requires target < 8
    ensures Decode(SELECT_ATN_WORD | ((1 as bv32) << target), alt) == Select(7, 1 << target, alt)
    ensures var flags: bv8 := 7;
      flags & SELECT_RELATIVE != 0 && flags & SELECT_TABLE_INDIRECT != 0 && flags & SELECT_ATN != 0
  {
    var w := SELECT_ATN_WORD | ((1 as bv32) << target);
    SelectWordFields(target);
    DecodeSelectWord(w, alt);
  }

  /** Read that way, a failed selection continues at the failure interrupt
   *  the builders point the alternate word at (byte 56, or 64 for READ(6))
   *  only for a script whose address is 8 below a multiple of 2^24. */
  lemma SelectFailTargets(base: bv32)
    ensures SelectFailTarget(7, base + TUR_FAIL_OFFSET, base) == base + TUR_FAIL_OFFSET
            <==> base & COUNT_MASK == 0xFF_FFF8
    ensures SelectFailTarget(7, base + READ6_FAIL_OFFSET, base) == base + READ6_FAIL_OFFSET
            <==> base & COUNT_MASK == 0xFF_FFF8
  {
  }

  lemma SelectWordFields(target: bv8)
    requires target < 8
    ensures var w := SELECT_ATN_WORD | ((1 as bv32) << target);
      w >> 27 == 8 && ((w >> 24) & 7) as bv8 == 7 && w & COUNT_MASK == 1 << target
  {
  }

  /**
   * BuildRead6Script: like TEST UNIT READY with a DATA IN move of the
   * record's `dataLen` bytes into its `data` buffer before the status move.
   */
  function BuildRead6Script(allocOk: bool, base: bv32, target: bv8, lun: bv8, lba: bv32,
                            blocks: bv8, op: ScsiOp, at: OpAddrs): (r: Option<Built>)
    requires target < 8 && ValidOp(op)
    ensures r.None? <==> !allocOk
    ensures r.Some? ==>
      var s := r.value.script;
      |s| == 9
      && Pair(s, 0) == Select(7, 1 << target, base + READ6_FAIL_OFFSET)
      && s[1] == (PhaseMoveWord(PHASE_MSG_OUT, 1), at.msgOut)
      && s[2] == (PhaseMoveWord(PHASE_COMMAND, 6), at.command)
      && s[3] == (PhaseMoveWord(PHASE_DATA_IN, op.dataLen), op.data)
      && s[4] == (PhaseMoveWord(PHASE_STATUS, 1), at.status)
      && s[5] == (PhaseMoveWord(PHASE_MSG_IN, 1), at.msgIn)
      && Pair(s, 6) == WaitDisconnect
      && Pair(s, 7) == Interrupt(TOKEN_COMPLETE)
      && FailsTo(s, base, s[0].1, 8, TOKEN_SELECTION_FAILED)
    ensures r.Some? ==> r.value.op == WithCommand(op, lun, Read6Cdb(lun, lba, blocks))
  {
    if !allocOk then None
    else
      var s := [(SELECT_ATN_WORD | ((1 as bv32) << target), base + READ6_FAIL_OFFSET),
                (PhaseMoveWord(PHASE_MSG_OUT, 1), at.msgOut),
                (PhaseMoveWord(PHASE_COMMAND, 6), at.command),
                (PhaseMoveWord(PHASE_DATA_IN, op.dataLen), op.data),
                (PhaseMoveWord(PHASE_STATUS, 1), at.status),
                (PhaseMoveWord(PHASE_MSG_IN, 1), at.msgIn),
                (WAIT_DISCONNECT_WORD, 0),
                (INT_ALWAYS_WORD, TOKEN_COMPLETE),
                (INT_ALWAYS_WORD, TOKEN_SELECTION_FAILED)];
      SelectWordDecodes(target, base + READ6_FAIL_OFFSET);
      Some(Built(s, WithCommand(op, lun, Read6Cdb(lun, lba, blocks))))
  }
}
