/**
 * The two-word NCR 53C710 SCRIPTS instructions the driver emits, decoded
 * from the raw words the chip fetches. Bits 31-30 of the first word select
 * the family: 00 block move, 01 I/O (select, wait disconnect, clear), 10
 * transfer control (here only INT).
 */
module Instr {

  datatype Instr =
    /** Block move: bits 29-27 are indirect, table-indirect and opcode, bits
     *  26-24 the phase to match, bits 23-0 the byte count; the second word is
     *  the buffer address or, table-indirect, an offset into the DSA. */
    | BlockMove(opBits: bv8, phase: bv8, count: bv32, addr: bv32)
    /** Select (I/O opcode 000): bits 26-24 are relative, table-indirect and
     *  ATN; the low 24 bits carry the target operand; the second word is
     *  where to continue if selection fails. */
    | Select(flags: bv8, operand: bv32, alt: bv32)
    | WaitDisconnect
    | ClearAck
    /** INT always, leaving `token` in DSPS for the host. */
    | Interrupt(token: bv32)
    | Other(w0: bv32, w1: bv32)

  const WAIT_DISCONNECT_WORD: bv32 := 0x4800_0000
  const CLEAR_ACK_WORD: bv32 := 0x6000_0040
  const INT_ALWAYS_WORD: bv32 := 0x9808_0000
  const COUNT_MASK: bv32 := 0x00FF_FFFF

  /** The instruction the chip sees in the word pair (w0, w1). */
  function Decode(w0: bv32, w1: bv32): Instr
  {
    if w0 >> 30 == 0 then
      BlockMove(((w0 >> 27) & 7) as bv8, ((w0 >> 24) & 7) as bv8, w0 & COUNT_MASK, w1)
    else if w0 >> 27 == 8 then
      Select(((w0 >> 24) & 7) as bv8, w0 & COUNT_MASK, w1)
    else if w0 == WAIT_DISCONNECT_WORD && w1 == 0 then WaitDisconnect
    else if w0 == CLEAR_ACK_WORD && w1 == 0 then ClearAck
    else if w0 == INT_ALWAYS_WORD then Interrupt(w1)
    else Other(w0, w1)
  }

  /** The word pair that encodes `i`. */
  function Encode(i: Instr): (bv32, bv32)
  {
    match i
    case BlockMove(opBits, phase, count, addr) =>
      (((opBits as bv32 & 7) << 27) | ((phase as bv32 & 7) << 24) | (count & COUNT_MASK), addr)
    case Select(flags, operand, alt) =>
      (0x4000_0000 | ((flags as bv32 & 7) << 24) | (operand & COUNT_MASK), alt)
    case WaitDisconnect => (WAIT_DISCONNECT_WORD, 0)
    case ClearAck => (CLEAR_ACK_WORD, 0)
    case Interrupt(token) => (INT_ALWAYS_WORD, token)
    case Other(w0, w1) => (w0, w1)
  }

  /** Field values that fit their bit widths, and raw pairs that no other case claims. */
  predicate WellFormed(i: Instr)
  {
    match i
    case BlockMove(opBits, phase, count, _) => opBits < 8 && phase < 8 && count <= COUNT_MASK
    case Select(flags, operand, _) => flags < 8 && operand <= COUNT_MASK
    case Other(w0, w1) =>
      w0 >> 30 != 0 && w0 >> 27 != 8 && w0 != INT_ALWAYS_WORD
      && !(w0 == WAIT_DISCONNECT_WORD && w1 == 0) && !(w0 == CLEAR_ACK_WORD && w1 == 0)
    case _ => true
  }

  /** Decoding loses nothing: every word pair is re-encoded exactly. */
  lemma DecodeEncode(w0: bv32, w1: bv32)
    ensures WellFormed(Decode(w0, w1))
    ensures Encode(Decode(w0, w1)) == (w0, w1)
  {
    if w0 >> 30 == 0 {
      MoveDecodesBack(w0, w1);
    } else if w0 >> 27 == 8 {
      SelectDecodesBack(w0, w1);
    } else {
      OtherDecodesBack(w0, w1);
    }
  }

  lemma MoveDecodesBack(w0: bv32, w1: bv32)
    requires w0 >> 30 == 0
    ensures WellFormed(Decode(w0, w1))
    ensures Encode(Decode(w0, w1)) == (w0, w1)
  {
    DecodeMoveWord(w0, w1);
    MoveFieldsReassemble(w0);
  }

  lemma SelectDecodesBack(w0: bv32, w1: bv32)
    requires w0 >> 27 == 8
    ensures WellFormed(Decode(w0, w1))
    ensures Encode(Decode(w0, w1)) == (w0, w1)
  {
    DecodeSelectWord(w0, w1);
    SelectFieldsReassemble(w0);
  }

  lemma OtherDecodesBack(w0: bv32, w1: bv32)
    requires w0 >> 30 != 0 && w0 >> 27 != 8
    ensures WellFormed(Decode(w0, w1))
    ensures Encode(Decode(w0, w1)) == (w0, w1)
  {
  }

  lemma MoveFieldsReassemble(w0: bv32)
    requires w0 >> 30 == 0
    ensures (((((w0 >> 27) & 7) as bv8) as bv32 & 7) << 27)
            | (((((w0 >> 24) & 7) as bv8) as bv32 & 7) << 24) | (w0 & COUNT_MASK) == w0
  {
  }

  lemma SelectFieldsReassemble(w0: bv32)
    requires w0 >> 27 == 8
    ensures 0x4000_0000 | (((((w0 >> 24) & 7) as bv8) as bv32 & 7) << 24) | (w0 & COUNT_MASK) == w0
  {
  }

  /** And every well-formed instruction is decoded back from its encoding. */
  lemma EncodeDecode(i: Instr)
    requires WellFormed(i)
    ensures Decode(Encode(i).0, Encode(i).1) == i
  {
    match i
    case BlockMove(opBits, phase, count, addr) =>
      MoveFieldsSplit(opBits, phase, count);
    case Select(flags, operand, alt) =>
      SelectFieldsSplit(flags, operand);
    case _ =>
  }

  lemma MoveFieldsSplit(opBits: bv8, phase: bv8, count: bv32)
    requires opBits < 8 && phase < 8 && count <= COUNT_MASK
    ensures var w0 := ((opBits as bv32 & 7) << 27) | ((phase as bv32 & 7) << 24) | (count & COUNT_MASK);
      w0 >> 30 == 0 && ((w0 >> 27) & 7) as bv8 == opBits
      && ((w0 >> 24) & 7) as bv8 == phase && w0 & COUNT_MASK == count
  {
  }

  lemma SelectFieldsSplit(flags: bv8, operand: bv32)
    requires flags < 8 && operand <= COUNT_MASK
    ensures var w0 := 0x4000_0000 | ((flags as bv32 & 7) << 24) | (operand & COUNT_MASK);
      w0 >> 30 == 1 && w0 >> 27 == 8 && ((w0 >> 24) & 7) as bv8 == flags && w0 & COUNT_MASK == operand
  {
  }

  /** Decoding a block-move word, stated for an arbitrary word so that callers
   *  with a composite word need not unfold `Decode` on it. */
  lemma DecodeMoveWord(w0: bv32, w1: bv32)
    requires w0 >> 30 == 0
    ensures Decode(w0, w1) == BlockMove(((w0 >> 27) & 7) as bv8, ((w0 >> 24) & 7) as bv8, w0 & COUNT_MASK, w1)
  {
  }

  /** Decoding a SELECT word, likewise. */
  lemma DecodeSelectWord(w0: bv32, w1: bv32)
    requires w0 >> 27 == 8
    ensures Decode(w0, w1) == Select(((w0 >> 24) & 7) as bv8, w0 & COUNT_MASK, w1)
  {
  }

  /** The SELECT flag bits, bits 26-24 of its first word. */
  const SELECT_RELATIVE: bv8 := 4
  const SELECT_TABLE_INDIRECT: bv8 := 2
  const SELECT_ATN: bv8 := 1

  /** The low 24 bits of `d` as a 32-bit two's-complement displacement. */
  function SignExtend24(d: bv32): (e: bv32)
    ensures e & COUNT_MASK == d & COUNT_MASK
    ensures e >> 23 == 0 || e >> 23 == 0x1FF
  {
    if d & 0x80_0000 == 0 then d & COUNT_MASK else d | 0xFF00_0000
  }

  /**
   * Where the chip continues when the SELECT fetched from byte address `at`
   * fails: with relative addressing the alternate word's low 24 bits are a
   * signed displacement from the instruction that follows; otherwise the
   * alternate word is the address itself.
   */
  function SelectFailTarget(flags: bv8, alt: bv32, at: bv32): bv32
  {
    if flags & SELECT_RELATIVE != 0 then at + 8 + SignExtend24(alt) else alt
  }

  /** A SCRIPTS program as the chip fetches it: consecutive two-word instructions. */
  type Program = seq<(bv32, bv32)>

  /** The instruction held in pair `k` of a program. */
  function Pair(p: Program, k: nat): Instr
    requires k < |p|
  {
    Decode(p[k].0, p[k].1)
  }

  /** The program as the flat array of 32-bit words the driver writes. */
  function Words(p: Program): (w: seq<bv32>)
    ensures |w| == 2 * |p|
  {
    if p == [] then [] else [p[0].0, p[0].1] + Words(p[1..])
  }

  /** Pair `k` occupies words `2k` and `2k + 1`. */
  lemma {:induction false} WordsHoldPair(p: Program, k: nat)
    requires k < |p|
    ensures Words(p)[2 * k] == p[k].0 && Words(p)[2 * k + 1] == p[k].1
  {
    if k > 0 {
      WordsHoldPair(p[1..], k - 1);
      assert Words(p) == [p[0].0, p[0].1] + Words(p[1..]);
    }
  }
}
