/**
 * The table-indirect layer: the DSA entry the chip reads its move and
 * select operands from, the static SCRIPTS program shared by INQUIRY and
 * READ(10), and the two builders that fill a DSA entry for those commands.
 */
module Dsa {
  import opened Common
  import opened ScsiDefs
  import opened Cdb
  import opened Instr
  import opened Completion

  /** A table-indirect move operand: 24-bit byte count and buffer address. */
  datatype MoveData = MoveData(len: bv32, addr: bv32)

  /** A table-indirect select operand: the target bit mask and the sync value. */
  datatype SelectData = SelectData(res1: bv8, id: bv8, sync: bv8, res2: bv8)

  /** One DSA entry, field by field in memory order. */
  datatype DsaEntry = DsaEntry(
    moveData: MoveData, saveData: MoveData, finalPtr: bv32, selectData: SelectData,
    statusData: MoveData, recvMsg: MoveData, sendMsg: MoveData, commandData: MoveData,
    sendBuf: seq<bv8>, recvBuf: seq<bv8>, statusBuf: seq<bv8>, pad: seq<bv8>)

  /** The buffers have the lengths the structure declares. */
  predicate ValidEntry(d: DsaEntry)
  {
    |d.sendBuf| == 16 && |d.recvBuf| == 8 && |d.statusBuf| == 1 && |d.pad| == 3
  }

  // ------------------------------------------------------------- layout

  datatype Field =
    | MoveDataField | SaveDataField | FinalPtrField | SelectDataField
    | StatusDataField | RecvMsgField | SendMsgField | CommandDataField
    | SendBufField | RecvBufField | StatusBufField | PadField

  /** The fields in memory order. */
  const Layout: seq<Field> :=
    [MoveDataField, SaveDataField, FinalPtrField, SelectDataField,
     StatusDataField, RecvMsgField, SendMsgField, CommandDataField,
     SendBufField, RecvBufField, StatusBufField, PadField]

  const DSA_SIZE: nat := 84

  /** Bytes each field occupies. */
  function FieldSize(f: Field): nat
  {
    match f
    case FinalPtrField => 4
    case SelectDataField => 4
    case SendBufField => 16
    case StatusBufField => 1
    case PadField => 3
    case _ => 8
  }

  /** Byte offset of each field from the start of the entry, as annotated in the structure. */
  function FieldOffset(f: Field): nat
  {
    match f
    case MoveDataField => 0
    case SaveDataField => 8
    case FinalPtrField => 16
    case SelectDataField => 20
    case StatusDataField => 24
    case RecvMsgField => 32
    case SendMsgField => 40
    case CommandDataField => 48
    case SendBufField => 56
    case RecvBufField => 72
    case StatusBufField => 80
    case PadField => 81
  }

  /** The same offsets as the 32-bit quantities the chip adds to DSA. */
  function FieldOffset32(f: Field): bv32
  {
    match f
    case MoveDataField => 0
    case SaveDataField => 8
    case FinalPtrField => 16
    case SelectDataField => 20
    case StatusDataField => 24
    case RecvMsgField => 32
    case SendMsgField => 40
    case CommandDataField => 48
    case SendBufField => 56
    case RecvBufField => 72
    case StatusBufField => 80
    case PadField => 81
  }

  /** The two offset tables agree. */
  lemma FieldOffsetsAgree(f: Field)
    ensures FieldOffset32(f) as int == FieldOffset(f)
  {
  }

  /** Position of each field in memory order. */
  function FieldIndex(f: Field): nat
  {
    match f
    case MoveDataField => 0
    case SaveDataField => 1
    case FinalPtrField => 2
    case SelectDataField => 3
    case StatusDataField => 4
    case RecvMsgField => 5
    case SendMsgField => 6
    case CommandDataField => 7
    case SendBufField => 8
    case RecvBufField => 9
    case StatusBufField => 10
    case PadField => 11
  }

  /** The layout lists every field exactly once. */
  lemma LayoutEnumerates(f: Field, k: nat)
    ensures FieldIndex(f) < |Layout| && Layout[FieldIndex(f)] == f
    ensures k < |Layout| ==> FieldIndex(Layout[k]) == k
  {
  }

  /** Total size of a run of fields laid out back to back. */
  function SizeOf(fs: seq<Field>): nat
  {
    if fs == [] then 0 else SizeOf(fs[..|fs| - 1]) + FieldSize(fs[|fs| - 1])
  }

  /** The annotated offsets are those of a packed layout: each field starts
   *  where the fields before it end, and the entry is 84 bytes. */
  lemma {:induction false} LayoutIsPacked()
    ensures |Layout| == 12
    ensures forall k :: 0 <= k < |Layout| ==> FieldOffset(Layout[k]) == SizeOf(Layout[..k])
    ensures SizeOf(Layout) == DSA_SIZE
  {
    forall k | 0 <= k < |Layout|
      ensures FieldOffset(Layout[k]) == SizeOf(Layout[..k])
    {
      PrefixSize(k);
    }
    assert Layout[..12] == Layout;
    PrefixSize(12);
  }

  lemma {:induction false} PrefixSize(k: nat)
    requires k <= 12
    ensures SizeOf(Layout[..k]) == if k == 12 then DSA_SIZE else FieldOffset(Layout[k])
  {
    if k > 0 {
      PrefixSize(k - 1);
      assert Layout[..k][..k - 1] == Layout[..k - 1];
    }
  }

  /** The table-indirect operands (move and select entries) are longword aligned. */
  lemma OperandsAligned(f: Field)
    requires f !in {SendBufField, RecvBufField, StatusBufField, PadField}
    ensures FieldOffset(f) % 4 == 0
    ensures FieldOffset(f) + FieldSize(f) <= FieldOffset(SendBufField)
  {
  }

  /** The address of byte `i` of field `f` of the entry at `dsa`. */
  function FieldAddr(dsa: bv32, f: Field, i: bv32): bv32
  {
    dsa + FieldOffset32(f) + i
  }

  /** `addr` is the address of byte `i` of field `f` of the entry at `dsa`. */
  predicate Points(dsa: bv32, addr: bv32, f: Field, i: bv32)
  {
    (i as int) < FieldSize(f) && addr == FieldAddr(dsa, f, i)
  }

  /** The field and index a byte offset into the entry falls in. */
  function FieldAt(off: nat): (r: (Field, nat))
    requires off < DSA_SIZE
    ensures r.1 < FieldSize(r.0) && FieldOffset(r.0) + r.1 == off
  {
    if off < 8 then (MoveDataField, off)
    else if off < 16 then (SaveDataField, off - 8)
    else if off < 20 then (FinalPtrField, off - 16)
    else if off < 24 then (SelectDataField, off - 20)
    else if off < 32 then (StatusDataField, off - 24)
    else if off < 40 then (RecvMsgField, off - 32)
    else if off < 48 then (SendMsgField, off - 40)
    else if off < 56 then (CommandDataField, off - 48)
    else if off < 72 then (SendBufField, off - 56)
    else if off < 80 then (RecvBufField, off - 72)
    else if off < 81 then (StatusBufField, off - 80)
    else (PadField, off - 81)
  }

  /** Fields do not overlap: each byte offset belongs to exactly one field. */
  lemma FieldAtIsUnique(f: Field, i: nat)
    requires i < FieldSize(f)
    ensures FieldOffset(f) + i < DSA_SIZE
    ensures FieldAt(FieldOffset(f) + i) == (f, i)
  {
  }

  /** The move operand the chip fetches from a table-indirect offset, if
   *  the offset names one of the entry's eight-byte move fields. */
  function MoveAt(d: DsaEntry, off: bv32): Option<MoveData>
  {
    if off == 0 then Some(d.moveData)
    else if off == 8 then Some(d.saveData)
    else if off == 24 then Some(d.statusData)
    else if off == 32 then Some(d.recvMsg)
    else if off == 40 then Some(d.sendMsg)
    else if off == 48 then Some(d.commandData)
    else None
  }

  // ----------------------------------------------------- shared program

  /** The SCRIPTS program for INQUIRY, reused unchanged for READ(10). */
  const InquiryScript: Program := [
    (0x4700_0014, 0x0000_0000),
    (0x1E00_0000, 0x0000_0028),
    (0x1A00_0000, 0x0000_0030),
    (0x1900_0000, 0x0000_0000),
    (0x1B00_0000, 0x0000_0018),
    (0x1F00_0000, 0x0000_0020),
    (0x6000_0040, 0x0000_0000),
    (0x4800_0000, 0x0000_0000),
    (0x9808_0000, 0xDEAD_BEEF),
    (0x9808_0000, 0xBADB_AD00)]

  /** Table-indirect move, matching the phase exactly (WHEN): opcode bits 011. */
  const TABLE_MOVE_WHEN: bv8 := 3

  /** What the program does, instruction by instruction. */
  const InquirySteps: seq<Instr> := [
    Select(7, FieldOffset32(SelectDataField), 0),
    BlockMove(TABLE_MOVE_WHEN, PHASE_MSG_OUT, 0, FieldOffset32(SendMsgField)),
    BlockMove(TABLE_MOVE_WHEN, PHASE_COMMAND, 0, FieldOffset32(CommandDataField)),
    BlockMove(TABLE_MOVE_WHEN, PHASE_DATA_IN, 0, FieldOffset32(MoveDataField)),
    BlockMove(TABLE_MOVE_WHEN, PHASE_STATUS, 0, FieldOffset32(StatusDataField)),
    BlockMove(TABLE_MOVE_WHEN, PHASE_MSG_IN, 0, FieldOffset32(RecvMsgField)),
    ClearAck,
    WaitDisconnect,
    Interrupt(TOKEN_INQUIRY_DONE),
    Interrupt(TOKEN_INQUIRY_FAILED)]

  /** The table decodes to the intended steps: a relative, table-indirect SELECT with
   *  ATN on `select_data`, five table-indirect moves whose operands are the
   *  DSA offsets of `send_msg`, `command_data`, `move_data`, `status_data`
   *  and `recv_msg`, each matched on its own phase, then CLEAR ACK, WAIT
   *  DISCONNECT and the two interrupts. */
  lemma InquiryScriptDecodes()
    ensures |InquiryScript| == |InquirySteps| == 10
    ensures forall k :: 0 <= k < 10 ==> Pair(InquiryScript, k) == InquirySteps[k]
  {
    DecodeSelectWord(0x4700_0014, 0);
    DecodeMoveWord(0x1E00_0000, 0x28);
    DecodeMoveWord(0x1A00_0000, 0x30);
    DecodeMoveWord(0x1900_0000, 0);
    DecodeMoveWord(0x1B00_0000, 0x18);
    DecodeMoveWord(0x1F00_0000, 0x20);
    forall k | 0 <= k < 10
      ensures Pair(InquiryScript, k) == InquirySteps[k]
    {
    }
  }

  /** ... and is exactly their encoding. */
  lemma InquiryScriptEncodes()
    ensures forall k :: 0 <= k < 10 ==> Encode(InquirySteps[k]) == InquiryScript[k]
  {
    InquiryScriptDecodes();
    forall k | 0 <= k < 10
      ensures Encode(InquirySteps[k]) == InquiryScript[k]
    {
      DecodeEncode(InquiryScript[k].0, InquiryScript[k].1);
    }
  }

  /** Every table-indirect move of the program fetches the DSA field the
   *  phase calls for, whatever entry DSA points to. */
  lemma InquiryMovesFetchTheirFields(d: DsaEntry)
    ensures MoveAt(d, InquirySteps[1].addr) == Some(d.sendMsg)
    ensures MoveAt(d, InquirySteps[2].addr) == Some(d.commandData)
    ensures MoveAt(d, InquirySteps[3].addr) == Some(d.moveData)
    ensures MoveAt(d, InquirySteps[4].addr) == Some(d.statusData)
    ensures MoveAt(d, InquirySteps[5].addr) == Some(d.recvMsg)
  {
  }

  /** The SELECT reads table-indirect with a relative alternate of 0, so a
   *  failed selection continues at the next instruction, the MSG OUT move,
   *  wherever the program sits; the failure interrupt in the last pair is
   *  not its alternate. */
  lemma InquirySelectFallsThrough(base: bv32)
    ensures InquirySteps[0].Select? && InquirySteps[0].flags & SELECT_TABLE_INDIRECT != 0
    ensures SelectFailTarget(InquirySteps[0].flags, InquirySteps[0].alt, base) == base + 8
    ensures InquirySteps[1] == BlockMove(TABLE_MOVE_WHEN, PHASE_MSG_OUT, 0, FieldOffset32(SendMsgField))
    ensures InquirySteps[9] == Interrupt(TOKEN_INQUIRY_FAILED) && base + 8 != base + 72
  {
  }

  // ----------------------------------------------------------- builders

  /** `n` zero bytes. */
  function Zeros(n: nat): (z: seq<bv8>)
    ensures |z| == n && forall i :: 0 <= i < n ==> z[i] == 0
  {
    if n == 0 then [] else Zeros(n - 1) + [0]
  }

  /** The entry after the driver clears it. */
  function ClearedEntry(): (d: DsaEntry)
    ensures ValidEntry(d)
  {
    DsaEntry(MoveData(0, 0), MoveData(0, 0), 0, SelectData(0, 0, 0, 0),
             MoveData(0, 0), MoveData(0, 0), MoveData(0, 0), MoveData(0, 0),
             Zeros(16), Zeros(8), [0], [0, 0, 0])
  }

  /** The parts both builders set the same way: selection of `target`
   *  asynchronously, one status byte, one message byte in, one IDENTIFY
   *  byte out, and the command starting right after it. */
  predicate CommonSetup(dsa: bv32, target: bv8, d: DsaEntry)
  {
    target < 8 && ValidEntry(d)
    && d.selectData == SelectData(0, (1 as bv8) << target, 0, 0)
    && d.statusData.len == 1 && Points(dsa, d.statusData.addr, StatusBufField, 0)
    && d.recvMsg.len == 1 && Points(dsa, d.recvMsg.addr, RecvBufField, 0)
    && d.sendMsg.len == 1 && Points(dsa, d.sendMsg.addr, SendBufField, 0)
    && Points(dsa, d.commandData.addr, SendBufField, 1)
    && d.sendBuf[0] == MSG_IDENTIFY
    && d.saveData == MoveData(0, 0) && d.finalPtr == 0
    && d.recvBuf == Zeros(8) && d.statusBuf == [0] && d.pad == [0, 0, 0]
  }

  /** The entry with the common setup applied and the given data move and command. */
  function Setup(dsa: bv32, target: bv8, data: MoveData, cdb: seq<bv8>, cdbLen: bv32): (d: DsaEntry)
    requires target < 8 && 1 <= |cdb| <= 15
  {
    var c := ClearedEntry();
    c.(moveData := data,
       selectData := SelectData(0, (1 as bv8) << target, 0, 0),
       statusData := MoveData(1, FieldAddr(dsa, StatusBufField, 0)),
       recvMsg := MoveData(1, FieldAddr(dsa, RecvBufField, 0)),
       sendMsg := MoveData(1, FieldAddr(dsa, SendBufField, 0)),
       commandData := MoveData(cdbLen, FieldAddr(dsa, SendBufField, 1)),
       sendBuf := SendBuffer(cdb))
  }

  /** The 16-byte send buffer: IDENTIFY for LUN 0, the command, zero fill. */
  function SendBuffer(cdb: seq<bv8>): (b: seq<bv8>)
    requires 1 <= |cdb| <= 15
    ensures |b| == 16 && b[0] == MSG_IDENTIFY && b[1..1 + |cdb|] == cdb
    ensures forall i :: 1 + |cdb| <= i < 16 ==> b[i] == 0
  {
    var b := [MSG_IDENTIFY] + cdb + Zeros(15 - |cdb|);
    assert b[1..1 + |cdb|] == cdb;
    b
  }

  lemma SetupIsCommon(dsa: bv32, target: bv8, data: MoveData, cdb: seq<bv8>, cdbLen: bv32)
    requires target < 8 && 1 <= |cdb| <= 15
    ensures var d := Setup(dsa, target, data, cdb, cdbLen);
      CommonSetup(dsa, target, d) && d.moveData == data
      && d.commandData.len == cdbLen && d.sendBuf[1..1 + |cdb|] == cdb
      && forall i :: 1 + |cdb| <= i < 16 ==> d.sendBuf[i] == 0
  {
    SetupPointers(dsa, target, data, cdb, cdbLen);
  }

  lemma SetupPointers(dsa: bv32, target: bv8, data: MoveData, cdb: seq<bv8>, cdbLen: bv32)
    requires target < 8 && 1 <= |cdb| <= 15
    ensures var d := Setup(dsa, target, data, cdb, cdbLen);
      Points(dsa, d.statusData.addr, StatusBufField, 0)
      && Points(dsa, d.recvMsg.addr, RecvBufField, 0)
      && Points(dsa, d.sendMsg.addr, SendBufField, 0)
      && Points(dsa, d.commandData.addr, SendBufField, 1)
  {
  }

  const INQUIRY_LENGTH: bv8 := 36

  /** The DSA entry for an INQUIRY of `target` into `dataBuf`. */
  function BuildInquiryDSA(dsa: bv32, target: bv8, dataBuf: bv32): (d: DsaEntry)
    requires target < 8
    ensures CommonSetup(dsa, target, d)
    ensures d.moveData == MoveData(INQUIRY_LENGTH as bv32, dataBuf)
    ensures d.moveData.len == d.sendBuf[5] as bv32
    ensures d.commandData.len == 6 && d.sendBuf[1..7] == InquiryCdb(INQUIRY_LENGTH)
    ensures d.sendBuf[1..7] == [OP_INQUIRY, 0, 0, 0, 36, 0]
  {
    var cdb := InquiryCdb(INQUIRY_LENGTH);
    SetupIsCommon(dsa, target, MoveData(INQUIRY_LENGTH as bv32, dataBuf), cdb, 6);
    Setup(dsa, target, MoveData(INQUIRY_LENGTH as bv32, dataBuf), cdb, 6)
  }

  /** The DSA entry for a READ(10) of `blocks` blocks at `lba` into `dataBuf`. */
  function BuildRead10DSA(dsa: bv32, target: bv8, lba: bv32, blocks: bv16, dataBuf: bv32): (d: DsaEntry)
    requires target < 8
    ensures CommonSetup(dsa, target, d)
    ensures d.moveData.addr == dataBuf
    ensures d.moveData.len as int == blocks as int * BLOCK_SIZE
    ensures d.commandData.len == 10 && 1 + 10 <= |d.sendBuf|
    ensures DecodeRead10(d.sendBuf[1..11]) == Read10Fields(lba, blocks)
    ensures d.sendBuf[1] == OP_READ10 && d.sendBuf[2] == 0
  {
    var cdb := Read10Cdb(lba, blocks);
    var len := (blocks as bv32) * 512;
    Read10Length(blocks);
    SetupIsCommon(dsa, target, MoveData(len, dataBuf), cdb, 10);
    Setup(dsa, target, MoveData(len, dataBuf), cdb, 10)
  }

  lemma Read10Length(blocks: bv16)
    ensures ((blocks as bv32) * 512) as int == blocks as int * 512
  {
    assert (blocks as bv32) * 512 == (blocks as bv32) << 9;
  }

  /** A READ(10) of at most 32767 blocks fits the chip's 24-bit move count. */
  lemma Read10FitsMoveCount(dsa: bv32, target: bv8, lba: bv32, blocks: bv16, dataBuf: bv32)
    requires target < 8 && blocks < 0x8000
    ensures BuildRead10DSA(dsa, target, lba, blocks, dataBuf).moveData.len <= COUNT_MASK
  {
  }
}
