/**
 * Command descriptor blocks and the IDENTIFY message the driver sends, with
 * the decoders a target applies to them (SCSI-2, ANSI X3.131-1994).
 */
module Cdb {
  import opened Common
  import opened ScsiDefs

  /** Length of a command descriptor block, fixed by the group code in the
   *  top three bits of the opcode (section 7.2 of SCSI-2); 0 for the
   *  reserved and vendor-specific groups. */
  function GroupLength(opcode: bv8): nat
  {
    var group := opcode >> 5;
    if group == 0 then 6
    else if group == 1 || group == 2 then 10
    else if group == 5 then 12
    else 0
  }

  // ---------------------------------------------------------------- IDENTIFY

  /** Bit 7 marks an IDENTIFY message (section 6.6.7 of SCSI-2). */
  predicate IsIdentify(m: bv8)
  {
    m & 0x80 != 0
  }

  /** The logical unit an IDENTIFY message addresses. */
  function IdentifyLun(m: bv8): bv8
  {
    m & 0x07
  }

  /** The IDENTIFY message for `lun`, without disconnect privilege. */
  function Identify(lun: bv8): (m: bv8)
    ensures IsIdentify(m)
    ensures IdentifyLun(m) == lun & 0x07
    ensures m & 0x40 == 0
    ensures lun < 8 ==> IdentifyLun(m) == lun
  {
    MSG_IDENTIFY | (lun & 0x07)
  }

  /** Every IDENTIFY without disconnect privilege and reserved bits is built by `Identify`. */
  lemma IdentifyIsOnto(m: bv8)
    requires IsIdentify(m) && m & 0x78 == 0
    ensures Identify(IdentifyLun(m)) == m
  {
  }

  // ------------------------------------------------------- TEST UNIT READY

  /** TEST UNIT READY (section 8.2.16 of SCSI-2): opcode 0, all other bytes 0. */
  function TestUnitReadyCdb(): (c: seq<bv8>)
    ensures |c| == GroupLength(OP_TEST_UNIT_READY)
    ensures c[0] == OP_TEST_UNIT_READY
    ensures forall i :: 1 <= i < |c| ==> c[i] == 0
  {
    [OP_TEST_UNIT_READY, 0, 0, 0, 0, 0]
  }

  // ----------------------------------------------------------------- INQUIRY

  /** INQUIRY of the standard page (section 8.2.5 of SCSI-2), LUN 0, EVPD clear. */
  function InquiryCdb(allocLength: bv8): (c: seq<bv8>)
    ensures |c| == GroupLength(OP_INQUIRY)
    ensures c[0] == OP_INQUIRY && InquiryAllocation(c) == allocLength
    ensures c[1] == 0 && c[2] == 0 && c[3] == 0 && c[5] == 0
  {
    [OP_INQUIRY, 0, 0, 0, allocLength, 0]
  }

  /** The allocation length a target reads from an INQUIRY block. */
  function InquiryAllocation(c: seq<bv8>): bv8
    requires |c| == 6
  {
    c[4]
  }

  // ----------------------------------------------------------------- READ(6)

  /** The fields a target decodes from a READ(6) block. */
  datatype Read6Fields = Read6Fields(lun: bv8, lba: bv32, blocks: bv8)

  /** READ(6) (section 9.2.5 of SCSI-2): a 21-bit block address whose top five
   *  bits share byte 1 with the LUN in bits 7-5. */
  function Read6Cdb(lun: bv8, lba: bv32, blocks: bv8): (c: seq<bv8>)
    ensures |c| == GroupLength(OP_READ6)
    ensures c[0] == OP_READ6 && c[5] == 0
    ensures DecodeRead6(c) == Read6Fields(lun & 0x07, lba & 0x1F_FFFF, blocks)
  {
    [OP_READ6,
     (((lba >> 16) & 0x1F) as bv8) | ((lun & 0x07) << 5),
     ((lba >> 8) & 0xFF) as bv8,
     (lba & 0xFF) as bv8,
     blocks,
     0]
  }

  function DecodeRead6(c: seq<bv8>): Read6Fields
    requires |c| == 6
  {
    Read6Fields(
      c[1] >> 5,
      (((c[1] & 0x1F) as bv32) << 16) | ((c[2] as bv32) << 8) | (c[3] as bv32),
      c[4])
  }

  /** A LUN below 8 and an address below 2^21 survive the encoding exactly. */
  lemma Read6RoundTrip(lun: bv8, lba: bv32, blocks: bv8)
    requires lun < 8 && lba < 0x20_0000
    ensures DecodeRead6(Read6Cdb(lun, lba, blocks)) == Read6Fields(lun, lba, blocks)
  {
    assert lun & 0x07 == lun;
    assert lba & 0x1F_FFFF == lba;
  }

  /** Every READ(6) block with a zero control byte is the encoding of what it decodes to. */
  lemma Read6Onto(c: seq<bv8>)
    requires |c| == 6 && c[0] == OP_READ6 && c[5] == 0
    ensures Read6Cdb(DecodeRead6(c).lun, DecodeRead6(c).lba, DecodeRead6(c).blocks) == c
  {
    var f := DecodeRead6(c);
    var e := Read6Cdb(f.lun, f.lba, f.blocks);
    assert e[1] == c[1];
    assert e[2] == c[2];
    assert e[3] == c[3];
  }

  // ---------------------------------------------------------------- READ(10)

  datatype Read10Fields = Read10Fields(lba: bv32, blocks: bv16)

  /** READ(10) (section 9.2.6 of SCSI-2), LUN 0 and no flags: a 32-bit
   *  big-endian block address in bytes 2-5 and a 16-bit big-endian length in
   *  bytes 7-8. */
  function Read10Cdb(lba: bv32, blocks: bv16): (c: seq<bv8>)
    ensures |c| == GroupLength(OP_READ10)
    ensures c[0] == OP_READ10 && c[1] == 0 && c[6] == 0 && c[9] == 0
    ensures DecodeRead10(c) == Read10Fields(lba, blocks)
  {
    var a := BigEndian32(lba);
    [OP_READ10, 0, a[0], a[1], a[2], a[3], 0, ((blocks >> 8) & 0xFF) as bv8, (blocks & 0xFF) as bv8, 0]
  }

  function DecodeRead10(c: seq<bv8>): Read10Fields
    requires |c| == 10
  {
    Read10Fields(FromBigEndian32(c[2..6]), ((c[7] as bv16) << 8) | (c[8] as bv16))
  }

  /** Every READ(10) block of this form is the encoding of what it decodes to. */
  lemma Read10Onto(c: seq<bv8>)
    requires |c| == 10 && c[0] == OP_READ10 && c[1] == 0 && c[6] == 0 && c[9] == 0
    ensures Read10Cdb(DecodeRead10(c).lba, DecodeRead10(c).blocks) == c
  {
    var f := DecodeRead10(c);
    BigEndianOnto(c[2..6]);
    LengthBytes(c[7], c[8]);
    var e := Read10Cdb(f.lba, f.blocks);
    assert e[7] == c[7] && e[8] == c[8];
  }

  lemma LengthBytes(hi: bv8, lo: bv8)
    ensures var n := ((hi as bv16) << 8) | (lo as bv16);
      ((n >> 8) & 0xFF) as bv8 == hi && (n & 0xFF) as bv8 == lo
  {
  }
}
