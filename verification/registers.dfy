/**
 * The NCR 53C710 register block as the driver sees it on the A4000T:
 * byte offsets of every register, the long-word write quirk (long writes go
 * 0x80 bytes above the register's read address), the status flag bits, and
 * the host-written register state the initialisation and interrupt code leave behind.
 */
module Registers {
  import opened Common

  /** The registers of `struct ncr710`, in declaration order. */
  datatype Reg =
    | Sien | Sdid | Scntl1 | Scntl0 | Socl | Sodl | Sxfer | Scid
    | Sbcl | Sbdl | Sidl | Sfbr | Sstat2 | Sstat1 | Sstat0 | Dstat
    | Dsa
    | Ctest3 | Ctest2 | Ctest1 | Ctest0 | Ctest7 | Ctest6 | Ctest5 | Ctest4
    | Temp
    | Lcrc | Ctest8 | Istat | Dfifo
    | Dbc | Dnad | Dsp | Dsps | Scratch
    | Dcntl | Dwt | Dien | Dmode
    | Adder

  /** Size in bytes of a register field: ULONG fields are 4, UBYTE fields 1. */
  function Width(r: Reg): nat
  {
    if r.Dsa? || r.Temp? || r.Dbc? || r.Dnad? || r.Dsp? || r.Dsps? || r.Scratch? || r.Adder? then 4 else 1
  }

  /** Byte offset of each register within the block (`offsetof(struct ncr710, r)`). */
  function RegOffset(r: Reg): nat
  {
    match r
    case Sien => 0   case Sdid => 1   case Scntl1 => 2  case Scntl0 => 3
    case Socl => 4   case Sodl => 5   case Sxfer => 6   case Scid => 7
    case Sbcl => 8   case Sbdl => 9   case Sidl => 10   case Sfbr => 11
    case Sstat2 => 12 case Sstat1 => 13 case Sstat0 => 14 case Dstat => 15
    case Dsa => 16
    case Ctest3 => 20 case Ctest2 => 21 case Ctest1 => 22 case Ctest0 => 23
    case Ctest7 => 24 case Ctest6 => 25 case Ctest5 => 26 case Ctest4 => 27
    case Temp => 28
    case Lcrc => 32  case Ctest8 => 33 case Istat => 34  case Dfifo => 35
    case Dbc => 36   case Dnad => 40   case Dsp => 44    case Dsps => 48
    case Scratch => 52
    case Dcntl => 56 case Dwt => 57    case Dien => 58   case Dmode => 59
    case Adder => 60
  }

  /** Total size of the register block. */
  const RegisterBlockSize: nat := 64

  /** The register whose field starts at byte `offset`, if any (how the chip decodes an access). */
  function RegAt(offset: int): Option<Reg>
  {
    match offset
    case 0 => Some(Sien)  case 1 => Some(Sdid)  case 2 => Some(Scntl1)  case 3 => Some(Scntl0)
    case 4 => Some(Socl)  case 5 => Some(Sodl)  case 6 => Some(Sxfer)  case 7 => Some(Scid)
    case 8 => Some(Sbcl)  case 9 => Some(Sbdl)  case 10 => Some(Sidl)  case 11 => Some(Sfbr)
    case 12 => Some(Sstat2)  case 13 => Some(Sstat1)  case 14 => Some(Sstat0)  case 15 => Some(Dstat)
    case 16 => Some(Dsa)  case 20 => Some(Ctest3)  case 21 => Some(Ctest2)  case 22 => Some(Ctest1)
    case 23 => Some(Ctest0)  case 24 => Some(Ctest7)  case 25 => Some(Ctest6)  case 26 => Some(Ctest5)
    case 27 => Some(Ctest4)  case 28 => Some(Temp)  case 32 => Some(Lcrc)  case 33 => Some(Ctest8)
    case 34 => Some(Istat)  case 35 => Some(Dfifo)  case 36 => Some(Dbc)  case 40 => Some(Dnad)
    case 44 => Some(Dsp)  case 48 => Some(Dsps)  case 52 => Some(Scratch)  case 56 => Some(Dcntl)
    case 57 => Some(Dwt)  case 58 => Some(Dien)  case 59 => Some(Dmode)  case 60 => Some(Adder)
    case _ => None
  }

  /** The field declared after `r` in `struct ncr710`, if any. */
  function NextReg(r: Reg): Option<Reg>
  {
    match r
    case Sien => Some(Sdid)  case Sdid => Some(Scntl1)  case Scntl1 => Some(Scntl0)  case Scntl0 => Some(Socl)
    case Socl => Some(Sodl)  case Sodl => Some(Sxfer)  case Sxfer => Some(Scid)  case Scid => Some(Sbcl)
    case Sbcl => Some(Sbdl)  case Sbdl => Some(Sidl)  case Sidl => Some(Sfbr)  case Sfbr => Some(Sstat2)
    case Sstat2 => Some(Sstat1)  case Sstat1 => Some(Sstat0)  case Sstat0 => Some(Dstat)  case Dstat => Some(Dsa)
    case Dsa => Some(Ctest3)  case Ctest3 => Some(Ctest2)  case Ctest2 => Some(Ctest1)  case Ctest1 => Some(Ctest0)
    case Ctest0 => Some(Ctest7)  case Ctest7 => Some(Ctest6)  case Ctest6 => Some(Ctest5)  case Ctest5 => Some(Ctest4)
    case Ctest4 => Some(Temp)  case Temp => Some(Lcrc)  case Lcrc => Some(Ctest8)  case Ctest8 => Some(Istat)
    case Istat => Some(Dfifo)  case Dfifo => Some(Dbc)  case Dbc => Some(Dnad)  case Dnad => Some(Dsp)
    case Dsp => Some(Dsps)  case Dsps => Some(Scratch)  case Scratch => Some(Dcntl)  case Dcntl => Some(Dwt)
    case Dwt => Some(Dien)  case Dien => Some(Dmode)  case Dmode => Some(Adder)  case Adder => None
  }

  /**
   * The layout is packed in declaration order: the first field is at 0, each
   * field starts where the previous one ends, the last one ends at 64 bytes,
   * every long field is long-aligned, and the chip decodes every field's
   * offset back to that field.
   */
  lemma LayoutIsPacked(r: Reg)
    ensures r == Sien ==> RegOffset(r) == 0
    ensures NextReg(r).Some? ==> RegOffset(NextReg(r).value) == RegOffset(r) + Width(r)
    ensures NextReg(r).None? ==> RegOffset(r) + Width(r) == RegisterBlockSize
    ensures Width(r) == 4 ==> RegOffset(r) % 4 == 0
    ensures RegAt(RegOffset(r)) == Some(r)
  {
    NextFieldIsAdjacent(r);
    LastFieldEndsBlock(r);
    LongFieldsAligned(r);
    DecodesBack(r);
  }

  lemma NextFieldIsAdjacent(r: Reg)
    ensures NextReg(r).Some? ==> RegOffset(NextReg(r).value) == RegOffset(r) + Width(r)
  {
    if RegOffset(r) < 16 {
      AdjacentBelow16(r);
    } else if RegOffset(r) < 32 {
      AdjacentBelow32(r);
    } else if RegOffset(r) < 48 {
      AdjacentBelow48(r);
    } else {
      AdjacentFrom48(r);
    }
  }

  lemma AdjacentBelow16(r: Reg)
    requires RegOffset(r) < 16
    ensures NextReg(r).Some? && RegOffset(NextReg(r).value) == RegOffset(r) + Width(r)
  {
  }

  lemma AdjacentBelow32(r: Reg)
    requires 16 <= RegOffset(r) < 32
    ensures NextReg(r).Some? && RegOffset(NextReg(r).value) == RegOffset(r) + Width(r)
  {
  }

  lemma AdjacentBelow48(r: Reg)
    requires 32 <= RegOffset(r) < 48
    ensures NextReg(r).Some? && RegOffset(NextReg(r).value) == RegOffset(r) + Width(r)
  {
  }

  lemma AdjacentFrom48(r: Reg)
    requires 48 <= RegOffset(r)
    ensures NextReg(r).Some? ==> RegOffset(NextReg(r).value) == RegOffset(r) + Width(r)
  {
  }

  lemma LastFieldEndsBlock(r: Reg)
    ensures NextReg(r).None? ==> RegOffset(r) + Width(r) == RegisterBlockSize
  {
  }

  lemma LongFieldsAligned(r: Reg)
    ensures Width(r) == 4 ==> RegOffset(r) % 4 == 0
  {
  }

  lemma DecodesBack(r: Reg)
    ensures RegAt(RegOffset(r)) == Some(r)
  {
    match r
    case Sien => case Sdid => case Scntl1 => case Scntl0 => case Socl => case Sodl => case Sxfer => case Scid =>
    case Sbcl => case Sbdl => case Sidl => case Sfbr => case Sstat2 => case Sstat1 => case Sstat0 => case Dstat =>
    case Dsa => case Ctest3 => case Ctest2 => case Ctest1 => case Ctest0 => case Ctest7 => case Ctest6 => case Ctest5 => case Ctest4 =>
    case Temp => case Lcrc => case Ctest8 => case Istat => case Dfifo => case Dbc => case Dnad => case Dsp => case Dsps => case Scratch =>
    case Dcntl => case Dwt => case Dien => case Dmode => case Adder =>
  }

  /** Offset added to the base for every long-word write. */
  const WRITE_OFFSET: bv32 := 0x80

  /** Address `WRITE_LONG(base, r, v)` stores to: base + 0x80 + offsetof(r). */
  function LongWriteAddress(base: bv32, r: Reg): (a: bv32)
    requires Width(r) == 4
    ensures DecodeLongWrite(base, a) == Some(r)
  {
    LongWriteDecodes(base, r);
    base + WRITE_OFFSET + LongOffset(r)
  }

  /** Byte offset of a 32-bit register, as a 32-bit address quantity. */
  function LongOffset(r: Reg): (off: bv32)
    requires Width(r) == 4
  {
    if r.Dsa? then 16
    else if r.Temp? then 28
    else if r.Dbc? then 36
    else if r.Dnad? then 40
    else if r.Dsp? then 44
    else if r.Dsps? then 48
    else if r.Scratch? then 52
    else 60
  }

  /** The 32-bit offset agrees with the layout. */
  lemma LongOffsetMatchesLayout(r: Reg)
    requires Width(r) == 4
    ensures LongOffset(r) as int == RegOffset(r)
  {
    match r
    case Dsa => case Temp => case Dbc => case Dnad => case Dsp => case Dsps => case Scratch => case Adder =>
    case _ =>
  }

  /** Which long register the chip updates for a long write at `addr`. */
  function DecodeLongWrite(base: bv32, addr: bv32): Option<Reg>
  {
    LongRegAt(addr - base - WRITE_OFFSET)
  }

  /** The 32-bit register starting at byte `offset` of the block, if any. */
  function LongRegAt(offset: bv32): Option<Reg>
  {
    if offset == 16 then Some(Dsa)
    else if offset == 28 then Some(Temp)
    else if offset == 36 then Some(Dbc)
    else if offset == 40 then Some(Dnad)
    else if offset == 44 then Some(Dsp)
    else if offset == 48 then Some(Dsps)
    else if offset == 52 then Some(Scratch)
    else if offset == 60 then Some(Adder)
    else None
  }

  lemma LongWriteDecodes(base: bv32, r: Reg)
    requires Width(r) == 4
    ensures DecodeLongWrite(base, base + WRITE_OFFSET + LongOffset(r)) == Some(r)
  {
    var off := LongOffset(r);
    assert base + WRITE_OFFSET + off - base - WRITE_OFFSET == off;
  }

  /** The worked example: `dsp`, at byte 44, is written at base + 0xAC. */
  lemma DspIsWrittenAtAC(base: bv32)
    ensures LongWriteAddress(base, Dsp) == base + 0xAC
    ensures RegOffset(Dsp) == 44
  {
    assert LongOffset(Dsp) == 44;
    assert WRITE_OFFSET + 44 == 0xAC;
  }

  // DSTAT bits
  const DSTAT_DFE: bv8 := 0x80
  const DSTAT_BF: bv8 := 0x20
  const DSTAT_ABRT: bv8 := 0x10
  const DSTAT_SSI: bv8 := 0x08
  const DSTAT_SIR: bv8 := 0x04
  const DSTAT_WTD: bv8 := 0x02
  const DSTAT_IID: bv8 := 0x01

  // ISTAT bits
  const ISTAT_ABRT: bv8 := 0x80
  const ISTAT_RST: bv8 := 0x40
  const ISTAT_SIGP: bv8 := 0x20
  const ISTAT_CON: bv8 := 0x08
  const ISTAT_SIP: bv8 := 0x02
  const ISTAT_DIP: bv8 := 0x01

  // DMODE, DIEN, DCNTL bits used by the driver
  const DMODE_BL1: bv8 := 0x80
  const DMODE_BL0: bv8 := 0x40
  const DMODE_FC1: bv8 := 0x10
  const DIEN_ABRT: bv8 := 0x10
  const DIEN_SSI: bv8 := 0x08
  const DIEN_IID: bv8 := 0x01
  const DCNTL_EA: bv8 := 0x20
  const DCNTL_COM: bv8 := 0x01

  const DstatFlags: seq<bv8> := [DSTAT_DFE, DSTAT_BF, DSTAT_ABRT, DSTAT_SSI, DSTAT_SIR, DSTAT_WTD, DSTAT_IID]
  const IstatFlags: seq<bv8> := [ISTAT_ABRT, ISTAT_RST, ISTAT_SIGP, ISTAT_CON, ISTAT_SIP, ISTAT_DIP]

  /** True when `flag` is set in register value `v`. */
  predicate Has(v: bv8, flag: bv8)
  {
    v & flag != 0
  }

  predicate SingleBit(f: bv8)
  {
    f != 0 && f & (f - 1) == 0
  }

  /** Every DSTAT and ISTAT flag is one bit, and no two flags of a register share it. */
  lemma FlagsAreDistinctBits()
    ensures forall i :: 0 <= i < |DstatFlags| ==> SingleBit(DstatFlags[i])
    ensures forall i, j :: 0 <= i < j < |DstatFlags| ==> DstatFlags[i] & DstatFlags[j] == 0
    ensures forall i :: 0 <= i < |IstatFlags| ==> SingleBit(IstatFlags[i])
    ensures forall i, j :: 0 <= i < j < |IstatFlags| ==> IstatFlags[i] & IstatFlags[j] == 0
  {
  }

  /**
   * The values the host has most recently written to the chip's writable
   * registers (reads of the status registers are modelled separately, as
   * snapshots, because they clear latched conditions).
   */
  datatype ChipRegs = ChipRegs(
    sien: bv8, dien: bv8, dmode: bv8, dcntl: bv8,
    scid: bv8, scntl0: bv8, scntl1: bv8, sxfer: bv8,
    istat: bv8, scratch: bv32, temp: bv32, dsp: bv32, dsa: bv32)
}
