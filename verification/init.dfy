/**
 * Bringing the chip up for the DMA tests: the presence check through the
 * A4000T's GARY bus controller, the software reset through ISTAT, the
 * register configuration that follows, and the error check every DMA wait
 * uses. Register reads are parameters: a read of a latched status register
 * is one value, and the reset wait reads ISTAT once per iteration.
 */
module Init {
  import opened Common
  import opened Registers
  import opened Poll

  // ------------------------------------------------------- CheckNCRStatus

  /** What CheckNCRStatus concludes, in the order it tests. */
  datatype StatusCheck =
    | Quiet                 // no DMA interrupt decided anything
    | IllegalInstruction
    | ScriptAborted
    | WatchdogExpired
    | ScriptSignalled       // SIR: the script raised its interrupt
    | UnexpectedScsi        // no DMA verdict, but a SCSI interrupt is pending

  /** The classification; `dstat` is read only when ISTAT has DIP. */
  function ClassifyStatus(istat: bv8, dstat: bv8): StatusCheck
  {
    if Has(istat, ISTAT_DIP) && Has(dstat, DSTAT_IID) then IllegalInstruction
    else if Has(istat, ISTAT_DIP) && Has(dstat, DSTAT_ABRT) then ScriptAborted
    else if Has(istat, ISTAT_DIP) && Has(dstat, DSTAT_WTD) then WatchdogExpired
    else if Has(istat, ISTAT_DIP) && Has(dstat, DSTAT_SIR) then ScriptSignalled
    else if Has(istat, ISTAT_SIP) then UnexpectedScsi
    else Quiet
  }

  predicate IsError(c: StatusCheck)
  {
    c.IllegalInstruction? || c.ScriptAborted? || c.WatchdogExpired?
  }

  /** CheckNCRStatus: -1 for a DMA error condition, 0 otherwise. */
  function CheckNCRStatus(istat: bv8, dstat: bv8): (r: int)
    ensures r == -1 <==> IsError(ClassifyStatus(istat, dstat))
    ensures r == 0 || r == -1
  {
    if IsError(ClassifyStatus(istat, dstat)) then -1 else 0
  }

  /** The error bits DMA waits treat as fatal. */
  const FATAL_DSTAT: bv8 := 0x13   // IID | WTD | ABRT

  /** An error exactly when DIP is set and DSTAT has IID, ABRT or WTD; with
   *  DIP clear the result is 0 whatever SIP says, and SSI alone is no error. */
  lemma CheckStatusIff(istat: bv8, dstat: bv8)
    ensures FATAL_DSTAT == DSTAT_IID | DSTAT_ABRT | DSTAT_WTD
    ensures CheckNCRStatus(istat, dstat) == -1 <==> Has(istat, ISTAT_DIP) && dstat & FATAL_DSTAT != 0
    ensures !Has(istat, ISTAT_DIP) ==> CheckNCRStatus(istat, dstat) == 0
    ensures dstat == DSTAT_SSI ==> CheckNCRStatus(istat, dstat) == 0
  {
  }

  /** The tests run in the order IID, ABRT, WTD, and a script interrupt is
   *  reported only when none of them is set. */
  lemma CheckStatusOrder(istat: bv8, dstat: bv8)
    requires Has(istat, ISTAT_DIP)
    ensures Has(dstat, DSTAT_IID) ==> ClassifyStatus(istat, dstat) == IllegalInstruction
    ensures !Has(dstat, DSTAT_IID) && Has(dstat, DSTAT_ABRT) ==> ClassifyStatus(istat, dstat) == ScriptAborted
    ensures ClassifyStatus(istat, dstat) == ScriptSignalled <==>
      Has(dstat, DSTAT_SIR) && dstat & FATAL_DSTAT == 0
  {
  }

  // ------------------------------------------------------------ DetectNCR

  /** GARY's timeout bit, and the modes written to GARY around the probe. */
  const GARY_TIMEOUT: bv8 := 0x80
  const GARY_DSACK_MODE: bv8 := 0x00
  const GARY_BUS_ERROR_MODE: bv8 := 0x80

  /** The outcome of the presence check and what it leaves written. */
  datatype Detection = Detection(code: int, dcntl: bv8, garyMode: bv8)

  /**
   * DetectNCR: `gary` is GARY read back after the DCNTL write, `istat1` and
   * `istat2` the two ISTAT reads that follow a passed GARY check.
   */
  function DetectNCR(gary: bv8, istat1: bv8, istat2: bv8): (d: Detection)
    ensures d.code == -1 <==> Has(gary, GARY_TIMEOUT) || (istat1 == 0xFF && istat2 == 0xFF)
    ensures d.code == 0 || d.code == -1
    ensures d.dcntl == DCNTL_EA | DCNTL_COM && d.garyMode == GARY_BUS_ERROR_MODE
  {
    var dcntl := DCNTL_EA | DCNTL_COM;
    if gary & GARY_TIMEOUT != 0 then Detection(-1, dcntl, GARY_BUS_ERROR_MODE)
    else if istat1 == 0xFF && istat2 == 0xFF then Detection(-1, dcntl, GARY_BUS_ERROR_MODE)
    else Detection(0, dcntl, GARY_BUS_ERROR_MODE)
  }

  // ------------------------------------------------------------- ResetNCR

  const RESET_POLLS: nat := 10000

  /** One iteration of the reset wait: done once RST has cleared. */
  function ResetDecide(istat: bv8): Decision
  {
    if istat & ISTAT_RST == 0 then Done(0) else Continue
  }

  /**
   * ResetNCR: `istatReads(k)` is ISTAT in iteration k of the wait and `after` is
   * ISTAT read after the delay loop. Returns the result code, whether the
   * wait saw RST clear, how many reads it took, and the values written to
   * ISTAT in order.
   */
  method ResetNCR(istatReads: nat -> bv8, after: bv8)
    returns (r: int, cleared: bool, polls: nat, istatWrites: seq<bv8>)
    ensures r == 0
    ensures cleared <==> exists k :: 0 <= k < RESET_POLLS && istatReads(k) & ISTAT_RST == 0
    ensures cleared ==> 1 <= polls <= RESET_POLLS && istatReads(polls - 1) & ISTAT_RST == 0
    ensures cleared ==> forall k :: 0 <= k < polls - 1 ==> istatReads(k) & ISTAT_RST != 0
    ensures !cleared ==> polls == RESET_POLLS
    ensures istatWrites == if Has(after, ISTAT_RST) then [ISTAT_RST, 0] else [ISTAT_RST]
  {
    istatWrites := [ISTAT_RST];
    var code;
    code, polls := Wait(ResetDecide, istatReads, RESET_POLLS, -1);
    cleared := code == 0;
    if cleared {
      DecidedByAnIteration(ResetDecide, istatReads, RESET_POLLS, -1, code, polls);
      forall k | 0 <= k < polls - 1
        ensures istatReads(k) & ISTAT_RST != 0
      {
        assert ResetDecide(istatReads(k)) == Continue;
      }
    } else {
      forall k | 0 <= k < RESET_POLLS
        ensures istatReads(k) & ISTAT_RST != 0
      {
        assert ResetDecide(istatReads(k)) == Continue;
      }
    }
    if after & ISTAT_RST != 0 {
      istatWrites := istatWrites + [0];
    }
    r := 0;
  }

  // -------------------------------------------------------------- InitNCR

  /** DMODE: burst length 8 and supervisor-data function code. */
  const INIT_DMODE: bv8 := 0xD0
  /** DIEN: illegal instruction, abort and single step. */
  const INIT_DIEN: bv8 := 0x19
  /** DCNTL: EA only; compatibility mode off. */
  const INIT_DCNTL: bv8 := 0x20

  /** The configuration InitNCR leaves in a chip that answered. */
  predicate Configured(g: ChipRegs)
  {
    g.sien == 0 && g.dmode == INIT_DMODE && g.dien == INIT_DIEN && g.dcntl == INIT_DCNTL
    && g.scid == 0 && g.scntl0 == 0 && g.scntl1 == 0 && g.sxfer == 0
    && g.scratch == 0 && g.temp == 0
  }

  /** The register writes InitNCR makes after a successful reset, in the
   *  order it makes them; no other register changes. */
  function Configure(g: ChipRegs): (g': ChipRegs)
    ensures Configured(g')
    ensures g'.istat == g.istat && g'.dsp == g.dsp && g'.dsa == g.dsa
  {
    g.(sien := 0)
     .(dmode := DMODE_BL1 | DMODE_BL0 | DMODE_FC1)
     .(dien := DIEN_IID | DIEN_ABRT | DIEN_SSI)
     .(dcntl := DCNTL_EA)
     .(scratch := 0, temp := 0)
     .(scid := 0, scntl0 := 0, scntl1 := 0)
     .(sxfer := 0)
  }

  /** What the reset leaves in the ISTAT register: the last value written. */
  function LastWritten(writes: seq<bv8>, prior: bv8): bv8
  {
    if writes == [] then prior else writes[|writes| - 1]
  }

  /** ResetNCR as InitNCR sees it: its result and the value it leaves written to ISTAT. */
  method ResetForInit(istatReads: nat -> bv8, after: bv8) returns (r: int, istat: bv8)
    ensures r == 0
    ensures istat == if Has(after, ISTAT_RST) then 0 else ISTAT_RST
  {
    var cleared, polls, istatWrites;
    r, cleared, polls, istatWrites := ResetNCR(istatReads, after);
    istat := LastWritten(istatWrites, ISTAT_RST);
  }

  /**
   * InitNCR on the chip at `base`, whose written registers hold `g`.
   * Returns the result, the register state afterwards and the addresses of
   * the two long-word writes (SCRATCH and TEMP).
   */
  method InitNCR(base: bv32, g: ChipRegs, gary: bv8, istat1: bv8, istat2: bv8,
                 resetReads: nat -> bv8, resetAfter: bv8)
    returns (r: int, g': ChipRegs, longWrites: seq<bv32>)
    ensures r == -1 <==> DetectNCR(gary, istat1, istat2).code == -1
    ensures r == 0 || r == -1
    ensures r == -1 ==> g' == g.(dcntl := DCNTL_EA | DCNTL_COM) && longWrites == []
    ensures r == 0 ==> Configured(g')
    ensures r == 0 ==> g'.dsp == g.dsp && g'.dsa == g.dsa
    ensures r == 0 ==> g'.istat == (if Has(resetAfter, ISTAT_RST) then 0 else ISTAT_RST)
    ensures r == 0 ==> |longWrites| == 2
    ensures r == 0 ==> DecodeLongWrite(base, longWrites[0]) == Some(Scratch)
    ensures r == 0 ==> DecodeLongWrite(base, longWrites[1]) == Some(Temp)
  {
    var d := DetectNCR(gary, istat1, istat2);
    g' := g.(dcntl := d.dcntl);
    if d.code < 0 {
      return -1, g', [];
    }
    var rr, istat := ResetForInit(resetReads, resetAfter);
    g' := g'.(istat := istat);
    if rr < 0 {
      return -1, g', [];
    }
    g' := Configure(g');
    longWrites := [LongWriteAddress(base, Scratch), LongWriteAddress(base, Temp)];
    r := 0;
  }

  /** The configuration does not depend on what the registers held before:
   *  two successful initialisations agree on every configured register. */
  lemma ConfigurationIsCanonical(g1: ChipRegs, g2: ChipRegs)
    requires Configured(g1) && Configured(g2)
    ensures g1.(istat := 0, dsp := 0, dsa := 0) == g2.(istat := 0, dsp := 0, dsa := 0)
  {
  }

  /** The named constants spell the configured values. */
  lemma InitValues()
    ensures DMODE_BL1 | DMODE_BL0 | DMODE_FC1 == INIT_DMODE
    ensures DIEN_IID | DIEN_ABRT | DIEN_SSI == INIT_DIEN
    ensures DCNTL_EA == INIT_DCNTL
  {
  }
}
