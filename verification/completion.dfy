/**
 * The decision tables that turn one polling iteration's register reads into
 * a result. The protocol layer (TEST UNIT READY, READ(6)) and the table-
 * indirect layer (INQUIRY, READ(10)) use different tables: in the first an
 * unrecognised script-interrupt token keeps polling, in the second it is an
 * error.
 */
module Completion {
  import opened Registers
  import opened ScsiDefs
  import opened Poll

  /**
   * What one iteration reads: ISTAT always; DSTAT when ISTAT shows a DMA
   * interrupt; DSPS when DSTAT shows a script interrupt; SSTAT0 when ISTAT
   * shows a SCSI interrupt; and the status byte the target's STATUS phase
   * left in host memory. Fields the iteration does not read are ignored.
   */
  datatype Snapshot = Snapshot(istat: bv8, dstat: bv8, dsps: bv32, sstat0: bv8, status: bv8)

  // Script-interrupt tokens of the protocol layer's scripts.
  const TOKEN_COMPLETE: bv32 := 0xFEED_0000
  const TOKEN_SELECTION_FAILED: bv32 := 0xDEAD_0000

  // Script-interrupt tokens of the table-indirect script.
  const TOKEN_INQUIRY_DONE: bv32 := 0xDEAD_BEEF
  const TOKEN_INQUIRY_FAILED: bv32 := 0xBADB_AD00

  // SSTAT0 bits the protocol layer examines.
  const SSTAT0_STO: bv8 := 0x20
  const SSTAT0_UDC: bv8 := 0x04
  const SSTAT0_SGE: bv8 := 0x08

  /** DSTAT bits the table-indirect layer treats as a DMA error. */
  const NCR_DMA_ERRORS: bv8 := DSTAT_IID | DSTAT_ABRT | DSTAT_SSI

  // Result codes of the table-indirect layer.
  const NCR_OK: int := 0
  const NCR_ERR_ALLOC: int := -1
  const NCR_ERR_STATUS: int := -2
  const NCR_ERR_SELECTION: int := -3
  const NCR_ERR_TOKEN: int := -4
  const NCR_ERR_DMA: int := -5
  const NCR_ERR_SCSI: int := -6
  const NCR_ERR_TIMEOUT: int := -7

  // ------------------------------------------------------- protocol layer

  /** The result a completed protocol-layer command reports for a status byte. */
  function StatusResult(status: bv8): int
  {
    if status == STATUS_GOOD then SCSI_OK
    else if status == STATUS_CHECK then SCSI_ERR_CHECK
    else SCSI_ERR_TIMEOUT
  }

  /** One iteration of the TEST UNIT READY / READ(6) wait loop. */
  function ScsiDecide(s: Snapshot): Decision
  {
    if Has(s.istat, ISTAT_DIP) && Has(s.dstat, DSTAT_SIR) && s.dsps == TOKEN_COMPLETE then
      Done(StatusResult(s.status))
    else if Has(s.istat, ISTAT_DIP) && Has(s.dstat, DSTAT_SIR) && s.dsps == TOKEN_SELECTION_FAILED then
      Done(SCSI_ERR_SELECTION)
    else if Has(s.istat, ISTAT_DIP) && Has(s.dstat, DSTAT_IID) then
      Done(SCSI_ERR_TIMEOUT)
    else if Has(s.istat, ISTAT_SIP) then
      ScsiInterruptDecide(s.sstat0)
    else
      Continue
  }

  /** The SSTAT0 bits, tested in priority order selection timeout, disconnect, gross error. */
  function ScsiInterruptDecide(sstat0: bv8): Decision
  {
    if Has(sstat0, SSTAT0_STO) then Done(SCSI_ERR_SELECTION)
    else if Has(sstat0, SSTAT0_UDC) then Done(SCSI_ERR_DISCONNECT)
    else if Has(sstat0, SSTAT0_SGE) then Done(SCSI_ERR_PHASE)
    else Continue
  }

  /** The script ran to its completion interrupt. */
  predicate ScsiCompleted(s: Snapshot)
  {
    Has(s.istat, ISTAT_DIP) && Has(s.dstat, DSTAT_SIR) && s.dsps == TOKEN_COMPLETE
  }

  /** A DMA interrupt that decides the protocol-layer outcome on its own. */
  predicate ScsiDmaDecisive(s: Snapshot)
  {
    Has(s.istat, ISTAT_DIP)
    && ((Has(s.dstat, DSTAT_SIR) && (s.dsps == TOKEN_COMPLETE || s.dsps == TOKEN_SELECTION_FAILED))
        || Has(s.dstat, DSTAT_IID))
  }

  /** OK is reported exactly when the script completed and the target returned GOOD. */
  lemma ScsiOkIff(s: Snapshot)
    ensures ScsiDecide(s) == Done(SCSI_OK) <==> ScsiCompleted(s) && s.status == STATUS_GOOD
  {
  }

  /** CHECK CONDITION is reported exactly when the script completed with status CHECK. */
  lemma ScsiCheckIff(s: Snapshot)
    ensures ScsiDecide(s) == Done(SCSI_ERR_CHECK) <==> ScsiCompleted(s) && s.status == STATUS_CHECK
  {
  }

  /** The iteration keeps polling exactly when nothing decisive was read: an
   *  unrecognised token, SSI or ABRT alone, or SSTAT0 bits outside 0x2C. */
  lemma ScsiContinueIff(s: Snapshot)
    ensures ScsiDecide(s) == Continue <==>
      !ScsiDmaDecisive(s) && !(Has(s.istat, ISTAT_SIP) && s.sstat0 & 0x2C != 0)
  {
  }

  /** An unexpected script-interrupt token alone does not end the loop. */
  lemma ScsiUnknownTokenKeepsPolling(s: Snapshot)
    requires Has(s.istat, ISTAT_DIP) && Has(s.dstat, DSTAT_SIR)
    requires s.dsps != TOKEN_COMPLETE && s.dsps != TOKEN_SELECTION_FAILED
    requires !Has(s.dstat, DSTAT_IID) && !Has(s.istat, ISTAT_SIP)
    ensures ScsiDecide(s) == Continue
  {
  }

  /** Every decision is one of the six codes the layer reports; BUSY never is. */
  lemma ScsiCodesInRange(s: Snapshot)
    ensures ScsiDecide(s).Done? ==>
      ScsiDecide(s).code in {SCSI_OK, SCSI_ERR_SELECTION, SCSI_ERR_PHASE, SCSI_ERR_TIMEOUT,
                             SCSI_ERR_CHECK, SCSI_ERR_DISCONNECT}
    ensures ScsiDecide(s) != Done(SCSI_ERR_BUSY)
  {
  }

  /** With no decisive DMA interrupt, a SCSI interrupt is classified by the
   *  highest-priority SSTAT0 bit set. */
  lemma ScsiInterruptPriority(s: Snapshot)
    requires !ScsiDmaDecisive(s) && Has(s.istat, ISTAT_SIP)
    ensures Has(s.sstat0, SSTAT0_STO) ==> ScsiDecide(s) == Done(SCSI_ERR_SELECTION)
    ensures !Has(s.sstat0, SSTAT0_STO) && Has(s.sstat0, SSTAT0_UDC) ==> ScsiDecide(s) == Done(SCSI_ERR_DISCONNECT)
    ensures !Has(s.sstat0, SSTAT0_STO) && !Has(s.sstat0, SSTAT0_UDC) && Has(s.sstat0, SSTAT0_SGE)
            ==> ScsiDecide(s) == Done(SCSI_ERR_PHASE)
  {
  }

  // ------------------------------------------------- table-indirect layer

  /** One iteration of the INQUIRY / READ(10) wait loop. */
  function NcrDecide(s: Snapshot): Decision
  {
    if Has(s.istat, ISTAT_DIP) && Has(s.dstat, DSTAT_SIR) then
      if s.dsps == TOKEN_INQUIRY_DONE then
        (if s.status == STATUS_GOOD then Done(NCR_OK) else Done(NCR_ERR_STATUS))
      else if s.dsps == TOKEN_INQUIRY_FAILED then Done(NCR_ERR_SELECTION)
      else Done(NCR_ERR_TOKEN)
    else if Has(s.istat, ISTAT_DIP) && s.dstat & NCR_DMA_ERRORS != 0 then
      Done(NCR_ERR_DMA)
    else if Has(s.istat, ISTAT_SIP) then
      Done(NCR_ERR_SCSI)
    else
      Continue
  }

  /** Success exactly when the script reached its completion interrupt and the status is GOOD. */
  lemma NcrOkIff(s: Snapshot)
    ensures NcrDecide(s) == Done(NCR_OK) <==>
      Has(s.istat, ISTAT_DIP) && Has(s.dstat, DSTAT_SIR) && s.dsps == TOKEN_INQUIRY_DONE
      && s.status == STATUS_GOOD
  {
  }

  /** Every script interrupt ends the loop, with one of four codes. */
  lemma NcrAnyTokenEnds(s: Snapshot)
    requires Has(s.istat, ISTAT_DIP) && Has(s.dstat, DSTAT_SIR)
    ensures NcrDecide(s).Done?
    ensures NcrDecide(s).code in {NCR_OK, NCR_ERR_STATUS, NCR_ERR_SELECTION, NCR_ERR_TOKEN}
    ensures NcrDecide(s).code == NCR_ERR_TOKEN <==>
      s.dsps != TOKEN_INQUIRY_DONE && s.dsps != TOKEN_INQUIRY_FAILED
  {
  }

  /** A DMA error is reported exactly when DSTAT shows IID, ABRT or SSI without SIR. */
  lemma NcrDmaErrorIff(s: Snapshot)
    ensures NcrDecide(s) == Done(NCR_ERR_DMA) <==>
      Has(s.istat, ISTAT_DIP) && !Has(s.dstat, DSTAT_SIR)
      && (Has(s.dstat, DSTAT_IID) || Has(s.dstat, DSTAT_ABRT) || Has(s.dstat, DSTAT_SSI))
  {
  }

  /** Polling continues exactly when neither a decisive DMA interrupt nor any SCSI interrupt was read. */
  lemma NcrContinueIff(s: Snapshot)
    ensures NcrDecide(s) == Continue <==>
      !(Has(s.istat, ISTAT_DIP) && s.dstat & (DSTAT_SIR | NCR_DMA_ERRORS) != 0)
      && !Has(s.istat, ISTAT_SIP)
  {
  }

  /** The layer never reports allocation failure or timeout from a register read. */
  lemma NcrCodesInRange(s: Snapshot)
    ensures NcrDecide(s).Done? ==> -6 <= NcrDecide(s).code <= 0 && NcrDecide(s).code != NCR_ERR_ALLOC
  {
  }
}
