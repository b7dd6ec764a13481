/**
 * The interrupt server on the PORTS chain: it claims an interrupt only when
 * ISTAT shows a DMA or SCSI interrupt pending, counts it, and keeps the last
 * status it read. The driver's globals are an explicit state value; the
 * chip's reads during one invocation are a parameter.
 */
module Interrupt {
  import opened Common
  import opened Registers

  /** The handler's globals: three counters, the last status read, and the chip served. */
  datatype IntState = IntState(
    total: u32, dma: u32, scsi: u32,
    lastIstat: bv8, lastDstat: bv8, lastSstat0: bv8, lastDsp: bv32,
    ncr: Option<bv32>)

  /** The globals at load time. */
  const BOOT_STATE := IntState(0, 0, 0, 0, 0, 0, 0, None)

  /** What one invocation reads: ISTAT, then (when it claims the interrupt) DSTAT, SSTAT0 and DSP. */
  datatype IntRead = IntRead(istat: bv8, dstat: bv8, sstat0: bv8, dsp: bv32)

  /** The interrupt is the chip's: DIP or SIP is set. */
  predicate Ours(istat: bv8)
  {
    istat & (ISTAT_DIP | ISTAT_SIP) != 0
  }

  /** NCRIntHandler: returns 1 when it handled the interrupt, 0 to pass it on. */
  function Handle(st: IntState, rd: IntRead): (res: (int, IntState))
    ensures res.0 == 1 <==> Has(rd.istat, ISTAT_DIP) || Has(rd.istat, ISTAT_SIP)
    ensures res.0 == 0 || res.0 == 1
    ensures res.0 == 0 ==> res.1 == st
    ensures res.0 == 1 ==> res.1.ncr == st.ncr
    ensures res.0 == 1 ==>
      (res.1.lastIstat, res.1.lastDstat, res.1.lastSstat0, res.1.lastDsp) == (rd.istat, rd.dstat, rd.sstat0, rd.dsp)
    ensures res.1.total as int == (st.total as int + res.0) % TWO_TO_32
    ensures res.1.dma as int == (st.dma as int + (if Has(rd.istat, ISTAT_DIP) then 1 else 0)) % TWO_TO_32
    ensures res.1.scsi as int == (st.scsi as int + (if Has(rd.istat, ISTAT_SIP) then 1 else 0)) % TWO_TO_32
  {
    if !Ours(rd.istat) then (0, st)
    else
      var st1 := st.(total := Inc32(st.total), lastIstat := rd.istat,
                     lastDstat := rd.dstat, lastSstat0 := rd.sstat0, lastDsp := rd.dsp);
      var st2 := if Has(rd.istat, ISTAT_DIP) then st1.(dma := Inc32(st1.dma)) else st1;
      var st3 := if Has(rd.istat, ISTAT_SIP) then st2.(scsi := Inc32(st2.scsi)) else st2;
      (1, st3)
  }

  /** Every claimed interrupt is a DMA or a SCSI interrupt or both, so the
   *  total lies between the larger count and the sum of the two. */
  predicate Counted(st: IntState)
  {
    st.dma <= st.total && st.scsi <= st.total && st.total as int <= st.dma as int + st.scsi as int
  }

  /** The handler keeps the counters consistent as long as the total does not wrap. */
  lemma HandleKeepsCounted(st: IntState, rd: IntRead)
    requires Counted(st) && st.total as int < TWO_TO_32 - 1
    ensures Counted(Handle(st, rd).1)
  {
  }

  /** The counters wrap: with the total at its maximum, one more interrupt breaks the relation. */
  lemma TotalWraps()
    ensures var st := IntState(0xFFFF_FFFF, 0xFFFF_FFFF, 0, 0, 0, 0, 0, None);
      Counted(st) && !Counted(Handle(st, IntRead(ISTAT_SIP, 0, 0, 0)).1)
  {
  }

  // -------------------------------------------------- a run of interrupts

  /** The state after the handler has run on each read in turn. */
  function HandleAll(st: IntState, rds: seq<IntRead>): IntState
  {
    if rds == [] then st else Handle(HandleAll(st, rds[..|rds| - 1]), rds[|rds| - 1]).1
  }

  /** Reference counts: how many reads satisfy a condition on ISTAT. */
  function CountIstat(rds: seq<IntRead>, p: bv8 -> bool): nat
  {
    if rds == [] then 0
    else CountIstat(rds[..|rds| - 1], p) + (if p(rds[|rds| - 1].istat) then 1 else 0)
  }

  lemma {:induction false} CountIstatBound(rds: seq<IntRead>, p: bv8 -> bool)
    ensures CountIstat(rds, p) <= |rds|
  {
    if rds != [] {
      CountIstatBound(rds[..|rds| - 1], p);
    }
  }

  /** The last read the handler claimed, if any. */
  function LastOurs(rds: seq<IntRead>): Option<IntRead>
  {
    if rds == [] then None
    else if Ours(rds[|rds| - 1].istat) then Some(rds[|rds| - 1])
    else LastOurs(rds[..|rds| - 1])
  }

  /**
   * From a state with zeroed counters, as installation leaves them, and
   * fewer than 2^32 reads, the counters count the claimed reads, the DMA
   * interrupts and the SCSI interrupts, and the last-status globals hold
   * the last claimed read.
   */
  lemma {:induction false} HandleAllCounts(st: IntState, rds: seq<IntRead>)
    requires st.total == 0 && st.dma == 0 && st.scsi == 0
    requires |rds| < TWO_TO_32
    ensures var st' := HandleAll(st, rds);
      st'.total as int == CountIstat(rds, Ours)
      && st'.dma as int == CountIstat(rds, (i: bv8) => Has(i, ISTAT_DIP))
      && st'.scsi as int == CountIstat(rds, (i: bv8) => Has(i, ISTAT_SIP))
      && st'.ncr == st.ncr
      && (LastOurs(rds).None? ==>
            (st'.lastIstat, st'.lastDstat, st'.lastSstat0, st'.lastDsp)
            == (st.lastIstat, st.lastDstat, st.lastSstat0, st.lastDsp))
      && (LastOurs(rds).Some? ==>
            (st'.lastIstat, st'.lastDstat, st'.lastSstat0, st'.lastDsp)
            == (LastOurs(rds).value.istat, LastOurs(rds).value.dstat,
                LastOurs(rds).value.sstat0, LastOurs(rds).value.dsp))
  {
    if rds != [] {
      var init := rds[..|rds| - 1];
      HandleAllCounts(st, init);
      CountIstatBound(init, Ours);
      CountIstatBound(init, (i: bv8) => Has(i, ISTAT_DIP));
      CountIstatBound(init, (i: bv8) => Has(i, ISTAT_SIP));
    }
  }

  /** The counters stay consistent over any run too short to wrap them. */
  lemma HandleAllKeepsCounted(st: IntState, rds: seq<IntRead>)
    requires st.total == 0 && st.dma == 0 && st.scsi == 0
    requires |rds| < TWO_TO_32
    ensures Counted(HandleAll(st, rds))
  {
    HandleAllCounts(st, rds);
    OursSplits(rds);
  }

  /** Every claimed read is a DMA or a SCSI interrupt, and each of those is claimed. */
  lemma {:induction false} OursSplits(rds: seq<IntRead>)
    ensures CountIstat(rds, (i: bv8) => Has(i, ISTAT_DIP)) <= CountIstat(rds, Ours)
    ensures CountIstat(rds, (i: bv8) => Has(i, ISTAT_SIP)) <= CountIstat(rds, Ours)
    ensures CountIstat(rds, Ours)
         <= CountIstat(rds, (i: bv8) => Has(i, ISTAT_DIP)) + CountIstat(rds, (i: bv8) => Has(i, ISTAT_SIP))
  {
    if rds != [] {
      OursSplits(rds[..|rds| - 1]);
    }
  }

  // ------------------------------------------------- install and remove

  /** The value InstallNCRInterrupt writes to SIEN and DIEN: every source enabled. */
  const ALL_ENABLED: bv8 := 0xFF

  /**
   * InstallNCRInterrupt for the chip at `ncr` whose written registers hold
   * `chip`: returns 0, the globals afterwards and the chip's registers.
   * The last-status globals keep whatever they held.
   */
  method Install(st: IntState, ncr: bv32, chip: ChipRegs) returns (r: int, st': IntState, chip': ChipRegs)
    ensures r == 0
    ensures st' == st.(total := 0, dma := 0, scsi := 0, ncr := Some(ncr))
    ensures chip' == chip.(sien := ALL_ENABLED, dien := ALL_ENABLED)
    ensures Counted(st')
  {
    st' := st.(ncr := Some(ncr), total := 0, dma := 0, scsi := 0);
    chip' := chip.(sien := 0xFF);
    chip' := chip'.(dien := 0xFF);
    r := 0;
  }

  /** The interrupt-enable registers as RemoveNCRInterrupt leaves them. */
  const ALL_DISABLED: bv8 := 0x00

  /**
   * RemoveNCRInterrupt: when a chip is installed, disables its interrupts
   * and forgets it; otherwise does nothing. `chip` is the installed chip's
   * written registers. The counters are kept for a later report.
   */
  function Remove(st: IntState, chip: ChipRegs): (res: (IntState, ChipRegs))
    ensures st.ncr.None? ==> res == (st, chip)
    ensures st.ncr.Some? ==> res.1 == chip.(sien := ALL_DISABLED, dien := ALL_DISABLED)
    ensures res.0 == st.(ncr := None)
  {
    if st.ncr.Some? then (st.(ncr := None), chip.(sien := 0, dien := 0)) else (st, chip)
  }

  /** Removing twice is removing once. */
  lemma RemoveIsIdempotent(st: IntState, chip: ChipRegs)
    ensures var (st1, c1) := Remove(st, chip); Remove(st1, c1) == Remove(st, chip)
  {
  }

  /** Install then remove leaves the chip's interrupts off, no chip installed
   *  and the counters as the interrupts in between left them. */
  lemma InstallThenRemove(st: IntState, ncr: bv32, chip: ChipRegs, rds: seq<IntRead>)
    requires |rds| < TWO_TO_32
    ensures var st1 := st.(total := 0, dma := 0, scsi := 0, ncr := Some(ncr));
      var st2 := HandleAll(st1, rds);
      var (st3, c3) := Remove(st2, chip.(sien := ALL_ENABLED, dien := ALL_ENABLED));
      st3.ncr.None? && c3.sien == 0 && c3.dien == 0
      && st3.total as int == CountIstat(rds, Ours)
  {
    HandleAllCounts(st.(total := 0, dma := 0, scsi := 0, ncr := Some(ncr)), rds);
  }

  // ------------------------------------------------------------- getters

  /**
   * GetNCRInterruptStats: each argument is what the caller's variable holds,
   * or None for a null pointer; the result is what the variables hold after.
   */
  function GetStats(st: IntState, total: Option<u32>, dma: Option<u32>, scsi: Option<u32>)
    : (res: (Option<u32>, Option<u32>, Option<u32>))
    ensures res.0.Some? <==> total.Some?
    ensures res.1.Some? <==> dma.Some?
    ensures res.2.Some? <==> scsi.Some?
    ensures total.Some? ==> res.0.value == st.total
    ensures dma.Some? ==> res.1.value == st.dma
    ensures scsi.Some? ==> res.2.value == st.scsi
  {
    (Store(total, st.total), Store(dma, st.dma), Store(scsi, st.scsi))
  }

  /** A store through an optional out-pointer. */
  function Store<T>(target: Option<T>, v: T): (res: Option<T>)
    ensures res.Some? <==> target.Some?
    ensures target.Some? ==> res.value == v
  {
    if target.Some? then Some(v) else None
  }

  /** GetLastNCRInterrupt, in the same style. */
  function GetLast(st: IntState, istat: Option<bv8>, dstat: Option<bv8>, sstat0: Option<bv8>, dsp: Option<bv32>)
    : (res: (Option<bv8>, Option<bv8>, Option<bv8>, Option<bv32>))
    ensures res.0.Some? <==> istat.Some?
    ensures res.1.Some? <==> dstat.Some?
    ensures res.2.Some? <==> sstat0.Some?
    ensures res.3.Some? <==> dsp.Some?
    ensures istat.Some? ==> res.0.value == st.lastIstat
    ensures dstat.Some? ==> res.1.value == st.lastDstat
    ensures sstat0.Some? ==> res.2.value == st.lastSstat0
    ensures dsp.Some? ==> res.3.value == st.lastDsp
  {
    (Store(istat, st.lastIstat), Store(dstat, st.lastDstat), Store(sstat0, st.lastSstat0), Store(dsp, st.lastDsp))
  }

  /** After installation and a run of interrupts the statistics report the
   *  claimed, DMA and SCSI interrupt counts. */
  lemma StatsReportCounts(st: IntState, ncr: bv32, rds: seq<IntRead>)
    requires |rds| < TWO_TO_32
    ensures var st2 := HandleAll(st.(total := 0, dma := 0, scsi := 0, ncr := Some(ncr)), rds);
      var (t, d, s) := GetStats(st2, Some(0), Some(0), Some(0));
      t.Some? && t.value == CountIstat(rds, Ours)
      && d.Some? && d.value == CountIstat(rds, (i: bv8) => Has(i, ISTAT_DIP))
      && s.Some? && s.value == CountIstat(rds, (i: bv8) => Has(i, ISTAT_SIP))
  {
    HandleAllCounts(st.(total := 0, dma := 0, scsi := 0, ncr := Some(ncr)), rds);
  }
}
