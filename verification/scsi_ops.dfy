/**
 * The protocol layer's commands: TEST UNIT READY and READ(6) each allocate
 * an operation record and a script, start the chip and poll it; the bus
 * scan runs TEST UNIT READY on every ID but the host's.
 */
module ScsiOps {
  import opened Common
  import opened ScsiDefs
  import opened Cdb
  import opened Instr
  import opened Poll
  import opened Completion
  import opened ScsiScripts

  /** Iterations each command polls before giving up. */
  const TUR_POLLS: nat := 1_000_000
  const READ6_POLLS: nat := 5_000_000

  /**
   * Everything one command sees of the machine: whether the record and the
   * script buffer could be allocated, where they live, and the chip's reads
   * during the wait.
   */
  datatype Probe = Probe(opOk: bool, scriptOk: bool, script: bv32, at: OpAddrs, chip: nat -> Snapshot)

  /** The result TEST UNIT READY reports, as a reference definition. */
  function TurOutcome(p: Probe): int
  {
    if !p.opOk || !p.scriptOk then SCSI_ERR_TIMEOUT
    else PollFrom(ScsiDecide, p.chip, 0, TUR_POLLS, SCSI_ERR_TIMEOUT).0
  }

  /** SCSI_TestUnitReady. */
  method TestUnitReady(p: Probe, target: bv8, lun: bv8) returns (r: int, polls: nat)
    requires target < 8
    ensures r == TurOutcome(p)
    ensures !p.opOk || !p.scriptOk ==> r == SCSI_ERR_TIMEOUT && polls == 0
    ensures p.opOk && p.scriptOk ==> PollOutcome(ScsiDecide, p.chip, TUR_POLLS, SCSI_ERR_TIMEOUT, r, polls)
    ensures r == SCSI_OK ==>
      1 <= polls <= TUR_POLLS && ScsiCompleted(p.chip(polls - 1)) && p.chip(polls - 1).status == STATUS_GOOD
  {
    if !p.opOk {
      return SCSI_ERR_TIMEOUT, 0;
    }
    var built := BuildTestUnitReadyScript(p.scriptOk, p.script, target, lun, ClearedOp(), p.at);
    if built.None? {
      return SCSI_ERR_TIMEOUT, 0;
    }
    r, polls := Wait(ScsiDecide, p.chip, TUR_POLLS, SCSI_ERR_TIMEOUT);
    PollAgreesWithReference(ScsiDecide, p.chip, TUR_POLLS, SCSI_ERR_TIMEOUT, r, polls);
    if r == SCSI_OK {
      DecidedByAnIteration(ScsiDecide, p.chip, TUR_POLLS, SCSI_ERR_TIMEOUT, r, polls);
      ScsiOkIff(p.chip(polls - 1));
    }
  }

  /** The result READ(6) reports, as a reference definition. */
  function Read6Outcome(p: Probe): int
  {
    if !p.opOk || !p.scriptOk then SCSI_ERR_TIMEOUT
    else PollFrom(ScsiDecide, p.chip, 0, READ6_POLLS, SCSI_ERR_TIMEOUT).0
  }

  /** The byte count of a READ(6) of `blocks` blocks. */
  function Read6Length(blocks: bv8): (len: bv32)
    ensures len as int == blocks as int * BLOCK_SIZE
    ensures len as int <= 255 * BLOCK_SIZE && len <= COUNT_MASK
  {
    assert (blocks as bv32) * 512 == (blocks as bv32) << 9;
    (blocks as bv32) * 512
  }

  /** SCSI_Read6: reads `blocks` blocks at `lba` into `buffer`. */
  method Read6(p: Probe, target: bv8, lun: bv8, lba: bv32, blocks: bv8, buffer: bv32)
    returns (r: int, polls: nat, built: Option<Built>)
    requires target < 8
    ensures r == Read6Outcome(p)
    ensures !p.opOk || !p.scriptOk ==> r == SCSI_ERR_TIMEOUT && polls == 0
    ensures p.opOk && p.scriptOk ==> PollOutcome(ScsiDecide, p.chip, READ6_POLLS, SCSI_ERR_TIMEOUT, r, polls)
    ensures r == SCSI_OK ==>
      1 <= polls <= READ6_POLLS && ScsiCompleted(p.chip(polls - 1)) && p.chip(polls - 1).status == STATUS_GOOD
    ensures built.Some? <==> p.opOk && p.scriptOk
    ensures built.Some? ==>
      |built.value.script| == 9 && ValidOp(built.value.op)
      && Pair(built.value.script, 3)
         == BlockMove(1, PHASE_DATA_IN | 6, blocks as bv32 * 512, buffer)
      && built.value.op.data == buffer && built.value.op.dataDirection == 1
      && DecodeRead6(built.value.op.command[..6]) == Read6Fields(lun & 7, lba & 0x1F_FFFF, blocks)
  {
    if !p.opOk {
      return SCSI_ERR_TIMEOUT, 0, None;
    }
    var len := Read6Length(blocks);
    var op := ClearedOp().(data := buffer, dataLen := len, dataDirection := 1);
    built := BuildRead6Script(p.scriptOk, p.script, target, lun, lba, blocks, op, p.at);
    if built.None? {
      return SCSI_ERR_TIMEOUT, 0, None;
    }
    PhaseMoveDecodes(PHASE_DATA_IN, len, buffer);
    r, polls := Wait(ScsiDecide, p.chip, READ6_POLLS, SCSI_ERR_TIMEOUT);
    PollAgreesWithReference(ScsiDecide, p.chip, READ6_POLLS, SCSI_ERR_TIMEOUT, r, polls);
    if r == SCSI_OK {
      DecidedByAnIteration(ScsiDecide, p.chip, READ6_POLLS, SCSI_ERR_TIMEOUT, r, polls);
      ScsiOkIff(p.chip(polls - 1));
    }
  }

  // ------------------------------------------------------------ bus scan

  /** A device answered: ready, or present but reporting CHECK CONDITION. */
  predicate Found(r: int)
  {
    r == SCSI_OK || r == SCSI_ERR_CHECK
  }

  /** The IDs below `n` other than the host's, in increasing order. */
  function ScanIds(hostId: int, n: nat): (ids: seq<int>)
    ensures forall x :: x in ids <==> 0 <= x < n && x != hostId
    ensures forall i, j :: 0 <= i < j < |ids| ==> ids[i] < ids[j]
  {
    if n == 0 then []
    else
      var prev := ScanIds(hostId, n - 1);
      assert forall i :: 0 <= i < |prev| ==> prev[i] in prev;
      prev + (if n - 1 == hostId then [] else [n - 1])
  }

  /** Reference definition: the lowest ID below `n`, other than the host's,
   *  at which a device answered, or -1. */
  function FirstFound(hostId: int, bus: seq<Probe>, n: nat): int
    requires n <= |bus|
  {
    if n == 0 then -1
    else
      var f := FirstFound(hostId, bus, n - 1);
      if f != -1 then f
      else if n - 1 != hostId && Found(TurOutcome(bus[n - 1])) then n - 1
      else -1
  }

  /** The reference picks the lowest answering ID, and -1 exactly when none answered. */
  lemma {:induction false} FirstFoundIsLowest(hostId: int, bus: seq<Probe>, n: nat)
    requires n <= |bus|
    ensures var f := FirstFound(hostId, bus, n);
      (f == -1 <==> forall id :: 0 <= id < n && id != hostId ==> !Found(TurOutcome(bus[id])))
      && (f != -1 ==>
            0 <= f < n && f != hostId && Found(TurOutcome(bus[f]))
            && forall id :: 0 <= id < f && id != hostId ==> !Found(TurOutcome(bus[id])))
  {
    if n > 0 {
      FirstFoundIsLowest(hostId, bus, n - 1);
    }
  }

  /** SCSI_ScanBus: `bus[id]` is what the probe of `id` sees. */
  method ScanBus(hostId: int, bus: seq<Probe>) returns (first: int, probed: seq<int>)
    requires 0 <= hostId < 256 && |bus| == 8
    ensures probed == ScanIds(hostId, 8)
    ensures first == FirstFound(hostId, bus, 8)
    ensures first == -1 <==> forall id :: 0 <= id < 8 && id != hostId ==> !Found(TurOutcome(bus[id]))
    ensures first != -1 ==>
      0 <= first < 8 && first != hostId && Found(TurOutcome(bus[first]))
      && forall id :: 0 <= id < first && id != hostId ==> !Found(TurOutcome(bus[id]))
  {
    first := -1;
    probed := [];
    var id := 0;
    while id < 8
      invariant 0 <= id <= 8
      invariant probed == ScanIds(hostId, id)
      invariant first == FirstFound(hostId, bus, id)
    {
      if id != hostId {
        var r, _ := TestUnitReady(bus[id], id as bv8, 0);
        probed := probed + [id];
        if Found(r) && first == -1 {
          first := id;
        }
      }
      id := id + 1;
    }
    FirstFoundIsLowest(hostId, bus, 8);
  }
}
