/**
 * SCSI protocol vocabulary shared by both command paths: bus phases, status
 * and message bytes, command opcodes, the driver's result codes and the
 * block-size and read-chunk constants.
 */
module ScsiDefs {

  // Bus phases as the MSG, C/D and I/O lines encode them (section 5.1.10 of
  // SCSI-2, ANSI X3.131-1994).
  const PHASE_DATA_OUT: bv8 := 0
  const PHASE_DATA_IN: bv8 := 1
  const PHASE_COMMAND: bv8 := 2
  const PHASE_STATUS: bv8 := 3
  const PHASE_MSG_OUT: bv8 := 6
  const PHASE_MSG_IN: bv8 := 7

  const Phases: seq<bv8> :=
    [PHASE_DATA_OUT, PHASE_DATA_IN, PHASE_COMMAND, PHASE_STATUS, PHASE_MSG_OUT, PHASE_MSG_IN]

  // Status bytes a target returns.
  const STATUS_GOOD: bv8 := 0x00
  const STATUS_CHECK: bv8 := 0x02
  const STATUS_BUSY: bv8 := 0x08

  // Messages.
  const MSG_COMMAND_COMPLETE: bv8 := 0x00
  const MSG_IDENTIFY: bv8 := 0x80

  // Command opcodes.
  const OP_TEST_UNIT_READY: bv8 := 0x00
  const OP_READ6: bv8 := 0x08
  const OP_INQUIRY: bv8 := 0x12
  const OP_READ10: bv8 := 0x28

  // Results of the command-level operations of the protocol layer.
  const SCSI_OK: int := 0
  const SCSI_ERR_SELECTION: int := -1
  const SCSI_ERR_PHASE: int := -2
  const SCSI_ERR_TIMEOUT: int := -3
  const SCSI_ERR_CHECK: int := -4
  const SCSI_ERR_BUSY: int := -5
  const SCSI_ERR_DISCONNECT: int := -6

  const ResultCodes: seq<int> :=
    [SCSI_OK, SCSI_ERR_SELECTION, SCSI_ERR_PHASE, SCSI_ERR_TIMEOUT,
     SCSI_ERR_CHECK, SCSI_ERR_BUSY, SCSI_ERR_DISCONNECT]

  // Block and transfer sizes of the READ(10) path.
  const BLOCK_SIZE: nat := 512
  const READ_32MB_SIZE: nat := 32 * 1024 * 1024
  const READ_32MB_BLOCKS: nat := READ_32MB_SIZE / BLOCK_SIZE
  const READ_CHUNK_SIZE: nat := 64 * 1024
  const READ_CHUNK_BLOCKS: nat := READ_CHUNK_SIZE / BLOCK_SIZE

  /** A phase value fits the three phase lines, and distinct phases are distinct. */
  lemma PhasesFitThreeLines()
    ensures forall i :: 0 <= i < |Phases| ==> Phases[i] < 8
    ensures forall i, j :: 0 <= i < j < |Phases| ==> Phases[i] != Phases[j]
  {
  }

  /** OK is zero and the six error results are negative and pairwise distinct. */
  lemma ResultCodesDistinct()
    ensures ResultCodes[0] == 0
    ensures forall i :: 1 <= i < |ResultCodes| ==> ResultCodes[i] < 0
    ensures forall i, j :: 0 <= i < j < |ResultCodes| ==> ResultCodes[i] != ResultCodes[j]
  {
  }

  /** The 32 MiB read is exactly 512 chunks of 128 blocks of 512 bytes. */
  lemma ReadGeometry()
    ensures READ_32MB_BLOCKS == 65536
    ensures READ_CHUNK_BLOCKS == 128
    ensures READ_32MB_BLOCKS % READ_CHUNK_BLOCKS == 0
    ensures READ_32MB_BLOCKS / READ_CHUNK_BLOCKS == 512
  {
  }
}
