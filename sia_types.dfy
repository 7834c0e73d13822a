/** The ledger data the explorer reads from the Sia daemon: hashes, coin
    outputs, file contracts and their revisions, transactions and blocks,
    plus the error and result shapes shared by every module. Only the fields
    the explorer's core looks at are kept; the rest of a Sia transaction or
    block only feeds the ID derivations, which this model leaves abstract. */
module SiaTypes {

  newtype byte = x: int | 0 <= x < 256

  const HashSize: nat := 32

  /** The all-zero hash, `crypto.Hash{}` in Go. */
  const ZeroHash: seq<byte> := seq(HashSize, _ => 0 as byte)

  /** A 32-byte hash (`crypto.Hash`, `types.SiacoinOutputID`, `types.FileContractID`). */
  type Hash = h: seq<byte> | |h| == HashSize witness ZeroHash

  /** A coin output: a value in hastings (an unbounded currency) and the
      address that may spend it. */
  datatype SiacoinOutput = SiacoinOutput(value: nat, unlockHash: Hash)

  /** The zero value of `types.SiacoinOutput`. */
  const ZeroOutput: SiacoinOutput := SiacoinOutput(0, ZeroHash)

  datatype FileContract = FileContract(
    fileSize: nat,
    windowStart: nat,
    windowEnd: nat,
    payout: nat,
    validProofOutputs: seq<SiacoinOutput>,
    missedProofOutputs: seq<SiacoinOutput>)

  /** A revision names the contract it revises by `parentID`. */
  datatype FileContractRevision = FileContractRevision(
    parentID: Hash,
    newRevisionNumber: nat,
    newValidProofOutputs: seq<SiacoinOutput>,
    newMissedProofOutputs: seq<SiacoinOutput>)

  datatype Transaction = Transaction(
    siacoinOutputs: seq<SiacoinOutput>,
    fileContracts: seq<FileContract>,
    fileContractRevisions: seq<FileContractRevision>)

  datatype Block = Block(
    parentID: Hash,
    timestamp: nat,
    minerPayouts: seq<SiacoinOutput>,
    transactions: seq<Transaction>)

  /** `types.BlockHeight`, an unsigned 64-bit integer. */
  const HeightLimit: nat := 0x1_0000_0000_0000_0000
  type BlockHeight = h: nat | h < HeightLimit

  /** `h + 1` in uint64 arithmetic: the largest height wraps to 0. */
  function NextHeight(h: BlockHeight): (n: BlockHeight)
    ensures h + 1 < HeightLimit ==> n == h + 1
    ensures h + 1 == HeightLimit ==> n == 0
  {
    (h + 1) % HeightLimit
  }

  /** Per-height metadata returned by the daemon's block-data range query
      (`modules.ExplorerBlockData`). */
  datatype BlockSummary = BlockSummary(id: Hash, target: Hash, size: nat)

  /** A Go `error`, kept as its message. */
  datatype Error = Error(message: string)

  datatype Option<T> = None | Some(value: T)

  datatype Result<T> = Ok(value: T) | Err(error: Error)
}
