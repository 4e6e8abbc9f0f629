/**
 * The part of a ledger block that the plotter reads: its content hash, its
 * sequence number, its producer-supplied timestamp and the hash of its parent.
 */
module Blocks {
  import opened Wrappers

  /** A content hash, as the hexadecimal string the ledger computes. */
  type Hash = string

  /**
   * `hash` stands for the value of `get_computed_hash()`, which the ledger
   * derives from the block's other fields; `predecessorHash` is `None` where
   * the block names no parent.
   */
  datatype Block = Block(hash: Hash, id: int, timestamp: int, predecessorHash: Option<Hash>)

  /** The genesis block is the one whose id is 1. */
  const GenesisId: int := 1
}
