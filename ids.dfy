/**
 * The identity types a CDP record is built from, and the fixed-width
 * integers of its persisted fields.
 *
 * CRegID (an account's register id) and uint256 (a transaction hash) have
 * their own comparison operators outside this model. Each is represented here
 * by its rank in that operator's total order, so equality and `<` on the rank
 * are equality and `<` on the id. The all-zero uint256 is the least hash in
 * its byte-wise order and has rank 0.
 */
module Ids {

  const UINT64_LIMIT: int := 0x1_0000_0000_0000_0000

  /** uint64_t */
  type Uint64 = x: int | 0 <= x < UINT64_LIMIT

  /** int32_t */
  type Int32 = x: int | -0x8000_0000 <= x < 0x8000_0000

  /** CRegID, by its rank in CRegID's order. */
  datatype RegId = RegId(rank: nat)

  predicate RegIdLess(a: RegId, b: RegId) {
    a.rank < b.rank
  }

  /** uint256, by its rank in uint256's order. */
  datatype TxId = TxId(rank: nat)

  /** uint256(): the all-zero hash. */
  const ZeroTxId: TxId := TxId(0)

  /** uint256::IsEmpty: every byte is zero. */
  predicate TxIdIsEmpty(t: TxId) {
    t == ZeroTxId
  }

  predicate TxIdLess(a: TxId, b: TxId) {
    a.rank < b.rank
  }
}
