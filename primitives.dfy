/**
 * The values a state path is made of, and the cryptographic primitives of the
 * network parameterisation it is checked with.
 *
 * Field arithmetic, the BHP hash, Merkle-path verification and the
 * little-endian bit decomposition of fields and leaves belong to the network
 * and to the leaf modules; here they are oracles, function-valued fields of a
 * `Network` record, about which nothing is known unless a lemma asks for it
 * through one of the predicates at the end of this module.
 */
module Primitives {

  /** An element of the network's prime field; its arithmetic is not modelled. */
  type Field(==, !new)

  newtype U8 = x: int | 0 <= x < 0x100
  newtype U16 = x: int | 0 <= x < 0x1_0000
  newtype U64 = x: int | 0 <= x < 0x1_0000_0000_0000_0000

  datatype Option<+T> = None | Some(value: T)

  datatype Result<+T, +E> = Ok(value: T) | Err(error: E)

  /** `N::StateRoot`: the root of the block tree, a wrapped field element. */
  datatype StateRoot = StateRoot(field: Field)

  /** `N::BlockHash`: a wrapped field element. */
  datatype BlockHash = BlockHash(field: Field)

  /** `N::TransactionID`: the root of a transaction tree, a wrapped field element. */
  datatype TransactionId = TransactionId(field: Field)

  /** A leaf of a transition tree: one input or output of a transition. */
  datatype TransitionLeaf = TransitionLeaf(version: U8, index: U8, variant: U8, id: Field)

  /** A leaf of a transaction tree: one transition; `id` is that transition's root. */
  datatype TransactionLeaf = TransactionLeaf(variant: U8, index: U16, id: Field)

  /** A leaf of a block-header tree: one header field, such as the transactions root. */
  datatype HeaderLeaf = HeaderLeaf(index: U8, id: Field)

  /** A Merkle path: the siblings from the root down to the leaf, and the leaf's index. */
  datatype MerklePath = MerklePath(siblings: seq<Field>, leafIndex: U64)

  /** The five path kinds differ only in their tree depth, a network constant. */
  type BlockPath = MerklePath
  type HeaderPath = MerklePath
  type TransactionsPath = MerklePath
  type TransactionPath = MerklePath
  type TransitionPath = MerklePath

  /** The error `hash_bhp1024` may return instead of a digest. */
  datatype HashError = HashError(reason: string)

  /**
   * The capabilities a network provides: `verify_merkle_path_bhp`,
   * `hash_bhp1024`, the `to_bits_le` of a field element (with the bit length
   * it is meant to have) and the `to_bits_le` of each leaf kind.
   */
  datatype Network = Network(
    verifyMerklePath: (MerklePath, Field, seq<bool>) -> bool,
    hashBhp1024: seq<bool> -> Result<Field, HashError>,
    fieldBits: Field -> seq<bool>,
    fieldBitWidth: nat,
    transitionLeafBits: TransitionLeaf -> seq<bool>,
    transactionLeafBits: TransactionLeaf -> seq<bool>,
    headerLeafBits: HeaderLeaf -> seq<bool>)

  /**
   * The bits hashed into a block hash: the bits of the previous block hash,
   * then the bits of the header root, in that order.
   */
  function BlockHashPreimage(net: Network, previousBlockHash: BlockHash, headerRoot: Field): (bits: seq<bool>)
    ensures |bits| == |net.fieldBits(previousBlockHash.field)| + |net.fieldBits(headerRoot)|
    ensures bits[..|net.fieldBits(previousBlockHash.field)|] == net.fieldBits(previousBlockHash.field)
    ensures bits[|net.fieldBits(previousBlockHash.field)|..] == net.fieldBits(headerRoot)
  {
    net.fieldBits(previousBlockHash.field) + net.fieldBits(headerRoot)
  }

  // Properties a real network's primitives have, assumed only by the lemmas that name them.

  /** Every field element has a bit decomposition of the same length, and distinct elements have distinct ones. */
  ghost predicate CanonicalFieldBits(net: Network) {
    && (forall f :: |net.fieldBits(f)| == net.fieldBitWidth)
    && (forall f, g :: net.fieldBits(f) == net.fieldBits(g) ==> f == g)
  }

  /** A path and a leaf fix the root they verify against (verification recomputes the root). */
  ghost predicate RootDetermined(net: Network) {
    forall path, r1, r2, leaf ::
      net.verifyMerklePath(path, r1, leaf) && net.verifyMerklePath(path, r2, leaf) ==> r1 == r2
  }

  /** With canonical field bits the preimage is exactly two field widths long. */
  lemma PreimageLength(net: Network, previousBlockHash: BlockHash, headerRoot: Field)
    requires CanonicalFieldBits(net)
    ensures |BlockHashPreimage(net, previousBlockHash, headerRoot)| == 2 * net.fieldBitWidth
  {
  }

  /** With canonical field bits the preimage determines both the previous block hash and the header root. */
  lemma PreimageInjective(net: Network, prev1: BlockHash, root1: Field, prev2: BlockHash, root2: Field)
    requires CanonicalFieldBits(net)
    ensures BlockHashPreimage(net, prev1, root1) == BlockHashPreimage(net, prev2, root2) <==> prev1 == prev2 && root1 == root2
  {
  }

  /** Exchanging the previous block hash and the header root yields a different preimage. */
  lemma SwappedPreimageDiffers(net: Network, a: Field, b: Field)
    requires CanonicalFieldBits(net)
    requires a != b
    ensures BlockHashPreimage(net, BlockHash(a), b) != BlockHashPreimage(net, BlockHash(b), a)
  {
  }
}
