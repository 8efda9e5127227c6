/**
 * Tamper rejection: what rebuilding a valid state path gives once one of its
 * fields has been replaced.
 *
 * A leaf and the previous block hash reach the checks only through a bit
 * encoding or a hash, so such a change is caught unless the new value forges a
 * Merkle leaf or a hash collision. Each lemma states exactly that alternative
 * rather than assuming it away. A change to a value that serves as a Merkle
 * root (a leaf's id, the transaction id, the header root, the state root) is
 * caught outright, under `RootDetermined` (see `Primitives`); so is a changed
 * block hash, which no longer equals its own digest. In
 * every case the error names the lowest check that reads the changed field.
 */
module Tampering {
  import opened Primitives
  import opened StatePaths

  /**
   * Another transition leaf fails check 1, unless its bits verify against the
   * transition path and the transaction leaf's id, in which case it is accepted
   * (nothing above check 1 reads it).
   */
  lemma TamperTransitionLeaf(net: Network, x: StatePath, v: TransitionLeaf)
    requires Valid(net, x)
    ensures FromFields(net, x.(transitionLeaf := v)) ==
              if net.verifyMerklePath(x.transitionPath, x.transactionLeaf.id, net.transitionLeafBits(v))
              then Ok(x.(transitionLeaf := v))
              else Err(CheckFailed(TransitionPathCheck))
  {
  }

  /**
   * Another transaction leaf fails check 1 when its id (the root of the
   * transition path) changes. With the same id it fails check 2, unless its
   * bits verify against the transaction path and the transaction id.
   */
  lemma TamperTransactionLeaf(net: Network, x: StatePath, v: TransactionLeaf)
    requires Valid(net, x)
    requires RootDetermined(net)
    ensures v.id != x.transactionLeaf.id ==>
              FromFields(net, x.(transactionLeaf := v)) == Err(CheckFailed(TransitionPathCheck))
    ensures v.id == x.transactionLeaf.id ==>
              FromFields(net, x.(transactionLeaf := v)) ==
                if net.verifyMerklePath(x.transactionPath, x.transactionId.field, net.transactionLeafBits(v))
                then Ok(x.(transactionLeaf := v))
                else Err(CheckFailed(TransactionPathCheck))
  {
  }

  /** Another transaction id is no longer the root of the transaction path (check 2). */
  lemma TamperTransactionId(net: Network, x: StatePath, v: TransactionId)
    requires Valid(net, x)
    requires RootDetermined(net)
    requires v != x.transactionId
    ensures FromFields(net, x.(transactionId := v)) == Err(CheckFailed(TransactionPathCheck))
  {
  }

  /**
   * Another header leaf fails check 3 when its id (the root of the
   * transactions path) changes. With the same id it fails check 4, unless its
   * bits verify against the header path and the header root.
   */
  lemma TamperHeaderLeaf(net: Network, x: StatePath, v: HeaderLeaf)
    requires Valid(net, x)
    requires RootDetermined(net)
    ensures v.id != x.headerLeaf.id ==>
              FromFields(net, x.(headerLeaf := v)) == Err(CheckFailed(TransactionsPathCheck))
    ensures v.id == x.headerLeaf.id ==>
              FromFields(net, x.(headerLeaf := v)) ==
                if net.verifyMerklePath(x.headerPath, x.headerRoot, net.headerLeafBits(v))
                then Ok(x.(headerLeaf := v))
                else Err(CheckFailed(HeaderPathCheck))
  {
  }

  /** Another header root is no longer the root of the header path (check 4). */
  lemma TamperHeaderRoot(net: Network, x: StatePath, v: Field)
    requires Valid(net, x)
    requires RootDetermined(net)
    requires v != x.headerRoot
    ensures FromFields(net, x.(headerRoot := v)) == Err(CheckFailed(HeaderPathCheck))
  {
  }

  /**
   * Another previous block hash changes the preimage. Rebuilding then fails
   * with the hash's own error, or at check 5 when the new digest differs from
   * the block hash; it is accepted only when the new digest equals the block
   * hash, and then the two distinct preimages are a collision of the hash.
   * It is never reported at check 6.
   */
  lemma TamperPreviousBlockHash(net: Network, x: StatePath, v: BlockHash)
    requires Valid(net, x)
    requires CanonicalFieldBits(net)
    requires v != x.previousBlockHash
    ensures FromFields(net, x.(previousBlockHash := v)) ==
              match net.hashBhp1024(BlockHashPreimage(net, v, x.headerRoot))
              case Err(e) => Err(HashFailed(e))
              case Ok(digest) =>
                if digest == x.blockHash.field then Ok(x.(previousBlockHash := v)) else Err(CheckFailed(BlockHashCheck))
    ensures FromFields(net, x.(previousBlockHash := v)).Ok? ==>
              && BlockHashPreimage(net, v, x.headerRoot) != BlockHashPreimage(net, x.previousBlockHash, x.headerRoot)
              && net.hashBhp1024(BlockHashPreimage(net, v, x.headerRoot))
                 == net.hashBhp1024(BlockHashPreimage(net, x.previousBlockHash, x.headerRoot))
  {
  }

  /** Another block hash no longer equals the digest of the unchanged preimage (check 5). */
  lemma TamperBlockHash(net: Network, x: StatePath, v: BlockHash)
    requires Valid(net, x)
    requires v != x.blockHash
    ensures FromFields(net, x.(blockHash := v)) == Err(CheckFailed(BlockHashCheck))
  {
  }

  /** Another state root is no longer the root of the block path (check 6). */
  lemma TamperStateRoot(net: Network, x: StatePath, v: StateRoot)
    requires Valid(net, x)
    requires RootDetermined(net)
    requires v != x.stateRoot
    ensures FromFields(net, x.(stateRoot := v)) == Err(CheckFailed(BlockPathCheck))
  {
  }
}
