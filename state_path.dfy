/**
 * `StatePath`: a certificate that a transition leaf belongs to the chain
 * whose block tree has a given state root. Five Merkle paths and one block-hash
 * identity link, bottom up, the transition leaf to its transition (transaction
 * leaf), to its transaction, to the transactions root held in a header leaf, to
 * the header root, to the block hash and finally to the state root.
 *
 * The record is a value: it is built once by `From`, which runs the six checks
 * in a fixed order, and never changed afterwards. Its 13 accessors are the
 * datatype's destructors.
 */
module StatePaths {
  import opened Primitives

  datatype StatePath = StatePath(
    stateRoot: StateRoot,
    blockPath: BlockPath,
    blockHash: BlockHash,
    previousBlockHash: BlockHash,
    headerRoot: Field,
    headerPath: HeaderPath,
    headerLeaf: HeaderLeaf,
    transactionsPath: TransactionsPath,
    transactionId: TransactionId,
    transactionPath: TransactionPath,
    transactionLeaf: TransactionLeaf,
    transitionPath: TransitionPath,
    transitionLeaf: TransitionLeaf)

  /** The six checks of the constructor. */
  datatype Check =
    | TransitionPathCheck
    | TransactionPathCheck
    | TransactionsPathCheck
    | HeaderPathCheck
    | BlockHashCheck
    | BlockPathCheck

  /** Why `From` refused: which check failed, or the error the block-hash computation raised. */
  datatype StatePathError = CheckFailed(check: Check) | HashFailed(cause: HashError)

  /** The order in which the constructor runs its checks: from the transition leaf up to the state root. */
  const CheckOrder: seq<Check> :=
    [TransitionPathCheck, TransactionPathCheck, TransactionsPathCheck, HeaderPathCheck, BlockHashCheck, BlockPathCheck]

  /** Where check k stands in CheckOrder. */
  function Position(k: Check): (i: nat)
    ensures i < |CheckOrder| && CheckOrder[i] == k
  {
    match k
    case TransitionPathCheck => 0
    case TransactionPathCheck => 1
    case TransactionsPathCheck => 2
    case HeaderPathCheck => 3
    case BlockHashCheck => 4
    case BlockPathCheck => 5
  }

  /**
   * `StatePath::from`: runs the six checks on its arguments in order and
   * returns the error of the first that fails; the block-hash check may also
   * fail with the hash's own error. If all pass, the arguments become the
   * record unchanged.
   */
  function From(
    net: Network,
    stateRoot: StateRoot,
    blockPath: BlockPath,
    blockHash: BlockHash,
    previousBlockHash: BlockHash,
    headerRoot: Field,
    headerPath: HeaderPath,
    headerLeaf: HeaderLeaf,
    transactionsPath: TransactionsPath,
    transactionId: TransactionId,
    transactionPath: TransactionPath,
    transactionLeaf: TransactionLeaf,
    transitionPath: TransitionPath,
    transitionLeaf: TransitionLeaf
  ): (r: Result<StatePath, StatePathError>)
    // Every accessor of the result returns the argument given for its field.
    ensures r.Ok? ==> r.value == StatePath(stateRoot, blockPath, blockHash, previousBlockHash, headerRoot, headerPath,
                                           headerLeaf, transactionsPath, transactionId, transactionPath, transactionLeaf,
                                           transitionPath, transitionLeaf)
    // The six relations a state path stands for hold of any result.
    ensures r.Ok? ==> net.verifyMerklePath(transitionPath, transactionLeaf.id, net.transitionLeafBits(transitionLeaf))
    ensures r.Ok? ==> net.verifyMerklePath(transactionPath, transactionId.field, net.transactionLeafBits(transactionLeaf))
    ensures r.Ok? ==> net.verifyMerklePath(transactionsPath, headerLeaf.id, net.fieldBits(transactionId.field))
    ensures r.Ok? ==> net.verifyMerklePath(headerPath, headerRoot, net.headerLeafBits(headerLeaf))
    ensures r.Ok? ==> net.hashBhp1024(net.fieldBits(previousBlockHash.field) + net.fieldBits(headerRoot)) == Ok(blockHash.field)
    ensures r.Ok? ==> net.verifyMerklePath(blockPath, stateRoot.field, net.fieldBits(blockHash.field))
    // A hash error surfaces unchanged, and only once the four path checks below the block hash have passed.
    ensures r.Err? && r.error.HashFailed? ==>
              && net.verifyMerklePath(transitionPath, transactionLeaf.id, net.transitionLeafBits(transitionLeaf))
              && net.verifyMerklePath(transactionPath, transactionId.field, net.transactionLeafBits(transactionLeaf))
              && net.verifyMerklePath(transactionsPath, headerLeaf.id, net.fieldBits(transactionId.field))
              && net.verifyMerklePath(headerPath, headerRoot, net.headerLeafBits(headerLeaf))
              && net.hashBhp1024(net.fieldBits(previousBlockHash.field) + net.fieldBits(headerRoot)) == Err(r.error.cause)
  {
    if !net.verifyMerklePath(transitionPath, transactionLeaf.id, net.transitionLeafBits(transitionLeaf)) then
      Err(CheckFailed(TransitionPathCheck))
    else if !net.verifyMerklePath(transactionPath, transactionId.field, net.transactionLeafBits(transactionLeaf)) then
      Err(CheckFailed(TransactionPathCheck))
    else if !net.verifyMerklePath(transactionsPath, headerLeaf.id, net.fieldBits(transactionId.field)) then
      Err(CheckFailed(TransactionsPathCheck))
    else if !net.verifyMerklePath(headerPath, headerRoot, net.headerLeafBits(headerLeaf)) then
      Err(CheckFailed(HeaderPathCheck))
    else
      match net.hashBhp1024(BlockHashPreimage(net, previousBlockHash, headerRoot))
      case Err(e) => Err(HashFailed(e))
      case Ok(digest) =>
        if blockHash.field != digest then
          Err(CheckFailed(BlockHashCheck))
        else if !net.verifyMerklePath(blockPath, stateRoot.field, net.fieldBits(blockHash.field)) then
          Err(CheckFailed(BlockPathCheck))
        else
          Ok(StatePath(stateRoot, blockPath, blockHash, previousBlockHash, headerRoot, headerPath, headerLeaf,
                       transactionsPath, transactionId, transactionPath, transactionLeaf, transitionPath,
                       transitionLeaf))
  }

  /** `From` applied to the 13 fields held in p, in declaration order. */
  function FromFields(net: Network, p: StatePath): Result<StatePath, StatePathError> {
    From(net, p.stateRoot, p.blockPath, p.blockHash, p.previousBlockHash, p.headerRoot, p.headerPath, p.headerLeaf,
         p.transactionsPath, p.transactionId, p.transactionPath, p.transactionLeaf, p.transitionPath,
         p.transitionLeaf)
  }

  /** The outcome of one check on the fields of p. */
  datatype Verdict = Holds | Fails | HashFails(cause: HashError)

  /** What check k, taken on its own, says of the fields of p. */
  function Evaluate(net: Network, p: StatePath, k: Check): Verdict {
    match k
    case TransitionPathCheck =>
      if net.verifyMerklePath(p.transitionPath, p.transactionLeaf.id, net.transitionLeafBits(p.transitionLeaf)) then Holds else Fails
    case TransactionPathCheck =>
      if net.verifyMerklePath(p.transactionPath, p.transactionId.field, net.transactionLeafBits(p.transactionLeaf)) then Holds else Fails
    case TransactionsPathCheck =>
      if net.verifyMerklePath(p.transactionsPath, p.headerLeaf.id, net.fieldBits(p.transactionId.field)) then Holds else Fails
    case HeaderPathCheck =>
      if net.verifyMerklePath(p.headerPath, p.headerRoot, net.headerLeafBits(p.headerLeaf)) then Holds else Fails
    case BlockHashCheck =>
      (match net.hashBhp1024(BlockHashPreimage(net, p.previousBlockHash, p.headerRoot))
       case Err(e) => HashFails(e)
       case Ok(digest) => if p.blockHash.field == digest then Holds else Fails)
    case BlockPathCheck =>
      if net.verifyMerklePath(p.blockPath, p.stateRoot.field, net.fieldBits(p.blockHash.field)) then Holds else Fails
  }

  /**
   * The class invariant: every one of the six checks holds, that is, the six
   * relations a state path stands for hold of its fields.
   */
  predicate Valid(net: Network, p: StatePath): (b: bool)
    ensures b <==>
              && net.verifyMerklePath(p.transitionPath, p.transactionLeaf.id, net.transitionLeafBits(p.transitionLeaf))
              && net.verifyMerklePath(p.transactionPath, p.transactionId.field, net.transactionLeafBits(p.transactionLeaf))
              && net.verifyMerklePath(p.transactionsPath, p.headerLeaf.id, net.fieldBits(p.transactionId.field))
              && net.verifyMerklePath(p.headerPath, p.headerRoot, net.headerLeafBits(p.headerLeaf))
              && net.hashBhp1024(net.fieldBits(p.previousBlockHash.field) + net.fieldBits(p.headerRoot)) == Ok(p.blockHash.field)
              && net.verifyMerklePath(p.blockPath, p.stateRoot.field, net.fieldBits(p.blockHash.field))
  {
    && Evaluate(net, p, TransitionPathCheck) == Holds
    && Evaluate(net, p, TransactionPathCheck) == Holds
    && Evaluate(net, p, TransactionsPathCheck) == Holds
    && Evaluate(net, p, HeaderPathCheck) == Holds
    && Evaluate(net, p, BlockHashCheck) == Holds
    && Evaluate(net, p, BlockPathCheck) == Holds
  }

  /** The error a verdict of check k reports, if any. */
  function VerdictError(k: Check, v: Verdict): Option<StatePathError> {
    match v
    case Holds => None
    case Fails => Some(CheckFailed(k))
    case HashFails(e) => Some(HashFailed(e))
  }

  /** The error of the first check in ks that does not hold of p, if any. */
  function FirstFailureAmong(net: Network, p: StatePath, ks: seq<Check>): Option<StatePathError> {
    if ks == [] then None
    else if Evaluate(net, p, ks[0]) != Holds then VerdictError(ks[0], Evaluate(net, p, ks[0]))
    else FirstFailureAmong(net, p, ks[1..])
  }

  /** The error of the first check, in the constructor's order, that does not hold of p. */
  function FirstFailure(net: Network, p: StatePath): Option<StatePathError> {
    FirstFailureAmong(net, p, CheckOrder)
  }

  /** No check in ks fails exactly when FirstFailureAmong finds nothing. */
  lemma {:induction false} FirstFailureAmongNone(net: Network, p: StatePath, ks: seq<Check>)
    ensures FirstFailureAmong(net, p, ks) == None <==> forall j :: 0 <= j < |ks| ==> Evaluate(net, p, ks[j]) == Holds
  {
    if ks != [] {
      FirstFailureAmongNone(net, p, ks[1..]);
      assert forall j :: 1 <= j < |ks| ==> ks[j] == ks[1..][j - 1];
    }
  }

  /** If every check before position i holds and the one at i does not, its error is the one reported. */
  lemma {:induction false} FirstFailureAmongAt(net: Network, p: StatePath, ks: seq<Check>, i: nat)
    requires i < |ks|
    requires forall j :: 0 <= j < i ==> Evaluate(net, p, ks[j]) == Holds
    requires Evaluate(net, p, ks[i]) != Holds
    ensures FirstFailureAmong(net, p, ks) == VerdictError(ks[i], Evaluate(net, p, ks[i]))
  {
    if i > 0 {
      assert Evaluate(net, p, ks[0]) == Holds;
      assert forall j :: 0 <= j < i - 1 ==> ks[1..][j] == ks[j + 1];
      FirstFailureAmongAt(net, p, ks[1..], i - 1);
    }
  }

  /** Valid is equivalent to no check failing in the constructor's order. */
  lemma ValidIffNoFailure(net: Network, p: StatePath)
    ensures Valid(net, p) <==> FirstFailure(net, p) == None
  {
    FirstFailureAmongNone(net, p, CheckOrder);
    if forall j :: 0 <= j < |CheckOrder| ==> Evaluate(net, p, CheckOrder[j]) == Holds {
      forall k ensures Evaluate(net, p, k) == Holds {
        assert CheckOrder[Position(k)] == k;
      }
    }
  }

  /** The constructor's result is exactly what running the six checks in order predicts. */
  lemma FromIsFirstFailure(net: Network, p: StatePath)
    ensures FromFields(net, p) == match FirstFailure(net, p) case None => Ok(p) case Some(e) => Err(e)
  {
    var o := CheckOrder;
    if Evaluate(net, p, TransitionPathCheck) != Holds {
      FirstFailureAmongAt(net, p, o, 0);
    } else if Evaluate(net, p, TransactionPathCheck) != Holds {
      FirstFailureAmongAt(net, p, o, 1);
    } else if Evaluate(net, p, TransactionsPathCheck) != Holds {
      FirstFailureAmongAt(net, p, o, 2);
    } else if Evaluate(net, p, HeaderPathCheck) != Holds {
      FirstFailureAmongAt(net, p, o, 3);
    } else if Evaluate(net, p, BlockHashCheck) != Holds {
      FirstFailureAmongAt(net, p, o, 4);
    } else if Evaluate(net, p, BlockPathCheck) != Holds {
      FirstFailureAmongAt(net, p, o, 5);
    } else {
      FirstFailureAmongNone(net, p, o);
    }
  }

  /** `From` succeeds exactly on the fields of a valid state path. */
  lemma FromOkIffValid(net: Network, p: StatePath)
    ensures FromFields(net, p).Ok? <==> Valid(net, p)
    ensures FromFields(net, p).Ok? ==> FromFields(net, p).value == p
  {
  }

  /**
   * The first failing check determines the error: `From` reports check k
   * exactly when k fails and every check before it in the order holds, so a
   * failure is reported even when later checks fail too, and a later check is
   * reached only when all earlier ones passed.
   */
  lemma ReportedCheckIsFirstFailing(net: Network, p: StatePath, k: Check)
    ensures FromFields(net, p) == Err(CheckFailed(k)) <==>
              && Evaluate(net, p, k) == Fails
              && forall j :: 0 <= j < Position(k) ==> Evaluate(net, p, CheckOrder[j]) == Holds
  {
    FromIsFirstFailure(net, p);
    if Evaluate(net, p, k) == Fails && forall j :: 0 <= j < Position(k) ==> Evaluate(net, p, CheckOrder[j]) == Holds {
      FirstFailureAmongAt(net, p, CheckOrder, Position(k));
    }
    if FromFields(net, p) == Err(CheckFailed(k)) {
      ReportedErrorIsFirstFailing(net, p, CheckOrder, CheckFailed(k));
    }
  }

  /** A hash error is reported exactly when the four path checks below the block hash hold and the hash fails with it. */
  lemma ReportedHashErrorIsFirstFailing(net: Network, p: StatePath, e: HashError)
    ensures FromFields(net, p) == Err(HashFailed(e)) <==>
              && Evaluate(net, p, BlockHashCheck) == HashFails(e)
              && forall j :: 0 <= j < Position(BlockHashCheck) ==> Evaluate(net, p, CheckOrder[j]) == Holds
  {
    FromIsFirstFailure(net, p);
    if Evaluate(net, p, BlockHashCheck) == HashFails(e) && forall j :: 0 <= j < Position(BlockHashCheck) ==> Evaluate(net, p, CheckOrder[j]) == Holds {
      FirstFailureAmongAt(net, p, CheckOrder, Position(BlockHashCheck));
    }
    if FromFields(net, p) == Err(HashFailed(e)) {
      ReportedErrorIsFirstFailing(net, p, CheckOrder, HashFailed(e));
    }
  }

  /** Whatever FirstFailureAmong reports comes from a failing check preceded only by holding ones. */
  lemma {:induction false} ReportedErrorIsFirstFailing(net: Network, p: StatePath, ks: seq<Check>, e: StatePathError)
    requires FirstFailureAmong(net, p, ks) == Some(e)
    ensures exists i :: 0 <= i < |ks| && VerdictError(ks[i], Evaluate(net, p, ks[i])) == Some(e)
                        && forall j :: 0 <= j < i ==> Evaluate(net, p, ks[j]) == Holds
  {
    if Evaluate(net, p, ks[0]) != Holds {
      assert VerdictError(ks[0], Evaluate(net, p, ks[0])) == Some(e);
    } else {
      ReportedErrorIsFirstFailing(net, p, ks[1..], e);
      var i :| 0 <= i < |ks[1..]| && VerdictError(ks[1..][i], Evaluate(net, p, ks[1..][i])) == Some(e)
               && forall j :: 0 <= j < i ==> Evaluate(net, p, ks[1..][j]) == Holds;
      assert forall j :: 0 <= j < i + 1 ==> j == 0 || ks[j] == ks[1..][j - 1];
    }
  }

  /** The block path is checked only after the block hash matched its preimage. */
  lemma BlockPathCheckedOnlyAfterBlockHash(net: Network, p: StatePath)
    requires FromFields(net, p) == Err(CheckFailed(BlockPathCheck))
    ensures net.hashBhp1024(BlockHashPreimage(net, p.previousBlockHash, p.headerRoot)) == Ok(p.blockHash.field)
    ensures forall j :: 0 <= j < Position(BlockPathCheck) ==> Evaluate(net, p, CheckOrder[j]) == Holds
  {
  }

  /** On success each of the 13 accessors returns exactly the argument passed for its field. */
  lemma AccessorsReturnArguments(
    net: Network,
    stateRoot: StateRoot,
    blockPath: BlockPath,
    blockHash: BlockHash,
    previousBlockHash: BlockHash,
    headerRoot: Field,
    headerPath: HeaderPath,
    headerLeaf: HeaderLeaf,
    transactionsPath: TransactionsPath,
    transactionId: TransactionId,
    transactionPath: TransactionPath,
    transactionLeaf: TransactionLeaf,
    transitionPath: TransitionPath,
    transitionLeaf: TransitionLeaf,
    x: StatePath)
    requires From(net, stateRoot, blockPath, blockHash, previousBlockHash, headerRoot, headerPath, headerLeaf,
                  transactionsPath, transactionId, transactionPath, transactionLeaf, transitionPath,
                  transitionLeaf) == Ok(x)
    ensures x.stateRoot == stateRoot && x.blockPath == blockPath && x.blockHash == blockHash
    ensures x.previousBlockHash == previousBlockHash && x.headerRoot == headerRoot
    ensures x.headerPath == headerPath && x.headerLeaf == headerLeaf
    ensures x.transactionsPath == transactionsPath && x.transactionId == transactionId
    ensures x.transactionPath == transactionPath && x.transactionLeaf == transactionLeaf
    ensures x.transitionPath == transitionPath && x.transitionLeaf == transitionLeaf
    ensures Valid(net, x)
  {
  }

  /** Rebuilding a valid state path from its own accessors succeeds and gives back an equal value. */
  lemma RebuildFromAccessors(net: Network, x: StatePath)
    requires Valid(net, x)
    ensures From(net, x.stateRoot, x.blockPath, x.blockHash, x.previousBlockHash, x.headerRoot, x.headerPath,
                 x.headerLeaf, x.transactionsPath, x.transactionId, x.transactionPath, x.transactionLeaf,
                 x.transitionPath, x.transitionLeaf) == Ok(x)
  {
  }
}
