# StatePath: a verified model of snarkVM's state-path constructor

A `StatePath` is a certificate that a transition leaf (one input or output of
a program execution) belongs to the chain whose block tree has a given state
root. It holds 13 fields: the state root, five Merkle paths (block, header,
transactions, transaction, transition), three leaves (header, transaction,
transition), the block hash, the previous block hash, the header root and the
transaction id. Its only constructor, `StatePath::from`, checks six relations
in a fixed order, from the transition leaf upwards:

1. the transition path leads from the transition leaf's bits to the transaction leaf's id;
2. the transaction path leads from the transaction leaf's bits to the transaction id;
3. the transactions path leads from the transaction id's bits to the header leaf's id;
4. the header path leads from the header leaf's bits to the header root;
5. the block hash is `hash_bhp1024` of the previous block hash's bits followed by the header root's bits;
6. the block path leads from the block hash's bits to the state root.

It returns the error of the first check that fails (or the hash's own error at
check 5). Otherwise it moves the 13 arguments, unchanged, into the record. The
13 accessors return those fields.

The project has three modules:

- `Primitives` (`primitives.dfy`) holds the field, wrapper, leaf and path types.
  It also holds the `Network` record, whose function-valued fields are the
  network's oracles: `verify_merkle_path_bhp`, `hash_bhp1024`, and the
  `to_bits_le` of a field element and of each leaf kind. Last come the block-hash
  preimage, its lemmas, and the two properties of real primitives that some
  lemmas assume (`CanonicalFieldBits`, `RootDetermined`).
- `StatePaths` (`state_path.dfy`) holds the record and the constructor `From`.
  It also holds an independent description of the checks: `Evaluate` judges one
  check, `CheckOrder` gives their order, and `FirstFailure` finds the first that
  fails. The class invariant `Valid` says that all six checks hold. The lemmas
  tie `From` to these definitions.
- `Tampering` (`tampering.dfy`) states exactly what rebuilding a valid state
  path gives after one field is replaced. A changed root, id or block hash
  fails outright. A changed leaf or previous block hash fails unless the new value
  forges a Merkle leaf or a hash collision, and the lemma names that case
  instead of assuming it away. The error names the lowest check that reads the
  changed field.

The accessors are the destructors of the `StatePath` datatype (`stateRoot`
for `state_root()`, and so on). A `StatePath` value built directly with the
datatype constructor plays the part of the 13 arguments of `from`. Only values
that satisfy `Valid` correspond to objects the Rust code can hold.

## Model

| member | source | states |
|---|---|---|
| `Primitives.BlockHashPreimage` | console/program/src/state_path/mod.rs:108 | The preimage has the length of both bit strings together. The previous block hash's bits come first and the header root's bits come after them. |
| `Primitives.PreimageLength` | console/program/src/state_path/mod.rs:108 | With canonical field bits, the preimage is exactly two field widths long. |
| `Primitives.PreimageInjective` | console/program/src/state_path/mod.rs:108-110 | With canonical field bits, two preimages are equal if and only if their previous block hashes are equal and their header roots are equal. |
| `Primitives.SwappedPreimageDiffers` | console/program/src/state_path/mod.rs:108 | Exchanging two distinct values between the previous-block-hash and header-root positions gives a different preimage. |
| `StatePaths.Position` | console/program/src/state_path/mod.rs:84-117 | Each check has a place in the fixed order of the constructor. |
| `StatePaths.From` | console/program/src/state_path/mod.rs:69-134 | On success, the record is exactly the 13 arguments and all six relations hold of them. A hash error is returned unchanged, and only after all four path checks below check 5 (transition, transaction, transactions, header) have passed. |
| `StatePaths.Valid` | console/program/src/state_path/mod.rs:84-117 | The class invariant: all six checks hold, which is exactly the six relations of the guards (four Merkle paths, the block-hash identity over previous-block-hash bits then header-root bits, and the block path). |
| `StatePaths.FirstFailureAmongNone` | console/program/src/state_path/mod.rs:84-117 | No error is found among a list of checks if and only if every check in the list holds. |
| `StatePaths.FirstFailureAmongAt` | console/program/src/state_path/mod.rs:84-117 | If every check before position i holds and the check at i does not, the error of the check at i is the one found. |
| `StatePaths.ReportedErrorIsFirstFailing` | console/program/src/state_path/mod.rs:84-117 | Any error found comes from a failing check that is preceded only by checks that hold. |
| `StatePaths.ValidIffNoFailure` | console/program/src/state_path/mod.rs:84-117 | The invariant holds if and only if no check fails in the constructor's order. |
| `StatePaths.FromIsFirstFailure` | console/program/src/state_path/mod.rs:84-133 | The constructor returns `Ok` of its arguments when no check fails. Otherwise it returns the error of the first check, in order, that fails. |
| `StatePaths.FromOkIffValid` | console/program/src/state_path/mod.rs:69-134 | The constructor succeeds if and only if its arguments satisfy the invariant. On success it returns them unchanged. |
| `StatePaths.ReportedCheckIsFirstFailing` | console/program/src/state_path/mod.rs:84-117 | Check k is reported if and only if k fails and every earlier check holds. So an early failure wins over later ones, and a later check is reached only when every earlier check passed. |
| `StatePaths.ReportedHashErrorIsFirstFailing` | console/program/src/state_path/mod.rs:107-112 | A hash error is reported if and only if checks 1-4 hold and hashing the preimage fails with that error. In that case no state path is produced. |
| `StatePaths.BlockPathCheckedOnlyAfterBlockHash` | console/program/src/state_path/mod.rs:107-117 | When the block-path check is reported, the block hash equals the digest of its preimage and checks 1-5 all held. |
| `StatePaths.AccessorsReturnArguments` | console/program/src/state_path/mod.rs:119-199 | On success, each of the 13 accessors returns exactly the argument given for its field, and the result is valid. |
| `StatePaths.RebuildFromAccessors` | console/program/src/state_path/mod.rs:36-134 | Calling the constructor with a valid state path's own 13 field values succeeds and returns an equal value. |
| `Tampering.TamperTransitionLeaf` | console/program/src/state_path/mod.rs:85-90 | A different transition leaf fails check 1, unless its bits also verify against the transition path, in which case the rebuild succeeds with it. |
| `Tampering.TamperTransactionLeaf` | console/program/src/state_path/mod.rs:85-96 | A different transaction leaf fails check 1 when its id changes. With the same id it fails check 2, unless its bits also verify against the transaction path. |
| `Tampering.TamperTransactionId` | console/program/src/state_path/mod.rs:92-96 | A different transaction id fails check 2. |
| `Tampering.TamperHeaderLeaf` | console/program/src/state_path/mod.rs:98-106 | A different header leaf fails check 3 when its id changes. With the same id it fails check 4, unless its bits also verify against the header path. |
| `Tampering.TamperHeaderRoot` | console/program/src/state_path/mod.rs:103-106 | A different header root fails check 4. |
| `Tampering.TamperPreviousBlockHash` | console/program/src/state_path/mod.rs:107-112 | A different previous block hash gives the hash's error, or fails check 5, or is accepted; it is never reported as check 6. It is accepted only when two distinct preimages hash to the same digest. |
| `Tampering.TamperBlockHash` | console/program/src/state_path/mod.rs:107-112 | A different block hash fails check 5. |
| `Tampering.TamperStateRoot` | console/program/src/state_path/mod.rs:114-117 | A different state root fails check 6. |

Some lemmas assume properties of the real primitives, named in their
`requires` clauses:

- `RootDetermined` holds exactly, because Merkle verification recomputes the root from the path and the leaf.
- `CanonicalFieldBits` stands for the fixed-width little-endian encoding of field elements.

Nothing is assumed about collision resistance. Where a forged leaf or a hash
collision would get a changed field past its check, the tampering lemma states
that outcome.

The order of the checks decides which error a changed header leaf gets. Check
3 (mod.rs:98-101) uses the header leaf's id as the root of the transactions
path, and check 4 (mod.rs:103-106) uses the leaf's bits. So a header leaf with
another id is reported as an invalid transactions path, not as an invalid
header path. Only a header leaf with the same id reaches check 4
(`Tampering.TamperHeaderLeaf`).

## Left out

- The BHP hash, Merkle-path verification, Merkle-tree construction and field arithmetic are oracles (fields of `Network`). Their internals are not modelled.
- The little-endian bit decomposition of field elements and leaves (`to_bits_le`) is an oracle too. It lives in leaf and type modules that are not part of this model. The model treats the bits of `StateRoot`, `BlockHash` and `TransactionID` as those of the wrapped field element.
- Tree depths: the five path types are one `MerklePath` datatype. The per-tree depth, a const generic in the source, is not checked. The network configuration module is not part of this model.
- Error message wording (mod.rs:87-116) is not modelled. Only which check failed is kept, plus the hash's own error. The header-path message names the block hash although the check uses the header root; this is cosmetic.
- The byte, text and serde submodules (mod.rs:29-31) are not part of this model. So are their round-trip properties and the re-verification on decode.
- `test_helpers::sample_state_path` (mod.rs:208-256) is left out. It depends on random sampling and real tree construction.
- The commented-out `TestLedger` code (mod.rs:259-332) is left out. It is dead code about VM and storage I/O.
- Tampering with one of the five Merkle paths has no lemma. `RootDetermined` does not bind a path to its leaf and root, so a different path could still verify.
