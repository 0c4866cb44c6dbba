# Lovejoin, verified

Lovejoin is a mixing protocol: users deposit boxes of one fixed value into a shared pool, anyone mixes
boxes of the pool by permuting and re-randomising them with a zero-knowledge proof, and only the holder
of a box's secret can withdraw it. This project models the parts of the program whose correctness is
hardest to see from any one function, and proves what they promise, for all inputs or all runs.

`dafny verify dfyconfig.toml` checks everything.

## What is modelled

**Indexer** (`IndexerTypes`, `UndoLog`, `Replay`, `Duplicates`, `IndexerState`, `Reorg`, `Ledger`,
`Runtime`, `Projection`). The indexer keeps an incremental view of the chain with an undo buffer. The class
`IndexerState` has the program's fields; ghost fields name the base it was sourced from and the surviving
chain. Its invariant says that the view is a plain replay of that chain and that every buffered undo record
leads from one replayed view to the one before. `Reorg` carries this over whole runs, `Ledger` connects the
filtered view to the full UTxO set, and `Projection` puts the two together with the datum decoder.
`Duplicates` reads off a block and the view before it when the block throws and what the throw leaves. The
class `Runtime` is the event loop with its reconnects and re-primes; node and database are oracles.

**Datum reader and encoders** (`Bits`, `Hex`, `Cbor`, `Datum`, `Encoders`, `BoxValue`). `Cbor` gives the
reader's meaning as a function of the remaining bytes and the encodings it accepts as a grammar, and proves
that they match in both directions. `Datum` is the reader with its moving offset, from the hex text on. The
hand-written encoders are proved against the same grammar.

**Addresses** (`Bech32`, `Address`). Bit regrouping with a 32-bit accumulator that is never masked, the BIP-173
checksum over bit-vectors, and script addresses.

**Sigma protocols** (`Arith`, `Bytes`, `FiatShamir`, `Group`, `SigmaOr`, `Schnorr`). The N-way OR proof, its two
verifiers, the one-statement proofs and the byte strings that are hashed. The group is the additive group
of residues modulo a prime r: a point is its logarithm to the generator. Hash, nonce derivation and point
encoding are arbitrary functions; of the encoding only that it is injective, of 48 bytes and undone by
decoding is used. r is any prime up to 256^32.

**Ownership** (`Ownership`, `Mixing`). Runs of deposits, mixes and withdrawals, chains of register
re-randomisations, and a whole mix with the proofs of all its inputs.

**Fan-out** (`Refs`, `Permutations`, `Select`, `Fanout`, `FreshPlans`, `FanoutTree`, `Orchestrator`,
`Wallet`, `Batch`, `Submission`). Sampling, the n-ary tree of transactions, driving it under any failures,
building it as a batch and submitting that. The transaction builder, the signer and the submitter are
parameters that may answer or fail in any pattern; the builder sees everything that happened before.
`FanoutRun`, `WalletChain` and `BatchRun` hold the local variables that the program's generators and
closures update while they run.

**Launch** (`Launch`, `LaunchFee`). The launcher as it runs, with every outside answer an oracle and a
question before each effect whether the process dies there. A raised error in a query ends the process as a
death does.

Map keys and slot ids are values; `Refs` proves that the strings the program builds carry exactly those
values. The random source answers the i-th question below a bound. Exceptions are `None` or `Err` results.

## Where the code and its words differ

The model follows the code. Each of these is a lemma with a witness and, where the code meets its words in
part, one that says exactly when.

- A block that throws a duplicate error can leave part of itself in the maps, although the runtime's comment calls
  application all-or-nothing (`backend/src/indexer/runtime.ts:305-306`). `Duplicates.BlockThrowsIff` says exactly when
  a block throws, `Duplicates.ThrowLeavesViewIff` exactly when the throw leaves the view as it was (shorter for the
  blocks of a chain: `Duplicates.ThrowInCausalBlock`), `Replay.FreshChainNeverDuplicates` that fresh chains never
  throw. `Runtime.OrphanMakesNextBlockThrow` is a case the runtime can receive: a block of the new fork, after an
  orphan that a rollback with the node's height has left applied.
- After a prime the buffer is empty, so a rollback below the primed tip is not reported as deep
  (`backend/src/indexer/state.ts:365-368`): `Reorg.RollbackAfterPrimeIsSilent`.
- The runtime fills a rollback's height from the node tip, so an orphaned block can stay applied
  (`backend/src/indexer/runtime.ts:570-574`): `Reorg.RollbackLandsIff` says exactly when it does not,
  `Runtime.RuntimeRollbackCanKeepOrphans` gives a case.
- The reference an undo record restores is overwritten by every consumption
  (`backend/src/indexer/state.ts:234`): `Replay.RemembersReferenceIff`, `Reorg.MovedTwiceIsForgotten`.
- Nonce messages of distinct inputs can be equal when the widths differ (`offchain/src/crypto/sigma_or.ts:95-99`).
  `FiatShamir.NonceMessagesEqualIff` says exactly when, over all widths; contexts of one length are enough to exclude
  it (`FiatShamir.NonceMessageInjective`). `FiatShamir.NonceMessageAmbiguousAcrossWidths` is the collision.
- `verifySigmaOr` throws for well-shaped proofs of more than 255 branches, where its comment promises `false`:
  `SigmaOr.VerifySigmaOr`.
- A deposit secret of 1 passes the range check but not the datum encoder, whose two points are then equal:
  `Ownership.DepositOwnedBySecret`.
- The planner lower-cases the references it excludes and has used, the sampler compares them as they are
  (`offchain/src/strategy/fanout.ts:256-276`, `offchain/src/pool/select.ts:42-43`), so a plan can repeat a box or take an
  excluded one. `FreshPlans.PlansFreshIff` says, of the arguments of the call, exactly when no random source can bring
  this about; `FreshPlans.ExcludedBoxComesBack` is a planner input where it happens. The planner's comment also
  promises an error when the root is in the pool; the code excludes it instead (`Fanout.LayOut`).
- The wallet override is passed only when it is not empty; with an empty rolling set the builder falls back
  to a snapshot of spent UTxOs: `Wallet.NextBuildIsSafeIff`, `Wallet.SpentUtxoIsOfferedAgain`.
- The batch path can count a slot as failed twice. `Submission.CountsAlwaysAddUpIff` says before the call for which
  batches no answers can bring this about, `Submission.CountsAddUpIff` after the run whether they did, and
  `Submission.CountedTwice` is a batch, signatures and answers that do.
- The generator's integer printer drops the bits above 64, its string printer the bits of a length above 32:
  `Encoders.MinorIntReadsBackIff`, `Encoders.StringReadsBackIff`, `Encoders.RefListReadsBackIff`.
- The hex parser takes more than hex: a sign or a space before one digit, anything after one (`parseInt`):
  `Hex.HexToBytes`, `Datum.TextDecodedIff`.

## Model

| member | source | states |
|---|---|---|
| IndexerState.IndexerState.constructor | backend/src/indexer/state.ts:105-131 | the empty state is valid: it equals a replay of no blocks from the empty view |
| UndoLog.SpliceKeepsIndex | backend/src/indexer/state.ts:198-208 | removing one created output and shifting the later positions keeps the position map the exact inverse of the created list |
| UndoLog.DropTransient | backend/src/indexer/state.ts:198-208 | the splice-and-shift loop: the created list loses exactly that output and the position map still inverts it |
| UndoLog.TakeOut | backend/src/indexer/state.ts:194-226 | consuming an input removes it from the map, and the undo log still leads back to the map before the block |
| UndoLog.PutIn | backend/src/indexer/state.ts:249-268 | creating an output adds it to the map, and the undo log still leads back to the map before the block |
| UndoLog.Unwind | backend/src/indexer/state.ts:390-397 | deleting the created and restoring the removed entries gives the recorded earlier map, every entry under its own key |
| IndexerState.IndexerState.InputGeneration | backend/src/indexer/state.ts:180-188 | the loop finds one more than the largest generation among the pool boxes spent, 0 when none is |
| IndexerState.IndexerState.SpendInputs | backend/src/indexer/state.ts:192-238 | after all inputs the state is the old one without them, the reference and alarm moved, and the log still undoes to the start of the block |
| IndexerState.IndexerState.AddOutput | backend/src/indexer/state.ts:241-282 | one output is applied, or the duplicate error leaves the state as it was; the log still undoes to the start of the block |
| IndexerState.IndexerState.AddOutputs | backend/src/indexer/state.ts:240-283 | all outputs in order, or the duplicate error with the part already applied |
| IndexerState.IndexerState.ApplyTransaction | backend/src/indexer/state.ts:175-283 | inputs before outputs: the state after one transaction, and which reference its record keeps |
| IndexerState.IndexerState.ApplyTransactions | backend/src/indexer/state.ts:175-284 | the state after all transactions of a block, with a log that undoes to the state before it |
| IndexerState.IndexerState.Push | backend/src/indexer/state.ts:286-292 | the block and its record join the buffer, which stays a suffix of the chain of at most 2000 blocks |
| IndexerState.IndexerState.Trim | backend/src/indexer/state.ts:288-291 | exactly the newest 2000 blocks and records are kept |
| IndexerState.IndexerState.ApplyForward | backend/src/indexer/state.ts:149-293 | whole new state for every block; on a valid state the record restores the view before the block and the state still equals a replay of the chain |
| IndexerState.IndexerState.UnwindLast | backend/src/indexer/state.ts:386-408 | the newest block is taken back: the view its record names, and on a valid state the replay of the chain without it |
| IndexerState.IndexerState.UnwindToward | backend/src/indexer/state.ts:369-377 | the loop stops at the newest buffered block at the target, or after one block when the target is not buffered, with the whole state unwound to there |
| IndexerState.IndexerState.ApplyRollback | backend/src/indexer/state.ts:356-383 | when it throws, and otherwise the whole state after it, valid or not: exactly how many blocks it keeps, the view their dropped records lead back to, newest first, and the tip; a valid state stays the replay of what is kept |
| IndexerState.IndexerState.PrimeFrom | backend/src/indexer/state.ts:313-341 | the state is replaced by the snapshot, with empty buffer and the snapshot tip |
| Replay.FreshChainNeverDuplicates | backend/src/indexer/state.ts:243-258 | the duplicate error never fires on a chain whose output references are fresh, from any starting view |
| Replay.RemembersReferenceIff | backend/src/indexer/state.ts:227-237 | the undo record restores the reference held before the block if and only if no transaction of the block spends a reference output of that block |
| Replay.SafeBlockRemembersReference | backend/src/indexer/state.ts:227-237 | a block that spends no reference output of its own has a record that restores the reference |
| Reorg.MovedTwiceIsForgotten | backend/src/indexer/state.ts:234 | a concrete block that moves the reference NFT twice: its record keeps the middle holder |
| Reorg.KeptUpToTarget | backend/src/indexer/state.ts:356-377 | on distinct block hashes a rollback to a buffered block does not throw and keeps exactly the blocks up to it |
| Reorg.FollowOne | backend/src/indexer/state.ts:149-408 | one faithful event keeps the state equal to the replay of the surviving chain, with its tip |
| Reorg.Follow | backend/src/indexer/state.ts:149-408 | over every run of blocks that apply and rollbacks to buffered points: pool, fee shards, reference, alarm and tip equal a plain replay of the surviving blocks from the base, and the buffer is a suffix of that chain |
| Reorg.FreshStepApplies | backend/src/indexer/state.ts:243-258 | a block whose outputs are new to the base and the chain applies |
| Reorg.ReorgIsInvisible | backend/src/indexer/state.ts:149-408 | two faithful runs with the same surviving chain end in the same view and tip |
| Reorg.RollbackLandsIff | backend/src/indexer/state.ts:356-383 | for a target that names a buffered block by hash: it lands there if and only if it is the tip, the height is the block's own, or the block is just below the tip and the height reaches the buffer |
| Reorg.RollbackAfterPrimeIsSilent | backend/src/indexer/state.ts:365-368 | right after a prime a rollback below the primed tip is not reported as deep: the view stays, the tip moves |
| Duplicates.BlockThrowsIff | backend/src/indexer/state.ts:175-284 | from any view, a block throws the duplicate error if and only if some output's reference is held in its map at its turn: in the view and not spent so far, or stored earlier in the block and not spent since |
| Duplicates.ThrowLeavesViewIff | backend/src/indexer/state.ts:175-284 | given the first such output: the view is left as it was if and only if every box spent before it was put back as it was, every other box stored before it was spent again, and reference and alarm did not move |
| Duplicates.ThrowInCausalBlock | backend/src/indexer/state.ts:175-284 | in a block that never spends what it makes later: if and only if no box of the view was spent before it, every box stored before it was spent again, and reference and alarm did not move |
| Runtime.Runtime.constructor | backend/src/indexer/runtime.ts:219-243 | a started runtime runs, with a client at the start points or at the origin |
| Runtime.Runtime.ApplyEvent | backend/src/indexer/runtime.ts:547-575 | what each chain-sync event does to the node tip and the state, and when it asks for a re-prime; an event of a faithful run is followed |
| Runtime.Runtime.Reprime | backend/src/indexer/runtime.ts:336-377 | one attempt: a snapshot replaces the state; it counts as done only when a client resumes at the snapshot's tip |
| Runtime.Runtime.TryReprime | backend/src/indexer/runtime.ts:319-396 | it answers true exactly with a primed state and a client at its tip; otherwise the loop halts, with a reason unless it was stopped, after no more than the allowed attempts |
| Runtime.Runtime.TryReconnect | backend/src/indexer/runtime.ts:411-516 | it answers true only with a client at the tip the state has then; without a re-prime callback the view never moves |
| Runtime.Runtime.Turn | backend/src/indexer/runtime.ts:270-308 | one turn, as a relation between everything the indexer holds before and after: the block is applied, or skipped with what it left; a rollback within the buffer is done; a deeper one or a failed read leaves a snapshot the callback answered, or nothing changed; the runtime runs exactly while nothing is fatal and nobody stopped it, and then with a client |
| Runtime.Runtime.Loop | backend/src/indexer/runtime.ts:269-309 | over everything the node sends and every failure, with all moments of the run from the old state to the new one, each led to by a turn: every moment before which each block that arrived applied and had a record that keeps the reference is a plain replay of its chain from its base, through reconnects, re-primes and rollbacks of any depth; on a faithful run the loop never halts or re-primes and ends with the surviving chain |
| Runtime.RuntimeRollbackCanKeepOrphans | backend/src/indexer/runtime.ts:570-574 | a rollback by two blocks with the height taken from a node tip above the target leaves an orphaned block applied |
| Runtime.OrphanMakesNextBlockThrow | backend/src/indexer/runtime.ts:305-306 | and then: a block of an accepted fork, listing a new box before one the orphan holds, throws, is not recorded, and leaves the new box in the pool |
| Ledger.BlockToDiff | backend/src/indexer/ogmios.ts:307-354 | the filter loops keep, in order, exactly the relevant outputs and every input; an error exactly when a transaction with outputs has neither id nor hash |
| Ledger.KeepOutputs | backend/src/indexer/ogmios.ts:319-329 | the output loop of one transaction, with its missing-id error |
| Ledger.TxProjects | backend/src/indexer/ogmios.ts:307-338 | one transaction: indexing its filtered form projects the UTxO set after it, and the duplicate error does not fire |
| Ledger.IndexingCommutesWithLedger | backend/src/indexer/ogmios.ts:307-338 | filtering then indexing a block equals projecting the full UTxO set after the block, for every block the ledger accepts |
| Ledger.ReplayCommutesWithLedger | backend/src/indexer/ogmios.ts:307-338 | the same over whole chains |
| Ledger.PrimedProjects | backend/src/indexer/prime.ts:53-101 | a primed view is a projection of the UTxO set the snapshot was read from |
| Ledger.PrimedAgreesWithReplayed | backend/src/indexer/prime.ts:53-120 | a primed state and a state that replayed every block hold the same boxes, shards and reference, up to generation, slot and alarm |
| Ledger.ProjectionsAgree | backend/src/indexer/prime.ts:53-101 | two projections of one UTxO set agree up to generation and slot |
| Projection.SurvivorsCommute | backend/src/indexer/ogmios.ts:307-338 | filtering and rolling back commute: the surviving filtered blocks are the filtered surviving blocks |
| Projection.SparingBlockIsSafe | backend/src/indexer/state.ts:227-237 | a block the ledger accepts that spends no reference UTxO made by an earlier transaction of its own has an undo record that keeps the reference |
| Projection.NodeRunIsFaithful | backend/src/indexer/state.ts:149-408 | a run whose blocks the ledger accepts one after the other is a faithful run of the indexer: acceptance alone excludes the duplicate error, and the ledger accepts what survives |
| Projection.FollowProjects | backend/src/indexer/state.ts:149-408 | after every run of node events, with whatever rollbacks to buffered blocks, in which the ledger accepts each block at its place, the view is exactly the projection of the UTxO set the surviving full blocks leave |
| Projection.PrimeAndFollow | backend/src/indexer/prime.ts:53-120 | the same from a snapshot: primed, then driven by the node |
| Projection.PoolListsEncodedBoxes | backend/src/indexer/state.ts:492-510 | with the program's own decoder the pool lists exactly the outputs at the mix address whose datum is the hex of some encoding of two distinct 48-byte points, and shows those points |
| Refs.UtxoKeyInjective | backend/src/indexer/types.ts:17-19 | two references never share a map key, whatever the transaction id contains |
| Datum.CborReader.constructor | backend/src/indexer/datum.ts:86-88 | a reader starts at the first byte |
| Datum.CborReader.Eof | backend/src/indexer/datum.ts:90-92 | true exactly when nothing is left |
| Datum.CborReader.ReadBytesBigEndian | backend/src/indexer/datum.ts:230-238 | the shift-and-or loop over 32-bit words returns the big-endian value of up to four bytes and moves past them |
| Datum.CborReader.ReadBytesBigEndianBigint | backend/src/indexer/datum.ts:240-248 | the big-integer loop returns the big-endian value of its bytes |
| Datum.CborReader.ReadUnsignedHeaderValue | backend/src/indexer/datum.ts:210-228 | reads exactly what the head grammar says, or fails |
| Datum.CborReader.ReadByteString | backend/src/indexer/datum.ts:167-202 | reads exactly a definite or chunked string, chunks within chunks included |
| Datum.CborReader.ReadChunkList | backend/src/indexer/datum.ts:173-190 | the chunk loop joins the chunks up to the break |
| Datum.Join | backend/src/indexer/datum.ts:177-185 | the copy loops give the concatenation |
| Datum.CborReader.ReadOne | backend/src/indexer/datum.ts:94-110 | reads exactly one value and terminates |
| Datum.CborReader.ReadTaggedValue | backend/src/indexer/datum.ts:112-140 | supported tags only, over arrays only; tag 102 by its first element |
| Datum.CborReader.ReadArrayValue | backend/src/indexer/datum.ts:142-165 | counted and open arrays |
| Datum.CborReader.ReadOpenItems | backend/src/indexer/datum.ts:147-154 | the open array loop reads up to the break |
| Datum.CborReader.ReadItems | backend/src/indexer/datum.ts:160-164 | the counted loop reads exactly that many values |
| Datum.TryDecodeMixDatum | backend/src/indexer/datum.ts:45-68 | the decoder as a function of the hex text |
| Datum.DecodedIff | backend/src/indexer/datum.ts:45-68 | a datum is decoded if and only if the bytes are some supported encoding of Constr 0 with two distinct 48-byte strings |
| Datum.TextDecodedIff | backend/src/indexer/datum.ts:45-68 | the same from hex text, with everything the hex parser tolerates |
| Datum.EncodingIsDecoded | backend/src/indexer/datum.ts:45-68 | the hex of every supported encoding of such a datum is decoded to it |
| Hex.HexToBytes | backend/src/indexer/datum.ts:263-273 | pair by pair as `parseInt` reads them, an optional 0x in front; an error for odd length or a pair without a number |
| Hex.HexRoundTrip | backend/src/indexer/datum.ts:263-279 | the hex text of every byte string is read back as those bytes |
| Bits.ShiftIn | backend/src/indexer/datum.ts:230-238 | shifting a byte into a 32-bit word multiplies and adds as long as nothing is shifted out |
| Bits.InitialByte | crypto/ref/src/value.rs:42-60 | shift and or of major type and low bits give the initial byte |
| Datum.MixDatumOfValue | backend/src/indexer/datum.ts:112-140 | which encodings have that value: tag 121, or tag 102 over 0 and the fields |
| Cbor.HeadRoundTrip | backend/src/indexer/datum.ts:210-228 | a head of any width is read back |
| Cbor.ReadAfterPrint | backend/src/indexer/datum.ts:94-202 | every supported encoding, of any header width, definite, open or chunked, is read back to its value, taking exactly its bytes, whatever follows |
| Cbor.ReadIsPrint | backend/src/indexer/datum.ts:94-202 | whatever the reader accepts is a supported encoding of the value it returns |
| Cbor.ReadsExactlyTheEncodings | backend/src/indexer/datum.ts:94-202 | the reader takes a whole input to a value if and only if the input is a supported encoding of it |
| Encoders.EightBytes | offchain/scripts/gen-encoding-parity.ts:125-131 | the 64-bit loop writes the eight low-order bytes |
| Encoders.EncodeCborUInt | offchain/src/tx/box-value.ts:185-208 | the shortest head for every integer up to 2^64 - 1, an error for every other |
| Encoders.ShortestIsShortest | offchain/src/tx/box-value.ts:185-208 | no head for the same integer takes fewer bytes |
| Encoders.UIntReadsBack | offchain/src/tx/box-value.ts:185-208 | every integer up to 2^64 - 1 is read back unchanged by the datum reader |
| Encoders.CborMinorInt | offchain/scripts/gen-encoding-parity.ts:111-132 | the generator's integers byte by byte, without an upper bound |
| Encoders.MinorIntReadsBackIff | offchain/scripts/gen-encoding-parity.ts:111-132 | they are read back if and only if they fit 64 bits |
| Encoders.CborBytes | offchain/scripts/gen-encoding-parity.ts:134-152 | a byte string under its shortest head; from 2^32 bytes on under the low 32 bits of its length |
| Encoders.StringReadsBackIff | offchain/scripts/gen-encoding-parity.ts:134-152 | it is read back if and only if it is shorter than 2^32 bytes |
| Encoders.EncodeOutputReference | offchain/scripts/gen-encoding-parity.ts:166-175 | the bytes of Constr 0 over an open array of id and index; an error for an id that has not 32 bytes or a negative index |
| Encoders.EncodeOutputRefList | offchain/scripts/gen-encoding-parity.ts:177-184 | the loop prints the open array of all references, or stops with the error of the first bad one |
| Encoders.RefListReadsBackIff | offchain/scripts/gen-encoding-parity.ts:166-184 | a list of output references is read back whole by the datum reader if and only if every index fits 64 bits |
| BoxValue.EncodeCborBytes | offchain/src/tx/box-value.ts:211-216 | strings under 256 bytes get their shortest head, longer ones an error |
| BoxValue.EncodeBoxValueCbor | offchain/src/tx/box-value.ts:159-178 | the bytes of every valid value, and exactly when it throws |
| BoxValue.PushHead | crypto/ref/src/value.rs:42-60 | the Rust head is the shortest head |
| BoxValue.PushBytes | crypto/ref/src/value.rs:67-74 | the Rust byte string |
| BoxValue.EncodeBoxValue | crypto/ref/src/value.rs:22-39 | the Rust encoding byte by byte |
| BoxValue.EncodersAgree | crypto/ref/src/value.rs:22-74 | the TypeScript and Rust encodings are the same bytes for every valid value |
| BoxValue.BoxBytesInjective | offchain/src/tx/box-value.ts:159-178 | two valid values never share an encoding |
| BoxValue.HexBytesInjective | offchain/src/tx/box-value.ts:230-234 | two lowercase hex strings never decode to the same bytes |
| BoxValue.UtxoHoldsBoxValue | offchain/src/tx/box-value.ts:139-145 | true exactly when the lovelace is equal and the non-zero assets are exactly the box value's |
| Address.ConvertBits | offchain/src/tx/address.ts:74-96 | for any widths up to 32 bits together, with an unmasked 32-bit accumulator: the groups hold the same number, left-over bits padded or dropped; and exactly when it throws |
| Address.ThereAndBack | offchain/src/tx/address.ts:74-96 | 8 to 5 bits with padding, then 5 to 8 without, is the identity on every byte string and never throws |
| Address.BackToBytes | offchain/src/tx/address.ts:74-96 | whatever the padded conversion returned converts back to exactly the bytes |
| Address.GroupsInjective | offchain/src/tx/address.ts:74-96 | different byte strings of one length never share their groups |
| Address.BuildScriptAddress | offchain/src/tx/address.ts:45-58 | from hex text: prefix, the header and hash in groups, six symbols that make the whole check; an error exactly when the text is not the hex of 28 bytes |
| Address.Encode | offchain/src/tx/address.ts:64-72 | prefix, separator, groups and checksum symbols in order, with polymod 1 |
| Address.AddressInjective | offchain/src/tx/address.ts:45-72 | equal addresses come from the same hash on the same network |
| Bech32.Bech32Polymod | offchain/src/tx/address.ts:98-109 | the loop over values and generator bits |
| Bech32.Bech32CreateChecksum | offchain/src/tx/address.ts:119-125 | the six symbols cut from the number |
| Bech32.StepLinear | offchain/src/tx/address.ts:102-106 | the polymod step is linear over XOR |
| Bech32.RunLinear | offchain/src/tx/address.ts:98-109 | so is a whole run, for every length |
| Bech32.SymbolsRebuild | offchain/src/tx/address.ts:122-124 | the symbols fed to an empty register rebuild the number they were cut from |
| Bech32.ChecksumChecks | offchain/src/tx/address.ts:98-125 | for every data of every length the polymod of the values and their checksum is 1 |
| Bech32.BurstDetected | offchain/src/tx/address.ts:98-109 | two strings of any length that differ only within six neighbouring symbols never have the same polymod, so a damaged string does not check |
| Bytes.XorAllWithout | offchain/src/crypto/sigma_or.ts:84-93 | taking one part out of an XOR XORs it out, wherever it stands |
| Bytes.FromNatRoundTrip | offchain/src/crypto/bls.ts:33-73 | scalars survive encoding to and decoding from big-endian bytes |
| Bytes.ToNatInjective | offchain/src/crypto/bls.ts:67-73 | byte strings of one length with one value are equal |
| FiatShamir.Concat | offchain/src/crypto/hash.ts:36-46 | the buffer filled at a moving offset is the concatenation |
| FiatShamir.FsInputSigmaOr | offchain/src/crypto/hash.ts:115-145 | the input of the sigma-OR challenge, and exactly when it throws |
| FiatShamir.FsInputInjective | offchain/src/crypto/hash.ts:50-145 | with 48-byte points, equal challenge inputs come from the same protocol, width, points, commitments and context |
| FiatShamir.NonceMessagesEqualIff | offchain/src/crypto/sigma_or.ts:95-112 | for any two widths: two nonce messages are equal if and only if bases, branch and role are equal, the narrower statements are the first of the wider, and the narrower context is the remaining statements followed by the wider context |
| FiatShamir.NonceMessageInjective | offchain/src/crypto/sigma_or.ts:95-112 | so for equal widths or equal context lengths the message determines everything in it |
| FiatShamir.NonceMessageAmbiguousAcrossWidths | offchain/src/crypto/sigma_or.ts:95-112 | a collision for every message of more than one statement: its last statement read as context |
| Group.SimulatedBalances | offchain/src/crypto/sigma_or.ts:157-171 | a simulated branch satisfies the verifier's equation whatever the statement |
| Group.RealBalancesExactly | offchain/src/crypto/sigma_or.ts:190-192 | the honest response satisfies it if and only if the challenge is 0 or the witness is right |
| Group.ExtractExact | offchain/src/crypto/sigma_or.ts:232-261 | two answers to one commitment under different challenges give the witness |
| SigmaOr.ProveSigmaOr | offchain/src/crypto/sigma_or.ts:117-204 | every error case, and otherwise the proof branch by branch |
| SigmaOr.SimulateBranches | offchain/src/crypto/sigma_or.ts:157-171 | the loop over simulated branches fills each array at each index |
| SigmaOr.VerifySigmaOr | offchain/src/crypto/sigma_or.ts:207-262 | true exactly when lengths fit, challenges XOR to the hash and every branch decodes and balances; throws exactly for well-shaped proofs over 255 branches |
| SigmaOr.VerifyRust | crypto/ref/src/sigma_or.rs:21-87 | the answer to any bytes: which error, or whether the proof is accepted, in the order of the checks |
| SigmaOr.VerifiersAgree | crypto/ref/src/sigma_or.rs:21-87 | on encodings of points the Rust verifier accepts exactly what the TypeScript verifier accepts |
| SigmaOr.RustAcceptsIff | crypto/ref/src/sigma_or.rs:21-87 | whatever bytes arrive, they are accepted if and only if they are the encodings of points for which the proof is accepted |
| SigmaOr.ChallengesRecombine | offchain/src/crypto/sigma_or.ts:184-188 | the branch challenges of every proof XOR to the global challenge |
| SigmaOr.ProofAcceptedIff | offchain/src/crypto/sigma_or.ts:117-262 | for every width in [2, 255], real index, context and other statements, true or false: the proof is accepted if and only if the witness satisfies the real statement or the real challenge is 0 mod r |
| SigmaOr.SomeChallengeDiffers | offchain/src/crypto/sigma_or.ts:232-241 | two accepted transcripts with one set of commitments but different global challenges differ in a branch challenge |
| SigmaOr.WitnessExtracted | offchain/src/crypto/sigma_or.ts:232-261 | a branch whose challenges differ mod r yields w with a' = [w]a and b' = [w]b |
| Schnorr.ProofVerifies | offchain/src/crypto/schnorr.ts:60-119 | every Schnorr or DH-tuple proof made with a secret in [1, r) verifies |
| Schnorr.SecretExtracted | offchain/src/crypto/dhtuple.ts:91-129 | two accepted answers to one commitment under different challenges give one secret for every point |
| Ownership.OpensIffOwner | offchain/src/pool/identify.ts:127-138 | exactly one scalar in [1, r) opens a usable box |
| Ownership.RerandomizeKeepsOpeners | offchain/scripts/gen-mix-kat.ts:132-138 | multiplying both points by a non-zero scalar changes no opener |
| Ownership.DepositOwnedBySecret | offchain/src/tx/deposit.ts:343-373 | a deposit is planned exactly for secrets in [2, r) and masks in [1, r), and its one opener is the secret |
| Ownership.MixOutputs | offchain/scripts/gen-mix-kat.ts:132-138 | the output loop puts each re-randomised input at its permuted place |
| Ownership.MixKeepsOwners | offchain/scripts/gen-mix-kat.ts:121-139 | a mix of any width keeps the multiset of owners |
| Ownership.StepAccounts | offchain/scripts/gen-mix-kat.ts:121-139 | deposit, mix and withdrawal move the live secrets exactly as they move the boxes |
| Ownership.EachSecretOpensOneBox | offchain/src/pool/identify.ts:127-147 | after any run with distinct secrets each unwithdrawn secret finds exactly one live box and every other scalar finds none |
| Ownership.RegisterChainKeepsOwner | offchain/src/seedelf/register.ts:95-128 | for any integer scalars, 0 and multiples of r included: a chain of re-randomisations goes through exactly when none is a multiple of r, and keeps exactly the scalars that own the register |
| Ownership.CreatedRegisterOwner | offchain/src/seedelf/register.ts:66-128 | a register created for x and re-randomised in any way is owned by exactly the scalars equal to x mod r |
| Mixing.MixProofsVerify | offchain/scripts/gen-mix-kat.ts:121-165 | every proof of an honest mix is accepted, at every width, for the input it is made for |
| Mixing.Scenario | offchain/scripts/gen-mix-kat.ts:121-165 | the whole scenario on any boxes, permutation and scalars: its own check of every proof passes, and the owners are kept |
| Select.DrawInto | offchain/src/pool/select.ts:50-58 | the in-place swaps pick the tuple the draws say |
| Select.PickRandomNTuple | offchain/src/pool/select.ts:32-61 | min(n, eligible) entries of the eligible ones, by the draws; throws exactly for negative n |
| Select.TupleInjective | offchain/src/pool/select.ts:50-58 | different draw vectors pick different tuples |
| Select.TupleSurjective | offchain/src/pool/select.ts:50-58 | every ordered tuple of distinct elements is picked by a draw vector |
| Select.TupleDistinct | offchain/src/pool/select.ts:50-58 | the elements picked are distinct and come from the pool |
| Select.ShuffleInto | offchain/src/pool/select.ts:76-83 | the in-place Fisher-Yates loop gives the ordering the draws say |
| Select.RandomPermutation | offchain/src/pool/select.ts:68-85 | a permutation for every n; throws exactly for negative n |
| Select.ShuffleInjective | offchain/src/pool/select.ts:76-83 | different draw vectors give different orderings |
| Select.ShuffleSurjective | offchain/src/pool/select.ts:76-83 | every ordering comes from a draw vector |
| Select.InversePermutation | offchain/src/pool/select.ts:92-105 | a two-sided inverse for every permutation, an error for everything else |
| Fanout.PowN | offchain/src/strategy/fanout.ts:401-405 | the loop computes the power |
| Fanout.FreshNeeded | offchain/src/strategy/fanout.ts:228-234 | per-wave needs, and n^depth - 1 in all |
| Fanout.CountEligible | offchain/src/strategy/fanout.ts:237-240 | the pre-flight count |
| Fanout.DrawWave | offchain/src/strategy/fanout.ts:256-276 | what the sampler answers; when the boxes left are clean and enough the draw is never short, distinct from all before and not excluded |
| Fanout.PlanSlot | offchain/src/strategy/fanout.ts:280-305 | one slot's inputs in order |
| Fanout.PlanWave | offchain/src/strategy/fanout.ts:278-306 | one wave's slots in order |
| Fanout.LayOut | offchain/src/strategy/fanout.ts:221-320 | for every width, depth, pool and in-range source: the plan laid out over the boxes the waves draw, or which error; when the boxes the sampler may draw are clean it never falls short and the boxes are distinct and not excluded |
| Fanout.PlanFanout | offchain/src/strategy/fanout.ts:206-320 | the guards, in their order, and the same |
| FreshPlans.PlansFreshIff | offchain/src/strategy/fanout.ts:222-276 | past the pre-flight, for every width from 2, depth from 2, pool and exclusions: every in-range random source gives a plan whose boxes, in lower case, are distinct and not excluded, if and only if the boxes the sampler may draw at first are written in lower case and no two share a reference |
| FreshPlans.ExcludedBoxComesBack | offchain/src/strategy/fanout.ts:237-276 | a planner input whose plan draws an excluded box, and draws it again in the next wave |
| Fanout.EveryOutputTakenOnce | offchain/src/strategy/fanout.ts:281-297 | every output of a non-final wave is an input of exactly one slot of the next |
| Fanout.FreshUsedOnce | offchain/src/strategy/fanout.ts:298-304 | no drawn reference is an input twice, in any two slots of any two waves, nor excluded |
| Fanout.CountsAgree | offchain/src/strategy/fanout.ts:311-319 | slots laid out = (n^depth - 1)/(n - 1), and 1 + boxes drawn = n^depth |
| FanoutTree.PlanIsTree | offchain/src/strategy/fanout.ts:278-306 | every plan is a tree: one parent per later slot, in the wave before |
| FanoutTree.ByParent | offchain/src/strategy/fanout.ts:335-347 | the map loops give every slot its children in plan order |
| FanoutTree.Descendants | offchain/src/strategy/fanout.ts:332-357 | the walk lists exactly the slots at or below its top, each once, top first, earlier waves first, and terminates |
| Refs.RefKeyRoundTrip | offchain/src/strategy/fanout.ts:407-421 | parsing a reference key gives the reference in lower case |
| Refs.SlotKeyRoundTrip | offchain/src/strategy/fanout.ts:423-427 | a slot id's text carries exactly its wave and slot |
| Orchestrator.Materialise | offchain/src/strategy/orchestrator.ts:494-538 | fails exactly when one input does, and gives each input's concrete box otherwise |
| Orchestrator.GivenFromLog | offchain/src/strategy/orchestrator.ts:508-528 | a child input names its parent's transaction id and position, from a build that came before |
| Orchestrator.FanoutRun.Fail | offchain/src/strategy/orchestrator.ts:292-307 | a failure drops exactly the slots below it and keeps the run's invariant |
| Orchestrator.FanoutRun.Record | offchain/src/strategy/orchestrator.ts:393-452 | a build is recorded once and keeps the run's invariant |
| Orchestrator.FanoutRun.RunSlot | offchain/src/strategy/orchestrator.ts:276-453 | one slot: skipped, failed or built, with at most one event |
| Orchestrator.FanoutRun.RunWave | offchain/src/strategy/orchestrator.ts:269-461 | one wave: the two lists it keeps are the successes and failures of its events, and its report carries them |
| Orchestrator.SubmitFanout | offchain/src/strategy/orchestrator.ts:233-468 | under every failure pattern each slot is exactly once in the submitted set or in one failure's cascade, children are built after their parents with the boxes of the parent's transaction handed on in full, every wave is reported with what was submitted and failed in it, and the closing counts add up to all slots |
| Orchestrator.ShardsSpentOnce | offchain/src/strategy/orchestrator.ts:309-310 | when the builder respects the exclusions, no two builds spend one fee shard |
| Wallet.ChainWalletUtxosAfterBuild | offchain/src/strategy/orchestrator.ts:794-873 | what stays spendable, what change is in flight and what was consumed |
| Wallet.WalletChain.BuildOnly | offchain/src/strategy/orchestrator.ts:707-747 | one wallet-funded build: the override and in-flight change passed, and the wallet state after it |
| Wallet.WalletIsConserved | offchain/src/strategy/orchestrator.ts:682-747 | the rolling set is the initial UTxOs plus all change less everything consumed; the in-flight map is exactly the unspent change |
| Wallet.WalletSpentOnce | offchain/src/strategy/orchestrator.ts:707-747 | when the builder spends wallet inputs only from a passed override, no wallet UTxO is an input of two built transactions |
| Wallet.NextBuildIsSafeIff | offchain/src/strategy/orchestrator.ts:708-711 | the UTxOs offered to the next build are all unspent if and only if the rolling set is not empty or the wallet was empty from the start |
| Wallet.SpentUtxoIsOfferedAgain | offchain/src/strategy/orchestrator.ts:708-711 | a concrete batch after which a spent UTxO is offered again |
| Batch.PlanSpendsFromOverride | offchain/src/strategy/orchestrator.ts:707-747 | in a plan built by a builder that spends wallet UTxOs only from its override, every transaction does |
| Batch.PlanFanoutTxs | offchain/src/strategy/orchestrator.ts:682-776 | the whole planning run with the wallet threaded through it: every slot built or in one cascade, exactly once; every build sees the wallet its predecessors leave; with new transaction ids and such a builder no wallet UTxO is spent twice |
| Batch.GroupByWave | offchain/src/strategy/orchestrator.ts:921-933 | items by wave in order, and the last wave |
| Submission.BatchRun.Replay | offchain/src/strategy/orchestrator.ts:969-978 | planner failures are replayed, none counted again |
| Submission.BatchRun.SendSlot | offchain/src/strategy/orchestrator.ts:980-1030 | one slot: skipped, refused with its cascade, or accepted |
| Submission.BatchRun.RunWave | offchain/src/strategy/orchestrator.ts:959-1038 | one wave: the two lists it keeps are the successes and failures of its events, and its report carries them |
| Submission.EveryRunSettles | offchain/src/strategy/orchestrator.ts:952-1044 | under every pattern of answers each slot of the plan is accepted or dropped, never both |
| Submission.SubmitFanoutBatch | offchain/src/strategy/orchestrator.ts:908-1045 | exactly which error; otherwise exactly which transactions are submitted in which order, with the signature of their slot; the results reported, signed text and new id included; every wave's report; all cascades and the closing counts |
| Submission.CountsExceedByOverlap | offchain/src/strategy/orchestrator.ts:952-1044 | the two closing counts exceed the number of slots by exactly the slots dropped twice |
| Submission.CountsAddUpIff | offchain/src/strategy/orchestrator.ts:953-998 | after a run: they add up to the plan if and only if no build failure lies below a slot whose submission was refused |
| Submission.CountsAlwaysAddUpIff | offchain/src/strategy/orchestrator.ts:953-998 | before it: they add up under every pattern of answers if and only if no failed slot of the batch lies below a built one |
| Submission.CountedTwice | offchain/src/strategy/orchestrator.ts:953-998 | a concrete plan of three slots, batch, signatures and answers: one submission, refused, and the counts add up to four |
| Launch.Launcher.AwaitConfirmed | infra/bootstrap/koios-launch.py:122-129 | succeeds only after two confirmations were seen |
| Launch.Launcher.JournalStage | infra/bootstrap/koios-launch.py:383-388 | a built stage is in the journal before anything else happens, the other stages as they were |
| Launch.Launcher.PrepareStage | infra/bootstrap/koios-launch.py:381-396 | a journaled stage is never rebuilt, and its file still holds the journaled transaction |
| Launch.Launcher.Submit | infra/bootstrap/koios-launch.py:97-111 | what is sent is the journaled transaction, answer or not |
| Launch.Launcher.SendStage | infra/bootstrap/koios-launch.py:403-417 | when done, the journaled transaction was submitted, and for a stage with a budget what this very transaction measures now is within the budget of its receipt |
| Launch.Launcher.RunStage | infra/bootstrap/koios-launch.py:399-420 | a stage finishes only once seen with two confirmations |
| Launch.Launcher.LaunchLocked | infra/bootstrap/koios-launch.py:595-764 | one launch, dying at any effect, logged from disk to disk: what was done stays safe, the journal only gains, the files of signed stages stay; and in a smooth world, with those files and each signed transaction within the budget of its own receipt, it ends in `Done` |
| Launch.Launches | infra/bootstrap/koios-launch.py:584-764 | any number of launches, each killed anywhere, files changed in between: the trace logs each of them from the disk the one before left, and what was done stays safe |
| Launch.Resumption | infra/bootstrap/koios-launch.py:381-420 | no crash leaves the launch stuck: whatever launches were killed or failed before, with untouched files the next one ends in `Done` when from then on nothing dies, builds and checks succeed, submissions are not lost, two confirmations are seen within the polls, the contract hashes are those in the journal, each signed transaction stays within the budget of its own receipt, and a stage still to be built settles within its four rounds and then stays within what it was assigned |
| Launch.MintMayCostMore | infra/bootstrap/koios-launch.py:403-412 | those hypotheses hold for a launch killed between signing the mint and sending it, the mint costing more steps and memory than the registration was ever assigned: no stage is measured by the budget of another |
| Launch.Launcher.BuildOnce | infra/bootstrap/koios-launch.py:329-378 | when it answers, the stage's file is the transaction built with the amount and budget given; it may also raise after that file was written over; no other file is touched |
| Launch.Launcher.BuildEvaluated | infra/bootstrap/koios-launch.py:262-288 | at most four rounds, each built with a quarter of headroom over what the round before measured: the file and the receipt left are what the first round that measured no more than it was assigned built and assigned; and when nothing dies and the builder's commands succeed, it answers exactly when one of the rounds does so within the network limits |
| Launch.OneTransactionPerStage | infra/bootstrap/koios-launch.py:381-420 | over all of them at most one transaction per stage is ever submitted |
| Launch.JournaledFirst | infra/bootstrap/koios-launch.py:383-388 | it was journaled before it was submitted |
| Launch.ConfirmedFirst | infra/bootstrap/koios-launch.py:683-750 | a stage is submitted only after the stage before it was seen with at least two confirmations |
| Launch.LockedAsSigned | infra/bootstrap/koios-launch.py:661-674 | every submitted transaction sends to the holder exactly what the journal says its stage locks, when the builder puts in the amount it is given |
| Launch.Launcher.FixHashes | infra/bootstrap/koios-launch.py:643-648 | script hashes are settled once: another set is an error, and a journal that has them keeps them |
| Launch.Launcher.FixLocked | infra/bootstrap/koios-launch.py:665-675 | an unsigned stage locks a ledger minimum asked for now, a signed one what it locked before |
| LaunchFee.ConvergeFee | infra/bootstrap/koios-launch.py:330-370 | the fee loop answers exactly when there are inputs, no output is below its minimum, and one of six tries is final and covered before the change is too small; then inputs and outputs balance and the fee is what its own body needs plus the margin |

## Left out

- Replay.FreshChainNeverDuplicates: assumes that no output reference is created twice; that ledgers guarantee this is not proved here.
- Reorg.Follow: assumes distinct block hashes, blocks that apply, rollbacks that carry the block's own height and name a buffered block, and no block that spends a reference output of its own; `Duplicates.BlockThrowsIff`, `Reorg.RollbackLandsIff` and `Replay.RemembersReferenceIff` say when that is so.
- Projection.FollowProjects: assumes the same of hashes, rollbacks and reference outputs; that a block applies follows from the ledger accepting it.
- Ledger.IndexingCommutesWithLedger: the decoder is a parameter of the filter (any function from hex text); the NFT is held by at most one output; phase-2-failed transactions are not modelled, as `blockToDiff` reads only inputs and outputs.
- Ledger.PrimedAgreesWithReplayed: the db-sync rows are assumed to list exactly the outputs at each address.
- IndexerState: JavaScript's map insertion order, which an unwind does not restore, is not modelled.
- Runtime.Runtime.Loop: what a node may send is not constrained, so the clause speaks of the blocks that arrive; delays between attempts, status fields and logging are left out, and `stop()` is heeded at pending reads and sleeps.
- Datum.TryDecodeMixDatum: the stack limit of deeply nested input is not modelled.
- BoxValue.EncodeBoxValueCbor: policy and name that are not lowercase hex are an error, as the assertion says; the map keys of the encoding are bytes, not a general CBOR map.
- Address.ConvertBits: asks for widths of at most 32 bits together. The function is private to its file and only called with 8 and 5; beyond 32 bits the accumulator loses bits. Its shifts and ors are written as arithmetic on wrapped 32-bit integers (`Wrap32`), not on bit-vectors.
- Hex.HexToBytes: text is a sequence of characters; the program counts UTF-16 units, so a character outside the basic plane, never a digit, is two there and one here.
- Address.BuildScriptAddress: asks for network 0 or 1, the two values of the parameter's type.
- Bech32.BurstDetected: changes within six neighbouring symbols; BIP-173's guarantee for up to four changes anywhere in 90 symbols is not proved.
- SigmaOr.RustAcceptsIff: assumes that a point has one encoding and that whatever decompresses passes the library's own check before.
- SigmaOr.ProofAcceptedIff: curve arithmetic, hashing and nonce derivation are parameters; nothing is claimed about collisions, timing or how much a transcript reveals.
- Ownership.RegisterChainKeepsOwner: scalars outside [0, r) multiply as the group law says; `scalarMul` documents 0 <= k < r (`offchain/src/crypto/bls.ts:88-95`), and what the library does beyond is not part of this model.
- Ownership.CreatedRegisterOwner: the same.
- Ownership.EachSecretOpensOneBox: a mix is the permutation and re-randomisation of `gen-mix-kat.ts`; the transaction builder `tx/mix.ts`, the withdrawal transaction and the validators are not part of this model.
- Fanout.PlanFanout: width and depth are integers already; the linkage probability is left out.
- Orchestrator.SubmitFanout: what the builder answers is any result; that its outputs are the mix is not assumed. Progress texts are left out.
- Wallet.WalletChain.BuildOnly: the list `chainFrom.utxos` is given to the builder in its two parts, the slot's own and the in-flight change, and not appended to each other; the builder is any function of the two, so of the appended list as well, but the insertion order of the map is not captured.
- Wallet.ChainWalletUtxosAfterBuild: a parsed transaction is given; parsing its CBOR is the job of an outside library. Values are carried along unchanged.
- Wallet.WalletSpentOnce: transaction ids are assumed new, as hashes of the transaction body are.
- Launch.Launches: files are written whole or not at all; sweeping the wallet after the last stage and the contents of the address book are left out, and the checks of chain contents between stages are oracle answers.
- Launch.Resumption: what the chain and the evaluator answer is assumed, not derived: that a submitted transaction gets its two confirmations, and that a script cost within its assigned budget stays within it.
- Launch.Launcher.LaunchLocked: the same.
- LaunchFee.ConvergeFee: the minimum fee is any function of the fee and the change, the minima of the outputs any numbers.
- HTTP, WebSocket, database and command-line code, logging, redaction and configuration checks: plumbing and timing.
- `computeRefScriptFee` and `computeMinTxFee`: floating point, and easy once idealised.
