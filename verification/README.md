# PlainChain, verified

A Dafny model of PlainChain, a UTXO blockchain node with a light client and a wallet, and proofs of what
it promises. The node keeps a tree of blocks and one canonical chain in it; everything else it stores
(unspent outputs, undo records, and the height, transaction, anchor and address indexes) is derived from
that chain and maintained incrementally. The main results say that the incremental forms agree with the
simple ones over every run.

The parts, each in the files named:

- **Ledger and UTXO set** (`Ledger`, `Utxo`, `UtxoSet`, `Signing`): validity, applying, exactly when undoing restores, and
  that coins leave an address only as its owner signed.
- **Adoption** (`Store`, `Layers`, `Chain`, `Tree`, `AddressIndex`, `Connecting`, `Adoption`, `Replay`, `Fallback`,
  `Startup`, `Balances`): one batch that disconnects and connects leaves exactly the state rebuilt from genesis, or nothing
  changed; what the full rebuild leaves; indexes brought in line at start; histories that add up to balances.
- **Node** (`HeaderIndex`, `Branches`, `NodeState`, `Arrivals`, `IndexedPaths`, `Orphans`, `Looks`, `PoolUpkeep`, `Node`,
  `Stranding`, `Overwriting`, `Respelled`): handlers as steps of a state machine; invariants, termination, fork choice
  and checkpoint finality over every run.
- **Pool and mining** (`Pool`, `Mempool`, `Admission`, `Pending`, `Template`, `Mining`): replace-by-fee, capacity, block templates.
- **Consensus and light client** (`Consensus`, `BlockRules`, `HeaderChain`, `HeaderWalk`, `Weights`, `Seals`,
  `Authority`, `ForkSearch`, `Sync`).
- **Money and wallet** (`Monetary`, `Supply`, `Minting`, `Coins`, `Wallet`, `Bumping`).
- **Codecs** (`Numbers`, `Bits`, `Checksum`, `Bech32`, `Addresses`, `Merkle`, `Spelling`, `Commitments`, `Vectors`).

## Reading the model

Handlers run under the chain lock, so each is one atomic step. Hashing, signing and verification are the
fields of a `Crypto` value about which nothing is assumed, except where a statement says so. Clocks,
sealing and peers' replies are parameters. Amounts are unbounded integers, as the source's big integers
are, and heights are integers; where the source works on 32-bit words the wraparound is written out.

The node's standing assumptions, `HashesBind` and `IdsBind`, are about what reaches it, and hold for all of it. Headers are
bound by their hashes, and a block names the hash of its header, as the wire decoder checks; its body may be anything. Ids
bind a transaction up to how its outputs are divided, and roots bind lists of honest, distinct ids: for outputs to any
address whatever, `Commitments.ShapesBindFromHash` and `Commitments.RootsBindFromHash` derive both from a digest without
collisions. And no single branch has one coinbase twice: nothing in the source establishes this, and
`Utxo.RepeatedCoinbaseClobbers` shows what goes wrong without it. `Minting.PlainAssumes` and `Respelled.SmallAssumes` give
instances of all of them, the second with a digest (`Respelled.SmallComputes`, `Respelled.SmallNoCollision`).

One more premise stands on the handlers alone, not on what may arrive. The hashed text joins addresses unescaped, so an
address such as `x:1,y` makes one output read as two. A body that divides a committed one differently has the same ids, root
and hash: it respells it. A handler's contract covers every block but one that it would keep and that respells a block it
keeps already (`Node.RespellsNothing`, over the store and the queue). What storing such a block does is stated by
`Overwriting.StoringKeepsExact`; where addresses are plain there is none (`Commitments.PlainIsOneSpelling`).

An exception is a result: `Fault` for the block being judged, and `thrown` where it leaves a handler.

Where the code and its own comments disagree, the model follows the code:

- The block rules add the coinbase's own fee to the fees it may pay out, so supply can exceed the schedule
  (`Minting.SupplyCanPassTheSchedule`); it cannot exactly when those fees are zero (`Supply.CoinbaseFeeDecides` for blocks,
  `Supply.ChainFeesDecide` for chains).
- The closed form of the emission ignores the tail of a never-halving policy (`Monetary.CumulativeEmission`).
- The next halving height is missed at genesis under one-block eras (`Monetary.NextHalvingExact`).
- The maximum supply is also undefined for a never-halving policy that mints nothing (`Monetary.UndefinedYetBounded`).
- A fee bump takes the increase from the last output to the sender, which is the payment itself exactly when there is no
  change (`Wallet.BumpKeepsPayment`, `Wallet.SelfPaymentShrinks`).
- A block of height below 1 with a known parent raises an error on the reward lookup and is not rejected
  (`Arrivals.FaultExactly`). While waiting blocks are looked at again this strands the ones after it: their hashes stay
  known as waiting and no group holds them (`Looks.StrandsExactly`, `Stranding.StrandingRun`).
- A block is rejected under the hash of its header even when only its body is bad, so after an altered copy the honest
  block is turned away (`Arrivals.AlteredCopyJudged`, `Arrivals.MarksDecide`).
- Ids are meant to name one transaction, but a respelled body shares them. A block the node sealed itself is not marked as
  processed, so a respelled copy of it is accepted and written over it, and the unspent outputs, undo records and indexes
  then belong to a body that is no longer stored (`Respelled.RespelledCopyBreaksStore`, `Overwriting.StoringKeepsExact`).
- The indexes are promised to be safe under reorganisation, but the full rebuild taken when an undo record is missing
  writes over them without clearing: entries of abandoned blocks stay (`Fallback.TwinStaysFound`); they are exact if and
  only if the old entries all recur (`Fallback.RebuiltExactly`).
- Narrowing the address index reads heights back from keys by splitting at colons, which goes wrong for addresses that
  contain one (`Startup.ColonStays`); it is exact under the condition of `Startup.SweepExactly`.

## Model

| member | source | states |
|---|---|---|
| `Ledger.ValidateTransactionStructure` | src/ledger/transaction.ts:80-118 | Accepts exactly the transactions with an honest id, some output, positive amounts, a non-negative fee, bounded well-formed data and no outpoint named twice; the set of seen outpoints finds every repeat. |
| `Ledger.DataExactly` | src/ledger/transaction.ts:80-118 | Recorded data is one to eighty bytes of lower-case hexadecimal. |
| `Utxo.ApplyTxAt` | src/state/utxoSet.ts:251-281 | What applying a transaction makes of any outpoint: its own outputs appear with height and coinbase mark, its inputs vanish, everything else is untouched. |
| `Utxo.UndoReversesApply` | src/state/utxoSet.ts:283-292 | Undoing a transaction restores the old set if and only if it overwrote no unspent outpoint that it did not itself spend. |
| `Utxo.UndoAllReverses` | src/state/utxoSet.ts:251-292 | Undoing a whole run last-first restores the set it started from if and only if no outpoint present at the start is first touched by a creation. |
| `Utxo.SpentStaysSpent` | src/state/utxoSet.ts:251-281 | On a branch whose ids are distinct, an outpoint once spent never becomes unspent again. |
| `Utxo.CoinbasesDecideIds` | src/state/utxoSet.ts:162-219 | In every valid run whose ids bind what is spent, distinct coinbase ids make all ids distinct: a repeat would have to spend again what is already spent. |
| `Utxo.DistinctIdsNeverClobber` | src/state/utxoSet.ts:251-292 | With distinct ids on a branch, every suffix of it can be undone exactly. |
| `Utxo.RepeatedCoinbaseClobbers` | src/state/utxoSet.ts:251-292 | Without distinct ids undo can fail: a repeated coinbase, applied and undone, leaves the earlier one missing. |
| `UtxoSets.Db.CommitAtomic` | src/state/db.ts:18-21 | A batch takes the state to the one its operations give in order, the last write to a key winning. |
| `UtxoSets.UtxoSet.BeginStaging` | src/state/utxoSet.ts:95-98 | Opens a buffer unless one is open; reads then see the stored set, or nothing when the base is masked. |
| `UtxoSets.UtxoSet.DiscardStaging` | src/state/utxoSet.ts:100-103 | Reads see the stored set again. |
| `UtxoSets.UtxoSet.TakeStagedOps` | src/state/utxoSet.ts:105-124 | The drained operations turn the stored set into exactly the one staged reads saw, also when the base was masked. |
| `UtxoSets.UtxoSet.GetEntry` | src/state/utxoSet.ts:131-160 | A read sees the staged write, a staged delete, or the stored entry, in that order. |
| `UtxoSets.UtxoSet.Write` | src/state/utxoSet.ts:141-149 | Writes reach the buffer when one is open and the store otherwise; either way the view changes by exactly those writes. |
| `UtxoSets.UtxoSet.ValidateTransaction` | src/state/utxoSet.ts:162-219 | Accepts exactly the transactions that are well-formed and, unless coinbases, spend only unspent, mature outputs of their signers with outputs plus fee covered. |
| `Signing.PayloadDecides` | src/ledger/transaction.ts:27-40 | Two transactions are signed alike if and only if they agree in outpoints, outputs, time, fee and record. |
| `Signing.SigningTextDecides` | src/ledger/transaction.ts:27-40 | Their signed texts are equal if and only if they agree in all of that but how the outputs are divided. |
| `Signing.SampleTexts` | src/ledger/transaction.ts:16-62 | Both joined texts of a small transaction. |
| `Signing.LeavesOnlySigned` | src/state/utxoSet.ts:162-219 | Over every valid run, an output to an address whose keys have signed only certain payloads is gone only if a later transaction spends, pays and records exactly what one of these says. |
| `Signing.CoinbaseRests` | src/state/utxoSet.ts:162-219 | Over every valid run a coinbase is spent only after as many blocks as maturity asks for. |
| `UtxoSets.UtxoSet.ApplyTransaction` | src/state/utxoSet.ts:251-281 | Refuses exactly the invalid transactions, leaving the view alone; otherwise the view is the applied one and the record is what undoing it needs. |
| `UtxoSets.UtxoSet.UndoTransaction` | src/state/utxoSet.ts:283-292 | The view becomes the one without the created outputs and with the spent entries back. |
| `Layers.WindowPush` | src/node/node.ts:1728-1743 | Adding a newest layer and dropping the one that leaves the window gives the window over the longer stack. |
| `Layers.WindowPop` | src/node/node.ts:1756-1765 | Removing the newest layer and restoring the one that re-enters gives the window over the shorter stack. |
| `Chain.ConnectStep` | src/node/node.ts:1712-1745 | Connecting a block takes the undo store, the transaction, anchor and windowed address indexes of a chain to those of the chain with it. |
| `Chain.DisconnectStep` | src/node/node.ts:1747-1766 | Disconnecting the top block takes each of them back to those of the chain without it, restoring the block that re-enters the address window. |
| `Chain.ReplayPush` | src/node/node.ts:1782-1786 | Replaying one more block is applying it to what the chain below it left. |
| `Chain.UndoPops` | src/node/node.ts:1747-1766 | The undo record of a top block takes the replayed set back to that of the chain below it. |
| `Chain.TxLayersDisjoint` | src/node/node.ts:1721-1727 | On a chain with distinct ids no two blocks write the same transaction-index entry. |
| `Tree.ChainPrefix` | src/node/node.ts:1685-1704 | Every block of a stored chain is stored, and its own chain is the part below it. |
| `Tree.ChainStable` | src/node/node.ts:1398-1405 | Storing more blocks changes no chain. |
| `Tree.PlanReorg` | src/node/node.ts:1677-1705 | The plan names the exact fork: the blocks above it on the old chain tip-first, and those on the new chain fork-first. |
| `AddressIndex.AddressActivityOf` | src/node/node.ts:655-670 | Per address, exactly what the transaction paid to it and spent from it, for exactly the addresses it touches. |
| `AddressIndex.AddressIndexOps` | src/node/node.ts:672-684 | The operations add, or remove, exactly the address entries of one block; what these hold is `Balances.EntryExactly`. |
| `Connecting.ApplyBlock` | src/node/node.ts:1712-1720 | Succeeds exactly when every transaction of the block is valid in turn; the staged set is then the applied one and the records are its undo data. |
| `Connecting.UndoBlock` | src/node/node.ts:1747-1752 | Undoes the transactions of a block last-first. |
| `Connecting.ConnectBlock` | src/node/node.ts:1712-1745 | Fails exactly when the block does not apply, and otherwise extends the batch by every index change of connecting it, including pruning a block connected earlier in the same batch. |
| `Connecting.DisconnectBlock` | src/node/node.ts:1747-1766 | Extends the batch by every index change of disconnecting the block and stages the set without it. |
| `Adoption.ConsistentFinds` | src/node/node.ts:1601-1604 | In a consistent store every canonical block has its undo record, so the full-replay fallback is never taken. |
| `Adoption.DisconnectAll` | src/node/node.ts:1606-1608 | Disconnecting the old branch tip-first leaves the set and the indexes of the chain up to the fork. |
| `Adoption.ConnectAll` | src/node/node.ts:1609-1614 | Connecting the new branch fork-first succeeds exactly when the new chain replays and then stands for all of it. |
| `Adoption.ClearCanonicalHashesAbove` | src/state/chainState.ts:319-325 | Removes exactly the height entries above the new tip, as a heavier but shorter chain needs. |
| `Adoption.AdoptBlock` | src/node/node.ts:1580-1628 | Succeeds if and only if the new chain replays from genesis; the whole state (UTXO set, undo store, heights, tip, transaction, anchor and address indexes) is then exactly the one rebuilt for that chain, and otherwise nothing has changed; the connected and disconnected blocks are those beyond the exact fork. |
| `Balances.EntryExactly` | src/node/node.ts:672-684 | The address index entry by entry: which there are, at which heights, and that each names its block and the time of its transaction, what the address received and what it sent. |
| `Balances.HistoryAddsUp` | src/node/node.ts:655-684 | Over every chain, what an address received less what it sent is the sum of its unspent outputs. |
| `Balances.BalanceIsOwned` | src/node/node.ts:1712-1766 | In every state of every node that keeps the whole index, the entries of an address add up to what it owns in the UTXO set. |
| `Balances.AnchorsExactly` | src/node/node.ts:1721-1727 | The record index holds exactly the records that transactions of the chain carry, with the hash and time of their block. |
| `Replay.ReplayChainTo` | src/node/node.ts:1768-1787 | The full rebuild fails exactly when the chain to the new head does not replay; otherwise it stages exactly the set of the chain and collects, over the operations already there, exactly the undo records, heights, transaction, anchor and windowed address entries of every block, genesis included. |
| `Replay.ConnectChain` | src/node/node.ts:1782-1786 | The loop over the blocks: fails exactly when the chain does not replay, and prunes blocks it connected itself. |
| `Replay.AdoptByReplay` | src/node/node.ts:1600-1628 | Adoption by the fallback: all of that is committed with the new tip, or nothing is. |
| `Fallback.RebuiltExactly` | src/node/node.ts:1600-1628 | On a store that is exact but for undo records the fallback leaves the same blocks, unspent outputs, heights, tip and records as the incremental adoption; each index is that of the new chain if and only if every entry of the old chain recurs on the new one. |
| `Fallback.AbandonedStaysFound` | src/node/node.ts:1721-1727 | A transaction that only abandoned blocks carry is still found in the index, in its abandoned block. |
| `Fallback.TwinStaysFound` | src/node/node.ts:1600-1604 | The instance: for any two blocks on one genesis with coinbases of their own, moving from one whose record is missing to the other. |
| `Utxo.Provenance` | src/state/utxoSet.ts:251-281 | Every unspent entry has the owner and amount that some transaction of the run gave it. |
| `Startup.FoundIsRecorded` | src/node/node.ts:756-763 | What a transaction of the chain spent, looked up through the transaction index, gives the same totals per address as its undo record. |
| `Startup.BackfillTxIndex` | src/node/node.ts:640-652 | The transaction index is then exactly that of the canonical chain. |
| `Startup.BackfillAddressIndex` | src/node/node.ts:749-770 | Adds exactly the entries of the given heights, as connecting those blocks would have. |
| `Startup.KeysDiffer` | src/state/chainState.ts:328-330 | Keys tell address entries apart, for addresses of any characters. |
| `Startup.SweepExactly` | src/state/chainState.ts:198-202 | Sweeping below a height leaves exactly the entries from it on if and only if every address with a colon has its second piece on the same side as the height. |
| `Startup.ColonStays` | src/state/chainState.ts:198-202 | The instance: an entry of the address `x:y` is never swept. |
| `Startup.SweepAddressIndexBelow` | src/node/node.ts:733-746 | Deletes, in bounded batches, exactly the entries whose key reads as below the height. |
| `Startup.ReconcileAddressIndex` | src/node/node.ts:707-730 | From any depth the index was last kept with, or none, to any configured one: the index is then that of the chain, except that a tighter depth leaves it so if and only if those pieces agree. |
| `Startup.PrepareIndexes` | src/node/node.ts:442-443 | After both steps the store is the one of its canonical chain, undo records aside, under exactly that condition. |
| `Consensus.RetargetIsBounded` | src/consensus/difficulty.ts:12-35 | One adjustment is bounded by the factor in both directions, up to the fixed-point rounding of its reciprocal, and a perfectly timed period leaves the target alone. |
| `Consensus.RetargetIsMonotone` | src/consensus/difficulty.ts:17-35 | A longer period never gives a harder target. |
| `Consensus.RetargetScales` | src/consensus/difficulty.ts:17-35 | Within the clamp the new target is the old one times actual over intended time span, rounded down by less than one plus a millionth of the old target. |
| `Consensus.RetargetStops` | src/consensus/difficulty.ts:20-22 | Outside the clamp only the side counts. |
| `Consensus.RoundNearest` | src/consensus/difficulty.ts:24-28 | Rounding is to the nearest, and half way up. |
| `Weights.TargetsFollow` | src/consensus/difficulty.ts:53-73 | In every verified chain each header has the target before it, except at multiples of the interval under proof of work: there it is scaled by the time the last interval gaps took, or since genesis for the first period. |
| `Weights.OnTimeKeepsTarget` | src/consensus/difficulty.ts:42-56 | A verified chain that comes exactly on time keeps the target of its genesis, from the first period on. |
| `Consensus.WorkPositive` | src/consensus/forkChoice.ts:6-9 | Every block with a 256-bit target adds work, under both engines. |
| `Consensus.WorkIsQuotient` | src/consensus/forkChoice.ts:6-9 | The work of a target is the whole number of times that the target plus one goes into 2^256. |
| `Consensus.LowerTargetWeighsMore` | src/consensus/forkChoice.ts:6-9 | A lower target never weighs less, and one at most half as large weighs at least twice as much. |
| `Consensus.TurnDecidesWork` | src/consensus/engine.ts:150-152 | The authority at position height modulo n seals a block of weight 2, any other one of weight 1. |
| `Weights.HarderTipWins` | src/consensus/forkChoice.ts:11-18 | Of two chains of one length, targets nowhere higher and the last at most half as large: the harder chain is the better one, and not the other way round. |
| `Weights.AuthorityWork` | src/consensus/engine.ts:150-152 | Under proof of authority a chain weighs its length plus the number of blocks sealed in turn. |
| `Weights.ScheduledSiblingWins` | src/node/node.ts:1406-1409 | In the index of every node the scheduled one of two children of a block outweighs the other. |
| `Consensus.ValidateHeader` | src/consensus/blockValidator.ts:65-93 | Valid exactly when hash, target and seal are right, the header continues its parent in place and in time, and it meets a checkpoint at its height; a conflict with a checkpoint, or a timestamp from the future, is only ever reported when everything else is in order. |
| `Seals.WorkSealExactly` | src/consensus/engine.ts:60-63 | Under proof of work a header in order otherwise is refused for its seal if and only if its hash exceeds its target. |
| `Seals.AuthoritySealExactly` | src/consensus/engine.ts:139-149 | Under proof of authority it is refused if and only if no authority has signed the hash without the signature, or the one that has is among the last floor(n/2) signers. |
| `Seals.MinedThroughout` | src/wallet/spv.ts:68-105 | In every verified chain under proof of work the hash of each header above genesis does not exceed its target. |
| `BlockRules.CheckTransactions` | src/consensus/blockValidator.ts:145-166 | One pass with two sets accepts exactly the lists of well-formed transactions in which no id repeats and no outpoint is spent twice, and totals their fees. |
| `BlockRules.ValidateBlock` | src/consensus/blockValidator.ts:102-177 | Accepts exactly the blocks whose header is valid and whose body is: coinbase first and alone, within count and size, matching Merkle root, separate transactions, coinbase within reward plus all fees. |
| `BlockRules.SoundExactly` | src/consensus/blockValidator.ts:113-177 | The body rules pair by pair: one coinbase and it comes first, within count and size, no id and no outpoint twice, coinbase within reward plus all fees. |
| `HeaderChain.VerifyFrom` | src/wallet/spv.ts:68-105 | Accepts exactly when every header from the given position on passes the header rules. |
| `HeaderChain.ChainWorkOf` | src/wallet/spv.ts:55-60 | The total of the block weights. |
| `HeaderChain.VerifyHeaderChain` | src/wallet/spv.ts:107-120 | Accepts exactly the verified chains and reports their height and work. |
| `HeaderChain.VerifiedLinks` | src/wallet/spv.ts:68-120 | A verified chain starts at the trusted genesis; every header is the child of the one before by hash and height, has the hash it claims, and comes later but not from the future. |
| `HeaderChain.ExtendHeaderChain` | src/wallet/spv.ts:128-137 | Accepts exactly the additions that make a verified chain with the prefix, and reports its work. |
| `HeaderChain.AcceptanceIsLocal` | src/wallet/spv.ts:68-105 | Whether a header is accepted depends on nothing after it. |
| `HeaderChain.ExtendingIsVerifying` | src/wallet/spv.ts:122-137 | Extending a verified prefix is accepted exactly when verifying the whole chain is. |
| `HeaderWalk.ExpectedTargetFor` | src/node/node.ts:1110-1132 | The loop over previous hashes computes the target of the walk, or fails when an ancestor is missing. |
| `HeaderWalk.RecentSignersFor` | src/node/node.ts:1139-1148 | The loop collects the signers the walk meets, newest first. |
| `HeaderWalk.TargetsAgree` | src/node/node.ts:1110-1132 | On every verified chain the walk over previous hashes and the lookup by array position give the same expected target. |
| `HeaderWalk.SignersAgree` | src/node/node.ts:1139-1148 | On every verified chain they give the same recent signers. |
| `Authority.WindowSignersDistinct` | src/consensus/engine.ts:131-148 | In every verified proof-of-authority chain, any floor(n/2)+1 consecutive blocks have distinct signers, n being the number of authorities. |
| `Authority.MinorityRunIsShort` | src/consensus/engine.ts:131-148 | So a group of at most floor(n/2) authorities never produces more consecutive blocks than it has members. |
| `Seals.RefusedExactly` | src/consensus/engine.ts:143-146 | A properly signed header that continues a chain is refused if and only if its signer signed one of the last floor(n/2) headers. |
| `ForkSearch.BackOff` | src/wallet/spv.ts:194-204 | The doubling steps bracket the fork within the distance they have reached. |
| `ForkSearch.Bisect` | src/wallet/spv.ts:205-214 | The bisection halves the bracket until it names the highest agreement. |
| `ForkSearch.FindFork` | src/wallet/spv.ts:182-216 | Against an honest source the result is the exact highest height of agreement; against any source at most 2 log2(n) + 1 probes are made. |
| `Sync.FetchFrom` | src/wallet/spv.ts:244-252 | From an honest source, all headers from the height on, as long as the probe budget lasts. |
| `Sync.SyncHeaders` | src/wallet/spv.ts:172-242 | For every sequence of replies the outcome is a failure or a chain verified from the trusted genesis with at least the stored work, strictly more if any stored header is discarded; against an honest node it is exact. |
| `Sync.DecidedIsSafe` | src/wallet/spv.ts:217-242 | Splicing a verified branch at the fork and keeping the heavier chain is safe. |
| `Merkle.MerkleRoot` | src/crypto/merkle.ts:3-26 | The level-by-level loop computes the root of the tree. |
| `Merkle.FewLeaves` | src/crypto/merkle.ts:3-26 | The roots of one, two and three leaves: pairs left to right, the odd one with itself. |
| `Merkle.MerkleProof` | src/crypto/merkle.ts:43-62 | The loop collects the sibling of the leaf at every level. |
| `Merkle.VerifyMerkleProof` | src/crypto/merkle.ts:67-77 | Accepts exactly the well-formed proofs that fold to the root. |
| `Merkle.HeightIsCeilLog2` | src/crypto/merkle.ts:36-62 | The tree over n leaves is ceil(log2 n) high. |
| `Merkle.ProofVerifies` | src/crypto/merkle.ts:36-77 | For every list and index the generated proof verifies and is as long as the tree is high. |
| `Merkle.VerifiedIsMember` | src/crypto/merkle.ts:67-77 | A verifying proof of the tree height shows a leaf of the list, or exhibits a hash collision. |
| `Merkle.RootBinds` | src/crypto/merkle.ts:3-26 | Two duplicate-free lists of equal tree height with one root are equal, or their trees exhibit a collision. |
| `Merkle.RootBindsLeaves` | src/crypto/merkle.ts:3-26 | When the leaves are digests of texts that do not read like two digests side by side, the root binds duplicate-free lists of any two lengths, or a collision is exhibited. |
| `Merkle.RootDoesNotBind` | src/crypto/merkle.ts:3-26 | Neither condition can be dropped: a repeated last leaf, or the next level as leaves, keeps the root for every hash. |
| `Commitments.RootsBindFromHash` | src/ledger/transaction.ts:46-66 | So one root commits to one list of transaction ids, given only that the texts hashed for blocks do not collide: what the node assumes of roots is derived. |
| `Spelling.TextDecides` | src/ledger/transaction.ts:46-62 | Two transactions have one hashed text if and only if they agree in inputs, time, fee and record and their outputs have one text, for addresses of any characters. |
| `Spelling.OnlySpellingExactly` | src/ledger/transaction.ts:16-18 | A list of outputs is the only one with its text if and only if it has at most one output and its address does not read as the end of one output and the start of another. |
| `Spelling.PlainForm` | src/ledger/transaction.ts:16-18 | Every text of outputs is that of a list of plain addresses, ones that do not read as two. |
| `Spelling.PlainTextDecides` | src/ledger/transaction.ts:46-62 | Between transactions to plain addresses the text decides everything. |
| `Spelling.OnlyBodyExactly` | src/ledger/transaction.ts:46-62 | A whole transaction is the only one with its text exactly under that same condition on its outputs. |
| `Commitments.ShapesBindFromHash` | src/ledger/transaction.ts:46-66 | So an id binds everything but how the outputs are divided, given only that the texts hashed for blocks do not collide: what the node assumes of ids is derived. |
| `Commitments.CommittedExactly` | src/consensus/blockValidator.ts:141-166 | A header that commits to one body commits to exactly the bodies with the same ids and texts. |
| `Commitments.OneBlock` | src/network/wireShapes.ts:75-83 | Of the bodies that may come under one header, at most one to plain addresses is committed to by it. |
| `Commitments.PlainIsOneSpelling` | src/network/wireShapes.ts:60-65 | So where all committed bodies pay plain addresses no block respells another. |
| `Commitments.AnyBodyMayCome` | src/network/wireShapes.ts:75-83 | Any body may come under a known header without breaking a standing assumption; it respells the known block if and only if it differs from it and has its texts. |
| `Bits.ConvertBits` | src/ledger/address.ts:68-87 | The 32-bit accumulator loop regroups exactly: the groups spell the same number despite wraparound, and an unpadded result is refused exactly when a whole group or non-zero bits are left over. |
| `Bits.RegroupThereAndBack` | src/ledger/address.ts:68-87 | Padding into narrower groups and regrouping back is the identity on every list. |
| `Bits.RegroupBackAndThere` | src/ledger/address.ts:68-87 | What the unpadded direction accepts is exactly what the padded direction produces. |
| `Checksum.PolymodOf` | src/ledger/address.ts:23-33 | The nested loops compute the checksum register fed one symbol at a time. |
| `Checksum.BurstDetected` | src/ledger/address.ts:23-33 | Changing any of six consecutive symbols, anywhere in a list of any length, changes the register; in particular one symbol. |
| `Checksum.ChecksumUnique` | src/ledger/address.ts:44-64 | Exactly one list of six symbols completes a given list to a valid one. |
| `Bech32.ExpandOf` | src/ledger/address.ts:35-41 | The two loops compute the expanded prefix. |
| `Bech32.Bech32mEncode` | src/ledger/address.ts:44-50 | Prefix, separator, data and the one valid checksum, spelled out. |
| `Bech32.Bech32mDecode` | src/ledger/address.ts:52-66 | Gives the prefix and data, or the first of the errors for mixed case, shape, characters and checksum. |
| `Bech32.DecodeUndoesEncode` | src/ledger/address.ts:44-66 | For all 5-bit data, decoding undoes encoding if and only if the prefix is non-empty and without capitals. |
| `Bech32.DecodedIsEncoded` | src/ledger/address.ts:44-66 | Whatever decodes is the encoding of its parts, up to letter case. |
| `Vectors.DecodesExactly` | src/ledger/address.ts:52-66 | A string decodes to a prefix and data if and only if it is their encoding, in lower case or all in capitals. |
| `Bech32.BurstRefused` | src/ledger/address.ts:52-66 | A valid string with characters changed within six consecutive places after the separator fails its checksum, at any length. |
| `Vectors.KnownString` | tests/ledger/addressCodec.test.ts:57-62 | The string of BIP-350 for the prefix `a` without data is encoded and decoded. |
| `Vectors.Alphabet` | src/ledger/address.ts:19-19 | The 32 characters stand for 0 to 31 in the order of BIP-173. |
| `Addresses.AddressRoundTrip` | src/ledger/address.ts:91-103 | Every raw address survives the trip through its checksummed form. |
| `Addresses.AddressIsCanonical` | src/ledger/address.ts:91-103 | An accepted address is the one checksummed form of what it decodes to, up to letter case. |
| `Vectors.AddressDecodesExactly` | src/ledger/address.ts:97-103 | The same of addresses and raw digits. |
| `Vectors.AddressSpells` | src/ledger/address.ts:91-95 | An address is `l11`, 52 symbols that spell its 64 hexadecimal digits times 16 as one number, and the checksum. |
| `Monetary.CumulativeEmission` | src/consensus/monetary.ts:65-77 | The per-era loop equals the sum of the block rewards if and only if there is no block yet, rewards halve, or the tail does not exceed the initial reward. |
| `Monetary.MaxSupply` | src/consensus/monetary.ts:79-92 | Undefined exactly for policies without halving or with a tail; otherwise the least upper bound of all coins: never passed, some time reached. |
| `Monetary.EmissionUnbounded` | src/consensus/monetary.ts:79-92 | Where it is undefined and anything is paid at all, emission passes every bound. |
| `Monetary.UndefinedYetBounded` | src/consensus/monetary.ts:79-92 | Undefined although emission has a maximum: exactly for a never-halving policy whose reward and tail are both zero. |
| `Monetary.NextHalvingExact` | src/consensus/monetary.ts:94-99 | The reported height is the next change of the reward, or none if there is none, except exactly at genesis under one-block eras whose reward still falls. |
| `Monetary.RewardSettles` | src/consensus/monetary.ts:53-57 | A reward that stays the same over one era boundary stays the same for ever. |
| `Monetary.RewardHalves` | src/consensus/monetary.ts:53-63 | The schedule by heights: the initial reward before the first interval, and one interval later half as much, rounded down, but never below the tail. |
| `Supply.ApplyConserves` | src/state/utxoSet.ts:251-281 | Applying a transaction moves exactly its inputs to its outputs; the only coins lost are the entries it overwrites. |
| `Supply.BlockTotal` | src/consensus/blockValidator.ts:145-176 | A valid block raises the total of unspent amounts by at most the reward plus its coinbase's own fee field. |
| `Supply.SupplyBound` | src/consensus/blockValidator.ts:132-176 | On every replaying chain the unspent total is at most the genesis allocation plus the block rewards plus the coinbases' own fee fields. |
| `Supply.ScheduleBoundsSupply` | src/consensus/monetary.ts:59-92 | When coinbases carry no fee, the schedule bounds the supply, and so does the maximum supply where it is defined. |
| `Supply.CoinbaseFeeDecides` | src/consensus/blockValidator.ts:145-176 | The block rules keep a coinbase within the reward and the other transactions' fees if and only if its own fee is zero. |
| `Supply.ChainFeesDecide` | src/consensus/blockValidator.ts:145-176 | Over whole chains: all lawful chains whose coinbases claim a given total fee keep to allocation and schedule if and only if that total is zero, for every choice of hashes that tells two coinbases apart. |
| `NodeState.SaneSupply` | src/node/node.ts:1580-1628 | In every state the node can be in, its unspent outputs obey that bound for its canonical chain. |
| `Minting.AcceptedCoinbaseMints` | src/consensus/blockValidator.ts:145-176 | From any sane store, an accepted block on the tip that holds only a coinbase replays and raises the supply by exactly what the coinbase pays, up to its own fee more than the reward. |
| `Minting.SupplyCanPassTheSchedule` | src/consensus/blockValidator.ts:145-176 | A fresh node, with hashes that meet every assumption, accepts and adopts a block after which more coins exist than allocation and schedule allow. |
| `Pool.ConflictsShare` | src/mempool/mempool.ts:74-79 | A pending transaction counts as a conflict exactly when it shares an outpoint with the new one. |
| `Pool.DroppingClaims` | src/mempool/mempool.ts:145-153 | Dropping transactions drops exactly the claims that name them. |
| `Mempools.ReplacementLeavesRoom` | src/mempool/mempool.ts:103-116 | After a replacement the pool is never full, so the capacity rejection cannot follow a displacement. |
| `Mempools.FeesRise` | src/mempool/mempool.ts:61-124 | With a positive minimum fee, every admission strictly raises the total fee of the pool. |
| `Mempools.ByFeeSorts` | src/mempool/mempool.ts:163-168 | The fee order is a permutation by falling fee that keeps the order of arrival among equals. |
| `Mempools.Mempool.Remove` | src/mempool/mempool.ts:145-153 | Takes exactly that transaction and its claims out; the claim map stays the inverse of the pending inputs. |
| `Mempools.Mempool.FindConflicts` | src/mempool/mempool.ts:74-88 | Finds exactly the pending transactions that share an outpoint, each once, with their number and combined fees. |
| `Mempools.Mempool.LowestFeeTransaction` | src/mempool/mempool.ts:126-134 | The first of those with the lowest fee. |
| `Mempools.Mempool.AddTransaction` | src/mempool/mempool.ts:61-124 | Admits exactly when the rules allow it; the pool is then the old one without the conflicts, or in a full pool without the lowest fee, plus the new one; a refusal changes nothing; no outpoint is shared, the claim map is exact and the size bounded throughout. |
| `Admission.AdmissibleExactly` | src/mempool/mempool.ts:61-124 | Admission in terms of shared outpoints: new, no coinbase, minimum fee, valid, few enough to displace, all of them paid for with the minimum besides, and in a full pool more than one of the others pays. |
| `Admission.RoomExactly` | src/mempool/mempool.ts:103-116 | What is displaced: all that share an outpoint, or in a full pool the first of those that pay least. |
| `Mempools.Mempool.GetTransactionsByFee` | src/mempool/mempool.ts:163-168 | As many as asked for or all there are, by falling fee; nothing left out pays more than anything returned, and of those paying the same the earliest are returned, in order of arrival. |
| `Pending.ExtensionKeepsPool` | src/node/node.ts:1653-1663 | Extending the chain keeps every pending transaction valid that spends nothing the block spent. |
| `Pending.PendingIsNew` | src/node/node.ts:1653-1663 | A valid pending transaction is not yet on the chain. |
| `Pending.MineableConnects` | src/node/node.ts:1083-1102 | A coinbase followed by valid, separate pending transactions connects to the chain it was made for. |
| `PoolUpkeep.SurvivorsStayValid` | src/node/node.ts:1653-1663 | What is left of the pool after a plain extension is valid in the next block. |
| `PoolUpkeep.UpdatePool` | src/node/node.ts:1653-1674 | Included and double-spent transactions leave, abandoned ones are offered again in order. |
| `Admission.SurvivesExactly` | src/node/node.ts:1653-1663 | A pending transaction survives connected blocks if and only if none of them carries it or spends what it spends. |
| `Admission.OfferedAgainExactly` | src/node/node.ts:1664-1674 | Offered again are exactly the transactions of abandoned blocks that are no coinbases and were not included. |
| `Admission.AllComeBack` | src/node/node.ts:1664-1674 | With room for all, everything offered again that is valid and in nobody's way comes back, in order. |
| `Templates.Select` | src/node/node.ts:1083-1093 | From the best fee down, exactly those that still fit by count and size, with distinct outpoints and their fees totalled. |
| `Templates.PickedFits` | src/node/node.ts:1083-1093 | What is picked fits together by count and size. |
| `Templates.LeftOutDoesNotFit` | src/node/node.ts:1083-1093 | What is left out no longer fits beside it. |
| `Templates.Trim` | src/node/node.ts:1094-1099 | Gives up as few of the last transactions as the measured size requires, with the coinbase recomputed. |
| `Templates.BuildBlockTemplate` | src/node/node.ts:1042-1102 | The template respects the count, draws separate transactions from the pool, and carries the coinbase and header for exactly them. |
| `Templates.TemplateHeader` | src/node/node.ts:1042-1082 | The header is the next on its parent, later than it and not before now, unsealed, with the root of its transactions. |
| `Templates.TemplatePaysExactly` | src/node/node.ts:1067-1070 | The coinbase pays exactly the reward plus the included fees and carries no fee of its own. |
| `Templates.TemplateIsSound` | src/node/node.ts:1042-1102 | A sealed template passes the body rules, given its size. |
| `Templates.TemplateConnects` | src/node/node.ts:1042-1102 | On the chain it was built for, a sealed template connects if and only if reward plus fees is positive. |
| `Mining.SealedTemplateConnects` | src/node/node.ts:996-1040 | Whatever other handlers did while it was sealed, a template met by the same tip connects if and only if reward plus fees is positive. |
| `Mining.SameTipSameChain` | src/node/node.ts:1025-1030 | The same tip in a store that only grew has the same chain below it. |
| `Mining.SealedBodyOk` | src/node/node.ts:1024-1024 | A sealed template is the body its header commits to, led by its only coinbase and within its reward. |
| `Mining.SealedPasses` | src/node/node.ts:1016-1030 | A template whose seal verifies passes every header rule in any later store with the same tip: the walks for target and signers find the same ancestors. |
| `Coins.SelectCoins` | src/wallet/txBuilder.ts:63-81 | The shortest prefix of the coins, largest first with ties by outpoint, that covers the target, if any does. |
| `Coins.SelectionOrder` | src/wallet/txBuilder.ts:56-71 | Chosen are the larger coins, of equal ones those with the lower id and then the lower position, in that order. |
| `Coins.SelectionIsFewest` | src/wallet/txBuilder.ts:56-81 | If any choice of coins covers the target the selection succeeds and has no more coins than that choice. |
| `Coins.SelectionIgnoresOrder` | src/wallet/txBuilder.ts:56-81 | Two wallets that see the same coins in any order choose the same ones. |
| `Wallet.BuildSigned` | src/wallet/txBuilder.ts:108-153 | Selection over owned mature coins, outputs with split change, and one signature on every input. |
| `Wallet.AssembledBalances` | src/wallet/txBuilder.ts:131-138 | Inputs equal outputs plus fee to the unit, payments come first unchanged, and every change piece is positive and goes back to the sender. |
| `Wallet.ChangeSplit` | src/wallet/txBuilder.ts:131-138 | Change is split into as many pieces as asked for, at least one and at most one per unit, equal but for the last, which has the remainder as well. |
| `Wallet.MatureExactly` | src/wallet/txBuilder.ts:51-54 | The wallet takes a coin for mature exactly when the next block may spend it. |
| `Wallet.BuiltIsValid` | src/wallet/txBuilder.ts:108-153 | Over coins that match the UTXO set, and with signing and verification agreeing, whatever is built is valid in the next block and balances. |
| `Wallet.BuiltUsesFewestInputs` | src/wallet/txBuilder.ts:108-153 | It succeeds whenever any choice of mature coins suffices, with no more inputs than that choice. |
| `Wallet.PaymentIsValid` | src/wallet/txBuilder.ts:88-94 | A payment pays the recipient in full and is valid in the next block. |
| `Wallet.AnchorIsValid` | src/wallet/txBuilder.ts:101-106 | An anchor carries its record, pays only its sender and is valid in the next block. |
| `Wallet.BumpConserves` | src/wallet/txBuilder.ts:169-197 | A bump keeps inputs, record and outputs plus fee; only the last output to the sender changes. |
| `Wallet.BumpKeepsPayment` | src/wallet/txBuilder.ts:163-197 | Bumping a payment leaves what the recipient gets alone if and only if the payment has change. |
| `Wallet.SelfPaymentShrinks` | src/wallet/txBuilder.ts:163-197 | Without change it shrinks: whoever pays their own address from one coin that leaves none gets the payment lowered by exactly the increase, for every key, amount and increase below it. |
| `Wallet.BumpIsValid` | src/wallet/txBuilder.ts:169-197 | Bumping a valid transaction gives a valid one. |
| `Bumping.BumpDisplacesOriginal` | src/mempool/mempool.ts:74-124 | A pool holding the original admits the bump exactly when the increase is at least the minimum fee, one replacement is allowed and the bump is new, and then loses the original and nothing else. |
| `HeaderIndex.WorkIsSum` | src/node/node.ts:1159-1193 | Every indexed header's work is the sum of the block weights along its ancestry. |
| `HeaderIndex.CollectUnindexed` | src/node/node.ts:1169-1186 | The walk back ends, at the nearest indexed ancestor or at genesis, with the work below the blocks it met. |
| `HeaderIndex.GetIndexedHeader` | src/node/node.ts:1165-1193 | Returns the entry of every stored or indexed hash, filling in missing ancestors so that all work stays exact, and changes nothing else. |
| `Branches.AncestorWork` | src/consensus/forkChoice.ts:6-18 | Along every stored branch work strictly grows. |
| `Branches.BranchIdsDistinct` | src/node/node.ts:1580-1628 | On every replaying branch no transaction id repeats, whatever addresses its outputs name. |
| `Branches.CommittedAlike` | src/network/wireShapes.ts:75-83 | All bodies a header commits to have the same transactions up to how their outputs are divided. |
| `Branches.CheckpointShared` | src/node/node.ts:1208-1217 | Every stored branch that reaches a verified checkpoint's height shares everything up to it, forks stored earlier included. |
| `Branches.RefreshVerifiedCheckpoint` | src/node/node.ts:1200-1206 | The highest checkpoint on the canonical chain, or -1. |
| `NodeState.FirstStateIsSane` | src/node/node.ts:433-443 | The store of a node that has seen only genesis satisfies every invariant. |
| `NodeState.SaneTree` | src/node/node.ts:1580-1628 | In every state of every run the UTXO set is the replayed canonical chain, the height index lists exactly it, and it ends in the tip. |
| `NodeState.SaneIds` | src/node/node.ts:1580-1628 | On the canonical chain no transaction id repeats. |
| `Signing.SpentByOwner` | src/node/node.ts:1580-1628 | Of every output the canonical chain ever carried: if it is gone, its owner signed what spent it. |
| `NodeState.CanonicalIsLighter` | src/node/node.ts:1406-1409 | A block at a canonical place weighs no more than the tip. |
| `NodeState.HeavierIsAbove` | src/node/node.ts:1213-1217 | A block that passes the checkpoint rule and outweighs the tip lies above the verified checkpoint. |
| `NodeState.AdoptionFollows` | src/node/node.ts:1580-1630 | Adopting a heavier block keeps everything up to the verified checkpoint and never lowers it. |
| `NodeState.RunsFollow` | src/node/node.ts:1345-1675 | Between any two moments of a run the tip changed only for strictly more work, and unless a locally sealed block sits at a checkpoint the verified height did not fall and the chain up to it did not change. Every valid node carries the run it has made (`Node.trace`), and every handler extends it. |
| `Arrivals.JudgeBlock` | src/node/node.ts:1345-1389 | The verdict on an arriving block, in the order of the rules. |
| `Arrivals.AcceptedFacts` | src/node/node.ts:1345-1389 | An accepted block that does not respell a stored one, whatever other bodies came under its header, attaches to the store, is a body its header commits to, keeps within its reward, meets a checkpoint at its height and does not conflict with a verified one. |
| `Arrivals.TargetExactly` | src/node/node.ts:1110-1132 | The target after a stored block can be computed unless that block is genesis and every block retargets. |
| `Arrivals.FaultExactly` | src/node/node.ts:1371-1384 | Judging a block raises if and only if it is undecided, its parent is stored and not rejected, no verified checkpoint rules it out, and its height is below 1 or its target cannot be computed. |
| `Arrivals.MarksDecide` | src/node/node.ts:1349-1355 | A block that would be accepted is turned away if and only if its own hash was marked before or its parent was rejected. |
| `Arrivals.AlteredCopyJudged` | src/node/node.ts:1385-1389 | Another body under the header of an acceptable block is accepted if and only if it respells that block and its coinbase and size keep within the rules; otherwise it is refused, and the mark it leaves on the hash they share then keeps the honest block out. |
| `Arrivals.EmptiedCopyShutsOut` | src/node/node.ts:1349-1349 | The instance: the same header with no transactions, under every choice of hashes. |
| `Overwriting.RecordsDecideBody` | src/state/utxoSet.ts:251-281 | Two bodies of one shape that leave the same undo records and the same unspent outputs are one body. |
| `Overwriting.DerivedDecides` | src/node/node.ts:1398-1398 | So two chains that differ in one body of the same shape never have one derived state. |
| `Overwriting.StoringKeepsExact` | src/node/node.ts:1398-1405 | Storing an accepted block keeps the whole state exact if and only if the block does not respell the canonical block of its height. |
| `Respelled.SomeCopyRespells` | src/ledger/transaction.ts:16-18 | Every block with a transaction of two outputs, or with an address that reads as two, has a respelling. |
| `Respelled.RespellingBreaks` | src/node/node.ts:1345-1405 | Every respelled copy of a canonical block the node has not marked, if it keeps within the rules, is accepted and leaves a store whose derived parts belong to the body it replaced. |
| `Respelled.ReplaysDiffer` | src/node/node.ts:1782-1786 | The instance: a block and its respelled copy, on one genesis, replay to different sets of unspent outputs. |
| `Respelled.RespelledCopyBreaksStore` | src/node/node.ts:1017-1033 | The instance as a run: hashes that meet every assumption, a node that has adopted the block as after sealing it, and the copy accepted afterwards. |
| `IndexedPaths.RulesHeldWith` | src/node/node.ts:1110-1157 | Making a passing header known keeps a verified chain behind every known hash. |
| `IndexedPaths.CanonicalVerifies` | src/node/node.ts:1345-1389 | The canonical chain of a valid node is one that the light client verifies. |
| `Seals.CanonicalMined` | src/node/node.ts:1345-1389 | So under proof of work every block above genesis on the node's chain has a hash that does not exceed its target. |
| `IndexedPaths.CanonicalSigners` | src/consensus/engine.ts:131-148 | So on the node's chain too a group of at most floor(n/2) authorities never produces more consecutive blocks than it has members. |
| `Orphans.QueueOrphan` | src/node/node.ts:1457-1477 | The block joins its parent's group once, past 50 the oldest group goes, and the hash set stays exactly the queued blocks, each under its own parent, and those out of the queue. |
| `Orphans.MarkedIsDependents` | src/node/node.ts:1449-1454 | A set that holds a hash, everything that left the queue and nothing unrelated is exactly the hash and what waits for it over any number of steps. |
| `Orphans.LessRoom` | src/node/node.ts:1465-1475 | Every hash that counts as waiting without being queued takes up one of the 50 places. |
| `Looks.LookFaults` | src/node/node.ts:1479-1488 | Looking again at a waiting block raises if and only if it is undecided, its height is below 1 and no verified checkpoint rules it out. |
| `Looks.StrandsExactly` | src/node/node.ts:1479-1488 | A resolution strands nothing if and only if no look that raised had other blocks out. |
| `Looks.HighBlocksAreSafe` | src/node/node.ts:1479-1488 | While every waiting block has height 1 or more, no look raises. |
| `Looks.OrderlyStrands` | src/node/node.ts:1479-1488 | Over the queue before the call: without checkpoints, and when nothing waits for the blocks of the group, nothing is stranded if and only if no undecided block of the group but the last is below height 1. |
| `Nodes.Node.constructor` | src/node/node.ts:416-443 | Started on any sane store, the node is valid, with an empty pool and queue, the highest reached checkpoint and a run of one entry. |
| `Nodes.Node.RejectBlock` | src/node/node.ts:1439-1455 | Terminates; exactly the block and what waits for it, directly or through other waiting blocks, is marked, and exactly the groups waiting for none of those stay queued, in order. |
| `Nodes.Node.Adopt` | src/node/node.ts:1580-1675 | Adopts exactly when the chain replays; store, checkpoint and pool then belong to the new chain, and a failure changes nothing. |
| `Nodes.Node.FollowTip` | src/node/node.ts:1628-1674 | After a tip change the checkpoint is the highest reached and the pool is the survivors plus what is admitted again; under plain extensions all of it is valid in the next block. |
| `Nodes.Node.StoreBlock` | src/node/node.ts:1391-1405 | Stores a block that respells none kept already and indexes it with exact work, without moving the tip. |
| `Nodes.Node.Choose` | src/node/node.ts:1406-1426 | Adopts a stored block exactly when it outweighs the tip and its chain replays; no processed, unrejected block outweighs the tip afterwards. |
| `Nodes.Node.Connect` | src/node/node.ts:1391-1426 | Storing and choosing together: a branch that replays is never left heavier than the tip, and a heavier one that does not replay is rejected with the chain unchanged. |
| `Nodes.Node.HandleIncomingBlock` | src/node/node.ts:1345-1431 | Terminates on every block with an honest header hash, whatever its body, unless it would be kept and respells one that is kept already. The verdict is the judged one; known and raising blocks change nothing, refused ones purge exactly their dependents, one without parent joins the queue, accepted ones go to fork choice; an exception adds exactly the hashes then out to those stranded. |
| `Nodes.Node.ReceiveBlock` | src/node/node.ts:1241-1244 | For a peer's block: nothing is stranded if and only if no look that raised had others out, in particular while nothing below height 1 waits. Without checkpoints this is decided by the queue before the call: when the first block of the connecting group is undecided and below height 1 the rest is stranded, and when nothing waits for the group nothing is stranded if and only if none of its undecided blocks but the last is below height 1. |
| `Stranding.StrandingRun` | src/node/node.ts:1479-1488 | A whole run of a fresh node in which it happens: two blocks wait for a third, the first claims height 0, the third arrives, and the hash of the second stays known as waiting with no group holding it. |
| `Nodes.Node.Accept` | src/node/node.ts:1391-1431 | An accepted block is stored, put to fork choice, and what waited for it is looked at again. |
| `Nodes.Node.ResolveOrphansOf` | src/node/node.ts:1479-1488 | Terminates and leaves no group for that parent. Every block of the group is decided afterwards unless a look raises, and then what was still out, here and in every enclosing resolution, is stranded; the first block is looked at first, in the state found. |
| `Nodes.Node.LookAgain` | src/node/node.ts:1484-1487 | The loop over the group: in order, up to the first that raises. |
| `Nodes.Node.TakeHeader` | src/node/node.ts:1513-1547 | Indexes a header exactly when it is known or passes every header rule after its predecessor. |
| `Nodes.Node.HandleHeaders` | src/node/node.ts:1499-1557 | The headers up to the first that does not pass are indexed with exact work, and nothing else is that was not stored; bodies are wanted exactly when all passed and the last outweighs the tip and is not stored, and more headers exactly when all passed and the message was full. |
| `Nodes.Node.TakeAll` | src/node/node.ts:1513-1547 | The loop: it stops at the first header that is neither known nor passes after its predecessor. |
| `Nodes.Node.SubmitTransaction` | src/node/node.ts:906-913 | The pool admits exactly what is admissible in the next block, and on plain extensions stays valid there. |
| `Nodes.Node.BlockTemplate` | src/node/node.ts:1042-1102 | The template is for the current tip, with its reward and target. |
| `Nodes.Node.AdoptSealed` | src/node/node.ts:1025-1037 | A sealed block whose header passes is stale exactly when the tip has moved, and otherwise, unless it respells a kept one, adopted exactly when it connects. |

## Left out

- Sockets, handshakes, dialing, the address book, penalties and bans: transport policy. Which peer is blamed for a rejected block is not modelled.
- The RPC server, settings, metrics, logging, the command line, keystores and key derivation: plumbing and foreign calls.
- A failing database write: a batch is applied whole. Re-evaluating a block after a failed commit is not modelled.
- JSON values and key encodings of the store: sublevels are maps keyed by tuples. For the address index `Startup.KeysDiffer` shows that the keys tell the tuples apart.
- Nodes.Node.constructor: starts on a store whose indexes are exact; bringing them there is `Startup.PrepareIndexes`, which is proved on its own.
- Nodes.Node.ReceiveBlock: does not cover a block that would be kept and respells one that is stored or waits; what happens then is `Overwriting.StoringKeepsExact` and `Respelled.RespellingBreaks`. With checkpoints, or when more blocks wait for those of the group, its condition for stranding speaks of the looks it made, because which blocks are looked at again then depends on what the node accepts on the way.
- Nodes.Node.HandleIncomingBlock: the same blocks are left out.
- Nodes.Node.StoreBlock: the same.
- Nodes.Node.AdoptSealed: the same.
- Looks.StrandsExactly: speaks of the looks made; the condition over the queue before the call is `Looks.OrderlyStrands`.
- How a text reads as a number: the sweep takes any reading that is right for padded heights.
- A genesis with spending transactions: where its undo record matters it is one of coinbases only, as `createGenesisBlock` makes it.
- Rounding of double-precision time spans in the retarget: spans are exact rationals.
- The byte size of a sealed block: a template is measured before sealing, and `Templates.TemplateIsSound` takes the final size as given.
- The seal itself, worker threads and aborts: sealing is any step that fills in nonce, signer and signature; that it verifies is a premise of `Mining.SealedPasses`.
- Bech32.Bech32mDecode: folds the case of ASCII letters only, because the model has no Unicode case mapping.
- Bech32.DecodeUndoesEncode: accordingly speaks of ASCII capitals only.
- `normalizeAddress` and trimming of white space.
- Dropped or inserted characters in an address: only substitutions within six consecutive places are covered.
- Sync.SyncHeaders: bounds the number of fetched pages by a budget, because a source that always sends full pages makes the loop endless; the fast path reads one page.
- The empty-recipient error of `buildTransaction`: the model builds to any address.
- Anchoring through the node's own key, address history and proof queries: reads of the indexes; the history query splits keys at colons as the sweep does.
- Block and header requests sent to peers: `Nodes.Node.HandleHeaders` reports that they are wanted.
