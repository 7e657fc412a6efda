# UDB replication core

UDB replicates a database between IRC servers. A follower imports a snapshot of six
blocks (N, C, I, S, L, K) from one authority, keeps the mutations that arrive
meanwhile, replays them, and only then declares itself READY. This project models
that protocol and the code it leans on, and proves what each part is for.

The protocol. `Replica`, `Writer` and `Follower` are the state machine as functions:
the database and its mutations, the storage writer as its callers see it (a bounded
queue, one commit at a time in submission order, receipts that pin the roots before
and after), and the foreground with its delivery queue, import rounds, block
transfers, READY flag and lineage. `Invariant` states what holds in every reachable
state. The modules named after steps (`QueueSteps` to `AlignSteps`) show that each
step keeps it, and `Runs` and `LateReceipts` draw the conclusions over whole runs.
`Stories` follows each block of each import through the record of a run, and `Imports`
concludes what a run can tell about it. `Witness` gives the run behind an exception
named below. `Station` is the same foreground as a class that changes its fields in
place, over a list of deliveries linked cell by cell (`DeliveryList`), loop by loop as
the program does; every method is proved to do exactly what its specification function
says, and every entry point to keep the station `Valid` (`Entries`). A run starts from
a recovered node and takes any sequence of steps in any surroundings: which neighbours
are connected, negotiated and authorized, whether memory lasts, whether effects can be
installed.

The rest.
- `Lines` and `LineTable`: runtime bans projected from the K block, and the two-pass
  difference of two generations that replaces a rebuild.
- `Packing`, `CanonicalRows`, `Merkle` and the modules after it: the logical digest
  of a block. The hash is a parameter; the content theorem exhibits a clash instead
  of assuming that the hash has none.
- `Radix64`, `Decimals`, `ValueCodec`, `ValueBuffers`: values on the wire.
- `StorageRow`, `KeyPath`, `PathTheorems`, `PathBuffers`: keys as paths and the two
  parsers that read them.
- `Propagators`, `Settings`, `OperOnly`: the propagator list, the settings installed
  in one step, and ownership of the +O mode.

Lemmas begin with `hide *` where their own definitions would only slow the solver;
they then rest on the small lemmas they call. In member names, `Facts` and `Base`
lemmas unfold one definition, `Parts` and `Whole` take an invariant apart and put it
together, and `Inv` lemmas say that a step keeps it.

Two places where the program does less than its documentation suggests, and what
holds instead:
- a durable promotion is not published when a tick has found the engine failed and
  dropped the round before the receipt arrives (`LateReceipts.ReceiptPublished`
  gives the exact condition, `Witness.PromotionLost` such a run; recovery reads the
  committed roots from storage);
- a reconciliation of line effects stops at the first changed profile that cannot be
  applied, leaving a mixture of both generations
  (`LineTable.Table.ReconcileGenerations` says exactly when and what,
  `LineTable.StopsHalfway` gives a case).

## Model

| member | source | states |
|---|---|---|
| `Runs.RunInv` | src/udb_native_receive.c.inc:1-515 | every state of every run, under any interleaving of frames, completions, ticks, deadlines, departures and writer steps, satisfies the whole protocol invariant |
| `Runs.ActInv` | src/udb_native_receive.c.inc:1-515 | each single step of the protocol keeps that invariant |
| `Runs.ReadyMeansConverged` | src/udb_native_receive.c.inc:429-466 | whenever an import makes the node READY, all six blocks were advertised at one watermark, and the six committed ones are the contents with the advertised digests followed by exactly the accepted mutations watermark+1, watermark+2, ... in order; nothing is left to replay, and root, published root and lineage agree on it |
| `Runs.ReadyHasCause` | src/udb_native_receive.c.inc:331-466 | a node that starts unready becomes READY only by such an import or by a durable bind of its own stream |
| `Runs.AcknowledgedOnce` | src/udb_native_receive.c.inc:319-424 | per round owner and block there is at most one ACK; a round queues at most one promotion, with all six blocks listed and durable; the duplicate-completion branch is never taken |
| `Imports.AcknowledgedByEnd` | src/udb_native_receive.c.inc:389-424 | an ACK is sent only while the completion of a durable END is handled, for that job's block and owner, which its round had listed and not yet completed; the writer then holds the block with exactly the acknowledged digest, and the block is durable from then on |
| `Imports.StoryOrdered` | src/udb_native_receive.c.inc:118-424 | listing, REUSE or RES, BEGIN, END and ACK of one block for one round owner each happen at most once and in that order, and of REUSE and RES only one |
| `Imports.StoryCaused` | src/udb_native_receive.c.inc:118-424 | none of them happens without those it presupposes: a choice follows the listing, a BEGIN its RES, an END its BEGIN, an ACK its END |
| `Imports.ReusedNeverTransferred` | src/udb_native_receive.c.inc:178-424 | in every run, a block that is reused is never begun, ended or acknowledged for the same owner, so a listing is followed by REUSE or by BEGIN to END, never by both |
| `Imports.ReconcilesSelected` | src/udb_sync.c.inc:648-709 | under a policy a reconciliation in progress is always with the neighbour the policy has selected, so whenever that one leaves or starts anew the round ends with its authority |
| `Imports.InventoryListed` | src/udb_native_receive.c.inc:159-180 | the inventory bit of a block is set exactly by the one INF that lists it |
| `Imports.BlocksWithinInventory` | src/udb_native_receive.c.inc:118-317 | in every listed round, whether or not it is still authorized, durable blocks are listed blocks, a queued promotion has all six durable, and a transfer never has more rows than its INF promised |
| `Imports.RunLedger` | src/udb_native_receive.c.inc:118-424 | what rounds, slots and tickets say about each block agrees with the recorded story in every state of every run |
| `Runs.CreditsConserved` | src/udb_mutation.c.inc:105-222 | delivery bytes always equal the sum of the reservations, queue bytes are those plus the charges of all jobs not yet freed, and never exceed 8 MiB |
| `Runs.DrainNeverBlocked` | src/udb_mutation.c.inc:146-159 | an accepted, current, unsubmitted delivery can be submitted exactly when job numbers and memory last: no queue capacity is needed |
| `Runs.QueueDiscipline` | src/udb_mutation.c.inc:334-458 | uncancelled remote deliveries with one replay flag share stream, neighbour and authority revision, have consecutive positions in list order, and are submitted in that order |
| `Runs.ReadyQueueContinues` | src/udb_mutation.c.inc:334-458 | while READY under a remote authority the first live delivery is the position after the last applied one, in the same stream |
| `Runs.LineageFollowsRoot` | src/udb_native_effects.c.inc:18-143 | the foreground lineage always is that of the last published root, and while the engine works every durable receipt handed over has been published |
| `Runs.ListsOwned` | src/udb_mutation.c.inc:105-122 | owners are pairwise distinct across both lists, rounds never exceed eight, and every submitted delivery has its job in flight |
| `Runs.NoAbort` | src/udb_mutation.c.inc:105-122 | no abort() is reached at any turn of any run: every dropped delivery and round is listed, every reservation can be given back, every completed job can be freed, and a mutation completion finds its delivery |
| `Runs.LatchedOff` | src/udb_native_effects.c.inc:4-16 | a failed engine stays failed, and no run turns READY on after that |
| `Runs.FailClosed` | src/udb_native_receive.c.inc:468-515 | the tick after a failure turns READY off for the rest of the run, whatever happens between |
| `Runs.AbandonedStays` | src/udb_native_receive.c.inc:500-514 | an abandoned round keeps its place until the receipt of its own abort job arrives without an error, or a tick finds the engine failed |
| `Runs.ActGuarded` | src/udb_native_receive.c.inc:429-515 | no single step revives a failed engine, makes the node READY without its recorded cause, forgets an abandoned round without its receipt, or acknowledges anything but the END it completes |
| `Runs.CreditSuffices` | src/udb_storage_engine.c.inc:601-654 | a delivery that holds the charge of its job as credit is submitted, as long as it is current, exactly when job numbers and memory last: the queue's limit is not asked again |
| `LateReceipts.ReceiptPublished` | src/udb_native_receive.c.inc:348-371 | a durable mutation or PROMOTE receipt is published in receipt order, from the root published before it, even if its delivery or round was cancelled meanwhile; the exact exception is a promotion whose round a failed engine has already dropped |
| `LateReceipts.StaleMutation` | src/udb_mutation.c.inc:638-693 | a mutation receipt whose delivery is no longer current never sets READY, never relays, and when durable leaves the node unready |
| `LateReceipts.StalePromotion` | src/udb_native_receive.c.inc:348-371 | a PROMOTE receipt of a round that is no longer current leaves the node unready and reports nothing |
| `Witness.PromotionLost` | src/udb_native_receive.c.inc:468-515 | that exception occurs: a run in which a promotion commits, an older stage's discarding fails the engine, a tick passes, and the promotion's receipt is dropped unpublished |
| `LateReceipts.BindingExact` | src/udb_native_receive.c.inc:131-135 | the bind inside every INF, the first one of a round included, leaves exactly the copied mutations above the watermark, from watermark+1 on without a gap, all bound to the round; what it drops was unsubmitted and at or below the watermark, and all other deliveries are unchanged |
| `LateReceipts.StartHandsOver` | src/udb_mutation.c.inc:290-322 | and what it binds is everything copied so far from this authority, restamped to the new revision when the round starts, or nothing |
| `LateReceipts.RebindingChangesNothing` | src/udb_mutation.c.inc:226-251 | binding again at once changes nothing |
| `TransferSteps.OnInfInv` | src/udb_native_receive.c.inc:118-208 | handling an INF, with the restart, abort or promotion it may cause, keeps the invariant |
| `TransferSteps.OnBeginInv` | src/udb_native_receive.c.inc:210-251 | handling a BEGIN keeps the invariant |
| `TransferSteps.OnPutInv` | src/udb_native_receive.c.inc:264-298 | handling a PUT keeps the invariant |
| `TransferSteps.OnEndInv` | src/udb_native_receive.c.inc:300-317 | handling an END keeps the invariant |
| `IngressSteps.IngressInv` | src/udb_mutation.c.inc:334-458 | accepting, refusing or dropping a live mutation keeps the invariant |
| `PollSteps.PollInv` | src/udb_native_receive.c.inc:468-480 | taking one completion, with everything its effects set off, keeps the invariant |
| `TickSteps.TickTailInv` | src/udb_native_receive.c.inc:481-515 | the rest of a tick keeps the invariant |
| `PolicySteps.PolicyInv` | src/udb_sync.c.inc:648-746 | a change of the propagator policy keeps the invariant |
| `PolicySteps.DepartureInv` | src/udb_sync.c.inc:974-1024 | the departure of a neighbour, with the policy change it causes, keeps the invariant |
| `PolicySteps.OnRenewInv` | src/udb_sync.c.inc:183-206 | a new instance of a neighbour keeps the invariant |
| `WriterSteps.StepInv` | src/udb_storage_engine.c.inc:142-366 | one commit or refusal by the writer keeps the invariant |
| `RoundSteps.ReconcileBeginInv` | src/udb_sync.c.inc:403-435 | starting a round withdraws every earlier authorization and keeps the invariant |
| `QueueSteps.ReconcileAbortInv` | src/udb_sync.c.inc:324-353 | abandoning a round restores the invariant from a weaker one that holds in the middle of a step |
| `Writer.JobCharge` | src/udb_storage_engine.c.inc:551-561 | the charge of a job, zero exactly when it can never be queued |
| `Station.Station.constructor` | src/udb_native_effects.c.inc:73-104 | in place: a station over a recovered storage is Valid, at its root, and not READY |
| `Station.Station.BindTail` | src/udb_mutation.c.inc:226-251 | in place: binds the replay tail to a watermark in one pass over the list, as specified by MutationBind |
| `Station.Station.Pending` | src/udb_mutation.c.inc:253-259 | in place: whether a round has replay deliveries left |
| `Station.Station.Replay` | src/udb_mutation.c.inc:261-271 | in place: submits the bound tail in list order and stops at the first refusal |
| `Station.Station.Withdraw` | src/udb_mutation.c.inc:273-288 | in place: drops or cancels the replay tail of a round, or everything, while walking the list |
| `Station.Station.HandOver` | src/udb_mutation.c.inc:300-321 | in place: one pass over the list spares only the provisional tail of the new authority |
| `Station.Station.FrontierOf` | src/udb_mutation.c.inc:411-422 | in place: where the accepted deliveries of one kind end, or that one has lost its authority |
| `Station.Station.Binding` | src/udb_mutation.c.inc:610-625 | in place: whether a stream of its own is already being adopted |
| `Station.Station.FindDelivery` | src/udb_mutation.c.inc:640-648 | in place: the delivery a receipt belongs to |
| `Station.Station.FindOwner` | src/udb_native_receive.c.inc:41-47 | in place: the round a receipt belongs to |
| `Station.Station.FindRound` | src/udb_native_receive.c.inc:68-74 | in place: the current round of a neighbour |
| `Station.Station.AbandonRounds` | src/udb_native_receive.c.inc:96-105 | in place: abandons rounds and cancels their jobs |
| `Station.Station.MarkRounds` | src/udb_native_receive.c.inc:360-371 | in place: marks one round promoted or abandoned |
| `Station.Station.DiscardStages` | src/udb_native_receive.c.inc:500-514 | in place: asks the writer to discard every abandoned stage |
| `Station.Station.ClearSlots` | src/udb_sync.c.inc:711-728 | in place: requests and transfers of other neighbours end |
| `Station.Station.QueuePromotion` | src/udb_native_receive.c.inc:319-329 | in place: a promotion is reported only with six blocks listed and durable |
| `Station.Station.HandleInf` | src/udb_native_receive.c.inc:118-208 | in place: keeps the station Valid, never sets READY without a recorded cause, acknowledges nothing and forgets no abandoned round |
| `Station.Station.HandleBegin` | src/udb_native_receive.c.inc:210-251 | in place: either nothing changes, or the waiting request is gone and a transfer without rows stands in its place |
| `Station.Station.HandlePut` | src/udb_native_receive.c.inc:264-298 | in place: either nothing changes, or the transfer has one more row, and no more than were promised |
| `Station.Station.HandleEnd` | src/udb_native_receive.c.inc:300-317 | in place: either nothing changes, or exactly the promised rows have arrived and the transfer waits for its END job |
| `Station.Station.HandleMutation` | src/udb_mutation.c.inc:334-458 | in place: keeps both queues gapless and in order and the writer queue within 8 MiB, sets no READY without cause and acknowledges nothing |
| `Station.Station.TakeCompletion` | src/udb_storage_engine.c.inc:664-708 | in place: takes, handles and frees the oldest completion; only a durable END is acknowledged, no abort() is reached, and READY needs its recorded cause |
| `Station.Station.EndTick` | src/udb_native_receive.c.inc:484-515 | in place: a tick that finds the engine failed leaves READY off, and the station Valid |
| `Station.Station.RunTick` | src/udb_native_receive.c.inc:468-515 | in place: a whole tick is the longest prefix of at most 1024 completions followed by the rest |
| `Station.Station.Repolicy` | src/udb_sync.c.inc:648-746 | in place: a policy change never turns READY on, and forgets no abandoned round |
| `Station.Station.GiveUp` | src/udb_sync.c.inc:324-353 | in place: a deadline leaves no reconciliation in progress and forgets no abandoned round |
| `Station.Station.PeerLeaves` | src/udb_sync.c.inc:974-1024 | in place: nothing of a neighbour that left remains, whatever the policy then selects: no request, no transfer, no reconciliation |
| `Station.Station.PeerRenews` | src/udb_sync.c.inc:183-206 | in place: when the selected propagator starts anew no reconciliation is left in progress |
| `Station.Station.ExpireRecord` | src/udb_mutation.c.inc:493-537 | in place: either the queue is unchanged, or the node was READY on its own stream, reconciled nothing, and one compare-and-delete of that record is with the writer |
| `DeliveryList.Deliveries.Append` | src/udb_mutation.c.inc:215-220 | a delivery joins behind the last cell; every cell still leads to the next one, and the tail is the last cell |
| `DeliveryList.Deliveries.Unlink` | src/udb_mutation.c.inc:105-122 | takes a listed cell out, keeps the others in order, and leaves the tail at the last cell, or none in an empty list |
| `DeliveryList.Deliveries.Before` | src/udb_mutation.c.inc:107-111 | the walk from the head finds a listed cell, so its abort() is dead |
| `DeliveryList.Deliveries.FindLast` | src/udb_mutation.c.inc:113-118 | the walk that ends at the last cell restores the tail |
| `Entries.Served` | src/udb_native_receive.c.inc:1-515 | every turn taken in a sound state ends in a sound one, reaches no abort(), and sets READY only with its recorded cause |
| `LineTable.Table.ReconcileGenerations` | src/udb_lines.c.inc:505-615 | if the owned bans are the projection of the old generation, then after both passes, in any row order, they are the projection of the new one; it fails exactly when a changed profile cannot be applied, and then every pattern it had come to is settled for the new generation and every other is as before; foreign bans are untouched either way |
| `LineTable.StopsHalfway` | src/udb_lines.c.inc:505-615 | such a failure can leave a table that projects neither generation: a network ban is gone before a filter that does not compile stops the second pass |
| `LineTable.RebuildAgrees` | src/udb_lines.c.inc:505-615 | incremental reconciliation and a rebuild from nothing leave the same owned ban, at most one, on every pattern |
| `LineTable.Table.ReconcileOwner` | src/udb_lines.c.inc:569-607 | the same for a change of one owner |
| `LineTable.Table.ReconcileEffect` | src/udb_lines.c.inc:405-485 | afterwards the pattern of the owner carries what the new generation asks for, and no other pattern has changed |
| `LineTable.Table.BestForm` | src/udb_lines.c.inc:429-475 | probing four spellings finds the best live owner of a pattern among those four |
| `LineTable.LeadingBest` | src/udb_lines.c.inc:429-475 | and that one is the best among all owners of the block |
| `LineTable.Table.ApplyProfile` | src/udb_lines.c.inc:290-393 | installs one profile, or leaves the old line when it cannot be prepared |
| `LineTable.Table.RemoveOwned` | src/udb_lines.c.inc:99-128 | deletes from the list in place exactly this module's bans on one pattern, keeping the order of the rest |
| `LineTable.Table.RemoveProfile` | src/udb_lines.c.inc:395-401 | a deleted profile takes its ban with it |
| `LineTable.Table.Handle` | src/udb_lines.c.inc:540-553 | what one pass does with one owner |
| `LineTable.Table.ProfileScan` | src/udb_lines.c.inc:505-567 | a pass handles each owner exactly once, through its representative row, and settles every pattern a handled owner bears on |
| `Lines.ChosenOnce` | src/udb_lines.c.inc:503-539 | each owner has exactly one representative row, whatever rows precede it |
| `Lines.ParseSpell` | src/udb_lines.c.inc:168-202 | the normalized spelling reads back as itself |
| `Lines.FormsComplete` | src/udb_lines.c.inc:431-444 | a stored spelling is one of the four forms of its normalized pattern |
| `Lines.AliasIsForm` | src/udb_lines.c.inc:431-444 | every owner of an extended pattern is one of its four forms |
| `Lines.LoneOwner` | src/udb_lines.c.inc:217-230 | any other runtime pattern has one owner |
| `Lines.BeatsTotal` | src/udb_lines.c.inc:464-468 | permanent or latest expiry, then least key, decides between any two owners |
| `Lines.BeatsTrans` | src/udb_lines.c.inc:464-468 | and the decision is transitive |
| `Lines.ProjectionUnique` | src/udb_lines.c.inc:403-485 | a generation determines the owned bans, at most one on each pattern |
| `MerkleContent.DigestContent` | tests/support/udb_test_support/native_reference.py:45-83 | two record sets with one digest are of one block and have the same canonical rows, or else two different strings among those actually hashed have one hash |
| `MerkleContent.DigestDecides` | tests/support/udb_test_support/native_reference.py:45-83 | where those strings do not clash, digests are equal if and only if the canonical rows are |
| `MerkleContent.LeafContent` | tests/support/udb_test_support/native_reference.py:54-73 | the same for one subtree |
| `MerkleContent.LeafTextContent` | tests/support/udb_test_support/native_reference.py:59-64 | a leaf text commits to its rows through length prefixes and fixed-width positions |
| `MerkleCanonical.DigestOfContent` | tests/support/udb_test_support/native_reference.py:45-83 | records with the same canonical rows have the same digest, in any order and spelling |
| `MerkleCanonical.DigestPermuted` | tests/support/udb_test_support/native_reference.py:45-83 | the order of the records does not matter, nor for whether there is a digest |
| `MerkleExists.DigestExists` | tests/support/udb_test_support/native_reference.py:45-83 | there is a digest if and only if every record has a canonical row, keys are distinct, totals fit 64 bits, and no address of a partition holds more than a leaf |
| `MerkleExists.LeafExists` | tests/support/udb_test_support/native_reference.py:54-73 | splitting ends by depth 256, and fails only where rows with one whole address are too heavy or a key is repeated |
| `MerkleExists.DuplicateFails` | tests/support/udb_test_support/native_reference.py:59-62 | two records that fold to one key leave no digest |
| `MerkleExists.AgreesSide` | tests/support/udb_test_support/native_reference.py:68-71 | every row of a subtree agrees with its prefix bits |
| `MerkleExists.DistinctSides` | tests/support/udb_test_support/native_reference.py:68-71 | rows with one key are never separated by a split |
| `MerkleCanonical.SplitConserves` | tests/support/udb_test_support/native_reference.py:68-71 | rows, counts and weights are conserved at every split |
| `MerkleLoop.BelowNext` | tests/support/udb_test_support/native_reference.py:76-80 | and from partition to partition |
| `MerkleLoop.LogicalDigest` | tests/support/udb_test_support/native_reference.py:45-83 | the loops over records and partitions compute that digest, or nothing exactly where it does not exist |
| `MerkleLoop.Assemble` | tests/support/udb_test_support/native_reference.py:75-83 | the loop over the partitions, with totals read back from the summaries |
| `CanonicalRows.RowInjective` | tests/support/udb_test_support/native_reference.py:33-37 | a binary row determines key and value |
| `CanonicalRows.HeaderInjective` | tests/support/udb_test_support/native_reference.py:33-37 | a row header determines the kind and the lengths |
| `Packing.PrefixedInjective` | tests/support/udb_test_support/native_reference.py:33-42 | length-prefixed strings can be told apart |
| `Packing.UnpackPack` | tests/support/udb_test_support/native_reference.py:75-82 | fixed-width numbers read back |
| `ValueCodec.EncodedReads` | src/udb_native_wire.c.inc:4-102 | decode undoes encode for every valid value under every valid key |
| `ValueCodec.AcceptedWrites` | src/udb_native_wire.c.inc:4-102 | encode gives back every accepted text |
| `ValueCodec.AcceptsExactly` | src/udb_native_wire.c.inc:45-102 | the accepted texts are exactly the spellings of valid values |
| `ValueCodec.OneSpelling` | src/udb_native_wire.c.inc:45-102 | no value has two accepted spellings |
| `ValueBuffers.ValueEncode` | src/udb_native_wire.c.inc:4-32 | writes text and terminator into the caller's buffer, or says which limit stops it |
| `ValueBuffers.ValueDecode` | src/udb_native_wire.c.inc:45-102 | decodes with every rejection and limit of the source, leaving the bytes in the caller's buffer |
| `ValueBuffers.DecodeText` | src/udb_native_wire.c.inc:68-95 | the Base64 branch: padding, digits, stray bits and room |
| `ValueBuffers.ParseNumber` | src/udb_core.c.inc:19-59 | a decimal without leading zeros that fits 64 bits |
| `Radix64.Encoded` | src/udb_native_wire.c.inc:22-29 | Base64 text is accepted and decodes to what was encoded (sections 4 and 3.5 of RFC 4648) |
| `Radix64.Decoded` | src/udb_native_wire.c.inc:68-91 | every accepted Base64 text is what encoding would write |
| `Radix64.AcceptedLength` | src/udb_native_wire.c.inc:86-90 | how many bytes an accepted text stands for |
| `Radix64.DigitInverse` | src/udb_native_wire.c.inc:34-43 | a digit is determined by its value |
| `Decimals.CanonicalDecimal` | src/udb_native_wire.c.inc:60-66 | a decimal text without leading zeros is the one printed for its value |
| `Decimals.DecimalCanonical` | src/udb_native_wire.c.inc:14-18 | and printing gives such a text |
| `PathTheorems.ReadPrintsReads` | src/udb_native_read.c.inc:19-102 | printing the key of an accepted path gives a path of the same length, equal to it up to the case that storing ignores, which reads back as the same key |
| `PathTheorems.PrintParses` | src/udb_native_read.c.inc:19-102 | every stored key that fits a line is read back from its printed path |
| `PathTheorems.SameKey` | src/udb_native_read.c.inc:19-67 | two accepted paths are one key if and only if they agree after upper-casing escape digits and folding the components that are folded |
| `PathTheorems.SameKeyFolds` | src/udb_native_read.c.inc:19-67 | so they differ in ASCII case at most |
| `PathTheorems.StoredStays` | src/udb_storage_codec.c.inc:109-223 | storing keeps a key valid and is idempotent |
| `PathTheorems.ParsersAgree` | src/udb_store.c.inc:103-136 | the second parser splits every accepted path into the same components |
| `PathTheorems.SecretsAgree` | src/udb_store.c.inc:138-181 | a path is classified as secret exactly when the stored key is |
| `KeyPath.ComponentBack` | src/udb_store.c.inc:13-101 | decoding inverts encoding on every component that fits, and encoding succeeds exactly when the text fits |
| `KeyPath.EscapeReads` | src/udb_store.c.inc:13-101 | escaped text reads back, for either parser |
| `KeyPath.ReadPrints` | src/udb_native_read.c.inc:69-102 | printing what was read restores the text up to case |
| `KeyPath.StrictLoose` | src/udb_store.c.inc:43-101 | what the strict parser reads the other reads alike |
| `PathBuffers.KeyParse` | src/udb_native_read.c.inc:19-67 | the cursor loop accepts, rejects and fails exactly as specified, with every limit |
| `PathBuffers.ParseBody` | src/udb_native_read.c.inc:24-53 | the loop over the components accepts exactly the paths that parse within all limits, with those components |
| `PathBuffers.ParseOne` | src/udb_native_read.c.inc:31-52 | one turn of it reads a component within its limits, or proves that the path does not parse |
| `PathBuffers.ReadComponent` | src/udb_native_read.c.inc:31-52 | the inner loop over one component |
| `PathBuffers.KeyPrint` | src/udb_native_read.c.inc:70-102 | prints into the caller's buffer, or reports that it does not fit |
| `PathBuffers.PrintPart` | src/udb_native_read.c.inc:77-99 | one component of it |
| `PathBuffers.EncodeInto` | src/udb_store.c.inc:13-41 | escapes a component into a buffer |
| `PathBuffers.DecodeInto` | src/udb_store.c.inc:43-101 | decodes a component into a buffer |
| `PathBuffers.PathForeach` | src/udb_store.c.inc:103-136 | visits the components of a path in order, or fails |
| `PathBuffers.PathIsSecret` | src/udb_store.c.inc:156-181 | classifies a path by its depth and last component |
| `Settings.Context.Apply` | src/udb_config.c.inc:465-550 | either nothing changes, or every slot and the flood limits are the projection of the generation, whatever they were; hosts are refreshed and the policy is told exactly when a value they depend on changed |
| `Settings.Context.Collect` | src/udb_config.c.inc:478-524 | the values are gathered and checked before any slot is touched |
| `Settings.Context.Prepare` | src/udb_config.c.inc:480-517 | the check of one setting |
| `Settings.Context.Swap` | src/udb_config.c.inc:525-534 | replaces exactly the slots that hold texts |
| `Settings.VerdictFirst` | src/udb_config.c.inc:478-524 | the result is that of the first setting that fails |
| `Settings.CheckSuffix` | src/udb_config.c.inc:337-364 | the one-pass check accepts exactly a dot followed by valid labels between dots |
| `Propagators.WalkRender` | src/udb_core.c.inc:562-594 | iterating a comma-joined list of valid names, spaces around commas, yields exactly those names |
| `Propagators.ListGrammar` | src/udb_core.c.inc:596-607 | the lists accepted are exactly those of that grammar that are not too long |
| `Propagators.ListNext` | src/udb_core.c.inc:562-594 | the cursor finds the next name, the end, or a flaw |
| `Propagators.ListIsValid` | src/udb_core.c.inc:596-607 | counts names to the end of the list |
| `Propagators.SelectPropagator` | src/udb_mutation.c.inc:29-58 | selects among the names before the first flaw |
| `Propagators.EarliestIs` | src/udb_mutation.c.inc:29-58 | the selected candidate can be used and none before it can; nobody is selected only if none can |
| `OperOnly.ClearsOnlyOwn` | src/udb_channels.c.inc:285-361 | over any run, the mode is cleared by this module only when this module had set it and it has been on since |
| `OperOnly.OwnedSince` | src/udb_channels.c.inc:285-361 | the ownership flag implies the same |
| `OperOnly.Channel.SetOperOnly` | src/udb_channels.c.inc:285-315 | every branch of following the record |
| `OperOnly.Channel.RehashComplete` | src/udb_channels.c.inc:328-354 | a rehash is one more event of the run, and where +O has its handler it clears the mode only if this module had set it and it has been on since |

## Left out

- Connections: a neighbour is identified by its server id and HEL instance together, where the program compares client pointers and checks the instance beside them. Negotiation and loop prevention are inputs of each step, and so is authorization, except that a policy narrows it to its selection.
- Imports.ReusedNeverTransferred: a neighbour that feeds a node without a policy and starts anew in the middle of a round is a new neighbour in the model, and its first INF starts a round of its own; the program keeps the round's number and its unanswered requests for it.
- Engine lifecycle: the flags failed, stopping and admission are one flag, module and authority revision are one revision, and shutdown and its cleanup functions are not modelled.
- Writer internals: pages, catalogs, journal, checkpoints and group commit. One job is committed at a time, and any job may fail with any result, which covers what a group reports for each of its jobs; an INF that compares its digest while a group is being committed therefore appears only as one that comes before or after the step. Sizes charged by the allocator are parameters.
- Block digests inside the protocol are ideal (a digest names one content); `MerkleContent.DigestContent` says what a real one gives.
- Clocks and deadlines: whether a deadline has passed is an input. Retry scheduling, back-off and anti-entropy are not modelled.
- Frames are taken as parsed; error replies, relayed text, notices and logging are left out, except that relays and ACKs are recorded.
- The watermark and the source of a round are accepted together, as their only caller does.
- Validation of mutated rows against the schema, including nickname identity and FORBID normalization, is an input.
- Lists: the deliveries are cells linked from head to tail; the rounds, of which there are at most eight, are a sequence edited in place, so pointers to rounds are not modelled. `hist`, and the flag `aborted` of the engine, record the run for the theorems and have no counterpart in the program.
- Selection: the selected propagator is the one of the last policy change. The program computes it again at each use, and runs a policy change at every event that can alter it: a confirmed HEL, a changed setting, a rehash, a departure.
- Relaying: a relay that fails, and the gap recovery it starts, are not modelled; a relay is only recorded.
- Configuration rehash: that it turns READY off is not modelled; it would only end READY more often.
- A whole tick inside a run is a sequence of completion steps and one closing step; `Station.Station.RunTick` joins them.
- Lines.ParseSpell: assumes handlers registered with distinct lower-case names of several letters and without a colon; the native parser's length limits on user and host, and the upper-casing of country codes, are not modelled.
- Line effects: removal followed by a native addition that fails (the model prepares, then replaces), and the case-insensitive comparison of native line matching. Also hash buckets, the expiry sweep and its pending list, and native side effects of removing a shun. A spam filter's stored text is decoded by a given map without collisions, and which patterns compile is an input.
- MerkleLoop.LogicalDigest: one absent result stands for every exception, and the final digest is not written in hexadecimal.
- The digest as the C code computes it, and its equality with the reference, are not modelled.
- ValueBuffers.ValueDecode: null pointers are not modelled, nor the interior of the OpenSSL block routines, which are given directly as Base64.
- PathBuffers.KeyParse: the binary row that the key is encoded into is represented by its components, and overlapping caller buffers are not modelled.
- Settings: side effects of a changed suffix, key or policy are reported as flags.
- Propagators: what makes a server name well formed beyond its length and spaces, and which servers are usable, are parameters.
- OperOnly: a removal by others is assumed to be reported, as the program assumes; +O set through locked modes is not this module's, and the mode hidden during an oper's JOIN check is not modelled.
- OCL groups, the query interface, IP and nickname blocks, and virtual hosts would add only simple members.
