# Verified models of the venus-market core

Dafny 4.11 models of the parts of venus-market whose correctness is hardest to see from the
code, with proofs of what they promise over all inputs and all runs. `dafny verify dfyconfig.toml`
checks the whole project.

| files | component |
|---|---|
| `PieceSize`, `SectorPacking`, `SectorTiling`, `PickLaws` | packing deals into a sector and tiling it with aligned pieces |
| `DealAssigner`, `AssignmentRuns`, `AssignmentLaws` | selecting, sorting, picking and recording deals, over any sequence of sectors |
| `BadgerMove`, `BadgerSafety`, `BadgerRuns`, `BadgerEmptyBlocks`, `BadgerDeletes`, `BadgerProgress` | the badger block store that moves its database while it is in use |
| `FundManager`, `FundSafety`, `FundRuns`, `FundLaws` | reservations, releases and withdrawals of a market address |
| `DealHandoff`, `FundLedger`, `DealLedger` | the hand-off of a storage deal, and the deals of a provider as clients of the fund manager |
| `Vouchers`, `VoucherSafety`, `VoucherLaws` | payment channel vouchers, lanes and nonces |
| `ChannelFunding`, `FundingConservation`, `FundingLaws` | creating a payment channel and adding funds to it |
| `DealPublisher`, `PublishRuns`, `PublishLaws` | batching deals into publish messages |
| `Wrappers`, `Selections` | optional values and results; what it means to keep some elements in order |

Code that changes things step by step is modelled by methods and classes, each proved against a
specification function or predicate (`...Spec`, `Live`, `Merged`, `SplitAll`, ...). The lemmas are
about these specifications; the modules whose names end in `Laws` say what the specifications mean in
terms of the fields of deals, requests and vouchers only. Concurrent protocols are state machines: `Enabled` says when a step can
happen, `Apply` what it does, `Possible` and `Final` speak of whole runs, and an invariant is shown
to hold after every run. The block store is modelled in this way only, since its property is about
interleavings: a step is one critical section of its move mutex, one database access or one batch of
the copy. The chain, clocks, message IDs and the outcome of calls into other systems are parameters
of steps, quantified over all values.

Piece sizes follow the `abi` package of go-state-types, which is not part of this model: a padded size is
valid if it is a power of two of at least 128, `Unpadded` is `s - s/128`, `Padded` is `u + u/127`.

## Where the code falls short of what it promises

The models follow the code. Where a promise does not hold of it, there is a concrete case in which
it fails and the exact condition under which it holds.

- Sector packing validates the first deal before small deals are cut, so the first deal that is left
  may have any size. If it is no multiple of 128 bytes and a filler has to follow it, that filler is
  smaller than any piece with a known commitment, and the pick fails instead of returning a sector
  (`NoCommitmentIff`, case `UnvalidatedFirstDeal`). Otherwise a sector is returned, with every deal
  where its piece is, but all pieces have valid sizes exactly if the first deal left has one
  (`SizesValidIffFirstValid`, case `InvalidSizeAccepted`).
- The block store must not lose writes during a move, but the copy skips empty values: a put is
  durable exactly if its block is not empty (`DurableIffNonEmpty`, case `EmptyBlockLost`).
- A delete during a move may be undone by it: a delete lasts exactly if no move that goes on to its
  swap has taken a copy of the block (`DeleteLastsIff`, case `DeletedBlockReturns`).
- A withdrawal message that cannot be sent after some withdrawal was answered on the spot completes
  that withdrawal a second time, which closes a closed channel (`AnsweredOnceIff`, case
  `CompletedTwice`).
- The fund manager may keep funds reserved that no deal holds: a failing pass also fails the queued
  releases, which deals only log, and a reservation may be granted although the context of its deal
  has ended. The reserved amount is what the deals hold exactly if neither happened
  (`LedgerBalances`, cases `LeakedRelease` and `AbandonedGrant`).
- `HandleOff` called on a staged deal that is handed over leaves `FundsReserved` as it is; in all
  other cases it is zero in the end (`HandleOff`, case `StagedDealKeepsFunds`).
- `submitVoucher` stores unknown vouchers unchecked (`SubmitKeepsSolventIff`, case
  `UnknownSubmissionBreaksSolvency`).
- The next lane wraps around after the last 64-bit lane: lanes stay fresh throughout a run exactly
  if no step takes the last lane (`FreshRunIff`, case `LaneHandedOutTwice`).
- A publish limit of zero still publishes single deals (`LimitHoldsIff`, case `ZeroLimitExceeded`),
  and a queue all of whose deals were cancelled loses its timer for good (`TimerLostIff`, case
  `LostTimer`).

## Model

| member | source | states |
|---|---|---|
| PieceSize.NextAlignedIsLowBit | storageprovider/deal_assign_util.go:192-194 | the shift by the trailing zeros is the lowest set bit of the space |
| PieceSize.LowBitGreatest | storageprovider/deal_assign_util.go:192-194 | that bit is the greatest power of two dividing the space |
| PieceSize.AlignUpLeast | storageprovider/deal_assign_util.go:126-146 | the reference position of a deal: the least multiple of its size not below the previous end |
| SectorPacking.FilterByEpoch | storageprovider/deal_assign_util.go:35-51 | the loop is the epoch filter that `KeptInEpochs` describes |
| SectorPacking.CutSmall | storageprovider/deal_assign_util.go:58-72 | drops the deals before the first that is large enough |
| SectorPacking.CutLarge | storageprovider/deal_assign_util.go:75-90 | drops the deals after the last that is small enough |
| PickLaws.KeptInEpochs | storageprovider/deal_assign_util.go:35-51 | kept, in order, are exactly the deals whose start is above a positive start limit and whose end is below a positive end limit |
| PickLaws.LeftAfterCuts | storageprovider/deal_assign_util.go:57-90 | the size cuts leave one stretch of the deals, bounded by deals within the limits, and drop only deals outside them |
| SectorPacking.AlignedFits | storageprovider/deal_assign_util.go:126-129 | a piece that fits in the space left also fits at its aligned position |
| SectorPacking.SlotAligned | storageprovider/deal_assign_util.go:131-146 | a deal no larger than the next slot is placed without padding |
| SectorPacking.FillerBelowDeal | storageprovider/deal_assign_util.go:133-144 | a filler stays below the position of the deal it is put for and does not move that position |
| SectorPacking.FitTest | storageprovider/deal_assign_util.go:126-129 | in every loop state the space test is the fit test under align-up, and no break follows a filler; after it there is space, so `nextAlignedPiece` is not called on zero |
| SectorPacking.FillerLookup | storageprovider/deal_assign_util.go:131-144 | a filler below a deal keeps the deal's position and the alignment to 128 bytes, or has no commitment and the pick fails there |
| SectorPacking.Examine | storageprovider/deal_assign_util.go:106-144 | one iteration refuses, stops, fills or picks exactly as the greedy pick under align-up asks for |
| SectorPacking.PlaceDeals | storageprovider/deal_assign_util.go:98-155 | the filler loop refines align-up: same deals or same failure as the greedy pick, the missing commitment of a small filler included; every deal at the least aligned position, and it terminates |
| SectorPacking.FillersFromRem | storageprovider/deal_assign_util.go:196-219 | the output array holds the set bits of the remaining space, lowest first |
| SectorPacking.AppendFillers | storageprovider/deal_assign_util.go:172-187 | tail fillers complete a packed prefix to a full sector, or fail exactly if the space left is no multiple of 128 |
| SectorPacking.AlignDeals | storageprovider/deal_assign_util.go:92-190 | the pick after the cuts: nothing, an error, or a full sector |
| SectorPacking.PickAndAlign | storageprovider/deal_assign_util.go:21-190 | every failure and every withheld answer exactly when the code gives it, otherwise a full sector of the deals picked |
| SectorTiling.AlignedTiling | storageprovider/deal_assign_util.go:98-187 | pieces sum to the sector size and each starts at a multiple of its own size |
| SectorTiling.UnitChange | storageprovider/deal_assign_util.go:141-153 | if deals come in multiples of 128, padded and unpadded running totals stay in the ratio 128 to 127, without rounding |
| SectorTiling.NoCommitmentIff | storageprovider/deal_assign_util.go:53-186 | the lookup of a commitment fails exactly if the first deal left after the size cut is no multiple of 128 and a filler follows it |
| SectorTiling.SizesValidIffFirstValid | storageprovider/deal_assign_util.go:53-111 | all pieces have valid sizes exactly if the first deal left has one |
| SectorTiling.InvalidSizeAccepted | storageprovider/deal_assign_util.go:53-72 | a concrete pick that returns a sector with a deal of 384 bytes |
| SectorTiling.UnvalidatedFirstDeal | storageprovider/deal_assign_util.go:53-144 | a concrete pick that fails over a filler of 64 bytes |
| SectorTiling.PickedSector | storageprovider/deal_assign_util.go:21-190 | every non-empty answer tiles the sector exactly, each piece at a multiple of its size, and every stored offset is the padded sum of the earlier sizes |
| SectorTiling.SectorUnique | storageprovider/deal_assign_util.go:98-187 | only one list of pieces meets the requirements on a full sector |
| SectorTiling.PickDetermined | storageprovider/deal_assign_util.go:21-190 | the specification of the pick admits one answer for each input |
| PickLaws.PickedInLimits | storageprovider/deal_assign_util.go:21-190 | every deal of a returned sector is of the queue and strictly inside the epoch limits |
| PickLaws.PickedInSizes | storageprovider/deal_assign_util.go:57-155 | none is below the size limit, and on a sorted queue none is above the other one |
| PickLaws.PickedEnough | storageprovider/deal_assign_util.go:121-170 | a returned sector holds enough deals and bytes and not too many deals |
| PickLaws.WithheldOnlyIf | storageprovider/deal_assign_util.go:157-170 | if nothing is returned, every prefix that fits is empty or has too few deals or bytes |
| PickLaws.PickFails | storageprovider/deal_assign_util.go:24-116 | which failure says what about the sector size or the deals of the queue |
| SectorTiling.LongestPrefix | storageprovider/deal_assign_util.go:106-155 | on sorted deals the pick is the longest prefix that fits under align-up and the piece limit, and fails exactly at a second deal after a first one that is no multiple of 128 |
| SectorTiling.PaddingBound | storageprovider/deal_assign_util.go:106-155 | zero padding before the last picked deal is at most its size minus the first one's |
| SectorTiling.FillersAreBits | storageprovider/deal_assign_util.go:196-219 | tail fillers are strictly increasing powers of two that sum to the remaining space |
| DealAssigner.SelectDeals | storageprovider/deal_assigner.go:200-224 | exactly the waiting deals with an ID that are not terminated, each once |
| DealAssigner.SortDeals | storageprovider/deal_assigner.go:230-242 | the same deals, ordered by size, then start, then falling price |
| AssignmentLaws.OfferedIff | storageprovider/deal_assigner.go:200-224 | offered are exactly the stored deals without a sector that have an ID and are not terminated, field by field |
| AssignmentLaws.OfferedInOrder | storageprovider/deal_assigner.go:230-242 | smaller ones first, then those that start earlier, then those that pay more |
| DealAssigner.PickMembers | storageprovider/deal_assigner.go:244-258 | whatever the deals are like, only deals of the queue are returned |
| DealAssigner.PickFromQueue | storageprovider/deal_assigner.go:230-247 | on the sorted queue only a bad sector size can fail (the un-ordered error is unreachable), and picked deals get disjoint aligned ranges |
| DealAssigner.RecordPieces | storageprovider/deal_assigner.go:253-268 | updating records one by one marks exactly the picked deals, with their offsets |
| DealAssigner.Assigner.AssignUnPackedDeals | storageprovider/deal_assigner.go:184-275 | one call: pick from some sorted order of the waiting deals, and record it or leave the store alone |
| AssignmentRuns.StepIsSound | storageprovider/deal_assigner.go:199-274 | a call changes exactly the records of the waiting deals it returns, stores their offsets and makes a sound sector |
| AssignmentLaws.DefaultIsTenDeals | storageprovider/deal_assigner.go:134-192 | without limits a request is limited to ten deals and by nothing else |
| AssignmentLaws.AnswerInLimits | storageprovider/deal_assigner.go:244-247 | the deals of an answer respect every limit of the request |
| AssignmentLaws.ChangedWasWaiting | storageprovider/deal_assigner.go:253-268 | a changed record was waiting, and now has the sector and the offset of the answer and is otherwise the same |
| AssignmentRuns.SectorsSound | storageprovider/deal_assigner.go:184-275 | after any run the deals of each sector are aligned, disjoint and inside, and assigned records never changed |
| AssignmentRuns.HandedOut | storageprovider/deal_assigner.go:253-268 | a returned deal was waiting before the call and belongs to the sector after it |
| AssignmentRuns.NoDealTwice | storageprovider/deal_assigner.go:184-275 | no deal is returned for two sectors of a run |
| BadgerSafety.LockStep | blockstore/badger/blockstore.go:198-289 | every step keeps the lock invariant: reader and viewer counts are right, one active mover, `dbNext` fits its position |
| BadgerSafety.NeverStuck | blockstore/badger/blockstore.go:211-234 | counters never underflow, and `dbNext` exists when it is swapped in |
| BadgerSafety.WriteNextData | blockstore/badger/blockstore.go:684-688 | the second write of a put keeps the data invariant |
| BadgerSafety.WriteBatchData | blockstore/badger/blockstore.go:401-415 | writing a batch of the copy keeps every live block in the new database or on its way |
| BadgerSafety.SwapData | blockstore/badger/blockstore.go:333-337 | when the copy is done, exchanging the databases loses no live block |
| BadgerRuns.StepKeepsInv | blockstore/badger/blockstore.go:243-337 | every step of every interleaving keeps lock and data invariant |
| BadgerRuns.NoPutLost | blockstore/badger/blockstore.go:236-243 | after any run, a non-empty block put and not deleted since is read back with its content |
| BadgerRuns.PutSurvives | blockstore/badger/blockstore.go:654-755 | a put that returned survives every continuation, whether moves succeed or abort |
| BadgerRuns.LiveHistory | blockstore/badger/blockstore.go:654-775 | a key counts as put from the return of the put until it is deleted, and only then |
| BadgerRuns.KeptHistory | blockstore/badger/blockstore.go:680-688 | what a running put has written is its own until a delete of that key |
| BadgerRuns.OneMoverAtATime | blockstore/badger/blockstore.go:243-259 | no run has two active movers |
| BadgerRuns.ExchangeIsPrivate | blockstore/badger/blockstore.go:222-234 | `db` and `dbNext` change only with reader count zero and no operation inside |
| BadgerRuns.MoverEndsClean | blockstore/badger/blockstore.go:263-289 | a move that ends leaves move state None and no `dbNext` |
| BadgerRuns.ClosedIsQuiet | blockstore/badger/blockstore.go:157-188 | once closed, no operation and no move is under way |
| BadgerEmptyBlocks.EmptyBlockLost | blockstore/badger/blockstore.go:405-408 | a run that puts an empty block, moves, and has lost it |
| BadgerEmptyBlocks.DurableIffNonEmpty | blockstore/badger/blockstore.go:392-418 | puts of a key are durable in all runs exactly if its block is not empty |
| BadgerDeletes.DeleteRemoves | blockstore/badger/blockstore.go:772-774 | a delete takes its key out of the current database, and nothing else |
| BadgerDeletes.DeleteLastsIff | blockstore/badger/blockstore.go:758-816 | a delete lasts in every continuation without a put of its key, exactly if no move that goes on to its swap has a non-empty copy of the block read or written |
| BadgerDeletes.DeletedBlockReturns | blockstore/badger/blockstore.go:333-337 | a run in which a block deleted during a move is there again after it |
| BadgerProgress.NothingHangs | blockstore/badger/blockstore.go:200-289 | after any run, all operations and moves under way can finish without failing, in locks nobody holds then, and a closing store can be closed |
| BadgerProgress.FinishOp | blockstore/badger/blockstore.go:654-816 | an operation inside the lock can do all its writes and return, with every move where it was |
| BadgerProgress.FinishMove | blockstore/badger/blockstore.go:243-345 | once nobody is inside, a move can go on to its end without any operation |
| BadgerProgress.EntersIff | blockstore/badger/blockstore.go:200-209 | an operation enters unless it is the first reader and a move has or wants the lock; then it only goes to sleep |
| BadgerProgress.NeverOvertaken | blockstore/badger/blockstore.go:222-228 | once the last reader has left, a waiting move can take the lock after every continuation without that step |
| BadgerProgress.DeleteDoesAll | blockstore/badger/blockstore.go:758-816 | a delete that returns successfully has deleted each of its keys on the way |
| BadgerProgress.PutDoesAll | blockstore/badger/blockstore.go:654-755 | a put that returns successfully has written each of its blocks on the way |
| BadgerProgress.ClosedForGood | blockstore/badger/blockstore.go:157-188 | a closing store takes no more calls and is closed once |
| FundManager.FilterOutProcessed | fundmgr/fundmanager.go:309-317 | keeps in order the requests that were not completed |
| FundManager.SplitReservations | fundmgr/fundmanager.go:445-490 | covered, to-add and delta as the specification splits them |
| FundManager.ProcessReservations | fundmgr/fundmanager.go:357-438 | new reserved amount, message and completions of a pass are those of the specification that `AddsWhatIsMissing`, `PassAccounting` and `PassOutcome` describe, in all error cases |
| FundManager.ProcessWithdrawals | fundmgr/fundmanager.go:493-585 | allowed withdrawals, message and completions of a pass, in all error cases |
| FundManager.FundedAddress.ServeReservations | fundmgr/fundmanager.go:279-286 | the state after the reservation part of a pass |
| FundManager.FundedAddress.ServeWithdrawals | fundmgr/fundmanager.go:290-296 | the state after the withdrawal part of a pass |
| FundManager.FundedAddress.Process | fundmgr/fundmanager.go:253-306 | the whole effect of a pass on the state and the queues, and whether it schedules another |
| FundSafety.NettingIdentity | fundmgr/fundmanager.go:445-490 | delta is covered plus to-add minus releases, positive exactly if something is to add; one wallet; a partition of the queue; the first is handled |
| FundSafety.PassAccounting | fundmgr/fundmanager.go:379-403 | a successful pass moves the reserved amount by what it reserved and released, not below zero |
| FundSafety.PassOutcome | fundmgr/fundmanager.go:401-429 | a pass over reservations fails exactly if funds must be added and either cannot be read, or do not suffice and no message can be sent |
| FundLaws.AddsWhatIsMissing | fundmgr/fundmanager.go:403-437 | when a pass adds to escrow, available plus added is exactly what is now reserved, and the paying wallet is that of a reservation answered with the message |
| FundLaws.AllPayTogether | fundmgr/fundmanager.go:465-485 | all reservations answered with the message come from the wallet that pays |
| FundLedger.PassDone | fundmgr/fundmanager.go:360-384 | who is answered by a pass, with which message, and whether as a failure |
| FundLaws.TakenFate | fundmgr/fundmanager.go:514-559 | each withdrawal is answered, refused, left or taken, by its amount, what those before it leave, and their wallet |
| FundLaws.WithdrawsWhatIsAsked | fundmgr/fundmanager.go:514-584 | a withdrawal message is for exactly the sum of the withdrawals it answers, all of the wallet it goes to |
| FundLaws.WithdrawsIff | fundmgr/fundmanager.go:504-576 | a pass withdraws exactly if some withdrawal fits in what is not reserved and the message can be sent; else those are answered with failures |
| FundLaws.WithdrawalFailsIff | fundmgr/fundmanager.go:503-576 | a pass over withdrawals fails exactly if the funds are unknown, or one fits and the message cannot be sent |
| FundLaws.NoneFits | fundmgr/fundmanager.go:514-567 | if no withdrawal fits, each is answered in order, with success exactly if it is for nothing |
| FundLaws.UnknownFundsFail | fundmgr/fundmanager.go:503-507 | if the available funds cannot be read every withdrawal is answered with a failure |
| FundLaws.UnansweredStay | fundmgr/fundmanager.go:309-317 | what stays queued are exactly the requests nobody answered, in order |
| FundLaws.RunsAgainIff | fundmgr/fundmanager.go:267-306 | a pass schedules another exactly if no message is outstanding and something is queued; else it does nothing |
| FundSafety.PassIsSolvent | fundmgr/fundmanager.go:253-306 | available plus message in flight covers the reserved amount; no message while one is outstanding; withdrawals only with no reservation left |
| FundRuns.PassProgress | fundmgr/fundmanager.go:253-306 | a pass with requests waiting and no message outstanding answers at least one, so rescheduling ends |
| FundRuns.Drains | fundmgr/fundmanager.go:253-306 | as many passes as there are requests empty all queues, whatever the chain answers |
| FundRuns.AnsweredOnceIff | fundmgr/fundmanager.go:493-580 | no request is completed twice, except exactly when the pass gets to withdrawals, one is for nothing or for too much, another one fits, and the push fails |
| FundRuns.CompletedTwice | fundmgr/fundmanager.go:495-519 | withdrawals of 0 and 5 from 10: the first is completed twice |
| FundRuns.ServesIff | fundmgr/fundmanager.go:290-296 | a pass gets to the withdrawals exactly if it sends nothing and defers no reservation, or fails |
| FundRuns.StepIsSolvent | fundmgr/fundmanager.go:253-306 | every step keeps the address solvent, and a message in flight is not replaced |
| FundRuns.RunIsSolvent | fundmgr/fundmanager.go:253-585 | an address solvent at the start is solvent after every run, restarts included |
| FundLaws.RunAddsExactly | fundmgr/fundmanager.go:253-438 | every message of a run that adds to escrow adds exactly what is missing then, from the wallet of a queued reservation |
| DealHandoff.MinerDeal.ReleaseReservedFunds | storageprovider/deal_handler.go:581-591 | releases all that is held in one call, and nothing if nothing is held |
| DealHandoff.MinerDeal.HandleError | storageprovider/deal_handler.go:545-579 | the deal fails and holds nothing |
| DealHandoff.MinerDeal.VerifyStage | storageprovider/deal_handler.go:246-280 | goes on exactly if the data is finalized, its commitment matches and the record is saved |
| DealHandoff.MinerDeal.ReserveStage | storageprovider/deal_handler.go:284-318 | collateral is added once granted; later failures give it back |
| DealHandoff.MinerDeal.FundingStage | storageprovider/deal_handler.go:321-343 | failing inside the callback and again outside releases only once |
| DealHandoff.MinerDeal.PublishStage | storageprovider/deal_handler.go:345-366 | goes on exactly if the deal is published and saved; else fails and releases |
| DealHandoff.MinerDeal.PublishingStage | storageprovider/deal_handler.go:368-389 | after waiting for the publish message nothing is held, on success and on failure |
| DealHandoff.MinerDeal.StagedStage | storageprovider/deal_handler.go:391-462 | AwaitingPreCommit exactly if the piece is read, its size saved, packed and closed (an imported file need not close) and the record saved |
| DealHandoff.MinerDeal.HandleOff | storageprovider/deal_handler.go:244-464 | from the six handled states: ends in AwaitingPreCommit exactly if all later steps succeed, else Failing; the calls it makes, at most one of them a release; what is held, and which message and deal ID are recorded in the end |
| DealHandoff.StagedDealKeepsFunds | storageprovider/deal_handler.go:391-462 | a staged deal that holds 5 is handed over and still holds 5 |
| FundLedger.SettleQueue | storageprovider/deal_handler.go:296-305 | answering a queue of requests, expired ones included, changes what deals claim by the sum of the queue |
| FundLedger.PassOwed | fundmgr/fundmanager.go:357-429 | what a pass of the fund manager changes for the deals, netted or failed |
| FundLedger.PassKeeps | fundmgr/fundmanager.go:357-429 | the reserved amount stays what deals claim plus what was lost; something is lost exactly if the pass fails with a release queued |
| FundLedger.GiveUpKeeps | fundmgr/fundmanager.go:234-241 | a deal whose context ends leaves an expired request, or an amount reserved for nobody |
| FundLedger.StepKeeps | fundmgr/fundmanager.go:223-306 | every step of deals and fund manager keeps the ledger |
| FundLedger.LedgerBalances | storageprovider/deal_handler.go:294-305 | after any run AmtReserved is at least the sum of FundsReserved over all deals, and equal exactly if no pass failed with a release queued and no deal gave up a granted reservation |
| FundLedger.LeakedRelease | storageprovider/deal_handler.go:581-591 | a run in which a failed release stays reserved |
| FundLedger.AbandonedGrant | fundmgr/fundmanager.go:234-241 | a run in which a grant stays reserved for a deal that gave up |
| DealLedger.AccountMoves | storageprovider/deal_handler.go:284-305 | in every run of the ledger the account of a deal stays or takes one of its few steps |
| DealLedger.HandOffIsPath | storageprovider/deal_handler.go:284-591 | the calls of a hand-off are a path of such steps, from what the deal held before to what it holds after |
| Vouchers.LaneStates | paychmgr/paych.go:508-561 | lanes of the chain overlaid with stored vouchers, or the error for merges |
| Vouchers.TotalRedeemedWithVoucher | paychmgr/paych.go:564-606 | the delta form equals the sum over the lane map updated at the voucher's lane |
| Vouchers.CheckVoucherValid | paychmgr/paych.go:187-294 | every refusal in the order of the code, with the exact shortfall |
| Vouchers.ChannelAccessor.AddVoucher | paychmgr/paych.go:357-408 | duplicate, refused, too low or stored, with delta and next lane |
| Vouchers.ChannelAccessor.NextNonceForLane | paychmgr/paych.go:167-178 | the loop finds the nonce that `NextNonceIs` describes |
| Vouchers.ChannelAccessor.CreateVoucher | paychmgr/paych.go:121-165 | the voucher stored, or the shortfall, or the error, as `CreateStoresIff` and `ExactShortfall` describe |
| Vouchers.NextLaneFromState | paychmgr/state.go:66-86 | one past the highest lane on chain, zero if there is none |
| VoucherSafety.RedeemKeepsMerged | paychmgr/paych.go:535-558 | redeeming a stored voucher on chain leaves the merged lanes unchanged |
| VoucherLaws.NextNonceIs | paychmgr/paych.go:167-178 | 1 on a lane without vouchers; above every stored nonce of the lane and one more than one of them, short of the last word |
| VoucherLaws.LaneStandsAt | paychmgr/paych.go:529-558 | a lane stands at its latest stored voucher unless the chain has a higher nonce |
| VoucherLaws.AddStoresIff | paychmgr/paych.go:187-294 | a voucher is stored exactly if it is new, unlocked, for this channel, signed, free of merges, moves its lane up by enough and is covered |
| VoucherLaws.AddAnswers | paychmgr/paych.go:357-410 | adding answers zero for a known voucher, the growth of its lane for a stored one, and too little growth exactly if that is the only objection |
| VoucherLaws.RefusedEarly | paychmgr/paych.go:188-234 | wrong channel, locks, unknown channel and bad signature each have their own exact cause |
| VoucherLaws.RefusedLate | paychmgr/paych.go:236-292 | a low nonce, a low amount, merges and the shortfall each have their own cause on the lane of the voucher |
| VoucherLaws.CreateStoresIff | paychmgr/paych.go:121-165 | exactly when creating a voucher stores it, with the next nonce and for this channel, on lanes whose chain nonces stored vouchers cover |
| VoucherLaws.CreateRefused | paychmgr/paych.go:121-165 | creating refuses for locks, an unknown channel or a bad signature exactly when adding does, and never for the channel |
| VoucherLaws.CreateRefusedLate | paychmgr/paych.go:121-165 | the exact causes of a low nonce, a low amount and merges for the voucher to be created |
| VoucherLaws.CreateAfterRun | paychmgr/paych.go:121-165 | exactly when creating a voucher stores it, after any run |
| VoucherLaws.RunOrderly | paychmgr/paych.go:357-485 | every run stores unlocked vouchers of the channel without merges only, and keeps chain nonces covered |
| VoucherSafety.AddKeepsLanes | paychmgr/paych.go:243-287 | an accepted voucher keeps lanes increasing and within the balance, and its delta is the growth of the total |
| VoucherSafety.StepKeeps | paychmgr/paych.go:357-408 | every step keeps solvency and order, and deltas are the growth of the total |
| VoucherSafety.RunKeeps | paychmgr/paych.go:279-287 | over any run the promised total stays within the balance and deltas telescope to its growth |
| VoucherSafety.ReAddIsIgnored | paychmgr/paych.go:363-375 | adding a stored voucher at any point of a run changes nothing from there on |
| VoucherSafety.AllocatedLaneIsNew | paychmgr/paych.go:399-485 | after a run that never takes the last lane, an allocated lane is in no voucher, not on chain, and was never handed out before |
| VoucherSafety.FreshRunIff | paychmgr/paych.go:399-485 | the next lane stays above all lanes in use throughout a run exactly if no step takes the last lane |
| VoucherLaws.NextLaneIsTight | paychmgr/paych.go:399-485 | after a run that never takes the last lane, the next lane is one past the highest lane in use |
| VoucherSafety.LaneHandedOutTwice | paychmgr/paych.go:403-485 | a run after which the next lane was handed out before |
| VoucherSafety.FirstTracked | paychmgr/state.go:44-64 | a channel first tracked from chain meets the invariants |
| VoucherSafety.ExactShortfall | paychmgr/paych.go:151-164 | the same call succeeds with at least the reported shortfall more, and falls short again with less |
| VoucherSafety.SubmitKeepsSolventIff | paychmgr/paych.go:451-457 | exactly when submitting keeps the promised total within the balance |
| VoucherSafety.UnknownSubmissionBreaksSolvency | paychmgr/paych.go:451-457 | a concrete unknown voucher that breaks it |
| ChannelFunding.FilterQueue | paychmgr/simple.go:225-246 | compaction in place keeps the active requests in order |
| ChannelFunding.SumActive | paychmgr/simple.go:137-146 | the sum over the active requests of a merge |
| ChannelFunding.ChannelFunds.ProcessQueue | paychmgr/simple.go:182-222 | merge, wait, fail or send, who is answered what, and what is left in the queue |
| ChannelFunding.ChannelFunds.ProcessTask | paychmgr/simple.go:341-381 | create, wait or add funds, the stored channel after it, and the result |
| FundingLaws.PendingKeepsQueue | paychmgr/simple.go:205-213 | while a message is pending nothing is sent or answered, and every active request stays queued, in order |
| FundingLaws.PassServesAll | paychmgr/simple.go:194-222 | otherwise one message carries exactly the active requests, for their sum, or all are answered with an error |
| ChannelFunding.ChannelFunds.WaitCreateMsg | paychmgr/simple.go:418-462 | a failed creation removes the channel, a successful one confirms its amount |
| ChannelFunding.ChannelFunds.WaitAddFundsMsg | paychmgr/simple.go:504-537 | the pending amount is confirmed or dropped |
| FundingConservation.StepKeeps | paychmgr/simple.go:182-537 | every step keeps the money, message and request invariants |
| FundingConservation.FundsConserved | paychmgr/simple.go:341-537 | confirmed amount is the sum of successful messages; the one pending message has the pending amount; no address exactly while creation is pending |
| FundingConservation.RequestsPaidOnce | paychmgr/simple.go:91-222 | a message carries exactly the sum of its requests, and no request is in two messages or still queued |
| FundingLaws.RequestsConserved | paychmgr/simple.go:159-222 | after any run a request whose caller did not give up is queued, in one message, or answered with an error, as it was made, and in one of these places only |
| FundingConservation.NeverPanics | paychmgr/simple.go:618-632 | a message recorded as successful always has a channel address |
| FundingLaws.RecordedMeans | paychmgr/simple.go:600-632 | who waits for a recorded message gets the address of its channel if it succeeded, and an error otherwise |
| FundingLaws.CreatedAddress | paychmgr/simple.go:450-459 | the address with which a channel is created is what all who wait for its messages get, after any run |
| DealPublisher.SingleDealPublisher.FilterCancelledDeals | storageprovider/dealpublisher.go:437-446 | compaction in place keeps the live deals in order |
| DealPublisher.SingleDealPublisher.ProcessNewDeal | storageprovider/dealpublisher.go:235-268 | queue, timer and batch after a submission |
| PublishLaws.PublishesIff | storageprovider/dealpublisher.go:235-268 | a submission publishes exactly if it fills the queue or batching is off, and then all live deals |
| PublishLaws.LivePicks | storageprovider/dealpublisher.go:437-446 | a queue keeps exactly the deals that are not cancelled, in order |
| DealPublisher.SingleDealPublisher.PublishAllDeals | storageprovider/dealpublisher.go:301-316 | the live deals leave as one batch, and the timer is reset only if it was armed |
| DealPublisher.Publishers.PublisherFor | storageprovider/dealpublisher.go:110-115 | the provider's publisher, a new empty one if there is none |
| DealPublisher.Publishers.Publish | storageprovider/dealpublisher.go:106-117 | a deal goes to the queue of its own provider, created on demand, and no other queue changes |
| DealPublisher.Publishers.ForcePublishPendingDeals | storageprovider/dealpublisher.go:96-104 | every queue is published |
| DealPublisher.PublishDealProposals | storageprovider/dealpublisher.go:378-426 | the mixed-provider error exactly for mixed providers, otherwise all deals in one message or none |
| DealPublisher.PublishReady | storageprovider/dealpublisher.go:318-360 | deals sent and answers given are those that `SentIff` and `AnswerIs` describe |
| PublishLaws.SentIff | storageprovider/dealpublisher.go:318-376 | sent, in order, are exactly the deals for which a head not above their start was read, if these are for one provider and the push succeeds |
| PublishLaws.AnswerIs | storageprovider/dealpublisher.go:318-426 | every deal is answered with the result for its own case: no head, start passed, mixed providers, not sent, or the message |
| PublishLaws.OnlyAnswer | storageprovider/dealpublisher.go:323-359 | and with no other result |
| DealPublisher.BatchAnswered | storageprovider/dealpublisher.go:323-359 | every deal of a batch is answered once for each time it waits |
| DealPublisher.ValidatedMembers | storageprovider/dealpublisher.go:338-350 | the deals that pass validation are those of the batch at positions where it passes |
| DealPublisher.ValidatedOneProvider | storageprovider/dealpublisher.go:385-394 | a batch for one provider stays one after validation, so it is never refused as mixed |
| PublishRuns.SubmitFollows | storageprovider/dealpublisher.go:235-268 | the recorded history is what the publisher does |
| PublishRuns.DropFromTail | storageprovider/dealpublisher.go:437-446 | dropping cancelled deals from a queue is dropping them from the whole history |
| PublishRuns.SubmitKeeps | storageprovider/dealpublisher.go:235-268 | a submission keeps order, conservation, batch size and provider |
| PublishRuns.PublishedOnce | storageprovider/dealpublisher.go:235-316 | over any run a deal not cancelled is in exactly one batch or waiting, in submission order |
| PublishRuns.BatchesAreGood | storageprovider/dealpublisher.go:385-394 | every batch of every run is small, not empty and for one provider |
| PublishLaws.BatchOnlyIf | storageprovider/dealpublisher.go:258-316 | a batch of a run is published on demand or by a submission that fills the queue, never earlier |
| PublishRuns.LimitHoldsIff | storageprovider/dealpublisher.go:258-262 | batches respect the configured maximum in all runs exactly if it is at least one |
| PublishRuns.ZeroLimitExceeded | storageprovider/dealpublisher.go:258-262 | a run that exceeds a limit of zero |
| PublishRuns.TimerLostIff | storageprovider/dealpublisher.go:242-246 | waiting deals have no timer exactly if a submission once found the timer running and all deals cancelled |
| PublishRuns.LostTimer | storageprovider/dealpublisher.go:242-246 | a run after which a deal waits without a timer |

## Left out

- Writing `deal.Offset` through the shared pointer: the offset is a field of the returned piece, so aliasing between the input list and the result is not modelled.
- `sort.Slice` is any order that respects the comparison; the sort itself is an insertion sort.
- 64-bit arithmetic of piece sizes: all values stay below the sector size, so numbers are unbounded there; clearing a bit by exclusive-or is subtraction.
- AssignUnPackedDeals: needs distinct deal IDs, which come from the chain; store errors and concurrent transactions are not modelled. The lemmas about good sectors and runs also need what `AcceptDeal` checks (storageprovider/deal_handler.go:130): a deal with an ID is published and has a valid size.
- The table of commitments of zeroed pieces is not part of this repository; it is taken to start at pieces of 128 bytes, and a lookup below that to fail. Its upper end, far above sector sizes, is not modelled.
- The block store as fields under locks in one object: it is a state machine over values; `View`, `GetSize`, `AllKeysChan`, key prefixes, online garbage collection, and the file renames and links after a swap (with their panics) are not modelled.
- The copy reads current values instead of a snapshot; blocks are named by their content, so both read the same. Deletes touch `db` only.
- FundRuns.RunIsSolvent: needs amounts not negative, messages that take effect as sent before their wait ends, and no other withdrawal from the address; failed writes of the fund state and a crash between sending and saving are not modelled.
- FundLedger.LedgerBalances: deals are the only clients that reserve and release; withdrawals by others are included.
- The event handlers of data transfers, which overwrite deal states; deleting files and finalizing stores within `HandleOff`, which do not decide its outcome beyond the data check.
- Signatures, CBOR encoding and the loading of actor state: a signature check is a parameter, equal vouchers are equal values.
- VoucherSafety.RunKeeps: submission is of stored vouchers only; `SubmitKeepsSolventIff` says what happens otherwise. The balance does not shrink, so settling and collecting are left out, as are `checkVoucherSpendable` and the submitted flags.
- FundingConservation.FundsConserved: store writes succeed; settling channels, several channels between the same addresses, undecodable return values of a creation message and the restart of pending waits are left out.
- Timers as clocks: an expiring timer is one of the events that publish a queue. Address selection, serialization and gas limits of publish messages are outcomes of one call.
- Retrieval deals, deal acceptance and pricing, the command line, RPC, configuration, repositories and the other block stores: smaller or easier than the parts above.
