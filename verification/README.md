# RGB Lightning node: assets and swaps

A model of the two parts of the node where a mistake loses assets or money, with
proofs that hold for every input and every run. `dafny verify dfyconfig.toml`
checks all of it.

**The coloured-UTXO list and the asset ledger.** Every command that touches an
asset reads and rewrites a list of UTXOs with a `colored` flag. Nothing checks
that list centrally. `RgbNode.Node` is the node: its methods are the commands
and events, and each is proved equal to a step function of `NodeState`. The step
functions form a transition system with the chain, channels and other holders
around the node, and `NodeInvariant` states what every step keeps. From it follow
the discipline of the list, conservation of every contract's supply, balanced
transitions and isolation between contracts.

**The asset swap.** A maker prints an offer, a taker reads and whitelists it, the
maker stitches a circular route, the taker's intercept handler decides, and
payment events close the books. `Intercept` and `Bookkeeping` are the two nodes'
tables with their handlers, and `SwapProtocol` runs both in any order.

| file | what it models |
|---|---|
| `Prelude.dfy` | integer widths, options, saturating subtraction |
| `HexUtils.dfy`, `Decimal.dfy`, `SwapString.dfy` | hex and decimal text, the swap offer |
| `Intercept.dfy` | the taker's whitelist and intercept handler |
| `MakerRoute.dfy` | stitching of the two route legs |
| `Bookkeeping.dfy` | maker trades, inbound and outbound payments |
| `SwapProtocol.dfy` | maker and taker as one system |
| `Ledger.dfy`, `UtxoList.dfy`, `Sweep.dfy` | allocations and greedy selection, the list, swept amounts and seals |
| `NodeState.dfy`, `NodeInvariant.dfy` | the asset state, its steps and its invariant |
| `NodeSteps.dfy`, `NodeChannelSteps.dfy`, `NodeRuns.dfy` | preservation by commands, by channel events, over runs |
| `NodeEffects.dfy` | what a step does to balances, to transitions and to other contracts |
| `NodeLaws.dfy` | what every step does to the list, the files, the wallet, the channels and the record |
| `NodeFlows.dfy` | how supply moves between the wallet, the channels and others, by step and by run |
| `NodeLosses.dfy` | which steps lose assets, how much, and runs that do |
| `RgbNode.dfy` | the commands and events updating the node in place |

## Where the code does less than it seems to

- A release build wraps `amount * price`, so an offer can be read with a price of
  zero msats (`SwapString.ReleaseBuildCanPriceAtZero`). The parser's non-zero
  check then says nothing, and a taker selling at zero accepts every HTLC that
  passes on more than arrives (`Intercept.ZeroPriceSaleCanCost`): a release build
  reaches states in which it has paid any amount for selling by a printed offer
  (`SwapProtocol.ReleaseSaleCanCost`). The taker never
  pays more than agreed exactly when its trade is not a sale at zero
  (`Intercept.ProtectedExactly`), and never gains more than the HTLC minimum
  exactly when it is not a purchase at zero (`Intercept.CappedExactly`). The
  assets are right in any case, and a development build never reads a price of
  zero (`SwapProtocol.TakerAccounts`).
- An intercepted HTLC that is not flagged as a swap is failed and then decided
  again; exactly the flagged ones are resolved once (`Intercept.ResolvedExactlyOnce`).
- `send_rgb` attaches everything found at the chosen outpoints, which for an
  arbitrary history is more than the selection counted
  (`Ledger.AttachedBeyondSelected`). Reachable states rule that out
  (`NodeEffects.TransitionBalances`).
- Assets are lost in exactly two ways: a funding transaction whose drain output
  was not made still seals its change to output 2, and a sweep seals to
  `index ^ 1` even when there is no such output. No other step changes what can
  still be spent (`NodeLosses.LossesAreExactly`, `Sweep.SealHoldsExactly`), and
  runs that lose part or all of an issue exist (`NodeLosses.FundingCanBurn`,
  `NodeLosses.SweepCanBurn`).
- When a selection falls short of the channel's amount, a release build wraps the
  difference and lists a change entry for a transaction that is never sent. That
  is exactly when a stopped funding changes the list (`NodeEffects.FundingOutcome`);
  runs that do exist (`NodeLosses.WrappedFundingDangles`), and no later run brings
  the transaction to life (`NodeLosses.UnsentForever`). The invariant is kept
  (`NodeChannelSteps.FundingReadyKeepsInv`).
- An issue with an invalid ticker, name or precision colours its entry before it
  stops, and the entry stays coloured and empty (`NodeState.DoIssue`).
- Issuing an invoice again under a claimed hash forgets the claim
  (`Bookkeeping.ReusedHashForgetsTheClaim`); success is kept exactly while no
  invoice follows the latest claim (`Bookkeeping.SucceededExactly`).
- A send of amount zero selects nothing and goes no further
  (`NodeEffects.SendOutcome`).

## Assumptions

These are the conditions of `NodeState.Enabled`, `NodeState.Deliverable`,
`SwapProtocol.Enabled`, `SwapProtocol.Faithful` and `MakerRoute.CarriesStitched`.

- New transaction ids, opouts, contract ids and payment hashes are fresh.
- Each command or event is one step; lookup, check and removal of a whitelisted
  trade happen under one lock.
- A blinded UTXO gets one assignment, and an accepted transfer moves no more than
  others hold.
- A closing output of ours carries one allocation worth its whole share; several
  assignments to one output are taken as merged.
- Coin selection uses the forced inputs, avoids the excluded ones, and lays out
  outputs as the `Untouched` ordering does, with the drain output third.
- A funding transaction confirms only if its inputs are still unspent. Nothing
  in the node reserves them.
- Closing transactions reveal to the node exactly the channel's allocation.
- Contract ids print without a colon and read back as themselves.
- Both nodes of a swap run the same build, and clocks fit u64.
- The amounts an interceptor sees are those of the hops next to it.

## Model

| member | source | states |
|---|---|---|
| `HexUtils.ToVec` | src/hex_utils.rs:4-23 | a text is accepted exactly when all its bytes are hex digits, and gives one byte per complete pair; the accumulator is at most 15 before each shift |
| `HexUtils.HexStr` | src/hex_utils.rs:26-32 | two lower-case digits per byte, high half first |
| `HexUtils.EncodeThenDecode` | src/hex_utils.rs:4-32 | decoding undoes encoding for every byte sequence |
| `HexUtils.DecodeThenEncode` | src/hex_utils.rs:4-32 | re-encoding accepted text gives its lower-case form without an odd trailing digit |
| `HexUtils.DecodeAgreesUpToCase` | src/hex_utils.rs:8-20 | two even-length texts name the same bytes if and only if they differ only in case |
| `HexUtils.NibbleExactly` | src/hex_utils.rs:10-15 | a byte is read as a digit if and only if it is one of the sixteen, in either case, and then as its place |
| `HexUtils.DecodedValue` | src/hex_utils.rs:8-20 | a decoded byte is sixteen times its first digit and its second |
| `HexUtils.EncodeExactly` | src/hex_utils.rs:26-32 | a byte is printed as its quotient and remainder by sixteen, as lower-case digits |
| `Decimal.ShowThenParse` | src/swap.rs:77-80 | every u64 printed in decimal is read back |
| `Decimal.ParseExactly` | src/swap.rs:77-80 | a text is read as a number if and only if it is that many in digits, after one plus sign or none, and fits |
| `Decimal.ValueOfAppend` | src/swap.rs:77-80 | digits in front weigh ten for each that follows |
| `Decimal.ValueOfShow` | src/cli.rs:1167-1176 | the printed digits are worth the number, for any size |
| `SwapString.SplitOfJoin` | src/swap.rs:65-75 | splitting on colons undoes joining any number of colon-free parts |
| `SwapString.OfferThenFromStr` | src/swap.rs:64-115 | the text `makerinit` prints is read as the same asset, side, amount, expiry and hash at amount * price, and fails exactly where that product does |
| `SwapString.AcceptedTextsAreOffers` | src/swap.rs:64-115 | any accepted text, printed again as an offer, is read as the same swap |
| `SwapString.ReadExactly` | src/swap.rs:64-115 | a text is accepted as a swap if and only if it joins six colon-free parts that say that swap |
| `SwapString.RefusedExactly` | src/swap.rs:73-111 | which error a refused text gets, in the order of the checks |
| `SwapString.ProductExactly` | src/swap.rs:104-107 | the product is exact when it fits; otherwise a development build has none and a release build what is left below 2^64 |
| `SwapString.ParsedAmounts` | src/swap.rs:100-112 | the asset amount is non-zero; the msats are if and only if the product does not wrap to zero |
| `SwapString.ReleaseBuildCanPriceAtZero` | src/swap.rs:104-107 | concrete offers to buy and to sell that a release build reads as costing nothing |
| `Intercept.Taker.Insert` | src/cli.rs:1232-1235 | whitelisting a trade replaces the one under its hash |
| `Intercept.Taker.HtlcIntercepted` | src/main.rs:985-1086 | the saturating checks, the removal and the fail or forward calls are those of the step function that the lemmas below pin |
| `Intercept.ForwardMovesTheTrade` | src/main.rs:1043-1072 | any trade settled and passed on as asked moves exactly its assets, counting what the forwarding call carries; a priced one its msats for a sale, and its msats less `min(inbound, HTLC_MIN_MSAT)` for a purchase |
| `Intercept.AcceptedExactly` | src/main.rs:1042-1084 | an HTLC is forwarded if and only if its channels carry the asset on the inspected side only, it moves exactly the trade's assets and leaves the agreed msats; the call then carries its id, next channel, expected msats and expected asset |
| `Intercept.DecidedExactly` | src/main.rs:1031-1084 | over any run each event leaves one entry, and an HTLC is forwarded, with those amounts, if and only if it settles the trade then waiting under its hash, which it uses up |
| `Intercept.CallsAreExactly` | src/main.rs:996-1085 | over any run each forward entry stands for one forwarding call with its amounts, each rejection for one failing call, and only unflagged HTLCs are failed besides |
| `Intercept.ProtectedExactly` | src/main.rs:1059-1072 | every HTLC accepted for a trade costs at most, and earns at least, what was agreed if and only if the trade is not a sale at zero |
| `Intercept.CappedExactly` | src/main.rs:1046-1058 | no HTLC accepted for a trade gains more than the HTLC minimum over what was agreed if and only if the trade is not a purchase at zero |
| `Intercept.PricedTradesBind` | src/main.rs:1046-1067 | every HTLC accepted for a trade pays as agreed, up to the HTLC minimum on a purchase, if and only if its msats are not zero |
| `Intercept.ZeroPriceSaleCanCost` | src/main.rs:1059-1072 | a sale at zero msats accepts every HTLC of its asset that passes on at least what arrives, and the taker pays all the difference |
| `Intercept.RunSettlesExactly` | src/main.rs:1031-1084 | over any interleaving of whitelistings and HTLCs, assets moved equal the trades used up; msats are at least theirs when no sale is at zero, and at most the HTLC minimum per purchase more when no purchase is |
| `Intercept.ForwardsAreWhitelisted` | src/main.rs:1031-1084 | insertions of a hash are each forwarded once, replaced or still waiting, so forwards never outnumber them |
| `Intercept.ResolvedExactlyOnce` | src/main.rs:996-1085 | over any run an HTLC is failed or forwarded exactly once if and only if it is flagged as a swap |
| `MakerRoute.Stitch` | src/cli.rs:1821-1855 | changing the hops in place and concatenating gives the path described hop by hop |
| `MakerRoute.FlagMarksTheTaker` | src/cli.rs:1821-1822 | the flag is set at the first hop out of the taker and nowhere else it was not; masking restores exactly the unmarked ids |
| `MakerRoute.StitchTouchesOnly` | src/cli.rs:1824-1855 | nodes never change, one fee is overridden, and amounts change on the maker's asset leg only |
| `MakerRoute.StitchedIsCircular` | src/cli.rs:1832-1855 | connected legs to and from the taker make one connected circular path |
| `MakerRoute.StitchedPathMeetsTheTaker` | src/cli.rs:1765-1850 | the stitched path has the asset on exactly the leg the taker inspects, so acceptance depends only on its channels and the msats |
| `Bookkeeping.Node.MakerInit` | src/cli.rs:1744-1744 | the offered trade is recorded under its hash |
| `Bookkeeping.Node.PaymentClaimed` | src/main.rs:447-481 | the payment succeeds, keeping the amount of an existing entry, and the trade is removed |
| `Bookkeeping.Node.PaymentSent` | src/main.rs:482-505 | visiting the whole outbound map equals updating one key |
| `Bookkeeping.Node.Fail` | src/main.rs:513-527 | a known payment fails, an unknown one changes nothing |
| `Bookkeeping.TablesFollowTheRun` | src/main.rs:447-481 | with fresh hashes a hash is in the trade table if and only if offered and not claimed, and claimed hashes stay succeeded |
| `Bookkeeping.SucceededExactly` | src/main.rs:461-477 | for any run a payment is succeeded if and only if no invoice followed its latest claim |
| `Bookkeeping.OutboundExactly` | src/cli.rs:2054-2063 | for any run a payment is outbound if and only if it was started, with the latest start's secret and amount, and has a preimage if and only if it was sent since |
| `Bookkeeping.OutcomeExactly` | src/main.rs:482-527 | for any run an outbound payment has succeeded if and only if the last thing heard of it is that it was sent, and failed if and only if that is a failure or a refused start |
| `Bookkeeping.InboundExactly` | src/main.rs:455-478 | for any run a payment is inbound if and only if it was invoiced or claimed, with the status, preimage and secret of the latest, and the latest invoice's or else the first claim's amount |
| `Bookkeeping.TradesExactly` | src/main.rs:480-480 | for any run a hash holds the trade last offered under it if and only if that offer came after its latest claim |
| `Bookkeeping.PurposeExactly` | src/main.rs:455-460 | an invoice's claim has a secret, a spontaneous one a preimage and no secret |
| `Bookkeeping.ReusedHashForgetsTheClaim` | src/cli.rs:2152-2161 | a claim followed by an invoice for the same hash leaves it pending |
| `SwapProtocol.InitMeansItsTrade` | src/cli.rs:1124-1176 | the text `makerinit` prints is read as the trade it records |
| `SwapProtocol.RunKeepsInv` | src/cli.rs:1073-1328 | every run of offers, readings, executions, HTLCs and payments keeps both nodes' tables in step with the printed texts |
| `SwapProtocol.OfferedExactly` | src/cli.rs:1098-1176 | `makerinit` does anything if and only if its numbers are not zero, the side is known, the product exists and, when the taker buys, the maker holds the asset; then it records that trade and prints it |
| `SwapProtocol.TakenExactly` | src/cli.rs:1194-1235 | `taker` does anything if and only if the text is readable, not expired and, for a sale, covered; then it whitelists that trade |
| `SwapProtocol.WhitelistedExactly` | src/cli.rs:1194-1235 | over every run the trades ever whitelisted are exactly those of readings in time and covered |
| `SwapProtocol.ExecutedExactly` | src/cli.rs:1286-1328 | `makerexecute` starts a payment if and only if the offer is readable and not expired and the preimage and legs are found |
| `SwapProtocol.HandledExactly` | src/main.rs:447-527 | an HTLC changes the taker by its handler only, a payment event the maker's tables by theirs only |
| `SwapProtocol.OffersCanBeTaken` | src/cli.rs:1167-1235 | from any reachable state, an offer that passes the maker's checks and is read in time by a taker able to cover it puts the same trade in both tables, and an HTLC that settles it is forwarded |
| `SwapProtocol.WhitelistedOffersAgree` | src/cli.rs:1194-1235 | a trade whitelisted from a printed text is, until claimed, in the maker's table under the same hash with the same contract and swap type |
| `SwapProtocol.ForwardedOffersAreHonoured` | src/main.rs:1031-1086 | the settlements are all the forwards of the taker's log, and one read from a printed offer carries that offer's trade and settles it |
| `SwapProtocol.TakerAccounts` | src/main.rs:1031-1084 | in every reachable state of maker and taker the taker's assets moved equal the trades it forwarded, and in a development build its msats do up to the HTLC minimum per purchase; in a release build each bound holds if no sale, or no purchase, was forwarded at zero |
| `SwapProtocol.ReleaseSaleCanCost` | src/swap.rs:104-107 | for any amounts, a release build reaches a state in which the taker, having read a printed offer to sell, is short of what its trades agree by exactly the difference |
| `SwapProtocol.ExecutionIsRecorded` | src/cli.rs:1863-1889 | executing a readable offer in time records a payment of its msats, pending if the payment was accepted and failed otherwise |
| `SwapProtocol.ExecutedOfferIsForwarded` | src/cli.rs:1275-1328 | in every reachable state, an HTLC over the path of any execution so far, for a trade whitelisted from the same text, is accepted if and only if channels and msats fit, at any price, and its payment is on the maker's books |
| `Ledger.GetAssetOwnedValues` | src/rgb_utils.rs:47-67 | the loop finds exactly the contract's allocations on unspent outpoints |
| `Ledger.GetRgbTotalAmount` | src/rgb_utils.rs:38-45 | the sum is that of the contract's unspent allocations and stays within u64 |
| `Ledger.AttachState` | src/rgb_utils.rs:154-167 | every allocation of the contract on a previous output is added as input |
| `Ledger.SelectInputs` | src/cli.rs:446-459 | the loop takes opouts in key order until they cover the amount, without overflow |
| `Ledger.SelectedIsLeastCover` | src/cli.rs:446-459 | the selection covers the amount if and only if the whole does; it is a prefix, and no shorter prefix covers |
| `Ledger.TakenExactly` | src/cli.rs:446-459 | an allocation is selected if and only if those in front of it do not cover the amount |
| `Ledger.ChangeIsBelowTheLast` | src/cli.rs:461-462 | change is strictly below the last amount selected |
| `Ledger.SelectedIsWithinAnyCover` | src/cli.rs:446-459 | any prefix that covers the amount contains the selection |
| `Ledger.AttachedBeyondSelected` | src/rgb_utils.rs:161-167 | for any history, attached and selected sums agree if and only if what shares the outpoints is worth nothing |
| `Ledger.AttachedIsSelected` | src/rgb_utils.rs:161-184 | with one allocation per outpoint the transition attaches exactly the selection and its inputs hold nothing else |
| `UtxoList.GetUtxo` | src/cli.rs:2214-2230 | the first uncoloured entry, or none exactly when all are coloured |
| `UtxoList.ColorFreeChanges` | src/cli.rs:307-322 | flagging the free entry changes that entry only |
| `UtxoList.UnspendableUtxos` | src/main.rs:258-271 | the filtered list is every entry but the coloured inputs |
| `UtxoList.UnspendableIsTheRest` | src/main.rs:258-271 | excluded and forced outpoints are disjoint and together the whole list |
| `Sweep.AmountAt` | src/main.rs:682-697 | the nested loops sum the revealed assignments on one output |
| `Sweep.FlatExactly` | src/main.rs:682-686 | the nested loops visit every assignment of every transition, in order, and nothing else |
| `Sweep.ShareExactly` | src/main.rs:687-694 | a revealed assignment adds its amount to its own output only, and a concealed one nothing |
| `Sweep.SharesPartition` | src/main.rs:682-697 | shares of distinct outputs never exceed the revealed total, and equal it if and only if they cover every output of value |
| `Sweep.BeneficiaryVout` | src/rgb_utils.rs:73-83 | the search and `index ^ 1` give the seal's output, or 0 without an OP_RETURN |
| `Sweep.SealVoutExactly` | src/rgb_utils.rs:73-83 | the seal is the other output of the first OP_RETURN's pair, and output 0 without one |
| `Sweep.SealHoldsExactly` | src/rgb_utils.rs:73-83 | with one OP_RETURN the seal lands on a spendable output if and only if the paired output exists; with two outputs it always does |
| `RgbNode.Node.TakeFree` | src/cli.rs:307-322 | the first uncoloured entry is flagged and returned |
| `RgbNode.Node.CreateUtxos` | src/cli.rs:228-261 | four uncoloured entries are pushed for the new transaction's first outputs |
| `RgbNode.Node.IssueAsset` | src/cli.rs:300-334 | a valid issue is allocated whole on a newly coloured entry, an invalid one only colours the entry, and without a free entry nothing changes |
| `RgbNode.Node.ReceiveAsset` | src/cli.rs:555-605 | a newly coloured entry is handed out for receiving, or nothing changes |
| `RgbNode.Node.RefreshFile` | src/cli.rs:612-671 | an accepted consignment lands on the file's outpoint and the file is removed; a refused one leaves only its contract known |
| `RgbNode.Node.Refresh` | src/cli.rs:606-674 | the loop over the files has the effect of the run of their turns and keeps the invariant |
| `RgbNode.Node.SendAsset` | src/cli.rs:394-553 | checks, selection, change and transition have the effect of `DoSend` and keep the invariant; what is attached is all of the contract on the outpoints spent and is the amount plus the recorded change |
| `RgbNode.Node.FundingGenerationReady` | src/main.rs:172-368 | selection, exclusions and the pushed change entry are those of `DoFundingReady`, the wrapped one included; what is attached is all of the contract on the inputs, fee inputs too, and is the channel's amount plus change |
| `RgbNode.Node.ChannelReady` | src/main.rs:936-966 | accepting a funding's consignment gives the channel its amount and the wallet its change, or burns it without a drain output |
| `RgbNode.Node.PeerChannelReady` | src/main.rs:936-966 | accepting a peer's funding puts its allocation on the channel and in no one else's hands |
| `RgbNode.Node.SpendableOutput` | src/main.rs:607-922 | a swept output's share moves to the outpoint recorded as coloured |
| `RgbNode.Node.SpendableOutputs` | src/main.rs:600-926 | the loop over coloured and plain outputs has the effect of the run of their sweeps and keeps the invariant |
| `NodeRuns.StepKeepsInv` | src/cli.rs:199-674 | every enabled step keeps the whole invariant |
| `NodeChannelSteps.FundingReadyKeepsInv` | src/main.rs:230-364 | building a funding keeps the invariant |
| `NodeChannelSteps.FundingSeenKeepsInv` | src/main.rs:936-966 | so does its confirmation, with or without a drain output |
| `NodeChannelSteps.SweepKeepsInv` | src/main.rs:600-926 | so does a sweep, wherever its seal points |
| `NodeRuns.ListDiscipline` | src/cli.rs:461-483 | in every reachable state outpoints are distinct, holders are coloured, uncoloured entries are unspent and empty, and no unspent outpoint holds two allocations |
| `NodeRuns.RunExtends` | src/main.rs:899-912 | over every run entries keep their place, no flag is reset, and no supply is revised |
| `NodeLaws.ListFollowsTheStep` | src/cli.rs:307-322 | in every reachable state an entry is coloured after a step if and only if it was, or the step flags it, or adds it for change or a sweep; and uncoloured if and only if it was and is not flagged, or `createutxos` adds it |
| `NodeLaws.FilesFollowTheStep` | src/cli.rs:555-671 | a handed-out outpoint is awaited after a step if and only if it was and no transfer to it is accepted now, or `receiveasset` has just flagged it |
| `NodeLaws.AwaitedUntilDelivered` | src/cli.rs:606-674 | over every run a handed-out outpoint is awaited until a transfer to it is accepted, which leaves exactly its consigned allocation there for good |
| `NodeLaws.NeverHandedOutAgain` | src/cli.rs:563-578 | over every run, what is coloured and not awaited is never handed out |
| `NodeLaws.HistoryFollowsTheStep` | src/cli.rs:484-550 | in every reachable state an allocation is on record after a step if and only if it was, or the step records it, with that contract, outpoint and amount |
| `NodeLaws.RecordedForever` | src/rgb_utils.rs:154-184 | over every run what is on record stays |
| `NodeLaws.OutpointsFollowTheStep` | src/main.rs:172-423 | in every reachable state an outpoint is in the wallet, or among those of channels, after a step if and only if it was and is not spent, or the step makes it |
| `NodeLaws.FundingsFollowTheStep` | src/main.rs:258-402 | in every reachable state a funding is awaited after a step if and only if it was and is not seen now, or the step gives it away with its selection, fee inputs and change |
| `NodeLaws.ClosingsFollowTheStep` | src/main.rs:628-640 | a closing's bundle is on file after a step if and only if it was, or the step is that closing |
| `NodeFlows.SupplyFollowsTheStep` | src/cli.rs:642-652 | a contract is known, with its supply, after a step if and only if it was, or is issued or first heard of in a transfer now, accepted or not |
| `NodeFlows.OutcomesExactly` | src/cli.rs:300-306 | exactly what stops an issue, a receipt, a refresh or a sweep |
| `NodeRuns.SupplyIsConserved` | src/cli.rs:447-459 | wallet, channels, others and burnt amounts sum to the supply, which fits u64 |
| `NodeLosses.LossesAreExactly` | src/main.rs:329-346 | in every reachable state, each step leaves live allocations plus what others hold unchanged, less exactly the change without an output and the sweeps whose seal misses |
| `NodeLosses.LossesOverRuns` | src/main.rs:329-346 | over every run, what can be spent of a contract falls by exactly the sum of those losses |
| `NodeLosses.WrappedFundingDangles` | src/main.rs:230-242 | for every issue, a release build reaches a state that lists a change entry of an unsent transaction |
| `NodeLosses.UnsentForever` | src/main.rs:354-402 | over every run, a known transaction neither given away nor seen never comes to life |
| `NodeLosses.FundingCanBurn` | src/main.rs:271-346 | for every issue and every smaller channel amount, a run without a drain output burns the difference |
| `NodeLosses.SweepCanBurn` | src/rgb_utils.rs:73-83 | for every issue, a run ends with all of it burnt by a sweep whose only output is the OP_RETURN |
| `NodeEffects.TransitionBalances` | src/rgb_utils.rs:154-184 | in every reachable state the state attached at the chosen inputs is what was selected, covers the amount if and only if the balance does, and nothing else is spent |
| `NodeEffects.SentIsAttached` | src/cli.rs:492-528 | a send that goes through spends outpoints whose whole state is the amount and the recorded change, of no other contract |
| `NodeEffects.FundingTransitionBalances` | src/main.rs:271-346 | in every reachable state the state at all inputs of a funding, fee inputs included, is the selection, and nothing of any other contract |
| `NodeEffects.FundingTouchesOnlyTheChosen` | src/main.rs:258-291 | in every reachable state forced and excluded outpoints are disjoint and make up the list, and uncoloured and handed-out ones are excluded |
| `NodeEffects.SendOutcome` | src/cli.rs:400-528 | in any state, which check stops a send, for each input, and exactly when it goes through |
| `NodeEffects.FundingOutcome` | src/main.rs:211-364 | in any state, a funding is given away if and only if it is plain or its contract is known and the balance covers it; a stopped one changes the list if and only if a known contract falls short and the difference wraps |
| `NodeEffects.BalanceFollowsTheStep` | src/cli.rs:492-550 | every step changes every contract's balance by exactly its stated effect |
| `NodeEffects.BalanceFollowsTheRun` | src/rgb_utils.rs:38-45 | over every run the balance read from stash and wallet is the sum of the steps' effects |
| `NodeFlows.ChannelsFollowTheStep` | src/main.rs:936-966 | every step changes what channels hold of every contract by exactly its effect: a funding's amount, ours or a peer's, what is not ours of a closing, a swept output |
| `NodeFlows.ChannelsFollowTheRun` | src/main.rs:936-966 | over every run channels hold the sum of those effects |
| `NodeFlows.OutsideFollowsTheStep` | src/cli.rs:492-550 | in every reachable state what others hold changes by exactly what a step gives and takes |
| `NodeFlows.OutsideFollowsTheRun` | src/cli.rs:492-550 | over every run others hold the sum of that |
| `NodeEffects.OthersKeepTheirAllocations` | src/cli.rs:500-512 | a step about one contract leaves every wallet allocation of another in place |
| `NodeEffects.OthersKeepOverRuns` | src/cli.rs:500-512 | over any run whose steps are never about a contract, the wallet keeps every allocation of it |

## Left out

- Electrum, bitcoind, the proxy, files, logging and the terminal: only their
  outcome enters, as a parameter of the step.
- Satoshi values and fees: which UTXOs pay is a parameter, and the checks of
  available satoshis (src/cli.rs:211-226) are not part of this model.
- The RGB library: consignments, seals, anchors and validation. The history is
  extended when the transaction of a transition is sent or seen, not when
  `send_rgb` consumes the bundle (src/rgb_utils.rs:186-212). Accepting a transfer
  that is not valid is taken to record nothing of it.
- Locking of the RGB runtime, and steps of different tasks interleaving within
  one command.
- The lightning library: channel updates between funding and closing, HTLC
  outputs of a closing, onion and per-hop msat totals of the circular route, and
  the value of the swap flag.
- RgbNode.Node.FundingGenerationReady: gives the funding transaction to the
  channel in the same step as building it; that it may be refused is the run in
  which it is never seen. Whether a wrapped, unbalanced transition gets as far
  as the list is a parameter, since the library decides it.
- RgbNode.Node.ChannelReady: takes the wallet's sight of the transaction and the
  acceptance of its consignment as one step, and the consignment from the
  model's record of the funding instead of a file.
- RgbNode.Node.SpendableOutputs: does not track the outpoints of plain channels,
  whose sweeps only add wallet outputs.
- Deposits and channel closings are events of the model's runs only: for the
  former no code of the node runs, and for the latter it only prints.
- The file and channel bookkeeping of `SwapProtocol.Event.MakerExecutes`: whether
  the preimage and both route legs are found is one parameter.
- `fetch_price` and its floating-point arithmetic: the price is a parameter.
- Outbound payment statuses over runs: paying an invoice again overwrites its
  entry, so they are not monotone.
- Command-line parsing, configuration, key handling and `listpayments`-style
  queries: they would add only easy members.
