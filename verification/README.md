# Polyleverage, verified

A Dafny model of the on-chain core of Polyleverage: peer-to-peer leverage contracts on prediction
markets, matched from an on-chain book of intents and settled against a signed price.

The project has three layers, each proved against the one below or beside it.

* **The book.** One array of slots holds two red-black trees of intents, a red-black tree of seats, a
  freelist, and an untouched tail. `Trees` gives ghost trees and zippers and says when the links of the
  array represent them; `Rotations`, `Insertion`, `Rebalancing` and `Removal` are the tree algorithms on the
  array itself; `Arena` separates the structures that share it; `Walk` and `Matcher` are the bounded-stack
  walk and the searches, proved against exhaustive search; `Expansion` is the growing of a book; `Desk`,
  `Posting` and `Filling` are what the instructions do to a book, stated as changes to the set of resting
  orders; `Exhaustion` repeats the best match, on the book alone and as the whole instruction.
* **The ledger.** `Ledger` is the state of one collateral mint over any number of markets, and the equalities
  between accounts, resting orders, live positions, treasury and vault. `Operations`, `Trades`,
  `Settlements`, `Handovers` and `Reentry` say when each instruction goes through, what it moves, and that it
  keeps the equalities; `Outcomes` restates the moves account by account; `Runs` takes them over any sequence of
  instructions; `Chains` follows one side of a position through any number of settling substitutions; `Sizes`
  keeps prices, entries and sizes over runs and says when arithmetic cannot stand in the way of a settlement;
  `Payouts`, `Rules`, `Succession` and `Limits` say of every instruction, in plain arithmetic on orders, positions and
  accounts and without the ledger's own definitions, when it goes through and the whole state it leaves; and
  `Sample` and `Extremes` hold short runs that reach each guarded instruction and each failing case.
* **The instructions.** `Margin`, `Exchange`, `Settling`, `Trading`, `Substituting`, `Ordering` and `Inline`
  update fields and the book step by step with the source's checked 64-bit arithmetic, and are proved to go
  through when the ledger layer says so and to do what it says.

`FixedPoint`, `Fees`, `Schedule`, `Volume` and `Attestations` are the arithmetic and the guards they use.

Conventions. A failed instruction is rolled back by the runtime, so a method that reports failure promises
nothing about the fields it was changing, and a step of a run that cannot go through leaves the state as it
was. Signatures and account addresses are preconditions, except that a match is told whether the accounts
given are those of its pair, since inside a post that failure is not rolled back; token transfers are
changes to the vault; the clock and attestations are arguments. Public keys are natural numbers in their
byte order. Machine widths are written out where the source narrows, saturates or checks. A position keeps
its 128-bit size as one number instead of two halves.

The intent trees and the seat tree are the same algorithm in two files of the source; the model has it once,
parameterised by the tree (`Which`), with the seat tree's refusal of equal keys as a case of the descent.

Five things turned out conditional, and the exact conditions are proved.

* **Liquidation** conserves value exactly when the bounty is at most the pot (`LiquidationConserves`). A bounty
  rate up to 20000 basis points guarantees it; instrument creation does not bound the rate, and at every 16-bit
  rate above that a run reaches a liquidation that breaks the equalities (`OversizedBountyBreaks`). So the
  equalities hold throughout a run exactly when no liquidation in it pays more than its pot
  (`EveryStateLevelIff`), while what is said of ids, nonces, flags and statuses holds of every run.
* **A match tried inside a post** is not rolled back when it fails, and it only fails after its book part. What
  it leaves, stated for each way of failing (`LeftAfter`), meets the equalities exactly when it did not fail: when an id
  is left, the accounts are right, both volume counters have room, the taker can pay the fee, and the position can
  be sized (`InlineMatchKeepsInvIff`). Runs reach a swallowed fee (`SwallowedFeeReached`) and, on an instrument
  that creation accepts, a swallowed size (`UnsizedReached`). Runs contain posts and matches as separate steps.
* **Expanding a book** puts the new slots on the freelist and leaves them within reach of the bump counter. An
  expanded book is as sound as before and every operation keeps it so; the allocator hands out an unused slot
  exactly while the freelist or the old tail lasts (`AllocNode`), and on every expanded book allocating for long
  enough goes past that point (`AllocateUntilReuse`).
* **Settling substitutions** take every premium from the position's entry, so the premiums of successive
  substitutions do not telescope (`PremiumsTelescopeIff`, `RelayReached`). What the successive holders net does, as
  long as nothing else hands the side over between one leg and the next: together exactly the profit from the
  entry to the last mark (`NetsTelescope`). With a novation in between, the trader who leaves need not be the one
  who came in (`DetourReached`), and only the rise from premium to premium is known (`RiseIsLegProfit`).
* **Settlements** compute the profit in checked 128-bit arithmetic. A position has equities at every mark up to a
  given one exactly when it has them at zero and at that one (`EquitiesOkIff`); instruments whose tick is not too
  fine for their bucket and leverage open no other position (`NeverBlocked`); creation accepts finer ones, and a run
  reaches a live position there that cannot be closed, liquidated or resolved as even at most marks
  (`SettlementBlocked`).

Where the source's comments and code differ, the model follows the code: `src/processor/match_ix.rs:5-6` speaks
of the oldest overlapping long, while the scan takes the best-priced one and uses age only on ties;
`src/processor/settlement.rs:217` mentions a fee that liquidation does not charge; and
`src/processor/match_ix.rs:14-15` says the taker pays from its fee buffer, while the code first frees the
buffer's share and then charges the free balance, so a fee above the share is paid from other free funds; and
`src/math/fixed.rs:73` says a size fits i128 easily, which `NeverBlocked` confirms for coarse enough ticks and
`SizeWraps` refutes for others.

Run `dafny verify dfyconfig.toml` to check everything.

## Model

| member | source | states |
|---|---|---|
| IntentBook.Book.constructor | src/state/intent_book.rs:384-419 | a fresh book is sound: only the sentinel is taken, three empty trees, empty freelist, counters at 1 |
| Rotations.RotateLeft | src/state/intent_tree.rs:135-159 | rewrites exactly the links of the two turned nodes, the moved subtree and the parent (or root); it succeeds whenever the right child exists |
| Rotations.TurnLeftAt | src/state/intent_tree.rs:135-159 | rotating a node of a represented tree represents the turned tree: same slots, same in-order sequence, payloads untouched |
| Rotations.RotateRight | src/state/intent_tree.rs:161-183 | the mirror image |
| Rotations.TurnRightAt | src/state/intent_tree.rs:161-183 | the mirror image |
| Insertion.Descend | src/state/intent_tree.rs:192-252 | the descent ends under the one parent where the key belongs, equal intent keys going right; it stops early exactly on a seat of the same trader |
| Insertion.FixLeft | src/state/intent_tree.rs:256-307 | one round of the fixup under a left grandparent link keeps the tree with at most one red-red breach, strictly higher up |
| Insertion.InsertFixup | src/state/intent_tree.rs:256-307 | the loop ends with a valid red-black tree over the same slots in the same order |
| Insertion.Insert | src/state/intent_tree.rs:192-307 | a valid search tree becomes a valid search tree over the old slots plus exactly the new one, at its place in the order; only a null index or a second seat for a trader is refused, leaving the tree alone |
| Removal.TreeMinimum | src/state/intent_tree.rs:312-321 | finds the leftmost node, without leaving the tree |
| Removal.Transplant | src/state/intent_tree.rs:324-339 | puts v where u hung, rewriting only the link to u and v's parent link, and the root when u was the root |
| Removal.Promote | src/state/intent_tree.rs:362-396 | the successor takes the place, colour and children of the removed node; what it left behind is short of a black level exactly when it was black |
| Rebalancing.Mend | src/state/intent_tree.rs:409-470 | one round of the fixup, all four cases on both sides, with a null x tracked through its parent: the missing black level moves up or is made good, and the measure falls |
| Rebalancing.RemoveFixup | src/state/intent_tree.rs:401-476 | the loop terminates and leaves a valid red-black tree over the same slots in the same order |
| Removal.Remove | src/state/intent_tree.rs:342-398 | a valid search tree becomes a valid search tree over exactly the other slots, in the same order, every payload untouched; only the null index is refused |
| Walk.HeightBound | src/state/intent_tree.rs:496-500 | a red-black tree of black height h is at most 2h (2h + 1 under a red root) high and holds at least 2^h - 1 nodes |
| Walk.SearchTreeHeight | src/state/intent_tree.rs:496-500 | any tree in a pool of fewer than 2^32 slots is at most 62 high |
| Walk.ForEachBestFirst | src/state/intent_tree.rs:486-526 | the stack walk visits a prefix of the in-order sequence, goes on exactly while the visitor says so, and never overruns its 64 stack slots |
| Arena.AllocNode | src/state/intent_book.rs:254-273 | the slot handed out, never the sentinel, is unused exactly while the freelist or the untouched tail lasts, and then every structure stays sound; with both used up it refuses at the capacity, and below it, on an expanded book, hands out a slot in use |
| Arena.FreeNode | src/state/intent_book.rs:276-288 | a loose slot joins the freelist, which stays acyclic; refused exactly for the sentinel and out-of-range indices |
| Arena.Write | src/state/intent_book.rs:329-349 | filling a loose slot disturbs no tree and no list |
| Arena.Update | src/processor/match_ix.rs:413-414 | rewriting a node in place keeps every tree sound when its key is not moved |
| Arena.InsertNode | src/state/intent_tree.rs:192-307 | linking a slot into one tree moves that slot alone from loose to member; the other two trees, the freelist and the tail are as they were |
| Arena.RemoveNode | src/state/intent_tree.rs:342-476 | unlinking a slot moves that slot alone from member to loose; everything else in the pool is as it was |
| Expansion.LinkNewSlots | src/processor/instrument.rs:373-382 | the loop puts every new slot on the freelist, last first, in front of what was there, and touches no old slot |
| Expansion.ExpandIntentBook | src/processor/instrument.rs:300-386 | a sound book becomes a sound larger book: old slots, links, roots and counters as they were, every new slot on the freelist, the bump counter and the end of the tail unmoved; refused exactly for no slots or too many |
| Expansion.AllocateUntilReuse | src/state/intent_book.rs:262-272 | on every expanded book, allocating without freeing hands out each free slot once and then hands out one again |
| Expansion.HandedOutTwice | src/processor/instrument.rs:369-382 | a fresh book of 16 slots grown by one hands its new slot out twice |
| Matcher.FirstLive | src/state/intent_tree.rs:530-545 | returns a live order that no live order of the side precedes, and none only when no order of the side is live |
| Matcher.FindOverlapOnSide | src/processor/match_ix.rs:257-285 | returns the id of the best live order, other than the one to skip, that crosses the taker, and none only when no such order crosses |
| Matcher.ScanForFirstValidPair | src/processor/match_ix.rs:296-308 | returns a pair if and only if some live bid and live ask cross, and then the best of each side |
| Matcher.PriorityIsPriceTime | src/state/intent_tree.rs:19-37 | being first in key order means the better price and, at equal price, the earlier post |
| Desk.FindIntentById | src/processor/match_ix.rs:690-701 | returns the only resting intent with the id, on its own side's tree, and none only when there is none |
| Desk.FindSeat | src/state/seat_tree.rs:126-137 | returns the trader's seat, and the null index only when the trader has no seat |
| Posting.FindOrCreate | src/state/seat_tree.rs:248-272 | returns the trader's seat, changing nothing if there was one; fails exactly for a new trader on a full book; every order on the book keeps its owner |
| Desk.Rest | src/processor/intent.rs:365-391 | a new node goes into a slot that was free and changes the resting orders by exactly that order; only a full pool refuses |
| Desk.TakeOff | src/processor/intent.rs:571-573 | removes exactly one resting order and returns its slot to the freelist |
| Posting.Amend | src/processor/match_ix.rs:413-414 | changes exactly one order's counters in place |
| Posting.CountUp | src/processor/intent.rs:357-361 | one more active intent on a seat, refused only when the 32-bit count is full; no order changes |
| Posting.CountDown | src/processor/intent.rs:574-575 | fewer active intents, stopping at none; no order changes |
| Posting.SeatUp | src/processor/intent.rs:355-361 | seats the trader and counts one intent more than rest under the seat |
| Posting.CoveredByFewer | src/processor/intent.rs:313-324 | when every seat's count covers the intents resting under it, taking some of one seat's off leaves room under it for as many |
| Ordering.CountedDown | src/processor/close_prune.rs:340-345 | so lowering the count by as many never stops short at zero, and it goes on covering what rests |
| Ordering.DropIntent | src/processor/intent.rs:571-575 | an intent taken off the book lowers its seat's count by exactly one |
| Posting.NextIntentId | src/state/intent_book.rs:361-367 | hands out ids that no intent carries, refused only when the counter cannot advance |
| Posting.NextSeq | src/state/intent_book.rs:352-358 | hands out increasing sequence numbers, refused only when the counter cannot advance |
| Posting.PlaceIntent | src/processor/intent.rs:355-391 | a posted intent appears under its trader with a fresh id and the next sequence number, and no other order changes; refused exactly when slots, a seat's count, or a counter run out; counts go on covering what rests |
| Posting.CollectStale | src/processor/intent.rs:286-311 | lists the first expired intents of a seat by slot, at most four, and stops short of four only when there are no more |
| Posting.TakeOffAll | src/processor/intent.rs:313-319 | takes exactly the listed intents off the book and totals what they reserved; fails only when the total leaves 64 bits |
| Filling.ReleaseOne | src/processor/match_ix.rs:394-403 | one contract frees its pro-rata share, or the whole buffer if it is the last, and never fails |
| Filling.Resolve | src/processor/match_ix.rs:344-364 | two ids resolve exactly when they name an unexpired bid and ask with contracts left that cross |
| Filling.TakeContracts | src/processor/match_ix.rs:377-423 | exactly one contract, its bucket and its share of the fee buffer leave each of the two orders, and an order with none left leaves the book; refused only when a reservation is short of a bucket; seat counts, which it leaves alone, go on covering what rests |
| Exhaustion.FillBest | src/processor/match_ix.rs:138-157 | fills the best live bid with the best live ask at the midpoint of their two limits, taking exactly one contract from each, or finds nothing crossing |
| Exhaustion.MatchToExhaustion | src/processor/match_ix.rs:9-11 | repeated, it stops after no more fills than either side had live contracts, each fill being of the best pair that the fills before it left, at the floor of the mean of the two limits and so within both, and nothing is left crossing |
| Exhaustion.MatchNext | src/processor/match_ix.rs:138-157 | the whole instruction lowers each side's live contracts by one, or stops because nothing crosses or because the best pair cannot be matched, and says why |
| Exhaustion.MatchAll | src/processor/match_ix.rs:9-11 | the instruction repeated by its caller stops likewise, after no more matches than either side had live contracts |
| Exhaustion.UncrossedMeansSpread | src/processor/match_ix.rs:131-137 | then the best live bid is below the best live ask |
| Exhaustion.BookFunded | src/processor/intent.rs:366-389 | in every reachable state each resting order has contracts left and holds exactly one bucket for each |
| FixedPoint.MidpointIsFloorMean | src/math/fixed.rs:35-41 | the bitwise midpoint is the floor of the mean, symmetric, and between the two prices |
| FixedPoint.PnlRounding | src/math/fixed.rs:57-78 | |pnl|·entry <= notional·|mark - entry| < (|pnl| + 2)·entry through both truncating divisions, for marks up to 10^18 |
| FixedPoint.PnlShape | src/math/fixed.rs:71-78 | profit is monotone in the mark and antisymmetric in entry and mark |
| FixedPoint.PnlLeg | src/math/fixed.rs:71-78 | the profit to a second mark is the profit to a first plus the leg between them, to within one atom, for sizes of either sign |
| FixedPoint.WellSized | src/math/fixed.rs:25-78 | if notional·10^18·top < tick·2^127 and top is at least 10^18, two crossing limits that pass the tick check open a position whose size fits i128 and whose profit never overflows at any mark up to top; `NeverBlocked` takes it to every position of every run |
| FixedPoint.EquityExact | src/math/fixed.rs:82-86 | when 2c fits 64 bits the clamp is exact: nothing saturates and the narrowing cast loses nothing |
| Fees.ReleaseCovers | src/processor/match_ix.rs:86-102 | a fill never fails or overdraws the buffer, and if the buffer held u per contract, both the release and the rest still do |
| Fees.ReleasesExhaustBuffer | src/processor/match_ix.rs:86-102 | for any fill sequence of an intent, the releases sum to its buffer exactly |
| Fees.EveryFillCoversItsFee | src/processor/match_ix.rs:86-102 | any fill of k contracts, anywhere in any fill sequence, releases at least k times the per-contract fee the buffer was reserved for |
| Fees.BufferCoversContracts | src/processor/intent.rs:27-40 | a buffer reserved at one rate holds the per-contract fee at any rate up to it, for every contract |
| Fees.SingleReleasesEven | src/processor/match_ix.rs:86-102 | single-contract releases take one of two neighbouring values |
| Schedule.MaxFee | src/state/fee_schedule.rs:111-119 | bounds every tier's fee and is one of them, or zero |
| Schedule.ComputeMaxFeeBps | src/state/fee_schedule.rs:111-119 | the loop returns that maximum |
| Schedule.ValidateTiers | src/state/fee_schedule.rs:122-139 | accepts exactly the tables with ascending thresholds and fees within the cap |
| Schedule.FeeSchedule.FeeForVolume | src/state/fee_schedule.rs:95-105 | the fee of the last tier the volume reaches, or of the first when it reaches none |
| Schedule.FeeTierIsLargestReached | src/state/fee_schedule.rs:96-97 | on an ascending table that is the tier with the largest threshold within reach |
| Schedule.FeeSchedule.SetFeeSchedule | src/processor/fees.rs:142-155 | replaces the table exactly when it is well formed and does not raise the largest fee |
| Schedule.LaterFeesCovered | src/processor/fees.rs:148-152 | whatever schedules follow, no fee looked up later exceeds the largest fee at the time of posting |
| Volume.UserVolume.MaybeRollEpoch | src/state/user_volume.rs:111-139 | after any gap, the two counters are the exact totals of the new epoch and the one before; the checked arithmetic never fails |
| Volume.UserVolume.AddVolume | src/state/user_volume.rs:95-102 | adds to the history's current epoch, refused exactly when that epoch's total would leave 64 bits |
| Volume.UserVolume.Effective30dVolume | src/state/user_volume.rs:105-109 | the larger of the full history's exact totals over the current and the preceding fixed epoch |
| Margin.MarginAccount.MoveFreeToReserved | src/state/margin_account.rs:137-141 | fails exactly for want of free balance or 64-bit room; otherwise the sum is kept and locked is untouched |
| Margin.MarginAccount.MoveReservedToFree | src/state/margin_account.rs:144-148 | the same from reserved to free |
| Margin.MarginAccount.MoveReservedToLocked | src/state/margin_account.rs:151-155 | the same from reserved to locked |
| Margin.MarginAccount.MoveLockedToFree | src/state/margin_account.rs:158-162 | the same from locked to free |
| Operations.PlaceKeepsInv | src/processor/intent.rs:241-255 | a post keeps reserved equal to what resting orders hold, locked equal to live stakes, and the vault equal to all claims |
| Operations.ReleaseKeepsInv | src/processor/intent.rs:577-587 | so does a cancel or prune |
| Operations.ReleaseAllKeepsInv | src/processor/close_prune.rs:307-348 | releasing several orders frees each once and leaves exactly the others |
| Trades.MatchKeepsInv | src/processor/match_ix.rs:576-597 | so does a match |
| Trades.MatchOpens | src/processor/match_ix.rs:425-451 | the opened position has an id no position has, one bucket a side, and the two posters as owners |
| Trades.InlineMatchKeepsInvIff | src/processor/intent.rs:470-477 | what a match tried inside a post leaves, stated for each way it can fail after its book part, meets the equalities if and only if an id is left, accounts and volume counters serve, the taker can pay the fee, and the position can be sized |
| Trades.GoneBreaks | src/processor/match_ix.rs:413-425 | two contracts taken off the book and nothing else leave collateral reserved for nothing |
| Trades.UnpaidBreaks | src/processor/match_ix.rs:564-596 | a fee accrued and then refused by the taker's balance is not in the vault |
| Trades.UnopenedBreaks | src/processor/match_ix.rs:576-625 | an unsizable pair leaves both stakes locked with no position |
| Settlements.AccountsFit | src/state/margin_account.rs:22-27 | in a reachable state no two accounts together are worth more than the vault less the treasury, so balances fit 64 bits |
| Settlements.PotFits | src/processor/settlement.rs:206-207 | in a reachable state a live position's 2c fits 64 bits and both owners have c locked |
| Settlements.EquitiesShareThePot | src/processor/settlement.rs:202-207 | in a reachable state the two equities of a live position sum to exactly 2c, the long's being the plain clamp of c + pnl |
| Settlements.SettlementConserves | src/processor/settlement.rs:423-440 | a settlement keeps the equalities if and only if its payments add up to 2c |
| Settlements.LiquidationConserves | src/processor/settlement.rs:217-278 | in a reachable state, at any bounty rate, liquidation keeps the equalities if and only if the bounty is at most 2c |
| Settlements.BountyWithinPot | src/processor/settlement.rs:219-220 | every bounty rate up to 20000 meets that condition, without narrowing |
| Settlements.BountyFitsIff | src/processor/settlement.rs:219-220 | short of narrowing it is met exactly when c·bps < (2c + 1)·10000 |
| Settling.KeeperHasRoom | src/processor/settlement.rs:274-278 | a bounty within the pot never overflows the keeper's balance |
| Settlements.LiquidateKeepsInv | src/processor/settlement.rs:66-291 | liquidation of an instrument with a rate up to 20000 keeps the equalities |
| Settlements.ResolveKeepsInv | src/processor/settlement.rs:294-457 | resolution keeps the equalities |
| Settlements.CloseMutualKeepsInv | src/processor/close_prune.rs:175-206 | mutual close keeps the equalities |
| Handovers.NovateKeepsInv | src/processor/novate.rs:137-168 | novation keeps the equalities |
| Handovers.SubstituteKeepsInv | src/processor/substitute.rs:323-403 | plain and settling substitution keep the equalities |
| Handovers.BystandersUntouched | src/processor/substitute.rs:9-15 | a substitution leaves every other account, the untouched side among them, and the position's stakes, entry and size as they were |
| Chains.PremiumIsProfit | src/processor/substitute.rs:280-293 | over any run, a leg's premium is the leaving side's profit since the entry, whatever was settled before |
| Chains.RiseIsLegProfit | src/processor/substitute.rs:280-293 | over any chain of legs in any run, with anything in between, the first premium is exactly the profit from the entry to its mark, and each later one exceeds the one before by the profit between the two marks, to within one atom |
| Chains.LegGains | src/processor/substitute.rs:337-388 | a leg between two traders enriches the leaver by the premium in all, and the newcomer by as much less |
| Chains.HoldersNetTheirLegs | src/processor/substitute.rs:280-388 | when nothing hands the side over between legs, the trader leaving on a leg is the newcomer of the leg before, and its own gains on the two legs are together the profit between the marks it came in and left at, to within one atom; the first holder's are exactly the profit from the entry |
| Chains.NetsTelescope | src/processor/substitute.rs:280-301 | however many holders such a chain has, their own gains on its legs are together exactly the profit from the entry to the last mark |
| Chains.PremiumsTelescopeIff | src/processor/substitute.rs:284 | the premiums themselves are within n - 1 atoms of that profit if and only if those before the last sum to that little, which a caller can tell before the last leg |
| Chains.OwnerHolds | src/processor/substitute.rs:394-403 | over any part of any run in which nothing hands a side over, its owner stays |
| Chains.ComerLeavesNext | src/processor/substitute.rs:183-214 | so the trader who comes in on one leg is the one who leaves on the next |
| Chains.LegMoves | src/processor/substitute.rs:337-388 | in the two accounts a leg pays the premium from the newcomer to the leaver, beside their own stakes and releases |
| Chains.LegAside | src/processor/substitute.rs:9-15 | a leg keeps the position live on its terms with the other side's owner, and changes nothing of any third trader |
| Chains.LiveThroughout | src/processor/substitute.rs:394-403 | in every state from the first leg of a chain to the last, with anything in between, the position is live on the same terms |
| Chains.OtherSideUntouched | src/processor/substitute.rs:9-15 | in every such state the terms are the same, both stakes are locked and 2c is in the vault while no bounty has exceeded its pot, the other side's owner is the same unless a step other than the legs handed that side over, and what a bystander of the legs has there changed by the other steps alone |
| Attestations.ValidateFreshnessAndNonce | src/attestation.rs:221-242 | accepts exactly attestations for the market, neither future nor stale, with a nonce above the last accepted one |
| Outcomes.MatchMoves | src/processor/match_ix.rs:576-597 | who gains what in a match, the later poster paying the fee, and the position opened between them |
| Outcomes.LiquidationPays | src/processor/settlement.rs:217-278 | at any bounty rate the side worth more gains 2c less the bounty, or nothing when the bounty is more, the other loses its stake, the keeper gains the bounty, nobody else moves; up to a rate of 20000 the bounty is within 2c |
| Outcomes.ResolvePaysTheWinner | src/processor/settlement.rs:408-440 | outcomes 0 and 10000 give one side 2c and the other nothing |
| Outcomes.CloseMutualPays | src/processor/close_prune.rs:175-206 | each side gains its equity at the attested price and gives up its stake |
| Outcomes.NovationMoves | src/processor/novate.rs:137-168 | c passes from the new owner's free balance to the old owner's, the stake the other way, the position otherwise unchanged |
| Outcomes.SubstitutionMoves | src/processor/substitute.rs:280-403 | the premium is the leaving side's signed profit at the orders' midpoint, and is all that passes between the two besides their own releases and stakes |
| Reentry.ContractsToRepost | src/processor/reentry.rs:155-209 | refused exactly when the reservation at the collateral ceiling leaves 64 bits; otherwise the largest n up to 65535 with n·bucket + fee_buffer(n) <= free |
| Reentry.ClaimKeepsInv | src/processor/reentry.rs:211-264 | an affordable claim posts, uses up its flag, and keeps the equalities |
| Runs.StepOnward | src/processor/mod.rs:29-230 | every instruction of every run, gone through or rolled back, keeps orders, positions and instruments well formed, opens a position only by a match, never revives a position or a flag, never changes a position's terms, never lowers an id or nonce, and changes the vault by its flow alone |
| Runs.StepKeepsInvIff | src/processor/mod.rs:29-230 | in a state that meets the equalities, every instruction keeps them, except exactly a liquidation that pays a bounty above the pot |
| Runs.EveryStateFits | src/state/margin_account.rs:22-27 | in every state of every run, orders, positions and instruments are well formed |
| Runs.EveryStateLevelIff | src/state/margin_account.rs:22-27 | over any run from the empty exchange, each account's reserved is what its resting orders hold and its locked is its live stakes, in every state, if and only if no liquidation in it pays a bounty above the pot |
| Runs.SaneRunsLevel | src/state/instrument_config.rs:225-247 | which is so in every run whose instruments were listed at rates up to 20000 |
| Runs.VaultIsNetFlow | src/state/fee_treasury.rs:70-88 | over any run the vault is the net of deposits, withdrawals and sweeps, and while no bounty has exceeded its pot it equals all balances plus the treasury |
| Runs.LeavesLiveOnce | src/state/pmlc.rs:125-130 | over any run each position leaves LIVE at most once |
| Runs.ClaimedOnce | src/processor/reentry.rs:259-264 | over any run each side of each position is claimed at most once |
| Runs.NoncesIncrease | src/attestation.rs:238-240 | over any run the nonces accepted for a market strictly increase |
| Sizes.EveryStateSized | src/processor/match_ix.rs:365-660 | in every state of every run each resting limit lies strictly between 0 and 10^18 on a multiple of its instrument's tick, and each position, live or closed, was entered at the midpoint of two crossing such limits and has exactly the size its instrument gives that entry |
| Sizes.EntryIsPrice | src/math/fixed.rs:25-41 | so every entry of every run is at least one tick and below 10^18 |
| Sizes.ClaimableIff | src/processor/reentry.rs:80-140 | and re-entry is never refused for its price: a side can be claimed if and only if its position is closed, its flag is up and the expiration is ahead |
| Sizes.EquitiesOkIff | src/math/fixed.rs:56-78 | a position has equities at every mark up to top if and only if it has them at 0 and at top |
| Sizes.NeverBlocked | src/processor/settlement.rs:194-207 | if notional·10^18·top < tick·2^127, then in every state of every run a live position has equities at every mark up to top, so mutual close and resolution are refused only by the guards on attestation and accounts, never by arithmetic, and the long's equity is the clamp of c and the exact profit |
| Sizes.OnTickIff | src/math/fixed.rs:25-30 | the tick check passes exactly multiples of the tick strictly between 0 and 10^18 |
| Payouts.ProfitRule | src/math/fixed.rs:69-78 | the profit is the move times the size as i128 over 10^18, rounded towards zero, refused exactly when the product leaves i128 |
| Payouts.SizeRule | src/math/fixed.rs:43-64 | the size is bucket times leverage over the entry, each division rounding down, refused exactly when a product leaves 128 bits |
| Payouts.ShareRule | src/processor/settlement.rs:206-220 | a share in basis points rounds down |
| Payouts.CloseMutualRule | src/processor/close_prune.rs:122-214 | goes through exactly on a fresh price over the instrument's own window, between two traders, whose profit does not overflow; the whole state left, the long's payment being its collateral and the profit within the pot |
| Payouts.ResolveRule | src/processor/settlement.rs:350-448 | goes through exactly at outcomes 0, 10000 and, unless the profit to one half overflows, 5000; the long is paid nothing, the pot, or its collateral and the profit to a price of exactly one half within the pot; the short the rest |
| Payouts.EvenAtEntry | src/processor/settlement.rs:380 | entered at one half, an even outcome gives each side its own stake |
| Payouts.LiquidateRule | src/processor/settlement.rs:140-278 | goes through exactly on a recorded breach of this position, not in the future, where the profit, either way, and the threshold c·bps/10000 make up the collateral, and the keeper's balance takes the bounty; the whole state left, the side the profit favours being paid the pot less the bounty |
| Payouts.NoneAtEntry | src/processor/settlement.rs:210-215 | with a threshold rate below 10000 nothing is liquidated at its entry price |
| Payouts.FavouredSide | src/processor/settlement.rs:218 | the side paid is one the mark has moved for, for sizes that fit i128 |
| Rules.DepositRule | src/processor/margin.rs:107-181 | deposits are positive and within what the vault can hold, and credit free alone |
| Rules.WithdrawRule | src/processor/margin.rs:191-267 | withdrawals are positive and within the free balance |
| Rules.SweepRule | src/processor/fees.rs:226-256 | sweeps are positive and within the treasury |
| Rules.ListRule | src/processor/instrument.rs:82-252 | an instrument is listed exactly once, with a window, a bucket, a tick and one of the eight leverages; a market's nonce is kept if it had one |
| Rules.PriceRule | src/math/fixed.rs:25-30 | a post is refused for its price exactly when that is outside (0, 10^18) or no multiple of the tick |
| Rules.QuoteRule | src/processor/intent.rs:228-255 | when a post is quoted, and what it reserves, in plain numbers |
| Rules.PostRule | src/processor/intent.rs:228-394 | goes through exactly for sound terms, means counting up to four of its own expired orders, an id and a slot; adds exactly the poster's order with every field given, and frees exactly what the pruned orders held |
| Rules.CancelRule | src/processor/intent.rs:534-588 | goes through exactly for the owner, or for anyone once the order has expired, and frees what the order held |
| Rules.PruneRule | src/processor/close_prune.rs:266-348 | goes through exactly for distinct expired orders, and each owner gets back what its own held |
| Rules.MatchRule | src/processor/match_ix.rs:314-672 | goes through exactly for an unexpired bid and ask that meet, an id, a size, and the later poster's means for the fee; the whole state left: one contract off each order, buckets locked, shares of the fee buffers freed, the fee from the later poster, and every field of the position |
| Rules.EndingRule | src/processor/match_ix.rs:413-597 | the whole state a swallowed match leaves without an id, without its accounts or volumes, or without means for the fee |
| Rules.UnsizedRule | src/processor/match_ix.rs:576-625 | and without a size |
| Rules.NovateRule | src/processor/novate.rs:84-168 | goes through exactly for a live position and the stake free, or its own owner; the stake and the side pass on |
| Rules.RemoveRule | src/processor/close_pmlc.rs:47-60 | exactly closed, liquidated and resolved positions can be removed |
| Succession.SubstituteIff | src/processor/substitute.rs:150-301 | goes through exactly when an unexpired bid and ask meet around the entry, the one who leaves asks and owns the long side or only bids and owns the short side, what it is owed is within one stake, and the newcomer has the means |
| Succession.SubstituteLeaves | src/processor/substitute.rs:323-403 | the whole state it leaves, the newcomer being the other order's poster, on the side the leaver owned |
| Succession.SidesOfSwap | src/processor/substitute.rs:188-214 | between two traders exactly one side changes hands: the long side from the one who asks to the one who bids, or the short side from the one who bids to the one who asks |
| Succession.EveryPositionTraced | src/processor/match_ix.rs:640-660 | over any run each position goes back to one match, whose limits and entry it remembers, and whose orders wished for the re-entry it still wishes |
| Succession.ClaimIff | src/processor/reentry.rs:80-209 | a claim goes through exactly for a closed position whose side wishes it, at a remembered limit on the tick, for the most contracts the free balance covers |
| Succession.ClaimLeaves | src/processor/reentry.rs:211-264 | the whole state it leaves: at most one order added, with every field given, and one flag lowered |
| Succession.ClaimRecallsMatch | src/processor/reentry.rs:211-264 | in any run, a claim that posts adds exactly one order, the owner's, on the claimed side, for all its contracts, with re-entry on, at the limit that side's own order had in the match that opened the position |
| Limits.PriceRefused | src/processor/intent.rs:235 | a post whose price is on the tick is never refused for its price |
| Limits.RefusalRule | src/processor/intent.rs:228-394 | with sound terms a post is refused for want of free balance, or for a limit of the book, exactly when these are wanting |
| Limits.CeilingRule | src/processor/reentry.rs:155-166 | the largest count a claim looks at is what the free balance would buy without fees, up to 65535 |
| Limits.ClaimableRule | src/processor/reentry.rs:80-140 | what can be claimed, in plain terms |
| Limits.CounterpartyIff | src/processor/match_ix.rs:257-285 | the counterparties of a posted order are exactly those it makes a meeting pair with |
| Limits.BestIsPriceTime | src/processor/match_ix.rs:257-285 | the one chosen has the best price and the earliest post at it |
| Limits.BookMeets | src/processor/match_ix.rs:296-308 | two slots of a book cross exactly when their orders meet on the ledger |
| Limits.PrunedRule | src/processor/intent.rs:276-331 | a post prunes at most four orders, all its poster's and expired, and fewer only when there are no more |
| Limits.WorkRule | src/processor/close_prune.rs:266-348 | anyone prunes the first expired orders of a book, as many as there are accounts for |
| Limits.ServesIff | src/processor/close_prune.rs:266-348 | the accounts given serve the owners exactly when the owners are among them in that order |
| Limits.RateRule | src/state/user_volume.rs:105-130 | the rate is that of the larger of two epochs' volumes |
| Limits.EpochRule | src/state/user_volume.rs:21-130 | epochs are of 6480000 slots from the first |
| Limits.FeeRule | src/state/fee_schedule.rs:95-135 | volume below every threshold pays the first tier's fee, and no fee is above 1000 basis points |
| Sample.LiquidationReached | src/processor/settlement.rs:140-215 | at every 16-bit bounty rate, a concrete run from the empty exchange to a state where a liquidation goes through |
| Sample.OversizedBountyBreaks | src/state/instrument_config.rs:225-247 | at every such rate above 20000 that liquidation breaks the equalities, which held in every state before it |
| Sample.SwallowedFeeReached | src/processor/intent.rs:470-477 | a concrete run to a post whose own match cannot pay its fee: what is left has a treasury of 10 that the vault does not hold |
| Sample.Unsizable | src/math/fixed.rs:43-54 | a bucket of 9·10^18 at leverage 40, two of which fit 64 bits, cannot be sized at any entry |
| Extremes.UnsizedEnding | src/processor/match_ix.rs:576-625 | on every instrument and price that cannot be sized, a concrete run to a post whose own match is swallowed, leaving both stakes locked and no position |
| Extremes.UnsizedReached | src/processor/intent.rs:470-477 | such an instrument passes creation, and the run reaches that ending on it at every price the tick allows |
| Extremes.SettlementBlocked | src/math/fixed.rs:56-78 | on an instrument with a tick of 10^-18 a concrete run reaches a live position that no attestation at a mark of 0.01 or more can close or liquidate, and that cannot be resolved as even |
| Extremes.SizeWraps | src/math/fixed.rs:73 | on an instrument that creation accepts a concrete run reaches a live position whose size turns negative as i128, so that the long loses all when the mark rises |
| Sample.RelayReached | src/processor/substitute.rs:280-301 | a concrete run with two legs and posts in between: premiums of 2000 and 4000 against a profit of 4000, and nets of 2000 and 2000 |
| Sample.RelayLeavesOtherSide | src/processor/substitute.rs:9-15 | in every state of it from the first leg on, the other side has its owner, its pot, and what it had but for the posts |
| Sample.DetourReached | src/processor/novate.rs:137-168 | a concrete run with a novation between two legs, in which the trader who leaves is not the one who came in |
| Sample.OthersReached | src/processor/settlement.rs:350-418 | the same for a resolution, a mutual close and a novation |
| Sample.SubstitutionReached | src/processor/substitute.rs:150-301 | the same for a settling substitution with a premium |
| Sample.ClaimReached | src/processor/reentry.rs:80-209 | the same for a claim of eleven contracts after winning a resolution |
| Exchange.CreateMarginAccount | src/processor/margin.rs:50-98 | opens an empty account, refused exactly when there is one |
| Exchange.Deposit | src/processor/margin.rs:107-181 | goes through exactly when the account exists and the tokens fit the vault; the ledger credit never overflows |
| Exchange.Withdraw | src/processor/margin.rs:191-267 | goes through exactly when the free balance covers it; the vault always has the tokens |
| Exchange.SweepFees | src/processor/fees.rs:226-256 | goes through exactly within the accrued fees and the swept counter's width; the vault always has the tokens |
| Ordering.CreateInstrument | src/processor/instrument.rs:82-252 | a new market with an empty, tidy book, and a nonce only if its market had none |
| Ordering.PruneOwn | src/processor/intent.rs:276-331 | prune-on-post releases exactly the poster's first expired orders, at most four, and totals their reservations without failing |
| Ordering.PostIntent | src/processor/intent.rs:228-394 | a post is the ledger operation on the pruned state; it is refused exactly for the quote's error, else for want of free balance, else for a limit of the book counted with what the post prunes: slots, the seat's count, the id and sequence counters |
| Inline.PostIntentAndMatch | src/processor/intent.rs:417-482 | a post, refused exactly as one, then the match of the posted order with the best counterparty, the poster paying the fee of its own tier; whether filled or swallowed, the fields are left as the ledger says for that ending, and the equalities hold if and only if nothing was swallowed |
| Inline.FindCounterparty | src/processor/match_ix.rs:257-285 | the search on the other side finds the best counterparty among all resting orders, and none only when none crosses |
| Inline.PosterTakes | src/processor/match_ix.rs:372 | the order posted last is the taker |
| Ordering.CancelIntent | src/processor/intent.rs:534-588 | releases exactly the named order, refused exactly when no order of that id belongs to the caller or has expired |
| Ordering.PruneExpired | src/processor/close_prune.rs:266-348 | releases exactly the first expired orders, one per margin account given; fails exactly when the accounts do not serve the owners in order |
| Trading.StakeBoth | src/processor/match_ix.rs:576-597 | the margin moves fail only for a fee beyond the taker's means, and then leave what was moved before it |
| Trading.CreditVolumes | src/processor/match_ix.rs:552-563 | both traders' histories grow by the bucket, refused exactly for want of room, counted twice when one trader is on both sides |
| Trading.FinishMatch | src/processor/match_ix.rs:564-660 | completes the match, or leaves the fee unpaid or the position unopened, each exactly when the ledger says so |
| Trading.LookUpFee | src/processor/match_ix.rs:541-551 | the fee is the bucket's share at the tier of the taker's exact epoch volume |
| Trading.MatchPair | src/processor/match_ix.rs:314-672 | either no crossing pair has the two ids and nothing changes, or the fields and the book are left as the ledger says for the way the match ends, success or any of its failures; the fee is that of the taker's tier, and on success both volumes are credited |
| Trading.MatchBestAvailable | src/processor/match_ix.rs:138-157 | the same for the best live bid and the best live ask, and it finds no pair exactly when nothing crosses |
| Substituting.MatchSubstitute | src/processor/substitute.rs:78-415 | goes through exactly for a pair that crosses around the entry, owned as required, with a premium within one stake and the payer's means; then book and fields change as the ledger says |
| Settling.AcceptAttestation | src/processor/settlement.rs:158-177 | notes the nonce exactly when the guard accepts |
| Settling.PayBoth | src/processor/settlement.rs:423-440 | fails exactly when one trader owns both sides; no debit or credit misfires |
| Settling.LiquidatePosition | src/processor/settlement.rs:140-278 | at any bounty rate, goes through exactly when the guard, the threshold and the accounts allow and the keeper's balance takes the bounty, and does what the ledger says |
| Settling.ResolvePosition | src/processor/settlement.rs:350-448 | the same for resolution |
| Settling.CloseMutual | src/processor/close_prune.rs:122-214 | the same for mutual close |
| Settling.Novate | src/processor/novate.rs:84-168 | goes through exactly when the new owner can fund the stake |
| Settling.ClosePmlc | src/processor/close_pmlc.rs:47-60 | removes a position exactly when it is no longer live |
| Ordering.ClaimReentry | src/processor/reentry.rs:80-264 | posts the largest affordable count at the remembered price and uses up the flag, or uses it up alone when nothing is affordable; refused only when it cannot be claimed, when the ceiling overflows, or at a limit of the book |
| Ordering.Repost | src/processor/reentry.rs:211-264 | the affordable count is posted and the flag used up, refused exactly at a limit of the book |

## Left out

- MaybeRollEpoch: the epoch length is the constant every account is created with, not a stored field.
- PostIntent: which of the book's own limits refused (slots, counters, seat count) is one error here.
- PostIntentAndMatch: the accounts of the pair being right is one argument, not the addresses themselves.
- LiquidatePosition: it is taken from states that meet the equalities, so not past a liquidation that broke them.
- ClaimReentry: the fee rate cached in the book is an argument of the book; no instruction of the source updates it after creation.
- ExpandIntentBook: the allocator and the trees are proved on expanded books, but the instructions are stated for books that were never expanded.
- Removal of seats: the source has none.
- Byte layouts, discriminators, tags, PDA derivation, rent, token-program calls, logging, and instruction decoding.
- Signature verification of attestations; only market, freshness, nonce and the bound position are guards.
- Sessions and delegated posts and cancels, timelock, multisig, registries, wrapped stablecoins, pause flags and instrument status.
- Display-only fields: realized profit, recorded slots, close reasons, last accepted prices.
- The typed accessors' and rotations' error branches: the callers are proved never to reach them.
