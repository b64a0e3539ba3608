# Verified model of the ladder book

This project models, in Dafny 4.11, the order lifecycle of a long-only margin bot and the
exchange it trades against, together with four smaller stateful cores. Verify it with
`dafny verify dfyconfig.toml`.

**Ledger and exchange.** `Exchange.Kraken` is the margin account as the bot can reach it.
Time passes inside every call: before a call takes effect anything may have happened to the
resting orders, any read may go unanswered, a failed cancel may have landed, and a bid whose
acknowledgement was lost may be on the book. `Ledger.Table` is the `orders` table of one
execution mode. The modules `Fills`, `Protect`, `Harvest`, `Reconcile` and `Flatten` are the
program's passes over it, statement by statement; `Runs` puts them into the poll cycle and the
cycle into whole runs, and `Spacing` follows the distances between a pair's lots through them.

The exchange keeps a record of every call with its answer and the book at that time
(`Exchange.Call`, the ghost field `trace`). Only the calls themselves add to it, and what a pass
claims to have read is always the answer of a call in its own stretch of the record.

Everything is proved for two kinds of account at once. On *any* account the rules that hold
by construction of the steps are proved: one way out per row, what each pass may change,
what was read before anything was placed. On a *closed* account, where only this bot trades,
the central promise is proved for every reachable state, between any two calls: resting sell
volume never exceeds the long position. The invariant that carries it is an inequality: on each
pair, resting sells plus the volume that no resting sell covers stay within the net position.
It survives unknown reads, which an equality would not. Beside it stands an equality that
depends on no reading: every open row holds what its bid bought less what its own sells have sold. Liveness-like claims (a sweep leaves
every row protected) are proved for *calm* stretches: every call answered, nothing executing.

**The simulated exchange** (`PaperBroker`): matching without look-ahead, closing lots oldest
first, and the cash and equity identities over any run.

**Close-edge firing** (`Ingest`): at most one evaluation per close instant, under duplicates,
reordering, coincident borders, outages and restarts.

**Arithmetic cores**: the respend bucket (`Respend`), sizes on the lot grid (`Sizing`), ladder
geometry (`Ladder`, `Vol`), drawdown and escalation (`Defense`).

## What the code does not keep

Four properties that the repository's documentation suggests are false of the code as written.
Each is stated with the exact condition under which it does hold.

- The reconcile's rule to act on definite state only. An executed stop whose status read failed
  still consumes budget, so a living sibling can be judged unbacked and its stop canceled
  (`Limits.UnansweredStopEatsSibling`). It cannot happen if every exit that had executed was
  answered (`Reconcile.ClosedSweepSparesAll`); in general a pair's rows are all spared exactly if,
  for each row that is not a harvest at work or known to have exited, the reading covers what it
  and the older rows of the pair need (`Reconcile.AllSparedIff`).
- The flatten's "never let a sell exceed live long volume". It reads the position before the
  statuses of its closes; a close that executes in between is then seen as spent while the
  volume read is stale (`Limits.CloseOutrunsReading`). Exactly that breaks it, for one sell
  (`Flatten.RaceIsExact`), a pass (`Flatten.FlattenAll`) and a chain of passes (`Runs.CloseBook`).
- The pre-gate as a lower bound for any multiplier (`Limits.PreGateSkipsFundable`): it holds exactly
  if the multiplier scales the minimum to whole lots (`Sizing.PreGateNeedsWholeLots`).
- Exactly-once firing across restarts: a close reported after a restart fires exactly if the store
  has no closed signal bar that completed then or later (`Ingest.RefiresIffForgotten`), so a fire
  is repeated exactly if the store has lost it (`Ingest.RestartIsSafeIff`,
  `Limits.RestartFiresTwice`). Fires of stored bars, once the clock is past their end, never are
  (`Ingest.StoredBarsFireOnce`).

## Conventions and assumptions

Volumes are whole lots, so the program's volume tolerances are zero; prices are reals in ticks.
A txid is an order's index in the book. Where a member says *closed account*, nobody else trades
it, a stop executes as a whole or not at all, a sell whose AddOrder reported failure did not land,
a cancel that reports success found the order resting, userrefs of entries do not repeat, and an
order that landed is listed once the resolve window has passed. The simulated exchange does not
meet the assumption on cancels: it answers a cancel of a finished order with a count of zero, which
the program takes for success (`PaperBroker.Exchange.Cancel`). Nor does it always meet the one on
stops: when less is held than a sell asks for, it closes the order with what was held
(`PaperBroker.Exchange.Execute`).

## Model

| member | source | states |
|---|---|---|
| `Exchange.Kraken.Drift` | deepfield/executor.py:3052-3073 | between any two calls the market may fill, execute, cancel or expire any resting order; an account that was covered at every moment stays so |
| `Exchange.Kraken.QueryOrders` | deepfield/broker.py:464-487 | a batched status answer may miss any order (unknown, never gone); what it shows is the order at some moment of the call, and a finished order as it stays |
| `Exchange.Kraken.CancelOrder` | deepfield/broker.py:264-268 | a cancel that reports success found the order resting and leaves it canceled; one that reports failure may still have landed |
| `Exchange.Kraken.AddSell` | deepfield/executor.py:3622-3626 | an acknowledged sell rests with exactly the terms sent; it keeps the account covered if its volume was free when it was sent |
| `Exchange.Kraken.AddBuy` | deepfield/executor.py:1103-1136 | an entry bid is acknowledged, definitely refused, or ambiguous, and then it may be on the book although no txid came back |
| `Exchange.FreeIsNetLessResting` | deepfield/executor.py:3071-3073 | free volume, the quantity every proof moves, is exactly net position minus resting sells |
| `Exchange.CoveredIffFree` | README.md:141-143 | no resting sell volume above the long position on any pair, if and only if free volume is nowhere negative |
| `Exchange.PlayKeepsCovered` | deepfield/executor.py:3062-3073 | no sequence of fills, stop executions, cancels and expiries can uncover a covered account |
| `Exchange.MarketIsFree` | deepfield/executor.py:3052-3073 | nothing is assumed of the market: between two calls a resting order can reach every state it can have become, in at most two events |
| `Exchange.PositionsAreNet` | deepfield/executor.py:3095-3113 | the position report sums to the net long volume of each pair, zero when there is none |
| `Broker.FindOrderByUserref` | deepfield/broker.py:300-319 | reading resting orders before finished ones cannot miss an order that finishes in between: absent after the window proves that it never landed |
| `Ledger.InvCovered` | README.md:141-143 | the ledger invariant implies that no pair is ever exposed to a short, and that each row's uncovered volume is free |
| `Ledger.InvStep` | deepfield/executor.py:3062-3073 | any single market event keeps the ledger invariant |
| `Ledger.InvPlay` | deepfield/executor.py:3062-3073 | so does any sequence of them |
| `Ledger.EventMovesOwner` | deepfield/executor.py:3132-3138 | an event changes the exposure of the row that owns the order by no more than the free volume it brings |
| `Ledger.InvSetRow` | deepfield/executor.py:1413-1430 | a row may be rewritten whenever its uncovered volume does not grow and it does not let go of a resting sell |
| `Ledger.InvRestExit` | deepfield/executor.py:3609-3626 | a sell for a wholly uncovered row can be added and recorded |
| `Ledger.InvAddEntry` | deepfield/executor.py:1103-1133 | a bid can be added with its row, landed or not, acknowledged or not |
| `Ledger.ExitsDistinct` | deepfield/executor.py:3140-3145 | two open rows never share an exit |
| `Prices.MakerSellNeverCrosses` | deepfield/executor.py:2646-2671 | the harvest and flatten price is over the bid and at or under the ask, exists exactly if some tick is, and is then the tick next to the bid or the last one under the ask |
| `Prices.TickRoundNearest` | deepfield/executor.py:77-103 | the tick of an entry, a stop or a rung is within half a tick of the price, and the even one of two equally near |
| `Protect.RestStop` | deepfield/executor.py:3599-3637 | a landed stop has the row's pair and volume at the rounded level and is recorded; on failure nothing changes |
| `Protect.FindAdoptableStop` | deepfield/executor.py:3022-3050 | finds an unclaimed resting sell-stop of the pair if there is one, nearest volume first, then smaller txid |
| `Protect.NothingToAdopt` | deepfield/executor.py:3022-3030 | on a closed account no resting stop is ever unclaimed |
| `Protect.StoppedByPair` | deepfield/executor.py:1542-1546 | the per-pair tally is the sum of open rows with a recorded stop |
| `Protect.RearmOne` | deepfield/executor.py:1547-1568 | one naked row: untouched without backing beside its siblings, else adopted or re-armed |
| `Protect.RearmAll` | deepfield/executor.py:1547-1568 | only naked rows change, each gets a stop of its own, found unclaimed or placed once nothing shown on the pair was left to adopt, and where one is armed all recorded stops fit the volume read |
| `Protect.ReprotectNakedOpen` | deepfield/executor.py:1487-1571 | without a naked row nothing is asked or done; otherwise the resting orders and the position are asked for, and the same follows from those answers; in a fully answered pass every row the answer backs ends up armed |
| `Volume.NoEntryVolumeLost` | deepfield/executor.py:1383-1430 | everything ever bought on a pair is what the open rows hold, what their own finished sells have sold of it, and what the bids of the pending and the closed rows bought; canceled and rejected rows have bought none of it |
| `Volume.OpenRowHoldsTheRest` | deepfield/executor.py:2508-2515 | at every reachable state of a closed account an open row holds exactly what its bid bought less what its own finished sells have sold |
| `Volume.InFlightWithinPosition` | deepfield/executor.py:3062-3073 | the unexecuted part of all open rows plus the executed part of all pending ones is within the net position |
| `Fills.PlaceBid` | deepfield/executor.py:1103-1136 | acknowledged: recorded with its txid; ambiguous: recorded pending without one; refused: a rejected row, or none for a rung |
| `Fills.ResolveAmbiguousEntry` | deepfield/executor.py:1454-1485 | a lost acknowledgement is recovered by reference; the row is rejected only if no order with its reference existed when the lookup began |
| `Fills.ConfirmTerminal` | deepfield/executor.py:1370-1412 | a resting order is acted on only if partly filled or out of time, and only a finished status settles it |
| `Fills.PromoteEntry` | deepfield/executor.py:1413-1430 | a finished order opens a row of exactly its executed volume and rests its stop, or cancels the row if nothing executed |
| `Fills.SettlePending` | deepfield/executor.py:1358-1430 | a pending row leaves pending only for a finished order, at its executed volume, or provably absent; and does leave it when the batch said finished |
| `Fills.PlaceLadderRung` | deepfield/executor.py:2744-2907 | a bid is placed, at the step down from the fill and under the live price, only if no bid of the pair rests, that level is above the chain's stop and more than half a step from every lot of the pair; and if so and nothing outside the ledger forbids it and the call is answered, exactly that bid rests |
| `Fills.NextRungExact` | deepfield/executor.py:2785-2835 | whether and where a rung is bid, in terms of prices and the rows' own entries |
| `Fills.PromoteAll` | deepfield/executor.py:1348-1430 | the first call asks for the orders of all pending rows; by its answer every pending row is settled as far as the exchange allows and no other row changes; each bid it adds is the rung of a row it opened, and the only bid of its pair; fully answered, every row that opened has its stop, no row past the window is left without knowing its order, and, if no two rows can mean the same order, as on a closed account, a row stays pending exactly if its order rests untouched in its time; and a row that opens as the only bid of its pair has the rung its fill calls for, if one fits |
| `Harvest.HarvestManageActive` | deepfield/executor.py:2456-2557 | the statuses of exactly the solo closes are asked for; by these answers a row whose close ended unsold is released as it was, one partly sold stays open with exactly the rest, and one is closed if and only if its whole volume was sold; no other row changes; exactly the sells under the floor or above the market are taken back and, in a calm stretch, no other order changes |
| `Harvest.RatchetMonotone` | deepfield/executor.py:2699-2742 | the ratchet acts exactly if the entry's tick is under the bid and above the level the stop would be re-armed at, and a stop re-armed after that is at this tick; it never lowers a stop, never reaches the bid, leaves the invalidation level alone, and acts once |
| `Harvest.BestRungs` | deepfield/executor.py:2566-2588 | per idle pair the rung furthest above its entry among those past their own target |
| `Harvest.Ranked` | deepfield/executor.py:2588-2591 | best pairs first, at most four, none passed over for a worse one |
| `Harvest.StartOne` | deepfield/executor.py:2618-2697 | a rung changes only if backed; its stop is canceled before the sell of its whole volume rests |
| `Harvest.HarvestStartNew` | deepfield/executor.py:2559-2697 | without a chosen rung nothing is asked or done; otherwise the position is asked for, only chosen rungs that this answer backs beside their siblings' stops change, and, fully answered and with no stop shared, as on a closed account, every chosen rung that is ready and backed gets its sell |
| `Reconcile.LeftIsEnough` | deepfield/executor.py:3148-3155 | the budget left is never below the reading less what the rows so far still have unexecuted |
| `Reconcile.LeftIsReadingLessKept` | deepfield/executor.py:3203-3262 | the budget a row meets is the reading less what remains of the older rows of its pair that are kept: the unsold rest of a close seen resting, the whole volume where no answer came |
| `Reconcile.NoneUnbacked` | deepfield/executor.py:3068-3073 | if the reading covers what the open rows still have unexecuted, no row is judged unbacked, for any order of the rows |
| `Reconcile.AllSparedIff` | deepfield/executor.py:3148-3256 | all rows of a pair are spared if and only if, for every open row that has neither a close at work nor an exit known to have sold everything, the reading covers what remains of it and of the older open rows of the pair, what their own closes were seen to sell deducted |
| `Reconcile.ClosedSweepSparesAll` | deepfield/executor.py:3132-3138 | on a closed account, if every exit that had executed was answered, no living row is judged unbacked however the market moves between the reads |
| `Reconcile.Classify` | deepfield/executor.py:3151-3264 | the verdict on one row in terms of what was read, and exactly what it does to it; only an unbacked row with a stop seen resting causes a cancel |
| `Reconcile.PassOne` | deepfield/executor.py:3146-3264 | by what was read, oldest row first: one whose exit has sold everything is closed; of the others exactly those stay whose close is at work or for which the reading, less what remains of the older rows that stay, is enough; the rest are closed once their stop is certain not to rest; a cancel is sent for each of these whose stop was shown resting, which closes it exactly if it succeeds, and nothing else is sent |
| `Reconcile.SeedCommitted` | deepfield/executor.py:3337-3342 | committed volume starts as all kept rows with a close, a resting or an unreadable stop |
| `Reconcile.Restore` | deepfield/executor.py:3343-3448 | adopt, else place what a second reading of the position, asked for in this pass, backs, or forget the stop |
| `Reconcile.PassTwo` | deepfield/executor.py:3314-3448 | only kept rows holding nothing change, and each of them adopts a stop, is put off for want of backing, or has one sent for it, whatever the answers; no other order is sent; a stop is placed only when no unclaimed stop of the pair is left and all its commitments fit the second reading, which was asked for after pass 1 and on a closed account is the position of that time |
| `Reconcile.CommittedFits` | deepfield/executor.py:3337-3342 | on a closed account the commitments plus the row to restore are within the net position |
| `Reconcile.StopsBounded` | deepfield/executor.py:3062-3073 | on any account, for a pair a stop was placed into, the position was asked for again after pass 1 and all shown or recorded resting sell-stops together are within that answer, if pass 1 left no unbacked row open and stops match their rows |
| `Reconcile.VerifyOpenStops` | deepfield/executor.py:3052-3448 | the whole sweep: position, statuses and resting orders are asked for first, in this order, and what follows is by those answers; no usable position, no action; what each pass did; nothing alive removed; and with every call answered, no fills and no half-sold close, exactly one exit at work per open row and no other sell resting |
| `Limits.UnansweredStopEatsSibling` | deepfield/executor.py:3232-3252 | a concrete state of the ledger invariant: an executed stop whose status read failed makes pass 1 judge its living sibling unbacked |
| `Flatten.FlatFromInv` | deepfield/executor.py:2126-2136 | a flatten can start from every state of the ledger invariant |
| `Flatten.CancelOurs` | deepfield/executor.py:2159-2166 | a cancel is sent for every bid and stop of ours and for no other order; fully answered, none of ours is left and no other order has changed |
| `Flatten.SweepFirst` | deepfield/executor.py:2159-2231 | without OpenOrders nothing is recorded; otherwise bids and stops are settled by definite answers, and a pair is blocked for a bid or stop left and for nothing else; fully answered, every known bid is settled and no stop is left |
| `Flatten.SettleBids` | deepfield/executor.py:2184-2218 | the statuses of exactly the known bids are asked for; bids are resolved by finished orders only, at the executed volume; exactly the pairs of the others are blocked |
| `Flatten.CancelStops` | deepfield/executor.py:2219-2231 | a stop reference is dropped only once the stop is off the book; otherwise the pair is blocked; and no pair is blocked but by a stop whose cancel failed |
| `Flatten.SortCloses` | deepfield/executor.py:2318-2334 | only spent references are cleared; an unknown or resting close is kept and reported |
| `Flatten.PlaceClose` | deepfield/executor.py:2352-2406 | one post-only sell of exactly the volume read, shared by all rows of the pair, keeps a closed account covered unless a close executed between the two readings |
| `Flatten.RetireFlat` | deepfield/executor.py:2297-2316 | a pair read flat has its rows retired, a cancel being sent for each close of it that was shown resting and for nothing else |
| `Flatten.WorkPair` | deepfield/executor.py:2286-2407 | a pair gets at most one sell, only after every close of it is off the book, and is retired only if read flat; a close is taken back only if it was shown resting more than half a tick over the ask, and if all that rest are, one is |
| `Flatten.PositionHeld` | deepfield/executor.py:2233-2236 | if no close executed between the two readings the position has not shrunk |
| `Flatten.RaceIsExact` | deepfield/executor.py:2233-2265 | for a pair without a pending row, the volume read is still covered if and only if no close of the pair executed between the two readings: its bids are all finished, so none can fill in between |
| `Flatten.OutrunUncovers` | deepfield/executor.py:2233-2265 | a sell of the volume read, sent after a close of its pair executed between the readings, leaves the account uncovered at once |
| `Limits.CloseOutrunsReading` | deepfield/executor.py:2233-2265 | a concrete case: one lot is read, its close fills, its status reads spent, and a sell of the volume read uncovers the account |
| `Flatten.WorkAll` | deepfield/executor.py:2285-2408 | over all pairs: after the readings only cancels are sent and at most one sell per unblocked pair, of exactly the volume read; fully answered, none that can be sold is passed over; complete exactly if nothing is blocked and every pair was read flat |
| `Flatten.FlattenAll` | deepfield/executor.py:2126-2408 | the whole pass, with any answers: sweep, then position, then closes, each tied to the call that was answered, on a closed account the position of that time; without OpenOrders the rows stay as they were, without a position only the sweep is done, bids settled by recorded statuses and stops forgotten only once off the book; no order sent and nothing retired in either case; (True, True) exactly if all is flat and unblocked, and then no open or pending row is left; a covered closed account is uncovered at some moment of the pass exactly if a sell was placed on a reading that a close had outrun |
| `Flatten.InvRestored` | deepfield/executor.py:2126-2136 | once passes have left nothing open and the account is covered, the ledger invariant holds again, so the ordinary steps can go on |
| `Runs.EnsureLadderRungs` | deepfield/executor.py:1590-1667 | only bids are added, each one step under the lowest open fill of a pair without one; fully answered, no chain that can have a bid is without |
| `Runs.SeedChains` | deepfield/executor.py:1669-1727 | starter bids only for pairs with neither row nor bid; fully answered, each listed one gets it |
| `Runs.PollFills` | deepfield/executor.py:1342-1452 | the steps of a cycle in their order, moment by moment: each acts on what it was told between its two moments, and keeps its promise for the case that every call is answered |
| `Runs.Perform` | deepfield/executor.py:1326-1452 | every action of the bot or the market does to the moment before it what that action promises, keeps the one-exit rule and, on a closed account, the ledger invariant and an uninterrupted covered history; on any other account take-profit passes are among the actions |
| `Runs.CycleCarries` | deepfield/executor.py:1342-1452 | a poll cycle keeps the spacing of the lots: the bids it adds are rungs, with a step that its inputs name and the stop of the chain they were placed under, and seeds of idle pairs |
| `Runs.PerformedKeepsSpacing` | deepfield/executor.py:2785-2835 | every action keeps the spacing and where each row came from; only signals and cycles add rows |
| `Runs.CloseBook` | deepfield/executor.py:2126-2166 | on a closed account, any chain of whole-book take-profit passes: what each did, moment by moment; the account was covered at every moment exactly if no pass sold on an outrun reading; completion leaves nothing open; and with nothing left and no such pass, every promise of the ordinary steps holds again |
| `Runs.RunOn` | README.md:141-143 | the same runs from any state that the actions keep, such as the one a completed flatten leaves |
| `Runs.Run` | README.md:141-143 | from the empty account, through any actions, fills, failed reads, failed cancels and lost acknowledgements: every action is performed on the moment the one before it left; on any account one exit per row at every moment, and every rung of a chain with a stop above that stop and more than half its step from every older lot of the pair; on a closed one, take-profit off, never short at any moment and every bought lot accounted for |
| `Vol.StopFiresBeforeLiquidation` | deepfield/vol.py:133-167 | the stop fires before liquidation if and only if leverage is under 40 |
| `Vol.VetoNeverFires` | deepfield/vol.py:133-173 | the reward-to-risk veto never fires |
| `Vol.DistancesAreGreatest` | deepfield/vol.py:133-167 | target, rung and stop are each the greatest distance within the ruling: one, half and one and a half times the range, within floor and cap, the stop at most seven tenths of the way to liquidation |
| `Vol.RungStepRange` | deepfield/vol.py:133-151 | rung steps are between 0.5% and 7% and never wider than the target |
| `Ladder.FloorPreGateIsSound` | deepfield/executor.py:2785-2829 | the early floor test changes no outcome |
| `Ladder.NextRungExact` | deepfield/executor.py:2785-2835 | a rung is bid exactly if the step down is above the chain's stop and clear of every level held, and there |
| `Ladder.RungsNeverCrowd` | deepfield/executor.py:2785-2835 | over the whole life of a chain, later rungs stay half a step away from all open lots and above their inherited stop |
| `Ladder.OpenRungsBounded` | deepfield/executor.py:228-233 | k open rungs between a stop and a top price need stop * 1.0025^(k-1) < top |
| `Spacing.PromotionKeepsSpacing` | deepfield/executor.py:2744-2907 | the promotion pass keeps the spacing of the ledger's lots, with the rungs it adds itself, whatever order its rows open in |
| `Spacing.OpenRungsBounded` | deepfield/executor.py:228-233 | in any book so spaced, k open rungs of a pair over one stop and up to a top price need stop * 1.0025^(k-1) < top |
| `PaperBroker.NoLookAhead` | deepfield/paper_broker.py:339-381 | no simulated fill is better for the book than some price between placement and now |
| `PaperBroker.BuyStopLooksAhead` | deepfield/paper_broker.py:366-374 | a stop that buys would be, which is why the claim is for sell stops |
| `PaperBroker.FillIsMatched` | deepfield/paper_broker.py:339-427 | the engine finishes an order exactly by the matching rule: a limit once the market stood at its price, a stop once it stood at its trigger or under it, a market order at once; price, volume, cost and fee of each |
| `PaperBroker.Exchange.CloseLongs` | deepfield/paper_broker.py:436-451 | exactly the requested volume, or all there is, leaves the pair, oldest lot first; the profit returned is its proceeds less its cost |
| `PaperBroker.Exchange.TakeLongs` | deepfield/paper_broker.py:436-448 | no lot is touched while an older one of the pair has volume left |
| `PaperBroker.Exchange.Execute` | deepfield/paper_broker.py:384-427 | an open order executes once, a sell as far as volume is held, and the books stay balanced |
| `PaperBroker.Exchange.Settle` | deepfield/paper_broker.py:317-336 | every open order that the last price, or an extreme of a bar opened after it, reached is finished, at its own price and the maker fee or at the slipped market and the taker fee, and no other; all stops first, each sell against what the executions before it left; and the financing is charged when due |
| `PaperBroker.Exchange.AccrueRollover` | deepfield/paper_broker.py:454-479 | financing on the cost of everything open, once per period |
| `PaperBroker.Exchange.AddOrder` | deepfield/paper_broker.py:682-780 | accepted exactly if pair, volume, price grid and post-only rule allow it; then it rests as sent |
| `PaperBroker.Exchange.Cancel` | deepfield/paper_broker.py:636-642 | counts one exactly for an open order and changes nothing otherwise |
| `PaperBroker.Exchange.TradeBalance` | deepfield/paper_broker.py:548-575 | equity is deposits plus sell proceeds less buy costs plus open volume at its marks less all fees |
| `PaperBroker.SellBalances` | deepfield/paper_broker.py:423-427 | a sell keeps cash, ledger, lots and orders in balance, whatever lots were closed |
| `PaperBroker.BuyBalances` | deepfield/paper_broker.py:410-422 | so does a buy |
| `PaperBroker.NeverSoldShort` | deepfield/paper_broker.py:392-403 | executed sells never exceed executed buys on any pair |
| `PaperBroker.Run` | deepfield/paper_broker.py:785-859 | any run of calls: the orders at the end are exactly what the tickets, cancels and settlements on the tape make of none, call by call, and both identities hold |
| `Ingest.FeedClosesOnce` | deepfield/ws_client.py:227-244 | of a feed that never steps back, snapshots included, exactly the bars that a live update moved on from are closed, each once, in order |
| `Ingest.LiveFeedClosesAll` | deepfield/ws_client.py:227-244 | if every message is live, these are all bars but the newest |
| `Ingest.EmittedCloses` | deepfield/ws_client.py:227-244 | the close events a series of live and snapshot messages emits are exactly these |
| `Ingest.ReplayedFeedRepeats` | deepfield/ws_client.py:227-244 | one that steps back closes a bar twice |
| `Ingest.SnapshotSwallowsClose` | deepfield/ws_client.py:233-238 | a snapshot that is the first to show the next bar swallows a close, which is left to the watchdog on the clock |
| `Ingest.Writer.HandleCandleUpdate` | deepfield/ingest.py:107-112 | an update stores the bar closed exactly if the clock is past its end |
| `Ingest.CloseFiresOnce` | deepfield/ingest.py:119-193 | a reported close fires exactly on the first sight of a close instant of a signal bar, and then no signal bar that completed at that instant is unread |
| `Ingest.Writer.HandleCandleClosed` | deepfield/ingest.py:119-193 | the handler does exactly that to the store, the gate and the deferrals |
| `Ingest.Writer.Arm` | deepfield/ingest.py:156-189 | the evaluation reads every stored signal bar that completed at the instant, daily and weekly on a common border |
| `Ingest.Writer.ApplyRestConfirm` | deepfield/ingest.py:296-346 | a failed confirmation puts the close off, but not beyond half an hour after the first failure; then, or with an answer, the close path runs and a fire on it reads every bar of the instant |
| `Ingest.Writer.Seed` | deepfield/ingest.py:263-269 | the seed is the latest close instant among stored closed signal bars |
| `Ingest.Writer.Restart` | deepfield/ingest.py:251-269 | memory is gone, the store and the history of fires are not, and the gate of every pair is the latest stored close instant |
| `Ingest.RefiresIffForgotten` | deepfield/ingest.py:253-269 | a close reported after a restart fires if and only if no closed signal bar that completed at its instant or later was stored, whether or not the instant had fired before |
| `Ingest.RestartIsSafeIff` | deepfield/ingest.py:251-269 | after a restart some close fires an instant again or out of order if and only if the store has lost an earlier fire |
| `Limits.RestartFiresTwice` | deepfield/ingest.py:251-269 | a concrete case: an unstored daily bar is closed before and after a restart and fires twice |
| `Ingest.EveryFireReadsAll` | deepfield/ingest.py:156-189 | over any run every evaluation, on any path, has read every stored signal bar that completed at its instant |
| `Ingest.StepRemembers` | deepfield/ingest.py:107-112 | a fire of a stored bar whose end the clock had passed is never lost, whatever updates, closes and restarts follow |
| `Ingest.StoredBarsFireOnce` | deepfield/ingest.py:119-269 | under a clock that does not run backwards, if only such bars fire then instants fire once across any restarts |
| `Ingest.FiresOncePerInstant` | deepfield/ingest.py:119-269 | over any stream of updates, duplicate, late and reordered closes, confirmations and restarts, fired instants strictly increase per symbol if every restart found all earlier fires in the store; without a restart, always |
| `Ingest.Run` | deepfield/ingest.py:119-193 | the writer run on such a stream is in the state those theorems speak of, and fires once per instant under the same condition |
| `Respend.Run` | deepfield/executor.py:821-902 | a governor run on any sequence of orders and refunds spends at most the burst, the rate times the elapsed time and what was handed back, up to the tolerance per order; switched off it writes nothing |
| `Respend.WriteBackIsNeutral` | deepfield/executor.py:848-855 | the write-back is invisible at all later times if and only if the clock has not run backwards or the bucket is full |
| `Respend.HourEarnsTheRate` | deepfield/executor.py:821-833 | a new bucket is full, and any bucket earns exactly the hourly rate, in proportion to the time and up to the burst |
| `Respend.CreditUndoesDebit` | deepfield/executor.py:857-902 | a debit and a later credit of the same funded amount cancel out exactly, in spite of the cap |
| `Respend.LevelMovesBySpending` | deepfield/executor.py:834-902 | where neither the cap nor the floor is met, an order or a refund moves the level by exactly what it spends or hands back, on top of what was earned |
| `Respend.RateBound` | deepfield/executor.py:821-902 | spent plus what is left never exceeds the initial level, what was earned and what was handed back |
| `Respend.WindowBound` | deepfield/executor.py:834-874 | from any level, debits are at most burst plus rate times elapsed time plus credits, up to the tolerance per order |
| `Respend.AnyWindow` | deepfield/executor.py:834-874 | the same for every window inside a run |
| `Sizing.MinVolumeIsLeast` | deepfield/executor.py:601-608 | the minimum is the least whole number of lots meeting both exchange minima |
| `Sizing.TrancheMeetsMinima` | deepfield/engine.py:223-240 | both assertions always hold; without conviction the tranche is exactly the minimum |
| `Sizing.TrancheIsLeast` | deepfield/engine.py:223-240 | the tranche is the least whole number of lots that meets the minima one, two or three times, as the score earns |
| `Sizing.SizeIsScaled` | deepfield/executor.py:635-660 | a size is the most whole lots that the multiplier allows of the tranche or the minimum, and never less than that |
| `Sizing.SizeCoversMinimum` | deepfield/executor.py:635-660 | for a whole multiplier every size is at least that multiple of the minimum, and exactly that without a card |
| `Sizing.PreGateIsSound` | deepfield/executor.py:917-968 | what the pre-gate skips the real check refuses, and without a card the two agree exactly |
| `Sizing.PreGateNeedsWholeLots` | deepfield/executor.py:955-965 | for any multiplier, the pre-gate is sound if and only if it scales the minimum to whole lots |
| `Limits.PreGateSkipsFundable` | deepfield/executor.py:955-965 | a concrete case: an order the bucket would fund is skipped by the pre-gate at a multiplier of one and a half |
| `Defense.SurvivesIff` | deepfield/defense.py:44-179 | buffer, stressed buffer and survivable leverage agree on which falls liquidate |
| `Defense.BasketDrawdown` | deepfield/defense.py:213-226 | the running-peak loop returns the worst fall over all pairs of bars |
| `Defense.WorstMove` | deepfield/defense.py:229-243 | the worst fall over exactly the given span, and zero for a span below one |
| `Defense.DrawdownIsWorstHorizon` | deepfield/defense.py:229-243 | the drawdown is the largest of the worst moves over all spans |
| `Defense.LinesDivide` | deepfield/defense.py:75-91 | which readings are nominal, critical and cautious, and that there is room for caution only between the lines |
| `Defense.MissingIsInvisible` | deepfield/defense.py:94-116 | after the first known reading, missing readings change neither the events nor the state |
| `Defense.LeadingMissingShows` | deepfield/defense.py:94-120 | before it they do: the first transition starts from UNKNOWN |
| `Defense.EventsChain` | deepfield/defense.py:118-129 | each transition starts where the last one ended, pages happen in CRITICAL only |
| `Defense.CriticalIsReported` | deepfield/defense.py:94-129 | a fall under both lines is reported once, with its buffer, and the pages that follow are counted from that |
| `Defense.PagesMeanDecay` | deepfield/defense.py:121-129 | k pages in one critical stretch mean a fall of at least 2k points, and no two-point fall goes unpaged |

## Left out

- Runs.Run: on a closed account the whole-book take-profit is off, because a flatten's close is shared by its rows, which the ledger invariant does not describe. `Runs.CloseBook` covers a chain of its passes and, once nothing is left, `Runs.RunOn` takes up the ordinary cycle again; the take-profit trigger and re-arming or sweeping between two passes of an unfinished flatten are not covered there.
- Reverse gear, operator trim and their cancels of pending rows (deepfield/executor.py:1731-1970): they select rows whatever order owns them and ignore cancel results, so they are outside the bound on resting sells.
- Adoption of untracked surplus and the one-shot volatility migration: both exist for positions made outside the bot.
- Legacy rows without a userref, which the program rejects after the window without proof.
- Realized profit texts, journal, alerts, logging, rails, halt file, margin floor and order ceiling; the gates that look outside the ledger are one flag, `allowed`, and the respend refund of a dead bid is proved in `Respend` only.
- Retry clocks, service order and exclusion lists of the ladder and seed passes: they decide which pairs are visited, which is an arbitrary list here.
- The shape of position and order reports: a position report is the net long volume per pair, with a malformed one as the case that every entry is zero.
- Leverage, margin and margin level in the simulated exchange: they never influence what fills.
- Pairs without known tick or lot size, for which the program skips rounding and precision checks.
- Prices of bars, provisional scores, the boot arm and the hourly gap repair in the writer.
- Smoothing of the average true range, the persisted distance table and the risk sizing mode.
- Ladder.RungsNeverCrowd: speaks of a chain's own machine, where the step stays the one a rung was placed with; over the ledger the same is carried by `Spacing` and `Runs.Run`, which say nothing of how near a bid that a signal placed is to the lots of its pair.
- Floating-point rounding: arithmetic is exact.
- Exchange.Kraken.OrdersByRef: only entries are found by reference, as only they carry one.
