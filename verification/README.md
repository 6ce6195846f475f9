# A verified model of the sleeve ledger

Several trading bots share one brokerage account. Each bot owns a *sleeve*: a slice of cash and shares
that exists only in a ledger. The exchange does not know about sleeves, so nothing but the ledger stops
a bot from spending another bot's money or selling its shares. This project models that ledger, the
broker that places and cancels orders beside it, and the small machines around both, and proves that
the slice holds: over whole runs, with late and repeated polls, lost answers, and several workers on
one database.

Money and quantities are exact (`real`). A ledger call is one step of a state machine
(`LedgerSpec.Step`); a run is a sequence of steps (`LedgerSpec.Run`). Classes that update their fields
are proved to take exactly those steps, and properties are proved about runs.

| file | what it holds |
|---|---|
| `SleeveTypes.dfy`, `MapSums.dfy` | value types; sums over whole maps |
| `Positions.dfy` | the moving-average position fold, as loops and as a function |
| `LedgerSpec.dfy` | the ledger as a state machine |
| `Ledger.dfy` | the dictionary ledger, a class with a ghost history |
| `CashTheorems.dfy`, `SellTheorems.dfy`, `PollTheorems.dfy` | cash, sell side and polling, over runs |
| `TableSpec.dfy`, `TableLedger.dfy`, `Simulation.dfy` | the table ledger, and its simulation of the dictionary ledger |
| `Transactions.dfy` | workers, one write lock, begin / statement / commit / rollback |
| `Broker.dfy` | placing and cancelling over an unreliable transport |
| `Protocol.dfy`, `Placement.dfy` | ledger, exchange, poller and broker together: coverage |
| `ProtocolTrust.dfy`, `Closing.dfy` | the same system: guards, cap and open rows; marks and corrections at the wrong time |
| `Deployment.dfy` | the protocol on a database that several workers share |
| `RateLimit.dfy`, `Ticks.dfy`, `TokenCache.dfy` | the sliding window, tick snapping, the token cache |

What the exchange and the caller are trusted for appears as named predicates, checked step by step:
`CapGuard` and `SellGuard` (fills stay within what was reserved), `TableGuard` (snapshots of one order
keep their identity), `Truthful` (an error in so many words is not an order), `Enabled` (what the
exchange may do). In `Protocol` none of the first three is assumed: that reservations and shares cover
all the exchange can still do holds with late fees, corrected prices, sales polled before their row is
bound, withdrawals and a clock set back. `ProtocolTrust` derives the guards from limits, amounts and
quantities, and names what is left to trust: for the cap `CapTrusted` (sale reports take nothing back,
withdrawals are covered, the clock moves forward), for the open sell rows `SellTrusted` (a partial sale
is applied once its row is bound, and a closed sale that is not complete is left alone).

Where the code does less than its comments say, the model follows the code, states the exact
difference and shows an input at which it bites:

- the cap holds only up to fees of buys (`CoveredBuyExactly`, `PlainCapFails`) and while sale reports take
  nothing back (`SaleExactly`, `LateSaleFeeBreaksCap`);
- a terminal status can be overwritten by a late fee or fill (`LateSnapshotReopens`, `LateFeeCanOversell`);
- a cancel frees money that unpolled fills still need (`EarlyCloseExactly`, `EarlyCloseUncovers`);
- placing again after an ambiguous result can give back what the first order held (`RetryKeepsFirstExactly`,
  `NoRetryIsSafe`, `RefusedRetryUncovers`);
- a price corrected after nothing is held any more is not covered (`LateCorrectionExactly`,
  `LateCorrectionUncovers`);
- the reservation remembers an overshoot that is later corrected (`AvailableConfluent`,
  `ReservationRemembersOvershoot`);
- the table form keeps the old identity columns of a fill (`FillAgreesExactly`, `RenamedSnapshotDiffers`);
- a fill that changes currency books cash in the wrong bucket (`DriftExactly`, `DriftHappens`);
- a sleeve opened again under another base currency gets capital twice (`OpeningAndReopening`,
  `ReopenedElsewhere`);
- a position keeps the currency of its forgotten history (`FlatHistoryRow`, `OldCurrencyIsKept`);
- snapping a negative price down can raise it (`SnapDownNeverRaisesExactly`, `NegativePriceIsRaised`).

## Model

| member | source | states |
|---|---|---|
| Ledger.InMemorySleeveLedger.Create | src/toss_sleeve/ledger.py:225-243 | an object is made exactly for a non-empty sleeve id and a capital that is not negative, and starts on that capital with nothing else |
| Ledger.InMemorySleeveLedger.ReservedTotal | src/toss_sleeve/ledger.py:252-253 | the loop gives the sum over the whole reservation map in one currency, in whatever order it is walked |
| Ledger.InMemorySleeveLedger.SettlementPending | src/toss_sleeve/ledger.py:255-267 | the loop gives the net proceeds of all sales whose settlement date lies ahead |
| Ledger.InMemorySleeveLedger.Available | src/toss_sleeve/ledger.py:269-274 | what can be spent leaves out reservations and unsettled sales |
| Ledger.InMemorySleeveLedger.OpenSellQty | src/toss_sleeve/ledger.py:92-108 | the loop gives the sum of what the open sell rows of a ticker may still sell, one client order id left out |
| Ledger.InMemorySleeveLedger.PositionQuantity | src/toss_sleeve/ledger.py:374-375 | the listed quantity is the positive part of bought minus sold over all snapshots |
| Ledger.InMemorySleeveLedger.SellAvailability | src/toss_sleeve/ledger.py:380-390 | position minus open sells, for every exclusion |
| Ledger.InMemorySleeveLedger.ClientOrderIdFor | src/toss_sleeve/ledger.py:299-302 | an answer is a row with that exchange id; no answer means no row has it |
| Ledger.InMemorySleeveLedger.Reserve | src/toss_sleeve/ledger.py:279-289 | the call is one reserve step with its reply, errors and refusals included, and nothing else changes |
| Ledger.InMemorySleeveLedger.Release | src/toss_sleeve/ledger.py:291-292 | the call is one release step; releasing twice or without a reservation is allowed |
| Ledger.InMemorySleeveLedger.MarkOrderTerminal | src/toss_sleeve/ledger.py:308-312 | the call sets the status if the row exists and frees the reservation in any case |
| Ledger.InMemorySleeveLedger.RecordOrder | src/toss_sleeve/ledger.py:314-336 | the row is replaced and pending again, and an empty exchange id keeps the known one |
| Ledger.InMemorySleeveLedger.ReserveSell | src/toss_sleeve/ledger.py:392-405 | the row is written exactly when the quantity is sellable, the order's own row not counted |
| Ledger.InMemorySleeveLedger.ApplyFill | src/toss_sleeve/ledger.py:338-366 | cash, reservation, snapshot and status all move by the step of the snapshot, a repeated poll changes nothing and a smaller quantity raises with no change |
| Ledger.InMemorySleeveLedger.RecordCashflow | src/toss_sleeve/ledger.py:368-369 | external money moves the cash of its currency only |
| Ledger.InMemorySleeveLedger.StatusOf | src/toss_sleeve/ledger.py:304-306 | the recorded status, and none exactly without a row |
| Ledger.InMemorySleeveLedger.ObjectKeepsPromises | src/toss_sleeve/ledger.py:222-405 | an object whose calls kept the guards can never have spent beyond its capital, fees apart, nor promised more shares than it bought |
| LedgerSpec.EnumerationSorts | src/toss_sleeve/ledger.py:114-114 | every enumeration of the snapshot map sorts to the same list |
| LedgerSpec.PositionIsNetHeld | src/toss_sleeve/ledger.py:374-375 | a position is the positive part of a sum over the snapshot map |
| SleeveTypes.BeforeIsLexicographic | src/toss_sleeve/ledger.py:255-267 | dates and sort keys are compared as text, at the first place where they differ |
| Positions.Aggregate | src/toss_sleeve/ledger.py:115-132 | the loop over mutable slots computes, for every symbol, the fold of its own fills and the currency of its first one |
| Positions.PositionRows | src/toss_sleeve/ledger.py:111-144 | the two loops give the listed rows of the sorted snapshots |
| Positions.SortSorts | src/toss_sleeve/ledger.py:114-114 | sorting by time and order id gives an ordered permutation |
| Positions.SortedByTimeThenId | src/toss_sleeve/ledger.py:114-114 | snapshots are folded in ascending time, and by order id among equal times |
| Positions.NetIsBoughtMinusSold | src/toss_sleeve/ledger.py:118-132 | the net quantity is bought minus sold in spite of clamp and reset |
| Positions.PositionOf | src/toss_sleeve/ledger.py:133-144 | a ticker has one row when its net is positive and none otherwise, read off its slot alone |
| Positions.QuantityIsPositivePart | src/toss_sleeve/ledger.py:374-375 | the quantity read from the list is max(0, bought - sold) |
| Positions.ListedInOrderOfFirstFill | src/toss_sleeve/ledger.py:134-143 | positions are listed in the order in which their symbols were first traded |
| Positions.BuysAddUp | src/toss_sleeve/ledger.py:120-123 | without sales the cost of a symbol is the sum of price times quantity over its buys, each at its own price |
| Positions.ListedAverageIsMean | src/toss_sleeve/ledger.py:134-143 | the listed average of a symbol that was never sold, times its quantity, is what its buys cost together |
| Positions.BuyMixesAverage | src/toss_sleeve/ledger.py:120-123 | a buy onto a position never oversold: new average times new quantity is old average times old quantity plus price times quantity bought |
| Positions.TrackedIsNet | src/toss_sleeve/ledger.py:118-132 | while a symbol was never oversold the tracked quantity is the net quantity |
| Positions.SaleOutResets | src/toss_sleeve/ledger.py:129-132 | a sale that leaves nothing or less forgets the cost of all earlier buys |
| Positions.FoldKeepsBounds | src/toss_sleeve/ledger.py:117-132 | cost and tracked quantity are not negative, net is at most tracked, and cost lies between lowest and highest buy price times tracked |
| Positions.ListedAverageWithinBuyPrices | src/toss_sleeve/ledger.py:134-143 | every listed row has a positive quantity and an average inside the range of its buy prices |
| Positions.SaleKeepsAverage | src/toss_sleeve/ledger.py:124-132 | a sale that leaves a position open leaves its average price unchanged |
| Positions.FlatSlot | src/toss_sleeve/ledger.py:130-132 | a flat history leaves an empty slot exactly when it does not end on a buy |
| Positions.FlatHistoryIsForgotten | src/toss_sleeve/ledger.py:120-132 | every later slot (net, cost, tracked quantity) equals that of the later fills alone, if and only if the flat history did not end on a buy |
| Positions.FlatHistoryRow | src/toss_sleeve/ledger.py:116-143 | the listed row after a flat history has quantity and average of the later fills alone, keeps the currency the history began with, and is the very same row if and only if the currencies agree |
| Positions.OldCurrencyIsKept | src/toss_sleeve/ledger.py:119-119 | a symbol sold out in won and bought again in dollars is listed in won |
| Positions.FlatHistoryNoRow | src/toss_sleeve/ledger.py:134-135 | with nothing bought beyond what was sold later, neither list has a row |
| Positions.LaterSortsBehind | src/toss_sleeve/ledger.py:114-114 | snapshots that all come after a history are folded after it, in whatever order they were stored |
| Positions.NeverOversoldEndsOnSale | src/toss_sleeve/ledger.py:120-132 | a history that never oversold and ends flat cannot end on a buy, so it is forgotten |
| Positions.PermutationInvariant | src/toss_sleeve/ledger.py:111-144 | the list is the same for every arrival order of the snapshots |
| Positions.SymbolIndependent | src/toss_sleeve/ledger.py:117-132 | a symbol's row is what it would be if no other symbol were traded |
| CashTheorems.CashLaw | src/toss_sleeve/ledger.py:348-350 | over any run from any state, cash not explained by the latest snapshots moves by cashflows and currency drift only |
| CashTheorems.CashConservation | src/toss_sleeve/ledger.py:348-369 | virtual cash is opening amount plus cashflows plus the signed cash of each order's latest snapshot |
| CashTheorems.DriftExactly | src/toss_sleeve/ledger.py:348-350 | a step books in the right currency if and only if it keeps the order's currency or the old effect was nil |
| CashTheorems.DriftHappens | src/toss_sleeve/ledger.py:348-350 | a run in which an order polled first under a defaulted currency leaves cash missing in a currency no order is in |
| CashTheorems.SettlementIdentity | src/toss_sleeve/ledger.py:255-274 | on any date, available is opening plus cashflows, less buy costs with fees, plus settled proceeds, less reservations |
| CashTheorems.ClockReleasesSettled | src/toss_sleeve/ledger.py:255-274 | moving the clock forward adds exactly the proceeds that have just settled |
| CashTheorems.UnsettledSaleIsInvisible | src/toss_sleeve/ledger.py:255-274 | a sale that is and was unsettled does not change what can be spent |
| CashTheorems.SaleCountsFromItsDate | src/toss_sleeve/ledger.py:255-274 | a stored sale keeps price times quantity less fees out of what can be spent exactly while its date lies after today; no other snapshot does |
| CashTheorems.AllSettled | src/toss_sleeve/ledger.py:255-274 | when no sale is dated after today, all cash that is not reserved can be spent |
| CashTheorems.NewFillMovesCash | src/toss_sleeve/ledger.py:36-41 | a new buy costs price times quantity and its commission and tax at once, a new sale brings in price times quantity less those, in its own currency only |
| CashTheorems.ReserveRule | src/toss_sleeve/ledger.py:279-289 | a reservation is granted exactly when it is attributed, not negative and within what can be spent plus what the same id holds; and what it leaves to spend in each currency |
| CashTheorems.ReleaseRule | src/toss_sleeve/ledger.py:291-312 | a release or a terminal mark gives back exactly what was held |
| CashTheorems.CoveredBuyExactly | src/toss_sleeve/ledger.py:49-58 | a covered buy changes available by its surplus (the rest of the reservation if it completes the order, else nothing) less fees; the plain cap survives it if and only if the fees fit, all known before the call; other currencies are untouched |
| CashTheorems.SaleExactly | src/toss_sleeve/ledger.py:255-274 | an applied sale changes available by its settled proceeds after less those before, the cap survives if and only if what it takes back is there, and buy fees and other currencies are untouched |
| CashTheorems.StepKeepsCap | src/toss_sleeve/ledger.py:279-369 | every guarded call keeps available plus buy fees from going below zero in every currency |
| CashTheorems.HardCap | src/toss_sleeve/ledger.py:44-58 | in every reachable state available plus buy fees is not negative |
| CashTheorems.ReservedStayNonnegative | src/toss_sleeve/ledger.py:279-292 | no call whatsoever makes a reservation negative |
| CashTheorems.AllReservedIsReached | src/toss_sleeve/ledger.py:279-289 | a sleeve can reach the state where all its money is reserved |
| CashTheorems.PlainCapFails | src/toss_sleeve/ledger.py:49-58 | a guarded run from a fresh sleeve ends below zero by the fee |
| SellTheorems.StepKeepsMargin | src/toss_sleeve/ledger.py:338-405 | every guarded call keeps bought minus sold minus open sells from going below zero in every symbol |
| SellTheorems.ReserveSellRule | src/toss_sleeve/ledger.py:392-405 | a sale is registered exactly when it is attributed and within the position less the open sales of others, and what it leaves to sell |
| SellTheorems.NoOversell | src/toss_sleeve/ledger.py:392-405 | in every reachable state, even if every open sell fills, no more is sold than was bought, and that margin is what the ledger reports as sellable |
| SellTheorems.LateSnapshotReopens | src/toss_sleeve/ledger.py:362-366 | a snapshot applied to a sell row after it was closed, be it a late fee, a corrected price or a late fill, takes from the margin the quantity it adds and the remainder it opens again, and the sell side survives if and only if that much was free |
| SellTheorems.LateFeeCanOversell | src/toss_sleeve/ledger.py:362-366 | a guarded run from a fresh sleeve after which one late fee promises six more than was bought |
| SellTheorems.LateSaleFeeBreaksCap | src/toss_sleeve/ledger.py:338-361 | a guarded run from a fresh sleeve after which one late fee on a sale leaves it half a won below zero |
| PollTheorems.PollIdempotent | src/toss_sleeve/ledger.py:338-342 | applying a snapshot twice is applying it once |
| PollTheorems.RegressionRefused | src/toss_sleeve/ledger.py:343-347 | only a smaller cumulative quantity is refused, and then nothing changes |
| PollTheorems.SameColumnsDropped | src/toss_sleeve/ledger.py:61-77 | a poll with the stored quantity, price, commission and tax does nothing, even if its dates are new |
| PollTheorems.ChangedColumnsStored | src/toss_sleeve/ledger.py:61-77 | a first poll, and one that changes one of the four columns with no smaller quantity, is what is stored |
| PollTheorems.FillDecidesStatus | src/toss_sleeve/ledger.py:80-84 | an applied snapshot makes its row filled exactly when the recorded quantity is known and reached, leaves it open otherwise, and touches no other row |
| PollTheorems.ExchangeIdNeverLost | src/toss_sleeve/ledger.py:324-336 | over any run a row that knows its exchange id keeps one, retries with an empty id included, and keeps the same one unless it is bound to another order |
| PollTheorems.KeptIsLastAccepted | src/toss_sleeve/ledger.py:61-77 | what a run keeps for an order depends on that order's own polls alone, whatever else is interleaved |
| PollTheorems.KeptIsLastPoll | src/toss_sleeve/ledger.py:61-77 | of polls that never go down, the kept snapshot is worth what the last one is worth |
| PollTheorems.PollingConfluent | src/toss_sleeve/ledger.py:338-366 | runs whose orders end on agreeing accepted snapshots end with the same cash in every currency and the same filled quantities |
| PollTheorems.AcceptedSnapshotsDecide | src/toss_sleeve/ledger.py:338-372 | runs whose orders end on equal accepted snapshots list the same positions and, with equal cashflows and date, have the same sum of spendable and reserved money in every currency |
| PollTheorems.InterleavingIrrelevant | src/toss_sleeve/ledger.py:338-366 | polls of different orders can be interleaved in any way: snapshots and positions end the same and, where reservations are left to the polls, so do the reservations and what can be spent |
| PollTheorems.ReservationLaw | src/toss_sleeve/ledger.py:348-361 | over any polls something stays reserved exactly while no accepted snapshot completed the order or cost the whole amount, and then remainder plus filled notional is the amount first reserved |
| PollTheorems.CompleteFreesAll | src/toss_sleeve/ledger.py:49-58 | a complete order keeps nothing reserved, whatever its partial fills cost |
| PollTheorems.RemainderPathFree | src/toss_sleeve/ledger.py:49-58 | two polling paths to the same cost hold the same reservation if and only if both or neither ever overspent |
| PollTheorems.HeldIsFold | src/toss_sleeve/ledger.py:351-360 | what is reserved for an order after a run depends on the polls of that order alone |
| PollTheorems.AvailableConfluent | src/toss_sleeve/ledger.py:338-361 | runs that end on the same accepted snapshots by different polls hold the same reservations if and only if each order was spent on both paths or on neither, and then can spend the same |
| PollTheorems.ReservationRemembersOvershoot | src/toss_sleeve/ledger.py:49-58 | two paths from a fresh sleeve to one snapshot and the same cash that end with different reservations |
| TableLedger.SqliteSleeveLedger.Create | src/toss_sleeve/ledger.py:463-491 | an object is made exactly for a non-empty sleeve id and a capital that is not negative; a refusal leaves the tables alone |
| TableLedger.SqliteSleeveLedger.SumRows | src/toss_sleeve/ledger.py:534-555 | the loop over the shared table sums the rows of this sleeve only |
| TableLedger.SqliteSleeveLedger.Available | src/toss_sleeve/ledger.py:557-562 | the queries give what this sleeve's rows leave to spend |
| TableLedger.SqliteSleeveLedger.PositionList | src/toss_sleeve/ledger.py:770-778 | the fill rows of this sleeve, in whatever order they are read, give the position list of its snapshots |
| TableLedger.SqliteSleeveLedger.SellAvailability | src/toss_sleeve/ledger.py:786-804 | position of this sleeve's fill rows minus its open sell rows |
| TableLedger.SqliteSleeveLedger.Reserve | src/toss_sleeve/ledger.py:567-591 | on the rows of any ledger state the call means what it means on the dictionary ledger, reply included, and every row of other sleeves is the same row |
| TableLedger.SqliteSleeveLedger.Release | src/toss_sleeve/ledger.py:593-598 | the rows stand for the state after the same call on the dictionary ledger |
| TableLedger.SqliteSleeveLedger.ReserveSell | src/toss_sleeve/ledger.py:636-651 | check and registration read and write the same tables, and mean what they mean on the dictionary ledger |
| TableLedger.SqliteSleeveLedger.RecordOrder | src/toss_sleeve/ledger.py:600-634 | the rows stand for the state after the same call on the dictionary ledger: replaced, pending, a known exchange id kept |
| TableLedger.SqliteSleeveLedger.MarkOrderTerminal | src/toss_sleeve/ledger.py:681-690 | the rows stand for the state after the same call on the dictionary ledger, whether or not there is a row or a reservation |
| TableLedger.SqliteSleeveLedger.ApplyFill | src/toss_sleeve/ledger.py:692-758 | for every snapshot that keeps the order identity, reply and rows are those of the dictionary ledger; a regression leaves every table as it was |
| TableLedger.SqliteSleeveLedger.RecordCashflow | src/toss_sleeve/ledger.py:760-768 | the rows stand for the state after the same call on the dictionary ledger, and one cashflow row of this sleeve is appended |
| TableLedger.OpeningAndReopening | src/toss_sleeve/ledger.py:485-491 | opening a new sleeve starts it on its capital; opening a known one changes nothing if and only if its base currency has a row, and otherwise adds the named capital in a new row |
| TableLedger.ReopenedElsewhere | src/toss_sleeve/ledger.py:485-491 | a sleeve of a hundred won opened again under dollars has a hundred of each |
| Simulation.FillAgreesExactly | src/toss_sleeve/ledger.py:732-746 | the two ledgers reply alike to every fill, and store alike if and only if an applied snapshot keeps the order's identity |
| Simulation.RenamedSnapshotDiffers | src/toss_sleeve/ledger.py:732-746 | a run in which a snapshot that renames its order is stored differently by the two ledgers |
| Simulation.AvailableAgrees | src/toss_sleeve/ledger.py:541-565 | the query without a test for an empty date gives the same sum as the dictionary form with it |
| Simulation.RowCountsFromItsDate | src/toss_sleeve/ledger.py:541-565 | a sale row keeps its proceeds out exactly while its date lies after today; no other row does |
| Simulation.AllRowsSettled | src/toss_sleeve/ledger.py:541-565 | when no sale row is dated after today, all cash that is not reserved can be spent |
| Simulation.SameColumnsUnwritten | src/toss_sleeve/ledger.py:696-699 | a poll with the stored quantity, price, commission and tax writes nothing, even if its dates are new |
| Simulation.ChangedColumnsWritten | src/toss_sleeve/ledger.py:732-746 | a first poll, and one that changes one of the four columns with no smaller quantity, is stored but for the order it names |
| Simulation.StepAgrees | src/toss_sleeve/ledger.py:567-768 | every operation gives the same reply on tables and on dictionaries and leaves corresponding state |
| Simulation.StepSimulates | src/toss_sleeve/ledger.py:567-768 | for whatever ledger state the rows stand for, a call on the tables leaves the rows of the state after the call, gives its reply, and leaves every other row alone |
| Simulation.TablesSimulate | src/toss_sleeve/ledger.py:459-804 | for every sequence of calls the table ledger gives the dictionary ledger's replies and ends on its state |
| Simulation.QueriesSimulate | src/toss_sleeve/ledger.py:557-804 | after any run available, virtual cash, positions, sell availability and, row by row, status and reverse lookup agree |
| Simulation.OtherSleevesUntouched | src/toss_sleeve/ledger.py:408-456 | whatever one sleeve calls, every row of another sleeve stays the same in every column, allocated capital included, and every new cashflow row is the caller's own |
| Simulation.FlowsAreLogged | src/toss_sleeve/ledger.py:760-768 | the cashflow table records exactly the external money of a run, and allocated capital never changes |
| Simulation.TablesBalance | src/toss_sleeve/ledger.py:408-456 | from the rows alone: virtual cash is allocated capital plus the cashflow rows plus the signed cash of the fill rows |
| Transactions.StatementAdvances | src/toss_sleeve/ledger.py:692-758 | after every single statement the uncommitted tables and what was read are those of the call half way, and at the end of the whole call |
| Transactions.Serializable | src/toss_sleeve/ledger.py:501-512 | any interleaving of begin, statement, commit and rollback steps commits what the committed calls give one after another, each with the reply it gave |
| Transactions.FailureLeavesNoTrace | src/toss_sleeve/ledger.py:508-510 | a call that raised, or is rolled back, leaves committed tables and log alone |
| Transactions.EveryCallEnds | src/toss_sleeve/ledger.py:501-512 | every call that opens a transaction ends within seven statements, raising exactly when it would raise alone and else with the tables and reply it would give alone |
| Transactions.AloneCommits | src/toss_sleeve/ledger.py:501-512 | a worker that finds the lock free and is left to itself commits its call and frees the lock, or rolls back to the database it found |
| Transactions.WorkersAreOneLedger | src/toss_sleeve/ledger.py:567-591 | for each sleeve the shared database is the state of a single ledger that made its committed calls |
| Transactions.SharedDatabaseKeepsPromises | src/toss_sleeve/ledger.py:567-651 | with any number of workers, the committed rows of a guarded sleeve never overspend, fees apart, and never promise more shares than were bought |
| Broker.ReserveAmount | src/toss_sleeve/broker.py:243-250 | price times quantity for a limit order, the order amount otherwise; positive, and missing only for a buy by quantity without a limit |
| Broker.AcceptedIsNotMissed | src/toss_sleeve/api/constants.py:108-143 | whatever the transport does, only the last POST can have been accepted, and an accepted one is read as possibly placed |
| Broker.ReleasingAnswersExactly | src/toss_sleeve/api/constants.py:116-137 | which answers make a placement give back what it held: exactly a success that names no order, and a conclusive error other than a conflict |
| Broker.UnwindRestores | src/toss_sleeve/broker.py:291-298 | holding and giving back leaves every availability as it was, whenever nothing was held under the id before |
| Broker.RejectedRowIsInert | src/toss_sleeve/broker.py:297-298 | the rejected row a sale leaves behind counts for nothing, also in place of an earlier closed one |
| Broker.TossBroker.Send | src/toss_sleeve/broker.py:106-126 | again exactly while the connection failed and attempts remain, and the outcome is that of the last attempt |
| Broker.TossBroker.PostOrder | src/toss_sleeve/api/auth.py:229-241 | the call ends on the first preparation that fails or on its last attempt; a token refused is renewed and the POST sent again, once; the result is read off what it ended on |
| Broker.TossBroker.Hold | src/toss_sleeve/broker.py:156-182 | money or shares are held exactly when the order is attributed, not denied and covered; a refusal changes nothing |
| Broker.TossBroker.HandleOrderError | src/toss_sleeve/broker.py:269-289 | a conflict is answered with a remembered ack or kept as ambiguous, an ambiguous end keeps what is held, any other error gives it back |
| Broker.TossBroker.Conclude | src/toss_sleeve/broker.py:185-211 | reply, ledger and remembered acks after each way a POST can end |
| Broker.TossBroker.Place | src/toss_sleeve/broker.py:145-211 | a remembered order is answered and an uncovered one rejected without sending; any other is sent, and reply, acks and ledger follow from what the network made of it, status by status; on an id under which nothing is held a rejection or plain error leaves every availability as before, anything else still holds, and an accepted POST is the last one and never uncovered |
| Broker.PlacedIsSafe | src/toss_sleeve/broker.py:145-211 | the same for every outcome the network can produce |
| Broker.PlacedIsAnswered | src/toss_sleeve/broker.py:269-289 | by the status of the last POST: a 2xx that names the order is acknowledged, a lost answer, 409, 429, 5xx or an answer without JSON is ambiguous and keeps what is held, 400 and 422 reject, the rest is passed on, and those give it back |
| Broker.RefusedTokenExactly | src/toss_sleeve/api/auth.py:234-239 | a token is renewed exactly on a 401 with a JSON body that names it invalid |
| Broker.DenylistExactly | src/toss_sleeve/broker.py:159-161 | the denylist stops the buys of its tickers and nothing else |
| Broker.RetryKeepsFirstExactly | src/toss_sleeve/broker.py:287-298 | placing again under one client order id keeps a possibly live first order covered if and only if the second call may itself have placed an order no smaller in the same currency or symbol |
| Broker.NoRetryIsSafe | src/toss_sleeve/broker.py:287-298 | whatever is sent again under the id of an order that may be live, some end of it leaves that order uncovered, and which one |
| Broker.RefusedRetryUncovers | src/toss_sleeve/broker.py:287-298 | from a fresh sleeve, a refused retry leaves the first order with nothing held |
| Broker.TossBroker.Cancel | src/toss_sleeve/broker.py:220-231 | agreed on a 2xx, refused on a 400 or 422 with JSON, an exception on any other answer, a lost one or no connection; only an agreed cancel changes the ledger, and then only by marking a row with that exchange id |
| ProtocolTrust.BuyPollGuarded | src/toss_sleeve/ledger.py:338-366 | a polled snapshot of a buy is covered by its own reservation, at any price within the limit or the amount |
| ProtocolTrust.SalePollGuarded | src/toss_sleeve/ledger.py:338-366 | a trusted poll of a sale lands on its own row, within its quantity |
| ProtocolTrust.CallsGuarded | src/toss_sleeve/ledger.py:279-405 | every ledger call of the whole system meets the guard of the tables; every call but sale reports, external money and the clock that of the cap; every call trusted for it that of the sell side |
| Protocol.NextSound | src/toss_sleeve/broker.py:145-231 | every move of broker, exchange, poller or clock keeps what the ledger knows of each order enough for what the exchange made of it, with no trust in fees, prices, bindings, withdrawals or dates |
| Protocol.MovesSound | src/toss_sleeve/broker.py:145-231 | so does every sequence of moves |
| Protocol.MovesKeepShares | src/toss_sleeve/ledger.py:380-405 | no sequence of moves lets the exchange sell more than the sleeve bought, however late fees and fills are reported |
| ProtocolTrust.MovesWithinCap | src/toss_sleeve/ledger.py:44-58 | moves that are trusted for sale reports, withdrawals and the clock keep the cap in every state |
| ProtocolTrust.CashPays | src/toss_sleeve/broker.py:3-8 | with those moves settled cash pays for all the exchange could still charge, fees apart |
| ProtocolTrust.MovesKeepSellSide | src/toss_sleeve/ledger.py:392-405 | moves that are trusted for the open sell rows never let them promise more than was bought |
| Protocol.LedgerCoversExchange | src/toss_sleeve/broker.py:145-211 | after any moves each buy's reservation, by limit or by amount, pays for unapplied fills and the rest, and each sell row covers what is unpolled and unfilled; late fees, corrected prices, unbound rows, withdrawals and a clock set back included |
| Protocol.SleeveStandsAlone | src/toss_sleeve/broker.py:3-8 | in total: what was bought and not sold covers all the exchange could still sell, and reservations pay for all it could still charge, after any moves |
| Protocol.FreshSound | src/toss_sleeve/ledger.py:225-243 | a fresh sleeve meets the starting conditions of coverage and of the share total |
| Closing.EarlyCloseExactly | src/toss_sleeve/broker.py:228-230 | an order marked closed, while it can still fill or after, stays covered if and only if, for a sale, all its quantity was applied and nothing more can come and, for a buy, no more cost can come than was applied; without price corrections that is when nothing is left |
| Closing.EarlyCloseUncovers | src/toss_sleeve/broker.py:228-230 | a run from a fresh sleeve after which a cancel marked before polling leaves forty uncovered |
| Closing.LateCorrectionExactly | src/toss_sleeve/ledger.py:64-76 | once nothing is held for a buy, a further snapshot leaves it covered if and only if it does not cost more |
| Closing.LateCorrectionUncovers | src/toss_sleeve/ledger.py:64-76 | a run from a fresh sleeve to a closed order whose price is then corrected from 9 to 9.5, which leaves five uncovered |
| Placement.HoldIsMove | src/toss_sleeve/broker.py:156-182 | what the broker does before the POST of any order it can send, limit or amount, is a move of the system, refused exactly when the order is not covered |
| Placement.EndIsMove | src/toss_sleeve/broker.py:185-211 | what it does after the POST is a move of the system, for every way the POST can end |
| Placement.ReadingFits | src/toss_sleeve/api/constants.py:108-143 | what a placement reads fits what the exchange did, derived from what each single POST is trusted for |
| Placement.PlacementKeepsCoverage | src/toss_sleeve/broker.py:145-211 | a placement of any order that can be sent, with any moves of others between its hold and its end, a cancel included, and any outcome of its POSTs, leaves everything covered and the ledger as the broker does |
| Deployment.MovesRunTheLedger | src/toss_sleeve/broker.py:145-231 | the protocol's ledger is a run of its calls, which meet the guards of the tables by themselves |
| Deployment.CallsMeetCap | src/toss_sleeve/ledger.py:44-58 | where the moves are trusted for the cap, the calls of the run meet its guard |
| Deployment.CallsMeetSellSide | src/toss_sleeve/ledger.py:392-405 | where the moves are trusted for the open sell rows, the calls of the run meet the guard of the sell side |
| Deployment.DatabaseFollowsProtocol | src/toss_sleeve/ledger.py:501-512 | with any interleaving of workers whose committed calls are the protocol's, the committed rows are the ledger the protocol leads to |
| Deployment.DeploymentIsSafe | src/toss_sleeve/broker.py:3-8 | from a fresh sleeve, with any interleaving of workers, the committed rows cover all the exchange could still do with each order, and what was bought all it could still sell; where trusted they never promise more shares than were bought and never overspend, fees of buys apart |
| RateLimit.RateLimiter.Create | src/toss_sleeve/ratelimit.py:22-38 | a limiter is made exactly for a positive limit and a positive period, with no grants yet |
| RateLimit.RateLimiter.Evict | src/toss_sleeve/ratelimit.py:40-43 | only calls that have left the window are dropped, and all of those |
| RateLimit.RateLimiter.WaitForRoom | src/toss_sleeve/ratelimit.py:46-54 | the wait ends after at most one sleep with room in the window |
| RateLimit.RateLimiter.Acquire | src/toss_sleeve/ratelimit.py:45-55 | the grant keeps the window over the whole history, and on an exact clock comes at the earliest moment the window allows |
| RateLimit.GrantNow | src/toss_sleeve/ratelimit.py:49-55 | room among the trimmed calls is enough for the window over all grants ever made |
| RateLimit.ScheduleLegal | src/toss_sleeve/ratelimit.py:45-55 | the scheduled grant times respect order, requests and window |
| RateLimit.ScheduleEarliest | src/toss_sleeve/ratelimit.py:45-55 | no legal first-come schedule grants any request earlier |
| RateLimit.ServeInOrder | src/toss_sleeve/ratelimit.py:45-55 | callers served in order on an exact clock are granted at exactly the scheduled moments, and no legal schedule grants any of them earlier |
| Ticks.KrxAligned | src/toss_sleeve/ticks.py:20-28 | every band edge is a multiple of the ticks on both sides of it |
| Ticks.TickTable | src/toss_sleeve/ticks.py:20-40 | the tick of every price, band by band in numbers, and a cent for dollars |
| Ticks.SnapDownGreatest | src/toss_sleeve/ticks.py:43-46 | for every non-negative price the result is the greatest legal price not above it |
| Ticks.SnapUpLeast | src/toss_sleeve/ticks.py:49-53 | for every non-negative price the result is the least legal price not below it, also across a band edge |
| Ticks.SnapMonotone | src/toss_sleeve/ticks.py:43-53 | both are monotone and idempotent and leave exactly the legal prices in place |
| Ticks.SnapDownNeverRaisesExactly | src/toss_sleeve/ticks.py:43-46 | snapping down does not raise a price if and only if it is not negative or is legal |
| Ticks.NegativePriceIsRaised | src/toss_sleeve/ticks.py:43-46 | half a won below zero is snapped down to zero |
| TokenCache.TossAuth.IssueToken | src/toss_sleeve/api/auth.py:125-151 | a new token becomes the one in memory whether or not the disk takes it |
| TokenCache.TossAuth.Token | src/toss_sleeve/api/auth.py:107-123 | a good token in memory is reused, then a good one on disk, and else a new one is issued; whatever failed on disk, a token handed out was issued after the last invalidation |
| TokenCache.TossAuth.Invalidate | src/toss_sleeve/api/auth.py:153-169 | afterwards every token issued so far is stale, even if the file stays |

## Left out

- HTTP, JSON, headers and request bodies: an answer is its status, whether it has a JSON body, its error code and the order id it names (already trimmed of blanks).
- Rounding of decimals to 28 digits and floating-point time: prices, averages and instants are exact reals.
- SQL text, busy timeouts, text storage of numbers and the file itself: tables are maps from primary key to row.
- The memo text of a cashflow.
- The order in which a dictionary or a table hands out its rows: sums and position lists are proved not to depend on it, except that the order of the listed rows follows the first fill of each symbol as in the code.
- Ledger.InMemorySleeveLedger.ClientOrderIdFor: when two rows share an exchange id any of them may be the answer; the code takes the first in the dictionary's order.
- Broker.TossBroker.Place: the ledger does not change while the call waits for the transport; what other calls do meanwhile is the subject of `Protocol` and `Placement`. An ack that a concurrent call stores meanwhile is covered by the contract of `Conclude`.
- Broker.TossBroker.Send: the rate-limit slot each attempt takes is not counted.
- Protocol.LedgerCoversExchange: the cost of a buy that is complete, or whose amount is spent, is taken as final (`LateCorrectionExactly` says what a later correction does), an order is marked closed only once the ledger has caught up (`EarlyCloseExactly` says what an earlier mark does), and a client order id is used again only after a clean rejection (`RetryKeepsFirstExactly` says what another retry does).
- Transactions.Serializable: a single-statement `release` and the `record_order` and `mark_order_terminal` transactions take the same write lock as the others, since each begins with a write; plain reads outside a transaction are not among the steps.
- RateLimit.RateLimiter.Acquire: the lock that serves waiting callers in order is modelled by one call after another, as in `ServeInOrder`.
- TokenCache.TossAuth.Token: other processes that write the same cache file are not modelled, a later token is taken not to expire before an earlier one, and a failed write leaves the file as it was.
- Task cancellation inside a placement and process crashes outside a transaction.
- Loading and validating the configuration, `place_oco` and exit plans, price batching, holdings and the command-line tools.
