# Lexguard verification

Lexguard is an agent that proposes one bounded four-leg options structure at a
time, certifies it against a risk constitution, sends it to a paper broker and
closes it again. It survives restarts because everything it decides is a row or
an event in a ledger. This project models the parts that decide whether that is
safe, and proves what they promise.

* **Durable order protocol.** `CloseIntents` and `EntryIntents` are the ledger
  tables: classes whose methods are the claim and update transactions.
  `CloseProtocol` and `EntryProtocol` are state machines over those
  transactions: any number of workers, a crash possible between any two calls,
  a submit that may reach the broker after its sender died, and a broker that
  changes by itself. A run is any sequence of actions from an empty ledger. A
  `World` names what the environment guarantees, and the theorems say exactly
  which worlds are safe. `Scheduler` does the same for the decision windows.
  `Runs` folds a script of actions.
* **Order ledger and restart.** `OrderLedger` folds the append-only
  observations into an expected position map, `Reconciliation` compares it with
  the broker, `CloseOrder` builds the atomic close, `CaseLedger` projects
  outcomes onto the case events, `CaseRaces` interleaves several workers doing
  so, `PartialClose` follows a close that fills in part, and `LedgerRuns` takes
  whole runs of many orders.
* **Risk arithmetic.** `Payoff`, `Forecast`, `Candidates`, `Ranking`, `Policy`,
  `Judge` and `Certificates` follow one trade from quotes to the limit price of
  its order, in exact reals. `Multiples` and `StableSort` are their helpers.
* **Browser simulator.** `SimulatorModel`, `SimulatorReducer` and
  `SimulatorPersistence` set the reducer against the independently written
  validator that decides what may be stored.
* **Structure search.** `StructureSearch` is the historical search that must
  not look ahead.

Code that changes things step by step is a method or a class here (the tables,
the scheduler tick, the reducer's switch, the validators with index loops, the
ledgers, the gates, the judge's loop, the accumulating price loops); each is
proved against a function or predicate, and the theorems are about those. Where
the program runs several workers against shared rows, the steps between two
awaits are the transitions of a state machine.

Lemmas switch automatic induction off, so every induction is written out.
`dafny verify dfyconfig.toml` checks the whole project.

## What turned out not to hold as stated

Each is proved with its exact condition, and with a concrete run or input that
fails.

* One close order per intent needs submits to land inside their sender's lease
  and client-id lookups that never miss. Lookup errors are read as "not found"
  (`agent/src/lexguard/services/execution.py:953-956`), so a failed lookup alone
  leads to a second order, unless the broker itself refuses a repeated client id
  (`CloseProtocol.AtMostOneCloseOrderIff`, `CloseProtocol.MissedLookupDuplicates`).
* Entry exclusivity also needs a preflight that no fill tears: positions and
  orders are read in two calls, so a fill between them is seen by neither.
  Recording an outcome that names no order releases the lease without a token;
  that is harmless only while nothing is pending. Again a broker that refuses a
  repeated client id makes up for all of it
  (`EntryProtocol.EntriesExclusiveIff`, `EntryProtocol.TornReadsBreakExclusion`,
  `EntryProtocol.BlindRecordsBreakExclusion`).
* Recording a close result is several transactions, so another worker, or the
  record of an execution, can make it attempt an illegal transition
  (`CaseRaces.RecordersAreSafeIff`, `CaseRaces.TwoClosersRaise`,
  `CaseRaces.FillOvertakesCloseResult`).
* A tail scenario raises for a valid forecast in which one favoured node has a
  probability above 0.8, since the weighted node is validated before it is
  normalised (`Forecast.ScenarioKeepsProbability`, `Forecast.HeavyTailFails`).
* The simulator cannot store a normal, reconciled close: the validator wants a
  missing reconciliation in `closing` and `closed`
  (`SimulatorPersistence.ReachedEnvelopeStorableIff`,
  `SimulatorPersistence.GuidedCloseIsNotStorable`).
* The breakpoint check is exact only for covered calls
  (`Payoff.BreakpointCheckExactIff`, `Payoff.NakedCallEscapes`); every certified
  condor is covered.
* The ledger counts a close at full size as soon as any part of it fills, so
  while it is partly filled it disagrees with the broker
  (`PartialClose.PartialCloseAgreesIff`, `PartialClose.HalfCloseDisagrees`).
* The ledger forgets a recorded fill when the next poll of the order is not
  answered (`OrderLedger.FillRememberedIff`,
  `OrderLedger.UnansweredPollForgetsFill`).

## Model

| member | source | states |
|---|---|---|
| CloseIntents.CloseIntentTable.CreateOrClaim | agent/src/lexguard/adapters/repository.py:1079-1138 | one transaction: creates the row, or wins it only if it is not terminal and its lease is the caller's or expired; otherwise nothing changes; an empty key is refused |
| CloseIntents.CloseIntentTable.Update | agent/src/lexguard/adapters/repository.py:1176-1198 | an unknown key or superseded token is refused and changes nothing; an accepted update never clears an order id and releases the lease |
| CloseProtocol.AtMostOneCloseOrder | agent/src/lexguard/services/execution.py:476-686 | over every run of closes and reconciliations with crashes anywhere, in a sound world, the broker never holds two close orders |
| CloseProtocol.AtMostOneCloseOrderIff | agent/src/lexguard/services/execution.py:450-686 | at most one close order in every run if and only if submits land inside their lease and lookups never miss, or the broker refuses a repeated client id |
| CloseProtocol.UniqueIdsSuffice | agent/src/lexguard/services/execution.py:477 | a broker that refuses a repeated client id never holds two close orders, in any world |
| CloseProtocol.LateLandingDuplicates | agent/src/lexguard/services/execution.py:645-686 | a submit landing after its lease gives a concrete run with two close orders |
| CloseProtocol.MissedLookupDuplicates | agent/src/lexguard/services/execution.py:945-956 | one missed client-id lookup gives a concrete run with two close orders |
| CloseProtocol.RecordedOrderIsFinal | agent/src/lexguard/services/execution.py:784-877 | once an order id is in the row, no later run clears or changes it and no further close order reaches the broker |
| CloseProtocol.LaterCallsOnlyObserve | agent/src/lexguard/services/execution.py:535-616 | a call that starts after an order id is recorded never reaches a submit |
| CloseProtocol.ClosedMeansFilled | agent/src/lexguard/services/execution.py:688-782 | whenever the row says CLOSED it names an order the broker has filled |
| CloseProtocol.StepKeepsInv | agent/src/lexguard/services/execution.py:476-782 | every single step keeps the protocol invariant |
| EntryIntents.EntryIntentTable.CreateOrClaim | agent/src/lexguard/adapters/repository.py:979-1028 | the entry claim: same guards as the close claim, recorded order ids and state untouched |
| EntryIntents.EntryIntentTable.Update | agent/src/lexguard/adapters/repository.py:1030-1055 | a superseded token leaves every row unchanged; an accepted update never empties the order ids, stores them without repeats and releases the lease |
| EntryIntents.EntryIntentTable.RecordExecution | agent/src/lexguard/adapters/repository.py:1524-1541 | recording an outcome writes order ids and state and drops the lease without asking for a token |
| EntryProtocol.EntriesExclusive | agent/src/lexguard/services/execution.py:201-342 | over every run in a sound world two submitted entries are never live together |
| EntryProtocol.SecondSubmitOnlyAfterDeath | agent/src/lexguard/services/execution.py:201-342 | a further submit reaches the broker only when every earlier order is neither open nor holding a position |
| EntryProtocol.RecordedEntryStopsSubmits | agent/src/lexguard/services/execution.py:262-342 | in any world, once an order id is on record it stays, and a call that had not claimed by then never submits |
| EntryProtocol.SupersededUpdateIsInert | agent/src/lexguard/adapters/repository.py:1030-1055 | in any world, once another token is in the row a call's own update changes no row, then and after any continuation |
| EntryProtocol.EntriesExclusiveIff | agent/src/lexguard/services/execution.py:201-342 | exclusive in every run if and only if submits land inside the lease, no fill tears a preflight and blind records wait until nothing is pending, or the broker refuses a repeated client id |
| EntryProtocol.BlindKeepsInv | agent/src/lexguard/adapters/repository.py:1530-1541 | an outcome without order ids recorded while no submit is in time and no preflight is outdated keeps the exclusion invariant |
| EntryProtocol.TornReadsBreakExclusion | agent/src/lexguard/services/execution.py:1059-1066 | a fill between the position read and the order read gives a concrete run with two live entries |
| EntryProtocol.BlindRecordsBreakExclusion | agent/src/lexguard/adapters/repository.py:1530-1541 | an outcome without order ids recorded during a claim gives a concrete run with two live entries |
| EntryProtocol.LateLandingBreaksExclusion | agent/src/lexguard/services/execution.py:296-342 | a submit landing after its lease gives a concrete run with two live entries |
| Scheduler.SharedLedger.AcquireWindowLease | agent/src/lexguard/adapters/repository.py:597-636 | the lease transaction: won exactly when the slot is free at the caller's time, other slots untouched |
| Scheduler.SharedLedger.DoTick | agent/src/lexguard/services/scheduler.py:180-249 | a tick serves at most the one window it leased, after every halt and skip in order, and appends exactly the call it made |
| Scheduler.LeaseEndsIncrease | agent/src/lexguard/adapters/repository.py:597-636 | every successful acquire moves a lease's end strictly outward, whatever the clocks say |
| Scheduler.WindowsServedAtMostOnceIff | agent/src/lexguard/services/scheduler.py:180-249 | for any schedulers with any clocks each date and window sees at most one evaluate and one execute, if and only if leases last at least a minute |
| Scheduler.ShortLeasesRepeat | agent/src/lexguard/services/scheduler.py:391-437 | any shorter lease lets two schedulers evaluate one window twice |
| Scheduler.ServedWithTimeToExit | agent/src/lexguard/services/scheduler.py:205-231 | whatever a tick serves lies inside the session, in the minute of its window, and at least an hour before both 15:30 and half an hour before the close |
| OrderLedger.Ledger.SaveOrderEvents | agent/src/lexguard/adapters/repository.py:1625-1753 | appends one row per poll, or per order id of a record without polls, under the record's case and with entry quantities filled in from its certificate; an unknown case appends nothing |
| OrderLedger.Ledger.SaveCloseEvent | agent/src/lexguard/adapters/repository.py:1302-1340 | a close result that names an order appends one row with what the poll saw, or with its own state and nothing filled |
| OrderLedger.SummaryCountsIff | agent/src/lexguard/adapters/repository.py:1666-1692 | a record without polls counts as filled exactly when it is about one order that filled or a just submitted chain with a filled quantity, so a replacement chain never counts as entirely filled |
| OrderLedger.Ledger.ExpectedPositionState | agent/src/lexguard/adapters/repository.py:910-950 | the two dictionary loops return exactly the nonzero sums over order ids of the newest observation's contribution |
| OrderLedger.AppendReplacesContribution | agent/src/lexguard/adapters/repository.py:915-921 | one more observation replaces its order's contribution and leaves every other order's alone |
| OrderLedger.ReRecordingChangesNothing | agent/src/lexguard/adapters/repository.py:915-950 | recording an order's newest observation again changes no expected quantity |
| OrderLedger.LegQuantitiesBySide | agent/src/lexguard/adapters/repository.py:951-972 | with one leg per symbol every certified leg counts the filled quantity with the sign of its side, and nothing else counts |
| OrderLedger.EntryFillIsExpected | agent/src/lexguard/adapters/repository.py:951-972 | an entry fill on a flat ledger leaves exactly the certified legs at the filled quantity |
| OrderLedger.CloseFlattensIff | agent/src/lexguard/adapters/repository.py:923-950 | after any history that agrees with the broker, observing the close of the broker's positions flattens the ledger if and only if it counts as filled |
| OrderLedger.EntryThenCloseIsFlat | agent/src/lexguard/adapters/repository.py:1302-1340 | entry fill, then fill of the close of what the broker holds: the ledger agrees with the broker in between and expects nothing afterwards |
| PartialClose.PartialCloseAgreesIff | agent/src/lexguard/services/execution.py:472-475 | after any agreeing history, the ledger agrees with what a close filled f times leaves at the broker if and only if the observation does not count or f is the whole parent quantity |
| PartialClose.HalfCloseDisagrees | agent/src/lexguard/adapters/repository.py:923-950 | a concrete run: of two lots one is closed, the broker holds one of each leg and the ledger expects none |
| LedgerRuns.LedgerCountsSeenFills | agent/src/lexguard/adapters/repository.py:910-972 | over every run of submits, fills and polls of any number of orders, answered or not, the expected quantity of a symbol is what the fills seen so far are worth, closes at full size |
| LedgerRuns.CurrentLedgerAgreesIff | agent/src/lexguard/adapters/repository.py:910-950 | once the newest row of every order is as far as the broker, the ledger agrees with it if and only if what partly filled closes have still to change cancels out in every symbol |
| LedgerRuns.CurrentLedgerAgreesUnlessClosing | agent/src/lexguard/adapters/repository.py:910-950 | with closes one after another, such a ledger agrees with the broker if and only if no close is partly filled |
| LedgerRuns.BuiltCloseIsSuchAnOrder | agent/src/lexguard/services/execution.py:472-475 | the signed ratios of the close built for any positions, times its parent quantity, are the quantities its rows bring |
| OrderLedger.FillRememberedIff | agent/src/lexguard/adapters/repository.py:915-932 | a filled close goes on counting through later observations if and only if none of its own order's fails to count |
| OrderLedger.UnansweredPollForgetsFill | agent/src/lexguard/adapters/repository.py:1302-1317 | a concrete run in which one unanswered poll after a filled close makes the ledger expect the closed position again |
| Reconciliation.Compare | agent/src/lexguard/services/reconciliation.py:99-169 | on the broker's answers as spelled, reports each reason exactly when its condition holds, and CONSISTENT exactly when there is none |
| Reconciliation.ConsistentIffAgreement | agent/src/lexguard/services/reconciliation.py:99-169 | against a signed map no reason is given if and only if all statuses are known, the active ids equal the expected ones, every held position has a side and the signed maps are equal |
| Reconciliation.ObservedOfDistinct | agent/src/lexguard/services/reconciliation.py:141-151 | with one position per symbol the observed map holds the signed size of every position |
| Reconciliation.ObservedMeetsLedgerIff | agent/src/lexguard/adapters/repository.py:910-921 | the observed map equals the ledger's expected map if and only if the broker holds what the observations add up to |
| CloseOrder.BuildCloseLegs | agent/src/lexguard/adapters/alpaca_trading.py:232-252 | legs are built exactly when there are positions, none of size zero or of unknown side; one leg per position |
| CloseOrder.CloseFlattensExactly | agent/src/lexguard/adapters/alpaca_trading.py:232-261 | every leg is on the opposite side and its ratio times the parent quantity is the position's absolute size |
| CloseOrder.RatiosAreCoprime | agent/src/lexguard/adapters/alpaca_trading.py:254-261 | no number above one divides every leg ratio |
| CloseOrder.EqualSizesCloseTogether | agent/src/lexguard/services/execution.py:1212-1219 | positions of one size, as a filled condor leaves them, close at that parent quantity |
| CloseOrder.CloseLimitPrice | agent/src/lexguard/services/execution.py:1142-1211 | a price is quoted exactly for four distinct positions forming an inverse condor, with executable quotes of the configured feed at most 30 seconds old and a nonzero cash flow |
| CloseOrder.PriceIsExactAtFullSize | agent/src/lexguard/services/execution.py:1155-1179 | the per-parent price times the parent quantity equals the cash flow of the full sizes |
| CaseLedger.CaseRow.AppendEvent | agent/src/lexguard/adapters/repository.py:510-540 | a legal event is appended with its from and to state; an illegal one changes nothing |
| CaseLedger.CaseRow.RecordExecution | agent/src/lexguard/adapters/repository.py:1542-1602 | projects an execution outcome onto the case and never attempts an illegal transition |
| CaseLedger.CaseRow.RecordCloseResult | agent/src/lexguard/adapters/repository.py:1252-1301 | a worker that is not interrupted projects a close result onto the case and attempts no illegal transition |
| CaseRaces.PlannedIsAfterClose | agent/src/lexguard/adapters/repository.py:1264-1301 | the events one worker plans from what it reads and appends add up to the projection in one go |
| CaseRaces.RecordersAreSafeIff | agent/src/lexguard/adapters/repository.py:1252-1301 | on a given case, workers that read and append in separate transactions while execution outcomes are recorded never attempt an illegal transition, in any interleaving, if and only if in every state those outcomes lead to at most one worker appends and no outcome makes what it appends illegal |
| CaseRaces.CloseRecordersAreSafeIff | agent/src/lexguard/adapters/repository.py:1252-1301 | while no execution is recorded: if and only if at most one result makes its worker append to the case as it is |
| CaseRaces.RecordersAreAlwaysSafeIff | agent/src/lexguard/adapters/repository.py:1500-1602 | on every case the ledger can hold: if and only if at most one result makes its worker append, and neither a failed execution nor, unless that result halts the case, a fill may be recorded meanwhile |
| CaseRaces.AnyExecutionIsSafeIff | agent/src/lexguard/adapters/repository.py:1604-1607 | beside arbitrary executions, if and only if no result makes its worker append anything |
| CaseRaces.TwoClosersRaise | agent/src/lexguard/adapters/repository.py:1260-1278 | two workers that saw the same close both read the submitted case, and one of them raises |
| CaseRaces.FillOvertakesCloseResult | agent/src/lexguard/adapters/repository.py:1279-1285 | one worker alone reads a submitted case, the fill of the entry is recorded, and its append raises |
| CaseRaces.RacesKeepTheChain | agent/src/lexguard/adapters/repository.py:510-540 | whatever the interleaving of close workers and execution outcomes, the case's events stay one legal chain |
| CaseLedger.LedgerReplays | agent/src/lexguard/domain/state_machine.py:35-56 | over every run the events chain from SCHEDULED to the row's state, and the state tells the whole history |
| CaseLedger.AtMostSevenEvents | agent/src/lexguard/domain/state_machine.py:35-56 | no case ever holds more than seven events |
| CaseLedger.RepeatAddsNothing | agent/src/lexguard/adapters/repository.py:1501-1602 | recording the same execution outcome or close result again adds no event |
| CaseLedger.FinalStatesStay | agent/src/lexguard/domain/state_machine.py:47-56 | a closed or halted case never changes again |
| CaseLedger.SubmittedOnlyAfterCertified | agent/src/lexguard/domain/state_machine.py:35-44 | every submitted, managed or closed case was certified first |
| Payoff.LegPayoffIsProduct | agent/src/lexguard/domain/payoff.py:10-22 | the signed leg value is the product the program computes |
| Payoff.StructurePnlIsProduct | agent/src/lexguard/domain/payoff.py:25-34 | the profit of whole lots is the formula the program computes |
| Payoff.BreakpointIsWorst | agent/src/lexguard/domain/payoff.py:37-45 | for any covered leg list some breakpoint is at least as bad as any terminal price |
| Payoff.BreakpointCheckExactIff | agent/src/lexguard/domain/payoff.py:37-45 | the finite check bounds every terminal price if and only if the net call ratio is not negative |
| Payoff.NakedCallEscapes | agent/src/lexguard/domain/payoff.py:37-45 | one sold call loses more at some price than the check says |
| Payoff.CondorLossIsExact | agent/src/lexguard/domain/payoff.py:37-45 | for every well-formed condor the computed loss bounds every terminal price and, when positive, is reached |
| Payoff.CondorIsCovered | agent/src/lexguard/domain/models.py:203-226 | every validated condor has a net call ratio of zero |
| Payoff.LossScales | agent/src/lexguard/services/candidates.py:190-200 | the worst loss of q lots is q times that of one |
| Forecast.ScenarioKeepsProbability | agent/src/lexguard/research/forecast.py:160-214 | a scenario fails exactly when a favoured node has more than 0.8; otherwise the probabilities are in range and sum to one |
| Forecast.HeavyTailFails | agent/src/lexguard/research/forecast.py:179-196 | nine tenths at -0.01 and one tenth at 0.02: a valid forecast that the left-tail scenario refuses |
| Forecast.ReplaceNormalizes | agent/src/lexguard/research/forecast.py:199-214 | giving the last node the remainder is the same as normalising every node |
| Forecast.VolatilityScalesDeviations | agent/src/lexguard/research/forecast.py:165-177 | volatility scenarios never fail, keep the mean and every probability, and scale each deviation by 1.10 or 0.90 |
| Forecast.LeftTailShiftsLeft | agent/src/lexguard/research/forecast.py:179-196 | the left-tail scenario raises every cumulative probability and never raises the mean |
| Forecast.RightTailShiftsRight | agent/src/lexguard/research/forecast.py:179-196 | the right-tail scenario lowers every cumulative probability and never lowers the mean |
| Candidates.EntryLimit | agent/src/lexguard/services/candidates.py:273-281 | the loop returns the cash of buying at the ask and selling at the bid |
| Candidates.NotProposedIff | agent/src/lexguard/services/candidates.py:153-195 | a quote quadruple is not proposed exactly when the price has the wrong sign, nothing can be lost, one lot exceeds the budget or there is no capacity |
| Candidates.SizingIsExact | agent/src/lexguard/services/candidates.py:190-200 | the recorded loss is the exact worst loss of the whole quantity, within the budget, and one more lot would break budget or capacity |
| Candidates.RobustEvIsGreatestLowerBound | agent/src/lexguard/services/candidates.py:105-205 | the robust value is the least expected profit over the five admissible distributions and at least minus the loss |
| Policy.Evaluate | agent/src/lexguard/domain/policy.py:72-132 | the walk over the gates returns exactly the violated ones, and allows exactly when none is |
| Policy.LossGatesExactIff | agent/src/lexguard/domain/policy.py:76-83 | for a recomputed condor the loss gates pass if and only if no terminal price breaks the trade limit or brings the day to its limit |
| StableSort.SortIgnoresOrderIff | agent/src/lexguard/services/candidates.py:208-221 | a stable sort ignores the input order if and only if no two different elements tie |
| Ranking.RankIgnoresOrderIff | agent/src/lexguard/services/candidates.py:208-221 | the ranking is the same for every input order if and only if no two different candidates share a key |
| Judge.Certify | agent/src/lexguard/services/judge.py:42-86 | the ranking loop returns a verdict allowed by the order-free definition: the best passing candidate recomputed, or a refusal with every code |
| Judge.RefusesIffNonePasses | agent/src/lexguard/services/judge.py:58-86 | without a veto it refuses if and only if no candidate passes policy with positive robust value, and never without a reason |
| Judge.VerdictIgnoresOrder | agent/src/lexguard/services/judge.py:42-86 | with distinct keys every permutation leads to the same verdict, reasons included |
| Judge.CertificateBoundsLoss | agent/src/lexguard/services/judge.py:58-84 | every certificate's trade stays within the trade limit and strictly inside the daily limit at every terminal price |
| Certificates.EntryLimits | agent/src/lexguard/services/execution.py:1112-1140 | the loop derives midpoint and executable limits capped at the certified one, and raises exactly when a sign is wrong |
| Certificates.LimitsConcedeUpToTheBound | agent/src/lexguard/services/execution.py:1112-1140 | on uncrossed quotes the first limit is at most the replacement, which is at most the certified limit |
| Certificates.FrictionPricesTheSpread | agent/src/lexguard/services/candidates.py:159-163 | the modeled friction is the configured multiple of the distance between executable and midpoint limit |
| Certificates.CertifiedLimitsBoundLoss | agent/src/lexguard/services/execution.py:1112-1140 | at either limit and every terminal price the loss bounds of the certificate still hold |
| Certificates.CertifiedTradePaysInExpectation | agent/src/lexguard/services/judge.py:58-84 | a certificate over built candidates is for one of them unchanged, within the risk budget, with positive expected profit under all five distributions |
| Certificates.SubmittedLimitsPayInExpectation | agent/src/lexguard/services/execution.py:1112-1140 | at the initial and the replacement limit that uncrossed quotes lead to, the order too has positive expected profit under all five distributions |
| SimulatorModel.RunIdRoundTrip | web/src/lib/simulator/persistence.ts:249-256 | run ids and run numbers determine each other |
| SimulatorReducer.ReduceRun | web/src/lib/simulator/reducer.ts:41-266 | the run stays the same run; its sequence grows by one, or by two for a passed argument; a refusal changes nothing but the audit stream; the reported event is the first appended, starts at the old state, and is still in the window; the newest event ends at the new state |
| SimulatorReducer.RunsNeverGoBack | web/src/lib/simulator/reducer.ts:65-266 | no sequence of actions takes the lifecycle of a run back or lifts its emergency stop |
| SimulatorReducer.StoppedRunNeverSubmits | web/src/lib/simulator/reducer.ts:65-266 | once stopped before submission, no sequence of actions submits or fills an order, and the run stays where it stood or is vetoed out of supervision |
| SimulatorPersistence.IsAuditStreamConsistent | web/src/lib/simulator/persistence.ts:337-358 | the index loop decides audit stream consistency |
| SimulatorPersistence.IsRunNumberingConsistent | web/src/lib/simulator/persistence.ts:221-247 | the index loop decides run numbering consistency |
| SimulatorPersistence.AppendKeepsWindow | web/src/lib/simulator/reducer.ts:369-400 | appending keeps the stream chained and contiguous also when the oldest of 200 events falls out |
| SimulatorPersistence.ReducedKeepsRunOk | web/src/lib/simulator/reducer.ts:65-266 | every action keeps the per-lifecycle invariant of a run's artifacts and audit stream |
| SimulatorPersistence.ReachedEnvelopesAreConsistent | web/src/lib/simulator/reducer.ts:268-339 | every envelope reachable from the seed has consistent numbering and a consistent audit stream in every run, after any truncation |
| SimulatorPersistence.ValidatorAcceptsReachedRuns | web/src/lib/simulator/persistence.ts:258-321 | a reachable run passes outside closing and closed; there it passes exactly when its reconciliation is absent, which takes an emergency stop |
| SimulatorPersistence.ReachedEnvelopeStorableIff | web/src/lib/simulator/persistence.ts:166-219 | a reachable envelope is storable if and only if no run in it is a reconciled close |
| SimulatorPersistence.GuidedCloseIsNotStorable | web/src/lib/simulator/persistence.ts:312 | the guided path to a normal close reaches an envelope that cannot be stored |
| SimulatorPersistence.ReachedEnvelopeSurvivesIff | web/src/lib/simulator/persistence.ts:47-73 | a reachable envelope survives a save and a load under the same condition |
| SimulatorPersistence.Persistence.Save | web/src/lib/simulator/persistence.ts:109-134 | a refused envelope leaves what is kept; an accepted one is what a load restores, in memory if storage fails |
| SimulatorPersistence.Persistence.Load | web/src/lib/simulator/persistence.ts:87-107 | restores what is kept, or the authored seed when storage fails to answer |
| StructureSearch.Select | agent/src/lexguard/research/options_simulator.py:230-311 | the loops return the least eligible ordered structure, or none exactly when there is none, and fail exactly when some eligible ordered structure repeats a symbol |
| StructureSearch.NoLookahead | agent/src/lexguard/research/options_simulator.py:245-262 | two histories that agree up to the signal select the same structure, or both fail |
| StructureSearch.DistinctContractsNeverFail | agent/src/lexguard/research/options_simulator.py:95-96 | contracts told apart by their symbols never fail the search |
| StructureSearch.SelectionIsWellFormed | agent/src/lexguard/research/options_simulator.py:92-130 | the legs of every successful search make a valid atomic signal, sides and ratios included, of the strategy asked for |

## Left out

- Network, broker SDK, model calls, web routes, settings and migrations: I/O; the broker is a state that actions change.
- Sessions and locking: each transaction is one atomic step; hashes and generated ids are numbers or names.
- Decimal rounding and time zones: exact reals, and microseconds of New York local time without daylight-saving changes.
- The `except TypeError` branches and the paths without a repository in the execution service.
- `reconcile_entry_orders` and the order replacement chain: a replacement joins the chain of the entry it replaces and submits nothing new.
- Positions of other certificates: in the protocols they appear as foreign orders and positions that stop a call.
- The symbol, deadline, reason and case columns of the intents, the empty-owner check and lease owners' names: they do not steer a claim or update.
- The certificate's hash, policy version and account figures other than the daily profit; the refusal's details text.
- `CandidateService.generate` and `_eligible_quotes`: the enumeration; a built candidate starts from any four eligible quotes in condor order.
- Liveness: that a chain or a close is eventually finished.
- JSON shape checks of the simulator's validator, audit event texts, and numbers beyond 2^53: artifacts are names that are copied and compared.
- `expected_broker_state`'s order id list, and the parsing of non-integer ledger quantities.
- The persistence object's `clear`, which only empties what is kept.
- `simulate_atomic_fill`, fees and the other historical fill arithmetic.
- `RiskStateService`, health heartbeat, position manager branches, redaction and formatting.
- CaseLedger.CaseRow.RecordCloseResult: one uninterrupted worker; its separate transactions are the actions of `CaseRaces`, beside execution outcomes.
- `CaseRaces`: the decision pipeline's own events, which precede a submission.
- `LedgerRuns`: execution records without polls and certificates reissued within a run; a poll tells the broker's fill count truthfully or is recorded as unanswered.
- StructureSearch.Select: groups by underlying and expiration are a condition on the structure instead of a dictionary.
- Policy.Evaluate: gates are collected in five groups, one method each, where the program has one long body.
- CloseOrder.CloseLimitPrice: the chain download, which also refuses an unknown underlying, and the order in which failing checks raise are not modelled, only that one of them does.
