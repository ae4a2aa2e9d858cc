# A model of the rotation service's core

The modules here model the parts of the service whose correctness is hardest to see from any one
function, and prove what those parts are for. Each module stands for one component.

* **The run coordinator.** `StateMachine`, `ScanLog` and `Stores` hold the transition table, the
  attempt-log rule and the repositories the coordinator drives; `EventTable` and `StoreRules` say what
  they allow, apart from their checks. `Protocol` is the coordinator as a
  small-step system: one atomic step per repository call, a fault before or after the effect of any
  call, any number of coordinators over the same stores, and coordinators that stop for good.
  `ProtocolInvariant`, `ProtocolSteps`, `ProtocolCalls` and `ProtocolSystem` carry the invariant over
  every execution; `ProtocolTheorems`, `Recovery` and `Finality` draw the conclusions, and `Witnesses`
  holds executions that mark where two promises end. `Outcomes` and `Faults` say what every other run
  comes to, without failures and with them. `Coordinator` is the class in its own form, with nested
  handlers and early returns over store objects, and is proved to take exactly the steps of the
  system; `CoordinatorRuns` carries the theorems over to it.
* **Staged sizing.** `Decimals` and `Costs` are the exact arithmetic and the rounded costs; `Sizing`
  holds stages, total cash and the bisection, `CostLimits` what stays within the limits on digits;
  `SizingEngine` is the whole sizing and `SizingLimits` says when it succeeds.
* **Rules.** `DecimalContext` is the rounding arithmetic of 28 digits, `DecimalSums` what holds of sums
  in it, `RuleNumbers` the limits and the canonical form of a rule's numbers, `RuleScores` the sums of
  weights. `Rules` parses, `RuleChecks` re-validates, `RuleEvaluator` evaluates one expression and
  `Rulesets` a whole ruleset; `RuleMeaning` says what both mean and `RuleDecisions` which decisions
  further evidence leaves alone.
* **Evidence.** `EvidencePreflight` is the bounded walk over a graph of objects; `EvidenceCodec` the
  tagged encoding, the streaming printer and the decoder; `EvidenceMeaning` what they read and write,
  `EvidenceLimits` what is encoded again.
* **Bars, configuration, text.** `Bars` aggregates into session windows and `BarMeaning` says what that
  yields; `Configuration` merges layers and `Precedence` says which layer decides; `DecimalText` prints
  decimals.

`dafny verify dfyconfig.toml` checks all of it. Lemmas over sequences and trees switch automatic
induction off and carry their own.

Digests are injective, so a digest is the tuple it is computed from; identifiers are fresh; clocks,
access rights, audit texts and time zones are parameters that do not appear. Where the code raises, the
model has a value for it (`None`, `Rejected`, `Raises`, `Overflows`, or the position `BROKEN` of a
coordinator). The stores start empty.

Where code and comment disagree the model follows the code. The comment at
app/application/run_coordinator.py:838 promises exactly one final attempt; the code appends another one
when a retry reaches a different disposition. `CandidateIsFinalisedTwice` is an execution in which it
does, and `FinalAttempts` says exactly when there are two. The guard at
app/application/run_coordinator.py:632-635 compares statuses and not revisions, so a candidate that has
no APPLIED attempt yet writes its transition again once other scans brought the record back to the
status it starts from. `TransitionIsWrittenTwice` is an execution in which it does;
`FencesAreWrittenBy`, `RewritesFollowAReturn` and `RecoveryWritesExactly` say exactly when, and that no
number of earlier writes prevents it. What is unique and absorbing is the APPLIED attempt. A candidate
that changes nothing finds its next status in the record without its fence and ends SUPERSEDED.

Some promises end where numbers get large, and the model says where: what the parser accepts need not
pass the re-validation (`ParsedIsAcceptable`), rounded scores can turn a failure into a match
(`RoundingCanReverse`; `WeightsDecide` and `MovesDecide` say for which weights), and rounded volumes make
aggregation in two steps differ from aggregation in one (`RoundingSplits`; `SumsDecide` says when).

## Model

| member | source | states |
|---|---|---|
| `StateMachine.EdgesAreTheTable` | app/state_machine/machine.py:96-295 | For every plan, the case chain moves a status to another (with or without a notification) by some event exactly where a table written out independently of it has an edge; the table depends on the plan only through whether it has an unprotected source position. Which event takes an edge is said below. |
| `StateMachine.EdgeInTable` | app/state_machine/machine.py:96-295 | Every request a caller can construct and the machine allows moves along an edge of the table. |
| `StateMachine.TableIsRealised` | app/state_machine/machine.py:96-295 | Every edge of the table is realised by a request a caller can construct. |
| `EventTable.TransitionIsTheTable` | app/state_machine/machine.py:96-295 | For every request, the machine is a table written out per event, state, halt and guard outcome: it is allowed exactly if its evidence and authorisation are there, an event on the way to a sale cites a position and a quantity that can be sold, and the state has a row; the next status and the no-op, notification and fresh-evaluation flags are those of the row. |
| `EventTable.MovesAreGuarded` | app/state_machine/machine.py:104-133 | Only an authorised pause pauses; a pause ends, and a halt is lifted, only by an authorised resumption with a fresh evaluation; ACTION_NOTIFIED is entered only by a decision on a quantity that an open, unprotected source position of the plan has; an execution under way that loses its signal or its data ends halted in WAITING_CONFIRMATION. |
| `ScanLog.AppendKeepsChain` | app/repositories/logical_scans.py:22-49 | Whatever a client appends, the append rule alone keeps a log numbered 1..n in storage order, with each attempt up to the first success recovering its predecessor; an appended attempt that names no final run can recover only the last attempt of a log without a success. |
| `Stores.RecordStore.RecordTransition` | app/persistence/in_memory.py:175-213 | The write succeeds exactly if the stored record is the one that was read; it then replaces that record alone, with the next revision and the given fence; a rejected write changes nothing. |
| `Stores.RecordStore.GetOrCreate` | app/persistence/in_memory.py:139-162 | A plan without a record gets an idle one at revision 0; an existing record is returned unchanged. |
| `Stores.ScanStore.ListAttempts` | app/persistence/in_memory.py:343-352 | Listing returns the log as stored, and that order is already strictly ascending in the attempt numbers. |
| `Stores.ScanStore.RecordAttempt` | app/persistence/in_memory.py:324-336 | The append is accepted exactly by the specified rule (known scan, well-formed evidence, unused number, existing references, append rule); every log stays numbered and chained; a rejection changes nothing. |
| `Stores.ScanStore.AttachFinalStrategyRun` | app/persistence/in_memory.py:354-387 | A scan completes exactly if it is running, the run is its stored one and the log holds a success naming it; nothing else changes. |
| `Stores.RunStore.RecordOrGet` | app/persistence/in_memory.py:453-497 | A retry with the identical candidate is accepted without change, a different one under the same key is rejected, and a scan gets at most one run. |
| `Stores.IntentStore.RecordOrGet` | app/persistence/in_memory.py:524-549 | An intent is stored only for a stored run of the same plan and final key; storing it again changes nothing, storing different evidence under its key is rejected. |
| `Stores.IntentStore.ListMatching` | app/application/run_coordinator.py:764-787 | The loop over the intents filed under a run finds exactly the ones equal to the intent the run calls for, in filing order. |
| `StoreRules.AttemptsAccepted` | app/persistence/in_memory.py:324-336 | On a chained log an attempt is accepted exactly if it is the next one, carries the evidence its status asks for, recovers the last attempt before the first success, afterwards names the stored run of the scan or repeats a success, and refers to nothing that is not there; a completed scan takes only its own run. |
| `StoreRules.CompletionAccepted` | app/persistence/in_memory.py:354-387 | A scan is completed exactly if it is open and some attempt is a success that names its stored run. |
| `StoreRules.RunsAccepted` | app/persistence/in_memory.py:453-497 | A run is accepted exactly if it is stored so already, or its key is free and its scan exists without a run; then it is found by key, identifier and scan, and all others as before. |
| `StoreRules.IntentsAccepted` | app/persistence/in_memory.py:524-549 | An intent is accepted exactly if its run is stored, of its plan and under its key, and nothing else stands under that key; it is filed last under its run, and all others stay. |
| `StoreRules.MatchingHolds` | app/application/run_coordinator.py:764-787 | The matching intents of a run are exactly those filed under it that equal the one it calls for. |
| `ProtocolSystem.ExecutionsKeepInv` | app/application/run_coordinator.py:194-446 | The protocol invariant (log shape, counts, run and intent indexes, fences, history edges, locks, and what each running coordinator knows at its next call) holds after every sequence of starts, steps with a fault before or after the effect, and disappearances of any number of coordinators. |
| `ProtocolSystem.ProceedKeeps` | app/application/run_coordinator.py:194-446 | One repository call of one coordinator, failing or not, keeps the invariant, also for every other coordinator that is between two calls. |
| `ProtocolCalls.CallLands` | app/application/run_coordinator.py:488-932 | From a state and a position that satisfy the invariant, every call that does not fail leads to ones that do, and so does the handler that would catch its failure. |
| `ProtocolTheorems.DecidedIsAbsorbing` | app/application/run_coordinator.py:211-235 | Once a scan has an APPLIED attempt or is COMPLETED, no later action of anybody changes its log, its stored run, its intents, its completed state or its number of provider calls, and no further recommendation revision is written in its name. |
| `ProtocolTheorems.AppliedIsUnique` | app/application/run_coordinator.py:692-737 | In every reachable state a scan log holds at most one APPLIED attempt, and it is the last one. |
| `ProtocolTheorems.AnswersAgree` | app/application/run_coordinator.py:1002-1061 | Any two answers that name a strategy run of the same scan, however far apart and from whatever coordinators, agree on disposition and run. |
| `ProtocolTheorems.ReplayNeverFinalizes` | app/application/run_coordinator.py:1032-1038 | The fallback that would append a final attempt while replaying a COMPLETED scan is unreachable. |
| `ProtocolTheorems.SupersededChangesNothing` | app/application/run_coordinator.py:889-932 | A coordinator that reports a superseded candidate has changed neither an intent nor any recommendation record that existed. |
| `ProtocolTheorems.HistoryRunsTheMachine` | app/application/run_coordinator.py:584-645 | The stored revisions of a plan are 0, 1, 2, ..., start idle, end at the stored record, and each follows from the one before by an edge of the state machine, although candidates are computed from earlier reads while other scans interleave. |
| `ProtocolTheorems.HaltIsLiftedByResumption` | app/application/run_coordinator.py:570-656 | In the durable history the halt disappears only between WAITING_CONFIRMATION and WATCHING, an edge that the authorised resumption takes and no other event does, and only in a fenced revision. |
| `ProtocolTheorems.CompletionIsForever` | app/state_machine/machine.py:104-109 | A durable ROTATION_COMPLETED status is never left. |
| `ProtocolTheorems.NotifiedByItsRun` | app/application/run_coordinator.py:632-645 | Every revision that enters ACTION_NOTIFIED carries the fence of the stored run of the scan that wrote it, and that run calls for a notification. |
| `ProtocolTheorems.HistoryIsAppendOnly` | app/persistence/in_memory.py:175-213 | However the execution goes on, the history of a plan only gets longer. |
| `ProtocolTheorems.NoopIsNeverApplied` | app/application/run_coordinator.py:589-631 | A candidate whose transition changes nothing is never APPLIED. |
| `ProtocolTheorems.WorkIsBounded` | app/application/run_coordinator.py:236-254 | However often a scan is triggered and wherever calls fail, the provider is called at most `max_provider_attempts` times for it and its log has at most twice that many attempts plus two, numbered 1..n, each recovering its predecessor. |
| `ProtocolTheorems.NotifiedExactlyOnce` | app/application/run_coordinator.py:789-827 | A scan with an APPLIED attempt whose run calls for a notification has exactly one stored intent, and it is the one its run calls for. |
| `ProtocolTheorems.IntentsAreEarned` | app/application/run_coordinator.py:647-656 | Every stored intent belongs to a stored run that calls for it and whose fence was written at some revision of the history. |
| `Recovery.RecoveryCompletes` | app/application/run_coordinator.py:488-568 | From every reachable state in which a running scan has a stored candidate and its lock is free, one uninterrupted run without failures completes the scan, stores and returns the disposition that the log and the durable record call for, gives the lock back, and adds to the history exactly the transition where the record stands at its start; at no point of it is the next call one of the provider or the evaluator. |
| `Recovery.EffectsComplete` | app/application/run_coordinator.py:570-656 | A pending candidate ends APPLIED exactly if the record carries its next status and fence, or its previous status and a different next one; it then leaves the record at the next status under its fence, and otherwise leaves records and intents alone. |
| `Recovery.FinalIsAccepted` | app/application/run_coordinator.py:829-887 | Every final attempt the coordinator builds in a reachable position passes the append rule of the store. |
| `Recovery.RunningIsAccepted` | app/application/run_coordinator.py:1088-1114 | Every running attempt the coordinator builds in a reachable position passes the append rule of the store. |
| `Recovery.FreshRunCompletes` | app/application/run_coordinator.py:243-427 | From every reachable state with provider attempts left, an uninterrupted run without failures, in which the provider's and the evaluator's answers yield a candidate, completes the scan with exactly one provider call: APPLIED, with exactly one revision added to the history of the plan, to the proposed status and under the fence of the run, or SUPERSEDED and no revision where the candidate changes nothing. |
| `Outcomes.DegradedRun` | app/application/run_coordinator.py:267-320 | From the same states, such a run on data that is not actionable leaves the scan open with a RUNNING and a DEGRADED attempt more, returns DEGRADED, and gives the record exactly one unfenced revision: to DATA_DEGRADED from the four active states and from STAGE_COMPLETED, to a halted WAITING_CONFIRMATION from PARTIALLY_EXECUTED, to the same status from DATA_DEGRADED and WAITING_CONFIRMATION; an idle record stays; the other states refuse, which fails the attempt and leaves the record. Nothing else changes. |
| `Outcomes.FailedRun` | app/application/run_coordinator.py:245-394 | From the same states, a provider that fails or answers with no snapshot, or an evaluation that yields no candidate, fails the attempt, without evidence in the first case and with the snapshot in the second; no record changes. |
| `Outcomes.CandidateIsTheTable` | app/application/run_coordinator.py:322-361 | When an evaluation yields a candidate, and which one: the event is evident and leads somewhere from the record as it stands, every cited position can be sold from, and exactly for a passed sizing there is an actionable result for that position, of a quantity it has; the candidate takes the record where the table says and notifies exactly if it is a decision that changes it. |
| `Outcomes.LockedRun` | app/application/run_coordinator.py:1063-1086 | A run of a locked scan changes nothing and answers API_CONFLICT or SCHEDULER_SKIPPED by its trigger. |
| `Outcomes.ExhaustedRun` | app/application/run_coordinator.py:236-242 | Out of attempts, a run opens the scan where it is new, changes nothing else and answers RETRY_EXHAUSTED. |
| `Outcomes.ReplayedRun` | app/application/run_coordinator.py:1002-1061 | A run of a completed scan changes nothing and answers with its stored run and the disposition of its last attempt. |
| `Faults.FailingCallIsAnswered` | app/application/run_coordinator.py:211-431 | From every position of a coordinator, if its next call fails before or after its effect and nothing fails later: from the provider's call to the final attempt the attempt is closed as FAILED with the snapshot it had, unless a success was recorded already; a recovery, an attachment or the end of a superseded candidate reports a pending finalisation; all other exceptions leave the coordinator; and the lock is given back. |
| `Faults.LocksAreHeld` | app/application/run_coordinator.py:430-431 | In every execution in which no coordinator vanishes with its lock, no release fails before and no acquisition after its effect, every lock belongs to a coordinator that is still running, whatever else fails. |
| `Finality.FinalAttempts` | app/application/run_coordinator.py:829-887 | In every reachable state a log holds two final attempts exactly if it ends with a SUPERSEDED one followed by an APPLIED one, otherwise at most one, and never three. |
| `Finality.FencesAreWrittenBy` | app/application/run_coordinator.py:584-645 | In every execution an action adds a revision under a fence, the first one or a further one, exactly if it is the compare-and-set call of that run on the record it read; then no APPLIED attempt exists, and the record stands at the status the transition starts from, under another fence or none. |
| `Finality.RewritesFollowAReturn` | app/application/run_coordinator.py:584-645 | Two revisions under one fence belong to one stored run, and before the second the record had come back to the status the transition starts from, under another fence or none. |
| `Finality.RecoveryWritesExactly` | app/application/run_coordinator.py:488-568 | However often a transition has been written, recovering its open scan writes it once more exactly if no APPLIED attempt exists, the record stands where the transition starts and the transition moves it. |
| `Finality.ConsultsOnlyWithoutCandidate` | app/application/run_coordinator.py:211-260 | In every execution a coordinator is about to call the provider or the evaluator only for a scan that holds no candidate. |
| `Finality.LogsAreAppendOnly` | app/persistence/in_memory.py:324-336 | However the execution goes on, the log of a scan only gets longer. |
| `Witnesses.TransitionIsWrittenTwice` | app/application/run_coordinator.py:584-645 | An execution of four runs in which one candidate's transition is written twice: its run fails once it wrote it, another scan takes the record back, and the recovery writes it again. |
| `Witnesses.CandidateIsFinalisedTwice` | app/application/run_coordinator.py:829-887 | An execution of six runs in which one candidate gets two final attempts, SUPERSEDED and then APPLIED. |
| `Coordinator.RunCoordinator.Run` | app/application/run_coordinator.py:194-446 | The method with its nested handlers, early returns and store objects takes exactly the steps of the protocol, one per repository call, whatever the environment answers, and returns or raises what the protocol ends with. |
| `Coordinator.RunCoordinator.RecoverPendingFinalization` | app/application/run_coordinator.py:488-568 | The recovery of a stored candidate takes exactly the steps of the protocol from looking for an applied attempt up to releasing the lock. |
| `Coordinator.RunCoordinator.CountRunning` | app/application/run_coordinator.py:1116-1122 | The loop counts the running attempts of a log. |
| `CoordinatorRuns.RunIsAnExecution` | app/application/run_coordinator.py:194-446 | The steps the method takes are an execution of the system, so every theorem about executions holds of the code in its own form. |
| `CoordinatorRuns.RunRecovers` | app/application/run_coordinator.py:228-235 | A run of the method on a reachable state with a pending candidate, in an environment that does not fail, completes the scan. |
| `CoordinatorRuns.RunDegrades` | app/application/run_coordinator.py:267-320 | A run of the method that meets no failure and gets data that is not actionable does to the record and the scan what Outcomes.DegradedRun says. |
| `Decimals.AddDecimals` | app/sizing/costs.py:184-202 | A sum that is returned is exact. |
| `Decimals.MultiplyDecimals` | app/sizing/costs.py:224-242 | A product that is returned is exact. |
| `Decimals.ProductsFit` | app/sizing/costs.py:224-242 | A product is returned exactly if both factors are within the limits, the exponents add up within them and the digits together do not exceed 1000: the last check of the result never rejects. |
| `Decimals.SumsFit` | app/sizing/costs.py:184-222 | Operands that align within 999 digits are always added and subtracted. |
| `Decimals.Ratio` | app/sizing/costs.py:289-311 | Aligning the exponents yields integers whose quotient is the quotient of the two decimals, below 10^1000. |
| `Decimals.FloorDivide` | app/sizing/costs.py:244-270 | The result is the floor of the exact quotient. |
| `Costs.RatioRounds` | app/sizing/costs.py:314-328 | The integer rounding meets the meaning of each mode on the exact quotient: toward zero, nearest with ties away from zero, nearest with ties to even. |
| `Costs.RoundsUniquely` | app/sizing/costs.py:314-328 | That meaning determines the result. |
| `Costs.RoundingIsMonotone` | app/sizing/costs.py:314-328 | All three modes are monotone, whatever the scales of the numbers. |
| `Costs.FloorToQuantum` | app/sizing/costs.py:273-278 | The result is the multiple of the quantum by the floor of the exact quotient. |
| `Costs.RoundToQuantum` | app/sizing/costs.py:281-286 | The result is a multiple of the quantum, by the correctly rounded quotient. |
| `Costs.PurchaseQuanta` | app/sizing/costs.py:109-134 | Gross value, slippage and fee are correctly rounded multiples of the quantum, and the total cash is their exact sum: the final rounding changes nothing. |
| `CostLimits.PurchasesBeneath` | app/sizing/costs.py:109-134 | If the purchase of a quantity can be costed, so can that of every smaller one on the same scale, with a smaller gross value and total. |
| `Costs.PurchaseIsMonotone` | app/sizing/costs.py:109-134 | A larger quantity never needs less cash, through all the rounding steps. |
| `Costs.SaleConserves` | app/sizing/costs.py:137-163 | Gross proceeds are exactly slippage, fee, tax and net together, the net is a multiple of the quantum, and gross is the sale value rounded down by less than a quantum. |
| `Costs.SaleQuanta` | app/sizing/costs.py:137-163 | Gross proceeds are the product rounded down; slippage is their rounded share at the sale slippage, fee and tax are the rounded shares of what slippage leaves at the sale fee and the sale tax, and the net is exactly the rest, all in quanta. |
| `Sizing.NewStage` | app/sizing/base.py:46-66 | The loop over trailing zeros accepts exactly the weights that are a positive whole number of basis points up to one, and yields those basis points. |
| `Sizing.SumCash` | app/sizing/engine.py:259-275 | The accumulation is the recursive total of reserve and stage costs, and rejects exactly when that does. |
| `Sizing.CashIsMonotone` | app/sizing/engine.py:259-275 | Pointwise smaller quantities never need more cash. |
| `Sizing.MaxAffordableQuantity` | app/sizing/engine.py:232-257 | The bisection returns the largest affordable number of lots; its cutoff after 4096 steps is never reached; and it succeeds whenever every number of lots it may try can be costed. |
| `SizingEngine.InitialQuantities` | app/sizing/engine.py:103-124 | Succeeds exactly if the unit cost and every stage can be computed, and then yields each stage target and its planned quantity on the lot grid. |
| `SizingEngine.QuantityFits` | app/sizing/engine.py:126-135 | A planned quantity is a whole number of minimum quantities where odd lots are allowed and of lots where they are not, is zero or at least the minimum, and does not cost more than its target at the rounded unit cost. |
| `SizingEngine.QuantityIsLargest` | app/sizing/engine.py:126-135 | No other grid quantity that fits the target is larger. |
| `SizingEngine.TargetBounds` | app/sizing/engine.py:115-124 | A stage target is the share of what may be spent at the weight of that stage, rounded down by less than a quantum to a multiple of it. |
| `SizingEngine.TargetsSpendAll` | app/sizing/engine.py:115-124 | The stage targets together do not exceed what may be spent, and fall short of it by less than a quantum per stage. |
| `SizingEngine.EnforceFunding` | app/sizing/engine.py:184-230 | The loop from the last stage forwards yields affordable quantities: the initial ones, or one cut stage at the largest affordable number of lots with earlier stages as planned and later ones empty, where without the cut the funding would not do. With funding for the reserve neither all-zero fallback is reached. For planned quantities it succeeds exactly if their total cash can be computed. |
| `SizingEngine.GreedyIsUnique` | app/sizing/engine.py:184-230 | That describes one outcome only. |
| `SizingEngine.GreedyFits` | app/sizing/engine.py:184-230 | The adjusted quantities stay on the lot grid and never exceed the planned ones. |
| `SizingEngine.Account` | app/sizing/engine.py:330-367 | The accumulation of a result is the specified account, rejecting exactly when it does. |
| `SizingEngine.AccountIs` | app/sizing/engine.py:341-352 | In an account, the required value, costs, total and remainder have exactly the values their names say. |
| `SizingEngine.PaidIsAccountable` | app/sizing/base.py:230-233 | For purchases within the funding, the extra check of an actionable result never fails. |
| `SizingEngine.Size` | app/sizing/engine.py:39-101 | Sizing succeeds exactly if the sale and the funding can be computed and then, below the reserve, stages without a purchase can be accounted for, otherwise the plan can be made, the total cash of its quantities computed and the outcome of the adjustment accounted for; the status is INSUFFICIENT_CASH exactly if the funding is below the reserve; otherwise available cash and net proceeds are exactly stage cash, reserve and remainder (so the clamp at zero never acts), stages are planned and greedily adjusted, and NO_PURCHASE_QUANTITY is reported exactly if all stages are empty. |
| `SizingLimits.PlansDecide` | app/sizing/engine.py:39-101 | Where the money quantum has an exponent from -999 to 0, the outcome of the adjustment does not matter for success: net proceeds that are not negative, the funding above the reserve, the plan and the total cash of the planned quantities decide. |
| `SizingEngine.ResultTargetsSpendAll` | app/sizing/engine.py:74-101 | The targets shown in such a result spend the funding above the reserve to within a quantum per stage. |
| `Rules.Parse` | app/rules/parser.py:331-428 | A parsed expression is typed, has at most 128 nodes and depth 16, and exactly its nodes are counted against the budget. |
| `DecimalContext.SumIsCorrect` | app/rules/parser.py:475-489 | In the 28-digit context sums and differences are correctly rounded: the exact number where it has at most 28 digits, otherwise the nearest multiple of the unit of its 28th digit, ties to even. |
| `DecimalContext.ProductIsCorrect` | app/rules/parser.py:475-489 | The same for products. |
| `DecimalContext.QuotientIsCorrect` | app/rules/parser.py:475-489 | The same for quotients, whatever the signs and scales. |
| `RuleNumbers.CanonicalIsUnique` | app/rules/parser.py:492-507 | Two numbers have the same canonical form exactly if they are the same number; so the form is stable. |
| `RuleNumbers.CanonicalInLimits` | app/rules/schema.py:306-338 | The canonical form of a number within the limits is itself within them exactly if the number, written out without trailing zeros behind the point, has at most 256 digits. |
| `RuleChecks.ParseRenders` | app/rules/parser.py:331-377 | Parsing loses nothing: the expression renders back to the input it came from, its numbers in canonical form, and it meets what the next row asks exactly if each number, written out, fits. |
| `RuleChecks.RenderParses` | app/rules/parser.py:331-377 | Every typed expression within the limits is what parsing its rendering yields. |
| `RuleChecks.ValidateExpression` | app/rules/parser.py:199-242 | The stack walk with its deferred operator checks accepts exactly the expressions whose size, depth and nodes a recursive definition accepts. |
| `RuleChecks.CountNodes` | app/rules/parser.py:307-319 | The stack walk counts the nodes, or stops just above 512. |
| `RuleChecks.ParsedIsAcceptable` | app/rules/parser.py:322-328 | What the parser returns passes the re-validation exactly if each number literal of its input, written out, has at most 256 digits. |
| `RuleChecks.ParsedIsRefused` | app/rules/parser.py:322-328 | It need not pass: the number 1e256 is parsed, and the parsed literal is refused. |
| `RuleChecks.OverflowIsRefused` | app/rules/parser.py:460-489 | A constant denominator whose folding exceeds the limits is refused, although it is parsed on its own. |
| `RuleEvaluator.KindsAreSound` | app/rules/engine.py:221-308 | On registered evidence, a typed expression evaluates only to values of the kind the parser assigned, no guard on an operand kind ever fires, and a missing null raises only under a null `if`. |
| `RuleEvaluator.BudgetSuffices` | app/rules/engine.py:106-115 | One step per node is enough, and no more is used. |
| `RuleEvaluator.FoldingAgrees` | app/rules/parser.py:460-489 | Where constant folding tells a value, every evaluation that succeeds yields that value, on any evidence. |
| `RuleEvaluator.ValuesPersist` | app/rules/engine.py:242-308 | Without `exists`, a value found on partial evidence is the value on every extension of it on which evaluation succeeds. |
| `RuleMeaning.SignaturesAre` | app/rules/parser.py:379-428 | Which operands an operator accepts and what it yields: how many, of which kinds, and for a division none that is a constant zero or beyond the limits. |
| `RuleMeaning.EvaluationMeans` | app/rules/engine.py:221-358 | On registered evidence the evaluator yields, unless it runs out of budget, what the expression denotes by a definition without budget and short cuts: comparisons by the order of amounts or instants, `and`, `or`, `not` by all, some or none of the flags, `eq` and `ne` by amount, `in` by containment, `if` by its branch, `exists` by presence, the first failure or else a missing operand before anything else, and arithmetic within the limits. |
| `RuleMeaning.ArithmeticRounds` | app/rules/engine.py:310-326 | The four arithmetic results are the sum from zero, the difference, the product from one and the quotient, each step correctly rounded. |
| `Rulesets.ParseRules` | app/rules/parser.py:171-196 | Exactly the rulesets whose rules all parse, fit 512 nodes together and have distinct identifiers are accepted. |
| `RuleMeaning.RulesAre` | app/rules/parser.py:149-168 | A rule is accepted exactly if it has an identifier, a positive weight within the limits and an expression that parses to a truth value; it keeps its identifier, the amount of its weight and its expression. |
| `Rulesets.WeightsParse` | app/rules/parser.py:149-168 | A weight is accepted exactly if it is positive, within the limits and, written out, has at most 256 digits; it keeps its value and is canonical. |
| `Rulesets.RunRules` | app/rules/engine.py:156-186 | The loop over the rules yields the verdicts, the rounded scores and the identifier lists of a definition that runs the rules one after another, or its first failure. |
| `Rulesets.EvaluateRuleset` | app/rules/engine.py:126-203 | Exactly the rulesets with a repeated identifier or an invalid expression, and thresholds that are negative or beyond the limits, are refused; otherwise the outcome is the specified one: status, rounded total and identifier lists, or the first failure. |
| `RuleMeaning.ReportMeans` | app/rules/engine.py:156-203 | A ruleset that runs to its end lists each rule as matched, failed or missing exactly by what its expression denotes, in order; its total and the missing score are the weights of those rules added up, each step correctly rounded; it is MATCHED exactly if the total reaches the threshold and FAILED exactly if the rounded sum of both does not; and it raises only where one of these numbers is beyond the limits. |
| `RuleMeaning.FailureMeans` | app/rules/engine.py:156-186 | A ruleset that does not run to its end ends at the first rule that denotes a failure or no truth value, or whose weight takes a score beyond the limits, or else has more than 512 nodes and no budget left. |
| `RuleScores.ScoresKeepOrder` | app/rules/engine.py:394-396 | Adding rounded scores keeps their order. |
| `Rulesets.ParsedRulesetsNeverExhaust` | app/rules/engine.py:106-115 | A ruleset the parser accepts never exhausts the evaluation budget, whatever the evidence. |
| `Rulesets.ParsedRulesetsFailOnlyOnNumbers` | app/rules/engine.py:310-326 | On registered evidence, a parsed ruleset without a null `if` raises only where a division or a resource limit fails. |
| `RuleDecisions.DecisionsPersist` | app/rules/engine.py:156-193 | Without `exists`, a ruleset that matched on partial evidence matches on every extension on which evaluation succeeds; one that failed fails there wherever its weights are steady. |
| `RuleDecisions.WeightsDecide` | app/rules/engine.py:156-193 | Whether failures are final is decided by the weights: no ruleset without `exists` that has these weights, on no evidence, no extension and at no threshold, has a failure undone, exactly if the weights are steady, that is, no assignment of verdicts gets a higher rounded potential score when some of its missing rules become matched or failed. |
| `RuleDecisions.MovesDecide` | app/rules/engine.py:187-193 | Weights from the parser are steady exactly if turning a single missing rule into a matched one never raises the rounded potential score. |
| `RuleDecisions.ExactIsSteady` | app/rules/engine.py:394-396 | Weights that together have at most 28 digits at some common exponent, of either sign, are steady. |
| `RuleDecisions.RoundingCanReverse` | app/rules/engine.py:187-193 | Beyond 28 digits weights need not be steady: a ruleset without `exists` fails on empty evidence and matches on more. |
| `RuleDecisions.ExistsCanReverse` | app/rules/engine.py:242-308 | With `exists` a decision need not persist: one rule fails on empty evidence and matches on more. |
| `Rulesets.NullIfRaises` | app/rules/engine.py:221-308 | A null `if` with a missing condition raises, although it is typed. |
| `EvidencePreflight.Preflight` | app/domain/evidence_payload.py:52-115 | The walk with exit frames, active identities and early size checks accepts exactly the values of the recursive definition: at most 32 deep, at most 8192 node occurrences, valid keys and leaves; shared containers are allowed. |
| `EvidencePreflight.CyclesAreRejected` | app/domain/evidence_payload.py:347-352 | A value that contains itself is accepted by that definition at no depth. |
| `EvidenceCodec.RoundTrip` | app/domain/evidence_payload.py:145-170 | Decoding an encoded value gives it back, also for mappings that hold the key "$evidence". |
| `EvidenceCodec.DecodedIsChecked` | app/domain/evidence_payload.py:255-322 | Whatever is decoded has supported decimals and distinct keys throughout, and bare arrays and objects that are no two-key envelope are rejected. |
| `EvidenceMeaning.DecodeReads` | app/domain/evidence_payload.py:255-322 | A stored value is decoded to an evidence value exactly if it stands for it: plain values for themselves, leaves by an envelope of exactly two fields whose text reads as the leaf, mappings by their pairs with distinct keys in order, lists and tuples by their items in order; everything else is rejected. |
| `EvidenceLimits.DecodedIsReencodable` | app/domain/evidence_payload.py:255-322 | A stored value that is decoded can be encoded again exactly if its envelopes are at most 32 deep, hold at most 8192 nodes and its keys and texts are short enough: decoding keeps these measures and does not limit them. |
| `EvidenceLimits.NestedDecode` | app/domain/evidence_payload.py:255-322 | The decoder has no limit of its own on nested list envelopes: with call depth to spare it decodes any number of them, and from 32 on the result is not encoded again. |
| `EvidenceCodec.StreamPrints` | app/domain/evidence_payload.py:173-233 | The streamed chunks together are the canonical JSON, with sorted keys, of the encoded tree. |
| `EvidenceMeaning.FieldsAreSorted` | app/domain/evidence_payload.py:24-29 | The fields of an object are printed in ascending order of their keys, each once. |
| `EvidenceCodec.Measure` | app/domain/evidence_payload.py:236-252 | The measure is the byte length of all chunks together, or reports excess exactly when that length exceeds the limit. |
| `EvidenceCodec.MeasureEncoded` | app/domain/evidence_payload.py:128-135 | The same for a value: the byte length of its canonical JSON, without building the tree. |
| `Bars.TwoStepsAreOne` | app/indicators/bars.py:75-107 | Whenever bars can be aggregated at a width, they and the result can be aggregated at any multiple of it, and both give the same bars, short final windows and dropped gaps included, provided that in every covered wide window no volume is negative and the exact sum of the volumes has at most 28 digits. |
| `Bars.SumsDecide` | app/indicators/bars.py:75-107 | Both ways agree exactly if in every wide window that the bars cover the rounded sum of the volumes is the rounded sum of the volumes of its narrow bars. |
| `Bars.TwoStepsAlign` | app/indicators/bars.py:75-107 | Whatever the volumes, both ways give the same windows, openings, extremes and closings. |
| `Bars.RoundingSplits` | app/indicators/bars.py:282-297 | Beyond 28 digits the volumes can differ: small volumes are lost one by one in one step and kept in two. |
| `Bars.RunAggregates` | app/indicators/bars.py:282-297 | Within one wide window, narrow aggregates cover the window exactly when the bars do, and then stand for the same open, close and extremes, and where no rounding occurs for the same volume. |
| `Bars.AggregateBars` | app/indicators/bars.py:75-107 | The method yields the specified aggregation, and raises exactly for a width that is not positive or bars that cannot be grouped. |
| `BarMeaning.AggregationMeans` | app/indicators/bars.py:75-107 | Aggregated bars are in order without overlap; each spans a window that lies so many widths after the opening of a session, cut at its close, is made from source bars that cover it, opens as the first and closes as the last of them, reaches as high and as low as any and has their volumes added up; and there is one for every window that some bars cover. |
| `BarMeaning.CoversIsEveryInstant` | app/indicators/bars.py:300-308 | Ordered bars cover an interval exactly if none leaves it and every instant of it is in one. |
| `Bars.ValidateBars` | app/indicators/bars.py:226-264 | The loops accept exactly ordered bars without overlap that each lie in one session and one window. |
| `Bars.CoversContinuously` | app/indicators/bars.py:300-308 | The scan accepts exactly the bars that cover the window without a gap. |
| `Bars.ValidateForCalendar` | app/indicators/bars.py:110-121 | Accepts exactly ordered bars without overlap that each lie in one session. |
| `Bars.SessionGap` | app/indicators/bars.py:189-220 | A gap is found exactly if the bars do not cover the interval; its kind and point are those of the first place where they stop. |
| `Bars.RequestedRangeGap` | app/indicators/bars.py:161-222 | The range is complete exactly if every overlapping session is covered; a reported gap is the first one of the first session that is not; empty ranges and invalid bars raise. |
| `BarMeaning.CoveredIsEveryInstant` | app/indicators/bars.py:161-222 | A session is asked about exactly if some of its instants are in the range, and its part is covered exactly if a bar of the session is observed at each of these instants and none of its bars leaves the range. |
| `BarMeaning.GapIsFirst` | app/indicators/bars.py:189-220 | Before the reported point every instant is in a bar; there, either no bar goes on or a bar leaves the interval; a leading gap begins the interval, an interior one does not, and after a trailing one no bar ends. |
| `Configuration.MergeAssociates` | app/application/configuration.py:348-382 | Overlaying is associative on values without nulls: both groupings raise together or are equal. |
| `Configuration.NullsBreakAssociativity` | app/application/configuration.py:348-382 | With a null in the middle it is not. |
| `Configuration.NullsDecideAssociativity` | app/application/configuration.py:348-382 | A middle value makes the two groupings agree for all null-free outer values exactly if it is null-free itself. |
| `Configuration.MergeKeyedList` | app/application/configuration.py:318-345 | The loop with its index is the specified keyed merge, and raises exactly where an item has no identifier. |
| `Configuration.KeyedMerge` | app/application/configuration.py:318-345 | A keyed merge keeps identifiers unique, orders them as the lower list followed by the new ones, and lays each higher entry over the lower one. |
| `Configuration.KeyedAssociates` | app/application/configuration.py:318-345 | Keyed merges of null-free lists with unique identifiers are associative. |
| `Configuration.PatchesAssociate` | app/application/configuration.py:439-499 | Whole layers of such fields merge associatively, so consecutive layers can be grouped in any way. |
| `Configuration.ConflictsAreFinal` | app/application/configuration.py:439-499 | A merge that raises makes the whole resolution raise: no later layer, and no null in it, hides the conflict. |
| `Configuration.ResolutionIgnoresOrder` | app/application/configuration.py:421-499 | Resolution gives the same outcome for every order in which the layers are supplied. |
| `Precedence.HighestWins` | app/application/configuration.py:421-499 | The resolved configuration has the fields of all layers; at every place, in maps and in the entries of keyed lists, at any depth, it shows exactly what the highest-ranked layer that says something about that place shows there, a null included, and nothing where no layer does. |
| `Precedence.HighestFieldWins` | app/application/configuration.py:465-471 | In particular a null, a scalar or a list without a policy of the highest-ranked layer that has the field is the value of the field. |
| `Precedence.ResolutionRaises` | app/application/configuration.py:421-471 | Resolution raises exactly where a scope occurs twice, or a layer shows something at a place that cannot be merged with what the next lower layer that says something there shows: two kinds, two scalar types, or keyed lists of which one has an entry without identifier. |
| `Precedence.ShownDetermines` | app/application/configuration.py:348-382 | What is shown at all places determines a value. |
| `DecimalText.TextReads` | app/data_sources/models.py:23-46 | Reading the text of a decimal gives back its value. |
| `DecimalText.TextIsCanonical` | app/data_sources/models.py:23-46 | Two decimals have the same text exactly if their values are equal, whatever their scale or the sign of a zero. |

## Left out

- The claim of a pending finalisation written by an earlier version (app/application/run_coordinator.py:598-627, 658-690): it needs a record with a legacy claim, which stores that start empty never hold.
- Timestamps, access control, the check of the plan and configuration snapshot before the lock, lock leases and their expiry, audit dictionaries and the rendering of results; rendering is a step that may raise and changes nothing.
- Recovery while another coordinator holds the lock of the same scan, or after one vanished without giving it back: the in-memory lock has no expiry, so nothing can be promised there.
- The SQL repositories, mappers and migrations, the HTTP layer and the composition root.
- Positions are those the repository holds at the moment of evaluation; the position repository itself is not part of this model.
- Decimals.AddDecimals: does not model the sign of a zero; the limits on digits and exponents are modelled, signalling and infinite values are not.
- SizingEngine.Size: does not model plan authorisation, stage identifiers or the reason texts.
- SizingEngine.TargetsSpendAll: says nothing lexicographic across stages, because rounding can make a later stage's first lot cheaper.
- Rules.Parse: does not model the size and nesting limits on the raw JSON transport or the normalisation of texts; the input is already a tree of transport values.
- RuleEvaluator.FoldingAgrees: is stated for expressions as the parser builds them, whose literals are canonical.
- RuleEvaluator.ValuesPersist: which texts are short enough for evidence is a parameter of the evaluator.
- Rulesets.ParseRules: identifiers are taken as already stripped of surrounding blanks and within their length.
- Rulesets.EvaluateRuleset: does not model traces, the evaluation purpose or the limits on the size of the input and of the result.
- DecimalContext.QuotientIsCorrect: exponents are unbounded, as no number of the rules comes near the exponent limits of the arithmetic.
- EvidencePreflight.Preflight: keys and leaves are summed up by whether they are in order; the identity of an object is its place in a heap.
- EvidenceCodec.RoundTrip: that one leaf's text reads back as that leaf is a requirement on the text formats; `DecimalText` proves it for values of another printer.
- EvidenceLimits.DecodedIsReencodable: the limits on decimals are the same for decoding and encoding and stay a parameter.
- EvidenceLimits.NestedDecode: does not model the limit of the interpreter on recursion, at which the recursive decoder stops.
- EvidenceCodec.StreamPrints: string escaping is an abstract quoting function.
- Bars.AggregateBars: does not model several instruments at once, time zones or the grouping library; bars of one instrument are grouped by their window; the ambient decimal context is the default one of 28 digits.
- Configuration.ResolutionIgnoresOrder: does not model delete directives of extensions, schema validation, target checks, runtime expiry or the canonical JSON and its digest.
- Precedence.HighestWins: takes the keyed lists of each layer with distinct identifiers, as KeyedMerge does; within one layer the code merges repeated ones.
- DecimalText.TextReads: the reader is the inverse the text is meant for, since the code holds no reader; the 256-digit variant of other printers is not modelled.
- Scoring, volume ratio, average price and the mock provider: they would add only easy members.
