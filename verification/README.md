# Crumblr: a verified model of its execution, agent and decision loops

This Dafny project models the parts of Crumblr where a mistake would send a second order, close the wrong
position, change a verdict after the fact, or misreport what happened, and proves what they keep. It has
four parts.

**Execution.** Workers claim an order request by a winning insert, walk a gated chain, consume a one-shot
canary permit and write `SUBMISSION_STARTED` in one transaction, and only then call `order_send`. Later
passes recover a crashed submission, resolve a resting order and reconcile against exposure derived from the
durable history. `ExecutionProtocol` is the transition system for any number of workers, each able to die
between any two effects; `ExecutionHistory` restricts it to workers taking turns and gives the language of
the durable log; `RecoveryReads` ties what recovery records to the broker's moves between its two reads, and
duplicates on record to the kill switch; `RecoveryRace` holds concrete runs that show what can go wrong;
`ExecutionChain` says what is asked about one capsule and what each answer writes; `ExecutionPasses` is the
orchestrator as an object whose passes are proved to be runs of that system and to follow those answers;
`ExpectedExposure` is the derivation of expected tickets and `ExposureMeaning` what it says in terms of the
durable rows alone; `CanaryScope` is the permit's scope check; `ExecutionOutcome` is what a broker reply
means.

**Flatten.** `Flatten` is the automatic close: one occurrence per day, committed by one pass and acted on by
later ones, under failing reads and crashes. A pass is a function of what it is told; the driver object is
proved to compute it, and it to do only what a good pass may do. `FlattenAnswers` says exactly when a pass
claims, commits, closes, records and halts, over what it is told.

**Agent Gateway.** `AgentContracts`, `GatewayMachine`, `GatewayGuarantees`, `GatewayReasons`,
`GatewayRateLimit` and `AgentGateway` model claim, evaluation, settlement, replay, the exact reason of every
rejection and refusal, the rate limit and the evidence that contexts and intents point at.

**Loops and algorithms.** `LiveReader` (health machine), `LiveDecision` (restart-safe decision window),
`Replay` (tally, recount and rolling windows), `CloseWindow` (isolated close search) and `CanonicalDecimal`
(decimal printer).

Code that the repository writes as objects changing their fields is a class here, with loops where the
source has loops; every method is proved equal to a function, most also state what that means for a caller,
and the theorems are lemmas about that function or invariants over every run. Risk, gates, reconciliation, strategy, calendars, clocks, the broker
and the terminal are oracles: their answers are parameters, and every theorem holds whatever they are. A
process dies after a given number of effects, so what a living one must do is stated too.

## What the proofs found

- With two workers a recovery verdict can be overtaken: recovery records `submitted = false` while the first
  worker still stands between its commit and its send (`RecoveryRace.RecoveryCanBeOvertaken`). With workers
  taking turns this cannot happen, and in general the order can still go out exactly when some worker stands
  there (`ExecutionProtocol.StartedCanStillSendExactlyWhenHeld`).
- Recovery reads positions and then pending orders. Over any broker that places, fills, cancels and closes,
  a row `submitted = false` stands over an open position of its request exactly when the order filled after
  the first read and was not closed again; if the broker placed nothing of that request after the second
  read, exactly when it filled between the two
  (`RecoveryReads.FalseOverAFillExactlyWhenFilledSinceTheFirstRead`). One worker alone reaches this
  (`RecoveryRace.OneWorkerRecordsFalseOverAFill`).
- Duplicates are recorded before the kill switch is tripped, and recovery leaves a resolved request alone. A
  worker that dies in between leaves the system running over them
  (`RecoveryRace.DuplicatesCanStayUnhalted`), and that is the only way
  (`RecoveryReads.DuplicatesHaltUnlessItDied`).
- `FILLED`, `BROKER_ACK` and `CLOSED` are tabled as undetermined, yet the derivation has no branch that
  gives a reason for them, so a filled request looks flat: the book is derived as if it did not exist
  (`ExpectedExposure.InvisibleExactlyWhenSilent`, `ExpectedExposure.FilledRequestLooksFlat`).
- Flatten recovery does not ask whether its position read was complete. It records an open ticket as closed
  exactly when that read failed (`Flatten.RecordIsFalseExactlyWhenTheReadFailed`), and the driver does so for
  every plan it committed (`Flatten.FailedReadLooksFlat`).
- The documentation says that the overnight trip follows the gate decision; in the code it precedes it. It
  makes no difference to the gate, which tolerates the halts this driver causes
  (`Flatten.OwnTripNeverClosesTheGate`).
- The hourly proposal limit holds in every window exactly when no acceptance takes up an earlier call's claim
  around which some hour is already full (`GatewayRateLimit.LimitHoldsExactlyWhenResumptionsFindRoom`). It
  always holds when accepted proposals are claimed and settled by one call, and an hour can only be found full
  over a claim, in the hour before the resumed one, that has left the count since; such runs exist
  (`GatewayRateLimit.InterruptedClaimsCanExceedTheLimit`).
- Evidence is keyed by symbol and instant, so a second observation at one instant gets a bundle that points
  at the first one's evidence (`GatewayGuarantees.EvidenceDescribesTheBundleExactlyWhen`).
- The recount of no-trade reasons is exact precisely when no snapshot id is shared between a window that
  proposed, with reasons, and one that did not (`Replay.RecountEqualsLiveTally`).
- The order count given to Risk is trimmed only at a fill, so it can be too high, never too low
  (`Replay.RiskCountNeverBelow`).
- The "still open" branch of the close search is unreachable; and the search takes a failed position read
  for a flat account (`CloseWindow.FailedReadLooksLikeAClose`).
- An unreadable decision-window record halts the system but does not stop the cycle that found it. Windows
  then stay distinct exactly when each claimed window is later than the durable record
  (`LiveDecision.NoWindowTwiceExactlyWhenClaimsAreLater`), and duplicate hashes stay durable exactly when no
  claim overwrites a hash the process does not know (`LiveDecision.HashesDurableThroughoutExactlyWhenKept`).
  Both can fail (`LiveDecision.UnreadableRecordCanRepeatAWindow`, `LiveDecision.UnreadableRecordLosesHashes`).

## Model

| member | source | states |
|---|---|---|
| ExecutionProtocol.RunsAreSafe | src/crumblr/application/execution.py:454-1012 | the inductive invariant of every run of any number of crashing workers: one holder per request, consumption and SUBMISSION_STARTED durable together, a send ledger without repeats |
| ExecutionProtocol.OrderSendAtMostOnce | src/crumblr/application/execution.py:870-1012 | in every reachable state at most one order_send per request and per permit, only for the configured capsule, only with consumption and SUBMISSION_STARTED durable |
| ExecutionProtocol.SendFollowsCommit | src/crumblr/application/execution.py:966-993 | every send is preceded, in the same worker, by the transaction before which neither and after which both of consumption and SUBMISSION_STARTED were durable |
| ExecutionProtocol.LogsOnlyGrow | src/crumblr/persistence/execution.py:278-337 | no step of any worker removes or rewrites an event |
| ExecutionProtocol.StartedCanStillSendExactlyWhenHeld | src/crumblr/application/execution.py:966-993 | once SUBMISSION_STARTED is durable the order can still go out exactly when a live worker stands between its commit and its send |
| ExecutionHistory.HistoriesStayInTheLanguage | src/crumblr/application/execution.py:454-1012 | with one worker at a time and crashes anywhere, every history is a prefix of one of twelve words, holds no kind twice, and no append meets an existing row |
| ExecutionHistory.LanguageIsPrefixesOfWords | src/crumblr/application/execution.py:454-1012 | the step-by-step order of events describes exactly prefixes of the twelve complete words |
| ExecutionHistory.AppendsAreFresh | src/crumblr/persistence/execution.py:278-337 | in such a run every append inserts: it never converges on and never conflicts with an old row |
| ExecutionHistory.ResolvedIsNeverSentAgain | src/crumblr/application/execution.py:1014-1134 | a submission with any recorded outcome can never be sent again by any continuation with any number of workers |
| RecoveryReads.FalseOverAFillExactlyWhenFilledSinceTheFirstRead | src/crumblr/application/execution.py:1063-1134 | for every row submitted=false in every run of any number of workers over a broker that places, fills, cancels and closes: neither of two earlier reads showed the request, and a position of it is open at the write exactly when a fill after the first read, between the two if nothing was placed after the second, was not closed again |
| RecoveryReads.DuplicatesHaltUnlessItDied | src/crumblr/application/execution.py:1068-1103 | in every reachable state, a request last resolved as shared by several positions or orders means the system is halted, or a worker is about to halt it, or one died at exactly that point |
| RecoveryRace.RecoveryCanBeOvertaken | src/crumblr/application/execution.py:1014-1134 | a two-worker run in which recovery records submitted=false and the order can still be sent |
| RecoveryRace.OneWorkerRecordsFalseOverAFill | src/crumblr/application/execution.py:1063-1134 | a one-worker run over a broker that places and fills, in which submitted=false is recorded over the open position |
| RecoveryRace.DuplicatesCanStayUnhalted | src/crumblr/application/execution.py:1068-1083 | a one-worker run that records duplicates and dies before the trip, so that nothing is halted and nobody is about to |
| CanaryScope.ScopeMismatches | src/crumblr/application/execution.py:2236-2281 | reports every failing leg and no other, and nothing exactly when the permit covers the request |
| CanaryScope.CoversExactlyWhenNoneFails | src/crumblr/application/execution.py:2236-2281 | a permit covers a request exactly when no leg fails |
| ExecutionPasses.ExecutionOrchestrator.Process | src/crumblr/application/execution.py:454-844 | one capsule adds at most one send, for a request it claimed itself, only after a yes to every question and under a stored, unused permit that covers it; every row of a new chain has its answer; with effects to live, the first no is the last row, a yes to all sends, and an earlier claim is recovered; no other request is touched |
| ExecutionChain.PathsHaveAnswers | src/crumblr/application/execution.py:496-844 | however far a pass gets: FINAL_RISK_PASSED, ORDER_CHECKED, SUBMISSION_GATE_PASSED and SUBMISSION_STARTED each stand for a yes to every question before, and each refusal for the first no |
| ExecutionChain.PathsEndAtTheFirstNo | src/crumblr/application/execution.py:496-1012 | a chain that is not cut short ends in the refusal of the first no, or in the commitment, or in what the reply means |
| ExecutionPasses.ExecutionOrchestrator.Claim | src/crumblr/application/execution.py:483-501 | the insert that wins is the claim; an equal claim leads to recovery, another approval chain raises and changes nothing |
| ExecutionPasses.ExecutionOrchestrator.AttemptRealEntrySubmission | src/crumblr/application/execution.py:870-1012 | for the configured capsule under a stored, unused permit that covers the request it commits the approved order, sends and records the reply; otherwise it refuses and sends nothing |
| ExecutionPasses.ExecutionOrchestrator.CommitWithPermit | src/crumblr/application/execution.py:966-981 | consumption and SUBMISSION_STARTED become durable together or not at all |
| ExecutionPasses.ExecutionOrchestrator.RecordReply | src/crumblr/application/execution.py:992-1012 | a transport failure or an impossible reply leaves the log at SUBMISSION_STARTED, the latter raises; any other reply appends exactly what it normalizes to |
| ExecutionOutcome.NormalizeExecutionResult | src/crumblr/application/execution_outcome.py:62-96 | defined exactly for the four replies order_send can give, as FILLED, REJECTED or SUBMITTED |
| ExecutionOutcome.OnlyRejectionSettlesExposure | src/crumblr/application/execution_outcome.py:62-96 | a reply settles exposure only when it rejects; a resting order stays an open question and a fill, full or partial, leaves none |
| ExecutionPasses.ExecutionOrchestrator.RecoverAmbiguousSubmission | src/crumblr/application/execution.py:1014-1134 | against a book that stays put: submitted is true exactly when one position carries the magic, never false over a resting order, nothing is sent, a resolved request is left alone; with effects to live it writes unless one order rests, and duplicates leave the system halted |
| ExecutionPasses.VerdictMeansOutcome | src/crumblr/application/execution.py:1058-1134 | the verdict computed from the two reads is that outcome, for every book |
| ExecutionPasses.ExecutionOrchestrator.ResolvePendingOnce | src/crumblr/application/execution.py:1942-2062 | no request gets anything but what the one-book verdict says; with effects to live every resting request is left so, and the system halted over duplicates |
| ExecutionPasses.ResolutionMeaning | src/crumblr/application/execution.py:1998-2062 | a request changes exactly when its last row is a SUBMITTED that names a ticket, that ticket has left the book and some position carries the magic: to FILLED with that position's ticket if there is one, to an ambiguity if several |
| ExecutionPasses.ExecutionOrchestrator.ReconcileOnce | src/crumblr/application/execution.py:1789-1940 | with effects to live, a RECONCILED row is written exactly when the book was read and compared, nothing anywhere is undetermined, the request is determined and not reconciled before and every remaining ticket was observed open |
| ExecutionPasses.ExecutionOrchestrator.RequestIdsWithEvent | src/crumblr/persistence/execution.py:459-500 | every request whose log holds the kind, each once |
| ExecutionPasses.ReconciledConservesTickets | src/crumblr/application/execution.py:1878-1932 | the row's expected set equals its observed set, is disjoint from its closed set, and together with it is exactly the tickets recovered for the request |
| ExecutionPasses.RawMatchingMeaning | src/crumblr/application/execution.py:1887-1896 | the recovered tickets are those of the newest resolution that carries a payload |
| ExecutionPasses.ReconciliationConserves | src/crumblr/application/execution.py:1878-1932 | every row a pass writes conserves tickets in that sense |
| ExecutionPasses.ReconciliationKeepsExposure | src/crumblr/application/execution.py:1912-1932 | writing the rows leaves the next pass's derivation exactly as it was |
| ExecutionPasses.ExecutionOrchestrator.RunOnce | src/crumblr/application/execution.py:413-452 | a whole pass, the flatten, any capsules in turn and reconciliation, sends at most once, for a capsule with a yes to every question under a permit that covers it; every row of every new chain has its answer; unless it dies or raises, every capsule is claimed and nothing reconcilable remains; and it dies only for a reason named |
| ExecutionPasses.OnlyTheFirstSend | src/crumblr/application/execution.py:966-993 | a second send by one worker would reuse its permit, so only the first can happen |
| ExpectedExposure.DeriveExpectedExposure | src/crumblr/application/expected_state.py:181-293 | the loop computes the fold over requests and occurrences |
| ExpectedExposure.FlattenRemovedAndUndetermined | src/crumblr/application/expected_state.py:144-178 | the closed tickets and open questions of all occurrences |
| ExpectedExposure.RemoveClosed | src/crumblr/application/expected_state.py:278-293 | every request keeps its tickets minus the closed ones |
| ExpectedExposure.DerivationMeetsSpecification | src/crumblr/application/expected_state.py:181-293 | for distinct request ids: expected tickets are those of determined requests minus flatten-closed ones, with matching reasons, per-request tickets and stops |
| ExposureMeaning.DerivationSaysWhatTheEventsSay | src/crumblr/application/expected_state.py:116-293 | in terms of the rows alone: who is determined, which listed tickets minus closed ones each request and the whole book is expected to hold, every reason in both directions, and the stop of the first SUBMISSION_STARTED that names one |
| ExpectedExposure.ReconciledEventsAreInvisible | src/crumblr/application/expected_state.py:133-141 | histories that differ only in RECONCILED events, anywhere, derive the same exposure |
| ExpectedExposure.ReorderingChangesOnlyReasonOrder | src/crumblr/application/expected_state.py:181-293 | permuting the requests changes only the order of reasons |
| ExpectedExposure.OpenQuestionsAreReported | src/crumblr/application/expected_state.py:208-232 | a request last at SUBMISSION_STARTED, SUBMITTED or an integrity ambiguity makes the reasons non-empty |
| ExpectedExposure.UndeterminedIsReportedExactlyWhen | src/crumblr/application/expected_state.py:85-87 | which undetermined kinds give a reason and which give none |
| ExpectedExposure.InvisibleExactlyWhenSilent | src/crumblr/application/expected_state.py:204-276 | a request can stand anywhere among any others without changing the derivation exactly when its newest relevant event is from before the submission, or is FILLED, BROKER_ACK or CLOSED |
| ExpectedExposure.FilledRequestLooksFlat | src/crumblr/application/expected_state.py:204-276 | a request last at FILLED, anywhere in any list, leaves the whole derivation as if it did not exist |
| Flatten.FlattenDriver.FlattenOnce | src/crumblr/application/execution.py:1188-1380 | one pass: exactly the one its answers determine, a good one, and the run stays linked through the durable log |
| Flatten.PassOfIsGood | src/crumblr/application/execution.py:1188-1664 | whatever a pass is told and wherever it dies, it does only what a good pass may do, keeps every log regular and other occurrences untouched |
| Flatten.DriverRunsAreFlattenRuns | src/crumblr/application/execution.py:1188-1664 | every run of the driver, with the switch changed by others in between, is a run of good passes |
| Flatten.OccurrencesNeedAReason | src/crumblr/application/execution.py:1188-1300 | an occurrence is claimed only on a day with a flatten that is due, and an unreadable book by the deadline leaves a living pass halted |
| FlattenAnswers.FirstPassDecides | src/crumblr/application/execution.py:1260-1493 | from an occurrence without rows: claimed exactly when due and free; committed, to exactly the positions read, exactly when the gate also says yes over a halt it looks past, otherwise refused; halted for a missed deadline read or due exposure; only a conflicting claim stops a pass with effects to live |
| FlattenAnswers.LaterPassDecides | src/crumblr/application/execution.py:1530-1664 | over a standing commitment: nothing is closed without adapter or permission, otherwise what is seen of the plan, in order; the log stays exactly when an attempt leaves something seen, then halted; else the record says what was seen |
| FlattenAnswers.NothingLeftToDecide | src/crumblr/application/execution.py:1214-1265 | no flatten that day, or an occurrence refused or resolved: nothing changes |
| FlattenAnswers.StillOpenFilters | src/crumblr/application/execution.py:1562-1566 | the due tickets are the plan filtered by what is open, in order |
| Flatten.FlattenDriver.RunPass | src/crumblr/application/execution.py:1260-1380 | durable state first; a good step: the gate opens only under a halt it tolerates, both protective-stop reasons among them, and an existing halt is never changed |
| Flatten.FlattenDriver.CommitFlatten | src/crumblr/application/execution.py:1382-1493 | writes a prefix of claimed, gated, committed, commits only from a complete read, and closes nothing |
| Flatten.FlattenDriver.AttemptAndResolve | src/crumblr/application/execution.py:1530-1664 | closes in order only committed tickets observed open; an outcome is recorded only when the last read shows none of them or nothing was attempted, and says what that read showed |
| Flatten.FlattenDriver.CloseEach | src/crumblr/application/execution.py:1570-1592 | every due ticket once and in order, up to a crash |
| Flatten.CommitAndCloseAreDifferentPasses | src/crumblr/application/execution.py:1472-1528 | whatever a pass closes was committed by an earlier pass that closed nothing, and was observed open again |
| Flatten.FlattenHistoriesStayInTheLanguage | src/crumblr/persistence/flatten.py:242-303 | every occurrence's log is a prefix of one of two words and a commitment names at least one ticket |
| Flatten.FlattenLogsOnlyGrow | src/crumblr/persistence/flatten.py:242-303 | from pass to pass a log only grows |
| Flatten.TerminalOccurrencesStayClosed | src/crumblr/application/execution.py:1260-1265 | a refused or resolved occurrence is never touched again |
| Flatten.ResolvedRecordSplitsThePlan | src/crumblr/application/execution.py:1607-1664 | the record's targets are the plan, split into disjoint open and closed halves; flattened holds exactly when none is open |
| Flatten.ResidualLeavesTheLogUnchanged | src/crumblr/application/execution.py:1633-1648 | a failed attempt leaves the log as it was |
| Flatten.RecordIsFalseExactlyWhenTheReadFailed | src/crumblr/application/execution.py:1595-1612 | against the tickets really open, the record is false exactly when the last read failed while a target was open; exposure then drops exactly the targets not seen |
| Flatten.FailedReadLooksFlat | src/crumblr/application/broker_state.py:174-182 | for every committed plan the driver itself, on a blind next pass, records all of it flat without closing anything, and the derivation drops the tickets |
| Flatten.OwnTripNeverClosesTheGate | src/crumblr/application/execution.py:1358-1428 | the halts this driver trips before the gate do not change the gate's answer |
| AgentGateway.Gateway.SubmitTradeProposal | src/crumblr/agent_gateway/gateway.py:258-325 | one step of the machine that keeps the invariant, takes nothing back and raises nothing internal; a verdict means that the record holds this very submission, its acceptance and its reason |
| AgentGateway.Gateway.SubmitNoTrade | src/crumblr/agent_gateway/gateway.py:441-484 | the same for an explicit no-trade decision, judged by its assignment and its context alone |
| AgentGateway.Gateway.Receive | src/crumblr/agent_gateway/gateway.py:267-292 | claims or finds the claim, replays a recorded verdict, otherwise goes on from RECEIVED |
| AgentGateway.Gateway.EvaluateProposal | src/crumblr/agent_gateway/gateway.py:376-435 | the first failing check, against the count taken after the claim |
| AgentGateway.Gateway.Settle | src/crumblr/agent_gateway/gateway.py:536-568 | appends the verdict and answers with it |
| AgentGateway.Gateway.ClaimOutcome | src/crumblr/agent_gateway/stores.py:369-395 | inserts once, treats equal content as a retry and other content as a conflict |
| AgentGateway.Gateway.Record | src/crumblr/agent_gateway/stores.py:411-456 | append-once per outcome and kind |
| AgentGateway.Gateway.CountClaimedSince | src/crumblr/agent_gateway/stores.py:401-409 | the number of outcomes of the assignment claimed at or after the instant |
| AgentGateway.Gateway.SettlementFor | src/crumblr/agent_gateway/stores.py:462-471 | the first recorded verdict, if any |
| AgentGateway.Gateway.IssueContextBundle | src/crumblr/agent_gateway/gateway.py:164-177 | a bundle is handed out exactly when its evidence is recorded and its id then stands for this content; its hash then leads to it and to that evidence; otherwise nothing changes; nothing issued before is taken back |
| AgentGateway.Gateway.Publish | src/crumblr/agent_gateway/gateway.py:179-227 | evidence is recorded whatever becomes of the bundle, the first observation of an instant for good; a bundle handed out resolves to what was asked for and is valid for a while; a refused one leaves all bundles as they were |
| AgentGateway.Gateway.RegisterAssignment | src/crumblr/agent_gateway/stores.py:118-129 | answers Done exactly when afterwards the id stands for this content, conflict otherwise; what was registered before stays as it was |
| GatewayGuarantees.StepIsGood | src/crumblr/agent_gateway/gateway.py:258-616 | no call breaks the invariant, takes anything back, raises a conflicting event or fails an assertion |
| GatewayGuarantees.VerdictsAreReplayedForEver | src/crumblr/agent_gateway/gateway.py:276-284 | after any further calls, the identical submission gets the same verdict, reason and intent, or an authentication error, and changes nothing |
| GatewayGuarantees.RunsTakeNothingBack | src/crumblr/agent_gateway/stores.py:162-175 | assignments, evidence, bundles by id and by content, claims and events all survive every later call |
| GatewayGuarantees.OutcomesAreWellOrdered | src/crumblr/agent_gateway/stores.py:411-456 | events are empty, RECEIVED, or RECEIVED and exactly one verdict, and no next call raises anything internal |
| GatewayGuarantees.UnsettledClaimIsEvaluatedAfresh | src/crumblr/agent_gateway/gateway.py:273-292 | a claim left without a verdict is settled by the present evaluation, never by default |
| GatewayGuarantees.FirstSubmissionIsAcceptedExactlyWhen | src/crumblr/agent_gateway/gateway.py:376-435 | a first proposal is accepted exactly when it is admissible, with fewer earlier claims in the hour than the limit, and is answered with its own intent |
| GatewayReasons.FirstSubmissionIsJudged | src/crumblr/agent_gateway/gateway.py:376-530 | a first submission of either kind is accepted exactly when every fact holds of the stores, its own claim counted, and otherwise rejected with exactly the first fact denied |
| GatewayReasons.ResumedSubmissionIsJudged | src/crumblr/agent_gateway/gateway.py:273-317 | a claim left without a verdict is judged so by the facts at the time it is taken up |
| GatewayReasons.EvaluationNamesTheFirstFailure | src/crumblr/agent_gateway/gateway.py:376-530 | each rejection reason exactly when its own fact is denied and all earlier ones hold |
| GatewayReasons.RefusedExactlyWhen | src/crumblr/agent_gateway/gateway.py:233-272 | each refusal before any claim, unknown agent, credential, status, impersonation and conflicting content, exactly when its cause holds, and then nothing changes |
| GatewayGuarantees.OnlyTheAuthenticatedAgentIsHeard | src/crumblr/agent_gateway/gateway.py:233-272 | only a registered, active agent with its current secret, speaking for itself, changes anything or gets a verdict |
| GatewayGuarantees.EvidenceComesFirstAndStays | src/crumblr/agent_gateway/gateway.py:354-373 | every bundle and intent handed out names evidence recorded before it that resolves to the same evidence in all later states; intents satisfy their validators |
| GatewayGuarantees.EvidenceDescribesTheBundleExactlyWhen | src/crumblr/agent_gateway/stores.py:216-219 | a published bundle's evidence describes its observation exactly when that symbol and instant were not recorded with another one |
| GatewayGuarantees.SecondObservationIsNotRecorded | src/crumblr/agent_gateway/evidence.py:110-133 | a second observation at one instant is issued against the first one's evidence |
| GatewayRateLimit.LimitHoldsExactlyWhenResumptionsFindRoom | src/crumblr/agent_gateway/gateway.py:294-303 | over any run, cut anywhere and with clock readings in any order: no closed one-hour window of claim times ever holds more accepted proposals than allowed exactly when every acceptance of an earlier call's claim finds no hour around that claim full |
| GatewayRateLimit.NoHourExceedsTheLimit | src/crumblr/agent_gateway/gateway.py:294-303 | the limit holds in every run in which each accepted proposal was claimed and settled by one call, whatever happens to other claims |
| GatewayRateLimit.FullHourNeedsAnUncountedClaim | src/crumblr/agent_gateway/gateway.py:294-303 | an acceptance finds an hour full only as a resumption, and only over a claim of the assignment in the hour up to the resumed one that is no longer counted |
| GatewayRateLimit.CountedClaimsKeepTheLimit | src/crumblr/agent_gateway/gateway.py:294-303 | the limit holds in every run in which no such claim precedes an acceptance |
| GatewayRateLimit.InterruptedClaimsCanExceedTheLimit | src/crumblr/agent_gateway/gateway.py:276-287 | from stores a run reaches: with a limit of one, a claim interrupted and resumed after both claims have left the count is accepted beside the first |
| LiveReader.Reader.PollOnce | src/crumblr/application/live_reader.py:421-502 | one poll is one step, heartbeat stamped on every path |
| LiveReader.Reader.Reconnect | src/crumblr/application/live_reader.py:508-652 | HEALTHY exactly for a connection whose margin mode does not contradict the expected one, then with a gateway numbered above all accepted before; a freeze exactly for guard, symbol or margin; a failed call leaves no trace; the order of effects is kept |
| LiveReader.Reader.ReadAndPersist | src/crumblr/application/live_reader.py:675-732 | rows go only through the gateway in hand, bars only after the ticks went through; the gateway is dropped exactly when a read failed, the reader frozen exactly on a conflict, HEALTHY or STALE exactly when both went through; the cursor never goes back |
| LiveReader.Reader.AcknowledgeFreeze | src/crumblr/application/live_reader.py:784-806 | an identified operator clears a freeze into a fresh start; anything else changes nothing |
| LiveReader.Reader.RunForever | src/crumblr/application/live_reader.py:402-419 | after a poll that ends DISCONNECTED the wait is the first delay doubled for every such poll in a row before it, up to the limit; after any other the ordinary interval |
| LiveReader.RunsAreWellOrdered | src/crumblr/application/live_reader.py:445-652 | in every run what leaves the reader is well ordered, all margin modes at accepted reconnects agree, and the cursor is the newest tick ever stored |
| LiveReader.RowsGoThroughAVerifiedGateway | src/crumblr/application/live_reader.py:675-698 | stored rows go only through the gateway of an accepted reconnect, with nothing but its own rows in between, so never after a failed read |
| LiveReader.FrozenUntilAcknowledged | src/crumblr/application/live_reader.py:445-448 | an unhealthy reader changes only its heartbeat and lets nothing out until acknowledged |
| LiveReader.HealthyIsNeverSilent | src/crumblr/application/live_reader.py:702-726 | a poll that ends HEALTHY has an installed gateway and a tick, else a bar, else a reconnect no older than allowed |
| LiveReader.PollEndsExactly | src/crumblr/application/live_reader.py:421-732 | exactly when a poll ends UNHEALTHY, HEALTHY, STALE and so DISCONNECTED |
| LiveReader.PollMeasuresFrom | src/crumblr/application/live_reader.py:660-726 | exactly how a poll moves the tick cursor, the bar time and the reconnect time that silence is measured from |
| LiveReader.CursorNeverGoesBack | src/crumblr/application/live_reader.py:683-686 | the tick cursor never goes back |
| LiveDecision.LiveDecisionWorker.DecideOnce | src/crumblr/application/live_decision.py:332-556 | one cycle is one step of the machine, wherever it dies and whichever save, evaluation or seal raises in a process that lives on |
| LiveDecision.LiveDecisionWorker.RecoverWindow | src/crumblr/application/live_decision.py:560-593 | once per process: restore, start empty, or halt on an unreadable record |
| LiveDecision.LiveDecisionWorker.SaveDecisionWindow | src/crumblr/application/live_decision.py:595-615 | a restart under this configuration recovers exactly the claimed window and the hashes the process knows; other configurations keep their records |
| LiveDecision.OneCapsuleForEveryDecision | src/crumblr/application/live_decision.py:444-556 | a cycle that claims and is not cut off adds exactly one capsule for the claimed window, with the intent's hash if there was one and supervised exactly if the Supervisor decided, or none for want of history; no other cycle adds any |
| LiveDecision.HaltedExactlyWhen | src/crumblr/application/live_decision.py:396-526 | what halts the system in a cycle, in both directions; a failed ledger leaves the bar for the next cycle |
| LiveDecision.NoWindowIsEvaluatedTwice | src/crumblr/application/decision_window.py:140-168 | across crashes, exceptions after any step and restarts under any configuration, with readable records: open times strictly increase and every supervised capsule's hash is durable for ever |
| LiveDecision.EvaluationsAreClaimedFirst | src/crumblr/application/live_decision.py:437-444 | an evaluation happens only after its own window is durable |
| LiveDecision.NoWindowTwiceIfClaimsAreLater | src/crumblr/application/live_decision.py:362-444 | with unreadable records too, no window is evaluated twice as long as each claimed bar is later than its configuration's durable record |
| LiveDecision.NoWindowTwiceExactlyWhenClaimsAreLater | src/crumblr/application/live_decision.py:362-444 | and, if no process dies between claiming and evaluating, exactly then |
| LiveDecision.HashesStayDurableIfKept | src/crumblr/application/live_decision.py:595-615 | with unreadable records too, every supervised hash stays durable as long as no claim overwrites a hash that its process does not know |
| LiveDecision.HashesDurableThroughoutExactlyWhenKept | src/crumblr/application/live_decision.py:595-615 | and, if no cycle is cut off between its supervisor decision and its capsule, exactly then |
| LiveDecision.BlindClaimLosesHashesExactlyWhen | src/crumblr/application/live_decision.py:560-593 | from an unreadable record a cycle loses durable hashes exactly when it claims a window over hashes other than the one it saves itself |
| LiveDecision.UnreadableRecordHaltsButEvaluates | src/crumblr/application/decision_window.py:151-158 | an unreadable record leaves the system halted, and any bar with a working ledger is claimed all the same |
| LiveDecision.UnreadableRecordCanRepeatAWindow | src/crumblr/application/live_decision.py:560-593 | a run that evaluates one window twice, halted |
| LiveDecision.UnreadableRecordLosesHashes | src/crumblr/application/live_decision.py:560-593 | for every later bar a run that repeats no window and loses the hash of a sealed supervised capsule |
| Replay.ReplayOrchestrator.ProcessWindow | src/crumblr/application/orchestration.py:304-446 | counts, seals and signals one window, and hands the two rolling counts to Risk and the Supervisor |
| Replay.ReplayOrchestrator.Execute | src/crumblr/application/orchestration.py:448-529 | a refused pre-flight is counted; only a fill enters and trims the order window |
| Replay.ReplayOrchestrator.TrimWindow | src/crumblr/application/orchestration.py:874-877 | drops entries from the front while they are more than an hour old |
| Replay.TallyFromCapsules | src/crumblr/application/reconstruction.py:48-108 | the two recounting loops compute the recount |
| Replay.RecountEqualsLiveTally | src/crumblr/application/reconstruction.py:48-108 | the recount equals the live tally on every decision counter and reason map, on no-trade reasons exactly when no snapshot is shared |
| Replay.SharedSnapshotMisattributesReasons | src/crumblr/application/reconstruction.py:48-108 | the recount takes the reasons of a proposal under a shared snapshot for no-trade reasons |
| Replay.DistinctSnapshotsRecountExactly | src/crumblr/application/reconstruction.py:48-108 | with distinct snapshot ids the recount is exact |
| Replay.TalliesConserve | src/crumblr/application/orchestration.py:304-446 | windows = unavailable + no-trade + intents, and every stage hands on exactly what it passed |
| Replay.CountersMeanWhatTheySay | src/crumblr/application/orchestration.py:774-832 | every counter is the number of windows with the fate in its name and every reason map the reasons its author gave |
| Replay.SupervisorCountIsExact | src/crumblr/application/orchestration.py:375-376 | for nondecreasing times the count given to the Supervisor is the number of intents in the last hour |
| Replay.RiskCountNeverBelow | src/crumblr/application/orchestration.py:527-545 | the count given to Risk is never below the orders in the last hour, and equal exactly when the oldest kept order is at most an hour old |
| CloseWindow.ResolveIsolatedCloseWindow | scripts/export_crumblr_trade_to_trainer.py:139-251 | succeeds exactly when the newest snapshot with the ticket holds only it, the next snapshot is flat and no other order filled strictly between; otherwise names the check that failed |
| CloseWindow.TheCloseIsRealExactlyWhen | src/crumblr/application/broker_state.py:94-145 | of every reported close the open end is true, and the closing end false exactly when that read failed with something open |
| CloseWindow.FailedReadLooksLikeAClose | src/crumblr/application/broker_state.py:174-182 | a trade still open is exported as closed when the next read fails |
| CanonicalDecimal.SameStringExactlyWhenSameNumber | src/crumblr/agent_gateway/static_agent_transport.py:90-98 | two finite decimals print alike exactly when they are the same number, the sign of zero apart |
| CanonicalDecimal.ParseReturnsTheNumber | src/crumblr/agent_gateway/static_agent_transport.py:90-98 | parsing the printed string returns the number in normal form |

## Left out

- Risk policies, sizing, the kill-switch store, `reconcile`, trading calendars and strategy evaluation: oracles, since any answer is allowed for.
- PostgreSQL internals: the stores are taken at their key constraints (one claim per id, one row per id and kind, one consumption per permit).
- HTTP transports, MT5 calls, credential salting, UUID and SHA computation: replaced by injective functions of what they are computed from.
- Timestamps, reason codes and free-text details of execution and flatten events: no later pass reads them back, so events carry only the keys that are read.
- Protective-stop verification during reconciliation and the stop prices it compares: it may trip the switch and add a list to the row, but decides nothing about the row.
- Close side, volume and prices of flatten instructions: an instruction is its ticket here; the plan's one-to-one derivation from positions is kept.
- Flatten liveness: a crash between a flatten claim and its first event leaves that day untouched, so only safety is stated.
- Flatten and the decision worker with several concurrent workers: both are stated for one worker at a time.
- ExecutionPasses.ExecutionOrchestrator.RecoverAmbiguousSubmission: states the outcome for a book that does not move during the pass; a moving book is covered by RecoveryReads.FalseOverAFillExactlyWhenFilledSinceTheFirstRead.
- Replay.RecountEqualsLiveTally: speaks of the records as lists, as the in-memory journal holds them; the durable stores key capsules and signals by snapshot id and would merge those that share one.
- Kill-switch trips inside one capsule's FINAL Risk (a risk session that cannot be locked or must halt): the refusal that follows is a no of FINAL Risk here; the trip itself is not part of the execution model.
- Exceptions that the reader does not handle, such as an account-guard failure during a read: they end the process, and the model does not restart it.
- Broker-state capture, instrument-spec recording and the health fields only a dashboard reads.
- Market-universe routing: one worker, one symbol; the cross-market assertions would only add easy members.
- Risk-session recovery inside the decision cycle: the lock, recover and persist block is one answer that may fail, and the loss and session gates after it one answer that may halt.
- Decimal arithmetic of prices and profits: prices are reals where only comparisons matter.
- Configuration loading, command lines, reports, dashboards, migrations beyond key constraints, the reference supervisor and supervisor review.
