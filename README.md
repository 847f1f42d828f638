# ATG engine verifier, modelled in Dafny

The verifier checks that a third-party engine for the ATG deck-building card
game follows the game's rules. It plays a number of games against the engine
with instrumented players, records everything the engine tells the players
and its observer, and then checks each game's trace against eleven
invariants. A final adversarial game checks that the engine rejects a
decision that was never offered. This project models that process and proves
its properties:

- **InvariantChecker** (`invariant_checker.dfy` and the `check_*.dfy` files).
  Each check is an imperative method with its loops. Each method is proved
  equal to a specification function, and lemmas state what that function
  reports: how many findings, when there are none, and which fields each
  finding carries. The checks are:
  1. score calculation;
  2. results sorted;
  3. starting hands;
  4. initial supply;
  5. game termination;
  6. legal decisions offered;
  7. phase ordering;
  8. EndTurnEvent presence;
  9. card conservation;
  10. supply depletion;
  11. lifecycle events.
- **Violation**, **GameTrace** and **VerificationResult** (`violation.dfy`,
  `trace.dfy`, `report.dfy`). They are datatypes. `toString` and
  `formatReport` are methods that build text step by step, each proved equal
  to a rendering function. Lemmas state what a reader can learn from the
  text, for example that `", Turn "` appears exactly when the turn is
  non-negative.
- **The strategies** BigMoney, ActionHeavy, Passive and RandomLegal
  (`big_money.dfy`, `action_heavy.dfy`, `passive.dfy`,
  `decision_strategy.dfy`, with the shared scans in `scans.dfy`). Each scan
  over the options is a method proved against a function. Each function
  says which option wins, and that it is always one of the offered options.
- **The players** (`players.dfy`). VerifierPlayer, CheatingPlayer and
  ObserverRecorder are classes whose methods update their decision log,
  call counter or event list.
- **VerifierHarness** (`harness.dfy`):
  - `createPlayers` is a method returning fresh players;
  - `runGame` and `runViolationTest` replay the engine against the real
    player objects;
  - `verify` loops over the games and is proved equal to the
    VerificationResult it must return;
  - lemmas give its game and pass counts, when the result is compliant, and
    which game each finding belongs to.

The engine under test is not code the verifier owns. It is modelled as a
script, an `EngineRun`: the decisions the engine asks of each seat and the
notifications it sends to the observer, in order, and how `play()` ends:
with a result, with null, or with an exception. Replaying the script against
the players adds one assumption about the engine. If a strategy is asked to
choose from an empty option list, the strategy throws. The model assumes the
engine lets that exception propagate, so `play()` ends with it and the rest
of the script is not played (see "## Left out").

The card catalog, that is `Card.Type.values()` and each type's cost, value,
category and description, belongs to the game library. It is a parameter of
every check (`Atg.Catalog`). Seven basic card types are named explicitly
because the checks name them.

Java `Map<String, List<DecisionRecord>>` values are LinkedHashMaps. They are
modelled as a sequence of `(name, records)` entries in insertion order.
`Traces.Put` models `put`.

## Model

| member | source | states |
|---|---|---|
| InvariantChecker.Check | src/main/java/edu/brandeis/cosi103a/verifier/InvariantChecker.java:23-40 | returns exactly the findings of the eleven checks, concatenated in the order check runs them, for a completed trace, and nothing otherwise |
| InvariantChecker.IncompleteTraceClean | src/main/java/edu/brandeis/cosi103a/verifier/InvariantChecker.java:25-27 | a trace that carries an exception or lacks a result yields no finding |
| InvariantChecker.CleanIffEachCheckClean | src/main/java/edu/brandeis/cosi103a/verifier/InvariantChecker.java:28-39 | a completed trace has no finding exactly when each of the ten reporting checks has none |
| InvariantChecker.FindingsCarryGameIndex | src/main/java/edu/brandeis/cosi103a/verifier/InvariantChecker.java:23-40 | every finding of a trace carries that trace's game index |
| InvariantChecker.LifecycleCleanSameStart | src/main/java/edu/brandeis/cosi103a/verifier/InvariantChecker.java:122-128 | when the lifecycle check is clean, the first GameStartEvent (used by check 4) is the last one (used by check 9), and likewise for GameEndEvent |
| ScoreChecks.CheckScoreCalculation | src/main/java/edu/brandeis/cosi103a/verifier/InvariantChecker.java:47-64 | the two nested loops yield the score findings: one per player, in result order, whose victory-card sum differs from the reported score |
| ScoreChecks.ScoreViolationCount | src/main/java/edu/brandeis/cosi103a/verifier/InvariantChecker.java:49-61 | there are as many score findings as players whose reported score differs from the sum, and none exactly when every score matches |
| ScoreChecks.ScoreViolationFields | src/main/java/edu/brandeis/cosi103a/verifier/InvariantChecker.java:57-60 | every score finding is game-wide: check name, game index, turn -1, no player, no context |
| ScoreChecks.CheckResultsSorted | src/main/java/edu/brandeis/cosi103a/verifier/InvariantChecker.java:69-82 | the loop over adjacent pairs yields the ordering findings for pairs (i-1, i) with 1 <= i, in order |
| ScoreChecks.SortViolationCount | src/main/java/edu/brandeis/cosi103a/verifier/InvariantChecker.java:72-79 | one ordering finding per adjacent pair whose later score is higher |
| ScoreChecks.SortedIffNoViolations | src/main/java/edu/brandeis/cosi103a/verifier/InvariantChecker.java:69-82 | no ordering finding exactly when scores never increase along the whole ranking (every pair, not only adjacent ones) |
| ScoreChecks.SortViolationFields | src/main/java/edu/brandeis/cosi103a/verifier/InvariantChecker.java:74-78 | every ordering finding is game-wide |
| HandChecks.FirstForeign | src/main/java/edu/brandeis/cosi103a/verifier/InvariantChecker.java:95-103 | the scan stops at the first card that is neither Bitcoin nor Method, or reports that there is none |
| HandChecks.FindForeign | src/main/java/edu/brandeis/cosi103a/verifier/InvariantChecker.java:95-103 | the loop with break finds the index FirstForeign describes |
| HandChecks.CheckStartingHands | src/main/java/edu/brandeis/cosi103a/verifier/InvariantChecker.java:87-115 | yields, per player in map order, at most one finding for the unplayed and one for the played cards of the first recorded hand |
| HandChecks.HandViolationsEmpty | src/main/java/edu/brandeis/cosi103a/verifier/InvariantChecker.java:87-115 | no finding exactly when every player's first recorded hand (if any) holds only Bitcoin and Method |
| HandChecks.HandViolationShape | src/main/java/edu/brandeis/cosi103a/verifier/InvariantChecker.java:92-112 | at most two findings per player; each has turn 0, the check name, the game index and the name of a logged player |
| SupplyChecks.FindFirstStart | src/main/java/edu/brandeis/cosi103a/verifier/InvariantChecker.java:122-129 | finds the first GameStartEvent, or none |
| SupplyChecks.CheckBasics | src/main/java/edu/brandeis/cosi103a/verifier/InvariantChecker.java:135-152 | compares the seven basic stacks against 60, 40, 30, 14, 8, 8 and 10 per player, in that order |
| SupplyChecks.BasicSupplyIff | src/main/java/edu/brandeis/cosi103a/verifier/InvariantChecker.java:135-152 | no basic-stack finding exactly when all seven counts are as expected; at most seven findings |
| SupplyChecks.CheckActionStacks | src/main/java/edu/brandeis/cosi103a/verifier/InvariantChecker.java:157-170 | reports each stocked action stack that does not hold 10, and counts the stocked action types |
| SupplyChecks.ActionSupplyIff | src/main/java/edu/brandeis/cosi103a/verifier/InvariantChecker.java:158-170 | no action-stack finding exactly when every stocked action type holds 10 |
| SupplyChecks.ActionTypesCounted | src/main/java/edu/brandeis/cosi103a/verifier/InvariantChecker.java:157-162 | the counter equals the number of catalog positions holding a stocked action type |
| SupplyChecks.CheckInitialSupply | src/main/java/edu/brandeis/cosi103a/verifier/InvariantChecker.java:120-178 | yields the findings for the first start event's supply, and none when there is no start event |
| SupplyChecks.InitialSupplyIff | src/main/java/edu/brandeis/cosi103a/verifier/InvariantChecker.java:120-178 | no finding without a start event; otherwise none exactly when the basics are as expected, every stocked action holds 10 and at least 10 action types are stocked |
| SupplyChecks.InitialSupplyFields | src/main/java/edu/brandeis/cosi103a/verifier/InvariantChecker.java:147-174 | every initial-supply finding is game-wide |
| EventChecks.CheckGameTermination | src/main/java/edu/brandeis/cosi103a/verifier/InvariantChecker.java:185-199 | the check never reports anything, whether or not a GameEndEvent exists |
| DecisionChecks.CheckOption | src/main/java/edu/brandeis/cosi103a/verifier/InvariantChecker.java:212-239 | yields the findings for one offered option in the order the source tests them |
| DecisionChecks.OptionViolationCount | src/main/java/edu/brandeis/cosi103a/verifier/InvariantChecker.java:212-239 | a Buy yields one finding if unaffordable plus one if its stack is empty; a PlayCard of an action card in the ACTION phase yields one if no action is left; anything else yields none; none exactly when the option is legal |
| DecisionChecks.CheckRecord | src/main/java/edu/brandeis/cosi103a/verifier/InvariantChecker.java:209-241 | yields the findings of every option of one record, in option order |
| DecisionChecks.RecordViolationBound | src/main/java/edu/brandeis/cosi103a/verifier/InvariantChecker.java:211-240 | a record yields at most two findings per option |
| DecisionChecks.CheckLog | src/main/java/edu/brandeis/cosi103a/verifier/InvariantChecker.java:207-242 | yields the findings of every record of one player, in record order |
| DecisionChecks.CheckLegalDecisionsOffered | src/main/java/edu/brandeis/cosi103a/verifier/InvariantChecker.java:204-244 | yields the findings of every player's log, in map order |
| DecisionChecks.LegalDecisionsIff | src/main/java/edu/brandeis/cosi103a/verifier/InvariantChecker.java:204-244 | no finding exactly when every option offered to every player was legal in the state it was offered in |
| DecisionChecks.LegalDecisionFields | src/main/java/edu/brandeis/cosi103a/verifier/InvariantChecker.java:215-237 | every finding has turn 0 (the turn estimate never changes), the check name, the game index and a logged player's name |
| PhaseChecks.MainPhaseOrdinal | src/main/java/edu/brandeis/cosi103a/verifier/InvariantChecker.java:420-428 | the ordinal lies in -1..3 and is -1 exactly for the REACTION, GAIN and DISCARD sub-phases |
| PhaseChecks.OrdinalNameRoundTrip | src/main/java/edu/brandeis/cosi103a/verifier/InvariantChecker.java:430-438 | naming a main phase's ordinal gives that phase's name and a sub-phase's gives UNKNOWN; distinct main phases have distinct ordinals |
| PhaseChecks.MainPhaseNameFromOrdinal | src/main/java/edu/brandeis/cosi103a/verifier/InvariantChecker.java:430-438 | the name is UNKNOWN exactly for an ordinal outside 0..3 |
| PhaseChecks.PhaseStep | src/main/java/edu/brandeis/cosi103a/verifier/InvariantChecker.java:260-277 | one record adds at most one finding and keeps earlier ones as a prefix, moves the turn counter by at most one, and a reporting step changes neither ordinal nor turn |
| PhaseChecks.CheckPlayerPhases | src/main/java/edu/brandeis/cosi103a/verifier/InvariantChecker.java:256-278 | the loop over one player's records yields the findings of the phase state machine PhaseRun |
| PhaseChecks.PhaseRun | src/main/java/edu/brandeis/cosi103a/verifier/InvariantChecker.java:256-278 | the machine's ordinal stays in -1..3 and its turn counter never exceeds the number of records |
| PhaseChecks.SubPhaseTransparent | src/main/java/edu/brandeis/cosi103a/verifier/InvariantChecker.java:262 | a sub-phase record leaves the machine unchanged |
| PhaseChecks.PhaseStepCases | src/main/java/edu/brandeis/cosi103a/verifier/InvariantChecker.java:264-277 | a forward step is accepted, a return to ACTION starts the next turn, any other backward step is reported and leaves ordinal and turn unchanged |
| PhaseChecks.PhaseRunClean | src/main/java/edu/brandeis/cosi103a/verifier/InvariantChecker.java:259-278 | a player's records yield no finding exactly when every step between consecutive main phases is forward or a return to ACTION |
| PhaseChecks.PhaseRunFields | src/main/java/edu/brandeis/cosi103a/verifier/InvariantChecker.java:271-273 | every finding names the check, the game and the player, with a turn no greater than the number of records |
| PhaseChecks.CheckPhaseOrdering | src/main/java/edu/brandeis/cosi103a/verifier/InvariantChecker.java:250-281 | yields the findings of every player's records, in map order |
| PhaseChecks.PhaseViolationsEmpty | src/main/java/edu/brandeis/cosi103a/verifier/InvariantChecker.java:250-281 | no finding exactly when every player's main phases are well ordered |
| PhaseChecks.PhaseViolationFields | src/main/java/edu/brandeis/cosi103a/verifier/InvariantChecker.java:271-273 | every finding carries the game index and the name of a logged player |
| EventChecks.CheckEndTurnEvents | src/main/java/edu/brandeis/cosi103a/verifier/InvariantChecker.java:286-301 | the scan with break yields the EndTurnEvent finding EndTurnViolations describes |
| EventChecks.EndTurnIff | src/main/java/edu/brandeis/cosi103a/verifier/InvariantChecker.java:288-299 | at most one finding, present exactly when the event stream is non-empty and holds no EndTurnEvent |
| EventChecks.LastOfKind | src/main/java/edu/brandeis/cosi103a/verifier/InvariantChecker.java:314-317 | the overwriting scan ends on the last event of a kind, or on none |
| SupplyChecks.FindLastStartEnd | src/main/java/edu/brandeis/cosi103a/verifier/InvariantChecker.java:312-318 | finds the last GameStartEvent and the last GameEndEvent |
| SupplyChecks.SumSupply | src/main/java/edu/brandeis/cosi103a/verifier/InvariantChecker.java:321-324 | sums the stacks of every catalog type |
| SupplyChecks.SumDecks | src/main/java/edu/brandeis/cosi103a/verifier/InvariantChecker.java:327-330 | sums the sizes of the ending decks |
| SupplyChecks.CountTrashEvents | src/main/java/edu/brandeis/cosi103a/verifier/InvariantChecker.java:334-337 | the counter is the number of TrashCardEvents |
| SupplyChecks.CheckCardConservation | src/main/java/edu/brandeis/cosi103a/verifier/InvariantChecker.java:309-359 | yields the conservation finding for the last start and end events, and none when either is missing |
| SupplyChecks.ConservationVerdictShape | src/main/java/edu/brandeis/cosi103a/verifier/InvariantChecker.java:340-357 | the three-way comparison yields at most one game-wide finding, present exactly when the totals differ |
| SupplyChecks.ConservationIff | src/main/java/edu/brandeis/cosi103a/verifier/InvariantChecker.java:309-359 | at most one game-wide finding, absent exactly when a start or end event is missing or the initial and final totals agree |
| EventChecks.NextSnapshot | src/main/java/edu/brandeis/cosi103a/verifier/InvariantChecker.java:373-375 | the inner scan finds the first later event that carries a state, or none |
| EventChecks.CheckGainAt | src/main/java/edu/brandeis/cosi103a/verifier/InvariantChecker.java:371-388 | one outer iteration yields the depletion finding for event i |
| EventChecks.DepletionAtShape | src/main/java/edu/brandeis/cosi103a/verifier/InvariantChecker.java:371-388 | event i yields one game-wide finding exactly when it is a gain and the count of the gained type rises at the next state-carrying event |
| EventChecks.CheckSupplyDepletion | src/main/java/edu/brandeis/cosi103a/verifier/InvariantChecker.java:365-392 | yields the findings of every event but the last, in order |
| EventChecks.DepletionCount | src/main/java/edu/brandeis/cosi103a/verifier/InvariantChecker.java:365-392 | one game-wide finding per gain that is followed by an increase, and none exactly when no such gain exists |
| EventChecks.CountOfKindIsOccurrences | src/main/java/edu/brandeis/cosi103a/verifier/InvariantChecker.java:399-404 | each counter equals the number of events of its kind |
| EventChecks.CheckLifecycleEvents | src/main/java/edu/brandeis/cosi103a/verifier/InvariantChecker.java:397-416 | yields the findings LifecycleViolations describes |
| EventChecks.LifecycleCount | src/main/java/edu/brandeis/cosi103a/verifier/InvariantChecker.java:405-414 | one finding for a start count other than 1 and one for an end count other than 1; none exactly when both events occur exactly once |
| EventChecks.SingleOccurrence | src/main/java/edu/brandeis/cosi103a/verifier/InvariantChecker.java:397-416 | a kind that occurs exactly once has the same first and last occurrence |
| Violations.NewViolation | src/main/java/edu/brandeis/cosi103a/verifier/Violation.java:21-23 | a game-wide violation: turn -1, no player, no context |
| Violations.NewPlayerViolation | src/main/java/edu/brandeis/cosi103a/verifier/Violation.java:25-27 | a violation for a turn and a player, with no context |
| Violations.ToString | src/main/java/edu/brandeis/cosi103a/verifier/Violation.java:30-39 | the builder produces the text Render describes |
| Violations.RenderStartsWithGame | src/main/java/edu/brandeis/cosi103a/verifier/Violation.java:32 | the text opens with "[Game " and the game index |
| Violations.RenderTurnIff | src/main/java/edu/brandeis/cosi103a/verifier/Violation.java:33 | ", Turn " follows the game index exactly when the turn is non-negative, and is then followed by the turn |
| Violations.RenderPlayerIff | src/main/java/edu/brandeis/cosi103a/verifier/Violation.java:34 | ", Player: " follows the game and turn parts exactly when there is a player, and is then followed by the name and "] " |
| Violations.RenderBody | src/main/java/edu/brandeis/cosi103a/verifier/Violation.java:35-36 | the check name and the description follow the bracketed header |
| Violations.RenderEnding | src/main/java/edu/brandeis/cosi103a/verifier/Violation.java:37 | the text ends with the indented context when there is one, and with the description otherwise |
| Violations.RenderPlain | src/main/java/edu/brandeis/cosi103a/verifier/Violation.java:21-39 | a game-wide violation renders as "[Game g] check: description" |
| Text.IntToStringInjective | src/main/java/edu/brandeis/cosi103a/verifier/Violation.java:32-33 | appending an int is injective: distinct numbers give distinct digits |
| Text.ParseNatToString | src/main/java/edu/brandeis/cosi103a/verifier/Violation.java:32-33 | the digits of a non-negative number read back as that number |
| Text.IntToStringSign | src/main/java/edu/brandeis/cosi103a/verifier/Violation.java:32-33 | the text of a number starts with '-' exactly when the number is negative |
| Traces.FailedTraceNotCompleted | src/main/java/edu/brandeis/cosi103a/verifier/GameTrace.java:22-24 | a trace with an exception, or without a result, is not completed |
| Traces.GameTrace.CompletedSuccessfully | src/main/java/edu/brandeis/cosi103a/verifier/GameTrace.java:22-24 | a trace is completed exactly when it has no exception and has a result |
| Traces.Put | src/main/java/edu/brandeis/cosi103a/verifier/VerifierHarness.java:72-75 | putting a new name appends its entry, as LinkedHashMap.put does; an existing name keeps its position |
| Traces.PutThenLookup | src/main/java/edu/brandeis/cosi103a/verifier/VerifierHarness.java:72-75 | after a put the name maps to the new log and every other name keeps its log; names stay distinct |
| Traces.IndexOfName | src/main/java/edu/brandeis/cosi103a/verifier/VerifierHarness.java:72-75 | finds the position of a name in the insertion-ordered map, or proves it absent |
| Reports.VerificationResult.IsCompliant | src/main/java/edu/brandeis/cosi103a/verifier/VerificationResult.java:13-15 | a result is compliant exactly when its violation list is empty |
| Reports.FormatReport | src/main/java/edu/brandeis/cosi103a/verifier/VerificationResult.java:20-41 | the builder produces the text Report describes |
| Reports.AppendLines | src/main/java/edu/brandeis/cosi103a/verifier/VerificationResult.java:36-38 | the loop appends one "--- " line per violation, in list order |
| Reports.ReportHeader | src/main/java/edu/brandeis/cosi103a/verifier/VerificationResult.java:22 | the report opens with the engine's name on a line of its own |
| Reports.ReportFailedIff | src/main/java/edu/brandeis/cosi103a/verifier/VerificationResult.java:23-26 | right after "... passed" comes a failure count exactly when some game did not pass |
| Reports.ReportVerdict | src/main/java/edu/brandeis/cosi103a/verifier/VerificationResult.java:30-33 | after "Result: " comes FULLY COMPLIANT exactly when there is no violation, NON-COMPLIANT otherwise |
| Reports.ReportPlural | src/main/java/edu/brandeis/cosi103a/verifier/VerificationResult.java:33-35 | a non-compliant report gives the number of violations, followed by an 's' exactly when it is not one |
| Reports.ViolationLinesInOrder | src/main/java/edu/brandeis/cosi103a/verifier/VerificationResult.java:36-38 | line k of the listing is violation k's rendering, after the lines of the violations before it |
| Reports.ViolationLinesShape | src/main/java/edu/brandeis/cosi103a/verifier/VerificationResult.java:36-38 | the listing is empty exactly when there is no violation, and ends with the last violation's line |
| Scans.FirstWanted | src/main/java/edu/brandeis/cosi103a/verifier/strategies/BigMoneyStrategy.java:27-31 | the scan returns the first option of the wanted kind, or proves there is none |
| Scans.EndPhaseOrFirst | src/main/java/edu/brandeis/cosi103a/verifier/strategies/BigMoneyStrategy.java:65-70 | the first EndPhase option when one is offered, the first option otherwise |
| Scans.FirstWantedOrEnd | src/main/java/edu/brandeis/cosi103a/verifier/strategies/BigMoneyStrategy.java:26-33 | the first wanted option if any, else EndPhaseOrFirst |
| Scans.RunningBest | src/main/java/edu/brandeis/cosi103a/verifier/strategies/BigMoneyStrategy.java:53-61 | the strictly-greater running maximum ends on a candidate with the highest key, ahead of every other candidate with that key |
| Scans.BestOf | src/main/java/edu/brandeis/cosi103a/verifier/strategies/BigMoneyStrategy.java:53-62 | the best candidate exists exactly when some option is a candidate, and is the earliest with the highest key |
| Scans.EarliestBestUnique | src/main/java/edu/brandeis/cosi103a/verifier/strategies/BigMoneyStrategy.java:53-61 | the earliest best candidate is unique, so the scan's tie-break is determined |
| BigMoneyStrategy.FindEndPhaseOrFirst | src/main/java/edu/brandeis/cosi103a/verifier/strategies/BigMoneyStrategy.java:65-70 | the loop returns EndPhaseOrFirst |
| BigMoneyStrategy.PlayMoneyOrEnd | src/main/java/edu/brandeis/cosi103a/verifier/strategies/BigMoneyStrategy.java:26-33 | the loop returns the first money PlayCard, else EndPhaseOrFirst |
| BigMoneyStrategy.BuyBestChoice | src/main/java/edu/brandeis/cosi103a/verifier/strategies/BigMoneyStrategy.java:35-51 | an offered Framework buy wins; else the earliest money buy of highest value; else EndPhaseOrFirst; always an offered option |
| BigMoneyStrategy.BuyBest | src/main/java/edu/brandeis/cosi103a/verifier/strategies/BigMoneyStrategy.java:35-51 | the loop returns BuyBestChoice |
| BigMoneyStrategy.GainChoice | src/main/java/edu/brandeis/cosi103a/verifier/strategies/BigMoneyStrategy.java:53-63 | the earliest gain of highest cost, else the first option; always an offered option |
| BigMoneyStrategy.GainHighestCost | src/main/java/edu/brandeis/cosi103a/verifier/strategies/BigMoneyStrategy.java:53-63 | the loop returns GainChoice |
| BigMoneyStrategy.Choice | src/main/java/edu/brandeis/cosi103a/verifier/strategies/BigMoneyStrategy.java:17-24 | the per-phase dispatch always returns an offered option |
| BigMoneyStrategy.Choose | src/main/java/edu/brandeis/cosi103a/verifier/strategies/BigMoneyStrategy.java:17-24 | returns Choice |
| ActionHeavyStrategy.PlayActionOrEnd | src/main/java/edu/brandeis/cosi103a/verifier/strategies/ActionHeavyStrategy.java:29-36 | the loop returns the first action PlayCard, else EndPhaseOrFirst |
| ActionHeavyStrategy.BuyActionChoice | src/main/java/edu/brandeis/cosi103a/verifier/strategies/ActionHeavyStrategy.java:47-63 | the earliest action buy of highest cost wins; else an offered Framework buy; else EndPhaseOrFirst; always an offered option |
| ActionHeavyStrategy.BuyActionOrFramework | src/main/java/edu/brandeis/cosi103a/verifier/strategies/ActionHeavyStrategy.java:47-63 | the loop returns BuyActionChoice |
| ActionHeavyStrategy.DiscardFirst | src/main/java/edu/brandeis/cosi103a/verifier/strategies/ActionHeavyStrategy.java:77-82 | the loop returns the first Discard option, else EndPhaseOrFirst |
| ActionHeavyStrategy.Choice | src/main/java/edu/brandeis/cosi103a/verifier/strategies/ActionHeavyStrategy.java:18-27 | the per-phase dispatch always returns an offered option |
| ActionHeavyStrategy.Choose | src/main/java/edu/brandeis/cosi103a/verifier/strategies/ActionHeavyStrategy.java:18-27 | returns Choice |
| PassiveStrategy.Choice | src/main/java/edu/brandeis/cosi103a/verifier/strategies/PassiveStrategy.java:16-18 | ends the phase when it can, and takes the first option otherwise |
| DecisionStrategy.Choice | src/main/java/edu/brandeis/cosi103a/verifier/DecisionStrategy.java:10-15 | every strategy, RandomLegal included, returns one of the offered options |
| DecisionStrategy.Choose | src/main/java/edu/brandeis/cosi103a/verifier/strategies/RandomLegalStrategy.java:22-25 | dispatches to the strategy's own choose; RandomLegal returns the drawn option |
| Players.VerifierPlayer.constructor | src/main/java/edu/brandeis/cosi103a/verifier/VerifierPlayer.java:24-27 | a player with the given name and strategy and an empty decision log |
| Players.VerifierPlayer.MakeDecision | src/main/java/edu/brandeis/cosi103a/verifier/VerifierPlayer.java:40-44 | returns the strategy's choice, which is offered, and appends exactly one record of state, options, choice and event to the log |
| Players.CheatingAnswer | src/main/java/edu/brandeis/cosi103a/verifier/CheatingPlayer.java:37-45 | the first two calls take the first option; later calls answer Buy(Framework), which is offered only if the engine offered it |
| Players.CheatingPlayer.constructor | src/main/java/edu/brandeis/cosi103a/verifier/CheatingPlayer.java:20-24 | the call counter starts at 0 |
| Players.CheatingPlayer.MakeDecision | src/main/java/edu/brandeis/cosi103a/verifier/CheatingPlayer.java:37-45 | increments the call counter and returns CheatingAnswer for the new count |
| Players.ObserverRecorder.constructor | src/main/java/edu/brandeis/cosi103a/verifier/ObserverRecorder.java:15 | the recorder starts with no event |
| Players.ObserverRecorder.NotifyEvent | src/main/java/edu/brandeis/cosi103a/verifier/ObserverRecorder.java:18-20 | appends exactly one (state, event) entry |
| Harness.Lineup | src/main/java/edu/brandeis/cosi103a/verifier/VerifierHarness.java:106-129 | configuration 2 seats three players, 3 seats four, the others two; names are distinct |
| Harness.LineupStrategies | src/main/java/edu/brandeis/cosi103a/verifier/VerifierHarness.java:107-128 | each configuration uses one strategy except 2, which seats BigMoney, ActionHeavy and Passive; only configuration 3 uses RandomLegal |
| Harness.CreatePlayers | src/main/java/edu/brandeis/cosi103a/verifier/VerifierHarness.java:106-129 | new, distinct players for configuration gameIndex mod 5, each with its name, strategy and an empty log |
| Harness.FirstStuck | src/main/java/edu/brandeis/cosi103a/verifier/VerifierHarness.java:77 | finds the first call a player cannot answer (no option), where play() then throws |
| Harness.Perform | src/main/java/edu/brandeis/cosi103a/verifier/VerifierHarness.java:68-70 | one engine call appends to the recorder or to the asked player's log and to nothing else |
| Harness.AnswerCalls | src/main/java/edu/brandeis/cosi103a/verifier/VerifierHarness.java:70 | replaying the script up to the first stuck call leaves every notification in the recorder and each player's answers in its log |
| Harness.Play | src/main/java/edu/brandeis/cosi103a/verifier/VerifierHarness.java:68-70 | play() ends with the engine's outcome, or with an exception at the first stuck call; the recorder and logs hold what was done until then |
| Harness.CollectLogs | src/main/java/edu/brandeis/cosi103a/verifier/VerifierHarness.java:72-75 | the decisions map holds one entry per player, in seat order |
| Harness.RunGame | src/main/java/edu/brandeis/cosi103a/verifier/VerifierHarness.java:64-84 | the trace holds the game index, the player count, the events and the logs. It has the result when play() returned one, neither result nor exception when play() returned null, and the exception when play() threw |
| Harness.TraceOf | src/main/java/edu/brandeis/cosi103a/verifier/VerifierHarness.java:64-84 | the trace runGame builds: the notifications and logs of the calls played, the returned result (possibly none), and the exception if play() threw |
| Harness.LogsInSeatOrder | src/main/java/edu/brandeis/cosi103a/verifier/VerifierHarness.java:72-75 | entry i of the decisions map is seat i's name with seat i's records |
| Harness.RecordsAreStrategyAnswers | src/main/java/edu/brandeis/cosi103a/verifier/VerifierPlayer.java:40-44 | every logged record is the strategy's answer to a call asked of that seat, and its choice is offered |
| Harness.RecordsCount | src/main/java/edu/brandeis/cosi103a/verifier/VerifierPlayer.java:40-44 | a player's log has one record per decision asked of it |
| Harness.IncompleteGameFails | src/main/java/edu/brandeis/cosi103a/verifier/VerifierHarness.java:70-83 | a game that threw, or whose play() returned null, has no result, is not completed and yields no finding; an exception is stored exactly when it threw |
| Harness.StuckCallEndsGame | src/main/java/edu/brandeis/cosi103a/verifier/VerifierHarness.java:77-83 | a call no strategy can answer ends the game with an exception, and nothing after it is played |
| Harness.FirstCheatStuck | src/main/java/edu/brandeis/cosi103a/verifier/VerifierHarness.java:90-94 | finds the first call of the adversarial game at which a player throws |
| Harness.AdversarialVerdict | src/main/java/edu/brandeis/cosi103a/verifier/VerifierHarness.java:86-104 | a finding exactly when play() returned normally; any exception counts as the engine rejecting the cheat |
| Harness.RunViolationTest | src/main/java/edu/brandeis/cosi103a/verifier/VerifierHarness.java:86-104 | playing the cheater and an honest BigMoney player against the script yields AdversarialVerdict |
| Harness.PlayGame | src/main/java/edu/brandeis/cosi103a/verifier/VerifierHarness.java:40-42 | game i seats configuration i mod 5 and returns that game's trace |
| Harness.CheckGame | src/main/java/edu/brandeis/cosi103a/verifier/VerifierHarness.java:43-47 | game i's findings and whether it passed |
| Harness.PlayNormalGame | src/main/java/edu/brandeis/cosi103a/verifier/VerifierHarness.java:39-51 | one iteration extends the findings and the pass count by game i's |
| Harness.PlayNormalGames | src/main/java/edu/brandeis/cosi103a/verifier/VerifierHarness.java:39-51 | the loop gathers the findings of games 0..n-1 in order and counts the games that passed |
| Harness.Outcomes | src/main/java/edu/brandeis/cosi103a/verifier/VerifierHarness.java:34-62 | the VerificationResult verify returns: numGames + 1 games played, the count of passing normal games plus one if the cheat was rejected, and the findings of games 0..numGames-1 in order followed by the missed-exception finding if any |
| Harness.Verify | src/main/java/edu/brandeis/cosi103a/verifier/VerifierHarness.java:34-62 | returns numGames + 1 games played, the passes of the normal games plus the adversarial game, and every finding with the adversarial one last |
| Harness.VerifyCounts | src/main/java/edu/brandeis/cosi103a/verifier/VerifierHarness.java:45-61 | numGames + 1 games are played, between 0 and numGames + 1 pass, and all pass exactly when every normal game passes and the engine rejected the cheat |
| Harness.VerifyCompliance | src/main/java/edu/brandeis/cosi103a/verifier/VerifierHarness.java:34-62 | the result is compliant exactly when no normal game has a finding and the engine rejected the cheat |
| Harness.GameFindingsIndex | src/main/java/edu/brandeis/cosi103a/verifier/VerifierHarness.java:42-43 | every finding of normal game i carries game index i |
| Harness.NormalFindingsIndices | src/main/java/edu/brandeis/cosi103a/verifier/VerifierHarness.java:39-51 | every finding of the normal games carries an index below numGames |
| Harness.VerifyGameIndices | src/main/java/edu/brandeis/cosi103a/verifier/VerifierHarness.java:39-61 | every finding carries an index in 0..numGames, and the only one with index numGames is the missed-exception finding |

## Left out

- Random choices are left out: the seeded `Random(42)`, the seeds passed to RandomLegalStrategy, and `selectActionTypes`. A RandomLegal player's pick is a parameter of each engine call (`draw`, standing for the value `nextInt(options.size())` returns). The action types chosen for a game belong to the engine script.
- DecisionStrategy.CanChoose: nothing forces a script's `draw` into `0..|options|-1`. A script with a RandomLegal call whose options are non-empty but whose draw is out of range becomes a stuck call that ends the game. `nextInt` cannot produce such a run, so those scripts model no real game.
- `EngineLoader`, `main`, `printVerboseTrace`, the `verbose` flag and process exit codes are left out. They are I/O and reflection; none of them changes the verification result.
- The engine itself is left out, modelled as a script (see above). The model does not decide what an engine does with the cheater's answer beyond the outcome the script gives.
- Harness.RunViolationTest: does not tell PlayerViolationException apart from other exceptions. The source accepts both the same way, so the model keeps only whether `play()` threw.
- `getName`, `getObserver` (always empty) and `getDecisionLog` are plain field reads, used directly as fields.
- Java `int` overflow is not modelled. The sums of checks 1 and 9 and the counters use unbounded integers. With a realistic card count, 32-bit wrap-around cannot occur.
- `null` is modelled where the source tests for it or stores it: the game result (including a `play()` that returns null), the exception, a player name, a context and an event's state. `buyableCards()` is taken to be present whenever the state is.
- Harness.Outcome: assumes that an exception thrown inside a player's `makeDecision` (a strategy given an empty option list, or the cheater's `options.get(0)` on its first two calls) propagates out of `play()`. An engine that catches such an exception and carries on is not modelled. For such an engine the source would record the remaining calls, and in the adversarial game it would return the "did not throw" violation if `play()` then returned normally. The model instead ends the game at that call, with an exception. The same assumption underlies Harness.Play, Harness.StuckCallEndsGame, Harness.FirstCheatStuck and Harness.AdversarialVerdict.
- Atg.Catalog: `types` stands for `Card.Type.values()`, which has no repeats and contains the seven basic types. The model does not require either property. With a repeated type, SupplyChecks.SumSupply counts that stack twice, which the source cannot do. That is why SupplyChecks.ActionTypesCounted speaks of catalog positions rather than types; the two agree for a catalog without repeats.
- The strategies (BigMoneyStrategy.Choice, ActionHeavyStrategy.Choice, PassiveStrategy.Choice, Scans.EndPhaseOrFirst and the others) require a non-empty option list. On an empty list the source throws from `options.get(0)`; the harness models that throw as a stuck call that ends `play()` with an exception (Harness.FirstStuck).
- Harness.CreatePlayers: requires a non-negative game index. The harness only calls it with 0..numGames-1. A negative index would give a negative Java remainder and reach the `IllegalStateException` default, which the model does not include.
- BigMoneyStrategy.BuyBestChoice: the class comment (BigMoneyStrategy.java:13) says Framework is bought "if affordable". The code buys it whenever a Framework buy is offered, with no affordability test, and the model follows the code.
- EventChecks.CheckGameTermination: its ensures is that it reports nothing. That matches the source, which scans for a GameEndEvent and returns an empty list on both paths.
- Description strings are built from the catalog's `description` function and decimal renderings of numbers, matching the source's concatenations. Card-type `description()` text itself belongs to the game library.
