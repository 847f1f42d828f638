/**
 * InvariantChecker.check: a trace that did not complete is not checked;
 * otherwise the findings of the eleven checks are concatenated in a fixed order.
 */
module InvariantChecker {
  import opened Atg
  import opened Violations
  import opened Traces
  import opened ScoreChecks
  import opened HandChecks
  import opened SupplyChecks
  import opened DecisionChecks
  import opened PhaseChecks
  import opened EventChecks

  /** Checks 1 to 11 in order; check 5 never reports anything. */
  function CompletedViolations(cat: Catalog, trace: GameTrace): seq<Violation>
    requires trace.CompletedSuccessfully()
  {
    var results := trace.result.value.playerResults;
    var g := trace.gameIndex;
    ScoreViolations(cat, results, g)
    + SortViolations(results, g)
    + HandViolations(cat, trace.playerDecisions, g)
    + InitialSupplyViolations(cat, trace)
    + []
    + LegalDecisionViolations(cat, trace.playerDecisions, g)
    + PhaseViolations(trace.playerDecisions, g)
    + EndTurnViolations(trace.observerEvents, g)
    + ConservationViolations(cat, trace)
    + DepletionViolations(cat, trace.observerEvents, g)
    + LifecycleViolations(trace.observerEvents, g)
  }

  function AllViolations(cat: Catalog, trace: GameTrace): seq<Violation> {
    if trace.CompletedSuccessfully() then CompletedViolations(cat, trace) else []
  }

  method Check(cat: Catalog, trace: GameTrace) returns (violations: seq<Violation>)
    ensures violations == AllViolations(cat, trace)
  {
    violations := [];
    if !trace.CompletedSuccessfully() {
      return;
    }
    var results := trace.result.value.playerResults;
    var g := trace.gameIndex;
    var v1 := CheckScoreCalculation(cat, trace);
    var v2 := CheckResultsSorted(trace);
    var v3 := CheckStartingHands(cat, trace);
    var v4 := CheckInitialSupply(cat, trace);
    var v5 := CheckGameTermination(trace);
    var v6 := CheckLegalDecisionsOffered(cat, trace);
    var v7 := CheckPhaseOrdering(trace);
    var v8 := CheckEndTurnEvents(trace);
    var v9 := CheckCardConservation(cat, trace);
    var v10 := CheckSupplyDepletion(cat, trace);
    var v11 := CheckLifecycleEvents(trace);
    violations := v1 + v2 + v3 + v4 + v5 + v6 + v7 + v8 + v9 + v10 + v11;
  }

  /** A game that threw, or produced no result, yields no findings at all. */
  lemma IncompleteTraceClean(cat: Catalog, trace: GameTrace)
    ensures trace.exception.Some? ==> AllViolations(cat, trace) == []
    ensures trace.result.None? ==> AllViolations(cat, trace) == []
  {
    FailedTraceNotCompleted(trace);
  }

  /** A completed game is clean exactly when each of the ten reporting checks is. */
  lemma CleanIffEachCheckClean(cat: Catalog, trace: GameTrace)
    requires trace.CompletedSuccessfully()
    ensures AllViolations(cat, trace) == [] <==>
      var results := trace.result.value.playerResults;
      var g := trace.gameIndex;
      && ScoreViolations(cat, results, g) == []
      && SortViolations(results, g) == []
      && HandViolations(cat, trace.playerDecisions, g) == []
      && InitialSupplyViolations(cat, trace) == []
      && LegalDecisionViolations(cat, trace.playerDecisions, g) == []
      && PhaseViolations(trace.playerDecisions, g) == []
      && EndTurnViolations(trace.observerEvents, g) == []
      && ConservationViolations(cat, trace) == []
      && DepletionViolations(cat, trace.observerEvents, g) == []
      && LifecycleViolations(trace.observerEvents, g) == []
  {
  }

  predicate OfGame(vs: seq<Violation>, gameIndex: int) {
    forall v :: v in vs ==> v.gameIndex == gameIndex
  }

  lemma OfGameAppend(a: seq<Violation>, b: seq<Violation>, gameIndex: int)
    requires OfGame(a, gameIndex) && OfGame(b, gameIndex)
    ensures OfGame(a + b, gameIndex)
  {
  }

  /** Every finding about a game carries that game's index. */
  lemma FindingsCarryGameIndex(cat: Catalog, trace: GameTrace)
    ensures OfGame(AllViolations(cat, trace), trace.gameIndex)
  {
    if trace.CompletedSuccessfully() {
      var results := trace.result.value.playerResults;
      var g := trace.gameIndex;
      var v1 := ScoreViolations(cat, results, g);
      var v2 := SortViolations(results, g);
      var v3 := HandViolations(cat, trace.playerDecisions, g);
      var v4 := InitialSupplyViolations(cat, trace);
      var v6 := LegalDecisionViolations(cat, trace.playerDecisions, g);
      var v7 := PhaseViolations(trace.playerDecisions, g);
      var v8 := EndTurnViolations(trace.observerEvents, g);
      var v9 := ConservationViolations(cat, trace);
      var v10 := DepletionViolations(cat, trace.observerEvents, g);
      var v11 := LifecycleViolations(trace.observerEvents, g);
      assert OfGame(v1, g) by { ScoreViolationFields(cat, results, g); }
      assert OfGame(v2, g) by { SortViolationFields(results, |results|, g); }
      assert OfGame(v3, g) by { HandViolationShape(cat, trace.playerDecisions, g); }
      assert OfGame(v4, g) by { InitialSupplyFields(cat, trace); }
      assert OfGame(v6, g) by { LegalDecisionFields(cat, trace.playerDecisions, g); }
      assert OfGame(v7, g) by { PhaseViolationFields(trace.playerDecisions, g); }
      assert OfGame(v9, g) by { ConservationIff(cat, trace); }
      assert OfGame(v10, g) by { DepletionCount(cat, trace.observerEvents, g); }
      assert OfGame(v11, g) by { LifecycleCount(trace.observerEvents, g); }
      OfGameAppend(v1, v2, g);
      OfGameAppend(v1 + v2, v3, g);
      OfGameAppend(v1 + v2 + v3, v4, g);
      OfGameAppend(v1 + v2 + v3 + v4, [], g);
      OfGameAppend(v1 + v2 + v3 + v4 + [], v6, g);
      OfGameAppend(v1 + v2 + v3 + v4 + [] + v6, v7, g);
      OfGameAppend(v1 + v2 + v3 + v4 + [] + v6 + v7, v8, g);
      OfGameAppend(v1 + v2 + v3 + v4 + [] + v6 + v7 + v8, v9, g);
      OfGameAppend(v1 + v2 + v3 + v4 + [] + v6 + v7 + v8 + v9, v10, g);
      OfGameAppend(v1 + v2 + v3 + v4 + [] + v6 + v7 + v8 + v9 + v10, v11, g);
    }
  }

  /**
   * When the lifecycle check is clean there is exactly one GameStartEvent, so
   * the initial-supply check (first start event) and the conservation check
   * (last start event) read the same one.
   */
  lemma LifecycleCleanSameStart(trace: GameTrace)
    requires LifecycleViolations(trace.observerEvents, trace.gameIndex) == []
    ensures FirstOfKind(trace.observerEvents, StartKind).Some?
    ensures FirstOfKind(trace.observerEvents, StartKind) == LastOfKind(trace.observerEvents, StartKind)
    ensures FirstOfKind(trace.observerEvents, EndKind) == LastOfKind(trace.observerEvents, EndKind)
  {
    SingleOccurrence(trace.observerEvents, StartKind);
    SingleOccurrence(trace.observerEvents, EndKind);
  }
}
