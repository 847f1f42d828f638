/**
 * Checks 4 and 9 of InvariantChecker: the initial supply against the expected
 * formula, and conservation of the total number of cards over the game.
 */
module SupplyChecks {
  import opened Wrappers
  import opened Text
  import opened Seqs
  import opened Atg
  import opened Violations
  import opened Traces
  import opened EventChecks

  // ----- Check 4: initial supply -----

  const InitialSupplyCheck: string := "Initial supply"
  const ShortageText: string := "Expected at least 10 action card types in supply but found "

  /**
   * The basic stacks after the starting hands are dealt, in the order they are
   * checked; Bug scales with the number of players.
   */
  function ExpectedBasics(numPlayers: int): seq<(CardType, int)> {
    [(Bitcoin, 60), (Ethereum, 40), (Dogecoin, 30), (Method, 14), (Module, 8), (Framework, 8), (Bug, 10 * numPlayers)]
  }

  function InitialSupplyViolation(description: string, gameIndex: int): Violation {
    NewViolation(InitialSupplyCheck, description, gameIndex)
  }

  function CountMismatch(cat: Catalog, t: CardType, expected: int, actual: int, gameIndex: int): Violation {
    InitialSupplyViolation(cat.description(t) + ": expected " + IntToString(expected) + " but found " + IntToString(actual), gameIndex)
  }

  function BasicPiece(cat: Catalog, supply: Supply, gameIndex: int): ((CardType, int)) -> seq<Violation> {
    (e: (CardType, int)) => if supply.NumAvailable(e.0) != e.1 then [CountMismatch(cat, e.0, e.1, supply.NumAvailable(e.0), gameIndex)] else []
  }

  function BasicSupplyViolations(cat: Catalog, supply: Supply, numPlayers: int, gameIndex: int): seq<Violation> {
    FlatMap(ExpectedBasics(numPlayers), BasicPiece(cat, supply, gameIndex))
  }

  /** An action type with at least one card on its stack. */
  predicate StockedAction(cat: Catalog, supply: Supply, t: CardType) {
    cat.category(t) == Action && supply.NumAvailable(t) > 0
  }

  function ActionPiece(cat: Catalog, supply: Supply, gameIndex: int): CardType -> seq<Violation> {
    t => if StockedAction(cat, supply, t) && supply.NumAvailable(t) != 10
         then [CountMismatch(cat, t, 10, supply.NumAvailable(t), gameIndex)] else []
  }

  function ActionSupplyViolations(cat: Catalog, supply: Supply, gameIndex: int): seq<Violation> {
    FlatMap(cat.types, ActionPiece(cat, supply, gameIndex))
  }

  /** How many of the listed types are stocked action types. */
  function ActionTypesInSupply(cat: Catalog, types: seq<CardType>, supply: Supply): nat
    decreases |types|
  {
    if types == [] then 0
    else ActionTypesInSupply(cat, types[..|types| - 1], supply)
         + (if StockedAction(cat, supply, types[|types| - 1]) then 1 else 0)
  }

  function ShortageViolations(count: int, gameIndex: int): seq<Violation> {
    if count < 10 then
      [InitialSupplyViolation(ShortageText + IntToString(count), gameIndex)]
    else []
  }

  function SupplyViolations(cat: Catalog, supply: Supply, numPlayers: int, gameIndex: int): seq<Violation> {
    BasicSupplyViolations(cat, supply, numPlayers, gameIndex)
    + ActionSupplyViolations(cat, supply, gameIndex)
    + ShortageViolations(ActionTypesInSupply(cat, cat.types, supply), gameIndex)
  }

  /** The supply of the first GameStartEvent is checked; without one, nothing is. */
  function InitialSupplyViolations(cat: Catalog, trace: GameTrace): seq<Violation> {
    match FirstOfKind(trace.observerEvents, StartKind)
    case None => []
    case Some(k) => SupplyViolations(cat, trace.observerEvents[k].event.initialSupply, trace.numPlayers, trace.gameIndex)
  }

  /** The scan for the first GameStartEvent. */
  method FindFirstStart(events: seq<ObservedEvent>) returns (start: Option<nat>)
    ensures start == FirstOfKind(events, StartKind)
  {
    start := None;
    var i := 0;
    while i < |events|
      invariant 0 <= i <= |events|
      invariant forall j :: 0 <= j < i ==> !events[j].event.GameStartEvent?
    {
      if events[i].event.GameStartEvent? {
        start := Some(i);
        break;
      }
      i := i + 1;
    }
  }

  /** The loop over the seven basic stacks. */
  method CheckBasics(cat: Catalog, supply: Supply, numPlayers: int, g: int) returns (found: seq<Violation>)
    ensures found == BasicSupplyViolations(cat, supply, numPlayers, g)
  {
    found := [];
    var expected := ExpectedBasics(numPlayers);
    for e := 0 to |expected|
      invariant found == FlatMap(expected[..e], BasicPiece(cat, supply, g))
    {
      var actual := supply.NumAvailable(expected[e].0);
      if actual != expected[e].1 {
        found := found + [CountMismatch(cat, expected[e].0, expected[e].1, actual, g)];
      }
      FlatMapSnoc(expected, e, BasicPiece(cat, supply, g));
    }
    assert expected[..|expected|] == expected;
  }

  /** The loop over every card type: stocked action stacks must hold ten, and they are counted. */
  method CheckActionStacks(cat: Catalog, supply: Supply, g: int) returns (found: seq<Violation>, actionTypesInSupply: nat)
    ensures found == ActionSupplyViolations(cat, supply, g)
    ensures actionTypesInSupply == ActionTypesInSupply(cat, cat.types, supply)
  {
    found := [];
    actionTypesInSupply := 0;
    var types := cat.types;
    for t := 0 to |types|
      invariant found == FlatMap(types[..t], ActionPiece(cat, supply, g))
      invariant actionTypesInSupply == ActionTypesInSupply(cat, types[..t], supply)
    {
      var ty := types[t];
      assert types[..t + 1][..t] == types[..t];
      FlatMapSnoc(types, t, ActionPiece(cat, supply, g));
      if cat.category(ty) == Action {
        var count := supply.NumAvailable(ty);
        if count > 0 {
          actionTypesInSupply := actionTypesInSupply + 1;
          if count != 10 {
            found := found + [CountMismatch(cat, ty, 10, count, g)];
          }
        }
      }
    }
    assert types[..|types|] == types;
  }

  method CheckInitialSupply(cat: Catalog, trace: GameTrace) returns (violations: seq<Violation>)
    ensures violations == InitialSupplyViolations(cat, trace)
  {
    violations := [];
    var events := trace.observerEvents;
    var g := trace.gameIndex;
    var startEvent := FindFirstStart(events);
    if startEvent.None? {
      return;
    }
    var supply := events[startEvent.value].event.initialSupply;
    var basics := CheckBasics(cat, supply, trace.numPlayers, g);
    var actions, actionTypesInSupply := CheckActionStacks(cat, supply, g);
    violations := basics + actions;
    if actionTypesInSupply < 10 {
      violations := violations + [InitialSupplyViolation(
        ShortageText + IntToString(actionTypesInSupply), g)];
    }
  }

  /** The basic stacks pass exactly when every one of the seven holds its expected count. */
  predicate BasicsAsExpected(supply: Supply, numPlayers: int) {
    && supply.NumAvailable(Bitcoin) == 60
    && supply.NumAvailable(Ethereum) == 40
    && supply.NumAvailable(Dogecoin) == 30
    && supply.NumAvailable(Method) == 14
    && supply.NumAvailable(Module) == 8
    && supply.NumAvailable(Framework) == 8
    && supply.NumAvailable(Bug) == 10 * numPlayers
  }

  lemma BasicSupplyIff(cat: Catalog, supply: Supply, numPlayers: int, gameIndex: int)
    ensures BasicSupplyViolations(cat, supply, numPlayers, gameIndex) == [] <==> BasicsAsExpected(supply, numPlayers)
    ensures |BasicSupplyViolations(cat, supply, numPlayers, gameIndex)| <= 7
  {
    var f := BasicPiece(cat, supply, gameIndex);
    var ex := ExpectedBasics(numPlayers);
    FlatMapEmpty(ex, f);
    FlatMapBound(ex, f, 1);
    if BasicSupplyViolations(cat, supply, numPlayers, gameIndex) == [] {
      assert f(ex[0]) == [] && f(ex[1]) == [] && f(ex[2]) == [] && f(ex[3]) == [];
      assert f(ex[4]) == [] && f(ex[5]) == [] && f(ex[6]) == [];
    }
  }

  /** Stocked action types other than those holding exactly ten each give one violation. */
  lemma ActionSupplyIff(cat: Catalog, supply: Supply, gameIndex: int)
    ensures ActionSupplyViolations(cat, supply, gameIndex) == []
        <==> forall i :: 0 <= i < |cat.types| && StockedAction(cat, supply, cat.types[i]) ==> supply.NumAvailable(cat.types[i]) == 10
  {
    var f := ActionPiece(cat, supply, gameIndex);
    FlatMapEmpty(cat.types, f);
  }

  ghost function StockedPositions(cat: Catalog, types: seq<CardType>, supply: Supply): set<int> {
    set i | 0 <= i < |types| && StockedAction(cat, supply, types[i])
  }

  /** The counter counts the positions of the type list that hold stocked action types. */
  lemma {:induction false} ActionTypesCounted(cat: Catalog, types: seq<CardType>, supply: Supply)
    ensures ActionTypesInSupply(cat, types, supply) == |StockedPositions(cat, types, supply)|
    decreases |types|
  {
    if types != [] {
      var n := |types| - 1;
      ActionTypesCounted(cat, types[..n], supply);
      if StockedAction(cat, supply, types[n]) {
        assert StockedPositions(cat, types, supply) == StockedPositions(cat, types[..n], supply) + {n};
      } else {
        assert StockedPositions(cat, types, supply) == StockedPositions(cat, types[..n], supply);
      }
    }
  }

  /**
   * The first GameStartEvent's supply passes exactly when the basic stacks
   * match the formula, every stocked action type holds ten cards, and at least
   * ten action types are stocked; with no GameStartEvent nothing is reported.
   */
  lemma InitialSupplyIff(cat: Catalog, trace: GameTrace)
    ensures FirstOfKind(trace.observerEvents, StartKind).None? ==> InitialSupplyViolations(cat, trace) == []
    ensures FirstOfKind(trace.observerEvents, StartKind).Some? ==>
      var supply := trace.observerEvents[FirstOfKind(trace.observerEvents, StartKind).value].event.initialSupply;
      (InitialSupplyViolations(cat, trace) == [] <==>
        && BasicsAsExpected(supply, trace.numPlayers)
        && (forall i :: 0 <= i < |cat.types| && StockedAction(cat, supply, cat.types[i]) ==> supply.NumAvailable(cat.types[i]) == 10)
        && |StockedPositions(cat, cat.types, supply)| >= 10)
  {
    match FirstOfKind(trace.observerEvents, StartKind)
    case None =>
    case Some(k) =>
      var supply := trace.observerEvents[k].event.initialSupply;
      BasicSupplyIff(cat, supply, trace.numPlayers, trace.gameIndex);
      ActionSupplyIff(cat, supply, trace.gameIndex);
      ActionTypesCounted(cat, cat.types, supply);
  }

  /** Every finding about one supply is a game-wide one. */
  lemma SupplyViolationFields(cat: Catalog, supply: Supply, numPlayers: int, gameIndex: int)
    ensures forall v :: v in SupplyViolations(cat, supply, numPlayers, gameIndex) ==> GameWide(v, InitialSupplyCheck, gameIndex)
  {
    var p := (v: Violation) => GameWide(v, InitialSupplyCheck, gameIndex);
    FlatMapAll(ExpectedBasics(numPlayers), BasicPiece(cat, supply, gameIndex), p);
    FlatMapAll(cat.types, ActionPiece(cat, supply, gameIndex), p);
  }

  /** Every initial-supply finding is a game-wide one. */
  lemma InitialSupplyFields(cat: Catalog, trace: GameTrace)
    ensures forall v :: v in InitialSupplyViolations(cat, trace) ==> GameWide(v, InitialSupplyCheck, trace.gameIndex)
  {
    match FirstOfKind(trace.observerEvents, StartKind)
    case None =>
    case Some(k) =>
      SupplyViolationFields(cat, trace.observerEvents[k].event.initialSupply, trace.numPlayers, trace.gameIndex);
  }

  // ----- Check 9: card conservation -----

  const ConservationCheck: string := "Card conservation"
  const AppearedText: string := " — cards appeared (ending decks + final supply + "
  const UntrashedText: string := " with 0 TrashCardEvents — engine may not be firing TrashCardEvents"
  const MismatchText: string := " (ending decks + final supply + "

  /** The cards on all stacks of the listed types. */
  function SupplyTotal(types: seq<CardType>, supply: Supply): int
    decreases |types|
  {
    if types == [] then 0 else SupplyTotal(types[..|types| - 1], supply) + supply.NumAvailable(types[|types| - 1])
  }

  function DeckTotal(results: seq<PlayerResult>): int
    decreases |results|
  {
    if results == [] then 0 else DeckTotal(results[..|results| - 1]) + |results[|results| - 1].endingDeck|
  }

  /** Starting decks (ten cards per player) plus the initial supply. */
  function InitialTotal(cat: Catalog, numPlayers: int, start: Supply): int {
    numPlayers * 10 + SupplyTotal(cat.types, start)
  }

  /** Ending decks plus the final supply plus the trashed cards. */
  function FinalTotal(cat: Catalog, results: seq<PlayerResult>, end: Supply, trashed: int): int {
    DeckTotal(results) + SupplyTotal(cat.types, end) + trashed
  }

  function ConservationVerdict(initialTotal: int, finalTotal: int, trashed: int, gameIndex: int): seq<Violation> {
    if finalTotal > initialTotal then
      [NewViolation(ConservationCheck,
         "Final total " + IntToString(finalTotal) + " > initial total " + IntToString(initialTotal)
           + AppearedText + IntToString(trashed) + " trashed)",
         gameIndex)]
    else if finalTotal < initialTotal && trashed == 0 then
      [NewViolation(ConservationCheck,
         "Initial total " + IntToString(initialTotal) + " > final total " + IntToString(finalTotal)
           + UntrashedText,
         gameIndex)]
    else if finalTotal != initialTotal then
      [NewViolation(ConservationCheck,
         "Initial total " + IntToString(initialTotal) + " != final total " + IntToString(finalTotal)
           + MismatchText + IntToString(trashed) + " trashed)",
         gameIndex)]
    else []
  }

  /** The last GameStartEvent and the last GameEndEvent are compared; without both, nothing is. */
  function ConservationViolations(cat: Catalog, trace: GameTrace): seq<Violation>
    requires trace.result.Some?
  {
    var events := trace.observerEvents;
    match (LastOfKind(events, StartKind), LastOfKind(events, EndKind))
    case (Some(s), Some(e)) =>
      var trashed := CountOfKind(events, TrashKind);
      ConservationVerdict(
        InitialTotal(cat, trace.numPlayers, events[s].event.initialSupply),
        FinalTotal(cat, trace.result.value.playerResults, events[e].event.finalSupply, trashed),
        trashed, trace.gameIndex)
    case _ => []
  }

  method SumSupply(types: seq<CardType>, supply: Supply) returns (total: int)
    ensures total == SupplyTotal(types, supply)
  {
    total := 0;
    for t := 0 to |types|
      invariant total == SupplyTotal(types[..t], supply)
    {
      assert types[..t + 1][..t] == types[..t];
      total := total + supply.NumAvailable(types[t]);
    }
    assert types[..|types|] == types;
  }

  /** The scan that remembers the last GameStartEvent and the last GameEndEvent. */
  method FindLastStartEnd(events: seq<ObservedEvent>) returns (startEvent: Option<nat>, endEvent: Option<nat>)
    ensures startEvent == LastOfKind(events, StartKind)
    ensures endEvent == LastOfKind(events, EndKind)
  {
    startEvent := None;
    endEvent := None;
    for i := 0 to |events|
      invariant startEvent == LastOfKind(events[..i], StartKind)
      invariant endEvent == LastOfKind(events[..i], EndKind)
    {
      assert events[..i + 1][..i] == events[..i];
      if events[i].event.GameStartEvent? {
        startEvent := Some(i);
      }
      if events[i].event.GameEndEvent? {
        endEvent := Some(i);
      }
    }
    assert events[..|events|] == events;
  }

  method SumDecks(results: seq<PlayerResult>) returns (total: int)
    ensures total == DeckTotal(results)
  {
    total := 0;
    for r := 0 to |results|
      invariant total == DeckTotal(results[..r])
    {
      assert results[..r + 1][..r] == results[..r];
      total := total + |results[r].endingDeck|;
    }
    assert results[..|results|] == results;
  }

  method CountTrashEvents(events: seq<ObservedEvent>) returns (trashed: nat)
    ensures trashed == CountOfKind(events, TrashKind)
  {
    trashed := 0;
    for i := 0 to |events|
      invariant trashed == CountOfKind(events[..i], TrashKind)
    {
      assert events[..i + 1][..i] == events[..i];
      if events[i].event.TrashCardEvent? {
        trashed := trashed + 1;
      }
    }
    assert events[..|events|] == events;
  }

  method CheckCardConservation(cat: Catalog, trace: GameTrace) returns (violations: seq<Violation>)
    requires trace.result.Some?
    ensures violations == ConservationViolations(cat, trace)
  {
    violations := [];
    var events := trace.observerEvents;
    var startEvent, endEvent := FindLastStartEnd(events);
    if startEvent.None? || endEvent.None? {
      return;
    }
    var supplyTotal := SumSupply(cat.types, events[startEvent.value].event.initialSupply);
    var initialTotal := trace.numPlayers * 10 + supplyTotal;
    var finalTotal := SumDecks(trace.result.value.playerResults);
    var endSupply := SumSupply(cat.types, events[endEvent.value].event.finalSupply);
    finalTotal := finalTotal + endSupply;
    var trashedCount := CountTrashEvents(events);
    finalTotal := finalTotal + trashedCount;
    violations := ConservationVerdict(initialTotal, finalTotal, trashedCount, trace.gameIndex);
  }

  /** At most one finding, game-wide, and none exactly when the totals agree. */
  lemma ConservationVerdictShape(initialTotal: int, finalTotal: int, trashed: int, gameIndex: int)
    ensures |ConservationVerdict(initialTotal, finalTotal, trashed, gameIndex)| <= 1
    ensures forall v :: v in ConservationVerdict(initialTotal, finalTotal, trashed, gameIndex) ==> GameWide(v, ConservationCheck, gameIndex)
    ensures ConservationVerdict(initialTotal, finalTotal, trashed, gameIndex) == [] <==> initialTotal == finalTotal
  {
  }

  /**
   * At most one conservation finding; none exactly when a start or an end
   * event is missing or the two totals agree.
   */
  lemma ConservationIff(cat: Catalog, trace: GameTrace)
    requires trace.result.Some?
    ensures |ConservationViolations(cat, trace)| <= 1
    ensures forall v :: v in ConservationViolations(cat, trace) ==> GameWide(v, ConservationCheck, trace.gameIndex)
    ensures ConservationViolations(cat, trace) == []
        <==> var events := trace.observerEvents;
             LastOfKind(events, StartKind).None? || LastOfKind(events, EndKind).None?
             || InitialTotal(cat, trace.numPlayers, events[LastOfKind(events, StartKind).value].event.initialSupply)
                == FinalTotal(cat, trace.result.value.playerResults, events[LastOfKind(events, EndKind).value].event.finalSupply,
                              CountOfKind(events, TrashKind))
  {
    var events := trace.observerEvents;
    match (LastOfKind(events, StartKind), LastOfKind(events, EndKind))
    case (Some(s), Some(e)) =>
      var trashed := CountOfKind(events, TrashKind);
      ConservationVerdictShape(
        InitialTotal(cat, trace.numPlayers, events[s].event.initialSupply),
        FinalTotal(cat, trace.result.value.playerResults, events[e].event.finalSupply, trashed),
        trashed, trace.gameIndex);
    case _ =>
  }
}
