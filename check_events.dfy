/**
 * The event-stream checks of InvariantChecker: game termination (5), EndTurn
 * presence (8), supply depletion (10) and lifecycle cardinality (11), with the
 * scans over observed events that checks 4 and 9 share.
 */
module EventChecks {
  import opened Wrappers
  import opened Text
  import opened Seqs
  import opened Atg
  import opened Violations
  import opened Traces

  // Check names and the fixed parts of the messages.
  const NoEndTurnText: string := "No EndTurnEvent found in observer event stream"
  const EndTurnCheck: string := "EndTurnEvent"
  const DepletionCheck: string := "Supply depletion"
  const IncreasedText: string := " supply increased from "
  const AfterGainText: string := " after GainCardEvent"
  const LifecycleCheck: string := "Lifecycle events"
  const StartFiredText: string := "GameStartEvent fired "
  const EndFiredText: string := "GameEndEvent fired "
  const ExpectedOnceText: string := " time(s), expected 1"

  /** The event classes the checks test with instanceof. */
  datatype EventKind = StartKind | EndKind | EndTurnKind | TrashKind

  predicate IsKind(e: Event, k: EventKind) {
    match k
    case StartKind => e.GameStartEvent?
    case EndKind => e.GameEndEvent?
    case EndTurnKind => e.EndTurnEvent?
    case TrashKind => e.TrashCardEvent?
  }

  /** The first event of a kind at or after `from`, as a scan that breaks at the first match finds it. */
  function FirstOfKindFrom(events: seq<ObservedEvent>, k: EventKind, from: nat): (r: Option<nat>)
    ensures r.Some? ==> from <= r.value < |events| && IsKind(events[r.value].event, k)
    ensures r.Some? ==> forall j :: from <= j < r.value ==> !IsKind(events[j].event, k)
    ensures r.None? ==> forall j :: from <= j < |events| ==> !IsKind(events[j].event, k)
    decreases |events| - from
  {
    if from >= |events| then None
    else if IsKind(events[from].event, k) then Some(from)
    else FirstOfKindFrom(events, k, from + 1)
  }

  function FirstOfKind(events: seq<ObservedEvent>, k: EventKind): Option<nat> {
    FirstOfKindFrom(events, k, 0)
  }

  /** The last event of a kind, as a scan that keeps overwriting its variable finds it. */
  function LastOfKind(events: seq<ObservedEvent>, k: EventKind): (r: Option<nat>)
    ensures r.Some? ==> r.value < |events| && IsKind(events[r.value].event, k)
    ensures r.Some? ==> forall j :: r.value < j < |events| ==> !IsKind(events[j].event, k)
    ensures r.None? ==> forall j :: 0 <= j < |events| ==> !IsKind(events[j].event, k)
    decreases |events|
  {
    if events == [] then None
    else if IsKind(events[|events| - 1].event, k) then Some(|events| - 1)
    else
      var r := LastOfKind(events[..|events| - 1], k);
      assert forall j :: 0 <= j < |events| - 1 ==> events[..|events| - 1][j] == events[j];
      r
  }

  function CountOfKind(events: seq<ObservedEvent>, k: EventKind): nat
    decreases |events|
  {
    if events == [] then 0
    else CountOfKind(events[..|events| - 1], k) + (if IsKind(events[|events| - 1].event, k) then 1 else 0)
  }

  ghost function Occurrences(events: seq<ObservedEvent>, k: EventKind): set<int> {
    set j | 0 <= j < |events| && IsKind(events[j].event, k)
  }

  /** The counter equals the number of positions holding an event of the kind. */
  lemma {:induction false} CountOfKindIsOccurrences(events: seq<ObservedEvent>, k: EventKind)
    ensures CountOfKind(events, k) == |Occurrences(events, k)|
    decreases |events|
  {
    if events != [] {
      var n := |events| - 1;
      CountOfKindIsOccurrences(events[..n], k);
      if IsKind(events[n].event, k) {
        assert Occurrences(events, k) == Occurrences(events[..n], k) + {n};
      } else {
        assert Occurrences(events, k) == Occurrences(events[..n], k);
      }
    }
  }

  /** With exactly one event of a kind, the first and the last coincide. */
  lemma SingleOccurrence(events: seq<ObservedEvent>, k: EventKind)
    requires CountOfKind(events, k) == 1
    ensures FirstOfKind(events, k).Some? && FirstOfKind(events, k) == LastOfKind(events, k)
  {
    CountOfKindIsOccurrences(events, k);
    var occ := Occurrences(events, k);
    var only :| only in occ;
    assert |occ - {only}| == |occ| - 1 == 0;
    assert occ - {only} == {};
    assert FirstOfKind(events, k) == Some(only) by {
      forall j | 0 <= j < only ensures !IsKind(events[j].event, k) {
        assert j !in occ - {only};
      }
    }
    assert LastOfKind(events, k) == Some(only) by {
      forall j | only < j < |events| ensures !IsKind(events[j].event, k) {
        assert j !in occ - {only};
      }
    }
  }

  // ----- Check 5: game termination -----

  /** Finds the first GameEndEvent; whether or not there is one, nothing is reported. */
  method CheckGameTermination(trace: GameTrace) returns (violations: seq<Violation>)
    ensures violations == []
  {
    violations := [];
    var events := trace.observerEvents;
    var endEvent: Option<Supply> := None;
    var i := 0;
    while i < |events|
      invariant 0 <= i <= |events|
    {
      if events[i].event.GameEndEvent? {
        endEvent := Some(events[i].event.finalSupply);
        break;
      }
      i := i + 1;
    }
    if endEvent.None? {
      return;
    }
  }

  // ----- Check 8: EndTurn events -----

  function EndTurnViolations(events: seq<ObservedEvent>, gameIndex: int): seq<Violation> {
    if (exists j :: 0 <= j < |events| && events[j].event.EndTurnEvent?) || events == [] then []
    else [NewViolation(EndTurnCheck, NoEndTurnText, gameIndex)]
  }

  method CheckEndTurnEvents(trace: GameTrace) returns (violations: seq<Violation>)
    ensures violations == EndTurnViolations(trace.observerEvents, trace.gameIndex)
  {
    violations := [];
    var events := trace.observerEvents;
    var hasEndTurn := false;
    var i := 0;
    while i < |events|
      invariant 0 <= i <= |events|
      invariant !hasEndTurn
      invariant forall j :: 0 <= j < i ==> !events[j].event.EndTurnEvent?
    {
      if events[i].event.EndTurnEvent? {
        hasEndTurn := true;
        break;
      }
      i := i + 1;
    }
    if !hasEndTurn && |events| != 0 {
      violations := violations + [NewViolation(EndTurnCheck, NoEndTurnText, trace.gameIndex)];
    }
  }

  /** One violation exactly when there are events but none of them is an EndTurnEvent. */
  lemma EndTurnIff(events: seq<ObservedEvent>, gameIndex: int)
    ensures |EndTurnViolations(events, gameIndex)| <= 1
    ensures EndTurnViolations(events, gameIndex) != []
        <==> events != [] && forall j :: 0 <= j < |events| ==> !events[j].event.EndTurnEvent?
  {
  }

  // ----- Check 10: supply depletion -----

  /** The first position at or after `from` whose event carries a state. */
  function NextSnapshot(events: seq<ObservedEvent>, from: nat): (r: Option<nat>)
    ensures r.Some? ==> from <= r.value < |events| && events[r.value].state.Some?
    ensures r.Some? ==> forall j :: from <= j < r.value ==> events[j].state.None?
    ensures r.None? ==> forall j :: from <= j < |events| ==> events[j].state.None?
    decreases |events| - from
  {
    if from >= |events| then None
    else if events[from].state.Some? then Some(from)
    else NextSnapshot(events, from + 1)
  }

  /**
   * Event i gains a card, carries a state, some later event carries a state,
   * and the gained type's count in that next state exceeds its count at i.
   */
  predicate SupplyIncreased(events: seq<ObservedEvent>, i: int)
    requires 0 <= i < |events|
  {
    var current := events[i];
    && current.event.GainCardEvent?
    && current.state.Some?
    && NextSnapshot(events, i + 1).Some?
    && var t := current.event.cardType;
       events[NextSnapshot(events, i + 1).value].state.value.buyableCards.NumAvailable(t)
         > current.state.value.buyableCards.NumAvailable(t)
  }

  function DepletionViolation(cat: Catalog, t: CardType, before: int, after: int, gameIndex: int): Violation {
    NewViolation(DepletionCheck,
      cat.description(t) + IncreasedText + IntToString(before)
        + " to " + IntToString(after) + AfterGainText,
      gameIndex)
  }

  function DepletionAt(cat: Catalog, events: seq<ObservedEvent>, i: nat, gameIndex: int): seq<Violation>
    requires i < |events|
  {
    if SupplyIncreased(events, i) then
      var t := events[i].event.cardType;
      var before := events[i].state.value.buyableCards.NumAvailable(t);
      var after := events[NextSnapshot(events, i + 1).value].state.value.buyableCards.NumAvailable(t);
      [DepletionViolation(cat, t, before, after, gameIndex)]
    else []
  }

  /** Event i's finding, if i names an event. */
  function DepletionPiece(cat: Catalog, events: seq<ObservedEvent>, gameIndex: int): nat -> seq<Violation> {
    (i: nat) => if i < |events| then DepletionAt(cat, events, i, gameIndex) else []
  }

  /** The findings for events 0 to n - 1, in order. */
  function DepletionUpTo(cat: Catalog, events: seq<ObservedEvent>, n: nat, gameIndex: int): seq<Violation>
    requires n <= |events|
  {
    Gather(n, DepletionPiece(cat, events, gameIndex))
  }

  /** Every event but the last is examined; the last has no successor to compare with. */
  function DepletionViolations(cat: Catalog, events: seq<ObservedEvent>, gameIndex: int): seq<Violation> {
    DepletionUpTo(cat, events, if |events| == 0 then 0 else |events| - 1, gameIndex)
  }

  /** One step of the first loop: the finding a gain at event i produces, if any. */
  method CheckGainAt(cat: Catalog, events: seq<ObservedEvent>, i: nat, g: int) returns (found: seq<Violation>)
    requires i < |events|
    ensures found == DepletionAt(cat, events, i, g)
  {
    found := [];
    var current := events[i];
    if current.event.GainCardEvent? {
      var t := current.event.cardType;
      var j := i + 1;
      while j < |events|
        invariant i + 1 <= j <= |events|
        invariant forall k :: i + 1 <= k < j ==> events[k].state.None?
      {
        var next := events[j];
        if next.state.Some? {
          assert NextSnapshot(events, i + 1) == Some(j);
          if current.state.Some? {
            var before := current.state.value.buyableCards.NumAvailable(t);
            var after := next.state.value.buyableCards.NumAvailable(t);
            if after > before {
              found := [DepletionViolation(cat, t, before, after, g)];
            }
          }
          return;
        }
        j := j + 1;
      }
    }
  }

  method CheckSupplyDepletion(cat: Catalog, trace: GameTrace) returns (violations: seq<Violation>)
    ensures violations == DepletionViolations(cat, trace.observerEvents, trace.gameIndex)
  {
    violations := [];
    var events := trace.observerEvents;
    var g := trace.gameIndex;
    var n := if |events| == 0 then 0 else |events| - 1;
    var i := 0;
    while i < n
      invariant i <= n
      invariant violations == DepletionUpTo(cat, events, i, g)
    {
      var found := CheckGainAt(cat, events, i, g);
      DepletionUpToSnoc(cat, events, i, g);
      violations := violations + found;
      i := i + 1;
    }
  }

  lemma DepletionUpToSnoc(cat: Catalog, events: seq<ObservedEvent>, i: nat, gameIndex: int)
    requires i < |events|
    ensures DepletionUpTo(cat, events, i + 1, gameIndex) == DepletionUpTo(cat, events, i, gameIndex) + DepletionAt(cat, events, i, gameIndex)
  {
    assert DepletionPiece(cat, events, gameIndex)(i) == DepletionAt(cat, events, i, gameIndex);
  }

  /** Event i is a gain after which the supply of the gained type is seen to grow. */
  function IncreaseAt(events: seq<ObservedEvent>): int -> bool {
    i => 0 <= i < |events| && SupplyIncreased(events, i)
  }

  ghost function Increases(events: seq<ObservedEvent>): set<int> {
    Below(|events| - 1, IncreaseAt(events))
  }

  lemma DepletionAtShape(cat: Catalog, events: seq<ObservedEvent>, i: nat, gameIndex: int)
    requires i < |events|
    ensures |DepletionAt(cat, events, i, gameIndex)| == if SupplyIncreased(events, i) then 1 else 0
    ensures forall v :: v in DepletionAt(cat, events, i, gameIndex) ==> GameWide(v, DepletionCheck, gameIndex)
  {
  }

  lemma DepletionCountUpTo(cat: Catalog, events: seq<ObservedEvent>, n: nat, gameIndex: int)
    requires n <= |events|
    ensures |DepletionUpTo(cat, events, n, gameIndex)| == |Below(n, IncreaseAt(events))|
  {
    var piece := DepletionPiece(cat, events, gameIndex);
    var p := IncreaseAt(events);
    forall i: nat | i < n
      ensures |piece(i)| == if p(i) then 1 else 0
    {
      DepletionAtShape(cat, events, i, gameIndex);
    }
    GatherCount(n, piece, p);
  }

  lemma {:induction false} DepletionFieldsUpTo(cat: Catalog, events: seq<ObservedEvent>, n: nat, gameIndex: int)
    requires n <= |events|
    ensures forall v :: v in DepletionUpTo(cat, events, n, gameIndex) ==> GameWide(v, DepletionCheck, gameIndex)
    decreases n
  {
    if n > 0 {
      DepletionFieldsUpTo(cat, events, n - 1, gameIndex);
      DepletionAtShape(cat, events, n - 1, gameIndex);
    }
  }

  /**
   * One violation per gain whose next snapshot shows more of the gained type
   * than the gain's own snapshot; none exactly when no supply is seen to grow.
   */
  lemma DepletionCount(cat: Catalog, events: seq<ObservedEvent>, gameIndex: int)
    ensures |DepletionViolations(cat, events, gameIndex)| == |Increases(events)|
    ensures DepletionViolations(cat, events, gameIndex) == []
        <==> forall i :: 0 <= i < |events| - 1 ==> !SupplyIncreased(events, i)
    ensures forall v :: v in DepletionViolations(cat, events, gameIndex) ==> GameWide(v, DepletionCheck, gameIndex)
  {
    var n := if |events| == 0 then 0 else |events| - 1;
    var p := IncreaseAt(events);
    DepletionCountUpTo(cat, events, n, gameIndex);
    DepletionFieldsUpTo(cat, events, n, gameIndex);
    BelowEmpty(n, p);
    BelowEmpty(|events| - 1, p);
    assert Below(n, p) == Increases(events);
    assert forall i :: 0 <= i < |events| - 1 ==> (p(i) <==> SupplyIncreased(events, i));
  }

  // ----- Check 11: lifecycle events -----

  function LifecycleViolations(events: seq<ObservedEvent>, gameIndex: int): seq<Violation> {
    var startCount := CountOfKind(events, StartKind);
    var endCount := CountOfKind(events, EndKind);
    (if startCount != 1 then
       [NewViolation(LifecycleCheck, StartFiredText + IntToString(startCount) + ExpectedOnceText, gameIndex)]
     else [])
    + (if endCount != 1 then
         [NewViolation(LifecycleCheck, EndFiredText + IntToString(endCount) + ExpectedOnceText, gameIndex)]
       else [])
  }

  method CheckLifecycleEvents(trace: GameTrace) returns (violations: seq<Violation>)
    ensures violations == LifecycleViolations(trace.observerEvents, trace.gameIndex)
  {
    violations := [];
    var events := trace.observerEvents;
    var startCount := 0;
    var endCount := 0;
    for i := 0 to |events|
      invariant startCount == CountOfKind(events[..i], StartKind)
      invariant endCount == CountOfKind(events[..i], EndKind)
    {
      assert events[..i + 1][..i] == events[..i];
      if events[i].event.GameStartEvent? {
        startCount := startCount + 1;
      }
      if events[i].event.GameEndEvent? {
        endCount := endCount + 1;
      }
    }
    assert events[..|events|] == events;
    if startCount != 1 {
      violations := violations + [NewViolation(LifecycleCheck,
        StartFiredText + IntToString(startCount) + ExpectedOnceText, trace.gameIndex)];
    }
    if endCount != 1 {
      violations := violations + [NewViolation(LifecycleCheck,
        EndFiredText + IntToString(endCount) + ExpectedOnceText, trace.gameIndex)];
    }
  }

  /**
   * One violation when the number of GameStartEvents is not one, one more when
   * the number of GameEndEvents is not one; so at most two, and none exactly
   * when each occurs once.
   */
  lemma LifecycleCount(events: seq<ObservedEvent>, gameIndex: int)
    ensures |LifecycleViolations(events, gameIndex)|
         == (if |Occurrences(events, StartKind)| != 1 then 1 else 0) + (if |Occurrences(events, EndKind)| != 1 then 1 else 0)
    ensures |LifecycleViolations(events, gameIndex)| <= 2
    ensures LifecycleViolations(events, gameIndex) == []
        <==> |Occurrences(events, StartKind)| == 1 && |Occurrences(events, EndKind)| == 1
    ensures forall v :: v in LifecycleViolations(events, gameIndex) ==> GameWide(v, LifecycleCheck, gameIndex)
  {
    CountOfKindIsOccurrences(events, StartKind);
    CountOfKindIsOccurrences(events, EndKind);
  }
}
