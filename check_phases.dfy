/**
 * Check 7 of InvariantChecker: within each player's decision sequence the main
 * phases run ACTION, MONEY, BUY, CLEANUP, and only a return to ACTION may go
 * backwards (it starts a new turn). REACTION, GAIN and DISCARD are sub-phases
 * the check skips.
 */
module PhaseChecks {
  import opened Wrappers
  import opened Seqs
  import opened Atg
  import opened Violations
  import opened Traces

  // Check names and the fixed parts of the messages.
  const PhaseOrderingCheck: string := "Phase ordering"

  predicate IsSubPhase(p: TurnPhase) {
    p == ReactionPhase || p == GainPhase || p == DiscardPhase
  }

  /** The position of a main phase within a turn, and -1 for a sub-phase. */
  function MainPhaseOrdinal(p: TurnPhase): (r: int)
    ensures -1 <= r <= 3
    ensures r == -1 <==> IsSubPhase(p)
  {
    match p
    case ActionPhase => 0
    case MoneyPhase => 1
    case BuyPhase => 2
    case CleanupPhase => 3
    case _ => -1
  }

  /** The name of a main phase's ordinal; anything outside 0..3 is UNKNOWN. */
  function MainPhaseNameFromOrdinal(ordinal: int): (name: string)
    ensures name == "UNKNOWN" <==> ordinal < 0 || ordinal > 3
  {
    match ordinal
    case 0 => "ACTION"
    case 1 => "MONEY"
    case 2 => "BUY"
    case 3 => "CLEANUP"
    case _ => "UNKNOWN"
  }

  /** The enum constant's name, which is how a phase prints. */
  function PhaseLabel(p: TurnPhase): string {
    match p
    case ActionPhase => "ACTION"
    case MoneyPhase => "MONEY"
    case BuyPhase => "BUY"
    case CleanupPhase => "CLEANUP"
    case ReactionPhase => "REACTION"
    case GainPhase => "GAIN"
    case DiscardPhase => "DISCARD"
  }

  /** Naming a main phase's ordinal gives back the phase's own name; ordinals tell main phases apart. */
  lemma OrdinalNameRoundTrip(p: TurnPhase, q: TurnPhase)
    ensures !IsSubPhase(p) ==> MainPhaseNameFromOrdinal(MainPhaseOrdinal(p)) == PhaseLabel(p)
    ensures IsSubPhase(p) ==> MainPhaseNameFromOrdinal(MainPhaseOrdinal(p)) == "UNKNOWN"
    ensures !IsSubPhase(p) && !IsSubPhase(q) && MainPhaseOrdinal(p) == MainPhaseOrdinal(q) ==> p == q
  {
  }

  /** The per-player state of the check: the last accepted main ordinal and the turn counter. */
  datatype PhaseTracker = PhaseTracker(mainOrdinal: int, turn: int, violations: seq<Violation>)

  function Initial(): PhaseTracker {
    PhaseTracker(-1, 0, [])
  }

  function OutOfOrder(p: TurnPhase, mainOrdinal: int, turn: int, player: string, gameIndex: int): Violation {
    NewPlayerViolation(PhaseOrderingCheck,
      PhaseLabel(p) + " phase after " + MainPhaseNameFromOrdinal(mainOrdinal) + " phase",
      gameIndex, turn, Some(player))
  }

  /** One decision record's phase fed to the machine. */
  function PhaseStep(t: PhaseTracker, p: TurnPhase, player: string, gameIndex: int): (next: PhaseTracker)
    ensures t.violations <= next.violations && |next.violations| <= |t.violations| + 1
    ensures t.turn <= next.turn <= t.turn + 1
    ensures |next.violations| == |t.violations| + 1 ==> next.turn == t.turn && next.mainOrdinal == t.mainOrdinal
  {
    var ordinal := MainPhaseOrdinal(p);
    if ordinal < 0 then t
    else if ordinal < t.mainOrdinal then
      if ordinal == 0 then t.(turn := t.turn + 1, mainOrdinal := ordinal)
      else t.(violations := t.violations + [OutOfOrder(p, t.mainOrdinal, t.turn, player, gameIndex)])
    else t.(mainOrdinal := ordinal)
  }

  function PhaseRun(records: seq<DecisionRecord>, player: string, gameIndex: int): (t: PhaseTracker)
    ensures -1 <= t.mainOrdinal <= 3
    ensures 0 <= t.turn <= |records|
    decreases |records|
  {
    if records == [] then Initial()
    else PhaseStep(PhaseRun(records[..|records| - 1], player, gameIndex), records[|records| - 1].state.phase, player, gameIndex)
  }

  function PhasePiece(gameIndex: int): PlayerLog -> seq<Violation> {
    (log: PlayerLog) => PhaseRun(log.records, log.name, gameIndex).violations
  }

  function PhaseViolations(logs: seq<PlayerLog>, gameIndex: int): seq<Violation> {
    FlatMap(logs, PhasePiece(gameIndex))
  }

  /** The state machine over one player's records. */
  method CheckPlayerPhases(records: seq<DecisionRecord>, player: string, g: int) returns (found: seq<Violation>)
    ensures found == PhaseRun(records, player, g).violations
  {
    found := [];
    var mainPhaseOrdinal := -1;
    var turn := 0;
    for r := 0 to |records|
      invariant PhaseTracker(mainPhaseOrdinal, turn, found) == PhaseRun(records[..r], player, g)
    {
      assert records[..r + 1][..r] == records[..r];
      var phase := records[r].state.phase;
      var ordinal := MainPhaseOrdinal(phase);
      if ordinal < 0 {
        continue;
      }
      if ordinal < mainPhaseOrdinal {
        if ordinal == 0 {
          turn := turn + 1;
          mainPhaseOrdinal := ordinal;
        } else {
          found := found + [OutOfOrder(phase, mainPhaseOrdinal, turn, player, g)];
        }
      } else {
        mainPhaseOrdinal := ordinal;
      }
    }
    assert records[..|records|] == records;
  }

  method CheckPhaseOrdering(trace: GameTrace) returns (violations: seq<Violation>)
    ensures violations == PhaseViolations(trace.playerDecisions, trace.gameIndex)
  {
    violations := [];
    var logs := trace.playerDecisions;
    for e := 0 to |logs|
      invariant violations == FlatMap(logs[..e], PhasePiece(trace.gameIndex))
    {
      var found := CheckPlayerPhases(logs[e].records, logs[e].name, trace.gameIndex);
      violations := violations + found;
      FlatMapSnoc(logs, e, PhasePiece(trace.gameIndex));
    }
    assert logs[..|logs|] == logs;
  }

  // ----- what the machine accepts -----

  /** The ordinals of the main-phase records, in order; sub-phase records are dropped. */
  function MainOrdinals(records: seq<DecisionRecord>): (os: seq<int>)
    ensures forall k :: 0 <= k < |os| ==> 0 <= os[k] <= 3
    decreases |records|
  {
    if records == [] then []
    else
      var o := MainPhaseOrdinal(records[|records| - 1].state.phase);
      MainOrdinals(records[..|records| - 1]) + (if o < 0 then [] else [o])
  }

  /** Step k either does not go backwards or returns to ACTION. */
  predicate StepAllowed(os: seq<int>, k: int)
    requires 1 <= k < |os|
  {
    os[k] == 0 || os[k] >= os[k - 1]
  }

  predicate WellOrdered(os: seq<int>) {
    forall k :: 1 <= k < |os| ==> StepAllowed(os, k)
  }

  /**
   * A run that has found nothing sits at the last main ordinal seen; and the run
   * finds nothing exactly when every step between consecutive main phases is
   * non-decreasing or a return to ACTION.
   */
  lemma {:induction false} PhaseRunClean(records: seq<DecisionRecord>, player: string, gameIndex: int)
    ensures PhaseRun(records, player, gameIndex).violations == [] <==> WellOrdered(MainOrdinals(records))
    ensures PhaseRun(records, player, gameIndex).violations == [] ==>
      PhaseRun(records, player, gameIndex).mainOrdinal
        == (if MainOrdinals(records) == [] then -1 else MainOrdinals(records)[|MainOrdinals(records)| - 1])
    decreases |records|
  {
    if records != [] {
      var n := |records| - 1;
      var prefix := records[..n];
      PhaseRunClean(prefix, player, gameIndex);
      var t := PhaseRun(prefix, player, gameIndex);
      var p := records[n].state.phase;
      var os := MainOrdinals(prefix);
      var o := MainPhaseOrdinal(p);
      assert PhaseRun(records, player, gameIndex) == PhaseStep(t, p, player, gameIndex);
      StepClean(t, p, player, gameIndex);
      if o >= 0 {
        assert MainOrdinals(records) == os + [o];
        WellOrderedSnoc(os, o);
      } else {
        assert MainOrdinals(records) == os;
      }
    }
  }

  /** One step of the machine stays clean exactly when it skips a sub-phase, returns to ACTION or does not go backwards. */
  lemma StepClean(t: PhaseTracker, p: TurnPhase, player: string, gameIndex: int)
    ensures var o := MainPhaseOrdinal(p);
      var next := PhaseStep(t, p, player, gameIndex);
      && (next.violations == [] <==> t.violations == [] && (o < 0 || o == 0 || o >= t.mainOrdinal))
      && (o >= 0 && next.violations == [] ==> next.mainOrdinal == o)
      && (o < 0 ==> next == t)
  {
  }

  /** Appending a main ordinal keeps the sequence well ordered exactly when that last step is allowed. */
  lemma WellOrderedSnoc(os: seq<int>, o: int)
    ensures WellOrdered(os + [o]) <==> WellOrdered(os) && (os == [] || o == 0 || o >= os[|os| - 1])
  {
    var all := os + [o];
    assert all[..|os|] == os;
    if WellOrdered(all) {
      assert WellOrdered(os) by {
        forall k | 1 <= k < |os| ensures StepAllowed(os, k) {
          assert StepAllowed(all, k);
        }
      }
      if os != [] {
        assert StepAllowed(all, |os|);
      }
    } else {
      var k :| 1 <= k < |all| && !StepAllowed(all, k);
      if k < |os| {
        assert !StepAllowed(os, k);
      }
    }
  }

  /**
   * Every finding of a run names the check, the game and the player, and a
   * turn no greater than the number of records.
   */
  lemma {:induction false} PhaseRunFields(records: seq<DecisionRecord>, player: string, gameIndex: int)
    ensures forall v :: v in PhaseRun(records, player, gameIndex).violations ==>
      v.checkName == PhaseOrderingCheck && v.gameIndex == gameIndex && v.playerName == Some(player)
      && 0 <= v.turn <= |records| && v.context == None
    decreases |records|
  {
    if records != [] {
      PhaseRunFields(records[..|records| - 1], player, gameIndex);
    }
  }

  /** Sub-phase records leave the machine exactly as it was. */
  lemma SubPhaseTransparent(t: PhaseTracker, p: TurnPhase, player: string, gameIndex: int)
    requires IsSubPhase(p)
    ensures PhaseStep(t, p, player, gameIndex) == t
  {
  }

  /**
   * From a state with ordinal m, a main phase with ordinal o >= m is accepted,
   * a return to ACTION from a later phase starts the next turn, and any other
   * backward step is reported with the state left unchanged.
   */
  lemma PhaseStepCases(t: PhaseTracker, p: TurnPhase, player: string, gameIndex: int)
    requires !IsSubPhase(p)
    ensures MainPhaseOrdinal(p) >= t.mainOrdinal ==>
      PhaseStep(t, p, player, gameIndex) == t.(mainOrdinal := MainPhaseOrdinal(p))
    ensures p == ActionPhase && t.mainOrdinal > 0 ==>
      PhaseStep(t, p, player, gameIndex) == t.(turn := t.turn + 1, mainOrdinal := 0)
    ensures 0 < MainPhaseOrdinal(p) < t.mainOrdinal ==>
      var s := PhaseStep(t, p, player, gameIndex);
      s.mainOrdinal == t.mainOrdinal && s.turn == t.turn && |s.violations| == |t.violations| + 1
      && s.violations[..|t.violations|] == t.violations
  {
  }

  /** No player has a finding exactly when every player's main phases are well ordered. */
  lemma PhaseViolationsEmpty(logs: seq<PlayerLog>, gameIndex: int)
    ensures PhaseViolations(logs, gameIndex) == []
        <==> forall e :: 0 <= e < |logs| ==> WellOrdered(MainOrdinals(logs[e].records))
  {
    var f := PhasePiece(gameIndex);
    FlatMapEmpty(logs, f);
    forall e | 0 <= e < |logs|
      ensures f(logs[e]) == [] <==> WellOrdered(MainOrdinals(logs[e].records))
    {
      PhaseRunClean(logs[e].records, logs[e].name, gameIndex);
    }
  }

  /** Every finding of the check carries the trace's game index and the name of a logged player. */
  lemma PhaseViolationFields(logs: seq<PlayerLog>, gameIndex: int)
    ensures forall v :: v in PhaseViolations(logs, gameIndex) ==>
      v.checkName == PhaseOrderingCheck && v.gameIndex == gameIndex
      && v.playerName.Some? && exists e :: 0 <= e < |logs| && logs[e].name == v.playerName.value
  {
    var f := PhasePiece(gameIndex);
    forall v | v in PhaseViolations(logs, gameIndex)
      ensures v.checkName == PhaseOrderingCheck && v.gameIndex == gameIndex
      ensures v.playerName.Some? && exists e :: 0 <= e < |logs| && logs[e].name == v.playerName.value
    {
      FlatMapMember(logs, f, v);
      var e :| 0 <= e < |logs| && v in f(logs[e]);
      PhaseRunFields(logs[e].records, logs[e].name, gameIndex);
    }
  }
}
