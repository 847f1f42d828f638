/**
 * Check 6 of InvariantChecker: every option offered to a player must be legal
 * in the state it was offered in. Violations are attributed to turn 0 (the
 * check never advances its turn estimate) and to the player.
 */
module DecisionChecks {
  import opened Wrappers
  import opened Text
  import opened Seqs
  import opened Atg
  import opened Violations
  import opened Traces

  // Check names and the fixed parts of the messages.
  const LegalDecisionsCheck: string := "Legal decisions"
  const UnaffordableText: string := ") offered but spendableMoney="
  const EmptySupplyText: string := ") offered but supply is empty"
  const NoActionsText: string := ") offered in ACTION phase but availableActions=0"
  const StateText: string := "State: actions="

  function StateContext(state: GameState): string {
    StateText + IntToString(state.availableActions)
      + ", money=" + IntToString(state.spendableMoney)
      + ", buys=" + IntToString(state.availableBuys)
  }

  /** An offered purchase the player cannot pay for; the only finding that carries a context. */
  function UnaffordableBuy(cat: Catalog, t: CardType, state: GameState, player: string, gameIndex: int): Violation {
    Violation(LegalDecisionsCheck,
      "BuyDecision(" + cat.description(t) + ", cost=" + IntToString(cat.cost(t))
        + UnaffordableText + IntToString(state.spendableMoney),
      gameIndex, 0, Some(player), Some(StateContext(state)))
  }

  function EmptyStackBuy(cat: Catalog, t: CardType, player: string, gameIndex: int): Violation {
    NewPlayerViolation(LegalDecisionsCheck,
      "BuyDecision(" + cat.description(t) + EmptySupplyText,
      gameIndex, 0, Some(player))
  }

  function ActionWithoutActions(cat: Catalog, c: Card, player: string, gameIndex: int): Violation {
    NewPlayerViolation(LegalDecisionsCheck,
      "PlayCardDecision(" + cat.description(c.cardType) + NoActionsText,
      gameIndex, 0, Some(player))
  }

  predicate Unaffordable(cat: Catalog, state: GameState, t: CardType) {
    cat.cost(t) > state.spendableMoney
  }

  predicate StackEmpty(state: GameState, t: CardType) {
    state.buyableCards.NumAvailable(t) <= 0
  }

  predicate ActionBlocked(cat: Catalog, state: GameState, c: Card) {
    state.phase == ActionPhase && CategoryOf(cat, c) == Action && state.availableActions <= 0
  }

  /** The findings for one offered option, in the order they are made. */
  function OptionViolations(cat: Catalog, state: GameState, option: Decision, player: string, gameIndex: int): seq<Violation> {
    match option
    case BuyDecision(t) =>
      (if Unaffordable(cat, state, t) then [UnaffordableBuy(cat, t, state, player, gameIndex)] else [])
      + (if StackEmpty(state, t) then [EmptyStackBuy(cat, t, player, gameIndex)] else [])
    case PlayCardDecision(c) =>
      if ActionBlocked(cat, state, c) then [ActionWithoutActions(cat, c, player, gameIndex)] else []
    case _ => []
  }

  function OptionPiece(cat: Catalog, state: GameState, player: string, gameIndex: int): Decision -> seq<Violation> {
    option => OptionViolations(cat, state, option, player, gameIndex)
  }

  function RecordViolations(cat: Catalog, record: DecisionRecord, player: string, gameIndex: int): seq<Violation> {
    FlatMap(record.options, OptionPiece(cat, record.state, player, gameIndex))
  }

  function RecordPiece(cat: Catalog, player: string, gameIndex: int): DecisionRecord -> seq<Violation> {
    record => RecordViolations(cat, record, player, gameIndex)
  }

  function LogViolations(cat: Catalog, log: PlayerLog, gameIndex: int): seq<Violation> {
    FlatMap(log.records, RecordPiece(cat, log.name, gameIndex))
  }

  function LogPiece(cat: Catalog, gameIndex: int): PlayerLog -> seq<Violation> {
    log => LogViolations(cat, log, gameIndex)
  }

  function LegalDecisionViolations(cat: Catalog, logs: seq<PlayerLog>, gameIndex: int): seq<Violation> {
    FlatMap(logs, LogPiece(cat, gameIndex))
  }

  /** The body of the innermost loop: what one offered option contributes. */
  method CheckOption(cat: Catalog, state: GameState, option: Decision, player: string, g: int) returns (found: seq<Violation>)
    ensures found == OptionViolations(cat, state, option, player, g)
  {
    found := [];
    if option.BuyDecision? {
      if cat.cost(option.cardType) > state.spendableMoney {
        found := found + [UnaffordableBuy(cat, option.cardType, state, player, g)];
      }
      if state.buyableCards.NumAvailable(option.cardType) <= 0 {
        found := found + [EmptyStackBuy(cat, option.cardType, player, g)];
      }
    }
    if option.PlayCardDecision? && state.phase == ActionPhase {
      if CategoryOf(cat, option.card) == Action && state.availableActions <= 0 {
        found := found + [ActionWithoutActions(cat, option.card, player, g)];
      }
    }
  }

  /** The innermost loop: the options of one decision record, in order. */
  method CheckRecord(cat: Catalog, record: DecisionRecord, player: string, g: int) returns (found: seq<Violation>)
    ensures found == RecordViolations(cat, record, player, g)
  {
    found := [];
    var state := record.state;
    var options := record.options;
    for o := 0 to |options|
      invariant found == FlatMap(options[..o], OptionPiece(cat, state, player, g))
    {
      var optionFound := CheckOption(cat, state, options[o], player, g);
      found := found + optionFound;
      FlatMapSnoc(options, o, OptionPiece(cat, state, player, g));
    }
    assert options[..|options|] == options;
  }

  /** The middle loop: the records of one player, in order. */
  method CheckLog(cat: Catalog, log: PlayerLog, g: int) returns (found: seq<Violation>)
    ensures found == LogViolations(cat, log, g)
  {
    found := [];
    var records := log.records;
    for r := 0 to |records|
      invariant found == FlatMap(records[..r], RecordPiece(cat, log.name, g))
    {
      var recordFound := CheckRecord(cat, records[r], log.name, g);
      found := found + recordFound;
      FlatMapSnoc(records, r, RecordPiece(cat, log.name, g));
    }
    assert records[..|records|] == records;
  }

  method CheckLegalDecisionsOffered(cat: Catalog, trace: GameTrace) returns (violations: seq<Violation>)
    ensures violations == LegalDecisionViolations(cat, trace.playerDecisions, trace.gameIndex)
  {
    violations := [];
    var logs := trace.playerDecisions;
    var g := trace.gameIndex;
    for e := 0 to |logs|
      invariant violations == FlatMap(logs[..e], LogPiece(cat, g))
    {
      var found := CheckLog(cat, logs[e], g);
      violations := violations + found;
      FlatMapSnoc(logs, e, LogPiece(cat, g));
    }
    assert logs[..|logs|] == logs;
  }

  /** An option the check has nothing against in the given state. */
  predicate OptionLegal(cat: Catalog, state: GameState, option: Decision) {
    match option
    case BuyDecision(t) => !Unaffordable(cat, state, t) && !StackEmpty(state, t)
    case PlayCardDecision(c) => !ActionBlocked(cat, state, c)
    case _ => true
  }

  predicate RecordLegal(cat: Catalog, record: DecisionRecord) {
    forall o :: 0 <= o < |record.options| ==> OptionLegal(cat, record.state, record.options[o])
  }

  predicate LogLegal(cat: Catalog, log: PlayerLog) {
    forall r :: 0 <= r < |log.records| ==> RecordLegal(cat, log.records[r])
  }

  /**
   * An offered Buy gives one finding when unaffordable and one more when its
   * stack is empty; an offered PlayCard of an action card in the ACTION phase
   * gives one when no action is left; nothing else gives any.
   */
  lemma OptionViolationCount(cat: Catalog, state: GameState, option: Decision, player: string, gameIndex: int)
    ensures |OptionViolations(cat, state, option, player, gameIndex)|
         == match option
            case BuyDecision(t) => (if Unaffordable(cat, state, t) then 1 else 0) + (if StackEmpty(state, t) then 1 else 0)
            case PlayCardDecision(c) => if ActionBlocked(cat, state, c) then 1 else 0
            case _ => 0
    ensures OptionViolations(cat, state, option, player, gameIndex) == [] <==> OptionLegal(cat, state, option)
    ensures forall v :: v in OptionViolations(cat, state, option, player, gameIndex) ==>
      v.checkName == LegalDecisionsCheck && v.gameIndex == gameIndex && v.turn == 0 && v.playerName == Some(player)
  {
  }

  /** No finding exactly when every option offered to every player was legal when offered. */
  lemma LegalDecisionsIff(cat: Catalog, logs: seq<PlayerLog>, gameIndex: int)
    ensures LegalDecisionViolations(cat, logs, gameIndex) == [] <==> forall e :: 0 <= e < |logs| ==> LogLegal(cat, logs[e])
  {
    var lf := LogPiece(cat, gameIndex);
    FlatMapEmpty(logs, lf);
    forall e | 0 <= e < |logs|
      ensures lf(logs[e]) == [] <==> LogLegal(cat, logs[e])
    {
      var log := logs[e];
      var rf := RecordPiece(cat, log.name, gameIndex);
      FlatMapEmpty(log.records, rf);
      forall r | 0 <= r < |log.records|
        ensures rf(log.records[r]) == [] <==> RecordLegal(cat, log.records[r])
      {
        var record := log.records[r];
        var of := OptionPiece(cat, record.state, log.name, gameIndex);
        FlatMapEmpty(record.options, of);
        forall o | 0 <= o < |record.options|
          ensures of(record.options[o]) == [] <==> OptionLegal(cat, record.state, record.options[o])
        {
          OptionViolationCount(cat, record.state, record.options[o], log.name, gameIndex);
        }
      }
    }
  }

  /** At most two findings per offered option. */
  lemma RecordViolationBound(cat: Catalog, record: DecisionRecord, player: string, gameIndex: int)
    ensures |RecordViolations(cat, record, player, gameIndex)| <= 2 * |record.options|
  {
    var of := OptionPiece(cat, record.state, player, gameIndex);
    forall o | 0 <= o < |record.options|
      ensures |of(record.options[o])| <= 2
    {
      OptionViolationCount(cat, record.state, record.options[o], player, gameIndex);
    }
    FlatMapBound(record.options, of, 2);
  }

  /** Every finding names the check, the game, turn 0 and a logged player. */
  lemma LegalDecisionFields(cat: Catalog, logs: seq<PlayerLog>, gameIndex: int)
    ensures forall v :: v in LegalDecisionViolations(cat, logs, gameIndex) ==>
      v.checkName == LegalDecisionsCheck && v.gameIndex == gameIndex && v.turn == 0
      && v.playerName.Some? && exists e :: 0 <= e < |logs| && logs[e].name == v.playerName.value
  {
    var lf := LogPiece(cat, gameIndex);
    forall v | v in LegalDecisionViolations(cat, logs, gameIndex)
      ensures v.checkName == LegalDecisionsCheck && v.gameIndex == gameIndex && v.turn == 0
      ensures v.playerName.Some? && exists e :: 0 <= e < |logs| && logs[e].name == v.playerName.value
    {
      FlatMapMember(logs, lf, v);
      var e :| 0 <= e < |logs| && v in lf(logs[e]);
      var log := logs[e];
      var rf := RecordPiece(cat, log.name, gameIndex);
      FlatMapMember(log.records, rf, v);
      var r :| 0 <= r < |log.records| && v in rf(log.records[r]);
      var record := log.records[r];
      var of := OptionPiece(cat, record.state, log.name, gameIndex);
      FlatMapMember(record.options, of, v);
      var o :| 0 <= o < |record.options| && v in of(record.options[o]);
      OptionViolationCount(cat, record.state, record.options[o], log.name, gameIndex);
    }
  }
}
