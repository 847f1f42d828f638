/** Check 3 of InvariantChecker: each player's first recorded hand holds only Bitcoin and Method cards. */
module HandChecks {
  import opened Wrappers
  import opened Seqs
  import opened Atg
  import opened Violations
  import opened Traces

  // Check names and the fixed parts of the messages.
  const StartingHandsCheck: string := "Starting hands"
  const OnlyStartersText: string := ", expected only Bitcoin/Method"

  /** A card a freshly dealt hand may hold. */
  predicate StartingCard(c: Card) {
    c.cardType == Bitcoin || c.cardType == Method
  }

  /** The first card at or after `from` that a starting hand may not hold. */
  function FirstForeign(cards: seq<Card>, from: nat): (r: Option<nat>)
    ensures r.Some? ==> from <= r.value < |cards| && !StartingCard(cards[r.value])
    ensures r.Some? ==> forall j :: from <= j < r.value ==> StartingCard(cards[j])
    ensures r.None? ==> forall j :: from <= j < |cards| ==> StartingCard(cards[j])
    decreases |cards| - from
  {
    if from >= |cards| then None
    else if !StartingCard(cards[from]) then Some(from)
    else FirstForeign(cards, from + 1)
  }

  function ForeignViolation(cat: Catalog, player: string, c: Card, place: string, gameIndex: int): Violation {
    NewPlayerViolation(StartingHandsCheck,
      "Player \"" + player + "\" has " + cat.description(c.cardType)
        + " in starting " + place + OnlyStartersText,
      gameIndex, 0, Some(player))
  }

  /** At most one violation per card list: the one for its first foreign card. */
  function ForeignIn(cat: Catalog, player: string, cards: seq<Card>, place: string, gameIndex: int): seq<Violation> {
    match FirstForeign(cards, 0)
    case None => []
    case Some(k) => [ForeignViolation(cat, player, cards[k], place, gameIndex)]
  }

  /** Only a player's first decision record is inspected: unplayed cards, then played cards. */
  function StartingHandViolations(cat: Catalog, log: PlayerLog, gameIndex: int): seq<Violation> {
    if log.records == [] then []
    else
      var hand := log.records[0].state.currentPlayerHand;
      ForeignIn(cat, log.name, hand.unplayedCards, "hand", gameIndex)
      + ForeignIn(cat, log.name, hand.playedCards, "played cards", gameIndex)
  }

  function HandPiece(cat: Catalog, gameIndex: int): PlayerLog -> seq<Violation> {
    log => StartingHandViolations(cat, log, gameIndex)
  }

  function HandViolations(cat: Catalog, logs: seq<PlayerLog>, gameIndex: int): seq<Violation> {
    FlatMap(logs, HandPiece(cat, gameIndex))
  }

  /** Scans one card list and stops at the first card outside Bitcoin/Method. */
  method FindForeign(cards: seq<Card>) returns (found: Option<nat>)
    ensures found == FirstForeign(cards, 0)
  {
    found := None;
    var i := 0;
    while i < |cards|
      invariant 0 <= i <= |cards|
      invariant forall j :: 0 <= j < i ==> StartingCard(cards[j])
    {
      if cards[i].cardType != Bitcoin && cards[i].cardType != Method {
        found := Some(i);
        break;
      }
      i := i + 1;
    }
  }

  method CheckStartingHands(cat: Catalog, trace: GameTrace) returns (violations: seq<Violation>)
    ensures violations == HandViolations(cat, trace.playerDecisions, trace.gameIndex)
  {
    violations := [];
    var logs := trace.playerDecisions;
    var g := trace.gameIndex;
    for e := 0 to |logs|
      invariant violations == HandViolations(cat, logs[..e], g)
    {
      var player := logs[e].name;
      var records := logs[e].records;
      FlatMapSnoc(logs, e, HandPiece(cat, g));
      if records == [] {
        continue;
      }
      var hand := records[0].state.currentPlayerHand;
      var unplayed := FindForeign(hand.unplayedCards);
      if unplayed.Some? {
        violations := violations + [ForeignViolation(cat, player, hand.unplayedCards[unplayed.value], "hand", g)];
      }
      var played := FindForeign(hand.playedCards);
      if played.Some? {
        violations := violations + [ForeignViolation(cat, player, hand.playedCards[played.value], "played cards", g)];
      }
    }
    assert logs[..|logs|] == logs;
  }

  /** The first recorded hand of a log holds only starting cards, or there is no record. */
  predicate DealtCleanly(log: PlayerLog) {
    log.records != [] ==>
      var hand := log.records[0].state.currentPlayerHand;
      && (forall j :: 0 <= j < |hand.unplayedCards| ==> StartingCard(hand.unplayedCards[j]))
      && (forall j :: 0 <= j < |hand.playedCards| ==> StartingCard(hand.playedCards[j]))
  }

  /** No violation exactly when every player's first hand was dealt cleanly. */
  lemma HandViolationsEmpty(cat: Catalog, logs: seq<PlayerLog>, gameIndex: int)
    ensures HandViolations(cat, logs, gameIndex) == [] <==> forall e :: 0 <= e < |logs| ==> DealtCleanly(logs[e])
  {
    var f := HandPiece(cat, gameIndex);
    FlatMapEmpty(logs, f);
    forall e | 0 <= e < |logs|
      ensures f(logs[e]) == [] <==> DealtCleanly(logs[e])
    {
      var log := logs[e];
      if log.records != [] {
        var hand := log.records[0].state.currentPlayerHand;
        assert f(logs[e]) == ForeignIn(cat, log.name, hand.unplayedCards, "hand", gameIndex)
          + ForeignIn(cat, log.name, hand.playedCards, "played cards", gameIndex);
      }
    }
  }

  /**
   * At most two violations per player, each attributed to turn 0 and to a
   * player whose log is in the trace.
   */
  lemma HandViolationShape(cat: Catalog, logs: seq<PlayerLog>, gameIndex: int)
    ensures |HandViolations(cat, logs, gameIndex)| <= 2 * |logs|
    ensures forall v :: v in HandViolations(cat, logs, gameIndex) ==>
      v.checkName == StartingHandsCheck && v.gameIndex == gameIndex && v.turn == 0 && v.context == None
      && v.playerName.Some? && exists e :: 0 <= e < |logs| && logs[e].name == v.playerName.value
  {
    var f := HandPiece(cat, gameIndex);
    FlatMapBound(logs, f, 2);
    forall v | v in HandViolations(cat, logs, gameIndex)
      ensures v.checkName == StartingHandsCheck && v.gameIndex == gameIndex && v.turn == 0 && v.context == None
      ensures v.playerName.Some? && exists e :: 0 <= e < |logs| && logs[e].name == v.playerName.value
    {
      FlatMapMember(logs, f, v);
      var e :| 0 <= e < |logs| && v in f(logs[e]);
      assert v.playerName == Some(logs[e].name);
    }
  }
}
