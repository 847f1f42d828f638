/**
 * The types the verifier consumes from the game library it checks engines
 * against (cards, game states, decisions, events, results). The card catalog
 * (which types exist, their cost, value, category and description) belongs to
 * that library, so it is a parameter of the model rather than fixed data.
 */
module Atg {

  /** The card types the verifier names explicitly, plus every other type of the catalog. */
  datatype CardType = Bitcoin | Ethereum | Dogecoin | Method | Module | Framework | Bug | OtherType(id: nat)

  datatype Category = Money | Victory | Action | OtherCategory

  /** Card.Type.values() and the per-type attributes the checks consult. */
  datatype Catalog = Catalog(
    types: seq<CardType>,
    cost: CardType -> int,
    value: CardType -> int,
    category: CardType -> Category,
    description: CardType -> string)

  datatype Card = Card(cardType: CardType)

  function CategoryOf(cat: Catalog, c: Card): Category {
    cat.category(c.cardType)
  }

  datatype TurnPhase = ActionPhase | MoneyPhase | BuyPhase | CleanupPhase | ReactionPhase | GainPhase | DiscardPhase

  /** The buyable-card stacks; a type without a stack has no cards available. */
  datatype Supply = Supply(counts: map<CardType, int>) {
    function NumAvailable(t: CardType): int {
      if t in counts then counts[t] else 0
    }
  }

  datatype Hand = Hand(playedCards: seq<Card>, unplayedCards: seq<Card>)

  datatype GameState = GameState(
    phase: TurnPhase,
    spendableMoney: int,
    availableActions: int,
    availableBuys: int,
    currentPlayerHand: Hand,
    buyableCards: Supply)

  datatype Decision =
    | BuyDecision(cardType: CardType)
    | PlayCardDecision(card: Card)
    | GainCardDecision(cardType: CardType)
    | DiscardCardDecision(card: Card)
    | EndPhaseDecision
    | OtherDecision

  datatype Event =
    | GameStartEvent(initialSupply: Supply)
    | GameEndEvent(finalSupply: Supply)
    | EndTurnEvent
    | GainCardEvent(cardType: CardType)
    | TrashCardEvent(card: Card)
    | OtherEvent

  datatype PlayerResult = PlayerResult(playerName: string, endingDeck: seq<Card>, score: int)

  datatype GameResult = GameResult(playerResults: seq<PlayerResult>)

  /** What engine.play() may throw: the move-legality failure, or anything else. */
  datatype EngineFailure = PlayerViolationException | OtherException
}
