/**
 * The strategies a VerifierPlayer can be given. RandomLegal picks
 * options[draw]; `draw` stands for the value its seeded random generator
 * returns for the call, which lies in [0, |options|).
 */
module DecisionStrategy {
  import opened Wrappers
  import opened Atg
  import BigMoneyStrategy
  import ActionHeavyStrategy
  import PassiveStrategy

  datatype Strategy = BigMoney | ActionHeavy | Passive | RandomLegal

  /** What a call to choose needs: some option, and for RandomLegal a draw in range. */
  predicate CanChoose(s: Strategy, options: seq<Decision>, draw: int) {
    |options| > 0 && (s.RandomLegal? ==> 0 <= draw < |options|)
  }

  /** Every strategy returns one of the offered options. */
  function Choice(cat: Catalog, s: Strategy, state: GameState, options: seq<Decision>, event: Option<Event>, draw: int): (d: Decision)
    requires CanChoose(s, options, draw)
    ensures d in options
  {
    match s
    case BigMoney => BigMoneyStrategy.Choice(cat, state, options)
    case ActionHeavy => ActionHeavyStrategy.Choice(cat, state, options)
    case Passive => PassiveStrategy.Choice(cat, state, options, event)
    case RandomLegal => options[draw]
  }

  method Choose(cat: Catalog, s: Strategy, state: GameState, options: seq<Decision>, event: Option<Event>, draw: int) returns (d: Decision)
    requires CanChoose(s, options, draw)
    ensures d == Choice(cat, s, state, options, event, draw)
  {
    match s
    case BigMoney => d := BigMoneyStrategy.Choose(cat, state, options, event);
    case ActionHeavy => d := ActionHeavyStrategy.Choose(cat, state, options, event);
    case Passive => d := BigMoneyStrategy.FindEndPhaseOrFirst(cat, options);
    case RandomLegal => d := options[draw];
  }
}
