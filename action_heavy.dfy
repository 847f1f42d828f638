/**
 * ActionHeavyStrategy: plays and buys action cards first so that engines are
 * driven through reactions, gains, discards and trashing. Its money-playing
 * and gaining rules are copies of BigMoney's and are modelled by BigMoney's members.
 */
module ActionHeavyStrategy {
  import opened Wrappers
  import opened Atg
  import opened Scans
  import BigMoneyStrategy

  /** buyActionOrFramework: the costliest action buy, else any offered Framework buy, else end-phase-or-first. */
  function BuyActionChoice(cat: Catalog, options: seq<Decision>): (d: Decision)
    requires |options| > 0
    ensures d in options
    ensures HasCandidate(cat, ActionBuyByCost, options) ==>
      exists k :: EarliestBest(cat, ActionBuyByCost, options, k) && options[k] == d
    ensures !HasCandidate(cat, ActionBuyByCost, options) && BuyDecision(Framework) in options ==>
      d == BuyDecision(Framework)
    ensures !HasCandidate(cat, ActionBuyByCost, options) && BuyDecision(Framework) !in options ==>
      d == EndPhaseOrFirst(cat, options)
  {
    match BestOf(cat, ActionBuyByCost, options)
    case Some(b) => b
    case None => if BuyDecision(Framework) in options then BuyDecision(Framework) else EndPhaseOrFirst(cat, options)
  }

  /** choose, dispatched on the phase. */
  function Choice(cat: Catalog, state: GameState, options: seq<Decision>): (d: Decision)
    requires |options| > 0
    ensures d in options
  {
    match state.phase
    case ActionPhase => FirstWantedOrEnd(cat, ActionPlay, options)
    case MoneyPhase => FirstWantedOrEnd(cat, MoneyPlay, options)
    case BuyPhase => BuyActionChoice(cat, options)
    case GainPhase => BigMoneyStrategy.GainChoice(cat, options)
    case DiscardPhase => FirstWantedOrEnd(cat, DiscardOption, options)
    case _ => EndPhaseOrFirst(cat, options)
  }

  method PlayActionOrEnd(cat: Catalog, options: seq<Decision>) returns (d: Decision)
    requires |options| > 0
    ensures d == FirstWantedOrEnd(cat, ActionPlay, options)
  {
    for i := 0 to |options|
      invariant forall j :: 0 <= j < i ==> !Wants(cat, ActionPlay, options[j])
    {
      if options[i].PlayCardDecision? && CategoryOf(cat, options[i].card) == Action {
        assert FirstWanted(cat, ActionPlay, options, 0) == Some(i);
        return options[i];
      }
    }
    d := BigMoneyStrategy.FindEndPhaseOrFirst(cat, options);
  }

  method BuyActionOrFramework(cat: Catalog, options: seq<Decision>) returns (d: Decision)
    requires |options| > 0
    ensures d == BuyActionChoice(cat, options)
  {
    var bestAction: Option<nat> := None;
    var bestCost := -1;
    var frameworkBuy: Option<Decision> := None;
    for i := 0 to |options|
      invariant frameworkBuy == if BuyDecision(Framework) in options[..i] then Some(BuyDecision(Framework)) else None
      invariant Best(bestAction, bestCost) == RunningBest(cat, ActionBuyByCost, options[..i])
    {
      assert options[..i + 1] == options[..i] + [options[i]];
      assert options[..i + 1][..i] == options[..i];
      var o := options[i];
      if o.BuyDecision? {
        if o.cardType == Framework {
          frameworkBuy := Some(o);
        }
        if cat.category(o.cardType) == Action && cat.cost(o.cardType) > bestCost {
          bestCost := cat.cost(o.cardType);
          bestAction := Some(i);
        }
      }
    }
    assert options[..|options|] == options;
    if bestAction.Some? {
      return options[bestAction.value];
    }
    if frameworkBuy.Some? {
      return frameworkBuy.value;
    }
    d := BigMoneyStrategy.FindEndPhaseOrFirst(cat, options);
  }

  method DiscardFirst(cat: Catalog, options: seq<Decision>) returns (d: Decision)
    requires |options| > 0
    ensures d == FirstWantedOrEnd(cat, DiscardOption, options)
  {
    for i := 0 to |options|
      invariant forall j :: 0 <= j < i ==> !Wants(cat, DiscardOption, options[j])
    {
      if options[i].DiscardCardDecision? {
        assert FirstWanted(cat, DiscardOption, options, 0) == Some(i);
        return options[i];
      }
    }
    d := BigMoneyStrategy.FindEndPhaseOrFirst(cat, options);
  }

  method Choose(cat: Catalog, state: GameState, options: seq<Decision>, event: Option<Event>) returns (d: Decision)
    requires |options| > 0
    ensures d == Choice(cat, state, options)
  {
    match state.phase
    case ActionPhase => d := PlayActionOrEnd(cat, options);
    case MoneyPhase => d := BigMoneyStrategy.PlayMoneyOrEnd(cat, options);
    case BuyPhase => d := BuyActionOrFramework(cat, options);
    case GainPhase => d := BigMoneyStrategy.GainHighestCost(cat, options);
    case DiscardPhase => d := DiscardFirst(cat, options);
    case ReactionPhase => d := BigMoneyStrategy.FindEndPhaseOrFirst(cat, options);
    case CleanupPhase => d := BigMoneyStrategy.FindEndPhaseOrFirst(cat, options);
  }
}
