/**
 * BigMoneyStrategy: ends the action phase, plays money, buys Framework when it
 * is offered and otherwise the most valuable money card, gains the costliest card.
 */
module BigMoneyStrategy {
  import opened Wrappers
  import opened Atg
  import opened Scans

  /** buyBest: any offered Framework buy, else the best money buy by value, else end-phase-or-first. */
  function BuyBestChoice(cat: Catalog, options: seq<Decision>): (d: Decision)
    requires |options| > 0
    ensures d in options
    ensures BuyDecision(Framework) in options ==> d == BuyDecision(Framework)
    ensures BuyDecision(Framework) !in options && HasCandidate(cat, MoneyBuyByValue, options) ==>
      exists k :: EarliestBest(cat, MoneyBuyByValue, options, k) && options[k] == d
    ensures BuyDecision(Framework) !in options && !HasCandidate(cat, MoneyBuyByValue, options) ==>
      d == EndPhaseOrFirst(cat, options)
  {
    if BuyDecision(Framework) in options then BuyDecision(Framework)
    else
      match BestOf(cat, MoneyBuyByValue, options)
      case Some(b) => b
      case None => EndPhaseOrFirst(cat, options)
  }

  /** gainHighestCost: the costliest gain (earliest on ties), else the first option. */
  function GainChoice(cat: Catalog, options: seq<Decision>): (d: Decision)
    requires |options| > 0
    ensures d in options
    ensures HasCandidate(cat, GainByCost, options) ==> exists k :: EarliestBest(cat, GainByCost, options, k) && options[k] == d
    ensures !HasCandidate(cat, GainByCost, options) ==> d == options[0]
  {
    match BestOf(cat, GainByCost, options)
    case Some(b) => b
    case None => options[0]
  }

  /** choose, dispatched on the phase. */
  function Choice(cat: Catalog, state: GameState, options: seq<Decision>): (d: Decision)
    requires |options| > 0
    ensures d in options
  {
    match state.phase
    case MoneyPhase => FirstWantedOrEnd(cat, MoneyPlay, options)
    case BuyPhase => BuyBestChoice(cat, options)
    case GainPhase => GainChoice(cat, options)
    case _ => EndPhaseOrFirst(cat, options)
  }

  method FindEndPhaseOrFirst(cat: Catalog, options: seq<Decision>) returns (d: Decision)
    requires |options| > 0
    ensures d == EndPhaseOrFirst(cat, options)
  {
    for i := 0 to |options|
      invariant forall j :: 0 <= j < i ==> !Wants(cat, EndPhaseOption, options[j])
    {
      if options[i].EndPhaseDecision? {
        assert FirstWanted(cat, EndPhaseOption, options, 0) == Some(i);
        return options[i];
      }
    }
    return options[0];
  }

  method PlayMoneyOrEnd(cat: Catalog, options: seq<Decision>) returns (d: Decision)
    requires |options| > 0
    ensures d == FirstWantedOrEnd(cat, MoneyPlay, options)
  {
    for i := 0 to |options|
      invariant forall j :: 0 <= j < i ==> !Wants(cat, MoneyPlay, options[j])
    {
      if options[i].PlayCardDecision? && CategoryOf(cat, options[i].card) == Money {
        assert FirstWanted(cat, MoneyPlay, options, 0) == Some(i);
        return options[i];
      }
    }
    d := FindEndPhaseOrFirst(cat, options);
  }

  method BuyBest(cat: Catalog, options: seq<Decision>) returns (d: Decision)
    requires |options| > 0
    ensures d == BuyBestChoice(cat, options)
  {
    var frameworkBuy: Option<Decision> := None;
    var bestMoney: Option<nat> := None;
    var bestValue := -1;
    for i := 0 to |options|
      invariant frameworkBuy == if BuyDecision(Framework) in options[..i] then Some(BuyDecision(Framework)) else None
      invariant Best(bestMoney, bestValue) == RunningBest(cat, MoneyBuyByValue, options[..i])
    {
      assert options[..i + 1] == options[..i] + [options[i]];
      assert options[..i + 1][..i] == options[..i];
      var o := options[i];
      if o.BuyDecision? {
        if o.cardType == Framework {
          frameworkBuy := Some(o);
        }
        if cat.category(o.cardType) == Money && cat.value(o.cardType) > bestValue {
          bestValue := cat.value(o.cardType);
          bestMoney := Some(i);
        }
      }
    }
    assert options[..|options|] == options;
    if frameworkBuy.Some? {
      return frameworkBuy.value;
    }
    if bestMoney.Some? {
      return options[bestMoney.value];
    }
    d := FindEndPhaseOrFirst(cat, options);
  }

  method GainHighestCost(cat: Catalog, options: seq<Decision>) returns (d: Decision)
    requires |options| > 0
    ensures d == GainChoice(cat, options)
  {
    var best: Option<nat> := None;
    var bestCost := -1;
    for i := 0 to |options|
      invariant Best(best, bestCost) == RunningBest(cat, GainByCost, options[..i])
    {
      assert options[..i + 1][..i] == options[..i];
      var o := options[i];
      if o.GainCardDecision? && cat.cost(o.cardType) > bestCost {
        bestCost := cat.cost(o.cardType);
        best := Some(i);
      }
    }
    assert options[..|options|] == options;
    if best.Some? {
      return options[best.value];
    }
    return options[0];
  }

  method Choose(cat: Catalog, state: GameState, options: seq<Decision>, event: Option<Event>) returns (d: Decision)
    requires |options| > 0
    ensures d == Choice(cat, state, options)
  {
    match state.phase
    case ActionPhase => d := FindEndPhaseOrFirst(cat, options);
    case ReactionPhase => d := FindEndPhaseOrFirst(cat, options);
    case DiscardPhase => d := FindEndPhaseOrFirst(cat, options);
    case CleanupPhase => d := FindEndPhaseOrFirst(cat, options);
    case MoneyPhase => d := PlayMoneyOrEnd(cat, options);
    case BuyPhase => d := BuyBest(cat, options);
    case GainPhase => d := GainHighestCost(cat, options);
  }
}
