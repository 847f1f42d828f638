/** The objects the harness hands to an engine: the instrumented player, the cheater and the event recorder. */
module Players {
  import opened Wrappers
  import opened Atg
  import opened Traces
  import opened DecisionStrategy

  /** Records every makeDecision call and lets its strategy answer. */
  class VerifierPlayer {
    const name: string
    const strategy: Strategy
    const cat: Catalog
    var decisionLog: seq<DecisionRecord>

    constructor(name: string, strategy: Strategy, cat: Catalog)
      ensures this.name == name && this.strategy == strategy && this.cat == cat
      ensures decisionLog == []
    {
      this.name := name;
      this.strategy := strategy;
      this.cat := cat;
      decisionLog := [];
    }

    /** Returns the strategy's answer and appends exactly one record of the call. */
    method MakeDecision(state: GameState, options: seq<Decision>, event: Option<Event>, draw: int) returns (chosen: Decision)
      requires CanChoose(strategy, options, draw)
      modifies this
      ensures chosen == Choice(cat, strategy, state, options, event, draw)
      ensures chosen in options
      ensures decisionLog == old(decisionLog) + [DecisionRecord(state, options, chosen, event)]
    {
      chosen := Choose(cat, strategy, state, options, event, draw);
      decisionLog := decisionLog + [DecisionRecord(state, options, chosen, event)];
    }
  }

  /**
   * The cheater's answer to its call-th call (counting from 1): the first two
   * are legal, and every later one is offered only if a Framework buy happens
   * to be on the list.
   */
  function CheatingAnswer(call: int, options: seq<Decision>): (d: Decision)
    requires call <= 2 ==> |options| > 0
    ensures call <= 2 ==> d in options && d == options[0]
    ensures call > 2 ==> (d in options <==> BuyDecision(Framework) in options)
    ensures call > 2 ==> d.BuyDecision? && d.cardType == Framework
  {
    if call <= 2 then options[0] else BuyDecision(Framework)
  }

  /** Answers its first two calls with the first option, then always with a Framework buy. */
  class CheatingPlayer {
    const name: string
    var callCount: int

    constructor(name: string)
      ensures this.name == name && callCount == 0
    {
      this.name := name;
      callCount := 0;
    }

    method MakeDecision(state: GameState, options: seq<Decision>, event: Option<Event>) returns (d: Decision)
      requires callCount + 1 <= 2 ==> |options| > 0
      modifies this
      ensures callCount == old(callCount) + 1
      ensures d == CheatingAnswer(callCount, options)
    {
      callCount := callCount + 1;
      if callCount <= 2 {
        return options[0];
      }
      return BuyDecision(Framework);
    }
  }

  /** Keeps every notification, in order, including those without a state. */
  class ObserverRecorder {
    var events: seq<ObservedEvent>

    constructor()
      ensures events == []
    {
      events := [];
    }

    method NotifyEvent(state: Option<GameState>, event: Event)
      modifies this
      ensures events == old(events) + [ObservedEvent(state, event)]
    {
      events := events + [ObservedEvent(state, event)];
    }
  }
}
