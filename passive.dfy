/** PassiveStrategy: ends the phase whenever it may, whatever the state or the triggering event. */
module PassiveStrategy {
  import opened Wrappers
  import opened Atg
  import opened Scans

  function Choice(cat: Catalog, state: GameState, options: seq<Decision>, event: Option<Event>): (d: Decision)
    requires |options| > 0
    ensures d in options
    ensures EndPhaseDecision in options ==> d == EndPhaseDecision
    ensures EndPhaseDecision !in options ==> d == options[0]
  {
    EndPhaseOrFirst(cat, options)
  }
}
