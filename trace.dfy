/**
 * The records one game leaves behind: decision records, observed events, the
 * per-player decision logs and the game trace that aggregates them.
 */
module Traces {
  import opened Wrappers
  import opened Atg

  /** One makeDecision call: the state, the options offered, the option chosen, the triggering event. */
  datatype DecisionRecord = DecisionRecord(
    state: GameState,
    options: seq<Decision>,
    chosen: Decision,
    triggeringEvent: Option<Event>)

  /** One observer notification; the engine may pass no state (null). */
  datatype ObservedEvent = ObservedEvent(state: Option<GameState>, event: Event)

  /** One entry of the insertion-ordered map from player name to decision log. */
  datatype PlayerLog = PlayerLog(name: string, records: seq<DecisionRecord>)

  datatype GameTrace = GameTrace(
    gameIndex: int,
    numPlayers: int,
    observerEvents: seq<ObservedEvent>,
    playerDecisions: seq<PlayerLog>,
    result: Option<GameResult>,
    exception: Option<EngineFailure>)
  {
    /** The game completed: nothing was thrown and a result is present. */
    predicate CompletedSuccessfully() {
      exception.None? && result.Some?
    }
  }

  /** A trace carrying an exception, or lacking a result, never counts as completed. */
  lemma FailedTraceNotCompleted(t: GameTrace)
    ensures t.exception.Some? ==> !t.CompletedSuccessfully()
    ensures t.result.None? ==> !t.CompletedSuccessfully()
  {
  }

  function IndexOfName(entries: seq<PlayerLog>, name: string): (r: Option<nat>)
    ensures r.Some? ==> r.value < |entries| && entries[r.value].name == name
    ensures r.None? ==> forall k :: 0 <= k < |entries| ==> entries[k].name != name
    decreases |entries|
  {
    if entries == [] then None
    else if entries[0].name == name then Some(0)
    else match IndexOfName(entries[1..], name)
      case None => None
      case Some(k) => Some(k + 1)
  }

  /** LinkedHashMap.get: the log stored under a name, if any. */
  function Lookup(entries: seq<PlayerLog>, name: string): Option<seq<DecisionRecord>> {
    match IndexOfName(entries, name)
    case None => None
    case Some(k) => Some(entries[k].records)
  }

  /**
   * LinkedHashMap.put: a new name goes at the end; an existing name keeps its
   * position and gets the new log.
   */
  function Put(entries: seq<PlayerLog>, name: string, records: seq<DecisionRecord>): (r: seq<PlayerLog>)
    ensures IndexOfName(entries, name).None? ==> r == entries + [PlayerLog(name, records)]
    ensures IndexOfName(entries, name).Some? ==> |r| == |entries|
  {
    match IndexOfName(entries, name)
    case None => entries + [PlayerLog(name, records)]
    case Some(k) => entries[k := PlayerLog(name, records)]
  }

  predicate DistinctNames(entries: seq<PlayerLog>) {
    forall i, j :: 0 <= i < j < |entries| ==> entries[i].name != entries[j].name
  }

  /** After a put, the name maps to the new log and every other name keeps its log. */
  lemma PutThenLookup(entries: seq<PlayerLog>, name: string, records: seq<DecisionRecord>, other: string)
    requires DistinctNames(entries)
    ensures DistinctNames(Put(entries, name, records))
    ensures Lookup(Put(entries, name, records), name) == Some(records)
    ensures other != name ==> Lookup(Put(entries, name, records), other) == Lookup(entries, other)
  {
    var r := Put(entries, name, records);
    assert forall k :: 0 <= k < |r| ==> r[k].name == if k < |entries| then entries[k].name else name;
    UniqueIndex(r, name);
    var at := if IndexOfName(entries, name).Some? then IndexOfName(entries, name).value else |entries|;
    assert r[at] == PlayerLog(name, records);
    UniqueIndex(r, other);
    UniqueIndex(entries, other);
  }

  lemma UniqueIndex(entries: seq<PlayerLog>, name: string)
    requires DistinctNames(entries)
    ensures forall k :: 0 <= k < |entries| && entries[k].name == name ==> IndexOfName(entries, name) == Some(k)
  {
  }
}
