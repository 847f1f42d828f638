/**
 * VerifierHarness: builds the players of each game, lets the engine play,
 * gathers the trace, checks it, and finally runs the adversarial game.
 *
 * The engine under test is not part of this model. Each game's behaviour is
 * given as an EngineRun: the calls the engine makes on the players and the
 * observer, in order, and how play() ends once those calls are answered.
 */
module Harness {
  import opened Wrappers
  import opened Seqs
  import opened Atg
  import opened Violations
  import opened Traces
  import opened DecisionStrategy
  import opened Players
  import opened InvariantChecker
  import opened Reports

  // ----- The engine, as a script -----

  /** One call the engine makes: a decision asked of the player at `seat`, or an observer notification. */
  datatype EngineCall =
    | Ask(seat: nat, state: GameState, options: seq<Decision>, trigger: Option<Event>, draw: int)
    | Notify(snapshot: Option<GameState>, event: Event)

  /** How play() ends: by returning a result, which may be null (None), or by throwing. */
  datatype EngineOutcome = Returned(result: Option<GameResult>) | Threw(failure: EngineFailure)

  datatype EngineRun = EngineRun(calls: seq<EngineCall>, outcome: EngineOutcome)

  /** Every decision is asked of one of the `n` players handed to the engine. */
  predicate SeatsWithin(run: EngineRun, n: nat) {
    forall k :: 0 <= k < |run.calls| && run.calls[k].Ask? ==> run.calls[k].seat < n
  }

  // ----- Players -----

  datatype Seat = Seat(name: string, strategy: Strategy)

  /** The five player configurations createPlayers rotates through. */
  function Lineup(config: int): (seats: seq<Seat>)
    requires 0 <= config < 5
    ensures config == 2 ==> |seats| == 3
    ensures config == 3 ==> |seats| == 4
    ensures config != 2 && config != 3 ==> |seats| == 2
    ensures DistinctSeats(seats)
  {
    match config
    case 0 => [Seat("BigMoney-1", BigMoney), Seat("BigMoney-2", BigMoney)]
    case 1 => [Seat("ActionHeavy-1", ActionHeavy), Seat("ActionHeavy-2", ActionHeavy)]
    case 2 => [Seat("BigMoney", BigMoney), Seat("ActionHeavy", ActionHeavy), Seat("Passive", Passive)]
    case 3 => [Seat("Random-1", RandomLegal), Seat("Random-2", RandomLegal),
               Seat("Random-3", RandomLegal), Seat("Random-4", RandomLegal)]
    case 4 => [Seat("Passive-1", Passive), Seat("Passive-2", Passive)]
  }

  predicate DistinctSeats(seats: seq<Seat>) {
    forall i, j :: 0 <= i < j < |seats| ==> seats[i].name != seats[j].name
  }

  /** Each configuration uses a single strategy, except configuration 2, which seats one of each deterministic kind. */
  lemma LineupStrategies(config: int)
    requires 0 <= config < 5
    ensures config != 2 ==> forall i, j :: 0 <= i < j < |Lineup(config)| ==> Lineup(config)[i].strategy == Lineup(config)[j].strategy
    ensures config == 2 ==> [Lineup(2)[0].strategy, Lineup(2)[1].strategy, Lineup(2)[2].strategy] == [BigMoney, ActionHeavy, Passive]
    ensures (exists i :: 0 <= i < |Lineup(config)| && Lineup(config)[i].strategy == RandomLegal) <==> config == 3
  {
    if config == 3 {
      assert Lineup(config)[0].strategy == RandomLegal;
    }
  }

  /** The player objects sit in the seats given, in order, and share one catalog. */
  ghost predicate Seated(players: seq<VerifierPlayer>, seats: seq<Seat>, cat: Catalog) {
    && |players| == |seats|
    && forall i :: 0 <= i < |players| ==>
         players[i].name == seats[i].name && players[i].strategy == seats[i].strategy && players[i].cat == cat
  }

  predicate DistinctObjects(players: seq<VerifierPlayer>) {
    forall i, j :: 0 <= i < j < |players| ==> players[i] != players[j]
  }

  /** createPlayers: new players for configuration gameIndex mod 5, with empty logs. */
  method CreatePlayers(cat: Catalog, gameIndex: int) returns (players: seq<VerifierPlayer>)
    requires gameIndex >= 0
    ensures Seated(players, Lineup(gameIndex % 5), cat)
    ensures DistinctObjects(players)
    ensures forall i :: 0 <= i < |players| ==> fresh(players[i]) && players[i].decisionLog == []
  {
    var config := gameIndex % 5;
    if config == 0 {
      var a := new VerifierPlayer("BigMoney-1", BigMoney, cat);
      var b := new VerifierPlayer("BigMoney-2", BigMoney, cat);
      players := [a, b];
    } else if config == 1 {
      var a := new VerifierPlayer("ActionHeavy-1", ActionHeavy, cat);
      var b := new VerifierPlayer("ActionHeavy-2", ActionHeavy, cat);
      players := [a, b];
    } else if config == 2 {
      var a := new VerifierPlayer("BigMoney", BigMoney, cat);
      var b := new VerifierPlayer("ActionHeavy", ActionHeavy, cat);
      var c := new VerifierPlayer("Passive", Passive, cat);
      players := [a, b, c];
    } else if config == 3 {
      var a := new VerifierPlayer("Random-1", RandomLegal, cat);
      var b := new VerifierPlayer("Random-2", RandomLegal, cat);
      var c := new VerifierPlayer("Random-3", RandomLegal, cat);
      var d := new VerifierPlayer("Random-4", RandomLegal, cat);
      players := [a, b, c, d];
    } else {
      var a := new VerifierPlayer("Passive-1", Passive, cat);
      var b := new VerifierPlayer("Passive-2", Passive, cat);
      players := [a, b];
    }
  }

  // ----- What a game does to its players and observer -----

  /** A decision the seated strategy cannot answer: its choose throws, and so does play(). */
  predicate Stuck(seats: seq<Seat>, c: EngineCall) {
    c.Ask? && c.seat < |seats| && !CanChoose(seats[c.seat].strategy, c.options, c.draw)
  }

  /** The index of the first stuck call at or after `from`, or |calls| if there is none. */
  function FirstStuck(seats: seq<Seat>, calls: seq<EngineCall>, from: nat): (r: nat)
    requires from <= |calls|
    ensures from <= r <= |calls|
    ensures forall k :: from <= k < r ==> !Stuck(seats, calls[k])
    ensures r < |calls| ==> Stuck(seats, calls[r])
    decreases |calls| - from
  {
    if from == |calls| then from
    else if Stuck(seats, calls[from]) then from
    else FirstStuck(seats, calls, from + 1)
  }

  /** The calls that actually happen: those before the first stuck one. */
  function Played(seats: seq<Seat>, run: EngineRun): seq<EngineCall> {
    run.calls[..FirstStuck(seats, run.calls, 0)]
  }

  /** A stuck call ends play() with the strategy's exception; otherwise the engine's own outcome stands. */
  function Outcome(seats: seq<Seat>, run: EngineRun): EngineOutcome {
    if FirstStuck(seats, run.calls, 0) < |run.calls| then Threw(OtherException) else run.outcome
  }

  function EventPiece(): EngineCall -> seq<ObservedEvent> {
    (c: EngineCall) => if c.Notify? then [ObservedEvent(c.snapshot, c.event)] else []
  }

  /** What the recorder keeps: every notification, in order. */
  function Notifications(calls: seq<EngineCall>): seq<ObservedEvent> {
    FlatMap(calls, EventPiece())
  }

  /** A decision asked of seat s that its strategy can answer. */
  predicate AnswerableBy(seats: seq<Seat>, s: nat, c: EngineCall) {
    c.Ask? && c.seat == s && s < |seats| && CanChoose(seats[s].strategy, c.options, c.draw)
  }

  /** The record VerifierPlayer.makeDecision appends for such a call. */
  function AnswerRecord(cat: Catalog, seats: seq<Seat>, s: nat, c: EngineCall): DecisionRecord
    requires AnswerableBy(seats, s, c)
  {
    DecisionRecord(c.state, c.options, Choice(cat, seats[s].strategy, c.state, c.options, c.trigger, c.draw), c.trigger)
  }

  function RecordPiece(cat: Catalog, seats: seq<Seat>, s: nat): EngineCall -> seq<DecisionRecord> {
    (c: EngineCall) => if AnswerableBy(seats, s, c) then [AnswerRecord(cat, seats, s, c)] else []
  }

  /** What seat s's log holds: one record per decision asked of it, answered by its strategy. */
  function Records(cat: Catalog, seats: seq<Seat>, s: nat, calls: seq<EngineCall>): seq<DecisionRecord> {
    FlatMap(calls, RecordPiece(cat, seats, s))
  }

  /** The decisions map runGame builds: put(name, log) for the first n players, in order. */
  function LogsUpTo(cat: Catalog, seats: seq<Seat>, calls: seq<EngineCall>, n: nat): seq<PlayerLog>
    requires n <= |seats|
    decreases n
  {
    if n == 0 then []
    else Put(LogsUpTo(cat, seats, calls, n - 1), seats[n - 1].name, Records(cat, seats, n - 1, calls))
  }

  /** The trace runGame returns for a game whose players sit in `seats`. */
  function TraceOf(cat: Catalog, gameIndex: int, seats: seq<Seat>, run: EngineRun): GameTrace {
    var played := Played(seats, run);
    var outcome := Outcome(seats, run);
    GameTrace(gameIndex, |seats|, Notifications(played), LogsUpTo(cat, seats, played, |seats|),
      if outcome.Returned? then outcome.result else None,
      if outcome.Threw? then Some(outcome.failure) else None)
  }

  /** One call of the script: notify the recorder, or ask the seated player. */
  method Perform(cat: Catalog, players: seq<VerifierPlayer>, ghost seats: seq<Seat>, recorder: ObserverRecorder, c: EngineCall)
    requires Seated(players, seats, cat) && DistinctObjects(players)
    requires c.Ask? ==> c.seat < |players| && CanChoose(players[c.seat].strategy, c.options, c.draw)
    modifies players, recorder
    ensures recorder.events == old(recorder.events) + EventPiece()(c)
    ensures forall i :: 0 <= i < |players| ==>
      players[i].decisionLog == old(players[i].decisionLog) + RecordPiece(cat, seats, i)(c)
  {
    if c.Notify? {
      recorder.NotifyEvent(c.snapshot, c.event);
    } else {
      var p := players[c.seat];
      var _ := p.MakeDecision(c.state, c.options, c.trigger, c.draw);
      assert AnswerableBy(seats, c.seat, c);
    }
  }

  lemma RecordsSnoc(cat: Catalog, seats: seq<Seat>, calls: seq<EngineCall>, k: nat)
    requires k < |calls|
    ensures Notifications(calls[..k + 1]) == Notifications(calls[..k]) + EventPiece()(calls[k])
    ensures forall i :: 0 <= i < |seats| ==>
      Records(cat, seats, i, calls[..k + 1]) == Records(cat, seats, i, calls[..k]) + RecordPiece(cat, seats, i)(calls[k])
  {
    FlatMapSnoc(calls, k, EventPiece());
    forall i | 0 <= i < |seats|
      ensures Records(cat, seats, i, calls[..k + 1]) == Records(cat, seats, i, calls[..k]) + RecordPiece(cat, seats, i)(calls[k])
    {
      FlatMapSnoc(calls, k, RecordPiece(cat, seats, i));
    }
  }

  /** The engine's calls answered in order, up to the first one a strategy cannot answer; returns where it stopped. */
  method AnswerCalls(cat: Catalog, players: seq<VerifierPlayer>, ghost seats: seq<Seat>, recorder: ObserverRecorder, calls: seq<EngineCall>)
    returns (k: nat)
    requires Seated(players, seats, cat) && DistinctObjects(players)
    requires forall j :: 0 <= j < |calls| && calls[j].Ask? ==> calls[j].seat < |players|
    requires recorder.events == [] && forall i :: 0 <= i < |players| ==> players[i].decisionLog == []
    modifies players, recorder
    ensures k == FirstStuck(seats, calls, 0)
    ensures recorder.events == Notifications(calls[..k])
    ensures forall i :: 0 <= i < |players| ==>
      players[i].decisionLog == Records(cat, seats, i, calls[..k])
  {
    k := 0;
    while k < |calls|
      invariant k <= FirstStuck(seats, calls, 0)
      invariant recorder.events == Notifications(calls[..k])
      invariant forall i :: 0 <= i < |players| ==>
        players[i].decisionLog == Records(cat, seats, i, calls[..k])
    {
      var c := calls[k];
      if c.Ask? && !CanChoose(players[c.seat].strategy, c.options, c.draw) {
        assert Stuck(seats, c);
        assert FirstStuck(seats, calls, 0) == k;
        return;
      }
      assert !Stuck(seats, calls[k]);
      RecordsSnoc(cat, seats, calls, k);
      Perform(cat, players, seats, recorder, c);
      k := k + 1;
    }
    assert FirstStuck(seats, calls, 0) == k;
  }

  /** engine.play(): answer the engine's calls one by one until it ends or a strategy throws. */
  method Play(cat: Catalog, players: seq<VerifierPlayer>, ghost seats: seq<Seat>, recorder: ObserverRecorder, run: EngineRun)
    returns (outcome: EngineOutcome)
    requires Seated(players, seats, cat) && DistinctObjects(players)
    requires SeatsWithin(run, |players|)
    requires recorder.events == [] && forall i :: 0 <= i < |players| ==> players[i].decisionLog == []
    modifies players, recorder
    ensures outcome == Outcome(seats, run)
    ensures recorder.events == Notifications(Played(seats, run))
    ensures forall i :: 0 <= i < |players| ==>
      players[i].decisionLog == Records(cat, seats, i, Played(seats, run))
  {
    var k := AnswerCalls(cat, players, seats, recorder, run.calls);
    if k < |run.calls| {
      outcome := Threw(OtherException);
    } else {
      outcome := run.outcome;
    }
  }

  /** The decisions map: put each player's name and current log, in player order. */
  method CollectLogs(cat: Catalog, players: seq<VerifierPlayer>, ghost seats: seq<Seat>, ghost calls: seq<EngineCall>)
    returns (decisions: seq<PlayerLog>)
    requires Seated(players, seats, cat)
    requires forall i :: 0 <= i < |players| ==> players[i].decisionLog == Records(cat, seats, i, calls)
    ensures decisions == LogsUpTo(cat, seats, calls, |seats|)
  {
    decisions := [];
    for i := 0 to |players|
      invariant decisions == LogsUpTo(cat, seats, calls, i)
    {
      decisions := Put(decisions, players[i].name, players[i].decisionLog);
    }
  }

  /** runGame: play one game with a fresh recorder, then collect every player's log by name. */
  method RunGame(cat: Catalog, gameIndex: int, players: seq<VerifierPlayer>, ghost seats: seq<Seat>, run: EngineRun)
    returns (trace: GameTrace)
    requires Seated(players, seats, cat) && DistinctObjects(players)
    requires forall i :: 0 <= i < |players| ==> players[i].decisionLog == []
    requires SeatsWithin(run, |players|)
    modifies players
    ensures trace == TraceOf(cat, gameIndex, seats, run)
  {
    var recorder := new ObserverRecorder();
    var outcome := Play(cat, players, seats, recorder, run);
    ghost var played := Played(seats, run);
    var decisions := CollectLogs(cat, players, seats, played);
    var result := if outcome.Returned? then outcome.result else None;
    var exception := if outcome.Threw? then Some(outcome.failure) else None;
    trace := GameTrace(gameIndex, |players|, recorder.events, decisions, result, exception);
  }

  /** With distinct names, the decisions map is one entry per player, in seating order. */
  lemma {:induction false} LogsInSeatOrder(cat: Catalog, seats: seq<Seat>, calls: seq<EngineCall>, n: nat)
    requires n <= |seats| && DistinctSeats(seats)
    ensures |LogsUpTo(cat, seats, calls, n)| == n
    ensures forall i :: 0 <= i < n ==>
      LogsUpTo(cat, seats, calls, n)[i] == PlayerLog(seats[i].name, Records(cat, seats, i, calls))
    decreases n
  {
    if n > 0 {
      LogsInSeatOrder(cat, seats, calls, n - 1);
      var before := LogsUpTo(cat, seats, calls, n - 1);
      var name := seats[n - 1].name;
      forall k | 0 <= k < |before|
        ensures before[k].name != name
      {
        assert before[k].name == seats[k].name;
      }
      assert IndexOfName(before, name).None?;
      assert LogsUpTo(cat, seats, calls, n) == before + [PlayerLog(name, Records(cat, seats, n - 1, calls))];
    }
  }

  /** Every logged decision comes from a call asked of that seat and holds its strategy's answer, one of the options offered. */
  lemma RecordsAreStrategyAnswers(cat: Catalog, seats: seq<Seat>, s: nat, calls: seq<EngineCall>)
    requires s < |seats|
    ensures forall d :: d in Records(cat, seats, s, calls) ==>
      && d.chosen in d.options
      && (exists k :: 0 <= k < |calls| && AnswerableBy(seats, s, calls[k]) && d == AnswerRecord(cat, seats, s, calls[k]))
  {
    forall d | d in Records(cat, seats, s, calls)
      ensures d.chosen in d.options
      ensures exists k :: 0 <= k < |calls| && AnswerableBy(seats, s, calls[k]) && d == AnswerRecord(cat, seats, s, calls[k])
    {
      FlatMapMember(calls, RecordPiece(cat, seats, s), d);
    }
  }

  /** Seat s's log has exactly as many records as decisions the engine asked of it. */
  lemma RecordsCount(cat: Catalog, seats: seq<Seat>, s: nat, calls: seq<EngineCall>)
    requires s < |seats|
    requires forall k :: 0 <= k < |calls| ==> !Stuck(seats, calls[k])
    ensures |Records(cat, seats, s, calls)| == |AskedOf(s, calls)|
  {
    var f := RecordPiece(cat, seats, s);
    FlatMapCount(calls, f);
    assert Contributors(calls, f) == AskedOf(s, calls);
  }

  ghost function AskedOf(s: nat, calls: seq<EngineCall>): set<int> {
    set k | 0 <= k < |calls| && calls[k].Ask? && calls[k].seat == s
  }

  /**
   * A game that threw, or whose play() returned null, stores no result, is not
   * checked and counts as failed; only the thrown one stores an exception.
   */
  lemma IncompleteGameFails(cat: Catalog, gameIndex: int, seats: seq<Seat>, run: EngineRun)
    requires Outcome(seats, run).Threw? || Outcome(seats, run) == Returned(None)
    ensures TraceOf(cat, gameIndex, seats, run).result.None?
    ensures TraceOf(cat, gameIndex, seats, run).exception.Some? <==> Outcome(seats, run).Threw?
    ensures !TraceOf(cat, gameIndex, seats, run).CompletedSuccessfully()
    ensures AllViolations(cat, TraceOf(cat, gameIndex, seats, run)) == []
  {
    IncompleteTraceClean(cat, TraceOf(cat, gameIndex, seats, run));
  }

  /** A strategy that cannot answer ends the game with an exception, after exactly the calls before it. */
  lemma StuckCallEndsGame(seats: seq<Seat>, run: EngineRun, k: nat)
    requires k < |run.calls| && Stuck(seats, run.calls[k])
    ensures Outcome(seats, run) == Threw(OtherException)
    ensures |Played(seats, run)| <= k
  {
  }

  // ----- The adversarial game -----

  /** How many decisions the calls ask of seat 0, the cheater. */
  function CheaterAsks(calls: seq<EngineCall>): nat
    decreases |calls|
  {
    if calls == [] then 0
    else CheaterAsks(calls[..|calls| - 1]) + (if calls[|calls| - 1].Ask? && calls[|calls| - 1].seat == 0 then 1 else 0)
  }

  /**
   * Call k of the adversarial game throws inside a player: an empty option list
   * given to the honest BigMoney player, or to the cheater on one of its first two calls.
   */
  predicate CheatStuck(calls: seq<EngineCall>, k: nat)
    requires k < |calls|
  {
    calls[k].Ask? && |calls[k].options| == 0 && (calls[k].seat != 0 || CheaterAsks(calls[..k]) + 1 <= 2)
  }

  function FirstCheatStuck(calls: seq<EngineCall>, from: nat): (r: nat)
    requires from <= |calls|
    ensures from <= r <= |calls|
    ensures forall k :: from <= k < r ==> !CheatStuck(calls, k)
    ensures r < |calls| ==> CheatStuck(calls, r)
    decreases |calls| - from
  {
    if from == |calls| then from
    else if CheatStuck(calls, from) then from
    else FirstCheatStuck(calls, from + 1)
  }

  function MissedViolation(gameIndex: int): Violation {
    NewViolation("PlayerViolationException", "Engine did not throw PlayerViolationException for invalid decision", gameIndex)
  }

  /** runViolationTest's answer: a finding exactly when play() returned normally; any exception is accepted. */
  function AdversarialVerdict(gameIndex: int, run: EngineRun): (v: Option<Violation>)
    ensures v.Some? <==> FirstCheatStuck(run.calls, 0) == |run.calls| && run.outcome.Returned?
    ensures v.Some? ==> v.value == MissedViolation(gameIndex) && GameWide(v.value, "PlayerViolationException", gameIndex)
  {
    if FirstCheatStuck(run.calls, 0) < |run.calls| || run.outcome.Threw? then None
    else Some(MissedViolation(gameIndex))
  }

  /** runViolationTest: a cheater (seat 0) and an honest BigMoney player (seat 1) play one game. */
  method RunViolationTest(cat: Catalog, gameIndex: int, run: EngineRun) returns (v: Option<Violation>)
    requires SeatsWithin(run, 2)
    ensures v == AdversarialVerdict(gameIndex, run)
  {
    var recorder := new ObserverRecorder();
    var cheater := new CheatingPlayer("Cheater");
    var honest := new VerifierPlayer("Honest", BigMoney, cat);
    var k := 0;
    while k < |run.calls|
      invariant k <= |run.calls|
      invariant cheater.callCount == CheaterAsks(run.calls[..k])
      invariant forall j :: 0 <= j < k ==> !CheatStuck(run.calls, j)
    {
      var c := run.calls[k];
      assert run.calls[..k + 1][..k] == run.calls[..k];
      if c.Ask? && |c.options| == 0 && (c.seat != 0 || cheater.callCount + 1 <= 2) {
        assert CheatStuck(run.calls, k);
        assert FirstCheatStuck(run.calls, 0) == k;
        return None;
      }
      if c.Notify? {
        recorder.NotifyEvent(c.snapshot, c.event);
      } else if c.seat == 0 {
        var _ := cheater.MakeDecision(c.state, c.options, c.trigger);
      } else {
        var _ := honest.MakeDecision(c.state, c.options, c.trigger, c.draw);
      }
      k := k + 1;
    }
    assert FirstCheatStuck(run.calls, 0) == k;
    if run.outcome.Returned? {
      v := Some(MissedViolation(gameIndex));
    } else {
      v := None;
    }
  }

  // ----- verify -----

  /** The trace of normal game i: configuration i mod 5 playing run i. */
  function GameTraceAt(cat: Catalog, runs: seq<EngineRun>, i: nat): GameTrace
    requires i < |runs|
  {
    TraceOf(cat, i, Lineup(i % 5), runs[i])
  }

  /** A game passes when it completed and no check reported anything. */
  predicate Passes(cat: Catalog, trace: GameTrace) {
    AllViolations(cat, trace) == [] && trace.CompletedSuccessfully()
  }

  /** Game i's findings, as InvariantChecker.check reports them. */
  function GameFindings(cat: Catalog, runs: seq<EngineRun>): nat -> seq<Violation> {
    (i: nat) => if i < |runs| then AllViolations(cat, GameTraceAt(cat, runs, i)) else []
  }

  /** Whether game i passes. */
  function GamePasses(cat: Catalog, runs: seq<EngineRun>): nat -> bool {
    (i: nat) => i < |runs| && Passes(cat, GameTraceAt(cat, runs, i))
  }

  /** The engine script for every game: normal game i asks only its own players, the adversarial game only its two. */
  predicate Scripted(numGames: int, runs: seq<EngineRun>, adversarial: EngineRun) {
    && numGames <= |runs|
    && (forall i :: 0 <= i < numGames ==> SeatsWithin(runs[i], |Lineup(i % 5)|))
    && SeatsWithin(adversarial, 2)
  }

  function GamesRun(numGames: int): nat {
    if numGames < 0 then 0 else numGames
  }

  /** The VerificationResult verify returns. */
  function Outcomes(cat: Catalog, numGames: int, runs: seq<EngineRun>, adversarial: EngineRun): VerificationResult
    requires Scripted(numGames, runs, adversarial)
  {
    var n := GamesRun(numGames);
    var missed := AdversarialVerdict(numGames, adversarial);
    VerificationResult(
      numGames + 1,
      CountWhere(n, GamePasses(cat, runs)) + (if missed.None? then 1 else 0),
      Gather(n, GameFindings(cat, runs)) + (if missed.Some? then [missed.value] else []))
  }

  /** Game i of verify's first loop: seat configuration i mod 5 and play the engine's run. */
  method PlayGame(cat: Catalog, runs: seq<EngineRun>, i: nat) returns (trace: GameTrace)
    requires i < |runs| && SeatsWithin(runs[i], |Lineup(i % 5)|)
    ensures trace == GameTraceAt(cat, runs, i)
  {
    var players := CreatePlayers(cat, i);
    trace := RunGame(cat, i, players, Lineup(i % 5), runs[i]);
  }

  /** The check of game i: its findings, and whether it passes. */
  method CheckGame(cat: Catalog, runs: seq<EngineRun>, i: nat) returns (violations: seq<Violation>, passes: bool)
    requires i < |runs| && SeatsWithin(runs[i], |Lineup(i % 5)|)
    ensures violations == GameFindings(cat, runs)(i)
    ensures passes == GamePasses(cat, runs)(i)
  {
    var trace := PlayGame(cat, runs, i);
    violations := Check(cat, trace);
    passes := violations == [] && trace.CompletedSuccessfully();
  }

  /** One iteration of verify's first loop: play game i, check its trace, add its findings and its pass. */
  method PlayNormalGame(cat: Catalog, runs: seq<EngineRun>, i: nat, allViolations: seq<Violation>, passed: nat)
    returns (allViolations': seq<Violation>, passed': nat)
    requires i < |runs| && SeatsWithin(runs[i], |Lineup(i % 5)|)
    requires allViolations == Gather(i, GameFindings(cat, runs)) && passed == CountWhere(i, GamePasses(cat, runs))
    ensures allViolations' == Gather(i + 1, GameFindings(cat, runs)) && passed' == CountWhere(i + 1, GamePasses(cat, runs))
  {
    var violations, passes := CheckGame(cat, runs, i);
    GatherStep(i, GameFindings(cat, runs), GamePasses(cat, runs), allViolations, passed, violations, passes);
    allViolations' := allViolations + violations;
    passed' := if passes then passed + 1 else passed;
  }

  /** verify's first loop: the normal games, collecting findings and counting passes. */
  method PlayNormalGames(cat: Catalog, numGames: int, runs: seq<EngineRun>) returns (allViolations: seq<Violation>, passed: nat)
    requires numGames <= |runs|
    requires forall i :: 0 <= i < numGames ==> SeatsWithin(runs[i], |Lineup(i % 5)|)
    ensures allViolations == Gather(GamesRun(numGames), GameFindings(cat, runs))
    ensures passed == CountWhere(GamesRun(numGames), GamePasses(cat, runs))
  {
    allViolations := [];
    passed := 0;
    var i := 0;
    while i < numGames
      invariant 0 <= i <= GamesRun(numGames)
      invariant allViolations == Gather(i, GameFindings(cat, runs))
      invariant passed == CountWhere(i, GamePasses(cat, runs))
    {
      allViolations, passed := PlayNormalGame(cat, runs, i, allViolations, passed);
      i := i + 1;
    }
    assert i == GamesRun(numGames);
  }

  /** verify: the normal games in order, then the adversarial game. */
  method Verify(cat: Catalog, numGames: int, runs: seq<EngineRun>, adversarial: EngineRun) returns (result: VerificationResult)
    requires Scripted(numGames, runs, adversarial)
    ensures result == Outcomes(cat, numGames, runs, adversarial)
  {
    var allViolations, passed := PlayNormalGames(cat, numGames, runs);
    var violationResult := RunViolationTest(cat, numGames, adversarial);
    if violationResult.Some? {
      allViolations := allViolations + [violationResult.value];
    } else {
      passed := passed + 1;
    }
    result := VerificationResult(numGames + 1, passed, allViolations);
  }

  /** verify reports one more game than requested, and never more passes than games. */
  lemma VerifyCounts(cat: Catalog, numGames: int, runs: seq<EngineRun>, adversarial: EngineRun)
    requires Scripted(numGames, runs, adversarial) && numGames >= 0
    ensures Outcomes(cat, numGames, runs, adversarial).gamesPlayed == numGames + 1
    ensures 0 <= Outcomes(cat, numGames, runs, adversarial).gamesPassed <= numGames + 1
    ensures Outcomes(cat, numGames, runs, adversarial).gamesPassed == numGames + 1 <==>
      (forall i :: 0 <= i < numGames ==> GamePasses(cat, runs)(i)) && AdversarialVerdict(numGames, adversarial).None?
  {
    CountWhereBound(numGames, GamePasses(cat, runs));
  }

  /** The result is compliant exactly when every normal game is clean and the engine rejected the cheater. */
  lemma VerifyCompliance(cat: Catalog, numGames: int, runs: seq<EngineRun>, adversarial: EngineRun)
    requires Scripted(numGames, runs, adversarial) && numGames >= 0
    ensures Outcomes(cat, numGames, runs, adversarial).IsCompliant() <==>
      (forall i :: 0 <= i < numGames ==> GameFindings(cat, runs)(i) == []) && AdversarialVerdict(numGames, adversarial).None?
  {
    GatherEmpty(numGames, GameFindings(cat, runs));
  }

  /** Normal game i reports its findings as game i. */
  lemma GameFindingsIndex(cat: Catalog, runs: seq<EngineRun>, i: nat)
    requires i < |runs|
    ensures forall u :: u in GameFindings(cat, runs)(i) ==> u.gameIndex == i
  {
    FindingsCarryGameIndex(cat, GameTraceAt(cat, runs, i));
  }

  /** The findings of the first n normal games name games 0 to n - 1. */
  lemma NormalFindingsIndices(cat: Catalog, runs: seq<EngineRun>, n: nat)
    requires n <= |runs|
    ensures forall u :: u in Gather(n, GameFindings(cat, runs)) ==> 0 <= u.gameIndex < n
  {
    var f := GameFindings(cat, runs);
    var p := (i: nat, u: Violation) => u.gameIndex == i;
    forall i: nat | i < n
      ensures forall u :: u in f(i) ==> p(i, u)
    {
      GameFindingsIndex(cat, runs, i);
    }
    GatherAll(n, f, p);
  }

  /**
   * Every finding of the result names a game that was played: normal game i
   * reports as game i, and only the adversarial finding uses index numGames.
   */
  lemma VerifyGameIndices(cat: Catalog, numGames: int, runs: seq<EngineRun>, adversarial: EngineRun)
    requires Scripted(numGames, runs, adversarial) && numGames >= 0
    ensures forall v :: v in Outcomes(cat, numGames, runs, adversarial).violations ==> 0 <= v.gameIndex <= numGames
    ensures forall v :: v in Outcomes(cat, numGames, runs, adversarial).violations && v.gameIndex == numGames ==>
      v == MissedViolation(numGames)
  {
    NormalFindingsIndices(cat, runs, numGames);
    AppendMissed(Gather(numGames, GameFindings(cat, runs)), AdversarialVerdict(numGames, adversarial), numGames);
  }

  lemma AppendMissed(normal: seq<Violation>, missed: Option<Violation>, n: int)
    requires n >= 0 && forall u :: u in normal ==> 0 <= u.gameIndex < n
    requires missed.Some? ==> missed.value == MissedViolation(n)
    ensures forall v :: v in normal + (if missed.Some? then [missed.value] else []) ==>
      0 <= v.gameIndex <= n && (v.gameIndex == n ==> v == MissedViolation(n))
  {
  }
}
