/**
 * Checks 1 and 2 of InvariantChecker: reported scores match the victory cards
 * of each ending deck, and results are ranked by non-increasing score.
 */
module ScoreChecks {
  import opened Wrappers
  import opened Text
  import opened Seqs
  import opened Atg
  import opened Violations
  import opened Traces

  // Check names and the fixed parts of the messages.
  const ScoreCheck: string := "Score calculation"
  const SumText: string := " but ending deck victory cards sum to "
  const ReportedText: string := "\" reported score "
  const SortedCheck: string := "Results sorted"
  const RankedAfterText: string := ") ranked after \""

  // ----- Check 1: score calculation -----

  function VictoryValue(cat: Catalog, c: Card): int {
    if CategoryOf(cat, c) == Victory then cat.value(c.cardType) else 0
  }

  /** The sum of value over the VICTORY-category cards of a deck. */
  function VictorySum(cat: Catalog, deck: seq<Card>): int
    decreases |deck|
  {
    if deck == [] then 0 else VictorySum(cat, deck[..|deck| - 1]) + VictoryValue(cat, deck[|deck| - 1])
  }

  function ScoreViolation(cat: Catalog, pr: PlayerResult, gameIndex: int): seq<Violation> {
    var computed := VictorySum(cat, pr.endingDeck);
    if computed != pr.score then
      [NewViolation(ScoreCheck,
         "Player \"" + pr.playerName + ReportedText + IntToString(pr.score)
           + SumText + IntToString(computed),
         gameIndex)]
    else []
  }

  function ScorePiece(cat: Catalog, gameIndex: int): PlayerResult -> seq<Violation> {
    pr => ScoreViolation(cat, pr, gameIndex)
  }

  function ScoreViolations(cat: Catalog, results: seq<PlayerResult>, gameIndex: int): seq<Violation> {
    FlatMap(results, ScorePiece(cat, gameIndex))
  }

  method CheckScoreCalculation(cat: Catalog, trace: GameTrace) returns (violations: seq<Violation>)
    requires trace.result.Some?
    ensures violations == ScoreViolations(cat, trace.result.value.playerResults, trace.gameIndex)
  {
    violations := [];
    var results := trace.result.value.playerResults;
    for i := 0 to |results|
      invariant violations == ScoreViolations(cat, results[..i], trace.gameIndex)
    {
      var pr := results[i];
      var computed := 0;
      for j := 0 to |pr.endingDeck|
        invariant computed == VictorySum(cat, pr.endingDeck[..j])
      {
        var card := pr.endingDeck[j];
        if CategoryOf(cat, card) == Victory {
          computed := computed + cat.value(card.cardType);
        }
        assert pr.endingDeck[..j + 1][..j] == pr.endingDeck[..j];
      }
      assert pr.endingDeck[..|pr.endingDeck|] == pr.endingDeck;
      if computed != pr.score {
        violations := violations + [NewViolation(ScoreCheck,
          "Player \"" + pr.playerName + ReportedText + IntToString(pr.score)
            + SumText + IntToString(computed),
          trace.gameIndex)];
      }
      FlatMapSnoc(results, i, ScorePiece(cat, trace.gameIndex));
    }
    assert results[..|results|] == results;
  }

  ghost function Mismatched(cat: Catalog, results: seq<PlayerResult>): set<int> {
    set i | 0 <= i < |results| && VictorySum(cat, results[i].endingDeck) != results[i].score
  }

  /** One violation per player whose reported score differs from the victory-card sum, and none otherwise. */
  lemma ScoreViolationCount(cat: Catalog, results: seq<PlayerResult>, gameIndex: int)
    ensures |ScoreViolations(cat, results, gameIndex)| == |Mismatched(cat, results)|
    ensures ScoreViolations(cat, results, gameIndex) == []
        <==> forall i :: 0 <= i < |results| ==> VictorySum(cat, results[i].endingDeck) == results[i].score
  {
    var f := ScorePiece(cat, gameIndex);
    assert forall i :: 0 <= i < |results| ==> f(results[i]) == ScoreViolation(cat, results[i], gameIndex);
    FlatMapCount(results, f);
    assert ScoreViolations(cat, results, gameIndex) == FlatMap(results, f);
    assert Contributors(results, f) == Mismatched(cat, results);
    FlatMapEmpty(results, f);
  }

  /** Every score violation names the check and the game, and nothing else. */
  lemma ScoreViolationFields(cat: Catalog, results: seq<PlayerResult>, gameIndex: int)
    ensures forall v :: v in ScoreViolations(cat, results, gameIndex) ==> GameWide(v, ScoreCheck, gameIndex)
  {
    FlatMapAll(results, ScorePiece(cat, gameIndex), (v: Violation) => GameWide(v, ScoreCheck, gameIndex));
  }

  // ----- Check 2: results sorted by descending score -----

  function SortViolationAt(results: seq<PlayerResult>, i: nat, gameIndex: int): seq<Violation>
    requires 1 <= i < |results|
  {
    if results[i].score > results[i - 1].score then
      [NewViolation(SortedCheck,
         "Player \"" + results[i].playerName + "\" (score " + IntToString(results[i].score)
           + RankedAfterText + results[i - 1].playerName
           + "\" (score " + IntToString(results[i - 1].score) + ")",
         gameIndex)]
    else []
  }

  /** The finding for the adjacent pair (i-1, i), if i names one. */
  function SortPiece(results: seq<PlayerResult>, gameIndex: int): nat -> seq<Violation> {
    (i: nat) => if 1 <= i < |results| then SortViolationAt(results, i, gameIndex) else []
  }

  /** The violations for the adjacent pairs (i-1, i) with 1 <= i < n. */
  function SortViolationsUpTo(results: seq<PlayerResult>, n: nat, gameIndex: int): seq<Violation>
    requires n <= |results|
  {
    Gather(n, SortPiece(results, gameIndex))
  }

  function SortViolations(results: seq<PlayerResult>, gameIndex: int): seq<Violation> {
    SortViolationsUpTo(results, |results|, gameIndex)
  }

  method CheckResultsSorted(trace: GameTrace) returns (violations: seq<Violation>)
    requires trace.result.Some?
    ensures violations == SortViolations(trace.result.value.playerResults, trace.gameIndex)
  {
    violations := [];
    var results := trace.result.value.playerResults;
    var i := 1;
    while i < |results|
      invariant 1 <= i
      invariant i <= |results| || |results| == 0
      invariant violations == SortViolationsUpTo(results, if |results| == 0 then 0 else i, trace.gameIndex)
    {
      if results[i].score > results[i - 1].score {
        violations := violations + [NewViolation(SortedCheck,
          "Player \"" + results[i].playerName + "\" (score " + IntToString(results[i].score)
            + RankedAfterText + results[i - 1].playerName
            + "\" (score " + IntToString(results[i - 1].score) + ")",
          trace.gameIndex)];
      }
      i := i + 1;
    }
  }

  /** Result i outranks its predecessor: an adjacent inversion. */
  predicate Inverted(results: seq<PlayerResult>, i: int)
    requires 1 <= i < |results|
  {
    results[i].score > results[i - 1].score
  }

  /** Index i is an adjacent inversion of the ranking. */
  function InversionAt(results: seq<PlayerResult>): int -> bool {
    i => 1 <= i < |results| && Inverted(results, i)
  }

  ghost function Inversions(results: seq<PlayerResult>): set<int> {
    Below(|results|, InversionAt(results))
  }

  /** The pair (i-1, i) yields one violation when inverted and none otherwise. */
  lemma SortViolationAtLength(results: seq<PlayerResult>, i: nat, gameIndex: int)
    requires 1 <= i < |results|
    ensures |SortViolationAt(results, i, gameIndex)| == if Inverted(results, i) then 1 else 0
  {
  }

  /** One violation per adjacent inversion among the first n results, and none otherwise. */
  lemma SortViolationCountUpTo(results: seq<PlayerResult>, n: nat, gameIndex: int)
    requires n <= |results|
    ensures |SortViolationsUpTo(results, n, gameIndex)| == |Below(n, InversionAt(results))|
  {
    var piece := SortPiece(results, gameIndex);
    var p := InversionAt(results);
    forall i: nat | i < n
      ensures |piece(i)| == if p(i) then 1 else 0
    {
      if 1 <= i {
        SortViolationAtLength(results, i, gameIndex);
      }
    }
    GatherCount(n, piece, p);
  }

  lemma SortViolationCount(results: seq<PlayerResult>, gameIndex: int)
    ensures |SortViolations(results, gameIndex)| == |Inversions(results)|
  {
    SortViolationCountUpTo(results, |results|, gameIndex);
  }

  predicate NonIncreasing(results: seq<PlayerResult>) {
    forall i, j :: 0 <= i < j < |results| ==> results[j].score <= results[i].score
  }

  /** No violation exactly when the scores never increase along the ranking. */
  lemma SortedIffNoViolations(results: seq<PlayerResult>, gameIndex: int)
    ensures SortViolations(results, gameIndex) == [] <==> NonIncreasing(results)
  {
    SortViolationCount(results, gameIndex);
    if SortViolations(results, gameIndex) == [] {
      assert Inversions(results) == {};
      forall i, j | 0 <= i < j < |results|
        ensures results[j].score <= results[i].score
      {
        AdjacentChain(results, i, j);
      }
    } else {
      assert |Inversions(results)| > 0;
      var k :| k in Inversions(results);
      assert Inverted(results, k);
    }
  }

  lemma {:induction false} AdjacentChain(results: seq<PlayerResult>, i: nat, j: nat)
    requires i <= j < |results|
    requires Inversions(results) == {}
    ensures results[j].score <= results[i].score
    decreases j - i
  {
    if i < j {
      AdjacentChain(results, i, j - 1);
      assert j !in Inversions(results);
    }
  }

  /** Every ordering finding is a game-wide one. */
  lemma {:induction false} SortViolationFields(results: seq<PlayerResult>, n: nat, gameIndex: int)
    requires n <= |results|
    ensures forall v :: v in SortViolationsUpTo(results, n, gameIndex) ==> GameWide(v, SortedCheck, gameIndex)
    decreases n
  {
    if n > 1 {
      SortViolationFields(results, n - 1, gameIndex);
    }
  }
}
