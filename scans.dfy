/**
 * The two scans every strategy is made of: the first offered option of a kind,
 * and the running maximum over offered options by a key, which keeps the
 * earliest option on ties because it replaces its best only on a strictly
 * greater key and starts from -1.
 */
module Scans {
  import opened Wrappers
  import opened Atg

  /** The kinds of option a first-match scan looks for. */
  datatype Wanted = EndPhaseOption | MoneyPlay | ActionPlay | DiscardOption

  predicate Wants(cat: Catalog, w: Wanted, d: Decision) {
    match w
    case EndPhaseOption => d.EndPhaseDecision?
    case MoneyPlay => d.PlayCardDecision? && CategoryOf(cat, d.card) == Money
    case ActionPlay => d.PlayCardDecision? && CategoryOf(cat, d.card) == Action
    case DiscardOption => d.DiscardCardDecision?
  }

  /** The first position at or after `from` holding a wanted option. */
  function FirstWanted(cat: Catalog, w: Wanted, options: seq<Decision>, from: nat): (r: Option<nat>)
    ensures r.Some? ==> from <= r.value < |options| && Wants(cat, w, options[r.value])
    ensures r.Some? ==> forall j :: from <= j < r.value ==> !Wants(cat, w, options[j])
    ensures r.None? ==> forall j :: from <= j < |options| ==> !Wants(cat, w, options[j])
    decreases |options| - from
  {
    if from >= |options| then None
    else if Wants(cat, w, options[from]) then Some(from)
    else FirstWanted(cat, w, options, from + 1)
  }

  /** findEndPhaseOrFirst: the first EndPhase option, else the first option. */
  function EndPhaseOrFirst(cat: Catalog, options: seq<Decision>): (d: Decision)
    requires |options| > 0
    ensures d in options
    ensures EndPhaseDecision in options ==> d == EndPhaseDecision
    ensures EndPhaseDecision !in options ==> d == options[0]
  {
    match FirstWanted(cat, EndPhaseOption, options, 0)
    case Some(k) => options[k]
    case None => options[0]
  }

  /** The first wanted option, else end-phase-or-first. */
  function FirstWantedOrEnd(cat: Catalog, w: Wanted, options: seq<Decision>): (d: Decision)
    requires |options| > 0
    ensures d in options
    ensures (exists j :: 0 <= j < |options| && Wants(cat, w, options[j])) ==>
      Wants(cat, w, d) && exists k :: 0 <= k < |options| && options[k] == d && forall j :: 0 <= j < k ==> !Wants(cat, w, options[j])
    ensures (forall j :: 0 <= j < |options| ==> !Wants(cat, w, options[j])) ==> d == EndPhaseOrFirst(cat, options)
  {
    match FirstWanted(cat, w, options, 0)
    case Some(k) => options[k]
    case None => EndPhaseOrFirst(cat, options)
  }

  /** The kinds of option a running-maximum scan ranks, and by which attribute. */
  datatype Ranking = GainByCost | MoneyBuyByValue | ActionBuyByCost

  predicate Candidate(cat: Catalog, r: Ranking, d: Decision) {
    match r
    case GainByCost => d.GainCardDecision?
    case MoneyBuyByValue => d.BuyDecision? && cat.category(d.cardType) == Money
    case ActionBuyByCost => d.BuyDecision? && cat.category(d.cardType) == Action
  }

  function Key(cat: Catalog, r: Ranking, d: Decision): int
    requires Candidate(cat, r, d)
  {
    match r
    case GainByCost => cat.cost(d.cardType)
    case MoneyBuyByValue => cat.value(d.cardType)
    case ActionBuyByCost => cat.cost(d.cardType)
  }

  /** The scan's two variables: the best option so far (by position) and its key. */
  datatype Best = Best(index: Option<nat>, key: int)

  function RunningBest(cat: Catalog, r: Ranking, options: seq<Decision>): (b: Best)
    ensures b.index.None? ==> b.key == -1
    ensures b.index.Some? ==>
      b.index.value < |options| && Candidate(cat, r, options[b.index.value])
      && Key(cat, r, options[b.index.value]) == b.key && b.key > -1
    ensures forall i :: 0 <= i < |options| && Candidate(cat, r, options[i]) ==> Key(cat, r, options[i]) <= b.key
    ensures b.index.Some? ==>
      forall i :: 0 <= i < b.index.value && Candidate(cat, r, options[i]) ==> Key(cat, r, options[i]) < b.key
    decreases |options|
  {
    if options == [] then Best(None, -1)
    else
      var n := |options| - 1;
      var prev := RunningBest(cat, r, options[..n]);
      assert forall i :: 0 <= i < n ==> options[..n][i] == options[i];
      if Candidate(cat, r, options[n]) && Key(cat, r, options[n]) > prev.key then Best(Some(n), Key(cat, r, options[n]))
      else prev
  }

  /** Some option of the ranked kind has a key above the scan's starting value -1. */
  predicate HasCandidate(cat: Catalog, r: Ranking, options: seq<Decision>) {
    exists i :: 0 <= i < |options| && Candidate(cat, r, options[i]) && Key(cat, r, options[i]) > -1
  }

  /** Position k holds a maximal candidate and no earlier candidate ties it. */
  predicate EarliestBest(cat: Catalog, r: Ranking, options: seq<Decision>, k: int) {
    && 0 <= k < |options|
    && Candidate(cat, r, options[k])
    && Key(cat, r, options[k]) > -1
    && (forall i :: 0 <= i < |options| && Candidate(cat, r, options[i]) ==> Key(cat, r, options[i]) <= Key(cat, r, options[k]))
    && (forall i :: 0 <= i < k && Candidate(cat, r, options[i]) ==> Key(cat, r, options[i]) < Key(cat, r, options[k]))
  }

  /** The option the scan ends with, if any. */
  function BestOf(cat: Catalog, r: Ranking, options: seq<Decision>): (best: Option<Decision>)
    ensures best.None? <==> !HasCandidate(cat, r, options)
    ensures best.Some? ==> exists k :: EarliestBest(cat, r, options, k) && options[k] == best.value
  {
    var b := RunningBest(cat, r, options);
    match b.index
    case None => None
    case Some(k) =>
      assert EarliestBest(cat, r, options, k);
      Some(options[k])
  }

  /** At most one position is the earliest best. */
  lemma EarliestBestUnique(cat: Catalog, r: Ranking, options: seq<Decision>, k: int, m: int)
    requires EarliestBest(cat, r, options, k) && EarliestBest(cat, r, options, m)
    ensures k == m
  {
  }
}
