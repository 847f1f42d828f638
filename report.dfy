/** VerificationResult: the outcome of a verification run and its printed report. */
module Reports {
  import opened Text
  import opened Seqs
  import opened Violations

  datatype VerificationResult = VerificationResult(gamesPlayed: int, gamesPassed: int, violations: seq<Violation>) {
    predicate IsCompliant() {
      violations == []
    }
  }

  function HeaderLine(engineClassName: string): string {
    "Engine: " + engineClassName + "\n"
  }

  function PlayedPassed(r: VerificationResult): string {
    "Games: " + IntToString(r.gamesPlayed) + " played, " + IntToString(r.gamesPassed) + " passed"
  }

  function FailedPart(r: VerificationResult): string {
    if r.gamesPlayed != r.gamesPassed then ", " + IntToString(r.gamesPlayed - r.gamesPassed) + " failed" else ""
  }

  function ViolationLine(v: Violation): string {
    "--- " + Render(v) + "\n"
  }

  function LinePiece(): Violation -> string {
    v => ViolationLine(v)
  }

  function ViolationLines(vs: seq<Violation>): string {
    FlatMap(vs, LinePiece())
  }

  function CountTail(n: int): string {
    "NON-COMPLIANT (" + IntToString(n) + " violation" + (if n != 1 then "s" else "") + ")\n\n"
  }

  function CountLine(n: int): string {
    "Result: NON-COMPLIANT (" + IntToString(n) + " violation" + (if n != 1 then "s" else "") + ")\n\n"
  }

  lemma CountLineSplit(n: int)
    ensures CountLine(n) == "Result: " + CountTail(n)
  {
    LiteralSplit(IntToString(n), if n != 1 then "s" else "");
  }

  lemma LiteralSplit(count: string, plural: string)
    ensures "Result: NON-COMPLIANT (" + count + " violation" + plural + ")\n\n"
         == "Result: " + ("NON-COMPLIANT (" + count + " violation" + plural + ")\n\n")
  {
  }

  function ResultPart(r: VerificationResult): string {
    if r.IsCompliant() then "Result: FULLY COMPLIANT\n"
    else CountLine(|r.violations|) + ViolationLines(r.violations)
  }

  /** The text formatReport builds. */
  function Report(r: VerificationResult, engineClassName: string): string {
    HeaderLine(engineClassName) + PlayedPassed(r) + FailedPart(r) + "\n" + ResultPart(r)
  }

  lemma AppendAssoc(a: string, b: string, c: string)
    ensures a + b + c == a + (b + c)
  {
  }

  /** The report's closing loop: one line per violation, in list order. */
  method AppendLines(front: string, vs: seq<Violation>) returns (s: string)
    ensures s == front + ViolationLines(vs)
  {
    s := front;
    for k := 0 to |vs|
      invariant s == front + ViolationLines(vs[..k])
    {
      var text := ToString(vs[k]);
      AppendAssoc(front, ViolationLines(vs[..k]), "--- " + text + "\n");
      s := s + ("--- " + text + "\n");
      FlatMapSnoc(vs, k, LinePiece());
    }
    assert vs[..|vs|] == vs;
  }

  method FormatReport(r: VerificationResult, engineClassName: string) returns (s: string)
    ensures s == Report(r, engineClassName)
  {
    s := "Engine: " + engineClassName + "\n";
    assert s == HeaderLine(engineClassName);
    s := s + ("Games: " + IntToString(r.gamesPlayed) + " played, " + IntToString(r.gamesPassed) + " passed");
    assert s == HeaderLine(engineClassName) + PlayedPassed(r);
    if r.gamesPlayed != r.gamesPassed {
      s := s + (", " + IntToString(r.gamesPlayed - r.gamesPassed) + " failed");
    }
    assert s == HeaderLine(engineClassName) + PlayedPassed(r) + FailedPart(r);
    s := s + "\n";
    ghost var prefix := s;
    if r.IsCompliant() {
      s := s + "Result: FULLY COMPLIANT\n";
    } else {
      var n := |r.violations|;
      s := s + ("Result: NON-COMPLIANT (" + IntToString(n) + " violation");
      if n != 1 {
        s := s + "s";
      }
      s := s + ")\n\n";
      assert s == prefix + CountLine(n);
      s := AppendLines(s, r.violations);
      AppendAssoc(prefix, CountLine(n), ViolationLines(r.violations));
    }
  }

  /** The report opens with the engine's name on a line of its own. */
  lemma ReportHeader(r: VerificationResult, engineClassName: string)
    ensures HeaderLine(engineClassName) <= Report(r, engineClassName)
  {
    var h := HeaderLine(engineClassName);
    var rep := Report(r, engineClassName);
    assert rep == h + (PlayedPassed(r) + FailedPart(r) + "\n" + ResultPart(r));
  }

  /** The character right after a prefix is the first character of what follows it. */
  lemma NextChar(a: string, b: string)
    requires b != []
    ensures a <= a + b && |a| < |a + b| && (a + b)[|a|] == b[0]
  {
  }

  /** The report split after the counts "... passed". */
  lemma SplitAfterCounts(r: VerificationResult, engineClassName: string)
    ensures Report(r, engineClassName)
         == (HeaderLine(engineClassName) + PlayedPassed(r)) + (FailedPart(r) + "\n" + ResultPart(r))
  {
    var a := HeaderLine(engineClassName) + PlayedPassed(r);
    AppendAssoc(a, FailedPart(r), "\n");
    AppendAssoc(a, FailedPart(r) + "\n", ResultPart(r));
  }

  /** The counts line: right after "... passed" comes a failure count exactly when some game did not pass. */
  lemma ReportFailedIff(r: VerificationResult, engineClassName: string)
    ensures var p := HeaderLine(engineClassName) + PlayedPassed(r);
      && p <= Report(r, engineClassName)
      && |p| < |Report(r, engineClassName)|
      && (Report(r, engineClassName)[|p|] == ',' <==> r.gamesPlayed != r.gamesPassed)
  {
    var p := HeaderLine(engineClassName) + PlayedPassed(r);
    var tail := FailedPart(r) + "\n" + ResultPart(r);
    SplitAfterCounts(r, engineClassName);
    NextChar(p, tail);
    if r.gamesPlayed != r.gamesPassed {
      assert tail[0] == FailedPart(r)[0] == ',';
    } else {
      assert tail == "\n" + ResultPart(r);
    }
  }

  /** Everything up to "Result: ". */
  function ResultPrefix(r: VerificationResult, engineClassName: string): string {
    HeaderLine(engineClassName) + PlayedPassed(r) + FailedPart(r) + "\nResult: "
  }

  /** The verdict text that follows "Result: ". */
  function Verdict(r: VerificationResult): string {
    if r.IsCompliant() then "FULLY COMPLIANT\n" else CountTail(|r.violations|) + ViolationLines(r.violations)
  }

  lemma ResultSplit(h: string, v: string)
    ensures h + "\n" + ("Result: " + v) == (h + "\nResult: ") + v
  {
  }

  lemma ResultPartVerdict(r: VerificationResult)
    ensures ResultPart(r) == "Result: " + Verdict(r)
  {
    if !r.IsCompliant() {
      CountLineSplit(|r.violations|);
      AppendAssoc("Result: ", CountTail(|r.violations|), ViolationLines(r.violations));
    }
  }

  lemma SplitAtVerdict(r: VerificationResult, engineClassName: string)
    ensures Report(r, engineClassName) == ResultPrefix(r, engineClassName) + Verdict(r)
  {
    ResultPartVerdict(r);
    ResultSplit(HeaderLine(engineClassName) + PlayedPassed(r) + FailedPart(r), Verdict(r));
  }

  /** After "Result: " comes FULLY COMPLIANT exactly when there are no violations, NON-COMPLIANT otherwise. */
  lemma ReportVerdict(r: VerificationResult, engineClassName: string)
    ensures ResultPrefix(r, engineClassName) <= Report(r, engineClassName)
    ensures r.IsCompliant() ==> Report(r, engineClassName) == ResultPrefix(r, engineClassName) + "FULLY COMPLIANT\n"
    ensures |ResultPrefix(r, engineClassName)| < |Report(r, engineClassName)|
    ensures Report(r, engineClassName)[|ResultPrefix(r, engineClassName)|] == 'F' <==> r.IsCompliant()
  {
    SplitAtVerdict(r, engineClassName);
    NextChar(ResultPrefix(r, engineClassName), Verdict(r));
  }

  /** In a non-compliant report the count is the number of violations, followed by "s" exactly when it is not one. */
  lemma ReportPlural(r: VerificationResult, engineClassName: string)
    requires !r.IsCompliant()
    ensures var p := ResultPrefix(r, engineClassName) + "NON-COMPLIANT (" + IntToString(|r.violations|) + " violation";
      && p <= Report(r, engineClassName)
      && |p| < |Report(r, engineClassName)|
      && (Report(r, engineClassName)[|p|] == 's' <==> |r.violations| != 1)
  {
    var n := |r.violations|;
    var q := ResultPrefix(r, engineClassName);
    var plural := if n != 1 then "s" else "";
    var p := q + "NON-COMPLIANT (" + IntToString(n) + " violation";
    var rest := plural + ")\n\n" + ViolationLines(r.violations);
    SplitAtVerdict(r, engineClassName);
    PluralShape(q, "NON-COMPLIANT (", IntToString(n), " violation", plural, ")\n\n", ViolationLines(r.violations));
    NextChar(p, rest);
  }

  lemma PluralShape(q: string, open: string, count: string, word: string, plural: string, close: string, lines: string)
    ensures q + (open + count + word + plural + close + lines) == (q + open + count + word) + (plural + close + lines)
  {
  }

  /** Line k of the listing is violation k's rendering, and the lines come in list order. */
  lemma ViolationLinesInOrder(vs: seq<Violation>, k: nat)
    requires k < |vs|
    ensures ViolationLines(vs[..k]) + ViolationLine(vs[k]) <= ViolationLines(vs)
  {
    FlatMapSnoc(vs, k, LinePiece());
    FlatMapPrefix(vs, k + 1, LinePiece());
  }

  /** One "--- " line per violation: each line is at least five characters and ends the text it opens. */
  lemma ViolationLinesShape(vs: seq<Violation>)
    ensures ViolationLines(vs) == "" <==> vs == []
    ensures vs != [] ==> EndsWith(ViolationLines(vs), ViolationLine(vs[|vs| - 1]))
  {
    FlatMapEmpty(vs, LinePiece());
    if vs != [] {
      assert LinePiece()(vs[0]) != [];
      var n := |vs| - 1;
      assert ViolationLines(vs) == ViolationLines(vs[..n]) + ViolationLine(vs[n]);
    }
  }
}
