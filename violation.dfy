/** One finding of an invariant check, and its one-line rendering. */
module Violations {
  import opened Wrappers
  import opened Text

  /**
   * gameIndex is -1 for cross-game findings, turn is -1 when no turn applies,
   * and playerName / context are absent when they do not apply.
   */
  datatype Violation = Violation(
    checkName: string,
    description: string,
    gameIndex: int,
    turn: int,
    playerName: Option<string>,
    context: Option<string>)

  /** The three-argument constructor: no turn, no player, no context. */
  function NewViolation(checkName: string, description: string, gameIndex: int): (v: Violation)
    ensures v.checkName == checkName && v.description == description && v.gameIndex == gameIndex
    ensures v.turn == -1 && v.playerName == None && v.context == None
  {
    Violation(checkName, description, gameIndex, -1, None, None)
  }

  /** The five-argument constructor: no context. */
  function NewPlayerViolation(checkName: string, description: string, gameIndex: int, turn: int, playerName: Option<string>): (v: Violation)
    ensures v.checkName == checkName && v.description == description && v.gameIndex == gameIndex
    ensures v.turn == turn && v.playerName == playerName && v.context == None
  {
    Violation(checkName, description, gameIndex, turn, playerName, None)
  }

  /** A finding made with the three-argument constructor for the given check and game. */
  predicate GameWide(v: Violation, checkName: string, gameIndex: int) {
    v.checkName == checkName && v.gameIndex == gameIndex
    && v.turn == -1 && v.playerName == None && v.context == None
  }

  function GamePart(gameIndex: int): string {
    "[Game " + IntToString(gameIndex)
  }

  function TurnPart(turn: int): string {
    if turn >= 0 then ", Turn " + IntToString(turn) else ""
  }

  function PlayerPart(playerName: Option<string>): string {
    match playerName
    case None => ""
    case Some(name) => ", Player: " + name
  }

  function ContextPart(context: Option<string>): string {
    match context
    case None => ""
    case Some(c) => "\n  " + c
  }

  /** The text toString() builds: [Game g(, Turn t)(, Player: p)] check: description(\n  context). */
  function Render(v: Violation): string {
    GamePart(v.gameIndex) + TurnPart(v.turn) + PlayerPart(v.playerName) + "] "
      + v.checkName + ": " + v.description + ContextPart(v.context)
  }

  /** toString(), appending to a builder piece by piece. */
  method ToString(v: Violation) returns (s: string)
    ensures s == Render(v)
  {
    s := "[Game " + IntToString(v.gameIndex);
    if v.turn >= 0 {
      s := s + (", Turn " + IntToString(v.turn));
    }
    assert s == GamePart(v.gameIndex) + TurnPart(v.turn);
    if v.playerName.Some? {
      s := s + (", Player: " + v.playerName.value);
    }
    assert s == GamePart(v.gameIndex) + TurnPart(v.turn) + PlayerPart(v.playerName);
    s := s + "] ";
    s := s + v.checkName + ": " + v.description;
    if v.context.Some? {
      s := s + ("\n  " + v.context.value);
    }
  }

  predicate EndsWith(s: string, suffix: string) {
    |suffix| <= |s| && s[|s| - |suffix|..] == suffix
  }

  /** The rendering always opens with the game index. */
  lemma RenderStartsWithGame(v: Violation)
    ensures GamePart(v.gameIndex) <= Render(v)
  {
  }

  /** What follows the closing bracket's opening part: "] check: description(context)". */
  function AfterPlayer(v: Violation): string {
    "] " + v.checkName + ": " + v.description + ContextPart(v.context)
  }

  /** The rendering regrouped around the game, turn and player parts. */
  lemma RenderSplit(v: Violation)
    ensures Render(v) == GamePart(v.gameIndex) + (TurnPart(v.turn) + (PlayerPart(v.playerName) + AfterPlayer(v)))
  {
    Regroup(GamePart(v.gameIndex), TurnPart(v.turn), PlayerPart(v.playerName), "] ", v.checkName, ": ", v.description, ContextPart(v.context));
  }

  lemma Regroup(g: string, t: string, p: string, close: string, name: string, colon: string, desc: string, ctx: string)
    ensures g + t + p + close + name + colon + desc + ctx == g + (t + (p + (close + name + colon + desc + ctx)))
  {
  }

  /** A prefix is kept when the same text is put in front of both sides. */
  lemma PrefixCancel(g: string, a: string, b: string)
    ensures g + a <= g + b <==> a <= b
  {
    if g + a <= g + b {
      assert |a| <= |b|;
      forall i | 0 <= i < |a|
        ensures a[i] == b[i]
      {
        assert (g + a)[|g| + i] == (g + b)[|g| + i];
      }
    }
  }

  /** The character at i, when i lies in the first part. */
  lemma CharInFront(a: string, b: string, i: nat)
    requires i < |a|
    ensures |a + b| > i && (a + b)[i] == a[i]
  {
  }

  /** A turn is printed right after the game index exactly when the turn is non-negative. */
  lemma RenderTurnIff(v: Violation)
    ensures GamePart(v.gameIndex) + ", Turn " <= Render(v) <==> v.turn >= 0
    ensures v.turn >= 0 ==> GamePart(v.gameIndex) + ", Turn " + IntToString(v.turn) <= Render(v)
  {
    var g := GamePart(v.gameIndex);
    var afterTurn := PlayerPart(v.playerName) + AfterPlayer(v);
    var rest := TurnPart(v.turn) + afterTurn;
    RenderSplit(v);
    PrefixCancel(g, ", Turn ", rest);
    if v.turn >= 0 {
      var n := IntToString(v.turn);
      assert rest == ", Turn " + (n + afterTurn);
      assert rest == ", Turn " + n + afterTurn;
      PrefixCancel(g, ", Turn " + n, rest);
      assert g + (", Turn " + n) == g + ", Turn " + n;
    } else {
      assert rest == afterTurn;
      if v.playerName.Some? {
        CharInFront(", Player: " + v.playerName.value, AfterPlayer(v), 2);
        assert rest[2] == 'P';
      } else {
        assert afterTurn == AfterPlayer(v);
        assert rest[0] == ']';
      }
    }
  }

  /** A player is printed after the optional turn exactly when the violation names one. */
  lemma RenderPlayerIff(v: Violation)
    ensures GamePart(v.gameIndex) + TurnPart(v.turn) + ", Player: " <= Render(v) <==> v.playerName.Some?
    ensures v.playerName.Some? ==>
      GamePart(v.gameIndex) + TurnPart(v.turn) + ", Player: " + v.playerName.value + "] " <= Render(v)
  {
    var h := GamePart(v.gameIndex) + TurnPart(v.turn);
    var rest := PlayerPart(v.playerName) + AfterPlayer(v);
    RenderSplitAtPlayer(v);
    PrefixCancel(h, ", Player: ", rest);
    if v.playerName.None? {
      assert rest == AfterPlayer(v);
      assert rest[0] == ']';
    } else {
      var name := v.playerName.value;
      var tail := v.checkName + ": " + v.description + ContextPart(v.context);
      assert AfterPlayer(v) == "] " + tail;
      assert rest == ", Player: " + name + "] " + tail;
      PrefixCancel(h, ", Player: " + name + "] ", rest);
      assert h + (", Player: " + name + "] ") == h + ", Player: " + name + "] ";
    }
  }

  /** The rendering split after the optional turn. */
  lemma RenderSplitAtPlayer(v: Violation)
    ensures Render(v) == (GamePart(v.gameIndex) + TurnPart(v.turn)) + (PlayerPart(v.playerName) + AfterPlayer(v))
  {
    RegroupAtPlayer(GamePart(v.gameIndex), TurnPart(v.turn), PlayerPart(v.playerName), "] ", v.checkName, ": ", v.description, ContextPart(v.context));
  }

  lemma RegroupAtPlayer(g: string, t: string, p: string, close: string, name: string, colon: string, desc: string, ctx: string)
    ensures g + t + p + close + name + colon + desc + ctx == (g + t) + (p + (close + name + colon + desc + ctx))
  {
  }

  /** After the closing bracket come the check name and the description. */
  lemma RenderBody(v: Violation)
    ensures GamePart(v.gameIndex) + TurnPart(v.turn) + PlayerPart(v.playerName) + "] " + v.checkName + ": " + v.description <= Render(v)
  {
  }

  /** The rendering ends with the indented context when there is one, and with the description otherwise. */
  lemma RenderEnding(v: Violation)
    ensures v.context.Some? ==> EndsWith(Render(v), "\n  " + v.context.value)
    ensures v.context.None? ==> EndsWith(Render(v), v.description)
  {
    var r := Render(v);
    var body := GamePart(v.gameIndex) + TurnPart(v.turn) + PlayerPart(v.playerName) + "] " + v.checkName + ": " + v.description;
    assert r == body + ContextPart(v.context);
    if v.context.Some? {
      assert r[|body|..] == "\n  " + v.context.value;
    } else {
      assert r == body;
      var pre := GamePart(v.gameIndex) + TurnPart(v.turn) + PlayerPart(v.playerName) + "] " + v.checkName + ": ";
      assert body == pre + v.description;
      assert r[|pre|..] == v.description;
    }
  }

  /** A violation made with the three-argument constructor prints as "[Game g] check: description". */
  lemma RenderPlain(checkName: string, description: string, gameIndex: int)
    ensures Render(NewViolation(checkName, description, gameIndex))
         == "[Game " + IntToString(gameIndex) + "] " + checkName + ": " + description
  {
  }
}
