/** The move-list side of `game/views.py`: algebraic notation of a stored move, the PGN result
    token, the numbered and wrapped movetext of `generate_pgn`, and the clock update of
    `make_move_view`. */
module Views {
  import opened Board
  import opened ChessEngine
  import opened Models

  // ---------------------------------------------------------------------------------------
  // Numbers and squares

  function DigitChar(d: int): (r: char)
    requires 0 <= d < 10
    ensures '0' <= r <= '9'
  {
    ('0' as int + d) as char
  }

  /** `str(n)` for a natural number: its decimal digits, most significant first. */
  function NatToString(n: nat): (s: string)
    ensures |s| >= 1 && forall i :: 0 <= i < |s| ==> '0' <= s[i] <= '9'
    ensures n < 10 ==> s == [DigitChar(n)]
  {
    if n < 10 then [DigitChar(n)] else NatToString(n / 10) + [DigitChar(n % 10)]
  }

  /** The value of a string of decimal digits. */
  function DecimalValue(s: string): nat
    requires forall i :: 0 <= i < |s| ==> '0' <= s[i] <= '9'
  {
    if s == [] then 0 else 10 * DecimalValue(s[..|s| - 1]) + (s[|s| - 1] as int - '0' as int)
  }

  /** `str` loses nothing: the digits read back as the number. */
  lemma {:induction false} NatToStringRoundTrip(n: nat)
    ensures DecimalValue(NatToString(n)) == n
  {
    if n >= 10 {
      NatToStringRoundTrip(n / 10);
      var s := NatToString(n);
      assert s[..|s| - 1] == NatToString(n / 10);
    }
  }

  /** `files[c]`: the letter of column `c`. */
  function FileChar(c: int): (r: char)
    requires 0 <= c < 8
    ensures 'a' <= r <= 'h'
  {
    ('a' as int + c) as char
  }

  /** A square `(r, c)` is written as its file letter followed by the rank `8 - r`. */
  function SquareName(p: Pos): (r: string)
    requires InBounds(p)
    ensures |r| == 2 && 'a' <= r[0] <= 'h' && '1' <= r[1] <= '8'
  {
    [FileChar(p.col)] + NatToString(8 - p.row)
  }

  /** The square a two-character name denotes, if any. */
  function ParseSquare(s: string): Option<Pos> {
    if |s| == 2 && 'a' <= s[0] <= 'h' && '1' <= s[1] <= '8'
    then Some(Pos(8 - (s[1] as int - '0' as int), s[0] as int - 'a' as int))
    else None
  }

  /** Square names and board squares correspond one to one. */
  lemma SquareNameRoundTrip(p: Pos)
    requires InBounds(p)
    ensures ParseSquare(SquareName(p)) == Some(p)
  {
  }

  lemma ParseSquareRoundTrip(s: string, p: Pos)
    requires ParseSquare(s) == Some(p)
    ensures InBounds(p) && SquareName(p) == s
  {
    assert SquareName(p) == [s[0]] + [s[1]];
  }

  // ---------------------------------------------------------------------------------------
  // Algebraic notation of one stored move

  /** A `move_history` entry: who moved, from and to where, the kind of the piece standing
      on the destination afterwards, and the promotion choice recorded with it. */
  datatype HistoryEntry = HistoryEntry(player: Color, from: Pos, to: Pos, kind: Kind, promotion: Option<string>)

  predicate EntryOk(e: HistoryEntry) {
    InBounds(e.from) && InBounds(e.to)
  }

  /** `piece_symbols`: pawns have no letter. */
  function Symbol(k: Kind): (r: string)
    ensures k == Pawn <==> r == ""
    ensures k != Pawn ==> |r| == 1 && r[0] in "KQRBN"
  {
    match k
    case King => "K"
    case Queen => "Q"
    case Rook => "R"
    case Bishop => "B"
    case Knight => "N"
    case Pawn => ""
  }

  /** The promotion text shown: only a present, non-empty one. */
  function ShownPromotion(e: HistoryEntry): Option<string> {
    if e.promotion.Some? && e.promotion.value != "" then e.promotion else None
  }

  /** The notation before any promotion suffix. */
  function BaseNotation(e: HistoryEntry): string
    requires EntryOk(e)
  {
    var toSquare := SquareName(e.to);
    if e.kind == Pawn then
      if e.from.col != e.to.col then [FileChar(e.from.col)] + "x" + toSquare else toSquare
    else Symbol(e.kind) + toSquare
  }

  /** `convert_to_algebraic_notation`. */
  function Notation(e: HistoryEntry): string
    requires EntryOk(e)
  {
    var notation := BaseNotation(e);
    if ShownPromotion(e).Some? then notation + "=" + ShownPromotion(e).value else notation
  }

  /** What a notation string says: the piece letter, the origin file of a pawn capture, the
      destination and the promotion text. */
  datatype Reading = Reading(symbol: string, fromFile: Option<char>, to: Pos, promotion: Option<string>)

  /** What `convert_to_algebraic_notation` records about an entry: the piece letter, the
      origin file exactly for a pawn that changes column (no other move is marked as a
      capture), the destination and the shown promotion. */
  function Summary(e: HistoryEntry): Reading
    requires EntryOk(e)
  {
    Reading(Symbol(e.kind), if e.kind == Pawn && e.from.col != e.to.col then Some(FileChar(e.from.col)) else None,
            e.to, ShownPromotion(e))
  }

  /** The position of the first '=' (or the length when there is none). */
  function FirstEquals(s: string): (i: nat)
    ensures i <= |s| && (i < |s| ==> s[i] == '=')
    ensures forall j :: 0 <= j < i ==> s[j] != '='
  {
    if s == [] then 0 else if s[0] == '=' then 0 else 1 + FirstEquals(s[1..])
  }

  function ReadBase(base: string): Option<(string, Option<char>, Pos)> {
    if |base| == 2 && ParseSquare(base).Some? then
      Some(("", None, ParseSquare(base).value))
    else if |base| == 3 && base[0] in "KQRBN" && ParseSquare(base[1..]).Some? then
      Some(([base[0]], None, ParseSquare(base[1..]).value))
    else if |base| == 4 && 'a' <= base[0] <= 'h' && base[1] == 'x' && ParseSquare(base[2..]).Some? then
      Some(("", Some(base[0]), ParseSquare(base[2..]).value))
    else None
  }

  /** Reads a notation string back. */
  function ReadNotation(s: string): Option<Reading> {
    var i := FirstEquals(s);
    var promotion := if i < |s| then Some(s[i + 1..]) else None;
    match ReadBase(s[..i])
    case None => None
    case Some((symbol, fromFile, to)) => Some(Reading(symbol, fromFile, to, promotion))
  }

  lemma BaseNotationShape(e: HistoryEntry)
    requires EntryOk(e)
    ensures ReadBase(BaseNotation(e)) == Some((Summary(e).symbol, Summary(e).fromFile, e.to))
    ensures forall j :: 0 <= j < |BaseNotation(e)| ==> BaseNotation(e)[j] != '='
  {
    var toSquare := SquareName(e.to);
    SquareNameRoundTrip(e.to);
    var base := BaseNotation(e);
    if e.kind == Pawn && e.from.col != e.to.col {
      assert base[2..] == toSquare;
    } else if e.kind != Pawn {
      assert base[1..] == toSquare;
    }
  }

  /** The notation is unambiguous: reading it back gives exactly what it records. */
  lemma NotationRoundTrip(e: HistoryEntry)
    requires EntryOk(e)
    ensures ReadNotation(Notation(e)) == Some(Summary(e))
  {
    BaseNotationShape(e);
    var base := BaseNotation(e);
    var s := Notation(e);
    if ShownPromotion(e).Some? {
      assert s[|base|] == '=';
      assert s[..|base|] == base;
      assert s[|base| + 1..] == ShownPromotion(e).value;
    } else {
      assert s[..|base|] == base;
    }
  }

  // ---------------------------------------------------------------------------------------
  // PGN result and movetext

  /** The PGN result token of a game status. */
  function ResultToken(status: string): (r: string)
    ensures r == "1-0" <==> status == "white_win"
    ensures r == "0-1" <==> status == "black_win"
    ensures r == "1/2-1/2" <==> status == "draw"
    ensures r == "*" <==> status != "white_win" && status != "black_win" && status != "draw"
  {
    if status == "white_win" then "1-0"
    else if status == "black_win" then "0-1"
    else if status == "draw" then "1/2-1/2"
    else "*"
  }

  /** The number of black moves among the first `i` entries. */
  function BlackMovesBefore(h: seq<HistoryEntry>, i: int): nat
    requires 0 <= i <= |h|
  {
    if i == 0 then 0 else BlackMovesBefore(h, i - 1) + (if h[i - 1].player == Black then 1 else 0)
  }

  /** The text of entry `i`: a white move carries the move number, one more than the number
      of black moves before it. */
  function MoveText(h: seq<HistoryEntry>, i: int): string
    requires 0 <= i < |h| && EntryOk(h[i])
  {
    if h[i].player == White then NatToString(1 + BlackMovesBefore(h, i)) + ". " + Notation(h[i])
    else Notation(h[i])
  }

  predicate HistoryOk(h: seq<HistoryEntry>) {
    forall i :: 0 <= i < |h| ==> EntryOk(h[i])
  }

  function MoveTexts(h: seq<HistoryEntry>): (r: seq<string>)
    requires HistoryOk(h)
    ensures |r| == |h| && forall i :: 0 <= i < |h| ==> r[i] == MoveText(h, i)
  {
    seq(|h|, i requires 0 <= i < |h| => MoveText(h, i))
  }

  /** The numbering loop of `generate_pgn`. */
  method NumberMoves(history: seq<HistoryEntry>) returns (movesText: seq<string>)
    requires HistoryOk(history)
    ensures movesText == MoveTexts(history)
  {
    movesText := [];
    var moveNumber := 1;
    for i := 0 to |history|
      invariant moveNumber == 1 + BlackMovesBefore(history, i)
      invariant |movesText| == i && forall j :: 0 <= j < i ==> movesText[j] == MoveText(history, j)
    {
      var algebraicMove := Notation(history[i]);
      if history[i].player == White {
        movesText := movesText + [NatToString(moveNumber) + ". " + algebraicMove];
      } else {
        movesText := movesText + [algebraicMove];
        moveNumber := moveNumber + 1;
      }
    }
  }

  /** In a game where white and black alternate from white's first move, white's move at
      index 2k is numbered k + 1 and black's replies carry no number. */
  lemma {:induction false} AlternatingNumbers(h: seq<HistoryEntry>, i: int)
    requires HistoryOk(h) && forall j :: 0 <= j < |h| ==> h[j].player == (if j % 2 == 0 then White else Black)
    requires 0 <= i <= |h|
    ensures BlackMovesBefore(h, i) == i / 2
    ensures i < |h| && i % 2 == 0 ==> MoveText(h, i) == NatToString(i / 2 + 1) + ". " + Notation(h[i])
    ensures i < |h| && i % 2 == 1 ==> MoveText(h, i) == Notation(h[i])
  {
    if i > 0 {
      AlternatingNumbers(h, i - 1);
      if (i - 1) % 2 == 0 {
        assert h[i - 1].player == White && i / 2 == (i - 1) / 2;
      } else {
        assert h[i - 1].player == Black && i / 2 == (i - 1) / 2 + 1;
      }
    }
    assert BlackMovesBefore(h, i) == i / 2;
  }

  /** The width the movetext is wrapped to. */
  const LineWidth := 80

  /** The texts of one line joined by single spaces. */
  function JoinSpace(g: seq<string>): string {
    if g == [] then "" else if |g| == 1 then g[0] else JoinSpace(g[..|g| - 1]) + " " + g[|g| - 1]
  }

  /** Greedy wrapping: the lines still to come, as groups of move texts, when the line being
      built holds `cur`; a text goes onto the current line unless the joined line would be
      longer than `LineWidth`, in which case the current line is finished. */
  function WrapFrom(texts: seq<string>, cur: seq<string>): (r: seq<seq<string>>)
    ensures |r| >= 1
    decreases |texts|
  {
    if texts == [] then [cur]
    else if |JoinSpace(cur)| + 1 + |texts[0]| > LineWidth then [cur] + WrapFrom(texts[1..], [texts[0]])
    else WrapFrom(texts[1..], cur + [texts[0]])
  }

  function LinesOf(gs: seq<seq<string>>): (r: seq<string>)
    ensures |r| == |gs| && forall i :: 0 <= i < |gs| ==> r[i] == JoinSpace(gs[i])
  {
    seq(|gs|, i requires 0 <= i < |gs| => JoinSpace(gs[i]))
  }

  /** The movetext lines of `generate_pgn`: the finished lines, then the last line followed
      by the result (or the result alone when there is no move). */
  function MovetextLines(texts: seq<string>, result: string): seq<string> {
    var gs := WrapFrom(texts, []);
    var last := JoinSpace(gs[|gs| - 1]);
    LinesOf(gs[..|gs| - 1]) + [if last != "" then last + " " + result else result]
  }

  predicate NoEmptyText(texts: seq<string>) {
    forall i :: 0 <= i < |texts| ==> texts[i] != ""
  }

  lemma JoinSpaceSnoc(g: seq<string>, t: string)
    ensures JoinSpace(g + [t]) == if g == [] then t else JoinSpace(g) + " " + t
  {
    assert (g + [t])[..|g|] == g;
  }

  lemma JoinSpaceEmpty(g: seq<string>)
    requires NoEmptyText(g)
    ensures JoinSpace(g) == "" <==> g == []
  {
    if |g| > 1 {
      assert |JoinSpace(g)| >= 1 + |g[|g| - 1]|;
    }
  }

  /** The wrapping loop of `generate_pgn`, with its final line. */
  method WrapMoves(movesText: seq<string>, result: string) returns (lines: seq<string>)
    requires NoEmptyText(movesText)
    ensures lines == MovetextLines(movesText, result)
  {
    lines := [];
    var currentLine := "";
    ghost var cur: seq<string> := [];
    ghost var done: seq<seq<string>> := [];
    for k := 0 to |movesText|
      invariant NoEmptyText(cur) && currentLine == JoinSpace(cur)
      invariant lines == LinesOf(done)
      invariant done + WrapFrom(movesText[k..], cur) == WrapFrom(movesText, [])
    {
      var moveText := movesText[k];
      assert movesText[k..][0] == moveText && movesText[k..][1..] == movesText[k + 1..];
      JoinSpaceEmpty(cur);
      if |currentLine + " " + moveText| > LineWidth {
        lines := lines + [currentLine];
        assert LinesOf(done + [cur]) == LinesOf(done) + [JoinSpace(cur)];
        done := done + [cur];
        currentLine := moveText;
        cur := [moveText];
      } else {
        JoinSpaceSnoc(cur, moveText);
        if currentLine != "" {
          currentLine := currentLine + " " + moveText;
        } else {
          currentLine := moveText;
        }
        cur := cur + [moveText];
      }
    }
    assert movesText[|movesText|..] == [];
    ghost var gs := WrapFrom(movesText, []);
    assert gs[..|gs| - 1] == done && gs[|gs| - 1] == cur;
    if currentLine != "" {
      lines := lines + [currentLine + " " + result];
    } else {
      lines := lines + [result];
    }
  }

  /** The movetext of `generate_pgn` for a stored history and result token. */
  method GenerateMovetext(history: seq<HistoryEntry>, result: string) returns (lines: seq<string>)
    requires HistoryOk(history)
    ensures history == [] ==> lines == [result]
    ensures history != [] ==> lines == MovetextLines(MoveTexts(history), result)
  {
    if |history| > 0 {
      var movesText := NumberMoves(history);
      forall i | 0 <= i < |movesText| ensures movesText[i] != "" {
        NotationNonEmpty(history, i);
      }
      lines := WrapMoves(movesText, result);
    } else {
      lines := [result];
    }
  }

  lemma NotationNonEmpty(h: seq<HistoryEntry>, i: int)
    requires HistoryOk(h) && 0 <= i < |h|
    ensures |MoveText(h, i)| >= 2
  {
    assert |BaseNotation(h[i])| >= 2;
  }

  function Flatten(gs: seq<seq<string>>): seq<string> {
    if gs == [] then [] else gs[0] + Flatten(gs[1..])
  }

  /** Wrapping neither loses, repeats nor reorders moves. */
  lemma {:induction false} WrapKeepsMoves(texts: seq<string>, cur: seq<string>)
    ensures Flatten(WrapFrom(texts, cur)) == cur + texts
    decreases |texts|
  {
    if texts != [] {
      assert texts == [texts[0]] + texts[1..];
      if |JoinSpace(cur)| + 1 + |texts[0]| > LineWidth {
        WrapKeepsMoves(texts[1..], [texts[0]]);
        assert ([cur] + WrapFrom(texts[1..], [texts[0]]))[1..] == WrapFrom(texts[1..], [texts[0]]);
      } else {
        WrapKeepsMoves(texts[1..], cur + [texts[0]]);
      }
    }
  }

  /** A line fits in `LineWidth` columns unless it is a single move text. */
  predicate Fits(g: seq<string>) {
    |JoinSpace(g)| <= LineWidth || |g| <= 1
  }

  lemma {:induction false} WrapFits(texts: seq<string>, cur: seq<string>)
    requires Fits(cur)
    ensures forall i :: 0 <= i < |WrapFrom(texts, cur)| ==> Fits(WrapFrom(texts, cur)[i])
    decreases |texts|
  {
    if texts != [] {
      if |JoinSpace(cur)| + 1 + |texts[0]| > LineWidth {
        WrapFits(texts[1..], [texts[0]]);
      } else {
        JoinSpaceSnoc(cur, texts[0]);
        WrapFits(texts[1..], cur + [texts[0]]);
      }
    }
  }

  /** A line is broken only when the next move does not fit on it. */
  predicate Greedy(gs: seq<seq<string>>) {
    forall i :: 0 < i < |gs| ==> gs[i] != [] && |JoinSpace(gs[i - 1])| + 1 + |gs[i][0]| > LineWidth
  }

  lemma {:induction false} WrapGreedy(texts: seq<string>, cur: seq<string>)
    ensures Greedy(WrapFrom(texts, cur))
    decreases |texts|
  {
    if texts != [] {
      if |JoinSpace(cur)| + 1 + |texts[0]| > LineWidth {
        WrapGreedy(texts[1..], [texts[0]]);
        WrapHead(texts[1..], [texts[0]]);
        var rest := WrapFrom(texts[1..], [texts[0]]);
        var gs := [cur] + rest;
        assert gs == WrapFrom(texts, cur);
        assert rest[0][..1] == [texts[0]];
        forall i | 0 < i < |gs|
          ensures gs[i] != [] && |JoinSpace(gs[i - 1])| + 1 + |gs[i][0]| > LineWidth
        {
          if i > 1 {
            assert gs[i] == rest[i - 1] && gs[i - 1] == rest[i - 2];
          }
        }
      } else {
        WrapGreedy(texts[1..], cur + [texts[0]]);
      }
    }
  }

  /** The first group extends the current one. */
  lemma {:induction false} WrapHead(texts: seq<string>, cur: seq<string>)
    ensures |WrapFrom(texts, cur)[0]| >= |cur| && WrapFrom(texts, cur)[0][..|cur|] == cur
    decreases |texts|
  {
    if texts != [] && |JoinSpace(cur)| + 1 + |texts[0]| <= LineWidth {
      WrapHead(texts[1..], cur + [texts[0]]);
      assert (cur + [texts[0]])[..|cur|] == cur;
    }
  }

  /** The movetext always ends with the result token. */
  lemma MovetextEndsWithResult(texts: seq<string>, result: string)
    ensures var lines := MovetextLines(texts, result);
      |lines| >= 1 && |lines[|lines| - 1]| >= |result|
      && lines[|lines| - 1][|lines[|lines| - 1]| - |result|..] == result
  {
  }

  // ---------------------------------------------------------------------------------------
  // Clocks

  const MicrosPerSecond := 1000000

  /** `int(elapsed.total_seconds())` for an elapsed time in microseconds: whole seconds,
      truncated toward zero. */
  function TruncSeconds(us: int): (s: int)
    ensures us >= 0 ==> 0 <= s && s * MicrosPerSecond <= us < (s + 1) * MicrosPerSecond
    ensures us < 0 ==> s <= 0 && (s - 1) * MicrosPerSecond < us <= s * MicrosPerSecond
  {
    if us >= 0 then us / MicrosPerSecond else -((-us) / MicrosPerSecond)
  }

  /** The mover's clock after a move: charged the whole seconds elapsed, never below zero,
      then credited the increment. */
  function Charged(left: int, elapsedUs: int, increment: int): (r: int)
    ensures r >= increment
    ensures left - TruncSeconds(elapsedUs) >= 0 ==> r == left - TruncSeconds(elapsedUs) + increment
    ensures left - TruncSeconds(elapsedUs) <= 0 ==> r == increment
  {
    var remaining := left - TruncSeconds(elapsedUs);
    (if 0 >= remaining then 0 else remaining) + increment
  }

  /** A move that took no time costs nothing and earns the increment; a move never costs
      more than the time it took, rounded down. */
  lemma ChargedBounds(left: int, elapsedUs: int, increment: int)
    requires left >= 0 && elapsedUs >= 0
    ensures Charged(left, elapsedUs, increment) <= left + increment
    ensures elapsedUs < MicrosPerSecond ==> Charged(left, elapsedUs, increment) == left + increment
    ensures Charged(left, elapsedUs, increment) >= left + increment - elapsedUs / MicrosPerSecond
  {
  }

  /** The flag check: white's clock is looked at first, so when both have run out black
      wins; the winner is named as in `GameState.winner`. */
  function FlagWinner(whiteLeft: int, blackLeft: int): (r: Option<string>)
    ensures r == Some("Pretas") <==> whiteLeft <= 0
    ensures r == Some("Brancas") <==> whiteLeft > 0 && blackLeft <= 0
    ensures r == None <==> whiteLeft > 0 && blackLeft > 0
  {
    if whiteLeft <= 0 then Some("Pretas")
    else if blackLeft <= 0 then Some("Brancas")
    else None
  }

  /** With a positive increment the side that has just moved cannot lose on time. */
  lemma MoverKeepsFlag(mover: Color, left: int, elapsedUs: int, increment: int, other: int)
    requires increment > 0
    ensures mover == White ==> FlagWinner(Charged(left, elapsedUs, increment), other) != Some("Pretas")
    ensures mover == Black ==> FlagWinner(other, Charged(left, elapsedUs, increment)) != Some("Brancas")
  {
  }

  /** The clock step of `make_move_view` after an accepted move, at time `now` (microseconds).
      A clock left null (as in a rematch game) makes the arithmetic or the comparison raise
      TypeError; `ok` is false exactly then, and the view rejects the request without saving. */
  method UpdateClocks(game: GameRecord, gs: GameState, playerColor: Color, now: int) returns (ok: bool)
    modifies game`whiteTimeLeft, game`blackTimeLeft, game`lastMoveTime, gs`gameOver, gs`winner
    ensures game.gameType != "pvp" ==> ok && unchanged(game) && unchanged(gs)
    ensures game.gameType == "pvp" ==>
      (ok <==> && old(game.whiteTimeLeft).Some?
               && (old(game.lastMoveTime).Some? && playerColor == Black ==> old(game.blackTimeLeft).Some?)
               && (game.whiteTimeLeft.Some? && game.whiteTimeLeft.value > 0 ==> old(game.blackTimeLeft).Some?))
    ensures !ok ==> unchanged(gs)
    ensures game.gameType == "pvp" && ok ==>
      && game.lastMoveTime == Some(now)
      && game.whiteTimeLeft.Some?
      && (old(game.lastMoveTime).None? ==>
            game.whiteTimeLeft == old(game.whiteTimeLeft) && game.blackTimeLeft == old(game.blackTimeLeft))
      && (old(game.lastMoveTime).Some? ==>
            var elapsed := now - old(game.lastMoveTime).value;
            && game.whiteTimeLeft == (if playerColor == White then Some(Charged(old(game.whiteTimeLeft).value, elapsed, game.timeIncrement))
                                      else old(game.whiteTimeLeft))
            && game.blackTimeLeft == (if playerColor == Black then Some(Charged(old(game.blackTimeLeft).value, elapsed, game.timeIncrement))
                                      else old(game.blackTimeLeft)))
      && (game.whiteTimeLeft.value <= 0 ==> gs.gameOver && gs.winner == Some("Pretas"))
      && (game.whiteTimeLeft.value > 0 ==>
            && game.blackTimeLeft.Some?
            && var flag := FlagWinner(game.whiteTimeLeft.value, game.blackTimeLeft.value);
            && (flag.Some? ==> gs.gameOver && gs.winner == flag)
            && (flag.None? ==> gs.gameOver == old(gs.gameOver) && gs.winner == old(gs.winner)))
  {
    ok := true;
    if game.gameType == "pvp" {
      var currentTime := now;
      if game.lastMoveTime.None? {
        game.lastMoveTime := Some(currentTime);
      } else {
        var timeElapsed := currentTime - game.lastMoveTime.value;
        if playerColor == White {
          if game.whiteTimeLeft.None? {
            return false;
          }
          var remaining := game.whiteTimeLeft.value - TruncSeconds(timeElapsed);
          game.whiteTimeLeft := Some(if 0 >= remaining then 0 else remaining);
          game.whiteTimeLeft := Some(game.whiteTimeLeft.value + game.timeIncrement);
        } else {
          if game.blackTimeLeft.None? {
            return false;
          }
          var remaining := game.blackTimeLeft.value - TruncSeconds(timeElapsed);
          game.blackTimeLeft := Some(if 0 >= remaining then 0 else remaining);
          game.blackTimeLeft := Some(game.blackTimeLeft.value + game.timeIncrement);
        }
      }
      game.lastMoveTime := Some(currentTime);

      if game.whiteTimeLeft.None? {
        return false;
      }
      if game.whiteTimeLeft.value <= 0 {
        gs.gameOver := true;
        gs.winner := Some("Pretas");
      } else {
        if game.blackTimeLeft.None? {
          return false;
        }
        if game.blackTimeLeft.value <= 0 {
          gs.gameOver := true;
          gs.winner := Some("Brancas");
        }
      }
    }
  }
}
