/** connectz.py: the first-line and move-line parsers, the class `Connectz`
    that plays the game, and the move loop of `main` over the lines of an
    input file. */
module Connectz {
  import opened Base
  import opened PyList
  import opened PyText
  import opened Engine

  /** `check_valid_game_params(x, y, z)`: the game can be won, because a run
      of z marks fits in a row (z <= x) or in a column (z <= y). */
  function CheckValidGameParams(x: int, y: int, z: int): (b: bool)
    ensures b <==> z <= x || z <= y
  {
    z <= Max(x, y)
  }

  /** `check_all_positive_int(*params)`. */
  function CheckAllPositiveInt(params: seq<int>): (b: bool)
    ensures b <==> !exists i :: 0 <= i < |params| && params[i] < 1
  {
    forall i :: 0 <= i < |params| ==> params[i] > 0
  }

  /** The first line starts or ends with a space (after its newline is removed). */
  predicate PaddedWithSpace(t: string)
  {
    |t| > 0 && (t[0] == ' ' || t[|t| - 1] == ' ')
  }

  /** The integers of the space-separated fields of the first line, if every
      field is an integer. */
  function Fields(line: string): Option<seq<int>>
  {
    PyInts(SplitOn(RStrip(line, '\n'), ' '))
  }

  /** The first line is well formed apart from winnability: no leading or
      trailing space, exactly three integer fields, all positive. */
  predicate WellFormedDimensions(line: string)
  {
    && !PaddedWithSpace(RStrip(line, '\n'))
    && Fields(line).Some? && |Fields(line).value| == 3
    && CheckAllPositiveInt(Fields(line).value)
  }

  /** `parse_game_dimensions(line)`: InvalidFileError for a leading or
      trailing space, a field that is not an integer (an empty field from a
      double space included), a field count other than 3 or a value below 1;
      only then IllegalGameError when z > max(x, y); otherwise the three
      integers of the line, all positive and winnable. */
  function ParseGameDimensions(line: string): (r: Result<seq<int>>)
    ensures r.Err? ==> r.error == InvalidFileError || r.error == IllegalGameError
    ensures r == Err(InvalidFileError) <==> !WellFormedDimensions(line)
    ensures r == Err(IllegalGameError) <==>
      WellFormedDimensions(line) && Fields(line).value[2] > Max(Fields(line).value[0], Fields(line).value[1])
    ensures r.Ok? ==> Fields(line) == Some(r.value) && |r.value| == 3
    ensures r.Ok? ==> r.value[0] >= 1 && r.value[1] >= 1 && r.value[2] >= 1
    ensures r.Ok? ==> r.value[2] <= Max(r.value[0], r.value[1])
  {
    var trimmed := RStrip(line, '\n');
    if PaddedWithSpace(trimmed) then Err(InvalidFileError)
    else match Fields(line)
      case None => Err(InvalidFileError)
      case Some(params) => CheckDimensions(params)
  }

  /** The checks of `parse_game_dimensions` on the integers of the line, in
      its order: three of them, all positive, then winnable. */
  function CheckDimensions(params: seq<int>): (r: Result<seq<int>>)
    ensures r == Err(InvalidFileError) <==> |params| != 3 || !CheckAllPositiveInt(params)
    ensures r == Err(IllegalGameError) <==>
      |params| == 3 && CheckAllPositiveInt(params) && params[2] > Max(params[0], params[1])
    ensures r.Ok? ==> r.value == params
  {
    if |params| != 3 then Err(InvalidFileError)
    else if !CheckAllPositiveInt(params) then Err(InvalidFileError)
    else if !CheckValidGameParams(params[0], params[1], params[2]) then Err(IllegalGameError)
    else Ok(params)
  }

  /** The first line written out by the program that made the file is read
      back as the same three dimensions. */
  lemma ParseGameDimensionsRoundTrip(x: nat, y: nat, z: nat)
    requires x >= 1 && y >= 1 && z >= 1
    ensures ParseGameDimensions(NatToString(x) + " " + NatToString(y) + " " + NatToString(z) + "\n") ==
      if z <= Max(x, y) then Ok([x, y, z]) else Err(IllegalGameError)
  {
    ThreeFields(x, y, z);
    assert CheckDimensions([x, y, z]) == if z <= Max(x, y) then Ok([x, y, z]) else Err(IllegalGameError);
  }

  /** The first line of three decimal numbers splits into their values. */
  lemma ThreeFields(x: nat, y: nat, z: nat)
    ensures ParseGameDimensions(NatToString(x) + " " + NatToString(y) + " " + NatToString(z) + "\n") == CheckDimensions([x, y, z])
  {
    var sx, sy, sz := NatToString(x), NatToString(y), NatToString(z);
    var t := sx + " " + sy + " " + sz;
    var line := sx + " " + sy + " " + sz + "\n";
    assert line == t + "\n";
    ThreeFieldsTrimmed(sx, sy, sz);
    assert RStrip(line, '\n') == t;
    ThreeFieldsSplit(sx, sy, sz);
    PyIntOfNatToString(x);
    PyIntOfNatToString(y);
    PyIntOfNatToString(z);
    ThreeInts(sx, sy, sz, x, y, z);
    DimensionsFromFields(line, [x, y, z]);
  }

  /** Once the padding test passes, the rest of the parse depends only on the fields. */
  lemma DimensionsFromFields(line: string, v: seq<int>)
    requires !PaddedWithSpace(RStrip(line, '\n')) && Fields(line) == Some(v)
    ensures ParseGameDimensions(line) == CheckDimensions(v)
  {
  }

  /** Three decimals joined by spaces carry no padding and lose only the newline. */
  lemma ThreeFieldsTrimmed(sx: string, sy: string, sz: string)
    requires IsDecimal(sx) && IsDecimal(sy) && IsDecimal(sz)
    ensures var t := sx + " " + sy + " " + sz;
      RStrip(t + "\n", '\n') == t && !PaddedWithSpace(t)
  {
    var t := sx + " " + sy + " " + sz;
    assert t[0] == sx[0];
    assert t[|t| - 1] == sz[|sz| - 1];
    NoSpaceInDigits(sx);
    NoSpaceInDigits(sz);
    RStripOnce(t, '\n');
  }

  lemma ThreeFieldsSplit(sx: string, sy: string, sz: string)
    requires IsDecimal(sx) && IsDecimal(sy) && IsDecimal(sz)
    ensures SplitOn(sx + " " + sy + " " + sz, ' ') == [sx, sy, sz]
  {
    NoSpaceInDigits(sx);
    NoSpaceInDigits(sy);
    NoSpaceInDigits(sz);
    JoinThree(sx, sy, sz, ' ');
    SplitOnJoin([sx, sy, sz], ' ');
  }

  lemma NoSpaceInDigits(s: string)
    requires IsDecimal(s)
    ensures ' ' !in s && !IsSpace(s[0]) && !IsSpace(s[|s| - 1])
  {
  }

  lemma RStripOnce(t: string, c: char)
    requires |t| > 0 && t[|t| - 1] != c
    ensures RStrip(t + [c], c) == t
  {
    assert (t + [c])[..|t|] == t;
  }

  /** `parse_move(line)`: None stands for the ValueError it raises: a space
      anywhere in the line, a line that is not an integer, or a value below 1.
      Otherwise the value is at least 1. */
  function ParseMove(line: string): (r: Option<int>)
    ensures var t := RStrip(line, '\n');
      r.Some? <==> ' ' !in t && PyInt(t).Some? && PyInt(t).value >= 1
    ensures r.Some? ==> r == PyInt(RStrip(line, '\n')) && r.value >= 1
  {
    var trimmed := RStrip(line, '\n');
    if ' ' in trimmed then None
    else match PyInt(trimmed)
      case None => None
      case Some(number) => if number < 1 then None else Some(number)
  }

  /** A move line written as a decimal column number is read back as it. */
  lemma ParseMoveRoundTrip(n: nat)
    requires n >= 1
    ensures ParseMove(NatToString(n) + "\n") == Some(n)
  {
    var s := NatToString(n);
    RStripOnce(s, '\n');
    NoSpaceInDigits(s);
    PyIntOfNatToString(n);
  }

  /** `Connectz`: the board, the player to move, the winner and the last move. */
  class Connectz {
    const X: int
    const Y: int
    const Z: int
    var currentPlayer: int
    var won: int
    var lastMove: Point
    var grid: seq<seq<int>>

    /** The fields as one value of the engine model. */
    function Snapshot(): State
      reads this
    {
      State(grid, currentPlayer, won, lastMove)
    }

    ghost predicate Valid()
      reads this
    {
      Inv(X, Y, Snapshot())
    }

    /** `__init__(x, y, z)`: x empty columns, player 0 to move, no winner. */
    constructor (x: int, y: int, z: int)
      ensures X == x && Y == y && Z == z
      ensures Snapshot() == Initial(x) && Valid()
    {
      X, Y, Z := x, y, z;
      currentPlayer := 0;
      won := 0;
      lastMove := Point(0, 0);
      grid := seq(Max(x, 0), j => []);
      InitialInv(x, y);
    }

    /** `get_last_column`: the top min(Z, height) marks of the last column. */
    method GetLastColumn() returns (column: seq<int>)
      requires 0 <= lastMove.x < |grid|
      ensures column == LastColumn(Z, grid, lastMove)
      ensures Z >= 1 ==> column == grid[lastMove.x][|grid[lastMove.x]| - Min(Z, |grid[lastMove.x]|)..]
    {
      column := PySlice(grid[lastMove.x], -Z, |grid[lastMove.x]|);
    }

    /** `get_last_row`. */
    method GetLastRow() returns (row: seq<int>)
      ensures row == LastRow(X, Z, grid, lastMove)
    {
      var g, p := grid, lastMove;
      var lBound := Max(0, p.x - Z);
      var uBound := Min(X, p.x + Z);
      row := [];
      var j := lBound;
      while j < uBound + 1
        invariant lBound <= j && |row| == j - lBound <= Span(lBound, uBound)
        invariant forall k :: 0 <= k < |row| ==> row[k] == Cell(g, lBound + k, p.y)
        decreases uBound + 1 - j
      {
        row := row + [Cell(g, j, p.y)];
        j := j + 1;
      }
    }

    /** `get_last_upward_diagonal`. */
    method GetLastUpwardDiagonal() returns (diag: seq<int>)
      ensures diag == LastUp(X, Y, Z, grid, lastMove)
    {
      var g, p := grid, lastMove;
      var lBound := -Min(Min(p.x, p.y), Z);
      var uBound := Min(Max(X - p.x, Y - p.y), Z);
      diag := [];
      var j := lBound;
      while j < uBound + 1
        invariant lBound <= j && |diag| == j - lBound <= Span(lBound, uBound)
        invariant forall k :: 0 <= k < |diag| ==> diag[k] == Cell(g, p.x + lBound + k, p.y + lBound + k)
        decreases uBound + 1 - j
      {
        diag := diag + [Cell(g, p.x + j, p.y + j)];
        j := j + 1;
      }
    }

    /** `get_last_downward_diagonal`; the row index may go negative and wrap. */
    method GetLastDownwardDiagonal() returns (diag: seq<int>)
      ensures diag == LastDown(X, Y, Z, grid, lastMove)
    {
      var g, p := grid, lastMove;
      var lBound := -Min(Min(p.x, Y - p.y), Z);
      var uBound := Min(Max(X - p.x, p.y), Z);
      diag := [];
      var j := lBound;
      while j < uBound + 1
        invariant lBound <= j && |diag| == j - lBound <= Span(lBound, uBound)
        invariant forall k :: 0 <= k < |diag| ==> diag[k] == Cell(g, p.x + lBound + k, p.y - (lBound + k))
        decreases uBound + 1 - j
      {
        diag := diag + [Cell(g, p.x + j, p.y - j)];
        j := j + 1;
      }
    }

    /** `append_move_to_grid(column)`: raises and changes nothing for an
        illegal column or a full one; otherwise pushes the mover's mark. */
    method AppendMoveToGrid(column: int) returns (status: Status)
      requires Valid()
      modifies this`grid, this`lastMove
      ensures Valid()
      ensures var r := Append(X, Y, old(Snapshot()), column);
        && (r.Ok? ==> status == Done && Snapshot() == r.value)
        && (r.Err? ==> status == Raised(r.error) && Snapshot() == old(Snapshot()))
    {
      var colIndex := column - 1;
      if !(0 <= colIndex < X) {
        status := Raised(IllegalColumnError);
      } else if |grid[colIndex]| < Y {
        grid := grid[colIndex := grid[colIndex] + [currentPlayer + 1]];
        lastMove := Point(colIndex, |grid[colIndex]| - 1);
        status := Done;
      } else {
        status := Raised(IllegalRowError);
      }
    }

    /** `next_player`: 0 and 1 alternate. */
    method NextPlayer()
      modifies this`currentPlayer
      ensures currentPlayer == (old(currentPlayer) + 1) % 2
    {
      currentPlayer := (currentPlayer + 1) % 2;
    }

    /** `is_game_won`. */
    method IsGameWon() returns (b: bool)
      ensures b <==> won != 0
    {
      b := won != 0;
    }

    /** `get_winner`: 0, 1 or 2. */
    method GetWinner() returns (w: int)
      requires Valid()
      ensures w == won && 0 <= w <= 2
    {
      w := won;
    }

    /** `check_vector_for_win(vec)`: the first winning slice makes the player
        to move the winner; without one, `won` keeps its value. */
    method CheckVectorForWin(vec: seq<int>)
      modifies this`won
      ensures won == if HasWin(vec, Z) then currentPlayer + 1 else old(won)
    {
      var sublists := Sublists(vec, Z);
      var i := 0;
      while i < |sublists|
        invariant 0 <= i <= |sublists|
        invariant forall k :: 0 <= k < i ==> !AllEqualNonZero(sublists[k])
        invariant won == old(won)
      {
        if AllEqualNonZero(sublists[i]) {
          won := currentPlayer + 1;
          break;
        }
        i := i + 1;
      }
    }

    /** `check_if_winning_move`: the column, the row, then both diagonals. */
    method CheckIfWinningMove()
      requires 0 <= lastMove.x < |grid|
      modifies this`won
      ensures Snapshot() == CheckIfWinning(X, Y, Z, old(Snapshot()))
    {
      var lastColumn := GetLastColumn();
      CheckVectorForWin(lastColumn);
      var row := GetLastRow();
      CheckVectorForWin(row);
      var up := GetLastUpwardDiagonal();
      CheckVectorForWin(up);
      var down := GetLastDownwardDiagonal();
      CheckVectorForWin(down);
    }

    /** `move(column)`: append (which may raise), win check, player toggle. */
    method Move(column: int) returns (status: Status)
      requires Valid()
      modifies this
      ensures Valid()
      ensures var r := Engine.Move(X, Y, Z, old(Snapshot()), column);
        && (r.Ok? ==> status == Done && Snapshot() == r.value)
        && (r.Err? ==> status == Raised(r.error) && Snapshot() == old(Snapshot()))
    {
      ghost var s := Snapshot();
      status := AppendMoveToGrid(column);
      if status.Done? {
        ghost var a := Snapshot();
        assert a == Append(X, Y, s, column).value;
        CheckIfWinningMove();
        assert Snapshot() == CheckIfWinning(X, Y, Z, a);
        NextPlayer();
        assert Snapshot() == Engine.NextPlayer(CheckIfWinning(X, Y, Z, a)) == Engine.Move(X, Y, Z, s, column).value;
      }
    }

    /** `check_complete_game`: the column lengths add up to X * Y, which for
        non-negative dimensions means every column is full. */
    method CheckCompleteGame() returns (b: bool)
      requires Valid()
      ensures b == Complete(X, Y, Snapshot())
      ensures X >= 0 && Y >= 0 ==> (b <==> forall c :: 0 <= c < |grid| ==> |grid[c]| == Y)
    {
      b := SumLengths(grid) == X * Y;
      if X >= 0 && Y >= 0 {
        CompleteIffFull(X, Y, Snapshot());
      }
    }
  }

  /** The code `main` returns once its loop reaches line i in state s. */
  function PlayFrom(X: int, Y: int, Z: int, s: State, lines: seq<string>, i: int): int
    requires Inv(X, Y, s)
    decreases |lines| - i
  {
    var line := ReadLine(lines, i);
    if line == "" then Classify(X, Y, s)
    else match ParseMove(line)
      case None => 8
      case Some(m) =>
        if m != 0 && s.won != 0 then 4
        else match Engine.Move(X, Y, Z, s, m)
          case Err(e) => if e == IllegalColumnError then 6 else 5
          case Ok(t) => PlayFrom(X, Y, Z, t, lines, i + 1)
  }

  /** The code `main(filename)` returns for a file whose lines are `lines`. */
  function Outcome(lines: seq<string>): int
  {
    match ParseGameDimensions(ReadLine(lines, 0))
    case Err(e) => if e == IllegalGameError then 7 else 8
    case Ok(d) =>
      InitialInv(d[0], d[1]);
      PlayFrom(d[0], d[1], d[2], Initial(d[0]), lines, 1)
  }

  /** `main` without the file handling: the dimensions line, then one move
      per line until the end of the file or the first error. */
  method RunGame(lines: seq<string>) returns (code: int)
    ensures code == Outcome(lines)
  {
    var line := ReadLine(lines, 0);
    var dims := ParseGameDimensions(line);
    if dims.Err? {
      code := if dims.error == IllegalGameError then 7 else 8;
      return;
    }
    var x, y, z := dims.value[0], dims.value[1], dims.value[2];
    var game := new Connectz(x, y, z);
    var i := 1;
    line := ReadLine(lines, i);
    while line != ""
      invariant 1 <= i && line == ReadLine(lines, i)
      invariant game.X == x && game.Y == y && game.Z == z && game.Valid()
      invariant PlayFrom(x, y, z, game.Snapshot(), lines, i) == Outcome(lines)
      decreases |lines| - i
    {
      ghost var s := game.Snapshot();
      var move := ParseMove(line);
      if move.None? {
        return 8;
      }
      var won := game.IsGameWon();
      if move.value != 0 && won {
        return 4;
      }
      var status := game.Move(move.value);
      if status.Raised? {
        code := if status.error == IllegalColumnError then 6 else 5;
        return;
      }
      assert PlayFrom(x, y, z, s, lines, i) == PlayFrom(x, y, z, game.Snapshot(), lines, i + 1);
      i := i + 1;
      line := ReadLine(lines, i);
    }
    var won := game.IsGameWon();
    if won {
      code := game.GetWinner();
    } else {
      var full := game.CheckCompleteGame();
      code := if full then 0 else 3;
    }
  }
}

module ConnectzGames {
  import opened Base
  import opened PyList
  import opened PyText
  import opened Engine
  import opened Connectz

  /** The move loop only ever ends with a winner (1, 2), a draw (0), an
      incomplete game (3), a move after the win (4), a full column (5), an
      illegal column (6) or an unreadable line (8); never with 7. */
  lemma {:induction false} PlayFromCodes(X: int, Y: int, Z: int, s: State, lines: seq<string>, i: int)
    requires Inv(X, Y, s)
    ensures PlayFrom(X, Y, Z, s, lines, i) in {0, 1, 2, 3, 4, 5, 6, 8}
    decreases |lines| - i
  {
    var line := ReadLine(lines, i);
    if line != "" {
      match ParseMove(line)
      case None =>
      case Some(m) =>
        if !(m != 0 && s.won != 0) {
          match Engine.Move(X, Y, Z, s, m)
          case Err(e) =>
          case Ok(t) => PlayFromCodes(X, Y, Z, t, lines, i + 1);
        }
    }
  }

  /** `main` returns one of the codes 0 to 8 (9, a missing file, is outside
      this model), and 7 exactly for a well-formed first line describing a
      game that cannot be won. */
  lemma OutcomeCodes(lines: seq<string>)
    ensures 0 <= Outcome(lines) <= 8
    ensures Outcome(lines) == 7 <==> ParseGameDimensions(ReadLine(lines, 0)) == Err(IllegalGameError)
    ensures Outcome(lines) == 8 <== ParseGameDimensions(ReadLine(lines, 0)) == Err(InvalidFileError)
  {
    match ParseGameDimensions(ReadLine(lines, 0))
    case Err(e) =>
    case Ok(d) =>
      InitialInv(d[0], d[1]);
      PlayFromCodes(d[0], d[1], d[2], Initial(d[0]), lines, 1);
  }

  /** Once the game is won, the next line decides: the end of the file
      reports the winner, an unreadable line gives 8, any other move 4. */
  lemma WinIsFinal(X: int, Y: int, Z: int, s: State, lines: seq<string>, i: int)
    requires Inv(X, Y, s) && s.won != 0
    ensures PlayFrom(X, Y, Z, s, lines, i) ==
      if ReadLine(lines, i) == "" then s.won
      else if ParseMove(ReadLine(lines, i)).None? then 8
      else 4
  {
  }

  /** When Z is 1 every legal move wins at once. */
  lemma SingleMarkWins(X: int, Y: int, s: State, column: int)
    requires Inv(X, Y, s) && Engine.Move(X, Y, 1, s, column).Ok?
    ensures Engine.Move(X, Y, 1, s, column).value.won == s.currentPlayer + 1
  {
    var a := Append(X, Y, s, column).value;
    assert RunFrom(a.grid, a.lastMove, Vertical, 1, 0);
    MoveDetectsRun(X, Y, 1, s, column, Vertical);
  }

  /** A first line whose last field ends in U+001C: `strip()` and `split()`
      count that character as whitespace, but `int("4\x1c")` raises, so the
      file is invalid and `main` returns 8. */
  lemma SeparatorAfterDimensions(line: string)
    requires line == "7 6 4\U{1c}\n"
    ensures ParseGameDimensions(line) == Err(InvalidFileError)
    ensures Outcome([line]) == 8
  {
    var last := "4\U{1c}";
    SeparatorFields(line, last);
    OutcomeCodes([line]);
  }

  /** The fields of that line: "7", "6" and "4\x1c", the last not an integer. */
  lemma SeparatorFields(line: string, last: string)
    requires last == "4\U{1c}" && line == "7 6 " + last + "\n"
    ensures Fields(line) == None
  {
    SeparatorSplit(line, last);
    SeparatorNotIntSpace(last);
    ThirdNotInt(["7", "6", last]);
  }

  lemma SeparatorSplit(line: string, last: string)
    requires last == "4\U{1c}" && line == "7 6 " + last + "\n"
    ensures SplitOn(RStrip(line, '\n'), ' ') == ["7", "6", last]
  {
    var t := "7 6 " + last;
    assert line == t + "\n";
    RStripOnce(t, '\n');
    JoinThree("7", "6", last, ' ');
    assert Join(["7", "6", last], ' ') == t;
    SplitOnJoin(["7", "6", last], ' ');
  }

  /** One field that is not an integer makes `list(map(int, ...))` raise. */
  lemma ThirdNotInt(fields: seq<string>)
    requires |fields| == 3 && PyInt(fields[2]) == None
    ensures PyInts(fields) == None
  {
  }

  /** An empty file is an invalid file. */
  lemma EmptyFile()
    ensures Outcome([]) == 8
  {
    assert SplitOn("", ' ') == [""];
    assert PyInt("").None?;
  }

  /** A first line asking for a run longer than both sides: an illegal game. */
  lemma UnwinnableGame()
    ensures Outcome([NatToString(1) + " " + NatToString(1) + " " + NatToString(2) + "\n"]) == 7
  {
    ParseGameDimensionsRoundTrip(1, 1, 2);
  }

  /** Dimensions 7 6 4 with no moves: the game is incomplete. */
  lemma NoMovesIncomplete()
    ensures Outcome([NatToString(7) + " " + NatToString(6) + " " + NatToString(4) + "\n"]) == 3
  {
    ParseGameDimensionsRoundTrip(7, 6, 4);
    var s := Initial(7);
    InitialInv(7, 6);
    CompleteIffFull(7, 6, s);
    assert |s.grid[0]| == 0;
  }

  /** Dimensions 7 6 4 and a move in column 8: an illegal column. */
  lemma ColumnOutsideBoard()
    ensures Outcome([NatToString(7) + " " + NatToString(6) + " " + NatToString(4) + "\n", NatToString(8) + "\n"]) == 6
  {
    ParseGameDimensionsRoundTrip(7, 6, 4);
    ParseMoveRoundTrip(8);
    InitialInv(7, 6);
  }

  /** Dimensions 2 2 1: the first move wins, so a second move is illegal (4). */
  lemma MoveAfterWin()
    ensures Outcome([NatToString(2) + " " + NatToString(2) + " " + NatToString(1) + "\n",
                     NatToString(1) + "\n", NatToString(2) + "\n"]) == 4
  {
    var lines := [NatToString(2) + " " + NatToString(2) + " " + NatToString(1) + "\n",
                  NatToString(1) + "\n", NatToString(2) + "\n"];
    ParseGameDimensionsRoundTrip(2, 2, 1);
    var s := Initial(2);
    InitialInv(2, 2);
    assert Outcome(lines) == PlayFrom(2, 2, 1, s, lines, 1);
    FirstMoveWins(lines);
  }

  lemma FirstMoveWins(lines: seq<string>)
    requires |lines| == 3 && lines[1] == NatToString(1) + "\n" && lines[2] == NatToString(2) + "\n"
    ensures Inv(2, 2, Initial(2)) && PlayFrom(2, 2, 1, Initial(2), lines, 1) == 4
  {
    var s := Initial(2);
    InitialInv(2, 2);
    ParseMoveRoundTrip(1);
    ParseMoveRoundTrip(2);
    assert |s.grid[0]| == 0;
    SingleMarkWins(2, 2, s, 1);
    var t := Engine.Move(2, 2, 1, s, 1).value;
    PlayStep(2, 2, 1, s, lines, 1, 1);
    WinIsFinal(2, 2, 1, t, lines, 2);
  }

  /** A legal move line takes the loop to the next line in the moved state. */
  lemma PlayStep(X: int, Y: int, Z: int, s: State, lines: seq<string>, i: int, m: int)
    requires Inv(X, Y, s) && ReadLine(lines, i) != "" && ParseMove(ReadLine(lines, i)) == Some(m)
    requires s.won == 0 && Engine.Move(X, Y, Z, s, m).Ok?
    ensures PlayFrom(X, Y, Z, s, lines, i) == PlayFrom(X, Y, Z, Engine.Move(X, Y, Z, s, m).value, lines, i + 1)
  {
  }
}
