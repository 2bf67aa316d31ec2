/** collectz.py: the earlier, looser variant of the same program. Its first
    line is split on any whitespace and needs no positive dimensions, a move
    line is any integer, and an unreadable move line makes `main` return the
    string 'invalid line' rather than a code. The game itself is played by the
    same rules, so the class is proved against the same engine model. */
module Collectz {
  import opened Base
  import opened PyList
  import opened PyText
  import opened Engine

  /** `valid_game_params(*args)`: a run of z fits in a row or a column. */
  function ValidGameParams(x: int, y: int, z: int): (b: bool)
    ensures b <==> z <= x || z <= y
  {
    z <= Max(x, y)
  }

  /** `get_params(line)`: the whitespace-separated fields must be exactly
      three integers (InvalidFileError otherwise), and only then must they
      describe a winnable game (IllegalGameError otherwise). Zero and
      negative dimensions are accepted. */
  function GetParams(line: string): (r: Result<seq<int>>)
    ensures r == Err(InvalidFileError) <==> PyInts(Words(line)).None? || |PyInts(Words(line)).value| != 3
    ensures var p := PyInts(Words(line));
      r == Err(IllegalGameError) <==> p.Some? && |p.value| == 3 && p.value[2] > Max(p.value[0], p.value[1])
    ensures r.Ok? ==> PyInts(Words(line)) == Some(r.value) && |r.value| == 3 && r.value[2] <= Max(r.value[0], r.value[1])
  {
    match PyInts(Words(line))
    case None => Err(InvalidFileError)
    case Some(params) =>
      if |params| != 3 then Err(InvalidFileError)
      else if !ValidGameParams(params[0], params[1], params[2]) then Err(IllegalGameError)
      else Ok(params)
  }

  /** Any three integers written with single spaces and a newline are read
      back, winnable or not. */
  lemma GetParamsRoundTrip(x: int, y: int, z: int)
    ensures GetParams(IntToString(x) + " " + IntToString(y) + " " + IntToString(z) + "\n") ==
      if z <= Max(x, y) then Ok([x, y, z]) else Err(IllegalGameError)
  {
    var sx, sy, sz := IntToString(x), IntToString(y), IntToString(z);
    var line := sx + " " + sy + " " + sz + "\n";
    IntToStringWord(x);
    IntToStringWord(y);
    IntToStringWord(z);
    JoinThree(sx, sy, sz, ' ');
    assert Join([sx, sy, sz], ' ') + "\n" == line;
    WordsJoin([sx, sy, sz], "\n");
    PyIntOfIntToString(x);
    PyIntOfIntToString(y);
    PyIntOfIntToString(z);
    ThreeInts(sx, sy, sz, x, y, z);
  }

  /** `parse_move(line)`: `int(line.strip())`; None stands for ValueError.
      `strip()` removes all the whitespace `int()` would skip and more, so
      the line must be, once stripped, an optional sign and digits. Zero and
      negative columns parse. */
  function ParseMove(line: string): (r: Option<int>)
    ensures r == ParseSigned(Strip(line))
  {
    IntStripOfStrip(line);
    PyInt(Strip(line))
  }

  /** Any integer written on a line of its own is read back. */
  lemma ParseMoveRoundTrip(i: int)
    ensures ParseMove(IntToString(i) + "\n") == Some(i)
  {
    IntToStringWord(i);
    StripWordNewline(IntToString(i));
    PyIntOfIntToString(i);
  }

  /** `CollectZ`: the board, the player to move, the winner and the last move. */
  class CollectZ {
    const X: int
    const Y: int
    const Z: int
    var currentPlayer: int
    var won: int
    var lastMove: Point
    var grid: seq<seq<int>>

    /** The fields as one value of the engine model. */
    function Snapshot(): State
      reads this
    {
      State(grid, currentPlayer, won, lastMove)
    }

    ghost predicate Valid()
      reads this
    {
      Inv(X, Y, Snapshot())
    }

    /** `__init__(x, y, z)`: max(x, 0) empty columns, player 0 to move, no winner. */
    constructor (x: int, y: int, z: int)
      ensures X == x && Y == y && Z == z
      ensures Snapshot() == Initial(x) && Valid()
    {
      X, Y, Z := x, y, z;
      currentPlayer := 0;
      won := 0;
      lastMove := Point(0, 0);
      grid := seq(Max(x, 0), j => []);
      InitialInv(x, y);
    }

    /** `get_last_column`: `grid[x][-Z:]`. */
    method GetLastColumn() returns (column: seq<int>)
      requires 0 <= lastMove.x < |grid|
      ensures column == LastColumn(Z, grid, lastMove)
      ensures Z >= 1 ==> column == grid[lastMove.x][|grid[lastMove.x]| - Min(Z, |grid[lastMove.x]|)..]
      ensures Z <= 0 ==> column == grid[lastMove.x][Min(-Z, |grid[lastMove.x]|)..]
    {
      column := PySlice(grid[lastMove.x], -Z, |grid[lastMove.x]|);
    }

    /** `get_last_row`. */
    method GetLastRow() returns (row: seq<int>)
      ensures row == LastRow(X, Z, grid, lastMove)
    {
      var g, p := grid, lastMove;
      var lBound := Max(0, p.x - Z);
      var uBound := Min(X, p.x + Z);
      row := [];
      var j := lBound;
      while j < uBound + 1
        invariant lBound <= j && |row| == j - lBound <= Span(lBound, uBound)
        invariant forall k :: 0 <= k < |row| ==> row[k] == Cell(g, lBound + k, p.y)
        decreases uBound + 1 - j
      {
        row := row + [Cell(g, j, p.y)];
        j := j + 1;
      }
    }

    /** `get_last_upward_diagonal`. */
    method GetLastUpwardDiagonal() returns (diag: seq<int>)
      ensures diag == LastUp(X, Y, Z, grid, lastMove)
    {
      var g, p := grid, lastMove;
      var lBound := -Min(Min(p.x, p.y), Z);
      var uBound := Min(Max(X - p.x, Y - p.y), Z);
      diag := [];
      var j := lBound;
      while j < uBound + 1
        invariant lBound <= j && |diag| == j - lBound <= Span(lBound, uBound)
        invariant forall k :: 0 <= k < |diag| ==> diag[k] == Cell(g, p.x + lBound + k, p.y + lBound + k)
        decreases uBound + 1 - j
      {
        diag := diag + [Cell(g, p.x + j, p.y + j)];
        j := j + 1;
      }
    }

    /** `get_last_downward_diagonal`; the row index may go negative and wrap. */
    method GetLastDownwardDiagonal() returns (diag: seq<int>)
      ensures diag == LastDown(X, Y, Z, grid, lastMove)
    {
      var g, p := grid, lastMove;
      var lBound := -Min(Min(p.x, Y - p.y), Z);
      var uBound := Min(Max(X - p.x, p.y), Z);
      diag := [];
      var j := lBound;
      while j < uBound + 1
        invariant lBound <= j && |diag| == j - lBound <= Span(lBound, uBound)
        invariant forall k :: 0 <= k < |diag| ==> diag[k] == Cell(g, p.x + lBound + k, p.y - (lBound + k))
        decreases uBound + 1 - j
      {
        diag := diag + [Cell(g, p.x + j, p.y - j)];
        j := j + 1;
      }
    }

    /** `append_move_to_grid(column)`: raises and changes nothing for an
        illegal column or a full one; otherwise pushes the mover's mark. */
    method AppendMoveToGrid(column: int) returns (status: Status)
      requires Valid()
      modifies this`grid, this`lastMove
      ensures Valid()
      ensures var r := Append(X, Y, old(Snapshot()), column);
        && (r.Ok? ==> status == Done && Snapshot() == r.value)
        && (r.Err? ==> status == Raised(r.error) && Snapshot() == old(Snapshot()))
    {
      var colIndex := column - 1;
      if !(0 <= colIndex < X) {
        status := Raised(IllegalColumnError);
      } else if |grid[colIndex]| < Y {
        grid := grid[colIndex := grid[colIndex] + [currentPlayer + 1]];
        lastMove := Point(colIndex, |grid[colIndex]| - 1);
        status := Done;
      } else {
        status := Raised(IllegalRowError);
      }
    }

    /** `next_player`: 0 and 1 alternate. */
    method NextPlayer()
      modifies this`currentPlayer
      ensures currentPlayer == (old(currentPlayer) + 1) % 2
    {
      currentPlayer := (currentPlayer + 1) % 2;
    }

    /** `is_game_won`. */
    method IsGameWon() returns (b: bool)
      ensures b <==> won != 0
    {
      b := won != 0;
    }

    /** `winner`: 0, 1 or 2. */
    method Winner() returns (w: int)
      requires Valid()
      ensures w == won && 0 <= w <= 2
    {
      w := won;
    }

    /** `check_win(vec)`: a window shorter than Z is skipped, which is what
        the slice search would conclude anyway (ShortWindowNoWin); otherwise
        the first winning slice makes the player to move the winner. */
    method CheckWin(vec: seq<int>)
      modifies this`won
      ensures won == if HasWin(vec, Z) then currentPlayer + 1 else old(won)
    {
      if |vec| >= Z {
        var sublists := Sublists(vec, Z);
        var i := 0;
        while i < |sublists|
          invariant 0 <= i <= |sublists|
          invariant forall k :: 0 <= k < i ==> !AllEqualNonZero(sublists[k])
          invariant won == old(won)
        {
          if AllEqualNonZero(sublists[i]) {
            won := currentPlayer + 1;
            break;
          }
          i := i + 1;
        }
      } else {
        ShortWindowNoWin(vec, Z);
      }
    }

    /** `check_if_winning_move`: the column, the row, then both diagonals. */
    method CheckIfWinningMove()
      requires 0 <= lastMove.x < |grid|
      modifies this`won
      ensures Snapshot() == CheckIfWinning(X, Y, Z, old(Snapshot()))
    {
      var lastColumn := GetLastColumn();
      CheckWin(lastColumn);
      var row := GetLastRow();
      CheckWin(row);
      var up := GetLastUpwardDiagonal();
      CheckWin(up);
      var down := GetLastDownwardDiagonal();
      CheckWin(down);
    }

    /** `move(line)`: append (which may raise), win check, player toggle. */
    method Move(column: int) returns (status: Status)
      requires Valid()
      modifies this
      ensures Valid()
      ensures var r := Engine.Move(X, Y, Z, old(Snapshot()), column);
        && (r.Ok? ==> status == Done && Snapshot() == r.value)
        && (r.Err? ==> status == Raised(r.error) && Snapshot() == old(Snapshot()))
    {
      ghost var s := Snapshot();
      status := AppendMoveToGrid(column);
      if status.Done? {
        ghost var a := Snapshot();
        assert a == Append(X, Y, s, column).value;
        CheckIfWinningMove();
        assert Snapshot() == CheckIfWinning(X, Y, Z, a);
        NextPlayer();
        assert Snapshot() == Engine.NextPlayer(CheckIfWinning(X, Y, Z, a)) == Engine.Move(X, Y, Z, s, column).value;
      }
    }

    /** `check_complete_game`: the column lengths add up to X * Y. */
    method CheckCompleteGame() returns (b: bool)
      requires Valid()
      ensures b == Complete(X, Y, Snapshot())
      ensures X >= 0 && Y >= 0 ==> (b <==> forall c :: 0 <= c < |grid| ==> |grid[c]| == Y)
    {
      b := SumLengths(grid) == X * Y;
      if X >= 0 && Y >= 0 {
        CompleteIffFull(X, Y, Snapshot());
      }
    }
  }

  /** What `main` returns: a code, or the string 'invalid line'. */
  datatype MainResult = Code(code: int) | InvalidLine

  /** What `main` returns once its loop reaches line i in state s. */
  function PlayFrom(X: int, Y: int, Z: int, s: State, lines: seq<string>, i: int): MainResult
    requires Inv(X, Y, s)
    decreases |lines| - i
  {
    var line := ReadLine(lines, i);
    if line == "" then Code(Classify(X, Y, s))
    else match ParseMove(line)
      case None => InvalidLine
      case Some(m) =>
        if m != 0 && s.won != 0 then Code(4)
        else match Engine.Move(X, Y, Z, s, m)
          case Err(e) => Code(if e == IllegalColumnError then 6 else 5)
          case Ok(t) => PlayFrom(X, Y, Z, t, lines, i + 1)
  }

  /** What `main(filename)` returns for a file whose lines are `lines`. */
  function Outcome(lines: seq<string>): MainResult
  {
    match GetParams(ReadLine(lines, 0))
    case Err(e) => Code(if e == IllegalGameError then 7 else 8)
    case Ok(d) =>
      InitialInv(d[0], d[1]);
      PlayFrom(d[0], d[1], d[2], Initial(d[0]), lines, 1)
  }

  /** `main` without the file handling. */
  method RunGame(lines: seq<string>) returns (result: MainResult)
    ensures result == Outcome(lines)
  {
    var line := ReadLine(lines, 0);
    var params := GetParams(line);
    if params.Err? {
      result := Code(if params.error == IllegalGameError then 7 else 8);
      return;
    }
    var x, y, z := params.value[0], params.value[1], params.value[2];
    var game := new CollectZ(x, y, z);
    var i := 1;
    line := ReadLine(lines, i);
    while line != ""
      invariant 1 <= i && line == ReadLine(lines, i)
      invariant game.X == x && game.Y == y && game.Z == z && game.Valid()
      invariant PlayFrom(x, y, z, game.Snapshot(), lines, i) == Outcome(lines)
      decreases |lines| - i
    {
      ghost var s := game.Snapshot();
      var move := ParseMove(line);
      if move.None? {
        return InvalidLine;
      }
      var won := game.IsGameWon();
      if move.value != 0 && won {
        return Code(4);
      }
      var status := game.Move(move.value);
      if status.Raised? {
        result := Code(if status.error == IllegalColumnError then 6 else 5);
        return;
      }
      assert PlayFrom(x, y, z, s, lines, i) == PlayFrom(x, y, z, game.Snapshot(), lines, i + 1);
      i := i + 1;
      line := ReadLine(lines, i);
    }
    var won := game.IsGameWon();
    if won {
      var w := game.Winner();
      result := Code(w);
    } else {
      var full := game.CheckCompleteGame();
      result := Code(if full then 0 else 3);
    }
  }
}

module CollectzGames {
  import opened Base
  import opened PyList
  import opened PyText
  import opened Engine
  import opened Collectz
  import Connectz

  /** The move loop ends with 'invalid line' or one of the codes 0 to 6. */
  lemma {:induction false} PlayFromCodes(X: int, Y: int, Z: int, s: State, lines: seq<string>, i: int)
    requires Inv(X, Y, s)
    ensures var r := PlayFrom(X, Y, Z, s, lines, i); r.InvalidLine? || 0 <= r.code <= 6
    decreases |lines| - i
  {
    var line := ReadLine(lines, i);
    if line != "" && ParseMove(line).Some? {
      var m := ParseMove(line).value;
      if !(m != 0 && s.won != 0) && Engine.Move(X, Y, Z, s, m).Ok? {
        var t := Engine.Move(X, Y, Z, s, m).value;
        assert PlayFrom(X, Y, Z, s, lines, i) == PlayFrom(X, Y, Z, t, lines, i + 1);
        PlayFromCodes(X, Y, Z, t, lines, i + 1);
      }
    }
  }

  /** `main` returns 'invalid line' or a code from 0 to 8; 7 and 8 come
      exactly from the two errors of the first line. */
  lemma OutcomeCodes(lines: seq<string>)
    ensures var r := Outcome(lines); r.InvalidLine? || 0 <= r.code <= 8
    ensures Outcome(lines) == Code(7) <==> GetParams(ReadLine(lines, 0)) == Err(IllegalGameError)
    ensures Outcome(lines) == Code(8) <==> GetParams(ReadLine(lines, 0)) == Err(InvalidFileError)
  {
    match GetParams(ReadLine(lines, 0))
    case Err(e) =>
    case Ok(d) =>
      InitialInv(d[0], d[1]);
      PlayFromCodes(d[0], d[1], d[2], Initial(d[0]), lines, 1);
  }

  /** Once the game is won, the next line decides: the end of the file
      reports the winner, an unreadable line gives 'invalid line', a move 0
      slips past the `move and won` test and fails as an illegal column (6),
      and any other move is an illegal continuation (4). */
  lemma WinIsFinal(X: int, Y: int, Z: int, s: State, lines: seq<string>, i: int)
    requires Inv(X, Y, s) && s.won != 0
    ensures PlayFrom(X, Y, Z, s, lines, i) ==
      if ReadLine(lines, i) == "" then Code(s.won)
      else if ParseMove(ReadLine(lines, i)).None? then InvalidLine
      else if ParseMove(ReadLine(lines, i)).value == 0 then Code(6)
      else Code(4)
  {
  }

  /** With Z <= 0 (which `get_params` accepts) every legal move wins: the
      empty slice of the last column passes `check_all_equal`. */
  lemma NonPositiveZMoveWins(X: int, Y: int, Z: int, s: State, column: int)
    requires Inv(X, Y, s) && Z <= 0 && Engine.Move(X, Y, Z, s, column).Ok?
    ensures Engine.Move(X, Y, Z, s, column).value.won == s.currentPlayer + 1
  {
    var a := Append(X, Y, s, column).value;
    NonPositiveZWins(LastColumn(Z, a.grid, a.lastMove), Z);
  }

  /** A legal move line takes the loop to the next line in the moved state. */
  lemma PlayStep(X: int, Y: int, Z: int, s: State, lines: seq<string>, i: int, m: int)
    requires Inv(X, Y, s) && ReadLine(lines, i) != "" && ParseMove(ReadLine(lines, i)) == Some(m)
    requires !(m != 0 && s.won != 0) && Engine.Move(X, Y, Z, s, m).Ok?
    ensures PlayFrom(X, Y, Z, s, lines, i) == PlayFrom(X, Y, Z, Engine.Move(X, Y, Z, s, m).value, lines, i + 1)
  {
  }

  /** A 0 by 0 board with no moves is complete, hence a draw. */
  lemma EmptyBoardDraw()
    ensures Outcome([IntToString(0) + " " + IntToString(0) + " " + IntToString(0) + "\n"]) == Code(0)
  {
    GetParamsRoundTrip(0, 0, 0);
    InitialInv(0, 0);
  }

  /** Dimensions 3 3 0: the first move in column 2 wins for player 1. */
  lemma ZeroRunFirstMoveWins()
    ensures Outcome([IntToString(3) + " " + IntToString(3) + " " + IntToString(0) + "\n",
                     IntToString(2) + "\n"]) == Code(1)
  {
    var lines := [IntToString(3) + " " + IntToString(3) + " " + IntToString(0) + "\n",
                  IntToString(2) + "\n"];
    GetParamsRoundTrip(3, 3, 0);
    var s := Initial(3);
    InitialInv(3, 3);
    assert Outcome(lines) == PlayFrom(3, 3, 0, s, lines, 1);
    ParseMoveRoundTrip(2);
    assert |s.grid[1]| == 0;
    NonPositiveZMoveWins(3, 3, 0, s, 2);
    var t := Engine.Move(3, 3, 0, s, 2).value;
    PlayStep(3, 3, 0, s, lines, 1, 2);
    WinIsFinal(3, 3, 0, t, lines, 2);
  }

  /** A leading space on the first line: collectz.py ignores it, where
      connectz.py reports an invalid file (8) whatever follows. */
  lemma LeadingSpaceFirstLine(line: string, moves: seq<string>)
    ensures GetParams(" " + line) == GetParams(line)
    ensures Connectz.Outcome([" " + line] + moves) == 8
  {
    assert (" " + line)[1..] == line;
    assert Words(" " + line) == Words(line);
    LeadingSpaceRejected(line);
    assert ReadLine([" " + line] + moves, 0) == " " + line;
  }

  /** `parse_game_dimensions` refuses a leading space. */
  lemma LeadingSpaceRejected(line: string)
    ensures Connectz.ParseGameDimensions(" " + line) == Err(InvalidFileError)
  {
    assert (" " + line)[0] == ' ';
  }

  /** The move line "5\x1c\n": connectz.py hands "5\x1c" to `int()`, which
      raises, so its `main` returns 8; collectz.py strips the line first,
      and `strip()` removes U+001C, so it reads 5. */
  lemma SeparatorMoveLine(w: string)
    requires w == "5\U{1c}"
    ensures Connectz.ParseMove(w + "\n") == None
    ensures ParseMove(w + "\n") == Some(5)
  {
    SeparatorConnectz(w);
    SeparatorCollectz(w);
  }

  lemma SeparatorConnectz(w: string)
    requires w == "5\U{1c}"
    ensures Connectz.ParseMove(w + "\n") == None
  {
    SeparatorNotIntSpace(w);
    RaisingWordLine(w, w + "\n");
  }

  lemma SeparatorCollectz(w: string)
    requires w == "5\U{1c}"
    ensures ParseMove(w + "\n") == Some(5)
  {
    SeparatorLineStrip(w);
    assert w[..1] == "5";
    StrippedFive(w + "\n");
  }

  /** A word on which `int()` raises, on a line of its own, is an
      unreadable move line for connectz.py. */
  lemma RaisingWordLine(w: string, line: string)
    requires |w| > 0 && w[|w| - 1] != '\n' && line == w + "\n"
    requires PyInt(w) == None
    ensures Connectz.ParseMove(line) == None
  {
    Connectz.RStripOnce(w, '\n');
  }

  /** A line that strips to "5" is the move 5 for collectz.py. */
  lemma StrippedFive(line: string)
    requires Strip(line) == "5"
    ensures ParseMove(line) == Some(5)
  {
    assert IsDecimal("5") && DigitsValue("5") == 5;
  }

  /** `strip()` of a digit, U+001C and a newline is the digit. */
  lemma SeparatorLineStrip(w: string)
    requires |w| == 2 && IsDigit(w[0]) && w[1] == '\U{1c}'
    ensures Strip(w + "\n") == w[..1]
  {
    var line := w + "\n";
    assert !IsSpace(line[0]) && IsSpace(line[2]);
    assert LStripSpace(line) == line;
    assert line[..2] == w;
    assert RStripSpace(line) == RStripSpace(w);
    SeparatorStripped(w);
  }

  /** A move line holding one word: collectz.py reads any integer, zero
      and negative ones included (an illegal column when the game is not
      won), where connectz.py accepts only positive ones and its `main`
      returns 8 for the rest. */
  lemma WordMoveLine(w: string)
    requires |w| > 0 && forall k :: 0 <= k < |w| ==> !IsSpace(w[k])
    ensures ParseMove(w + "\n") == PyInt(w)
  {
    StripWordNewline(w);
  }

  /** The same line as read by connectz.py. */
  lemma ConnectzWordMoveLine(w: string)
    requires |w| > 0 && forall k :: 0 <= k < |w| ==> !IsSpace(w[k])
    ensures Connectz.ParseMove(w + "\n") == if PyInt(w).Some? && PyInt(w).value >= 1 then PyInt(w) else None
  {
    assert !IsSpace(w[|w| - 1]);
    Connectz.RStripOnce(w, '\n');
    assert ' ' !in w;
  }
}
