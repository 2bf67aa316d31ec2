/** The game state of the Connect-Z engine as a value, and the pure
    specification of every step the engine takes. Both game classes (in
    connectz.dfy and collectz.dfy) are proved to change their fields exactly
    as these functions say; the properties of the game are proved here once.

    Columns are stacks of marks, bottom first: column c holds `grid[c]`, and
    the square at row r of column c is `grid[c][r]` when that exists. The
    engine works for any integer dimensions, as the Python class does. */
module Engine {
  import opened Base
  import opened PyList

  /** `Point(x, y)`: a column index and a row index, both 0-based. */
  datatype Point = Point(x: int, y: int)

  /** The fields of a game object: the columns, the player to move (0 or 1),
      the winner (0 while nobody has won) and the last move. */
  datatype State = State(grid: seq<seq<int>>, currentPlayer: int, won: int, lastMove: Point)

  /** The state the constructor builds: `[[] for j in range(x)]`, player 0,
      nobody has won, last move `Point(0, 0)`. */
  function Initial(x: int): (s: State)
    ensures |s.grid| == Max(x, 0)
    ensures forall c :: 0 <= c < |s.grid| ==> s.grid[c] == []
    ensures s.currentPlayer == 0 && s.won == 0 && s.lastMove == Point(0, 0)
  {
    State(seq(Max(x, 0), c => []), 0, 0, Point(0, 0))
  }

  /** A new game satisfies the invariant, whatever its height. */
  lemma InitialInv(x: int, y: int)
    ensures Inv(x, y, Initial(x))
  {
  }

  /** lastMove names the top square of a column: true after the first move. */
  predicate Moved(s: State)
  {
    0 <= s.lastMove.x < |s.grid| && s.lastMove.y == |s.grid[s.lastMove.x]| - 1
  }

  /** What every reachable state satisfies, for a game of X columns and
      height Y: X columns (none for X <= 0), none higher than Y, holding only
      the marks 1 and 2; a player of 0 or 1 to move; a winner in 0..2; and
      either the last move marks a column top, or no move has been made. */
  ghost predicate Inv(X: int, Y: int, s: State)
  {
    && |s.grid| == Max(X, 0)
    && (forall c :: 0 <= c < |s.grid| ==> |s.grid[c]| <= Max(Y, 0))
    && (forall c, k :: 0 <= c < |s.grid| && 0 <= k < |s.grid[c]| ==> s.grid[c][k] == 1 || s.grid[c][k] == 2)
    && (s.currentPlayer == 0 || s.currentPlayer == 1)
    && 0 <= s.won <= 2
    && (Moved(s) || (s.lastMove == Point(0, 0) && forall c :: 0 <= c < |s.grid| ==> s.grid[c] == []))
  }

  /** `grid[i][j]` read inside `try/except IndexError`: 0 when either index
      is out of range, Python's count-from-the-end for a negative index. */
  function Cell(grid: seq<seq<int>>, i: int, j: int): int
  {
    match PyIndex(grid, i)
    case None => 0
    case Some(column) =>
      match PyIndex(column, j)
      case None => 0
      case Some(v) => v
  }

  /** The mark at column c, row r of the board: 0 for an empty square and
      for a square off the board. */
  function Square(grid: seq<seq<int>>, c: int, r: int): int
  {
    if 0 <= c < |grid| && 0 <= r < |grid[c]| then grid[c][r] else 0
  }

  /** v is the mark of some square of the grid, or 0. */
  ghost predicate SquareOrZero(grid: seq<seq<int>>, v: int)
  {
    v == 0 || exists c, r :: 0 <= c < |grid| && 0 <= r < |grid[c]| && grid[c][r] == v
  }

  /** A read never yields anything but a mark of the grid or 0, and with
      non-negative indices it yields exactly the square named. */
  lemma CellReadsGrid(grid: seq<seq<int>>, i: int, j: int)
    ensures SquareOrZero(grid, Cell(grid, i, j))
    ensures 0 <= i && 0 <= j ==> Cell(grid, i, j) == Square(grid, i, j)
  {
    match PyIndex(grid, i)
    case None =>
    case Some(column) =>
      var c := if i >= 0 then i else |grid| + i;
      assert column == grid[c];
      match PyIndex(column, j)
      case None =>
      case Some(v) =>
        var r := if j >= 0 then j else |column| + j;
        assert grid[c][r] == v;
  }

  /** The number of values in `range(lo, hi + 1)`. */
  function Span(lo: int, hi: int): nat
  {
    if lo <= hi then hi - lo + 1 else 0
  }

  /** `get_last_column`: `grid[x][-Z:]` for the last move's column x. For a
      positive Z that is the top min(Z, height) marks; for Z = 0 it is the
      whole column; for a negative Z the column without its -Z lowest marks. */
  function LastColumn(Z: int, grid: seq<seq<int>>, p: Point): (w: seq<int>)
    requires 0 <= p.x < |grid|
    ensures var col := grid[p.x]; Z >= 1 ==> w == col[|col| - Min(Z, |col|)..]
    ensures var col := grid[p.x]; Z <= 0 ==> w == col[Min(-Z, |col|)..]
  {
    var col := grid[p.x];
    PySlice(col, -Z, |col|)
  }

  /** The bounds of `get_last_row`. */
  function RowBounds(X: int, Z: int, p: Point): (int, int)
  {
    (Max(0, p.x - Z), Min(X, p.x + Z))
  }

  /** `get_last_row`: row y read in columns l_bound..u_bound. */
  function LastRow(X: int, Z: int, grid: seq<seq<int>>, p: Point): seq<int>
  {
    var (lo, hi) := RowBounds(X, Z, p);
    seq(Span(lo, hi), k => Cell(grid, lo + k, p.y))
  }

  /** The bounds of `get_last_upward_diagonal`. */
  function UpBounds(X: int, Y: int, Z: int, p: Point): (int, int)
  {
    (-Min(Min(p.x, p.y), Z), Min(Max(X - p.x, Y - p.y), Z))
  }

  /** `get_last_upward_diagonal`: squares (x + j, y + j) for j in l_bound..u_bound. */
  function LastUp(X: int, Y: int, Z: int, grid: seq<seq<int>>, p: Point): seq<int>
  {
    var (lo, hi) := UpBounds(X, Y, Z, p);
    seq(Span(lo, hi), k => Cell(grid, p.x + lo + k, p.y + lo + k))
  }

  /** The bounds of `get_last_downward_diagonal`. */
  function DownBounds(X: int, Y: int, Z: int, p: Point): (int, int)
  {
    (-Min(Min(p.x, Y - p.y), Z), Min(Max(X - p.x, p.y), Z))
  }

  /** `get_last_downward_diagonal`: squares (x + j, y - j) for j in
      l_bound..u_bound. The row index y - j goes negative when j > y, and
      Python then reads from the top of the column (see DownwardWraps). */
  function LastDown(X: int, Y: int, Z: int, grid: seq<seq<int>>, p: Point): seq<int>
  {
    var (lo, hi) := DownBounds(X, Y, Z, p);
    seq(Span(lo, hi), k => Cell(grid, p.x + lo + k, p.y - (lo + k)))
  }

  /** `check_vector_for_win` / `check_win` looks for a slice from
      `get_sublists(vec, Z)` that passes `check_all_equal`. */
  predicate HasWin(vec: seq<int>, Z: int)
  {
    exists i :: 0 <= i < |Sublists(vec, Z)| && AllEqualNonZero(Sublists(vec, Z)[i])
  }

  /** Z equal non-zero marks at positions i..i+Z-1 of a window are found. */
  lemma WinningSlice(vec: seq<int>, Z: int, i: int)
    requires Z >= 1 && 0 <= i && i + Z <= |vec|
    requires vec[i] != 0
    requires forall k :: i <= k < i + Z ==> vec[k] == vec[i]
    ensures HasWin(vec, Z)
  {
    var subs := Sublists(vec, Z);
    assert subs[i] == vec[i..i + Z];
    AllEqualNonZeroIff(subs[i]);
  }

  /** A window shorter than Z holds no slice of length Z; this is why the
      `len(vec) >= Z` test in collectz.py changes nothing. */
  lemma ShortWindowNoWin(vec: seq<int>, Z: int)
    requires |vec| < Z
    ensures !HasWin(vec, Z)
  {
  }

  /** With Z <= 0 every window wins: `range(len(vec) - Z + 1)` reaches
      i = len(vec), whose slice `vec[i:i+Z]` is empty, and the empty slice
      passes `check_all_equal`. */
  lemma NonPositiveZWins(vec: seq<int>, Z: int)
    requires Z <= 0
    ensures HasWin(vec, Z)
  {
    var subs := Sublists(vec, Z);
    assert subs[|vec|] == PySlice(vec, |vec|, |vec| + Z) == [];
    AllEqualNonZeroIff(subs[|vec|]);
  }

  /** The four lines through the last move, in the order the engine scans them. */
  datatype Direction = Vertical | Horizontal | Upward | Downward

  /** The window `check_if_winning_move` gathers in direction d. */
  function Window(X: int, Y: int, Z: int, grid: seq<seq<int>>, p: Point, d: Direction): seq<int>
    requires 0 <= p.x < |grid|
  {
    match d
    case Vertical => LastColumn(Z, grid, p)
    case Horizontal => LastRow(X, Z, grid, p)
    case Upward => LastUp(X, Y, Z, grid, p)
    case Downward => LastDown(X, Y, Z, grid, p)
  }

  /** The square k steps from p along direction d. */
  function Step(d: Direction, p: Point, k: int): Point
  {
    match d
    case Vertical => Point(p.x, p.y + k)
    case Horizontal => Point(p.x + k, p.y)
    case Upward => Point(p.x + k, p.y + k)
    case Downward => Point(p.x + k, p.y - k)
  }

  /** The Z squares at steps s..s+Z-1 from p along d all hold the mark at p. */
  ghost predicate RunFrom(grid: seq<seq<int>>, p: Point, d: Direction, Z: int, s: int)
  {
    forall k :: s <= k < s + Z ==> Square(grid, Step(d, p, k).x, Step(d, p, k).y) == Square(grid, p.x, p.y)
  }

  /** A run of Z equal marks on the board, along d, passing through p. */
  ghost predicate RunThrough(grid: seq<seq<int>>, p: Point, d: Direction, Z: int)
  {
    Square(grid, p.x, p.y) != 0 && exists s :: -Z < s <= 0 && RunFrom(grid, p, d, Z, s)
  }

  /** Every element of every window is a mark of the grid or 0. */
  lemma WindowReadsGrid(X: int, Y: int, Z: int, grid: seq<seq<int>>, p: Point, d: Direction)
    requires 0 <= p.x < |grid|
    ensures forall k :: 0 <= k < |Window(X, Y, Z, grid, p, d)| ==> SquareOrZero(grid, Window(X, Y, Z, grid, p, d)[k])
  {
    var w := Window(X, Y, Z, grid, p, d);
    forall k | 0 <= k < |w|
      ensures SquareOrZero(grid, w[k])
    {
      match d
      case Vertical =>
        var col := grid[p.x];
        var start := if Z >= 1 then |col| - Min(Z, |col|) else Min(-Z, |col|);
        assert w[k] == grid[p.x][start + k];
      case Horizontal =>
        var (lo, hi) := RowBounds(X, Z, p);
        CellReadsGrid(grid, lo + k, p.y);
      case Upward =>
        var (lo, hi) := UpBounds(X, Y, Z, p);
        CellReadsGrid(grid, p.x + lo + k, p.y + lo + k);
      case Downward =>
        var (lo, hi) := DownBounds(X, Y, Z, p);
        CellReadsGrid(grid, p.x + lo + k, p.y - (lo + k));
    }
  }

  /** The row and the upward diagonal never index with a negative number, so
      Python's wrap-around never applies to them: each element is the square
      it names. In the downward diagonal the column index is never negative. */
  lemma WindowIndices(X: int, Y: int, Z: int, grid: seq<seq<int>>, p: Point)
    requires 0 <= p.x && 0 <= p.y
    ensures var (lo, hi) := RowBounds(X, Z, p);
      forall k :: 0 <= k < |LastRow(X, Z, grid, p)| ==>
        0 <= lo + k && LastRow(X, Z, grid, p)[k] == Square(grid, lo + k, p.y)
    ensures var (lo, hi) := UpBounds(X, Y, Z, p);
      forall k :: 0 <= k < |LastUp(X, Y, Z, grid, p)| ==>
        0 <= p.x + lo + k && 0 <= p.y + lo + k &&
        LastUp(X, Y, Z, grid, p)[k] == Square(grid, p.x + lo + k, p.y + lo + k)
    ensures DownBounds(X, Y, Z, p).0 >= -p.x
  {
    var (rlo, rhi) := RowBounds(X, Z, p);
    forall k | 0 <= k < |LastRow(X, Z, grid, p)|
      ensures LastRow(X, Z, grid, p)[k] == Square(grid, rlo + k, p.y)
    {
      CellReadsGrid(grid, rlo + k, p.y);
    }
    var (ulo, uhi) := UpBounds(X, Y, Z, p);
    forall k | 0 <= k < |LastUp(X, Y, Z, grid, p)|
      ensures LastUp(X, Y, Z, grid, p)[k] == Square(grid, p.x + ulo + k, p.y + ulo + k)
    {
      CellReadsGrid(grid, p.x + ulo + k, p.y + ulo + k);
    }
  }

  /** The downward diagonal as written reads squares that are not on the
      diagonal: from the bottom square of column 0, on a board of at least
      two columns, step 1 of the window names the off-board square (1, -1),
      and Python reads `grid[1][-1]`, the top mark of column 1, instead. */
  lemma DownwardWraps(X: int, Y: int, Z: int, grid: seq<seq<int>>)
    requires X >= 2 && Y >= 0 && Z >= 1
    requires |grid| >= 2 && |grid[1]| >= 1
    ensures var w := LastDown(X, Y, Z, grid, Point(0, 0));
      |w| >= 2 && w[1] == grid[1][|grid[1]| - 1] && Square(grid, 1, -1) == 0
  {
    var w := LastDown(X, Y, Z, grid, Point(0, 0));
    assert DownBounds(X, Y, Z, Point(0, 0)) == (0, Min(X, Z));
    assert w[1] == Cell(grid, 1, -1);
  }

  /** The wrap changes a result. On a 3 x 3 board with Z = 3, the moves
      3, 2, 3, 2, 2, 3 lead to the state below, with player 1 to move. The
      move 1 then wins for player 1, although no run of three passes through
      the square it fills: the downward window from (0, 0) reads (0, 0),
      `grid[1][-1]` and `grid[2][-2]`, which all hold the mark 1. */
  lemma WrapFalseWin()
    ensures var s := State([[], [2, 2, 1], [1, 1, 2]], 0, 0, Point(2, 2));
      && Inv(3, 3, s)
      && Move(3, 3, 3, s, 1).Ok?
      && Move(3, 3, 3, s, 1).value.grid == [[1], [2, 2, 1], [1, 1, 2]]
      && Move(3, 3, 3, s, 1).value.lastMove == Point(0, 0)
      && Move(3, 3, 3, s, 1).value.won == 1
    ensures forall d :: !RunThrough([[1], [2, 2, 1], [1, 1, 2]], Point(0, 0), d, 3)
  {
    var g := [[1], [2, 2, 1], [1, 1, 2]];
    WrapBoardInv();
    WrapAppend();
    WrapWindowWins(g);
    forall d
      ensures !RunThrough(g, Point(0, 0), d, 3)
    {
      NoRunNextToOrigin(g, d);
    }
  }

  /** The state before the last move of WrapFalseWin is a reachable one. */
  lemma WrapBoardInv()
    ensures Inv(3, 3, State([[], [2, 2, 1], [1, 1, 2]], 0, 0, Point(2, 2)))
  {
    var s := State([[], [2, 2, 1], [1, 1, 2]], 0, 0, Point(2, 2));
    forall c, k | 0 <= c < |s.grid| && 0 <= k < |s.grid[c]|
      ensures s.grid[c][k] == 1 || s.grid[c][k] == 2
    {
      assert c == 1 || c == 2;
    }
  }

  /** Player 1 drops a mark into the empty first column. */
  lemma WrapAppend()
    requires Inv(3, 3, State([[], [2, 2, 1], [1, 1, 2]], 0, 0, Point(2, 2)))
    ensures Append(3, 3, State([[], [2, 2, 1], [1, 1, 2]], 0, 0, Point(2, 2)), 1)
      == Ok(State([[1], [2, 2, 1], [1, 1, 2]], 0, 0, Point(0, 0)))
  {
    var s := State([[], [2, 2, 1], [1, 1, 2]], 0, 0, Point(2, 2));
    assert [] + [s.currentPlayer + 1] == [1];
    assert s.grid[0 := [1]] == [[1], [2, 2, 1], [1, 1, 2]];
  }

  /** The downward window from (0, 0) reads three marks 1, two of them wrapped. */
  lemma WrapWindowWins(g: seq<seq<int>>)
    requires g == [[1], [2, 2, 1], [1, 1, 2]]
    ensures HasWin(LastDown(3, 3, 3, g, Point(0, 0)), 3)
  {
    WrappedCells(g);
    OriginDownwardWins(g);
  }

  /** Three marks 1 read at (0, 0), (1, -1) and (2, -2) make the downward
      window from (0, 0) win on a 3 x 3 board with Z = 3. */
  lemma OriginDownwardWins(g: seq<seq<int>>)
    requires Cell(g, 0, 0) == 1 && Cell(g, 1, -1) == 1 && Cell(g, 2, -2) == 1
    ensures HasWin(LastDown(3, 3, 3, g, Point(0, 0)), 3)
  {
    var w := LastDown(3, 3, 3, g, Point(0, 0));
    OriginDownward(3, 3, 3, g);
    assert w[0] == 1 && w[1] == 1 && w[2] == 1;
    WinningSlice(w, 3, 0);
  }

  /** The squares (1, -1) and (2, -2) are read as `grid[1][-1]` and `grid[2][-2]`. */
  lemma WrappedCells(g: seq<seq<int>>)
    requires g == [[1], [2, 2, 1], [1, 1, 2]]
    ensures Cell(g, 0, 0) == 1 && Cell(g, 1, -1) == 1 && Cell(g, 2, -2) == 1
  {
    assert PyIndex(g, 1) == Some([2, 2, 1]);
    assert PyIndex(g, 2) == Some([1, 1, 2]);
    assert PyIndex([2, 2, 1], -1) == Some(1);
    assert PyIndex([1, 1, 2], -2) == Some(1);
  }

  /** From the bottom square of column 0 the downward window reads the
      squares (j, -j) for j in 0..min(X, Z). */
  lemma OriginDownward(X: int, Y: int, Z: int, g: seq<seq<int>>)
    requires X >= 0 && Y >= 0 && Z >= 1
    ensures var w := LastDown(X, Y, Z, g, Point(0, 0));
      |w| == Min(X, Z) + 1 && forall k :: 0 <= k < |w| ==> w[k] == Cell(g, k, -k)
  {
    assert DownBounds(X, Y, Z, Point(0, 0)) == (0, Min(X, Z));
  }

  /** On that board both neighbours of (0, 0) along any line differ from its
      mark 1, so no run of three passes through it. */
  lemma NoRunNextToOrigin(g: seq<seq<int>>, d: Direction)
    requires g == [[1], [2, 2, 1], [1, 1, 2]]
    ensures !RunThrough(g, Point(0, 0), d, 3)
  {
    var p := Point(0, 0);
    assert Square(g, Step(d, p, 1).x, Step(d, p, 1).y) != 1;
    assert Square(g, Step(d, p, -1).x, Step(d, p, -1).y) != 1;
    forall t | -3 < t <= 0
      ensures !RunFrom(g, p, d, 3, t)
    {
      var k := if t == 0 then 1 else -1;
      assert t <= k < t + 3;
    }
  }

  /** The central property of the window bounds: a run of Z equal marks
      through the last move, along any of the four lines, lies inside the
      window gathered for that line, so the window wins. */
  lemma RunIsDetected(X: int, Y: int, Z: int, s: State, d: Direction)
    requires Inv(X, Y, s) && Moved(s) && Z >= 1
    requires RunThrough(s.grid, s.lastMove, d, Z)
    ensures HasWin(Window(X, Y, Z, s.grid, s.lastMove, d), Z)
  {
    var t :| -Z < t <= 0 && RunFrom(s.grid, s.lastMove, d, Z, t);
    match d
    case Vertical => VerticalRunDetected(X, Y, Z, s, t);
    case Horizontal => HorizontalRunDetected(X, Y, Z, s, t);
    case Upward => UpwardRunDetected(X, Y, Z, s, t);
    case Downward => DownwardRunDetected(X, Y, Z, s, t);
  }

  /** The hypotheses of RunIsDetected, with the run starting t steps from the last move. */
  ghost predicate RunAt(X: int, Y: int, Z: int, s: State, d: Direction, t: int)
  {
    && Inv(X, Y, s) && Moved(s) && Z >= 1
    && Square(s.grid, s.lastMove.x, s.lastMove.y) != 0
    && -Z < t <= 0 && RunFrom(s.grid, s.lastMove, d, Z, t)
  }

  lemma VerticalRunDetected(X: int, Y: int, Z: int, s: State, t: int)
    requires RunAt(X, Y, Z, s, Vertical, t)
    ensures HasWin(LastColumn(Z, s.grid, s.lastMove), Z)
  {
    var grid, p, d := s.grid, s.lastMove, Vertical;
    var mark := Square(grid, p.x, p.y);
    assert Square(grid, Step(d, p, t).x, Step(d, p, t).y) == mark;
    assert Square(grid, Step(d, p, t + Z - 1).x, Step(d, p, t + Z - 1).y) == mark;
    assert t + Z - 1 <= 0;
    assert p.y + t >= 0;
    var w := LastColumn(Z, grid, p);
    forall k | 0 <= k < Z
      ensures w[k] == mark
    {
      assert Square(grid, Step(d, p, t + k).x, Step(d, p, t + k).y) == mark;
    }
    WinningSlice(w, Z, 0);
  }

  lemma HorizontalRunDetected(X: int, Y: int, Z: int, s: State, t: int)
    requires RunAt(X, Y, Z, s, Horizontal, t)
    ensures HasWin(LastRow(X, Z, s.grid, s.lastMove), Z)
  {
    var grid, p, d := s.grid, s.lastMove, Horizontal;
    var mark := Square(grid, p.x, p.y);
    var (lo, hi) := RowBounds(X, Z, p);
    var w := LastRow(X, Z, grid, p);
    assert Square(grid, Step(d, p, t).x, Step(d, p, t).y) == mark;
    assert Square(grid, Step(d, p, t + Z - 1).x, Step(d, p, t + Z - 1).y) == mark;
    assert 0 <= p.x + t;
    assert p.x + t + Z - 1 < X;
    WindowIndices(X, Y, Z, grid, p);
    forall i | p.x + t - lo <= i < p.x + t - lo + Z
      ensures w[i] == mark
    {
      var k := i - (p.x + t - lo);
      assert Square(grid, Step(d, p, t + k).x, Step(d, p, t + k).y) == mark;
    }
    WinningSlice(w, Z, p.x + t - lo);
  }

  lemma UpwardRunDetected(X: int, Y: int, Z: int, s: State, t: int)
    requires RunAt(X, Y, Z, s, Upward, t)
    ensures HasWin(LastUp(X, Y, Z, s.grid, s.lastMove), Z)
  {
    var grid, p, d := s.grid, s.lastMove, Upward;
    var mark := Square(grid, p.x, p.y);
    var (lo, hi) := UpBounds(X, Y, Z, p);
    var w := LastUp(X, Y, Z, grid, p);
    assert Square(grid, Step(d, p, t).x, Step(d, p, t).y) == mark;
    assert Square(grid, Step(d, p, t + Z - 1).x, Step(d, p, t + Z - 1).y) == mark;
    assert 0 <= p.x + t && 0 <= p.y + t;
    assert p.x + t + Z - 1 < X;
    WindowIndices(X, Y, Z, grid, p);
    forall i | t - lo <= i < t - lo + Z
      ensures w[i] == mark
    {
      var k := i - (t - lo);
      assert Square(grid, Step(d, p, t + k).x, Step(d, p, t + k).y) == mark;
    }
    WinningSlice(w, Z, t - lo);
  }

  lemma DownwardRunDetected(X: int, Y: int, Z: int, s: State, t: int)
    requires RunAt(X, Y, Z, s, Downward, t)
    ensures HasWin(LastDown(X, Y, Z, s.grid, s.lastMove), Z)
  {
    var grid, p, d := s.grid, s.lastMove, Downward;
    var mark := Square(grid, p.x, p.y);
    var (lo, hi) := DownBounds(X, Y, Z, p);
    var w := LastDown(X, Y, Z, grid, p);
    assert Square(grid, Step(d, p, t).x, Step(d, p, t).y) == mark;
    assert Square(grid, Step(d, p, t + Z - 1).x, Step(d, p, t + Z - 1).y) == mark;
    assert 0 <= p.x + t && p.y - t < |grid[p.x + t]|;
    assert p.x + t + Z - 1 < X && 0 <= p.y - (t + Z - 1);
    forall i | t - lo <= i < t - lo + Z
      ensures w[i] == mark
    {
      var k := i - (t - lo);
      assert Square(grid, Step(d, p, t + k).x, Step(d, p, t + k).y) == mark;
      CellReadsGrid(grid, p.x + t + k, p.y - (t + k));
    }
    WinningSlice(w, Z, t - lo);
  }

  /** `check_vector_for_win(vec)`: on a winning slice the winner becomes the
      player to move (1-based); otherwise nothing changes. */
  function CheckVector(Z: int, s: State, vec: seq<int>): State
  {
    if HasWin(vec, Z) then s.(won := s.currentPlayer + 1) else s
  }

  /** Some window through the last move wins. */
  predicate AnyWindowWins(X: int, Y: int, Z: int, s: State)
    requires 0 <= s.lastMove.x < |s.grid|
  {
    || HasWin(LastColumn(Z, s.grid, s.lastMove), Z)
    || HasWin(LastRow(X, Z, s.grid, s.lastMove), Z)
    || HasWin(LastUp(X, Y, Z, s.grid, s.lastMove), Z)
    || HasWin(LastDown(X, Y, Z, s.grid, s.lastMove), Z)
  }

  /** `check_if_winning_move`: checks the column, the row and the two
      diagonals in turn. Only `won` can change, only to the player to move,
      and only when one of the four windows wins; it is never cleared. */
  function CheckIfWinning(X: int, Y: int, Z: int, s: State): (t: State)
    requires 0 <= s.lastMove.x < |s.grid|
    ensures t.grid == s.grid && t.lastMove == s.lastMove && t.currentPlayer == s.currentPlayer
    ensures t.won == if AnyWindowWins(X, Y, Z, s) then s.currentPlayer + 1 else s.won
  {
    var s1 := CheckVector(Z, s, LastColumn(Z, s.grid, s.lastMove));
    var s2 := CheckVector(Z, s1, LastRow(X, Z, s1.grid, s1.lastMove));
    var s3 := CheckVector(Z, s2, LastUp(X, Y, Z, s2.grid, s2.lastMove));
    CheckVector(Z, s3, LastDown(X, Y, Z, s3.grid, s3.lastMove))
  }

  /** `append_move_to_grid(column)`: column is 1-based. IllegalColumnError
      unless 1 <= column <= X, IllegalRowError when that column already holds
      Y marks; otherwise exactly that column grows by the mark of the player
      to move, and lastMove names the new top. */
  function Append(X: int, Y: int, s: State, column: int): (r: Result<State>)
    requires Inv(X, Y, s)
    ensures !(1 <= column <= X) ==> r == Err(IllegalColumnError)
    ensures 1 <= column <= X && |s.grid[column - 1]| >= Y ==> r == Err(IllegalRowError)
    ensures 1 <= column <= X && |s.grid[column - 1]| < Y ==> r.Ok?
    ensures r.Ok? ==> var t := r.value; var c := column - 1;
      && |t.grid| == |s.grid|
      && t.grid[c] == s.grid[c] + [s.currentPlayer + 1]
      && (forall i :: 0 <= i < |s.grid| && i != c ==> t.grid[i] == s.grid[i])
      && t.lastMove == Point(c, |t.grid[c]| - 1)
      && t.currentPlayer == s.currentPlayer && t.won == s.won
      && Inv(X, Y, t) && Moved(t)
  {
    var c := column - 1;
    if !(0 <= c < X) then Err(IllegalColumnError)
    else if |s.grid[c]| < Y then
      var col := s.grid[c] + [s.currentPlayer + 1];
      Ok(s.(grid := s.grid[c := col], lastMove := Point(c, |col| - 1)))
    else Err(IllegalRowError)
  }

  /** `next_player`. */
  function NextPlayer(s: State): State
  {
    s.(currentPlayer := (s.currentPlayer + 1) % 2)
  }

  /** `move(column)`: append, then the win check, then the player toggle. An
      illegal move raises before the check and the toggle and changes
      nothing; a legal one toggles the player exactly once, and leaves the
      winner as it was or sets it to the player who moved. */
  function Move(X: int, Y: int, Z: int, s: State, column: int): (r: Result<State>)
    requires Inv(X, Y, s)
    ensures Append(X, Y, s, column).Err? ==> r == Err(Append(X, Y, s, column).error)
    ensures r.Ok? <==> Append(X, Y, s, column).Ok?
    ensures r.Ok? ==> var a := Append(X, Y, s, column).value;
      && r.value.grid == a.grid && r.value.lastMove == a.lastMove
      && r.value.won == (if AnyWindowWins(X, Y, Z, a) then s.currentPlayer + 1 else s.won)
    ensures r.Ok? ==> Inv(X, Y, r.value) && Moved(r.value)
    ensures r.Ok? ==> r.value.currentPlayer == 1 - s.currentPlayer
    ensures r.Ok? ==> s.won != 0 ==> r.value.won != 0
  {
    match Append(X, Y, s, column)
    case Err(e) => Err(e)
    case Ok(a) =>
      var t := NextPlayer(CheckIfWinning(X, Y, Z, a));
      InvOnBoard(X, Y, a, t);
      Ok(t)
  }

  /** The invariant depends on the player and the winner only through their ranges. */
  lemma InvOnBoard(X: int, Y: int, s: State, t: State)
    requires Inv(X, Y, s)
    requires t.grid == s.grid && t.lastMove == s.lastMove
    requires (t.currentPlayer == 0 || t.currentPlayer == 1) && 0 <= t.won <= 2
    ensures Inv(X, Y, t) && (Moved(s) ==> Moved(t))
  {
  }

  /** A legal move that completes a run of Z equal marks through the square
      it fills, along any of the four lines, makes the mover the winner. */
  lemma MoveDetectsRun(X: int, Y: int, Z: int, s: State, column: int, d: Direction)
    requires Inv(X, Y, s) && Z >= 1
    requires Append(X, Y, s, column).Ok?
    requires var a := Append(X, Y, s, column).value; RunThrough(a.grid, a.lastMove, d, Z)
    ensures Move(X, Y, Z, s, column).Ok?
    ensures Move(X, Y, Z, s, column).value.won == s.currentPlayer + 1
  {
    var a := Append(X, Y, s, column).value;
    RunIsDetected(X, Y, Z, a, d);
  }

  /** `check_complete_game`: the column lengths add up to X * Y. */
  predicate Complete(X: int, Y: int, s: State)
  {
    SumLengths(s.grid) == X * Y
  }

  /** The board is complete exactly when every column is full. */
  lemma CompleteIffFull(X: int, Y: int, s: State)
    requires Inv(X, Y, s) && X >= 0 && Y >= 0
    ensures Complete(X, Y, s) <==> forall c :: 0 <= c < |s.grid| ==> |s.grid[c]| == Y
  {
    SumLengthsFull(s.grid, Y);
  }

  /** The final block of `main` in both programs: the winner if there is one,
      else 0 (a draw) for a complete board, else 3 (incomplete). */
  function Classify(X: int, Y: int, s: State): int
  {
    if s.won != 0 then s.won else if Complete(X, Y, s) then 0 else 3
  }

  /** The end of the file gives the winner, else 0 exactly when every column
      is full, else 3 exactly when some column still has room. */
  lemma ClassifyMeaning(X: int, Y: int, s: State)
    requires Inv(X, Y, s) && X >= 0 && Y >= 0
    ensures s.won != 0 ==> Classify(X, Y, s) == s.won
    ensures Classify(X, Y, s) == 0 <==> s.won == 0 && forall c :: 0 <= c < |s.grid| ==> |s.grid[c]| == Y
    ensures Classify(X, Y, s) == 3 <==> s.won == 0 && exists c :: 0 <= c < |s.grid| && |s.grid[c]| < Y
  {
    CompleteIffFull(X, Y, s);
  }
}
