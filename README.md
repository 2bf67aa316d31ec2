# Connect-Z in Dafny

A model of the Connect-Z game engine in its two Python versions.
`connectz.py` is the current program and `collectz.py` is its earlier draft.

Each program reads a text file. The first line gives the board's width X, its
height Y and the run length Z. Every later line names a column (counted from 1)
where the player to move drops a mark. The marks alternate between player 1 and
player 2. A player wins with Z equal marks in a row, a column or either
diagonal. `main` returns one code for the whole file:

| code | meaning |
|---|---|
| 0 | draw (a full board, no winner) |
| 1, 2 | that player won |
| 3 | incomplete |
| 4 | a move after the game was won |
| 5 | a full column |
| 6 | a column outside the board |
| 7 | a game that cannot be won |
| 8 | an invalid file |

`collectz.py` returns the string 'invalid line' where `connectz.py` returns 8
for an unreadable move line.

The model has these modules:

- `Base` (base.dfy): `Option`, `Result` and `Status` (a method that raised or
  did not), plus the four exception kinds as one `Error` type.
- `PyList` (pylist.dfy): Python list reads as the engine uses them.
  - A negative index wraps; an index past the end is an `IndexError`.
  - Slices have clamped bounds.
  - `get_sublists` and `check_all_equal` on a `set` are modelled here.
- `PyText` (pytext.dfy): the string functions the parsers call, namely
  `rstrip`, `strip`, `split(' ')`, `split()` and `int()`. `NatToString` and
  `IntToString` write numbers back, so the parsers get round-trip partners.
- `Engine` (engine.dfy): the game state as a value, shared by both classes.
  - The four windows that each class gathers after a move.
  - The slice search for a win.
  - A move as a state transition, and the completeness test.
  - The main theorem: any run of Z equal marks through the last move lies
    inside one of the gathered windows, so a move that completes such a run
    wins (`Engine.MoveDetectsRun`).
- `Connectz` (connectz.dfy): the validators and parsers of `connectz.py`; the
  class `Connectz`; the function `Outcome` giving `main`'s result for a file's
  lines; and the method `RunGame` that runs `main`'s loop.
  - The class keeps the Python object's fields and updates them in place.
  - Its window getters and its slice search are loops.
  - Every method that changes or computes state is proved against the
    corresponding `Engine` function; `IsGameWon`, `GetWinner` and `Winner`
    are getters whose contracts name the field they return.
- `ConnectzGames` (connectz.dfy): lemmas about `main`'s codes and a few
  concrete games.
- `Collectz` and `CollectzGames` (collectz.dfy): the same for `collectz.py`.
  They also prove that the two programs differ on a leading space in the first
  line and on zero or negative columns.

The window getters read each square inside `try/except IndexError`, and the
diagonal getters say they are "Bound by grid size and Z" (connectz.py:122-124,
140-142). That reads as if every square outside the board gives 0. It does not
for the downward diagonal: its row index `y - j` becomes negative when j > y,
Python then counts from the top of the column: for `y - j == -k` the read
returns the k-th mark from the top of that column, or 0 when the column holds
fewer than k marks, instead of raising IndexError. The model follows the code.
`Engine.DownwardWraps` exhibits the wrap, and `Engine.WrapFalseWin` shows that it
can credit a win that no run of Z marks explains. No theorem here claims that a
reported win is a real run.

## Model

| member | source | states |
|---|---|---|
| PyList.PySlice | connectz.py:106 | `s[i:j]` is `s[i..j]` for in-range bounds; its length is `max(0, j' - i')` for the clamped bounds. |
| PyList.SliceBound | connectz.py:106 | A slice bound resolves into `0..len`, and an in-range bound is kept. |
| PyList.Sublists | connectz.py:186-189 | `get_sublists(vec, Z)` yields `max(0, len(vec) - Z + 1)` slices; for `Z >= 0` slice i is exactly `vec[i..i+Z]`. |
| PyList.AllEqualNonZeroIff | connectz.py:191-195 | `check_all_equal_is_winner` is `PyList.AllEqualNonZero`, a `set` of at most one element without 0. It holds iff all elements are pairwise equal and none is 0. |
| PyList.SumLengthsFull | connectz.py:228-231 | `sum(len(c) for c in grid)` is `PyList.SumLengths`. The column lengths add up to at most X·Y; they add up to exactly X·Y iff every column has Y marks. |
| PyText.RStrip | connectz.py:42 | `line.rstrip('\n')` is a prefix of the line that does not end in '\n'; only '\n' characters were removed. |
| PyText.LStripSpace | collectz.py:170 | Whitespace here is `PyText.IsSpace`, Python's `str.isspace()` set, U+001C to U+001F included; `strip()` and `split()` use it. `lstrip()` removes exactly a whitespace prefix, leaving empty text or text starting with non-whitespace. |
| PyText.RStripSpace | collectz.py:170 | `rstrip()` removes exactly a whitespace suffix. |
| PyText.SplitOn | connectz.py:47 | `split(' ')` gives at least one piece, and no piece contains a space. |
| PyText.JoinSplitOn | connectz.py:47 | Joining the pieces of `split(' ')` with spaces gives back the line. |
| PyText.SplitOnJoin | connectz.py:47 | `split(' ')` of space-free pieces joined by spaces gives back those pieces, empty ones included. |
| PyText.Token | collectz.py:26 | One word of `split()` is the longest whitespace-free prefix. |
| PyText.Words | collectz.py:26 | Every piece of `split()` is non-empty and free of whitespace. That the pieces are the input's maximal whitespace-free runs, in order, is stated by `PyText.Token` and, for words joined by single spaces, by `PyText.WordsJoin`. |
| PyText.WordsJoin | collectz.py:26 | `split()` of non-empty words joined by single spaces, followed by any whitespace, gives back the words. |
| PyText.PyInts | connectz.py:46-50 | `list(map(int, tokens))` succeeds iff every token is an integer, and then element i is `int(tokens[i])`. Here `int(s)` is `PyText.PyInt`: `PyText.ParseSigned` (an optional sign, then ASCII digits) of `PyText.IntStrip(s)`. That strips only `PyText.IsIntSpace`, the `isspace` set without U+001C to U+001F, which `int()` does not skip. |
| PyText.NatToString | connectz.py:73 | The decimal writing of a natural number is a non-empty run of digits. |
| PyText.DigitsValueOfNatToString | connectz.py:73 | Reading the digits of n back gives n. |
| PyText.PyIntOfIntToString | connectz.py:73 | `int(str(i)) == i` for every integer, negative ones included. |
| PyText.StripStripped | collectz.py:170 | `strip()` is `PyText.Strip`, `rstrip()` after `lstrip()`. Stripping twice is stripping once. |
| PyText.IntStripOfStrip | collectz.py:170 | After `strip()` nothing is left for `int()` to strip, because `int()` skips a subset of `isspace`. |
| PyText.SeparatorNotIntSpace | connectz.py:73 | `int()` raises on a digit followed by U+001C, such as "5\x1c". |
| PyText.SeparatorStripped | collectz.py:170 | `strip()` removes that U+001C. |
| PyText.ReadLine | connectz.py:237 | `readline()` gives line i while lines remain and "" after the last. |
| Engine.Initial | connectz.py:88-102 | `__init__`: max(X, 0) empty columns, player 0 to move, no winner, last move (0, 0). |
| Engine.InitialInv | connectz.py:88-102 | The initial state satisfies the board invariant for every height. |
| Engine.CellReadsGrid | connectz.py:115-118 | A read inside `try/except IndexError` is `Engine.Cell`: two `PyList.PyIndex` lookups, where a negative index counts from the end and IndexError reads 0. It gives the square's mark or 0. With non-negative indices it is the true square, and 0 past the top or the last column. |
| Engine.LastColumn | connectz.py:104-106 | `grid[x][-Z:]` is the top min(Z, height) marks for Z >= 1, the whole column for Z = 0, and the column minus its -Z lowest marks for Z < 0. |
| Engine.WindowReadsGrid | connectz.py:104-156 | Every element of each of the four windows is a mark of the board or 0. |
| Engine.WindowIndices | connectz.py:110-137 | After a move, the row and upward-diagonal windows never use a negative index, so they read the true squares; the downward diagonal's column index is never negative. |
| Engine.DownwardWraps | connectz.py:144-155 | The downward diagonal can wrap. Right after a move into the bottom square of the first column, on a board whose second column holds a mark, its second element is the top mark of the second column. The true square beyond the board is empty. |
| Engine.WrapFalseWin | connectz.py:139-156 | The wrap changes a result. On a 3 x 3 board with Z = 3, after the moves 3, 2, 3, 2, 2, 3, the move 1 wins for player 1 through the downward window. Yet no run of three passes through the square it fills, in any direction. |
| Engine.WinningSlice | connectz.py:197-202 | A slice of Z equal non-zero marks found in a window makes the window a win. |
| Engine.ShortWindowNoWin | collectz.py:136-141 | A window shorter than Z cannot win, so `check_win`'s length guard changes nothing. |
| Engine.NonPositiveZWins | collectz.py:39-45 | With Z <= 0, every window wins: the empty slice passes `check_all_equal`. |
| Engine.RunIsDetected | connectz.py:104-156 | With Z >= 1, a run of Z equal marks through the last move lies inside the window of its direction, which therefore wins. |
| Engine.VerticalRunDetected | connectz.py:104-106 | A vertical run through the last move lies in the column tail. |
| Engine.HorizontalRunDetected | connectz.py:108-119 | A horizontal run through the last move lies in the row window. |
| Engine.UpwardRunDetected | connectz.py:121-137 | An upward-diagonal run through the last move lies in the upward window. |
| Engine.DownwardRunDetected | connectz.py:139-156 | A downward-diagonal run through the last move lies in the downward window. |
| Engine.CheckIfWinning | connectz.py:204-215 | The four `check_vector_for_win` calls, each `Engine.CheckVector`, in the source's order. The win check changes only `won`: it becomes current_player + 1 if `Engine.AnyWindowWins` holds (the or of `HasWin` over the row, column and two diagonal windows), and keeps its value otherwise. |
| Engine.Append | connectz.py:158-172 | IllegalColumnError outside 1..X, IllegalRowError on a full column. Otherwise exactly that column grows by the mover's mark, the others are unchanged, the last move is its new top, and every column stays within Y. |
| Engine.Move | connectz.py:217-226 | A failing append passes its error through. A successful move keeps the append's board, sets `won` from the windows, never clears a win, toggles the player exactly once and keeps the invariant. |
| Engine.MoveDetectsRun | connectz.py:204-226 | A legal move that completes a run of Z equal marks makes the mover the winner. |
| Engine.CompleteIffFull | connectz.py:228-231 | `check_complete_game` is `Engine.Complete` (`PyList.SumLengths` of the grid equals X·Y). It holds iff every column is full. |
| Engine.ClassifyMeaning | connectz.py:276-284 | The final block of `main` is `Engine.Classify`. At the end of the input it gives the winner if there is one, 0 iff no winner and a full board, and 3 iff no winner and some column with room. |
| Connectz.CheckValidGameParams | connectz.py:26-28 | The game is winnable iff z <= x or z <= y. |
| Connectz.CheckAllPositiveInt | connectz.py:31-35 | True iff no value is below 1. |
| Connectz.ParseGameDimensions | connectz.py:38-62 | InvalidFileError iff the line, stripped of its newline, has a leading or trailing space (`Connectz.PaddedWithSpace`, connectz.py:43-44), or its `Connectz.Fields` (`list(map(int, line.rstrip('\n').split(' ')))`, connectz.py:42-50) are not exactly three integers, all positive; `Connectz.WellFormedDimensions` is that condition's negation. IllegalGameError iff those checks pass and z > max(x, y). Otherwise the three values of the line, positive and winnable. |
| Connectz.CheckDimensions | connectz.py:52-62 | The count, positivity and winnability checks in the source's order, with their error kinds. |
| Connectz.ParseGameDimensionsRoundTrip | connectz.py:38-62 | "x y z\n" written in decimal is read back as [x, y, z] when winnable, and as IllegalGameError otherwise. |
| Connectz.ParseMove | connectz.py:65-76 | Succeeds iff the line, without its newlines, has no space and is an integer ≥ 1; the result is that integer. |
| Connectz.ParseMoveRoundTrip | connectz.py:65-76 | A positive column written in decimal on its own line is read back. |
| Connectz.Connectz.constructor | connectz.py:88-102 | The new object's state is the initial state, which satisfies the invariant. |
| Connectz.Connectz.GetLastColumn | connectz.py:104-106 | Returns the engine's column window, the top min(Z, height) marks for Z >= 1. |
| Connectz.Connectz.GetLastRow | connectz.py:108-119 | The loop builds exactly `Engine.LastRow`: `Engine.Cell` at row y for the columns from `Engine.RowBounds`, which are `max(0, x - Z)` to `min(X, x + Z)` (lines 110-111). |
| Connectz.Connectz.GetLastUpwardDiagonal | connectz.py:121-137 | The loop builds exactly `Engine.LastUp`: `Engine.Cell` at (x + j, y + j) for j between the `Engine.UpBounds` `-min(min(x, y), Z)` and `min(max(X - x, Y - y), Z)` (lines 126-128). |
| Connectz.Connectz.GetLastDownwardDiagonal | connectz.py:139-156 | The loop builds exactly `Engine.LastDown`: `Engine.Cell` at (x + j, y - j) for j between the `Engine.DownBounds` `-min(min(x, Y - y), Z)` and `min(max(X - x, y), Z)` (lines 144-147), wrap included. |
| Connectz.Connectz.AppendMoveToGrid | connectz.py:158-172 | The new fields are `Engine.Append`'s state. On an error the method reports it and its fields are unchanged. |
| Connectz.Connectz.NextPlayer | connectz.py:174-176 | The new state is `Engine.NextPlayer`'s: the player becomes (player + 1) mod 2. |
| Connectz.Connectz.IsGameWon | connectz.py:178-180 | True iff `won` is non-zero. |
| Connectz.Connectz.GetWinner | connectz.py:182-184 | Returns `won`, which is 0, 1 or 2. |
| Connectz.Connectz.CheckVectorForWin | connectz.py:197-202 | The new state is `Engine.CheckVector`'s: `Engine.HasWin` asks whether some slice of `get_sublists` passes `check_all_equal_is_winner`. `won` becomes current_player + 1 iff some slice of the window wins, and keeps its value otherwise. |
| Connectz.Connectz.CheckIfWinningMove | connectz.py:204-215 | The new state is `Engine.CheckIfWinning` of the old. |
| Connectz.Connectz.Move | connectz.py:217-226 | The new state is `Engine.Move`'s, and unchanged on an error. The invariant is kept. |
| Connectz.Connectz.CheckCompleteGame | connectz.py:228-231 | Returns `Engine.Complete`: the column lengths add up to X·Y, that is, for non-negative sizes, every column is full. |
| Connectz.RunGame | connectz.py:234-284 | The loop returns `Connectz.Outcome(lines)`: 8 or 7 for the first line, then `Connectz.PlayFrom`, which checks each line in the source's order (8 for an unreadable line, 4 for a move after a win, 6 or 5 from the move), then `Engine.Classify` at the end of the input. |
| ConnectzGames.PlayFromCodes | connectz.py:252-284 | Once the first line is accepted, the result is one of 0 to 6 or 8, never 7. |
| ConnectzGames.OutcomeCodes | connectz.py:237-284 | `main` returns a code from 0 to 8. It returns 7 exactly when the first line describes an unwinnable game, and 8 whenever the first line is invalid. |
| ConnectzGames.WinIsFinal | connectz.py:252-261 | After a win the next line decides: the end of the input gives the winner, an unreadable line 8, any move 4. |
| ConnectzGames.SingleMarkWins | connectz.py:204-226 | With Z = 1, every legal move wins. |
| ConnectzGames.PlayStep | connectz.py:252-270 | A legal move line takes the loop to the next line with the moved state. |
| ConnectzGames.EmptyFile | connectz.py:237-242 | An empty file is an invalid file (8). |
| ConnectzGames.UnwinnableGame | connectz.py:239-244 | "1 1 2" is an illegal game (7). |
| ConnectzGames.NoMovesIncomplete | connectz.py:276-284 | "7 6 4" with no moves is incomplete (3). |
| ConnectzGames.ColumnOutsideBoard | connectz.py:263-266 | A move in column 8 of a 7-column board is an illegal column (6). |
| ConnectzGames.MoveAfterWin | connectz.py:259-261 | On a 2 by 2 board with Z = 1, the second move comes after a win (4). |
| ConnectzGames.FirstMoveWins | connectz.py:252-270 | In that game the first move wins and the second line returns 4. |
| ConnectzGames.SeparatorAfterDimensions | connectz.py:38-62 | For the first line "7 6 4\x1c\n", `int("4\x1c")` raises, so `parse_game_dimensions` raises InvalidFileError and `main` returns 8. |
| Collectz.ValidGameParams | collectz.py:20-21 | The game is winnable iff z <= x or z <= y. |
| Collectz.GetParams | collectz.py:24-36 | InvalidFileError iff the whitespace-separated fields are not exactly three integers. IllegalGameError iff they are and z > max(x, y). Otherwise the three values, with no positivity check. |
| Collectz.GetParamsRoundTrip | collectz.py:24-36 | Any three integers, zero and negative ones included, written "x y z\n" are read back or rejected as unwinnable. |
| Collectz.ParseMove | collectz.py:169-170 | `int(line.strip())` is the line, stripped of all `isspace` whitespace, read as an optional sign and digits; zero and negative values parse. |
| Collectz.ParseMoveRoundTrip | collectz.py:169-170 | Any integer written on its own line is read back. |
| Collectz.CollectZ.constructor | collectz.py:53-66 | The new object's state is the initial state, which satisfies the invariant. |
| Collectz.CollectZ.GetLastColumn | collectz.py:68-69 | `grid[x][-Z:]`, including what it means for Z <= 0. |
| Collectz.CollectZ.GetLastRow | collectz.py:71-81 | The loop builds exactly `Engine.LastRow`, with the `Engine.RowBounds` of lines 72-73. |
| Collectz.CollectZ.GetLastUpwardDiagonal | collectz.py:83-95 | The loop builds exactly `Engine.LastUp`, with the `Engine.UpBounds` of lines 84-86. |
| Collectz.CollectZ.GetLastDownwardDiagonal | collectz.py:97-110 | The loop builds exactly `Engine.LastDown`, with the `Engine.DownBounds` of lines 98-101, wrap included. |
| Collectz.CollectZ.AppendMoveToGrid | collectz.py:112-125 | The new fields are `Engine.Append`'s state. On an error, including a column ≤ 0, the method reports it and its fields are unchanged. |
| Collectz.CollectZ.NextPlayer | collectz.py:127-128 | The new state is `Engine.NextPlayer`'s: the player becomes (player + 1) mod 2. |
| Collectz.CollectZ.IsGameWon | collectz.py:130-131 | True iff `_won` is non-zero. |
| Collectz.CollectZ.Winner | collectz.py:133-134 | Returns `_won`, which is 0, 1 or 2. |
| Collectz.CollectZ.CheckWin | collectz.py:136-141 | The new state is `Engine.CheckVector`'s, decided by `Engine.HasWin`. With or without the length guard, `_won` becomes current_player + 1 iff some slice wins, and keeps its value otherwise. |
| Collectz.CollectZ.CheckIfWinningMove | collectz.py:143-154 | The new state is `Engine.CheckIfWinning` of the old. |
| Collectz.CollectZ.Move | collectz.py:156-162 | The new state is `Engine.Move`'s, and unchanged on an error. The invariant is kept. |
| Collectz.CollectZ.CheckCompleteGame | collectz.py:164-166 | Returns `Engine.Complete`: the column lengths add up to X·Y, that is, for non-negative sizes, every column is full. |
| Collectz.RunGame | collectz.py:173-221 | The loop returns `Collectz.Outcome(lines)`: 8 or 7 for the first line, then `Collectz.PlayFrom`, which checks each line in the source's order ('invalid line' for an unreadable line, 4 for a non-zero move after a win, 6 or 5 from the move), then `Engine.Classify`. |
| CollectzGames.PlayFromCodes | collectz.py:190-221 | Once the first line is accepted, the result is 'invalid line' or a code from 0 to 6. |
| CollectzGames.OutcomeCodes | collectz.py:177-221 | `main` returns 'invalid line' or a code from 0 to 8. It returns 7 exactly when the first line is unwinnable, and 8 exactly when it is invalid. |
| CollectzGames.WinIsFinal | collectz.py:190-215 | After a win the next line decides. The end of the input gives the winner, an unreadable line gives 'invalid line', and a move 0 passes the `move and won` test and fails as an illegal column (6). Any other move gives 4. |
| CollectzGames.NonPositiveZMoveWins | collectz.py:136-141 | With Z <= 0 (accepted by `get_params`), every legal move wins. |
| CollectzGames.PlayStep | collectz.py:190-208 | A legal move line takes the loop to the next line with the moved state. |
| CollectzGames.EmptyBoardDraw | collectz.py:213-218 | "0 0 0" is accepted, and a 0 by 0 board is complete: a draw (0). |
| CollectzGames.ZeroRunFirstMoveWins | collectz.py:136-141 | "3 3 0" followed by the move 2 is won by player 1. |
| CollectzGames.LeadingSpaceFirstLine | collectz.py:24-26 | `get_params` ignores a leading space, while `connectz.py`'s `main` returns 8 for such a first line whatever follows. |
| CollectzGames.LeadingSpaceRejected | connectz.py:42-44 | `parse_game_dimensions` raises InvalidFileError on a leading space. |
| CollectzGames.SeparatorMoveLine | collectz.py:169-170 | For the move line "5\x1c\n", connectz.py's `parse_move` raises because `int()` does not skip U+001C, while collectz.py's `strip()` removes it and reads 5. |
| CollectzGames.WordMoveLine | collectz.py:169-170 | A one-word move line reads as `int` of the word, zero and negatives included. |
| CollectzGames.ConnectzWordMoveLine | connectz.py:65-76 | `connectz.py` accepts a one-word move line only when its integer is at least 1. |

## Left out

- File handling is not modelled: opening the file, `readline`, `sys.argv` and `print`. In connectz.py a missing file is caught as `FileNotFoundError` and gives code 9 (connectz.py:272-274); in collectz.py `open` sits outside any `try` (collectz.py:174), so a missing file raises out of `main` with no code at all. A file is the sequence of what `readline()` returns, and "" ends the loop. A real file never returns "" before its end, since each line read keeps its '\n'.
- `main` is modelled as the method `RunGame`, because a method named `Main` would be an entry point for the program.
- `int()` is modelled for ASCII decimal digits with an optional sign, surrounded by the whitespace `int()` skips: ' ', '\t' to '\r', and the characters from U+0080 up that `isspace` accepts (it does not skip U+001C to U+001F). Underscores between digits and non-ASCII decimal digits are not modelled: such lines are rejected here, while Python accepts them. The model also reads digit strings of any length, while Python 3.11 and later raises ValueError by default past 4300 digits, which `main` reports as 8 (connectz.py) or 'invalid line' (collectz.py, for a move line).
- Python's generators (`get_sublists`) and lists are modelled as sequences. Laziness and sharing do not affect any result.
- The model makes no claim that a reported win is a real run of Z marks. The downward diagonal's wrap-around (`Engine.DownwardWraps`) can read squares outside the line through the last move, and `Engine.WrapFalseWin` gives a board where this makes a win. That lemma starts from the state six moves into the game. It does not replay the first six moves through `Outcome`.
- The test file test/collectz_test.py is not modelled. It compares `main` with example files that are not part of this model.
