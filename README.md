# Connect Four rules engine

A Dafny model of the rules engine of a browser Connect Four game for two to
four players (`class Game` and the setup checks of `class GameButtons` in
`connect4.js`). The model covers:

- **the board**: `height` rows (row 0 at the top) of `width` cells, each empty
  or holding a player's name (`Board.Cell`, `Board.Grid`);
- **gravity placement**: a piece dropped into a column lands in its lowest
  empty row (`Game.FindSpotForCol`, specified by `Board.LowestEmptyRow`);
- **terminal detection**: the tie test (every cell filled: `Board.EveryCellFilled`,
  the nested `every` test of `checkForTie`) and the win test, which tries four four-cell templates (horizontal, vertical, diagonal
  down-right, diagonal down-left) at every origin cell (`Game.CheckForWin`,
  specified by `Win.Wins`);
- **turn rotation**: the current player's index advances by one, wrapping
  after the last player (`Game.SwitchPlayers`, `Turns.NextTurn`);
- **setup**: the 2-4 player-count gate and the duplicate-colour check, after
  which a 6 x 7 game is started (`Connect4.NewGame`).

`Game` is a class whose fields the methods update: `board` (a sequence of rows,
reassigned on each drop), `turn` (the index of the current player) and
`gameOver`; `players`, `height` and `width` are set once by the constructor.
`Game.Valid()` is the object invariant: there is a current player, player
names are non-empty, the board has its size, and gravity holds (in every
column a filled cell has only filled cells below it). `Game.Drop(x)` is the
rules part of a click on column `x`.

Three behaviours of the code are kept as written:

1. `handleClick` runs the tie check, then the win check, then switches players
   unconditionally, so the turn passes on even after the move that ends the
   game (`Game.Drop`'s third `ensures`). Both checks only ever set `gameOver`,
   so after a move it is "board full or the mover has won".
2. The win test's first conjunct `this.board[y, x] !== undefined` is, by
   JavaScript's comma operator, `this.board[x] !== undefined`, which holds
   only when `0 <= x < height`. The cell test is `Win.Matches`; its first
   conjunct is that extra condition, applied under `AsWritten`. `Win.Rule`
   chooses between the code as written (`AsWritten`; the game uses it) and the
   behaviour its doc comment describes (`Intended`: every cell on the board and
   holding the player's name). See "## Findings".
3. `checkForWin` falls off its end and returns `undefined` when nothing wins;
   the model returns `false`.

A cell is tested with JavaScript truthiness (`!this.board[y][x]`,
`cell => cell`); since the names are always "p1" to "p4", a cell is truthy
exactly when it holds a name, which is how the model tests it.

## Model

| member | source | states |
|---|---|---|
| `Board.EmptyBoard` | connect4.js:20-25 | the new board has `height` rows of `width` cells, all empty |
| `Board.LowestEmptyFrom` | connect4.js:67-70 | scanning rows `y` down to 0, the result is an empty row with every scanned row below it filled, and is `None` exactly when every scanned row is filled |
| `Board.LowestEmptyRow` | connect4.js:66-71 | the landing row is the largest `y < height` whose cell in column `x` is empty, so every row below it is filled; `None` exactly when the whole column is filled |
| `Board.Place` | connect4.js:110 | the board keeps its size, the chosen cell holds the new value and every other cell is unchanged |
| `Board.EveryCellFilled` | connect4.js:130 | the tie test: every cell of every row holds a piece (the nested `every` with `cell => cell`) |
| `Board.EmptyBoardSettled` | connect4.js:20-25 | the empty board satisfies gravity |
| `Board.DropKeepsSettled` | connect4.js:66-71 | placing a piece in a column's landing row keeps every column's pieces resting on the bottom |
| `Board.FullIffTopRowFilled` | connect4.js:129-130 | on a board satisfying gravity, every cell is filled exactly when the top row is filled (the shortcut the source's comment suggests) |
| `Win.Template` | connect4.js:170-173 | each template is a list of four cells starting at the origin |
| `Win.Matches` | connect4.js:157-163 | one cell test of `_win`: the cell is on the board and holds the current player's name; under `AsWritten` also `x < height`, the comma-operator conjunct |
| `Win.LineWins` | connect4.js:155-164 | `_win(cells)`: every cell of the list passes the cell test |
| `Win.WinFrom` | connect4.js:176 | the test for one origin cell: one of the four templates wins |
| `Win.Wins` | connect4.js:166-181 | what the scan decides: some origin cell on the board starts a winning template |
| `Win.WinAtIsRun` | connect4.js:155-173 | a winning template is four consecutive matching cells in a unit direction |
| `Win.RunIsWinAt` | connect4.js:166-176 | four consecutive matching cells in any of the eight directions are found by one of the four templates at an origin cell on the board |
| `Win.WinsIffRun` | connect4.js:151-181 | the scan reports a win exactly when the board holds four consecutive cells of the player in some direction (horizontal, vertical or either diagonal, read either way), under either rule |
| `Win.AsWrittenImpliesIntended` | connect4.js:158-163 | every win the code as written reports is a win of four on-board cells holding the player's name |
| `Win.AsWrittenAgreesWhenNotWider` | connect4.js:158-163 | when `width <= height` the code as written decides wins exactly as intended |
| `Win.RightColumnMissed` | connect4.js:158-163 | on the default 6 x 7 board a vertical four in column 6 is a win by the intended rule but is not detected by the code as written |
| `Win.NewWinThroughPlacedCell` | connect4.js:166-179 | if the board had no win before one cell was placed and has one after, some winning template passes through the placed cell, so a scan anchored at the last move finds every new win |
| `Turns.NextTurn` | connect4.js:136-139 | the next index is within the player list and is the following index, or 0 after the last player |
| `Turns.Rotate` | connect4.js:136-139 | any number of consecutive switches keeps the index within the player list |
| `Turns.RotateCompose` | connect4.js:136-139 | switching `a + b` times equals switching `a` times and then `b` times |
| `Turns.RotateWithinRound` | connect4.js:136-139 | up to `n` switches from index `i` reach `i + k`, wrapped once past the end |
| `Turns.FullRound` | connect4.js:136-139 | after `n` switches among `n` players the same player is current again |
| `Turns.RotatePeriodic` | connect4.js:136-139 | the turn order repeats with period `n` |
| `Players.ValidPlayerCount` | connect4.js:209 | the count is accepted exactly when it lies between 2 and 4 |
| `Players.NamesDistinct` | connect4.js:261-270 | the generated names `p1` to `pn` are pairwise distinct |
| `Players.PlayerName` | connect4.js:270 | the name `p${x}` is two characters, `p` followed by the digit of `x` |
| `Players.MakePlayers` | connect4.js:261-272 | one player per colour, in order, with that colour and with non-empty, pairwise distinct names |
| `Players.CheckForDuplicateColors` | connect4.js:285-292 | the result is true exactly when two players share a colour |
| `Players.SetUpPlayers` | connect4.js:258-277 | a player list is produced exactly when no two colours are equal, and it is the list of players named `p1`.. in order |
| `Connect4.Game.constructor` | connect4.js:8-17 | the new game has the given players and size, an empty board, the first player current and is not over; the invariant holds |
| `Connect4.Game.CurrPlayer` | connect4.js:12 | the current player (set here and again at line 139) is one of the game's players and has a non-empty name |
| `Connect4.Game.MakeBoard` | connect4.js:20-25 | the board becomes `height` empty rows of `width` cells |
| `Connect4.Game.FindSpotForCol` | connect4.js:66-71 | returns the lowest empty row of column `x` (every row below it filled), or `None` exactly when the column is full |
| `Connect4.Game.CheckForTie` | connect4.js:129-134 | `gameOver` becomes true when every cell is filled and is otherwise unchanged; the invariant holds |
| `Connect4.Game.DidSomeoneWin` | connect4.js:122-127 | `gameOver` becomes true when the current player wins by the check as written and is otherwise unchanged; the invariant holds |
| `Connect4.Game.SwitchPlayers` | connect4.js:136-141 | the current index becomes `(index + 1) % n`; the invariant holds |
| `Connect4.Game.CheckForWin` | connect4.js:151-181 | returns true exactly when some origin cell starts a winning template for the current player (code as written) |
| `Connect4.Game.Drop` | connect4.js:99-120 | when the game is over or the column full, nothing changes; otherwise the current player's name is written into the column's landing row and no other cell changes, `gameOver` becomes "board full or mover won", and the turn passes to the next player in every case; filled cells never change and gravity is kept |
| `Connect4.NewGame` | connect4.js:205-218 | a game exists exactly when the count is 2-4 and no two colours are equal; it is a fresh 6 x 7 game with an empty board, players `p1`.. with the given colours, the first player current |

## Left out

- Rendering: `makeHtmlBoard`, `makeMainBoard`, `placeInTable`, `createPiecePreview` and `endGame` with its messages only build or change page elements.
- `clickDisabled` and the `setTimeout` that clears it one second after a move: event-loop timing. The model treats every call of `Drop` as a click made while clicks are enabled.
- `Connect4.Game.Drop`: does not model that a click on a full column disables clicks for good. `handleClick` sets `clickDisabled` before looking for a spot (connect4.js:104) and returns at line 109 when the column is full, but the timer that clears the flag is only scheduled after a placement (lines 115-117), so every later click returns at line 102 and the game freezes. The model's moves after such a `Drop` are moves the source ignores.
- Reading the column from `evt.target.id`: `Drop` takes the column as a number with `x < width` as its precondition. In the source a click on the header row itself or on a preview piece gives `NaN`; that path is not modelled. There `findSpotForCol(NaN)` returns `height - 1` (no cell `board[y][NaN]` is truthy), line 110 sets a property named `NaN` on that row, and `placeInTable` then calls `append` on the missing element `5-NaN` on the default board (lines 79-80) and throws, leaving `clickDisabled` set, so the game freezes as after a click on a full column.
- `isColor` (colour validation through the browser's CSS parser): a browser call; `SetUpPlayers` takes the colours as given and never rejects one as invalid.
- `toLowerCase` on the colours (connect4.js:263, 270): the colours passed to `SetUpPlayers` and `NewGame` stand for strings already lowercased. Given raw input, the model treats "Red" and "red" as different colours, while the source counts them as duplicates.
- The input fields and buttons of `GameButtons` (`createPlayerInput`, `createSubmitButton`, `addToTopLine`, `colorsAndStart`, `startGameButton`), `parseInt`, the `Player` class and the top-level `new GameButtons()`: page glue. `NewGame` stands for the path from the count gate to `new Game(playerObjs)`.
- `currPlayer` is kept as an index into `players`; `switchPlayers` recovers it with `indexOf` on distinct player objects, which gives the same index.
- Connect4.Game.constructor: requires a non-empty player list with non-empty names; the source only ever passes 2-4 players named `p1`..`p4`, and with an empty name JavaScript truthiness would treat that player's cells as empty.

## Findings

| source | as written | input that shows it | evidently intended | confidence | as-written member | corrected member |
|---|---|---|---|---|---|---|
| connect4.js:158 | `this.board[y, x] !== undefined` evaluates `this.board[x]`, so a cell passes only when `x < height` | default 6 x 7 board with `p1` in rows 2-5 of column 6: no win is reported | every on-board cell holding the player's name counts, as the comment at lines 153-154 says | not executed; high, the comma operator's meaning is fixed by JavaScript | `Win.RightColumnMissed` | `Win.WinsIffRun` |

The game itself keeps the check as written (`Rule.AsWritten`) so that it
reproduces the source; `Win.WinsIffRun` proves the intended rule
(`Rule.Intended`) detects exactly the runs of four, and
`Win.AsWrittenAgreesWhenNotWider` shows the two agree on boards that are no
wider than they are tall.
