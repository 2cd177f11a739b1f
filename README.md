# Battleship board engine

A Dafny model of the board logic of a human-versus-computer Battleship game. The game has a
Flask backend (`Backend/app.py`) and a React client (`src/App.js`), and each one carries its
own copy of the rules.

The board is an 8×8 grid of one-character cells: `'~'` empty, `'S'` ship, `'X'` hit, `'O'`
miss. The fleet is `SHIP_SIZES = [2, 2, 2, 3, 3, 4]`, which is 16 segments.

- `rules.dfy` (module `Rules`) holds what both programs declare: the constants and the grid
  as a list of rows. It also has one-cell writes and counts of cells holding a symbol.
- `backend.dfy` (module `Backend`) models the backend.
  - A board the handlers change in place is a `Board` object. Its methods reassign `cells`
    one cell at a time.
  - `PlaceShip` is the `/place_ship` handler and `PlaceShipsRandomly` is
    `place_ships_randomly`.
  - `PlayerClick` is the `/player_click` handler. Its ship scan is `FindSunk`.
  - `StartGame` is `/start`.
  - Beside them are the specification functions (`CanPlace`, `Run`, `Mark`, `ShotOnComputer`,
    `ShotOnView`, `SunkAt`) and lemmas about them.
- `frontend.dfy` (module `Frontend`) models the client.
  - `CheckWin` is `checkWin`.
  - `ComputerShot` is the computer's write on its copy of the board.
  - React's state hooks become the fields of a `Game` object. Its methods are the click
    guard, the placement-index advance, the direction toggle, the turn hand-off by result and
    the computer's turn.

Two invariants tie the programs together:
- The tally: ship segments left on the computer board plus the hit counter equal 16. It holds
  after `/start` when the whole fleet was placed, which it is unless the supplied draws run
  out. Every `/player_click` keeps it, as long as the client sends back the boards and the
  counter it was given. Under it, the backend's win test (`player_hits == sum(SHIP_SIZES)`)
  and the client's `checkWin` (no `'S'` left) agree.
- View agreement: the player's view board gives a faithful partial picture of the computer
  board. A shot at a cell the view still shows as `'~'` keeps it so, and the client only ever
  sends such shots.

Points where the code behaves in a way a reader might not expect:
- After the computer's shot, the client gives the turn back to the player whether the shot
  hit or missed, unless it won (src/App.js:127-131). The player, by contrast, keeps the turn
  after a hit or a sink (src/App.js:69-73).
- The backend decides a win by its hit counter, not by scanning the board.
- The backend does not guard against a second shot at the same cell. `ReshotHitShowsMiss`
  shows what such a shot does. The guard lives in the client's `handleCellClick`.
- The placement test and the write are not separate functions. The `place_ship` handler and
  the loop of `place_ships_randomly` each check and write in one body, and the shot is
  applied inside the `player_click` handler.

Random draws (`random.choice`, `random.randint`, `Math.random`) are parameters. The
rejection-sampling loops run over a supplied sequence of draws, with one attempt per draw.

## Model

| member | source | states |
|---|---|---|
| `Rules.CreateBoard` | Backend/app.py:13-14 | a fresh board has 8 rows of 8 cells, every cell `'~'` (the same board as `createBoard`, src/App.js:13-15) |
| `Rules.TotalSegmentsIs16` | Backend/app.py:7 | the fleet `[2,2,2,3,3,4]` has 16 segments, the `sum(SHIP_SIZES)` of the win test |
| `Backend.Run` | Backend/app.py:27 | the cells a ship covers: `size` cells from the anchor along the row (`'H'`) or the column (`'V'`), as `ship_positions` records them (line 34 for `'V'`); `RunShape` states their shape |
| `Backend.Fits` | Backend/app.py:25 | the bounds test `col + size <= 8` across and `row + size <= 8` down (line 32 for `'V'`) |
| `Backend.CanPlace` | Backend/app.py:138-144 | the placement test: the run fits and every covered cell is `'~'` (the same test at lines 25-26 and 32-33); `CanPlaceIff` states it on cells |
| `Backend.RunShape` | Backend/app.py:25-34 | a run that passes the bounds test has `size` distinct cells, all inside the board |
| `Backend.CanPlaceIff` | Backend/app.py:138-144 | placement is allowed exactly when the run fits and every cell it covers lies on the board and is `'~'` |
| `Backend.Mark` | Backend/app.py:140-141 | writing a symbol over a list of cells sets exactly those cells and leaves every other cell as it was |
| `Backend.PlacementChangesOnlyRun` | Backend/app.py:139-146 | a successful placement turns exactly the run's cells from `'~'` to `'S'` and changes no other cell |
| `Backend.PlacementAddsSegments` | Backend/app.py:140-146 | a successful placement adds exactly `size` ship segments to the board |
| `Backend.Board.constructor` | Backend/app.py:13-14 | `create_board()` gives an 8×8 board of `'~'` |
| `Backend.Board.MarkShip` | Backend/app.py:28-29 | the write loop leaves the board with exactly the run's cells set to `'S'` |
| `Backend.Board.PlaceShip` | Backend/app.py:138-148 | succeeds iff the run is in bounds and all its cells are `'~'`; on success exactly the run becomes `'S'`, on failure the board is unchanged |
| `Backend.Board.PlaceNextShip` | Backend/app.py:19-38 | the `while not placed` search: every draw it passes over fails the placement test on the board as it is; it stops at the first draw that passes, which is then marked, or at the end of the draws with the board unchanged |
| `Backend.Board.PlaceEachShip` | Backend/app.py:18-39 | the `for size in SHIP_SIZES` loop: each ship's search starts at the draw after the previous ship's, and the loop stops before the last ship only when a search ran out of draws |
| `Backend.Board.PlaceShipsRandomly` | Backend/app.py:16-39 | ship k has length `SHIP_SIZES[k]` and is the run of draw `used[k]`; the used draws are in increasing order; draw `used[k]` passes the test on the board as it stood before ship k, every draw between `used[k-1]` and `used[k]` fails the test there, and if fewer than six ships were placed every draw after the last used one fails for the next ship; the ships lie over cells that were `'~'`, share no cell, and the board gains exactly their cells as `'S'`, 16 segments for a full fleet |
| `Backend.CreateBoardHasNoShips` | Backend/app.py:13-14 | a fresh board holds no ship segment |
| `Backend.StartGame` | Backend/app.py:41-54 | two fresh distinct boards, hit counter 0, and the computer fleet placed from the draws as `PlaceShipsRandomly` states (which draw placed each ship, which draws failed, and that a short fleet means the draws ran out); with a full fleet the segments plus the counter equal 16 |
| `Backend.StartGameRowByRow` | Backend/app.py:16-45 | `/start` with six draws across rows 0 to 5 from column 0, each of which fits in turn: all six ships are placed, ship k across row k, and the counter is 0; the contract of `StartGame` alone is enough to show it (`RowsUsedInOrder`: no fitting draw is passed over) |
| `Backend.AllHit` | Backend/app.py:95 | every coordinate of the ship holds `'X'` |
| `Backend.SunkAt` | Backend/app.py:92-95 | some recorded ship contains the shot cell and has every coordinate `'X'` |
| `Backend.Board.FindSunk` | Backend/app.py:92-105 | true iff some recorded ship contains the shot cell and has every coordinate `'X'` |
| `Backend.ShotOnComputer` | Backend/app.py:72-74 | the computer board after a shot: `'X'` at the cell if it held `'S'`, otherwise unchanged; every other cell unchanged |
| `Backend.ShotOnView` | Backend/app.py:72-73 | the view after a shot: `'X'` at the cell if the computer board held `'S'` there, `'O'` otherwise (line 117); every other cell unchanged |
| `Backend.TurnFlag` | Backend/app.py:97-127 | the `player_turn` a response carries: absent on `win`, true on `sunk` and `hit`, false on `continue` |
| `Backend.Board.PlayerClick` | Backend/app.py:72-127 | on an `'S'` both boards get `'X'` at the cell and the counter rises by 1, with result `win` at 16 hits, else `sunk` if the ship is now all hit, else `hit`; any other cell gets `'O'` on the view only, with result `continue` and the counter unchanged; `player_turn` is absent on a win, true on sunk/hit, false on continue; if the segments left plus the counter were 16 before, they still are, and on a hit the result is `win` iff no `'S'` is left |
| `Backend.ShotRemovesHitSegment` | Backend/app.py:72-75 | the shot removes exactly one ship segment from the computer board when the cell held `'S'`, and none otherwise |
| `Backend.FreshViewAgrees` | src/App.js:35 | a fresh view board agrees with a computer board of only `'~'` and `'S'` cells |
| `Backend.FreshShotKeepsViewAgreement` | Backend/app.py:72-117 | a shot at a cell the view still shows as `'~'` keeps the view in agreement with the computer board |
| `Backend.ReshotHitShowsMiss` | Backend/app.py:116-117 | a second shot at a hit cell leaves the computer board alone but overwrites the shown `'X'` with `'O'`, breaking the agreement |
| `Frontend.CheckWin` | src/App.js:134-136 | `checkWin`: no cell of the board holds `'S'`; `CheckWinIffNoSegments` states it as a count |
| `Frontend.CheckWinIffNoSegments` | src/App.js:134-136 | `checkWin` holds iff the board has no `'S'` cell |
| `Frontend.HitCounterWinMatchesCheckWin` | Backend/app.py:80-90 | under the tally, the backend's hit-counter win test and the client's `checkWin` give the same answer |
| `Frontend.HitKeepsTallyAndWinMatches` | Backend/app.py:72-81 | a counted hit on a board whose segments and counter add up to 16 keeps them adding up, and the counter then reaches 16 iff `checkWin` holds of the board after the shot |
| `Frontend.Targetable` | src/App.js:114 | the cell the computer may shoot at still holds `'~'` or `'S'` |
| `Frontend.ComputerShot` | src/App.js:119-124 | the copied board has `'X'` at the target if it held `'S'`, `'O'` otherwise, and every other cell unchanged |
| `Frontend.ComputerShotAdvances` | src/App.js:119-124 | on a targetable cell the shot moves only that cell, and only forward (`'S'`→`'X'`, `'~'`→`'O'`); it removes a segment exactly when it hits |
| `Frontend.Toggled` | src/App.js:105-107 | the toggle always changes the direction |
| `Frontend.ToggleTwice` | src/App.js:105-107 | toggling twice gives back the original direction |
| `Frontend.NextTurn` | src/App.js:66-77 | the turn the client sets by result: unchanged on `win`, the player's on `sunk` and `hit`, the computer's on `continue` |
| `Frontend.NextTurnFollowsServerFlag` | src/App.js:66-77 | the turn the client sets from `result` equals the backend's `player_turn` flag, and is unchanged on a win |
| `Frontend.Game.constructor` | src/App.js:18-28 | initial state: three fresh boards, player's turn, placing, ship index 0 with `SHIP_SIZES[0]`, direction `H`, 0 hits |
| `Frontend.Game.HandleCellClick` | src/App.js:42-49 | while placing, a click requests placement of the current ship at the cell in the current direction; in play it is ignored iff it is not the player's turn or the view cell is not `'~'`, and otherwise requests a shot |
| `Frontend.Game.ReceivePlacement` | src/App.js:90-101 | on success, take the returned board and advance to `SHIP_SIZES[index+1]`, or end placement after the last ship; on failure nothing changes |
| `Frontend.Game.ToggleDirection` | src/App.js:105-107 | the direction becomes the other one; nothing else changes |
| `Frontend.Game.ReceiveShotResult` | src/App.js:58-77 | stores the returned boards, ships and counter; `sunk` and `hit` keep the turn, `continue` passes it and starts the computer's turn, `win` leaves it |
| `Frontend.Game.SelectTarget` | src/App.js:110-117 | returns the first draw whose cell is still `'~'` or `'S'`, or none iff no draw is |
| `Frontend.Game.ComputerTurn` | src/App.js:109-132 | shoots only at a `'~'` or `'S'` cell, stores the shot board, reports a computer win iff no `'S'` is left, and otherwise gives the turn to the player |

## Left out

- Flask routing, JSON parsing and responses, and the debug prints. The handlers' logic is
  modelled as methods. A placement response is the `placed` flag and a click response is a
  `ClickResponse` value.
- The list-to-tuple copy `computer_ships1`: coordinates are a `Coord` pair from the start.
- Random choice: anchors, directions and computer targets are supplied as draws.
  - `Backend.Board.PlaceShipsRandomly` makes one placement attempt per draw and stops when
    the draws run out, where the source keeps drawing forever. Its contract says which
    draw placed each ship and that every other draw tried failed, so a fleet shorter than
    six means the draws ran out. Termination of the source's rejection sampling is not
    modelled.
  - `Frontend.Game.ComputerTurn` returns `NoTarget` and changes nothing when no draw is
    open, where the source's `while (true)` would spin.
- Out-of-range input: anchors, shot cells and recorded ship coordinates are required to lie
  on the board. The client only sends board cells. The backend does not check them, and
  Python would raise an error or wrap a negative index.
- The hit tally (ship segments left plus the counter equal 16) is proved only where it can
  hold. `Backend.StartGame` gives it only when the whole fleet was placed.
  `Backend.Board.PlayerClick` keeps it only if the board and counter it is given satisfy it,
  and the backend itself cannot tell whether the client echoed them back unchanged.
- Board shape: boards are required to be 8×8. The backend trusts whatever board the client
  echoes back.
- Direction values other than `'H'` and `'V'` are not modelled, since `Direction` has only
  the two. The backend would reject any other value as a failed placement, and the client
  never produces one.
- React hooks, `axios` requests, `setTimeout`, `alert`, JSX rendering and the audio player.
  The `/start` response handler in `useEffect` copies the server's boards and ships into
  state and resets the view board and the counter. Only the fresh view is modelled
  (`FreshViewAgrees`).
- The client holds stale state between an asynchronous request and its response. Calls are
  modelled as happening one after another.
