# Gomoku rules and game sessions, modelled in Dafny

This project models the rules-and-session core of a two-player Gomoku service
on a 19x19 board:

- **The provider rule engine** (`Gomoku`, module `GomokuProvider`). It holds a
  board as two coordinate lists, `black` and `white`. `is_valid_move` checks the
  bounds and then only the mover's own list. `move` appends the stone in place
  and reports a win. `check_win_with_last_move` walks eight single rays of up to
  four cells from the last stone.
- **The legacy engine** (module `LegacyEngine`). One process-wide game state
  holds the two lists and a `winner`. `make_move` refuses a cell held by either
  colour and coordinates of 19 or more, but lets negative coordinates through.
  It appends the stone and records the mover as winner when `check_win`
  succeeds. `reset_game` empties the state.
- **The game service** (module `GameSessions`). `create_game` stores a record
  that is active and joinable, with the creator as black player one and an
  empty board. `create_search_id` retries random six-digit codes until one is
  unused. `join_game` binds player two and closes the game to further joins.
  `create_game_id` is the hexadecimal text of a millisecond count.
- **The board page** (module `BoardView`). It rebuilds the 19x19 grid from the
  two lists and derives whose turn it is from the stone counts. It guards
  clicks and chooses the heading text.
- **The sign-up form** (module `SignUp`). `validateForm` checks three fields,
  each with a required check and one further check. The e-mail check is the
  unanchored pattern `\S+@\S+\.\S+`. `handleSubmit` returns early when the
  form is invalid.

The shared module `WinRule` states the win rule both engines implement. A
stone wins when, in one of eight directions, the four cells just beyond it hold
the mover's stones. Opposite rays are never added together.
`MiddleOfRunIsNotWin` shows the consequence: five black stones in a row, with
the last one placed in the middle, is not reported as a win. `Numerals` gives
the decimal and hexadecimal text of numbers and proves that reading the text
back returns the number.

Each engine is modelled as written. Neither engine enforces turn order or a
game phase: either colour may move at any time, and moves are still accepted
after a win. Neither win check adds opposite rays together. `create_search_id`
retries without bound. The provider's `is_valid_move` never looks at the
opponent's list, while the legacy `make_move` refuses a cell held by either
colour. The frontend talks to the legacy engine (`/game/board`, `/game/move`), so
`BoardView.ClickedStoneAppears` connects the page's click guard to
`LegacyEngine.Accepts`.

Colours and player names are the source's free strings. In the provider,
"black" selects the black list, and any other colour selects the white list for
the validity check and the append. The win check then indexes the board by the
colour name, so a colour other than "black" or "white" raises `KeyError` after
the stone has already been appended. In the legacy engine, a name other than
"black" or "white" raises `AttributeError`. This happens after the occupancy
check and before the bounds check.

Replaced by parameters: the clock (`idMillis`, `createdAt`, `updatedAt`, `now`)
and the random draws of `random.randint` (a sequence `draws` of numbers in
`[100000, 999999]`). The document collection becomes a map from search id to
record.

## Model

| member | source | states |
|---|---|---|
| `GomokuProvider.CreateBoard` | backend/game/providers/gomoku.py:4-8 | a new board whose black and white lists are both empty |
| `GomokuProvider.IsValidMove` | backend/game/providers/gomoku.py:10-17 | false whenever x or y lies outside 0..18; otherwise true iff (x, y) is absent from the mover's list ("black" uses the black list, any other colour the white list) |
| `GomokuProvider.ValidityIgnoresOpponent` | backend/game/providers/gomoku.py:14-17 | two boards that agree on the mover's list give the same verdict: the opponent's list is never consulted |
| `GomokuProvider.CheckWinWithLastMove` | backend/game/providers/gomoku.py:31-54 | for "black" or "white", the result is `WinAt` of that colour's list (some direction has all four cells beyond the stone); any other colour raises `KeyError`; at most 32 cells are looked up and the board is not changed |
| `GomokuProvider.Move` | backend/game/providers/gomoku.py:19-29 | an invalid move fails and leaves both lists unchanged; a valid one appends exactly (x, y) to the mover's list, leaves the other list unchanged and returns the win flag of the new list (or `KeyError` for an unknown colour); afterwards the same colour cannot play that cell again |
| `WinRule.WinIsFiveInRow` | backend/game/providers/gomoku.py:43-53 | a reported win is a genuine line of five stones through the placed one |
| `WinRule.MiddleOfRunIsNotWin` | backend/game_core/services.py:52-62 | five black stones (0..4, 0) with the last placed at (2, 0) are not reported as a win, because opposite rays are never summed |
| `WinRule.WinAtRotationInvariant` | backend/game/providers/gomoku.py:32-41 | because the eight directions are closed under reversal, turning the board by 180 degrees does not change the verdict |
| `LegacyEngine.GameState.constructor` | backend/game_core/services.py:5-8 | the initial state has empty lists and no winner |
| `LegacyEngine.GameState.ResetGame` | backend/game_core/services.py:14-19 | restores empty black and white lists and no winner |
| `LegacyEngine.GameState.CheckWin` | backend/game_core/services.py:38-63 | true iff, in one of the eight directions, the four cells just beyond (x, y) are in the player's list; unknown player raises `AttributeError`; at most 32 steps in all and no state change |
| `LegacyEngine.GameState.MakeMove` | backend/game_core/services.py:21-36 | false with no change for a cell held by either colour or x >= 19 or y >= 19 (negatives pass); `AttributeError` for an unknown player; otherwise appends exactly (x, y) to the player's list, leaves the other list alone, returns true and sets `winner` to the player exactly when the stone wins (else keeps it); keeps the lists duplicate-free and disjoint |
| `LegacyEngine.WinScenario` | backend/tests/test_gomoku.py:35-49 | black (0..4, 0) alternating with white (0..3, 1): all nine moves accepted and black is the winner |
| `LegacyEngine.BasicMoveScenario` | backend/tests/test_gomoku.py:11-22 | black (0, 0) then white (1, 0) are accepted and each lands in its own list |
| `LegacyEngine.ConflictScenario` | backend/tests/test_gomoku.py:24-33 | white may not take (3, 3) once black holds it; the board is unchanged |
| `LegacyEngine.NegativeCoordinateScenario` | backend/game_core/services.py:28-31 | a stone at (-1, 0) is accepted, since only the upper bound is checked |
| `Numerals.ToBaseRoundTrip` | backend/game/service.py:14-15 | reading back the digits of a number gives the number: the id text encodes the millisecond count faithfully |
| `Numerals.ToBaseNoLeadingZero` | backend/game/service.py:14-15 | the text of zero is "0" and no other text starts with '0' |
| `GameSessions.CreateGameId` | backend/game/service.py:14-15 | the id is never empty and a count of zero gives "0"; a non-negative count gives lowercase hex digits without "0x" and without a leading zero that read back as the count; a negative count gives "x" followed by the digits of its magnitude |
| `GameSessions.DistinctMillisDistinctIds` | backend/game/service.py:14-15 | two different millisecond counts, negative ones included, give two different game ids |
| `GameSessions.SearchIdTextShape` | backend/game/service.py:19 | a number drawn from [100000, 999999] prints as six decimal digits that read back as the number |
| `GameSessions.GameService.CreateSearchId` | backend/game/service.py:17-21 | returns the six-digit text of the first draw that no stored record carries as its `search_id`; every earlier draw was in use |
| `GameSessions.GameService.CreateGame` | backend/game/service.py:23-45 | stores, under a fresh search id, a record that is active and joinable, owned by the creator, with player one the creator as black, player two none and white, an empty board, the hex id and the two timestamps; no earlier record carries that search id and nothing else in the store changes; every record stays filed under its own search id |
| `GameSessions.GameService.JoinGame` | backend/game/service.py:47-62 | unknown search id: not found, store unchanged; inactive or not joinable: refused, store unchanged; otherwise the stored record gets player two and `can_join` false with everything else, `updated_at` included, unchanged, and only the returned copy carries the new `updated_at` |
| `GameSessions.JoinOnceScenario` | backend/game/service.py:53-59 | on a new game the first join succeeds for any user, the creator included; any later join on that search id is refused |
| `BoardView.LastWriteIsShown` | frontend/src/Board.jsx:24-26 | painting black stones and then white ones leaves a cell white if listed in white, else black if listed in black, else empty, so a cell in both lists shows white |
| `BoardView.BuildGrid` | frontend/src/Board.jsx:22-27 | the grid is 19x19 and cell [row][col] shows the stone listed at (x = col, y = row), empty elsewhere; the page throws exactly when some stone's row is off the grid |
| `BoardView.CurrentPlayerAfterFetch` | frontend/src/Board.jsx:28-31 | with a winner the current player is unchanged; otherwise it is White iff black has strictly more stones, else Black |
| `BoardView.TurnAlternates` | frontend/src/Board.jsx:30 | with black first and alternate moves, the page shows Black after an even number of moves and White after an odd one |
| `BoardView.HandleCellClick` | frontend/src/Board.jsx:38-42 | a click sends a move iff the cell is empty and there is no winner, with x the column, y the row and the shown player's colour |
| `BoardView.ClickedStoneAppears` | frontend/src/Board.jsx:39-43 | a click on an empty cell of the grid built from the engine's lists is accepted by the legacy engine, and the new stone shows in the clicked cell after the next fetch |
| `BoardView.PlayerTurnText` | frontend/src/Board.jsx:55-57 | "Black Wins!" iff the winner is "black", "White Wins!" for any other non-empty winner, otherwise the turn text of the current player |
| `SignUp.MatchesEmailPatternMeaning` | frontend/src/components/SignUpForm.jsx:16 | the pattern test holds exactly when some substring of the e-mail is non-spaces, "@", non-spaces, ".", non-spaces |
| `SignUp.CollectErrors` | frontend/src/components/SignUpForm.jsx:12-30 | each field gets at most one error: the required error when empty, otherwise the invalid-address, too-short or mismatch error exactly when that check fails |
| `SignUp.SignUpForm.ValidateForm` | frontend/src/components/SignUpForm.jsx:11-34 | records, for each failing field, the required message when it is empty and otherwise the invalid-address, too-short or mismatch message, and no entry for a passing field; returns true iff none was recorded, that is iff all three fields pass |
| `SignUp.SignUpForm.HandleSubmit` | frontend/src/components/SignUpForm.jsx:36-53 | records the same field errors and messages as `validateForm` and submits iff none was recorded; an invalid form returns before the loading flag is set, leaving it untouched; a valid one raises the flag and lowers it again |
| `SignUp.SignUpForm.constructor` | frontend/src/components/SignUpForm.jsx:5-9 | the form starts with empty e-mail, password and confirmation, loading off and no errors |

## Left out

- `GomokuProvider.Move`: returns only the win flag. The source returns the pair (board, is_win), and that board is the argument itself, updated in place.
- `Gomoku.check_win` (backend/game/providers/gomoku.py:57-60) is an unfinished stub that returns nothing, so it is not modelled.
- `GameSessions.GameService.CreateSearchId`: the source draws without bound. The model tries a finite sequence of draws and returns None when every one is in use, and `CreateGame` then stores nothing.
- `GameSessions.GameService.JoinGame`: the write-back filters by `id`, and the model writes the record back under its search id. These are the same document unless two games share an id, which happens when two are created in the same millisecond. That case is not modelled.
- `GameSessions.CreateGameId`: the source multiplies a floating-point timestamp by 1000 and truncates it. The model takes the resulting integer as its parameter.
- The clock, `random.randint`, async/await and the database driver are I/O. They are parameters or a map. The encoding of records for storage and the conversion of tuples to lists are not modelled.
- `GameSessions.GameService.constructor` models no source line. It is an empty collection that `JoinOnceScenario` starts from; the database connection the source opens is I/O.
- Concurrency: the source has no locking, and two interleaved requests are not modelled.
- `LegacyEngine.GameState.ResetGame`: the source rebinds the global to a new object. The model empties the fields of the one state object, so earlier references to the old object are not modelled.
- `LegacyEngine.GameState.MakeMove`: the model treats only "black" and "white" as attributes of the board. Other attribute names of the record object, which `getattr` would also find, are not modelled.
- `SignUp.CollectErrors`: password length is counted in characters. JavaScript counts UTF-16 code units, which differs for characters outside the Basic Multilingual Plane.
- The browser's own checks of the `required` and `type="email"` input attributes, which can block a submit before `handleSubmit` runs, are not modelled.
- HTTP routing and response envelopes, authentication (JWT, bcrypt, the Google provider stub), user registration, the login form, the API client, rendering, hover state and styling are outside the modelled core.
