# Game session of the "arse" two-player running game

The server keeps one session record: at most two players, each with an id and
a step counter, plus a winner and a game-over flag. Four route handlers work on
it:

- `POST /create-player` registers the next player.
- `GET /player/{id}` shows a player.
- `POST /player/{id}/run` adds a step and declares the winner at three steps.
- `POST /reset-game` empties the record.

This project models that record and those four handlers, and proves what they
guarantee.

- `game.dfy`, module `Game`: the record as a value (`State`, `Player`), the
  responses without their HTML (`Response`: a status with text, a redirect, or
  the player page with its fields), the threshold `WinningSteps = 3`, the
  capacity `MaxPlayers = 2`, and the invariant `Inv`. `Inv` says:
  - there are at most two players;
  - ids are exactly 1..n in registration order;
  - the game is over exactly when a winner is set;
  - a set winner is a registered id;
  - while the game runs, every player has fewer than three steps;
  - once it is over, the winner has exactly three and the other player fewer.

  Registration, run and reset are functions from the old record to a new
  record and a response; their contracts give the outcome of every branch and
  say that `Inv` is preserved. Lookup returns only a response and leaves the
  record alone.
- `traces.dfy`, module `Traces`: arbitrary sequences of requests and what
  holds for all of them. The invariant holds from start-up whatever the
  requests. A concluded game is frozen until a reset. Steps never go down
  between resets. A reset after anything gives the empty record. Three test
  scenarios of the repository are written out as concrete lemmas: two
  registrations and a refused third, the player page of a new player, and
  the running-and-winning game.
- `session.dfy`, module `Api`: the record as the object the server mutates.
  Class `GameSession` has fields `players`, `winner` and `gameOver`.
  - Its handler methods append to the list, update a player's steps in place
    and assign the flags.
  - Each method is proved to leave the fields and return the response exactly
    as the matching `Game` function says. It also keeps `Valid()`, which is
    `Inv` of the fields.
  - Two client methods drive a fresh session through the test scenarios.

Three details of the code that the model keeps:
- Registration is refused when the game is over, even with fewer than two
  players, and separately when two players exist.
- The player page after a step that does not win always names no winner.
- A run or lookup with an id outside `1..len(players)` is a 404 response
  before any other check.

## Model

| member | source | states |
|---|---|---|
| Game.CreatePlayer | src/arse/api.py:113-133 | refused with 400 exactly when the game is over or two players exist, with the matching message and the record unchanged; otherwise exactly one player with id n+1 and 0 steps is appended, nothing else changes, and the redirect names that id; the invariant is preserved |
| Game.Lookup | src/arse/api.py:136-151 | 404 exactly when the id is outside 1..n; otherwise the page shows that player (whose id is the requested one under the invariant), the game-over flag and the winner |
| Game.Run | src/arse/api.py:154-198 | 404 exactly for an id outside 1..n, without change; when over, no change and the page names the stored winner; otherwise only that player's steps go up by one, the count is kept, and the game ends with this player as winner exactly when the steps reach 3 ("You won!"), else the winner stays unset; the invariant is preserved |
| Game.Reset | src/arse/api.py:201-207 | from any record: no players, no winner, not over, invariant holds, redirect to /admin |
| Traces.ExecuteKeepsInv | src/arse/api.py:84-207 | every sequence of requests from a record satisfying the invariant ends in one that satisfies it |
| Traces.ReachableIsValid | src/arse/api.py:84-88 | from start-up, after any requests: at most two players, ids exactly 1..n, over iff a winner is set, a winner is an id in 1..n; while running every player has fewer than 3 steps, once over the winner has exactly 3 |
| Traces.AtMostOneWinner | src/arse/api.py:172-178 | from start-up, no two distinct players ever both have 3 or more steps |
| Traces.ConcludedIsFrozen | src/arse/api.py:159-170 | once over, any requests without a reset leave the record unchanged; every player page names the stored winner, and every registration is refused with the game-over message |
| Traces.StepsNeverDecrease | src/arse/api.py:172-173 | between resets no player is removed, ids never change and no player's steps decrease |
| Traces.RunWinsIff | src/arse/api.py:176-178 | in a running game a run ends it exactly when the player had 2 steps |
| Traces.ThreeRunsWin | src/arse/api.py:172-188 | a player with 0 steps who runs three times in a row wins on the third run and not before |
| Traces.ResetAfterAnything | src/arse/api.py:204-206 | a reset after any sequence of requests yields the empty record |
| Traces.ResetIdempotent | src/arse/api.py:201-207 | two resets give the same record and response as one |
| Traces.CreatePlayersScenario | tests/test_app.py:21-34 | from start-up: redirects to /player/1 and /player/2, then 400 "Maximum number of players reached." |
| Traces.RunningAndWinningScenario | tests/test_app.py:46-68 | two registrations, then runs 1,1,2,1,2 give steps 1, 2, 1, "You won!" for player 1, then "Game Over - Player 1 won!" for player 2 with steps still 1 |
| Traces.PlayerPageScenario | tests/test_app.py:36-44 | after one registration, the page of player 1 shows 0 steps, a running game and no winner |
| Traces.UnknownPlayerScenario | src/arse/api.py:138-139 | id 99 on the empty record is not found, for lookup and for run, with no change |
| Api.GameSession.constructor | src/arse/api.py:84-88 | the fields start as the empty record, which satisfies the invariant |
| Api.GameSession.CreatePlayer | src/arse/api.py:113-133 | the new fields and the response are those of Game.CreatePlayer on the old fields; validity is kept |
| Api.GameSession.PlayerPage | src/arse/api.py:136-151 | changes nothing and answers as Game.Lookup, 404 exactly for ids outside 1..n |
| Api.GameSession.RunAction | src/arse/api.py:154-198 | the in-place step update and flag assignments give the fields and response of Game.Run on the old fields; validity is kept |
| Api.GameSession.ResetGame | src/arse/api.py:201-207 | the fields become the empty record, valid, and the response is those of Game.Reset |
| Api.RunningAndWinning | tests/test_app.py:46-68 | a fresh object driven through the scenario returns steps 2 and 1, then "You won!" for player 1 and "Game Over - Player 1 won!" for player 2 |
| Api.CreateThenReset | tests/test_app.py:21-34 | a fresh object admits players 1 and 2, refuses a third with 400, and admits player 1 again after a reset (the reset step, src/arse/api.py:201-207, is added to the test's sequence) |

## Left out

- The database writes in registration are not modelled: a `Player` row named "Player n" is added, committed and refreshed. These are I/O against a store the model cannot see. A failing commit would raise before the in-memory record changes. The row's auto-increment id plays no part in the game.
- Template rendering and the HTTP response objects are not modelled. A response is reduced to its status, text or redirect target, or to the values handed to the player page.
- The `/admin` page is not modelled: it only renders the game-over flag and the winner. The `/` and `/players/` routes are not modelled either: one is a fixed greeting and the other a database query.
- The start-up retry loop is not modelled: it creates the tables with sleeps between attempts.
- The template and static directory set-up is not modelled.
- The database reset inside `POST /reset-game` is not modelled. It drops and re-creates the tables before the record is cleared; if it fails, it raises and the record stays as it was, which the model does not capture.
- `src/arse/db.py` and `src/arse/models.py` are not part of this model. They hold connection set-up, table management and declarative schemas with no game logic.
- Parsing of the path parameter is not modelled. The framework turns the id in the URL into an integer and rejects non-integers before the handler runs; the model takes the integer.
- Concurrency between requests is not modelled. The handlers have no synchronisation, and each is modelled as one atomic step. This has a cost. Registration awaits the database commit and refresh between its capacity check and its append. So two overlapping registrations can both pass the check and leave three players. The bound of at most two players in `Traces.ReachableIsValid` therefore holds only for requests handled one after another.
