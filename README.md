# Blind Tic-Tac-Toe game logic in Dafny

A model of the game logic in `index.js` of BlindTacToe. In this two-player
tic-tac-toe the board stays hidden while the game is played, each player
has three seconds per move, and the game ends when a line is completed, the
board is full, a player clicks an occupied cell, or the countdown reaches
zero.

The page script keeps its state in module-level variables: `options` (the
nine cells), `currentPlayer`, `running`, `winningCombo`, `countdown` and
the interval handle `timerId`. Its functions update those variables. The
model has three modules:

- `Rules` (`rules.dfy`): the state as a value (`State`) and one pure
  function per script function: `Loaded`, `CountdownStarted`,
  `Initialized`, `Started`, `Updated`, `Switched`, `Checked`, `Clicked`,
  `Ticked` and `Restarted`. It also has the winner scan `FirstWin` over the
  constant `Winning` and the events the page can deliver (`Event`,
  `Enabled`, `Step`, `Trace`, `Final`).
- `Properties` (`properties.dfy`): what each handler does and the
  invariant of play `Inv`. `Inv` holds after every run of events that
  starts with a restart, or with the first Start press after loading.
- `Engine` (`engine.dfy`): class `Game`. Its fields are the script's
  variables `options` (an `array<Cell>`), `currentPlayer`, `running`,
  `winningCombo` and `countdown`, plus three fields that stand for page
  state: `timerActive` for whether `timerId` holds a live interval,
  `startShown` for `startButton.style.display`, and `status` for the text
  of `statusText`. Each script function is a
  method that updates the fields in place. Each method is proved to reach
  `Rules`' state for the old state. The event handlers are also proved to
  keep `Inv`.

Points of behaviour that the model keeps as the code has them:

- `initalizeGame()` also runs when the script loads (index.js:149). So
  `running` is already true before Start is pressed, and a click at that
  point is played (`ClickBeforeStart`).
- `startGame` (index.js:98-104) restarts the countdown and sets `running`,
  but it does not clear the board (`StartKeepsBoard`). Only `restartGame`
  clears the board.
- The timeout branch of the interval callback (index.js:83-91) does not
  test `running`. The callback runs only while an interval is registered,
  so `CountdownTick` requires `timerActive`. `Inv` proves
  `timerActive == running`: every path that ends a game also cancels the
  interval.
- `winningCombo` is written only when a line is found, and it is cleared
  only by `restartGame`.
- `cellIndex` is never range-checked, so `0 <= index < 9` is a
  precondition.
- The Start button is hidden by `startGame` (index.js:99) and shown again
  only by `restartGame` (index.js:273). The field `startShown` records
  this. A Start press is an enabled event only while the button is shown.
- `Loaded()` assumes that the page markup shows the Start button at load.
  Nothing in index.js sets this. The game does not need it either:
  `running` is already true at load, and the restart listener attached at
  load (index.js:144) shows the button. If the button were hidden at load,
  `PlayAfterFirstStart` would hold vacuously and only `PlayAfterRestart`
  would apply.
- The comment above `restartGame` says it sets the game back to running
  (index.js:254), but the code sets `running` to false (index.js:274). The
  model follows the code, and `RestartResets` proves `!running`.

## Model

| member | source | states |
|---|---|---|
| `Rules.FirstWin` | index.js:221-231 | the scan result is the first line, in the order of `winning`, whose three cells hold the same mark; every earlier line is incomplete; the result is the end of the list when no line is complete |
| `Properties.FirstLineWins` | index.js:224-231 | the scan finds nothing exactly when no line is complete; otherwise it returns a complete line that comes no later than any other complete line |
| `Properties.NewLineHasMover` | index.js:226-234 | on a board with no complete line, any line completed by a move passes through the cell just played and holds the mover's mark, so the player named in "WON" is the player who owns the line |
| `Properties.MoveCounts` | index.js:187-211 | writing the mover's mark into an empty cell turns "p is to move" into "p moved last", and into "the other player is to move", measured by the counts of X and O marks |
| `Properties.ClickIgnoredWhenStopped` | index.js:157-160 | a click while not running leaves the whole state unchanged |
| `Properties.ClickOccupiedLoses` | index.js:162-170 | a click on an occupied cell stops the game and the timer and reports the player to move as the loser; board, player and winning line are unchanged |
| `Properties.ClickEmptyMoves` | index.js:172-177 | a click on an empty cell gives the old board with the mover's mark in exactly that cell; then the first complete line wins for the mover, or a full board is a draw, each with the timer cancelled, or the turn passes to the other player with a fresh 3-second countdown |
| `Properties.TickCountsDown` | index.js:75-91 | a tick lowers the countdown by one; at zero or below the game stops, the timer is cancelled and the player to move loses; the board and player are unchanged |
| `Properties.StartKeepsBoard` | index.js:98-104 | Start keeps the board, player and winning line, hides the Start button, starts a 3-second countdown and accepts moves |
| `Properties.RestartResets` | index.js:256-275 | restart leaves an empty board, X to move, no winning line, countdown 3, no timer, not running, Start button shown; restarting twice is the same as restarting once |
| `Properties.ClickBeforeStart` | index.js:143-149 | right after loading the game is already running, and a click puts X in the cell and passes the turn to O |
| `Properties.StartAfterEarlyWin` | index.js:98-104 | if X wins down the first column with clicks made before Start, a Start press afterwards sets `running` on the won board, with `winningCombo` still `[0, 3, 6]` |
| `Properties.RestartedInv` | index.js:256-275 | the state after a restart satisfies the invariant of play |
| `Properties.StartInv` | index.js:98-104 | a Start press while the Start button is shown keeps the invariant |
| `Properties.LoadedStartInv` | index.js:143-149 | pressing Start right after loading reaches a state of the invariant |
| `Properties.ClickInv` | index.js:157-178 | a click on any cell keeps the invariant: no complete line while running, strict alternation by mark counts, and a declared winner who owns the first complete line |
| `Properties.TickInv` | index.js:75-91 | a tick keeps the invariant, including that a timeout leaves the countdown at exactly 0 |
| `Properties.StepInv` | index.js:75-92 | every event the page can deliver keeps the invariant: a timer tick (index.js:75-92), a Start press or a cell click (wired at index.js:109-116), and a restart click (wired at index.js:144) |
| `Properties.TraceInv` | index.js:109-116 | every run of deliverable events keeps the invariant; the events are the Start and cell clicks wired here, the restart click wired at index.js:144 and the timer ticks of index.js:75-92 |
| `Properties.InvConsequences` | index.js:221-247 | under the invariant, X has as many marks as O or one more; while running it is X's turn exactly when the counts are equal; a winning line is recorded exactly when a win is declared; the declared winner is the current player, whose mark fills the line |
| `Properties.PlayAfterRestart` | index.js:256-275 | every run that starts from a restart keeps the invariant |
| `Properties.PlayAfterFirstStart` | index.js:143-149 | every run from loading whose first event is the Start press keeps the invariant |
| `Engine.Game.constructor` | index.js:47-63 | loading the script gives an empty nine-cell board, X to move, running, no winning line, countdown 3, no timer, Start button shown |
| `Engine.Game.StartCountdown` | index.js:68-75 | the countdown is reset to 3 and the timer runs; nothing else changes |
| `Engine.Game.InitializeGame` | index.js:143-147 | moves are accepted and the status announces the current player's turn; nothing else changes |
| `Engine.Game.StartGame` | index.js:98-104 | the new state is the Start transition of the old one (board kept); from a state of the invariant with the button shown it keeps the invariant |
| `Engine.Game.UpdateCell` | index.js:187-189 | the array now holds the current player's mark at the index, and every other cell is unchanged |
| `Engine.Game.SwitchPlayer` | index.js:208-211 | the other player is to move and the status names them |
| `Engine.Game.CheckWinner` | index.js:221-247 | the loop stops at the first complete line in `winning` order; then the game is won by the current player with that line, or drawn on a full board, or the turn passes |
| `Engine.Game.CellClicked` | index.js:157-178 | the new state is the click transition of the old one (ignored, lost or played); it keeps the invariant of play |
| `Engine.Game.CountdownTick` | index.js:75-92 | the new state is the tick transition of the old one; it keeps the invariant of play |
| `Engine.Game.RestartGame` | index.js:256-275 | the board is a fresh all-empty array and the state is the restart state, whatever it was before; it satisfies the invariant |

## Left out

- Everything that only changes the page: DOM lookups, status wording,
  the `clicked`, `invalid`, `win` and `hovered` CSS classes, the visibility
  of the board and timer, the timer's text and its red colour at one
  second left, and `revealBoard`, which copies `options` into the cells.
  The status line is kept as the `Status` value it shows.
- Event-listener wiring (`window.onload`, `addEventListener`,
  `animateClick`, `removeClickAnimation`, the title hover). The events the
  page can deliver are modelled instead as `Rules.Event` with `Enabled`.
- Wall-clock time: `setInterval` with its 1000 ms period and
  `clearInterval`. One call of the callback is `CountdownTick`, and the
  handle `timerId` is reduced to the flag `timerActive`.
- The page markup and stylesheet are not part of this model. The
  invariant is not claimed for runs in which a cell is clicked before the
  first Start press. Such a click is accepted, because `running` is true
  after loading. A game can then be won before Start, and a later Start
  press resumes play on the won board (`StartAfterEarlyWin`). Whether the
  page lets this happen depends on the initial visibility of the board,
  which only the markup decides.
- `cellIndex` comes from an HTML attribute as a string. The model takes it
  as an integer in 0..8.
