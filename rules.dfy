/**
 * The rules of Blind Tic-Tac-Toe as pure functions on a snapshot of the
 * game's state: what each event handler of the page does to the board, the
 * player to move, the running flag, the winning line, the per-turn countdown
 * and the status message. The class in module Engine is proved to follow
 * these functions; the lemmas here state what the rules promise.
 */
module Rules {

  datatype Player = X | O

  /** One square of the board: "" (Empty), "X" or "O". */
  datatype Cell = Empty | Mark(player: Player)

  /** The message in the status line, without its wording. */
  datatype Status =
    | Blank                       // cleared by a restart
    | Turn(player: Player)        // "<p>'s turn!"
    | InvalidMove(loser: Player)  // "Invalid move! <p> LOST!!"
    | TimeUp(loser: Player)       // "Time's up! <p> LOST!!"
    | Won(winner: Player)         // "<p> WON!!"
    | Draw                        // "DRAW!!"

  /** Number of seconds a player has for one move. */
  const CountdownStart: int := 3

  /** A line of three distinct board indices. */
  type Line = l: seq<int> |
    && |l| == 3 && 0 <= l[0] < 9 && 0 <= l[1] < 9 && 0 <= l[2] < 9
    && l[0] != l[1] && l[1] != l[2] && l[0] != l[2]
    witness [0, 1, 2]

  /** The eight lines, in the order the winner scan visits them. */
  const Winning: seq<Line> := [
    [0, 1, 2], [3, 4, 5], [6, 7, 8],
    [0, 3, 6], [1, 4, 7], [2, 5, 8],
    [0, 4, 8], [6, 4, 2]
  ]

  /**
   * Everything the game logic keeps between events. startShown records
   * whether the Start button is on screen (the board is hidden exactly
   * then), which decides whether a Start press can reach the game.
   */
  datatype State = State(
    board: seq<Cell>,
    currentPlayer: Player,
    running: bool,
    winningCombo: seq<int>,
    countdown: int,
    timerActive: bool,
    startShown: bool,
    status: Status)

  function Other(p: Player): Player {
    if p == X then O else X
  }

  function EmptyBoard(): seq<Cell> {
    seq(9, _ => Empty)
  }

  /** Line k holds three equal marks. */
  predicate LineComplete(board: seq<Cell>, k: int)
    requires |board| == 9 && 0 <= k < |Winning|
  {
    var l := Winning[k];
    board[l[0]] != Empty && board[l[0]] == board[l[1]] && board[l[0]] == board[l[2]]
  }

  predicate NoLine(board: seq<Cell>)
    requires |board| == 9
  {
    forall k :: 0 <= k < |Winning| ==> !LineComplete(board, k)
  }

  /**
   * The index of the first complete line at or after k, or |Winning| when
   * there is none.
   */
  function FirstWin(board: seq<Cell>, k: nat): (w: nat)
    requires |board| == 9 && k <= |Winning|
    ensures k <= w <= |Winning|
    ensures w < |Winning| ==> LineComplete(board, w)
    ensures forall j :: k <= j < w ==> !LineComplete(board, j)
    decreases |Winning| - k
  {
    if k == |Winning| then |Winning|
    else if LineComplete(board, k) then k
    else FirstWin(board, k + 1)
  }

  /** Number of cells of s that hold c. */
  function Count(s: seq<Cell>, c: Cell): nat {
    if s == [] then 0 else (if s[0] == c then 1 else 0) + Count(s[1..], c)
  }

  /** X moves first, so it is X's turn exactly when both have moved equally often. */
  predicate TurnConsistent(board: seq<Cell>, p: Player) {
    var xs, os := Count(board, Mark(X)), Count(board, Mark(O));
    if p == X then xs == os else xs == os + 1
  }

  /** p made the last move. */
  predicate MoverConsistent(board: seq<Cell>, p: Player) {
    var xs, os := Count(board, Mark(X)), Count(board, Mark(O));
    if p == X then xs == os + 1 else xs == os
  }

  // ---------------------------------------------------------------------
  // Transitions, one per function of the page script
  // ---------------------------------------------------------------------

  /** The state right after the script is loaded: declarations, then initalizeGame(). */
  function Loaded(): State {
    State(EmptyBoard(), X, true, [], CountdownStart, false, true, Turn(X))
  }

  /** startCountdown: cancel the old interval, reset the counter, start ticking. */
  function CountdownStarted(g: State): State {
    g.(countdown := CountdownStart, timerActive := true)
  }

  /** initalizeGame: announce the player to move and accept moves. */
  function Initialized(g: State): State {
    g.(running := true, status := Turn(g.currentPlayer))
  }

  /** startGame: hide the Start button, start the countdown, then initalizeGame. The board is kept. */
  function Started(g: State): State {
    Initialized(CountdownStarted(g.(startShown := false)))
  }

  /** updateCell: the current player's mark goes into cell i. */
  function Updated(g: State, i: int): State
    requires 0 <= i < |g.board|
  {
    g.(board := g.board[i := Mark(g.currentPlayer)])
  }

  /** switchPlayer. */
  function Switched(g: State): State {
    var p := Other(g.currentPlayer);
    g.(currentPlayer := p, status := Turn(p))
  }

  /** checkWinner: first complete line wins, else a full board draws, else the turn passes. */
  function Checked(g: State): State
    requires |g.board| == 9
  {
    var w := FirstWin(g.board, 0);
    if w < |Winning| then
      g.(winningCombo := Winning[w], running := false, timerActive := false, status := Won(g.currentPlayer))
    else if Empty !in g.board then
      g.(running := false, timerActive := false, status := Draw)
    else
      Switched(g)
  }

  /** cellClicked on cell i. */
  function Clicked(g: State, i: int): State
    requires |g.board| == 9 && 0 <= i < 9
  {
    if !g.running then g
    else if g.board[i] != Empty then
      g.(running := false, timerActive := false, status := InvalidMove(g.currentPlayer))
    else
      var h := Checked(Updated(g, i));
      if h.running then CountdownStarted(h) else h
  }

  /** One call of the interval callback set up by startCountdown. */
  function Ticked(g: State): State
    requires g.timerActive
  {
    var c := g.countdown - 1;
    if c <= 0 then
      g.(countdown := c, timerActive := false, running := false, status := TimeUp(g.currentPlayer))
    else
      g.(countdown := c)
  }

  /** restartGame: the result does not depend on the state it is called in. */
  function Restarted(): State {
    State(EmptyBoard(), X, false, [], CountdownStart, false, true, Blank)
  }

  // ---------------------------------------------------------------------
  // Events the page can deliver, and runs of them
  // ---------------------------------------------------------------------

  datatype Event = StartPressed | CellClick(index: int) | TimerTick | RestartPressed

  /**
   * Whether the page can deliver e in state g: Start only while its button
   * is shown, a tick only while the interval is registered, a click only on
   * one of the nine cells.
   */
  predicate Enabled(g: State, e: Event) {
    match e
    case StartPressed => g.startShown
    case CellClick(i) => |g.board| == 9 && 0 <= i < 9
    case TimerTick => g.timerActive
    case RestartPressed => true
  }

  function Step(g: State, e: Event): State
    requires Enabled(g, e)
  {
    match e
    case StartPressed => Started(g)
    case CellClick(i) => Clicked(g, i)
    case TimerTick => Ticked(g)
    case RestartPressed => Restarted()
  }

  /** Every event of es can be delivered in turn, starting from g. */
  predicate Trace(g: State, es: seq<Event>)
    decreases |es|
  {
    es == [] || (Enabled(g, es[0]) && Trace(Step(g, es[0]), es[1..]))
  }

  function Final(g: State, es: seq<Event>): State
    requires Trace(g, es)
    decreases |es|
  {
    if es == [] then g else Final(Step(g, es[0]), es[1..])
  }
}
