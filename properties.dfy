/**
 * What the rules promise: the outcome of each handler, and an invariant
 * that holds along every run of events that begins with a restart or with
 * the first Start press after loading.
 */
module Properties {
  import opened Rules

  // ---------------------------------------------------------------------
  // Counting marks
  // ---------------------------------------------------------------------

  lemma {:induction false} CountUpdate(s: seq<Cell>, i: int, v: Cell, c: Cell)
    requires 0 <= i < |s|
    ensures Count(s[i := v], c) + (if s[i] == c then 1 else 0)
         == Count(s, c) + (if v == c then 1 else 0)
    decreases |s|
  {
    if i == 0 {
      assert s[i := v][1..] == s[1..];
    } else {
      assert s[i := v][1..] == s[1..][i - 1 := v];
      CountUpdate(s[1..], i - 1, v, c);
    }
  }

  lemma {:induction false} CountAbsent(s: seq<Cell>, c: Cell)
    requires c !in s
    ensures Count(s, c) == 0
    decreases |s|
  {
    if s != [] {
      assert s[0] != c;
      CountAbsent(s[1..], c);
    }
  }

  /** After p fills an empty cell, p has made the last move and the other player is to move. */
  lemma MoveCounts(board: seq<Cell>, i: int, p: Player)
    requires 0 <= i < |board| && board[i] == Empty
    requires TurnConsistent(board, p)
    ensures MoverConsistent(board[i := Mark(p)], p)
    ensures TurnConsistent(board[i := Mark(p)], Other(p))
  {
    CountUpdate(board, i, Mark(p), Mark(X));
    CountUpdate(board, i, Mark(p), Mark(O));
  }

  // ---------------------------------------------------------------------
  // The winner scan
  // ---------------------------------------------------------------------

  /** The scan finds a line exactly when some line is complete, and then the first one. */
  lemma FirstLineWins(board: seq<Cell>)
    requires |board| == 9
    ensures FirstWin(board, 0) == |Winning| <==> NoLine(board)
    ensures forall k :: 0 <= k < |Winning| && LineComplete(board, k) ==>
              FirstWin(board, 0) <= k && LineComplete(board, FirstWin(board, 0))
  {
  }

  /**
   * On a board with no complete line, a line completed by writing p into
   * cell i passes through i and holds p's mark.
   */
  lemma NewLineHasMover(board: seq<Cell>, i: int, p: Player, k: int)
    requires |board| == 9 && 0 <= i < 9 && NoLine(board)
    requires 0 <= k < |Winning| && LineComplete(board[i := Mark(p)], k)
    ensures i in Winning[k]
    ensures board[i := Mark(p)][Winning[k][0]] == Mark(p)
  {
    assert !LineComplete(board, k);
  }

  // ---------------------------------------------------------------------
  // What each handler does
  // ---------------------------------------------------------------------

  /** Clicks are ignored while the game is not running. */
  lemma ClickIgnoredWhenStopped(g: State, i: int)
    requires |g.board| == 9 && 0 <= i < 9 && !g.running
    ensures Clicked(g, i) == g
  {
  }

  /**
   * Clicking an occupied cell ends the game with the player to move as the
   * loser; the board, the player and the winning line are kept.
   */
  lemma ClickOccupiedLoses(g: State, i: int)
    requires |g.board| == 9 && 0 <= i < 9 && g.running && g.board[i] != Empty
    ensures var h := Clicked(g, i);
      h.board == g.board && h.currentPlayer == g.currentPlayer && h.winningCombo == g.winningCombo
      && !h.running && !h.timerActive && h.status == InvalidMove(g.currentPlayer)
  {
  }

  /**
   * Clicking an empty cell puts the mover's mark in that cell and nowhere
   * else, and then ends the game with the first complete line, or with a
   * draw on a full board, or passes the turn and restarts the countdown.
   */
  lemma ClickEmptyMoves(g: State, i: int)
    requires |g.board| == 9 && 0 <= i < 9 && g.running && g.board[i] == Empty
    ensures var h, b := Clicked(g, i), g.board[i := Mark(g.currentPlayer)];
      && h.board == b
      && (!NoLine(b) ==>
            h.winningCombo == Winning[FirstWin(b, 0)] && LineComplete(b, FirstWin(b, 0))
            && !h.running && !h.timerActive && h.status == Won(g.currentPlayer)
            && h.currentPlayer == g.currentPlayer)
      && (NoLine(b) && Empty !in b ==>
            !h.running && !h.timerActive && h.status == Draw && h.currentPlayer == g.currentPlayer
            && h.winningCombo == g.winningCombo)
      && (NoLine(b) && Empty in b ==>
            h.running && h.currentPlayer == Other(g.currentPlayer) && h.status == Turn(h.currentPlayer)
            && h.countdown == CountdownStart && h.timerActive && h.winningCombo == g.winningCombo)
  {
  }

  /**
   * A tick takes one off the countdown; when it reaches zero the player to
   * move loses and the timer stops, with the board and the player kept.
   */
  lemma TickCountsDown(g: State)
    requires g.timerActive
    ensures var h := Ticked(g);
      h.countdown == g.countdown - 1 && h.board == g.board && h.currentPlayer == g.currentPlayer
      && (h.countdown <= 0 ==> !h.running && !h.timerActive && h.status == TimeUp(g.currentPlayer))
      && (h.countdown > 0 ==> h.running == g.running && h.timerActive && h.status == g.status)
  {
  }

  /** Start does not clear the board: it only restarts the countdown and accepts moves. */
  lemma StartKeepsBoard(g: State)
    ensures var h := Started(g);
      h.board == g.board && h.currentPlayer == g.currentPlayer && h.winningCombo == g.winningCombo
      && h.running && h.timerActive && h.countdown == CountdownStart && !h.startShown
  {
  }

  /** Restart empties the board, gives X the first move and stops the game; doing it twice is doing it once. */
  lemma RestartResets(g: State)
    ensures var h := Restarted();
      h.board == EmptyBoard() && h.currentPlayer == X && h.winningCombo == []
      && h.countdown == CountdownStart && !h.running && !h.timerActive && h.startShown
    ensures Step(Step(g, RestartPressed), RestartPressed) == Step(g, RestartPressed)
  {
  }

  /** Before Start is pressed the script has already run initalizeGame, so a click is played. */
  lemma ClickBeforeStart(i: int)
    requires 0 <= i < 9
    ensures Loaded().running && Loaded().startShown
    ensures var h := Clicked(Loaded(), i);
      h.board == EmptyBoard()[i := Mark(X)] && h.currentPlayer == O && h.running && h.timerActive
  {
  }

  /** A move that completes no line and leaves an empty cell passes the turn. */
  lemma QuietMove(g: State, i: int, b: seq<Cell>)
    requires |g.board| == 9 && 0 <= i < 9 && g.running && g.board[i] == Empty
    requires b == g.board[i := Mark(g.currentPlayer)]
    requires FirstWin(b, 0) == |Winning| && Empty in b
    ensures Clicked(g, i) == g.(board := b, currentPlayer := Other(g.currentPlayer),
      status := Turn(Other(g.currentPlayer)), countdown := CountdownStart, timerActive := true)
  {
  }

  /** The board of the early game after the clicks on 0, 1, 3 and 2. */
  function EarlyBoard(): seq<Cell> {
    [Mark(X), Mark(O), Mark(O), Mark(X), Empty, Empty, Empty, Empty, Empty]
  }

  /** A game played from loading, before Start, that has reached board b with p to move. */
  function Early(b: seq<Cell>, p: Player): State {
    Loaded().(board := b, currentPlayer := p, status := Turn(p), timerActive := true)
  }

  lemma EarlyStep(b: seq<Cell>, p: Player, i: int, b': seq<Cell>)
    requires |b| == 9 && 0 <= i < 9 && b[i] == Empty && b' == b[i := Mark(p)]
    requires FirstWin(b', 0) == |Winning| && Empty in b'
    ensures Clicked(Early(b, p), i) == Early(b', Other(p))
  {
    QuietMove(Early(b, p), i, b');
  }

  lemma EarlyOpening1()
    ensures Clicked(Loaded(), 0) == Early([Mark(X), Empty, Empty, Empty, Empty, Empty, Empty, Empty, Empty], O)
  {
    var b' := [Mark(X), Empty, Empty, Empty, Empty, Empty, Empty, Empty, Empty];
    assert Loaded() == Early(EmptyBoard(), X).(timerActive := false);
    assert FirstWin(b', 0) == 8;
    QuietMove(Loaded(), 0, b');
  }

  lemma EarlyOpening2()
    ensures Clicked(Early([Mark(X), Empty, Empty, Empty, Empty, Empty, Empty, Empty, Empty], O), 1)
         == Early([Mark(X), Mark(O), Empty, Empty, Empty, Empty, Empty, Empty, Empty], X)
  {
    var b' := [Mark(X), Mark(O), Empty, Empty, Empty, Empty, Empty, Empty, Empty];
    assert FirstWin(b', 0) == 8;
    EarlyStep([Mark(X), Empty, Empty, Empty, Empty, Empty, Empty, Empty, Empty], O, 1, b');
  }

  lemma EarlyOpening3()
    ensures Clicked(Early([Mark(X), Mark(O), Empty, Empty, Empty, Empty, Empty, Empty, Empty], X), 3)
         == Early([Mark(X), Mark(O), Empty, Mark(X), Empty, Empty, Empty, Empty, Empty], O)
  {
    var b' := [Mark(X), Mark(O), Empty, Mark(X), Empty, Empty, Empty, Empty, Empty];
    assert FirstWin(b', 0) == 8;
    EarlyStep([Mark(X), Mark(O), Empty, Empty, Empty, Empty, Empty, Empty, Empty], X, 3, b');
  }

  lemma EarlyOpening4()
    ensures Clicked(Early([Mark(X), Mark(O), Empty, Mark(X), Empty, Empty, Empty, Empty, Empty], O), 2)
         == Early(EarlyBoard(), X)
  {
    assert FirstWin(EarlyBoard(), 0) == 8;
    EarlyStep([Mark(X), Mark(O), Empty, Mark(X), Empty, Empty, Empty, Empty, Empty], O, 2, EarlyBoard());
  }

  lemma EarlyOpening()
    ensures Clicked(Clicked(Clicked(Clicked(Loaded(), 0), 1), 3), 2)
         == Loaded().(board := EarlyBoard(), timerActive := true)
  {
    EarlyOpening1();
    EarlyOpening2();
    EarlyOpening3();
    EarlyOpening4();
  }

  /**
   * Why the invariant is not claimed from loading: if cells are clicked
   * before Start, X can win down the first column, and a Start press then
   * resumes play on the won board with the winning line still recorded.
   */
  lemma StartAfterEarlyWin()
    ensures var g := Clicked(Clicked(Clicked(Clicked(Clicked(Loaded(), 0), 1), 3), 2), 6);
      && g.status == Won(X) && g.winningCombo == [0, 3, 6] && g.startShown
      && Started(g).running && Started(g).winningCombo == [0, 3, 6] && !NoLine(Started(g).board)
  {
    EarlyOpening();
    var g4 := Loaded().(board := EarlyBoard(), timerActive := true);
    var b := EarlyBoard()[6 := Mark(X)];
    assert b == [Mark(X), Mark(O), Mark(O), Mark(X), Empty, Empty, Mark(X), Empty, Empty];
    assert FirstWin(b, 0) == 3;
    assert Clicked(g4, 6) == g4.(board := b, winningCombo := [0, 3, 6], running := false,
      timerActive := false, status := Won(X));
  }

  // ---------------------------------------------------------------------
  // The invariant of play
  // ---------------------------------------------------------------------

  /** How a finished game was decided, with what each outcome implies of the board. */
  predicate Over(g: State)
    requires |g.board| == 9
  {
    match g.status
    case Won(p) =>
      var w := FirstWin(g.board, 0);
      p == g.currentPlayer && w < |Winning| && g.winningCombo == Winning[w]
      && g.board[Winning[w][0]] == Mark(p) && MoverConsistent(g.board, p)
    case Draw =>
      NoLine(g.board) && Empty !in g.board && g.winningCombo == []
      && MoverConsistent(g.board, g.currentPlayer)
    case InvalidMove(p) =>
      p == g.currentPlayer && NoLine(g.board) && g.winningCombo == []
      && TurnConsistent(g.board, p)
    case TimeUp(p) =>
      p == g.currentPlayer && NoLine(g.board) && g.winningCombo == []
      && TurnConsistent(g.board, p) && g.countdown == 0
    case _ => false
  }

  predicate Inv(g: State) {
    && |g.board| == 9
    && 0 <= g.countdown <= CountdownStart
    && g.timerActive == g.running
    && (g.timerActive ==> g.countdown >= 1)
    && (g.startShown ==> g == Restarted())
    && (g.running ==>
          NoLine(g.board) && g.winningCombo == [] && TurnConsistent(g.board, g.currentPlayer)
          && g.status == Turn(g.currentPlayer))
    && (!g.running && !g.startShown ==> Over(g))
  }

  lemma EmptyBoardCounts()
    ensures Count(EmptyBoard(), Mark(X)) == 0 && Count(EmptyBoard(), Mark(O)) == 0
  {
    CountAbsent(EmptyBoard(), Mark(X));
    CountAbsent(EmptyBoard(), Mark(O));
  }

  lemma RestartedInv()
    ensures Inv(Restarted())
  {
  }

  lemma StartInv(g: State)
    requires Inv(g) && g.startShown
    ensures Inv(Started(g))
  {
    EmptyBoardCounts();
  }

  /** Pressing Start first thing after loading also reaches a state of the invariant. */
  lemma LoadedStartInv()
    ensures Inv(Started(Loaded()))
  {
    EmptyBoardCounts();
  }

  lemma ClickInv(g: State, i: int)
    requires Inv(g) && 0 <= i < 9
    ensures Inv(Clicked(g, i))
  {
    if g.running && g.board[i] == Empty {
      var p := g.currentPlayer;
      var b := g.board[i := Mark(p)];
      MoveCounts(g.board, i, p);
      FirstLineWins(b);
      var w := FirstWin(b, 0);
      if w < |Winning| {
        NewLineHasMover(g.board, i, p, w);
      }
    }
  }

  lemma TickInv(g: State)
    requires Inv(g) && g.timerActive
    ensures Inv(Ticked(g))
  {
  }

  lemma StepInv(g: State, e: Event)
    requires Inv(g) && Enabled(g, e)
    ensures Inv(Step(g, e))
  {
    match e
    case StartPressed => StartInv(g);
    case CellClick(i) => ClickInv(g, i);
    case TimerTick => TickInv(g);
    case RestartPressed => RestartedInv();
  }

  lemma {:induction false} TraceInv(g: State, es: seq<Event>)
    requires Inv(g) && Trace(g, es)
    ensures Inv(Final(g, es))
    decreases |es|
  {
    if es != [] {
      StepInv(g, es[0]);
      TraceInv(Step(g, es[0]), es[1..]);
    }
  }

  /**
   * What the invariant gives the players: X never trails O and is at most
   * one move ahead; while the game runs it is X's turn exactly when both
   * have moved equally often; the winning line is set exactly when a win is
   * declared, and the declared winner is the player in currentPlayer, whose
   * mark fills the line.
   */
  lemma InvConsequences(g: State)
    requires Inv(g)
    ensures var xs, os := Count(g.board, Mark(X)), Count(g.board, Mark(O));
      && (xs == os || xs == os + 1)
      && (g.running ==> (g.currentPlayer == X <==> xs == os))
    ensures g.winningCombo != [] <==> g.status.Won?
    ensures g.status.Won? ==>
      g.status.winner == g.currentPlayer && g.winningCombo in Winning
      && forall j :: 0 <= j < 3 ==> g.board[g.winningCombo[j]] == Mark(g.currentPlayer)
  {
    if g.startShown {
      EmptyBoardCounts();
    }
  }

  /** Every run that begins with a restart keeps the invariant. */
  lemma PlayAfterRestart(es: seq<Event>)
    requires Trace(Restarted(), es)
    ensures Inv(Final(Restarted(), es))
  {
    RestartedInv();
    TraceInv(Restarted(), es);
  }

  /** Every run from loading whose first event is the Start press keeps the invariant. */
  lemma PlayAfterFirstStart(es: seq<Event>)
    requires Trace(Loaded(), [StartPressed] + es)
    ensures Inv(Final(Loaded(), [StartPressed] + es))
  {
    var run := [StartPressed] + es;
    assert run[1..] == es;
    LoadedStartInv();
    TraceInv(Started(Loaded()), es);
  }
}
