/**
 * The page script's game state as an object: the variables index.js keeps
 * at module level become fields, and each of its functions a method that
 * updates them in place. Every method is proved to have the effect that the
 * function of the same purpose in module Rules describes, and the methods
 * that handle events are proved to keep the invariant of play.
 */
module Engine {
  import opened Rules
  import Properties

  class Game {
    var options: array<Cell>
    var currentPlayer: Player
    var running: bool
    var winningCombo: seq<int>
    var countdown: int
    /** An interval is registered (timerId holds a live interval). */
    var timerActive: bool
    /** The Start button is on screen and the board is hidden. */
    var startShown: bool
    var status: Status

    ghost predicate Valid()
      reads this
    {
      options.Length == 9
    }

    /** The state as a value of the rules. */
    function Snapshot(): State
      reads this, options
    {
      State(options[..], currentPlayer, running, winningCombo, countdown, timerActive, startShown, status)
    }

    /** Loading the script: the declarations, then initalizeGame(). */
    constructor ()
      ensures Valid() && fresh(options)
      ensures Snapshot() == Loaded()
    {
      options := new Cell[9](_ => Empty);
      currentPlayer := X;
      winningCombo := [];
      countdown := CountdownStart;
      timerActive := false;
      startShown := true;
      running := false;
      status := Blank;
      new;
      InitializeGame();
    }

    method StartCountdown()
      modifies this
      ensures options == old(options)
      ensures Snapshot() == CountdownStarted(old(Snapshot()))
    {
      countdown := CountdownStart;
      timerActive := true;
    }

    method InitializeGame()
      modifies this
      ensures options == old(options)
      ensures Snapshot() == Initialized(old(Snapshot()))
    {
      status := Turn(currentPlayer);
      running := true;
    }

    method StartGame()
      requires Valid()
      modifies this
      ensures Valid() && options == old(options)
      ensures Snapshot() == Started(old(Snapshot()))
      ensures old(startShown) && Properties.Inv(old(Snapshot())) ==> Properties.Inv(Snapshot())
    {
      ghost var before := Snapshot();
      startShown := false;
      StartCountdown();
      InitializeGame();
      if before.startShown && Properties.Inv(before) {
        Properties.StartInv(before);
      }
    }

    method UpdateCell(index: int)
      requires Valid() && 0 <= index < 9
      modifies options
      ensures Snapshot() == Updated(old(Snapshot()), index)
    {
      options[index] := Mark(currentPlayer);
    }

    method SwitchPlayer()
      modifies this
      ensures options == old(options)
      ensures Snapshot() == Switched(old(Snapshot()))
    {
      currentPlayer := if currentPlayer == X then O else X;
      status := Turn(currentPlayer);
    }

    /** Scan the lines in order and stop at the first complete one. */
    method CheckWinner()
      requires Valid()
      modifies this
      ensures Valid() && options == old(options)
      ensures Snapshot() == Checked(old(Snapshot()))
    {
      var roundWin := false;
      var i := 0;
      while i < |Winning|
        invariant 0 <= i <= |Winning|
        invariant forall j :: 0 <= j < i ==> !LineComplete(options[..], j)
        invariant !roundWin && winningCombo == old(winningCombo)
      {
        var a, b, c := Winning[i][0], Winning[i][1], Winning[i][2];
        if options[a] != Empty && options[a] == options[b] && options[a] == options[c] {
          roundWin := true;
          winningCombo := [a, b, c];
          break;
        }
        i := i + 1;
      }
      if roundWin {
        assert LineComplete(options[..], i) && FirstWin(options[..], 0) == i;
        status := Won(currentPlayer);
        running := false;
        timerActive := false;
      } else if Empty !in options[..] {
        status := Draw;
        running := false;
        timerActive := false;
      } else {
        SwitchPlayer();
      }
    }

    /** The click handler of cell index. */
    method CellClicked(index: int)
      requires Valid() && 0 <= index < 9
      modifies this, options
      ensures Valid() && options == old(options)
      ensures Snapshot() == Clicked(old(Snapshot()), index)
      ensures Properties.Inv(old(Snapshot())) ==> Properties.Inv(Snapshot())
    {
      ghost var before := Snapshot();
      if !running {
        return;
      }
      if options[index] != Empty {
        status := InvalidMove(currentPlayer);
        running := false;
        timerActive := false;
      } else {
        UpdateCell(index);
        CheckWinner();
        if running {
          StartCountdown();
        }
      }
      if Properties.Inv(before) {
        Properties.ClickInv(before, index);
      }
    }

    /** One run of the interval callback; it exists only while the interval is registered. */
    method CountdownTick()
      requires Valid() && timerActive
      modifies this
      ensures Valid() && options == old(options)
      ensures Snapshot() == Ticked(old(Snapshot()))
      ensures Properties.Inv(old(Snapshot())) ==> Properties.Inv(Snapshot())
    {
      countdown := countdown - 1;
      if countdown <= 0 {
        timerActive := false;
        status := TimeUp(currentPlayer);
        running := false;
      }
    }

    method RestartGame()
      modifies this
      ensures Valid() && fresh(options)
      ensures Snapshot() == Restarted()
      ensures Properties.Inv(Snapshot())
    {
      currentPlayer := X;
      options := new Cell[9](_ => Empty);
      winningCombo := [];
      status := Blank;
      timerActive := false;
      countdown := CountdownStart;
      startShown := true;
      running := false;
      Properties.RestartedInv();
    }
  }
}
