/** The `Game` object of Game.kt: the one session controller. Its fields are
    updated in place by each operation; every method is proved to change
    them exactly as `Session.Step` says and to keep `Session.Inv`. The clock
    reading of `startGame` is the parameter `now`; the one-minute coroutine is
    the `timer` handle, and its firing is the method `GameOver`. */
module GameObject {
  import opened Players
  import opened GameStates
  import opened Session

  class Game {
    var state: GameState
    var startTime: int
    var roster: seq<Player>
    var current: Player?
    var timer: Timer
    var launched: nat

    /** The fields as a `Session.Snapshot`. */
    function View(): Snapshot
      reads this
    {
      Snapshot(state, startTime, roster, current, timer, launched)
    }

    ghost predicate Valid()
      reads this
    {
      Inv(View())
    }

    /** The object as first loaded: state `None`, start time 0, empty
        roster, and the empty roster's first player, none. */
    constructor ()
      ensures Valid() && View() == Initial()
      ensures state == None && startTime == 0 && roster == [] && current == null
      ensures timer == Idle && !IsGameStarted()
    {
      state := None;
      startTime := 0;
      roster := [];
      current := null;
      timer := Idle;
      launched := 0;
    }

    /** `startGame`: cancel the running timer, add the player to the roster,
        record the start time, make the player current, launch a fresh timer
        and publish `Started(player)`. Legal at any time: a running match
        restarts. */
    method StartGame(player: Player, now: Millis, mode: GameMode := SinglePlayer)
      requires Valid()
      modifies this
      ensures Valid() && View() == Step(old(View()), Start(player, now, mode))
      ensures state == Started(player) && current == player && startTime == now
      ensures roster == old(roster) + [player]
      ensures timer == Armed(old(launched) + 1) && launched == old(launched) + 1
      ensures IsGameStarted() && IsActive(state)
    {
      timer := Idle;
      match mode {
        case SinglePlayer =>
          roster := roster + [player];
      }
      startTime := now;
      SelectPlayer(player);
      launched := launched + 1;
      timer := Armed(launched);
      state := Started(player);
    }

    /** `gameOver`, run by the armed timer when its minute is up: clear the
        start time, drop the timer and, if there is a current player, publish
        `Over` for it. Between calls there always is one (see `Session.Inv`),
        so the state always becomes `Over`. */
    method GameOver()
      requires Valid() && timer.Armed?
      modifies this
      ensures Valid() && View() == Step(old(View()), TimerFired(old(timer).id))
      ensures startTime == 0 && timer == Idle && !IsGameStarted()
      ensures state == Over(old(current)) && !IsActive(state)
      ensures roster == old(roster) && current == old(current) && launched == old(launched)
    {
      startTime := 0;
      timer := Idle;
      if current != null {
        state := Over(current);
      }
    }

    /** `stopGame`: from any state, clear the start time, cancel the timer and
        publish `Stopped`. */
    method StopGame()
      requires Valid()
      modifies this
      ensures Valid() && View() == Step(old(View()), Stop)
      ensures state == Stopped && startTime == 0 && timer == Idle
      ensures !IsGameStarted() && !IsActive(state)
      ensures roster == old(roster) && current == old(current) && launched == old(launched)
    {
      startTime := 0;
      timer := Idle;
      state := Stopped;
    }

    /** `addScore`: add `points` to the given player's score, whoever it is,
        and publish `ScoreUpdate` for it. The player may be the current one
        and may sit in the roster: it is the same object. */
    method AddScore(player: Player, points: Int32)
      requires Valid()
      modifies this, player
      ensures Valid() && View() == Step(old(View()), Score(player, points))
      ensures player.score == WrappingAdd(old(player.score), points)
      ensures SumFits(old(player.score), points) ==>
                player.score as int == old(player.score) as int + points as int
      ensures state == ScoreUpdate(player) && IsActive(state)
      ensures roster == old(roster) && current == old(current)
      ensures startTime == old(startTime) && timer == old(timer) && launched == old(launched)
    {
      player.AddScore(points);
      state := ScoreUpdate(player);
    }

    /** `getPlayers`: the roster in insertion order, as a copy that later
        calls do not change. */
    method GetPlayers() returns (players: seq<Player>)
      ensures players == roster
    {
      players := roster;
    }

    /** `selectPlayer`: make `player` current; nothing else changes. */
    method SelectPlayer(player: Player)
      modifies this
      ensures old(Valid()) ==> Valid()
      ensures View() == Step(old(View()), Select(player))
      ensures current == player
      ensures state == old(state) && roster == old(roster) && startTime == old(startTime)
      ensures timer == old(timer) && launched == old(launched)
    {
      current := player;
    }

    /** `isGameStarted`: a start time is recorded, which is exactly when the
        match timer is armed. */
    function IsGameStarted(): (started: bool)
      reads this
      requires Valid()
      ensures started <==> timer.Armed?
    {
      startTime != 0
    }
  }

  /** A client session: what a caller can prove from the contracts alone.
      Alice starts, taps one balloon, then stops the match. */
  method AliceSession(now: Millis)
  {
    var game := new Game();
    var alice := new Player("Alice");
    game.StartGame(alice, now);
    assert game.state == Started(alice) && alice.score == 0 && game.IsGameStarted();
    game.AddScore(alice, 1);
    assert game.state == ScoreUpdate(alice) && alice.score == 1;
    game.StopGame();
    assert game.state == Stopped && !game.IsGameStarted();
    var players := game.GetPlayers();
    assert players == [alice];
  }
}
