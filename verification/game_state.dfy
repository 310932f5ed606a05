/** The values the session controller publishes: the game mode and the
    six-way `GameState` sum type of Game.kt. */
module GameStates {
  import opened Players

  /** `GameMode`: only single-player exists. */
  datatype GameMode = SinglePlayer

  /** `GameState`. The player-carrying variants hold a reference to the
      (mutable) `Player`, not a copy of its score. */
  datatype GameState =
    | None
    | Stopped
    | ScoreUpdate(player: Player)
    | PlayerSelected(player: Player)
    | Over(player: Player)
    | Started(player: Player)

  /** The screen's "not stopped" test: balloons are spawned and shown only
      while this holds. */
  predicate IsActive(s: GameState) {
    !(s.Over? || s.Stopped? || s.None?)
  }
}
