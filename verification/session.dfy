/** The session controller of Game.kt as a transition system over values:
    a `Snapshot` of the controller's fields, the `Event`s that change them
    (the public operations and the match timer firing), `Step` and `Run`.
    The class `GameObject.Game` is proved to follow `Step` call by call; the
    lemmas here state what holds over any sequence of calls. */
module Session {
  import opened Players
  import opened GameStates

  /** A wall-clock reading in epoch milliseconds; `isGameStarted` reads 0 as
      "no session", so a reading taken at start is never 0. */
  type Millis = t: int | t != 0 witness 1

  /** The match-timer handle `job`. Each launched timer gets the next id;
      `Idle` stands for no job or a cancelled one, which never fires. */
  datatype Timer = Idle | Armed(id: nat)

  /** The fields of the `Game` object. `launched` counts the timers launched
      so far and names the newest one. */
  datatype Snapshot = Snapshot(
    state: GameState,
    startTime: int,
    roster: seq<Player>,
    current: Player?,
    timer: Timer,
    launched: nat)

  /** What can happen to the controller. `TimerFired(id)` is timer `id`
      reaching the end of its minute. */
  datatype Event =
    | Start(player: Player, now: Millis, mode: GameMode)
    | Stop
    | Score(player: Player, points: Int32)
    | Select(player: Player)
    | TimerFired(id: nat)

  /** The object as first loaded: no session, an empty roster, and the first
      player of that empty roster, i.e. none. */
  function Initial(): Snapshot {
    Snapshot(None, 0, [], null, Idle, 0)
  }

  /** The effect of one event on the controller's fields. A player's score
      lives in the `Player` object, not here. */
  function Step(s: Snapshot, e: Event): Snapshot {
    match e
    case Start(p, now, mode) =>
      var roster := match mode case SinglePlayer => s.roster + [p];
      Snapshot(Started(p), now, roster, p, Armed(s.launched + 1), s.launched + 1)
    case Stop =>
      s.(startTime := 0, timer := Idle, state := Stopped)
    case Score(p, _) =>
      s.(state := ScoreUpdate(p))
    case Select(p) =>
      s.(current := p)
    case TimerFired(id) =>
      if s.timer == Armed(id) then
        s.(startTime := 0, timer := Idle,
           state := if s.current != null then Over(s.current) else s.state)
      else s
  }

  /** The effect of a sequence of events, in order. */
  function Run(s: Snapshot, es: seq<Event>): Snapshot
    decreases |es|
  {
    if es == [] then s else Run(Step(s, es[0]), es[1..])
  }

  /** The players passed to `startGame` in `es`, in order, repeats included. */
  function StartedPlayers(es: seq<Event>): seq<Player>
    decreases |es|
  {
    if es == [] then []
    else (if es[0].Start? then [es[0].player] else []) + StartedPlayers(es[1..])
  }

  /** What holds of the controller's fields between calls:
      a session is running (start time set) exactly when the newest timer is
      armed; an armed timer means a current player exists; no state is ever
      `PlayerSelected`. */
  ghost predicate Inv(s: Snapshot) {
    && (s.startTime != 0 <==> s.timer.Armed?)
    && (s.timer.Armed? ==> s.timer.id == s.launched && s.current != null)
    && !s.state.PlayerSelected?
  }

  /** Timer `id` was launched and is no longer armed: cancelled by a later
      start or a stop, or already fired. */
  ghost predicate Spent(s: Snapshot, id: nat) {
    id <= s.launched && s.timer != Armed(id)
  }

  lemma InitialState()
    ensures Inv(Initial())
    ensures Initial().state == None && Initial().startTime == 0
    ensures Initial().roster == [] && Initial().current == null
    ensures !Initial().timer.Armed?
  {
  }

  lemma StepKeepsInv(s: Snapshot, e: Event)
    requires Inv(s)
    ensures Inv(Step(s, e))
  {
  }

  lemma {:induction false} RunKeepsInv(s: Snapshot, es: seq<Event>)
    requires Inv(s)
    ensures Inv(Run(s, es))
    decreases |es|
  {
    if es != [] {
      StepKeepsInv(s, es[0]);
      RunKeepsInv(Step(s, es[0]), es[1..]);
    }
  }

  /** No sequence of calls ever publishes `PlayerSelected`. */
  lemma {:induction false} NeverPlayerSelected(es: seq<Event>)
    ensures !Run(Initial(), es).state.PlayerSelected?
  {
    RunKeepsInv(Initial(), es);
  }

  /** `startGame` publishes `Started(p)`, makes `p` current, records the
      start time and arms exactly one new timer, cancelling the old one. */
  lemma StartEffect(s: Snapshot, p: Player, now: Millis)
    requires Inv(s)
    ensures var t := Step(s, Start(p, now, SinglePlayer));
      && t.state == Started(p) && IsActive(t.state)
      && t.current == p && t.startTime == now && t.startTime != 0
      && t.roster == s.roster + [p]
      && t.timer == Armed(s.launched + 1)
      && Spent(t, s.launched)
  {
  }

  /** `stopGame` from any state publishes `Stopped`, clears the start time
      and disarms the timer, keeping the roster and the current player;
      calling it twice is the same as calling it once. */
  lemma StopEffect(s: Snapshot)
    ensures var t := Step(s, Stop);
      && t.state == Stopped && !IsActive(t.state)
      && t.startTime == 0 && t.timer == Idle
      && t.roster == s.roster && t.current == s.current
      && Step(t, Stop) == t
  {
  }

  /** `addScore` publishes `ScoreUpdate(p)` for whatever `p` it is given and
      touches nothing else, even after a stop: a score update makes the
      state active again. */
  lemma ScoreEffect(s: Snapshot, p: Player, n: Int32)
    ensures var t := Step(s, Score(p, n));
      && t.state == ScoreUpdate(p) && IsActive(t.state)
      && t.startTime == s.startTime && t.timer == s.timer
      && t.roster == s.roster && t.current == s.current
  {
  }

  /** The armed timer firing always ends the session with `Over` for the
      current player: the "no current player" branch of `gameOver` is
      unreachable between calls. */
  lemma TimeoutIsOver(s: Snapshot, id: nat)
    requires Inv(s) && s.timer == Armed(id)
    ensures var t := Step(s, TimerFired(id));
      && s.current != null && t.state == Over(s.current) && !IsActive(t.state)
      && t.startTime == 0 && Spent(t, id)
  {
  }

  /** Whatever calls came before, the armed timer firing publishes
      `Over` for the player current at that moment. */
  lemma {:induction false} EveryTimeoutIsOver(es: seq<Event>, id: nat)
    requires Run(Initial(), es).timer == Armed(id)
    ensures var s := Run(Initial(), es);
      s.current != null && Step(s, TimerFired(id)).state == Over(s.current)
  {
    RunKeepsInv(Initial(), es);
    TimeoutIsOver(Run(Initial(), es), id);
  }

  /** A spent timer firing changes nothing. */
  lemma SpentTimerInert(s: Snapshot, id: nat)
    requires Spent(s, id)
    ensures Step(s, TimerFired(id)) == s
  {
  }

  lemma {:induction false} SpentForever(s: Snapshot, es: seq<Event>, id: nat)
    requires Spent(s, id)
    ensures Spent(Run(s, es), id)
    decreases |es|
  {
    if es != [] {
      SpentForever(Step(s, es[0]), es[1..], id);
    }
  }

  /** After a restart or a stop, no timer launched before it can ever end a
      session, whatever happens next. */
  lemma {:induction false} CancelledTimerNeverFires(s: Snapshot, e: Event, es: seq<Event>, id: nat)
    requires e.Start? || e.Stop?
    requires id <= s.launched
    ensures var t := Run(Step(s, e), es);
      Step(t, TimerFired(id)) == t
  {
    SpentForever(Step(s, e), es, id);
    SpentTimerInert(Run(Step(s, e), es), id);
  }

  /** The roster only grows: it is the old roster followed by every player
      passed to `startGame`, in call order, duplicates kept. */
  lemma {:induction false} RosterAppendOnly(s: Snapshot, es: seq<Event>)
    ensures Run(s, es).roster == s.roster + StartedPlayers(es)
    decreases |es|
  {
    if es != [] {
      RosterAppendOnly(Step(s, es[0]), es[1..]);
    }
  }

  /** Once there is a current player there always is one: only
      `selectPlayer` assigns it, and never to null. */
  lemma {:induction false} CurrentStaysSet(s: Snapshot, es: seq<Event>)
    requires s.current != null
    ensures Run(s, es).current != null
    decreases |es|
  {
    if es != [] {
      CurrentStaysSet(Step(s, es[0]), es[1..]);
    }
  }

  /** After any `startGame` there is a current player. */
  lemma {:induction false} StartSetsCurrent(s: Snapshot, es: seq<Event>, i: nat)
    requires i < |es| && es[i].Start?
    ensures Run(s, es).current != null
    decreases |es|
  {
    if i == 0 {
      CurrentStaysSet(Step(s, es[0]), es[1..]);
    } else {
      StartSetsCurrent(Step(s, es[0]), es[1..], i - 1);
    }
  }

  /** Starting the same player twice lists them twice. */
  lemma RosterKeepsDuplicates(s: Snapshot, p: Player, now: Millis)
    ensures Run(s, [Start(p, now, SinglePlayer), Start(p, now, SinglePlayer)]).roster
         == s.roster + [p, p]
  {
    var es := [Start(p, now, SinglePlayer), Start(p, now, SinglePlayer)];
    RosterAppendOnly(s, es);
    assert StartedPlayers(es[1..][1..]) == [];
  }
}
