/** The run's global state machine (GameManager): gameplay, pause, level-up screens that
    stack, the treasure-chest screen and game over; the stopwatch with its one-shot
    end-of-level latch; and the aggregates of all players' curse and level. */
module GameManager {
  import opened Common
  import opened MetaUpgrades
  import opened PlayerCollector

  datatype GameState = Gameplay | Paused | GameOver | LevelUp | TreasureChest

  /** GetCumulativeCurse: 1 without a game manager, otherwise 1 plus the players' summed
      curse, never below 1. */
  method GetCumulativeCurse(hasInstance: bool, curses: seq<real>) returns (c: real)
    ensures c >= 1.0
    ensures !hasInstance ==> c == 1.0
    ensures hasInstance ==> c == MaxReal(1.0, 1.0 + SumReals(curses))
  {
    if !hasInstance {
      return 1.0;
    }
    var total := 0.0;
    var i := 0;
    while i < |curses|
      invariant 0 <= i <= |curses|
      invariant total == SumReals(curses[..i])
    {
      assert curses[..i + 1][..i] == curses[..i];
      total := total + curses[i];
      i := i + 1;
    }
    assert curses[..i] == curses;
    c := MaxReal(1.0, 1.0 + total);
  }

  /** GetCumulativeLevels: 1 without a game manager, otherwise the players' summed level,
      never below 1. */
  method GetCumulativeLevels(hasInstance: bool, levels: seq<int>) returns (n: int)
    ensures n >= 1
    ensures !hasInstance ==> n == 1
    ensures hasInstance ==> n == (if SumInts(levels) >= 1 then SumInts(levels) else 1)
  {
    if !hasInstance {
      return 1;
    }
    var total := 0;
    var i := 0;
    while i < |levels|
      invariant 0 <= i <= |levels|
      invariant total == SumInts(levels[..i])
    {
      assert levels[..i + 1][..i] == levels[..i];
      total := total + levels[i];
      i := i + 1;
    }
    assert levels[..i] == levels;
    n := if total >= 1 then total else 1;
  }

  /** C#'s truncation of a float toward zero. */
  function Truncate(x: real): int
  {
    if x >= 0.0 then x.Floor else -((-x).Floor)
  }

  /** C#'s float remainder `x % y`: the sign follows the dividend. */
  function CRemainder(x: real, y: real): real
    requires y != 0.0
  {
    x - y * Truncate(x / y) as real
  }

  /** The minutes shown by the stopwatch display. */
  function DisplayMinutes(t: real): int
  {
    (t / 60.0).Floor
  }

  /** The seconds shown by the stopwatch display. */
  function DisplaySeconds(t: real): int
  {
    CRemainder(t, 60.0).Floor
  }

  /** For any elapsed time, minutes and seconds split the whole seconds elapsed, with
      the seconds below 60. */
  lemma StopwatchSplit(t: real)
    requires t >= 0.0
    ensures 0 <= DisplaySeconds(t) < 60
    ensures 60 * DisplayMinutes(t) + DisplaySeconds(t) == t.Floor
  {
    var q := (t / 60.0).Floor;
    assert q as real <= t / 60.0 < q as real + 1.0;
    assert Truncate(t / 60.0) == q;
    var r := t - 60.0 * q as real;
    assert 0.0 <= r < 60.0;
    var s := r.Floor;
    assert s as real <= r < s as real + 1.0;
    assert (60 * q + s) as real <= t < (60 * q + s) as real + 1.0;
  }

  /** The sum of the coins in a list of purses. */
  ghost function PurseTotal(cs: seq<Collector>): real
    reads set c | c in cs
  {
    if cs == [] then 0.0 else PurseTotal(cs[..|cs| - 1]) + cs[|cs| - 1].coins
  }

  class Manager {
    var currentState: GameState
    var previousState: GameState
    var stackedLevelUps: int
    var levelUpScreenActive: bool
    var pauseScreenActive: bool
    var resultsScreenActive: bool
    var timeScale: real
    var stopwatchTime: real
    var timeLimit: real
    var levelEnded: bool
    /** Whether the spawn manager is still enabled; the end-of-level latch disables it. */
    var spawnerActive: bool
    /** The number of times the players were sent "RemoveAndApplyUpgrades". */
    var levelUpRoundsOffered: nat
    var levelReached: int
    /** The collectors of all players, and the save record their coins go to. */
    const collectors: seq<Collector>
    const save: GameData

    /** The stacked counter is never negative, level-ups only stack behind an open
        screen, and every player has their own purse. */
    ghost predicate Valid()
      reads this
    {
      stackedLevelUps >= 0
      && (stackedLevelUps > 0 ==> levelUpScreenActive)
      && DistinctPurses()
    }

    ghost predicate DistinctPurses()
    {
      forall i, j :: 0 <= i < j < |collectors| ==> collectors[i] != collectors[j]
    }

    /** Level-ups still to be handled: the one on screen plus the stacked ones. */
    function Pending(): int
      reads this
    {
      stackedLevelUps + (if levelUpScreenActive then 1 else 0)
    }

    /** Awake: screens disabled, the level's time limit installed. */
    constructor (timeLimit: real, collectors: seq<Collector>, save: GameData)
      requires forall i, j :: 0 <= i < j < |collectors| ==> collectors[i] != collectors[j]
      ensures Valid()
      ensures currentState == Gameplay && stackedLevelUps == 0 && !levelUpScreenActive
      ensures this.timeLimit == timeLimit && stopwatchTime == 0.0 && !levelEnded && spawnerActive
      ensures this.collectors == collectors && this.save == save
    {
      currentState := Gameplay;
      previousState := Gameplay;
      stackedLevelUps := 0;
      levelUpScreenActive := false;
      pauseScreenActive := false;
      resultsScreenActive := false;
      timeScale := 1.0;
      stopwatchTime := 0.0;
      this.timeLimit := timeLimit;
      levelEnded := false;
      spawnerActive := true;
      levelUpRoundsOffered := 0;
      levelReached := 0;
      this.collectors := collectors;
      this.save := save;
    }

    function IsGameOver(): bool
      reads this
    {
      currentState == GameState.GameOver
    }

    function ChosingUpgrade(): bool
      reads this
    {
      currentState == LevelUp
    }

    /** ChangeState: the old state is remembered and the new one installed. */
    method ChangeState(newState: GameState)
      modifies this`previousState, this`currentState
      ensures previousState == old(currentState) && currentState == newState
    {
      previousState := currentState;
      currentState := newState;
    }

    /** PauseGame: a no-op when already paused. */
    method PauseGame()
      modifies this
      ensures old(currentState) == Paused ==> currentState == Paused && previousState == old(previousState) && timeScale == old(timeScale) && pauseScreenActive == old(pauseScreenActive)
      ensures old(currentState) != Paused ==> currentState == Paused && previousState == old(currentState) && timeScale == 0.0 && pauseScreenActive
      ensures stackedLevelUps == old(stackedLevelUps) && levelUpScreenActive == old(levelUpScreenActive)
      ensures stopwatchTime == old(stopwatchTime) && levelEnded == old(levelEnded)
      ensures Valid() == old(Valid())
    {
      if currentState != Paused {
        ChangeState(Paused);
        timeScale := 0.0;
        pauseScreenActive := true;
      }
    }

    /** ResumeGame: returns to the state before the pause; a no-op when not paused. */
    method ResumeGame()
      modifies this
      ensures old(currentState) == Paused ==> currentState == old(previousState) && previousState == Paused && timeScale == 1.0 && !pauseScreenActive
      ensures old(currentState) != Paused ==> currentState == old(currentState) && previousState == old(previousState) && timeScale == old(timeScale)
      ensures stackedLevelUps == old(stackedLevelUps) && levelUpScreenActive == old(levelUpScreenActive)
      ensures stopwatchTime == old(stopwatchTime) && levelEnded == old(levelEnded)
      ensures Valid() == old(Valid())
    {
      if currentState == Paused {
        ChangeState(previousState);
        timeScale := 1.0;
        pauseScreenActive := false;
      }
    }

    /** Pausing from any other state and resuming brings that state back. */
    method PauseThenResume()
      requires currentState != Paused
      modifies this
      ensures currentState == old(currentState)
      ensures stackedLevelUps == old(stackedLevelUps) && levelUpScreenActive == old(levelUpScreenActive)
    {
      PauseGame();
      ResumeGame();
    }

    /** CheckForPauseAndResume: Escape toggles between paused and not paused. */
    method CheckForPauseAndResume(escapePressed: bool)
      modifies this
      ensures !escapePressed ==> currentState == old(currentState) && previousState == old(previousState)
      ensures escapePressed && old(currentState) == Paused ==> currentState == old(previousState)
      ensures escapePressed && old(currentState) != Paused ==> currentState == Paused && previousState == old(currentState)
      ensures stackedLevelUps == old(stackedLevelUps) && levelUpScreenActive == old(levelUpScreenActive)
      ensures stopwatchTime == old(stopwatchTime) && levelEnded == old(levelEnded)
      ensures Valid() == old(Valid())
    {
      if escapePressed {
        if currentState == Paused {
          ResumeGame();
        } else {
          PauseGame();
        }
      }
    }

    /** UpdateStopwatch: advances the clock and fires the end-of-level block the first
        time the limit is reached, and never again (the enemies killed and the reaper
        spawned there are not modelled; the spawner is switched off). */
    method UpdateStopwatch(dt: real, clockSpeed: real) returns (fired: bool)
      modifies this`stopwatchTime, this`levelEnded, this`spawnerActive
      ensures stopwatchTime == old(stopwatchTime) + dt * clockSpeed
      ensures fired <==> !old(levelEnded) && stopwatchTime >= timeLimit
      ensures levelEnded == (old(levelEnded) || fired)
      ensures spawnerActive == (old(spawnerActive) && !fired)
    {
      stopwatchTime := stopwatchTime + dt * clockSpeed;
      fired := false;
      if stopwatchTime >= timeLimit && !levelEnded {
        levelEnded := true;
        spawnerActive := false;
        fired := true;
      }
    }

    /** The stopwatch latch fires at most once over any two frames. */
    method TwoTicks(dt1: real, dt2: real, clockSpeed: real) returns (f1: bool, f2: bool)
      modifies this`stopwatchTime, this`levelEnded, this`spawnerActive
      ensures !(f1 && f2)
      ensures old(levelEnded) ==> !f1 && !f2
    {
      f1 := UpdateStopwatch(dt1, clockSpeed);
      f2 := UpdateStopwatch(dt2, clockSpeed);
    }

    /** Update: the per-frame dispatch on the current state. */
    method Update(dt: real, clockSpeed: real, escapePressed: bool) returns (fired: bool)
      modifies this
      ensures old(currentState) !in {Gameplay, Paused} ==> currentState == old(currentState) && stopwatchTime == old(stopwatchTime)
      ensures old(currentState) == TreasureChest ==> timeScale == 0.0
      ensures old(currentState) == Gameplay ==> stopwatchTime == old(stopwatchTime) + dt * clockSpeed
      ensures old(currentState) != Gameplay ==> stopwatchTime == old(stopwatchTime) && !fired
      ensures fired ==> !old(levelEnded) && levelEnded
      ensures stackedLevelUps == old(stackedLevelUps) && levelUpScreenActive == old(levelUpScreenActive)
      ensures Valid() == old(Valid())
    {
      fired := false;
      match currentState
      case Gameplay =>
        CheckForPauseAndResume(escapePressed);
        fired := UpdateStopwatch(dt, clockSpeed);
      case Paused =>
        CheckForPauseAndResume(escapePressed);
      case TreasureChest =>
        timeScale := 0.0;
      case _ =>
    }

    /** StartLevelUp: switches to the level-up state; a second level-up while the screen
        is open is stacked, otherwise the screen opens and the players are offered upgrades.
        Either way one more level-up is pending. */
    method StartLevelUp()
      requires stackedLevelUps >= 0 && DistinctPurses()
      modifies this
      ensures Valid()
      ensures currentState == LevelUp && previousState == old(currentState)
      ensures Pending() == old(Pending()) + 1
      ensures old(levelUpScreenActive) ==> stackedLevelUps == old(stackedLevelUps) + 1 && levelUpRoundsOffered == old(levelUpRoundsOffered)
      ensures !old(levelUpScreenActive) ==> levelUpScreenActive && stackedLevelUps == old(stackedLevelUps) && timeScale == 0.0 && levelUpRoundsOffered == old(levelUpRoundsOffered) + 1
      ensures levelUpScreenActive
      ensures stopwatchTime == old(stopwatchTime) && levelEnded == old(levelEnded)
    {
      ChangeState(LevelUp);
      if levelUpScreenActive {
        stackedLevelUps := stackedLevelUps + 1;
      } else {
        levelUpScreenActive := true;
        timeScale := 0.0;
        levelUpRoundsOffered := levelUpRoundsOffered + 1;
      }
    }

    /** EndLevelUp: closes the screen and returns to gameplay; a stacked level-up is then
        taken off the stack and its screen reopened. One pending level-up is handled. */
    method EndLevelUp()
      requires Valid()
      modifies this
      ensures Valid()
      ensures old(stackedLevelUps) == 0 ==> currentState == Gameplay && !levelUpScreenActive && stackedLevelUps == 0 && timeScale == 1.0
      ensures old(stackedLevelUps) > 0 ==> currentState == LevelUp && previousState == Gameplay && levelUpScreenActive && stackedLevelUps == old(stackedLevelUps) - 1
      ensures old(levelUpScreenActive) ==> Pending() == old(Pending()) - 1
      ensures !old(levelUpScreenActive) ==> Pending() == 0
      ensures stopwatchTime == old(stopwatchTime) && levelEnded == old(levelEnded)
    {
      timeScale := 1.0;
      levelUpScreenActive := false;
      ChangeState(Gameplay);
      if stackedLevelUps > 0 {
        stackedLevelUps := stackedLevelUps - 1;
        StartLevelUp();
      }
    }

    /** AssignLevelReachedUI. */
    method AssignLevelReached(level: int)
      modifies this`levelReached
      ensures levelReached == level
    {
      levelReached := level;
    }

    /** GameOver: switches to the game-over state, stops time, shows the results and moves
        every player's purse into the save record. (A second pass over the players finds
        no collector on the player object itself; had it found one, the purses would
        already be empty.) */
    method GameOver()
      requires Valid()
      modifies this, save, collectors
      ensures Valid()
      ensures currentState == GameState.GameOver && previousState == old(currentState)
      ensures timeScale == 0.0 && resultsScreenActive
      ensures save.coins == old(save.coins) + old(PurseTotal(collectors))
      ensures save.levels == old(save.levels)
      ensures forall c :: c in collectors ==> c.coins == 0.0
      ensures stackedLevelUps == old(stackedLevelUps) && levelUpScreenActive == old(levelUpScreenActive)
      ensures levelReached == old(levelReached)
    {
      ChangeState(GameState.GameOver);
      timeScale := 0.0;
      resultsScreenActive := true;
      var i := 0;
      while i < |collectors|
        invariant 0 <= i <= |collectors|
        invariant Valid()
        invariant currentState == GameState.GameOver && previousState == old(currentState)
        invariant timeScale == 0.0 && resultsScreenActive
        invariant stackedLevelUps == old(stackedLevelUps) && levelUpScreenActive == old(levelUpScreenActive)
        invariant levelReached == old(levelReached)
        invariant save.coins == old(save.coins) + old(PurseTotal(collectors[..i]))
        invariant save.levels == old(save.levels)
        invariant forall j :: 0 <= j < i ==> collectors[j].coins == 0.0
        invariant forall j :: i <= j < |collectors| ==> collectors[j].coins == old(collectors[j].coins)
      {
        assert collectors[..i + 1][..i] == collectors[..i];
        assert old(PurseTotal(collectors[..i + 1])) == old(PurseTotal(collectors[..i])) + old(collectors[i].coins);
        collectors[i].SaveCoinsToStash(save);
        i := i + 1;
      }
      assert collectors[..i] == collectors;
    }
  }
}
