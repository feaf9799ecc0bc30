// The run/level state machine of the shooter mode: hit points, status,
// level, ammo, kill counter and the delayed level-up. React state and refs
// are merged into one object whose handlers update it immediately; the
// level-up `setTimeout` is a flag plus the values its closure captured,
// fired by an explicit method.
module ShooterScene {
  import Enemies

  type Level = Enemies.Level

  datatype Status = Playing | Won | Lost
  datatype CameraMode = Chase | Cockpit

  const MaxHits := 5
  const MaxLevel: Level := 8
  const StartAmmo := 30
  const MaxAmmo := 999
  /** Ammo is raised to at least this much when a new level starts. */
  const LevelAmmoFloor := 20

  /** Kills needed within one level before it counts as cleared. */
  function KillsRequired(level: Level): (n: nat)
    ensures 3 <= n <= 12
    ensures level < MaxLevel ==> n == level + 2
    ensures level == MaxLevel ==> n == 12
  {
    match level
    case 1 => 3
    case 2 => 4
    case 3 => 5
    case 4 => 6
    case 5 => 7
    case 6 => 8
    case 7 => 9
    case _ => 12
  }

  /**
   * Levels 1 to 7 ask for exactly as many kills as enemies are spawned;
   * the final level asks for more kills than it spawns enemies.
   */
  lemma KillsRequiredVersusEnemies(level: Level)
    ensures level < MaxLevel ==> KillsRequired(level) == Enemies.EnemyCount(level)
    ensures level == MaxLevel ==> KillsRequired(level) > Enemies.EnemyCount(level)
  {
    if level == MaxLevel {
      assert Enemies.EnemyCount(level) == 10;
    }
  }

  /** The level entered after clearing `level`; the final level is its own successor. */
  function Successor(level: Level): (to: Level)
    ensures level < MaxLevel ==> to == level + 1
    ensures level == MaxLevel ==> to == level
  {
    if level + 1 < MaxLevel then level + 1 else MaxLevel
  }

  /** Every field of the scene, as one value. */
  datatype SceneState = SceneState(
    hitsLeft: int, status: Status, resetSignal: int, hasStarted: bool,
    level: Level, ammo: int, kills: int, killsAtLevelStart: int,
    levelCleared: bool, nextLevel: Level, cameraMode: CameraMode,
    timerArmed: bool, timerLevel: Level, timerTo: Level, timerKills: int)

  class Scene {
    var hitsLeft: int
    var status: Status
    /** Bumped on every restart and level change; used as the run id of every spawner. */
    var resetSignal: int
    var hasStarted: bool
    var level: Level
    var ammo: int
    var kills: int
    var killsAtLevelStart: int
    var levelCleared: bool
    var nextLevel: Level
    var cameraMode: CameraMode
    /** Whether a level-up timeout is outstanding. */
    var timerArmed: bool
    /** The level, target level and kill count the timeout's closure captured. */
    var timerLevel: Level
    var timerTo: Level
    var timerKills: int

    ghost function State(): SceneState
      reads this
    {
      SceneState(hitsLeft, status, resetSignal, hasStarted, level, ammo, kills,
                 killsAtLevelStart, levelCleared, nextLevel, cameraMode,
                 timerArmed, timerLevel, timerTo, timerKills)
    }

    ghost predicate Valid()
      reads this
    {
      && 0 <= hitsLeft <= MaxHits
      && (status == Lost ==> hitsLeft == 0)
      && (status == Playing ==> hitsLeft > 0)
      && ammo <= MaxAmmo
      && 0 <= killsAtLevelStart <= kills
      && levelCleared == timerArmed
      && (timerArmed ==>
            && hasStarted
            && timerLevel == level
            && timerTo == nextLevel == Successor(level)
            && killsAtLevelStart <= timerKills <= kills
            && timerKills - killsAtLevelStart >= KillsRequired(level))
    }

    /** The state `restartAll` leaves behind, given the reset signal before it. */
    ghost predicate RestartedFrom(previousReset: int)
      reads this
    {
      && hitsLeft == MaxHits && status == Playing && resetSignal == previousReset + 1
      && hasStarted && level == 1 && ammo == StartAmmo && kills == 0
      && killsAtLevelStart == 0 && !levelCleared && nextLevel == 2
      && cameraMode == Chase && !timerArmed
    }

    /** The drone, its bullets and its fire input are switched off. */
    function Disabled(): (d: bool)
      reads this
      ensures Valid() && !d ==> hitsLeft > 0 && !timerArmed && hasStarted
    {
      !hasStarted || status != Playing || levelCleared
    }

    /** The drone is held still (level-up countdown or won). */
    function Frozen(): (f: bool)
      reads this
      ensures f ==> Disabled()
    {
      levelCleared || status == Won
    }

    /** The level-up effect would arm the timer now. */
    ghost predicate ReadyToLevelUp()
      reads this
    {
      hasStarted && status == Playing && !levelCleared && !timerArmed
      && kills - killsAtLevelStart >= KillsRequired(level)
    }

    constructor()
      ensures Valid()
      ensures hitsLeft == MaxHits && status == Playing && resetSignal == 0
      ensures !hasStarted && level == 1 && ammo == StartAmmo && kills == 0
      ensures killsAtLevelStart == 0 && !levelCleared && nextLevel == 2
      ensures cameraMode == Chase && !timerArmed
    {
      hitsLeft := MaxHits;
      status := Playing;
      resetSignal := 0;
      hasStarted := false;
      level := 1;
      ammo := StartAmmo;
      kills := 0;
      killsAtLevelStart := 0;
      levelCleared := false;
      nextLevel := 2;
      cameraMode := Chase;
      timerArmed := false;
      timerLevel := 1;
      timerTo := 1;
      timerKills := 0;
    }

    /** `restartAll`: cancel the timer and start a fresh run at level 1. */
    method Restart()
      modifies this
      requires Valid()
      ensures Valid()
      ensures RestartedFrom(old(resetSignal))
      ensures timerLevel == old(timerLevel) && timerTo == old(timerTo) && timerKills == old(timerKills)
    {
      timerArmed := false;
      hitsLeft := MaxHits;
      status := Playing;
      resetSignal := resetSignal + 1;
      hasStarted := true;
      level := 1;
      ammo := StartAmmo;
      kills := 0;
      killsAtLevelStart := 0;
      levelCleared := false;
      nextLevel := 2;
      cameraMode := Chase;
    }

    /**
     * `onHit`: one hit point lost while playing, and the run is lost when
     * none remain. A level-up countdown does not protect the player.
     */
    method OnHit()
      modifies this
      requires Valid()
      ensures Valid()
      ensures old(status) != Playing ==> State() == old(State())
      ensures old(status) == Playing ==>
        && hitsLeft == old(hitsLeft) - 1
        && (status == Lost <==> hitsLeft == 0)
        && (status != Lost ==> status == Playing)
        && State() == old(State()).(hitsLeft := hitsLeft, status := status)
    {
      if status != Playing {
        return;
      }
      var next := hitsLeft - 1;
      if next <= 0 {
        status := Lost;
      }
      hitsLeft := if next < 0 then 0 else next;
    }

    /** `onAmmoCollect`: add a pickup's amount, saturating at 999. */
    method OnAmmoCollect(amount: int)
      modifies this
      requires Valid()
      ensures Valid()
      ensures ammo <= MaxAmmo
      ensures old(ammo) + amount < MaxAmmo ==> ammo == old(ammo) + amount
      ensures old(ammo) + amount >= MaxAmmo ==> ammo == MaxAmmo
      ensures State() == old(State()).(ammo := ammo)
    {
      ammo := if ammo + amount < MaxAmmo then ammo + amount else MaxAmmo;
    }

    /** The bullet system's consume callback: one round, never below zero. */
    method ConsumeAmmo()
      modifies this
      requires Valid()
      ensures Valid()
      ensures ammo >= 0
      ensures old(ammo) >= 1 ==> ammo == old(ammo) - 1
      ensures old(ammo) < 1 ==> ammo == 0
      ensures State() == old(State()).(ammo := ammo)
    {
      ammo := if ammo - 1 < 0 then 0 else ammo - 1;
    }

    /** `onEnemyKilled`. */
    method OnEnemyKilled()
      modifies this
      requires Valid()
      ensures Valid()
      ensures State() == old(State()).(kills := old(kills) + 1)
    {
      kills := kills + 1;
    }

    /** The Enter key starts the first run and restarts a lost or won one; otherwise it is ignored. */
    method OnEnter(code: string)
      modifies this
      requires Valid()
      ensures Valid()
      ensures code == "Enter" && (!old(hasStarted) || old(status) != Playing) ==> RestartedFrom(old(resetSignal))
      ensures !(code == "Enter" && (!old(hasStarted) || old(status) != Playing)) ==> State() == old(State())
    {
      if code != "Enter" {
        return;
      }
      if !hasStarted || status == Lost || status == Won {
        Restart();
      }
    }

    /** A non-repeated X toggles chase/cockpit, only while a level is being played. */
    method ToggleCockpit(code: string, repeat: bool)
      modifies this
      requires Valid()
      ensures Valid()
      ensures !repeat && code == "KeyX" && !old(Disabled()) ==>
        && cameraMode != old(cameraMode)
        && State() == old(State()).(cameraMode := cameraMode)
      ensures !(!repeat && code == "KeyX" && !old(Disabled())) ==> State() == old(State())
    {
      if repeat || code != "KeyX" {
        return;
      }
      if !hasStarted || status != Playing || levelCleared {
        return;
      }
      cameraMode := if cameraMode == Chase then Cockpit else Chase;
    }

    /**
     * The level-up effect: once enough kills were made in this level, mark
     * it cleared, record the next level and arm the timeout, whose closure
     * captures the current level, the target level and the kill count.
     */
    method CheckLevelUp()
      modifies this
      requires Valid()
      ensures Valid()
      ensures old(ReadyToLevelUp()) ==>
        State() == old(State()).(nextLevel := Successor(old(level)), levelCleared := true,
                                 timerArmed := true, timerLevel := old(level),
                                 timerTo := Successor(old(level)), timerKills := old(kills))
      ensures !old(ReadyToLevelUp()) ==> State() == old(State())
    {
      if !hasStarted || status != Playing || levelCleared {
        return;
      }
      var killsThisLevel := kills - killsAtLevelStart;
      if killsThisLevel < KillsRequired(level) {
        return;
      }
      if timerArmed {
        return;
      }
      var to := Successor(level);
      nextLevel := to;
      levelCleared := true;
      timerArmed := true;
      timerLevel := level;
      timerTo := to;
      timerKills := kills;
    }

    /**
     * The level-up timeout fires: the final level is won; any other level
     * moves on with full hit points, a new run id, the kill baseline taken
     * at arm time and ammo raised to at least 20.
     */
    method LevelUpTimerFires()
      modifies this
      requires Valid() && timerArmed
      ensures Valid()
      ensures !timerArmed && !levelCleared
      ensures old(level) == MaxLevel ==>
        State() == old(State()).(status := Won, levelCleared := false, timerArmed := false)
      ensures old(level) < MaxLevel ==>
        && level == old(level) + 1
        && ammo >= LevelAmmoFloor && ammo >= old(ammo)
        && (ammo == old(ammo) || ammo == LevelAmmoFloor)
        && State() == old(State()).(level := old(nextLevel), hitsLeft := MaxHits, status := Playing,
                                    resetSignal := old(resetSignal) + 1, levelCleared := false,
                                    killsAtLevelStart := old(timerKills),
                                    ammo := ammo,
                                    timerArmed := false)
    {
      if timerLevel == MaxLevel {
        status := Won;
        levelCleared := false;
        timerArmed := false;
        return;
      }
      level := timerTo;
      hitsLeft := MaxHits;
      status := Playing;
      resetSignal := resetSignal + 1;
      levelCleared := false;
      killsAtLevelStart := timerKills;
      ammo := if ammo < LevelAmmoFloor then LevelAmmoFloor else ammo;
      timerArmed := false;
    }
  }

  /** From a fresh start, four hits leave one point; the fifth loses; a sixth changes nothing. */
  method FiveHitsLose() returns (afterFour: int, statusAfterFour: Status, afterFive: int,
                                  statusAfterFive: Status, afterSix: int, statusAfterSix: Status)
    ensures afterFour == 1 && statusAfterFour == Playing
    ensures afterFive == 0 && statusAfterFive == Lost
    ensures afterSix == 0 && statusAfterSix == Lost
  {
    var s := new Scene();
    s.OnEnter("Enter");
    s.OnHit();
    s.OnHit();
    s.OnHit();
    s.OnHit();
    afterFour, statusAfterFour := s.hitsLeft, s.status;
    s.OnHit();
    afterFive, statusAfterFive := s.hitsLeft, s.status;
    s.OnHit();
    afterSix, statusAfterSix := s.hitsLeft, s.status;
  }

  /**
   * Level 1 is not cleared after two kills, is cleared after three, and the
   * timeout then starts level 2 with a new run id and the kill baseline at 3.
   */
  method ClearFirstLevel() returns (clearedAfterTwo: bool, clearedAfterThree: bool, next: Level,
                                     level: Level, reset: int, baseline: int, ammo: int)
    ensures !clearedAfterTwo && clearedAfterThree && next == 2
    ensures level == 2 && reset == 2 && baseline == 3 && ammo == StartAmmo
  {
    var s := new Scene();
    s.OnEnter("Enter");
    s.OnEnemyKilled();
    s.OnEnemyKilled();
    s.CheckLevelUp();
    clearedAfterTwo := s.levelCleared;
    s.OnEnemyKilled();
    s.CheckLevelUp();
    clearedAfterThree, next := s.levelCleared, s.nextLevel;
    s.LevelUpTimerFires();
    level, reset, baseline, ammo := s.level, s.resetSignal, s.killsAtLevelStart, s.ammo;
  }

  /**
   * Hits still land during the level-up countdown and can lose the run,
   * but the timeout then starts the next level as playing with full hit points.
   */
  method LostDuringCountdown() returns (statusBeforeTimer: Status, status: Status, hits: int, level: Level)
    ensures statusBeforeTimer == Lost
    ensures status == Playing && hits == MaxHits && level == 2
  {
    var s := new Scene();
    s.OnEnter("Enter");
    s.OnEnemyKilled();
    s.OnEnemyKilled();
    s.OnEnemyKilled();
    s.CheckLevelUp();
    s.OnHit();
    s.OnHit();
    s.OnHit();
    s.OnHit();
    s.OnHit();
    statusBeforeTimer := s.status;
    s.LevelUpTimerFires();
    status, hits, level := s.status, s.hitsLeft, s.level;
  }

  /**
   * X does nothing before the first run, toggles once started, ignores key
   * repeats, and is locked during the level-up countdown; Enter mid-run is ignored.
   */
  method CockpitAndEnterKeys() returns (beforeStart: CameraMode, afterX: CameraMode, afterRepeat: CameraMode,
                                        duringCountdown: CameraMode, resetAfterEnter: int)
    ensures beforeStart == Chase && afterX == Cockpit && afterRepeat == Cockpit
    ensures duringCountdown == Cockpit && resetAfterEnter == 1
  {
    var s := new Scene();
    s.ToggleCockpit("KeyX", false);
    beforeStart := s.cameraMode;
    s.OnEnter("Enter");
    s.ToggleCockpit("KeyX", false);
    afterX := s.cameraMode;
    s.ToggleCockpit("KeyX", true);
    afterRepeat := s.cameraMode;
    s.OnEnter("Enter");
    resetAfterEnter := s.resetSignal;
    s.OnEnemyKilled();
    s.OnEnemyKilled();
    s.OnEnemyKilled();
    s.CheckLevelUp();
    s.ToggleCockpit("KeyX", false);
    duringCountdown := s.cameraMode;
  }
}
