/**
 * The runner and the game flow. `PlayerMovement` keeps the runner's speed,
 * distance, death and power-up state; `GameManager` keeps the game-over and
 * pause flags, the time scale and the coin counter, and restarts a run by
 * resetting the player and both spawners. Die reports to the manager and the
 * manager resets the player, so both classes live in this one module.
 */
module Game {
  import opened Scene
  import Levels
  import Backgrounds

  // ---- the runner ----

  /** The serialized settings of a player. */
  datatype Tuning = Tuning(
    startSpeed: real,
    maxSpeed: real,
    speedIncreasePerDistance: real,
    shieldDuration: real,
    speedBoostMultiplier: real,
    speedBoostDuration: real,
    useTouchControls: bool,
    defaultX: real)

  /**
   * Settings under which the real arithmetic below matches `PlayerMovement`'s floats:
   * positive speeds and boost factor and a non-negative increase rate. Outside
   * them `PlayerMovement`'s boost division can produce NaN or an infinity.
   */
  predicate Sound(k: Tuning) {
    k.startSpeed > 0.0 && k.maxSpeed > 0.0 && k.speedBoostMultiplier > 0.0 && k.speedIncreasePerDistance >= 0.0
  }

  /** The player's mutable state; `x` is the horizontal position. */
  datatype Runner = Runner(
    x: real,
    speed: real,
    distance: real,
    dead: bool,
    collided: bool,
    shield: bool,
    boost: bool,
    speedBeforeBoost: real,
    shieldTimer: real,
    boostTimer: real)

  /** What keeps every division of the model defined: speed positive, distance non-negative, a boost remembers a positive speed. */
  predicate Healthy(r: Runner) {
    r.speed > 0.0 && r.distance >= 0.0 && (r.boost ==> r.speedBeforeBoost > 0.0)
  }

  function Min(a: real, b: real): real {
    if a <= b then a else b
  }

  /** `IncreaseSpeed`: add distance / 100 * rate * dt, then clamp to the maximum. */
  function Increased(r: Runner, k: Tuning, dt: real): Runner
  {
    r.(speed := Min(r.speed + r.distance / 100.0 * k.speedIncreasePerDistance * dt, k.maxSpeed))
  }

  /** `ActivateShield`. */
  function ShieldOn(r: Runner, k: Tuning): Runner
  {
    r.(shield := true, shieldTimer := k.shieldDuration)
  }

  /** `DeactivateShield`. */
  function ShieldOff(r: Runner): Runner
  {
    r.(shield := false, shieldTimer := 0.0)
  }

  /** `ActivateSpeedBoost`: only when not boosted already. */
  function BoostOn(r: Runner, k: Tuning): Runner
  {
    if r.boost then r
    else r.(boost := true, boostTimer := k.speedBoostDuration, speedBeforeBoost := r.speed,
             speed := r.speed * k.speedBoostMultiplier)
  }

  /** `DeactivateSpeedBoost`, with `PlayerMovement`'s ratio computation: only when boosted. */
  function BoostOff(r: Runner, k: Tuning): Runner
    requires r.boost ==> r.speedBeforeBoost != 0.0 && k.speedBoostMultiplier != 0.0
  {
    if !r.boost then r
    else r.(boost := false, boostTimer := 0.0,
             speed := r.speedBeforeBoost * (r.speed / (r.speedBeforeBoost * k.speedBoostMultiplier)))
  }

  /** The shield half of `UpdatePowerUps`. */
  function ShieldTick(r: Runner, dt: real): Runner
  {
    if !r.shield then r
    else if r.shieldTimer - dt <= 0.0 then ShieldOff(r)
    else r.(shieldTimer := r.shieldTimer - dt)
  }

  /** The boost half of `UpdatePowerUps`. */
  function BoostTick(r: Runner, k: Tuning, dt: real): Runner
    requires r.boost ==> r.speedBeforeBoost != 0.0 && k.speedBoostMultiplier != 0.0
  {
    if !r.boost then r
    else if r.boostTimer - dt <= 0.0 then BoostOff(r, k)
    else r.(boostTimer := r.boostTimer - dt)
  }

  /** `UpdatePowerUps`: count both timers down by `dt`, switching off what ran out. */
  function PowerUpTick(r: Runner, k: Tuning, dt: real): Runner
    requires r.boost ==> r.speedBeforeBoost != 0.0 && k.speedBoostMultiplier != 0.0
  {
    BoostTick(ShieldTick(r, dt), k, dt)
  }

  /** `Update`: nothing once dead; otherwise speed up, tick the power-ups, then travel `speed * dt`. */
  function Step(r: Runner, k: Tuning, dt: real): Runner
    requires Sound(k) && Healthy(r)
  {
    if r.dead then r
    else
      var u := PowerUpTick(Increased(r, k, dt), k, dt);
      u.(distance := u.distance + u.speed * dt)
  }

  /** `HandleJumpInput`: a press (a touch only when touch controls are on) while grounded jumps. */
  function Jumps(k: Tuning, grounded: bool, touchBegan: bool, spaceDown: bool, mouseDown: bool): bool
  {
    ((k.useTouchControls && touchBegan) || spaceDown || mouseDown) && grounded
  }

  /** `Die` spends a shield on an obstacle hit. */
  predicate Shielded(r: Runner) {
    r.collided && r.shield
  }

  /** Whether `Die` ends the run (and reports game over). */
  predicate Kills(r: Runner) {
    !r.dead && !Shielded(r)
  }

  /** `Die`: nothing once dead; a shielded obstacle hit moves the player 3 ahead and spends the shield; anything else kills. */
  function Died(r: Runner): Runner
  {
    if r.dead then r
    else if Shielded(r) then ShieldOff(r).(x := r.x + 3.0, collided := false)
    else r.(dead := true)
  }

  /** `OnCollisionEnter2D` with an object of tag `tag`. */
  function Collided(r: Runner, tag: Tag): Runner
  {
    if tag == Obstacles then Died(r.(collided := true))
    else if tag == Water then Died(r)
    else r
  }

  /** Whether a collision with `tag` reports game over. */
  predicate CollisionKills(r: Runner, tag: Tag) {
    (tag == Obstacles && Kills(r.(collided := true))) || (tag == Water && Kills(r))
  }

  /** `OnTriggerEnter2D` with an object of tag `tag`; a coin goes to the manager and leaves the runner alone. */
  function Touched(r: Runner, k: Tuning, tag: Tag): Runner
  {
    if tag == Shield then ShieldOn(r, k)
    else if tag == SpeedBoost then BoostOn(r, k)
    else r
  }

  /**
   * `ResetPlayer`: alive, start speed, no distance, at the default position,
   * then both power-ups switched off. The obstacle flag is left as it was.
   */
  function Restarted(r: Runner, k: Tuning): Runner
    requires r.boost ==> r.speedBeforeBoost != 0.0 && k.speedBoostMultiplier != 0.0
  {
    BoostOff(ShieldOff(r.(dead := false, speed := k.startSpeed, distance := 0.0, x := k.defaultX)), k)
  }

  // ---- runner properties ----

  /** After `IncreaseSpeed` the speed is at most the maximum, and it never drops while it was within it. */
  lemma IncreaseSpeedBounds(r: Runner, k: Tuning, dt: real)
    ensures Increased(r, k, dt).speed <= k.maxSpeed
    ensures r.speed <= k.maxSpeed && r.distance >= 0.0 && dt >= 0.0 && k.speedIncreasePerDistance >= 0.0 ==>
              Increased(r, k, dt).speed >= r.speed
    ensures var raised := r.speed + r.distance / 100.0 * k.speedIncreasePerDistance * dt;
            Increased(r, k, dt).speed == (if raised <= k.maxSpeed then raised else k.maxSpeed)
  {
    if r.distance >= 0.0 && dt >= 0.0 && k.speedIncreasePerDistance >= 0.0 {
      assert r.distance / 100.0 >= 0.0;
      assert r.distance / 100.0 * k.speedIncreasePerDistance >= 0.0;
    }
  }

  /** Boosting multiplies the speed and remembers the old one; boosting again changes nothing. */
  lemma BoostOnEffect(r: Runner, k: Tuning)
    ensures r.boost ==> BoostOn(r, k) == r
    ensures !r.boost ==>
              var u := BoostOn(r, k);
              u.boost && u.boostTimer == k.speedBoostDuration && u.speedBeforeBoost == r.speed
              && u.speed == r.speed * k.speedBoostMultiplier
              && u.(boost := false, boostTimer := r.boostTimer, speedBeforeBoost := r.speedBeforeBoost, speed := r.speed) == r
  {
  }

  /** Ending a boost divides the current speed by the boost factor, whatever the speed grew to meanwhile. */
  lemma BoostOffDivides(r: Runner, k: Tuning)
    requires r.boost ==> r.speedBeforeBoost != 0.0 && k.speedBoostMultiplier != 0.0
    ensures !r.boost ==> BoostOff(r, k) == r
    ensures r.boost ==>
              var u := BoostOff(r, k);
              !u.boost && u.boostTimer == 0.0 && u.speed == r.speed / k.speedBoostMultiplier
  {
    if r.boost {
      var b, m, s := r.speedBeforeBoost, k.speedBoostMultiplier, r.speed;
      assert b != 0.0 && m != 0.0;
      calc {
        b * (s / (b * m));
        b * s / (b * m);
        { assert b * s == (b * m) * (s / m); }
        s / m;
      }
    }
  }

  /** Activating a boost and ending it straight away restores the speed. */
  lemma BoostRoundTrip(r: Runner, k: Tuning)
    requires !r.boost && r.speed != 0.0 && k.speedBoostMultiplier != 0.0
    ensures BoostOff(BoostOn(r, k), k) == r.(speedBeforeBoost := r.speed, boostTimer := 0.0)
  {
    var u := BoostOn(r, k);
    assert u.speedBeforeBoost != 0.0;
    BoostOffDivides(u, k);
    assert u.speed / k.speedBoostMultiplier == r.speed;
  }

  /** A power-up stays on exactly while its timer, counted down by `dt`, stays positive; one that runs out is switched off with its timer at 0. */
  lemma PowerUpTickEffect(r: Runner, k: Tuning, dt: real)
    requires r.boost ==> r.speedBeforeBoost != 0.0 && k.speedBoostMultiplier != 0.0
    ensures var u := PowerUpTick(r, k, dt);
            && u.shield == (r.shield && r.shieldTimer - dt > 0.0)
            && u.boost == (r.boost && r.boostTimer - dt > 0.0)
            && (r.shield ==> u.shieldTimer == (if r.shieldTimer - dt > 0.0 then r.shieldTimer - dt else 0.0))
            && (r.boost ==> u.boostTimer == (if r.boostTimer - dt > 0.0 then r.boostTimer - dt else 0.0))
            && (!r.shield ==> u.shieldTimer == r.shieldTimer)
            && (!r.boost ==> u.boostTimer == r.boostTimer && u.speed == r.speed)
            && (r.boost && r.boostTimer - dt > 0.0 ==> u.speed == r.speed)
            && (r.boost && r.boostTimer - dt <= 0.0 ==> u.speed == r.speed / k.speedBoostMultiplier)
  {
    var s := ShieldTick(r, dt);
    BoostOffDivides(s, k);
  }

  /** Re-arming: picking up a shield always restarts its timer, whether or not one was on. */
  lemma ShieldRearms(r: Runner, k: Tuning, dt: real)
    ensures ShieldOn(r, k).shield && ShieldOn(r, k).shieldTimer == k.shieldDuration
    ensures ShieldOn(ShieldTick(r, dt), k) == ShieldOn(r, k)
  {
  }

  /** A dead player stays as it is under `Update` and `Die`. */
  lemma DeadIsFinal(r: Runner, k: Tuning, dt: real)
    requires Sound(k) && Healthy(r) && r.dead
    ensures Step(r, k, dt) == r && Died(r) == r && !Kills(r)
  {
  }

  /** The three outcomes of `Die`. */
  lemma DieOutcomes(r: Runner)
    ensures r.dead ==> Died(r) == r
    ensures !r.dead && Shielded(r) ==>
              var u := Died(r);
              !u.dead && !u.shield && u.shieldTimer == 0.0 && u.x == r.x + 3.0 && !u.collided
              && u.(x := r.x, collided := true, shield := true, shieldTimer := r.shieldTimer) == r
    ensures Kills(r) ==> Died(r) == r.(dead := true)
  {
  }

  /** A shield does not save the player from water, as long as no obstacle flag is pending. */
  lemma WaterKillsShielded(r: Runner)
    requires !r.dead && !r.collided && r.shield
    ensures Collided(r, Water).dead && CollisionKills(r, Water)
  {
  }

  /** An obstacle hit with a shield is survived and clears the flag. */
  lemma ObstacleSpendsShield(r: Runner)
    requires !r.dead && r.shield
    ensures !Collided(r, Obstacles).dead && !Collided(r, Obstacles).shield && !CollisionKills(r, Obstacles)
  {
  }

  /**
   * An obstacle death leaves the obstacle flag set through `ResetPlayer`, so in the
   * next run a shield also saves the player from the first water hit.
   */
  lemma StaleObstacleFlag(r: Runner, k: Tuning)
    requires !r.dead && !r.shield && !r.boost
    ensures var dead := Collided(r, Obstacles);
            var revived := Restarted(dead, k);
            var armed := Touched(revived, k, Shield);
            && dead.dead && CollisionKills(r, Obstacles)
            && dead.collided && revived.collided && !revived.dead
            && !CollisionKills(armed, Water) && !Collided(armed, Water).dead
  {
  }

  /**
   * After `ResetPlayer` the player is alive with no distance, at the default
   * position and with both power-ups off; the speed is the start speed, or
   * the start speed divided by the boost factor when a boost was on, because
   * the boost ends after the speed is reset.
   */
  lemma RestartEffect(r: Runner, k: Tuning)
    requires r.boost ==> r.speedBeforeBoost != 0.0 && k.speedBoostMultiplier != 0.0
    ensures var u := Restarted(r, k);
            && !u.dead && u.distance == 0.0 && u.x == k.defaultX
            && !u.shield && u.shieldTimer == 0.0 && !u.boost
            && u.speed == (if r.boost then k.startSpeed / k.speedBoostMultiplier else k.startSpeed)
            && u.collided == r.collided
            && (r.boost ==> u.boostTimer == 0.0) && (!r.boost ==> u.boostTimer == r.boostTimer)
  {
    var mid := ShieldOff(r.(dead := false, speed := k.startSpeed, distance := 0.0, x := k.defaultX));
    BoostOffDivides(mid, k);
  }

  lemma BoostOnKeepsHealthy(r: Runner, k: Tuning)
    requires Sound(k) && Healthy(r)
    ensures Healthy(BoostOn(r, k))
  {
  }

  lemma BoostOffKeepsHealthy(r: Runner, k: Tuning)
    requires Sound(k) && Healthy(r)
    ensures Healthy(BoostOff(r, k)) && BoostOff(r, k).distance == r.distance
  {
    BoostOffDivides(r, k);
    if r.boost {
      assert r.speed / k.speedBoostMultiplier > 0.0;
    }
  }

  /** `Update` keeps the runner healthy. */
  lemma StepKeepsHealthy(r: Runner, k: Tuning, dt: real)
    requires Sound(k) && Healthy(r) && dt >= 0.0
    ensures Healthy(Step(r, k, dt))
  {
    if !r.dead {
      var a := Increased(r, k, dt);
      IncreaseSpeedBounds(r, k, dt);
      assert Healthy(a) by {
        if r.speed <= k.maxSpeed {
          assert a.speed >= r.speed;
        } else {
          assert a.speed == k.maxSpeed || a.speed >= r.speed;
        }
      }
      var s := ShieldTick(a, dt);
      assert Healthy(s);
      BoostOffKeepsHealthy(s, k);
      var u := BoostTick(s, k, dt);
      assert Healthy(u);
      assert u.speed * dt >= 0.0;
    }
  }

  /** A reset player is healthy whatever state it was reset from. */
  lemma RestartedHealthy(r: Runner, k: Tuning)
    requires Sound(k) && Healthy(r)
    ensures Healthy(Restarted(r, k))
  {
    var mid := ShieldOff(r.(dead := false, speed := k.startSpeed, distance := 0.0, x := k.defaultX));
    BoostOffKeepsHealthy(mid, k);
  }

  // ---- the game flow ----

  /** A C# `int`. */
  newtype int32 = x: int | -0x8000_0000 <= x < 0x8000_0000

  /** `totalCoins++` on a C# `int`: one more, modulo 2^32, wrapping from the largest value to the smallest. */
  function Increment(c: int32): (r: int32)
    ensures (r as int - c as int) % 0x1_0000_0000 == 1
    ensures c < 0x7fff_ffff ==> r as int == c as int + 1
    ensures c == 0x7fff_ffff ==> r == -0x8000_0000
  {
    if c == 0x7fff_ffff then -0x8000_0000 else c + 1
  }

  /** `PlayerPrefs.GetInt(key, fallback)`: the stored value, or the fallback when none is stored. */
  function Stored(saved: Option<int32>, fallback: int32): (r: int32)
    ensures saved.Some? ==> r == saved.value
    ensures saved.None? ==> r == fallback
  {
    if saved.Some? then saved.value else fallback
  }

  /** The manager's state: the flags, the engine's time scale, the coin counter and the stored coin count. */
  datatype Flow = Flow(gameOver: bool, paused: bool, timeScale: real, coins: int32, saved: Option<int32>)

  /** The time scale agrees with the flags: frozen while paused or over, running otherwise. */
  predicate Consistent(f: Flow) {
    f.timeScale == (if f.paused || f.gameOver then 0.0 else 1.0)
  }

  /** The stored count is the counter. */
  predicate Synced(f: Flow) {
    f.saved == Some(f.coins)
  }

  function Over(f: Flow): Flow
  {
    if f.gameOver then f else f.(gameOver := true, timeScale := 0.0)
  }

  function Paused(f: Flow): Flow
  {
    if f.gameOver || f.paused then f else f.(paused := true, timeScale := 0.0)
  }

  function Resumed(f: Flow): Flow
  {
    if !f.paused then f else f.(paused := false, timeScale := 1.0)
  }

  /** The ESC handling of `Update`. */
  function Escaped(f: Flow, escapeDown: bool): Flow
  {
    if escapeDown && !f.gameOver then (if f.paused then Resumed(f) else Paused(f)) else f
  }

  /** The manager's part of `RestartGame`. */
  function Rerun(f: Flow): Flow
  {
    f.(timeScale := 1.0, gameOver := false, paused := false)
  }

  function CoinAdded(f: Flow): Flow
  {
    var c := Increment(f.coins);
    f.(coins := c, saved := Some(c))
  }

  function CoinsCleared(f: Flow): Flow
  {
    f.(coins := 0, saved := Some(0))
  }

  /** Start: both flags cleared, the counter loaded with a default of 100; the time scale is left alone. */
  function Begun(saved: Option<int32>, timeScale: real): Flow
  {
    Flow(false, false, timeScale, Stored(saved, 100), saved)
  }

  // ---- flow properties ----

  /** Game over is idempotent; its first call sets the flag and freezes time. */
  lemma OverIdempotent(f: Flow)
    ensures Over(Over(f)) == Over(f)
    ensures Over(f).gameOver
    ensures !f.gameOver ==> Over(f).timeScale == 0.0 && Over(f).(gameOver := false, timeScale := f.timeScale) == f
  {
  }

  /** Pausing is refused when over or already paused, and otherwise freezes time. */
  lemma PauseGuard(f: Flow)
    ensures f.gameOver || f.paused ==> Paused(f) == f
    ensures !f.gameOver && !f.paused ==> Paused(f).paused && Paused(f).timeScale == 0.0 && Paused(f).(paused := false, timeScale := f.timeScale) == f
  {
  }

  /** Resuming is refused when not paused, and otherwise restores time. */
  lemma ResumeGuard(f: Flow)
    ensures !f.paused ==> Resumed(f) == f
    ensures f.paused ==> !Resumed(f).paused && Resumed(f).timeScale == 1.0 && Resumed(f).(paused := true, timeScale := f.timeScale) == f
  {
  }

  /** ESC twice is no change while the game is running; after game over ESC does nothing. */
  lemma EscapeToggles(f: Flow)
    requires Consistent(f)
    ensures f.gameOver ==> Escaped(f, true) == f
    ensures !f.gameOver ==> Escaped(f, true).paused == !f.paused && Escaped(Escaped(f, true), true) == f
    ensures Escaped(f, false) == f
  {
  }

  /** Every transition but one keeps the time scale in line with the flags. */
  lemma TransitionsKeepConsistent(f: Flow, escapeDown: bool)
    requires Consistent(f)
    ensures Consistent(Over(f)) && Consistent(Paused(f)) && Consistent(Escaped(f, escapeDown))
    ensures Consistent(Rerun(f)) && Consistent(CoinAdded(f)) && Consistent(CoinsCleared(f))
    ensures !(f.paused && f.gameOver) ==> Consistent(Resumed(f))
  {
  }

  /** The exception: `ResumeGame` does not check for game over, so resuming a game that ended while paused runs time again. */
  lemma ResumeAfterOver(f: Flow)
    requires f.paused && f.gameOver
    ensures Resumed(f).gameOver && Resumed(f).timeScale == 1.0 && !Consistent(Resumed(f))
  {
  }

  /** Adding a coin raises the counter by one (modulo 2^32) and stores it; clearing stores 0. */
  lemma CoinsStored(f: Flow)
    ensures Synced(CoinAdded(f)) && (CoinAdded(f).coins as int - f.coins as int) % 0x1_0000_0000 == 1
    ensures Synced(CoinsCleared(f)) && CoinsCleared(f).coins == 0
    ensures CoinAdded(f).(coins := f.coins, saved := f.saved) == f
  {
  }

  /** Start clears both flags, and loads the stored count or 100 when none is stored. */
  lemma BegunEffect(saved: Option<int32>, timeScale: real)
    ensures var f := Begun(saved, timeScale);
            !f.gameOver && !f.paused && f.saved == saved
            && (saved.Some? ==> Synced(f)) && (saved.None? ==> f.coins == 100)
  {
  }

  /** The components `RestartGame` resets, when they are set. */
  function Targets(player: Option<PlayerMovement>, levels: Option<Levels.LevelSpawner>,
                   backgrounds: Option<Backgrounds.BackgroundSpawner>): set<object>
  {
    (if player.Some? then {player.value} else {})
    + (if levels.Some? then {levels.value, levels.value.world} else {})
    + (if backgrounds.Some? then {backgrounds.value, backgrounds.value.world} else {})
  }

  class GameManager {
    const player: Option<PlayerMovement>
    const levelSpawner: Option<Levels.LevelSpawner>
    const backgroundSpawner: Option<Backgrounds.BackgroundSpawner>

    var isGameOver: bool
    var isPaused: bool
    /** The engine's `Time.timeScale`, which only this script writes. */
    var timeScale: real
    var totalCoins: int32
    /** The value stored under the coin key in the player preferences, if any. */
    var savedCoins: Option<int32>

    ghost function State(): Flow
      reads this
    {
      Flow(isGameOver, isPaused, timeScale, totalCoins, savedCoins)
    }

    /**
     * Start, with the scene's references, the stored coin value and the
     * current time scale as parameters.
     */
    constructor (player: Option<PlayerMovement>, levelSpawner: Option<Levels.LevelSpawner>,
                 backgroundSpawner: Option<Backgrounds.BackgroundSpawner>, savedCoins: Option<int32>, timeScale: real)
      ensures this.player == player && this.levelSpawner == levelSpawner && this.backgroundSpawner == backgroundSpawner
      ensures State() == Begun(savedCoins, timeScale)
    {
      this.player := player;
      this.levelSpawner := levelSpawner;
      this.backgroundSpawner := backgroundSpawner;
      this.timeScale := timeScale;
      this.savedCoins := savedCoins;
      isGameOver := false;
      isPaused := false;
      totalCoins := Stored(savedCoins, 100);
    }

    /** One frame: ESC toggles pause unless the game is over. */
    method Update(escapeDown: bool)
      modifies this`isPaused, this`timeScale
      ensures State() == Escaped(old(State()), escapeDown)
    {
      if escapeDown && !isGameOver {
        if isPaused {
          ResumeGame();
        } else {
          PauseGame();
        }
      }
    }

    method GameOver()
      modifies this`isGameOver, this`timeScale
      ensures State() == Over(old(State()))
    {
      if isGameOver {
        return;
      }
      isGameOver := true;
      timeScale := 0.0;
    }

    method PauseGame()
      modifies this`isPaused, this`timeScale
      ensures State() == Paused(old(State()))
    {
      if isGameOver || isPaused {
        return;
      }
      isPaused := true;
      timeScale := 0.0;
    }

    method ResumeGame()
      modifies this`isPaused, this`timeScale
      ensures State() == Resumed(old(State()))
    {
      if !isPaused {
        return;
      }
      isPaused := false;
      timeScale := 1.0;
    }

    /**
     * Clears both flags, runs time again, and resets the player, then the
     * level spawner, then the background spawner, each only when it is set.
     */
    method RestartGame()
      requires player.Some? ==> player.value.Valid()
      requires levelSpawner.Some? ==> levelSpawner.value.Valid()
      requires backgroundSpawner.Some? ==> backgroundSpawner.value.Valid()
      modifies this`isGameOver, this`isPaused, this`timeScale, Targets(player, levelSpawner, backgroundSpawner)
      ensures State() == Rerun(old(State()))
      ensures player.Some? ==>
                var p := player.value;
                p.State() == Restarted(old(p.State()), p.tuning) && p.Valid() && p.gameManager == old(p.gameManager)
      ensures levelSpawner.Some? ==>
                var ls := levelSpawner.value;
                ls.State() == Levels.Reset(old(ls.State()), ls.levelLength, ls.defaultLevelPrefab) && ls.Valid()
      ensures backgroundSpawner.Some? ==>
                var bs := backgroundSpawner.value;
                var u := Backgrounds.Reset(old(bs.State()), bs.InitialCount(), bs.backgroundWidth);
                && bs.backgroundPool == u.pool && bs.activeBackgrounds == u.active && bs.nextSpawnX == u.next
                && bs.Valid()
    {
      timeScale := 1.0;
      isGameOver := false;
      isPaused := false;
      if player.Some? {
        player.value.ResetPlayer();
      }
      label PlayerReset:
      if levelSpawner.Some? {
        var ls := levelSpawner.value;
        assert ls.State() == old(ls.State());
        ls.ResetSpawner();
      }
      label LevelsReset:
      if backgroundSpawner.Some? {
        var bs := backgroundSpawner.value;
        ghost var t := bs.State();
        assert t == old(bs.State()).(nextId := bs.world.nextId);
        Backgrounds.TidyLater(old(bs.State()), Iterations(bs.poolSize), bs.world.nextId);
        bs.ResetSpawner();
        Backgrounds.ResetKeepsAllocator(old(bs.State()), bs.InitialCount(), bs.backgroundWidth, t.nextId);
        assert bs.world.nextId == t.nextId;
      }
      assert player.Some? ==> player.value.State() == old@PlayerReset(player.value.State());
      assert levelSpawner.Some? ==> levelSpawner.value.State() == old@LevelsReset(levelSpawner.value.State());
    }

    method AddCoin()
      modifies this`totalCoins, this`savedCoins
      ensures State() == CoinAdded(old(State()))
    {
      totalCoins := Increment(totalCoins);
      savedCoins := Some(totalCoins);
    }

    method ResetAllCoins()
      modifies this`totalCoins, this`savedCoins
      ensures State() == CoinsCleared(old(State()))
    {
      totalCoins := 0;
      savedCoins := Some(0);
    }
  }

  class PlayerMovement {
    const tuning: Tuning
    /** Wired by the scene once the manager exists. */
    var gameManager: GameManager

    var x: real
    var currentSpeed: real
    var distanceTraveled: real
    var isDead: bool
    var collidedbyObstacles: bool
    var hasShield: bool
    var hasSpeedBoost: bool
    var speedBeforeBoost: real
    var shieldTimer: real
    var speedBoostTimer: real

    ghost function State(): Runner
      reads this
    {
      Runner(x, currentSpeed, distanceTraveled, isDead, collidedbyObstacles, hasShield, hasSpeedBoost,
             speedBeforeBoost, shieldTimer, speedBoostTimer)
    }

    ghost predicate Valid()
      reads this
    {
      Sound(tuning) && Healthy(State())
    }

    /** Start: the start speed; every flag, timer and the distance at the engine's defaults. */
    constructor (tuning: Tuning, gameManager: GameManager, x: real)
      requires Sound(tuning)
      ensures this.tuning == tuning && this.gameManager == gameManager
      ensures State() == Runner(x, tuning.startSpeed, 0.0, false, false, false, false, 0.0, 0.0, 0.0)
      ensures Valid()
    {
      this.tuning := tuning;
      this.gameManager := gameManager;
      this.x := x;
      currentSpeed := tuning.startSpeed;
      distanceTraveled := 0.0;
      isDead := false;
      collidedbyObstacles := false;
      hasShield := false;
      hasSpeedBoost := false;
      speedBeforeBoost := 0.0;
      shieldTimer := 0.0;
      speedBoostTimer := 0.0;
    }

    /** One frame of `dt` seconds; `jumped` tells whether the jump input fired on the ground. */
    method Update(dt: real, grounded: bool, touchBegan: bool, spaceDown: bool, mouseDown: bool) returns (jumped: bool)
      requires Valid() && dt >= 0.0
      modifies this
      ensures Valid()
      ensures State() == Step(old(State()), tuning, dt)
      ensures jumped == (!old(isDead) && Jumps(tuning, grounded, touchBegan, spaceDown, mouseDown))
      ensures gameManager == old(gameManager)
    {
      StepKeepsHealthy(State(), tuning, dt);
      if isDead {
        return false;
      }
      jumped := HandleJumpInput(grounded, touchBegan, spaceDown, mouseDown);
      IncreaseSpeed(dt);
      UpdatePowerUps(dt);
      distanceTraveled := distanceTraveled + currentSpeed * dt;
    }

    method HandleJumpInput(grounded: bool, touchBegan: bool, spaceDown: bool, mouseDown: bool) returns (jumped: bool)
      ensures jumped == Jumps(tuning, grounded, touchBegan, spaceDown, mouseDown)
    {
      var jumpPressed := false;
      if tuning.useTouchControls {
        if touchBegan {
          jumpPressed := true;
        }
      }
      if spaceDown || mouseDown {
        jumpPressed := true;
      }
      jumped := jumpPressed && grounded;
    }

    method IncreaseSpeed(dt: real)
      modifies this`currentSpeed
      ensures State() == Increased(old(State()), tuning, dt)
    {
      var distanceSpeedIncrease := distanceTraveled / 100.0 * tuning.speedIncreasePerDistance * dt;
      currentSpeed := currentSpeed + distanceSpeedIncrease;
      currentSpeed := Min(currentSpeed, tuning.maxSpeed);
    }

    method UpdatePowerUps(dt: real)
      requires hasSpeedBoost ==> speedBeforeBoost != 0.0 && tuning.speedBoostMultiplier != 0.0
      modifies this`hasShield, this`shieldTimer, this`hasSpeedBoost, this`speedBoostTimer, this`currentSpeed
      ensures State() == PowerUpTick(old(State()), tuning, dt)
    {
      if hasShield {
        shieldTimer := shieldTimer - dt;
        if shieldTimer <= 0.0 {
          DeactivateShield();
        }
      }
      if hasSpeedBoost {
        speedBoostTimer := speedBoostTimer - dt;
        if speedBoostTimer <= 0.0 {
          DeactivateSpeedBoost();
        }
      }
    }

    method ActivateShield()
      modifies this`hasShield, this`shieldTimer
      ensures State() == ShieldOn(old(State()), tuning)
    {
      hasShield := true;
      shieldTimer := tuning.shieldDuration;
    }

    method DeactivateShield()
      modifies this`hasShield, this`shieldTimer
      ensures State() == ShieldOff(old(State()))
    {
      hasShield := false;
      shieldTimer := 0.0;
    }

    method ActivateSpeedBoost()
      modifies this`hasSpeedBoost, this`speedBoostTimer, this`speedBeforeBoost, this`currentSpeed
      ensures State() == BoostOn(old(State()), tuning)
    {
      if !hasSpeedBoost {
        hasSpeedBoost := true;
        speedBoostTimer := tuning.speedBoostDuration;
        speedBeforeBoost := currentSpeed;
        currentSpeed := currentSpeed * tuning.speedBoostMultiplier;
      }
    }

    method DeactivateSpeedBoost()
      requires hasSpeedBoost ==> speedBeforeBoost != 0.0 && tuning.speedBoostMultiplier != 0.0
      modifies this`hasSpeedBoost, this`speedBoostTimer, this`currentSpeed
      ensures State() == BoostOff(old(State()), tuning)
    {
      if hasSpeedBoost {
        hasSpeedBoost := false;
        speedBoostTimer := 0.0;
        var speedRatio := currentSpeed / (speedBeforeBoost * tuning.speedBoostMultiplier);
        currentSpeed := speedBeforeBoost * speedRatio;
      }
    }

    /** Spends a shield on an obstacle hit, or ends the run and reports game over. */
    method Die()
      modifies this`x, this`isDead, this`collidedbyObstacles, this`hasShield, this`shieldTimer,
               gameManager`isGameOver, gameManager`timeScale
      ensures State() == Died(old(State()))
      ensures Kills(old(State())) ==> gameManager.State() == Over(old(gameManager.State()))
      ensures !Kills(old(State())) ==> gameManager.State() == old(gameManager.State())
    {
      if isDead {
        return;
      }
      if collidedbyObstacles {
        if hasShield {
          x := x + 3.0;
          DeactivateShield();
          collidedbyObstacles := false;
          return;
        }
      }
      isDead := true;
      gameManager.GameOver();
    }

    /** Back to the start of a run; the obstacle flag is kept. */
    method ResetPlayer()
      requires Valid()
      modifies this
      ensures State() == Restarted(old(State()), tuning)
      ensures Valid()
      ensures gameManager == old(gameManager)
    {
      RestartedHealthy(State(), tuning);
      isDead := false;
      currentSpeed := tuning.startSpeed;
      distanceTraveled := 0.0;
      x := tuning.defaultX;
      DeactivateShield();
      DeactivateSpeedBoost();
    }

    /** A collision with an object tagged `tag`. */
    method OnCollisionEnter(tag: Tag)
      requires Valid()
      modifies this`x, this`isDead, this`collidedbyObstacles, this`hasShield, this`shieldTimer,
               gameManager`isGameOver, gameManager`timeScale
      ensures Valid()
      ensures State() == Collided(old(State()), tag)
      ensures CollisionKills(old(State()), tag) ==> gameManager.State() == Over(old(gameManager.State()))
      ensures !CollisionKills(old(State()), tag) ==> gameManager.State() == old(gameManager.State())
    {
      if tag == Obstacles {
        collidedbyObstacles := true;
        Die();
      }
      if tag == Water {
        Die();
      }
    }

    /** Entering the trigger of an object tagged `tag`: a power-up is consumed, a coin is counted. */
    method OnTriggerEnter(tag: Tag)
      requires Valid()
      modifies this`hasShield, this`shieldTimer, this`hasSpeedBoost, this`speedBoostTimer, this`speedBeforeBoost,
               this`currentSpeed, gameManager`totalCoins, gameManager`savedCoins
      ensures Valid()
      ensures State() == Touched(old(State()), tuning, tag)
      ensures tag == Coin ==> gameManager.State() == CoinAdded(old(gameManager.State()))
      ensures tag != Coin ==> gameManager.State() == old(gameManager.State())
    {
      if tag == Shield {
        ActivateShield();
      }
      if tag == SpeedBoost {
        BoostOnKeepsHealthy(State(), tuning);
        ActivateSpeedBoost();
      }
      if tag == Coin {
        gameManager.AddCoin();
      }
    }
  }
}
