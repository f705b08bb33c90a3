# Endless runner: spawners, runner and game flow

The project models the bookkeeping of five scripts of a 2D endless-runner game.

- **Background spawner.** It keeps a queue of idle background tiles and a list of placed ones. Each tick it places at most one tile ahead of the player, at the spawn cursor, and advances the cursor by one tile width. Then it sweeps every placed tile that fell behind the player back into the queue.
- **Level spawner.** It keeps a queue of idle level segments and an ordered list of placed ones, one `levelLength` apart. A default segment sits at the origin. A tick appends a randomly chosen segment when the player comes within two lengths of the cursor. It also evicts the head segment once the player is a full length past it. Eviction first takes the segment off the placed list, then despawns its power-ups. Then a default segment is destroyed, and any other goes back to the queue.
- **Power-up spawner.** Every spawner shares two process-wide queues, one of shields and one of speed boosts. Each spawner also keeps its own list of placed power-ups. A spawn pass is gated by a level-wide roll, then by one roll per spawn point, and a type roll picks the kind. A `hasSpawned` flag stops a second pass until everything is despawned.
- **Player.** The runner's speed grows with distance up to a maximum. A shield and a speed boost each run on a timer that counts down once per frame. Death is triggered by obstacles and water. A shield absorbs a hit only while the obstacle flag is set. An obstacle hit sets that flag, and an absorbed hit clears it. A death leaves it set, even across a restart, so in the next run a shield also absorbs a first water hit.
- **Game manager.** It holds the game-over and pause flags, the engine's time scale and the coin counter. The counter is a C# `int` mirrored into the player preferences. The manager also restarts a run.

Engine objects are natural-number handles from one allocator, `Scene.World`, which stands for `Instantiate`. Positions, speeds and timers are `real`. Random outcomes, input events, the frame time, the player's x coordinate and the stored preference value are parameters.

Each script's state is a class whose fields the methods update. Each class has a ghost `State()` value. Each method is proved equal to a specification function of the old state: `Tick`, `Reset`, `Run`, `ReturnAll`, `Died`, `Restarted`, `Over` and so on. The properties are lemmas about those functions.

The main invariants:
- No handle is in two places (`Distinct`).
- Every handle came from the allocator (`Below`).
- Placed tiles are ordered and before the cursor.
- Placed level segments abut up to the cursor.
- No default segment waits in the level queue, provided the default prefab is not one of the random prefabs.
- The runner's speed stays positive.

Modules, one per file:

| module | file | models |
|---|---|---|
| `Scene` | `scene.dfy` | the allocator, tags, handle bookkeeping |
| `Backgrounds` | `backgrounds.dfy` | `BackgroundSpawner` |
| `PowerUps` | `powerups.dfy` | `PowerUpSpawner` and its shared queues |
| `Levels` | `levels.dfy` | `LevelSpawner` |
| `Game` | `game.dfy` | `PlayerMovement` and `GameManager` |

`PlayerMovement` and `GameManager` share one module because each calls the other: `Die` reports game over, and `RestartGame` resets the player.

## Model

| member | source | states |
|---|---|---|
| Scene.World.Instantiate | Assets/Script/PowerUpsSpawner.cs:60 | returns the allocator's next handle and advances it, so no handle is handed out twice |
| Scene.Iterations | Assets/Script/BackgroundSpawner.cs:53 | a C# `for (i = 0; i < n; i++)` runs `n` times when `n` is positive and never otherwise |
| Backgrounds.Min | Assets/Script/BackgroundSpawner.cs:41 | `Mathf.Min` on ints: a lower bound of both arguments, equal to one of them |
| Backgrounds.BackgroundSpawner.InitialCount | Assets/Script/BackgroundSpawner.cs:41 | the start row has `min(3, poolSize)` tiles, at most 3 and at most the pool size |
| Backgrounds.BackgroundSpawner.constructor | Assets/Script/BackgroundSpawner.cs:20-46 | Start: `poolSize` new tiles; the first `k = min(3, poolSize)` placed at 0, w, 2w, …; the rest idle; the cursor at `k·w`; the invariant holds |
| Backgrounds.BackgroundSpawner.InitializePool | Assets/Script/BackgroundSpawner.cs:48-60 | the pool becomes `poolSize` new consecutive handles; the placed list becomes empty |
| Backgrounds.BackgroundSpawner.GetPooledBackground | Assets/Script/BackgroundSpawner.cs:85-96 | dequeues the head of a non-empty pool; otherwise returns a new instance and leaves the pool empty |
| Backgrounds.BackgroundSpawner.SpawnBackground | Assets/Script/BackgroundSpawner.cs:75-83 | appends exactly one tile at the given x: the one `GetPooledBackground` hands out |
| Backgrounds.BackgroundSpawner.SpawnInitialBackgrounds | Assets/Script/BackgroundSpawner.cs:39-45 | the first `k` pooled tiles are placed at 0, w, 2w, …; the cursor ends at `k·w`; nothing is allocated |
| Backgrounds.BackgroundSpawner.Update | Assets/Script/BackgroundSpawner.cs:62-73 | with no player nothing changes; otherwise spawn when `px + ahead >= nextSpawnX`, then sweep; the invariant is kept |
| Backgrounds.BackgroundSpawner.RecycleOldBackgrounds | Assets/Script/BackgroundSpawner.cs:98-112 | the downward sweep enqueues the tiles behind `px - 20`, highest index first, and keeps the others in order |
| Backgrounds.BackgroundSpawner.ResetSpawner | Assets/Script/BackgroundSpawner.cs:115-132 | every placed tile goes back to the queue, last first; the start row is then laid out again; the invariant is kept |
| Backgrounds.LayoutPositions | Assets/Script/BackgroundSpawner.cs:39-45 | tile `i` of the start row is the `i`-th pooled handle, at `i·w` |
| Backgrounds.StartTidy | Assets/Script/BackgroundSpawner.cs:37-45 | the start state is tidy: handles distinct and allocated, at least `poolSize` owned, row ordered and before the cursor |
| Backgrounds.TickEffect | Assets/Script/BackgroundSpawner.cs:62-73 | a tick moves the cursor one width exactly when it was in reach; it allocates only when spawning from an empty pool; no surviving tile is behind the threshold |
| Backgrounds.TickKeepsTidy | Assets/Script/BackgroundSpawner.cs:62-112 | spawn-then-sweep keeps every handle in one place, allocated, and the row ordered before the cursor |
| Backgrounds.SpawnOwned | Assets/Script/BackgroundSpawner.cs:75-96 | a spawn moves the pool head into the row, or adds exactly the new handle when the pool is empty |
| Backgrounds.SpawnKeepsTidy | Assets/Script/BackgroundSpawner.cs:75-83 | placing at the cursor and advancing it by a positive width keeps the invariant |
| Backgrounds.SweepStep | Assets/Script/BackgroundSpawner.cs:100-111 | one iteration at index `i` removes and enqueues the tile there exactly when it is behind |
| Backgrounds.SurvivorsAreNotBehind | Assets/Script/BackgroundSpawner.cs:104-110 | a tile survives the sweep iff it was placed and is not behind the threshold |
| Backgrounds.RecycledIsBehindReversed | Assets/Script/BackgroundSpawner.cs:100-111 | the tiles enqueued are exactly those behind the threshold, highest index first |
| Backgrounds.SurvivorsIncreasing | Assets/Script/BackgroundSpawner.cs:100-111 | survivors keep their relative order, so an ordered row stays ordered |
| Backgrounds.SweepConserves | Assets/Script/BackgroundSpawner.cs:98-112 | enqueued plus surviving handles are exactly the placed handles |
| Backgrounds.SweepOwned | Assets/Script/BackgroundSpawner.cs:98-112 | a sweep keeps the owned multiset and `pool + active` counts |
| Backgrounds.SweepKeepsTidy | Assets/Script/BackgroundSpawner.cs:98-112 | a sweep keeps the owned handles and the invariant: no tile both idle and placed |
| Backgrounds.ReversedItemsIsReversed | Assets/Script/BackgroundSpawner.cs:117-122 | walking the placed list from the back enqueues the reversal of its handles |
| Backgrounds.ResetKeepsTidy | Assets/Script/BackgroundSpawner.cs:115-132 | a reset owns the same handles as before and keeps the invariant |
| PowerUps.PowerUpPools.constructor | Assets/Script/PowerUpsSpawner.cs:26-28 | the shared queues start empty and uninitialised |
| PowerUps.PowerUpSpawner.constructor | Assets/Script/PowerUpsSpawner.cs:30-31 | a spawner starts with no placed power-ups and `hasSpawned` false |
| PowerUps.PowerUpSpawner.Awake | Assets/Script/PowerUpsSpawner.cs:33-43 | the first wake fills both shared queues and marks them initialised; later wakes leave queues and allocator unchanged; the placed list is empty |
| PowerUps.PowerUpSpawner.InitializePools | Assets/Script/PowerUpsSpawner.cs:50-76 | each queue becomes `poolSize` new instances of its prefab, or empty when the prefab is missing; shields are allocated first |
| PowerUps.Batch | Assets/Script/PowerUpsSpawner.cs:56-64 | a queue holds `poolSize` entries when its prefab is set and none otherwise |
| PowerUps.PowerUpSpawner.SpawnPowerUps | Assets/Script/PowerUpsSpawner.cs:78-126 | nothing changes and `ok` holds when already spawned; a failed level roll or no spawn points sets `hasSpawned` and moves nothing; otherwise the state is the pass `Run` over every point |
| PowerUps.PowerUpSpawner.GetFromPool | Assets/Script/PowerUpsSpawner.cs:128-141 | returns the head of the chosen queue and dequeues it; with that queue empty, a new instance of the chosen prefab; with no prefab either, nothing and no change |
| PowerUps.Get | Assets/Script/PowerUpsSpawner.cs:128-141 | a non-empty chosen queue gives its head and shrinks by one; an empty one gives a new instance and stays as it was; the other queue and the placed list are unchanged; with a prefab set the request never fails |
| PowerUps.PowerUpSpawner.ReturnToPool | Assets/Script/PowerUpsSpawner.cs:143-168 | `None` changes nothing; otherwise the entity is enqueued by its tag (shield, speed boost, or neither) and its first occurrence leaves the placed list |
| PowerUps.RemoveFirst | Assets/Script/PowerUpsSpawner.cs:166-167 | `List.Remove` shortens the list by one when the entry is present and leaves it unchanged otherwise |
| PowerUps.PowerUpSpawner.DespawnAllPowerUps | Assets/Script/PowerUpsSpawner.cs:170-182 | every placed power-up, from the last index down, is enqueued by its tag; the placed list ends empty and `hasSpawned` false; nothing is allocated |
| PowerUps.StepAppends | Assets/Script/PowerUpsSpawner.cs:98-123 | a point adds at most one power-up, exactly one when it is assigned, passes its roll and the request succeeds; the list only grows at the end |
| PowerUps.RunAppends | Assets/Script/PowerUpsSpawner.cs:98-123 | a pass only appends, at most one entry per picked point, exactly one per picked point when it completes |
| PowerUps.PicksBound | Assets/Script/PowerUpsSpawner.cs:98-123 | the picked points number at most the assigned points, which number at most the spawn points |
| PowerUps.RunCompletes | Assets/Script/PowerUpsSpawner.cs:128-141 | with both prefabs set no request fails, so the pass always completes |
| PowerUps.RunStops | Assets/Script/PowerUpsSpawner.cs:108-110 | after a failed request later points change nothing |
| PowerUps.StepKinds | Assets/Script/PowerUpsSpawner.cs:104-115 | the power-up a point places is a shield iff its type roll is below `shieldChance`; the queues stay sorted by kind |
| PowerUps.RunKinds | Assets/Script/PowerUpsSpawner.cs:98-123 | in a completed pass the `j`-th new power-up is a shield iff the `j`-th picked point rolled below `shieldChance`, else a speed boost |
| PowerUps.GetKeepsDistinct | Assets/Script/PowerUpsSpawner.cs:128-141 | a request that places its power-up keeps every handle in one place and below the allocator |
| PowerUps.StepKeepsDistinct | Assets/Script/PowerUpsSpawner.cs:98-123 | one point of the pass keeps no handle in two places |
| PowerUps.RunKeepsDistinct | Assets/Script/PowerUpsSpawner.cs:98-123 | a whole pass never duplicates a power-up |
| PowerUps.RemoveFirstCount | Assets/Script/PowerUpsSpawner.cs:166-167 | `List.Remove` takes out exactly one occurrence of a present entry |
| PowerUps.ReturnedPermutes | Assets/Script/PowerUpsSpawner.cs:173-179 | the despawn loop hands back every placed entry: a permutation of the list |
| PowerUps.ReturnedIsReversed | Assets/Script/PowerUpsSpawner.cs:173-179 | with no entry placed twice, the entries come back from the last index to the first |
| PowerUps.ReturnAllShields | Assets/Script/PowerUpsSpawner.cs:170-182 | despawning appends the handed-back shields, in order, to the shield queue |
| PowerUps.ReturnAllSpeeds | Assets/Script/PowerUpsSpawner.cs:170-182 | despawning appends the handed-back speed boosts, in order, to the speed-boost queue |
| PowerUps.ReturnAllEmpties | Assets/Script/PowerUpsSpawner.cs:170-182 | despawning empties the placed list and allocates nothing |
| PowerUps.DespawnOrder | Assets/Script/PowerUpsSpawner.cs:170-182 | each queue receives the placed power-ups of its kind from the last index to the first |
| PowerUps.DespawnReturnsEvery | Assets/Script/PowerUpsSpawner.cs:170-182 | every placed shield ends in the shield queue and every placed speed boost in the speed-boost queue |
| PowerUps.ReturnKeepsAccounted | Assets/Script/PowerUpsSpawner.cs:143-168 | returning a placed power-up keeps every handle in at most one place |
| PowerUps.ReturnAllKeepsAccounted | Assets/Script/PowerUpsSpawner.cs:170-182 | despawning everything keeps every handle in at most one place |
| Levels.LevelSpawner.constructor | Assets/Script/LevelSpawner.cs:22-31 | Start: a pool of `poolSize` new levels, level `i` of `levelPrefabs[poolRolls[i]]`; placed is exactly a new default level at 0; the cursor at `levelLength`; the invariant holds |
| Levels.LevelSpawner.InitializePool | Assets/Script/LevelSpawner.cs:47-60 | the pool becomes `poolSize` new levels of the rolled prefabs, in allocation order |
| Levels.LevelSpawner.SpawnLevel | Assets/Script/LevelSpawner.cs:62-88 | the default prefab always gets a new instance; any other prefab takes the pool head (whatever its prefab), or a new instance when the pool is empty; the level is appended at x |
| Levels.LevelSpawner.SpawnRandomLevel | Assets/Script/LevelSpawner.cs:90-96 | spawns `levelPrefabs[roll]` at the cursor, then advances the cursor by `levelLength` |
| Levels.LevelSpawner.DespawnOldLevels | Assets/Script/LevelSpawner.cs:98-128 | a no-op on an empty list or a head not behind `px - levelLength`; otherwise removes index 0 and pools it unless it is a default level; the head's power-up spawner is despawned (`ReturnAll`, empty list, flag cleared) exactly then, and otherwise neither its queues, its list nor its flag change; its pools' `initialized` flag is kept |
| Levels.LevelSpawner.Update | Assets/Script/LevelSpawner.cs:33-45 | with no player nothing changes, the head power-up spawner included; otherwise spawn when in reach, then evict; the head power-up spawner is despawned exactly when the head is due after the spawn, and otherwise keeps its queues, list and flag (only a shared allocator may move); its pools' `initialized` flag is kept; the invariant is kept |
| Levels.LevelSpawner.ResetSpawner | Assets/Script/LevelSpawner.cs:130-153 | every non-default placed level is pooled in list order; placed becomes exactly a new default level at 0; the cursor at `levelLength`; the invariant is kept |
| Levels.ContiguousPositions | Assets/Script/LevelSpawner.cs:86-95 | segment `i` of `k` placed segments starts `k - i` lengths before the cursor |
| Levels.ContiguousOrdered | Assets/Script/LevelSpawner.cs:86-106 | with a positive length, placed positions strictly increase in list order and are all below the cursor |
| Levels.ContiguousSnoc | Assets/Script/LevelSpawner.cs:94-95 | appending at the cursor and advancing it by one length keeps the segments abutting |
| Levels.ContiguousTail | Assets/Script/LevelSpawner.cs:106 | removing index 0 keeps the segments abutting |
| Levels.PlaceHandles | Assets/Script/LevelSpawner.cs:62-88 | a placement keeps every level in one place and below the allocator |
| Levels.AdvanceKeepsTidy | Assets/Script/LevelSpawner.cs:90-96 | a random spawn keeps the invariant |
| Levels.EvictKeepsTidy | Assets/Script/LevelSpawner.cs:98-128 | an eviction keeps the invariant, whether the head is pooled or destroyed |
| Levels.TickKeepsTidy | Assets/Script/LevelSpawner.cs:33-45 | a tick keeps the invariant |
| Levels.TickEffect | Assets/Script/LevelSpawner.cs:33-45 | a tick spawns exactly when `px > next - 2·len`, at the old cursor, and moves the cursor one length; eviction removes at most the head, only when it is due |
| Levels.KeptNoDefault | Assets/Script/LevelSpawner.cs:133-144 | a reset pools no default level |
| Levels.KeptMembers | Assets/Script/LevelSpawner.cs:133-144 | a reset pools a level iff it was placed and is not a default level |
| Levels.KeptHandles | Assets/Script/LevelSpawner.cs:133-144 | the pooled handles are among the placed ones |
| Levels.KeptStep | Assets/Script/LevelSpawner.cs:133-144 | one iteration of the reset loop pools one more placed level unless it is a default one |
| Levels.TickKeepsNoDefault | Assets/Script/LevelSpawner.cs:116-126 | eviction never pools a default level |
| Levels.DrawnNoDefault | Assets/Script/LevelSpawner.cs:52-59 | when the default prefab is not among the random prefabs, the initial pool has no default level |
| Levels.StartTidy | Assets/Script/LevelSpawner.cs:22-31 | the start state satisfies the invariant |
| Levels.ResetKeepsTidy | Assets/Script/LevelSpawner.cs:130-153 | a reset keeps the invariant |
| Levels.ResetKeepsValid | Assets/Script/LevelSpawner.cs:130-153 | a reset keeps the invariant and keeps default levels out of the pool |
| Game.PlayerMovement.constructor | Assets/Script/PlayerMovement.cs:57-78 | Start: the start speed, alive, no distance, no power-up, every timer 0 |
| Game.PlayerMovement.Update | Assets/Script/PlayerMovement.cs:80-93 | a dead player does nothing; otherwise jump check, speed-up, power-up tick, then travel `speed·dt`; the speed stays positive; the manager link is kept |
| Game.PlayerMovement.HandleJumpInput | Assets/Script/PlayerMovement.cs:102-128 | jumps iff grounded and space, mouse, or (with touch controls) a touch began |
| Game.PlayerMovement.IncreaseSpeed | Assets/Script/PlayerMovement.cs:136-145 | the speed becomes `min(speed + distance/100·rate·dt, maxSpeed)`; nothing else changes |
| Game.PlayerMovement.UpdatePowerUps | Assets/Script/PlayerMovement.cs:208-229 | both timers count down by `dt`, and a power-up whose timer reaches ≤ 0 is switched off |
| Game.PlayerMovement.ActivateShield | Assets/Script/PlayerMovement.cs:231-240 | the shield is on with its timer at `shieldDuration` |
| Game.PlayerMovement.DeactivateShield | Assets/Script/PlayerMovement.cs:242-249 | the shield is off with its timer at 0 |
| Game.PlayerMovement.ActivateSpeedBoost | Assets/Script/PlayerMovement.cs:251-260 | no change while boosted; otherwise records the speed, starts the timer, multiplies the speed |
| Game.PlayerMovement.DeactivateSpeedBoost | Assets/Script/PlayerMovement.cs:262-273 | no change while not boosted; otherwise clears the boost and timer and applies the ratio formula |
| Game.PlayerMovement.Die | Assets/Script/PlayerMovement.cs:147-167 | a no-op once dead; an obstacle hit with a shield spends it, moves 3 ahead and clears the flag; anything else sets `isDead`; the manager gets game over exactly when the hit kills, and is untouched otherwise |
| Game.PlayerMovement.ResetPlayer | Assets/Script/PlayerMovement.cs:169-181 | alive, start speed, no distance, at the default position, then shield and boost switched off (the boost after the speed reset); the obstacle flag is kept; the speed stays positive; the manager link is kept |
| Game.PlayerMovement.OnCollisionEnter | Assets/Script/PlayerMovement.cs:284-297 | obstacles set the flag and call `Die`; water calls `Die`; the manager gets game over exactly when the hit kills |
| Game.PlayerMovement.OnTriggerEnter | Assets/Script/PlayerMovement.cs:299-320 | shield and speed-boost triggers activate their power-up; a coin adds one to the manager's counter and leaves the runner alone |
| Game.IncreaseSpeedBounds | Assets/Script/PlayerMovement.cs:136-145 | after `IncreaseSpeed` the speed is at most `maxSpeed`; it does not drop when it was within the maximum and distance, rate and dt are non-negative |
| Game.BoostOnEffect | Assets/Script/PlayerMovement.cs:251-260 | while boosted nothing changes; otherwise the speed is multiplied, the old speed recorded, the timer set, and nothing else changes |
| Game.BoostOffDivides | Assets/Script/PlayerMovement.cs:262-273 | ending a boost divides the current speed by the multiplier, whatever it grew to meanwhile |
| Game.BoostRoundTrip | Assets/Script/PlayerMovement.cs:251-273 | activating a boost and ending it at once restores the original speed |
| Game.PowerUpTickEffect | Assets/Script/PlayerMovement.cs:208-229 | a power-up stays on iff its timer minus `dt` stays positive; a run-out one is off with its timer at 0; the speed changes only when a boost runs out, then divided by the multiplier |
| Game.ShieldRearms | Assets/Script/PlayerMovement.cs:231-240 | picking up a shield always re-arms its timer to `shieldDuration`, whatever the shield's state |
| Game.DeadIsFinal | Assets/Script/PlayerMovement.cs:80-82 | once dead, `Update` and `Die` change nothing and nothing kills again |
| Game.DieOutcomes | Assets/Script/PlayerMovement.cs:147-167 | dead is a no-op; an obstacle hit with a shield spends the shield, moves the player 3 ahead and clears the flag, changing nothing else; any other hit only sets `isDead` |
| Game.WaterKillsShielded | Assets/Script/PlayerMovement.cs:292-295 | with no obstacle flag pending, water kills a shielded player and reports game over |
| Game.ObstacleSpendsShield | Assets/Script/PlayerMovement.cs:286-290 | an obstacle hit with a shield is survived, spends the shield, reports nothing |
| Game.StaleObstacleFlag | Assets/Script/PlayerMovement.cs:169-181 | after an obstacle death and `ResetPlayer` the flag is still set, so with a new shield the first water hit is survived |
| Game.RestartEffect | Assets/Script/PlayerMovement.cs:169-181 | after `ResetPlayer`: alive, no distance, at the default position, both power-ups off, the obstacle flag unchanged; the speed is `startSpeed`, or `startSpeed / speedBoostMultiplier` when a boost was on |
| Game.BoostOnKeepsHealthy | Assets/Script/PlayerMovement.cs:251-260 | a boost keeps the speed positive and remembers a positive speed |
| Game.BoostOffKeepsHealthy | Assets/Script/PlayerMovement.cs:262-273 | ending a boost keeps the speed positive and the distance unchanged |
| Game.StepKeepsHealthy | Assets/Script/PlayerMovement.cs:80-93 | a frame keeps the speed positive and the distance non-negative |
| Game.RestartedHealthy | Assets/Script/PlayerMovement.cs:169-181 | a reset player is healthy |
| Game.Increment | Assets/Script/GameManager.cs:120 | `totalCoins++` on a C# int adds one modulo 2^32, wrapping from the largest value to the smallest |
| Game.Stored | Assets/Script/GameManager.cs:38 | `PlayerPrefs.GetInt` gives the stored value, or the fallback when none is stored |
| Game.GameManager.constructor | Assets/Script/GameManager.cs:27-40 | Start: both flags false; the counter is the stored count, 100 when none is stored |
| Game.GameManager.Update | Assets/Script/GameManager.cs:42-52 | ESC resumes when paused and pauses otherwise, only while the game is not over |
| Game.GameManager.GameOver | Assets/Script/GameManager.cs:54-64 | a no-op once over; otherwise sets game over and time scale 0, leaving the pause flag and coins alone |
| Game.GameManager.PauseGame | Assets/Script/GameManager.cs:66-75 | a no-op when over or already paused; otherwise sets paused and time scale 0 |
| Game.GameManager.ResumeGame | Assets/Script/GameManager.cs:77-86 | a no-op when not paused; otherwise clears paused and sets time scale 1, without checking game over |
| Game.GameManager.RestartGame | Assets/Script/GameManager.cs:88-110 | both flags cleared, time scale 1; each component that is set is reset: player `Restarted`, keeping its manager link; level spawner `Reset`; background spawner `Reset` in its pool, row and cursor; all keep their invariants |
| Game.GameManager.AddCoin | Assets/Script/GameManager.cs:118-125 | the counter is incremented (32-bit) and the stored value set to it |
| Game.GameManager.ResetAllCoins | Assets/Script/GameManager.cs:133-139 | counter and stored value become 0 |
| Game.OverIdempotent | Assets/Script/GameManager.cs:54-64 | game over is idempotent; its first call sets the flag and time scale 0, changing nothing else |
| Game.PauseGuard | Assets/Script/GameManager.cs:66-75 | pausing is a no-op when over or paused; otherwise it sets paused and time scale 0, changing nothing else |
| Game.ResumeGuard | Assets/Script/GameManager.cs:77-86 | resuming is a no-op when not paused; otherwise it clears paused and sets time scale 1, changing nothing else |
| Game.EscapeToggles | Assets/Script/GameManager.cs:42-52 | while not over ESC flips the pause flag and twice is no change; after game over, or without ESC, nothing changes |
| Game.TransitionsKeepConsistent | Assets/Script/GameManager.cs:54-110 | every transition keeps the time scale 0 exactly while paused or over, except resuming a game that is both |
| Game.ResumeAfterOver | Assets/Script/GameManager.cs:77-86 | `ResumeGame` does not check game over: resuming an over, paused game runs time at 1 while still over |
| Game.CoinsStored | Assets/Script/GameManager.cs:118-139 | adding a coin raises the counter by one (mod 2^32) and stores it, nothing else changes; clearing stores 0 |
| Game.BegunEffect | Assets/Script/GameManager.cs:27-40 | Start clears both flags and loads the stored count, or 100 when none is stored |

## Left out

- CameraFollow, SceneLoader and `GameManager.HomeGame`: camera smoothing, scene loading and quitting are not part of this model.
- Physics: the ground check is a `grounded` parameter. Rigidbody velocities, gravity, `FixedUpdate` and the square-root jump force are not modelled. The runner's x changes only in `Die` and `ResetPlayer`; physics motion in between is not modelled.
- `Jump`: the jump is reported as the `jumped` result of `Update`; the velocity it sets is not modelled.
- Input polling: touch, keys and mouse are boolean parameters.
- The animator, `SetAnimationState`, `UpdateAnimation`, gizmo drawing and `despawnPosition` are cosmetic and left out.
- Backgrounds.BackgroundSpawner.constructor: the background width measured from the sprite bounds is a positive parameter.
- `SetActive`, collider enabling, transform parenting, level names, `Destroy` and the y/z coordinates are not modelled. An entity is only its membership in queues and lists plus an allocator handle.
- `PlayerPrefs` durability and the coin text: the stored value is the `savedCoins` field. A missing coin text makes `UpdateCoinUI` throw; that is not modelled.
- `Random.Range` outcomes are parameters. Floats are exact reals: no rounding and no overflow to infinity.
- `Time.deltaTime` is the non-negative `dt` parameter. Its dependence on the time scale is not modelled.
- `Time.timeScale` is a field of the game manager, the only script that writes it.
- Unity lifecycle ordering: each of Awake, Start and Update is an explicit method or constructor. That `SpawnPowerUps` only runs from `Start` is not modelled.
- Null references: the scripts' unchecked uses of `gameManager`, `animator`, `player` and the prefabs are assumed to be set. A destroyed (null) entry of the placed power-up list is not modelled.
- Levels.LevelSpawner.DespawnOldLevels: `LevelSpawner` recognises an evicted default level by its name containing the default prefab's name. This is modelled as equality of the level's prefab, so a random prefab whose name contains the default's name is not modelled: the script would destroy such a level, the model pools it.
- Levels.LevelSpawner.ResetSpawner: the same name test picks the levels to destroy on a reset, and is modelled the same way as prefab equality, with the same gap.
- Levels.LevelSpawner.constructor: requires every pool roll to index `levelPrefabs`. An empty array makes `SpawnRandomLevel` throw, and that exception path is not modelled. The same holds for `SpawnRandomLevel` and `Update`.
- Levels.LevelSpawner.DespawnOldLevels: the head level's `PowerUpSpawner` component is passed as a parameter. Its link to the level is not modelled.
- Levels.LevelSpawner.Valid: the queue is free of default levels only when the default prefab is not among the random prefabs. Otherwise `InitializePool` may pool a default-prefab level.
- PowerUps.PowerUpSpawner.SpawnPowerUps: when a request meets an empty queue and an unset prefab, `Instantiate(null)` throws. The model stops the pass with `ok` false and `hasSpawned` still false. A spawn point that is empty (`false`) is skipped. Its roll is still a parameter, which changes nothing because rolls are independent inputs.
- Game.PlayerMovement.constructor: requires sound settings, namely positive start speed, maximum speed and boost multiplier and a non-negative increase rate. With other settings `PlayerMovement`'s boost division can produce NaN or infinity, which reals cannot express. The same holds for `Update`, `ResetPlayer`, `OnCollisionEnter` and `OnTriggerEnter`.
- Game.PlayerMovement.UpdatePowerUps: requires a recorded non-zero speed while boosted, so that the ratio formula is defined. The same holds for `DeactivateSpeedBoost`.
- Game.GameManager.RestartGame: for the background spawner this states the queue, row and cursor. It does not state the allocator position, because the level spawner's reset may allocate from the same allocator first.
- Velocity and animator resets in `Die` and `ResetPlayer` are not modelled.
