/**
 * The level conveyor: a default segment at the origin, then segments of a fixed
 * length appended ahead of the player and evicted from the head once the player
 * is a full segment past them. Evicted segments go back to an idle queue,
 * except the default segment, which is destroyed.
 */
module Levels {
  import opened Scene
  import opened PowerUps

  /** A level instance: its handle and the prefab it was instantiated from. */
  datatype Level = Level(id: nat, prefab: nat)

  /**
   * The state of a level spawner: the idle queue, the placed segments in list
   * order, the spawn cursor `nextSpawnPosition`, and the allocator's next handle.
   */
  datatype Course = Course(pool: seq<Level>, active: seq<Placed<Level>>, next: real, nextId: nat)

  function LevelIds(s: seq<Level>): (r: seq<nat>)
    ensures |r| == |s|
  {
    seq(|s|, i requires 0 <= i < |s| => s[i].id)
  }

  function PlacedIds(s: seq<Placed<Level>>): (r: seq<nat>)
    ensures |r| == |s|
  {
    seq(|s|, i requires 0 <= i < |s| => s[i].item.id)
  }

  /** Every level the spawner owns, idle first, then placed. */
  function Handles(t: Course): seq<nat>
  {
    LevelIds(t.pool) + PlacedIds(t.active)
  }

  /**
   * The placed segments abut and end at the cursor: the last starts one
   * length before `next`, the one before it one length earlier, and so on.
   */
  ghost predicate Contiguous(s: seq<Placed<Level>>, next: real, len: real)
    decreases |s|
  {
    |s| == 0 || (Last(s).x == next - len && Contiguous(s[..|s| - 1], next - len, len))
  }

  /** No idle level comes from the default prefab. */
  ghost predicate NoDefault(pool: seq<Level>, d: nat) {
    |pool| == 0 || (pool[0].prefab != d && NoDefault(pool[1..], d))
  }

  /**
   * The spawner's invariant: no level is owned twice, every level was handed
   * out by the allocator, and the placed segments abut up to the cursor.
   */
  ghost predicate Tidy(t: Course, len: real)
  {
    && Distinct(Handles(t))
    && Below(Handles(t), t.nextId)
    && Contiguous(t.active, t.next, len)
  }

  /** `SpawnLevel`: the default prefab is always instantiated; any other takes the pool head, or a new instance when the pool is empty. */
  function Place(t: Course, prefab: nat, x: real, d: nat): Course
  {
    if prefab == d || t.pool == [] then
      Course(t.pool, t.active + [Placed(Level(t.nextId, prefab), x)], t.next, t.nextId + 1)
    else
      Course(t.pool[1..], t.active + [Placed(t.pool[0], x)], t.next, t.nextId)
  }

  /** `SpawnRandomLevel`: place at the cursor, then advance it by one length. */
  function Advance(t: Course, prefab: nat, len: real, d: nat): Course
  {
    var u := Place(t, prefab, t.next, d);
    Course(u.pool, u.active, t.next + len, u.nextId)
  }

  /** The head segment lies more than one length behind the player. */
  predicate Due(t: Course, px: real, len: real)
  {
    t.active != [] && t.active[0].x < px - len
  }

  /** What eviction hands back to the queue: nothing for a default level, the level itself otherwise. */
  function Keep(l: Level, d: nat): seq<Level>
  {
    if l.prefab == d then [] else [l]
  }

  /** `DespawnOldLevels`: drop the head segment when it is due, pooling it unless it is a default level. */
  function Evict(t: Course, px: real, len: real, d: nat): Course
  {
    if Due(t, px, len) then Course(t.pool + Keep(t.active[0].item, d), t.active[1..], t.next, t.nextId)
    else t
  }

  /** The spawn test of `Update`: the player is within two lengths of the cursor. */
  predicate Near(t: Course, px: real, len: real)
  {
    px > t.next - len * 2.0
  }

  /** The state between the spawn and the eviction of one tick. */
  function Spawned(t: Course, px: real, prefabs: seq<nat>, roll: nat, len: real, d: nat): Course
    requires Near(t, px, len) ==> roll < |prefabs|
  {
    if Near(t, px, len) then Advance(t, prefabs[roll], len, d) else t
  }

  /** One tick with the player at `px`: spawn prefab `prefabs[roll]` when in reach, then evict. */
  function Tick(t: Course, px: real, prefabs: seq<nat>, roll: nat, len: real, d: nat): Course
    requires Near(t, px, len) ==> roll < |prefabs|
  {
    Evict(Spawned(t, px, prefabs, roll, len, d), px, len, d)
  }

  /** The levels of the placed list that `ResetSpawner` pools, in list order. */
  function Kept(s: seq<Placed<Level>>, d: nat): seq<Level>
    decreases |s|
  {
    if s == [] then [] else Kept(s[..|s| - 1], d) + Keep(Last(s).item, d)
  }

  /** The pool `InitializePool` builds: level `i` is a new instance of prefab `prefabs[rolls[i]]`. */
  function Drawn(prefabs: seq<nat>, rolls: seq<nat>, from: nat): (r: seq<Level>)
    requires forall i :: 0 <= i < |rolls| ==> rolls[i] < |prefabs|
    ensures |r| == |rolls|
  {
    seq(|rolls|, i requires 0 <= i < |rolls| => Level(from + i, prefabs[rolls[i]]))
  }

  /** Start: a drawn pool, then a default level at the origin, with the cursor one length ahead. */
  function Start(prefabs: seq<nat>, rolls: seq<nat>, from: nat, len: real, d: nat): Course
    requires forall i :: 0 <= i < |rolls| ==> rolls[i] < |prefabs|
  {
    Course(Drawn(prefabs, rolls, from), [Placed(Level(from + |rolls|, d), 0.0)], len, from + |rolls| + 1)
  }

  /** Reset: pool every non-default placed level in list order, then a new default level at the origin. */
  function Reset(t: Course, len: real, d: nat): Course
  {
    Course(t.pool + Kept(t.active, d), [Placed(Level(t.nextId, d), 0.0)], len, t.nextId + 1)
  }

  // ---- positions ----

  /** Segment `i` of `k` abutting segments starts `k - i` lengths before the cursor. */
  lemma {:induction false} ContiguousPositions(s: seq<Placed<Level>>, next: real, len: real)
    requires Contiguous(s, next, len)
    ensures forall i :: 0 <= i < |s| ==> s[i].x == next - Stride(|s| - i, len)
    decreases |s|
  {
    if s != [] {
      var init := s[..|s| - 1];
      ContiguousPositions(init, next - len, len);
      forall i | 0 <= i < |s| ensures s[i].x == next - Stride(|s| - i, len) {
        if i < |s| - 1 {
          assert s[i] == init[i];
        }
      }
    }
  }

  /**
   * With a positive length, placed segments stand in strictly increasing
   * order and all before the cursor.
   */
  lemma ContiguousOrdered(s: seq<Placed<Level>>, next: real, len: real)
    requires Contiguous(s, next, len) && len > 0.0
    ensures forall i, j :: 0 <= i < j < |s| ==> s[i].x < s[j].x
    ensures forall i :: 0 <= i < |s| ==> s[i].x < next
  {
    ContiguousPositions(s, next, len);
    forall i, j | 0 <= i < j < |s| ensures s[i].x < s[j].x {
      StrideIncreasing(|s| - j, |s| - i, len);
    }
    forall i | 0 <= i < |s| ensures s[i].x < next {
      StrideIncreasing(0, |s| - i, len);
    }
  }

  /** Appending a segment at the cursor and advancing the cursor by one length keeps the row contiguous. */
  lemma ContiguousSnoc(s: seq<Placed<Level>>, e: Placed<Level>, next: real, len: real)
    requires Contiguous(s, next, len) && e.x == next
    ensures Contiguous(s + [e], next + len, len)
  {
    assert (s + [e])[..|s|] == s;
  }

  /** Dropping the head segment keeps the row contiguous. */
  lemma {:induction false} ContiguousTail(s: seq<Placed<Level>>, next: real, len: real)
    requires Contiguous(s, next, len) && s != []
    ensures Contiguous(s[1..], next, len)
    decreases |s|
  {
    if |s| > 1 {
      var init := s[..|s| - 1];
      ContiguousTail(init, next - len, len);
      assert s[1..][..|s[1..]| - 1] == init[1..];
      assert Last(s[1..]) == Last(s);
    }
  }

  // ---- handles ----

  lemma LevelIdsAppend(a: seq<Level>, b: seq<Level>)
    ensures LevelIds(a + b) == LevelIds(a) + LevelIds(b)
  {
    forall i | 0 <= i < |a + b| ensures LevelIds(a + b)[i] == (LevelIds(a) + LevelIds(b))[i] {
      if i < |a| {
        assert (a + b)[i] == a[i];
      } else {
        assert (a + b)[i] == b[i - |a|];
      }
    }
  }

  lemma PlacedIdsSnoc(a: seq<Placed<Level>>, e: Placed<Level>)
    ensures PlacedIds(a + [e]) == PlacedIds(a) + [e.item.id]
  {
    assert forall i :: 0 <= i < |a| ==> (a + [e])[i] == a[i];
  }

  /** A placement keeps every level in one place and below the allocator. */
  lemma PlaceHandles(t: Course, prefab: nat, x: real, d: nat)
    requires Distinct(Handles(t)) && Below(Handles(t), t.nextId)
    ensures var u := Place(t, prefab, x, d);
            Distinct(Handles(u)) && Below(Handles(u), u.nextId)
  {
    var u := Place(t, prefab, x, d);
    var e := Last(u.active);
    assert u.active == t.active + [e];
    PlacedIdsSnoc(t.active, e);
    if prefab == d || t.pool == [] {
      assert Handles(u) == Handles(t) + [t.nextId];
      FreshHandle(Handles(t), t.nextId);
    } else {
      var h := t.pool[0].id;
      assert LevelIds(t.pool) == [h] + LevelIds(t.pool[1..]);
      assert Handles(t) == [] + [h] + (LevelIds(t.pool[1..]) + PlacedIds(t.active));
      assert Handles(u) == [] + (LevelIds(t.pool[1..]) + PlacedIds(t.active)) + [h];
      MovedHandle([], h, LevelIds(t.pool[1..]) + PlacedIds(t.active), t.nextId);
    }
  }

  lemma AdvanceKeepsTidy(t: Course, prefab: nat, len: real, d: nat)
    requires Tidy(t, len)
    ensures Tidy(Advance(t, prefab, len, d), len)
  {
    var u := Place(t, prefab, t.next, d);
    PlaceHandles(t, prefab, t.next, d);
    ContiguousSnoc(t.active, Last(u.active), t.next, len);
    assert u.active == t.active + [Last(u.active)];
  }

  lemma EvictKeepsTidy(t: Course, px: real, len: real, d: nat)
    requires Tidy(t, len)
    ensures Tidy(Evict(t, px, len, d), len)
  {
    if Due(t, px, len) {
      var u := Evict(t, px, len, d);
      var h := t.active[0].item;
      ContiguousTail(t.active, t.next, len);
      LevelIdsAppend(t.pool, Keep(h, d));
      var rest := PlacedIds(t.active[1..]);
      assert PlacedIds(t.active) == [h.id] + rest;
      assert Handles(t) == LevelIds(t.pool) + [h.id] + rest;
      if h.prefab == d {
        assert Handles(u) == LevelIds(t.pool) + rest;
        assert multiset(Handles(u)) + multiset{h.id} == multiset(Handles(t));
        DroppedHandle(Handles(t), Handles(u), h.id, t.nextId);
      } else {
        assert LevelIds([h]) == [h.id];
        assert Handles(u) == Handles(t);
      }
    }
  }

  /** A tick keeps the invariant. */
  lemma TickKeepsTidy(t: Course, px: real, prefabs: seq<nat>, roll: nat, len: real, d: nat)
    requires Near(t, px, len) ==> roll < |prefabs|
    requires Tidy(t, len)
    ensures Tidy(Tick(t, px, prefabs, roll, len, d), len)
  {
    var mid := Spawned(t, px, prefabs, roll, len, d);
    assert Tidy(mid, len) by {
      if Near(t, px, len) {
        AdvanceKeepsTidy(t, prefabs[roll], len, d);
      }
    }
    EvictKeepsTidy(mid, px, len, d);
  }

  /**
   * A tick spawns exactly when the player is within two lengths of the
   * cursor, at the old cursor, and moves the cursor by exactly one length;
   * eviction removes at most the head, and only when it is due.
   */
  lemma TickEffect(t: Course, px: real, prefabs: seq<nat>, roll: nat, len: real, d: nat)
    requires Near(t, px, len) ==> roll < |prefabs|
    ensures var mid := Spawned(t, px, prefabs, roll, len, d);
            var u := Tick(t, px, prefabs, roll, len, d);
            && (Near(t, px, len) ==> mid.active == t.active + [Placed(Last(mid.active).item, t.next)] && mid.next == t.next + len)
            && (!Near(t, px, len) ==> mid == t)
            && u.next == mid.next
            && (Due(mid, px, len) ==> u.active == mid.active[1..])
            && (!Due(mid, px, len) ==> u.active == mid.active)
  {
  }

  // ---- the default level ----

  lemma {:induction false} NoDefaultAppend(a: seq<Level>, b: seq<Level>, d: nat)
    requires NoDefault(a, d) && NoDefault(b, d)
    ensures NoDefault(a + b, d)
  {
    if a != [] {
      NoDefaultAppend(a[1..], b, d);
      assert (a + b)[1..] == a[1..] + b;
    } else {
      assert a + b == b;
    }
  }

  /** `ResetSpawner` never pools a default level. */
  lemma {:induction false} KeptNoDefault(s: seq<Placed<Level>>, d: nat)
    ensures NoDefault(Kept(s, d), d)
    decreases |s|
  {
    if s != [] {
      KeptNoDefault(s[..|s| - 1], d);
      NoDefaultAppend(Kept(s[..|s| - 1], d), Keep(Last(s).item, d), d);
    }
  }

  /** `ResetSpawner` pools exactly the placed levels that do not come from the default prefab. */
  lemma {:induction false} KeptMembers(s: seq<Placed<Level>>, d: nat, l: Level)
    ensures l in Kept(s, d) <==> l.prefab != d && exists i :: 0 <= i < |s| && s[i].item == l
    decreases |s|
  {
    if s != [] {
      var init := s[..|s| - 1];
      KeptMembers(init, d, l);
      if exists i :: 0 <= i < |s| && s[i].item == l {
        var i :| 0 <= i < |s| && s[i].item == l;
        if i < |s| - 1 {
          assert init[i].item == l;
        }
      }
      if exists i :: 0 <= i < |init| && init[i].item == l {
        var i :| 0 <= i < |init| && init[i].item == l;
        assert s[i].item == l;
      }
    }
  }

  /** The handles of the pooled levels are among those of the placed ones. */
  lemma {:induction false} KeptHandles(s: seq<Placed<Level>>, d: nat)
    ensures multiset(LevelIds(Kept(s, d))) <= multiset(PlacedIds(s))
    decreases |s|
  {
    if s != [] {
      var init := s[..|s| - 1];
      KeptHandles(init, d);
      LevelIdsAppend(Kept(init, d), Keep(Last(s).item, d));
      PlacedIdsSnoc(init, Last(s));
      assert s == init + [Last(s)];
      assert LevelIds(Keep(Last(s).item, d)) == if Last(s).item.prefab == d then [] else [Last(s).item.id];
    }
  }

  /** A tick pools no default level. */
  lemma TickKeepsNoDefault(t: Course, px: real, prefabs: seq<nat>, roll: nat, len: real, d: nat)
    requires Near(t, px, len) ==> roll < |prefabs|
    requires NoDefault(t.pool, d)
    ensures NoDefault(Tick(t, px, prefabs, roll, len, d).pool, d)
  {
    var mid := Spawned(t, px, prefabs, roll, len, d);
    assert NoDefault(mid.pool, d);
    if Due(mid, px, len) {
      NoDefaultAppend(mid.pool, Keep(mid.active[0].item, d), d);
    }
  }

  lemma {:induction false} DrawnNoDefault(prefabs: seq<nat>, rolls: seq<nat>, from: nat, d: nat)
    requires forall i :: 0 <= i < |rolls| ==> rolls[i] < |prefabs|
    requires d !in prefabs
    ensures NoDefault(Drawn(prefabs, rolls, from), d)
    decreases |rolls|
  {
    if rolls != [] {
      DrawnNoDefault(prefabs, rolls[1..], from + 1, d);
      assert Drawn(prefabs, rolls, from)[1..] == Drawn(prefabs, rolls[1..], from + 1);
      assert prefabs[rolls[0]] in prefabs;
    }
  }

  lemma StartTidy(prefabs: seq<nat>, rolls: seq<nat>, from: nat, len: real, d: nat)
    requires forall i :: 0 <= i < |rolls| ==> rolls[i] < |prefabs|
    ensures Tidy(Start(prefabs, rolls, from, len, d), len)
  {
    var t := Start(prefabs, rolls, from, len, d);
    var ids := LevelIds(t.pool);
    assert ids == Consecutive(from, |rolls|);
    ConsecutiveFresh(from, |rolls|);
    FreshHandle(ids, from + |rolls|);
    assert PlacedIds(t.active) == [from + |rolls|];
    assert t.active[..0] == [];
  }

  lemma ResetKeepsTidy(t: Course, len: real, d: nat)
    requires Tidy(t, len)
    ensures Tidy(Reset(t, len, d), len)
  {
    var u := Reset(t, len, d);
    var ids := LevelIds(t.pool + Kept(t.active, d));
    assert Distinct(ids) && Below(ids, t.nextId) by {
      assert multiset(ids) <= multiset(Handles(t)) by {
        KeptHandles(t.active, d);
        LevelIdsAppend(t.pool, Kept(t.active, d));
      }
      FewerHandles(Handles(t), ids, t.nextId);
    }
    assert Handles(u) == ids + [t.nextId];
    FreshHandle(ids, t.nextId);
    assert u.active[..0] == [];
  }

  /** One more iteration of the reset loop pools one more placed level, unless it is a default one. */
  lemma KeptStep(s: seq<Placed<Level>>, i: nat, d: nat)
    requires i < |s|
    ensures Kept(s[..i + 1], d) == Kept(s[..i], d) + Keep(s[i].item, d)
  {
    assert s[..i + 1][..i] == s[..i];
  }

  /** A reset keeps the invariant, and keeps the pool free of default levels. */
  lemma ResetKeepsValid(t: Course, len: real, d: nat, prefabs: seq<nat>)
    requires Tidy(t, len) && (d !in prefabs ==> NoDefault(t.pool, d))
    ensures Tidy(Reset(t, len, d), len) && (d !in prefabs ==> NoDefault(Reset(t, len, d).pool, d))
  {
    ResetKeepsTidy(t, len, d);
    KeptNoDefault(t.active, d);
    if d !in prefabs {
      NoDefaultAppend(t.pool, Kept(t.active, d), d);
    }
  }

  /** The PowerUpSpawner components a despawn may touch. */
  function Spawners(sp: Option<PowerUpSpawner>): set<object>
  {
    if sp.Some? then {sp.value, sp.value.pools} else {}
  }

  class LevelSpawner {
    const world: World
    const defaultLevelPrefab: nat
    const levelPrefabs: seq<nat>
    const levelLength: real
    const poolSize: int

    var levelPool: seq<Level>
    var activeLevels: seq<Placed<Level>>
    var nextSpawnPosition: real

    /** The spawner's fields and the allocator position, as one value. */
    ghost function State(): Course
      reads this, world
    {
      Course(levelPool, activeLevels, nextSpawnPosition, world.nextId)
    }

    /** The invariant, and no default level idle whenever the random prefabs exclude the default one. */
    ghost predicate Valid()
      reads this, world
    {
      && Tidy(State(), levelLength)
      && (defaultLevelPrefab !in levelPrefabs ==> NoDefault(levelPool, defaultLevelPrefab))
    }

    /**
     * Start: a pool of `poolSize` levels, level `i` drawn from
     * `levelPrefabs[poolRolls[i]]`, then the default level at the origin.
     */
    constructor (world: World, defaultLevelPrefab: nat, levelPrefabs: seq<nat>, levelLength: real, poolSize: int,
                 poolRolls: seq<nat>)
      requires |poolRolls| == Iterations(poolSize)
      requires forall i :: 0 <= i < |poolRolls| ==> poolRolls[i] < |levelPrefabs|
      modifies world
      ensures this.world == world && this.defaultLevelPrefab == defaultLevelPrefab
      ensures this.levelPrefabs == levelPrefabs && this.levelLength == levelLength && this.poolSize == poolSize
      ensures State() == Start(levelPrefabs, poolRolls, old(world.nextId), levelLength, defaultLevelPrefab)
      ensures Valid()
    {
      this.world := world;
      this.defaultLevelPrefab := defaultLevelPrefab;
      this.levelPrefabs := levelPrefabs;
      this.levelLength := levelLength;
      this.poolSize := poolSize;
      levelPool := [];
      activeLevels := [];
      nextSpawnPosition := 0.0;
      new;
      InitializePool(poolRolls);
      SpawnLevel(defaultLevelPrefab, 0.0);
      nextSpawnPosition := levelLength;
      StartTidy(levelPrefabs, poolRolls, old(world.nextId), levelLength, defaultLevelPrefab);
      if defaultLevelPrefab !in levelPrefabs {
        DrawnNoDefault(levelPrefabs, poolRolls, old(world.nextId), defaultLevelPrefab);
      }
    }

    /** A fresh pool: `poolSize` new levels, level `i` of prefab `levelPrefabs[poolRolls[i]]`. */
    method InitializePool(poolRolls: seq<nat>)
      requires |poolRolls| == Iterations(poolSize)
      requires forall i :: 0 <= i < |poolRolls| ==> poolRolls[i] < |levelPrefabs|
      modifies this`levelPool, world
      ensures levelPool == Drawn(levelPrefabs, poolRolls, old(world.nextId))
      ensures world.nextId == old(world.nextId) + |poolRolls|
    {
      levelPool := [];
      var i := 0;
      while i < poolSize
        invariant 0 <= i <= |poolRolls|
        invariant levelPool == Drawn(levelPrefabs, poolRolls[..i], old(world.nextId))
        invariant world.nextId == old(world.nextId) + i
      {
        var prefab := levelPrefabs[poolRolls[i]];
        var id := world.Instantiate();
        levelPool := levelPool + [Level(id, prefab)];
        assert poolRolls[..i + 1] == poolRolls[..i] + [poolRolls[i]];
        i := i + 1;
      }
      assert poolRolls[..i] == poolRolls;
    }

    /** Places one level of `prefab` at `xPosition`, as `Place` says. */
    method SpawnLevel(prefab: nat, xPosition: real)
      modifies this`levelPool, this`activeLevels, world
      ensures State() == Place(old(State()), prefab, xPosition, defaultLevelPrefab)
    {
      var level: Level;
      if prefab == defaultLevelPrefab {
        var id := world.Instantiate();
        level := Level(id, prefab);
      } else {
        if |levelPool| > 0 {
          level := levelPool[0];
          levelPool := levelPool[1..];
        } else {
          var id := world.Instantiate();
          level := Level(id, prefab);
        }
      }
      activeLevels := activeLevels + [Placed(level, xPosition)];
    }

    /** Spawns prefab `levelPrefabs[roll]` at the cursor and advances the cursor by one length. */
    method SpawnRandomLevel(roll: nat)
      requires roll < |levelPrefabs|
      modifies this`levelPool, this`activeLevels, this`nextSpawnPosition, world
      ensures State() == Advance(old(State()), levelPrefabs[roll], levelLength, defaultLevelPrefab)
    {
      var randomPrefab := levelPrefabs[roll];
      SpawnLevel(randomPrefab, nextSpawnPosition);
      nextSpawnPosition := nextSpawnPosition + levelLength;
    }

    /**
     * Evicts the head segment when it is due. `headSpawner` is the head
     * level's PowerUpSpawner component, if it has one; its power-ups are
     * despawned when the level is evicted.
     */
    method DespawnOldLevels(playerX: real, headSpawner: Option<PowerUpSpawner>)
      modifies this`levelPool, this`activeLevels, Spawners(headSpawner)
      ensures State() == Evict(old(State()), playerX, levelLength, defaultLevelPrefab)
      ensures old(activeLevels) == [] || !(old(activeLevels)[0].x < playerX - levelLength) ==>
                levelPool == old(levelPool) && activeLevels == old(activeLevels)
      ensures old(activeLevels) != [] && old(activeLevels)[0].x < playerX - levelLength ==>
                && activeLevels == old(activeLevels)[1..]
                && levelPool == old(levelPool) + Keep(old(activeLevels)[0].item, defaultLevelPrefab)
      ensures headSpawner.Some? ==>
                var sp := headSpawner.value;
                if Due(old(State()), playerX, levelLength) then
                  sp.Cached() == ReturnAll(old(sp.Cached())) && sp.spawnedPowerUps == [] && !sp.hasSpawned
                else
                  sp.Cached() == old(sp.Cached()) && sp.hasSpawned == old(sp.hasSpawned)
      ensures headSpawner.Some? ==> headSpawner.value.pools.initialized == old(headSpawner.value.pools.initialized)
    {
      if |activeLevels| == 0 {
        return;
      }
      var firstLevel := activeLevels[0];
      if firstLevel.x < playerX - levelLength {
        activeLevels := activeLevels[1..];
        if headSpawner.Some? {
          headSpawner.value.DespawnAllPowerUps();
        }
        if firstLevel.item.prefab != defaultLevelPrefab {
          levelPool := levelPool + [firstLevel.item];
        }
      }
    }

    /** One tick: spawn a random level when the player is in reach of the cursor, then evict. */
    method Update(player: Option<real>, roll: nat, headSpawner: Option<PowerUpSpawner>)
      requires Valid()
      requires player.Some? && Near(State(), player.value, levelLength) ==> roll < |levelPrefabs|
      modifies this`levelPool, this`activeLevels, this`nextSpawnPosition, world, Spawners(headSpawner)
      ensures Valid()
      ensures player.None? ==> State() == old(State())
      ensures player.Some? ==>
                State() == Tick(old(State()), player.value, levelPrefabs, roll, levelLength, defaultLevelPrefab)
      ensures headSpawner.Some? && player.None? ==>
                var sp := headSpawner.value;
                sp.Cached() == old(sp.Cached()) && sp.hasSpawned == old(sp.hasSpawned)
      ensures headSpawner.Some? && player.Some? ==>
                var sp := headSpawner.value;
                // A spawn may draw a handle from a world the spawner shares; its other fields are as before.
                var c := old(sp.Cached()).(nextId := sp.world.nextId);
                if Due(Spawned(old(State()), player.value, levelPrefabs, roll, levelLength, defaultLevelPrefab), player.value, levelLength) then
                  sp.Cached() == ReturnAll(c) && sp.spawnedPowerUps == [] && !sp.hasSpawned
                else
                  sp.Cached() == c && sp.hasSpawned == old(sp.hasSpawned)
      ensures headSpawner.Some? ==> headSpawner.value.pools.initialized == old(headSpawner.value.pools.initialized)
    {
      if player.None? {
        return;
      }
      var x := player.value;
      TickKeepsTidy(State(), x, levelPrefabs, roll, levelLength, defaultLevelPrefab);
      if defaultLevelPrefab !in levelPrefabs {
        TickKeepsNoDefault(State(), x, levelPrefabs, roll, levelLength, defaultLevelPrefab);
      }
      if x > nextSpawnPosition - levelLength * 2.0 {
        SpawnRandomLevel(roll);
      }
      DespawnOldLevels(x, headSpawner);
    }

    /** Pools every non-default placed level in list order, then restarts the row with a new default level. */
    method ResetSpawner()
      requires Valid()
      modifies this`levelPool, this`activeLevels, this`nextSpawnPosition, world
      ensures Valid()
      ensures State() == Reset(old(State()), levelLength, defaultLevelPrefab)
    {
      ghost var t0 := State();
      var i := 0;
      while i < |activeLevels|
        invariant 0 <= i <= |t0.active|
        invariant activeLevels == t0.active
        invariant levelPool == t0.pool + Kept(t0.active[..i], defaultLevelPrefab)
        invariant nextSpawnPosition == t0.next && world.nextId == t0.nextId
      {
        var level := activeLevels[i];
        KeptStep(t0.active, i, defaultLevelPrefab);
        if level.item.prefab != defaultLevelPrefab {
          levelPool := levelPool + [level.item];
        }
        i := i + 1;
      }
      assert t0.active[..i] == t0.active;
      activeLevels := [];
      nextSpawnPosition := levelLength;
      SpawnLevel(defaultLevelPrefab, 0.0);
      assert State() == Reset(t0, levelLength, defaultLevelPrefab);
      ResetKeepsValid(t0, levelLength, defaultLevelPrefab, levelPrefabs);
    }
  }
}
