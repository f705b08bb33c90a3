/**
 * The scrolling background: a pool of idle background tiles and a list of
 * placed ones. Each tick places at most one tile ahead of the player and then
 * sweeps every placed tile that fell far enough behind back into the pool.
 */
module Backgrounds {
  import opened Scene

  /** The tiles a sweep with threshold `limit` keeps, in their original order. */
  function Survivors(s: seq<Placed<nat>>, limit: real): seq<Placed<nat>>
  {
    if s == [] then [] else (if s[0].x < limit then [] else [s[0]]) + Survivors(s[1..], limit)
  }

  /** The tiles strictly behind `limit`, in their original order. */
  function Behind(s: seq<Placed<nat>>, limit: real): seq<Placed<nat>>
  {
    if s == [] then [] else (if s[0].x < limit then [s[0]] else []) + Behind(s[1..], limit)
  }

  /**
   * The handles a sweep enqueues, in the order it enqueues them: the sweep walks
   * from the last index down to the first.
   */
  function Recycled(s: seq<Placed<nat>>, limit: real): seq<nat>
  {
    if s == [] then [] else Recycled(s[1..], limit) + (if s[0].x < limit then [s[0].item] else [])
  }

  /** The handles of `s`, last first, peeled from the front as the sweep and the reset walk them. */
  function ReversedItems(s: seq<Placed<nat>>): (r: seq<nat>)
    ensures |r| == |s|
  {
    if s == [] then [] else ReversedItems(s[1..]) + [s[0].item]
  }

  /** `ReversedItems` is the reversal of the placed handles. */
  lemma {:induction false} ReversedItemsIsReversed(s: seq<Placed<nat>>)
    ensures ReversedItems(s) == Reversed(Items(s))
  {
    if s != [] {
      ReversedItemsIsReversed(s[1..]);
      ReversedPrepend(s[0].item, Items(s[1..]));
    }
  }

  /** Each tile lies strictly before the next one. */
  ghost predicate Increasing(s: seq<Placed<nat>>) {
    |s| < 2 || (s[0].x < s[1].x && Increasing(s[1..]))
  }

  /** An increasing row is ordered pairwise: every tile lies strictly before every later one. */
  lemma {:induction false} IncreasingPairwise(s: seq<Placed<nat>>)
    requires Increasing(s)
    ensures forall i, j :: 0 <= i < j < |s| ==> s[i].x < s[j].x
  {
    if |s| >= 2 {
      IncreasingPairwise(s[1..]);
      forall i, j | 0 <= i < j < |s| ensures s[i].x < s[j].x {
        if i > 0 {
          assert s[i] == s[1..][i - 1] && s[j] == s[1..][j - 1];
        } else if j > 1 {
          assert s[1] == s[1..][0] && s[j] == s[1..][j - 1];
        }
      }
    }
  }

  /** Placing a tile beyond every placed one keeps the row increasing. */
  lemma {:induction false} IncreasingSnoc(s: seq<Placed<nat>>, e: Placed<nat>)
    requires Increasing(s)
    requires forall k :: 0 <= k < |s| ==> s[k].x < e.x
    ensures Increasing(s + [e])
  {
    if |s| >= 2 {
      assert (s + [e])[1..] == s[1..] + [e];
      IncreasingSnoc(s[1..], e);
    } else if |s| == 1 {
      assert (s + [e])[1..] == [e];
    }
  }

  /** Tiles at increasing strides form an increasing row. */
  lemma {:induction false} StridesIncreasing(s: seq<Placed<nat>>, w: real)
    requires w > 0.0
    requires forall i :: 0 <= i < |s| ==> s[i].x == Stride(i, w)
    ensures Increasing(s)
  {
    if |s| > 0 {
      var init := s[..|s| - 1];
      StridesIncreasing(init, w);
      forall k | 0 <= k < |init| ensures init[k].x < s[|s| - 1].x {
        StrideIncreasing(k, |s| - 1, w);
      }
      IncreasingSnoc(init, s[|s| - 1]);
      assert init + [s[|s| - 1]] == s;
    }
  }

  /** A tile survives a sweep exactly when it was placed and is not behind the threshold. */
  lemma {:induction false} SurvivorsAreNotBehind(s: seq<Placed<nat>>, limit: real)
    ensures forall e :: e in Survivors(s, limit) <==> e in s && e.x >= limit
  {
    if s != [] {
      SurvivorsAreNotBehind(s[1..], limit);
      assert s == [s[0]] + s[1..];
    }
  }

  /** The sweep enqueues exactly the tiles behind the threshold, highest index first. */
  lemma {:induction false} RecycledIsBehindReversed(s: seq<Placed<nat>>, limit: real)
    ensures Recycled(s, limit) == ReversedItems(Behind(s, limit))
  {
    if s != [] {
      RecycledIsBehindReversed(s[1..], limit);
      if s[0].x < limit {
        var b := Behind(s, limit);
        assert b[0] == s[0] && b[1..] == Behind(s[1..], limit);
      } else {
        assert Behind(s, limit) == Behind(s[1..], limit);
        assert Recycled(s, limit) == Recycled(s[1..], limit);
      }
    }
  }

  /** A sweep moves handles between the placed list and the pool without loss or duplication. */
  lemma {:induction false} SweepConserves(s: seq<Placed<nat>>, limit: real)
    ensures multiset(Recycled(s, limit)) + multiset(Items(Survivors(s, limit))) == multiset(Items(s))
  {
    if s != [] {
      SweepConserves(s[1..], limit);
      ItemsAppend(if s[0].x < limit then [] else [s[0]], Survivors(s[1..], limit));
      assert Items(s) == [s[0].item] + Items(s[1..]);
    }
  }

  /** A sweep keeps the survivors in their relative order, so an ordered row stays ordered. */
  lemma {:induction false} SurvivorsIncreasing(s: seq<Placed<nat>>, limit: real)
    requires Increasing(s)
    ensures Increasing(Survivors(s, limit))
  {
    if s != [] {
      if |s| >= 2 {
        SurvivorsIncreasing(s[1..], limit);
      }
      var rest := Survivors(s[1..], limit);
      if s[0].x < limit {
        assert Survivors(s, limit) == rest;
      } else if |rest| > 0 {
        SurvivorsAreNotBehind(s[1..], limit);
        IncreasingPairwise(s);
        assert rest[0] in s[1..];
        var j :| 0 <= j < |s[1..]| && s[1..][j] == rest[0];
        assert s[j + 1] == rest[0];
        assert ([s[0]] + rest)[1..] == rest;
      }
    }
  }

  /** `Mathf.Min` on two C# ints. */
  function Min(a: int, b: int): (r: int)
    ensures r <= a && r <= b && (r == a || r == b)
  {
    if a < b then a else b
  }

  /** One step of the downward sweep at index `i`: the tile there is either removed and enqueued or kept. */
  lemma SweepStep(placed: seq<Placed<nat>>, i: nat, limit: real)
    requires i < |placed|
    ensures var cur := placed[..i + 1] + Survivors(placed[i + 1..], limit);
            && cur[i] == placed[i]
            && (placed[i].x < limit ==> cur[..i] + cur[i + 1..] == placed[..i] + Survivors(placed[i..], limit))
            && (placed[i].x >= limit ==> cur == placed[..i] + Survivors(placed[i..], limit))
    ensures Recycled(placed[i..], limit)
            == Recycled(placed[i + 1..], limit) + (if placed[i].x < limit then [placed[i].item] else [])
  {
    assert placed[i..][1..] == placed[i + 1..];
    var cur := placed[..i + 1] + Survivors(placed[i + 1..], limit);
    if placed[i].x < limit {
      assert cur[..i] == placed[..i];
      assert cur[i + 1..] == Survivors(placed[i + 1..], limit);
    } else {
      assert placed[..i + 1] == placed[..i] + [placed[i]];
    }
  }

  /** Every placed tile lies strictly before `bound`. */
  ghost predicate Before(s: seq<Placed<nat>>, bound: real) {
    |s| == 0 || (s[0].x < bound && Before(s[1..], bound))
  }

  lemma {:induction false} BeforeIsBound(s: seq<Placed<nat>>, bound: real)
    ensures Before(s, bound) <==> forall i :: 0 <= i < |s| ==> s[i].x < bound
  {
    if s != [] {
      BeforeIsBound(s[1..], bound);
      if Before(s, bound) {
        forall i | 0 < i < |s| ensures s[i].x < bound {
          assert s[i] == s[1..][i - 1];
        }
      }
    }
  }

  /**
   * The state of a background spawner: the idle queue, the placed list, the
   * spawn cursor, and the allocator's next handle.
   */
  datatype Tiles = Tiles(pool: seq<nat>, active: seq<Placed<nat>>, next: real, nextId: nat)

  /** Every tile the spawner owns, idle or placed. */
  ghost function Owned(t: Tiles): multiset<nat>
  {
    multiset(t.pool + Items(t.active))
  }

  /**
   * The spawner's invariant: no tile is owned twice (so none is both idle and
   * placed), every tile was handed out by the allocator, at least `minStock`
   * tiles are owned, the placed row is ordered, and the spawn cursor lies
   * beyond every placed tile.
   */
  ghost predicate Tidy(t: Tiles, minStock: nat)
  {
    && Distinct(t.pool + Items(t.active))
    && Below(t.pool + Items(t.active), t.nextId)
    && |t.pool| + |t.active| >= minStock
    && Increasing(t.active)
    && Before(t.active, t.next)
  }

  /** Handles allocated elsewhere leave the invariant intact. */
  lemma TidyLater(t: Tiles, minStock: nat, m: nat)
    requires Tidy(t, minStock) && t.nextId <= m
    ensures Tidy(t.(nextId := m), minStock)
  {
    BelowRaised(t.pool + Items(t.active), t.nextId, m);
  }

  /** The tile a spawn places: the pool head, or a new instance when the pool is empty. */
  function Take(pool: seq<nat>, nextId: nat): nat
  {
    if pool != [] then pool[0] else nextId
  }

  /** The pool once a spawn has taken its tile. */
  function Rest(pool: seq<nat>): seq<nat>
  {
    if pool != [] then pool[1..] else []
  }

  /** A spawn at the cursor followed by `nextSpawnX += backgroundWidth`. */
  function Spawned(t: Tiles, w: real): Tiles
  {
    Tiles(Rest(t.pool), t.active + [Placed(Take(t.pool, t.nextId), t.next)], t.next + w,
          t.nextId + (if t.pool == [] then 1 else 0))
  }

  /** The sweep: tiles behind `limit` go back to the pool, highest index first. */
  function Swept(t: Tiles, limit: real): Tiles
  {
    Tiles(t.pool + Recycled(t.active, limit), Survivors(t.active, limit), t.next, t.nextId)
  }

  /** One tick with the player at `px`: spawn when the cursor is in reach, then sweep. */
  function Tick(t: Tiles, px: real, ahead: real, behind: real, w: real): Tiles
  {
    if px + ahead >= t.next then Swept(Spawned(t, w), px - behind) else Swept(t, px - behind)
  }

  /** The start row: tile `ids[i]` at `i` widths from the origin. */
  function Layout(ids: seq<nat>, w: real): (r: seq<Placed<nat>>)
    ensures |r| == |ids|
  {
    seq(|ids|, i requires 0 <= i < |ids| => Placed(ids[i], Stride(i, w)))
  }

  /** Start: `n` new tiles from handle `from`, the first `k` laid out and the rest pooled. */
  function Start(from: nat, n: nat, k: nat, w: real): Tiles
    requires k <= n
  {
    var ids := Consecutive(from, n);
    Tiles(ids[k..], Layout(ids[..k], w), Stride(k, w), from + n)
  }

  /** Reset: every placed tile returned to the queue last first, then the first `k` laid out again. */
  function Reset(t: Tiles, k: nat, w: real): Tiles
    requires k <= |t.pool| + |t.active|
  {
    var q := t.pool + ReversedItems(t.active);
    Tiles(q[k..], Layout(q[..k], w), Stride(k, w), t.nextId)
  }

  /** Where the row is laid out again does not depend on the allocator. */
  lemma ResetKeepsAllocator(t: Tiles, k: nat, w: real, m: nat)
    requires k <= |t.pool| + |t.active|
    ensures Reset(t.(nextId := m), k, w) == Reset(t, k, w).(nextId := m)
  {
  }

  /** The start row stands at 0, w, 2w, ... */
  lemma LayoutPositions(ids: seq<nat>, w: real)
    ensures forall i :: 0 <= i < |ids| ==> Layout(ids, w)[i] == Placed(ids[i], i as real * w)
  {
    forall i | 0 <= i < |ids| ensures Layout(ids, w)[i] == Placed(ids[i], i as real * w) {
      StrideIsProduct(i, w);
    }
  }

  /** A spawn moves the taken tile from the pool to the end of the row. */
  lemma SpawnedHandles(t: Tiles, w: real)
    ensures var u := Spawned(t, w);
            u.pool + Items(u.active) == Rest(t.pool) + Items(t.active) + [Take(t.pool, t.nextId)]
  {
    var e := Placed(Take(t.pool, t.nextId), t.next);
    ItemsAppend(t.active, [e]);
    assert Items([e]) == [e.item];
  }

  /** Taking the head of a non-empty pool leaves the rest of its handles. */
  lemma RestHandles(pool: seq<nat>)
    ensures pool != [] ==> multiset(pool) == multiset{pool[0]} + multiset(Rest(pool))
  {
    if pool != [] {
      assert pool == [pool[0]] + pool[1..];
    }
  }

  /** A spawn either moves the pool head into the row or adds one new tile; nothing else changes hands. */
  lemma SpawnOwned(t: Tiles, w: real)
    ensures t.pool == [] ==> Owned(Spawned(t, w)) == Owned(t) + multiset{t.nextId}
    ensures t.pool != [] ==> Owned(Spawned(t, w)) == Owned(t)
  {
    SpawnedHandles(t, w);
    RestHandles(t.pool);
  }

  /** A spawn of the allocator's next handle or of the pool head keeps the handles distinct and allocated. */
  lemma SpawnHandles(t: Tiles, w: real)
    requires Distinct(t.pool + Items(t.active)) && Below(t.pool + Items(t.active), t.nextId)
    ensures var u := Spawned(t, w);
            Distinct(u.pool + Items(u.active)) && Below(u.pool + Items(u.active), u.nextId)
  {
    var u := Spawned(t, w);
    var before := t.pool + Items(t.active);
    var after := u.pool + Items(u.active);
    SpawnOwned(t, w);
    if t.pool == [] {
      ItemsAppend(t.active, [Placed(t.nextId, t.next)]);
      assert after == before + [t.nextId];
      FreshHandle(before, t.nextId);
    } else {
      SameHandles(before, after, t.nextId);
    }
  }

  /** A tile placed at the cursor extends the ordered row, and lies before the advanced cursor. */
  lemma SpawnOrdered(t: Tiles, w: real)
    requires Increasing(t.active) && Before(t.active, t.next) && w > 0.0
    ensures Increasing(Spawned(t, w).active) && Before(Spawned(t, w).active, t.next + w)
  {
    BeforeIsBound(t.active, t.next);
    BeforeIsBound(Spawned(t, w).active, t.next + w);
    IncreasingSnoc(t.active, Placed(Take(t.pool, t.nextId), t.next));
  }

  /** Placing a tile at the cursor and advancing the cursor by a positive width keeps the invariant. */
  lemma SpawnKeepsTidy(t: Tiles, minStock: nat, w: real)
    requires Tidy(t, minStock) && w > 0.0
    ensures Tidy(Spawned(t, w), minStock)
  {
    SpawnHandles(t, w);
    SpawnOrdered(t, w);
  }

  /** A sweep moves tiles from the row to the pool without losing or duplicating one. */
  lemma SweepOwned(t: Tiles, limit: real)
    ensures Owned(Swept(t, limit)) == Owned(t)
    ensures |Swept(t, limit).pool| + |Swept(t, limit).active| == |t.pool| + |t.active|
  {
    var s := Survivors(t.active, limit);
    var r := Recycled(t.active, limit);
    SweepConserves(t.active, limit);
    assert |multiset(r) + multiset(Items(s))| == |multiset(Items(t.active))|;
    assert (t.pool + r) + Items(s) == t.pool + (r + Items(s));
  }

  /** A sweep keeps the row ordered and before the cursor. */
  lemma SweepOrdered(t: Tiles, limit: real)
    requires Increasing(t.active) && Before(t.active, t.next)
    ensures Increasing(Survivors(t.active, limit)) && Before(Survivors(t.active, limit), t.next)
  {
    var s := Survivors(t.active, limit);
    SurvivorsIncreasing(t.active, limit);
    SurvivorsAreNotBehind(t.active, limit);
    BeforeIsBound(t.active, t.next);
    BeforeIsBound(s, t.next);
    forall k | 0 <= k < |s| ensures s[k].x < t.next {
      assert s[k] in t.active;
    }
  }

  /** A sweep keeps what is owned and the invariant. */
  lemma SweepKeepsTidy(t: Tiles, minStock: nat, limit: real)
    requires Tidy(t, minStock)
    ensures Owned(Swept(t, limit)) == Owned(t)
    ensures Tidy(Swept(t, limit), minStock)
  {
    var u := Swept(t, limit);
    SweepOwned(t, limit);
    SameHandles(t.pool + Items(t.active), u.pool + Items(u.active), t.nextId);
    SweepOrdered(t, limit);
  }

  /** A tick keeps the invariant. */
  lemma TickKeepsTidy(t: Tiles, minStock: nat, px: real, ahead: real, behind: real, w: real)
    requires Tidy(t, minStock) && w > 0.0
    ensures Tidy(Tick(t, px, ahead, behind, w), minStock)
  {
    if px + ahead >= t.next {
      assert Tidy(Spawned(t, w), minStock) by {
        SpawnKeepsTidy(t, minStock, w);
      }
      assert Tidy(Swept(Spawned(t, w), px - behind), minStock) by {
        SweepKeepsTidy(Spawned(t, w), minStock, px - behind);
      }
    } else {
      SweepKeepsTidy(t, minStock, px - behind);
    }
  }

  /**
   * One tick advances the cursor by one width exactly when the cursor was in
   * reach, allocates a new tile only when it spawns from an empty pool, and
   * leaves no placed tile behind the sweep threshold.
   */
  lemma TickEffect(t: Tiles, px: real, ahead: real, behind: real, w: real)
    ensures var u := Tick(t, px, ahead, behind, w);
            var spawn := px + ahead >= t.next;
            && u.next == t.next + (if spawn then w else 0.0)
            && u.nextId == t.nextId + (if spawn && t.pool == [] then 1 else 0)
            && (forall e :: e in u.active ==> e.x >= px - behind)
  {
    if px + ahead >= t.next {
      SurvivorsAreNotBehind(Spawned(t, w).active, px - behind);
    } else {
      SurvivorsAreNotBehind(t.active, px - behind);
    }
  }

  /** The handles of a laid-out row are the handles it was laid out from. */
  lemma LayoutItems(ids: seq<nat>, w: real)
    ensures Items(Layout(ids, w)) == ids
  {
    ItemsIndex(Layout(ids, w));
  }

  /** A laid-out row is ordered, and lies before the cursor `|ids|` widths from the origin. */
  lemma LayoutOrdered(ids: seq<nat>, w: real)
    requires w > 0.0
    ensures Increasing(Layout(ids, w)) && Before(Layout(ids, w), Stride(|ids|, w))
  {
    var row := Layout(ids, w);
    StridesIncreasing(row, w);
    forall i | 0 <= i < |row| ensures row[i].x < Stride(|ids|, w) {
      StrideIncreasing(i, |ids|, w);
    }
    BeforeIsBound(row, Stride(|ids|, w));
  }

  /** Laying out a prefix of a queue and pooling the rest keeps every handle of the queue. */
  lemma LayoutOwns(q: seq<nat>, k: nat, w: real)
    requires k <= |q|
    ensures multiset(q[k..] + Items(Layout(q[..k], w))) == multiset(q)
  {
    LayoutItems(q[..k], w);
    assert q == q[..k] + q[k..];
  }

  /** Laying out the first `k` handles of a distinct queue and pooling the rest gives a tidy state owning the queue. */
  lemma LayoutTidy(q: seq<nat>, k: nat, w: real, nextId: nat, minStock: nat)
    requires Distinct(q) && Below(q, nextId)
    requires k <= |q| && |q| >= minStock && w > 0.0
    ensures Owned(Tiles(q[k..], Layout(q[..k], w), Stride(k, w), nextId)) == multiset(q)
    ensures Tidy(Tiles(q[k..], Layout(q[..k], w), Stride(k, w), nextId), minStock)
  {
    LayoutOwns(q, k, w);
    SameHandles(q, q[k..] + Items(Layout(q[..k], w)), nextId);
    LayoutOrdered(q[..k], w);
  }

  /** The start state satisfies the invariant, for a pool of at least `minStock` tiles. */
  lemma StartTidy(from: nat, n: nat, k: nat, w: real, minStock: nat)
    requires k <= n && minStock <= n && w > 0.0
    ensures Tidy(Start(from, n, k, w), minStock)
  {
    ConsecutiveFresh(from, n);
    LayoutTidy(Consecutive(from, n), k, w, from + n, minStock);
  }

  /**
   * A reset moves every placed tile back to the queue and lays out the first
   * `k` again: the tiles owned are the same, and the invariant holds.
   */
  lemma ResetKeepsTidy(t: Tiles, minStock: nat, k: nat, w: real)
    requires Tidy(t, minStock) && k <= minStock && w > 0.0
    ensures Owned(Reset(t, k, w)) == Owned(t)
    ensures Tidy(Reset(t, k, w), minStock)
  {
    var q := t.pool + ReversedItems(t.active);
    ReversedItemsIsReversed(t.active);
    ReversedConserves(Items(t.active));
    SameHandles(t.pool + Items(t.active), q, t.nextId);
    LayoutTidy(q, k, w, t.nextId, minStock);
  }

  class BackgroundSpawner {
    const world: World
    const backgroundWidth: real
    const poolSize: int
    const spawnAheadDistance: real
    const despawnBehindDistance: real := 20.0

    var backgroundPool: seq<nat>
    var activeBackgrounds: seq<Placed<nat>>
    var nextSpawnX: real

    /** The spawner's fields and the allocator position, as one value. */
    ghost function State(): Tiles
      reads this, world
    {
      Tiles(backgroundPool, activeBackgrounds, nextSpawnX, world.nextId)
    }

    ghost predicate Valid()
      reads this, world
    {
      backgroundWidth > 0.0 && Tidy(State(), Iterations(poolSize))
    }

    /** How many tiles Start and ResetSpawner lay out: the iterations of `i < Mathf.Min(3, poolSize)`. */
    function InitialCount(): (k: nat)
      ensures k <= 3 && k <= Iterations(poolSize)
      ensures poolSize >= 3 ==> k == 3
      ensures 0 <= poolSize < 3 ==> k == poolSize
    {
      Iterations(Min(3, poolSize))
    }

    /** Start: fill the pool with `poolSize` new tiles, then lay out the first row. */
    constructor (world: World, backgroundWidth: real, poolSize: int, spawnAheadDistance: real)
      requires backgroundWidth > 0.0
      modifies world
      ensures this.world == world && this.backgroundWidth == backgroundWidth
      ensures this.poolSize == poolSize && this.spawnAheadDistance == spawnAheadDistance
      ensures State() == Start(old(world.nextId), Iterations(poolSize), InitialCount(), backgroundWidth)
      ensures Valid()
    {
      this.world := world;
      this.backgroundWidth := backgroundWidth;
      this.poolSize := poolSize;
      this.spawnAheadDistance := spawnAheadDistance;
      backgroundPool := [];
      activeBackgrounds := [];
      nextSpawnX := 0.0;
      new;
      InitializePool();
      nextSpawnX := 0.0;
      SpawnInitialBackgrounds();
      StartTidy(old(world.nextId), Iterations(poolSize), InitialCount(), backgroundWidth, Iterations(poolSize));
    }

    /** A fresh pool of `poolSize` new tiles and an empty placed list. */
    method InitializePool()
      modifies this`backgroundPool, this`activeBackgrounds, world
      ensures backgroundPool == Consecutive(old(world.nextId), Iterations(poolSize))
      ensures activeBackgrounds == []
      ensures world.nextId == old(world.nextId) + Iterations(poolSize)
    {
      backgroundPool := [];
      activeBackgrounds := [];
      var i := 0;
      while i < poolSize
        invariant 0 <= i <= Iterations(poolSize)
        invariant backgroundPool == Consecutive(old(world.nextId), i)
        invariant world.nextId == old(world.nextId) + i
        invariant activeBackgrounds == []
      {
        var bg := world.Instantiate();
        backgroundPool := backgroundPool + [bg];
        i := i + 1;
      }
    }

    /** The pool head when there is one, otherwise a new instance (the pool is a soft limit). */
    method GetPooledBackground() returns (bg: nat)
      modifies this`backgroundPool, world
      ensures bg == Take(old(backgroundPool), old(world.nextId))
      ensures backgroundPool == Rest(old(backgroundPool))
      ensures world.nextId == old(world.nextId) + (if old(backgroundPool) == [] then 1 else 0)
    {
      if |backgroundPool| > 0 {
        bg := backgroundPool[0];
        backgroundPool := backgroundPool[1..];
        return;
      }
      bg := world.Instantiate();
    }

    /** Places exactly one tile at `xPosition`: the one `GetPooledBackground` hands out. */
    method SpawnBackground(xPosition: real)
      modifies this`backgroundPool, this`activeBackgrounds, world
      ensures activeBackgrounds == old(activeBackgrounds) + [Placed(Take(old(backgroundPool), old(world.nextId)), xPosition)]
      ensures backgroundPool == Rest(old(backgroundPool))
      ensures world.nextId == old(world.nextId) + (if old(backgroundPool) == [] then 1 else 0)
    {
      var bg := GetPooledBackground();
      activeBackgrounds := activeBackgrounds + [Placed(bg, xPosition)];
    }

    /** The loop Start and ResetSpawner share: `InitialCount()` tiles at 0, w, 2w, ... */
    method SpawnInitialBackgrounds()
      requires activeBackgrounds == [] && nextSpawnX == 0.0
      requires |backgroundPool| >= InitialCount()
      modifies this`backgroundPool, this`activeBackgrounds, this`nextSpawnX, world
      ensures backgroundPool == old(backgroundPool)[InitialCount()..]
      ensures activeBackgrounds == Layout(old(backgroundPool)[..InitialCount()], backgroundWidth)
      ensures nextSpawnX == Stride(InitialCount(), backgroundWidth)
      ensures world.nextId == old(world.nextId)
    {
      var i: int := 0;
      while i < Min(3, poolSize)
        invariant 0 <= i <= InitialCount()
        invariant backgroundPool == old(backgroundPool)[i..]
        invariant activeBackgrounds == Layout(old(backgroundPool)[..i], backgroundWidth)
        invariant nextSpawnX == Stride(i, backgroundWidth)
        invariant world.nextId == old(world.nextId)
      {
        SpawnBackground(nextSpawnX);
        nextSpawnX := nextSpawnX + backgroundWidth;
        i := i + 1;
      }
    }

    /** One tick: spawn ahead of the player when the cursor is in reach, then sweep. */
    method Update(player: Option<real>)
      requires Valid()
      modifies this`backgroundPool, this`activeBackgrounds, this`nextSpawnX, world
      ensures Valid()
      ensures player.None? ==> State() == old(State())
      ensures player.Some? ==>
                State() == Tick(old(State()), player.value, spawnAheadDistance, despawnBehindDistance, backgroundWidth)
    {
      if player.None? {
        return;
      }
      var x := player.value;
      TickKeepsTidy(State(), Iterations(poolSize), x, spawnAheadDistance, despawnBehindDistance, backgroundWidth);
      if x + spawnAheadDistance >= nextSpawnX {
        SpawnBackground(nextSpawnX);
        nextSpawnX := nextSpawnX + backgroundWidth;
      }
      RecycleOldBackgrounds(x);
    }

    /** Walks the placed list from the last index down, returning every tile behind the threshold. */
    method RecycleOldBackgrounds(playerX: real)
      modifies this`backgroundPool, this`activeBackgrounds
      ensures State() == Swept(old(State()), playerX - despawnBehindDistance)
    {
      var limit := playerX - despawnBehindDistance;
      ghost var placed := activeBackgrounds;
      ghost var idle := backgroundPool;
      var i: int := |activeBackgrounds| - 1;
      while i >= 0
        invariant -1 <= i < |placed|
        invariant activeBackgrounds == placed[..i + 1] + Survivors(placed[i + 1..], limit)
        invariant backgroundPool == idle + Recycled(placed[i + 1..], limit)
      {
        SweepStep(placed, i, limit);
        var bg := activeBackgrounds[i];
        if bg.x < limit {
          backgroundPool := backgroundPool + [bg.item];
          activeBackgrounds := activeBackgrounds[..i] + activeBackgrounds[i + 1..];
        }
        i := i - 1;
      }
      assert placed[0..] == placed && placed[..0] == [];
    }

    /** Returns every placed tile to the pool, last first, then lays out the start row again. */
    method ResetSpawner()
      requires Valid()
      modifies this`backgroundPool, this`activeBackgrounds, this`nextSpawnX, world
      ensures Valid()
      ensures State() == Reset(old(State()), InitialCount(), backgroundWidth)
    {
      ghost var t0 := State();
      assert Tidy(t0, Iterations(poolSize));
      var i: int := |activeBackgrounds| - 1;
      while i >= 0
        invariant -1 <= i < |t0.active|
        invariant activeBackgrounds == t0.active
        invariant backgroundPool == t0.pool + ReversedItems(t0.active[i + 1..])
        invariant nextSpawnX == t0.next && world.nextId == t0.nextId
      {
        assert t0.active[i..][1..] == t0.active[i + 1..];
        var bg := activeBackgrounds[i];
        backgroundPool := backgroundPool + [bg.item];
        i := i - 1;
      }
      assert t0.active[0..] == t0.active;
      ResetKeepsTidy(t0, Iterations(poolSize), InitialCount(), backgroundWidth);
      activeBackgrounds := [];
      nextSpawnX := 0.0;
      SpawnInitialBackgrounds();
      assert State() == Reset(t0, InitialCount(), backgroundWidth);
    }
  }
}
