/**
 * Power-up spawning on a level segment. Two queues of idle power-ups, one per
 * kind, are shared by every spawner in the process; each spawner keeps the
 * list of power-ups it has placed and a flag that stops it from spawning
 * twice before it is cleared.
 */
module PowerUps {
  import opened Scene

  /** A power-up instance: its handle and the tag its prefab gave it. */
  datatype PowerUp = PowerUp(id: nat, tag: Tag)

  /**
   * The inspector settings of one spawner. A prefab is the tag its instances
   * carry, `None` when none is assigned; a spawn point is `false` when the
   * slot is empty.
   */
  datatype PowerUpSettings = PowerUpSettings(
    shieldPrefab: Option<Tag>,
    speedBoostPrefab: Option<Tag>,
    spawnPoints: seq<bool>,
    levelSpawnChance: real,
    perPointSpawnChance: real,
    shieldChance: real,
    poolSize: int)

  /** The shared queues, one spawner's placed list, and the allocator position. */
  datatype Cache = Cache(shield: seq<PowerUp>, speed: seq<PowerUp>, spawned: seq<PowerUp>, nextId: nat)

  /** The entity a pool request hands out, and the state once it has been taken. */
  datatype Got = Got(item: PowerUp, rest: Cache)

  /** How a spawn pass ended: its state, and `false` if a request found neither an idle instance nor a prefab. */
  datatype Outcome = Outcome(cache: Cache, ok: bool)

  /** `poolSize` new instances of `prefab` from handle `from`, or none when the prefab is missing. */
  function Batch(prefab: Option<Tag>, from: nat, n: nat): (r: seq<PowerUp>)
    ensures |r| == if prefab.Some? then n else 0
  {
    if prefab.None? || n == 0 then [] else Batch(prefab, from, n - 1) + [PowerUp(from + n - 1, prefab.value)]
  }

  function Prefab(s: PowerUpSettings, isShield: bool): Option<Tag>
  {
    if isShield then s.shieldPrefab else s.speedBoostPrefab
  }

  /**
   * `GetFromPool`: the head of the chosen queue when it has one, otherwise a
   * new instance of the chosen prefab; with neither, nothing (instantiating a
   * missing prefab throws).
   */
  function Get(c: Cache, isShield: bool, prefab: Option<Tag>): (r: Option<Got>)
    ensures prefab.Some? ==> r.Some?
    ensures r.Some? ==>
              var q := if isShield then c.shield else c.speed;
              var q' := if isShield then r.value.rest.shield else r.value.rest.speed;
              var other := if isShield then r.value.rest.speed else r.value.rest.shield;
              && r.value.rest.spawned == c.spawned
              && other == (if isShield then c.speed else c.shield)
              && (q != [] ==> r.value.item == q[0] && q' == q[1..] && r.value.rest.nextId == c.nextId)
              && (q == [] ==> r.value.item.id == c.nextId && q' == q && r.value.rest.nextId == c.nextId + 1)
  {
    var q := if isShield then c.shield else c.speed;
    if q != [] then
      Some(Got(q[0], if isShield then c.(shield := q[1..]) else c.(speed := q[1..])))
    else if prefab.Some? then
      Some(Got(PowerUp(c.nextId, prefab.value), c.(nextId := c.nextId + 1)))
    else
      None
  }

  /** Spawn point `i` is assigned and its roll passes the per-point chance. */
  predicate Picked(s: PowerUpSettings, pointRolls: seq<real>, i: nat)
    requires i < |s.spawnPoints| && i < |pointRolls|
  {
    s.spawnPoints[i] && pointRolls[i] <= s.perPointSpawnChance
  }

  /**
   * One turn of the spawn loop at point `i`: nothing after a failed request or
   * at a point that is empty or fails its roll; otherwise one request for the
   * rolled kind, whose power-up joins the placed list.
   */
  function Step(s: PowerUpSettings, o: Outcome, pointRolls: seq<real>, typeRolls: seq<real>, i: nat): Outcome
    requires i < |s.spawnPoints| == |pointRolls| == |typeRolls|
  {
    if !o.ok || !Picked(s, pointRolls, i) then o
    else
      var isShield := typeRolls[i] < s.shieldChance;
      var g := Get(o.cache, isShield, Prefab(s, isShield));
      if g.None? then Outcome(o.cache, false)
      else Outcome(g.value.rest.(spawned := g.value.rest.spawned + [g.value.item]), true)
  }

  /** The spawn pass over the first `k` points, one `Step` per point. */
  function Run(s: PowerUpSettings, c: Cache, pointRolls: seq<real>, typeRolls: seq<real>, k: nat): Outcome
    requires k <= |s.spawnPoints| == |pointRolls| == |typeRolls|
  {
    if k == 0 then Outcome(c, true)
    else Step(s, Run(s, c, pointRolls, typeRolls, k - 1), pointRolls, typeRolls, k - 1)
  }

  /** The kinds the first `k` points ask for, in point order: `true` for a shield. */
  function Picks(s: PowerUpSettings, pointRolls: seq<real>, typeRolls: seq<real>, k: nat): seq<bool>
    requires k <= |s.spawnPoints| == |pointRolls| == |typeRolls|
  {
    if k == 0 then []
    else Picks(s, pointRolls, typeRolls, k - 1)
         + (if Picked(s, pointRolls, k - 1) then [typeRolls[k - 1] < s.shieldChance] else [])
  }

  /** How many of the first `k` spawn points are assigned. */
  function Assigned(points: seq<bool>, k: nat): (r: nat)
    requires k <= |points|
    ensures r <= k
  {
    if k == 0 then 0 else Assigned(points, k - 1) + (if points[k - 1] then 1 else 0)
  }

  /** Every idle power-up sits in the queue of its own kind. */
  ghost predicate Sorted(c: Cache) {
    (forall p :: p in c.shield ==> p.tag == Shield) && (forall p :: p in c.speed ==> p.tag == SpeedBoost)
  }

  /** The prefabs, when assigned, carry the tag of their kind. */
  predicate TrueTags(s: PowerUpSettings) {
    s.shieldPrefab in {None, Some(Shield)} && s.speedBoostPrefab in {None, Some(SpeedBoost)}
  }

  /**
   * `ReturnToPool`: enqueue by tag, then drop the first occurrence from the
   * placed list (removing an absent entry changes nothing, so
   * `ReturnToPool`'s `Contains` guard is folded into `RemoveFirst`).
   */
  function Return(c: Cache, p: PowerUp): Cache
  {
    Cache(c.shield + (if p.tag == Shield then [p] else []),
          c.speed + (if p.tag == SpeedBoost then [p] else []),
          RemoveFirst(c.spawned, p),
          c.nextId)
  }

  /** `List.Remove`: drop the first occurrence of `x`. */
  function RemoveFirst<T(==)>(s: seq<T>, x: T): (r: seq<T>)
    ensures x in s ==> |r| == |s| - 1
    ensures x !in s ==> r == s
  {
    if s == [] then []
    else if s[0] == x then s[1..]
    else [s[0]] + RemoveFirst(s[1..], x)
  }

  /** `DespawnAllPowerUps`' loop: while the list is non-empty, return its last entry. */
  function ReturnAll(c: Cache): Cache
    decreases |c.spawned|
  {
    if c.spawned == [] then c else ReturnAll(Return(c, Last(c.spawned)))
  }

  /** The order in which `DespawnAllPowerUps` hands entities back. */
  function Returned<T(==)>(s: seq<T>): seq<T>
    decreases |s|
  {
    if s == [] then [] else [Last(s)] + Returned(RemoveFirst(s, Last(s)))
  }

  /** The entries of `s` with tag `t`, in order. */
  function Tagged(s: seq<PowerUp>, t: Tag): seq<PowerUp>
  {
    if s == [] then [] else (if s[0].tag == t then [s[0]] else []) + Tagged(s[1..], t)
  }


  /** The handles of a list of power-ups. */
  function Ids(s: seq<PowerUp>): (r: seq<nat>)
    ensures |r| == |s|
  {
    seq(|s|, i requires 0 <= i < |s| => s[i].id)
  }

  // ---- the spawn pass ----

  /** A step appends at most one entry, exactly one when it completes at a picked point. */
  lemma StepAppends(s: PowerUpSettings, o: Outcome, pointRolls: seq<real>, typeRolls: seq<real>, i: nat)
    requires i < |s.spawnPoints| == |pointRolls| == |typeRolls|
    ensures var o' := Step(s, o, pointRolls, typeRolls, i);
            var n := if Picked(s, pointRolls, i) then 1 else 0;
            && |o.cache.spawned| <= |o'.cache.spawned| <= |o.cache.spawned| + n
            && o'.cache.spawned[..|o.cache.spawned|] == o.cache.spawned
            && (o'.ok ==> o.ok && |o'.cache.spawned| == |o.cache.spawned| + n)
  {
    var o' := Step(s, o, pointRolls, typeRolls, i);
    assert o'.cache.spawned[..|o.cache.spawned|] == o.cache.spawned;
  }

  /**
   * A spawn pass only appends to the placed list, one entry per picked point,
   * unless it stops early: the list grows by at most the number of picks, and
   * by exactly that number when the pass completes.
   */
  lemma {:induction false} RunAppends(s: PowerUpSettings, c: Cache, pointRolls: seq<real>, typeRolls: seq<real>, k: nat)
    requires k <= |s.spawnPoints| == |pointRolls| == |typeRolls|
    ensures var o := Run(s, c, pointRolls, typeRolls, k);
            && |c.spawned| <= |o.cache.spawned| <= |c.spawned| + |Picks(s, pointRolls, typeRolls, k)|
            && o.cache.spawned[..|c.spawned|] == c.spawned
            && (o.ok ==> |o.cache.spawned| == |c.spawned| + |Picks(s, pointRolls, typeRolls, k)|)
  {
    if k > 0 {
      var o := Run(s, c, pointRolls, typeRolls, k - 1);
      RunAppends(s, c, pointRolls, typeRolls, k - 1);
      StepAppends(s, o, pointRolls, typeRolls, k - 1);
      var o' := Run(s, c, pointRolls, typeRolls, k);
      assert o'.cache.spawned[..|c.spawned|] == o'.cache.spawned[..|o.cache.spawned|][..|c.spawned|];
    }
  }

  /** Only assigned points are picked, so a pass never asks for more power-ups than there are assigned points. */
  lemma {:induction false} PicksBound(s: PowerUpSettings, pointRolls: seq<real>, typeRolls: seq<real>, k: nat)
    requires k <= |s.spawnPoints| == |pointRolls| == |typeRolls|
    ensures |Picks(s, pointRolls, typeRolls, k)| <= Assigned(s.spawnPoints, k) <= k
  {
    if k > 0 {
      PicksBound(s, pointRolls, typeRolls, k - 1);
    }
  }

  /** With both prefabs assigned, no request can fail, so the pass always completes. */
  lemma {:induction false} RunCompletes(s: PowerUpSettings, c: Cache, pointRolls: seq<real>, typeRolls: seq<real>, k: nat)
    requires k <= |s.spawnPoints| == |pointRolls| == |typeRolls|
    requires s.shieldPrefab.Some? && s.speedBoostPrefab.Some?
    ensures Run(s, c, pointRolls, typeRolls, k).ok
  {
    if k > 0 {
      RunCompletes(s, c, pointRolls, typeRolls, k - 1);
    }
  }

  /** Once a request fails the pass stops: later points change nothing. */
  lemma {:induction false} RunStops(s: PowerUpSettings, c: Cache, pointRolls: seq<real>, typeRolls: seq<real>, k: nat, m: nat)
    requires k <= m <= |s.spawnPoints| == |pointRolls| == |typeRolls|
    requires !Run(s, c, pointRolls, typeRolls, k).ok
    ensures Run(s, c, pointRolls, typeRolls, m) == Run(s, c, pointRolls, typeRolls, k)
    decreases m
  {
    if m > k {
      RunStops(s, c, pointRolls, typeRolls, k, m - 1);
    }
  }

  /** A step keeps the queues sorted by kind, and the power-up it places has the kind its point rolled. */
  lemma StepKinds(s: PowerUpSettings, o: Outcome, pointRolls: seq<real>, typeRolls: seq<real>, i: nat)
    requires i < |s.spawnPoints| == |pointRolls| == |typeRolls|
    requires Sorted(o.cache) && TrueTags(s)
    ensures var o' := Step(s, o, pointRolls, typeRolls, i);
            && Sorted(o'.cache)
            && (o'.ok && Picked(s, pointRolls, i) ==>
                  o'.cache.spawned != [] && Last(o'.cache.spawned).tag == (if typeRolls[i] < s.shieldChance then Shield else SpeedBoost))
  {
    if o.ok && Picked(s, pointRolls, i) {
      var isShield := typeRolls[i] < s.shieldChance;
      var g := Get(o.cache, isShield, Prefab(s, isShield));
      var q := if isShield then o.cache.shield else o.cache.speed;
      if q != [] {
        assert q[0] in q;
        forall p | p in q[1..] ensures p in q { }
      }
    }
  }

  /**
   * With every idle power-up in the queue of its kind and truthful prefabs,
   * the `j`-th power-up a completed pass places is a shield exactly when the
   * `j`-th picked point rolled below the shield chance, and a speed boost
   * otherwise; the queues stay sorted by kind.
   */
  lemma {:induction false} RunKinds(s: PowerUpSettings, c: Cache, pointRolls: seq<real>, typeRolls: seq<real>, k: nat)
    requires k <= |s.spawnPoints| == |pointRolls| == |typeRolls|
    requires Sorted(c) && TrueTags(s)
    ensures var o := Run(s, c, pointRolls, typeRolls, k);
            var picks := Picks(s, pointRolls, typeRolls, k);
            && Sorted(o.cache)
            && (o.ok ==> |o.cache.spawned| == |c.spawned| + |picks|)
            && (o.ok ==> forall j :: 0 <= j < |picks| ==>
                  o.cache.spawned[|c.spawned| + j].tag == (if picks[j] then Shield else SpeedBoost))
  {
    RunAppends(s, c, pointRolls, typeRolls, k);
    if k > 0 {
      var o := Run(s, c, pointRolls, typeRolls, k - 1);
      var o' := Run(s, c, pointRolls, typeRolls, k);
      var picks := Picks(s, pointRolls, typeRolls, k - 1);
      RunKinds(s, c, pointRolls, typeRolls, k - 1);
      StepKinds(s, o, pointRolls, typeRolls, k - 1);
      StepAppends(s, o, pointRolls, typeRolls, k - 1);
      if o'.ok {
        forall j | 0 <= j < |Picks(s, pointRolls, typeRolls, k)|
          ensures o'.cache.spawned[|c.spawned| + j].tag == (if Picks(s, pointRolls, typeRolls, k)[j] then Shield else SpeedBoost)
        {
          if j < |picks| {
            assert o'.cache.spawned[|c.spawned| + j] == o'.cache.spawned[..|o.cache.spawned|][|c.spawned| + j];
          }
        }
      }
    }
  }

  /** Handles of the queues and the placed list together. */
  function AllIds(c: Cache): seq<nat>
  {
    Ids(c.shield) + Ids(c.speed) + Ids(c.spawned)
  }

  lemma IdsAppend(a: seq<PowerUp>, b: seq<PowerUp>)
    ensures Ids(a + b) == Ids(a) + Ids(b)
  {
    forall i | 0 <= i < |a + b| ensures Ids(a + b)[i] == (Ids(a) + Ids(b))[i] {
      if i < |a| {
        assert (a + b)[i] == a[i];
      } else {
        assert (a + b)[i] == b[i - |a|];
      }
    }
  }

  /** Taking the head of the shield queue onto the placed list keeps the handles distinct and bounded. */
  lemma ShieldHeadMoved(q: seq<PowerUp>, r: seq<PowerUp>, d: seq<PowerUp>, n: nat)
    requires q != []
    requires Distinct(Ids(q) + Ids(r) + Ids(d)) && Below(Ids(q) + Ids(r) + Ids(d), n)
    ensures Distinct(Ids(q[1..]) + Ids(r) + Ids(d + [q[0]])) && Below(Ids(q[1..]) + Ids(r) + Ids(d + [q[0]]), n)
  {
    IdsAppend(d, [q[0]]);
    var h, t := q[0].id, Ids(q[1..]);
    assert Ids(q) + Ids(r) + Ids(d) == [] + [h] + (t + Ids(r) + Ids(d));
    assert Ids(q[1..]) + Ids(r) + Ids(d + [q[0]]) == [] + (t + Ids(r) + Ids(d)) + [h];
    MovedHandle([], h, t + Ids(r) + Ids(d), n);
  }

  /** Taking the head of the speed-boost queue onto the placed list keeps the handles distinct and bounded. */
  lemma SpeedHeadMoved(a: seq<PowerUp>, q: seq<PowerUp>, d: seq<PowerUp>, n: nat)
    requires q != []
    requires Distinct(Ids(a) + Ids(q) + Ids(d)) && Below(Ids(a) + Ids(q) + Ids(d), n)
    ensures Distinct(Ids(a) + Ids(q[1..]) + Ids(d + [q[0]])) && Below(Ids(a) + Ids(q[1..]) + Ids(d + [q[0]]), n)
  {
    IdsAppend(d, [q[0]]);
    var h, t := q[0].id, Ids(q[1..]);
    assert Ids(a) + Ids(q) + Ids(d) == Ids(a) + [h] + (t + Ids(d));
    assert Ids(a) + Ids(q[1..]) + Ids(d + [q[0]]) == Ids(a) + (t + Ids(d)) + [h];
    MovedHandle(Ids(a), h, t + Ids(d), n);
  }

  /** Placing a new instance with the allocator's next handle keeps the handles distinct, with the bound one higher. */
  lemma FreshPlaced(a: seq<PowerUp>, b: seq<PowerUp>, d: seq<PowerUp>, p: PowerUp, n: nat)
    requires p.id == n
    requires Distinct(Ids(a) + Ids(b) + Ids(d)) && Below(Ids(a) + Ids(b) + Ids(d), n)
    ensures Distinct(Ids(a) + Ids(b) + Ids(d + [p])) && Below(Ids(a) + Ids(b) + Ids(d + [p]), n + 1)
  {
    IdsAppend(d, [p]);
    assert Ids(a) + Ids(b) + Ids(d + [p]) == Ids(a) + Ids(b) + Ids(d) + [n];
    FreshHandle(Ids(a) + Ids(b) + Ids(d), n);
  }

  /** No power-up is in two places, and every one was handed out by the allocator. */
  ghost predicate Accounted(c: Cache) {
    Distinct(AllIds(c)) && Below(AllIds(c), c.nextId)
  }

  /** A successful request keeps every handle in one place and below the allocator. */
  lemma GetKeepsDistinct(c: Cache, isShield: bool, prefab: Option<Tag>)
    requires Accounted(c)
    requires Get(c, isShield, prefab).Some?
    ensures var g := Get(c, isShield, prefab).value;
            Accounted(g.rest.(spawned := g.rest.spawned + [g.item]))
  {
    if isShield && c.shield != [] {
      ShieldHeadMoved(c.shield, c.speed, c.spawned, c.nextId);
    } else if !isShield && c.speed != [] {
      SpeedHeadMoved(c.shield, c.speed, c.spawned, c.nextId);
    } else {
      FreshPlaced(c.shield, c.speed, c.spawned, PowerUp(c.nextId, prefab.value), c.nextId);
    }
  }

  /** Induction over the spawn pass: a property of caches that every step keeps holds after the pass. */
  lemma {:induction false} RunKeeps(s: PowerUpSettings, c: Cache, pointRolls: seq<real>, typeRolls: seq<real>, k: nat,
                                    P: Cache -> bool)
    requires k <= |s.spawnPoints| == |pointRolls| == |typeRolls|
    requires P(c)
    requires forall o: Outcome, i: nat :: i < |s.spawnPoints| && P(o.cache) ==> P(Step(s, o, pointRolls, typeRolls, i).cache)
    ensures P(Run(s, c, pointRolls, typeRolls, k).cache)
  {
    if k > 0 {
      RunKeeps(s, c, pointRolls, typeRolls, k - 1, P);
    }
  }

  /**
   * A spawn pass never duplicates a power-up: if no handle is in two places
   * and all were handed out by the allocator before, the same holds after.
   */
  lemma RunKeepsDistinct(s: PowerUpSettings, c: Cache, pointRolls: seq<real>, typeRolls: seq<real>, k: nat)
    requires k <= |s.spawnPoints| == |pointRolls| == |typeRolls|
    requires Accounted(c)
    ensures Accounted(Run(s, c, pointRolls, typeRolls, k).cache)
  {
    forall o: Outcome, i: nat | i < |s.spawnPoints| && Accounted(o.cache)
      ensures Accounted(Step(s, o, pointRolls, typeRolls, i).cache)
    {
      StepKeepsDistinct(s, o, pointRolls, typeRolls, i);
    }
    RunKeeps(s, c, pointRolls, typeRolls, k, Accounted);
  }

  lemma StepKeepsDistinct(s: PowerUpSettings, o: Outcome, pointRolls: seq<real>, typeRolls: seq<real>, i: nat)
    requires i < |s.spawnPoints| == |pointRolls| == |typeRolls|
    requires Accounted(o.cache)
    ensures Accounted(Step(s, o, pointRolls, typeRolls, i).cache)
  {
    if o.ok && Picked(s, pointRolls, i) {
      var isShield := typeRolls[i] < s.shieldChance;
      if Get(o.cache, isShield, Prefab(s, isShield)).Some? {
        GetKeepsDistinct(o.cache, isShield, Prefab(s, isShield));
      }
    }
  }

  // ---- returning power-ups ----

  /** `List.Remove` takes out exactly one occurrence when there is one. */
  lemma {:induction false} RemoveFirstCount<T>(s: seq<T>, x: T)
    requires x in s
    ensures multiset(RemoveFirst(s, x)) + multiset{x} == multiset(s)
  {
    if s[0] != x {
      RemoveFirstCount(s[1..], x);
      assert s == [s[0]] + s[1..];
    } else {
      assert s == [s[0]] + s[1..];
    }
  }

  /** Removing the last entry of a list whose last entry occurs nowhere else drops just that entry. */
  lemma {:induction false} RemoveFirstLast<T>(s: seq<T>)
    requires s != [] && Last(s) !in s[..|s| - 1]
    ensures RemoveFirst(s, Last(s)) == s[..|s| - 1]
  {
    if |s| > 1 {
      assert s[1..][..|s[1..]| - 1] == s[1..|s| - 1];
      assert Last(s[1..]) == Last(s);
      RemoveFirstLast(s[1..]);
      assert s[..|s| - 1] == [s[0]] + s[1..|s| - 1];
    }
  }

  /** Every entry of the list is handed back: the returned entries are a permutation of it. */
  lemma {:induction false} ReturnedPermutes<T>(s: seq<T>)
    ensures multiset(Returned(s)) == multiset(s)
    decreases |s|
  {
    if s != [] {
      ReturnedPermutes(RemoveFirst(s, Last(s)));
      RemoveFirstCount(s, Last(s));
    }
  }

  /** With no entry twice in the list, the entries come back last index first. */
  lemma {:induction false} ReturnedIsReversed<T(!new)>(s: seq<T>)
    requires Distinct(s)
    ensures Returned(s) == Reversed(s)
    decreases |s|
  {
    if s != [] {
      DistinctInit(s);
      RemoveFirstLast(s);
      ReturnedIsReversed(s[..|s| - 1]);
    }
  }

  lemma {:induction false} TaggedAppend(a: seq<PowerUp>, b: seq<PowerUp>, t: Tag)
    ensures Tagged(a + b, t) == Tagged(a, t) + Tagged(b, t)
  {
    if a != [] {
      TaggedAppend(a[1..], b, t);
      assert (a + b)[0] == a[0] && (a + b)[1..] == a[1..] + b;
      assert Tagged(a + b, t) == (if a[0].tag == t then [a[0]] else []) + Tagged(a[1..] + b, t);
    } else {
      assert a + b == b;
    }
  }

  /**
   * Despawning everything appends each placed power-up, in the order it is
   * handed back, to the queue of its tag; a power-up with any other tag goes
   * to neither queue.
   */
  lemma {:induction false} ReturnAllShields(c: Cache)
    ensures ReturnAll(c).shield == c.shield + Tagged(Returned(c.spawned), Shield)
    decreases |c.spawned|
  {
    if c.spawned != [] {
      var x := Last(c.spawned);
      var c' := Return(c, x);
      var r' := Returned(c'.spawned);
      assert ReturnAll(c).shield == ReturnAll(c').shield && c'.shield == c.shield + Tagged([x], Shield)
        && Returned(c.spawned) == [x] + r' by { ReturnLast(c); }
      assert ReturnAll(c').shield == c'.shield + Tagged(r', Shield) by { ReturnAllShields(c'); }
      assert Tagged([x] + r', Shield) == Tagged([x], Shield) + Tagged(r', Shield) by { TaggedAppend([x], r', Shield); }
      assert c.shield + Tagged([x], Shield) + Tagged(r', Shield)
          == c.shield + (Tagged([x], Shield) + Tagged(r', Shield));
    }
  }

  /** The speed-boost half of despawning everything, as for shields. */
  lemma {:induction false} ReturnAllSpeeds(c: Cache)
    ensures ReturnAll(c).speed == c.speed + Tagged(Returned(c.spawned), SpeedBoost)
    decreases |c.spawned|
  {
    if c.spawned != [] {
      var x := Last(c.spawned);
      var c' := Return(c, x);
      var r' := Returned(c'.spawned);
      assert ReturnAll(c).speed == ReturnAll(c').speed && c'.speed == c.speed + Tagged([x], SpeedBoost)
        && Returned(c.spawned) == [x] + r' by { ReturnLast(c); }
      assert ReturnAll(c').speed == c'.speed + Tagged(r', SpeedBoost) by { ReturnAllSpeeds(c'); }
      assert Tagged([x] + r', SpeedBoost) == Tagged([x], SpeedBoost) + Tagged(r', SpeedBoost) by { TaggedAppend([x], r', SpeedBoost); }
      assert c.speed + Tagged([x], SpeedBoost) + Tagged(r', SpeedBoost)
          == c.speed + (Tagged([x], SpeedBoost) + Tagged(r', SpeedBoost));
    }
  }

  /** Despawning everything empties the placed list and allocates nothing. */
  lemma {:induction false} ReturnAllEmpties(c: Cache)
    ensures ReturnAll(c).spawned == [] && ReturnAll(c).nextId == c.nextId
    decreases |c.spawned|
  {
    if c.spawned != [] {
      ReturnLast(c);
      ReturnAllEmpties(Return(c, Last(c.spawned)));
    }
  }

  /** With no power-up placed twice, the queues receive the placed power-ups from the last index to the first. */
  lemma DespawnOrder(c: Cache)
    requires Distinct(c.spawned)
    ensures ReturnAll(c).shield == c.shield + Tagged(Reversed(c.spawned), Shield)
    ensures ReturnAll(c).speed == c.speed + Tagged(Reversed(c.spawned), SpeedBoost)
  {
    ReturnedIsReversed(c.spawned);
    ReturnAllShields(c);
    ReturnAllSpeeds(c);
  }

  lemma {:induction false} TaggedMember(s: seq<PowerUp>, p: PowerUp)
    requires p in s
    ensures p in Tagged(s, p.tag)
  {
    if s[0] != p {
      TaggedMember(s[1..], p);
    }
  }

  /** Every placed shield ends up in the shield queue and every placed speed boost in the speed-boost queue. */
  lemma DespawnReturnsEvery(c: Cache, p: PowerUp)
    requires p in c.spawned
    ensures p.tag == Shield ==> p in ReturnAll(c).shield
    ensures p.tag == SpeedBoost ==> p in ReturnAll(c).speed
  {
    ReturnedPermutes(c.spawned);
    assert p in multiset(c.spawned);
    TaggedMember(Returned(c.spawned), p);
    ReturnAllShields(c);
    ReturnAllSpeeds(c);
  }

  lemma {:induction false} IdsRemoveFirst(s: seq<PowerUp>, p: PowerUp)
    requires p in s
    ensures multiset(Ids(RemoveFirst(s, p))) + multiset{p.id} == multiset(Ids(s))
  {
    assert s == [s[0]] + s[1..];
    IdsAppend([s[0]], s[1..]);
    if s[0] != p {
      IdsRemoveFirst(s[1..], p);
      IdsAppend([s[0]], RemoveFirst(s[1..], p));
    }
  }

  lemma AllIdsParts(c: Cache)
    ensures multiset(AllIds(c)) == multiset(Ids(c.shield)) + multiset(Ids(c.speed)) + multiset(Ids(c.spawned))
  {
  }

  /** Enqueuing `p` adds its handle to the queue's handles. */
  lemma EnqueuedIds(q: seq<PowerUp>, p: PowerUp)
    ensures multiset(Ids(q + [p])) == multiset(Ids(q)) + multiset{p.id}
  {
    IdsAppend(q, [p]);
    assert Ids([p]) == [p.id];
  }

  /**
   * Returning a placed power-up loses no handle to duplication: it moves from
   * the placed list to the queue of its tag, or out of both when its tag is
   * neither kind.
   */
  lemma ReturnKeepsAccounted(c: Cache, p: PowerUp)
    requires Accounted(c) && p in c.spawned
    ensures Accounted(Return(c, p))
  {
    var c' := Return(c, p);
    var a, b, d := multiset(Ids(c.shield)), multiset(Ids(c.speed)), multiset(Ids(c.spawned));
    var d' := multiset(Ids(c'.spawned));
    assert d' + multiset{p.id} == d by {
      IdsRemoveFirst(c.spawned, p);
    }
    AllIdsParts(c);
    AllIdsParts(c');
    if p.tag == Shield {
      assert multiset(Ids(c'.shield)) == a + multiset{p.id} by {
        EnqueuedIds(c.shield, p);
      }
      assert c'.speed == c.speed + [] == c.speed;
      assert multiset(AllIds(c')) == multiset(AllIds(c));
      SameHandles(AllIds(c), AllIds(c'), c.nextId);
    } else if p.tag == SpeedBoost {
      assert multiset(Ids(c'.speed)) == b + multiset{p.id} by {
        EnqueuedIds(c.speed, p);
      }
      assert c'.shield == c.shield + [] == c.shield;
      assert multiset(AllIds(c')) == multiset(AllIds(c));
      SameHandles(AllIds(c), AllIds(c'), c.nextId);
    } else {
      assert c'.shield == c.shield + [] == c.shield;
      assert c'.speed == c.speed + [] == c.speed;
      assert multiset(AllIds(c')) + multiset{p.id} == multiset(AllIds(c));
      DroppedHandle(AllIds(c), AllIds(c'), p.id, c.nextId);
    }
  }

  /** Despawning everything keeps every handle in at most one place. */
  lemma {:induction false} ReturnAllKeepsAccounted(c: Cache)
    requires Accounted(c)
    ensures Accounted(ReturnAll(c))
    decreases |c.spawned|
  {
    if c.spawned != [] {
      assert Last(c.spawned) in c.spawned;
      ReturnKeepsAccounted(c, Last(c.spawned));
      ReturnAllKeepsAccounted(Return(c, Last(c.spawned)));
    }
  }

  /** Returning the last placed power-up: it leaves the placed list and joins the queue of its tag. */
  lemma ReturnLast(c: Cache)
    requires c.spawned != []
    ensures var x := Last(c.spawned);
            var c' := Return(c, x);
            && ReturnAll(c) == ReturnAll(c')
            && c'.spawned == RemoveFirst(c.spawned, x)
            && Returned(c.spawned) == [x] + Returned(c'.spawned)
            && c'.shield == c.shield + Tagged([x], Shield)
            && c'.speed == c.speed + Tagged([x], SpeedBoost)
            && c'.nextId == c.nextId
  {
    assert Last(c.spawned) in c.spawned;
  }

  /** The queues every spawner shares, created once by the first spawner to wake. */
  class PowerUpPools {
    var shieldPool: seq<PowerUp>
    var speedBoostPool: seq<PowerUp>
    var initialized: bool

    constructor ()
      ensures shieldPool == [] && speedBoostPool == [] && !initialized
    {
      shieldPool := [];
      speedBoostPool := [];
      initialized := false;
    }
  }

  class PowerUpSpawner {
    const settings: PowerUpSettings
    const pools: PowerUpPools
    const world: World

    var spawnedPowerUps: seq<PowerUp>
    var hasSpawned: bool

    /** The shared queues, this spawner's placed list and the allocator position, as one value. */
    ghost function Cached(): Cache
      reads this, pools, world
    {
      Cache(pools.shieldPool, pools.speedBoostPool, spawnedPowerUps, world.nextId)
    }

    constructor (settings: PowerUpSettings, pools: PowerUpPools, world: World)
      ensures this.settings == settings && this.pools == pools && this.world == world
      ensures spawnedPowerUps == [] && !hasSpawned
    {
      this.settings := settings;
      this.pools := pools;
      this.world := world;
      spawnedPowerUps := [];
      hasSpawned := false;
    }

    /** Creates the shared queues on the first wake of any spawner; every later wake leaves them alone. */
    method Awake()
      modifies this`spawnedPowerUps, pools, world
      ensures pools.initialized
      ensures old(pools.initialized) ==> unchanged(pools) && unchanged(world)
      ensures !old(pools.initialized) ==>
                && pools.shieldPool == Batch(settings.shieldPrefab, old(world.nextId), Iterations(settings.poolSize))
                && pools.speedBoostPool == Batch(settings.speedBoostPrefab, old(world.nextId) + |pools.shieldPool|,
                                                 Iterations(settings.poolSize))
                && world.nextId == old(world.nextId) + |pools.shieldPool| + |pools.speedBoostPool|
      ensures spawnedPowerUps == []
    {
      if !pools.initialized {
        InitializePools();
        pools.initialized := true;
      }
      spawnedPowerUps := [];
    }

    /** Fresh queues holding `poolSize` new instances of each assigned prefab, shields first. */
    method InitializePools()
      modifies pools`shieldPool, pools`speedBoostPool, world
      ensures pools.shieldPool == Batch(settings.shieldPrefab, old(world.nextId), Iterations(settings.poolSize))
      ensures pools.speedBoostPool == Batch(settings.speedBoostPrefab, old(world.nextId) + |pools.shieldPool|,
                                            Iterations(settings.poolSize))
      ensures world.nextId == old(world.nextId) + |pools.shieldPool| + |pools.speedBoostPool|
    {
      pools.shieldPool := [];
      pools.speedBoostPool := [];
      if settings.shieldPrefab.Some? {
        var i := 0;
        while i < settings.poolSize
          invariant 0 <= i <= Iterations(settings.poolSize)
          invariant pools.shieldPool == Batch(settings.shieldPrefab, old(world.nextId), i)
          invariant pools.speedBoostPool == []
          invariant world.nextId == old(world.nextId) + i
        {
          var id := world.Instantiate();
          pools.shieldPool := pools.shieldPool + [PowerUp(id, settings.shieldPrefab.value)];
          i := i + 1;
        }
      }
      if settings.speedBoostPrefab.Some? {
        ghost var from := world.nextId;
        var i := 0;
        while i < settings.poolSize
          invariant 0 <= i <= Iterations(settings.poolSize)
          invariant pools.speedBoostPool == Batch(settings.speedBoostPrefab, from, i)
          invariant pools.shieldPool == Batch(settings.shieldPrefab, old(world.nextId), Iterations(settings.poolSize))
          invariant world.nextId == from + i
        {
          var id := world.Instantiate();
          pools.speedBoostPool := pools.speedBoostPool + [PowerUp(id, settings.speedBoostPrefab.value)];
          i := i + 1;
        }
      }
    }

    /**
     * One spawn pass. `levelRoll` is the level-wide roll; `pointRolls[i]` and
     * `typeRolls[i]` are the rolls spawn point `i` draws when it is reached.
     * `ok` is `false` when a request found an empty queue and no prefab, where
     * the engine's `Instantiate` throws and the pass stops mid-way.
     */
    method SpawnPowerUps(levelRoll: real, pointRolls: seq<real>, typeRolls: seq<real>) returns (ok: bool)
      requires |pointRolls| == |settings.spawnPoints| && |typeRolls| == |settings.spawnPoints|
      modifies this`spawnedPowerUps, this`hasSpawned, pools`shieldPool, pools`speedBoostPool, world
      ensures old(hasSpawned) ==> ok && hasSpawned && Cached() == old(Cached())
      ensures !old(hasSpawned) && (levelRoll > settings.levelSpawnChance || settings.spawnPoints == []) ==>
                ok && hasSpawned && Cached() == old(Cached())
      ensures !old(hasSpawned) && levelRoll <= settings.levelSpawnChance && settings.spawnPoints != [] ==>
                var o := Run(settings, old(Cached()), pointRolls, typeRolls, |settings.spawnPoints|);
                ok == o.ok && hasSpawned == o.ok && Cached() == o.cache
    {
      ok := true;
      if hasSpawned {
        return;
      }
      if levelRoll > settings.levelSpawnChance {
        hasSpawned := true;
        return;
      }
      if |settings.spawnPoints| == 0 {
        hasSpawned := true;
        return;
      }
      ghost var c0 := Cached();
      var i := 0;
      while i < |settings.spawnPoints|
        invariant 0 <= i <= |settings.spawnPoints|
        invariant Run(settings, c0, pointRolls, typeRolls, i) == Outcome(Cached(), true)
        invariant !hasSpawned
      {
        if settings.spawnPoints[i] && pointRolls[i] <= settings.perPointSpawnChance {
          var isShield := typeRolls[i] < settings.shieldChance;
          var powerUp := GetFromPool(isShield);
          if powerUp.None? {
            ok := false;
            RunStops(settings, c0, pointRolls, typeRolls, i + 1, |settings.spawnPoints|);
            return;
          }
          spawnedPowerUps := spawnedPowerUps + [powerUp.value];
        }
        i := i + 1;
      }
      hasSpawned := true;
    }

    /** The head of the chosen queue, otherwise a new instance of the chosen prefab, otherwise nothing. */
    method GetFromPool(isShield: bool) returns (powerUp: Option<PowerUp>)
      modifies pools`shieldPool, pools`speedBoostPool, world
      ensures var g := Get(old(Cached()), isShield, Prefab(settings, isShield));
              && (g.None? ==> powerUp.None? && Cached() == old(Cached()))
              && (g.Some? ==> powerUp == Some(g.value.item) && Cached() == g.value.rest)
    {
      if isShield {
        if |pools.shieldPool| > 0 {
          powerUp := Some(pools.shieldPool[0]);
          pools.shieldPool := pools.shieldPool[1..];
          return;
        }
      } else {
        if |pools.speedBoostPool| > 0 {
          powerUp := Some(pools.speedBoostPool[0]);
          pools.speedBoostPool := pools.speedBoostPool[1..];
          return;
        }
      }
      var prefab := if isShield then settings.shieldPrefab else settings.speedBoostPrefab;
      if prefab.None? {
        powerUp := None;
        return;
      }
      var id := world.Instantiate();
      powerUp := Some(PowerUp(id, prefab.value));
    }

    /** Puts a power-up back in the queue of its tag and takes it off this spawner's placed list. */
    method ReturnToPool(powerUp: Option<PowerUp>)
      modifies this`spawnedPowerUps, pools`shieldPool, pools`speedBoostPool
      ensures powerUp.None? ==> Cached() == old(Cached())
      ensures powerUp.Some? ==> Cached() == Return(old(Cached()), powerUp.value)
    {
      if powerUp.None? {
        return;
      }
      var p := powerUp.value;
      if p.tag == Shield {
        pools.shieldPool := pools.shieldPool + [p];
      } else if p.tag == SpeedBoost {
        pools.speedBoostPool := pools.speedBoostPool + [p];
      }
      if p in spawnedPowerUps {
        spawnedPowerUps := RemoveFirst(spawnedPowerUps, p);
      }
    }

    /** Returns every placed power-up, from the last index down, then clears the list and re-arms the spawner. */
    method DespawnAllPowerUps()
      modifies this`spawnedPowerUps, this`hasSpawned, pools`shieldPool, pools`speedBoostPool
      ensures Cached() == ReturnAll(old(Cached()))
      ensures spawnedPowerUps == [] && !hasSpawned
    {
      var i := |spawnedPowerUps| - 1;
      while i >= 0
        invariant |spawnedPowerUps| == i + 1
        invariant ReturnAll(Cached()) == ReturnAll(old(Cached()))
      {
        ReturnToPool(Some(spawnedPowerUps[i]));
        i := i - 1;
      }
      spawnedPowerUps := [];
      hasSpawned := false;
    }
  }
}
