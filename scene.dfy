/**
 * What the scripts take from the engine's scene graph, reduced to bookkeeping:
 * entity handles are natural numbers handed out by one allocator (the model of
 * `Instantiate`), tags are the engine's string tags as an enumeration, and an
 * entity placed in the world is paired with its x coordinate.
 */
module Scene {

  datatype Option<T> = None | Some(value: T)

  /** The tags the scripts compare against with `CompareTag`. */
  datatype Tag = Untagged | PlayerTag | Shield | SpeedBoost | Coin | Obstacles | Water

  /** An entity placed in the world at x coordinate `x`. */
  datatype Placed<T> = Placed(item: T, x: real)

  /** The entities of a placed sequence, in the same order. */
  function Items<T>(s: seq<Placed<T>>): (r: seq<T>)
    ensures |r| == |s|
  {
    if s == [] then [] else [s[0].item] + Items(s[1..])
  }

  lemma {:induction false} ItemsIndex<T>(s: seq<Placed<T>>)
    ensures forall i :: 0 <= i < |s| ==> Items(s)[i] == s[i].item
  {
    if s != [] {
      ItemsIndex(s[1..]);
      forall i | 0 < i < |s| ensures Items(s)[i] == s[i].item {
        assert s[i] == s[1..][i - 1];
      }
    }
  }

  lemma {:induction false} ItemsAppend<T>(a: seq<Placed<T>>, b: seq<Placed<T>>)
    ensures Items(a + b) == Items(a) + Items(b)
  {
    ItemsIndex(a + b);
    ItemsIndex(a);
    ItemsIndex(b);
    assert |Items(a + b)| == |Items(a) + Items(b)|;
    forall i | 0 <= i < |a + b|
      ensures Items(a + b)[i] == (Items(a) + Items(b))[i]
    {
      if i < |a| {
        assert (a + b)[i] == a[i];
      } else {
        assert (a + b)[i] == b[i - |a|];
      }
    }
  }

  /** No value occurs twice: an entity is in at most one place. */
  ghost predicate Unique<T(!new)>(m: multiset<T>) {
    forall x :: m[x] <= 1
  }

  /** No entry occurs twice in `s`. */
  ghost predicate Distinct<T>(s: seq<T>) {
    |s| == 0 || (s[0] !in s[1..] && Distinct(s[1..]))
  }

  /** Every handle in `s` was handed out before the allocator reached `n`. */
  ghost predicate Below(s: seq<nat>, n: nat) {
    |s| == 0 || (s[0] < n && Below(s[1..], n))
  }

  /** A bound stays a bound when the allocator moves on. */
  lemma {:induction false} BelowRaised(s: seq<nat>, n: nat, m: nat)
    requires Below(s, n) && n <= m
    ensures Below(s, m)
  {
    if s != [] {
      BelowRaised(s[1..], n, m);
    }
  }

  /** A sequence is distinct exactly when its multiset holds every handle at most once. */
  lemma {:induction false} DistinctIsUnique<T(!new)>(s: seq<T>)
    ensures Distinct(s) <==> Unique(multiset(s))
  {
    if s != [] {
      DistinctIsUnique(s[1..]);
      assert s == [s[0]] + s[1..];
      assert multiset(s) == multiset{s[0]} + multiset(s[1..]);
      if Unique(multiset(s)) {
        forall x ensures multiset(s[1..])[x] <= 1 {
          assert multiset(s)[x] >= multiset(s[1..])[x];
        }
        assert multiset(s)[s[0]] == 1 + multiset(s[1..])[s[0]];
        assert s[0] !in s[1..];
      }
      if Distinct(s) {
        assert multiset(s[1..])[s[0]] == 0;
        forall x ensures multiset(s)[x] <= 1 {
          assert multiset(s)[x] == (if x == s[0] then 1 else 0) + multiset(s[1..])[x];
        }
      }
    }
  }

  /** `Below` is the bound on every member. */
  lemma {:induction false} BelowIsBound(s: seq<nat>, n: nat)
    ensures Below(s, n) <==> forall x :: x in multiset(s) ==> x < n
  {
    if s != [] {
      BelowIsBound(s[1..], n);
      assert s == [s[0]] + s[1..];
      assert multiset(s) == multiset{s[0]} + multiset(s[1..]);
      if forall x :: x in multiset(s) ==> x < n {
        assert s[0] in multiset(s);
        forall x | x in multiset(s[1..]) ensures x < n {
          assert x in multiset(s);
        }
      }
    }
  }

  /** Rearranging handles keeps them distinct and bounded. */
  lemma SameHandles(a: seq<nat>, b: seq<nat>, n: nat)
    requires multiset(a) == multiset(b) && Distinct(a) && Below(a, n)
    ensures Distinct(b) && Below(b, n)
  {
    DistinctIsUnique(a);
    DistinctIsUnique(b);
    BelowIsBound(a, n);
    BelowIsBound(b, n);
  }

  /** Keeping only some of the handles keeps them distinct and bounded. */
  lemma FewerHandles(a: seq<nat>, b: seq<nat>, n: nat)
    requires multiset(b) <= multiset(a) && Distinct(a) && Below(a, n)
    ensures Distinct(b) && Below(b, n)
  {
    DistinctIsUnique(a);
    DistinctIsUnique(b);
    BelowIsBound(a, n);
    BelowIsBound(b, n);
    forall y ensures multiset(b)[y] <= 1 {
      assert multiset(b)[y] <= multiset(a)[y];
    }
    forall y | y in multiset(b) ensures y < n {
      assert y in multiset(a);
    }
  }

  /** Moving one handle to the end keeps a bounded distinct sequence distinct and bounded. */
  lemma MovedHandle(p: seq<nat>, h: nat, q: seq<nat>, n: nat)
    requires Distinct(p + [h] + q) && Below(p + [h] + q, n)
    ensures Distinct(p + q + [h]) && Below(p + q + [h], n)
  {
    assert multiset(p + [h] + q) == multiset(p + q + [h]) by {
      assert multiset(p + [h] + q) == multiset(p) + multiset{h} + multiset(q);
      assert multiset(p + q + [h]) == multiset(p) + multiset(q) + multiset{h};
    }
    SameHandles(p + [h] + q, p + q + [h], n);
  }

  /** Dropping one handle keeps the rest distinct and bounded. */
  lemma DroppedHandle(a: seq<nat>, b: seq<nat>, x: nat, n: nat)
    requires multiset(b) + multiset{x} == multiset(a) && Distinct(a) && Below(a, n)
    ensures Distinct(b) && Below(b, n)
  {
    DistinctIsUnique(a);
    DistinctIsUnique(b);
    BelowIsBound(a, n);
    BelowIsBound(b, n);
    forall y ensures multiset(b)[y] <= 1 {
      assert multiset(b)[y] <= multiset(a)[y];
    }
    forall y | y in multiset(b) ensures y < n {
      assert y in multiset(a);
    }
  }

  /** Appending the allocator's next handle keeps a bounded distinct sequence distinct, with the bound one higher. */
  lemma FreshHandle(s: seq<nat>, n: nat)
    requires Distinct(s) && Below(s, n)
    ensures Distinct(s + [n]) && Below(s + [n], n + 1)
  {
    DistinctIsUnique(s);
    DistinctIsUnique(s + [n]);
    BelowIsBound(s, n);
    BelowIsBound(s + [n], n + 1);
    assert multiset(s + [n]) == multiset(s) + multiset{n};
    assert n !in multiset(s);
  }

  /** The handles `from`, `from + 1`, ..., in allocation order. */
  function Consecutive(from: nat, n: nat): (r: seq<nat>)
    ensures |r| == n
  {
    seq(n, i => from + i)
  }

  /** Handles handed out one after another are distinct and below the allocator's new position. */
  lemma {:induction false} ConsecutiveFresh(from: nat, n: nat)
    ensures Distinct(Consecutive(from, n)) && Below(Consecutive(from, n), from + n)
    decreases n
  {
    if n > 0 {
      var s := Consecutive(from, n);
      ConsecutiveFresh(from + 1, n - 1);
      assert s[1..] == Consecutive(from + 1, n - 1);
      BelowIsBound(s[1..], from + n);
      assert from !in multiset(s[1..]) by {
        BelowIsBound(Consecutive(from + 1, n - 1), from + 1 + (n - 1));
        forall x | x in s[1..] ensures x > from { }
      }
    }
  }

  /** The last entry of a non-empty sequence. */
  function Last<T>(s: seq<T>): T
    requires s != []
  {
    s[|s| - 1]
  }

  /** `s` from the last entry to the first. */
  function Reversed<T>(s: seq<T>): (r: seq<T>)
    ensures |r| == |s|
    decreases |s|
  {
    if s == [] then [] else [Last(s)] + Reversed(s[..|s| - 1])
  }

  /** The first entry of a sequence is the last of its reversal. */
  lemma {:induction false} ReversedPrepend<T>(x: T, t: seq<T>)
    ensures Reversed([x] + t) == Reversed(t) + [x]
    decreases |t|
  {
    if t != [] {
      var init := t[..|t| - 1];
      assert ([x] + t)[..|t|] == [x] + init;
      ReversedPrepend(x, init);
    }
  }

  /** Reversal keeps every entry: nothing lost, nothing duplicated. */
  lemma {:induction false} ReversedConserves<T>(s: seq<T>)
    ensures multiset(Reversed(s)) == multiset(s)
    decreases |s|
  {
    if s != [] {
      ReversedConserves(s[..|s| - 1]);
      assert s == s[..|s| - 1] + [Last(s)];
    }
  }

  /** Dropping the last entry of a distinct sequence leaves a distinct sequence without that entry. */
  lemma DistinctInit<T(!new)>(s: seq<T>)
    requires Distinct(s) && s != []
    ensures Distinct(s[..|s| - 1]) && Last(s) !in s[..|s| - 1]
  {
    var init := s[..|s| - 1];
    assert s == init + [Last(s)];
    DistinctIsUnique(s);
    DistinctIsUnique(init);
    assert multiset(s) == multiset(init) + multiset{Last(s)};
    forall x ensures multiset(init)[x] <= 1 {
      assert multiset(init)[x] <= multiset(s)[x];
    }
  }

  /**
   * The coordinate reached from 0 by adding `w` `n` times: how the spawners
   * advance their cursors (`nextSpawnX += backgroundWidth`).
   */
  function Stride(n: nat, w: real): real
  {
    if n == 0 then 0.0 else Stride(n - 1, w) + w
  }

  /** Repeated addition is multiplication. */
  lemma {:induction false} StrideIsProduct(n: nat, w: real)
    ensures Stride(n, w) == n as real * w
  {
    if n > 0 {
      StrideIsProduct(n - 1, w);
      assert (n - 1) as real * w + w == n as real * w;
    }
  }

  /** With a positive step, later strides lie strictly further along. */
  lemma {:induction false} StrideIncreasing(i: nat, j: nat, w: real)
    requires i < j && w > 0.0
    ensures Stride(i, w) < Stride(j, w)
  {
    if i < j - 1 {
      StrideIncreasing(i, j - 1, w);
    }
  }

  /** Number of iterations of `for (int i = 0; i < n; i++)` for a C# int `n`. */
  function Iterations(n: int): (r: nat)
    ensures n <= 0 ==> r == 0
    ensures n > 0 ==> r == n
  {
    if n < 0 then 0 else n
  }

  /**
   * The allocator behind every `Instantiate` call: each call yields a handle
   * that no earlier call has yielded.
   */
  class World {
    var nextId: nat

    constructor ()
      ensures nextId == 0
    {
      nextId := 0;
    }

    method Instantiate() returns (id: nat)
      modifies this
      ensures id == old(nextId) && nextId == old(nextId) + 1
    {
      id := nextId;
      nextId := nextId + 1;
    }
  }
}
