/** Python's `random` calls used by the crons, each driven by a seed the
    caller supplies: every value the call can return is reached by some seed,
    and every seed gives a value the call can return. */
module Chance {

  /** `random.randrange(3, 20, 3)`: the bonus added to a winning grant. */
  function Bonus(seed: nat): (r: int)
    ensures 3 <= r <= 18 && r % 3 == 0
  {
    3 * (seed % 6 + 1)
  }

  lemma BonusReachesEveryStep(r: int)
    requires 3 <= r <= 18 && r % 3 == 0
    ensures Bonus(r / 3 - 1) == r
  {
  }

  /** `random.randint(lo, hi)`: both bounds included. */
  function RandInt(lo: int, hi: int, seed: nat): (r: int)
    requires lo <= hi
    ensures lo <= r <= hi
  {
    lo + seed % (hi - lo + 1)
  }

  lemma RandIntReachesEveryValue(lo: int, hi: int, r: int)
    requires lo <= r <= hi
    ensures RandInt(lo, hi, r - lo) == r
  {
  }

  /** `random.choice(xs)`. */
  function Choice<T>(xs: seq<T>, seed: nat): (r: T)
    requires |xs| > 0
    ensures r in xs
  {
    xs[seed % |xs|]
  }

  function Remove<T>(xs: seq<T>, i: nat): (r: seq<T>)
    requires i < |xs|
    ensures |r| == |xs| - 1
  {
    xs[..i] + xs[i + 1..]
  }

  /** Removing the element at i takes exactly that element out. */
  lemma RemoveTakesOne<T>(xs: seq<T>, i: nat)
    requires i < |xs|
    ensures multiset(xs) == multiset(Remove(xs, i)) + multiset{xs[i]}
  {
    assert xs == xs[..i] + [xs[i]] + xs[i + 1..];
  }

  /** `random.shuffle(xs)`: the element at a position chosen by the first
      seed goes first, then the rest is shuffled with the other seeds. */
  function Shuffle<T>(xs: seq<T>, seeds: seq<nat>): (r: seq<T>)
    requires |seeds| >= |xs|
    ensures multiset(r) == multiset(xs)
    decreases |xs|
  {
    if xs == [] then []
    else
      var i := seeds[0] % |xs|;
      RemoveTakesOne(xs, i);
      [xs[i]] + Shuffle(Remove(xs, i), seeds[1..])
  }

  /** No value occurs twice. */
  ghost predicate Distinct<T(!new)>(xs: seq<T>)
  {
    forall x :: multiset(xs)[x] <= 1
  }

  /** `list(range(n))`. */
  function Range(n: nat): (r: seq<int>)
    ensures |r| == n
    ensures forall i :: 0 <= i < n ==> r[i] == i
  {
    if n == 0 then [] else Range(n - 1) + [n - 1]
  }

  /** `random.sample(pool, k)`: k elements drawn without replacement, one
      seed per draw. */
  function Sample<T>(pool: seq<T>, k: nat, seeds: seq<nat>): set<T>
    requires k <= |pool| && k <= |seeds|
    decreases k
  {
    if k == 0 then {}
    else
      var i := seeds[0] % |pool|;
      Sample(Remove(pool, i), k - 1, seeds[1..]) + {pool[i]}
  }

  lemma RemoveKeepsDistinct<T(!new)>(xs: seq<T>, i: nat)
    requires i < |xs| && Distinct(xs)
    ensures Distinct(Remove(xs, i)) && xs[i] !in Remove(xs, i)
  {
    RemoveTakesOne(xs, i);
    forall x
      ensures multiset(Remove(xs, i))[x] <= 1
    {
      assert multiset(xs)[x] == multiset(Remove(xs, i))[x] + multiset{xs[i]}[x];
    }
    assert multiset(xs)[xs[i]] == multiset(Remove(xs, i))[xs[i]] + 1;
  }

  /** Only values of the pool are drawn. */
  lemma {:induction false} SampleWithinPool<T>(pool: seq<T>, k: nat, seeds: seq<nat>)
    requires k <= |pool| && k <= |seeds|
    ensures forall x :: x in Sample(pool, k, seeds) ==> x in pool
    decreases k
  {
    if k > 0 {
      var i := seeds[0] % |pool|;
      SampleWithinPool(Remove(pool, i), k - 1, seeds[1..]);
      RemoveTakesOne(pool, i);
      forall x | x in Remove(pool, i)
        ensures x in pool
      {
        assert x in multiset(Remove(pool, i));
      }
    }
  }

  lemma {:induction false} RangeDistinct(n: nat)
    ensures Distinct(Range(n))
    ensures forall x :: x in Range(n) ==> 0 <= x < n
  {
    if n > 0 {
      RangeDistinct(n - 1);
      assert Range(n) == Range(n - 1) + [n - 1];
      assert n - 1 !in Range(n - 1);
    }
  }

  /** One draw of a sample: the chosen element is new, so the sample grows
      by one, and what remains to draw from is still distinct. */
  lemma SampleStep<T(!new)>(pool: seq<T>, k: nat, seeds: seq<nat>)
    requires 0 < k <= |pool| && k <= |seeds| && Distinct(pool)
    ensures Distinct(Remove(pool, seeds[0] % |pool|))
    ensures |Sample(pool, k, seeds)| == |Sample(Remove(pool, seeds[0] % |pool|), k - 1, seeds[1..])| + 1
  {
    var i := seeds[0] % |pool|;
    var s := Sample(Remove(pool, i), k - 1, seeds[1..]);
    RemoveKeepsDistinct(pool, i);
    SampleWithinPool(Remove(pool, i), k - 1, seeds[1..]);
    assert Sample(pool, k, seeds) == s + {pool[i]};
    assert pool[i] !in s;
  }

  /** Drawn from distinct values, a sample has exactly k elements. */
  lemma {:induction false} SampleSize<T(!new)>(pool: seq<T>, k: nat, seeds: seq<nat>)
    requires k <= |pool| && k <= |seeds| && Distinct(pool)
    ensures |Sample(pool, k, seeds)| == k
    decreases k
  {
    if k > 0 {
      SampleStep(pool, k, seeds);
      SampleSize(Remove(pool, seeds[0] % |pool|), k - 1, seeds[1..]);
    }
  }

  /** The winning indexes of a coupon: k distinct positions in [0, n). */
  lemma SampleOfRange(n: nat, k: nat, seeds: seq<nat>)
    requires k <= n && k <= |seeds|
    ensures |Sample(Range(n), k, seeds)| == k
    ensures forall x :: x in Sample(Range(n), k, seeds) ==> 0 <= x < n
  {
    RangeDistinct(n);
    SampleSize(Range(n), k, seeds);
    SampleWithinPool(Range(n), k, seeds);
  }
}
