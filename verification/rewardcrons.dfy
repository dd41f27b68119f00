/** The daily free-reward allocation of rewarding/reward_crons.py:
    `prepare_rewards` and `offer_free_coupon`. Each run visits the operators
    whose subscription has not expired. For one operator it first hands JOIN
    rewards to members never rewarded, then fills the rest of the day's target
    from the profiles rewarded longest ago: a member on a winning slot of a
    coupon is topped up to the coupon's heap plus a bonus, any other member is
    offered a small random count of the coupons not yet near their heap.
    Every reward prepared here stays Prepared until the send cron.

    Three evident slips of the code are modelled by their intent:
    `never_rewarded_count` starts at 0 (the code starts it at `[]`),
    `coupon_list` is the service's approved and active coupons (the code
    leaves it empty and sets the winning indexes on other objects), and the
    winners of the day are kept within [0, n] so the sample can be drawn. */
module RewardCrons {
  import opened Models
  import opened Ledger
  import opened Quota
  import opened Chance
  import opened Selection

  const CriticalLimit: int := 75
  const MaxFree: int := 42
  const MinFree: int := 4
  /** `offer_free_coupon` keeps its offers 5 units below the heap. */
  const OfferMargin: int := 5
  /** Profiles rewarded less than two days ago are not backfill candidates. */
  const BackfillAge: int := 2 * SecondsPerDay

  /** The random draws of a run, each identified by what it is for; a run is
      given one seed per draw. */
  datatype Draw =
    | SampleDraw(service: ServiceId, coupon: CouponId, k: int)
    | BonusDraw(service: ServiceId, slot: int)
    | ShuffleDraw(service: ServiceId, slot: int, k: int)
    | OfferDraw(service: ServiceId, slot: int, coupon: CouponId)
    | ChoiceDraw(service: ServiceId, slot: int)

  function Min(a: int, b: int): int { if a <= b then a else b }
  function Max(a: int, b: int): int { if a >= b then a else b }

  // ------------------------------------------------- prepared reward rows

  predicate PreparedOf(r: Reward, s: ServiceId, m: MemberId, c: CouponId, rtype: RewardType)
  {
    r.service == s && r.member == m && r.coupon == c && r.rtype == rtype && r.status == Prepared
  }

  /** The row `Reward.objects.get_or_create(..., status=PREPARED)` finds. */
  function FindPrepared(rs: seq<Reward>, s: ServiceId, m: MemberId, c: CouponId, rtype: RewardType): (r: Option<nat>)
    ensures r.Some? ==> r.value < |rs| && PreparedOf(rs[r.value], s, m, c, rtype)
    ensures r.None? ==> forall j :: 0 <= j < |rs| ==> !PreparedOf(rs[j], s, m, c, rtype)
    decreases |rs|
  {
    if rs == [] then None
    else if PreparedOf(rs[|rs| - 1], s, m, c, rtype) then Some(|rs| - 1)
    else
      var r := FindPrepared(rs[..|rs| - 1], s, m, c, rtype);
      assert forall j :: 0 <= j < |rs| - 1 ==> rs[j] == rs[..|rs| - 1][j];
      r
  }

  /** `reward, _ = get_or_create(...); reward.count += count; reward.save()`. */
  function AddToPrepared(rs: seq<Reward>, s: ServiceId, m: MemberId, c: CouponId, rtype: RewardType,
                         count: int, now: int): seq<Reward>
  {
    match FindPrepared(rs, s, m, c, rtype)
    case Some(i) => rs[i := rs[i].(count := rs[i].count + count)]
    case None => rs + [NewReward(s, m, c, rtype, now).(count := count)]
  }

  /** The units prepared for (member, coupon) with the given type. */
  function PreparedSum(rs: seq<Reward>, s: ServiceId, m: MemberId, c: CouponId, rtype: RewardType): int
    decreases |rs|
  {
    if rs == [] then 0
    else PreparedSum(rs[..|rs| - 1], s, m, c, rtype)
         + (if PreparedOf(rs[|rs| - 1], s, m, c, rtype) then rs[|rs| - 1].count else 0)
  }

  lemma {:induction false} PreparedSumUpdate(rs: seq<Reward>, i: nat, r: Reward,
                                             s: ServiceId, m: MemberId, c: CouponId, rtype: RewardType)
    requires i < |rs| && PreparedOf(rs[i], s, m, c, rtype) && PreparedOf(r, s, m, c, rtype)
    ensures PreparedSum(rs[i := r], s, m, c, rtype) == PreparedSum(rs, s, m, c, rtype) - rs[i].count + r.count
    decreases |rs|
  {
    var rs' := rs[i := r];
    if i < |rs| - 1 {
      assert rs'[..|rs'| - 1] == rs[..|rs| - 1][i := r];
      PreparedSumUpdate(rs[..|rs| - 1], i, r, s, m, c, rtype);
    } else {
      assert rs'[..|rs'| - 1] == rs[..|rs| - 1];
    }
  }

  /** Accumulating into the prepared reward raises the prepared units of
      (member, coupon) by exactly `count`, adds at most one row, and leaves
      every other row as it was. */
  lemma AddToPreparedAccumulates(rs: seq<Reward>, s: ServiceId, m: MemberId, c: CouponId, rtype: RewardType,
                                 count: int, now: int)
    ensures var rs' := AddToPrepared(rs, s, m, c, rtype, count, now);
      && PreparedSum(rs', s, m, c, rtype) == PreparedSum(rs, s, m, c, rtype) + count
      && |rs| <= |rs'| <= |rs| + 1
      && (forall j :: 0 <= j < |rs| && !PreparedOf(rs[j], s, m, c, rtype) ==> rs'[j] == rs[j])
      && (exists j :: 0 <= j < |rs'| && PreparedOf(rs'[j], s, m, c, rtype))
  {
    var rs' := AddToPrepared(rs, s, m, c, rtype, count, now);
    match FindPrepared(rs, s, m, c, rtype)
    case Some(i) =>
      PreparedSumUpdate(rs, i, rs[i].(count := rs[i].count + count), s, m, c, rtype);
      assert PreparedOf(rs'[i], s, m, c, rtype);
    case None =>
      assert rs'[..|rs'| - 1] == rs;
      assert PreparedOf(rs'[|rs|], s, m, c, rtype);
  }

  // ------------------------------------------------------ grant sizes

  /** A winning grant: what is missing to the heap, plus `randrange(3, 20, 3)`. */
  function HitCount(heap: int, bal: int, seed: nat): (count: int)
    ensures count >= 3
    ensures bal + count >= heap + 3
    ensures bal < heap ==> bal + count <= heap + 18
    ensures bal >= heap ==> count <= 18
  {
    Max(0, heap - bal) + Bonus(seed)
  }

  /** Every bonus step is reachable: a grant tops the balance up to the heap
      and adds 3, 6, 9, 12, 15 or 18. */
  lemma HitCountBonus(heap: int, bal: int, bonus: int)
    requires bal < heap && 3 <= bonus <= 18 && bonus % 3 == 0
    ensures bal + HitCount(heap, bal, bonus / 3 - 1) == heap + bonus
  {
    BonusReachesEveryStep(bonus);
  }

  /** The bounds `offer_free_coupon` draws from: m = min(42, left) / coefficient
      and [min(4, m), m]. */
  function OfferLow(heap: int, bal: int, coef: int): int
    requires coef >= 1
  {
    Min(MinFree, OfferHigh(heap, bal, coef))
  }

  function OfferHigh(heap: int, bal: int, coef: int): int
    requires coef >= 1
  {
    PyDiv(Min(MaxFree, heap - bal - OfferMargin), coef)
  }

  /** `random.randint(min_count, max_count)`. */
  function OfferCount(heap: int, bal: int, coef: int, seed: nat): int
    requires coef >= 1
  {
    RandInt(OfferLow(heap, bal, coef), OfferHigh(heap, bal, coef), seed)
  }

  lemma MulMonotone(a: int, b: int, c: int)
    requires a <= b && c >= 0
    ensures a * c <= b * c
  {
  }

  /** A free offer is worth at most 42 weighted units and never more than
      what keeps the balance 5 below the heap; when both leave room for 4
      units it is at least 4, and when both leave room for one it is at
      least 1. */
  lemma OfferCountBounds(heap: int, bal: int, coef: int, seed: nat)
    requires coef >= 1
    ensures var count := OfferCount(heap, bal, coef, seed);
      && count * coef <= MaxFree
      && count * coef <= heap - bal - OfferMargin
      && (MaxFree >= MinFree * coef && heap - bal - OfferMargin >= MinFree * coef ==> count >= MinFree)
      && (MaxFree >= coef && heap - bal - OfferMargin >= coef ==> count >= 1)
  {
    var count := OfferCount(heap, bal, coef, seed);
    var hi := OfferHigh(heap, bal, coef);
    var left := Min(MaxFree, heap - bal - OfferMargin);
    assert hi * coef <= left < hi * coef + coef;
    MulMonotone(count, hi, coef);
    if left >= MinFree * coef && hi < MinFree {
      MulMonotone(hi + 1, MinFree, coef);
    }
    if left >= coef && hi < 1 {
      MulMonotone(hi + 1, 1, coef);
    }
  }

  /** Below the margin, a free offer never completes the heap on its own. */
  lemma OfferNeverCompletesHeap(heap: int, bal: int, coef: int, seed: nat)
    requires coef >= 1 && bal <= heap - OfferMargin
    ensures bal + OfferCount(heap, bal, coef, seed) <= heap - OfferMargin
  {
    var count := OfferCount(heap, bal, coef, seed);
    OfferCountBounds(heap, bal, coef, seed);
    var hi := OfferHigh(heap, bal, coef);
    if hi < 0 {
      MulMonotone(hi + 1, 0, coef);
    }
    MulMonotone(1, coef, count);
  }

  /** As written, a balance already past the margin gives a negative offer:
      10 units of heap, a balance of 20 and coefficient 1 offer -15. */
  lemma OfferCanBeNegative()
    ensures OfferCount(10, 20, 1, 0) == -15
  {
  }

  // ---------------------------------------------------- the never tier

  /** A member's join rewards being prepared, with the profile they update. */
  datatype Prep = Prep(rewards: seq<Reward>, profile: Profile)

  function JoinPrepStep(acc: Prep, s: ServiceId, m: MemberId, c: Coupon, packs: seq<RewardPack>, now: int): Prep
  {
    var u := Units(JoinTable(packs), s, c.id);
    if u > 0 then
      Prep(acc.rewards + [Reward(s, m, c.id, u, Prepared, JoinType, now)],
           acc.profile.(couponScore := acc.profile.couponScore + u * c.coefficient, lastRewardDate := now))
    else acc
  }

  /** The loop over the service's coupons for a member never rewarded. */
  function JoinPrep(acc: Prep, s: ServiceId, m: MemberId, cs: seq<Coupon>, packs: seq<RewardPack>, now: int): Prep
    decreases |cs|
  {
    if cs == [] then acc
    else JoinPrepStep(JoinPrep(acc, s, m, cs[..|cs| - 1], packs, now), s, m, cs[|cs| - 1], packs, now)
  }

  /** Each coupon with a positive join pack gets a Prepared JOIN reward of the
      pack's count; only such rewards are added; the coupon score grows by the
      weighted sum of the packs and the tier is left alone. */
  lemma {:induction false} JoinPrepEffect(acc: Prep, s: ServiceId, m: MemberId, cs: seq<Coupon>, packs: seq<RewardPack>, now: int)
    ensures var r := JoinPrep(acc, s, m, cs, packs, now);
      && r.profile == acc.profile.(couponScore := acc.profile.couponScore + WeightedSum(JoinTable(packs), s, cs),
                                   lastRewardDate := r.profile.lastRewardDate)
      && (UnitsSum(JoinTable(packs), s, cs) == 0 ==> r.profile.lastRewardDate == acc.profile.lastRewardDate)
      && |r.rewards| >= |acc.rewards| && r.rewards[..|acc.rewards|] == acc.rewards
      && (forall j :: |acc.rewards| <= j < |r.rewards| ==>
            r.rewards[j].member == m && r.rewards[j].service == s && r.rewards[j].status == Prepared
            && r.rewards[j].rtype == JoinType && r.rewards[j].count > 0)
      && (forall c :: c in cs && Units(JoinTable(packs), s, c.id) > 0 ==>
            Reward(s, m, c.id, Units(JoinTable(packs), s, c.id), Prepared, JoinType, now) in r.rewards)
    decreases |cs|
  {
    if cs != [] {
      JoinPrepEffect(acc, s, m, cs[..|cs| - 1], packs, now);
      assert forall c :: c in cs ==> c in cs[..|cs| - 1] || c == cs[|cs| - 1];
      UnitsSumNonNegative(JoinTable(packs), s, cs[..|cs| - 1]);
    }
  }

  lemma {:induction false} UnitsSumNonNegative(table: PackTable, s: ServiceId, cs: seq<Coupon>)
    ensures UnitsSum(table, s, cs) >= 0
    decreases |cs|
  {
    if cs != [] {
      UnitsSumNonNegative(table, s, cs[..|cs| - 1]);
    }
  }

  /** The handled count of the never tier with the tables it leaves. */
  datatype Never = Never(t: Tables, count: int)

  function SetProfile(t: Tables, s: ServiceId, m: MemberId, p: Profile): Tables
  {
    t.(profiles := t.profiles[MemberKey(s, m) := p])
  }

  /** One member of `Member.objects.using(db).all()`. */
  function NeverStep(acc: Never, s: ServiceId, target: int, m: MemberId, now: int): Never
  {
    var t := acc.t;
    var p := ProfileOf(t, s, m, now);
    if LastReward(t.rewards, m, s).None? && acc.count < target then
      var r := JoinPrep(Prep(t.rewards, p), s, m, ServiceCoupons(t, s, AllOfService), t.joinPacks, now);
      Never(SetProfile(t.(rewards := r.rewards), s, m, r.profile.(rewardScore := FreeReward)), acc.count + 1)
    else
      Never(SetProfile(t, s, m, p.(rewardScore := FreeReward)), acc.count)
  }

  function NeverTier(acc: Never, s: ServiceId, target: int, ms: seq<MemberId>, now: int): Never
    decreases |ms|
  {
    if ms == [] then acc
    else NeverStep(NeverTier(acc, s, target, ms[..|ms| - 1], now), s, target, ms[|ms| - 1], now)
  }

  /** The never tier hands JOIN rewards to at most N members, gives every
      member visited a profile at FREE_REWARD, and touches nothing but rewards
      and profiles; it only appends rewards, all of them Prepared. */
  lemma {:induction false} NeverTierEffect(acc: Never, s: ServiceId, target: int, ms: seq<MemberId>, now: int)
    requires acc.count <= Max(target, 0) && acc.count >= 0
    ensures var r := NeverTier(acc, s, target, ms, now);
      && acc.count <= r.count <= Max(target, 0)
      && r.count - acc.count <= |ms|
      && r.t == acc.t.(rewards := r.t.rewards, profiles := r.t.profiles)
      && (forall m :: m in ms ==> MemberKey(s, m) in r.t.profiles && r.t.profiles[MemberKey(s, m)].rewardScore == FreeReward)
      && (forall k :: k in acc.t.profiles && (k.service != s || k.member !in ms) ==>
            k in r.t.profiles && r.t.profiles[k] == acc.t.profiles[k])
      && |r.t.rewards| >= |acc.t.rewards| && r.t.rewards[..|acc.t.rewards|] == acc.t.rewards
      && (forall j :: |acc.t.rewards| <= j < |r.t.rewards| ==> r.t.rewards[j].status == Prepared)
    decreases |ms|
  {
    if ms != [] {
      var init := ms[..|ms| - 1];
      var m := ms[|ms| - 1];
      NeverTierEffect(acc, s, target, init, now);
      var mid := NeverTier(acc, s, target, init, now);
      NeverStepEffect(mid, s, target, m, now);
      var r := NeverStep(mid, s, target, m, now);
      assert NeverTier(acc, s, target, ms, now) == r;
      var n0, n1 := |acc.t.rewards|, |mid.t.rewards|;
      assert r.t.rewards[..n1] == mid.t.rewards;
      assert r.t.rewards[..n0] == r.t.rewards[..n1][..n0];
      forall j | n0 <= j < |r.t.rewards|
        ensures r.t.rewards[j].status == Prepared
      {
        if j < n1 {
          assert r.t.rewards[j] == r.t.rewards[..n1][j];
        }
      }
      forall x | x in ms
        ensures MemberKey(s, x) in r.t.profiles && r.t.profiles[MemberKey(s, x)].rewardScore == FreeReward
      {
        assert x in init || x == m;
      }
      forall k | k in acc.t.profiles && (k.service != s || k.member !in ms)
        ensures k in r.t.profiles && r.t.profiles[k] == acc.t.profiles[k]
      {
        assert k.service != s || k.member !in init;
        assert k != MemberKey(s, m);
      }
    }
  }

  /** One member of the never tier: the count grows by at most one and stays
      within N, the member's profile ends at FREE_REWARD, no other profile
      changes, and only Prepared rewards are appended. */
  lemma NeverStepEffect(acc: Never, s: ServiceId, target: int, m: MemberId, now: int)
    requires acc.count <= Max(target, 0) && acc.count >= 0
    ensures var r := NeverStep(acc, s, target, m, now);
      && acc.count <= r.count <= Max(target, 0)
      && r.count <= acc.count + 1
      && r.t == acc.t.(rewards := r.t.rewards, profiles := r.t.profiles)
      && MemberKey(s, m) in r.t.profiles && r.t.profiles[MemberKey(s, m)].rewardScore == FreeReward
      && (forall k :: k in acc.t.profiles && k != MemberKey(s, m) ==> k in r.t.profiles && r.t.profiles[k] == acc.t.profiles[k])
      && |r.t.rewards| >= |acc.t.rewards| && r.t.rewards[..|acc.t.rewards|] == acc.t.rewards
      && (forall j :: |acc.t.rewards| <= j < |r.t.rewards| ==> r.t.rewards[j].status == Prepared)
  {
    var t := acc.t;
    var p := ProfileOf(t, s, m, now);
    if LastReward(t.rewards, m, s).None? && acc.count < target {
      JoinPrepEffect(Prep(t.rewards, p), s, m, ServiceCoupons(t, s, AllOfService), t.joinPacks, now);
    }
  }

  // ------------------------------------------------------- the backfill

  /** A backfill in progress: the tables, the coupon list with the in-memory
      coupons (their `month_winners` grow as they win), and the shuffled list,
      kept as positions in the coupon list because the two lists share their
      coupon objects. */
  datatype Backfill = Backfill(t: Tables, coupons: seq<Coupon>, shuffled: seq<int>)

  ghost predicate Weighted(cs: seq<Coupon>)
  {
    forall i :: 0 <= i < |cs| ==> cs[i].coefficient >= 1
  }

  ghost predicate PositionsIn(ps: seq<int>, n: int)
  {
    forall i :: 0 <= i < |ps| ==> 0 <= ps[i] < n
  }

  lemma PermutedPositions(ps: seq<int>, qs: seq<int>, n: int)
    requires PositionsIn(ps, n) && multiset(qs) == multiset(ps)
    ensures PositionsIn(qs, n)
  {
    forall i | 0 <= i < |qs|
      ensures 0 <= qs[i] < n
    {
      assert qs[i] in multiset(ps);
      var j :| 0 <= j < |ps| && ps[j] == qs[i];
    }
  }

  ghost predicate BackfillReady(b: Backfill, wins: seq<set<int>>)
  {
    Consistent(b.t) && Weighted(b.coupons) && |wins| == |b.coupons| && PositionsIn(b.shuffled, |b.coupons|)
  }

  /** The first coupon of the list whose winning indexes hold slot i. */
  function FirstHit(wins: seq<set<int>>, i: int): (r: Option<nat>)
    ensures r.Some? ==> (r.value < |wins| && i in wins[r.value]
                         && forall k :: 0 <= k < r.value ==> i !in wins[k])
    ensures r.None? ==> forall k :: 0 <= k < |wins| ==> i !in wins[k]
    decreases |wins|
  {
    if wins == [] then None
    else if i in wins[0] then Some(0)
    else match FirstHit(wins[1..], i)
      case Some(k) =>
        assert forall j :: 1 <= j <= k ==> wins[j] == wins[1..][j - 1];
        Some(k + 1)
      case None =>
        assert forall j :: 1 <= j < |wins| ==> wins[j] == wins[1..][j - 1];
        None
  }

  /** `CumulatedCoupon.objects.get_or_create(member, coupon)`. */
  function Touch(t: Tables, m: MemberId, c: CouponId): (r: Tables)
    ensures Balance(r, m, c) == Balance(t, m, c) && Holding(m, c) in r.balances
    ensures r == t.(balances := r.balances)
    ensures forall h :: h != Holding(m, c) ==> SameRow(r.balances, t.balances, h)
  {
    if Holding(m, c) in t.balances then t else t.(balances := t.balances[Holding(m, c) := 0])
  }

  /** `random.shuffle(shuffled_coupon_list)` for the member on slot `slot`. */
  function ShuffledOrder(b: Backfill, s: ServiceId, slot: int, dice: Draw -> nat): (order: seq<int>)
    requires PositionsIn(b.shuffled, |b.coupons|)
    ensures multiset(order) == multiset(b.shuffled) && PositionsIn(order, |b.coupons|)
  {
    var order := Shuffle(b.shuffled, seq(|b.shuffled|, j => dice(ShuffleDraw(s, slot, j))));
    PermutedPositions(b.shuffled, order, |b.coupons|);
    order
  }

  /** A member's free offers being prepared. */
  datatype Offers = Offers(t: Tables, profile: Profile, offered: bool)

  /** `offer_free_coupon(service, member, profile, coupon, cumul)`. */
  function Offer(acc: Offers, s: ServiceId, m: MemberId, c: Coupon, bal: int, seed: nat, now: int): Offers
    requires c.coefficient >= 1
  {
    var count := OfferCount(c.heapSize, bal, c.coefficient, seed);
    Offers(acc.t.(rewards := AddToPrepared(acc.t.rewards, s, m, c.id, FreeType, count, now)),
           acc.profile.(couponScore := acc.profile.couponScore + count * c.coefficient, lastRewardDate := now),
           true)
  }

  /** One coupon of the shuffled list: skipped at 75 units or more, offered
      otherwise. */
  function OfferStep(acc: Offers, s: ServiceId, m: MemberId, c: Coupon, seed: nat, now: int): Offers
    requires c.coefficient >= 1
  {
    var t := Touch(acc.t, m, c.id);
    var bal := Balance(t, m, c.id);
    if bal >= CriticalLimit then acc.(t := t)
    else Offer(acc.(t := t), s, m, c, bal, seed, now)
  }

  /** The loop over the shuffled list, visiting the coupons at the positions
      `order` lists. */
  function OfferLoop(acc: Offers, s: ServiceId, m: MemberId, cl: seq<Coupon>, order: seq<int>,
                     slot: nat, dice: Draw -> nat, now: int): Offers
    requires Weighted(cl) && PositionsIn(order, |cl|)
    decreases |order|
  {
    if order == [] then acc
    else
      var init := order[..|order| - 1];
      var c := cl[order[|order| - 1]];
      OfferStep(OfferLoop(acc, s, m, cl, init, slot, dice, now), s, m, c,
                dice(OfferDraw(s, slot, c.id)), now)
  }

  /** One coupon of the shuffled list: the member's balance row exists
      afterwards and no balance moves; below the critical limit an offer is
      made and the last reward date is now; at the limit or above nothing
      else changes. */
  lemma OfferStepEffect(acc: Offers, s: ServiceId, m: MemberId, c: Coupon, seed: nat, now: int)
    requires c.coefficient >= 1
    ensures var r := OfferStep(acc, s, m, c, seed, now);
      && (r.offered <==> acc.offered || Balance(acc.t, m, c.id) < CriticalLimit)
      && (forall x :: Balance(r.t, m, x) == Balance(acc.t, m, x))
      && Holding(m, c.id) in r.t.balances
      && (forall h: Holding :: h != Holding(m, c.id) ==> SameRow(r.t.balances, acc.t.balances, h))
      && r.t == acc.t.(balances := r.t.balances, rewards := r.t.rewards)
      && r.profile.rewardScore == acc.profile.rewardScore
      && (Balance(acc.t, m, c.id) >= CriticalLimit ==> r.t.rewards == acc.t.rewards && r.profile == acc.profile)
      && (Balance(acc.t, m, c.id) < CriticalLimit ==> r.profile.lastRewardDate == now)
  {
  }

  /** The offer loop creates a balance row for every coupon visited and
      changes no balance; without an offer the rewards and the profile are as
      they were, and after a first offer the last reward date is now. */
  lemma {:induction false} OfferLoopFrame(acc: Offers, s: ServiceId, m: MemberId, cl: seq<Coupon>, order: seq<int>,
                                          slot: nat, dice: Draw -> nat, now: int)
    requires Weighted(cl) && PositionsIn(order, |cl|)
    ensures var r := OfferLoop(acc, s, m, cl, order, slot, dice, now);
      && (forall c :: Balance(r.t, m, c) == Balance(acc.t, m, c))
      && (forall j :: 0 <= j < |order| ==> Holding(m, cl[order[j]].id) in r.t.balances)
      && (forall h: Holding :: h.member != m ==> SameRow(r.t.balances, acc.t.balances, h))
      && r.t == acc.t.(balances := r.t.balances, rewards := r.t.rewards)
      && r.profile.rewardScore == acc.profile.rewardScore
      && (!r.offered ==> r.t.rewards == acc.t.rewards && r.profile == acc.profile)
      && (r.offered && !acc.offered ==> r.profile.lastRewardDate == now)
      && (acc.offered ==> r.offered)
    decreases |order|
  {
    if order != [] {
      var init := order[..|order| - 1];
      OfferLoopFrame(acc, s, m, cl, init, slot, dice, now);
      var mid := OfferLoop(acc, s, m, cl, init, slot, dice, now);
      var c := cl[order[|order| - 1]];
      OfferStepEffect(mid, s, m, c, dice(OfferDraw(s, slot, c.id)), now);
      var r := OfferLoop(acc, s, m, cl, order, slot, dice, now);
      assert r == OfferStep(mid, s, m, c, dice(OfferDraw(s, slot, c.id)), now);
      forall x
        ensures Balance(r.t, m, x) == Balance(acc.t, m, x)
      {
        assert Balance(r.t, m, x) == Balance(mid.t, m, x);
      }
      forall j | 0 <= j < |order|
        ensures Holding(m, cl[order[j]].id) in r.t.balances
      {
        if j < |init| {
          assert init[j] == order[j];
          assert SameRow(r.t.balances, mid.t.balances, Holding(m, cl[order[j]].id))
              || Holding(m, cl[order[j]].id) == Holding(m, c.id);
        }
      }
      forall h: Holding | h.member != m
        ensures SameRow(r.t.balances, acc.t.balances, h)
      {
        assert SameRow(r.t.balances, mid.t.balances, h);
      }
    }
  }

  /** The offer loop makes an offer exactly when some coupon visited is below
      the critical limit. */
  lemma {:induction false} OfferLoopOffers(acc: Offers, s: ServiceId, m: MemberId, cl: seq<Coupon>, order: seq<int>,
                                           slot: nat, dice: Draw -> nat, now: int)
    requires Weighted(cl) && PositionsIn(order, |cl|)
    ensures OfferLoop(acc, s, m, cl, order, slot, dice, now).offered
        <==> (acc.offered || exists j :: 0 <= j < |order| && Balance(acc.t, m, cl[order[j]].id) < CriticalLimit)
    decreases |order|
  {
    if order != [] {
      var init := order[..|order| - 1];
      var mid := OfferLoop(acc, s, m, cl, init, slot, dice, now);
      var c := cl[order[|order| - 1]];
      assert Balance(mid.t, m, c.id) == Balance(acc.t, m, c.id) by {
        OfferLoopFrame(acc, s, m, cl, init, slot, dice, now);
      }
      assert OfferLoop(acc, s, m, cl, order, slot, dice, now).offered <==> mid.offered || Balance(acc.t, m, c.id) < CriticalLimit by {
        OfferStepEffect(mid, s, m, c, dice(OfferDraw(s, slot, c.id)), now);
      }
      OfferLoopOffers(acc, s, m, cl, init, slot, dice, now);
      SomeBelowSnoc(acc.t, m, cl, order);
    }
  }

  /** A coupon of the list below the critical limit is either among the
      first ones or the last one. */
  lemma SomeBelowSnoc(t: Tables, m: MemberId, cl: seq<Coupon>, order: seq<int>)
    requires PositionsIn(order, |cl|) && order != []
    ensures var init := order[..|order| - 1];
      (exists j :: 0 <= j < |order| && Balance(t, m, cl[order[j]].id) < CriticalLimit)
      <==> ((exists j :: 0 <= j < |init| && Balance(t, m, cl[init[j]].id) < CriticalLimit)
            || Balance(t, m, cl[order[|order| - 1]].id) < CriticalLimit)
  {
    var init := order[..|order| - 1];
    assert forall j :: 0 <= j < |init| ==> init[j] == order[j];
    var last := |order| - 1;
    if Balance(t, m, cl[order[last]].id) < CriticalLimit {
      assert 0 <= last < |order|;
    }
  }

  /** The winning branch for coupon `b.coupons[k]`: the balance row is
      created, the FREE reward topped up, the coupon saved with one more
      winner and the profile written. */
  function WinningGrant(b: Backfill, s: ServiceId, e: Entry, slot: nat, k: nat, dice: Draw -> nat, now: int): Backfill
    requires k < |b.coupons|
  {
    var m := e.member;
    var c := b.coupons[k];
    var t := Touch(b.t, m, c.id);
    var count := HitCount(c.heapSize, Balance(t, m, c.id), dice(BonusDraw(s, slot)));
    var won := c.(monthWinners := c.monthWinners + 1);
    var p := e.profile.(couponScore := e.profile.couponScore + count * c.coefficient, lastRewardDate := now);
    var t' := StoreCoupon(t.(rewards := AddToPrepared(t.rewards, s, m, c.id, FreeType, count, now)), won);
    Backfill(SetProfile(t', s, m, p.(rewardScore := FreeReward)), b.coupons[k := Saved(won)], b.shuffled)
  }

  /** The slot-`slot` member of the backfill, `e` being its profile as the
      query read it. */
  function BackfillMember(b: Backfill, s: ServiceId, e: Entry, slot: nat, wins: seq<set<int>>,
                          dice: Draw -> nat, now: int): Backfill
    requires BackfillReady(b, wins)
  {
    match FirstHit(wins, slot)
    case Some(k) => WinningGrant(b, s, e, slot, k, dice, now)
    case None => FreeOffers(b, s, e, slot, dice, now)
  }

  /** The branch for a member on no winning slot: the shuffled list, the
      FREE offers of the loop, the forced offer when none was made, and the
      profile written. */
  function FreeOffers(b: Backfill, s: ServiceId, e: Entry, slot: nat, dice: Draw -> nat, now: int): Backfill
    requires Weighted(b.coupons) && PositionsIn(b.shuffled, |b.coupons|)
  {
    var m := e.member;
    var order := ShuffledOrder(b, s, slot, dice);
    var r := OfferLoop(Offers(b.t, e.profile, false), s, m, b.coupons, order, slot, dice, now);
    var r' := if !r.offered && |b.coupons| > 0 then
                var c := Choice(b.coupons, dice(ChoiceDraw(s, slot)));
                Offer(r, s, m, c, Balance(r.t, m, c.id), dice(OfferDraw(s, slot, c.id)), now)
              else r;
    Backfill(SetProfile(r'.t, s, m, r'.profile.(rewardScore := FreeReward)), b.coupons, order)
  }

  /** With no approved active coupon the offer loop visits nothing and makes
      no offer, so the forced offer has no coupon to choose from; the member
      only ends in the FREE tier. */
  lemma NoCouponNoOffer(b: Backfill, s: ServiceId, e: Entry, slot: nat, dice: Draw -> nat, now: int)
    requires b.coupons == [] && PositionsIn(b.shuffled, 0)
    ensures var order := ShuffledOrder(b, s, slot, dice);
      && order == []
      && !OfferLoop(Offers(b.t, e.profile, false), s, e.member, b.coupons, order, slot, dice, now).offered
      && FreeOffers(b, s, e, slot, dice, now).t == SetProfile(b.t, s, e.member, e.profile.(rewardScore := FreeReward))
  {
  }

  /** A member on a winning slot: only the first coupon whose winning indexes
      hold the slot is granted; its `month_winners` grows by exactly one, in
      the list and in the table; the prepared FREE units of that coupon grow
      by a count that brings the balance 3 to 18 units past the heap; the
      profile's coupon score grows by the weighted count and the member ends
      at FREE_REWARD. */
  lemma WinningSlotEffect(b: Backfill, s: ServiceId, e: Entry, slot: nat, wins: seq<set<int>>,
                          dice: Draw -> nat, now: int)
    requires BackfillReady(b, wins) && FirstHit(wins, slot).Some?
    ensures var k := FirstHit(wins, slot).value;
      var c := b.coupons[k];
      var r := BackfillMember(b, s, e, slot, wins, dice, now);
      var count := HitCount(c.heapSize, Balance(b.t, e.member, c.id), dice(BonusDraw(s, slot)));
      && slot in wins[k] && (forall j :: 0 <= j < k ==> slot !in wins[j])
      && r.coupons[k].monthWinners == c.monthWinners + 1
      && (forall j :: 0 <= j < |b.coupons| && j != k ==> r.coupons[j] == b.coupons[j])
      && c.id in r.t.coupons && r.t.coupons[c.id].monthWinners == c.monthWinners + 1
      && PreparedSum(r.t.rewards, s, e.member, c.id, FreeType)
         == PreparedSum(b.t.rewards, s, e.member, c.id, FreeType) + count
      && Balance(r.t, e.member, c.id) == Balance(b.t, e.member, c.id)
      && Balance(b.t, e.member, c.id) + count >= c.heapSize + 3
      && (Balance(b.t, e.member, c.id) < c.heapSize ==> Balance(b.t, e.member, c.id) + count <= c.heapSize + 18)
      && r.t.profiles[MemberKey(s, e.member)]
         == e.profile.(couponScore := e.profile.couponScore + count * c.coefficient,
                       lastRewardDate := now, rewardScore := FreeReward)
  {
    var k := FirstHit(wins, slot).value;
    var c := b.coupons[k];
    var t := Touch(b.t, e.member, c.id);
    var count := HitCount(c.heapSize, Balance(t, e.member, c.id), dice(BonusDraw(s, slot)));
    AddToPreparedAccumulates(t.rewards, s, e.member, c.id, FreeType, count, now);
  }

  /** A member on no winning slot: the coupons stay as they were, the shuffled
      list is a permutation of the previous one, no balance moves, and when
      the list is not empty the member always receives an offer, so the last
      reward date is now; the member ends at FREE_REWARD. */
  lemma FreeOfferEffect(b: Backfill, s: ServiceId, e: Entry, slot: nat, wins: seq<set<int>>,
                        dice: Draw -> nat, now: int)
    requires BackfillReady(b, wins) && FirstHit(wins, slot).None?
    ensures var r := BackfillMember(b, s, e, slot, wins, dice, now);
      && r.coupons == b.coupons && r.t.coupons == b.t.coupons
      && multiset(r.shuffled) == multiset(b.shuffled)
      && (forall c :: Balance(r.t, e.member, c) == Balance(b.t, e.member, c))
      && MemberKey(s, e.member) in r.t.profiles
      && r.t.profiles[MemberKey(s, e.member)].rewardScore == FreeReward
      && (|b.coupons| > 0 ==> r.t.profiles[MemberKey(s, e.member)].lastRewardDate == now)
      && (|b.coupons| == 0 ==> (r.t.rewards == b.t.rewards
                                && r.t.profiles[MemberKey(s, e.member)] == e.profile.(rewardScore := FreeReward)))
  {
    var order := ShuffledOrder(b, s, slot, dice);
    OfferLoopFrame(Offers(b.t, e.profile, false), s, e.member, b.coupons, order, slot, dice, now);
  }

  /** A member on no winning slot with a coupon below the critical limit gets
      a FREE offer of that coupon in the loop, so the forced offer is not
      made; with every coupon at the limit or above the forced offer is made. */
  lemma FreeOfferIffBelowLimit(b: Backfill, s: ServiceId, e: Entry, slot: nat, wins: seq<set<int>>,
                               dice: Draw -> nat, now: int)
    requires BackfillReady(b, wins) && FirstHit(wins, slot).None?
    requires multiset(b.shuffled) == multiset(Range(|b.coupons|))
    ensures var order := ShuffledOrder(b, s, slot, dice);
      OfferLoop(Offers(b.t, e.profile, false), s, e.member, b.coupons, order, slot, dice, now).offered
      <==> exists k :: 0 <= k < |b.coupons| && Balance(b.t, e.member, b.coupons[k].id) < CriticalLimit
  {
    var order := ShuffledOrder(b, s, slot, dice);
    OfferLoopOffers(Offers(b.t, e.profile, false), s, e.member, b.coupons, order, slot, dice, now);
    var cl := b.coupons;
    if exists k :: 0 <= k < |cl| && Balance(b.t, e.member, cl[k].id) < CriticalLimit {
      var k :| 0 <= k < |cl| && Balance(b.t, e.member, cl[k].id) < CriticalLimit;
      var j := PositionIn(order, |cl|, k);
    }
  }

  /** Every index below n has a position in a permutation of `Range(n)`. */
  lemma PositionIn(order: seq<int>, n: nat, k: int) returns (j: int)
    requires multiset(order) == multiset(Range(n)) && 0 <= k < n
    ensures 0 <= j < |order| && order[j] == k
  {
    assert Range(n)[k] == k;
    assert k in multiset(order);
    j :| 0 <= j < |order| && order[j] == k;
  }

  function BackfillLoop(b: Backfill, s: ServiceId, es: seq<Entry>, wins: seq<set<int>>,
                        dice: Draw -> nat, now: int): (r: Backfill)
    requires BackfillReady(b, wins)
    ensures BackfillReady(r, wins) && |r.coupons| == |b.coupons|
    decreases |es|
  {
    if es == [] then b
    else
      var mid := BackfillLoop(b, s, es[..|es| - 1], wins, dice, now);
      BackfillMemberReady(mid, s, es[|es| - 1], |es| - 1, wins, dice, now);
      BackfillMember(mid, s, es[|es| - 1], |es| - 1, wins, dice, now)
  }

  /** The backfill over a prefix one candidate longer. */
  lemma BackfillLoopSnoc(b: Backfill, s: ServiceId, es: seq<Entry>, i: nat, wins: seq<set<int>>,
                         dice: Draw -> nat, now: int)
    requires BackfillReady(b, wins) && i < |es|
    ensures var mid := BackfillLoop(b, s, es[..i], wins, dice, now);
      BackfillLoop(b, s, es[..i + 1], wins, dice, now) == BackfillMember(mid, s, es[i], i, wins, dice, now)
  {
    assert es[..i + 1][..i] == es[..i];
  }

  /** A backfill step keeps the coupon list weighted, the shuffled list within
      it and the coupon table consistent. */
  lemma BackfillMemberReady(b: Backfill, s: ServiceId, e: Entry, slot: nat, wins: seq<set<int>>,
                            dice: Draw -> nat, now: int)
    requires BackfillReady(b, wins)
    ensures var r := BackfillMember(b, s, e, slot, wins, dice, now);
      BackfillReady(r, wins) && |r.coupons| == |b.coupons|
  {
    if FirstHit(wins, slot).Some? {
      WinningStepReady(b, s, e, slot, wins, dice, now);
    } else {
      var r := BackfillMember(b, s, e, slot, wins, dice, now);
      var order := ShuffledOrder(b, s, slot, dice);
      OfferLoopFrame(Offers(b.t, e.profile, false), s, e.member, b.coupons, order, slot, dice, now);
      ConsistentFrame(b.t, r.t);
    }
  }

  lemma WinningStepReady(b: Backfill, s: ServiceId, e: Entry, slot: nat, wins: seq<set<int>>,
                         dice: Draw -> nat, now: int)
    requires BackfillReady(b, wins) && FirstHit(wins, slot).Some?
    ensures var r := BackfillMember(b, s, e, slot, wins, dice, now);
      BackfillReady(r, wins) && |r.coupons| == |b.coupons|
  {
    var r := BackfillMember(b, s, e, slot, wins, dice, now);
    var k := FirstHit(wins, slot).value;
    var c := b.coupons[k];
    var won := c.(monthWinners := c.monthWinners + 1);
    var t := Touch(b.t, e.member, c.id);
    var count := HitCount(c.heapSize, Balance(t, e.member, c.id), dice(BonusDraw(s, slot)));
    var t1 := t.(rewards := AddToPrepared(t.rewards, s, e.member, c.id, FreeType, count, now));
    ConsistentFrame(b.t, t1);
    SaveKeepsConsistent(t1, won);
    ConsistentFrame(StoreCoupon(t1, won), r.t);
    assert r.coupons == b.coupons[k := Saved(won)];
    forall i | 0 <= i < |r.coupons|
      ensures r.coupons[i].coefficient >= 1
    {
      if i != k {
        assert r.coupons[i] == b.coupons[i];
      }
    }
  }

  /** Consistency reads only the coupon table and the coupon ids. */
  lemma ConsistentFrame(t: Tables, t': Tables)
    requires Consistent(t)
    requires t'.coupons == t.coupons && t'.couponIds == t.couponIds
    ensures Consistent(t')
  {
  }

  /** A backfill step writes only the visited member's profile, always with
      FREE_REWARD, and leaves the communities and the operators alone. */
  lemma BackfillMemberFrame(b: Backfill, s: ServiceId, e: Entry, slot: nat, wins: seq<set<int>>,
                            dice: Draw -> nat, now: int)
    requires BackfillReady(b, wins)
    ensures var r := BackfillMember(b, s, e, slot, wins, dice, now);
      && MemberKey(s, e.member) in r.t.profiles
      && r.t.profiles[MemberKey(s, e.member)].rewardScore == FreeReward
      && (forall k :: k != MemberKey(s, e.member) && k in b.t.profiles ==> k in r.t.profiles && r.t.profiles[k] == b.t.profiles[k])
      && r.t.members == b.t.members && r.t.operators == b.t.operators
  {
    match FirstHit(wins, slot)
    case Some(k) =>
    case None =>
      var order := ShuffledOrder(b, s, slot, dice);
      OfferLoopFrame(Offers(b.t, e.profile, false), s, e.member, b.coupons, order, slot, dice, now);
  }

  /** Over the whole backfill a profile at FREE_REWARD stays there and every
      candidate ends there. */
  lemma {:induction false} BackfillKeepsFree(b: Backfill, s: ServiceId, es: seq<Entry>, wins: seq<set<int>>,
                                             dice: Draw -> nat, now: int)
    requires BackfillReady(b, wins)
    ensures var r := BackfillLoop(b, s, es, wins, dice, now);
      && (forall k :: k in b.t.profiles && b.t.profiles[k].rewardScore == FreeReward ==>
            k in r.t.profiles && r.t.profiles[k].rewardScore == FreeReward)
      && (forall e :: e in es ==> (MemberKey(s, e.member) in r.t.profiles
                                   && r.t.profiles[MemberKey(s, e.member)].rewardScore == FreeReward))
      && r.t.members == b.t.members && r.t.operators == b.t.operators
    decreases |es|
  {
    if es != [] {
      var init := es[..|es| - 1];
      var last := es[|es| - 1];
      BackfillKeepsFree(b, s, init, wins, dice, now);
      var mid := BackfillLoop(b, s, init, wins, dice, now);
      BackfillMemberFrame(mid, s, last, |es| - 1, wins, dice, now);
      var r := BackfillLoop(b, s, es, wins, dice, now);
      assert r == BackfillMember(mid, s, last, |es| - 1, wins, dice, now);
      forall k | k in b.t.profiles && b.t.profiles[k].rewardScore == FreeReward
        ensures k in r.t.profiles && r.t.profiles[k].rewardScore == FreeReward
      {
        if k != MemberKey(s, last.member) {
          assert k in mid.t.profiles && mid.t.profiles[k].rewardScore == FreeReward;
        }
      }
      forall e | e in es
        ensures MemberKey(s, e.member) in r.t.profiles && r.t.profiles[MemberKey(s, e.member)].rewardScore == FreeReward
      {
        if MemberKey(s, e.member) != MemberKey(s, last.member) {
          assert e in init;
        }
      }
    }
  }

  // ------------------------------------------------- one operator, one run

  /** The winning indexes of each coupon of the list:
      `random.sample(range(n), winners_today)`. */
  function WinningIndexes(cl: seq<Coupon>, s: ServiceId, n: int, remaining: int, dice: Draw -> nat): (wins: seq<set<int>>)
    requires n >= 0 && remaining >= 1
    ensures |wins| == |cl|
  {
    seq(|cl|, k requires 0 <= k < |cl| =>
      var w := WinnersToday(cl[k].monthQuota, cl[k].monthWinners, remaining, n);
      Sample(Range(n), w, seq(w, j => dice(SampleDraw(s, cl[k].id, j)))))
  }

  /** Each coupon gets exactly its winners of the day as winning indexes, all
      of them slots of the n members the backfill visits. */
  lemma WinningIndexesAreSlots(cl: seq<Coupon>, s: ServiceId, n: int, remaining: int, dice: Draw -> nat, k: nat)
    requires n >= 0 && remaining >= 1 && k < |cl|
    ensures var wins := WinningIndexes(cl, s, n, remaining, dice);
      && |wins[k]| == WinnersToday(cl[k].monthQuota, cl[k].monthWinners, remaining, n)
      && forall i :: i in wins[k] ==> 0 <= i < n
  {
    var w := WinnersToday(cl[k].monthQuota, cl[k].monthWinners, remaining, n);
    SampleOfRange(n, w, seq(w, j => dice(SampleDraw(s, cl[k].id, j))));
  }

  /** `Member.objects.using(db).all()`: the members of the service's community. */
  function Community(t: Tables, s: ServiceId): seq<MemberId>
  {
    if s in t.members then t.members[s] else []
  }

  /** The tables after the never tier of service `s`. */
  function NeverDone(t: Tables, s: ServiceId, now: int): (r: Tables)
    requires s in t.operators
    ensures r == t.(rewards := r.rewards, profiles := r.profiles)
  {
    var target := DailyTarget(t.operators[s].audienceSize);
    NeverTierEffect(Never(t, 0), s, target, Community(t, s), now);
    NeverTier(Never(t, 0), s, target, Community(t, s), now).t
  }

  /** The backfill size: what the never tier leaves of the daily target. */
  function BackfillSize(t: Tables, s: ServiceId, now: int): int
    requires s in t.operators
  {
    var target := DailyTarget(t.operators[s].audienceSize);
    target - NeverTier(Never(t, 0), s, target, Community(t, s), now).count
  }

  /** The never tier hands JOIN rewards to at most N members, so the backfill
      size n = N - handled is never negative nor above N. */
  lemma BackfillSizeBounds(t: Tables, s: ServiceId, now: int)
    requires s in t.operators && t.operators[s].audienceSize >= 0
    ensures 0 <= BackfillSize(t, s, now) <= DailyTarget(t.operators[s].audienceSize)
  {
    var target := DailyTarget(t.operators[s].audienceSize);
    NeverTierEffect(Never(t, 0), s, target, Community(t, s), now);
  }

  /** The backfill of service `s` over the tables the never tier left. */
  function BackfillRun(t1: Tables, s: ServiceId, n: int, now: int, remaining: int, dice: Draw -> nat): (r: Tables)
    requires Consistent(t1) && n >= 0 && remaining >= 1
    ensures Consistent(r)
  {
    var cl := ServiceCoupons(t1, s, ApprovedAndActive);
    ServiceCouponsDistinct(t1, s, ApprovedAndActive);
    var wins := WinningIndexes(cl, s, n, remaining, dice);
    var es := Candidates(Community(t1, s), t1.profiles, s, now - BackfillAge, n);
    RangeDistinct(|cl|);
    BackfillLoop(Backfill(t1, cl, Range(|cl|)), s, es, wins, dice, now).t
  }

  /** The backfill leaves every profile at FREE_REWARD there, and the
      communities and the operators untouched. */
  lemma BackfillRunKeepsFree(t1: Tables, s: ServiceId, n: int, now: int, remaining: int, dice: Draw -> nat)
    requires Consistent(t1) && n >= 0 && remaining >= 1
    ensures var r := BackfillRun(t1, s, n, now, remaining, dice);
      && (forall k :: k in t1.profiles && t1.profiles[k].rewardScore == FreeReward ==>
            k in r.profiles && r.profiles[k].rewardScore == FreeReward)
      && r.members == t1.members && r.operators == t1.operators
  {
    var cl := ServiceCoupons(t1, s, ApprovedAndActive);
    ServiceCouponsDistinct(t1, s, ApprovedAndActive);
    var wins := WinningIndexes(cl, s, n, remaining, dice);
    var es := Candidates(Community(t1, s), t1.profiles, s, now - BackfillAge, n);
    RangeDistinct(|cl|);
    BackfillKeepsFree(Backfill(t1, cl, Range(|cl|)), s, es, wins, dice, now);
  }

  /** `prepare_rewards` for the operator of service `s`; `remaining` is the
      number of days left in the month. */
  function PrepareService(t: Tables, s: ServiceId, now: int, remaining: int, dice: Draw -> nat): (r: Tables)
    requires Consistent(t) && s in t.operators && t.operators[s].audienceSize >= 0 && remaining >= 1
    ensures Consistent(r)
  {
    BackfillSizeBounds(t, s, now);
    BackfillRun(NeverDone(t, s, now), s, BackfillSize(t, s, now), now, remaining, dice)
  }

  /** After a run for one operator every member of its community has a
      profile at FREE_REWARD, every profile at FREE_REWARD before is still
      there, and the communities and the operators are untouched. */
  lemma PrepareServiceEndsFree(t: Tables, s: ServiceId, now: int, remaining: int, dice: Draw -> nat)
    requires Consistent(t) && s in t.operators && t.operators[s].audienceSize >= 0 && remaining >= 1
    ensures var t' := PrepareService(t, s, now, remaining, dice);
      && (forall m :: m in Community(t, s) ==> (MemberKey(s, m) in t'.profiles
                                               && t'.profiles[MemberKey(s, m)].rewardScore == FreeReward))
      && (forall k :: k in t.profiles && t.profiles[k].rewardScore == FreeReward ==>
            k in t'.profiles && t'.profiles[k].rewardScore == FreeReward)
      && t'.members == t.members && t'.operators == t.operators
  {
    var t1 := NeverDone(t, s, now);
    var n := BackfillSize(t, s, now);
    BackfillSizeBounds(t, s, now);
    assert PrepareService(t, s, now, remaining, dice) == BackfillRun(t1, s, n, now, remaining, dice);
    var target := DailyTarget(t.operators[s].audienceSize);
    NeverTierEffect(Never(t, 0), s, target, Community(t, s), now);
    forall k | k in t.profiles && t.profiles[k].rewardScore == FreeReward
      ensures k in t1.profiles && t1.profiles[k].rewardScore == FreeReward
    {
      if k.service == s && k.member in Community(t, s) {
        assert k == MemberKey(s, k.member);
      }
    }
    BackfillRunKeepsFree(t1, s, n, now, remaining, dice);
  }

  /** `for operator in CROperatorProfile.objects.filter(expiry__gt=t0)`: the
      operators are visited in the order given, and one whose subscription
      has expired is skipped. */
  function PrepareAll(t: Tables, order: seq<ServiceId>, now: int, remaining: int, dice: Draw -> nat): (r: Tables)
    requires Consistent(t) && remaining >= 1
    requires forall s :: s in t.operators ==> t.operators[s].audienceSize >= 0
    ensures Consistent(r) && r.operators == t.operators
    decreases |order|
  {
    if order == [] then t
    else PrepareAll(PrepareStep(t, order[0], now, remaining, dice), order[1..], now, remaining, dice)
  }

  /** One operator of the run: prepared when its subscription has not
      expired, skipped otherwise. */
  function PrepareStep(t: Tables, s: ServiceId, now: int, remaining: int, dice: Draw -> nat): (r: Tables)
    requires Consistent(t) && remaining >= 1
    requires forall s :: s in t.operators ==> t.operators[s].audienceSize >= 0
    ensures Consistent(r) && r.operators == t.operators
  {
    if s in t.operators && t.operators[s].expiry > now then
      PrepareServiceEndsFree(t, s, now, remaining, dice);
      PrepareService(t, s, now, remaining, dice)
    else t
  }

  /** A run leaves every member of every community visited with an unexpired
      subscription at FREE_REWARD. */
  lemma {:induction false} PrepareAllEndsFree(t: Tables, order: seq<ServiceId>, now: int, remaining: int, dice: Draw -> nat)
    requires Consistent(t) && remaining >= 1
    requires forall s :: s in t.operators ==> t.operators[s].audienceSize >= 0
    ensures var r := PrepareAll(t, order, now, remaining, dice);
      && (forall k :: k in t.profiles && t.profiles[k].rewardScore == FreeReward ==>
            k in r.profiles && r.profiles[k].rewardScore == FreeReward)
      && (forall s, m :: s in order && s in t.operators && t.operators[s].expiry > now && m in Community(t, s) ==>
            MemberKey(s, m) in r.profiles && r.profiles[MemberKey(s, m)].rewardScore == FreeReward)
      && r.members == t.members
    decreases |order|
  {
    if order != [] {
      var s := order[0];
      var t' := PrepareStep(t, s, now, remaining, dice);
      var r := PrepareAll(t, order, now, remaining, dice);
      assert r == PrepareAll(t', order[1..], now, remaining, dice);
      PrepareStepEndsFree(t, s, now, remaining, dice);
      PrepareAllEndsFree(t', order[1..], now, remaining, dice);
      forall x, m | x in order && x in t.operators && t.operators[x].expiry > now && m in Community(t, x)
        ensures MemberKey(x, m) in r.profiles && r.profiles[MemberKey(x, m)].rewardScore == FreeReward
      {
        if x != s {
          assert x in order[1..];
        }
      }
    }
  }

  /** One operator of the run keeps free profiles free, puts its community
      in the free tier when it has not expired, and keeps the communities. */
  lemma PrepareStepEndsFree(t: Tables, s: ServiceId, now: int, remaining: int, dice: Draw -> nat)
    requires Consistent(t) && remaining >= 1
    requires forall s :: s in t.operators ==> t.operators[s].audienceSize >= 0
    ensures var r := PrepareStep(t, s, now, remaining, dice);
      && (forall k :: k in t.profiles && t.profiles[k].rewardScore == FreeReward ==>
            k in r.profiles && r.profiles[k].rewardScore == FreeReward)
      && (s in t.operators && t.operators[s].expiry > now ==>
            forall m :: m in Community(t, s) ==> MemberKey(s, m) in r.profiles && r.profiles[MemberKey(s, m)].rewardScore == FreeReward)
      && r.members == t.members
  {
    if s in t.operators && t.operators[s].expiry > now {
      PrepareServiceEndsFree(t, s, now, remaining, dice);
    }
  }

  // ------------------------------------------------------------ the cron

  /** `Reward.objects.get_or_create(..., status=PREPARED)`, then
      `reward.count += count` and `reward.save()`. */
  method AccumulatePrepared(db: Db, s: ServiceId, m: MemberId, c: CouponId, rtype: RewardType, count: int, now: int)
    modifies db
    ensures db.State() == old(db.State()).(rewards := AddToPrepared(old(db.rewards), s, m, c, rtype, count, now))
  {
    match FindPrepared(db.rewards, s, m, c, rtype) {
      case Some(i) =>
        var reward := db.rewards[i];
        reward := reward.(count := reward.count + count);
        db.rewards := db.rewards[i := reward];
      case None =>
        var reward := NewReward(s, m, c, rtype, now);
        reward := reward.(count := reward.count + count);
        db.rewards := db.rewards + [reward];
    }
  }

  /** `offer_free_coupon(service, member, profile, coupon, cumul)`: returns
      the profile it updates. */
  method OfferFreeCoupon(db: Db, s: ServiceId, m: MemberId, profile: Profile, c: Coupon, cumul: int,
                         seed: nat, now: int)
    returns (profile': Profile)
    requires c.coefficient >= 1
    modifies db
    ensures Offers(db.State(), profile', true) == Offer(Offers(old(db.State()), profile, false), s, m, c, cumul, seed, now)
  {
    var left := c.heapSize - cumul - OfferMargin;
    var maxCount := PyDiv(Min(MaxFree, left), c.coefficient);
    var minCount := Min(MinFree, maxCount);
    var count := RandInt(minCount, maxCount, seed);
    AccumulatePrepared(db, s, m, c.id, FreeType, count, now);
    profile' := profile.(couponScore := profile.couponScore + count * c.coefficient, lastRewardDate := now);
  }

  /** The JOIN rewards of a member never rewarded: one Prepared reward per
      coupon of the service with a positive join pack. */
  method PrepareJoinRewards(db: Db, s: ServiceId, m: MemberId, cs: seq<Coupon>, profile0: Profile, now: int)
    returns (profile: Profile)
    modifies db
    ensures Prep(db.rewards, profile) == JoinPrep(Prep(old(db.rewards), profile0), s, m, cs, old(db.joinPacks), now)
    ensures db.State() == old(db.State()).(rewards := db.rewards)
  {
    profile := profile0;
    var i := 0;
    while i < |cs|
      invariant 0 <= i <= |cs|
      invariant Prep(db.rewards, profile) == JoinPrep(Prep(old(db.rewards), profile0), s, m, cs[..i], old(db.joinPacks), now)
      invariant db.State() == old(db.State()).(rewards := db.rewards)
    {
      var c := cs[i];
      var count := Units(JoinTable(db.joinPacks), s, c.id);
      if count > 0 {
        db.rewards := db.rewards + [Reward(s, m, c.id, count, Prepared, JoinType, now)];
        profile := profile.(couponScore := profile.couponScore + count * c.coefficient, lastRewardDate := now);
      }
      assert cs[..i + 1][..i] == cs[..i];
      i := i + 1;
    }
    assert cs[..|cs|] == cs;
  }

  /** The first loop of `prepare_rewards`: returns `never_rewarded_count`. */
  method RewardNeverRewarded(db: Db, s: ServiceId, target: int, ms: seq<MemberId>, now: int)
    returns (count: int)
    modifies db
    ensures Never(db.State(), count) == NeverTier(Never(old(db.State()), 0), s, target, ms, now)
  {
    count := 0;
    var i := 0;
    while i < |ms|
      invariant 0 <= i <= |ms|
      invariant Never(db.State(), count) == NeverTier(Never(old(db.State()), 0), s, target, ms[..i], now)
    {
      count := VisitNeverRewarded(db, s, target, ms[i], count, now);
      assert ms[..i + 1][..i] == ms[..i];
      i := i + 1;
    }
    assert ms[..|ms|] == ms;
  }

  /** One member of that loop: join rewards if never rewarded and the count
      is below N, then the FREE_REWARD tier. */
  method VisitNeverRewarded(db: Db, s: ServiceId, target: int, m: MemberId, count0: int, now: int)
    returns (count: int)
    modifies db
    ensures Never(db.State(), count) == NeverStep(Never(old(db.State()), count0), s, target, m, now)
  {
    count := count0;
    var key := MemberKey(s, m);
    var profile := if key in db.profiles then db.profiles[key] else NewProfile(now);
    var last := LastReward(db.rewards, m, s);
    if last.None? && count < target {
      count := count + 1;
      var cs := ServiceCoupons(db.State(), s, AllOfService);
      profile := PrepareJoinRewards(db, s, m, cs, profile, now);
    }
    profile := profile.(rewardScore := FreeReward);
    db.profiles := db.profiles[key := profile];
  }

  /** The loop over the shuffled list: returns `all_coupon_critical` and the
      profile the offers update. */
  method OfferShuffled(db: Db, s: ServiceId, m: MemberId, cl: seq<Coupon>, order: seq<int>, slot: nat,
                       dice: Draw -> nat, profile0: Profile, now: int)
    returns (profile: Profile, allCritical: bool)
    requires Weighted(cl) && PositionsIn(order, |cl|)
    modifies db
    ensures Offers(db.State(), profile, !allCritical)
         == OfferLoop(Offers(old(db.State()), profile0, false), s, m, cl, order, slot, dice, now)
  {
    profile, allCritical := profile0, true;
    var i := 0;
    while i < |order|
      invariant 0 <= i <= |order|
      invariant Offers(db.State(), profile, !allCritical)
             == OfferLoop(Offers(old(db.State()), profile0, false), s, m, cl, order[..i], slot, dice, now)
    {
      var c := cl[order[i]];
      profile, allCritical := OfferOne(db, s, m, c, dice(OfferDraw(s, slot, c.id)), profile, allCritical, now);
      assert order[..i + 1][..i] == order[..i];
      i := i + 1;
    }
    assert order[..|order|] == order;
  }

  /** One coupon of the shuffled list: its balance row is created when
      missing, and below the critical limit the coupon is offered. */
  method OfferOne(db: Db, s: ServiceId, m: MemberId, c: Coupon, seed: nat, profile0: Profile, allCritical0: bool, now: int)
    returns (profile: Profile, allCritical: bool)
    requires c.coefficient >= 1
    modifies db
    ensures Offers(db.State(), profile, !allCritical)
         == OfferStep(Offers(old(db.State()), profile0, !allCritical0), s, m, c, seed, now)
  {
    profile, allCritical := profile0, allCritical0;
    var h := Holding(m, c.id);
    if h !in db.balances {
      db.balances := db.balances[h := 0];
    }
    var cumul := db.balances[h];
    if cumul < CriticalLimit {
      allCritical := false;
      profile := OfferFreeCoupon(db, s, m, profile, c, cumul, seed, now);
    }
  }

  /** The winning coupon of slot `slot`: the `for ... break` over the coupon
      list, `|wins|` when no coupon's indexes hold the slot. */
  method FindWinningCoupon(wins: seq<set<int>>, slot: int) returns (k: nat)
    ensures k <= |wins|
    ensures k < |wins| <==> FirstHit(wins, slot).Some?
    ensures k < |wins| ==> k == FirstHit(wins, slot).value
  {
    k := 0;
    while k < |wins| && slot !in wins[k]
      invariant 0 <= k <= |wins|
      invariant forall j :: 0 <= j < k ==> slot !in wins[j]
    {
      k := k + 1;
    }
  }

  /** The grant of a member on a winning slot of coupon `cl[k]`; returns the
      coupon list with the saved coupon. */
  method GrantWinner(db: Db, s: ServiceId, e: Entry, slot: nat, cl: seq<Coupon>,
                     shuffled: seq<int>, k: nat, dice: Draw -> nat, now: int)
    returns (cl': seq<Coupon>)
    requires k < |cl|
    modifies db
    ensures Backfill(db.State(), cl', shuffled) == WinningGrant(Backfill(old(db.State()), cl, shuffled), s, e, slot, k, dice, now)
  {
    var m := e.member;
    var c := cl[k];
    var count := TopUp(db, s, m, c, slot, dice, now);
    var profile := e.profile.(couponScore := e.profile.couponScore + count * c.coefficient, lastRewardDate := now);
    var won := c.(monthWinners := c.monthWinners + 1);
    ghost var t1 := db.State();
    db.SaveCoupon(won);
    ghost var t2 := db.State();
    assert t2 == StoreCoupon(t1, won);
    cl' := cl[k := Saved(won)];
    profile := profile.(rewardScore := FreeReward);
    db.profiles := db.profiles[MemberKey(s, m) := profile];
    assert db.State() == SetProfile(t2, s, m, profile);
  }

  /** The winning grant's reward: the missing units to the heap plus a bonus,
      accumulated into the member's Prepared FREE reward; returns the count. */
  method TopUp(db: Db, s: ServiceId, m: MemberId, c: Coupon, slot: nat, dice: Draw -> nat, now: int)
    returns (count: int)
    modifies db
    ensures var t := Touch(old(db.State()), m, c.id);
      && count == HitCount(c.heapSize, Balance(t, m, c.id), dice(BonusDraw(s, slot)))
      && db.State() == t.(rewards := AddToPrepared(t.rewards, s, m, c.id, FreeType, count, now))
  {
    var h := Holding(m, c.id);
    if h !in db.balances {
      db.balances := db.balances[h := 0];
    }
    var remaining := c.heapSize - db.balances[h];
    if remaining < 0 {
      remaining := 0;
    }
    var extra := Bonus(dice(BonusDraw(s, slot)));
    count := remaining + extra;
    AccumulatePrepared(db, s, m, c.id, FreeType, count, now);
  }

  /** The free offers of a member on no winning slot; returns the shuffled
      list. */
  method OfferLoser(db: Db, s: ServiceId, e: Entry, slot: nat, cl: seq<Coupon>,
                    shuffled: seq<int>, dice: Draw -> nat, now: int)
    returns (shuffled': seq<int>)
    requires Weighted(cl) && PositionsIn(shuffled, |cl|)
    modifies db
    ensures Backfill(db.State(), cl, shuffled') == FreeOffers(Backfill(old(db.State()), cl, shuffled), s, e, slot, dice, now)
  {
    var m := e.member;
    shuffled' := ShuffledOrder(Backfill(db.State(), cl, shuffled), s, slot, dice);
    var profile, allCritical := OfferShuffled(db, s, m, cl, shuffled', slot, dice, e.profile, now);
    if allCritical && |cl| > 0 {
      var c := Choice(cl, dice(ChoiceDraw(s, slot)));
      var h := Holding(m, c.id);
      var cumul := if h in db.balances then db.balances[h] else 0;
      profile := OfferFreeCoupon(db, s, m, profile, c, cumul, dice(OfferDraw(s, slot, c.id)), now);
    }
    profile := profile.(rewardScore := FreeReward);
    db.profiles := db.profiles[MemberKey(s, m) := profile];
  }

  /** The second loop of `prepare_rewards`, over the candidates; returns the
      coupon list and the shuffled list as they end. */
  method RewardCandidates(db: Db, s: ServiceId, es: seq<Entry>, wins: seq<set<int>>, cl0: seq<Coupon>,
                          shuffled0: seq<int>, dice: Draw -> nat, now: int)
    returns (cl: seq<Coupon>, shuffled: seq<int>)
    requires BackfillReady(Backfill(db.State(), cl0, shuffled0), wins)
    modifies db
    ensures Backfill(db.State(), cl, shuffled) == BackfillLoop(Backfill(old(db.State()), cl0, shuffled0), s, es, wins, dice, now)
  {
    ghost var b0 := Backfill(db.State(), cl0, shuffled0);
    cl, shuffled := cl0, shuffled0;
    var i := 0;
    while i < |es|
      invariant 0 <= i <= |es|
      invariant Backfill(db.State(), cl, shuffled) == BackfillLoop(b0, s, es[..i], wins, dice, now)
    {
      cl, shuffled := BackfillCandidate(db, s, es[i], i, wins, cl, shuffled, dice, now);
      BackfillLoopSnoc(b0, s, es, i, wins, dice, now);
      i := i + 1;
    }
    assert es[..|es|] == es;
  }

  /** One candidate of the loop: the grant on the first winning coupon, or
      the free offers. */
  method BackfillCandidate(db: Db, s: ServiceId, e: Entry, slot: nat, wins: seq<set<int>>, cl0: seq<Coupon>,
                           shuffled0: seq<int>, dice: Draw -> nat, now: int)
    returns (cl: seq<Coupon>, shuffled: seq<int>)
    requires BackfillReady(Backfill(db.State(), cl0, shuffled0), wins)
    modifies db
    ensures Backfill(db.State(), cl, shuffled)
         == BackfillMember(Backfill(old(db.State()), cl0, shuffled0), s, e, slot, wins, dice, now)
  {
    cl, shuffled := cl0, shuffled0;
    var k := FindWinningCoupon(wins, slot);
    if k < |wins| {
      cl := GrantWinner(db, s, e, slot, cl, shuffled, k, dice, now);
    } else {
      shuffled := OfferLoser(db, s, e, slot, cl, shuffled, dice, now);
    }
  }

  /** The loop drawing each coupon's winning indexes. */
  method DrawWinningIndexes(cl: seq<Coupon>, s: ServiceId, n: int, remaining: int, dice: Draw -> nat)
    returns (wins: seq<set<int>>)
    requires n >= 0 && remaining >= 1
    ensures wins == WinningIndexes(cl, s, n, remaining, dice)
  {
    wins := [];
    var listN := Range(n);
    var k := 0;
    while k < |cl|
      invariant 0 <= k <= |cl|
      invariant wins == WinningIndexes(cl, s, n, remaining, dice)[..k]
    {
      var coupon := cl[k];
      var winnersToday := WinnersToday(coupon.monthQuota, coupon.monthWinners, remaining, n);
      wins := wins + [Sample(listN, winnersToday, seq(winnersToday, j => dice(SampleDraw(s, coupon.id, j))))];
      k := k + 1;
    }
  }

  /** `prepare_rewards` for the operator of service `s`. */
  method PrepareRewardsFor(db: Db, s: ServiceId, now: int, remaining: int, dice: Draw -> nat)
    requires Consistent(db.State()) && s in db.operators && db.operators[s].audienceSize >= 0 && remaining >= 1
    modifies db
    ensures db.State() == PrepareService(old(db.State()), s, now, remaining, dice)
  {
    ghost var t := db.State();
    var target := DailyTarget(db.operators[s].audienceSize);
    var neverRewarded := RewardNeverRewarded(db, s, target, Community(db.State(), s), now);
    var n := target - neverRewarded;
    assert db.State() == NeverDone(t, s, now) && n == BackfillSize(t, s, now);
    BackfillSizeBounds(t, s, now);
    var cl := ServiceCoupons(db.State(), s, ApprovedAndActive);
    ServiceCouponsDistinct(db.State(), s, ApprovedAndActive);
    var wins := DrawWinningIndexes(cl, s, n, remaining, dice);
    var es := Candidates(Community(db.State(), s), db.profiles, s, now - BackfillAge, n);
    RangeDistinct(|cl|);
    var cl', shuffled' := RewardCandidates(db, s, es, wins, cl, Range(|cl|), dice, now);
  }

  /** `prepare_rewards`: one pass over the operators whose subscription has
      not expired, in the order given; the remaining days of the month come
      from the calendar moment of the run. */
  method PrepareRewards(db: Db, order: seq<ServiceId>, now: int, clock: Moment, dice: Draw -> nat)
    requires Consistent(db.State()) && ValidMoment(clock)
    requires forall s :: s in db.operators ==> db.operators[s].audienceSize >= 0
    modifies db
    ensures db.State() == PrepareAll(old(db.State()), order, now, RemainingDaysInMonth(clock), dice)
  {
    var remaining := RemainingDaysInMonth(clock);
    ghost var t0 := db.State();
    var i := 0;
    while i < |order|
      invariant 0 <= i <= |order|
      invariant Consistent(db.State()) && db.operators == t0.operators
      invariant PrepareAll(db.State(), order[i..], now, remaining, dice) == PrepareAll(t0, order, now, remaining, dice)
    {
      assert order[i..][1..] == order[i + 1..];
      PrepareOne(db, order[i], now, remaining, dice);
      i := i + 1;
    }
  }

  /** One operator of the loop, when its subscription has not expired. */
  method PrepareOne(db: Db, s: ServiceId, now: int, remaining: int, dice: Draw -> nat)
    requires Consistent(db.State()) && remaining >= 1
    requires forall s :: s in db.operators ==> db.operators[s].audienceSize >= 0
    modifies db
    ensures db.State() == PrepareStep(old(db.State()), s, now, remaining, dice)
  {
    if s in db.operators && db.operators[s].expiry > now {
      PrepareRewardsFor(db, s, now, remaining, dice);
    }
  }
}
