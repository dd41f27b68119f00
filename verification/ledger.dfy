/** The coupon ledger of rewarding/utils.py: granting coupons to a member
    (`reward_member`), spending a heap (`use_coupon`), giving units to another
    member (`donate_coupon`) and finding a member's last reward
    (`get_last_reward`). Each state-changing operation is a method on `Db`
    whose effect is a spec function of the old tables; the lemmas state what
    those functions promise. */
module Ledger {
  import opened Models

  // ------------------------------------------------- reads and get_or_create

  /** A member's cumulated units of a coupon; a missing row reads as the
      count a fresh `CumulatedCoupon` starts with. */
  function Balance(t: Tables, m: MemberId, c: CouponId): int
  {
    if Holding(m, c) in t.balances then t.balances[Holding(m, c)] else 0
  }

  function SummaryOf(t: Tables, s: ServiceId, m: MemberId): Summary
  {
    if MemberKey(s, m) in t.summaries then t.summaries[MemberKey(s, m)] else Summary(0, false)
  }

  function ProfileOf(t: Tables, s: ServiceId, m: MemberId, now: int): Profile
  {
    if MemberKey(s, m) in t.profiles then t.profiles[MemberKey(s, m)] else NewProfile(now)
  }

  predicate HasActiveOperator(t: Tables, s: ServiceId)
  {
    s in t.operators && t.operators[s].isActive
  }

  /** Holding `h` has the same row in both balance tables (or none in both). */
  ghost predicate SameRow(a: map<Holding, int>, b: map<Holding, int>, h: Holding)
  {
    (h in a <==> h in b) && (h in a ==> a[h] == b[h])
  }

  /** Summary row k is present in both tables or in neither, and the same. */
  ghost predicate SameSummary(a: map<MemberKey, Summary>, b: map<MemberKey, Summary>, k: MemberKey)
  {
    (k in a <==> k in b) && (k in a ==> a[k] == b[k])
  }

  // ------------------------------------------------------------ reward packs

  /** The pack table a grant reads: join packs, referral packs, or the payment
      packs together with the amount paid. */
  datatype PackTable =
    | JoinTable(packs: seq<RewardPack>)
    | ReferralTable(packs: seq<RewardPack>)
    | PaymentTable(paymentPacks: seq<PaymentPack>, amount: int)

  function FirstPack(packs: seq<RewardPack>, s: ServiceId, c: CouponId): Option<int>
  {
    if packs == [] then None
    else if packs[0].service == s && packs[0].coupon == c then Some(packs[0].count)
    else FirstPack(packs[1..], s, c)
  }

  /** The payment pack whose interval holds the amount: floor < amount <= ceiling. */
  function FirstPaymentPack(packs: seq<PaymentPack>, s: ServiceId, c: CouponId, amount: int): (r: Option<int>)
    ensures r.Some? ==> (exists i :: 0 <= i < |packs| && packs[i].service == s && packs[i].coupon == c
                                     && packs[i].floor < amount <= packs[i].ceiling && packs[i].count == r.value)
    ensures r.None? ==> (forall i :: 0 <= i < |packs| && packs[i].service == s && packs[i].coupon == c
                                     ==> !(packs[i].floor < amount <= packs[i].ceiling))
  {
    if packs == [] then None
    else if packs[0].service == s && packs[0].coupon == c && packs[0].floor < amount <= packs[0].ceiling then
      Some(packs[0].count)
    else
      var r := FirstPaymentPack(packs[1..], s, c, amount);
      assert forall i :: 1 <= i < |packs| ==> packs[i] == packs[1..][i - 1];
      r
  }

  function PackFor(table: PackTable, s: ServiceId, c: CouponId): Option<int>
  {
    match table
    case JoinTable(packs) => FirstPack(packs, s, c)
    case ReferralTable(packs) => FirstPack(packs, s, c)
    case PaymentTable(packs, amount) => FirstPaymentPack(packs, s, c, amount)
  }

  /** Units a coupon receives from a pack table: the pack's count when a pack
      exists and its count is positive, nothing otherwise. */
  function Units(table: PackTable, s: ServiceId, c: CouponId): nat
  {
    match PackFor(table, s, c)
    case Some(p) => if p > 0 then p else 0
    case None => 0
  }

  function GrantedType(table: PackTable): RewardType
  {
    match table
    case JoinTable(_) => JoinType
    case ReferralTable(_) => ReferralType
    case PaymentTable(_, _) => PaymentType
  }

  // ------------------------------------------------------------ reward_member

  datatype PackGrant = PackGrant(coupon: CouponId, count: int)

  /** The state `reward_member` carries through its loop: the tables, the
      member's summary and profile (written back at the end), the running
      `coupon_count` and `reward_pack_list`. */
  datatype Grant = Grant(t: Tables, summary: Summary, profile: Profile, total: int, granted: seq<PackGrant>)

  /** One grant of `count` units of coupon `c`: the balance grows, a Sent
      reward is recorded, the summary count grows, a winner is recorded and
      the threshold flag raised when the balance reaches the heap size, and the
      coupon score grows by count * coefficient. */
  function Credit(g: Grant, s: ServiceId, m: MemberId, c: Coupon, count: int, rtype: RewardType, now: int): Grant
  {
    var bal := Balance(g.t, m, c.id) + count;
    var reached := bal >= c.heapSize;
    g.(t := g.t.(balances := g.t.balances[Holding(m, c.id) := bal],
                 rewards := g.t.rewards + [Reward(s, m, c.id, count, Sent, rtype, now)],
                 winners := if reached then g.t.winners + [Winner(m, c.id, false)] else g.t.winners),
       summary := Summary(g.summary.count + count, g.summary.thresholdReached || reached),
       profile := g.profile.(couponScore := g.profile.couponScore + count * c.coefficient))
  }

  function GrantStep(g: Grant, s: ServiceId, m: MemberId, c: Coupon, table: PackTable, now: int): Grant
  {
    var u := Units(table, s, c.id);
    if u > 0 then
      Credit(g, s, m, c, u, GrantedType(table), now).(total := g.total + u, granted := g.granted + [PackGrant(c.id, u)])
    else g
  }

  /** The loop of `reward_member` over the service's coupons. */
  function GrantAll(g: Grant, s: ServiceId, m: MemberId, cs: seq<Coupon>, table: PackTable, now: int): Grant
    decreases |cs|
  {
    if cs == [] then g
    else GrantStep(GrantAll(g, s, m, cs[..|cs| - 1], table, now), s, m, cs[|cs| - 1], table, now)
  }

  function UnitsSum(table: PackTable, s: ServiceId, cs: seq<Coupon>): int
    decreases |cs|
  {
    if cs == [] then 0 else UnitsSum(table, s, cs[..|cs| - 1]) + Units(table, s, cs[|cs| - 1].id)
  }

  function WeightedSum(table: PackTable, s: ServiceId, cs: seq<Coupon>): int
    decreases |cs|
  {
    if cs == [] then 0
    else WeightedSum(table, s, cs[..|cs| - 1]) + Units(table, s, cs[|cs| - 1].id) * cs[|cs| - 1].coefficient
  }

  /** The returned total, the summary count and the coupon score all grow by
      the pack counts of the coupons that have a positive pack. */
  lemma {:induction false} GrantAllTotals(g: Grant, s: ServiceId, m: MemberId, cs: seq<Coupon>, table: PackTable, now: int)
    ensures var r := GrantAll(g, s, m, cs, table, now);
      && r.total == g.total + UnitsSum(table, s, cs)
      && r.summary.count == g.summary.count + UnitsSum(table, s, cs)
      && r.profile == g.profile.(couponScore := g.profile.couponScore + WeightedSum(table, s, cs))
      && |r.granted| >= |g.granted| && r.granted[..|g.granted|] == g.granted
    decreases |cs|
  {
    if cs != [] {
      GrantAllTotals(g, s, m, cs[..|cs| - 1], table, now);
    }
  }

  /** Each coupon of the loop gains exactly its pack count; every other row of
      the balance table is left as it was. */
  lemma {:induction false} GrantAllBalances(g: Grant, s: ServiceId, m: MemberId, cs: seq<Coupon>, table: PackTable, now: int)
    requires DistinctIds(cs)
    ensures var r := GrantAll(g, s, m, cs, table, now);
      && (forall c :: c in cs ==> Balance(r.t, m, c.id) == Balance(g.t, m, c.id) + Units(table, s, c.id))
      && (forall h: Holding :: (h.member != m || forall c :: c in cs ==> c.id != h.coupon) ==> SameRow(r.t.balances, g.t.balances, h))
    decreases |cs|
  {
    if cs != [] {
      var init := cs[..|cs| - 1];
      var last := cs[|cs| - 1];
      var mid := GrantAll(g, s, m, init, table, now);
      var r := GrantAll(g, s, m, cs, table, now);
      assert r == GrantStep(mid, s, m, last, table, now);
      GrantAllBalances(g, s, m, init, table, now);
      GrantStepBalances(mid, s, m, last, table, now);
      forall c | c in cs
        ensures Balance(r.t, m, c.id) == Balance(g.t, m, c.id) + Units(table, s, c.id)
      {
        var i :| 0 <= i < |cs| && cs[i] == c;
        if i < |cs| - 1 {
          assert c in init;
          assert c.id != last.id;
          assert SameRow(r.t.balances, mid.t.balances, Holding(m, c.id));
        }
      }
      forall h: Holding | h.member != m || forall c :: c in cs ==> c.id != h.coupon
        ensures SameRow(r.t.balances, g.t.balances, h)
      {
        assert h != Holding(m, last.id);
        assert forall c :: c in init ==> c in cs;
      }
    }
  }

  /** One step of the loop credits its coupon's pack count and leaves every
      other balance row alone. */
  lemma GrantStepBalances(g: Grant, s: ServiceId, m: MemberId, c: Coupon, table: PackTable, now: int)
    ensures var r := GrantStep(g, s, m, c, table, now);
      && Balance(r.t, m, c.id) == Balance(g.t, m, c.id) + Units(table, s, c.id)
      && forall h: Holding :: h != Holding(m, c.id) ==> SameRow(r.t.balances, g.t.balances, h)
  {
  }

  /** The threshold flag ends true exactly when it was true before or some
      granted coupon's balance reached its heap size; each such coupon has an
      uncollected winner record for the member. */
  lemma {:induction false} GrantAllThreshold(g: Grant, s: ServiceId, m: MemberId, cs: seq<Coupon>, table: PackTable, now: int)
    requires DistinctIds(cs)
    ensures var r := GrantAll(g, s, m, cs, table, now);
      && (r.summary.thresholdReached <==>
            (g.summary.thresholdReached ||
             exists c :: c in cs && Units(table, s, c.id) > 0 && Balance(r.t, m, c.id) >= c.heapSize))
      && (forall c :: c in cs && Units(table, s, c.id) > 0 && Balance(r.t, m, c.id) >= c.heapSize ==>
            Winner(m, c.id, false) in r.t.winners)
      && |r.t.winners| >= |g.t.winners| && r.t.winners[..|g.t.winners|] == g.t.winners
      && (forall i :: |g.t.winners| <= i < |r.t.winners| ==> r.t.winners[i].member == m && !r.t.winners[i].collected)
    decreases |cs|
  {
    if cs != [] {
      var init := cs[..|cs| - 1];
      var last := cs[|cs| - 1];
      var mid := GrantAll(g, s, m, init, table, now);
      var r := GrantAll(g, s, m, cs, table, now);
      assert r == GrantStep(mid, s, m, last, table, now);
      GrantAllThreshold(g, s, m, init, table, now);
      GrantStepThreshold(mid, s, m, last, table, now);
      GrantStepBalances(mid, s, m, last, table, now);
      forall c | c in init
        ensures c.id != last.id && Balance(r.t, m, c.id) == Balance(mid.t, m, c.id)
      {
        var i :| 0 <= i < |init| && init[i] == c;
        assert cs[i] == c;
        assert SameRow(r.t.balances, mid.t.balances, Holding(m, c.id));
      }
      assert forall c :: c in cs <==> c in init || c == last;
      assert r.t.winners[..|mid.t.winners|] == mid.t.winners;
      assert r.t.winners[..|g.t.winners|] == mid.t.winners[..|g.t.winners|];
      forall c | c in init && Units(table, s, c.id) > 0 && Balance(r.t, m, c.id) >= c.heapSize
        ensures Winner(m, c.id, false) in r.t.winners
      {
        assert Winner(m, c.id, false) in mid.t.winners;
      }
    }
  }

  /** One step of the loop raises the threshold flag exactly when its
      coupon's balance reaches the heap size, and then appends an uncollected
      winner record for the member; earlier winner records stay. */
  lemma GrantStepThreshold(g: Grant, s: ServiceId, m: MemberId, c: Coupon, table: PackTable, now: int)
    ensures var r := GrantStep(g, s, m, c, table, now);
      && (r.summary.thresholdReached <==>
            g.summary.thresholdReached || (Units(table, s, c.id) > 0 && Balance(r.t, m, c.id) >= c.heapSize))
      && (Units(table, s, c.id) > 0 && Balance(r.t, m, c.id) >= c.heapSize ==>
            r.t.winners == g.t.winners + [Winner(m, c.id, false)])
      && (!(Units(table, s, c.id) > 0 && Balance(r.t, m, c.id) >= c.heapSize) ==> r.t.winners == g.t.winners)
  {
  }

  /** Every coupon with a positive pack has a Sent reward of that count and type. */
  lemma {:induction false} GrantAllRecordsRewards(g: Grant, s: ServiceId, m: MemberId, cs: seq<Coupon>, table: PackTable, now: int)
    ensures var r := GrantAll(g, s, m, cs, table, now);
      && (forall c :: c in cs && Units(table, s, c.id) > 0 ==>
            Reward(s, m, c.id, Units(table, s, c.id), Sent, GrantedType(table), now) in r.t.rewards)
      && |r.t.rewards| >= |g.t.rewards| && r.t.rewards[..|g.t.rewards|] == g.t.rewards
      && r.t.(balances := g.t.balances, rewards := g.t.rewards, winners := g.t.winners) == g.t
    decreases |cs|
  {
    if cs != [] {
      GrantAllRecordsRewards(g, s, m, cs[..|cs| - 1], table, now);
      assert forall c :: c in cs ==> c in cs[..|cs| - 1] || c == cs[|cs| - 1];
    }
  }

  datatype RewardRequest =
    | JoinRequest
    | ReferralRequest
    | PaymentRequest(amount: int)
    | ManualRequest(coupon: Coupon, count: int)
    | OtherRequest

  /** `(None, 0)` when the service has no active operator profile, otherwise
      the list of packs granted and the total count. */
  datatype RewardOutcome = NoActiveOperator | Rewarded(packs: seq<PackGrant>, total: int)

  function Retier(g: Grant, tier: RewardTier): Grant
  {
    g.(profile := g.profile.(rewardScore := tier))
  }

  /** Writes the member's summary and profile back. */
  function Commit(g: Grant, s: ServiceId, m: MemberId): Tables
  {
    g.t.(summaries := g.t.summaries[MemberKey(s, m) := g.summary],
         profiles := g.t.profiles[MemberKey(s, m) := g.profile])
  }

  function StartGrant(t: Tables, s: ServiceId, m: MemberId, now: int): Grant
  {
    Grant(t, SummaryOf(t, s, m), ProfileOf(t, s, m, now), 0, [])
  }

  /** `reward_member(service, member, type, ...)`. */
  function RewardMemberSpec(t: Tables, s: ServiceId, m: MemberId, req: RewardRequest, now: int): (RewardOutcome, Tables)
  {
    if !HasActiveOperator(t, s) then (NoActiveOperator, t)
    else
      var g := RequestGrant(t, s, m, req, now);
      (Rewarded(g.granted, g.total), Commit(g, s, m))
  }

  /** The grant of one request type, before the summary and the profile are
      written back. */
  function RequestGrant(t: Tables, s: ServiceId, m: MemberId, req: RewardRequest, now: int): Grant
  {
    var g0 := StartGrant(t, s, m, now);
    var cs := ServiceCoupons(t, s, AllOfService);
    match req
    case JoinRequest => Retier(GrantAll(g0, s, m, cs, JoinTable(t.joinPacks), now), FreeReward)
    case ReferralRequest => Retier(GrantAll(g0, s, m, cs, ReferralTable(t.referralPacks), now), FreeReward)
    case PaymentRequest(a) => Retier(GrantAll(g0, s, m, cs, PaymentTable(t.paymentPacks, a), now), PaymentReward)
    case ManualRequest(c, n) => Retier(Credit(g0, s, m, c, n, ManualType, now), ManualReward)
    case OtherRequest => g0
  }

  function TableOf(t: Tables, req: RewardRequest): PackTable
    requires req.JoinRequest? || req.ReferralRequest? || req.PaymentRequest?
  {
    match req
    case JoinRequest => JoinTable(t.joinPacks)
    case ReferralRequest => ReferralTable(t.referralPacks)
    case PaymentRequest(a) => PaymentTable(t.paymentPacks, a)
  }

  /** Without an active operator profile nothing changes. */
  lemma InactiveOperatorChangesNothing(t: Tables, s: ServiceId, m: MemberId, req: RewardRequest, now: int)
    requires !HasActiveOperator(t, s)
    ensures RewardMemberSpec(t, s, m, req, now) == (NoActiveOperator, t)
  {
  }

  /** A JOIN, REFERRAL or PAYMENT grant: every coupon of the service with a
      positive pack gains the pack count, the summary count and the returned
      total grow by the sum of the packs, the coupon score by the weighted sum,
      and the tier becomes FREE_REWARD (join, referral) or PAYMENT_REWARD. */
  lemma PackGrantEffect(t: Tables, s: ServiceId, m: MemberId, req: RewardRequest, now: int)
    requires Consistent(t) && HasActiveOperator(t, s)
    requires req.JoinRequest? || req.ReferralRequest? || req.PaymentRequest?
    ensures var (out, t') := RewardMemberSpec(t, s, m, req, now);
      var cs := ServiceCoupons(t, s, AllOfService);
      var table := TableOf(t, req);
      && out.Rewarded? && out.total == UnitsSum(table, s, cs)
      && SummaryOf(t', s, m).count == SummaryOf(t, s, m).count + out.total
      && ProfileOf(t', s, m, now).couponScore == ProfileOf(t, s, m, now).couponScore + WeightedSum(table, s, cs)
      && ProfileOf(t', s, m, now).rewardScore == (if req.PaymentRequest? then PaymentReward else FreeReward)
      && (forall c :: c in cs ==> Balance(t', m, c.id) == Balance(t, m, c.id) + Units(table, s, c.id))
      && (forall c :: c in cs && Units(table, s, c.id) > 0 ==>
            Reward(s, m, c.id, Units(table, s, c.id), Sent, GrantedType(table), now) in t'.rewards)
      && (forall c :: c in cs && Units(table, s, c.id) > 0 && Balance(t', m, c.id) >= c.heapSize ==>
            Winner(m, c.id, false) in t'.winners && SummaryOf(t', s, m).thresholdReached)
  {
    var cs := ServiceCoupons(t, s, AllOfService);
    var table := TableOf(t, req);
    var g0 := StartGrant(t, s, m, now);
    ServiceCouponsDistinct(t, s, AllOfService);
    GrantAllTotals(g0, s, m, cs, table, now);
    GrantAllBalances(g0, s, m, cs, table, now);
    GrantAllThreshold(g0, s, m, cs, table, now);
    GrantAllRecordsRewards(g0, s, m, cs, table, now);
  }

  /** A MANUAL grant credits the given coupon with the given count, returns an
      empty pack list and a zero total, and sets the tier to MANUAL_REWARD. */
  lemma ManualGrantEffect(t: Tables, s: ServiceId, m: MemberId, c: Coupon, n: int, now: int)
    requires HasActiveOperator(t, s)
    ensures var (out, t') := RewardMemberSpec(t, s, m, ManualRequest(c, n), now);
      && out == Rewarded([], 0)
      && Balance(t', m, c.id) == Balance(t, m, c.id) + n
      && SummaryOf(t', s, m).count == SummaryOf(t, s, m).count + n
      && ProfileOf(t', s, m, now).couponScore == ProfileOf(t, s, m, now).couponScore + n * c.coefficient
      && ProfileOf(t', s, m, now).rewardScore == ManualReward
      && t'.rewards == t.rewards + [Reward(s, m, c.id, n, Sent, ManualType, now)]
      && (Balance(t', m, c.id) >= c.heapSize <==> t'.winners == t.winners + [Winner(m, c.id, false)])
      && (Balance(t', m, c.id) >= c.heapSize ==> SummaryOf(t', s, m).thresholdReached)
  {
  }

  /** The part of `reward_member` that writes one grant. */
  method CreditRow(db: Db, s: ServiceId, m: MemberId, c: Coupon, count: int, rtype: RewardType, now: int,
                   summary: Summary, profile: Profile)
    returns (summary': Summary, profile': Profile)
    modifies db
    ensures Grant(db.State(), summary', profile', 0, [])
         == Credit(Grant(old(db.State()), summary, profile, 0, []), s, m, c, count, rtype, now)
  {
    ghost var t := db.State();
    var h := Holding(m, c.id);
    var cumul := if h in db.balances then db.balances[h] else 0;
    cumul := cumul + count;
    assert cumul == Balance(t, m, c.id) + count;
    db.balances := db.balances[h := cumul];
    db.rewards := db.rewards + [Reward(s, m, c.id, count, Sent, rtype, now)];
    summary' := summary.(count := summary.count + count);
    if cumul >= c.heapSize {
      db.winners := db.winners + [Winner(m, c.id, false)];
      summary' := summary'.(thresholdReached := true);
    }
    profile' := profile.(couponScore := profile.couponScore + count * c.coefficient);
  }

  /** The `for coupon in ...` loop of the JOIN, REFERRAL and PAYMENT branches. */
  method GrantLoop(db: Db, s: ServiceId, m: MemberId, cs: seq<Coupon>, table: PackTable, now: int,
                   summary0: Summary, profile0: Profile)
    returns (summary: Summary, profile: Profile, total: int, granted: seq<PackGrant>)
    modifies db
    ensures Grant(db.State(), summary, profile, total, granted)
         == GrantAll(Grant(old(db.State()), summary0, profile0, 0, []), s, m, cs, table, now)
  {
    summary, profile, total, granted := summary0, profile0, 0, [];
    var i := 0;
    while i < |cs|
      invariant 0 <= i <= |cs|
      invariant Grant(db.State(), summary, profile, total, granted)
             == GrantAll(Grant(old(db.State()), summary0, profile0, 0, []), s, m, cs[..i], table, now)
    {
      summary, profile, total, granted := GrantCoupon(db, s, m, cs[i], table, now, summary, profile, total, granted);
      GrantAllSnoc(Grant(old(db.State()), summary0, profile0, 0, []), s, m, cs, i, table, now);
      i := i + 1;
    }
    assert cs[..i] == cs;
  }

  /** One iteration of that loop: the pack of coupon `c`, if positive, is
      credited and listed. */
  method GrantCoupon(db: Db, s: ServiceId, m: MemberId, c: Coupon, table: PackTable, now: int,
                     summary0: Summary, profile0: Profile, total0: int, granted0: seq<PackGrant>)
    returns (summary: Summary, profile: Profile, total: int, granted: seq<PackGrant>)
    modifies db
    ensures Grant(db.State(), summary, profile, total, granted)
         == GrantStep(Grant(old(db.State()), summary0, profile0, total0, granted0), s, m, c, table, now)
  {
    summary, profile, total, granted := summary0, profile0, total0, granted0;
    var u := Units(table, s, c.id);
    if u > 0 {
      summary, profile := CreditRow(db, s, m, c, u, GrantedType(table), now, summary, profile);
      total := total + u;
      granted := granted + [PackGrant(c.id, u)];
    }
  }

  lemma GrantAllSnoc(g: Grant, s: ServiceId, m: MemberId, cs: seq<Coupon>, i: nat, table: PackTable, now: int)
    requires i < |cs|
    ensures GrantAll(g, s, m, cs[..i + 1], table, now) == GrantStep(GrantAll(g, s, m, cs[..i], table, now), s, m, cs[i], table, now)
  {
    assert cs[..i + 1][..i] == cs[..i];
  }

  method RewardMember(db: Db, s: ServiceId, m: MemberId, req: RewardRequest, now: int)
    returns (outcome: RewardOutcome)
    modifies db
    ensures (outcome, db.State()) == RewardMemberSpec(old(db.State()), s, m, req, now)
  {
    if !(s in db.operators && db.operators[s].isActive) {
      return NoActiveOperator;
    }
    var summary, profile, total, granted := GrantRequest(db, s, m, req, now);
    var key := MemberKey(s, m);
    db.profiles := db.profiles[key := profile];
    db.summaries := db.summaries[key := summary];
    outcome := Rewarded(granted, total);
  }

  /** The request-type dispatch of `reward_member`, on the rows it reads. */
  method GrantRequest(db: Db, s: ServiceId, m: MemberId, req: RewardRequest, now: int)
    returns (summary: Summary, profile: Profile, total: int, granted: seq<PackGrant>)
    modifies db
    ensures Grant(db.State(), summary, profile, total, granted) == RequestGrant(old(db.State()), s, m, req, now)
  {
    var key := MemberKey(s, m);
    profile := if key in db.profiles then db.profiles[key] else NewProfile(now);
    summary := if key in db.summaries then db.summaries[key] else Summary(0, false);
    total := 0;
    granted := [];
    var cs := ServiceCoupons(db.State(), s, AllOfService);
    match req {
      case JoinRequest =>
        summary, profile, total, granted := GrantLoop(db, s, m, cs, JoinTable(db.joinPacks), now, summary, profile);
        profile := profile.(rewardScore := FreeReward);
      case ReferralRequest =>
        summary, profile, total, granted := GrantLoop(db, s, m, cs, ReferralTable(db.referralPacks), now, summary, profile);
        profile := profile.(rewardScore := FreeReward);
      case PaymentRequest(a) =>
        summary, profile, total, granted := GrantLoop(db, s, m, cs, PaymentTable(db.paymentPacks, a), now, summary, profile);
        profile := profile.(rewardScore := PaymentReward);
      case ManualRequest(c, n) =>
        summary, profile := CreditRow(db, s, m, c, n, ManualType, now, summary, profile);
        profile := profile.(rewardScore := ManualReward);
      case OtherRequest =>
    }
  }

  // --------------------------------------------------------- get_last_reward

  predicate RewardOf(r: Reward, m: MemberId, s: ServiceId)
  {
    r.member == m && r.service == s
  }

  /** `get_last_reward`: the id (position) of the member's reward on the
      service with the highest id, or None when there is none. */
  function LastReward(rewards: seq<Reward>, m: MemberId, s: ServiceId): (r: Option<nat>)
    ensures r.Some? ==> (r.value < |rewards| && RewardOf(rewards[r.value], m, s)
                         && forall j :: r.value < j < |rewards| ==> !RewardOf(rewards[j], m, s))
    ensures r.None? <==> forall j :: 0 <= j < |rewards| ==> !RewardOf(rewards[j], m, s)
    decreases |rewards|
  {
    if rewards == [] then None
    else if RewardOf(rewards[|rewards| - 1], m, s) then Some(|rewards| - 1)
    else
      var r := LastReward(rewards[..|rewards| - 1], m, s);
      assert forall j :: 0 <= j < |rewards| - 1 ==> rewards[j] == rewards[..|rewards| - 1][j];
      r
  }

  // -------------------------------------------------------------- use_coupon

  /** Some balance of member `m` has reached its coupon's heap size. */
  ghost predicate Reached(t: Tables, m: MemberId)
  {
    exists h :: h in t.balances && h.member == m && h.coupon in t.coupons
      && t.balances[h] >= t.coupons[h.coupon].heapSize
  }

  /** The scan `use_coupon` and `donate_coupon` run over the member's balances
      to recompute `threshold_reached`. */
  method ThresholdScan(db: Db, m: MemberId) returns (reached: bool)
    ensures reached <==> Reached(db.State(), m)
  {
    reached := false;
    var todo := set h | h in db.balances && h.member == m;
    ghost var seen: set<Holding> := {};
    while todo != {}
      invariant todo + seen == set h | h in db.balances && h.member == m
      invariant !exists h :: h in seen && h.coupon in db.coupons && db.balances[h] >= db.coupons[h.coupon].heapSize
      decreases |todo|
    {
      var h :| h in todo;
      if h.coupon in db.coupons && db.balances[h] >= db.coupons[h.coupon].heapSize {
        reached := true;
        break;
      }
      todo := todo - {h};
      seen := seen + {h};
    }
  }

  datatype LedgerError = NoSuchBalance | InsufficientBalance | NotInCommunity
  datatype Outcome = Done | Failed(error: LedgerError)

  /** The summary row of (service, member), when it exists, with its flag set. */
  function SetFlag(t: Tables, k: MemberKey, flag: bool): Tables
  {
    if k in t.summaries then t.(summaries := t.summaries[k := t.summaries[k].(thresholdReached := flag)]) else t
  }

  /** `use_coupon(member, coupon, object_id)`. A missing balance row raises
      `DoesNotExist`, a balance below the heap size raises `ValueError`;
      otherwise one heap is spent and recorded, and the threshold flag of the
      (coupon's service, member) summary is recomputed. Setting `collected` on
      a winner is never saved, so it has no effect. */
  ghost function UseCouponSpec(t: Tables, m: MemberId, c: Coupon, objectId: string): (Outcome, Tables)
  {
    var h := Holding(m, c.id);
    if h !in t.balances then (Failed(NoSuchBalance), t)
    else if t.balances[h] < c.heapSize then (Failed(InsufficientBalance), t)
    else
      var t1 := t.(balances := t.balances[h := t.balances[h] - c.heapSize],
                   uses := t.uses + [CouponUse(m, c.id, PaymentUse, c.heapSize, objectId)]);
      (Done, SetFlag(t1, MemberKey(c.service, m), Reached(t1, m)))
  }

  method UseCoupon(db: Db, m: MemberId, c: Coupon, objectId: string) returns (outcome: Outcome)
    modifies db
    ensures (outcome, db.State()) == UseCouponSpec(old(db.State()), m, c, objectId)
  {
    var h := Holding(m, c.id);
    if h !in db.balances {
      return Failed(NoSuchBalance);
    }
    var cumul := db.balances[h];
    if cumul < c.heapSize {
      return Failed(InsufficientBalance);
    }
    cumul := cumul - c.heapSize;
    db.balances := db.balances[h := cumul];
    db.uses := db.uses + [CouponUse(m, c.id, PaymentUse, c.heapSize, objectId)];
    var reached := ThresholdScan(db, m);
    var k := MemberKey(c.service, m);
    if k in db.summaries {
      db.summaries := db.summaries[k := db.summaries[k].(thresholdReached := reached)];
    }
    outcome := Done;
  }

  /** A use is refused for a missing balance row or a balance below the
      heap, and is accepted otherwise. A refused use changes nothing; an
      accepted one lowers the balance by exactly one heap, leaves every other
      balance alone, records a Payment use of one heap, and leaves the summary
      flag equal to "some balance of the member still reaches its heap size";
      no other table and no other summary changes. */
  lemma UseCouponEffect(t: Tables, m: MemberId, c: Coupon, objectId: string)
    ensures var (out, t') := UseCouponSpec(t, m, c, objectId);
      && (out.Failed? ==> t' == t)
      && (out == Failed(NoSuchBalance) <==> Holding(m, c.id) !in t.balances)
      && (out == Failed(InsufficientBalance) <==> Holding(m, c.id) in t.balances && Balance(t, m, c.id) < c.heapSize)
      && (out == Done <==> Holding(m, c.id) in t.balances && Balance(t, m, c.id) >= c.heapSize)
      && (out == Done ==>
            && t' == t.(balances := t'.balances, uses := t'.uses, summaries := t'.summaries)
            && (forall k :: k != MemberKey(c.service, m) ==> SameSummary(t'.summaries, t.summaries, k))
            && (MemberKey(c.service, m) in t'.summaries <==> MemberKey(c.service, m) in t.summaries)
            && Balance(t', m, c.id) == Balance(t, m, c.id) - c.heapSize
            && (forall h :: h != Holding(m, c.id) ==> SameRow(t'.balances, t.balances, h))
            && t'.uses == t.uses + [CouponUse(m, c.id, PaymentUse, c.heapSize, objectId)]
            && (MemberKey(c.service, m) in t.summaries ==>
                  SummaryOf(t', c.service, m) == SummaryOf(t, c.service, m).(thresholdReached := Reached(t', m))))
  {
    var (out, t') := UseCouponSpec(t, m, c, objectId);
    if out == Done {
      var t1 := t.(balances := t.balances[Holding(m, c.id) := t.balances[Holding(m, c.id)] - c.heapSize],
                   uses := t.uses + [CouponUse(m, c.id, PaymentUse, c.heapSize, objectId)]);
      assert t'.balances == t1.balances && t'.coupons == t1.coupons;
      assert Reached(t', m) == Reached(t1, m);
    }
  }

  /** The case of the unit test: a balance of 125 on a heap of 100 leaves 25. */
  lemma UseCouponExample(t: Tables, m: MemberId, c: Coupon)
    requires c.heapSize == 100 && Holding(m, c.id) in t.balances && t.balances[Holding(m, c.id)] == 125
    ensures UseCouponSpec(t, m, c, "obj_id").0 == Done
    ensures Balance(UseCouponSpec(t, m, c, "obj_id").1, m, c.id) == 25
  {
  }

  // ----------------------------------------------------------- donate_coupon

  /** The donor half of `donate_coupon`: the debit, the recorded use and the
      donor's summary with its recomputed flag. */
  ghost function DonorSide(t: Tables, donor: MemberId, c: Coupon, count: int, objectId: string): Tables
    requires Holding(donor, c.id) in t.balances
  {
    var hd := Holding(donor, c.id);
    var t1 := t.(balances := t.balances[hd := t.balances[hd] - count],
                 uses := t.uses + [CouponUse(donor, c.id, DonationUse, count, objectId)]);
    var ds := SummaryOf(t, c.service, donor);
    t1.(summaries := t.summaries[MemberKey(c.service, donor) := Summary(ds.count - count, Reached(t1, donor))])
  }

  /** The receiver half: profile get_or_create, the credit, and the
      receiver's summary. */
  function ReceiverSide(t: Tables, receiver: MemberId, c: Coupon, count: int, now: int): Tables
  {
    var kr := MemberKey(c.service, receiver);
    var rb := Balance(t, receiver, c.id) + count;
    var rs := SummaryOf(t, c.service, receiver);
    t.(profiles := if kr in t.profiles then t.profiles else t.profiles[kr := NewProfile(now)],
       balances := t.balances[Holding(receiver, c.id) := rb],
       summaries := t.summaries[kr := Summary(rs.count + count, rs.thresholdReached || rb >= c.heapSize)])
  }

  /** `donate_coupon(donor, receiver, coupon, count, object_id)`. */
  ghost function DonateSpec(t: Tables, donor: MemberId, receiver: MemberId, c: Coupon, count: int,
                            objectId: string, now: int): (Outcome, Tables)
  {
    var s := c.service;
    var hd := Holding(donor, c.id);
    if s !in t.members || receiver !in t.members[s] then (Failed(NotInCommunity), t)
    else if hd !in t.balances then (Failed(NoSuchBalance), t)
    else if t.balances[hd] < count then (Failed(InsufficientBalance), t)
    else (Done, ReceiverSide(DonorSide(t, donor, c, count, objectId), receiver, c, count, now))
  }

  method DebitDonor(db: Db, donor: MemberId, c: Coupon, count: int, objectId: string)
    requires Holding(donor, c.id) in db.balances
    modifies db
    ensures db.State() == DonorSide(old(db.State()), donor, c, count, objectId)
  {
    ghost var t := db.State();
    var hd := Holding(donor, c.id);
    db.balances := db.balances[hd := db.balances[hd] - count];
    db.uses := db.uses + [CouponUse(donor, c.id, DonationUse, count, objectId)];
    ghost var t1 := db.State();
    var reached := ThresholdScan(db, donor);
    var kd := MemberKey(c.service, donor);
    var donorSummary := if kd in db.summaries then db.summaries[kd] else Summary(0, false);
    assert donorSummary == SummaryOf(t, c.service, donor);
    db.summaries := db.summaries[kd := Summary(donorSummary.count - count, reached)];
    assert db.State() == t1.(summaries := t.summaries[kd := Summary(donorSummary.count - count, Reached(t1, donor))]);
  }

  method CreditReceiver(db: Db, receiver: MemberId, c: Coupon, count: int, now: int)
    modifies db
    ensures db.State() == ReceiverSide(old(db.State()), receiver, c, count, now)
  {
    ghost var t := db.State();
    var kr := MemberKey(c.service, receiver);
    if kr !in db.profiles {
      db.profiles := db.profiles[kr := NewProfile(now)];
    }
    assert db.profiles == (if kr in t.profiles then t.profiles else t.profiles[kr := NewProfile(now)]);
    var hr := Holding(receiver, c.id);
    var receiverCumul := (if hr in db.balances then db.balances[hr] else 0) + count;
    assert receiverCumul == Balance(t, receiver, c.id) + count;
    db.balances := db.balances[hr := receiverCumul];
    var receiverSummary := if kr in db.summaries then db.summaries[kr] else Summary(0, false);
    assert receiverSummary == SummaryOf(t, c.service, receiver);
    db.summaries := db.summaries[kr := Summary(receiverSummary.count + count,
                                               receiverSummary.thresholdReached || receiverCumul >= c.heapSize)];
  }

  method DonateCoupon(db: Db, donor: MemberId, receiver: MemberId, c: Coupon, count: int, objectId: string, now: int)
    returns (outcome: Outcome)
    modifies db
    ensures (outcome, db.State()) == DonateSpec(old(db.State()), donor, receiver, c, count, objectId, now)
  {
    if !(c.service in db.members && receiver in db.members[c.service]) {
      return Failed(NotInCommunity);
    }
    var hd := Holding(donor, c.id);
    if hd !in db.balances {
      return Failed(NoSuchBalance);
    }
    if db.balances[hd] < count {
      return Failed(InsufficientBalance);
    }
    DebitDonor(db, donor, c, count, objectId);
    CreditReceiver(db, receiver, c, count, now);
    outcome := Done;
  }

  /** A refused donation changes nothing. An accepted one moves `count` units
      from donor to receiver, so their sum is conserved and every other balance
      row is untouched; the donor's summary loses `count` and keeps a flag equal
      to "some balance of the donor reaches its heap size"; the receiver's
      summary gains `count` and its flag is set once the receiver's balance
      reaches the heap; both summaries exist afterwards; the receiver's profile
      is created if missing; a Donation use of `count` is recorded. No other
      table and no other summary changes. */
  lemma DonationMovesUnits(t: Tables, donor: MemberId, receiver: MemberId, c: Coupon, count: int, objectId: string, now: int)
    requires donor != receiver
    ensures var (out, t') := DonateSpec(t, donor, receiver, c, count, objectId, now);
      && (out.Failed? ==> t' == t)
      && (out == Failed(InsufficientBalance) ==> Balance(t, donor, c.id) < count)
      && (out == Done ==>
            && Balance(t', donor, c.id) == Balance(t, donor, c.id) - count
            && Balance(t', receiver, c.id) == Balance(t, receiver, c.id) + count
            && Balance(t', donor, c.id) + Balance(t', receiver, c.id) == Balance(t, donor, c.id) + Balance(t, receiver, c.id)
            && (forall h :: h != Holding(donor, c.id) && h != Holding(receiver, c.id) ==> SameRow(t'.balances, t.balances, h))
            && SummaryOf(t', c.service, donor).count == SummaryOf(t, c.service, donor).count - count
            && SummaryOf(t', c.service, receiver).count == SummaryOf(t, c.service, receiver).count + count
            && (SummaryOf(t', c.service, donor).thresholdReached <==> Reached(t', donor))
            && (SummaryOf(t', c.service, receiver).thresholdReached
                <==> SummaryOf(t, c.service, receiver).thresholdReached || Balance(t', receiver, c.id) >= c.heapSize)
            && t'.uses == t.uses + [CouponUse(donor, c.id, DonationUse, count, objectId)]
            && DonationFrame(t, t', donor, receiver, c, now))
  {
    var (out, t') := DonateSpec(t, donor, receiver, c, count, objectId, now);
    if out == Done {
      DonationKeepsTheRest(t, donor, receiver, c, count, objectId, now);
      DonorFlagAfterDonation(t, donor, receiver, c, count, objectId, now);
    }
  }

  /** The receiver's side touches no balance row of the donor, so the donor's
      flag, computed after the debit, still matches the donor's balances. */
  lemma DonorFlagAfterDonation(t: Tables, donor: MemberId, receiver: MemberId, c: Coupon, count: int, objectId: string, now: int)
    requires donor != receiver
    requires DonateSpec(t, donor, receiver, c, count, objectId, now).0 == Done
    ensures var t' := DonateSpec(t, donor, receiver, c, count, objectId, now).1;
      SummaryOf(t', c.service, donor).thresholdReached <==> Reached(t', donor)
  {
    var t' := DonateSpec(t, donor, receiver, c, count, objectId, now).1;
    var hd := Holding(donor, c.id);
    var t1 := t.(balances := t.balances[hd := t.balances[hd] - count],
                 uses := t.uses + [CouponUse(donor, c.id, DonationUse, count, objectId)]);
    assert forall h: Holding :: h.member == donor ==> SameRow(t'.balances, t1.balances, h);
    assert t'.coupons == t1.coupons;
    if Reached(t', donor) {
      var h :| h in t'.balances && h.member == donor && h.coupon in t'.coupons
        && t'.balances[h] >= t'.coupons[h.coupon].heapSize;
      assert h in t1.balances && t1.balances[h] == t'.balances[h];
    }
    if Reached(t1, donor) {
      var h :| h in t1.balances && h.member == donor && h.coupon in t1.coupons
        && t1.balances[h] >= t1.coupons[h.coupon].heapSize;
      assert h in t'.balances && t1.balances[h] == t'.balances[h];
    }
  }

  /** The outcome of a donation, checked in the order of `donate_coupon`:
      a receiver outside the service's community is refused first, then a
      donor without a balance row, then a balance below the count; the
      donation goes through exactly when none of these holds. */
  lemma DonationOutcome(t: Tables, donor: MemberId, receiver: MemberId, c: Coupon, count: int, objectId: string, now: int)
    ensures var out := DonateSpec(t, donor, receiver, c, count, objectId, now).0;
      var inCommunity := c.service in t.members && receiver in t.members[c.service];
      var hasRow := Holding(donor, c.id) in t.balances;
      && (out == Failed(NotInCommunity) <==> !inCommunity)
      && (out == Failed(NoSuchBalance) <==> inCommunity && !hasRow)
      && (out == Failed(InsufficientBalance) <==> inCommunity && hasRow && Balance(t, donor, c.id) < count)
      && (out == Done <==> inCommunity && hasRow && Balance(t, donor, c.id) >= count)
  {
  }

  /** What an accepted donation leaves alone or creates: only the profiles,
      balances, uses and summaries change; the summaries of the donor and the
      receiver exist afterwards and every other summary is untouched; the
      receiver's profile is created, as `get_or_create` does, exactly when it
      was missing. */
  ghost predicate DonationFrame(t: Tables, t': Tables, donor: MemberId, receiver: MemberId, c: Coupon, now: int)
  {
    var kd := MemberKey(c.service, donor);
    var kr := MemberKey(c.service, receiver);
    && t' == t.(profiles := t'.profiles, balances := t'.balances, uses := t'.uses, summaries := t'.summaries)
    && kd in t'.summaries && kr in t'.summaries
    && (forall k :: k != kd && k != kr ==> SameSummary(t'.summaries, t.summaries, k))
    && (kr in t.profiles ==> t'.profiles == t.profiles)
    && (kr !in t.profiles ==> t'.profiles == t.profiles[kr := NewProfile(now)])
  }

  lemma DonationKeepsTheRest(t: Tables, donor: MemberId, receiver: MemberId, c: Coupon, count: int, objectId: string, now: int)
    requires DonateSpec(t, donor, receiver, c, count, objectId, now).0 == Done
    ensures DonationFrame(t, DonateSpec(t, donor, receiver, c, count, objectId, now).1, donor, receiver, c, now)
  {
    var t1 := DonorSide(t, donor, c, count, objectId);
    assert t1 == t.(balances := t1.balances, uses := t1.uses, summaries := t1.summaries);
    var t' := ReceiverSide(t1, receiver, c, count, now);
    assert DonateSpec(t, donor, receiver, c, count, objectId, now).1 == t';
    assert t' == t1.(profiles := t'.profiles, balances := t'.balances, summaries := t'.summaries);
  }

  /** A donation to oneself leaves the balance where it was. */
  lemma SelfDonationKeepsBalance(t: Tables, m: MemberId, c: Coupon, count: int, objectId: string, now: int)
    ensures var (out, t') := DonateSpec(t, m, m, c, count, objectId, now);
      out == Done ==> Balance(t', m, c.id) == Balance(t, m, c.id)
  {
  }

  /** The case of the unit test: 30 units, donating 40 is refused, donating
      10 leaves 20. */
  lemma DonationExample(t: Tables, donor: MemberId, receiver: MemberId, c: Coupon, now: int)
    requires donor != receiver
    requires c.service in t.members && receiver in t.members[c.service]
    requires Holding(donor, c.id) in t.balances && t.balances[Holding(donor, c.id)] == 30
    ensures DonateSpec(t, donor, receiver, c, 40, "obj_id", now) == (Failed(InsufficientBalance), t)
    ensures DonateSpec(t, donor, receiver, c, 10, "obj_id", now).0 == Done
    ensures Balance(DonateSpec(t, donor, receiver, c, 10, "obj_id", now).1, donor, c.id) == 20
  {
  }
}
