/** Records of the rewarding module (rewarding/models.py) and the rules the
    records themselves carry: the coupon coefficient derived on save, the
    fields hidden by `to_dict`, the operator status, the reward tiers and the
    defaults of new rows. The database is modelled by class `Db`, one field per
    table; a table with a single uniqueness key is a map keyed by that key. The
    payment packs, whose two keys (service, coupon, floor) and (service, coupon,
    ceiling) are not enforced here, are a sequence of rows. */
module Models {

  type MemberId = int
  type ServiceId = int
  type CouponId = int
  type PlanId = int

  datatype Option<T> = None | Some(value: T)

  /** Seconds in a day: instants are integer seconds, `timedelta.days` is a
      floor division by this constant. */
  const SecondsPerDay: int := 86400

  /** Whole days from instant `since` to instant `until`, rounded down like
      Python's `timedelta.days` (Dafny's `/` floors for a positive divisor). */
  function DaysBetween(since: int, until: int): (d: int)
    ensures d * SecondsPerDay <= until - since < (d + 1) * SecondsPerDay
  {
    (until - since) / SecondsPerDay
  }

  // ---------------------------------------------------------------- coupons

  datatype CouponType = Discount | PurchaseOrder | Gift | Unlisted
  datatype CouponStatus = PendingForApproval | Approved | Rejected

  datatype Coupon = Coupon(
    id: CouponId,
    service: ServiceId,
    name: string,
    slug: string,
    ctype: CouponType,
    status: CouponStatus,
    coefficient: int,
    heapSize: int,
    monthQuota: int,
    monthWinners: int,
    isActive: bool,
    deleted: bool,
    totalOffered: int)

  /** The weight `Coupon.save` attaches to a listed coupon type. */
  function TypeCoefficient(t: CouponType): Option<int>
  {
    match t
    case Discount => Some(1)
    case Gift => Some(2)
    case PurchaseOrder => Some(3)
    case Unlisted => None
  }

  /** The record `Coupon.save` writes: the coefficient is re-derived from the
      type; a type outside the three listed ones keeps the stored coefficient. */
  function Saved(c: Coupon): (s: Coupon)
    ensures s.(coefficient := c.coefficient) == c
    ensures c.coefficient >= 1 ==> s.coefficient >= 1
  {
    match TypeCoefficient(c.ctype)
    case Some(k) => c.(coefficient := k)
    case None => c
  }

  lemma SavedCoefficientFollowsType(c: Coupon, d: Coupon)
    ensures c.ctype == Discount ==> Saved(c).coefficient == 1
    ensures c.ctype == Gift ==> Saved(c).coefficient == 2
    ensures c.ctype == PurchaseOrder ==> Saved(c).coefficient == 3
    ensures c.ctype == Unlisted ==> Saved(c) == c
    ensures Saved(Saved(c)) == Saved(c)
    ensures c.ctype == d.ctype && c.ctype != Unlisted ==> Saved(c).coefficient == Saved(d).coefficient
  {
  }

  /** The keys `Coupon.to_dict` deletes, in the order it deletes them. */
  const HiddenFields: seq<string> :=
    ["coefficient", "month_quota", "month_winners", "offered_history", "total_offered"]

  /** How many of `keys`, from the front, are present in `fields`. */
  function PresentPrefix<V>(fields: map<string, V>, keys: seq<string>): (n: nat)
    ensures n <= |keys|
    ensures forall i :: 0 <= i < n ==> keys[i] in fields
    ensures n < |keys| ==> keys[n] !in fields
  {
    if keys == [] || keys[0] !in fields then 0 else 1 + PresentPrefix(fields, keys[1..])
  }

  /** `Coupon.to_dict`: deletes the hidden keys one after the other; the first
      missing key raises KeyError, which the bare `except` swallows, so the keys
      after it are kept. */
  method ToDict<V>(fields: map<string, V>) returns (d: map<string, V>)
    ensures d == fields - (set j | 0 <= j < PresentPrefix(fields, HiddenFields) :: HiddenFields[j])
    ensures d.Keys <= fields.Keys && forall k :: k in d ==> d[k] == fields[k]
    ensures forall k :: k in fields && k !in HiddenFields ==> k in d
    ensures (forall k :: k in HiddenFields ==> k in fields) ==> forall k :: k in HiddenFields ==> k !in d
  {
    d := fields;
    var i := 0;
    while i < |HiddenFields|
      invariant 0 <= i <= PresentPrefix(fields, HiddenFields)
      invariant d == fields - (set j | 0 <= j < i :: HiddenFields[j])
    {
      var key := HiddenFields[i];
      if key !in d {
        break;
      }
      d := d - {key};
      i := i + 1;
    }
  }

  /** Number of coupons of service `s` pending for approval. */
  function PendingCount(coupons: seq<Coupon>, s: ServiceId): nat
  {
    if coupons == [] then 0
    else (if coupons[0].service == s && coupons[0].status == PendingForApproval then 1 else 0)
         + PendingCount(coupons[1..], s)
  }

  /** `CROperatorProfile.get_status` over the coupon table `coupons`. */
  function GetStatus(coupons: seq<Coupon>, s: ServiceId): CouponStatus
  {
    if PendingCount(coupons, s) > 0 then PendingForApproval else Approved
  }

  lemma {:induction false} PendingCountPositive(coupons: seq<Coupon>, s: ServiceId)
    ensures PendingCount(coupons, s) > 0 <==>
      exists i :: 0 <= i < |coupons| && coupons[i].service == s && coupons[i].status == PendingForApproval
  {
    if coupons != [] {
      PendingCountPositive(coupons[1..], s);
      if PendingCount(coupons[1..], s) > 0 {
        var i :| 0 <= i < |coupons[1..]| && coupons[1..][i].service == s && coupons[1..][i].status == PendingForApproval;
        assert coupons[i + 1] == coupons[1..][i];
      }
      forall i | 1 <= i < |coupons|
        ensures coupons[i] == coupons[1..][i - 1]
      {
      }
    }
  }

  /** The operator is pending for approval exactly when one of its coupons is;
      otherwise it is approved, never rejected. */
  lemma GetStatusPendingIff(coupons: seq<Coupon>, s: ServiceId)
    ensures GetStatus(coupons, s) == PendingForApproval <==>
      exists i :: 0 <= i < |coupons| && coupons[i].service == s && coupons[i].status == PendingForApproval
    ensures GetStatus(coupons, s) != Rejected
  {
    PendingCountPositive(coupons, s);
  }

  // ---------------------------------------------------------------- rewards

  datatype RewardStatus = Prepared | Sent
  datatype RewardType = JoinType | FreeType | PaymentType | ReferralType | ManualType

  datatype Reward = Reward(
    service: ServiceId,
    member: MemberId,
    coupon: CouponId,
    count: int,
    status: RewardStatus,
    rtype: RewardType,
    createdOn: int)

  /** A `Reward` row created with only its keys given. */
  function NewReward(s: ServiceId, m: MemberId, c: CouponId, rtype: RewardType, now: int): (r: Reward)
    ensures r.count == 0 && r.status == Prepared
    ensures r.service == s && r.member == m && r.coupon == c && r.rtype == rtype && r.createdOn == now
  {
    Reward(s, m, c, 0, Prepared, rtype, now)
  }

  /** Priority tiers of `CRProfile.reward_score`, a sort key. models.py
      defines JOIN_REWARD = 1, PAYMENT_REWARD = 2 and FREE_REWARD = 3 but no
      MANUAL_REWARD; the model places the manual tier between payment and free. */
  datatype RewardTier = JoinReward | PaymentReward | ManualReward | FreeReward

  function Rank(t: RewardTier): nat
  {
    match t
    case JoinReward => 0
    case PaymentReward => 1
    case ManualReward => 2
    case FreeReward => 3
  }

  datatype Profile = Profile(rewardScore: RewardTier, couponScore: int, lastRewardDate: int)

  /** A `CRProfile` created by `get_or_create` at instant `now`. */
  function NewProfile(now: int): (p: Profile)
    ensures p.rewardScore == JoinReward && p.couponScore == 0 && p.lastRewardDate == now
  {
    Profile(JoinReward, 0, now)
  }

  lemma TiersOrdered(t: RewardTier)
    ensures Rank(JoinReward) < Rank(PaymentReward) < Rank(ManualReward) < Rank(FreeReward)
    ensures Rank(JoinReward) <= Rank(t) <= Rank(FreeReward)
    ensures Rank(NewProfile(0).rewardScore) == Rank(JoinReward)
  {
  }

  datatype Summary = Summary(count: int, thresholdReached: bool)
  datatype Winner = Winner(member: MemberId, coupon: CouponId, collected: bool)
  datatype Usage = PaymentUse | DonationUse
  datatype CouponUse = CouponUse(member: MemberId, coupon: CouponId, usage: Usage, count: int, objectId: string)

  /** A join or referral reward pack: `count` units of `coupon`. */
  datatype RewardPack = RewardPack(service: ServiceId, coupon: CouponId, count: int)
  /** A payment reward pack for amounts in (floor, ceiling]. */
  datatype PaymentPack = PaymentPack(service: ServiceId, coupon: CouponId, floor: int, ceiling: int, count: int)

  datatype OperatorProfile = OperatorProfile(
    service: ServiceId,
    plan: PlanId,
    monthlyCost: int,
    sms: bool,
    autoRenew: bool,
    expiry: int,
    isActive: bool,
    audienceSize: int)

  // -------------------------------------------------------------- the tables

  /** Key of `CumulatedCoupon`: unique_together (member, coupon). */
  datatype Holding = Holding(member: MemberId, coupon: CouponId)
  /** Key of `CouponSummary` (unique_together (service, member)) and of the
      `CRProfile` kept in each service's own database. */
  datatype MemberKey = MemberKey(service: ServiceId, member: MemberId)

  datatype Tables = Tables(
    coupons: map<CouponId, Coupon>,
    couponIds: seq<CouponId>,
    joinPacks: seq<RewardPack>,
    referralPacks: seq<RewardPack>,
    paymentPacks: seq<PaymentPack>,
    operators: map<ServiceId, OperatorProfile>,
    members: map<ServiceId, seq<MemberId>>,
    customerOn: map<MemberId, seq<ServiceId>>,
    balances: map<Holding, int>,
    summaries: map<MemberKey, Summary>,
    profiles: map<MemberKey, Profile>,
    winners: seq<Winner>,
    rewards: seq<Reward>,
    uses: seq<CouponUse>)

  /** The coupon table is keyed by id, lists every coupon once in `couponIds`
      (row order), and every coefficient is positive (the field defaults to 1
      and every save of a listed type sets 1, 2 or 3). */
  ghost predicate Consistent(t: Tables)
  {
    && (forall id :: id in t.coupons ==> t.coupons[id].id == id && t.coupons[id].coefficient >= 1)
    && (forall i, j :: 0 <= i < j < |t.couponIds| ==> t.couponIds[i] != t.couponIds[j])
    && (forall id :: id in t.coupons <==> id in t.couponIds)
  }

  /** Which coupons of a service a query selects. */
  datatype CouponFilter = AllOfService | ApprovedAndActive

  predicate Selects(f: CouponFilter, c: Coupon, s: ServiceId)
  {
    c.service == s && (f == ApprovedAndActive ==> c.status == Approved && c.isActive)
  }

  /** `Coupon.objects.filter(service=s, ...)`, in row order. */
  function CouponsOf(t: Tables, ids: seq<CouponId>, s: ServiceId, f: CouponFilter): (cs: seq<Coupon>)
    ensures forall c :: c in cs ==> c in t.coupons.Values && Selects(f, c, s)
    ensures |cs| <= |ids|
  {
    if ids == [] then []
    else if ids[0] in t.coupons && Selects(f, t.coupons[ids[0]], s) then
      [t.coupons[ids[0]]] + CouponsOf(t, ids[1..], s, f)
    else CouponsOf(t, ids[1..], s, f)
  }

  function ServiceCoupons(t: Tables, s: ServiceId, f: CouponFilter): seq<Coupon>
  {
    CouponsOf(t, t.couponIds, s, f)
  }

  ghost predicate DistinctIds(cs: seq<Coupon>)
  {
    forall i, j :: 0 <= i < j < |cs| ==> cs[i].id != cs[j].id
  }

  lemma {:induction false} CouponsOfDistinct(t: Tables, ids: seq<CouponId>, s: ServiceId, f: CouponFilter)
    requires forall id :: id in t.coupons ==> t.coupons[id].id == id
    requires forall i, j :: 0 <= i < j < |ids| ==> ids[i] != ids[j]
    ensures DistinctIds(CouponsOf(t, ids, s, f))
    ensures forall c :: c in CouponsOf(t, ids, s, f) ==> c.id in ids && c.id in t.coupons && t.coupons[c.id] == c
  {
    if ids != [] {
      CouponsOfDistinct(t, ids[1..], s, f);
    }
  }

  lemma ServiceCouponsDistinct(t: Tables, s: ServiceId, f: CouponFilter)
    requires Consistent(t)
    ensures DistinctIds(ServiceCoupons(t, s, f))
    ensures forall c :: c in ServiceCoupons(t, s, f) ==> c.id in t.coupons && t.coupons[c.id] == c && c.coefficient >= 1
  {
    CouponsOfDistinct(t, t.couponIds, s, f);
  }

  /** The database: one field per table. */
  class Db {
    var coupons: map<CouponId, Coupon>
    var couponIds: seq<CouponId>
    var joinPacks: seq<RewardPack>
    var referralPacks: seq<RewardPack>
    var paymentPacks: seq<PaymentPack>
    var operators: map<ServiceId, OperatorProfile>
    var members: map<ServiceId, seq<MemberId>>
    var customerOn: map<MemberId, seq<ServiceId>>
    var balances: map<Holding, int>
    var summaries: map<MemberKey, Summary>
    var profiles: map<MemberKey, Profile>
    var winners: seq<Winner>
    var rewards: seq<Reward>
    var uses: seq<CouponUse>

    function State(): Tables
      reads this
    {
      Tables(coupons, couponIds, joinPacks, referralPacks, paymentPacks, operators, members,
             customerOn, balances, summaries, profiles, winners, rewards, uses)
    }

    /** `Coupon.save`: derive the coefficient, then write the row. */
    method SaveCoupon(c: Coupon)
      modifies this
      ensures State() == StoreCoupon(old(State()), c)
    {
      var row := c;
      match TypeCoefficient(c.ctype) {
        case Some(k) => row := row.(coefficient := k);
        case None =>
      }
      if c.id !in coupons {
        couponIds := couponIds + [c.id];
      }
      coupons := coupons[c.id := row];
    }
  }

  /** The tables after `Coupon.save`: the row keyed by the id holds the saved
      record, and a new id is listed after the existing ones. */
  function StoreCoupon(t: Tables, c: Coupon): Tables
  {
    t.(coupons := t.coupons[c.id := Saved(c)],
       couponIds := if c.id in t.coupons then t.couponIds else t.couponIds + [c.id])
  }

  /** Saving a coupon with a positive coefficient keeps the table consistent. */
  lemma SaveKeepsConsistent(t: Tables, c: Coupon)
    requires Consistent(t)
    requires c.coefficient >= 1
    ensures Consistent(StoreCoupon(t, c))
  {
    var ids := if c.id in t.coupons then t.couponIds else t.couponIds + [c.id];
    forall i, j | 0 <= i < j < |ids|
      ensures ids[i] != ids[j]
    {
      if c.id !in t.coupons && j == |t.couponIds| {
        assert ids[i] == t.couponIds[i];
      }
    }
  }
}
