/** The configuration actions of rewarding/views.py: `save_rewards_packs`
    replaces a service's join and payment reward packs after checking that
    the payment intervals do not overlap, `save_billing` switches the billing
    plan, and the coupon-image upload picks its file names
    (`update_filename` and the free-name search of `upload_complete`).

    A coupon id that names no coupon makes `Coupon.objects.get` raise; the
    model stops there with `NoSuchCoupon`, keeping the rows already written,
    as the source does without a transaction. */
module Views {
  import opened Models

  // ------------------------------------------------------ save_rewards_packs

  /** One submitted `{coupon_id, count}`. */
  datatype PackEntry = PackEntry(coupon: CouponId, count: int)

  /** One submitted payment interval with its `reward_list`. */
  datatype Interval = Interval(floor: int, ceiling: int, rewards: seq<PackEntry>)

  datatype PacksReply =
    | PacksSaved
    | OverlapError(floor1: int, ceiling1: int, floor2: int, ceiling2: int)
    | NoSuchCoupon(coupon: CouponId)

  /** The packs left after deleting those of service s, in their order;
      `serviceOf` reads a pack's service. */
  function OtherPacks<P(!new)>(packs: seq<P>, serviceOf: P -> ServiceId, s: ServiceId): (r: seq<P>)
    ensures forall p :: p in r <==> p in packs && serviceOf(p) != s
    decreases |packs|
  {
    if packs == [] then []
    else
      var rest := OtherPacks(packs[..|packs| - 1], serviceOf, s);
      var last := packs[|packs| - 1];
      assert packs == packs[..|packs| - 1] + [last];
      if serviceOf(last) != s then rest + [last] else rest
  }

  /** The join packs left after deleting those of service s. */
  function OtherJoinPacks(packs: seq<RewardPack>, s: ServiceId): (r: seq<RewardPack>)
    ensures forall p :: p in r <==> p in packs && p.service != s
  {
    OtherPacks(packs, (p: RewardPack) => p.service, s)
  }

  /** The payment packs left after deleting those of service s. */
  function OtherPaymentPacks(packs: seq<PaymentPack>, s: ServiceId): (r: seq<PaymentPack>)
    ensures forall p :: p in r <==> p in packs && p.service != s
  {
    OtherPacks(packs, (p: PaymentPack) => p.service, s)
  }

  function JoinRows(s: ServiceId, entries: seq<PackEntry>): (r: seq<RewardPack>)
  {
    seq(|entries|, i requires 0 <= i < |entries| => RewardPack(s, entries[i].coupon, entries[i].count))
  }

  /** The packs of one interval, one per reward, carrying its bounds. */
  function IntervalRows(s: ServiceId, iv: Interval): (r: seq<PaymentPack>)
  {
    seq(|iv.rewards|, j requires 0 <= j < |iv.rewards| =>
      PaymentPack(s, iv.rewards[j].coupon, iv.floor, iv.ceiling, iv.rewards[j].count))
  }

  /** The packs of all intervals, in order. */
  function PaymentRows(s: ServiceId, ivs: seq<Interval>): (r: seq<PaymentPack>)
    decreases |ivs|
  {
    if ivs == [] then [] else PaymentRows(s, ivs[..|ivs| - 1]) + IntervalRows(s, ivs[|ivs| - 1])
  }

  /** One payment pack per (interval, reward) and nothing else: each pack
      belongs to the service and carries the bounds and the reward of some
      interval, and each reward of each interval has its pack. */
  lemma {:induction false} PaymentRowsMeaning(s: ServiceId, ivs: seq<Interval>)
    ensures |PaymentRows(s, ivs)| == RewardCount(ivs)
    ensures forall p :: p in PaymentRows(s, ivs) ==>
      p.service == s && exists i, j :: (0 <= i < |ivs| && 0 <= j < |ivs[i].rewards| &&
        p == PaymentPack(s, ivs[i].rewards[j].coupon, ivs[i].floor, ivs[i].ceiling, ivs[i].rewards[j].count))
    ensures forall i, j :: 0 <= i < |ivs| && 0 <= j < |ivs[i].rewards| ==>
      PaymentPack(s, ivs[i].rewards[j].coupon, ivs[i].floor, ivs[i].ceiling, ivs[i].rewards[j].count) in PaymentRows(s, ivs)
    decreases |ivs|
  {
    if ivs != [] {
      var init := ivs[..|ivs| - 1];
      var last := ivs[|ivs| - 1];
      PaymentRowsMeaning(s, init);
      var rows := IntervalRows(s, last);
      assert PaymentRows(s, ivs) == PaymentRows(s, init) + rows;
      forall p | p in PaymentRows(s, ivs)
        ensures p.service == s && exists i, j :: (0 <= i < |ivs| && 0 <= j < |ivs[i].rewards| &&
          p == PaymentPack(s, ivs[i].rewards[j].coupon, ivs[i].floor, ivs[i].ceiling, ivs[i].rewards[j].count))
      {
        if p in PaymentRows(s, init) {
          var i, j :| 0 <= i < |init| && 0 <= j < |init[i].rewards| &&
            p == PaymentPack(s, init[i].rewards[j].coupon, init[i].floor, init[i].ceiling, init[i].rewards[j].count);
          assert init[i] == ivs[i];
        } else {
          var j :| 0 <= j < |rows| && rows[j] == p;
          assert ivs[|ivs| - 1] == last;
        }
      }
      forall i, j | 0 <= i < |ivs| && 0 <= j < |ivs[i].rewards|
        ensures PaymentPack(s, ivs[i].rewards[j].coupon, ivs[i].floor, ivs[i].ceiling, ivs[i].rewards[j].count) in PaymentRows(s, ivs)
      {
        if i == |ivs| - 1 {
          assert rows[j] in rows;
        } else {
          assert init[i] == ivs[i];
        }
      }
    }
  }

  function RewardCount(ivs: seq<Interval>): nat
    decreases |ivs|
  {
    if ivs == [] then 0 else RewardCount(ivs[..|ivs| - 1]) + |ivs[|ivs| - 1].rewards|
  }

  /** The length of the longest prefix of ids that all name coupons: where
      the creation loop stops. */
  function KnownPrefix(ids: seq<CouponId>, known: set<CouponId>): (k: nat)
    ensures k <= |ids|
    ensures forall j :: 0 <= j < k ==> ids[j] in known
    ensures k < |ids| ==> ids[k] !in known
    decreases |ids|
  {
    if ids == [] || ids[0] !in known then 0 else 1 + KnownPrefix(ids[1..], known)
  }

  /** The prefix is the only one with both properties. */
  lemma KnownPrefixUnique(ids: seq<CouponId>, known: set<CouponId>, k: nat)
    requires k <= |ids|
    requires forall j :: 0 <= j < k ==> ids[j] in known
    requires k < |ids| ==> ids[k] !in known
    ensures KnownPrefix(ids, known) == k
  {
  }

  /** The coupon ids of some packs, in order; `couponOf` reads a pack's
      coupon. */
  function CouponIds<P>(rows: seq<P>, couponOf: P -> CouponId): (r: seq<CouponId>)
    ensures |r| == |rows| && forall i :: 0 <= i < |rows| ==> r[i] == couponOf(rows[i])
  {
    seq(|rows|, i requires 0 <= i < |rows| => couponOf(rows[i]))
  }

  function JoinIds(rows: seq<RewardPack>): (r: seq<CouponId>)
    ensures |r| == |rows| && forall i :: 0 <= i < |rows| ==> r[i] == rows[i].coupon
  {
    CouponIds(rows, (p: RewardPack) => p.coupon)
  }

  function PaymentIds(rows: seq<PaymentPack>): (r: seq<CouponId>)
    ensures |r| == |rows| && forall i :: 0 <= i < |rows| ==> r[i] == rows[i].coupon
  {
    CouponIds(rows, (p: PaymentPack) => p.coupon)
  }

  /** Places `iv` after every interval whose floor is not above its own. */
  function InsertByFloor(iv: Interval, ivs: seq<Interval>): (r: seq<Interval>)
    ensures multiset(r) == multiset(ivs) + multiset{iv}
    ensures |r| == |ivs| + 1
    decreases |ivs|
  {
    if ivs == [] || iv.floor < ivs[0].floor then [iv] + ivs
    else
      assert ivs == [ivs[0]] + ivs[1..];
      [ivs[0]] + InsertByFloor(iv, ivs[1..])
  }

  ghost predicate SortedByFloor(ivs: seq<Interval>)
  {
    forall i, j :: 0 <= i < j < |ivs| ==> ivs[i].floor <= ivs[j].floor
  }

  lemma {:induction false} InsertByFloorSorted(iv: Interval, ivs: seq<Interval>)
    requires SortedByFloor(ivs)
    ensures SortedByFloor(InsertByFloor(iv, ivs))
    decreases |ivs|
  {
    if ivs != [] && iv.floor >= ivs[0].floor {
      var tail := ivs[1..];
      InsertByFloorSorted(iv, tail);
      var rest := InsertByFloor(iv, tail);
      forall j | 0 <= j < |rest|
        ensures ivs[0].floor <= rest[j].floor
      {
        assert rest[j] in multiset(rest);
        if rest[j] != iv {
          assert rest[j] in multiset(tail);
          var k :| 0 <= k < |tail| && tail[k] == rest[j];
          assert ivs[k + 1] == rest[j];
        }
      }
    }
  }

  /** `intervals.sort(_cmp)`: ascending floors. */
  function SortByFloor(ivs: seq<Interval>): (r: seq<Interval>)
    ensures multiset(r) == multiset(ivs)
    ensures |r| == |ivs|
    decreases |ivs|
  {
    if ivs == [] then []
    else
      assert ivs == ivs[..|ivs| - 1] + [ivs[|ivs| - 1]];
      InsertByFloor(ivs[|ivs| - 1], SortByFloor(ivs[..|ivs| - 1]))
  }

  /** The submitted intervals are sorted by floor and are the same
      intervals. */
  lemma {:induction false} SortByFloorSorted(ivs: seq<Interval>)
    ensures SortedByFloor(SortByFloor(ivs))
    ensures multiset(SortByFloor(ivs)) == multiset(ivs)
    decreases |ivs|
  {
    if ivs != [] {
      SortByFloorSorted(ivs[..|ivs| - 1]);
      InsertByFloorSorted(ivs[|ivs| - 1], SortByFloor(ivs[..|ivs| - 1]));
    }
  }

  /** Interval i reaches the floor of interval i + 1: touching counts. */
  predicate OverlapsNext(ivs: seq<Interval>, i: int)
  {
    0 <= i < |ivs| - 1 && ivs[i].ceiling >= ivs[i + 1].floor
  }

  /** The first adjacent pair at or after k that overlaps. */
  function FirstOverlapFrom(ivs: seq<Interval>, k: nat): (r: Option<nat>)
    ensures r.Some? ==> k <= r.value && OverlapsNext(ivs, r.value)
    ensures r.Some? ==> forall j :: k <= j < r.value ==> !OverlapsNext(ivs, j)
    ensures r.None? ==> forall j :: k <= j ==> !OverlapsNext(ivs, j)
    decreases |ivs| - k
  {
    if k + 1 >= |ivs| then None
    else if ivs[k].ceiling >= ivs[k + 1].floor then Some(k)
    else FirstOverlapFrom(ivs, k + 1)
  }

  function FirstOverlap(ivs: seq<Interval>): Option<nat>
  {
    FirstOverlapFrom(ivs, 0)
  }

  /** Sorted by floor with no adjacent overlap, every interval ends below the
      floor of every later one: no two intervals share an amount. */
  lemma NoOverlapMeansDisjoint(ivs: seq<Interval>)
    requires SortedByFloor(ivs) && FirstOverlap(ivs).None?
    ensures forall i, j :: 0 <= i < j < |ivs| ==> ivs[i].ceiling < ivs[j].floor
  {
    forall i, j | 0 <= i < j < |ivs|
      ensures ivs[i].ceiling < ivs[j].floor
    {
      assert !OverlapsNext(ivs, i);
    }
  }

  /** The join half of `save_rewards_packs`: the service's join packs
      deleted, then one created per entry up to the first unknown coupon,
      which is reported. */
  function SaveJoinPacks(t: Tables, s: ServiceId, join: seq<PackEntry>): (Tables, Option<CouponId>)
  {
    var jrows := JoinRows(s, join);
    var kj := KnownPrefix(JoinIds(jrows), t.coupons.Keys);
    (t.(joinPacks := OtherJoinPacks(t.joinPacks, s) + jrows[..kj]),
     if kj < |join| then Some(join[kj].coupon) else None)
  }

  /** The payment packs the creation loops write for the intervals, in order,
      and the first reward coupon naming no coupon, where they stop. */
  function CreatedRows(s: ServiceId, ivs: seq<Interval>, known: set<CouponId>): (seq<PaymentPack>, Option<CouponId>)
    decreases |ivs|
  {
    if ivs == [] then ([], None)
    else
      var (rows, missing) := CreatedRows(s, ivs[..|ivs| - 1], known);
      if missing.Some? then (rows, missing)
      else
        var last := IntervalRows(s, ivs[|ivs| - 1]);
        var k := KnownPrefix(PaymentIds(last), known);
        (rows + last[..k], if k < |last| then Some(last[k].coupon) else None)
  }

  /** When every reward names a coupon, all the packs are written; otherwise
      the packs written are those before the first reward naming no coupon,
      which is the one reported. */
  lemma {:induction false} CreatedRowsMeaning(s: ServiceId, ivs: seq<Interval>, known: set<CouponId>)
    ensures var (rows, missing) := CreatedRows(s, ivs, known);
      var all := PaymentRows(s, ivs);
      && (forall p :: p in rows ==> p.coupon in known)
      && (missing.None? ==> rows == all)
      && (missing.Some? ==>
            |rows| < |all| && rows == all[..|rows|] && all[|rows|].coupon == missing.value && missing.value !in known)
    decreases |ivs|
  {
    if ivs != [] {
      var init := ivs[..|ivs| - 1];
      CreatedRowsMeaning(s, init, known);
      var (rows, missing) := CreatedRows(s, init, known);
      var last := IntervalRows(s, ivs[|ivs| - 1]);
      var all := PaymentRows(s, ivs);
      assert all == PaymentRows(s, init) + last;
      if missing.Some? {
        assert all[..|rows|] == PaymentRows(s, init)[..|rows|];
      } else {
        var k := KnownPrefix(PaymentIds(last), known);
        assert forall p :: p in last[..k] ==> p.coupon in known;
        if k < |last| {
          assert all[..|rows| + k] == rows + last[..k];
          assert all[|rows| + k] == last[k];
        } else {
          assert last[..k] == last;
        }
      }
    }
  }

  /** One more interval, while no unknown coupon has been met. */
  lemma CreatedRowsStep(s: ServiceId, ivs: seq<Interval>, i: nat, known: set<CouponId>)
    requires i < |ivs| && CreatedRows(s, ivs[..i], known).1.None?
    ensures var rows := IntervalRows(s, ivs[i]);
      var k := KnownPrefix(PaymentIds(rows), known);
      CreatedRows(s, ivs[..i + 1], known) ==
        (CreatedRows(s, ivs[..i], known).0 + rows[..k], if k < |rows| then Some(ivs[i].rewards[k].coupon) else None)
  {
    assert ivs[..i + 1][..i] == ivs[..i];
  }

  /** Once the loops have stopped, later intervals write nothing. */
  lemma {:induction false} CreatedRowsStopped(s: ServiceId, ivs: seq<Interval>, n: nat, known: set<CouponId>)
    requires n <= |ivs| && CreatedRows(s, ivs[..n], known).1.Some?
    ensures CreatedRows(s, ivs, known) == CreatedRows(s, ivs[..n], known)
    decreases |ivs|
  {
    if n < |ivs| {
      var init := ivs[..|ivs| - 1];
      assert init[..n] == ivs[..n];
      CreatedRowsStopped(s, init, n, known);
    } else {
      assert ivs[..n] == ivs;
    }
  }

  /** The payment half: the service's payment packs deleted, the intervals
      sorted and checked, then one pack created per (interval, reward) up to
      the first unknown coupon. */
  function SavePaymentPacks(t: Tables, s: ServiceId, payment: seq<Interval>): (Tables, PacksReply)
  {
    var t2 := t.(paymentPacks := OtherPaymentPacks(t.paymentPacks, s));
    var sorted := SortByFloor(payment);
    match FirstOverlap(sorted)
    case Some(i) =>
      (t2, OverlapError(sorted[i].floor, sorted[i].ceiling, sorted[i + 1].floor, sorted[i + 1].ceiling))
    case None =>
      var (rows, missing) := CreatedRows(s, sorted, t.coupons.Keys);
      (t2.(paymentPacks := t2.paymentPacks + rows),
       if missing.Some? then NoSuchCoupon(missing.value) else PacksSaved)
  }

  /** `save_rewards_packs` on the tables: the new state and the reply. */
  function SavePacks(t: Tables, s: ServiceId, join: seq<PackEntry>, payment: seq<Interval>): (Tables, PacksReply)
  {
    var (t1, missing) := SaveJoinPacks(t, s, join);
    if missing.Some? then (t1, NoSuchCoupon(missing.value)) else SavePaymentPacks(t1, s, payment)
  }

  /** Whatever the outcome, only the packs change, other services' packs are
      kept, and the service's join packs are the submitted ones up to the
      first unknown coupon. */
  lemma SavePacksFrame(t: Tables, s: ServiceId, join: seq<PackEntry>, payment: seq<Interval>)
    ensures var (t', _) := SavePacks(t, s, join, payment);
      && t' == t.(joinPacks := t'.joinPacks, paymentPacks := t'.paymentPacks)
      && (forall p :: p in t.joinPacks && p.service != s ==> p in t'.joinPacks)
      && (forall p :: p in t.paymentPacks && p.service != s ==> p in t'.paymentPacks)
      && (forall p :: p in t'.joinPacks && p.service == s ==>
            exists e :: e in join && p == RewardPack(s, e.coupon, e.count))
  {
    var jrows := JoinRows(s, join);
    var kj := KnownPrefix(JoinIds(jrows), t.coupons.Keys);
    var t1 := SaveJoinPacks(t, s, join).0;
    assert t1.joinPacks == OtherJoinPacks(t.joinPacks, s) + jrows[..kj];
    var t' := SavePacks(t, s, join, payment).0;
    if SaveJoinPacks(t, s, join).1.None? {
      assert t' == SavePaymentPacks(t1, s, payment).0;
      SavePaymentPacksFrame(t1, s, payment);
    }
    forall p | p in t'.joinPacks && p.service == s
      ensures exists e :: e in join && p == RewardPack(s, e.coupon, e.count)
    {
      assert p !in OtherJoinPacks(t.joinPacks, s);
      var i :| 0 <= i < kj && p == jrows[i];
      assert join[i] in join;
    }
  }

  /** The payment half changes only the payment packs and keeps other
      services' ones. */
  lemma SavePaymentPacksFrame(t: Tables, s: ServiceId, payment: seq<Interval>)
    ensures var t' := SavePaymentPacks(t, s, payment).0;
      && t' == t.(paymentPacks := t'.paymentPacks)
      && (forall p :: p in t.paymentPacks && p.service != s ==> p in t'.paymentPacks)
  {
    var t2 := t.(paymentPacks := OtherPaymentPacks(t.paymentPacks, s));
    var sorted := SortByFloor(payment);
    if FirstOverlap(sorted).None? {
      var rows := CreatedRows(s, sorted, t.coupons.Keys).0;
      assert SavePaymentPacks(t, s, payment).0 == t2.(paymentPacks := t2.paymentPacks + rows);
    }
  }

  /** An overlap is reported exactly when two adjacent sorted intervals touch
      or overlap, naming the first such pair; the service then has no payment
      pack left, the old ones being already deleted. */
  lemma SavePacksOverlap(t: Tables, s: ServiceId, join: seq<PackEntry>, payment: seq<Interval>)
    requires forall e :: e in join ==> e.coupon in t.coupons
    ensures var (t', reply) := SavePacks(t, s, join, payment);
      var sorted := SortByFloor(payment);
      && (reply.OverlapError? <==> exists i :: OverlapsNext(sorted, i))
      && (reply.OverlapError? ==>
            && (forall p :: p in t'.paymentPacks ==> p.service != s)
            && exists i :: OverlapsNext(sorted, i) && (forall j :: 0 <= j < i ==> !OverlapsNext(sorted, j))
                 && reply == OverlapError(sorted[i].floor, sorted[i].ceiling, sorted[i + 1].floor, sorted[i + 1].ceiling))
  {
    var jrows := JoinRows(s, join);
    KnownPrefixUnique(JoinIds(jrows), t.coupons.Keys, |join|);
    var t1 := SaveJoinPacks(t, s, join).0;
    assert SavePacks(t, s, join, payment) == SavePaymentPacks(t1, s, payment);
    PaymentOverlap(t1, s, payment);
  }

  /** The payment half reports an overlap exactly when two adjacent sorted
      intervals overlap, names the first such pair, and then leaves no
      payment pack of the service. */
  lemma PaymentOverlap(t: Tables, s: ServiceId, payment: seq<Interval>)
    ensures SavePaymentPacks(t, s, payment).1.OverlapError? <==> exists i :: OverlapsNext(SortByFloor(payment), i)
    ensures SavePaymentPacks(t, s, payment).1.OverlapError? ==>
      && (forall p :: p in SavePaymentPacks(t, s, payment).0.paymentPacks ==> p.service != s)
      && exists i :: OverlapsNext(SortByFloor(payment), i) && (forall j :: 0 <= j < i ==> !OverlapsNext(SortByFloor(payment), j))
           && SavePaymentPacks(t, s, payment).1 == OverlapError(SortByFloor(payment)[i].floor, SortByFloor(payment)[i].ceiling,
                                                                SortByFloor(payment)[i + 1].floor, SortByFloor(payment)[i + 1].ceiling)
  {
    var sorted := SortByFloor(payment);
    match FirstOverlap(sorted)
    case Some(i) =>
      assert FirstOverlapFrom(sorted, 0) == Some(i);
      assert OverlapsNext(sorted, i) && forall j :: 0 <= j < i ==> !OverlapsNext(sorted, j);
      assert SavePaymentPacks(t, s, payment).1
          == OverlapError(sorted[i].floor, sorted[i].ceiling, sorted[i + 1].floor, sorted[i + 1].ceiling);
      assert exists k :: OverlapsNext(SortByFloor(payment), k);
      assert SavePaymentPacks(t, s, payment).1.OverlapError?;
    case None =>
      assert forall i :: !OverlapsNext(sorted, i);
  }

  /** What a successful save leaves: every join entry has named a coupon, the
      sorted intervals have no adjacent overlap and every reward has named a
      coupon. */
  lemma SavePacksSavedState(t: Tables, s: ServiceId, join: seq<PackEntry>, payment: seq<Interval>)
    requires SavePacks(t, s, join, payment).1 == PacksSaved
    ensures var t' := SavePacks(t, s, join, payment).0;
      var sorted := SortByFloor(payment);
      && FirstOverlap(sorted).None?
      && t'.joinPacks == OtherJoinPacks(t.joinPacks, s) + JoinRows(s, join)
      && t'.paymentPacks == OtherPaymentPacks(t.paymentPacks, s) + PaymentRows(s, sorted)
  {
    var jrows := JoinRows(s, join);
    assert jrows[..|join|] == jrows;
    CreatedRowsMeaning(s, SortByFloor(payment), t.coupons.Keys);
  }

  /** The packs of the sorted intervals are those of the submitted ones. */
  lemma SortedPaymentRows(s: ServiceId, payment: seq<Interval>, p: PaymentPack)
    ensures p in PaymentRows(s, SortByFloor(payment)) <==>
      (exists i, j :: 0 <= i < |payment| && 0 <= j < |payment[i].rewards| &&
         p == PaymentPack(s, payment[i].rewards[j].coupon, payment[i].floor, payment[i].ceiling, payment[i].rewards[j].count))
  {
    var sorted := SortByFloor(payment);
    PaymentRowsMeaning(s, sorted);
    if p in PaymentRows(s, sorted) {
      var i, j :| 0 <= i < |sorted| && 0 <= j < |sorted[i].rewards| &&
        p == PaymentPack(s, sorted[i].rewards[j].coupon, sorted[i].floor, sorted[i].ceiling, sorted[i].rewards[j].count);
      assert sorted[i] in multiset(payment);
      var i' :| 0 <= i' < |payment| && payment[i'] == sorted[i];
    }
    if exists i, j :: 0 <= i < |payment| && 0 <= j < |payment[i].rewards| &&
         p == PaymentPack(s, payment[i].rewards[j].coupon, payment[i].floor, payment[i].ceiling, payment[i].rewards[j].count) {
      var i, j :| 0 <= i < |payment| && 0 <= j < |payment[i].rewards| &&
        p == PaymentPack(s, payment[i].rewards[j].coupon, payment[i].floor, payment[i].ceiling, payment[i].rewards[j].count);
      assert payment[i] in multiset(sorted);
      var i' :| 0 <= i' < |sorted| && sorted[i'] == payment[i];
    }
  }

  /** A save that succeeds leaves the service exactly one join pack per
      submitted entry and one payment pack per (interval, reward), with that
      interval's bounds, the intervals being pairwise disjoint. */
  lemma SavePacksSaved(t: Tables, s: ServiceId, join: seq<PackEntry>, payment: seq<Interval>)
    requires SavePacks(t, s, join, payment).1 == PacksSaved
    ensures var t' := SavePacks(t, s, join, payment).0;
      var sorted := SortByFloor(payment);
      && t'.joinPacks == OtherJoinPacks(t.joinPacks, s) + JoinRows(s, join)
      && (forall i, j :: 0 <= i < j < |sorted| ==> sorted[i].ceiling < sorted[j].floor)
      && (forall p: PaymentPack :: p in t'.paymentPacks && p.service == s <==>
            (exists i, j :: 0 <= i < |payment| && 0 <= j < |payment[i].rewards| &&
               p == PaymentPack(s, payment[i].rewards[j].coupon, payment[i].floor, payment[i].ceiling, payment[i].rewards[j].count)))
  {
    var sorted := SortByFloor(payment);
    var t' := SavePacks(t, s, join, payment).0;
    SavePacksSavedState(t, s, join, payment);
    SortByFloorSorted(payment);
    NoOverlapMeansDisjoint(sorted);
    PaymentRowsMeaning(s, sorted);
    forall p: PaymentPack
      ensures p in t'.paymentPacks && p.service == s <==>
        (exists i, j :: 0 <= i < |payment| && 0 <= j < |payment[i].rewards| &&
           p == PaymentPack(s, payment[i].rewards[j].coupon, payment[i].floor, payment[i].ceiling, payment[i].rewards[j].count))
    {
      SortedPaymentRows(s, payment, p);
    }
  }

  /** The scan for the first overlapping pair, stopping at the first. */
  method FindOverlap(ivs: seq<Interval>) returns (overlap: bool, i: int)
    ensures overlap <==> FirstOverlap(ivs).Some?
    ensures overlap ==> i == FirstOverlap(ivs).value && OverlapsNext(ivs, i)
  {
    overlap := false;
    i := 0;
    while i < |ivs| - 1
      invariant 0 <= i
      invariant FirstOverlapFrom(ivs, i) == FirstOverlap(ivs)
    {
      if ivs[i].ceiling >= ivs[i + 1].floor {
        overlap := true;
        return;
      }
      i := i + 1;
    }
  }

  /** `Configuration.save_rewards_packs`. */
  method SaveRewardsPacks(db: Db, s: ServiceId, join: seq<PackEntry>, payment: seq<Interval>)
    returns (reply: PacksReply)
    modifies db
    ensures (db.State(), reply) == SavePacks(old(db.State()), s, join, payment)
  {
    var missing := ReplaceJoinPacks(db, s, join);
    if missing.Some? {
      return NoSuchCoupon(missing.value);
    }
    reply := ReplacePaymentPacks(db, s, payment);
  }

  /** Deletes the service's join packs and creates the submitted ones. */
  method ReplaceJoinPacks(db: Db, s: ServiceId, join: seq<PackEntry>) returns (missing: Option<CouponId>)
    modifies db
    ensures (db.State(), missing) == SaveJoinPacks(old(db.State()), s, join)
  {
    ghost var t := db.State();
    db.joinPacks := OtherJoinPacks(db.joinPacks, s);
    ghost var jrows := JoinRows(s, join);
    var i := 0;
    while i < |join|
      invariant 0 <= i <= |join|
      invariant db.State() == t.(joinPacks := OtherJoinPacks(t.joinPacks, s) + jrows[..i])
      invariant forall j :: 0 <= j < i ==> join[j].coupon in t.coupons
    {
      if join[i].coupon !in db.coupons {
        KnownPrefixUnique(JoinIds(jrows), t.coupons.Keys, i);
        return Some(join[i].coupon);
      }
      db.joinPacks := db.joinPacks + [RewardPack(s, join[i].coupon, join[i].count)];
      assert jrows[..i + 1] == jrows[..i] + [jrows[i]];
      i := i + 1;
    }
    KnownPrefixUnique(JoinIds(jrows), t.coupons.Keys, |join|);
    missing := None;
  }

  /** Deletes the service's payment packs and, unless two intervals overlap,
      creates the submitted ones. */
  method ReplacePaymentPacks(db: Db, s: ServiceId, payment: seq<Interval>) returns (reply: PacksReply)
    modifies db
    ensures (db.State(), reply) == SavePaymentPacks(old(db.State()), s, payment)
  {
    db.paymentPacks := OtherPaymentPacks(db.paymentPacks, s);
    var sorted := SortByFloor(payment);
    var overlap, k := FindOverlap(sorted);
    if overlap {
      return OverlapError(sorted[k].floor, sorted[k].ceiling, sorted[k + 1].floor, sorted[k + 1].ceiling);
    }
    reply := CreatePaymentPacks(db, s, sorted);
  }

  /** The creation of the payment packs: the rows the loop creates are
      appended to the table, and a reward naming no coupon is reported. */
  method CreatePaymentPacks(db: Db, s: ServiceId, sorted: seq<Interval>) returns (reply: PacksReply)
    modifies db
    ensures var (rows, missing) := CreatedRows(s, sorted, old(db.coupons).Keys);
      && db.State() == old(db.State()).(paymentPacks := old(db.paymentPacks) + rows)
      && reply == if missing.Some? then NoSuchCoupon(missing.value) else PacksSaved
  {
    var rows, missing := CollectPaymentPacks(db.coupons, s, sorted);
    db.paymentPacks := db.paymentPacks + rows;
    reply := if missing.Some? then NoSuchCoupon(missing.value) else PacksSaved;
  }

  /** The creation loop, interval by interval: the rows created before the
      first reward naming no coupon, and that coupon. */
  method CollectPaymentPacks(coupons: map<CouponId, Coupon>, s: ServiceId, sorted: seq<Interval>)
    returns (packs: seq<PaymentPack>, missing: Option<CouponId>)
    ensures (packs, missing) == CreatedRows(s, sorted, coupons.Keys)
  {
    packs := [];
    var i := 0;
    while i < |sorted|
      invariant 0 <= i <= |sorted|
      invariant CreatedRows(s, sorted[..i], coupons.Keys) == (packs, None)
    {
      var created := CreateIntervalPacks(coupons, s, sorted[i]);
      var rows := IntervalRows(s, sorted[i]);
      CreatedRowsStep(s, sorted, i, coupons.Keys);
      packs := packs + rows[..created];
      if created < |sorted[i].rewards| {
        CreatedRowsStopped(s, sorted, i + 1, coupons.Keys);
        return packs, Some(sorted[i].rewards[created].coupon);
      }
      i := i + 1;
    }
    assert sorted[..|sorted|] == sorted;
    missing := None;
  }

  /** The packs of one interval, up to the first reward naming no coupon:
      returns how many are created. */
  method CreateIntervalPacks(coupons: map<CouponId, Coupon>, s: ServiceId, iv: Interval) returns (created: nat)
    ensures created == KnownPrefix(PaymentIds(IntervalRows(s, iv)), coupons.Keys)
  {
    ghost var ids := PaymentIds(IntervalRows(s, iv));
    created := 0;
    while created < |iv.rewards|
      invariant created <= |iv.rewards|
      invariant forall j :: 0 <= j < created ==> iv.rewards[j].coupon in coupons
    {
      if iv.rewards[created].coupon !in coupons {
        KnownPrefixUnique(ids, coupons.Keys, created);
        return;
      }
      created := created + 1;
    }
    KnownPrefixUnique(ids, coupons.Keys, created);
  }

  // ------------------------------------------------------------ save_billing

  /** `save_billing` on the operator profile: plan, sms and auto-renewal
      change together, and only when another plan is chosen. */
  function ChangeBilling(op: OperatorProfile, plan: PlanId, sms: bool, autoRenew: bool): OperatorProfile
  {
    if op.plan != plan then op.(plan := plan, sms := sms, autoRenew := autoRenew) else op
  }

  /** Choosing another plan sets the plan, sms and auto-renewal as submitted
      and keeps every other field; choosing the current plan changes nothing;
      saving the same choice twice is the same as once. */
  lemma ChangeBillingEffect(op: OperatorProfile, plan: PlanId, sms: bool, autoRenew: bool)
    ensures var op' := ChangeBilling(op, plan, sms, autoRenew);
      && op'.plan == plan
      && (op.plan == plan ==> op' == op)
      && (op.plan != plan ==> op' == op.(plan := plan, sms := sms, autoRenew := autoRenew))
      && ChangeBilling(op', plan, sms, autoRenew) == op'
  {
  }

  /** `Configuration.save_billing`: false when the plan or the service's
      operator profile does not exist. */
  method SaveBilling(db: Db, s: ServiceId, plans: set<PlanId>, plan: PlanId, sms: bool, autoRenew: bool)
    returns (ok: bool)
    modifies db
    ensures ok <==> plan in plans && s in old(db.operators)
    ensures ok ==> db.State() == old(db.State()).(operators := old(db.operators)[s := ChangeBilling(old(db.operators)[s], plan, sms, autoRenew)])
    ensures !ok ==> db.State() == old(db.State())
  {
    if plan !in plans || s !in db.operators {
      return false;
    }
    var op := db.operators[s];
    if op.plan != plan {
      db.operators := db.operators[s := op.(plan := plan, sms := sms, autoRenew := autoRenew)];
    } else {
      assert db.operators[s := op] == db.operators;
    }
    ok := true;
  }

  // --------------------------------------------------------------- file names

  /** `filename.split('.')`. */
  function Split(name: string): (tokens: seq<string>)
    ensures |tokens| >= 1
    decreases |name|
  {
    if name == [] then [""]
    else
      var rest := Split(name[1..]);
      if name[0] == '.' then [""] + rest else [[name[0]] + rest[0]] + rest[1..]
  }

  /** `''.join(tokens)`. */
  function Concat(tokens: seq<string>): string
    decreases |tokens|
  {
    if tokens == [] then "" else tokens[0] + Concat(tokens[1..])
  }

  function RemoveDots(name: string): (r: string)
    ensures '.' !in r
    decreases |name|
  {
    if name == [] then "" else (if name[0] == '.' then "" else [name[0]]) + RemoveDots(name[1..])
  }

  /** Where the text after the last dot starts; 0 when there is no dot. */
  function AfterLastDot(name: string): (k: nat)
    ensures k <= |name|
    ensures k > 0 ==> name[k - 1] == '.'
    ensures forall i :: k <= i < |name| ==> name[i] != '.'
    decreases |name|
  {
    if name == [] then 0
    else
      var k := AfterLastDot(name[1..]);
      if name[0] == '.' || k > 0 then k + 1 else 0
  }

  /** The split has one token exactly when the name has no dot. */
  lemma {:induction false} SplitSingle(name: string)
    ensures |Split(name)| == 1 <==> AfterLastDot(name) == 0
    decreases |name|
  {
    if name != [] {
      SplitSingle(name[1..]);
    }
  }

  /** The last token is the text after the last dot, all of it when there is
      none. */
  lemma {:induction false} SplitLast(name: string)
    ensures Split(name)[|Split(name)| - 1] == name[AfterLastDot(name)..]
    decreases |name|
  {
    if name != [] {
      SplitLast(name[1..]);
      SplitSingle(name[1..]);
      var rest := Split(name[1..]);
      if name[0] != '.' && |rest| == 1 {
        assert name == [name[0]] + name[1..];
      }
    }
  }

  /** The other tokens joined are the text before the last dot with its dots
      removed. */
  lemma {:induction false} SplitInit(name: string)
    ensures var tokens := Split(name);
      var k := AfterLastDot(name);
      Concat(tokens[..|tokens| - 1]) == if k == 0 then "" else RemoveDots(name[..k - 1])
    decreases |name|
  {
    if name != [] {
      SplitInit(name[1..]);
      SplitSingle(name[1..]);
      var rest := Split(name[1..]);
      var k' := AfterLastDot(name[1..]);
      var tokens := Split(name);
      if k' > 0 {
        RemoveDotsCons(name, k');
      }
      if name[0] == '.' {
        assert tokens[..|tokens| - 1] == [""] + rest[..|rest| - 1];
      } else if k' > 0 {
        SplitInitLetter(name[0], rest);
      }
    }
  }

  /** Removing the dots of a prefix, one character at a time. */
  lemma RemoveDotsCons(name: string, k: nat)
    requires 1 <= k <= |name|
    ensures RemoveDots(name[..k]) == (if name[0] == '.' then "" else [name[0]]) + RemoveDots(name[1..][..k - 1])
  {
    assert name[..k][1..] == name[1..][..k - 1];
  }

  /** A letter in front of the first of several tokens joins it. */
  lemma SplitInitLetter(c: char, rest: seq<string>)
    requires |rest| > 1
    ensures var tokens := [[c] + rest[0]] + rest[1..];
      Concat(tokens[..|tokens| - 1]) == [c] + Concat(rest[..|rest| - 1])
  {
    var init := rest[..|rest| - 1];
    var tokens := [[c] + rest[0]] + rest[1..];
    assert tokens[..|tokens| - 1] == [[c] + rest[0]] + init[1..];
    assert Concat(init) == rest[0] + Concat(init[1..]);
  }

  /** `CouponUploadBackend.update_filename`, with Django's `slugify` as a
      parameter. */
  function UpdateFilename(name: string, slugify: string -> string): (r: string)
    ensures var k := AfterLastDot(name);
      r == slugify(if k == 0 then "" else RemoveDots(name[..k - 1])) + "." + name[k..]
  {
    var tokens := Split(name);
    SplitLast(name);
    SplitInit(name);
    slugify(Concat(tokens[..|tokens| - 1])) + "." + tokens[|tokens| - 1]
  }

  /** A name without a dot becomes the extension of an empty stem. */
  lemma UpdateFilenameWithoutDot(name: string, slugify: string -> string)
    requires '.' !in name
    ensures UpdateFilename(name, slugify) == slugify("") + "." + name
  {
  }

  function Digit(d: nat): char
    requires d < 10
  {
    "0123456789"[d]
  }

  /** `str(n)`. */
  function NatToString(n: nat): (r: string)
    ensures |r| >= 1
    decreases n
  {
    if n < 10 then [Digit(n)] else NatToString(n / 10) + [Digit(n % 10)]
  }

  /** Distinct numbers have distinct decimal forms. */
  lemma {:induction false} NatToStringInjective(a: nat, b: nat)
    requires NatToString(a) == NatToString(b)
    ensures a == b
    decreases a
  {
    if a >= 10 && b >= 10 {
      var sa, sb := NatToString(a), NatToString(b);
      assert sa[..|sa| - 1] == NatToString(a / 10);
      assert sb[..|sb| - 1] == NatToString(b / 10);
      NatToStringInjective(a / 10, b / 10);
      assert Digit(a % 10) == sa[|sa| - 1] == Digit(b % 10);
    }
  }

  /** The k-th numbered name: `seo_filename_no_extension + str(k) + extension`. */
  function Numbered(stem: string, k: nat, ext: string): string
  {
    stem + NatToString(k) + ext
  }

  lemma NumberedInjective(stem: string, a: nat, b: nat, ext: string)
    requires Numbered(stem, a, ext) == Numbered(stem, b, ext)
    ensures a == b
  {
    var x, y := Numbered(stem, a, ext), Numbered(stem, b, ext);
    assert NatToString(a) == x[|stem|..|x| - |ext|];
    assert NatToString(b) == y[|stem|..|y| - |ext|];
    NatToStringInjective(a, b);
  }

  /** The numbered names 1 .. k - 1. */
  ghost function NumberedUpTo(stem: string, k: nat, ext: string): (r: set<string>)
    ensures forall j: nat :: 1 <= j < k ==> Numbered(stem, j, ext) in r
    ensures forall x :: x in r ==> exists j: nat :: 1 <= j < k && x == Numbered(stem, j, ext)
    decreases k
  {
    if k <= 1 then {} else NumberedUpTo(stem, k - 1, ext) + {Numbered(stem, k - 1, ext)}
  }

  /** There are k - 1 of them. */
  lemma {:induction false} NumberedUpToSize(stem: string, k: nat, ext: string)
    ensures |NumberedUpTo(stem, k, ext)| == if k <= 1 then 0 else k - 1
    decreases k
  {
    if k > 1 {
      NumberedUpToSize(stem, k - 1, ext);
      NotYetNumbered(stem, k - 1, ext);
      assert NumberedUpTo(stem, k, ext) == NumberedUpTo(stem, k - 1, ext) + {Numbered(stem, k - 1, ext)};
    }
  }

  /** The k-th numbered name is not among the names before it. */
  lemma NotYetNumbered(stem: string, k: nat, ext: string)
    ensures Numbered(stem, k, ext) !in NumberedUpTo(stem, k, ext)
  {
    if Numbered(stem, k, ext) in NumberedUpTo(stem, k, ext) {
      var j: nat :| 1 <= j < k && Numbered(stem, k, ext) == Numbered(stem, j, ext);
      NumberedInjective(stem, j, k, ext);
    }
  }

  /** The free-name search of `upload_complete`: the SEO name
      `project_slug + '_' + slug + ext` when no such file exists, and
      otherwise `slug + k + ext` for the smallest k >= 1 that is free. */
  method UniqueFilename(existing: set<string>, projectSlug: string, stem: string, ext: string)
    returns (name: string, suffix: nat)
    ensures var seo := projectSlug + "_" + stem + ext;
      && (seo !in existing ==> suffix == 0 && name == seo)
      && (seo in existing ==>
            && suffix >= 1 && name == Numbered(stem, suffix, ext) && name !in existing
            && forall j: nat :: 1 <= j < suffix ==> Numbered(stem, j, ext) in existing)
  {
    var seo := projectSlug + "_" + stem + ext;
    name := seo;
    suffix := 0;
    if seo in existing {
      var unique := false;
      while !unique
        invariant suffix == 0 ==> !unique
        invariant forall j: nat :: 1 <= j < suffix ==> Numbered(stem, j, ext) in existing
        invariant unique ==> Numbered(stem, suffix, ext) !in existing
        invariant NumberedUpTo(stem, suffix, ext) <= existing
        invariant suffix <= |existing| + 1
        decreases |existing| + 1 - suffix, if unique then 0 else 1
      {
        var taken := if suffix == 0 then seo in existing else Numbered(stem, suffix, ext) in existing;
        if taken {
          TakenNamesBound(existing, stem, suffix, ext);
          suffix := suffix + 1;
        } else {
          unique := true;
        }
      }
      name := Numbered(stem, suffix, ext);
    }
  }

  /** With names 1 .. k taken, the next name to try is still within the
      number of existing names plus one. */
  lemma TakenNamesBound(existing: set<string>, stem: string, k: nat, ext: string)
    requires NumberedUpTo(stem, k, ext) <= existing
    requires k >= 1 ==> Numbered(stem, k, ext) in existing
    ensures NumberedUpTo(stem, k + 1, ext) <= existing
    ensures k + 1 <= |existing| + 1
  {
    NumberedUpToSize(stem, k + 1, ext);
    if k >= 1 {
      assert NumberedUpTo(stem, k + 1, ext) == NumberedUpTo(stem, k, ext) + {Numbered(stem, k, ext)};
      SubsetSize(NumberedUpTo(stem, k + 1, ext), existing);
    }
  }

  lemma SubsetSize<T>(a: set<T>, b: set<T>)
    requires a <= b
    ensures |a| <= |b|
  {
    assert b == a + (b - a);
  }
}
