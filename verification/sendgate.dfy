/** The send cron of rewarding/reward_crons.py: `send_free_rewards` decides
    which members get their prepared rewards now, `group_rewards_by_service`
    books those rewards into the member's balances, and the final batch update
    marks the selected members' prepared rewards as sent.

    `Reward.objects.get(member, coupon, status=PREPARED)` raises
    `MultipleObjectsReturned` when two prepared rewards share a coupon (a
    JOIN reward not yet sent and a later FREE reward, for instance); nothing
    catches it, so the run stops there: what was booked stays booked and no
    reward is marked sent. The model carries that as `ok == false`. */
module SendGate {
  import opened Models
  import opened Ledger

  /** A member with at least this many prepared rewards is sent them. */
  const MinForSending: int := 2
  /** A member whose latest prepared reward is this many days old is sent it. */
  const MaxNrmDays: int := 3

  predicate PreparedFor(r: Reward, m: MemberId)
  {
    r.member == m && r.status == Prepared
  }

  /** `Reward.objects.filter(member=member, status=PREPARED).count()`. */
  function PreparedCount(rs: seq<Reward>, m: MemberId): nat
    decreases |rs|
  {
    if rs == [] then 0
    else PreparedCount(rs[..|rs| - 1], m) + (if PreparedFor(rs[|rs| - 1], m) then 1 else 0)
  }

  /** `order_by('-id')[0]` over the member's prepared rewards. */
  function LatestPrepared(rs: seq<Reward>, m: MemberId): (r: Option<nat>)
    ensures r.Some? ==> (r.value < |rs| && PreparedFor(rs[r.value], m)
                         && forall j :: r.value < j < |rs| ==> !PreparedFor(rs[j], m))
    ensures r.None? <==> forall j :: 0 <= j < |rs| ==> !PreparedFor(rs[j], m)
    decreases |rs|
  {
    if rs == [] then None
    else if PreparedFor(rs[|rs| - 1], m) then Some(|rs| - 1)
    else
      var r := LatestPrepared(rs[..|rs| - 1], m);
      assert forall j :: 0 <= j < |rs| - 1 ==> rs[..|rs| - 1][j] == rs[j];
      r
  }

  /** The count is the number of the member's prepared rewards: positive
      exactly when there is a latest one, and 1 exactly when the latest is the
      only one. */
  lemma {:induction false} PreparedCountMeaning(rs: seq<Reward>, m: MemberId)
    ensures PreparedCount(rs, m) > 0 <==> LatestPrepared(rs, m).Some?
    ensures PreparedCount(rs, m) == 1 ==> forall j :: 0 <= j < |rs| && PreparedFor(rs[j], m) ==> j == LatestPrepared(rs, m).value
    ensures PreparedCount(rs, m) <= |rs|
    decreases |rs|
  {
    if rs != [] {
      var init := rs[..|rs| - 1];
      PreparedCountMeaning(init, m);
      assert forall j :: 0 <= j < |init| ==> init[j] == rs[j];
    }
  }

  /** `reward_count >= MIN_FOR_SENDING or diff.days >= MAX_NRM_DAYS`. */
  predicate Gated(rs: seq<Reward>, m: MemberId, now: int)
  {
    match LatestPrepared(rs, m)
    case None => false
    case Some(i) => PreparedCount(rs, m) >= MinForSending || DaysBetween(rs[i].createdOn, now) >= MaxNrmDays
  }

  /** Two prepared rewards are sent whatever their age; a lone prepared
      reward waits until it is three whole days old. */
  lemma GateMeaning(rs: seq<Reward>, m: MemberId, now: int)
    ensures PreparedCount(rs, m) >= 2 ==> Gated(rs, m, now)
    ensures PreparedCount(rs, m) == 1 ==>
      exists i :: 0 <= i < |rs| && PreparedFor(rs[i], m)
        && (Gated(rs, m, now) <==> now - rs[i].createdOn >= MaxNrmDays * SecondsPerDay)
    ensures PreparedCount(rs, m) == 0 ==> !Gated(rs, m, now)
  {
    PreparedCountMeaning(rs, m);
    if PreparedCount(rs, m) == 1 {
      var i := LatestPrepared(rs, m).value;
      var d := DaysBetween(rs[i].createdOn, now);
      if d >= MaxNrmDays {
        assert now - rs[i].createdOn >= d * SecondsPerDay >= MaxNrmDays * SecondsPerDay;
      }
      assert PreparedFor(rs[i], m);
    }
  }

  // ------------------------------------------------ group_rewards_by_service

  predicate PreparedOn(r: Reward, m: MemberId, c: CouponId)
  {
    r.member == m && r.coupon == c && r.status == Prepared
  }

  /** The rows `Reward.objects.get(member, coupon, status=PREPARED)` looks at. */
  function PreparedRows(rs: seq<Reward>, m: MemberId, c: CouponId): (r: seq<nat>)
    ensures forall k :: 0 <= k < |r| ==> r[k] < |rs| && PreparedOn(rs[r[k]], m, c)
    ensures forall j :: 0 <= j < |rs| && PreparedOn(rs[j], m, c) ==> j in r
    decreases |rs|
  {
    if rs == [] then []
    else
      var init := PreparedRows(rs[..|rs| - 1], m, c);
      assert forall j :: 0 <= j < |rs| - 1 ==> rs[..|rs| - 1][j] == rs[j];
      if PreparedOn(rs[|rs| - 1], m, c) then init + [|rs| - 1] else init
  }

  /** The grouping of one member in progress: the tables, the services'
      reward lists, the list of the service being visited, and whether the
      run is still going. */
  datatype Grouping = Grouping(t: Tables, grouped: map<ServiceId, seq<Reward>>, list: seq<Reward>, ok: bool)

  /** The booking of the member's single prepared reward of coupon `c`:
      balance and summary grow by its count, and a balance past the heap
      (strictly) makes the member a winner. */
  function Book(t: Tables, s: ServiceId, m: MemberId, c: Coupon, reward: Reward): Tables
  {
    var cumul := Balance(t, m, c.id) + reward.count;
    var summary := SummaryOf(t, s, m);
    var reached := cumul > c.heapSize;
    t.(balances := t.balances[Holding(m, c.id) := cumul],
       summaries := t.summaries[MemberKey(s, m) := Summary(summary.count + reward.count, summary.thresholdReached || reached)],
       winners := if reached then t.winners + [Winner(m, c.id, false)] else t.winners)
  }

  /** One approved, active coupon of the service. */
  function GroupCoupon(acc: Grouping, s: ServiceId, m: MemberId, c: Coupon): Grouping
  {
    if !acc.ok then acc
    else
      var rows := PreparedRows(acc.t.rewards, m, c.id);
      if |rows| == 0 then acc
      else if |rows| > 1 then acc.(ok := false)
      else
        var reward := acc.t.rewards[rows[0]];
        acc.(t := Book(acc.t, s, m, c, reward), list := acc.list + [reward])
  }

  function GroupCoupons(acc: Grouping, s: ServiceId, m: MemberId, cs: seq<Coupon>): Grouping
    decreases |cs|
  {
    if cs == [] then acc
    else GroupCoupon(GroupCoupons(acc, s, m, cs[..|cs| - 1]), s, m, cs[|cs| - 1])
  }

  /** The fold over a prefix one coupon longer. */
  lemma GroupCouponsSnoc(acc: Grouping, s: ServiceId, m: MemberId, cs: seq<Coupon>, i: nat)
    requires i < |cs|
    ensures GroupCoupons(acc, s, m, cs[..i + 1]) == GroupCoupon(GroupCoupons(acc, s, m, cs[..i]), s, m, cs[i])
  {
    assert cs[..i + 1][..i] == cs[..i];
  }

  /** One service of `member.customer_on`; `CROperatorProfile.objects.get`
      raises when the service has no operator profile. */
  function GroupService(acc: Grouping, m: MemberId, s: ServiceId): Grouping
  {
    if !acc.ok then acc
    else if s !in acc.t.operators then acc.(ok := false)
    else
      var r := GroupCoupons(acc.(list := []), s, m, ServiceCoupons(acc.t, s, ApprovedAndActive));
      if r.ok then r.(grouped := r.grouped[s := r.list]) else r
  }

  function GroupServices(acc: Grouping, m: MemberId, ss: seq<ServiceId>): Grouping
    decreases |ss|
  {
    if ss == [] then acc
    else GroupService(GroupServices(acc, m, ss[..|ss| - 1]), m, ss[|ss| - 1])
  }

  function CustomerOn(t: Tables, m: MemberId): seq<ServiceId>
  {
    if m in t.customerOn then t.customerOn[m] else []
  }

  /** `group_rewards_by_service(member)`. */
  function GroupRewardsByService(t: Tables, m: MemberId): Grouping
  {
    GroupServices(Grouping(t, map[], [], true), m, CustomerOn(t, m))
  }

  /** Booking one reward: the member's balance of the coupon and the summary
      count grow by the reward's count; a winner is recorded exactly when the
      new balance is strictly above the heap, so a balance equal to the heap
      records none; every other balance and summary is untouched. */
  lemma BookEffect(t: Tables, s: ServiceId, m: MemberId, c: Coupon, reward: Reward)
    ensures var t' := Book(t, s, m, c, reward);
      && Balance(t', m, c.id) == Balance(t, m, c.id) + reward.count
      && SummaryOf(t', s, m).count == SummaryOf(t, s, m).count + reward.count
      && (|t'.winners| > |t.winners| <==> Balance(t', m, c.id) > c.heapSize)
      && (Balance(t', m, c.id) > c.heapSize ==> SummaryOf(t', s, m).thresholdReached && t'.winners == t.winners + [Winner(m, c.id, false)])
      && (Balance(t', m, c.id) <= c.heapSize ==> SummaryOf(t', s, m).thresholdReached == SummaryOf(t, s, m).thresholdReached)
      && (forall h: Holding :: h != Holding(m, c.id) ==> SameRow(t'.balances, t.balances, h))
      && (forall k :: k != MemberKey(s, m) && k in t.summaries ==> k in t'.summaries && t'.summaries[k] == t.summaries[k])
      && t' == t.(balances := t'.balances, summaries := t'.summaries, winners := t'.winners)
  {
  }

  /** A coupon with two prepared rewards of the member stops the run and
      changes nothing. */
  lemma TwoPreparedRewardsAbort(acc: Grouping, s: ServiceId, m: MemberId, c: Coupon, i: nat, j: nat)
    requires acc.ok && i < j < |acc.t.rewards|
    requires PreparedOn(acc.t.rewards[i], m, c.id) && PreparedOn(acc.t.rewards[j], m, c.id)
    ensures GroupCoupon(acc, s, m, c) == acc.(ok := false)
  {
    var rows := PreparedRows(acc.t.rewards, m, c.id);
    assert i in rows && j in rows;
  }

  /** Grouping moves only the member's own balances, summaries and winner
      records: the rewards and every other table are left alone, as are other
      members' balances. */
  lemma {:induction false} GroupCouponsFrame(acc: Grouping, s: ServiceId, m: MemberId, cs: seq<Coupon>)
    ensures var r := GroupCoupons(acc, s, m, cs);
      && r.t == acc.t.(balances := r.t.balances, summaries := r.t.summaries, winners := r.t.winners)
      && (forall h: Holding :: h.member != m ==> SameRow(r.t.balances, acc.t.balances, h))
      && (forall k: MemberKey :: k.member != m && k in acc.t.summaries ==> k in r.t.summaries && r.t.summaries[k] == acc.t.summaries[k])
      && r.grouped == acc.grouped
      && (!acc.ok ==> r == acc)
    decreases |cs|
  {
    if cs != [] {
      GroupCouponsFrame(acc, s, m, cs[..|cs| - 1]);
      var mid := GroupCoupons(acc, s, m, cs[..|cs| - 1]);
      if mid.ok {
        var rows := PreparedRows(mid.t.rewards, m, cs[|cs| - 1].id);
        if |rows| == 1 {
          BookEffect(mid.t, s, m, cs[|cs| - 1], mid.t.rewards[rows[0]]);
        }
      }
    }
  }

  lemma {:induction false} GroupServicesFrame(acc: Grouping, m: MemberId, ss: seq<ServiceId>)
    ensures var r := GroupServices(acc, m, ss);
      && r.t == acc.t.(balances := r.t.balances, summaries := r.t.summaries, winners := r.t.winners)
      && (forall h: Holding :: h.member != m ==> SameRow(r.t.balances, acc.t.balances, h))
      && (forall k: MemberKey :: k.member != m && k in acc.t.summaries ==> k in r.t.summaries && r.t.summaries[k] == acc.t.summaries[k])
      && (!acc.ok ==> r == acc)
    decreases |ss|
  {
    if ss != [] {
      GroupServicesFrame(acc, m, ss[..|ss| - 1]);
      var mid := GroupServices(acc, m, ss[..|ss| - 1]);
      var s := ss[|ss| - 1];
      if mid.ok && s in mid.t.operators {
        GroupCouponsFrame(mid.(list := []), s, m, ServiceCoupons(mid.t, s, ApprovedAndActive));
      }
    }
  }

  /** The coupon loop only appends to the service's reward list, and only
      prepared rewards of the member. */
  lemma {:induction false} GroupCouponsListSound(acc: Grouping, s: ServiceId, m: MemberId, cs: seq<Coupon>)
    ensures var r := GroupCoupons(acc, s, m, cs);
      && |acc.list| <= |r.list| && r.list[..|acc.list|] == acc.list
      && (forall k :: |acc.list| <= k < |r.list| ==>
            r.list[k] in acc.t.rewards && r.list[k].member == m && r.list[k].status == Prepared)
    decreases |cs|
  {
    if cs != [] {
      var init := cs[..|cs| - 1];
      GroupCouponsListSound(acc, s, m, init);
      GroupCouponsFrame(acc, s, m, init);
    }
  }

  /** Unless the run stopped, every prepared reward of the member on a coupon
      of the loop is in the service's reward list. */
  lemma {:induction false} GroupCouponsListComplete(acc: Grouping, s: ServiceId, m: MemberId, cs: seq<Coupon>)
    ensures var r := GroupCoupons(acc, s, m, cs);
      r.ok ==> forall c, j :: c in cs && 0 <= j < |acc.t.rewards| && PreparedOn(acc.t.rewards[j], m, c.id) ==>
                 acc.t.rewards[j] in r.list
    decreases |cs|
  {
    if cs != [] {
      var init := cs[..|cs| - 1];
      var last := cs[|cs| - 1];
      GroupCouponsListComplete(acc, s, m, init);
      GroupCouponsFrame(acc, s, m, init);
      var mid := GroupCoupons(acc, s, m, init);
      var r := GroupCoupons(acc, s, m, cs);
      assert r == GroupCoupon(mid, s, m, last);
      if r.ok {
        GroupCouponComplete(mid, s, m, last);
        forall c, j | c in cs && 0 <= j < |acc.t.rewards| && PreparedOn(acc.t.rewards[j], m, c.id)
          ensures acc.t.rewards[j] in r.list
        {
          if c != last {
            assert c in init;
            assert acc.t.rewards[j] in mid.list;
          }
        }
      }
    }
  }

  /** One coupon that does not stop the run keeps the list so far and adds
      the member's prepared reward of that coupon. */
  lemma GroupCouponComplete(mid: Grouping, s: ServiceId, m: MemberId, c: Coupon)
    ensures var r := GroupCoupon(mid, s, m, c);
      r.ok ==> && (forall x :: x in mid.list ==> x in r.list)
               && forall j :: 0 <= j < |mid.t.rewards| && PreparedOn(mid.t.rewards[j], m, c.id) ==> mid.t.rewards[j] in r.list
  {
    var r := GroupCoupon(mid, s, m, c);
    if r.ok {
      var rows := PreparedRows(mid.t.rewards, m, c.id);
      forall j | 0 <= j < |mid.t.rewards| && PreparedOn(mid.t.rewards[j], m, c.id)
        ensures mid.t.rewards[j] in r.list
      {
        assert j in rows;
        assert |rows| == 1 && rows[0] == j;
      }
    }
  }

  // ------------------------------------------------------ send_free_rewards

  /** `Reward.objects.filter(status=PREPARED)`, in id order. */
  function PreparedRewards(rs: seq<Reward>): (r: seq<Reward>)
    ensures forall x :: x in r <==> x in rs && x.status == Prepared
    decreases |rs|
  {
    if rs == [] then []
    else
      var init := PreparedRewards(rs[..|rs| - 1]);
      assert forall x :: x in rs <==> x in rs[..|rs| - 1] || x == rs[|rs| - 1];
      if rs[|rs| - 1].status == Prepared then init + [rs[|rs| - 1]] else init
  }

  /** The send loop in progress: the tables, `member_list`, and whether the
      run is still going. */
  datatype Sending = Sending(t: Tables, selected: set<MemberId>, ok: bool)

  /** One prepared reward of the queue: its member is considered once, and
      grouped when the gate lets it through. */
  function SendStep(acc: Sending, r: Reward, now: int): Sending
  {
    var m := r.member;
    if !acc.ok || m in acc.selected || !Gated(acc.t.rewards, m, now) then acc
    else
      var g := GroupRewardsByService(acc.t, m);
      Sending(g.t, acc.selected + {m}, g.ok)
  }

  function SendScan(acc: Sending, queue: seq<Reward>, now: int): Sending
    decreases |queue|
  {
    if queue == [] then acc
    else SendStep(SendScan(acc, queue[..|queue| - 1], now), queue[|queue| - 1], now)
  }

  /** `Reward.objects.filter(member=member, status=PREPARED).update(status=SENT)`
      for every member of `member_list`. */
  function MarkSent(rs: seq<Reward>, selected: set<MemberId>): (r: seq<Reward>)
    ensures |r| == |rs|
  {
    seq(|rs|, i requires 0 <= i < |rs| =>
      if rs[i].member in selected && rs[i].status == Prepared then rs[i].(status := Sent) else rs[i])
  }

  /** The batch update: a reward is sent afterwards exactly when it was sent
      before or was a prepared reward of a selected member; nothing but the
      status changes. */
  lemma MarkSentEffect(rs: seq<Reward>, selected: set<MemberId>)
    ensures var r := MarkSent(rs, selected);
      forall i :: 0 <= i < |rs| ==>
        && r[i] == rs[i].(status := r[i].status)
        && (r[i].status == Sent <==> rs[i].status == Sent || (rs[i].status == Prepared && rs[i].member in selected))
        && (r[i].status == Prepared <==> rs[i].status == Prepared && rs[i].member !in selected)
  {
  }

  /** `send_free_rewards`: the tables after the run and whether it finished. */
  function SendFreeRewards(t: Tables, now: int): (Tables, bool)
  {
    var sc := SendScan(Sending(t, {}, true), PreparedRewards(t.rewards), now);
    if sc.ok then (sc.t.(rewards := MarkSent(sc.t.rewards, sc.selected)), true) else (sc.t, false)
  }

  /** Grouping a member never changes the rewards, so the gate reads the
      rewards as the run found them. */
  lemma GroupKeepsRewards(t: Tables, m: MemberId)
    ensures GroupRewardsByService(t, m).t.rewards == t.rewards
    ensures forall h: Holding :: h.member != m ==> SameRow(GroupRewardsByService(t, m).t.balances, t.balances, h)
  {
    GroupServicesFrame(Grouping(t, map[], [], true), m, CustomerOn(t, m));
  }

  /** The scan selects exactly the members of the queue the gate lets
      through, unless the run stopped; members not selected keep their
      balances, and the rewards never change during the scan. */
  lemma {:induction false} SendScanSelects(acc: Sending, queue: seq<Reward>, now: int)
    requires acc.ok
    ensures var r := SendScan(acc, queue, now);
      && r.t.rewards == acc.t.rewards
      && acc.selected <= r.selected
      && (forall h: Holding :: h.member !in r.selected - acc.selected ==> SameRow(r.t.balances, acc.t.balances, h))
      && (r.ok ==> forall m :: m in r.selected - acc.selected <==>
            (m !in acc.selected && Gated(acc.t.rewards, m, now) && exists i :: 0 <= i < |queue| && queue[i].member == m))
    decreases |queue|
  {
    if queue != [] {
      var init := queue[..|queue| - 1];
      var x := queue[|queue| - 1];
      SendScanSelects(acc, init, now);
      var mid := SendScan(acc, init, now);
      var r := SendScan(acc, queue, now);
      if mid.ok && x.member !in mid.selected && Gated(mid.t.rewards, x.member, now) {
        GroupKeepsRewards(mid.t, x.member);
      }
      assert forall i :: 0 <= i < |init| ==> init[i] == queue[i];
      if r.ok {
        assert mid.ok;
        forall m | m !in acc.selected && Gated(acc.t.rewards, m, now) && exists i :: 0 <= i < |queue| && queue[i].member == m
          ensures m in r.selected
        {
          var i :| 0 <= i < |queue| && queue[i].member == m;
          if i < |init| {
            assert init[i].member == m;
          }
        }
      }
      if !mid.ok {
        assert r == mid;
      }
    }
  }

  /** A finished run marks sent exactly the prepared rewards of the members
      that have a prepared reward and pass the gate; every other reward keeps
      its status. A stopped run marks nothing. */
  lemma SendFreeRewardsEffect(t: Tables, now: int)
    ensures var (t', ok) := SendFreeRewards(t, now);
      && |t'.rewards| == |t.rewards|
      && (ok ==> forall i :: 0 <= i < |t.rewards| ==>
            (t'.rewards[i].status == Sent <==>
              t.rewards[i].status == Sent || (t.rewards[i].status == Prepared && Gated(t.rewards, t.rewards[i].member, now))))
      && (!ok ==> t'.rewards == t.rewards)
      && (forall i :: 0 <= i < |t.rewards| ==> t'.rewards[i] == t.rewards[i].(status := t'.rewards[i].status))
  {
    var queue := PreparedRewards(t.rewards);
    SendScanSelects(Sending(t, {}, true), queue, now);
    var sc := SendScan(Sending(t, {}, true), queue, now);
    MarkSentEffect(sc.t.rewards, sc.selected);
    if sc.ok {
      forall i | 0 <= i < |t.rewards| && t.rewards[i].status == Prepared && Gated(t.rewards, t.rewards[i].member, now)
        ensures t.rewards[i].member in sc.selected
      {
        assert t.rewards[i] in queue;
        var j :| 0 <= j < |queue| && queue[j] == t.rewards[i];
      }
    }
  }

  // ------------------------------------------------------------ the cron

  /** The inner loop of `group_rewards_by_service`, over the service's
      approved and active coupons; returns `reward_list` and whether the run
      goes on. */
  method GroupServiceCoupons(db: Db, s: ServiceId, m: MemberId, cs: seq<Coupon>) returns (list: seq<Reward>, ok: bool)
    modifies db
    ensures Grouping(db.State(), map[], list, ok) == GroupCoupons(Grouping(old(db.State()), map[], [], true), s, m, cs)
  {
    ghost var g0 := Grouping(db.State(), map[], [], true);
    list, ok := [], true;
    var i := 0;
    while i < |cs|
      invariant 0 <= i <= |cs|
      invariant Grouping(db.State(), map[], list, ok) == GroupCoupons(g0, s, m, cs[..i])
    {
      list, ok := GroupOneCoupon(db, s, m, cs[i], list, ok);
      GroupCouponsSnoc(g0, s, m, cs, i);
      i := i + 1;
    }
    assert cs[..|cs|] == cs;
  }

  /** One coupon of the inner loop: its single prepared reward of the member
      is booked and listed, and a second one stops the run. */
  method GroupOneCoupon(db: Db, s: ServiceId, m: MemberId, c: Coupon, list0: seq<Reward>, ok0: bool) returns (list: seq<Reward>, ok: bool)
    modifies db
    ensures Grouping(db.State(), map[], list, ok) == GroupCoupon(Grouping(old(db.State()), map[], list0, ok0), s, m, c)
  {
    list, ok := list0, ok0;
    if ok {
      var rows := PreparedRows(db.rewards, m, c.id);
      if |rows| > 1 {
        ok := false;
      } else if |rows| == 1 {
        var reward := db.rewards[rows[0]];
        list := list + [reward];
        BookReward(db, s, m, c, reward);
      }
    }
  }

  /** The body of the coupon loop for the one prepared reward found. */
  method BookReward(db: Db, s: ServiceId, m: MemberId, c: Coupon, reward: Reward)
    modifies db
    ensures db.State() == Book(old(db.State()), s, m, c, reward)
  {
    var h := Holding(m, c.id);
    var cumul := (if h in db.balances then db.balances[h] else 0) + reward.count;
    var key := MemberKey(s, m);
    var summary := if key in db.summaries then db.summaries[key] else Summary(0, false);
    summary := summary.(count := summary.count + reward.count);
    if cumul > c.heapSize {
      db.winners := db.winners + [Winner(m, c.id, false)];
      summary := summary.(thresholdReached := true);
    }
    db.balances, db.summaries := db.balances[h := cumul], db.summaries[key := summary];
  }

  /** `group_rewards_by_service(member)`; returns the reward lists by service
      and whether the run goes on. */
  method GroupRewards(db: Db, m: MemberId) returns (grouped: map<ServiceId, seq<Reward>>, ok: bool)
    modifies db
    ensures var g := GroupRewardsByService(old(db.State()), m);
      db.State() == g.t && grouped == g.grouped && ok == g.ok
  {
    var ss := CustomerOn(db.State(), m);
    ghost var t0 := db.State();
    assert GroupRewardsByService(t0, m) == GroupServices(Grouping(t0, map[], [], true), m, ss);
    grouped, ok := map[], true;
    ghost var list: seq<Reward> := [];
    var i := 0;
    while i < |ss|
      invariant 0 <= i <= |ss|
      invariant Grouping(db.State(), grouped, list, ok) == GroupServices(Grouping(t0, map[], [], true), m, ss[..i])
    {
      grouped, list, ok := GroupOneService(db, m, ss[i], grouped, list, ok);
      assert ss[..i + 1][..i] == ss[..i];
      i := i + 1;
    }
    assert ss[..|ss|] == ss;
    assert Grouping(db.State(), grouped, list, ok) == GroupRewardsByService(t0, m);
  }

  /** One service of the member: its approved, active coupons are grouped
      while the run goes on. */
  method GroupOneService(db: Db, m: MemberId, s: ServiceId, grouped0: map<ServiceId, seq<Reward>>, ghost list0: seq<Reward>, ok0: bool)
    returns (grouped: map<ServiceId, seq<Reward>>, ghost list: seq<Reward>, ok: bool)
    modifies db
    ensures Grouping(db.State(), grouped, list, ok) == GroupService(Grouping(old(db.State()), grouped0, list0, ok0), m, s)
  {
    grouped, list, ok := grouped0, list0, ok0;
    if ok {
      if s !in db.operators {
        ok := false;
      } else {
        ghost var before := Grouping(db.State(), grouped, [], true);
        var cs := ServiceCoupons(db.State(), s, ApprovedAndActive);
        GroupCouponsFrame(before, s, m, cs);
        GroupCouponsGroupedIrrelevant(before, s, m, cs);
        var rewardList, going := GroupServiceCoupons(db, s, m, cs);
        ok := going;
        list := rewardList;
        if ok {
          grouped := grouped[s := rewardList];
        }
      }
    }
  }

  /** The grouped lists carried along do not affect the coupon loop. */
  lemma {:induction false} GroupCouponsGroupedIrrelevant(acc: Grouping, s: ServiceId, m: MemberId, cs: seq<Coupon>)
    ensures var r := GroupCoupons(acc, s, m, cs);
      var r0 := GroupCoupons(acc.(grouped := map[]), s, m, cs);
      r == r0.(grouped := acc.grouped)
    decreases |cs|
  {
    if cs != [] {
      GroupCouponsGroupedIrrelevant(acc, s, m, cs[..|cs| - 1]);
    }
  }

  /** The loop of `send_free_rewards` over the prepared rewards; returns
      `member_list` and whether the run goes on. */
  method ScanPrepared(db: Db, now: int) returns (memberList: set<MemberId>, ok: bool)
    modifies db
    ensures Sending(db.State(), memberList, ok) == SendScan(Sending(old(db.State()), {}, true), PreparedRewards(old(db.rewards)), now)
  {
    var queue := PreparedRewards(db.rewards);
    ghost var s0 := Sending(db.State(), {}, true);
    memberList, ok := {}, true;
    var i := 0;
    while i < |queue|
      invariant 0 <= i <= |queue|
      invariant Sending(db.State(), memberList, ok) == SendScan(s0, queue[..i], now)
    {
      memberList, ok := SendOne(db, queue[i], now, memberList, ok);
      assert queue[..i + 1][..i] == queue[..i];
      i := i + 1;
    }
    assert queue[..|queue|] == queue;
  }

  /** One prepared reward of the queue: its member, not yet considered and
      let through by the gate, is added to `member_list` and grouped. */
  method SendOne(db: Db, r: Reward, now: int, memberList0: set<MemberId>, ok0: bool)
    returns (memberList: set<MemberId>, ok: bool)
    modifies db
    ensures Sending(db.State(), memberList, ok) == SendStep(Sending(old(db.State()), memberList0, ok0), r, now)
  {
    memberList, ok := memberList0, ok0;
    var m := r.member;
    if ok && m !in memberList && Gated(db.rewards, m, now) {
      memberList := memberList + {m};
      var grouped, going := GroupRewards(db, m);
      ok := going;
    }
  }

  /** The batch update of the selected members' prepared rewards. */
  method MarkSelectedSent(db: Db, memberList: set<MemberId>)
    modifies db
    ensures db.State() == old(db.State()).(rewards := MarkSent(old(db.rewards), memberList))
  {
    var rs := db.rewards;
    var j := 0;
    while j < |rs|
      invariant 0 <= j <= |rs| && |db.rewards| == |rs|
      invariant forall k :: 0 <= k < j ==> db.rewards[k] == MarkSent(rs, memberList)[k]
      invariant forall k :: j <= k < |rs| ==> db.rewards[k] == rs[k]
      invariant db.State() == old(db.State()).(rewards := db.rewards)
    {
      if rs[j].member in memberList && rs[j].status == Prepared {
        db.rewards := db.rewards[j := rs[j].(status := Sent)];
      }
      j := j + 1;
    }
  }

  /** `send_free_rewards`: the gate, the grouping of each selected member, and
      the final batch update; returns whether the run finished. */
  method SendFree(db: Db, now: int) returns (ok: bool)
    modifies db
    ensures (db.State(), ok) == SendFreeRewards(old(db.State()), now)
  {
    var memberList;
    memberList, ok := ScanPrepared(db, now);
    if ok {
      MarkSelectedSent(db, memberList);
    }
  }
}
