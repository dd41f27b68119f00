/** The candidates of the backfill step of `prepare_rewards`
    (rewarding/reward_crons.py): the community's profiles whose last reward is
    at least two days old, ordered by (reward_score, coupon_score,
    last_reward_date), of which the first n are taken. */
module Selection {
  import opened Models

  /** A member together with the profile the query reads. */
  datatype Entry = Entry(member: MemberId, profile: Profile)

  /** `order_by('reward_score', 'coupon_score', 'last_reward_date')`: the
      lexicographic order on the three fields, lowest first. */
  predicate KeyLe(a: Profile, b: Profile)
  {
    Rank(a.rewardScore) < Rank(b.rewardScore)
    || (Rank(a.rewardScore) == Rank(b.rewardScore)
        && (a.couponScore < b.couponScore
            || (a.couponScore == b.couponScore && a.lastRewardDate <= b.lastRewardDate)))
  }

  lemma KeyLeTotal(a: Profile, b: Profile)
    ensures KeyLe(a, b) || KeyLe(b, a)
  {
  }

  lemma KeyLeTransitive(a: Profile, b: Profile, c: Profile)
    requires KeyLe(a, b) && KeyLe(b, c)
    ensures KeyLe(a, c)
  {
  }

  ghost predicate SortedByKey(es: seq<Entry>)
  {
    forall i, j :: 0 <= i < j < |es| ==> KeyLe(es[i].profile, es[j].profile)
  }

  /** Places `e` before the first entry whose key is not below it. */
  function Insert(e: Entry, es: seq<Entry>): (r: seq<Entry>)
    ensures multiset(r) == multiset(es) + multiset{e}
    ensures |r| == |es| + 1
    decreases |es|
  {
    if es == [] then [e]
    else if KeyLe(e.profile, es[0].profile) then [e] + es
    else
      assert es == [es[0]] + es[1..];
      [es[0]] + Insert(e, es[1..])
  }

  lemma {:induction false} InsertSorted(e: Entry, es: seq<Entry>)
    requires SortedByKey(es)
    ensures SortedByKey(Insert(e, es))
    decreases |es|
  {
    if es == [] {
    } else if KeyLe(e.profile, es[0].profile) {
      var r := Insert(e, es);
      forall i, j | 0 <= i < j < |r|
        ensures KeyLe(r[i].profile, r[j].profile)
      {
        if i == 0 {
          if j > 1 {
            KeyLeTransitive(e.profile, es[0].profile, es[j - 1].profile);
          }
        } else {
          assert r[i] == es[i - 1] && r[j] == es[j - 1];
        }
      }
    } else {
      var tail := es[1..];
      assert SortedByKey(tail) by {
        forall i, j | 0 <= i < j < |tail|
          ensures KeyLe(tail[i].profile, tail[j].profile)
        {
          assert tail[i] == es[i + 1] && tail[j] == es[j + 1];
        }
      }
      InsertSorted(e, tail);
      var rest := Insert(e, tail);
      var r := Insert(e, es);
      assert r == [es[0]] + rest;
      KeyLeTotal(e.profile, es[0].profile);
      forall k | 0 <= k < |tail|
        ensures KeyLe(es[0].profile, tail[k].profile)
      {
        assert tail[k] == es[k + 1];
      }
      InsertBound(es[0].profile, e, tail);
      forall i, j | 0 <= i < j < |r|
        ensures KeyLe(r[i].profile, r[j].profile)
      {
        if i == 0 {
          assert r[j] == rest[j - 1];
        } else {
          assert r[i] == rest[i - 1] && r[j] == rest[j - 1];
        }
      }
    }
  }

  /** A key below the inserted entry and below every entry of the list is
      below every entry of the result. */
  lemma {:induction false} InsertBound(b: Profile, e: Entry, es: seq<Entry>)
    requires KeyLe(b, e.profile)
    requires forall k :: 0 <= k < |es| ==> KeyLe(b, es[k].profile)
    ensures forall k :: 0 <= k < |Insert(e, es)| ==> KeyLe(b, Insert(e, es)[k].profile)
    decreases |es|
  {
    var r := Insert(e, es);
    if es == [] {
    } else if KeyLe(e.profile, es[0].profile) {
      forall k | 0 <= k < |r|
        ensures KeyLe(b, r[k].profile)
      {
        if k > 0 {
          assert r[k] == es[k - 1];
        }
      }
    } else {
      var tail := es[1..];
      var rest := Insert(e, tail);
      assert forall k :: 0 <= k < |rest| ==> KeyLe(b, rest[k].profile) by {
        forall k | 0 <= k < |tail|
          ensures KeyLe(b, tail[k].profile)
        {
          assert tail[k] == es[k + 1];
        }
        InsertBound(b, e, tail);
      }
      assert r == [es[0]] + rest;
      forall k | 0 <= k < |r|
        ensures KeyLe(b, r[k].profile)
      {
        if k > 0 {
          assert r[k] == rest[k - 1];
        }
      }
    }
  }

  /** The database's sort, as an insertion sort. */
  function SortByKey(es: seq<Entry>): (r: seq<Entry>)
    ensures multiset(r) == multiset(es)
    ensures |r| == |es|
    decreases |es|
  {
    if es == [] then []
    else
      assert es == es[..|es| - 1] + [es[|es| - 1]];
      Insert(es[|es| - 1], SortByKey(es[..|es| - 1]))
  }

  lemma {:induction false} SortByKeySorted(es: seq<Entry>)
    ensures SortedByKey(SortByKey(es))
    decreases |es|
  {
    if es != [] {
      SortByKeySorted(es[..|es| - 1]);
      InsertSorted(es[|es| - 1], SortByKey(es[..|es| - 1]));
    }
  }

  /** `last_reward_date__lte=two_days_back`, over the community's members in
      the order the community lists them. */
  function Eligible(ms: seq<MemberId>, profiles: map<MemberKey, Profile>, s: ServiceId, cutoff: int): (es: seq<Entry>)
    ensures forall e :: e in es ==>
      && e.member in ms && MemberKey(s, e.member) in profiles
      && profiles[MemberKey(s, e.member)] == e.profile && e.profile.lastRewardDate <= cutoff
    ensures forall m :: (m in ms && MemberKey(s, m) in profiles && profiles[MemberKey(s, m)].lastRewardDate <= cutoff
                         ==> Entry(m, profiles[MemberKey(s, m)]) in es)
    decreases |ms|
  {
    if ms == [] then []
    else
      var rest := Eligible(ms[1..], profiles, s, cutoff);
      var k := MemberKey(s, ms[0]);
      assert forall m :: m in ms ==> m == ms[0] || m in ms[1..];
      if k in profiles && profiles[k].lastRewardDate <= cutoff then [Entry(ms[0], profiles[k])] + rest else rest
  }

  /** The queryset sliced with `[:n]`. */
  function Candidates(ms: seq<MemberId>, profiles: map<MemberKey, Profile>, s: ServiceId, cutoff: int, n: int): seq<Entry>
  {
    var sorted := SortByKey(Eligible(ms, profiles, s, cutoff));
    if n < 0 then [] else if n < |sorted| then sorted[..n] else sorted
  }

  /** Cutting a sorted sequence: the front stays sorted, is part of the
      whole, and every key of the front is at most every key of the rest. */
  lemma SortedSplit(sorted: seq<Entry>, k: nat)
    requires SortedByKey(sorted) && k <= |sorted|
    ensures SortedByKey(sorted[..k])
    ensures multiset(sorted[..k]) <= multiset(sorted)
    ensures forall e, f :: e in sorted[..k] && f in multiset(sorted) - multiset(sorted[..k]) ==> KeyLe(e.profile, f.profile)
  {
    PrefixRemainder(sorted, k);
    forall e, f | e in sorted[..k] && f in sorted[k..]
      ensures KeyLe(e.profile, f.profile)
    {
      FrontBelowBack(sorted, k, e, f);
    }
  }

  /** Taking a prefix away from a sequence's elements leaves the suffix's. */
  lemma PrefixRemainder<T>(xs: seq<T>, k: nat)
    requires k <= |xs|
    ensures multiset(xs[..k]) <= multiset(xs)
    ensures multiset(xs) - multiset(xs[..k]) == multiset(xs[k..])
  {
    var front, back := xs[..k], xs[k..];
    assert xs == front + back;
    assert multiset(xs) == multiset(front) + multiset(back);
  }

  lemma FrontBelowBack(sorted: seq<Entry>, k: nat, e: Entry, f: Entry)
    requires SortedByKey(sorted) && k <= |sorted|
    requires e in sorted[..k] && f in sorted[k..]
    ensures KeyLe(e.profile, f.profile)
  {
    var i :| 0 <= i < k && sorted[..k][i] == e;
    var j :| 0 <= j < |sorted| - k && sorted[k..][j] == f;
    assert sorted[i] == e && sorted[k + j] == f;
  }

  /** At most n candidates are taken, as many as there are eligible profiles
      up to n; each is eligible; they come lowest key first; and every
      eligible profile left out has a key at least that of every one taken. */
  lemma CandidatesAreLowestKeys(ms: seq<MemberId>, profiles: map<MemberKey, Profile>, s: ServiceId, cutoff: int, n: int)
    requires n >= 0
    ensures var r := Candidates(ms, profiles, s, cutoff, n);
      var el := Eligible(ms, profiles, s, cutoff);
      && |r| == (if n < |el| then n else |el|)
      && SortedByKey(r)
      && multiset(r) <= multiset(el)
      && (forall e, f :: e in r && f in multiset(el) - multiset(r) ==> KeyLe(e.profile, f.profile))
  {
    SortedPrefixLowest(Eligible(ms, profiles, s, cutoff), n);
  }

  /** The first n entries of the sorted list are the n lowest keys. */
  lemma SortedPrefixLowest(el: seq<Entry>, n: int)
    requires n >= 0
    ensures var sorted := SortByKey(el);
      var r := if n < |sorted| then sorted[..n] else sorted;
      && |r| == (if n < |el| then n else |el|)
      && SortedByKey(r)
      && multiset(r) <= multiset(el)
      && (forall e, f :: e in r && f in multiset(el) - multiset(r) ==> KeyLe(e.profile, f.profile))
  {
    var sorted := SortByKey(el);
    var r := if n < |sorted| then sorted[..n] else sorted;
    assert r == sorted[..|r|];
    SortByKeySorted(el);
    SortedSplit(sorted, |r|);
  }

  /** A member whose last reward is recent is never a candidate. */
  lemma RecentlyRewardedIsNotCandidate(ms: seq<MemberId>, profiles: map<MemberKey, Profile>, s: ServiceId,
                                       cutoff: int, n: int, e: Entry)
    requires e.profile.lastRewardDate > cutoff
    ensures e !in Candidates(ms, profiles, s, cutoff, n)
  {
    var el := Eligible(ms, profiles, s, cutoff);
    var sorted := SortByKey(el);
    var r := Candidates(ms, profiles, s, cutoff, n);
    assert forall x :: x in r ==> x in sorted;
    assert forall x :: x in sorted ==> x in multiset(el);
  }
}
