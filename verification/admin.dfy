/** The edit guard of `CROperatorProfileAdmin.save_model`
    (rewarding/admin.py): operator profiles are never created from the admin,
    and only a superuser may change a profile's expiry, monthly cost or
    active state. The profile is looked up by its service, which has one;
    the source looks it up by primary key, and an edit that moves a profile
    to another service is not modelled. */
module Admin {
  import opened Models

  datatype AdminReply =
    | CreationRefused
    | EditRefused
    | ProfileSaved
    | NoSuchProfile

  /** The fields only a superuser may change. */
  predicate GuardedChange(before: OperatorProfile, after: OperatorProfile)
  {
    before.expiry != after.expiry || before.monthlyCost != after.monthlyCost || before.isActive != after.isActive
  }

  /** `save_model(request, obj, form, change)` on the stored profiles: the
      profiles afterwards and the outcome. */
  function SaveModel(ops: map<ServiceId, OperatorProfile>, obj: OperatorProfile, change: bool, isSuperuser: bool)
    : (map<ServiceId, OperatorProfile>, AdminReply)
  {
    if !change then (ops, CreationRefused)
    else if obj.service !in ops then (ops, NoSuchProfile)
    else if GuardedChange(ops[obj.service], obj) && !isSuperuser then (ops, EditRefused)
    else (ops[obj.service := obj], ProfileSaved)
  }

  /** Creating a profile from the admin is always refused and stores
      nothing. */
  lemma CreationAlwaysRefused(ops: map<ServiceId, OperatorProfile>, obj: OperatorProfile, isSuperuser: bool)
    ensures SaveModel(ops, obj, false, isSuperuser) == (ops, CreationRefused)
  {
  }

  /** An edit by another user that touches expiry, monthly cost or state is
      refused and stores nothing. */
  lemma GuardedEditNeedsSuperuser(ops: map<ServiceId, OperatorProfile>, obj: OperatorProfile)
    requires obj.service in ops && GuardedChange(ops[obj.service], obj)
    ensures SaveModel(ops, obj, true, false) == (ops, EditRefused)
  {
  }

  /** A superuser's edit of an existing profile is stored whatever it
      changes. */
  lemma SuperuserEditSaved(ops: map<ServiceId, OperatorProfile>, obj: OperatorProfile)
    requires obj.service in ops
    ensures SaveModel(ops, obj, true, true) == (ops[obj.service := obj], ProfileSaved)
  {
  }

  /** An edit that leaves the three guarded fields alone is stored for any
      user. */
  lemma UnguardedEditSaved(ops: map<ServiceId, OperatorProfile>, obj: OperatorProfile, isSuperuser: bool)
    requires obj.service in ops && !GuardedChange(ops[obj.service], obj)
    ensures SaveModel(ops, obj, true, isSuperuser) == (ops[obj.service := obj], ProfileSaved)
  {
  }

  /** Whatever a user who is not a superuser submits, in any number of
      saves, every stored profile keeps its expiry, monthly cost and state,
      and no profile appears. */
  lemma {:induction false} OthersNeverChangeGuardedFields(ops: map<ServiceId, OperatorProfile>, edits: seq<(OperatorProfile, bool)>)
    ensures var ops' := SaveAll(ops, edits, false);
      && ops'.Keys == ops.Keys
      && forall k :: k in ops ==> !GuardedChange(ops[k], ops'[k])
    decreases |edits|
  {
    if edits != [] {
      OthersNeverChangeGuardedFields(ops, edits[..|edits| - 1]);
    }
  }

  /** A sequence of admin saves by the same user, each an (object, change)
      pair. */
  function SaveAll(ops: map<ServiceId, OperatorProfile>, edits: seq<(OperatorProfile, bool)>, isSuperuser: bool)
    : map<ServiceId, OperatorProfile>
    decreases |edits|
  {
    if edits == [] then ops
    else
      var last := edits[|edits| - 1];
      SaveModel(SaveAll(ops, edits[..|edits| - 1], isSuperuser), last.0, last.1, isSuperuser).0
  }
}
