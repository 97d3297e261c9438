/**
 * Turning tracking of one subscription on or off (`POST
 * /api/subscriptions/track`): a free user may not enable tracking once ten
 * of their other subscriptions are tracked; otherwise only the target's
 * `isTracked` field is written.
 */
module Track {
  import opened Wrappers
  import opened Store
  import opened Tier

  /** The answer: 400, 404, 403 with `requiresUpgrade`, or the updated record. */
  datatype TrackResult = MissingId | NotFound | LimitReached(requiresUpgrade: bool) | Updated(subscription: Record)

  function HttpStatus(r: TrackResult): nat {
    match r
    case MissingId => 400
    case NotFound => 404
    case LimitReached(_) => 403
    case Updated(_) => 200
  }

  /** `user.tier || 'free'`. */
  function EffectiveTier(tier: Option<string>): (t: string)
    ensures t != ""
    ensures tier.Some? && tier.value != "" ==> t == tier.value
  {
    if tier.Some? && tier.value != "" then tier.value else "free"
  }

  /**
   * The filter of the route's count: `isTracked !== false` (so an absent
   * field counts), confirmed, and neither cancelled nor dismissed.
   */
  predicate CountsAsTracked(r: Record) {
    r.isTracked != Some(false) && r.confirmed && r.status != "cancelled" && r.status != "dismissed"
  }

  /** The user's records that count as tracked, leaving out the one with id `skip`. */
  function CountTracked(recs: seq<Record>, userId: string, skip: Option<nat>): (n: nat)
    ensures n <= |recs|
    decreases |recs|
  {
    if recs == [] then 0
    else
      var last := recs[|recs| - 1];
      CountTracked(recs[..|recs| - 1], userId, skip)
      + (if last.userId == userId && CountsAsTracked(last) && (skip.None? || last.id != skip.value) then 1 else 0)
  }

  /** `user.subscriptions.find(s => s.id === id)`: the position of the user's record with that id. */
  function FindOwn(recs: seq<Record>, userId: string, id: nat, from: nat): (r: Option<nat>)
    requires from <= |recs|
    ensures r.Some? ==> from <= r.value < |recs| && recs[r.value].userId == userId && recs[r.value].id == id
    ensures r.None? ==> forall k :: from <= k < |recs| ==> !(recs[k].userId == userId && recs[k].id == id)
    decreases |recs| - from
  {
    if from == |recs| then None
    else if recs[from].userId == userId && recs[from].id == id then Some(from)
    else FindOwn(recs, userId, id, from + 1)
  }

  /**
   * `POST` once the user is known. `subscriptionId` is `None` when the
   * request's id is missing or empty; `isTracked` is `None` when the
   * request leaves it out, and then the update writes nothing.
   */
  function Toggle(recs: seq<Record>, userId: string, tier: Option<string>, subscriptionId: Option<nat>,
                  isTracked: Option<bool>): (r: (TrackResult, seq<Record>))
  {
    if subscriptionId.None? then (MissingId, recs)
    else
      var id := subscriptionId.value;
      match FindOwn(recs, userId, id, 0)
      case None => (NotFound, recs)
      case Some(k) =>
        if isTracked == Some(true) && EffectiveTier(tier) == "free"
           && CountTracked(recs, userId, Some(id)) >= FreeTierLimit
        then (LimitReached(true), recs)
        else if isTracked.None? then (Updated(recs[k]), recs)
        else
          var after := WithTracked(recs, k, isTracked.value);
          (Updated(after[k]), after)
  }

  /** The handler: the id check, the ownership check, the limit check and the one write. */
  method TrackPost(store: SubscriptionStore, userId: string, tier: Option<string>, subscriptionId: Option<nat>,
                   isTracked: Option<bool>)
    returns (r: TrackResult)
    requires store.Valid()
    modifies store
    ensures store.Valid()
    ensures (r, store.records) == Toggle(old(store.records), userId, tier, subscriptionId, isTracked)
  {
    if subscriptionId.None? {
      return MissingId;
    }
    var id := subscriptionId.value;
    var found := FindOwn(store.records, userId, id, 0);
    if found.None? {
      return NotFound;
    }
    var k := found.value;
    var userTier := EffectiveTier(tier);
    if isTracked == Some(true) && userTier == "free" {
      var currentTrackedCount := CountTracked(store.records, userId, Some(id));
      if currentTrackedCount >= FreeTierLimit {
        return LimitReached(true);
      }
    }
    if isTracked.Some? {
      store.SetTracked(k, isTracked.value);
    }
    r := Updated(store.records[k]);
  }

  // ---------------------------------------------------------------- properties

  /**
   * The request is refused with 403 exactly when a free user (or one with
   * no plan) enables tracking of one of their subscriptions while ten or
   * more of their other subscriptions count as tracked; disabling, and any
   * other plan, are never refused.
   */
  lemma LimitReachedExactly(recs: seq<Record>, userId: string, tier: Option<string>, subscriptionId: Option<nat>,
                            isTracked: Option<bool>)
    ensures var r := Toggle(recs, userId, tier, subscriptionId, isTracked).0;
      r.LimitReached? <==>
        && subscriptionId.Some?
        && (exists k :: 0 <= k < |recs| && recs[k].userId == userId && recs[k].id == subscriptionId.value)
        && isTracked == Some(true)
        && (tier.None? || tier.value == "" || tier.value == "free")
        && CountTracked(recs, userId, subscriptionId) >= FreeTierLimit
    ensures var r := Toggle(recs, userId, tier, subscriptionId, isTracked).0;
      && (r.MissingId? <==> subscriptionId.None?)
      && (r.NotFound? <==> (subscriptionId.Some?
            && forall k :: 0 <= k < |recs| ==> !(recs[k].userId == userId && recs[k].id == subscriptionId.value)))
      && (r.LimitReached? ==> r.requiresUpgrade && HttpStatus(r) == 403)
  {
    if subscriptionId.Some? {
      var f := FindOwn(recs, userId, subscriptionId.value, 0);
      if f.None? {
        assert !exists k :: 0 <= k < |recs| && recs[k].userId == userId && recs[k].id == subscriptionId.value;
      }
    }
  }

  /** A successful request writes the target's `isTracked` field and nothing else. */
  lemma OnlyTargetWritten(recs: seq<Record>, userId: string, tier: Option<string>, subscriptionId: Option<nat>,
                          isTracked: Option<bool>)
    requires Toggle(recs, userId, tier, subscriptionId, isTracked).0.Updated?
    ensures var (r, after) := Toggle(recs, userId, tier, subscriptionId, isTracked);
      exists k :: 0 <= k < |recs| && recs[k].userId == userId && recs[k].id == subscriptionId.value
        && |after| == |recs|
        && (forall i :: 0 <= i < |recs| && i != k ==> after[i] == recs[i])
        && after[k] == recs[k].(isTracked := if isTracked.Some? then isTracked else recs[k].isTracked)
        && r.subscription == after[k]
  {
    var k := FindOwn(recs, userId, subscriptionId.value, 0).value;
    assert recs[k].(isTracked := recs[k].isTracked) == recs[k];
  }

  /** Two stores that differ only in records with id `skip` have the same count without `skip`. */
  lemma {:induction false} CountIgnoresSkipped(a: seq<Record>, b: seq<Record>, userId: string, skip: nat)
    requires |a| == |b|
    requires forall i :: 0 <= i < |a| ==> a[i] == b[i] || (a[i].id == skip && b[i].id == skip)
    ensures CountTracked(a, userId, Some(skip)) == CountTracked(b, userId, Some(skip))
    decreases |a|
  {
    if a != [] {
      CountIgnoresSkipped(a[..|a| - 1], b[..|b| - 1], userId, skip);
    }
  }

  /** Where no record has id `skip`, leaving it out changes nothing. */
  lemma {:induction false} CountWithoutAbsent(recs: seq<Record>, userId: string, skip: nat)
    requires forall i :: 0 <= i < |recs| ==> recs[i].id != skip
    ensures CountTracked(recs, userId, Some(skip)) == CountTracked(recs, userId, None)
    decreases |recs|
  {
    if recs != [] {
      CountWithoutAbsent(recs[..|recs| - 1], userId, skip);
    }
  }

  /** With ids as positions, the full count is the count without record `k` plus record `k` itself. */
  lemma {:induction false} CountSplit(recs: seq<Record>, userId: string, k: nat)
    requires IdsArePositions(recs) && k < |recs|
    ensures CountTracked(recs, userId, None) == CountTracked(recs, userId, Some(k))
      + (if recs[k].userId == userId && CountsAsTracked(recs[k]) then 1 else 0)
    decreases |recs|
  {
    var n := |recs| - 1;
    var init := recs[..n];
    assert IdsArePositions(init);
    if k == n {
      CountWithoutAbsent(init, userId, k);
    } else {
      CountSplit(init, userId, k);
    }
  }

  /**
   * After a free user enables tracking, at most ten of their subscriptions
   * count as tracked, the target included, however many did before.
   */
  lemma EnableKeepsFreeLimit(recs: seq<Record>, userId: string, tier: Option<string>, id: nat)
    requires IdsArePositions(recs)
    requires EffectiveTier(tier) == "free"
    requires Toggle(recs, userId, tier, Some(id), Some(true)).0.Updated?
    ensures CountTracked(Toggle(recs, userId, tier, Some(id), Some(true)).1, userId, None) <= FreeTierLimit
  {
    var k := FindOwn(recs, userId, id, 0).value;
    var after := WithTracked(recs, k, true);
    assert recs[k].id == k == id;
    assert IdsArePositions(after);
    CountSplit(after, userId, k);
    CountIgnoresSkipped(after, recs, userId, k);
  }
}
