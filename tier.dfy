/**
 * The two plans and what they allow: how many subscriptions a user may
 * track, how the tracked ones are counted, and the notice shown when a free
 * user has confirmed more than the free plan tracks.
 */
module Tier {
  import opened Wrappers
  import opened Text
  import opened Store

  const FreeTierLimit: nat := 10

  /** A tracking allowance: a finite number, or `Infinity`. */
  datatype Max = AtMost(n: nat) | Unbounded

  datatype TierLimits = TierLimits(
    maxTrackedSubscriptions: Max,
    hasRenewalAlerts: bool,
    hasPriceChangeDetection: bool,
    hasExportData: bool,
    hasPrioritySupport: bool)

  const FreeLimits: TierLimits := TierLimits(AtMost(FreeTierLimit), false, false, false, false)
  const ProLimits: TierLimits := TierLimits(Unbounded, true, true, true, true)

  /** The limits of each plan, by name. */
  const TierTable: map<string, TierLimits> := map["free" := FreeLimits, "pro" := ProLimits]

  /** `getTierLimits`: the plan's limits, the free plan's for a name that is no plan. */
  function GetTierLimits(tier: string): (l: TierLimits)
    ensures tier != "pro" ==> l == FreeLimits
    ensures tier == "pro" ==> l.maxTrackedSubscriptions.Unbounded? && l.hasExportData
  {
    if tier in TierTable then TierTable[tier] else FreeLimits
  }

  /** `count < max`, where every count is below `Infinity`. */
  predicate Below(count: int, m: Max) {
    match m
    case AtMost(n) => count < n
    case Unbounded => true
  }

  /** `canTrackMoreSubscriptions`: the pro plan always may, any other plan below ten. */
  function CanTrackMoreSubscriptions(tier: string, currentTrackedCount: int): (b: bool)
    ensures b <==> tier == "pro" || currentTrackedCount < FreeTierLimit
  {
    Below(currentTrackedCount, GetTierLimits(tier).maxTrackedSubscriptions)
  }

  /** Whoever may track at a count may track at every lower count. */
  lemma CanTrackMonotone(tier: string, n: int, m: int)
    requires m <= n && CanTrackMoreSubscriptions(tier, n)
    ensures CanTrackMoreSubscriptions(tier, m)
  {
  }

  /** The filter of `getTrackedSubscriptionCount`: tracked, confirmed, and neither cancelled nor dismissed. */
  predicate IsCounted(s: Record) {
    s.isTracked == Some(true) && s.confirmed && s.status != "cancelled" && s.status != "dismissed"
  }

  /** `getTrackedSubscriptionCount`. */
  function TrackedSubscriptionCount(subs: seq<Record>): (n: nat)
    ensures n <= |subs|
    ensures n == 0 <==> forall k :: 0 <= k < |subs| ==> !IsCounted(subs[k])
    decreases |subs|
  {
    if subs == [] then 0
    else
      var init := subs[..|subs| - 1];
      assert forall k :: 0 <= k < |init| ==> init[k] == subs[k];
      TrackedSubscriptionCount(init) + (if IsCounted(subs[|subs| - 1]) then 1 else 0)
  }

  /** The positions the count counts. */
  function CountedAt(subs: seq<Record>): set<nat> {
    TrueAt(CountedFlags(subs))
  }

  /** For each subscription, whether the count counts it. */
  function CountedFlags(subs: seq<Record>): (fs: seq<bool>)
    ensures |fs| == |subs| && forall k :: 0 <= k < |subs| ==> fs[k] == IsCounted(subs[k])
  {
    seq(|subs|, k requires 0 <= k < |subs| => IsCounted(subs[k]))
  }

  /** The count is the number of positions holding a counted subscription. */
  lemma {:induction false} TrackedCountIsCountedPositions(subs: seq<Record>)
    ensures TrackedSubscriptionCount(subs) == |CountedAt(subs)|
    decreases |subs|
  {
    if subs != [] {
      var n := |subs| - 1;
      TrackedCountIsCountedPositions(subs[..n]);
      var flags := CountedFlags(subs);
      assert flags[..n] == CountedFlags(subs[..n]);
      TrueAtStep(flags);
    }
  }

  /** The closing sentence of the notice: how many confirmed subscriptions are not tracked, "is" for one. */
  function NotTrackedNote(overLimit: nat): (r: string)
    ensures overLimit > 1 ==> r == " " + NatToString(overLimit) + " subscriptions are not being tracked."
  {
    " " + NatToString(overLimit) + " subscription" + (if overLimit > 1 then "s are" else " is") + " not being tracked."
  }

  /** One subscription over the limit is counted in the singular. */
  lemma OneNotTracked()
    ensures NotTrackedNote(1) == " 1" + " subscription is" + " not being tracked."
  {
    assert NatToString(1) == "1";
    assert " subscription" + " is" == " subscription is";
    JoinMiddle(" ", "1", " subscription", " is", " not being tracked.");
  }

  lemma JoinMiddle(a: string, b: string, c: string, d: string, e: string)
    ensures a + b + c + d + e == (a + b) + (c + d) + e
  {
  }

  /** `getUpgradeMessage`: empty up to ten confirmed subscriptions, else a notice ending in how many are over. */
  function UpgradeMessage(currentCount: int): (m: string)
    ensures m == "" <==> currentCount <= FreeTierLimit
    ensures currentCount > FreeTierLimit ==> EndsWith(m, NotTrackedNote(currentCount - FreeTierLimit))
  {
    if currentCount <= FreeTierLimit then ""
    else
      var head := "You have " + NatToString(currentCount) + " confirmed subscriptions. Free tier tracks up to "
        + NatToString(FreeTierLimit) + ".";
      var tail := NotTrackedNote(currentCount - FreeTierLimit);
      assert (head + tail)[|head + tail| - |tail|..] == tail;
      head + tail
  }
}
