/**
 * The subscription records the scan routes read and write, held in insertion
 * order, with the three lookups the routes issue and record creation.
 */
module Store {
  import opened Wrappers
  import opened Text
  import opened Parser

  /** How far from the day of the scan a defaulted next billing date lies. */
  datatype Offset = OneMonth | OneYear | SevenDays

  /** A stored next billing date: a parsed date, a default from the scan day, or none. */
  datatype NextDate = Given(date: string) | FromToday(offset: Offset) | NoDate

  /** The stored date of a parse, without a default: `nextBillingDate ? new Date(nextBillingDate) : null`. */
  function NextOf(p: ParsedSubscription): (d: NextDate)
    ensures d.NoDate? <==> (p.nextBillingDate.None? || p.nextBillingDate.value == "")
    ensures d.Given? ==> d.date == p.nextBillingDate.value
  {
    if p.nextBillingDate.Some? && p.nextBillingDate.value != "" then Given(p.nextBillingDate.value) else NoDate
  }

  /** A subscription record; `id` is its position in the store. */
  datatype Record = Record(
    id: nat,
    userId: string,
    serviceName: string,
    serviceSlug: string,
    description: Option<string>,
    amount: real,
    currency: string,
    billingCycle: string,
    nextBillingDate: NextDate,
    cancellationUrl: Option<string>,
    confidence: real,
    confirmed: bool,
    status: string,
    isTracked: Option<bool>)

  /** The fields of a record the routes send back to the client. */
  datatype SubscriptionView = SubscriptionView(
    id: nat, serviceName: string, amount: real, currency: string, billingCycle: string, confidence: real)

  function ViewOf(r: Record): SubscriptionView {
    SubscriptionView(r.id, r.serviceName, r.amount, r.currency, r.billingCycle, r.confidence)
  }

  /** The dedup key: the name lower-cased, each whitespace run made one `-`. */
  function Slug(name: string): (r: string)
    ensures forall k :: 0 <= k < |r| ==> !IsSpace(r[k])
  {
    ReplaceSpaceRunsNoSpace(Lower(name), "-");
    ReplaceSpaceRuns(Lower(name), "-")
  }

  /** "trial" occurs, in any case, in the description or the service name. */
  predicate IsTrial(p: ParsedSubscription) {
    (p.description.Some? && Includes(Lower(p.description.value), "trial"))
    || Includes(Lower(p.serviceName), "trial")
  }

  /** The `where` clauses of the routes' `findFirst` calls. */
  datatype Query =
    | BySlug(userId: string, slug: string)
    | BySlugOrNameAmount(userId: string, slug: string, name: string, amount: real)
    | ActiveBySlug(userId: string, slug: string)

  predicate Matches(r: Record, q: Query) {
    r.userId == q.userId &&
    match q
    case BySlug(_, slug) => r.serviceSlug == slug
    case BySlugOrNameAmount(_, slug, name, amount) =>
      r.serviceSlug == slug || (Includes(Lower(r.serviceName), Lower(name)) && r.amount == amount)
    case ActiveBySlug(_, slug) => r.serviceSlug == slug && r.status == "active"
  }

  /** The first record, in insertion order, that the query matches. */
  function FirstWhere(recs: seq<Record>, q: Query): (r: Option<Record>)
    ensures r.Some? ==> r.value in recs && Matches(r.value, q)
    ensures r.None? <==> forall k :: 0 <= k < |recs| ==> !Matches(recs[k], q)
    ensures r.Some? ==> exists k :: (0 <= k < |recs| && recs[k] == r.value
      && forall m :: 0 <= m < k ==> !Matches(recs[m], q))
  {
    if recs == [] then None
    else if Matches(recs[0], q) then Some(recs[0])
    else
      var r := FirstWhere(recs[1..], q);
      assert forall k :: 1 <= k < |recs| ==> recs[k] == recs[1..][k - 1];
      if r.Some? then
        var k :| (0 <= k < |recs[1..]| && recs[1..][k] == r.value
          && forall m :: 0 <= m < k ==> !Matches(recs[1..][m], q));
        assert recs[k + 1] == r.value;
        r
      else r
  }

  /** Every record's id is its position. */
  predicate IdsArePositions(recs: seq<Record>) {
    forall k :: 0 <= k < |recs| ==> recs[k].id == k
  }

  /** A new record built from a parse, unconfirmed, with the next id. */
  function NewRecord(recs: seq<Record>, userId: string, p: ParsedSubscription, next: NextDate, status: string)
    : (r: Record)
    ensures r.id == |recs| && !r.confirmed && r.userId == userId
    ensures r.serviceName == p.serviceName && r.serviceSlug == Slug(p.serviceName) && r.amount == p.amount
  {
    Record(|recs|, userId, p.serviceName, Slug(p.serviceName), p.description, p.amount, p.currency,
           p.billingCycle, next, p.cancellationUrl, p.confidence, false, status, None)
  }

  /** The record store: `status` is the schema's default status of a new record. */
  class SubscriptionStore {
    var records: seq<Record>
    const defaultStatus: string

    predicate Valid()
      reads this
    {
      IdsArePositions(records)
    }

    constructor(initial: seq<Record>, status: string)
      requires IdsArePositions(initial)
      ensures records == initial && defaultStatus == status && Valid()
    {
      records := initial;
      defaultStatus := status;
    }

    /** `findFirst`. */
    method FindFirst(q: Query) returns (r: Option<Record>)
      ensures r == FirstWhere(records, q)
    {
      var k := 0;
      while k < |records|
        invariant 0 <= k <= |records|
        invariant forall m :: 0 <= m < k ==> !Matches(records[m], q)
      {
        if Matches(records[k], q) {
          FirstAt(records, q, k);
          return Some(records[k]);
        }
        k := k + 1;
      }
      return None;
    }

    /** `update` of the `isTracked` field of the record at `k`. */
    method SetTracked(k: nat, v: bool)
      requires Valid() && k < |records|
      modifies this
      ensures records == WithTracked(old(records), k, v) && Valid()
    {
      records := records[k := records[k].(isTracked := Some(v))];
    }

    /** `create`, with a new record built from a parse. */
    method Create(userId: string, p: ParsedSubscription, next: NextDate) returns (r: Record)
      requires Valid()
      modifies this
      ensures r == NewRecord(old(records), userId, p, next, defaultStatus)
      ensures records == old(records) + [r] && Valid()
    {
      r := NewRecord(records, userId, p, next, defaultStatus);
      records := records + [r];
    }
  }

  /** The record at `k` with its `isTracked` field set to `v`, and nothing else changed. */
  function WithTracked(recs: seq<Record>, k: nat, v: bool): (r: seq<Record>)
    requires k < |recs|
    ensures |r| == |recs| && r[k].isTracked == Some(v)
    ensures r[k] == recs[k].(isTracked := Some(v))
    ensures forall i :: 0 <= i < |recs| && i != k ==> r[i] == recs[i]
  {
    recs[k := recs[k].(isTracked := Some(v))]
  }

  /** The first match found by scanning is the one `FirstWhere` gives. */
  lemma {:induction false} FirstAt(recs: seq<Record>, q: Query, k: nat)
    requires k < |recs| && Matches(recs[k], q)
    requires forall m :: 0 <= m < k ==> !Matches(recs[m], q)
    ensures FirstWhere(recs, q) == Some(recs[k])
  {
    if k > 0 {
      FirstAt(recs[1..], q, k - 1);
    }
  }

  /** No two records of the user share a slug. */
  predicate SlugsDistinct(recs: seq<Record>, userId: string) {
    forall i, j :: 0 <= i < j < |recs| && recs[i].userId == userId && recs[j].userId == userId ==>
      recs[i].serviceSlug != recs[j].serviceSlug
  }

  /** Appending a record whose slug no record of the user has keeps the slugs distinct. */
  lemma AppendFreshSlug(recs: seq<Record>, userId: string, r: Record)
    requires SlugsDistinct(recs, userId)
    requires forall k :: 0 <= k < |recs| && recs[k].userId == userId ==> recs[k].serviceSlug != r.serviceSlug
    ensures SlugsDistinct(recs + [r], userId)
  {
  }

  /** A slug query that finds nothing means no record of the user has that slug. */
  lemma NoneBySlug(recs: seq<Record>, q: Query)
    requires q.BySlug? || q.BySlugOrNameAmount?
    requires FirstWhere(recs, q).None?
    ensures forall k :: 0 <= k < |recs| && recs[k].userId == q.userId ==> recs[k].serviceSlug != q.slug
  {
  }

  /** The slug ignores case. */
  lemma SlugIgnoresCase(name: string)
    ensures Slug(Upper(name)) == Slug(name)
  {
    assert Lower(Upper(name)) == Lower(name);
  }
}
