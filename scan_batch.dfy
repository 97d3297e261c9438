/**
 * The two-step scan: `GET` fetches and filters the mailbox and hands the
 * client the candidate list; the client then posts slices of that list
 * back, and `POST` reads at most ten of them, in sub-batches of five, and
 * stores the new subscriptions it finds.
 */
module ScanBatch {
  import opened Wrappers
  import opened Text
  import opened Filter
  import opened Parser
  import opened Store
  import Amounts

  const BodyLimit: nat := 3000
  const MaxEmailsPerRequest: nat := 10
  const BatchSize: nat := 5

  // ---------------------------------------------------------------- GET

  /** A candidate as the client holds it between the two steps. */
  datatype StoredEmail = StoredEmail(
    id: string,
    subject: string,
    from: string,
    date: string,
    body: string,
    extractedServiceName: Option<string>,
    matchedKeywords: seq<string>)

  /** A candidate with its body cut to 3000 characters. */
  function Stored(f: FilteredEmail): (s: StoredEmail)
    ensures s.id == f.id && s.subject == f.subject && s.from == f.from && s.date == f.date
    ensures s.body <= f.body && |s.body| <= BodyLimit
    ensures |f.body| <= BodyLimit ==> s.body == f.body
    ensures s.extractedServiceName == f.extractedServiceName && s.matchedKeywords == f.matchedKeywords
  {
    StoredEmail(f.id, f.subject, f.from, f.date, Take(f.body, BodyLimit), f.extractedServiceName, f.matchedKeywords)
  }

  /** The `map` of the candidate list. */
  function StoredList(fs: seq<FilteredEmail>): (r: seq<StoredEmail>)
    ensures |r| == |fs|
    ensures forall k :: 0 <= k < |fs| ==> r[k] == Stored(fs[k])
  {
    if fs == [] then [] else StoredList(fs[..|fs| - 1]) + [Stored(fs[|fs| - 1])]
  }

  const TokenMissingMessage := "Gmail access token not found. Please reconnect your Google account."
  const FetchFailedMessage := "Failed to fetch emails"

  /** The answer of `GET`. */
  datatype InitResult =
    | Listing(totalEmails: nat, filteredCount: nat, emails: seq<StoredEmail>, userId: string)
    | InitFailed(httpStatus: nat, error: string)

  /**
   * `GET` once the user is known. `token` is the stored access token and
   * `fetched` what the mail adapter returned, `None` when it threw.
   */
  function Init(userId: string, token: Option<string>, fetched: Option<seq<Email>>, rules: Rules)
    : InitResult
  {
    if token.None? || token.value == "" then
      InitFailed(401, TokenMissingMessage)
    else if fetched.None? then InitFailed(500, FetchFailedMessage)
    else
      var list := StoredList(SortDesc(Collect(fetched.value, rules)));
      Listing(|fetched.value|, |list|, list, userId)
  }

  /** The listing is the filter's output, in its order, each entry a cut-down copy of one candidate. */
  lemma InitListsCandidates(userId: string, token: Option<string>, fetched: Option<seq<Email>>,
                            rules: Rules)
    requires Init(userId, token, fetched, rules).Listing?
    ensures var r := Init(userId, token, fetched, rules);
      var fs := SortDesc(Collect(fetched.value, rules));
      && token.Some? && token.value != "" && fetched.Some?
      && r.totalEmails == |fetched.value| && r.filteredCount == |r.emails| == |fs|
      && forall k :: 0 <= k < |fs| ==>
           (r.emails[k].id == fs[k].id && r.emails[k].body <= fs[k].body && |r.emails[k].body| <= BodyLimit)
  {
  }

  /** `GET`: the token check, the filter, and the projection. */
  method InitScan(userId: string, token: Option<string>, fetched: Option<seq<Email>>, rules: Rules)
    returns (r: InitResult)
    ensures r == Init(userId, token, fetched, rules)
  {
    if token.None? || token.value == "" {
      return InitFailed(401, TokenMissingMessage);
    }
    if fetched.None? {
      return InitFailed(500, FetchFailedMessage);
    }
    var filtered := FilterSubscriptionEmails(fetched.value, rules);
    var list := StoredList(filtered);
    r := Listing(|fetched.value|, |list|, list, userId);
  }

  // ---------------------------------------------------------------- POST: reading

  /** What the batch reader is sent for one email. */
  datatype AiInput = AiInput(id: string, subject: string, from: string, body: string)

  /** One entry of the batch reader's answer. */
  datatype AiItem = AiItem(id: string, parsed: Option<ParsedSubscription>)

  /** The batch language-model reader: one answer list per sub-batch. */
  type BatchReader = seq<AiInput> -> seq<AiItem>

  /** The regex reading of a candidate. */
  type Reader = StoredEmail -> Option<ParsedSubscription>

  /** `parseEmailFallback` with the candidate's extracted name as the hint. */
  function FallbackReading(): Reader {
    (e: StoredEmail) => ParseEmailFallback(e.subject, e.from, e.body, e.extractedServiceName)
  }

  /**
   * Against the route's own `parseEmailFallback`, which can report a `NaN`
   * amount: the regex reading finds a subscription exactly when that call
   * returns one with a numeric amount, and then the same one; a `NaN`
   * amount, which the route would store, gives no reading here.
   */
  lemma FallbackReadingAsWritten(e: StoredEmail)
    ensures var w := ParseEmailFallbackAsWritten(e.subject, e.from, e.body, e.extractedServiceName);
      var r := FallbackReading()(e);
      && (r.Some? <==> w.Some? && w.value.amount.Num?)
      && (r.Some? ==> w.value == RawFallback(r.value.serviceName, Amounts.Num(r.value.amount), r.value.currency, r.value.billingCycle))
  {
    FallbackAgreesOnNumbers(e.subject, e.from, e.body, e.extractedServiceName);
  }

  function Inputs(batch: seq<StoredEmail>): (r: seq<AiInput>)
    ensures |r| == |batch|
    ensures forall j :: 0 <= j < |batch| ==> r[j].id == batch[j].id
  {
    if batch == [] then []
    else Inputs(batch[..|batch| - 1]) + [var e := batch[|batch| - 1]; AiInput(e.id, e.subject, e.from, e.body)]
  }

  /** `aiResults[j]?.parsed`: the entry at position `j`, if there is one. */
  function ParsedAt(ai: seq<AiItem>, j: nat): Option<ParsedSubscription> {
    if j < |ai| then ai[j].parsed else None
  }

  /** The start of the sub-batch holding position `k`. */
  function BatchStart(k: nat): (lo: nat)
    ensures lo <= k < lo + BatchSize && lo % BatchSize == 0
  {
    k / BatchSize * BatchSize
  }

  /** The end of the sub-batch that starts at `lo`. */
  function BatchEnd(lo: nat, n: nat): (hi: nat)
    ensures hi <= lo + BatchSize && (lo < n ==> lo < hi)
    ensures hi == if lo + BatchSize < n then lo + BatchSize else n
  {
    if lo + BatchSize < n then lo + BatchSize else n
  }

  /**
   * The reading of the `k`-th email: the batch reader's answer at the
   * email's position within its sub-batch, else the regex reading.
   */
  function ReadingAt(todo: seq<StoredEmail>, aiBatch: BatchReader, fallback: Reader, k: nat)
    : Option<ParsedSubscription>
    requires k < |todo|
  {
    var lo := BatchStart(k);
    var batch := todo[lo..BatchEnd(lo, |todo|)];
    match ParsedAt(aiBatch(Inputs(batch)), k - lo)
    case Some(p) => Some(p)
    case None => fallback(todo[k])
  }

  /**
   * The answers are matched by position: the entry at the email's position
   * is used even when it names another email's id, and the regex reading is
   * used exactly when that entry is missing or empty.
   */
  lemma ReadingByPosition(todo: seq<StoredEmail>, aiBatch: BatchReader, fallback: Reader, k: nat)
    requires k < |todo|
    ensures var lo := k / BatchSize * BatchSize;
      var hi := if lo + BatchSize < |todo| then lo + BatchSize else |todo|;
      var ai := aiBatch(Inputs(todo[lo..hi]));
      && lo <= k < hi
      && (k - lo < |ai| && ai[k - lo].parsed.Some? ==> ReadingAt(todo, aiBatch, fallback, k) == ai[k - lo].parsed)
      && (!(k - lo < |ai| && ai[k - lo].parsed.Some?) ==>
            ReadingAt(todo, aiBatch, fallback, k) == fallback(todo[k]))
  {
  }

  // ---------------------------------------------------------------- POST: storing

  /** The duplicate query: same slug, or a name containing this one (any case) with the same amount. */
  function DuplicateQuery(userId: string, p: ParsedSubscription): Query {
    BySlugOrNameAmount(userId, Slug(p.serviceName), p.serviceName, p.amount)
  }

  /** What one email leads to: the record created, if any, the new store, and whether the store threw. */
  datatype Step = Step(created: Option<Record>, recs: seq<Record>, threw: bool)

  /**
   * One email with reading `p`; `fails` says the store throws when it is
   * asked about this email.
   */
  function Handle(recs: seq<Record>, userId: string, p: Option<ParsedSubscription>, status: string, fails: bool)
    : (r: Step)
    ensures r.created.None? ==> r.recs == recs
    ensures r.created.Some? ==> r.recs == recs + [r.created.value] && !r.threw
  {
    if p.None? then Step(None, recs, false)
    else if fails then Step(None, recs, true)
    else if FirstWhere(recs, DuplicateQuery(userId, p.value)).Some? then Step(None, recs, false)
    else if p.value.amount == 0.0 && !IsTrial(p.value) then Step(None, recs, false)
    else
      var rec := NewRecord(recs, userId, p.value, NextOf(p.value), status);
      Step(Some(rec), recs + [rec], false)
  }

  /** What a created record is (new, unconfirmed, not a duplicate, not a free non-trial), and that every such reading is created. */
  lemma HandleFacts(recs: seq<Record>, userId: string, p: Option<ParsedSubscription>, status: string, fails: bool)
    ensures var r := Handle(recs, userId, p, status, fails);
      && (r.threw ==> p.Some? && fails)
      && (r.created.Some? ==> (
            && p.Some? && !fails
            && r.created.value == NewRecord(recs, userId, p.value, NextOf(p.value), status)
            && (p.value.amount != 0.0 || IsTrial(p.value))
            && forall k :: 0 <= k < |recs| ==> !Matches(recs[k], DuplicateQuery(userId, p.value))))
      && (p.Some? && !fails && FirstWhere(recs, DuplicateQuery(userId, p.value)).Some? ==> r.created.None?)
      && ((p.Some? && !fails && FirstWhere(recs, DuplicateQuery(userId, p.value)).None?
           && (p.value.amount != 0.0 || IsTrial(p.value))) ==> r.created.Some?)
  {
  }

  /** The readings of a request's emails, by position. */
  type Readings = nat -> Option<ParsedSubscription>

  function ReadingsOf(todo: seq<StoredEmail>, aiBatch: BatchReader, fallback: Reader): Readings {
    (k: nat) => if k < |todo| then ReadingAt(todo, aiBatch, fallback, k) else None
  }

  /** The handling of one email with the user and the default status fixed: store, reading, whether the store throws. */
  type Handler = (seq<Record>, Option<ParsedSubscription>, bool) -> Step

  function HandlerFor(userId: string, status: string): Handler {
    (recs: seq<Record>, p: Option<ParsedSubscription>, fails: bool) => Handle(recs, userId, p, status, fails)
  }

  /** The step appends the one record it creates: the user's, unconfirmed, with the next id. */
  predicate Appends(s: Step, recs: seq<Record>, userId: string) {
    && (s.created.None? ==> s.recs == recs)
    && (s.created.Some? ==> (
          && s.recs == recs + [s.created.value] && !s.threw
          && s.created.value.userId == userId && !s.created.value.confirmed && s.created.value.id == |recs|))
  }

  /** From distinct slugs, the step keeps them distinct and creates nothing an earlier record duplicates. */
  predicate AddsNoDuplicate(s: Step, recs: seq<Record>, userId: string) {
    SlugsDistinct(recs, userId) ==>
      && SlugsDistinct(s.recs, userId)
      && (s.created.Some? ==> |recs| < |s.recs| && NotDuplicated(s.recs, |recs|, userId))
  }

  /** The handler of the route has both properties, whatever the store, the reading and the failure. */
  lemma HandlerFacts(userId: string, status: string)
    ensures forall recs, p, fails :: Appends(HandlerFor(userId, status)(recs, p, fails), recs, userId)
    ensures forall recs, p, fails :: AddsNoDuplicate(HandlerFor(userId, status)(recs, p, fails), recs, userId)
  {
    forall recs, p, fails
      ensures Appends(HandlerFor(userId, status)(recs, p, fails), recs, userId)
      ensures AddsNoDuplicate(HandlerFor(userId, status)(recs, p, fails), recs, userId)
    {
      HandleFacts(recs, userId, p, status, fails);
      if SlugsDistinct(recs, userId) {
        NoDuplicatesStep(recs, userId, p, status, fails);
      }
    }
  }

  /** One email keeps the user's slugs distinct and creates no duplicate. */
  lemma NoDuplicatesStep(recs: seq<Record>, userId: string, p: Option<ParsedSubscription>, status: string, fails: bool)
    requires SlugsDistinct(recs, userId)
    ensures AddsNoDuplicate(Handle(recs, userId, p, status, fails), recs, userId)
  {
    var s := Handle(recs, userId, p, status, fails);
    HandleFacts(recs, userId, p, status, fails);
    if s.created.Some? {
      var rec := s.created.value;
      AppendFreshSlug(recs, userId, rec);
      assert s.recs[|recs|] == rec;
      assert DuplicateQuery(userId, p.value) == BySlugOrNameAmount(userId, rec.serviceSlug, rec.serviceName, rec.amount);
      forall i | 0 <= i < |recs|
        ensures !Matches(s.recs[i], BySlugOrNameAmount(userId, rec.serviceSlug, rec.serviceName, rec.amount))
      {
        assert s.recs[i] == recs[i];
      }
    }
  }

  /** The state after the first `k` emails; once the store threw, nothing further happens. */
  datatype Progress = Progress(created: seq<Record>, recs: seq<Record>, threw: bool)

  function Process(recs: seq<Record>, handle: Handler, read: Readings, fails: nat -> bool, k: nat): (r: Progress)
  {
    if k == 0 then Progress([], recs, false)
    else Advance(Process(recs, handle, read, fails, k - 1), handle, read(k - 1), fails(k - 1))
  }

  /** The state after one more email with reading `p`; nothing happens once the store threw. */
  function Advance(prev: Progress, handle: Handler, p: Option<ParsedSubscription>, fails: bool): (r: Progress)
    ensures prev.threw ==> r == prev
  {
    if prev.threw then prev
    else
      var s := handle(prev.recs, p, fails);
      match s.created
      case Some(rec) => Progress(prev.created + [rec], s.recs, s.threw)
      case None => Progress(prev.created, s.recs, s.threw)
  }

  /** One more email, from a state the store has not thrown in. */
  lemma ProcessNext(recs: seq<Record>, handle: Handler, read: Readings, fails: nat -> bool, k: nat,
                    created: seq<Record>, now: seq<Record>, s: Step)
    requires Progress(created, now, false) == Process(recs, handle, read, fails, k)
    requires s == handle(now, read(k), fails(k))
    ensures Process(recs, handle, read, fails, k + 1)
      == Progress(created + (if s.created.Some? then [s.created.value] else []), s.recs, s.threw)
  {
  }

  /** Once the store threw, later emails change nothing. */
  lemma {:induction false} ThrewStays(recs: seq<Record>, handle: Handler, read: Readings, fails: nat -> bool,
                                      k: nat, m: nat, run: Progress)
    requires k <= m
    requires run == Process(recs, handle, read, fails, k) && run.threw
    ensures Process(recs, handle, read, fails, m) == run
    decreases m - k
  {
    if m > k {
      ThrewStays(recs, handle, read, fails, k, m - 1, run);
    }
  }

  // ---------------------------------------------------------------- POST: the answer

  /** The answer of `POST`. */
  datatype BatchResult =
    | BadRequest
    | Failed
    | Processed(processed: nat, remaining: nat, subscriptions: seq<SubscriptionView>)

  function HttpStatus(r: BatchResult): nat {
    match r
    case BadRequest => 400
    case Failed => 500
    case Processed(_, _, _) => 200
  }

  function Views(rs: seq<Record>): (vs: seq<SubscriptionView>)
    ensures |vs| == |rs|
    ensures forall k :: 0 <= k < |rs| ==> vs[k] == ViewOf(rs[k])
  {
    if rs == [] then [] else Views(rs[..|rs| - 1]) + [ViewOf(rs[|rs| - 1])]
  }

  /** `emails.length - 10`, floored at 0. */
  function Remaining(n: nat): nat {
    if n > MaxEmailsPerRequest then n - MaxEmailsPerRequest else 0
  }

  /**
   * `POST` once the user is known. `emails` is the posted list, `None` when
   * it is missing or not an array.
   */
  function Post(recs: seq<Record>, userId: string, emails: Option<seq<StoredEmail>>, aiBatch: BatchReader,
                fallback: Reader, status: string, fails: nat -> bool): (r: (BatchResult, seq<Record>))
  {
    if emails.None? || emails.value == [] then (BadRequest, recs)
    else
      var todo := Take(emails.value, MaxEmailsPerRequest);
      var run := Process(recs, HandlerFor(userId, status), ReadingsOf(todo, aiBatch, fallback), fails, |todo|);
      if run.threw then (Failed, run.recs)
      else (Processed(|todo|, Remaining(|emails.value|), Views(run.created)), run.recs)
  }

  // ---------------------------------------------------------------- POST: the handler

  /** One email: the lookup, the zero-amount rule and the creation. */
  method HandleEmail(store: SubscriptionStore, userId: string, p: Option<ParsedSubscription>, fails: bool)
    returns (created: Option<Record>, threw: bool)
    requires store.Valid()
    modifies store
    ensures store.Valid()
    ensures Step(created, store.records, threw) == Handle(old(store.records), userId, p, store.defaultStatus, fails)
  {
    if p.None? {
      return None, false;
    }
    var parsed := p.value;
    if fails {
      return None, true;
    }
    var existing := store.FindFirst(DuplicateQuery(userId, parsed));
    if existing.Some? {
      return None, false;
    }
    if parsed.amount == 0.0 && !IsTrial(parsed) {
      return None, false;
    }
    var rec := store.Create(userId, parsed, NextOf(parsed));
    return Some(rec), false;
  }

  /** The reading of the `j`-th email of a sub-batch: its answer entry, else the regex reading. */
  method ReadEmail(e: StoredEmail, ai: seq<AiItem>, j: nat, fallback: Reader) returns (p: Option<ParsedSubscription>)
    ensures p == match ParsedAt(ai, j) case Some(q) => Some(q) case None => fallback(e)
  {
    p := if j < |ai| then ai[j].parsed else None;
    if p.None? {
      p := fallback(e);
    }
  }

  /**
   * The sub-batch and per-email loops over the first ten emails. On a throw
   * the handler stops and answers 500; records already created stay.
   */
  method ProcessEmails(store: SubscriptionStore, userId: string, todo: seq<StoredEmail>, aiBatch: BatchReader,
                       fallback: Reader, fails: nat -> bool, ghost read: Readings, ghost handle: Handler)
    returns (created: seq<Record>, threw: bool)
    requires store.Valid()
    requires forall k :: 0 <= k < |todo| ==> read(k) == ReadingAt(todo, aiBatch, fallback, k)
    requires forall recs, p, f {:trigger Handle(recs, userId, p, store.defaultStatus, f)} ::
      handle(recs, p, f) == Handle(recs, userId, p, store.defaultStatus, f)
    modifies store
    ensures store.Valid()
    ensures Progress(created, store.records, threw) == Process(old(store.records), handle, read, fails, |todo|)
  {
    ghost var recs0 := store.records;
    created, threw := [], false;
    var i := 0;
    while i < |todo| && !threw
      invariant 0 <= i <= |todo| && (i % BatchSize == 0 || i == |todo|) && store.Valid()
      invariant Progress(created, store.records, threw) == Process(recs0, handle, read, fails, i)
    {
      var hi := if i + BatchSize < |todo| then i + BatchSize else |todo|;
      var batch := todo[i..hi];
      var ai := aiBatch(Inputs(batch));
      SubBatchReadings(todo, aiBatch, fallback, read, i);
      created, threw := ProcessSubBatch(store, userId, batch, ai, fallback, fails, i, read, handle, recs0, created);
      if hi < |todo| {
        NextBatchStart(i);
      }
      i := hi;
    }
    if threw {
      ThrewStays(recs0, handle, read, fails, i, |todo|, Progress(created, store.records, threw));
    }
  }

  /** The per-email loop over one sub-batch, the `i`-th email of the request being its first. */
  method ProcessSubBatch(store: SubscriptionStore, userId: string, batch: seq<StoredEmail>, ai: seq<AiItem>,
                         fallback: Reader, fails: nat -> bool, i: nat, ghost read: Readings, ghost handle: Handler,
                         ghost recs0: seq<Record>, created0: seq<Record>)
    returns (created: seq<Record>, threw: bool)
    requires store.Valid()
    requires forall k :: i <= k < i + |batch| ==>
      read(k) == match ParsedAt(ai, k - i) case Some(q) => Some(q) case None => fallback(batch[k - i])
    requires forall recs, p, f {:trigger Handle(recs, userId, p, store.defaultStatus, f)} ::
      handle(recs, p, f) == Handle(recs, userId, p, store.defaultStatus, f)
    requires Progress(created0, store.records, false) == Process(recs0, handle, read, fails, i)
    modifies store
    ensures store.Valid()
    ensures Progress(created, store.records, threw) == Process(recs0, handle, read, fails, i + |batch|)
  {
    created, threw := created0, false;
    var k := i;
    while k < i + |batch| && !threw
      invariant i <= k <= i + |batch| && store.Valid()
      invariant Progress(created, store.records, threw) == Process(recs0, handle, read, fails, k)
    {
      assert read(k) == match ParsedAt(ai, k - i) case Some(q) => Some(q) case None => fallback(batch[k - i]);
      created, threw := ProcessOne(store, userId, batch[k - i], ai, k - i, fallback, fails, read, handle, recs0, k, created);
      k := k + 1;
    }
    if threw {
      ThrewStays(recs0, handle, read, fails, k, i + |batch|, Progress(created, store.records, threw));
    }
  }

  /** The `k`-th email of the request, the `j`-th of its sub-batch. */
  method ProcessOne(store: SubscriptionStore, userId: string, e: StoredEmail, ai: seq<AiItem>, j: nat,
                    fallback: Reader, fails: nat -> bool, ghost read: Readings, ghost handle: Handler,
                    ghost recs0: seq<Record>, k: nat, created0: seq<Record>)
    returns (created: seq<Record>, threw: bool)
    requires store.Valid()
    requires read(k) == match ParsedAt(ai, j) case Some(q) => Some(q) case None => fallback(e)
    requires forall recs, p, f {:trigger Handle(recs, userId, p, store.defaultStatus, f)} ::
      handle(recs, p, f) == Handle(recs, userId, p, store.defaultStatus, f)
    requires Progress(created0, store.records, false) == Process(recs0, handle, read, fails, k)
    modifies store
    ensures store.Valid()
    ensures Progress(created, store.records, threw) == Process(recs0, handle, read, fails, k + 1)
  {
    var p := ReadEmail(e, ai, j, fallback);
    ghost var before := store.records;
    var rec;
    rec, threw := HandleEmail(store, userId, p, fails(k));
    ProcessNext(recs0, handle, read, fails, k, created0, before, Step(rec, store.records, threw));
    created := if rec.Some? then created0 + [rec.value] else created0;
  }

  /** The readings of the sub-batch starting at `i` come from the answer to that sub-batch. */
  lemma SubBatchReadings(todo: seq<StoredEmail>, aiBatch: BatchReader, fallback: Reader, read: Readings, i: nat)
    requires i % BatchSize == 0 && i < |todo|
    requires forall k :: 0 <= k < |todo| ==> read(k) == ReadingAt(todo, aiBatch, fallback, k)
    ensures var batch := todo[i..if i + BatchSize < |todo| then i + BatchSize else |todo|];
      forall k :: i <= k < i + |batch| ==>
        read(k) == match ParsedAt(aiBatch(Inputs(batch)), k - i) case Some(q) => Some(q) case None => fallback(batch[k - i])
  {
    var batch := todo[i..if i + BatchSize < |todo| then i + BatchSize else |todo|];
    forall k | i <= k < i + |batch|
      ensures read(k) == match ParsedAt(aiBatch(Inputs(batch)), k - i) case Some(q) => Some(q) case None => fallback(batch[k - i])
    {
      ReadingInBatch(todo, aiBatch, fallback, i, k);
    }
  }

  /** The sub-batch after one starting at a multiple of five starts at a multiple of five. */
  lemma NextBatchStart(i: nat)
    requires i % BatchSize == 0
    ensures (i + BatchSize) % BatchSize == 0
  {
  }

  /** The `k`-th email, in the sub-batch starting at `i`, is read from the answer to that sub-batch. */
  lemma ReadingInBatch(todo: seq<StoredEmail>, aiBatch: BatchReader, fallback: Reader, i: nat, k: nat)
    requires i % BatchSize == 0 && i <= k < i + BatchSize && k < |todo|
    ensures var batch := todo[i..if i + BatchSize < |todo| then i + BatchSize else |todo|];
      && k - i < |batch| && batch[k - i] == todo[k]
      && ReadingAt(todo, aiBatch, fallback, k)
         == match ParsedAt(aiBatch(Inputs(batch)), k - i) case Some(q) => Some(q) case None => fallback(batch[k - i])
  {
    assert k / BatchSize == i / BatchSize;
    assert BatchStart(k) == i;
  }

  /** `POST`: the checks on the posted list, the cap of ten and the loops. */
  method PostBatch(store: SubscriptionStore, userId: string, emails: Option<seq<StoredEmail>>, aiBatch: BatchReader,
                   fails: nat -> bool)
    returns (r: BatchResult)
    requires store.Valid()
    modifies store
    ensures store.Valid()
    ensures (r, store.records)
      == Post(old(store.records), userId, emails, aiBatch, FallbackReading(), store.defaultStatus, fails)
  {
    if emails.None? || |emails.value| == 0 {
      return BadRequest;
    }
    var todo := Take(emails.value, MaxEmailsPerRequest);
    var created, threw :=
      ProcessEmails(store, userId, todo, aiBatch, FallbackReading(), fails, ReadingsOf(todo, aiBatch, FallbackReading()),
                    HandlerFor(userId, store.defaultStatus));
    if threw {
      return Failed;
    }
    r := Processed(|todo|, Remaining(|emails.value|), Views(created));
  }

  // ---------------------------------------------------------------- properties

  /** An empty or missing list is refused, and otherwise the counts add up to the list's length. */
  lemma PostCounts(recs: seq<Record>, userId: string, emails: Option<seq<StoredEmail>>, aiBatch: BatchReader,
                   fallback: Reader, status: string, fails: nat -> bool)
    ensures var r := Post(recs, userId, emails, aiBatch, fallback, status, fails).0;
      && (r.BadRequest? <==> emails.None? || emails.value == [])
      && (r.Processed? ==> (
            && r.processed == (if |emails.value| < MaxEmailsPerRequest then |emails.value| else MaxEmailsPerRequest)
            && r.processed + r.remaining == |emails.value|
            && 0 < r.processed <= MaxEmailsPerRequest
            && |r.subscriptions| <= r.processed))
  {
    if emails.Some? && emails.value != [] {
      var todo := Take(emails.value, MaxEmailsPerRequest);
      HandlerFacts(userId, status);
      ProcessCreatesFew(recs, HandlerFor(userId, status), userId, ReadingsOf(todo, aiBatch, fallback), fails, |todo|);
    }
  }

  /** At most one record per email read, each the user's and unconfirmed, with the next id. */
  lemma {:induction false} ProcessCreatesFew(recs: seq<Record>, handle: Handler, userId: string, read: Readings,
                                             fails: nat -> bool, k: nat)
    requires forall r, p, f :: Appends(handle(r, p, f), r, userId)
    ensures var run := Process(recs, handle, read, fails, k);
      && |run.created| <= k
      && forall m :: 0 <= m < |run.created| ==>
           (run.created[m].userId == userId && !run.created[m].confirmed && run.created[m].id == |recs| + m)
  {
    if k > 0 {
      ProcessCreatesFew(recs, handle, userId, read, fails, k - 1);
      ProcessExtends(recs, handle, userId, read, fails, k - 1);
      var prev := Process(recs, handle, read, fails, k - 1);
      if !prev.threw {
        var s := handle(prev.recs, read(k - 1), fails(k - 1));
        var run := Process(recs, handle, read, fails, k);
        if s.created.Some? {
          assert run.created == prev.created + [s.created.value];
          assert s.created.value.id == |prev.recs| == |recs| + |prev.created|;
        } else {
          assert run.created == prev.created;
        }
      }
    }
  }

  /** The store after the first `k` emails is the store before them followed by the records they created. */
  lemma {:induction false} ProcessExtends(recs: seq<Record>, handle: Handler, userId: string, read: Readings,
                                          fails: nat -> bool, k: nat)
    requires forall r, p, f :: Appends(handle(r, p, f), r, userId)
    ensures Process(recs, handle, read, fails, k).recs == recs + Process(recs, handle, read, fails, k).created
  {
    if k > 0 {
      ProcessExtends(recs, handle, userId, read, fails, k - 1);
      var prev := Process(recs, handle, read, fails, k - 1);
      if !prev.threw {
        var s := handle(prev.recs, read(k - 1), fails(k - 1));
        if s.created.Some? {
          assert recs + (prev.created + [s.created.value]) == (recs + prev.created) + [s.created.value];
        }
      }
    }
  }

  /**
   * No record is created that an earlier record of the user duplicates, by
   * slug or by name and amount; in particular the user's slugs stay
   * distinct, however many emails of one request name the same service.
   */
  lemma {:induction false} ProcessNoDuplicates(recs: seq<Record>, handle: Handler, userId: string, read: Readings,
                                               fails: nat -> bool, k: nat)
    requires forall r, p, f :: Appends(handle(r, p, f), r, userId)
    requires forall r, p, f :: AddsNoDuplicate(handle(r, p, f), r, userId)
    requires SlugsDistinct(recs, userId)
    ensures var run := Process(recs, handle, read, fails, k);
      && SlugsDistinct(run.recs, userId)
      && forall m :: |recs| <= m < |run.recs| ==> NotDuplicated(run.recs, m, userId)
  {
    if k > 0 {
      ProcessNoDuplicates(recs, handle, userId, read, fails, k - 1);
      ProcessExtends(recs, handle, userId, read, fails, k - 1);
      var prev := Process(recs, handle, read, fails, k - 1);
      if !prev.threw {
        var s := handle(prev.recs, read(k - 1), fails(k - 1));
        var run := Process(recs, handle, read, fails, k);
        if s.created.Some? {
          assert run.recs == prev.recs + [s.created.value];
          forall m | |recs| <= m < |prev.recs|
            ensures NotDuplicated(run.recs, m, userId)
          {
            NotDuplicatedStays(prev.recs, [s.created.value], m, userId);
          }
        }
      }
    }
  }

  /** Records added later do not change whether record `m` duplicates an earlier one. */
  lemma NotDuplicatedStays(recs: seq<Record>, more: seq<Record>, m: nat, userId: string)
    requires m < |recs| && NotDuplicated(recs, m, userId)
    ensures NotDuplicated(recs + more, m, userId)
  {
    assert (recs + more)[..m + 1] == recs[..m + 1];
    assert forall i :: 0 <= i <= m ==> (recs + more)[i] == recs[i];
  }

  /** Record `m` is the user's and no record before it matches its duplicate query. */
  predicate NotDuplicated(recs: seq<Record>, m: nat, userId: string)
    requires m < |recs|
  {
    var r := recs[m];
    && r.userId == userId
    && forall i :: 0 <= i < m ==> !Matches(recs[i], BySlugOrNameAmount(userId, r.serviceSlug, r.serviceName, r.amount))
  }

  /** The answer lists exactly the records this request created, in creation order. */
  lemma PostReportsCreated(recs: seq<Record>, userId: string, emails: Option<seq<StoredEmail>>,
                           aiBatch: BatchReader, fallback: Reader, status: string, fails: nat -> bool)
    ensures var (r, after) := Post(recs, userId, emails, aiBatch, fallback, status, fails);
      && recs <= after
      && (r.Processed? ==> (
            && |r.subscriptions| == |after| - |recs|
            && forall m :: 0 <= m < |r.subscriptions| ==> r.subscriptions[m] == ViewOf(after[|recs| + m])))
      && (r.BadRequest? ==> after == recs)
  {
    if emails.Some? && emails.value != [] {
      var todo := Take(emails.value, MaxEmailsPerRequest);
      HandlerFacts(userId, status);
      ProcessExtends(recs, HandlerFor(userId, status), userId, ReadingsOf(todo, aiBatch, fallback), fails, |todo|);
    }
  }

  /**
   * A request never creates a record that the user's earlier records, or
   * the ones it created before, duplicate; the user's slugs stay distinct.
   */
  lemma PostAddsNoDuplicate(recs: seq<Record>, userId: string, emails: Option<seq<StoredEmail>>,
                            aiBatch: BatchReader, fallback: Reader, status: string, fails: nat -> bool)
    requires SlugsDistinct(recs, userId)
    ensures var after := Post(recs, userId, emails, aiBatch, fallback, status, fails).1;
      && SlugsDistinct(after, userId)
      && forall m :: |recs| <= m < |after| ==> NotDuplicated(after, m, userId)
  {
    if emails.Some? && emails.value != [] {
      var todo := Take(emails.value, MaxEmailsPerRequest);
      HandlerFacts(userId, status);
      ProcessNoDuplicates(recs, HandlerFor(userId, status), userId, ReadingsOf(todo, aiBatch, fallback), fails, |todo|);
    }
  }
}
