/**
 * The streaming scan: fetched messages are filtered, the best candidates are
 * parsed (language model first, fallback second), new subscriptions are
 * stored unconfirmed, and progress is reported as a sequence of events.
 */
module ScanStream {
  import opened Wrappers
  import opened Text
  import opened Filter
  import opened Parser
  import opened Store
  import Amounts
  import Gmail

  const MaxEmailsToFetch: nat := 50
  const MaxEmailsToParse: nat := 25
  const BatchSize: nat := 5
  const ProgressStart: int := 30
  const ProgressEnd: int := 95

  /** The language model, as the reply it gives to a prompt. */
  type Ask = string -> AiResponse

  /** `fails(k)`: the store throws while the `k`-th candidate is handled. */
  type Failures = nat -> bool

  /** The service name the filter extracted is there and non-empty. */
  predicate HintGiven(e: FilteredEmail) {
    e.extractedServiceName.Some? && e.extractedServiceName.value != ""
  }

  /**
   * The mailbox read asks for at most 50 messages, so the listing it pages
   * through yields at most 50 ids however many pages the mailbox has.
   */
  lemma FetchBounded(listPage: Gmail.Lister)
    ensures |Gmail.MessageIds(listPage, Some(MaxEmailsToFetch))| <= MaxEmailsToFetch
  {
    Gmail.MessageIdsBounded(listPage, Some(MaxEmailsToFetch));
  }

  /** The language model's reading of the message, else the fallback's when a name was extracted. */
  function ParsedFor(e: FilteredEmail, ask: Ask): (r: Option<ParsedSubscription>)
    ensures ParseEmailWithAI(e.subject, e.from, e.body, ask).Some? ==>
      r == ParseEmailWithAI(e.subject, e.from, e.body, ask)
    ensures (ParseEmailWithAI(e.subject, e.from, e.body, ask).None? && r.Some?) ==>
      (HintGiven(e) && r.value.amount > 0.0 && r.value.confidence == 0.5
       && Some(r.value.serviceName) == FallbackName(e.from, e.extractedServiceName))
  {
    var ai := ParseEmailWithAI(e.subject, e.from, e.body, ask);
    if ai.None? && HintGiven(e) then ParseEmailFallback(e.subject, e.from, e.body, e.extractedServiceName)
    else ai
  }

  /**
   * Against the route's own `parseEmailFallback`, which can report a `NaN`
   * amount: when the model gives nothing and a hint is given, the reading
   * is a subscription exactly when that call returns one with a numeric
   * amount, and then the same one.
   */
  lemma ParsedForAsWritten(e: FilteredEmail, ask: Ask)
    requires ParseEmailWithAI(e.subject, e.from, e.body, ask).None? && HintGiven(e)
    ensures var w := ParseEmailFallbackAsWritten(e.subject, e.from, e.body, e.extractedServiceName);
      var r := ParsedFor(e, ask);
      && (r.Some? <==> w.Some? && w.value.amount.Num?)
      && (r.Some? ==> w.value == RawFallback(r.value.serviceName, Amounts.Num(r.value.amount), r.value.currency, r.value.billingCycle))
  {
    FallbackAgreesOnNumbers(e.subject, e.from, e.body, e.extractedServiceName);
  }

  /**
   * The stored next billing date: the parsed one when it is non-empty, else
   * one month, one year or seven days from the scan day by billing cycle.
   */
  function NextDateFor(p: ParsedSubscription): (r: NextDate)
    ensures r.NoDate? <==> ((p.nextBillingDate.None? || p.nextBillingDate.value == "")
      && p.billingCycle !in {"monthly", "yearly", "weekly"})
    ensures r.Given? <==> (p.nextBillingDate.Some? && p.nextBillingDate.value != "")
    ensures r.Given? ==> r.date == p.nextBillingDate.value
  {
    if p.nextBillingDate.Some? && p.nextBillingDate.value != "" then Given(p.nextBillingDate.value)
    else if p.billingCycle == "monthly" then FromToday(OneMonth)
    else if p.billingCycle == "yearly" then FromToday(OneYear)
    else if p.billingCycle == "weekly" then FromToday(SevenDays)
    else NoDate
  }

  /** What handling one candidate produced. */
  datatype Outcome = Existing(rec: Record) | Created(rec: Record) | Skipped | Failed

  /** The outcome carries a subscription to report. */
  predicate Reports(o: Outcome) {
    o.Existing? || o.Created?
  }

  /** A reading of a candidate: the subscription it announces, if any. */
  type Parse = FilteredEmail -> Option<ParsedSubscription>

  /** The cascade as a reading. */
  function ParseWith(ask: Ask): Parse {
    e => ParsedFor(e, ask)
  }

  /** One candidate: its outcome and the records afterwards. */
  function Handle(recs: seq<Record>, userId: string, e: FilteredEmail, parse: Parse, status: string, fails: bool)
    : (r: (Outcome, seq<Record>))
    ensures !r.0.Created? ==> r.1 == recs
    ensures r.0.Created? ==> r.1 == recs + [r.0.rec]
  {
    if fails then (Failed, recs)
    else match parse(e)
      case None => (Skipped, recs)
      case Some(p) =>
        var q := BySlug(userId, Slug(p.serviceName));
        match FirstWhere(recs, q)
        case Some(x) => (Existing(x), recs)
        case None =>
          if p.amount == 0.0 && !IsTrial(p) then (Skipped, recs)
          else
            var c := NewRecord(recs, userId, p, NextDateFor(p), status);
            (Created(c), recs + [c])
  }

  /**
   * A candidate is reported only when it was read; a new record belongs to
   * the user, is unconfirmed, has a non-zero amount unless it is a trial, and
   * has a slug no record of the user had; an existing one is the user's
   * record with the slug of the name read. Conversely, a slug match is
   * reported as that record, and a fresh slug with a non-zero amount or a
   * trial is created.
   */
  lemma HandleFacts(recs: seq<Record>, userId: string, e: FilteredEmail, parse: Parse, status: string, fails: bool)
    ensures var r := Handle(recs, userId, e, parse, status, fails);
      && (Reports(r.0) ==> (!fails && parse(e).Some?))
      && (r.0.Created? ==> (r.0.rec.id == |recs| && r.0.rec.userId == userId && !r.0.rec.confirmed
           && (r.0.rec.amount != 0.0 || IsTrial(parse(e).value))
           && r.0.rec.serviceSlug == Slug(parse(e).value.serviceName)
           && forall k :: 0 <= k < |recs| && recs[k].userId == userId ==> recs[k].serviceSlug != r.0.rec.serviceSlug))
      && (r.0.Existing? ==> (r.0.rec in recs && r.0.rec.userId == userId
           && r.0.rec.serviceSlug == Slug(parse(e).value.serviceName)))
      && (!fails && parse(e).Some? && FirstWhere(recs, BySlug(userId, Slug(parse(e).value.serviceName))).Some?
          ==> r.0 == Existing(FirstWhere(recs, BySlug(userId, Slug(parse(e).value.serviceName))).value))
      && ((!fails && parse(e).Some? && FirstWhere(recs, BySlug(userId, Slug(parse(e).value.serviceName))).None?
           && (parse(e).value.amount != 0.0 || IsTrial(parse(e).value))) ==> r.0.Created?)
  {
    if !fails && parse(e).Some? {
      var p := parse(e).value;
      var q := BySlug(userId, Slug(p.serviceName));
      if FirstWhere(recs, q).None? {
        NoneBySlug(recs, q);
      }
    }
  }

  /** The handling of one candidate as a value: a run is stated over it. */
  type Stepper = (seq<Record>, FilteredEmail, bool) -> (Outcome, seq<Record>)

  /** `Handle` for one user, reading and default status. */
  function HandlerFor(userId: string, parse: Parse, status: string): Stepper {
    (recs: seq<Record>, e: FilteredEmail, fails: bool) => Handle(recs, userId, e, parse, status, fails)
  }

  /** The candidates in order: one outcome each, and the records afterwards. */
  function Run(recs: seq<Record>, step: Stepper, emails: seq<FilteredEmail>, fails: Failures)
    : (r: (seq<Outcome>, seq<Record>))
    ensures |r.0| == |emails|
    decreases |emails|
  {
    if emails == [] then ([], recs)
    else
      var n := |emails| - 1;
      var prev := Run(recs, step, emails[..n], fails);
      var next := step(prev.1, emails[n], fails(n));
      (prev.0 + [next.0], next.1)
  }

  /** The outcomes that report a subscription. */
  function Reported(os: seq<Outcome>): (n: nat)
    ensures n <= |os|
  {
    if os == [] then 0 else Reported(os[..|os| - 1]) + (if Reports(os[|os| - 1]) then 1 else 0)
  }

  /** Ids stay positions across a run. */
  lemma {:induction false} RunKeepsIds(recs: seq<Record>, userId: string, emails: seq<FilteredEmail>, parse: Parse,
                                       status: string, fails: Failures)
    requires IdsArePositions(recs)
    ensures IdsArePositions(Run(recs, HandlerFor(userId, parse, status), emails, fails).1)
    decreases |emails|
  {
    if emails != [] {
      RunKeepsIds(recs, userId, emails[..|emails| - 1], parse, status, fails);
    }
  }

  /**
   * A run never gives a user two records with the same slug. This holds for
   * the run in order: two candidates of one sub-batch with the same slug,
   * handled concurrently, can both pass the duplicate check and both be
   * created.
   */
  lemma {:induction false} RunKeepsSlugsDistinct(recs: seq<Record>, userId: string, emails: seq<FilteredEmail>,
                                                 parse: Parse, status: string, fails: Failures)
    requires SlugsDistinct(recs, userId)
    ensures SlugsDistinct(Run(recs, HandlerFor(userId, parse, status), emails, fails).1, userId)
    decreases |emails|
  {
    if emails != [] {
      var n := |emails| - 1;
      var prev := Run(recs, HandlerFor(userId, parse, status), emails[..n], fails);
      RunKeepsSlugsDistinct(recs, userId, emails[..n], parse, status, fails);
      var step := Handle(prev.1, userId, emails[n], parse, status, fails(n));
      HandleFacts(prev.1, userId, emails[n], parse, status, fails(n));
      if step.0.Created? {
        AppendFreshSlug(prev.1, userId, step.0.rec);
      }
    }
  }

  /** Every record a run adds belongs to the user, is unconfirmed, and has a non-zero amount or is a trial. */
  lemma {:induction false} RunCreatesUnconfirmed(recs: seq<Record>, userId: string, emails: seq<FilteredEmail>,
                                                 parse: Parse, status: string, fails: Failures)
    ensures var after := Run(recs, HandlerFor(userId, parse, status), emails, fails).1;
      forall k :: |recs| <= k < |after| ==> (after[k].userId == userId && !after[k].confirmed)
    ensures recs <= Run(recs, HandlerFor(userId, parse, status), emails, fails).1
    ensures |Run(recs, HandlerFor(userId, parse, status), emails, fails).1| <= |recs| + |emails|
    decreases |emails|
  {
    if emails != [] {
      var n := |emails| - 1;
      RunCreatesUnconfirmed(recs, userId, emails[..n], parse, status, fails);
      var prev := Run(recs, HandlerFor(userId, parse, status), emails[..n], fails);
      HandleFacts(prev.1, userId, emails[n], parse, status, fails(n));
    }
  }

  // ---------------------------------------------------------------- events

  /** The human-readable messages the stream sends, by template. */
  datatype Message =
    | ConnectingGmail
    | FetchingEmails
    | EmailsToAnalyze(n: nat)
    | FilteringEmails
    | PotentialSubscriptions(k: nat)
    | AnalyzingEmail(p: nat, t: nat)
    | NothingFound(scanned: nat)
    | FoundSubscriptions(s: nat, scanned: nat)
    | NoSubscriptionEmails
    | TokenMissing
    | TryAgain

  /** The text of a message, as the route's template literals render it. */
  function Render(m: Message): string {
    match m
    case ConnectingGmail => "Connecting to Gmail..."
    case FetchingEmails => "Fetching emails..."
    case EmailsToAnalyze(n) => "Found " + NatToString(n) + " emails to analyze..."
    case FilteringEmails => "Filtering subscription emails..."
    case PotentialSubscriptions(k) => "Analyzing " + NatToString(k) + " potential subscriptions..."
    case AnalyzingEmail(p, t) => "Analyzing email " + NatToString(p) + "/" + NatToString(t) + "..."
    case NothingFound(n) => "Scanned " + NatToString(n) + " emails, found 0 subscriptions"
    case FoundSubscriptions(s, n) =>
      "Found " + NatToString(s) + " subscription" + (if s != 1 then "s" else "") + " in "
      + NatToString(n) + " emails"
    case NoSubscriptionEmails => "No subscription emails found"
    case TokenMissing => "Gmail access token not found. Please reconnect your Google account."
    case TryAgain => "Scan failed. Please try again."
  }

  /** The events of the stream, before serialisation. */
  datatype Event =
    | Status(message: Message, progress: int, emailsFound: Option<nat>)
    | Found(subscription: SubscriptionView, count: nat)
    | Complete(message: Message, finalProgress: Option<int>, subscriptionsFound: nat, emailsScanned: Option<nat>)
    | Error(message: Message)

  /** `Math.round`: halves round up. */
  function Round(x: real): (n: int)
    ensures n as real - 0.5 <= x < n as real + 0.5
  {
    (x + 0.5).Floor
  }

  /**
   * The progress after `p` of `t` candidates, between `start` and `end`: the
   * exact value of `start + (end - start) * (p / t)` rounded as `Round` does.
   */
  function Progress(p: nat, t: nat, start: int, end: int): int
    requires t > 0
  {
    start + (2 * (end - start) * p + t) / (2 * t)
  }

  /** `Progress` is `Math.round` of the exact fraction. */
  lemma ProgressRounds(p: nat, t: nat, start: int, end: int)
    requires t > 0
    ensures Progress(p, t, start, end) == Round(start as real + (end - start) as real * (p as real / t as real))
  {
    var d := end - start;
    var num := 2 * d * p + t;
    var q := num / (2 * t);
    var r := num % (2 * t);
    var x := start as real + d as real * (p as real / t as real);
    HalfStep(d, p, t);
    SplitQuotient(num, 2 * t);
    assert x + 0.5 == start as real + num as real / (2 * t) as real;
  }

  lemma HalfStep(d: int, p: nat, t: nat)
    requires t > 0
    ensures d as real * (p as real / t as real) + 0.5 == (2 * d * p + t) as real / (2 * t) as real
  {
    var T := t as real;
    var f := p as real / T;
    var z := d as real * f + 0.5;
    assert f * T == p as real;
    assert z * (2.0 * T) == 2.0 * d as real * (f * T) + T;
    assert (2 * d * p + t) as real == 2.0 * d as real * p as real + T;
    assert (2 * t) as real == 2.0 * T;
    QuotientOf(z, (2 * d * p + t) as real, 2.0 * T);
  }

  lemma QuotientOf(z: real, x: real, y: real)
    requires y != 0.0 && z * y == x
    ensures z == x / y
  {
  }

  lemma SplitQuotient(num: int, c: int)
    requires c > 0
    ensures num as real / c as real == (num / c) as real + (num % c) as real / c as real
    ensures 0.0 <= (num % c) as real / c as real < 1.0
  {
    var q := num / c;
    var r := num % c;
    assert num == q * c + r;
    assert num as real == q as real * c as real + r as real;
  }

  lemma ProgressBounds(p: nat, t: nat, start: int, end: int)
    requires 0 < t && p <= t && start <= end
    ensures start <= Progress(p, t, start, end) <= end
    ensures p == t ==> Progress(p, t, start, end) == end
    ensures p == 0 ==> Progress(p, t, start, end) == start
  {
    var d := end - start;
    var num := 2 * d * p + t;
    MulMonotone(d, p, t);
    assert 2 * d * p == 2 * (d * p);
    assert (2 * t) * (d + 1) == 2 * (d * t) + 2 * t;
    DivBelow(num, 2 * t, d + 1);
    if p == t {
      assert num == (2 * t) * d + t;
      DivOf(2 * t, d, t);
    }
  }

  lemma DivOf(c: int, k: int, r: int)
    requires c > 0 && 0 <= r < c
    ensures (c * k + r) / c == k
  {
    var n := c * k + r;
    var q := n / c;
    var m := n % c;
    assert c * q + m == c * k + r;
    MulDiff(c, k, q);
    if k > q {
      MulAtLeast(c, k - q);
    } else if k < q {
      MulAtLeast(c, q - k);
    }
  }

  lemma MulDiff(c: int, k: int, q: int)
    ensures c * k - c * q == c * (k - q) && c * q - c * k == c * (q - k)
  {
  }

  lemma MulAtLeast(c: int, x: int)
    requires c > 0 && x >= 1
    ensures c * x >= c
  {
  }

  lemma DivBelow(a: int, c: int, k: int)
    requires 0 <= a < c * k && c > 0
    ensures 0 <= a / c < k
  {
  }

  lemma MulMonotone(d: int, p: int, p': int)
    requires 0 <= d && p <= p'
    ensures d * p <= d * p'
  {
    assert d * p' - d * p == d * (p' - p);
  }

  lemma DivMonotone(a: int, b: int, c: int)
    requires a <= b && c > 0
    ensures a / c <= b / c
  {
    var qa, qb := a / c, b / c;
    assert c * qa + a % c == a && c * qb + b % c == b;
    MulDiff(c, qa, qb);
    if qa > qb {
      MulAtLeast(c, qa - qb);
    }
  }

  lemma ProgressMonotone(p: nat, p': nat, t: nat, start: int, end: int)
    requires 0 < t && p <= p' && start <= end
    ensures Progress(p, t, start, end) <= Progress(p', t, start, end)
  {
    var d := end - start;
    MulMonotone(d, p, p');
    assert 2 * d * p == 2 * (d * p) && 2 * d * p' == 2 * (d * p');
    DivMonotone(2 * d * p + t, 2 * d * p' + t, 2 * t);
  }


  /** The status event sent once `p` of `t` candidates are processed. */
  function AnalyzingStatus(p: nat, t: nat, start: int, end: int): (e: Event)
    requires t > 0
    ensures e.Status? && e.progress == Progress(p, t, start, end) && e.emailsFound.None?
  {
    Status(AnalyzingEmail(p, t), Progress(p, t, start, end), None)
  }

  /** The subscription event of outcome `o`, numbered `count`, if `o` is reported. */
  function FoundEvents(o: Outcome, count: nat): (ev: seq<Event>)
    ensures |ev| == (if Reports(o) then 1 else 0)
    ensures Reports(o) ==> ev[0] == Found(ViewOf(o.rec), count)
  {
    if Reports(o) then [Found(ViewOf(o.rec), count)] else []
  }

  /** The events for outcome `o` after outcomes `os`: a status event, then the subscription if one is reported. */
  function StepEvents(os: seq<Outcome>, o: Outcome, t: nat, start: int, end: int): (ev: seq<Event>)
    requires |os| < t
    ensures |ev| == 1 + (if Reports(o) then 1 else 0)
    ensures ev[0].Status? && ev[0].progress == Progress(|os| + 1, t, start, end)
    ensures Reports(o) ==> ev[1] == Found(ViewOf(o.rec), Reported(os) + 1)
  {
    [AnalyzingStatus(|os| + 1, t, start, end)] + FoundEvents(o, Reported(os) + 1)
  }

  /** The events after the outcomes `os` of `t` candidates, in order. */
  function EventsFor(os: seq<Outcome>, t: nat, start: int, end: int): (ev: seq<Event>)
    requires |os| <= t
    ensures |ev| == |os| + Reported(os)
  {
    if os == [] then []
    else
      var n := |os| - 1;
      EventsFor(os[..n], t, start, end) + StepEvents(os[..n], os[n], t, start, end)
  }

  /** The number of subscription events. */
  function FoundCount(ev: seq<Event>): (n: nat)
    ensures n <= |ev|
  {
    if ev == [] then 0 else FoundCount(ev[..|ev| - 1]) + (if ev[|ev| - 1].Found? then 1 else 0)
  }

  lemma FoundCountSnoc(ev: seq<Event>, e: Event)
    ensures FoundCount(ev + [e]) == FoundCount(ev) + (if e.Found? then 1 else 0)
  {
    assert (ev + [e])[..|ev|] == ev;
  }

  lemma {:induction false} FoundCountAppend(a: seq<Event>, b: seq<Event>)
    ensures FoundCount(a + b) == FoundCount(a) + FoundCount(b)
    decreases |b|
  {
    if b != [] {
      var n := |b| - 1;
      var b' := b[..n];
      assert a + b == (a + b') + [b[n]];
      assert b == b' + [b[n]];
      FoundCountAppend(a, b');
      FoundCountSnoc(a + b', b[n]);
      FoundCountSnoc(b', b[n]);
    } else {
      assert a + b == a;
    }
  }

  lemma {:induction false} NoFound(ev: seq<Event>)
    requires forall i :: 0 <= i < |ev| ==> !ev[i].Found?
    ensures FoundCount(ev) == 0
  {
    if ev != [] {
      NoFound(ev[..|ev| - 1]);
    }
  }

  /** Each subscription event carries the number of subscription events up to and including it. */
  predicate CountsInOrder(ev: seq<Event>) {
    forall i :: 0 <= i < |ev| && ev[i].Found? ==> ev[i].count == FoundCount(ev[..i]) + 1
  }

  lemma CountsSnoc(ev: seq<Event>, e: Event)
    requires CountsInOrder(ev)
    requires e.Found? ==> e.count == FoundCount(ev) + 1
    ensures CountsInOrder(ev + [e])
  {
    var ev' := ev + [e];
    forall i | 0 <= i < |ev'| && ev'[i].Found?
      ensures ev'[i].count == FoundCount(ev'[..i]) + 1
    {
      if i < |ev| {
        assert ev'[..i] == ev[..i];
      } else {
        assert ev'[..i] == ev;
      }
    }
  }

  /** One subscription event per reported outcome. */
  lemma {:induction false} EventsFoundCount(os: seq<Outcome>, t: nat, start: int, end: int)
    requires |os| <= t
    ensures FoundCount(EventsFor(os, t, start, end)) == Reported(os)
  {
    if os != [] {
      var n := |os| - 1;
      var prev := EventsFor(os[..n], t, start, end);
      var step := StepEvents(os[..n], os[n], t, start, end);
      EventsFoundCount(os[..n], t, start, end);
      FoundCountAppend(prev, step);
      if Reports(os[n]) {
        FoundCountSnoc([step[0]], step[1]);
        assert step == [step[0]] + [step[1]];
      }
      NoFound([step[0]]);
    }
  }

  /** Each subscription event carries the count of subscription events so far. */
  lemma {:induction false} EventsCountsInOrder(os: seq<Outcome>, t: nat, start: int, end: int)
    requires |os| <= t
    ensures CountsInOrder(EventsFor(os, t, start, end))
  {
    if os != [] {
      var n := |os| - 1;
      var init, o := os[..n], os[n];
      assert os == init + [o];
      EventsCountsInOrder(init, t, start, end);
      EventsFoundCount(init, t, start, end);
      EventsSnoc(init, o, t, start, end);
      CountsAfterStep(EventsFor(init, t, start, end), StepEvents(init, o, t, start, end));
    }
  }

  /** A status event, then at most one subscription event numbered next, keep the counts in order. */
  lemma CountsAfterStep(prev: seq<Event>, step: seq<Event>)
    requires CountsInOrder(prev) && 1 <= |step| <= 2 && !step[0].Found?
    requires |step| == 2 ==> step[1].Found? && step[1].count == FoundCount(prev) + 1
    ensures CountsInOrder(prev + step)
  {
    var mid := prev + [step[0]];
    CountsSnoc(prev, step[0]);
    FoundCountSnoc(prev, step[0]);
    if |step| == 2 {
      CountsSnoc(mid, step[1]);
      SnocPair(prev, step, mid);
    } else {
      assert prev + step == mid;
    }
  }

  lemma SnocPair(prev: seq<Event>, step: seq<Event>, mid: seq<Event>)
    requires |step| == 2 && mid == prev + [step[0]]
    ensures prev + step == mid + [step[1]]
  {
    assert step == [step[0]] + [step[1]];
  }

  /** Every status event reports a progress in `[lo, hi]`. */
  predicate StatusWithin(ev: seq<Event>, lo: int, hi: int) {
    forall i :: 0 <= i < |ev| && ev[i].Status? ==> lo <= ev[i].progress <= hi
  }

  /** The status events' progress never goes down. */
  predicate StatusRising(ev: seq<Event>) {
    forall i, j :: 0 <= i < j < |ev| && ev[i].Status? && ev[j].Status? ==> ev[i].progress <= ev[j].progress
  }

  /** Every status event after `os` reports between `start` and the progress after `|os|` candidates. */
  lemma {:induction false} EventsProgressBelow(os: seq<Outcome>, t: nat, start: int, end: int)
    requires |os| <= t && 0 < t && start <= end
    ensures StatusWithin(EventsFor(os, t, start, end), start, Progress(|os|, t, start, end))
  {
    if os != [] {
      var n := |os| - 1;
      var prev := EventsFor(os[..n], t, start, end);
      var step := StepEvents(os[..n], os[n], t, start, end);
      EventsProgressBelow(os[..n], t, start, end);
      assert StatusWithin(prev, start, Progress(n, t, start, end));
      ProgressMonotone(n, n + 1, t, start, end);
      ProgressBounds(n + 1, t, start, end);
      var ev := prev + step;
      forall i | 0 <= i < |ev| && ev[i].Status?
        ensures start <= ev[i].progress <= Progress(n + 1, t, start, end)
      {
        if i < |prev| {
          assert ev[i] == prev[i];
        } else {
          assert ev[i] == step[i - |prev|];
          assert i - |prev| == 0;
        }
      }
      assert EventsFor(os, t, start, end) == ev;
    }
  }

  /** The status events' progress never goes down. */
  lemma {:induction false} EventsProgressRises(os: seq<Outcome>, t: nat, start: int, end: int)
    requires |os| <= t && 0 < t && start <= end
    ensures StatusRising(EventsFor(os, t, start, end))
  {
    if os != [] {
      var n := |os| - 1;
      var prev := EventsFor(os[..n], t, start, end);
      var step := StepEvents(os[..n], os[n], t, start, end);
      EventsProgressRises(os[..n], t, start, end);
      EventsProgressBelow(os[..n], t, start, end);
      assert StatusRising(prev);
      assert StatusWithin(prev, start, Progress(n, t, start, end));
      ProgressMonotone(n, n + 1, t, start, end);
      var ev := prev + step;
      forall i, j | 0 <= i < j < |ev| && ev[i].Status? && ev[j].Status?
        ensures ev[i].progress <= ev[j].progress
      {
        assert ev[i] == prev[i];
        if j < |prev| {
          assert ev[j] == prev[j];
        } else {
          assert ev[j] == step[j - |prev|];
          assert j - |prev| == 0;
        }
      }
      assert EventsFor(os, t, start, end) == ev;
    }
  }

  // ---------------------------------------------------------------- processEmailBatch

  /**
   * The reading of one candidate, as the parallel task does it: the language
   * model first, the fallback only when it gave nothing and a name was extracted.
   */
  method ParseCandidate(e: FilteredEmail, ask: Ask) returns (parsed: Option<ParsedSubscription>)
    ensures parsed == ParseWith(ask)(e)
  {
    parsed := ParseEmailWithAI(e.subject, e.from, e.body, ask);
    if parsed.None? && HintGiven(e) {
      parsed := ParseEmailFallback(e.subject, e.from, e.body, e.extractedServiceName);
    }
  }

  /** One candidate, as the parallel task does it once it has the reading. */
  method HandleEmail(store: SubscriptionStore, userId: string, e: FilteredEmail, parse: Parse, fails: bool)
    returns (o: Outcome)
    requires store.Valid()
    modifies store
    ensures store.Valid()
    ensures (o, store.records) == Handle(old(store.records), userId, e, parse, store.defaultStatus, fails)
  {
    if fails {
      return Failed;
    }
    var parsed := parse(e);
    if parsed.None? {
      return Skipped;
    }
    var p := parsed.value;
    var existing := store.FindFirst(BySlug(userId, Slug(p.serviceName)));
    if existing.Some? {
      return Existing(existing.value);
    }
    if p.amount == 0.0 && !IsTrial(p) {
      return Skipped;
    }
    var rec := store.Create(userId, p, NextDateFor(p));
    return Created(rec);
  }

  lemma RunSnoc(recs: seq<Record>, step: Stepper, emails: seq<FilteredEmail>, j: nat, fails: Failures)
    requires j < |emails|
    ensures var prev := Run(recs, step, emails[..j], fails);
      var next := step(prev.1, emails[j], fails(j));
      Run(recs, step, emails[..j + 1], fails) == (prev.0 + [next.0], next.1)
  {
    assert emails[..j + 1][..j] == emails[..j];
  }

  /** `step` is the route's handling for this user, reading and the store's default status. */
  ghost predicate Handles(step: Stepper, userId: string, parse: Parse, status: string) {
    forall recs, e, f {:trigger Handle(recs, userId, e, parse, status, f)} ::
      step(recs, e, f) == Handle(recs, userId, e, parse, status, f)
  }

  /** Candidate `j` after candidates `0..j`: the run extends by one step. */
  method HandleNext(store: SubscriptionStore, emails: seq<FilteredEmail>, j: nat, userId: string, parse: Parse,
                    fails: Failures, ghost outcomes: seq<Outcome>, results0: seq<Outcome>, ghost recs0: seq<Record>,
                    ghost step: Stepper)
    returns (results: seq<Outcome>)
    requires j < |emails| && store.Valid() && Handles(step, userId, parse, store.defaultStatus)
    requires (outcomes + results0, store.records) == Run(recs0, step, emails[..j], fails)
    modifies store
    ensures store.Valid() && |results| == |results0| + 1
    ensures (outcomes + results, store.records) == Run(recs0, step, emails[..j + 1], fails)
  {
    RunSnoc(recs0, step, emails, j, fails);
    var o := HandleEmail(store, userId, emails[j], parse, fails(j));
    SnocAssoc(outcomes, results0, o);
    results := results0 + [o];
  }

  lemma SnocAssoc<T>(a: seq<T>, b: seq<T>, x: T)
    ensures a + (b + [x]) == (a + b) + [x]
  {
  }

  /** The parallel tasks of one sub-batch, `emails[lo..hi]`, in order. */
  method HandleBatch(store: SubscriptionStore, emails: seq<FilteredEmail>, lo: nat, hi: nat, userId: string,
                     parse: Parse, fails: Failures, ghost outcomes: seq<Outcome>, ghost recs0: seq<Record>,
                     ghost step: Stepper)
    returns (results: seq<Outcome>)
    requires lo <= hi <= |emails| && store.Valid() && Handles(step, userId, parse, store.defaultStatus)
    requires (outcomes, store.records) == Run(recs0, step, emails[..lo], fails)
    modifies store
    ensures store.Valid() && |results| == hi - lo
    ensures (outcomes + results, store.records) == Run(recs0, step, emails[..hi], fails)
  {
    results := [];
    var j := lo;
    assert outcomes + results == outcomes;
    while j < hi
      invariant lo <= j <= hi && |results| == j - lo && store.Valid()
      invariant (outcomes + results, store.records)
        == Run(recs0, step, emails[..j], fails)
    {
      results := HandleNext(store, emails, j, userId, parse, fails, outcomes, results, recs0, step);
      j := j + 1;
    }
  }

  lemma EventsSnoc(os: seq<Outcome>, o: Outcome, t: nat, start: int, end: int)
    requires |os| < t
    ensures EventsFor(os + [o], t, start, end) == EventsFor(os, t, start, end) + StepEvents(os, o, t, start, end)
    ensures Reported(os + [o]) == Reported(os) + (if Reports(o) then 1 else 0)
  {
    assert (os + [o])[..|os|] == os;
  }

  lemma PrefixSnoc<T>(a: seq<T>, b: seq<T>, m: nat)
    requires m < |b|
    ensures a + b[..m + 1] == (a + b[..m]) + [b[m]]
    ensures |a + b[..m]| == |a| + m
  {
    assert b[..m + 1] == b[..m] + [b[m]];
  }

  /** The results loop of one sub-batch: a status event each, a subscription event per reported one. */
  method ReportBatch(results: seq<Outcome>, t: nat, start: int, end: int, ghost outcomes: seq<Outcome>,
                     processed0: nat, found0: nat, events0: seq<Event>)
    returns (processed: nat, found: nat, events: seq<Event>)
    requires |outcomes| + |results| <= t && processed0 == |outcomes|
    requires found0 == Reported(outcomes) && events0 == EventsFor(outcomes, t, start, end)
    ensures processed == processed0 + |results|
    ensures found == Reported(outcomes + results) && events == EventsFor(outcomes + results, t, start, end)
  {
    processed, found, events := processed0, found0, events0;
    var m := 0;
    ghost var done := outcomes;
    assert outcomes + results[..0] == outcomes;
    while m < |results|
      invariant 0 <= m <= |results| && processed == processed0 + m
      invariant done == outcomes + results[..m] && |done| == processed
      invariant found == Reported(done) && events == EventsFor(done, t, start, end)
    {
      var o := results[m];
      PrefixSnoc(outcomes, results, m);
      EventsSnoc(done, o, t, start, end);
      var step;
      processed, found, step := ReportOne(o, t, start, end, done, processed, found);
      events := events + step;
      done := done + [o];
      m := m + 1;
    }
    assert results[..m] == results;
  }

  /** One result: the status event with the new count, then its subscription if it is reported. */
  method ReportOne(o: Outcome, t: nat, start: int, end: int, ghost done: seq<Outcome>, processed0: nat, found0: nat)
    returns (processed: nat, found: nat, step: seq<Event>)
    requires |done| < t && processed0 == |done| && found0 == Reported(done)
    ensures processed == processed0 + 1 && found == found0 + (if Reports(o) then 1 else 0)
    ensures step == StepEvents(done, o, t, start, end)
  {
    processed := processed0 + 1;
    found := found0;
    step := [AnalyzingStatus(processed, t, start, end)];
    if Reports(o) {
      found := found + 1;
      step := step + [Found(ViewOf(o.rec), found)];
    }
  }

  /**
   * `processEmailBatch`, with the shared counter starting at zero: the
   * candidates in sub-batches of five, then one status event per candidate
   * and a subscription event per reported one.
   */
  method ProcessEmailBatch(store: SubscriptionStore, emails: seq<FilteredEmail>, userId: string, parse: Parse,
                           fails: Failures, progressStart: int, progressEnd: int, ghost step: Stepper)
    returns (found: nat, events: seq<Event>)
    requires store.Valid() && Handles(step, userId, parse, store.defaultStatus)
    modifies store
    ensures store.Valid()
    ensures var run := Run(old(store.records), step, emails, fails);
      && store.records == run.1
      && found == Reported(run.0)
      && events == EventsFor(run.0, |emails|, progressStart, progressEnd)
  {
    ghost var recs0 := store.records;
    ghost var outcomes: seq<Outcome> := [];
    found := 0;
    events := [];
    var processed := 0;
    var i := 0;
    while i < |emails|
      invariant 0 <= i <= |emails| && |outcomes| == i && processed == i && store.Valid()
      invariant (outcomes, store.records) == Run(recs0, step, emails[..i], fails)
      invariant found == Reported(outcomes)
      invariant events == EventsFor(outcomes, |emails|, progressStart, progressEnd)
    {
      var hi := if i + BatchSize < |emails| then i + BatchSize else |emails|;
      var results := HandleBatch(store, emails, i, hi, userId, parse, fails, outcomes, recs0, step);
      processed, found, events :=
        ReportBatch(results, |emails|, progressStart, progressEnd, outcomes, processed, found, events);
      outcomes := outcomes + results;
      i := hi;
    }
    assert emails[..i] == emails;
  }

  // ---------------------------------------------------------------- GET

  const Connecting: Event := Status(ConnectingGmail, 5, None)
  const Fetching: Event := Status(FetchingEmails, 10, None)
  const Filtering: Event := Status(FilteringEmails, 25, None)
  const NoToken: Event := Error(TokenMissing)
  const ScanFailed: Event := Error(TryAgain)

  function FoundEmailsEvent(n: nat): Event {
    Status(EmailsToAnalyze(n), 20, Some(n))
  }

  function AnalyzingEvent(k: nat): Event {
    Status(PotentialSubscriptions(k), 30, None)
  }

  function NoCandidatesEvent(n: nat): Event {
    Complete(NothingFound(n), None, 0, None)
  }

  /** The closing event, with "subscription" in the plural unless exactly one was found. */
  function DoneEvent(s: nat, n: nat): Event {
    Complete(FoundSubscriptions(s, n), Some(100), s, Some(n))
  }

  /** The candidates parsed: the filtered messages, best first, at most 25 of them. */
  function Candidates(emails: seq<Email>, rules: Rules): seq<FilteredEmail> {
    Take(SortDesc(Collect(emails, rules)), MaxEmailsToParse)
  }

  /** A choice of the candidates to parse among the fetched messages. */
  type Selector = seq<Email> -> seq<FilteredEmail>

  /** The route's choice, `Candidates` under the dynamic matcher `rules`. */
  function CandidatesFor(rules: Rules): Selector {
    emails => Candidates(emails, rules)
  }

  /** The route never parses more than 25 candidates. */
  lemma CandidatesFew(rules: Rules)
    ensures forall emails :: |CandidatesFor(rules)(emails)| <= MaxEmailsToParse
  {
  }

  /**
   * The whole stream. `token` is the stored access token; `fetched` is what
   * the mail adapter returned, `None` when it threw. The adapter itself
   * catches its errors and returns an empty list, so it never yields `None`:
   * that branch over-approximates the adapter; `parse` is the reading
   * of a candidate, `ParseWith(ask)` in the route; `recordFails` says the
   * scan-log write after the closing event throws.
   */
  function Scan(recs: seq<Record>, userId: string, token: Option<string>, fetched: Option<seq<Email>>,
                select: Selector, parse: Parse, status: string, fails: Failures, recordFails: bool)
    : (r: (seq<Event>, seq<Record>))
  {
    if token.None? || token.value == "" then ([Connecting, NoToken], recs)
    else if fetched.None? then ([Connecting, Fetching, ScanFailed], recs)
    else
      var head := [Connecting, Fetching, FoundEmailsEvent(|fetched.value|)];
      if fetched.value == [] then (head + [NoEmails], recs)
      else
        var a := Analysis(recs, userId, select(fetched.value), |fetched.value|, parse, status, fails, recordFails);
        (head + a.0, a.1)
  }

  const NoEmails: Event := Complete(NoSubscriptionEmails, None, 0, None)

  /**
   * The stream after the fetched messages were counted: filtering, parsing
   * the candidates `cands` and the closing event, `scanned` being the number
   * of messages fetched. After a run over candidates the scan log is
   * written; when that write throws, the handler's catch sends an error
   * after the closing event.
   */
  function Analysis(recs: seq<Record>, userId: string, cands: seq<FilteredEmail>, scanned: nat, parse: Parse,
                    status: string, fails: Failures, recordFails: bool): (r: (seq<Event>, seq<Record>))
  {
    var mid := [Filtering, AnalyzingEvent(|cands|)];
    if cands == [] then (mid + [NoCandidatesEvent(scanned)], recs)
    else
      var run := Run(recs, HandlerFor(userId, parse, status), cands, fails);
      (mid + EventsFor(run.0, |cands|, ProgressStart, ProgressEnd) + [DoneEvent(Reported(run.0), scanned)]
         + RecordFailure(recordFails), run.1)
  }

  /** The error event the catch sends when the scan-log write throws. */
  function RecordFailure(recordFails: bool): seq<Event> {
    if recordFails then [ScanFailed] else []
  }

  /** The stream reaches the scan-log write: a token, a non-empty mailbox and candidates to parse. */
  predicate ReachesRecord(token: Option<string>, fetched: Option<seq<Email>>, select: Selector) {
    token.Some? && token.value != "" && fetched.Some? && fetched.value != [] && select(fetched.value) != []
  }

  /** Filtering, the cap of 25, parsing and the closing event. */
  method Analyze(store: SubscriptionStore, userId: string, emails: seq<Email>, rules: Rules, parse: Parse,
                 fails: Failures, recordFails: bool)
    returns (events: seq<Event>)
    requires store.Valid()
    modifies store
    ensures store.Valid()
    ensures (events, store.records)
      == Analysis(old(store.records), userId, Candidates(emails, rules), |emails|, parse, store.defaultStatus, fails,
                  recordFails)
  {
    events := [Filtering];
    var filtered := FilterSubscriptionEmails(emails, rules);
    if |filtered| > MaxEmailsToParse {
      filtered := filtered[..MaxEmailsToParse];
    }
    assert filtered == Candidates(emails, rules);
    events := events + [AnalyzingEvent(|filtered|)];
    if |filtered| == 0 {
      events := events + [NoCandidatesEvent(|emails|)];
      AnalysisSplit(store.records, userId, filtered, |emails|, parse, store.defaultStatus, fails, recordFails);
      return;
    }
    ghost var recs0 := store.records;
    var found, progress :=
      ProcessEmailBatch(store, filtered, userId, parse, fails, ProgressStart, ProgressEnd,
                        HandlerFor(userId, parse, store.defaultStatus));
    events := events + progress + [DoneEvent(found, |emails|)];
    if recordFails {
      events := events + [ScanFailed];
    }
    assert events == [Filtering] + [AnalyzingEvent(|filtered|)] + progress + [DoneEvent(found, |emails|)]
      + RecordFailure(recordFails);
    AnalysisSplit(recs0, userId, filtered, |emails|, parse, store.defaultStatus, fails, recordFails);
  }

  /** `Analysis` by cases: no candidates, or the run over them. */
  lemma AnalysisSplit(recs: seq<Record>, userId: string, cands: seq<FilteredEmail>, scanned: nat, parse: Parse,
                      status: string, fails: Failures, recordFails: bool)
    ensures cands == [] ==> (Analysis(recs, userId, cands, scanned, parse, status, fails, recordFails)
      == ([Filtering] + [AnalyzingEvent(0)] + [NoCandidatesEvent(scanned)], recs))
    ensures cands != [] ==> (var run := Run(recs, HandlerFor(userId, parse, status), cands, fails);
      Analysis(recs, userId, cands, scanned, parse, status, fails, recordFails)
        == ([Filtering] + [AnalyzingEvent(|cands|)] + EventsFor(run.0, |cands|, ProgressStart, ProgressEnd)
            + [DoneEvent(Reported(run.0), scanned)] + RecordFailure(recordFails), run.1))
  {
    assert [Filtering] + [AnalyzingEvent(|cands|)] == [Filtering, AnalyzingEvent(|cands|)];
  }

  /** The stream handler's body once the user is known. */
  method StreamScan(store: SubscriptionStore, userId: string, token: Option<string>, fetched: Option<seq<Email>>,
                    rules: Rules, ask: Ask, fails: Failures, recordFails: bool, ghost select: Selector)
    returns (events: seq<Event>)
    requires store.Valid()
    requires forall emails {:trigger Candidates(emails, rules)} :: select(emails) == Candidates(emails, rules)
    modifies store
    ensures store.Valid()
    ensures (events, store.records)
      == Scan(old(store.records), userId, token, fetched, select, ParseWith(ask), store.defaultStatus, fails,
              recordFails)
  {
    events := [Connecting];
    if token.None? || token.value == "" {
      events := events + [NoToken];
      assert events == [Connecting, NoToken];
      return;
    }
    events := events + [Fetching];
    if fetched.None? {
      events := events + [ScanFailed];
      assert events == [Connecting, Fetching, ScanFailed];
      return;
    }
    var emails := fetched.value;
    events := events + [FoundEmailsEvent(|emails|)];
    assert events == [Connecting, Fetching, FoundEmailsEvent(|emails|)];
    if |emails| == 0 {
      events := events + [NoEmails];
      return;
    }
    var rest := Analyze(store, userId, emails, rules, ParseWith(ask), fails, recordFails);
    events := events + rest;
  }

  // ---------------------------------------------------------------- properties of the stream

  /** A closing event: `complete` or `error`. */
  predicate Terminal(e: Event) {
    e.Complete? || e.Error?
  }

  lemma EventsNotTerminal(os: seq<Outcome>, t: nat, start: int, end: int)
    requires |os| <= t
    ensures forall e :: e in EventsFor(os, t, start, end) ==> !Terminal(e)
  {
    if os != [] {
      EventsNotTerminal(os[..|os| - 1], t, start, end);
    }
  }

  /**
   * Every stream starts with connecting and ends with a `complete` or
   * `error` event. No closing event comes earlier, except one: when the
   * stream reaches the scan-log write and that write throws, the `complete`
   * event is followed by an error.
   */
  lemma {:induction false} ScanEndsOnce(recs: seq<Record>, userId: string, token: Option<string>,
                                        fetched: Option<seq<Email>>, select: Selector, parse: Parse,
                                        status: string, fails: Failures, recordFails: bool)
    ensures var ev := Scan(recs, userId, token, fetched, select, parse, status, fails, recordFails).0;
      && |ev| >= 2 && ev[0] == Connecting && Terminal(ev[|ev| - 1])
      && (forall i :: 0 <= i < |ev| - 2 ==> !Terminal(ev[i]))
      && (Terminal(ev[|ev| - 2]) <==> recordFails && ReachesRecord(token, fetched, select))
      && (Terminal(ev[|ev| - 2]) ==> ev[|ev| - 2].Complete? && ev[|ev| - 1] == ScanFailed)
  {
    var ev := Scan(recs, userId, token, fetched, select, parse, status, fails, recordFails).0;
    if ReachesRecord(token, fetched, select) {
      var cands := select(fetched.value);
      var run := Run(recs, HandlerFor(userId, parse, status), cands, fails);
      var pe := EventsFor(run.0, |cands|, ProgressStart, ProgressEnd);
      var done := DoneEvent(Reported(run.0), |fetched.value|);
      var body := [Connecting, Fetching, FoundEmailsEvent(|fetched.value|), Filtering, AnalyzingEvent(|cands|)] + pe;
      EventsNotTerminal(run.0, |cands|, ProgressStart, ProgressEnd);
      assert ev == body + [done] + RecordFailure(recordFails);
      assert forall i :: 0 <= i < |body| ==> !Terminal(body[i]) by {
        forall i | 0 <= i < |body|
          ensures !Terminal(body[i])
        {
          if i >= 5 {
            assert body[i] == pe[i - 5] && pe[i - 5] in pe;
          }
        }
      }
    }
  }

  /** Every `complete` event in the stream reports as many subscriptions as the stream's subscription events. */
  lemma {:induction false} ScanCountMatches(recs: seq<Record>, userId: string, token: Option<string>,
                                            fetched: Option<seq<Email>>, select: Selector, parse: Parse,
                                            status: string, fails: Failures, recordFails: bool)
    ensures CompletesCounted(Scan(recs, userId, token, fetched, select, parse, status, fails, recordFails).0)
  {
    var ev := Scan(recs, userId, token, fetched, select, parse, status, fails, recordFails).0;
    ScanEndsOnce(recs, userId, token, fetched, select, parse, status, fails, recordFails);
    if token.Some? && token.value != "" && fetched.Some? && |fetched.value| > 0 {
      var head := [Connecting, Fetching, FoundEmailsEvent(|fetched.value|)];
      var cands := select(fetched.value);
      var a := Analysis(recs, userId, cands, |fetched.value|, parse, status, fails, recordFails).0;
      AnalysisCountMatches(recs, userId, cands, |fetched.value|, parse, status, fails, recordFails);
      assert ev == head + a;
      if recordFails && cands != [] {
        var a' := a[..|a| - 1];
        HeadThenClosed(head, a');
        assert head + a' == ev[..|ev| - 1];
        FailedAfterClosedCounts(ev);
      } else {
        HeadThenClosed(head, a);
        ClosedCounts(ev);
      }
    } else {
      NoFound(ev);
    }
  }

  /** A stream whose only closing event is its last, which counts its subscription events. */
  lemma ClosedCounts(ev: seq<Event>)
    requires ClosedByCount(ev) && |ev| >= 2
    requires forall i :: 0 <= i < |ev| - 2 ==> !Terminal(ev[i])
    requires !Terminal(ev[|ev| - 2])
    ensures CompletesCounted(ev)
  {
  }

  /** The same, followed by the error of a failed scan-log write. */
  lemma FailedAfterClosedCounts(ev: seq<Event>)
    requires |ev| >= 2 && ev[|ev| - 1] == ScanFailed && ClosedByCount(ev[..|ev| - 1])
    requires forall i :: 0 <= i < |ev| - 2 ==> !Terminal(ev[i])
    ensures CompletesCounted(ev)
  {
    assert ev == ev[..|ev| - 1] + [ScanFailed];
    FoundCountSnoc(ev[..|ev| - 1], ScanFailed);
  }

  /** Every `complete` event's count is the number of subscription events of the whole stream. */
  predicate CompletesCounted(ev: seq<Event>) {
    forall i :: 0 <= i < |ev| && ev[i].Complete? ==> ev[i].subscriptionsFound == FoundCount(ev)
  }

  /** Status events in front of a stream closed by its count leave it closed by its count. */
  lemma HeadThenClosed(head: seq<Event>, a: seq<Event>)
    requires forall i :: 0 <= i < |head| ==> !head[i].Found?
    requires ClosedByCount(a)
    ensures ClosedByCount(head + a)
  {
    NoFound(head);
    FoundCountAppend(head, a);
    assert (head + a)[|head + a| - 1] == a[|a| - 1];
  }

  /**
   * The analysis always sends its `complete` event, counting its
   * subscription events; it is the last event unless the scan-log write
   * throws, and then an error follows it.
   */
  lemma {:induction false} AnalysisCountMatches(recs: seq<Record>, userId: string, cands: seq<FilteredEmail>,
                                                scanned: nat, parse: Parse, status: string, fails: Failures,
                                                recordFails: bool)
    ensures var ev := Analysis(recs, userId, cands, scanned, parse, status, fails, recordFails).0;
      && (!(recordFails && cands != []) ==> ClosedByCount(ev))
      && (recordFails && cands != [] ==> ev != [] && ev[|ev| - 1] == ScanFailed && ClosedByCount(ev[..|ev| - 1]))
  {
    var mid := [Filtering, AnalyzingEvent(|cands|)];
    if cands != [] {
      var run := Run(recs, HandlerFor(userId, parse, status), cands, fails);
      var pe := EventsFor(run.0, |cands|, ProgressStart, ProgressEnd);
      var done := DoneEvent(Reported(run.0), scanned);
      EventsFoundCount(run.0, |cands|, ProgressStart, ProgressEnd);
      ClosingCount(mid, pe, done);
      if recordFails {
        var ev := mid + pe + [done] + [ScanFailed];
        assert ev[..|ev| - 1] == mid + pe + [done];
      } else {
        assert mid + pe + [done] + [] == mid + pe + [done];
      }
    } else {
      ClosingCount(mid, [], NoCandidatesEvent(scanned));
      assert mid + [] + [NoCandidatesEvent(scanned)] == mid + [NoCandidatesEvent(scanned)];
    }
  }

  /** The last event is `complete`, and its count is the number of subscription events. */
  predicate ClosedByCount(ev: seq<Event>) {
    ev != [] && ev[|ev| - 1].Complete? && ev[|ev| - 1].subscriptionsFound == FoundCount(ev)
  }

  /** Status events, the run's events and a closing event counting the run's subscriptions. */
  lemma ClosingCount(mid: seq<Event>, pe: seq<Event>, done: Event)
    requires forall i :: 0 <= i < |mid| ==> !mid[i].Found?
    requires done.Complete? && done.subscriptionsFound == FoundCount(pe)
    ensures ClosedByCount(mid + pe + [done])
  {
    NoFound(mid);
    FoundCountAppend(mid, pe);
    FoundCountSnoc(mid + pe, done);
  }

  /**
   * A scan whose selection parses at most 25 candidates (`CandidatesFew`)
   * stores at most 25 new records, all unconfirmed, and, with the
   * candidates handled in order, none a duplicate slug for the user
   * (concurrent same-slug candidates of one sub-batch can both be created).
   */
  lemma {:induction false} ScanStoresFew(recs: seq<Record>, userId: string, token: Option<string>,
                                         fetched: Option<seq<Email>>, select: Selector, parse: Parse,
                                         status: string, fails: Failures, recordFails: bool)
    requires SlugsDistinct(recs, userId)
    requires forall emails :: |select(emails)| <= MaxEmailsToParse
    ensures var after := Scan(recs, userId, token, fetched, select, parse, status, fails, recordFails).1;
      && recs <= after && |after| <= |recs| + MaxEmailsToParse
      && SlugsDistinct(after, userId)
      && forall k :: |recs| <= k < |after| ==> (after[k].userId == userId && !after[k].confirmed)
  {
    if token.Some? && token.value != "" && fetched.Some? && |fetched.value| > 0 {
      var cands := select(fetched.value);
      RunCreatesUnconfirmed(recs, userId, cands, parse, status, fails);
      RunKeepsSlugsDistinct(recs, userId, cands, parse, status, fails);
    }
  }
}
