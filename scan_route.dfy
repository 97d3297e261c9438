/**
 * The one-shot scan (`POST /api/scan`): filter the mailbox, parse at most
 * twenty candidates with the model or the mock parser, and create every
 * parse no active record of the user already has the slug of, unconfirmed.
 */
module ScanRoute {
  import opened Wrappers
  import opened Text
  import opened Filter
  import opened Parser
  import opened MockParser
  import opened Store

  const MaxEmailsToParse: nat := 20

  /** The environment variables the route reads; `None` when unset. */
  datatype Env = Env(useMockEmails: Option<string>, useMockAi: Option<string>, openAiKey: Option<string>)

  /** `USE_MOCK_EMAILS === 'true'`. */
  predicate UseMockEmails(env: Env) {
    env.useMockEmails == Some("true")
  }

  /** `USE_MOCK_AI === 'true' || !OPENAI_API_KEY`: an empty key counts as none. */
  predicate UseMockAi(env: Env) {
    env.useMockAi == Some("true") || env.openAiKey.None? || env.openAiKey.value == ""
  }

  /** A parser of `(subject, from, body)`. */
  type Parse = (string, string, string) -> Option<ParsedSubscription>

  /**
   * `parseFunc`: the mock parser, or the model parser with `ask` standing
   * for the model call; `extractDate` is the mock parser's date recognition.
   */
  function ParserFor(env: Env, ask: string -> AiResponse, extractDate: string -> Option<string>): (p: Parse)
    ensures UseMockAi(env) ==> forall s, f, b :: p(s, f, b) == MockParse(s, f, b, extractDate)
    ensures !UseMockAi(env) ==> forall s, f, b :: p(s, f, b) == ParseEmailWithAI(s, f, b, ask)
  {
    if UseMockAi(env) then (s: string, f: string, b: string) => MockParse(s, f, b, extractDate)
    else (s: string, f: string, b: string) => ParseEmailWithAI(s, f, b, ask)
  }

  /** `!accessToken`: no token, or an empty one. */
  predicate TokenMissing(token: Option<string>) {
    token.None? || token.value == ""
  }

  /** The duplicate query of this route: an active record of the user with the same slug. */
  function ActiveDuplicateQuery(userId: string, p: ParsedSubscription): Query {
    ActiveBySlug(userId, Slug(p.serviceName))
  }

  /** What one parse leads to: the record created, if any, the new store, and whether the store threw. */
  datatype Step = Step(created: Option<Record>, recs: seq<Record>, threw: bool)

  /**
   * One email with parse `p`; `fails` says the store throws when asked
   * about it. There is no zero-amount rule in this route.
   */
  function Handle(recs: seq<Record>, userId: string, p: Option<ParsedSubscription>, status: string, fails: bool)
    : (r: Step)
    ensures r.created.None? ==> r.recs == recs
    ensures r.created.Some? ==> r.recs == recs + [r.created.value] && !r.threw
    ensures r.threw ==> p.Some? && fails
    ensures r.created.Some? <==> p.Some? && !fails && FirstWhere(recs, ActiveDuplicateQuery(userId, p.value)).None?
    ensures r.created.Some? ==> r.created.value == NewRecord(recs, userId, p.value, NextOf(p.value), status)
  {
    if p.None? then Step(None, recs, false)
    else if fails then Step(None, recs, true)
    else if FirstWhere(recs, ActiveDuplicateQuery(userId, p.value)).Some? then Step(None, recs, false)
    else
      var rec := NewRecord(recs, userId, p.value, NextOf(p.value), status);
      Step(Some(rec), recs + [rec], false)
  }

  /** The records created so far, the store, and whether the store threw. */
  datatype Run = Run(created: seq<Record>, recs: seq<Record>, threw: bool)

  /** The loop over the first `k` candidates; once the store threw, nothing further happens. */
  function RunFor(recs: seq<Record>, userId: string, parse: Parse, todo: seq<FilteredEmail>, status: string,
                  fails: nat -> bool, k: nat): (r: Run)
    requires k <= |todo|
  {
    if k == 0 then Run([], recs, false)
    else
      var prev := RunFor(recs, userId, parse, todo, status, fails, k - 1);
      if prev.threw then prev
      else
        var e := todo[k - 1];
        var s := Handle(prev.recs, userId, parse(e.subject, e.from, e.body), status, fails(k - 1));
        Run(prev.created + (if s.created.Some? then [s.created.value] else []), s.recs, s.threw)
  }

  /** The scan record's fields the route writes; `None` where it writes nothing. */
  datatype ScanRecord = ScanRecord(status: string, emailsFound: Option<nat>, subsFound: Option<nat>)

  /** The answer of `POST` once the user is known. */
  datatype ScanResponse =
    | NoToken
    | ScanFailed
    | Scanned(emailsScanned: nat, subscriptionsFound: nat, confirmedCount: nat, pendingCount: nat,
              pendingReview: seq<Record>)

  function HttpStatus(r: ScanResponse): nat {
    match r
    case NoToken => 401
    case ScanFailed => 500
    case Scanned(_, _, _, _, _) => 200
  }

  /** The candidates the route parses: the filter's output, cut to twenty. */
  function ToParse(emails: seq<Email>, rules: Rules): (todo: seq<FilteredEmail>)
    ensures |todo| <= MaxEmailsToParse
  {
    Take(SortDesc(Collect(emails, rules)), MaxEmailsToParse)
  }

  /**
   * `POST`: `mockEmails` are the fixture messages, `fetched` the mailbox's
   * messages (`None` when fetching throws), `status` the schema's default
   * status of a new record. The result is the answer, the scan record and
   * the store.
   */
  function Post(recs: seq<Record>, userId: string, env: Env, token: Option<string>, mockEmails: seq<Email>,
                fetched: Option<seq<Email>>, rules: Rules, parse: Parse, status: string, fails: nat -> bool)
    : (r: (ScanResponse, ScanRecord, seq<Record>))
  {
    if !UseMockEmails(env) && TokenMissing(token) then (NoToken, ScanRecord("error", None, None), recs)
    else if !UseMockEmails(env) && fetched.None? then (ScanFailed, ScanRecord("scanning", None, None), recs)
    else
      var emails := if UseMockEmails(env) then mockEmails else fetched.value;
      var todo := ToParse(emails, rules);
      var run := RunFor(recs, userId, parse, todo, status, fails, |todo|);
      if run.threw then (ScanFailed, ScanRecord("scanning", None, None), run.recs)
      else
        var n := |run.created|;
        (Scanned(|emails|, n, 0, n, run.created), ScanRecord("completed", Some(|emails|), Some(n)), run.recs)
  }

  // ---------------------------------------------------------------- the handler

  /** One candidate: the parse, the lookup and the creation. */
  method HandleEmail(store: SubscriptionStore, userId: string, e: FilteredEmail, parse: Parse, fails: bool)
    returns (created: Option<Record>, threw: bool)
    requires store.Valid()
    modifies store
    ensures store.Valid()
    ensures Step(created, store.records, threw)
      == Handle(old(store.records), userId, parse(e.subject, e.from, e.body), store.defaultStatus, fails)
  {
    var parsed := parse(e.subject, e.from, e.body);
    if parsed.None? {
      return None, false;
    }
    if fails {
      return None, true;
    }
    var existing := store.FindFirst(ActiveDuplicateQuery(userId, parsed.value));
    if existing.Some? {
      return None, false;
    }
    var rec := store.Create(userId, parsed.value, NextOf(parsed.value));
    return Some(rec), false;
  }

  /** The loop over the candidates; it stops at the first throw. */
  method ParseAll(store: SubscriptionStore, userId: string, todo: seq<FilteredEmail>, parse: Parse,
                  fails: nat -> bool)
    returns (pending: seq<Record>, threw: bool)
    requires store.Valid()
    modifies store
    ensures store.Valid()
    ensures Run(pending, store.records, threw)
      == RunFor(old(store.records), userId, parse, todo, store.defaultStatus, fails, |todo|)
  {
    ghost var recs0 := store.records;
    pending, threw := [], false;
    var i := 0;
    while i < |todo| && !threw
      invariant 0 <= i <= |todo| && store.Valid()
      invariant Run(pending, store.records, threw) == RunFor(recs0, userId, parse, todo, store.defaultStatus, fails, i)
    {
      var rec;
      rec, threw := HandleEmail(store, userId, todo[i], parse, fails(i));
      if rec.Some? {
        pending := pending + [rec.value];
      }
      i := i + 1;
    }
    if threw {
      ThrewStays(recs0, userId, parse, todo, store.defaultStatus, fails, i, |todo|);
    }
  }

  /** Once the store threw, the later candidates change nothing. */
  lemma {:induction false} ThrewStays(recs: seq<Record>, userId: string, parse: Parse, todo: seq<FilteredEmail>,
                                      status: string, fails: nat -> bool, k: nat, m: nat)
    requires k <= m <= |todo|
    requires RunFor(recs, userId, parse, todo, status, fails, k).threw
    ensures RunFor(recs, userId, parse, todo, status, fails, m) == RunFor(recs, userId, parse, todo, status, fails, k)
    decreases m - k
  {
    if m > k {
      ThrewStays(recs, userId, parse, todo, status, fails, k, m - 1);
    }
  }

  /** `POST`, from the user's lookup on. */
  method PostScan(store: SubscriptionStore, userId: string, env: Env, token: Option<string>, mockEmails: seq<Email>,
                  fetched: Option<seq<Email>>, rules: Rules, parse: Parse, fails: nat -> bool)
    returns (r: ScanResponse, scan: ScanRecord)
    requires store.Valid()
    modifies store
    ensures store.Valid()
    ensures (r, scan, store.records)
      == Post(old(store.records), userId, env, token, mockEmails, fetched, rules, parse, store.defaultStatus, fails)
  {
    var emails: seq<Email>;
    if UseMockEmails(env) {
      emails := mockEmails;
    } else {
      if TokenMissing(token) {
        return NoToken, ScanRecord("error", None, None);
      }
      if fetched.None? {
        return ScanFailed, ScanRecord("scanning", None, None);
      }
      emails := fetched.value;
    }
    var filtered := FilterSubscriptionEmails(emails, rules);
    if |filtered| > MaxEmailsToParse {
      filtered := filtered[..MaxEmailsToParse];
    }
    var pending, threw := ParseAll(store, userId, filtered, parse, fails);
    if threw {
      return ScanFailed, ScanRecord("scanning", None, None);
    }
    r := Scanned(|emails|, |pending|, 0, |pending|, pending);
    scan := ScanRecord("completed", Some(|emails|), Some(|pending|));
  }

  // ---------------------------------------------------------------- properties

  /** At most `k` records after `k` candidates, each the user's, unconfirmed, appended in order. */
  lemma {:induction false} RunAppends(recs: seq<Record>, userId: string, parse: Parse, todo: seq<FilteredEmail>,
                                      status: string, fails: nat -> bool, k: nat)
    requires k <= |todo|
    ensures var run := RunFor(recs, userId, parse, todo, status, fails, k);
      && run.recs == recs + run.created
      && |run.created| <= k
      && forall m :: 0 <= m < |run.created| ==>
           run.created[m].userId == userId && !run.created[m].confirmed && run.created[m].id == |recs| + m
  {
    if k > 0 {
      RunAppends(recs, userId, parse, todo, status, fails, k - 1);
      var prev := RunFor(recs, userId, parse, todo, status, fails, k - 1);
      if !prev.threw {
        var e := todo[k - 1];
        var s := Handle(prev.recs, userId, parse(e.subject, e.from, e.body), status, fails(k - 1));
        if s.created.Some? {
          assert recs + (prev.created + [s.created.value]) == (recs + prev.created) + [s.created.value];
        }
      }
    }
  }

  /** Record `m` is the user's, and no record before it is an active record of the user with its slug. */
  predicate NoActiveBefore(recs: seq<Record>, m: nat, userId: string)
    requires m < |recs|
  {
    && recs[m].userId == userId
    && forall i :: 0 <= i < m ==> !Matches(recs[i], ActiveBySlug(userId, recs[m].serviceSlug))
  }

  /** Every record the loop creates had no active record of the user with its slug before it. */
  lemma {:induction false} RunNoActiveDuplicate(recs: seq<Record>, userId: string, parse: Parse,
                                                todo: seq<FilteredEmail>, status: string, fails: nat -> bool, k: nat)
    requires k <= |todo|
    ensures var run := RunFor(recs, userId, parse, todo, status, fails, k);
      forall m :: |recs| <= m < |run.recs| ==> NoActiveBefore(run.recs, m, userId)
  {
    if k > 0 {
      RunNoActiveDuplicate(recs, userId, parse, todo, status, fails, k - 1);
      RunAppends(recs, userId, parse, todo, status, fails, k - 1);
      var prev := RunFor(recs, userId, parse, todo, status, fails, k - 1);
      if !prev.threw {
        var e := todo[k - 1];
        var p := parse(e.subject, e.from, e.body);
        var s := Handle(prev.recs, userId, p, status, fails(k - 1));
        assert RunFor(recs, userId, parse, todo, status, fails, k).recs == s.recs;
        if s.created.Some? {
          var run := s.recs;
          var rec := s.created.value;
          assert run == prev.recs + [rec] && |run| == |prev.recs| + 1;
          forall m | |recs| <= m < |run| ensures NoActiveBefore(run, m, userId) {
            if m < |prev.recs| {
              assert NoActiveBefore(prev.recs, m, userId);
              assert forall i :: 0 <= i <= m ==> run[i] == prev.recs[i];
            } else {
              assert run[m] == rec;
              assert rec.serviceSlug == Slug(p.value.serviceName) && rec.userId == userId;
              assert FirstWhere(prev.recs, ActiveDuplicateQuery(userId, p.value)).None?;
              forall i | 0 <= i < m ensures !Matches(run[i], ActiveBySlug(userId, rec.serviceSlug)) {
                assert run[i] == prev.recs[i];
              }
            }
          }
        }
      }
    }
  }

  /**
   * A missing token (when the mailbox is real) marks the scan as an error
   * and answers 401 without touching the store; otherwise a completed scan
   * reports as found and as pending exactly the records it created, at most
   * one per parsed candidate and so at most twenty, none confirmed.
   */
  lemma PostCounts(recs: seq<Record>, userId: string, env: Env, token: Option<string>, mockEmails: seq<Email>,
                   fetched: Option<seq<Email>>, rules: Rules, parse: Parse, status: string,
                   fails: nat -> bool)
    ensures var (r, scan, after) := Post(recs, userId, env, token, mockEmails, fetched, rules, parse, status, fails);
      && (r.NoToken? <==> !UseMockEmails(env) && TokenMissing(token))
      && (r.NoToken? ==> scan.status == "error" && after == recs && HttpStatus(r) == 401)
      && (r.Scanned? ==> (
            && r.emailsScanned == |if UseMockEmails(env) then mockEmails else fetched.value|
            && r.subscriptionsFound == r.pendingCount == |r.pendingReview| <= MaxEmailsToParse
            && r.confirmedCount == 0
            && scan == ScanRecord("completed", Some(r.emailsScanned), Some(r.subscriptionsFound))
            && after == recs + r.pendingReview
            && forall m :: 0 <= m < |r.pendingReview| ==>
                 r.pendingReview[m].userId == userId && !r.pendingReview[m].confirmed))
  {
    if UseMockEmails(env) || (!TokenMissing(token) && fetched.Some?) {
      var emails := if UseMockEmails(env) then mockEmails else fetched.value;
      var todo := ToParse(emails, rules);
      RunAppends(recs, userId, parse, todo, status, fails, |todo|);
    }
  }

  /**
   * A scan creates no record while an active record of the user with the
   * same slug exists, whether that record was there before or was created
   * earlier in the same scan.
   */
  lemma PostNoActiveDuplicate(recs: seq<Record>, userId: string, env: Env, token: Option<string>,
                              mockEmails: seq<Email>, fetched: Option<seq<Email>>, rules: Rules, parse: Parse,
                              status: string, fails: nat -> bool)
    ensures var after := Post(recs, userId, env, token, mockEmails, fetched, rules, parse, status, fails).2;
      && recs <= after
      && forall m :: |recs| <= m < |after| ==> NoActiveBefore(after, m, userId)
  {
    if UseMockEmails(env) || (!TokenMissing(token) && fetched.Some?) {
      var emails := if UseMockEmails(env) then mockEmails else fetched.value;
      var todo := ToParse(emails, rules);
      RunAppends(recs, userId, parse, todo, status, fails, |todo|);
      RunNoActiveDuplicate(recs, userId, parse, todo, status, fails, |todo|);
    }
  }

  /**
   * Only an active record blocks: a parse whose slug only inactive records
   * have is created, and so is one whose amount is zero, trial or not.
   */
  lemma OnlyActiveBlocks(recs: seq<Record>, userId: string, p: ParsedSubscription, status: string)
    requires forall k :: (0 <= k < |recs| && recs[k].userId == userId && recs[k].serviceSlug == Slug(p.serviceName)
      ==> recs[k].status != "active")
    ensures var s := Handle(recs, userId, Some(p), status, false);
      s.created.Some? && s.created.value.amount == p.amount && !s.created.value.confirmed
  {
  }

  /** With the mock parser in use, an email the mock table does not recognise creates nothing. */
  lemma MockUnrecognisedCreatesNothing(recs: seq<Record>, userId: string, env: Env, ask: string -> AiResponse,
                                       extractDate: string -> Option<string>, e: FilteredEmail, status: string,
                                       fails: bool)
    requires UseMockAi(env)
    requires MockLookup(MockContent(e.subject, e.from, e.body), 0).None?
    ensures Handle(recs, userId, ParserFor(env, ask, extractDate)(e.subject, e.from, e.body), status, fails)
      == Step(None, recs, false)
  {
  }
}
