/**
 * The candidate filter: which messages of a mailbox look like subscription
 * billing, how confident that guess is, and which service they name.
 *
 * Confidence is kept in integer hundredths: a keyword adds 10, a known
 * service 30, a name read from the subject 25, a name read from the sender
 * domain 15, an amount 20, and the total is capped at 100.
 */
module Filter {
  import opened Wrappers
  import opened Text
  import opened Amounts

  /** A message as the mailbox adapter hands it over. */
  datatype Email = Email(id: string, subject: string, from: string, date: string, body: string)

  /** A message that passed the filter, with the signals it showed. */
  datatype FilteredEmail = FilteredEmail(
    id: string, subject: string, from: string, date: string, body: string,
    matchedKeywords: seq<string>, confidence: nat, extractedServiceName: Option<string>)

  /**
   * The five service-name regular expressions tried on `subject + " " + from`,
   * in their fixed order. `dyn(k, text)` is the text the `k`-th of them
   * captures as the service name, or `None` when it does not match.
   */
  type DynamicMatcher = (nat, string) -> Option<string>

  /**
   * What the filter consults: the known-service table, the subscription
   * keywords, the exclusion texts and the service-name patterns. The tables
   * the filter is configured with are `ServicePatterns`,
   * `SubscriptionKeywords` and `ExclusionKeywords` below (see `Configured`);
   * every property of the filter holds whatever the tables hold.
   */
  datatype Rules = Rules(services: seq<(string, seq<string>)>, keywords: seq<string>, exclusions: seq<string>,
                         names: DynamicMatcher)

  /** The filter as configured, with the given service-name patterns. */
  function Configured(names: DynamicMatcher): (r: Rules)
    ensures r.names == names
  {
    Rules(ServicePatterns, SubscriptionKeywords, ExclusionKeywords, names)
  }

  const DynamicPatternCount: nat := 5

  // -------------------------------------------------------------- tables

  /** Known services, each with the texts that identify it, in table order. */
  const ServicePatterns: seq<(string, seq<string>)> := [
    ("netflix", ["netflix", "nflx"]),
    ("spotify", ["spotify"]),
    ("youtube", ["youtube premium", "youtube music", "youtube tv"]),
    ("apple", ["apple music", "icloud", "apple tv+", "apple one", "apple.com/bill"]),
    ("disney", ["disney+", "disney plus"]),
    ("hbo", ["hbo max", "max.com"]),
    ("hulu", ["hulu"]),
    ("amazon", ["amazon prime", "prime video", "prime membership", "audible", "kindle unlimited"]),
    ("github", ["github"]),
    ("namecheap", ["namecheap"]),
    ("godaddy", ["godaddy"]),
    ("cloudflare", ["cloudflare"]),
    ("digitalocean", ["digitalocean"]),
    ("heroku", ["heroku"]),
    ("vercel", ["vercel"]),
    ("netlify", ["netlify"]),
    ("mongodb", ["mongodb", "atlas"]),
    ("aws", ["amazon web services", "aws.amazon"]),
    ("openai", ["openai", "chatgpt"]),
    ("suno", ["suno", "suno.ai", "suno.com"]),
    ("midjourney", ["midjourney"]),
    ("runway", ["runway", "runwayml"]),
    ("elevenlabs", ["elevenlabs", "eleven labs"]),
    ("anthropic", ["anthropic", "claude"]),
    ("adobe", ["adobe", "creative cloud"]),
    ("figma", ["figma"]),
    ("canva", ["canva"]),
    ("notion", ["notion"]),
    ("slack", ["slack"]),
    ("zoom", ["zoom"]),
    ("microsoft", ["microsoft 365", "office 365", "onedrive", "xbox game pass"]),
    ("google", ["google one", "google workspace", "google play", "your google play order",
                "google play receipt", "payments-noreply@google", "googleplay-noreply@google"]),
    ("dropbox", ["dropbox"]),
    ("evernote", ["evernote"]),
    ("todoist", ["todoist"]),
    ("calendly", ["calendly"]),
    ("linkedin", ["linkedin premium"]),
    ("twitter", ["twitter", "x premium", "twitter blue"]),
    ("discord", ["discord nitro"]),
    ("telegram", ["telegram premium"]),
    ("stripe", ["stripe"]),
    ("paypal", ["paypal"]),
    ("quickbooks", ["quickbooks", "intuit"]),
    ("freshbooks", ["freshbooks"]),
    ("esusu", ["esusu"]),
    ("gym", ["gym", "fitness", "planet fitness", "24 hour fitness", "anytime fitness"]),
    ("peloton", ["peloton"]),
    ("headspace", ["headspace"]),
    ("calm", ["calm"]),
    ("luminishealth", ["luminis", "luminis health"]),
    ("nordvpn", ["nordvpn"]),
    ("expressvpn", ["expressvpn"]),
    ("lastpass", ["lastpass"]),
    ("onepassword", ["1password"]),
    ("medium", ["medium"]),
    ("substack", ["substack"]),
    ("coursera", ["coursera"]),
    ("udemy", ["udemy"]),
    ("skillshare", ["skillshare"]),
    ("masterclass", ["masterclass"]),
    ("xfinity", ["xfinity", "comcast"]),
    ("att", ["at&t", "att.com"]),
    ("verizon", ["verizon"]),
    ("tmobile", ["t-mobile", "tmobile"])
  ]

  const SubscriptionKeywords: seq<string> := [
    "subscription", "recurring", "renewal", "billing", "invoice", "receipt", "payment",
    "charged", "charge", "monthly", "yearly", "annual", "membership", "premium", "plan",
    "auto-renew", "next billing", "your order", "order confirmation", "payment received",
    "payment successful", "thank you for your purchase", "thank you for your order",
    "renews on", "will be charged", "credit card", "debit card", "transaction", "pro plan",
    "plus plan", "starter plan", "business plan", "your account", "confirmation",
    "statement", "trial", "free trial", "started", "signed up", "activated", "welcome to",
    "thanks for subscribing", "total", "amount", "price"
  ]

  /** Texts that mark shipping, alerts, newsletters and bank statements. */
  const ExclusionKeywords: seq<string> := [
    "shipped", "shipping", "tracking number", "track your package", "out for delivery",
    "arriving", "delivered", "shipment", "verification code", "password reset",
    "login alert", "security alert", "refund issued", "refund processed", "refund sent",
    "return started", "return label", "return processed", "job alert",
    "job recommendation", "new position", "opportunities", "apply now", "linkedin",
    "daily digest", "weekly digest", "monthly digest", "new post", "published",
    "read online", "view in browser", "story from", "account statement",
    "bank statement", "available balance", "checking account", "savings account"
  ]

  const StrongKeywords: seq<string> := [
    "subscription", "recurring", "renewal", "membership", "plan", "billing", "trial",
    "order receipt", "your transaction"
  ]

  const MediumKeywords: seq<string> := ["receipt", "invoice", "order", "payment", "transaction"]

  const PaymentProviders: seq<string> := ["apple", "google", "paypal", "stripe", "amazon", "prime", "klarna"]

  /** Captures that are only a common word and name no service. */
  const StopWords: seq<string> := ["your", "our", "the", "a", "an", "of", "for"]

  /** Webmail domains that say nothing about the sender's service. */
  const GenericDomains: seq<string> := ["gmail", "yahoo", "outlook", "hotmail", "mail", "email"]

  const DomainSuffixes: seq<string> := ["com", "io", "ai", "co", "org", "net", "dev", "app"]

  /** The amount patterns, in their order: currency prefixes, then "dollar(s)" and per-month suffixes. */
  const FilterAmountPatterns: seq<AmountPattern> := [
    Prefixed("$", false, false), Prefixed("usd", true, false),
    Prefixed("₦", false, false), Prefixed("ngn", true, false), Prefixed("naira", true, false),
    Prefixed("€", false, false), Prefixed("eur", true, false),
    Prefixed("£", false, false), Prefixed("gbp", true, false),
    Suffixed(["dollar"]),
    Suffixed(["per month", "/month", "/mo"])
  ]

  // ------------------------------------------------------------- signals

  /** The text every test runs on: subject, sender and body, lower-cased. */
  function ContentOf(e: Email): string {
    Lower(e.subject + " " + e.from + " " + e.body)
  }

  /** One exclusion text, or both "monthly statement" and "account balance", rules a message out. */
  predicate Excluded(content: string, exclusions: seq<string>) {
    (exists k :: 0 <= k < |exclusions| && Contains(content, exclusions[k]))
    || (Contains(content, "monthly statement") && Contains(content, "account balance"))
  }

  /** The keywords of `kws` that occur in `content`, in table order. */
  function KeywordHits(content: string, kws: seq<string>): (r: seq<string>)
    ensures |r| <= |kws|
    decreases |kws|
  {
    if kws == [] then []
    else
      var last := kws[|kws| - 1];
      KeywordHits(content, kws[..|kws| - 1]) + (if Contains(content, last) then [last] else [])
  }

  /** The hits are exactly the table keywords that occur. */
  lemma {:induction false} KeywordHitsMembers(content: string, kws: seq<string>, w: string)
    ensures w in KeywordHits(content, kws) <==> w in kws && Contains(content, w)
    decreases |kws|
  {
    if kws != [] {
      var init := kws[..|kws| - 1];
      KeywordHitsMembers(content, init, w);
      assert kws == init + [kws[|kws| - 1]];
    }
  }

  /** Some text of `pats` occurs in `content`. */
  predicate AnyPattern(content: string, pats: seq<string>) {
    exists p :: p in pats && Contains(content, p)
  }

  /** The first entry, at or after `k`, of a service table whose texts occur in `content`. */
  function FirstService(content: string, table: seq<(string, seq<string>)>, k: nat): (r: Option<nat>)
    requires k <= |table|
    ensures r.Some? ==> k <= r.value < |table| && AnyPattern(content, table[r.value].1)
    ensures forall j :: k <= j < |table| && (r.None? || j < r.value) ==> !AnyPattern(content, table[j].1)
    decreases |table| - k
  {
    if k == |table| then None
    else if AnyPattern(content, table[k].1) then Some(k)
    else FirstService(content, table, k + 1)
  }

  /** Some amount pattern matches. */
  predicate HasAmount(content: string) {
    exists p :: p in FilterAmountPatterns && Matches(content, p)
  }

  /** The `from` field names a payment provider or store. */
  predicate IsPaymentProvider(from: string) {
    exists w :: w in PaymentProviders && Contains(Lower(from), w)
  }

  // --------------------------------------------------------- service name

  /** A capture trimmed, with inner whitespace runs made single spaces. */
  function CleanCapture(cap: string): string {
    CollapseSpaces(Trim(cap))
  }

  /** Pattern `j` captures a non-empty text whose cleaned form is not a common word. */
  predicate Acceptable(text: string, dyn: DynamicMatcher, j: nat) {
    dyn(j, text).Some? && dyn(j, text).value != [] && Lower(CleanCapture(dyn(j, text).value)) !in StopWords
  }

  /** The first pattern at or after `k` whose capture is acceptable, `DynamicPatternCount` when there is none. */
  function FirstAcceptable(text: string, dyn: DynamicMatcher, k: nat): (j: nat)
    ensures k <= j && (j <= DynamicPatternCount || j == k)
    ensures j < DynamicPatternCount ==> Acceptable(text, dyn, j)
    ensures forall i :: k <= i < j && i < DynamicPatternCount ==> !Acceptable(text, dyn, i)
    decreases DynamicPatternCount - k
  {
    if k >= DynamicPatternCount || Acceptable(text, dyn, k) then k else FirstAcceptable(text, dyn, k + 1)
  }

  /**
   * The name read by the `k`-th and later service-name patterns: the first
   * non-empty capture whose cleaned text is not a common word, title-cased.
   */
  function DynamicFrom(text: string, dyn: DynamicMatcher, k: nat): (r: Option<string>)
    ensures r.Some? ==> Lower(r.value) !in StopWords
    ensures var j := FirstAcceptable(text, dyn, k);
      r == if j < DynamicPatternCount then Some(TitleCase(CleanCapture(dyn(j, text).value))) else None
    decreases DynamicPatternCount - k
  {
    if k >= DynamicPatternCount then None
    else if Acceptable(text, dyn, k) then
      var name := CleanCapture(dyn(k, text).value);
      LowerTitleCase(name);
      Some(TitleCase(name))
    else DynamicFrom(text, dyn, k + 1)
  }

  /** `extractDynamicServiceName(subject, from)`. */
  function DynamicServiceName(subject: string, from: string, dyn: DynamicMatcher): Option<string> {
    DynamicFrom(subject + " " + from, dyn, 0)
  }

  /** `[a-z0-9-]`, case-insensitively. */
  predicate IsDomainChar(c: char) {
    IsAsciiLetter(c) || IsDigit(c) || c == '-'
  }

  function DomainLabelEnd(s: string, j: nat): (k: nat)
    requires j <= |s|
    ensures j <= k <= |s|
    ensures forall m :: j <= m < k ==> IsDomainChar(s[m])
    ensures k == |s| || !IsDomainChar(s[k])
    decreases |s| - j
  {
    if j < |s| && IsDomainChar(s[j]) then DomainLabelEnd(s, j + 1) else j
  }

  /**
   * `@([a-z0-9-]+)\.(com|io|ai|co|org|net|dev|app)` (any case) matches at
   * `i` with its label ending at `e`.
   */
  predicate DomainMatchEnds(s: string, i: nat, e: nat) {
    i + 1 < e < |s| && s[i] == '@' && (forall m :: i < m < e ==> IsDomainChar(s[m]))
    && s[e] == '.' && exists t :: t in DomainSuffixes && LitAt(s, t, e + 1)
  }

  /**
   * The label that `@([a-z0-9-]+)\.(com|io|ai|co|org|net|dev|app)` captures
   * when it matches at `i`. The label run is taken whole: a shorter one
   * would be followed by a label character where the dot is needed.
   */
  function DomainLabelAt(s: string, i: nat): (r: Option<string>)
    ensures r.Some? ==> |r.value| > 0 && forall m :: 0 <= m < |r.value| ==> IsDomainChar(r.value[m])
  {
    if i < |s| && s[i] == '@' then
      var e := DomainLabelEnd(s, i + 1);
      if e > i + 1 && e < |s| && s[e] == '.' && exists t :: t in DomainSuffixes && LitAt(s, t, e + 1)
      then Some(s[i + 1..e]) else None
    else None
  }

  /**
   * The leftmost match of the sender-domain pattern at or after `i`: the
   * label of the first `@` that the pattern matches at, none when it
   * matches nowhere.
   */
  function FirstDomainLabel(s: string, i: nat): (r: Option<string>)
    ensures r.Some? ==> |r.value| > 0 && forall m :: 0 <= m < |r.value| ==> IsDomainChar(r.value[m])
    decreases |s| - i
  {
    if i >= |s| then None
    else if DomainLabelAt(s, i).Some? then DomainLabelAt(s, i)
    else FirstDomainLabel(s, i + 1)
  }

  /**
   * The pattern matches at `i` exactly when there is a label end for it,
   * and the capture is then the label before that end.
   */
  lemma DomainLabelAtMatch(s: string, i: nat)
    ensures DomainLabelAt(s, i).Some? <==> exists e: nat :: DomainMatchEnds(s, i, e)
    ensures forall e: nat :: DomainMatchEnds(s, i, e) ==> DomainLabelAt(s, i) == Some(s[i + 1..e])
  {
    if i < |s| && s[i] == '@' {
      var e := DomainLabelEnd(s, i + 1);
      forall e': nat | DomainMatchEnds(s, i, e') ensures e' == e {
        assert !IsDomainChar(s[e']);
      }
      if DomainLabelAt(s, i).Some? {
        assert DomainMatchEnds(s, i, e);
      }
    }
  }

  /**
   * The sender-domain pattern is searched left to right: the label comes
   * from the first `@` it matches at, and there is none exactly when it
   * matches nowhere at or after `i`.
   */
  lemma {:induction false} FirstDomainLabelLeftmost(s: string, i: nat)
    ensures FirstDomainLabel(s, i).None? <==> forall j: nat, e: nat :: i <= j ==> !DomainMatchEnds(s, j, e)
    ensures FirstDomainLabel(s, i).Some? ==> exists j: nat, e: nat :: (i <= j && DomainMatchEnds(s, j, e)
      && FirstDomainLabel(s, i).value == s[j + 1..e]
      && (forall m: nat, e': nat :: i <= m < j ==> !DomainMatchEnds(s, m, e')))
    decreases |s| - i
  {
    DomainLabelAtMatch(s, i);
    if i >= |s| {
      forall j: nat, e: nat | i <= j ensures !DomainMatchEnds(s, j, e) {
      }
    } else if DomainLabelAt(s, i).Some? {
      var e: nat :| DomainMatchEnds(s, i, e);
      assert FirstDomainLabel(s, i).value == s[i + 1..e];
    } else {
      FirstDomainLabelLeftmost(s, i + 1);
      assert FirstDomainLabel(s, i) == FirstDomainLabel(s, i + 1);
      if FirstDomainLabel(s, i).Some? {
        var j: nat, e: nat :| i + 1 <= j && DomainMatchEnds(s, j, e)
          && FirstDomainLabel(s, i + 1).value == s[j + 1..e]
          && (forall m: nat, e': nat :: i + 1 <= m < j ==> !DomainMatchEnds(s, m, e'));
        assert forall m: nat, e': nat :: i <= m < j ==> !DomainMatchEnds(s, m, e');
      }
    }
  }

  /** `label.replace(/-/g, ' ')`. */
  function HyphensToSpaces(s: string): (r: string)
    ensures |r| == |s|
    ensures forall m :: 0 <= m < |s| ==> r[m] == (if s[m] == '-' then ' ' else s[m])
  {
    seq(|s|, m requires 0 <= m < |s| => if s[m] == '-' then ' ' else s[m])
  }

  /**
   * `extractDomainFromSender(from)`: the sender's domain label with its
   * hyphens made spaces, a capital first and the rest in lower case; none
   * when there is no label or it names a generic mail provider.
   */
  function DomainFromSender(from: string): (r: Option<string>)
    ensures r.Some? ==> |r.value| > 0 && Lower(r.value) !in GenericDomains
    ensures r.Some? ==> forall m :: 0 <= m < |r.value| ==> r.value[m] != '-'
    ensures r.None? <==> (FirstDomainLabel(from, 0).None?
      || Lower(HyphensToSpaces(FirstDomainLabel(from, 0).value)) in GenericDomains)
    ensures r.Some? ==> (|r.value| == |FirstDomainLabel(from, 0).value|
      && r.value[0] == UpperChar(HyphensToSpaces(FirstDomainLabel(from, 0).value)[0])
      && forall m :: 0 < m < |r.value| ==>
        r.value[m] == LowerChar(if FirstDomainLabel(from, 0).value[m] == '-' then ' ' else FirstDomainLabel(from, 0).value[m]))
  {
    match FirstDomainLabel(from, 0)
    case None => None
    case Some(host) =>
      var d := HyphensToSpaces(host);
      if Lower(d) in GenericDomains then None
      else
        LowerCapitalizeWord(d);
        Some(CapitalizeWord(d))
  }

  lemma LowerCapitalizeWord(w: string)
    requires w != []
    ensures |CapitalizeWord(w)| == |w| && Lower(CapitalizeWord(w)) == Lower(w)
    ensures forall m :: 0 <= m < |w| && w[m] != '-' ==> CapitalizeWord(w)[m] != '-'
  {
    CapitalizeWordChars(w);
    var c := CapitalizeWord(w);
    forall m | 0 <= m < |w| ensures Lower(c)[m] == Lower(w)[m] {
      assert LowerChar(UpperChar(w[m])) == LowerChar(w[m]);
      assert LowerChar(LowerChar(w[m])) == LowerChar(w[m]);
    }
  }

  /** Where the service name of a message came from. */
  datatype NameSignal = Known(key: string) | Dynamic(name: string) | Domain(name: string) | NoName

  /** The known service, else a non-empty name from the patterns, else a name from the sender domain. */
  function NameOf(e: Email, rules: Rules): (r: NameSignal)
    ensures r.Dynamic? ==> r.name != []
  {
    match FirstService(ContentOf(e), rules.services, 0)
    case Some(k) => Known(rules.services[k].0)
    case None =>
      var dynamic := DynamicServiceName(e.subject, e.from, rules.names);
      if dynamic.Some? && dynamic.value != [] then Dynamic(dynamic.value)
      else
        match DomainFromSender(e.from)
        case Some(d) => Domain(d)
        case None => NoName
  }

  /** The confidence, in hundredths, a name signal adds. */
  function NameBonus(n: NameSignal): nat {
    match n
    case Known(_) => 30
    case Dynamic(_) => 25
    case Domain(_) => 15
    case NoName => 0
  }

  /** The entries a name signal adds to the matched list. */
  function NameEntries(n: NameSignal): seq<string> {
    match n
    case Known(key) => [key]
    case Dynamic(d) => ["dynamic:" + d]
    case Domain(d) => ["domain:" + d]
    case NoName => []
  }

  /** The service name a name signal extracts. */
  function NameValue(n: NameSignal): Option<string> {
    match n
    case Known(key) => Some(Capitalize(key))
    case Dynamic(d) => Some(d)
    case Domain(d) => Some(d)
    case NoName => None
  }

  // ------------------------------------------------------------ decision

  /** `[...new Set(xs)]`: the first occurrence of each entry, in order. */
  function Dedup(xs: seq<string>): (r: seq<string>)
    ensures forall w :: w in r <==> w in xs
    ensures forall i, j :: 0 <= i < j < |r| ==> r[i] != r[j]
    decreases |xs|
  {
    if xs == [] then []
    else
      var prev := Dedup(xs[..|xs| - 1]);
      if xs[|xs| - 1] in prev then prev else prev + [xs[|xs| - 1]]
  }

  predicate AnyIn(xs: seq<string>, table: seq<string>) {
    exists w :: w in xs && w in table
  }

  /** The inclusion rule of the filter. */
  predicate Include(n: NameSignal, matched: seq<string>, amount: bool, provider: bool) {
    var strong := AnyIn(matched, StrongKeywords);
    var medium := AnyIn(matched, MediumKeywords);
    n.Known? || NameValue(n).Some? || strong || (provider && amount)
    || (provider && medium) || (medium && amount && |matched| >= 2)
  }

  /** The verdict on a message that is not excluded, from its signals. */
  function Verdict(e: Email, hits: seq<string>, n: NameSignal, amount: bool, provider: bool): (r: Option<FilteredEmail>) {
    var matched := hits + NameEntries(n);
    var conf := 10 * |hits| + NameBonus(n) + (if amount then 20 else 0);
    if Include(n, matched, amount, provider) then
      Some(FilteredEmail(e.id, e.subject, e.from, e.date, e.body, Dedup(matched), Cap(conf), NameValue(n)))
    else None
  }

  /** `Math.min(confidence, 1.0)`, in hundredths. */
  function Cap(c: nat): (r: nat)
    ensures r <= 100 && r <= c && (r == c || r == 100)
  {
    if c < 100 then c else 100
  }

  lemma ClassifyUnfold(e: Email, rules: Rules)
    requires !Excluded(ContentOf(e), rules.exclusions)
    ensures Classify(e, rules) == Verdict(e, KeywordHits(ContentOf(e), rules.keywords), NameOf(e, rules),
      HasAmount(ContentOf(e)), IsPaymentProvider(e.from))
  {
  }

  lemma VerdictIncluded(e: Email, hits: seq<string>, n: NameSignal, amount: bool, provider: bool)
    requires Include(n, hits + NameEntries(n), amount, provider)
    ensures Verdict(e, hits, n, amount, provider) == Some(FilteredEmail(e.id, e.subject, e.from, e.date,
      e.body, Dedup(hits + NameEntries(n)), Cap(10 * |hits| + NameBonus(n) + (if amount then 20 else 0)),
      NameValue(n)))
  {
  }

  /** The filter's verdict on one message. */
  function Classify(e: Email, rules: Rules): (r: Option<FilteredEmail>)
    ensures Excluded(ContentOf(e), rules.exclusions) ==> r.None?
    ensures !Excluded(ContentOf(e), rules.exclusions) && !NameOf(e, rules).NoName? ==> r.Some?
    ensures r.Some? ==>
      (r.value.id == e.id && r.value.subject == e.subject && r.value.from == e.from
       && r.value.date == e.date && r.value.body == e.body)
    ensures r.Some? ==> r.value.confidence <= 100
    ensures r.Some? ==> forall i, j :: 0 <= i < j < |r.value.matchedKeywords| ==>
      r.value.matchedKeywords[i] != r.value.matchedKeywords[j]
  {
    var content := ContentOf(e);
    if Excluded(content, rules.exclusions) then None
    else Verdict(e, KeywordHits(content, rules.keywords), NameOf(e, rules),
      HasAmount(content), IsPaymentProvider(e.from))
  }

  /** The present results of `f` over `xs`, in order. */
  function KeepSome<T, U>(xs: seq<T>, f: T -> Option<U>): (r: seq<U>)
    ensures |r| <= |xs|
    ensures forall u :: u in r ==> exists i :: 0 <= i < |xs| && f(xs[i]) == Some(u)
    ensures forall i :: 0 <= i < |xs| && f(xs[i]).Some? ==> f(xs[i]).value in r
    decreases |xs|
  {
    if xs == [] then []
    else
      var init := xs[..|xs| - 1];
      var last := f(xs[|xs| - 1]);
      assert forall i :: 0 <= i < |init| ==> init[i] == xs[i];
      KeepSome(init, f) + (if last.Some? then [last.value] else [])
  }

  /** `filterSubscriptionEmails` before sorting: the verdicts on the included messages, in input order. */
  function Collect(emails: seq<Email>, rules: Rules): seq<FilteredEmail> {
    KeepSome(emails, e => Classify(e, rules))
  }

  // ---------------------------------------------------------------- sort

  /** `s` with `x` placed after every entry of at least its confidence: one step of a stable sort. */
  function InsertDesc(s: seq<FilteredEmail>, x: FilteredEmail): (r: seq<FilteredEmail>)
    ensures |r| == |s| + 1
    decreases |s|
  {
    if s == [] || s[|s| - 1].confidence >= x.confidence then s + [x]
    else InsertDesc(s[..|s| - 1], x) + [s[|s| - 1]]
  }

  /** `xs.sort((a, b) => b.confidence - a.confidence)`, which is stable. */
  function SortDesc(xs: seq<FilteredEmail>): (r: seq<FilteredEmail>)
    ensures |r| == |xs|
    decreases |xs|
  {
    if xs == [] then [] else InsertDesc(SortDesc(xs[..|xs| - 1]), xs[|xs| - 1])
  }

  predicate SortedDesc(xs: seq<FilteredEmail>) {
    forall i, j :: 0 <= i < j < |xs| ==> xs[i].confidence >= xs[j].confidence
  }

  /** The entries of confidence `c`, in order. */
  function WithConfidence(xs: seq<FilteredEmail>, c: nat): seq<FilteredEmail>
    decreases |xs|
  {
    if xs == [] then []
    else WithConfidence(xs[..|xs| - 1], c) + (if xs[|xs| - 1].confidence == c then [xs[|xs| - 1]] else [])
  }

  lemma {:induction false} WithConfidenceAppend(a: seq<FilteredEmail>, b: seq<FilteredEmail>, c: nat)
    ensures WithConfidence(a + b, c) == WithConfidence(a, c) + WithConfidence(b, c)
    decreases |b|
  {
    if b != [] {
      var b' := b[..|b| - 1];
      assert (a + b)[..|a + b| - 1] == a + b';
      WithConfidenceAppend(a, b', c);
    } else {
      assert a + b == a;
    }
  }

  lemma {:induction false} InsertMultiset(s: seq<FilteredEmail>, x: FilteredEmail)
    ensures multiset(InsertDesc(s, x)) == multiset(s) + multiset{x}
    decreases |s|
  {
    if !(s == [] || s[|s| - 1].confidence >= x.confidence) {
      InsertMultiset(s[..|s| - 1], x);
      assert s == s[..|s| - 1] + [s[|s| - 1]];
    }
  }

  lemma {:induction false} InsertSorted(s: seq<FilteredEmail>, x: FilteredEmail)
    requires SortedDesc(s)
    ensures SortedDesc(InsertDesc(s, x))
    decreases |s|
  {
    if !(s == [] || s[|s| - 1].confidence >= x.confidence) {
      var init := s[..|s| - 1];
      var last := s[|s| - 1];
      InsertSorted(init, x);
      InsertMultiset(init, x);
      var t := InsertDesc(init, x);
      forall i | 0 <= i < |t| ensures t[i].confidence >= last.confidence {
        assert t[i] in multiset(t);
        if t[i] != x {
          assert t[i] in multiset(init);
          var k :| 0 <= k < |init| && init[k] == t[i];
          assert s[k] == init[k];
        }
      }
    }
  }

  lemma {:induction false} InsertStable(s: seq<FilteredEmail>, x: FilteredEmail, c: nat)
    requires SortedDesc(s)
    ensures WithConfidence(InsertDesc(s, x), c) == WithConfidence(s, c) + (if x.confidence == c then [x] else [])
    decreases |s|
  {
    if s == [] || s[|s| - 1].confidence >= x.confidence {
      WithConfidenceAppend(s, [x], c);
      assert [x][..0] == [];
    } else {
      var init := s[..|s| - 1];
      var last := s[|s| - 1];
      assert s == init + [last];
      InsertStable(init, x, c);
      WithConfidenceAppend(InsertDesc(init, x), [last], c);
      WithConfidenceAppend(init, [last], c);
      assert [last][..0] == [];
    }
  }

  /** The stable sort is sorted, a permutation, and keeps the input order among equal confidences. */
  lemma {:induction false} SortDescCorrect(xs: seq<FilteredEmail>)
    ensures SortedDesc(SortDesc(xs))
    ensures multiset(SortDesc(xs)) == multiset(xs)
    ensures forall c: nat :: WithConfidence(SortDesc(xs), c) == WithConfidence(xs, c)
    decreases |xs|
  {
    if xs != [] {
      var init := xs[..|xs| - 1];
      SortDescCorrect(init);
      InsertSorted(SortDesc(init), xs[|xs| - 1]);
      InsertMultiset(SortDesc(init), xs[|xs| - 1]);
      forall c: nat ensures WithConfidence(SortDesc(xs), c) == WithConfidence(xs, c) {
        InsertStable(SortDesc(init), xs[|xs| - 1], c);
      }
      assert xs == init + [xs[|xs| - 1]];
    }
  }

  /** The in-place sort of the filtered list: insertion sort, shifting only past lower confidences. */
  method SortByConfidence(a: array<FilteredEmail>)
    modifies a
    ensures a[..] == SortDesc(old(a[..]))
  {
    ghost var input := a[..];
    var i := 0;
    while i < a.Length
      invariant 0 <= i <= a.Length
      invariant a[..i] == SortDesc(input[..i])
      invariant a[i..] == input[i..]
    {
      InsertInto(a, i);
      assert input[..i + 1][..i] == input[..i];
      i := i + 1;
    }
    assert input[..a.Length] == input;
  }

  /** Moves `a[i]` back past the entries before it of lower confidence. */
  method InsertInto(a: array<FilteredEmail>, i: nat)
    requires i < a.Length
    modifies a
    ensures a[..i + 1] == InsertDesc(old(a[..i]), old(a[i]))
    ensures a[i + 1..] == old(a[i + 1..])
  {
    var x := a[i];
    ghost var s := a[..i];
    var j := MakeRoom(a, i);
    a[j] := x;
    InsertDescAt(s, x, j);
    var t := s[..j] + [x] + s[j..];
    forall k | 0 <= k <= i ensures a[k] == t[k] {
      if k < j {
        assert t[k] == s[k];
      } else if k > j {
        assert t[k] == s[k - 1];
      }
    }
    assert a[..i + 1] == t;
  }

  /**
   * The shifting loop of the insertion: the entries `a[j..i]` of lower
   * confidence than `a[i]` each move up one place, leaving room at `j`,
   * and the entry before `j`, if any, is not of lower confidence.
   */
  method MakeRoom(a: array<FilteredEmail>, i: nat) returns (j: nat)
    requires i < a.Length
    modifies a
    ensures j <= i
    ensures forall k :: 0 <= k < j ==> a[k] == old(a[k])
    ensures forall k :: j < k <= i ==> a[k] == old(a[k - 1])
    ensures forall k :: i < k < a.Length ==> a[k] == old(a[k])
    ensures forall k :: j <= k < i ==> old(a[k]).confidence < old(a[i]).confidence
    ensures j == 0 || old(a[j - 1]).confidence >= old(a[i]).confidence
  {
    var x := a[i];
    j := i;
    while j > 0 && a[j - 1].confidence < x.confidence
      invariant 0 <= j <= i
      invariant forall k :: 0 <= k < j ==> a[k] == old(a[k])
      invariant forall k :: j < k <= i ==> a[k] == old(a[k - 1])
      invariant forall k :: i < k < a.Length ==> a[k] == old(a[k])
      invariant forall k :: j <= k < i ==> old(a[k]).confidence < x.confidence
    {
      a[j] := a[j - 1];
      j := j - 1;
    }
  }

  /** Inserting after the last entry not of lower confidence puts the new entry at `j`. */
  lemma {:induction false} InsertDescAt(s: seq<FilteredEmail>, x: FilteredEmail, j: nat)
    requires j <= |s|
    requires forall k :: j <= k < |s| ==> s[k].confidence < x.confidence
    requires j == 0 || s[j - 1].confidence >= x.confidence
    ensures InsertDesc(s, x) == s[..j] + [x] + s[j..]
    decreases |s|
  {
    if j < |s| {
      var n := |s| - 1;
      InsertDescAt(s[..n], x, j);
      assert s[..n][..j] == s[..j];
      assert s[j..] == s[..n][j..] + [s[n]];
    } else {
      assert s[..j] == s;
    }
  }

  /** The per-message body of `filterSubscriptionEmails`, with its accumulating loops. */
  method ClassifyEmail(e: Email, rules: Rules) returns (r: Option<FilteredEmail>)
    ensures r == Classify(e, rules)
  {
    var content := ContentOf(e);
    if Excluded(content, rules.exclusions) {
      return None;
    }
    var matched, confidence := ScanKeywords(content, rules.keywords);
    var known, entries, extracted, bonus := ExtractName(e, rules);
    var hasAmount := ScanAmounts(content);
    ClassifyUnfold(e, rules);
    r := Decide(e, matched, NameOf(e, rules), matched + entries, confidence + bonus, known, extracted, hasAmount);
  }

  /** The confidence cap and the inclusion rule, applied to the collected signals. */
  method Decide(e: Email, ghost hits: seq<string>, ghost n: NameSignal, matched: seq<string>, confidence: nat,
                known: bool, extracted: Option<string>, hasAmount: bool)
    returns (r: Option<FilteredEmail>)
    requires known == n.Known? && extracted == NameValue(n)
    requires matched == hits + NameEntries(n) && confidence == 10 * |hits| + NameBonus(n)
    ensures r == Verdict(e, hits, n, hasAmount, IsPaymentProvider(e.from))
  {
    var conf := confidence;
    if hasAmount {
      conf := conf + 20;
    }
    var isPaymentProvider := IsPaymentProvider(e.from);
    var shouldInclude := ShouldInclude(n, matched, known, extracted, hasAmount, isPaymentProvider);
    if shouldInclude {
      r := Some(FilteredEmail(e.id, e.subject, e.from, e.date, e.body, Dedup(matched), Cap(conf), extracted));
      VerdictIncluded(e, hits, n, hasAmount, isPaymentProvider);
    } else {
      r := None;
    }
  }

  /** The inclusion test of the filter, on the flags the loop collected. */
  method ShouldInclude(ghost n: NameSignal, matched: seq<string>, known: bool, extracted: Option<string>,
                       hasAmount: bool, isPaymentProvider: bool)
    returns (b: bool)
    requires known == n.Known? && extracted == NameValue(n)
    ensures b == Include(n, matched, hasAmount, isPaymentProvider)
  {
    var hasStrongKeyword := AnyIn(matched, StrongKeywords);
    var hasMediumKeyword := AnyIn(matched, MediumKeywords);
    b := known || extracted.Some? || hasStrongKeyword
      || (isPaymentProvider && hasAmount) || (isPaymentProvider && hasMediumKeyword)
      || (hasMediumKeyword && hasAmount && |matched| >= 2);
  }

  /** The keyword loop: each keyword of `kws` present is recorded and adds 10. */
  method ScanKeywords(content: string, kws: seq<string>) returns (matched: seq<string>, confidence: nat)
    ensures matched == KeywordHits(content, kws)
    ensures confidence == 10 * |matched|
  {
    matched, confidence := [], 0;
    var i := 0;
    while i < |kws|
      invariant 0 <= i <= |kws|
      invariant matched == KeywordHits(content, kws[..i])
      invariant confidence == 10 * |matched|
    {
      assert kws[..i + 1][..i] == kws[..i];
      if Contains(content, kws[i]) {
        matched := matched + [kws[i]];
        confidence := confidence + 10;
      }
      i := i + 1;
    }
    assert kws[..i] == kws;
  }

  /** The name cascade: the first known service, else a name from the patterns, else from the sender domain. */
  method ExtractName(e: Email, rules: Rules)
    returns (known: bool, entries: seq<string>, extracted: Option<string>, bonus: nat)
    ensures known == NameOf(e, rules).Known?
    ensures entries == NameEntries(NameOf(e, rules))
    ensures extracted == NameValue(NameOf(e, rules))
    ensures bonus == NameBonus(NameOf(e, rules))
  {
    var service := FindKnownService(ContentOf(e), rules.services);
    if service.Some? {
      var key := rules.services[service.value].0;
      return true, [key], Some(Capitalize(key)), 30;
    }
    var dynamicName := DynamicServiceName(e.subject, e.from, rules.names);
    if dynamicName.Some? && dynamicName.value != [] {
      return false, ["dynamic:" + dynamicName.value], dynamicName, 25;
    }
    var domainName := DomainFromSender(e.from);
    if domainName.Some? {
      return false, ["domain:" + domainName.value], domainName, 15;
    }
    return false, [], None, 0;
  }

  /** The amount loop: stops at the first pattern that matches. */
  method ScanAmounts(content: string) returns (hasAmount: bool)
    ensures hasAmount == HasAmount(content)
  {
    hasAmount := false;
    var k := 0;
    while k < |FilterAmountPatterns| && !hasAmount
      invariant 0 <= k <= |FilterAmountPatterns|
      invariant hasAmount <==> exists q :: 0 <= q < k && Matches(content, FilterAmountPatterns[q])
    {
      if Matches(content, FilterAmountPatterns[k]) {
        hasAmount := true;
      }
      k := k + 1;
    }
  }

  /** The service-table search: entries in order, each entry's texts in order, stopping at the first hit. */
  method FindKnownService(content: string, table: seq<(string, seq<string>)>) returns (r: Option<nat>)
    ensures r == FirstService(content, table, 0)
  {
    var k := 0;
    while k < |table|
      invariant 0 <= k <= |table|
      invariant FirstService(content, table, k) == FirstService(content, table, 0)
    {
      var pats := table[k].1;
      var p := 0;
      while p < |pats|
        invariant 0 <= p <= |pats|
        invariant forall q :: 0 <= q < p ==> !Contains(content, pats[q])
      {
        if Contains(content, pats[p]) {
          return Some(k);
        }
        p := p + 1;
      }
      k := k + 1;
    }
    return None;
  }

  /** `filterSubscriptionEmails`: classify each message, keep the included ones, sort them by confidence. */
  method FilterSubscriptionEmails(emails: seq<Email>, rules: Rules) returns (out: seq<FilteredEmail>)
    ensures out == SortDesc(Collect(emails, rules))
  {
    var filtered: seq<FilteredEmail> := [];
    var i := 0;
    while i < |emails|
      invariant 0 <= i <= |emails|
      invariant filtered == Collect(emails[..i], rules)
    {
      var verdict := ClassifyEmail(emails[i], rules);
      assert emails[..i + 1][..i] == emails[..i];
      if verdict.Some? {
        filtered := filtered + [verdict.value];
      }
      i := i + 1;
    }
    assert emails[..i] == emails;
    var a := new FilteredEmail[|filtered|](j requires 0 <= j < |filtered| => filtered[j]);
    assert a[..] == filtered;
    SortByConfidence(a);
    out := a[..];
  }

  // ---------------------------------------------------------- properties

  /**
   * What `filterSubscriptionEmails` returns: sorted by non-increasing
   * confidence, exactly the included messages (as a multiset), in input order
   * among equal confidences; each entry is the verdict on a message that was
   * not excluded, and every non-excluded message with a service name is there.
   */
  lemma FilterOutput(emails: seq<Email>, rules: Rules)
    ensures var out := SortDesc(Collect(emails, rules));
      && SortedDesc(out)
      && multiset(out) == multiset(Collect(emails, rules))
      && (forall c: nat :: WithConfidence(out, c) == WithConfidence(Collect(emails, rules), c))
      && (forall f :: f in out ==> f.confidence <= 100 && exists i ::
            (0 <= i < |emails| && !Excluded(ContentOf(emails[i]), rules.exclusions) && Classify(emails[i], rules) == Some(f)))
      && (forall i :: 0 <= i < |emails| && !Excluded(ContentOf(emails[i]), rules.exclusions) && !NameOf(emails[i], rules).NoName?
            ==> Classify(emails[i], rules).Some? && Classify(emails[i], rules).value in out)
  {
    var col := Collect(emails, rules);
    SortDescCorrect(col);
    var out := SortDesc(col);
    forall f | f in out
      ensures f.confidence <= 100 && exists i ::
        (0 <= i < |emails| && !Excluded(ContentOf(emails[i]), rules.exclusions) && Classify(emails[i], rules) == Some(f))
    {
      assert f in multiset(out);
      assert f in col;
    }
    forall i | 0 <= i < |emails| && !Excluded(ContentOf(emails[i]), rules.exclusions) && !NameOf(emails[i], rules).NoName?
      ensures Classify(emails[i], rules).Some? && Classify(emails[i], rules).value in out
    {
      var f := Classify(emails[i], rules).value;
      assert f in col;
      assert f in multiset(col);
    }
  }

  /**
   * The first known service in table order decides: its key, capitalized, is
   * the extracted name, it is recorded, it adds 30, and the name patterns are
   * not consulted (the verdict is the same whatever they would capture).
   */
  lemma KnownServiceWins(e: Email, rules: Rules, other: DynamicMatcher, k: nat)
    requires !Excluded(ContentOf(e), rules.exclusions)
    requires FirstService(ContentOf(e), rules.services, 0) == Some(k)
    ensures Classify(e, rules).Some?
    ensures Classify(e, rules).value.extractedServiceName == Some(Capitalize(rules.services[k].0))
    ensures rules.services[k].0 in Classify(e, rules).value.matchedKeywords
    ensures Classify(e, rules).value.confidence >= 30
    ensures forall j :: 0 <= j < k ==> !AnyPattern(ContentOf(e), rules.services[j].1)
    ensures Classify(e, rules) == Classify(e, rules.(names := other))
  {
    assert NameOf(e, rules) == Known(rules.services[k].0);
    NamedVerdict(e, rules, Known(rules.services[k].0));
    ClassifyUnfold(e, rules);
    ClassifyUnfold(e, rules.(names := other));
  }

  /** Without a known service, a non-empty name from the patterns is used, adding 25. */
  lemma DynamicNameUsed(e: Email, rules: Rules, d: string)
    requires !Excluded(ContentOf(e), rules.exclusions)
    requires FirstService(ContentOf(e), rules.services, 0).None?
    requires DynamicServiceName(e.subject, e.from, rules.names) == Some(d) && d != []
    ensures Classify(e, rules).Some? && Classify(e, rules).value.extractedServiceName == Some(d)
    ensures "dynamic:" + d in Classify(e, rules).value.matchedKeywords
    ensures Classify(e, rules).value.confidence >= 25
  {
    assert NameOf(e, rules) == Dynamic(d);
    NamedVerdict(e, rules, Dynamic(d));
  }

  /** Only without a known service and without a name from the patterns is the sender domain used, adding 15. */
  lemma DomainNameUsed(e: Email, rules: Rules, d: string)
    requires !Excluded(ContentOf(e), rules.exclusions)
    requires FirstService(ContentOf(e), rules.services, 0).None?
    requires DynamicServiceName(e.subject, e.from, rules.names) in {None, Some([])}
    requires DomainFromSender(e.from) == Some(d)
    ensures Classify(e, rules).Some? && Classify(e, rules).value.extractedServiceName == Some(d)
    ensures "domain:" + d in Classify(e, rules).value.matchedKeywords
    ensures Classify(e, rules).value.confidence >= 15
  {
    assert NameOf(e, rules) == Domain(d);
    NamedVerdict(e, rules, Domain(d));
  }

  /** A message that is not excluded and names a service is included, with that name, its entry and its bonus. */
  lemma NamedVerdict(e: Email, rules: Rules, n: NameSignal)
    requires !Excluded(ContentOf(e), rules.exclusions) && NameOf(e, rules) == n && !n.NoName?
    ensures Classify(e, rules).Some?
    ensures Classify(e, rules).value.extractedServiceName == NameValue(n)
    ensures NameEntries(n) != [] && NameEntries(n)[0] in Classify(e, rules).value.matchedKeywords
    ensures Classify(e, rules).value.confidence >= NameBonus(n)
  {
    ClassifyUnfold(e, rules);
    var hits := KeywordHits(ContentOf(e), rules.keywords);
    VerdictIncluded(e, hits, n, HasAmount(ContentOf(e)), IsPaymentProvider(e.from));
    assert NameEntries(n)[0] in hits + NameEntries(n);
  }

  /** The number of table keywords that occur, counted by position. */
  function KeywordCount(content: string, kws: seq<string>): nat {
    |set k | 0 <= k < |kws| && Contains(content, kws[k])|
  }

  lemma {:induction false} KeywordHitsCount(content: string, kws: seq<string>)
    ensures |KeywordHits(content, kws)| == KeywordCount(content, kws)
    decreases |kws|
  {
    if kws != [] {
      var n := |kws| - 1;
      KeywordHitsCount(content, kws[..n]);
      IndexSetStep(content, kws);
      var small := set k | 0 <= k < n && Contains(content, kws[..n][k]);
      var last: set<int> := if Contains(content, kws[n]) then {n} else {};
      assert small !! last;
    }
  }

  lemma IndexSetStep(content: string, kws: seq<string>)
    requires kws != []
    ensures var n := |kws| - 1;
      (set k | 0 <= k < |kws| && Contains(content, kws[k]))
      == (set k | 0 <= k < n && Contains(content, kws[..n][k])) + (if Contains(content, kws[n]) then {n} else {})
  {
    var n := |kws| - 1;
    var init := kws[..n];
    assert forall k :: 0 <= k < n ==> init[k] == kws[k];
  }

  /**
   * The confidence of an included message: 10 for every keyword that occurs,
   * the bonus of its name signal, 20 once if any amount pattern matches, capped at 100.
   */
  lemma ConfidenceBreakdown(e: Email, rules: Rules)
    requires Classify(e, rules).Some?
    ensures Classify(e, rules).value.confidence == Cap(10 * KeywordCount(ContentOf(e), rules.keywords)
      + NameBonus(NameOf(e, rules)) + (if HasAmount(ContentOf(e)) then 20 else 0))
  {
    var hits := KeywordHits(ContentOf(e), rules.keywords);
    KeywordHitsCount(ContentOf(e), rules.keywords);
    ClassifyUnfold(e, rules);
    VerdictIncluded(e, hits, NameOf(e, rules), HasAmount(ContentOf(e)), IsPaymentProvider(e.from));
  }

  /** Every table keyword that occurs in an included message is recorded. */
  lemma KeywordRecorded(e: Email, rules: Rules, kw: string)
    requires Classify(e, rules).Some?
    requires kw in rules.keywords && Contains(ContentOf(e), kw)
    ensures kw in Classify(e, rules).value.matchedKeywords
  {
    var hits := KeywordHits(ContentOf(e), rules.keywords);
    ClassifyUnfold(e, rules);
    VerdictIncluded(e, hits, NameOf(e, rules), HasAmount(ContentOf(e)), IsPaymentProvider(e.from));
    KeywordHitsMembers(ContentOf(e), rules.keywords, kw);
    assert kw in hits + NameEntries(NameOf(e, rules));
  }

  // --------------------------------------------------------------- hints

  /** What `extractSubscriptionHints` suggests for a filtered message; the date hint is not modelled. */
  datatype Hints = Hints(possibleService: Option<string>, possibleAmount: Option<real>)

  /**
   * The amount read by the `k`-th and later amount patterns: the first
   * match of each pattern, digits and dots kept, read as a number; a pattern
   * whose first match reads as `NaN` or below zero passes to the next one.
   */
  function HintAmountFrom(content: string, k: nat): (r: Option<real>)
    ensures r.Some? ==> r.value >= 0.0
    ensures r.Some? ==> exists q :: k <= q < |FilterAmountPatterns| && Matches(content, FilterAmountPatterns[q])
    decreases |FilterAmountPatterns| - k
  {
    if k >= |FilterAmountPatterns| then None
    else
      match FirstMatch(content, FilterAmountPatterns[k], 0)
      case None => HintAmountFrom(content, k + 1)
      case Some(sp) =>
        match ParseDecimal(CaptureDigits(content, sp))
        case Num(v) => if v >= 0.0 then Some(v) else HintAmountFrom(content, k + 1)
        case NaN => HintAmountFrom(content, k + 1)
  }

  /** `extractSubscriptionHints(email)`, on `subject + " " + body` (not lower-cased). */
  function ExtractSubscriptionHints(f: FilteredEmail, services: seq<(string, seq<string>)>): (r: Hints)
    ensures f.extractedServiceName.Some? && f.extractedServiceName.value != [] ==>
      r.possibleService == f.extractedServiceName
    ensures r.possibleAmount.Some? ==> r.possibleAmount.value >= 0.0
  {
    var content := f.subject + " " + f.body;
    var service :=
      if f.extractedServiceName.Some? && f.extractedServiceName.value != [] then f.extractedServiceName
      else match FirstService(Lower(content), services, 0)
        case Some(k) => Some(Capitalize(services[k].0))
        case None => None;
    Hints(service, HintAmountFrom(content, 0))
  }

  /** A subject that is `$` and a whole number of dollars gives that number as the amount hint. */
  lemma HintReadsDollarSubject(f: FilteredEmail, services: seq<(string, seq<string>)>, n: nat)
    requires f.subject == "$" + NatToString(n)
    ensures ExtractSubscriptionHints(f, services).possibleAmount == Some(n as real)
  {
    var d := NatToString(n);
    var content := f.subject + " " + f.body;
    DigitsValueOfString(n);
    DigitRunThenSpace(content, d);
    var sp := Span(1, 1 + |d|);
    assert MatchAt(content, FilterAmountPatterns[0], 0) == Some(sp);
    assert content[1..1 + |d|] == d;
    NoCommasKept(d);
    ParseRendered(n);
  }

  /** In `"$" + d + " " + rest` with `d` all digits, the number run is exactly `d`. */
  lemma DigitRunThenSpace(content: string, d: string)
    requires |d| > 0 && forall k :: 0 <= k < |d| ==> IsDigit(d[k])
    requires |content| > |d| + 1 && content[..|d| + 2] == "$" + d + " "
    ensures RunEnd(content, 1, false) == 1 + |d|
    ensures NumberEnd(content, 1, false) == 1 + |d|
  {
    assert forall k :: 0 <= k < |d| ==> content[1 + k] == d[k] by {
      forall k | 0 <= k < |d| ensures content[1 + k] == d[k] {
        assert content[..|d| + 2][1 + k] == d[k];
      }
    }
    assert content[1 + |d|] == content[..|d| + 2][1 + |d|];
    RunEndOver(content, 1, 1 + |d|);
  }

  lemma {:induction false} RunEndOver(s: string, j: nat, e: nat)
    requires j <= e < |s|
    requires forall m :: j <= m < e ==> InClass(s[m], false)
    requires !InClass(s[e], false)
    ensures RunEnd(s, j, false) == e
    decreases e - j
  {
    if j < e {
      RunEndOver(s, j + 1, e);
    }
  }

  lemma {:induction false} NoCommasKept(d: string)
    requires forall k :: 0 <= k < |d| ==> IsDigit(d[k])
    ensures RemoveCommas(d) == d
    decreases |d|
  {
    if d != [] {
      NoCommasKept(d[1..]);
    }
  }
}
