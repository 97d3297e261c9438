/**
 * Extraction of subscription details from one message: validation of the
 * language model's JSON reply, and the regular-expression fallback used when
 * the model gives nothing.
 */
module Parser {
  import opened Wrappers
  import opened Text
  import opened Amounts

  /** A candidate subscription as every parser returns it. */
  datatype ParsedSubscription = ParsedSubscription(
    serviceName: string,
    description: Option<string>,
    amount: real,
    currency: string,
    billingCycle: string,
    nextBillingDate: Option<string>,
    cancellationUrl: Option<string>,
    confidence: real)

  // ------------------------------------------------------- model's reply

  /**
   * A JSON value of the reply. A number and an array keep the text
   * `String()` gives for them (an array's elements joined by commas); an
   * absent field reads as `JNull`, which every use here treats alike.
   */
  datatype Json = JNull | JBool(b: bool) | JNum(n: real, text: string) | JStr(s: string) | JArray(text: string) | JObject

  /** The reply object, one JSON value per field the validation reads. */
  datatype Reply = Reply(
    isSubscription: Json, serviceName: Json, amount: Json, currency: Json,
    billingCycle: Json, nextBillingDate: Json, cancellationUrl: Json, confidence: Json)

  /**
   * What the model call produced: it threw, the message had no content, the
   * content was not a JSON object, or a parsed reply.
   */
  datatype AiResponse = Threw | NoContent | Unusable | Parsed(reply: Reply)

  /** JavaScript truthiness of a JSON value. */
  predicate Truthy(j: Json) {
    match j
    case JNull => false
    case JBool(b) => b
    case JNum(n, _) => n != 0.0
    case JStr(s) => s != []
    case JArray(_) => true
    case JObject => true
  }

  /** `String(j)`. */
  function ToStr(j: Json): string {
    match j
    case JNull => "null"
    case JBool(b) => if b then "true" else "false"
    case JNum(_, text) => text
    case JStr(s) => s
    case JArray(text) => text
    case JObject => "[object Object]"
  }

  /** `parseFloat(j)`. */
  function ParseFloatJson(j: Json): JsNumber {
    match j
    case JNum(n, _) => Num(n)
    case JStr(s) => ParseFloat(s)
    case JArray(text) => ParseFloat(text)
    case _ => NaN
  }

  /** `parseFloat(j) || fallback`: `NaN` and zero give the fallback. */
  function FloatOr(j: Json, fallback: real): (r: real)
    ensures ParseFloatJson(j).Num? && ParseFloatJson(j).v != 0.0 ==> r == ParseFloatJson(j).v
    ensures !(ParseFloatJson(j).Num? && ParseFloatJson(j).v != 0.0) ==> r == fallback
  {
    match ParseFloatJson(j)
    case Num(v) => if v != 0.0 then v else fallback
    case NaN => fallback
  }

  /** `j || null`, with a truthy value read as a string. */
  function StrOrNull(j: Json): Option<string> {
    if Truthy(j) then Some(ToStr(j)) else None
  }

  /** The checks and defaults applied to the model's reply. */
  function ValidateReply(r: Reply): (p: Option<ParsedSubscription>)
    ensures p.Some? <==> Truthy(r.isSubscription) && Truthy(r.serviceName) && Truthy(r.amount)
    ensures p.Some? ==> p.value.serviceName == ToStr(r.serviceName) && p.value.description.None?
    ensures p.Some? ==> forall k :: 0 <= k < |p.value.currency| ==> !('a' <= p.value.currency[k] <= 'z')
    ensures p.Some? && !Truthy(r.currency) ==> p.value.currency == "USD"
    ensures p.Some? && !Truthy(r.billingCycle) ==> p.value.billingCycle == "monthly"
    ensures p.Some? ==> p.value.amount == FloatOr(r.amount, 0.0)
    ensures p.Some? ==> p.value.currency == Upper(if Truthy(r.currency) then ToStr(r.currency) else "USD")
    ensures p.Some? ==> p.value.billingCycle == (if Truthy(r.billingCycle) then ToStr(r.billingCycle) else "monthly")
    ensures p.Some? ==> p.value.nextBillingDate == StrOrNull(r.nextBillingDate)
    ensures p.Some? ==> p.value.cancellationUrl == StrOrNull(r.cancellationUrl)
    ensures p.Some? ==> p.value.confidence == FloatOr(r.confidence, 0.8)
  {
    if !Truthy(r.isSubscription) then None
    else if !Truthy(r.serviceName) || !Truthy(r.amount) then None
    else
      Some(ParsedSubscription(
        ToStr(r.serviceName),
        None,
        FloatOr(r.amount, 0.0),
        Upper(if Truthy(r.currency) then ToStr(r.currency) else "USD"),
        if Truthy(r.billingCycle) then ToStr(r.billingCycle) else "monthly",
        StrOrNull(r.nextBillingDate),
        StrOrNull(r.cancellationUrl),
        FloatOr(r.confidence, 0.8)))
  }

  /** `body.replace(/[\r\n]+/g, ' ')`. */
  function NewlineRunsToSpace(s: string): string
    decreases |s|
  {
    if s == [] then []
    else if s[0] == '\r' || s[0] == '\n' then " " + NewlineRunsToSpace(DropNewlines(s))
    else [s[0]] + NewlineRunsToSpace(s[1..])
  }

  function DropNewlines(s: string): (r: string)
    ensures |r| <= |s| && (s != [] && (s[0] == '\r' || s[0] == '\n') ==> |r| < |s|)
    decreases |s|
  {
    if s != [] && (s[0] == '\r' || s[0] == '\n') then DropNewlines(s[1..]) else s
  }

  /** The body with newline runs and then whitespace runs made single spaces, and trimmed. */
  function Spaced(body: string): string {
    Trim(CollapseSpaces(NewlineRunsToSpace(body)))
  }

  /** The body the model sees: whitespace runs made single spaces, trimmed, cut to 2000 characters. */
  function CleanBody(body: string): (r: string)
    ensures |r| <= 2000
    ensures |r| == if |Spaced(body)| <= 2000 then |Spaced(body)| else 2000
    ensures r == Spaced(body)[..|r|]
    ensures SingleSpaced(r)
    ensures r == [] || !IsSpace(r[0])
  {
    var t := Spaced(body);
    CollapseTrimNormalized(NewlineRunsToSpace(body));
    var r := if |t| <= 2000 then t else t[..2000];
    SingleSpacedSlice(t, 0, |r|);
    assert t[0..|r|] == r;
    r
  }

  /** The user message sent with the system prompt. */
  function UserPrompt(subject: string, from: string, body: string): string {
    "Email:\nSubject: " + subject + "\nFrom: " + from + "\nContent: " + CleanBody(body)
    + "\n\nExtract subscription/billing info and return JSON."
  }

  /**
   * `parseEmailWithAI`: `ask` stands for the model call on the user message;
   * any failure on the way gives `None`.
   */
  function ParseEmailWithAI(subject: string, from: string, body: string, ask: string -> AiResponse)
    : (p: Option<ParsedSubscription>)
    ensures !ask(UserPrompt(subject, from, body)).Parsed? ==> p.None?
    ensures ask(UserPrompt(subject, from, body)).Parsed? ==> p == ValidateReply(ask(UserPrompt(subject, from, body)).reply)
  {
    match ask(UserPrompt(subject, from, body))
    case Parsed(reply) => ValidateReply(reply)
    case _ => None
  }

  /** A reply whose amount is zero, the empty string or missing is rejected. */
  lemma ZeroAmountRejected(r: Reply)
    requires r.amount == JNum(0.0, "0") || r.amount == JStr([]) || r.amount == JNull
    ensures ValidateReply(r).None?
  {
  }

  /**
   * The reply's amount and billing cycle are not checked: a negative amount
   * and a cycle outside monthly, yearly and weekly pass through.
   */
  lemma ReplyFieldsUnchecked()
    ensures var r := Reply(JBool(true), JStr("Acme"), JNum(-5.0, "-5"), JNull,
                           JStr("fortnightly"), JNull, JNull, JNull);
      ValidateReply(r) == Some(ParsedSubscription("Acme", None, -5.0, "USD", "fortnightly", None, None, 0.8))
  {
  }

  // ----------------------------------------------------------- fallback

  /** `[a-z0-9]`, case-insensitively. */
  predicate IsLabelChar(c: char) {
    IsAsciiLetter(c) || IsDigit(c)
  }

  function LabelEnd(s: string, j: nat): (k: nat)
    requires j <= |s|
    ensures j <= k <= |s|
    ensures forall m :: j <= m < k ==> IsLabelChar(s[m])
    ensures k == |s| || !IsLabelChar(s[k])
    decreases |s| - j
  {
    if j < |s| && IsLabelChar(s[j]) then LabelEnd(s, j + 1) else j
  }

  /** The capture of `@([a-z0-9]+)\.` when it matches at `i`; the label run is taken whole. */
  function SenderLabelAt(s: string, i: nat): (r: Option<string>)
    ensures r.Some? ==> |r.value| > 0
  {
    if i < |s| && s[i] == '@' then
      var e := LabelEnd(s, i + 1);
      if e > i + 1 && e < |s| && s[e] == '.' then Some(s[i + 1..e]) else None
    else None
  }

  /** The leftmost match of the sender pattern at or after `i`. */
  function SenderLabel(s: string, i: nat): (r: Option<string>)
    ensures r.Some? ==> |r.value| > 0
    decreases |s| - i
  {
    if i >= |s| then None
    else if SenderLabelAt(s, i).Some? then SenderLabelAt(s, i)
    else SenderLabel(s, i + 1)
  }

  /** `@([a-z0-9]+)\.` (any case) matches at `i` with its label ending at `e`. */
  predicate SenderMatchEnds(s: string, i: nat, e: nat) {
    i + 1 < e < |s| && s[i] == '@' && (forall m :: i < m < e ==> IsLabelChar(s[m])) && s[e] == '.'
  }

  /**
   * The sender pattern matches at `i` exactly when there is a label end for
   * it, and the capture is then the label before that end.
   */
  lemma SenderLabelAtMatch(s: string, i: nat)
    ensures SenderLabelAt(s, i).Some? <==> exists e: nat :: SenderMatchEnds(s, i, e)
    ensures forall e: nat :: SenderMatchEnds(s, i, e) ==> SenderLabelAt(s, i) == Some(s[i + 1..e])
  {
    if i < |s| && s[i] == '@' {
      var e := LabelEnd(s, i + 1);
      forall e': nat | SenderMatchEnds(s, i, e') ensures e' == e {
        assert !IsLabelChar(s[e']);
      }
      if SenderLabelAt(s, i).Some? {
        assert SenderMatchEnds(s, i, e);
      }
    }
  }

  /**
   * The sender pattern is searched left to right: the label comes from the
   * first `@` it matches at, and there is none exactly when it matches
   * nowhere at or after `i`.
   */
  lemma {:induction false} SenderLabelLeftmost(s: string, i: nat)
    ensures SenderLabel(s, i).None? <==> forall j: nat, e: nat :: i <= j ==> !SenderMatchEnds(s, j, e)
    ensures SenderLabel(s, i).Some? ==> exists j: nat, e: nat :: (i <= j && SenderMatchEnds(s, j, e)
      && SenderLabel(s, i).value == s[j + 1..e]
      && (forall m: nat, e': nat :: i <= m < j ==> !SenderMatchEnds(s, m, e')))
    decreases |s| - i
  {
    SenderLabelAtMatch(s, i);
    if i >= |s| {
      forall j: nat, e: nat | i <= j ensures !SenderMatchEnds(s, j, e) {
      }
    } else if SenderLabelAt(s, i).Some? {
      var e: nat :| SenderMatchEnds(s, i, e);
      assert SenderLabel(s, i).value == s[i + 1..e];
    } else {
      SenderLabelLeftmost(s, i + 1);
      assert SenderLabel(s, i) == SenderLabel(s, i + 1);
      if SenderLabel(s, i).Some? {
        var j: nat, e: nat :| i + 1 <= j && SenderMatchEnds(s, j, e)
          && SenderLabel(s, i + 1).value == s[j + 1..e]
          && (forall m: nat, e': nat :: i + 1 <= m < j ==> !SenderMatchEnds(s, m, e'));
        assert forall m: nat, e': nat :: i <= m < j ==> !SenderMatchEnds(s, m, e');
      }
    }
  }

  /** The fallback's amount patterns, in their order, each with the currency it implies. */
  const FallbackPatterns: seq<(AmountPattern, string)> := [
    (Prefixed("$", false, false), "USD"),
    (Prefixed("₦", false, false), "NGN"),
    (Prefixed("€", false, false), "EUR"),
    (Prefixed("£", false, false), "GBP"),
    (Prefixed("usd", true, false), "USD"),
    (Prefixed("ngn", true, false), "NGN")
  ]

  /**
   * The amount and currency of the first pattern, from the `k`-th on, that
   * matches: the commas of its capture removed and the rest read as a
   * number. Without any match the amount stays 0 and the currency USD.
   */
  function FallbackAmount(content: string, k: nat): (r: (JsNumber, string))
    ensures r.1 in {"USD", "NGN", "EUR", "GBP"}
    ensures r.0.Num? ==> r.0.v >= 0.0
    decreases |FallbackPatterns| - k
  {
    if k >= |FallbackPatterns| then (Num(0.0), "USD")
    else match FirstMatch(content, FallbackPatterns[k].0, 0)
      case Some(sp) => (ParseDecimal(CaptureDigits(content, sp)), FallbackPatterns[k].1)
      case None => FallbackAmount(content, k + 1)
  }

  /** The pattern loop of the fallback: the first pattern that matches decides amount and currency. */
  method ScanFallbackAmount(content: string) returns (amount: JsNumber, currency: string)
    ensures (amount, currency) == FallbackAmount(content, 0)
  {
    amount, currency := Num(0.0), "USD";
    var k := 0;
    while k < |FallbackPatterns|
      invariant 0 <= k <= |FallbackPatterns|
      invariant FallbackAmount(content, k) == FallbackAmount(content, 0)
    {
      var m := FirstMatch(content, FallbackPatterns[k].0, 0);
      if m.Some? {
        amount := ParseDecimal(CaptureDigits(content, m.value));
        currency := FallbackPatterns[k].1;
        return;
      }
      k := k + 1;
    }
  }

  /** Patterns that do not match pass the decision on: from `i` to `k` nothing changes. */
  lemma {:induction false} FallbackSkipsTo(content: string, i: nat, k: nat)
    requires i <= k <= |FallbackPatterns|
    requires forall j :: i <= j < k ==> !Matches(content, FallbackPatterns[j].0)
    ensures FallbackAmount(content, i) == FallbackAmount(content, k)
    decreases k - i
  {
    if i < k {
      FallbackSkips(content, i);
      FallbackSkipsTo(content, i + 1, k);
    }
  }

  /** A pattern that does not match passes the decision to the next one. */
  lemma FallbackSkips(content: string, i: nat)
    requires i < |FallbackPatterns| && !Matches(content, FallbackPatterns[i].0)
    ensures FallbackAmount(content, i) == FallbackAmount(content, i + 1)
  {
  }

  /** A pattern that matches decides amount and currency. */
  lemma FallbackTakes(content: string, k: nat)
    requires k < |FallbackPatterns| && Matches(content, FallbackPatterns[k].0)
    ensures FallbackAmount(content, k)
      == (ParseDecimal(CaptureDigits(content, FirstMatch(content, FallbackPatterns[k].0, 0).value)), FallbackPatterns[k].1)
  {
  }

  /**
   * The fallback's amount and currency come from the first pattern in the
   * list that matches; its currency is the one that pattern's source text
   * names, which is NGN exactly for the `₦` and `NGN` patterns, EUR for `€`
   * and GBP for `£`.
   */
  lemma FallbackAmountRule(content: string, k: nat)
    requires k < |FallbackPatterns|
    requires Matches(content, FallbackPatterns[k].0)
    requires forall j :: 0 <= j < k ==> !Matches(content, FallbackPatterns[j].0)
    ensures FallbackAmount(content, 0)
      == (ParseDecimal(CaptureDigits(content, FirstMatch(content, FallbackPatterns[k].0, 0).value)), FallbackPatterns[k].1)
    ensures FallbackAmount(content, 0).1 == CurrencyOfSource(FallbackSources[k])
    ensures FallbackAmount(content, 0).1 == "NGN"
      <==> FallbackPatterns[k].0 in {Prefixed("₦", false, false), Prefixed("ngn", true, false)}
    ensures FallbackAmount(content, 0).1 == "EUR" <==> FallbackPatterns[k].0 == Prefixed("€", false, false)
    ensures FallbackAmount(content, 0).1 == "GBP" <==> FallbackPatterns[k].0 == Prefixed("£", false, false)
  {
    FallbackSkipsTo(content, 0, k);
    FallbackTakes(content, k);
    FallbackCurrencyFromSource(k);
    PatternCurrency(k);
  }

  /** The currency paired with each pattern, by its sign or code. */
  lemma PatternCurrency(k: nat)
    requires k < |FallbackPatterns|
    ensures FallbackPatterns[k].1 == "NGN"
      <==> FallbackPatterns[k].0 in {Prefixed("₦", false, false), Prefixed("ngn", true, false)}
    ensures FallbackPatterns[k].1 == "EUR" <==> FallbackPatterns[k].0 == Prefixed("€", false, false)
    ensures FallbackPatterns[k].1 == "GBP" <==> FallbackPatterns[k].0 == Prefixed("£", false, false)
  {
  }

  /** When no pattern matches, the amount stays 0 and the currency USD. */
  lemma FallbackNoAmount(content: string)
    requires forall j :: 0 <= j < |FallbackPatterns| ==> !Matches(content, FallbackPatterns[j].0)
    ensures FallbackAmount(content, 0) == (Num(0.0), "USD")
  {
    FallbackSkipsTo(content, 0, |FallbackPatterns|);
  }

  /** The capture group every fallback pattern ends with. */
  const NumberCapture: string := "([0-9,]+\\.?\\d*)"

  /** The source text of each fallback pattern, in the same order as `FallbackPatterns`. */
  const FallbackSources: seq<string> := [
    "\\$" + NumberCapture,
    "₦" + NumberCapture,
    "€" + NumberCapture,
    "£" + NumberCapture,
    "USD\\s*" + NumberCapture,
    "NGN\\s*" + NumberCapture
  ]

  /** The currency the fallback reads off a pattern's source text. */
  function CurrencyOfSource(src: string): string {
    if Contains(src, "₦") || Contains(src, "NGN") then "NGN"
    else if Contains(src, "€") || Contains(src, "EUR") then "EUR"
    else if Contains(src, "£") || Contains(src, "GBP") then "GBP"
    else "USD"
  }

  /** A text that contains `p` contains its first character. */
  lemma FirstCharAbsent(s: string, p: string)
    requires |p| > 0
    ensures p[0] !in s ==> !Contains(s, p)
  {
    if Contains(s, p) {
      var i := IndexOf(s, p, 0);
      assert s[i..i + |p|][0] == s[i];
    }
  }

  /** None of the characters that start a currency sign or code the fallback looks for. */
  predicate Unmarked(s: string) {
    '₦' !in s && '€' !in s && '£' !in s && 'N' !in s && 'E' !in s && 'G' !in s
  }

  /** The capture group names no currency. */
  lemma CaptureUnmarked()
    ensures Unmarked(NumberCapture)
  {
    var c := NumberCapture;
    assert '₦' !in c;
    assert '€' !in c;
    assert '£' !in c;
    assert 'N' !in c;
    assert 'E' !in c;
    assert 'G' !in c;
  }

  /** A source text without any of those characters leaves the default, USD. */
  lemma UnmarkedSourceUsd(src: string)
    requires Unmarked(src)
    ensures CurrencyOfSource(src) == "USD"
  {
    FirstCharAbsent(src, "₦");
    FirstCharAbsent(src, "NGN");
    FirstCharAbsent(src, "€");
    FirstCharAbsent(src, "EUR");
    FirstCharAbsent(src, "£");
    FirstCharAbsent(src, "GBP");
  }

  /** A source text that starts with `lead` contains it. */
  lemma LeadingSource(lead: string)
    ensures Contains(lead + NumberCapture, lead)
  {
    assert (lead + NumberCapture)[..|lead|] == lead;
    OccursContains(lead + NumberCapture, lead, 0);
  }

  /** The `$` and `USD` patterns name no currency, which leaves USD. */
  lemma UnmarkedLeadUsd(lead: string)
    requires Unmarked(lead)
    ensures CurrencyOfSource(lead + NumberCapture) == "USD"
  {
    CaptureUnmarked();
    UnmarkedSourceUsd(lead + NumberCapture);
  }

  /** The `€` pattern names EUR. */
  lemma EuroSource()
    ensures CurrencyOfSource("€" + NumberCapture) == "EUR"
  {
    var src := "€" + NumberCapture;
    CaptureUnmarked();
    FirstCharAbsent(src, "₦");
    FirstCharAbsent(src, "NGN");
    LeadingSource("€");
  }

  /** The `£` pattern names GBP. */
  lemma PoundSource()
    ensures CurrencyOfSource("£" + NumberCapture) == "GBP"
  {
    var src := "£" + NumberCapture;
    CaptureUnmarked();
    FirstCharAbsent(src, "₦");
    FirstCharAbsent(src, "NGN");
    FirstCharAbsent(src, "€");
    FirstCharAbsent(src, "EUR");
    LeadingSource("£");
  }

  /** The currency paired with each pattern is the one its source text names. */
  lemma FallbackCurrencyFromSource(k: nat)
    requires k < |FallbackPatterns|
    ensures FallbackPatterns[k].1 == CurrencyOfSource(FallbackSources[k])
  {
    if k == 0 {
      UnmarkedLeadUsd("\\$");
    } else if k == 4 {
      UnmarkedLeadUsd("USD\\s*");
    } else if k == 1 {
      LeadingSource("₦");
    } else if k == 5 {
      LeadingSource("NGN\\s*");
      assert ("NGN\\s*" + NumberCapture)[..3] == "NGN";
      OccursContains("NGN\\s*" + NumberCapture, "NGN", 0);
    } else if k == 2 {
      EuroSource();
    } else {
      PoundSource();
    }
  }

  /** 'yearly' on "annual", "yearly" or "year"; else 'weekly' on "weekly" or "week"; else 'monthly'. */
  function FallbackCycle(content: string): (c: string)
    ensures c in {"monthly", "yearly", "weekly"}
    ensures c == "yearly" <==> Contains(content, "annual") || Contains(content, "yearly") || Contains(content, "year")
    ensures c == "weekly" <==> (!(Contains(content, "annual") || Contains(content, "yearly") || Contains(content, "year"))
      && (Contains(content, "weekly") || Contains(content, "week")))
  {
    if Contains(content, "annual") || Contains(content, "yearly") || Contains(content, "year") then "yearly"
    else if Contains(content, "weekly") || Contains(content, "week") then "weekly"
    else "monthly"
  }

  /** The service name: the hint when it is non-empty, else the sender's domain label with a capital. */
  function FallbackName(from: string, hint: Option<string>): (r: Option<string>)
    ensures hint.Some? && hint.value != [] ==> r == hint
    ensures !(hint.Some? && hint.value != []) ==>
      r == (match SenderLabel(from, 0) case Some(l) => Some(Capitalize(l)) case None => None)
  {
    if hint.Some? && hint.value != [] then hint
    else match SenderLabel(from, 0)
      case Some(l) => Some(Capitalize(l))
      case None => None
  }

  function FallbackContent(subject: string, from: string, body: string): string {
    Lower(subject + " " + from + " " + body)
  }

  /** The fallback result before its amount is known to be a number, as the code builds it. */
  datatype RawFallback = RawFallback(serviceName: string, amount: JsNumber, currency: string, billingCycle: string)

  /**
   * `parseEmailFallback` as written: it returns `null` only when the amount
   * is exactly 0, so a capture that reads as `NaN` is returned.
   */
  function ParseEmailFallbackAsWritten(subject: string, from: string, body: string, hint: Option<string>)
    : (r: Option<RawFallback>)
    ensures r.Some? ==> r.value.amount != Num(0.0)
  {
    var content := FallbackContent(subject, from, body);
    match FallbackName(from, hint)
    case None => None
    case Some(name) =>
      var (amount, currency) := FallbackAmount(content, 0);
      if amount == Num(0.0) then None
      else Some(RawFallback(name, amount, currency, FallbackCycle(content)))
  }

  /** A lone comma after the dollar sign gets through the guard as `NaN`. */
  lemma FallbackAcceptsNaN()
    ensures ParseEmailFallbackAsWritten("", "x", "$,", Some("Acme"))
      == Some(RawFallback("Acme", NaN, "USD", "monthly"))
  {
    NaNContent();
    NaNAmount();
    NaNCycle();
  }

  lemma NaNContent()
    ensures FallbackContent("", "x", "$,") == " x $,"
  {
    assert "" + " " + "x" + " " + "$," == " x $,";
  }

  lemma NaNAmount()
    ensures FallbackAmount(" x $,", 0) == (NaN, "USD")
  {
    var content := " x $,";
    assert MatchAt(content, Prefixed("$", false, false), 0).None?;
    assert MatchAt(content, Prefixed("$", false, false), 1).None?;
    assert MatchAt(content, Prefixed("$", false, false), 2).None?;
    assert MatchAt(content, Prefixed("$", false, false), 3) == Some(Span(4, 5));
    assert FirstMatch(content, Prefixed("$", false, false), 0) == Some(Span(4, 5));
    assert content[4..5] == ",";
    assert RemoveCommas(",") == [];
  }

  lemma NaNCycle()
    ensures FallbackCycle(" x $,") == "monthly"
  {
    var content := " x $,";
    assert content[0..4][0] == ' ' && content[1..5][0] == 'x';
    assert !Contains(content, "year") && !Contains(content, "week");
  }

  /**
   * `parseEmailFallback` with the guard it evidently intends: no result
   * unless the amount is a number other than zero.
   */
  function ParseEmailFallback(subject: string, from: string, body: string, hint: Option<string>)
    : (r: Option<ParsedSubscription>)
    ensures var a := FallbackAmount(FallbackContent(subject, from, body), 0);
      r.Some? <==> FallbackName(from, hint).Some? && a.0.Num? && a.0.v != 0.0
    ensures r.Some? ==> (Num(r.value.amount), r.value.currency) == FallbackAmount(FallbackContent(subject, from, body), 0)
    ensures FallbackName(from, hint).None? ==> r.None?
    ensures r.Some? ==> Some(r.value.serviceName) == FallbackName(from, hint)
    ensures r.Some? ==> r.value.amount > 0.0
    ensures r.Some? ==> r.value.currency in {"USD", "NGN", "EUR", "GBP"}
    ensures r.Some? ==> r.value.billingCycle in {"monthly", "yearly", "weekly"}
    ensures r.Some? ==> r.value.billingCycle == FallbackCycle(FallbackContent(subject, from, body))
    ensures r.Some? ==> (r.value.nextBillingDate.None? && r.value.cancellationUrl.None?
      && r.value.description.None? && r.value.confidence == 0.5)
  {
    var content := FallbackContent(subject, from, body);
    match FallbackName(from, hint)
    case None => None
    case Some(name) =>
      var (amount, currency) := FallbackAmount(content, 0);
      match amount
      case NaN => None
      case Num(v) =>
        if v == 0.0 then None
        else Some(ParsedSubscription(name, None, v, currency, FallbackCycle(content), None, None, 0.5))
  }

  /** Where the code as written returns a number, the corrected fallback returns the same result. */
  lemma FallbackAgreesOnNumbers(subject: string, from: string, body: string, hint: Option<string>)
    ensures var w := ParseEmailFallbackAsWritten(subject, from, body, hint);
      var r := ParseEmailFallback(subject, from, body, hint);
      && (w.Some? && w.value.amount.Num? <==> r.Some?)
      && (r.Some? ==> w.value == RawFallback(r.value.serviceName, Num(r.value.amount),
                                             r.value.currency, r.value.billingCycle))
  {
  }

  /** With no hint and no `@label.` in the sender there is no result. */
  lemma FallbackNeedsName(subject: string, from: string, body: string)
    requires SenderLabel(from, 0).None?
    ensures ParseEmailFallback(subject, from, body, None).None?
    ensures ParseEmailFallbackAsWritten(subject, from, body, None).None?
  {
  }
}
