/**
 * The stand-in parser used without a language-model key: a fixed table of
 * services looked up by substring, with the first `$N` of the message as
 * the amount when there is one.
 */
module MockParser {
  import opened Wrappers
  import opened Text
  import opened Amounts
  import opened Parser

  /** One entry of the table: its lookup key and the subscription it stands for. */
  datatype MockEntry = MockEntry(key: string, serviceName: string, amount: real, billingCycle: string)

  /** The table, in its insertion order, which is the lookup order. */
  const MockSubscriptions: seq<MockEntry> := [
    MockEntry("netflix", "Netflix", 15.99, "monthly"),
    MockEntry("spotify", "Spotify", 9.99, "monthly"),
    MockEntry("adobe", "Adobe Creative Cloud", 54.99, "monthly"),
    MockEntry("openai", "ChatGPT Plus", 20.00, "monthly"),
    MockEntry("chatgpt", "ChatGPT Plus", 20.00, "monthly"),
    MockEntry("gym", "Gym Membership", 45.00, "monthly"),
    MockEntry("planet fitness", "Planet Fitness", 45.00, "monthly"),
    MockEntry("disney", "Disney+", 13.99, "monthly"),
    MockEntry("youtube", "YouTube Premium", 13.99, "monthly"),
    MockEntry("amazon", "Amazon Prime", 14.99, "monthly"),
    MockEntry("hulu", "Hulu", 17.99, "monthly"),
    MockEntry("hbo", "HBO Max", 15.99, "monthly")
  ]

  /** `\$(\d+\.?\d*)`. */
  const DollarAmount: AmountPattern := Prefixed("$", false, true)

  /** `extractAmount`: the number after the first `$` that is followed by a digit. */
  function ExtractAmount(text: string): (r: Option<real>)
    ensures r.Some? <==> Matches(text, DollarAmount)
    ensures r.Some? ==> r.value >= 0.0
    ensures r.Some? ==> var sp := FirstMatch(text, DollarAmount, 0).value;
      Num(r.value) == ParseDecimal(text[sp.start..sp.end])
  {
    match FirstMatch(text, DollarAmount, 0)
    case None => None
    case Some(sp) =>
      var i :| 0 <= i <= sp.start && MatchAt(text, DollarAmount, i) == Some(sp);
      MatchStartsNumber(text, DollarAmount, i);
      var t := text[sp.start..sp.end];
      assert t[0] == text[sp.start];
      Some(ParseDecimal(t).v)
  }

  /** JavaScript truthiness of `number | null`. */
  predicate NonZero(a: Option<real>) {
    a.Some? && a.value != 0.0
  }

  /** `extractAmount(body) || extractAmount(subject)`. */
  function ExtractedAmount(subject: string, body: string): (r: Option<real>)
    ensures NonZero(ExtractAmount(body)) ==> r == ExtractAmount(body)
    ensures !NonZero(ExtractAmount(body)) ==> r == ExtractAmount(subject)
  {
    if NonZero(ExtractAmount(body)) then ExtractAmount(body) else ExtractAmount(subject)
  }

  /** The index of the first table entry, from `k` on, whose key occurs in `content`. */
  function MockLookup(content: string, k: nat): (r: Option<nat>)
    ensures r.Some? ==> (k <= r.value < |MockSubscriptions|
      && Contains(content, MockSubscriptions[r.value].key))
    ensures forall j :: k <= j < |MockSubscriptions| && (r.None? || j < r.value) ==>
      !Contains(content, MockSubscriptions[j].key)
    decreases |MockSubscriptions| - k
  {
    if k >= |MockSubscriptions| then None
    else if Contains(content, MockSubscriptions[k].key) then Some(k)
    else MockLookup(content, k + 1)
  }

  function MockContent(subject: string, from: string, body: string): string {
    Lower(subject + " " + from + " " + body)
  }

  /**
   * `mockParseEmail`. The first table entry whose key occurs decides the
   * service; `extractDate` stands for the date recognition on the body.
   */
  function MockParse(subject: string, from: string, body: string, extractDate: string -> Option<string>)
    : (p: Option<ParsedSubscription>)
    ensures p.None? <==> MockLookup(MockContent(subject, from, body), 0).None?
    ensures p.Some? ==> (p.value.currency == "USD" && p.value.cancellationUrl.None?
      && p.value.nextBillingDate == extractDate(body))
    ensures p.Some? ==> var e := MockSubscriptions[MockLookup(MockContent(subject, from, body), 0).value];
      && p.value.serviceName == e.serviceName
      && p.value.billingCycle == e.billingCycle
      && (NonZero(ExtractedAmount(subject, body)) ==>
            p.value.amount == ExtractedAmount(subject, body).value && p.value.confidence == 0.9)
      && (!NonZero(ExtractedAmount(subject, body)) ==>
            p.value.amount == e.amount && p.value.confidence == 0.7)
  {
    match MockLookup(MockContent(subject, from, body), 0)
    case None => None
    case Some(k) =>
      var e := MockSubscriptions[k];
      var extracted := ExtractedAmount(subject, body);
      Some(ParsedSubscription(
        e.serviceName, None,
        if NonZero(extracted) then extracted.value else e.amount,
        "USD", e.billingCycle, extractDate(body), None,
        if NonZero(extracted) then 0.9 else 0.7))
  }

  /** The table loop of `mockParseEmail`: it returns at the first key that occurs. */
  method MockParseEmail(subject: string, from: string, body: string, extractDate: string -> Option<string>)
    returns (p: Option<ParsedSubscription>)
    ensures p == MockParse(subject, from, body, extractDate)
  {
    var content := MockContent(subject, from, body);
    var k := 0;
    while k < |MockSubscriptions|
      invariant 0 <= k <= |MockSubscriptions|
      invariant MockLookup(content, k) == MockLookup(content, 0)
    {
      var e := MockSubscriptions[k];
      if Contains(content, e.key) {
        var extracted := ExtractedAmount(subject, body);
        p := Some(ParsedSubscription(
          e.serviceName, None,
          if NonZero(extracted) then extracted.value else e.amount,
          "USD", e.billingCycle, extractDate(body), None,
          if NonZero(extracted) then 0.9 else 0.7));
        return;
      }
      k := k + 1;
    }
    p := None;
  }

  /** A message to the stand-in parser. */
  datatype MockEmail = MockEmail(subject: string, from: string, body: string)

  /** `mockParseEmails`: the non-null results, in input order. */
  function MockParseAll(emails: seq<MockEmail>, extractDate: string -> Option<string>)
    : (r: seq<ParsedSubscription>)
    ensures |r| <= |emails|
    decreases |emails|
  {
    if emails == [] then []
    else
      var rest := MockParseAll(emails[..|emails| - 1], extractDate);
      var last := emails[|emails| - 1];
      match MockParse(last.subject, last.from, last.body, extractDate)
      case Some(p) => rest + [p]
      case None => rest
  }

  /** The push loop of `mockParseEmails`. */
  method MockParseEmails(emails: seq<MockEmail>, extractDate: string -> Option<string>)
    returns (results: seq<ParsedSubscription>)
    ensures results == MockParseAll(emails, extractDate)
  {
    results := [];
    var i := 0;
    while i < |emails|
      invariant 0 <= i <= |emails|
      invariant results == MockParseAll(emails[..i], extractDate)
    {
      var parsed := MockParseEmail(emails[i].subject, emails[i].from, emails[i].body, extractDate);
      PushStep(emails, i, extractDate);
      if parsed.Some? {
        results := results + [parsed.value];
      }
      i := i + 1;
    }
    assert emails[..|emails|] == emails;
  }

  /** One more message of the push loop appends its result, if any. */
  lemma PushStep(emails: seq<MockEmail>, i: nat, extractDate: string -> Option<string>)
    requires i < |emails|
    ensures MockParseAll(emails[..i + 1], extractDate)
      == MockParseAll(emails[..i], extractDate)
         + (match MockParse(emails[i].subject, emails[i].from, emails[i].body, extractDate)
            case Some(p) => [p] case None => [])
  {
    assert emails[..i + 1] == emails[..i] + [emails[i]];
    MockParseAllAppend(emails[..i], emails[i], extractDate);
  }

  /** The stand-in parser recognises the message. */
  predicate Recognised(m: MockEmail, extractDate: string -> Option<string>) {
    MockParse(m.subject, m.from, m.body, extractDate).Some?
  }

  /** The positions of the messages the stand-in parser recognises. */
  function RecognisedAt(emails: seq<MockEmail>, extractDate: string -> Option<string>): set<nat> {
    TrueAt(RecognisedFlags(emails, extractDate))
  }

  /** For each message, whether the stand-in parser recognises it. */
  function RecognisedFlags(emails: seq<MockEmail>, extractDate: string -> Option<string>): (fs: seq<bool>)
    ensures |fs| == |emails| && forall i :: 0 <= i < |emails| ==> fs[i] == Recognised(emails[i], extractDate)
  {
    seq(|emails|, i requires 0 <= i < |emails| => Recognised(emails[i], extractDate))
  }

  lemma RecognisedFlagsPrefix(emails: seq<MockEmail>, n: nat, extractDate: string -> Option<string>)
    requires n <= |emails|
    ensures RecognisedFlags(emails, extractDate)[..n] == RecognisedFlags(emails[..n], extractDate)
  {
    var init := emails[..n];
    assert forall k :: 0 <= k < n ==> init[k] == emails[k];
  }

  /** There is one result per recognised message. */
  lemma {:induction false} MockParseAllCount(emails: seq<MockEmail>, extractDate: string -> Option<string>)
    ensures |MockParseAll(emails, extractDate)| == |RecognisedAt(emails, extractDate)|
    decreases |emails|
  {
    if emails != [] {
      var n := |emails| - 1;
      var init := emails[..n];
      MockParseAllCount(init, extractDate);
      var flags := RecognisedFlags(emails, extractDate);
      RecognisedFlagsPrefix(emails, n, extractDate);
      TrueAtStep(flags);
      assert flags[n] == Recognised(emails[n], extractDate);
    }
  }

  /** Appending a message appends its result, if any: earlier results are untouched. */
  lemma MockParseAllAppend(emails: seq<MockEmail>, m: MockEmail, extractDate: string -> Option<string>)
    ensures MockParseAll(emails + [m], extractDate)
      == MockParseAll(emails, extractDate)
         + (match MockParse(m.subject, m.from, m.body, extractDate) case Some(p) => [p] case None => [])
  {
    assert (emails + [m])[..|emails|] == emails;
  }

  /**
   * "gym" comes before "planet fitness" in the table, so a message mentioning
   * both, and none of the earlier keys, is read as a gym membership.
   */
  lemma GymBeforePlanetFitness(subject: string, from: string, body: string, extractDate: string -> Option<string>)
    requires var c := MockContent(subject, from, body);
      && Contains(c, "gym") && Contains(c, "planet fitness")
      && !Contains(c, "netflix") && !Contains(c, "spotify") && !Contains(c, "adobe")
      && !Contains(c, "openai") && !Contains(c, "chatgpt")
    ensures MockParse(subject, from, body, extractDate).Some?
    ensures MockParse(subject, from, body, extractDate).value.serviceName == "Gym Membership"
  {
    var c := MockContent(subject, from, body);
    assert MockLookup(c, 5) == Some(5);
    assert MockLookup(c, 0) == Some(5);
  }

  /** With a non-zero `$N` in the body, the body's amount is used and the confidence is 0.9. */
  lemma BodyAmountWins(subject: string, from: string, body: string, extractDate: string -> Option<string>)
    requires MockParse(subject, from, body, extractDate).Some?
    requires NonZero(ExtractAmount(body))
    ensures MockParse(subject, from, body, extractDate).value.amount == ExtractAmount(body).value
    ensures MockParse(subject, from, body, extractDate).value.confidence == 0.9
  {
  }

  /** The amount of `"$45.00"` reads as 45. */
  lemma FixtureAmount()
    ensures ExtractAmount("$45.00") == Some(45.0)
  {
    FixtureMatch();
    FixtureValue();
    assert "$45.00"[1..6] == "45.00";
  }

  lemma FixtureMatch()
    ensures FirstMatch("$45.00", DollarAmount, 0) == Some(Span(1, 6))
  {
    var t := "$45.00";
    assert RunEnd(t, 3, true) == 3;
    assert RunEnd(t, 1, true) == 3;
    assert RunEnd(t, 6, true) == 6;
    assert RunEnd(t, 4, true) == 6;
    assert MatchAt(t, DollarAmount, 0) == Some(Span(1, 6));
  }

  lemma FixtureValue()
    ensures ParseDecimal("45.00") == Num(45.0)
  {
    var c := "45.00";
    assert RunEnd(c, 2, true) == 2;
    assert RunEnd(c, 0, true) == 2;
    assert RunEnd(c, 5, true) == 5;
    assert RunEnd(c, 3, true) == 5;
    assert c[..2] == "45" && c[3..5] == "00";
    assert DigitsValue("4") == 4;
    assert DigitsValue("45") == 45;
    assert DigitsValue("0") == 0;
    assert DigitsValue("00") == 0;
  }
}
