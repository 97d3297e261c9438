# BillDrop subscription scan — a Dafny model

BillDrop reads a user's Gmail, picks out the messages that look like
subscription bills, reads the service, amount and billing cycle out of each,
and stores what it finds as unconfirmed subscriptions for the user to review.
This project models that pipeline and proves what each stage promises.

- **Filter** (`src/lib/email/filter.ts`): the keyword and service-table filter.
  It excludes messages, looks for keywords, names the service (known table,
  dynamic patterns, sender domain), looks for amounts, applies the inclusion
  rule, scores confidence, and sorts candidates best first. It also builds the
  hints that are later passed to the parsers.
- **Parser** (`src/lib/ai/parser.ts`): the language-model parser. It cleans the
  body, builds the prompt, and validates the reply. The regex fallback parser
  lives here too.
- **MockParser** (`src/lib/ai/mock-parser.ts`): the fixture parser used when no
  model key is configured.
- **Amounts**: the amount regular expressions and `parseFloat`, shared by the
  three parsers.
- **Gmail** (`src/lib/email/gmail.ts`): the pieces of the mailbox adapter.
  These are the paginated id listing, the multipart batch request body,
  message construction from a batch response, and text extraction from MIME
  parts (plain text, nested parts, the HTML fallback). The access-token
  decision is modelled too.
- **Store**: the subscription table as a class over a sequence of records,
  with the `findFirst`, `create` and `update` calls the routes make.
- **ScanRoute**, **ScanBatch**, **ScanStream**: the three scan endpoints
  (`/api/scan`, `/api/scan/batch`, `/api/scan/stream`). Each is a state-changing
  method on the store, proved against a function of the old records. The
  stream route's event sequence is proved to start with connecting and end
  with a closing event, with no closing event before it except the `complete`
  that precedes the error of a failed scan-log write; every `complete` count
  matches the subscription events.
- **Tier** (`src/lib/tier.ts`), **Track** (the tracking toggle) and
  **ExportCsv** (the CSV export). The export is proved to read back into the
  rows it wrote.
- **Scanner** (`src/components/EmailScanner.tsx`): the client's stream reader
  as a class whose fields are the component's state. It is proved to show
  the same panel however the network splits the stream into chunks.

Modules follow the source files; shared string operations are in `Text`, and
`Option` and `Take` are in `Wrappers`. Everything that crosses a process
boundary is a function parameter: the mailbox (`Lister`, `Sender`), the model
call (`ask`), the batch model call (`BatchReader`), base64 and JSON decoding,
and store failures (`fails`).

## Model

| member | source | states |
|---|---|---|
| `Filter.KeywordHitsMembers` | src/lib/email/filter.ts:296-301 | a word is among the matched keywords exactly when it is in the keyword table and occurs in the lower-cased content |
| `Filter.KeywordHitsCount` | src/lib/email/filter.ts:296-301 | the number of matched keywords is the number of table positions whose keyword occurs in the content |
| `Filter.ScanKeywords` | src/lib/email/filter.ts:296-301 | the loop collects the matching keywords in table order and adds 0.1 confidence (10 hundredths) per match |
| `Filter.FirstService` | src/lib/email/filter.ts:303-316 | the chosen known service is the first table entry one of whose patterns occurs; no earlier entry matches, and none matches when there is no result |
| `Filter.FindKnownService` | src/lib/email/filter.ts:304-316 | the loop with its `break` finds that first matching service |
| `Filter.DynamicFrom` | src/lib/email/filter.ts:192-212 | the name is the title-cased, whitespace-collapsed capture of the first pattern (from `k` on) whose capture is non-empty and not a common word (`Filter.FirstAcceptable`), and none when no pattern's capture is; it is never one of the common words |
| `Filter.FirstAcceptable` | src/lib/email/filter.ts:195-208 | the patterns are tried in order: the index found has an acceptable capture and no earlier pattern from `k` on has one; past the last pattern when none has |
| `Filter.FirstDomainLabel` | src/lib/email/filter.ts:217 | the label read from the sender is a non-empty run of `[a-z0-9-]` characters |
| `Filter.DomainLabelAtMatch` | src/lib/email/filter.ts:217 | the sender-domain pattern matches at a position exactly when an `@`, a non-empty run of `[a-z0-9-]`, a `.` and one of com, io, ai, co, org, net, dev, app follow there, and the capture is that run |
| `Filter.FirstDomainLabelLeftmost` | src/lib/email/filter.ts:217 | the label is the capture at the leftmost position where the pattern matches, and there is none exactly when it matches nowhere |
| `Filter.HyphensToSpaces` | src/lib/email/filter.ts:219 | every hyphen of the label becomes a space and every other character stays |
| `Filter.DomainFromSender` | src/lib/email/filter.ts:215-228 | none exactly when there is no domain label or the label with hyphens made spaces is a generic mail domain; otherwise the label with hyphens made spaces, the first character upper-cased and the rest lower-cased, so non-empty, without hyphens and never a generic domain |
| `Filter.ExtractName` | src/lib/email/filter.ts:303-333 | the name step yields the known service, else the dynamic name, else the sender domain, with the matched entry and the 0.3 / 0.25 / 0.15 bonus of that signal |
| `Filter.KnownServiceWins` | src/lib/email/filter.ts:303-316 | a message naming a known service is always included with that service capitalised as its name, the key among its matches and confidence at least 0.3, whatever the dynamic patterns say |
| `Filter.DynamicNameUsed` | src/lib/email/filter.ts:318-323 | with no known service, a non-empty dynamic name is included as the extracted name with a `dynamic:` entry and confidence at least 0.25 |
| `Filter.DomainNameUsed` | src/lib/email/filter.ts:324-331 | with neither a known service nor a dynamic name, the sender domain is included as the extracted name with a `domain:` entry and confidence at least 0.15 |
| `Filter.ScanAmounts` | src/lib/email/filter.ts:336-344 | the loop reports an amount exactly when one of the amount patterns matches the content |
| `Filter.ShouldInclude` | src/lib/email/filter.ts:366-378 | the inclusion rule is a known service, any extracted name, a strong keyword, or a payment provider with an amount or a medium keyword, or a medium keyword with an amount and two matches; the lines after the statement's semicolon are never evaluated |
| `Filter.Decide` | src/lib/email/filter.ts:366-391 | an included message is pushed with its fields, deduplicated matches, capped confidence and extracted name; a message the rule rejects is dropped |
| `Filter.Dedup` | src/lib/email/filter.ts:387 | the deduplicated list holds the same words as its input, each once |
| `Filter.Cap` | src/lib/email/filter.ts:388 | the result is at most 1.0 and at most the input, and is either the input or 1.0: the minimum of the two |
| `Filter.Classify` | src/lib/email/filter.ts:278-391 | an excluded message is never a candidate; a non-excluded message with any service name always is; a candidate keeps the message's id, subject, sender, date and body, has confidence at most 1.0 and distinct matches |
| `Filter.ClassifyEmail` | src/lib/email/filter.ts:278-391 | the loop body for one message computes that verdict |
| `Filter.NamedVerdict` | src/lib/email/filter.ts:366-368 | a named, non-excluded message is included with the extracted name, the name's entry among its matches and at least the name's bonus as confidence |
| `Filter.ConfidenceBreakdown` | src/lib/email/filter.ts:292-341 | a candidate's confidence is the cap of 0.1 per matching keyword, plus the name bonus, plus 0.2 when an amount occurs |
| `Filter.KeywordRecorded` | src/lib/email/filter.ts:296-298 | every table keyword that occurs in an included message is among its recorded matches |
| `Filter.SortDescCorrect` | src/lib/email/filter.ts:395 | the sort orders by confidence, highest first; it is a permutation of its input and stable, keeping the input order among equal confidences |
| `Filter.SortByConfidence` | src/lib/email/filter.ts:395 | the in-place insertion sort on the array leaves exactly that stable sort of the original contents |
| `Filter.InsertInto` | src/lib/email/filter.ts:395 | one pass places element `i` after every earlier entry of at least its confidence and leaves the rest of the array alone |
| `Filter.FilterSubscriptionEmails` | src/lib/email/filter.ts:273-398 | the filter returns the candidates of all messages, in message order, stably sorted by confidence |
| `Filter.FilterOutput` | src/lib/email/filter.ts:273-398 | the filter's output is sorted and a permutation of the included messages; each entry comes from a non-excluded message; every non-excluded message with a service name is in it |
| `Filter.HintAmountFrom` | src/lib/email/filter.ts:426-438 | a hinted amount is non-negative and comes from a pattern that matches |
| `Filter.ExtractSubscriptionHints` | src/lib/email/filter.ts:401-451 | the hint's service is the filter's extracted name whenever that is non-empty; a hinted amount is never negative |
| `Filter.HintReadsDollarSubject` | src/lib/email/filter.ts:427-436 | a subject of the form `$n` gives the hinted amount `n` |
| `Amounts.ParseDecimal` | src/lib/ai/parser.ts:154 | `parseFloat` of a comma-free capture is a number exactly when it starts with a digit or with a point followed by a digit, and such a number is non-negative |
| `Amounts.ParseFloat` | src/lib/ai/parser.ts:101 | `parseFloat` of text starting with a digit is its decimal prefix; a negative result needs a minus sign in the text |
| `Amounts.RemoveCommas` | src/lib/ai/parser.ts:154 | no comma is left, the text does not grow, and every other character occurs as often as before (`multiset(r) == multiset(s)[',' := 0]`) |
| `Amounts.FirstMatch` | src/lib/email/filter.ts:153-167 | the match found is the pattern's match at the leftmost position from the search start where it matches (`Amounts.LeftmostAt`), as `String.prototype.match` reports it, ending inside the text; none exactly when the pattern matches at no position |
| `Amounts.LeftmostAt` | src/lib/email/filter.ts:153-167 | the position found is the first one from the start on where the pattern matches; past the end of the text when there is none |
| `Amounts.DigitsBelowPow10` | src/lib/ai/parser.ts:154 | a run of n digits is worth less than 10^n, so the digits after the point add less than one |
| `Amounts.ParseRendered` | src/lib/ai/mock-parser.ts:73 | a decimal rendering of `n` is parsed back as `n` |
| `Amounts.DigitsCaptureIsNumber` | src/lib/ai/mock-parser.ts:71-73 | a capture starting with a digit always parses as a number |
| `Amounts.CommaCaptureIsNaN` | src/lib/ai/parser.ts:140-154 | on `$,` the `[\d,]+` capture is the lone comma, and `parseFloat` of it with commas removed is NaN |
| `Parser.FloatOr` | src/lib/ai/parser.ts:101-106 | `parseFloat(x) \|\| d` is the parsed number when it is a non-zero number, and `d` when it is NaN or zero |
| `Parser.ValidateReply` | src/lib/ai/parser.ts:88-107 | a reply is accepted exactly when its subscription flag, name and amount are all truthy; the result has the reply's name, no description, the amount read by `parseFloat` (0 when that gives NaN or 0), the reply's currency upper-cased or USD, its cycle or monthly, its next billing date and cancellation URL when truthy, and confidence defaulting to 0.8 |
| `Parser.CleanBody` | src/lib/ai/parser.ts:51-55 | the body sent to the model is the first 2000 characters (or all, if fewer) of the body with newline runs and whitespace runs made single spaces and trimmed; it is single-spaced and starts without whitespace |
| `Parser.ParseEmailWithAI` | src/lib/ai/parser.ts:44-115 | a failed model call, or a reply that does not parse, gives no subscription; otherwise the result is the validated reply to the prompt built from the message |
| `Parser.ZeroAmountRejected` | src/lib/ai/parser.ts:94-97 | a reply with amount 0, `""` or null is rejected |
| `Parser.ReplyFieldsUnchecked` | src/lib/ai/parser.ts:99-107 | a negative amount and an unknown billing cycle in the reply are accepted as given |
| `Parser.SenderLabel` | src/lib/ai/parser.ts:129-133 | the sender label read by the fallback is non-empty |
| `Parser.SenderLabelAtMatch` | src/lib/ai/parser.ts:129 | `@([a-z0-9]+)\.` matches at a position exactly when an `@`, a non-empty run of ASCII letters and digits and a `.` follow there, and the capture is that run |
| `Parser.SenderLabelLeftmost` | src/lib/ai/parser.ts:129-133 | the label is the capture at the leftmost position where the pattern matches, and there is none exactly when it matches nowhere |
| `Parser.FallbackAmount` | src/lib/ai/parser.ts:138-161 | the fallback's currency is one of USD, NGN, EUR, GBP and a numeric amount is never negative |
| `Parser.FallbackAmountRule` | src/lib/ai/parser.ts:138-159 | the first pattern that matches decides: its capture without commas read as a number, and its currency, which is the one its source text names (NGN exactly for `₦` and `NGN`, EUR for `€`, GBP for `£`) |
| `Parser.FallbackNoAmount` | src/lib/ai/parser.ts:147-159 | with no pattern matching, the amount stays 0 and the currency USD |
| `Parser.FallbackCurrencyFromSource` | src/lib/ai/parser.ts:138-157 | the currency paired with each pattern is the one the `pattern.source` tests pick for its source text |
| `Parser.ScanFallbackAmount` | src/lib/ai/parser.ts:151-161 | the pattern loop with its `break` finds that amount and currency |
| `Parser.FallbackCycle` | src/lib/ai/parser.ts:165-171 | the cycle is yearly exactly when the content mentions annual, yearly or year; weekly exactly when it mentions neither but weekly or week; monthly otherwise |
| `Parser.FallbackName` | src/lib/ai/parser.ts:127-134 | a non-empty hint is the name; otherwise the capitalised sender label, if any |
| `Parser.ParseEmailFallbackAsWritten` | src/lib/ai/parser.ts:118-182 | the fallback as written never returns amount 0 but can return NaN |
| `Parser.FallbackAcceptsNaN` | src/lib/ai/parser.ts:151-163 | on body `$,` with hint Acme, the fallback as written returns amount NaN |
| `Parser.ParseEmailFallback` | src/lib/ai/parser.ts:118-182 | a result exists exactly when there is a name and the first matching amount pattern (`Parser.FallbackAmount`) gives a number other than zero, and then its amount and currency are that pattern's; without a name there is no result; a result carries that name, a positive amount, a known currency, the cycle read from the content, confidence 0.5 and no date, link or description |
| `Parser.FallbackAgreesOnNumbers` | src/lib/ai/parser.ts:118-182 | the corrected fallback returns a result exactly when the as-written one returns a numeric amount, and then they agree field by field |
| `Parser.FallbackNeedsName` | src/lib/ai/parser.ts:127-136 | with no hint and no sender label, neither version of the fallback returns anything |
| `MockParser.ExtractAmount` | src/lib/ai/mock-parser.ts:70-76 | an amount is read exactly when a `$` followed by a digit occurs; it is the non-negative parse of the match the search finds, which is the leftmost (`Amounts.FirstMatch`) |
| `MockParser.ExtractedAmount` | src/lib/ai/mock-parser.ts:118 | the body's amount is used when it is non-zero; otherwise the subject's |
| `MockParser.MockLookup` | src/lib/ai/mock-parser.ts:115-116 | the fixture chosen is the first table entry whose key occurs in the content; no earlier key occurs |
| `MockParser.MockParse` | src/lib/ai/mock-parser.ts:104-134 | a message is recognised exactly when a table key occurs; the result has the entry's name and cycle, USD, the given date, and either the extracted amount with confidence 0.9 or the entry's amount with 0.7 |
| `MockParser.MockParseEmail` | src/lib/ai/mock-parser.ts:112-133 | the lookup loop with its early return computes that reading |
| `MockParser.MockParseEmails` | src/lib/ai/mock-parser.ts:136-149 | the loop keeps, in order, the reading of every recognised message |
| `MockParser.MockParseAllCount` | src/lib/ai/mock-parser.ts:136-149 | the number of results is the number of recognised messages |
| `MockParser.MockParseAllAppend` | src/lib/ai/mock-parser.ts:141-146 | one more message adds its reading at the end, if it is recognised |
| `MockParser.GymBeforePlanetFitness` | src/lib/ai/mock-parser.ts:32-41 | when both "gym" and "planet fitness" occur (and no earlier key), the earlier Gym Membership entry wins |
| `MockParser.BodyAmountWins` | src/lib/ai/mock-parser.ts:118-128 | a non-zero amount in the body is the reading's amount, with confidence 0.9 |
| `MockParser.FixtureAmount` | src/lib/ai/mock-parser.ts:71-73 | `$45.00` reads as 45 |
| `Gmail.PagesRead` | src/lib/email/gmail.ts:100-132 | the listing sends at least one and at most 20 page requests |
| `Gmail.CollectIsConcat` | src/lib/email/gmail.ts:102-132 | the ids collected are the pages read, concatenated in order |
| `Gmail.MessageIdsBounded` | src/lib/email/gmail.ts:100-137 | the ids listed are a prefix of the pages read, at most 20 pages, and never more than `maxEmails` when it is set |
| `Gmail.FailureKeepsIds` | src/lib/email/gmail.ts:113-117 | a failed page request ends the listing with the ids collected so far |
| `Gmail.ListMessageIds` | src/lib/email/gmail.ts:97-137 | the `do … while` loop and the final cut list exactly those ids |
| `Gmail.ExtractText` | src/lib/email/gmail.ts:145-147 | absent parts give the empty text; present parts give their text |
| `Gmail.HtmlFallback` | src/lib/email/gmail.ts:161-179 | the text of the first HTML part with data from `i` on (`Gmail.FirstHtml`), converted; empty when there is none; so empty or single-spaced and trimmed |
| `Gmail.FirstHtml` | src/lib/email/gmail.ts:162-163 | the parts are tried in order: the index found is an HTML part with data and no earlier part from `i` on is one; the end of the list when none is |
| `Gmail.PlainBeatsHtml` | src/lib/email/gmail.ts:148-177 | a plain-text part with data always yields text before the HTML fallback is tried |
| `Gmail.NestedWins` | src/lib/email/gmail.ts:150-153 | non-empty text in the first part's nested parts is returned as is |
| `Gmail.PlainAfterHtml` | src/lib/email/gmail.ts:155-177 | a plain part after an HTML part wins: its decoded data is the text |
| `Gmail.RemoveBlocks` | src/lib/email/gmail.ts:167-168 | removing style and script blocks never makes the text longer, and a text without `<` is left as it is |
| `Gmail.TagEnd` | src/lib/email/gmail.ts:169 | a tag runs from `<` to the first `>` with at least one character between them |
| `Gmail.NoTagLeft` | src/lib/email/gmail.ts:169 | after the tag replacement no `<…>` tag is left in the text |
| `Gmail.HtmlToText` | src/lib/email/gmail.ts:166-175 | the converted text is single-spaced with no whitespace at either end; a text with no `<` and no `&` that is already so comes back unchanged |
| `Gmail.ReplaceTags` | src/lib/email/gmail.ts:169 | a text without `<` has no tag to replace and is left as it is |
| `Gmail.TagsRemoved` | src/lib/email/gmail.ts:167-169 | after the block and tag steps no tag is left |
| `Gmail.HeaderValue` | src/lib/email/gmail.ts:272-274 | the value is that of the first header whose lower-cased name matches, and empty when there is none |
| `Gmail.ToEmail` | src/lib/email/gmail.ts:266-299 | a response part without headers is skipped; otherwise the message keeps the id, thread id, snippet, subject, sender and date, and its body is the prefix of the snippet-prefixed body of length min(its length, 5000) |
| `Gmail.SnippetFirst` | src/lib/email/gmail.ts:287-298 | a non-empty snippet opens the body with its marker |
| `Gmail.ChunksBounded` | src/lib/email/gmail.ts:187-188 | every batch of ids holds between one and the batch size |
| `Gmail.ChunksCover` | src/lib/email/gmail.ts:187-188 | the batches, joined, are all the ids in order |
| `Gmail.Sections` | src/lib/email/gmail.ts:198-204 | one request section per id, numbered from 0 |
| `Gmail.BuildBatchBody` | src/lib/email/gmail.ts:196-205 | the loop builds the sections in order followed by the closing delimiter |
| `Gmail.BuildAll` | src/lib/email/gmail.ts:238-305 | a batch response gives at most one message per part |
| `Gmail.FailedBatchSkipped` | src/lib/email/gmail.ts:217-220 | a batch whose request fails adds no message |
| `Gmail.FetchAllSnoc` | src/lib/email/gmail.ts:187-313 | the messages of the batches so far plus one more batch are the earlier messages followed by that batch's messages |
| `Gmail.BuildEmails` | src/lib/email/gmail.ts:238-305 | the loop over a response builds those messages |
| `Gmail.FetchDetails` | src/lib/email/gmail.ts:183-313 | the batch loop returns the messages of every batch of 25 ids, in order |
| `Gmail.SendBatch` | src/lib/email/gmail.ts:193-305 | one batch gives its messages, or none when the request fails |
| `Gmail.AccessToken` | src/lib/email/gmail.ts:356-375 | a refresh is tried exactly when there is a stored token that expires within five minutes and a refresh token; a successful refresh replaces the token; otherwise the stored token, if any, is used |
| `Store.NextOf` | src/app/api/scan/route.ts:112 | no date is stored exactly when the reading has none |
| `Store.Slug` | src/app/api/scan/route.ts:97 | a slug holds no whitespace |
| `Store.SlugIgnoresCase` | src/app/api/scan/route.ts:93-97 | names that differ only in letter case have the same slug |
| `Store.FirstWhere` | src/app/api/scan/route.ts:94-100 | `findFirst` returns the earliest record the query matches, and none exactly when no record matches |
| `Store.NewRecord` | src/app/api/scan/route.ts:104-118 | a new record is the user's, unconfirmed, has the next id, and takes its name, slug and amount from the reading |
| `Store.SubscriptionStore.FindFirst` | src/app/api/scan/route.ts:94-100 | the search loop returns that earliest matching record |
| `Store.SubscriptionStore.Create` | src/app/api/scan/route.ts:104-118 | `create` appends the new record and returns it |
| `Store.SubscriptionStore.SetTracked` | src/app/api/subscriptions/track/route.ts:61-65 | `update` writes the tracked flag of one record and nothing else |
| `Store.WithTracked` | src/app/api/subscriptions/track/route.ts:61-65 | only record `k` changes, and only its tracked flag |
| `Store.AppendFreshSlug` | src/app/api/scan/stream/route.ts:50-111 | appending a record whose slug the user has not used keeps the user's slugs distinct |
| `Store.NoneBySlug` | src/app/api/scan/stream/route.ts:51-58 | when the slug lookup finds nothing, no record of the user has that slug |
| `ScanRoute.ParserFor` | src/app/api/scan/route.ts:87 | the mock parser is used when mock AI is on or no key is set, the model parser otherwise |
| `ScanRoute.Handle` | src/app/api/scan/route.ts:90-121 | a record is created exactly when there is a reading, the store does not fail and the user has no active record with the same slug; it is appended and nothing else changes |
| `ScanRoute.ToParse` | src/app/api/scan/route.ts:71-76 | at most 20 candidates are parsed |
| `ScanRoute.HandleEmail` | src/app/api/scan/route.ts:90-121 | the loop body for one candidate computes that step on the store |
| `ScanRoute.ParseAll` | src/app/api/scan/route.ts:89-123 | the loop over the candidates computes the run of those steps |
| `ScanRoute.ThrewStays` | src/app/api/scan/route.ts:145-148 | once the store throws, the rest of the loop does not run |
| `ScanRoute.PostScan` | src/app/api/scan/route.ts:35-148 | the handler computes the response, the scan record and the new records |
| `ScanRoute.RunAppends` | src/app/api/scan/route.ts:89-123 | the loop only appends records, at most one per candidate, each the user's and unconfirmed with consecutive ids |
| `ScanRoute.RunNoActiveDuplicate` | src/app/api/scan/route.ts:94-121 | no appended record has an active record of the user with the same slug before it |
| `ScanRoute.PostCounts` | src/app/api/scan/route.ts:44-144 | 401 exactly when real mail is used without a token, storing nothing; a 200 reports every message scanned, at most 20 new pending subscriptions and no confirmed ones, records the scan as completed, and the pending list is exactly what was appended |
| `ScanRoute.PostNoActiveDuplicate` | src/app/api/scan/route.ts:89-123 | the handler only appends, and never an active duplicate |
| `ScanRoute.OnlyActiveBlocks` | src/app/api/scan/route.ts:94-118 | a cancelled or dismissed record with the same slug does not block a new one |
| `ScanRoute.MockUnrecognisedCreatesNothing` | src/app/api/scan/route.ts:87-91 | under the mock parser, a candidate without a fixture key creates nothing |
| `ScanBatch.Stored` | src/app/api/scan/batch/route.ts:60-68 | the stored candidate keeps the id, subject, sender, date, name and matches, with the body cut to 3000 characters |
| `ScanBatch.StoredList` | src/app/api/scan/batch/route.ts:60-68 | one stored candidate per filtered message, in order |
| `ScanBatch.InitListsCandidates` | src/app/api/scan/batch/route.ts:40-81 | a listing needs a token and a fetched mailbox; it reports the mailbox size and the sorted candidates with cut bodies |
| `ScanBatch.InitScan` | src/app/api/scan/batch/route.ts:40-81 | the `GET` handler computes that answer |
| `ScanBatch.Inputs` | src/app/api/scan/batch/route.ts:134-136 | one model input per email, with its id |
| `ScanBatch.BatchStart` | src/app/api/scan/batch/route.ts:129-130 | every position lies in a sub-batch of five starting at a multiple of five |
| `ScanBatch.BatchEnd` | src/app/api/scan/batch/route.ts:129-130 | a sub-batch ends five after its start, or at the end of the list |
| `ScanBatch.ReadingByPosition` | src/app/api/scan/batch/route.ts:139-158 | an email's reading is the batch model's reading at its place in its sub-batch when there is one, else the fallback's |
| `ScanBatch.Handle` | src/app/api/scan/batch/route.ts:161-217 | a step appends the one record it creates and otherwise leaves the records alone |
| `ScanBatch.HandleFacts` | src/app/api/scan/batch/route.ts:161-217 | a created record comes from a reading with a non-zero amount or a trial, matches no record by slug or by name and amount, and is the new record built from the reading; a match creates nothing; conversely every reading with no store failure, no match and a non-zero amount or a trial is created |
| `ScanBatch.HandlerFacts` | src/app/api/scan/batch/route.ts:161-217 | for every store, reading and failure the step appends at most the user's unconfirmed record and adds no duplicate |
| `ScanBatch.NoDuplicatesStep` | src/app/api/scan/batch/route.ts:164-203 | from distinct slugs, a step keeps the slugs distinct |
| `ScanBatch.Advance` | src/app/api/scan/batch/route.ts:230-233 | after the store throws, no further email changes anything |
| `ScanBatch.ThrewStays` | src/app/api/scan/batch/route.ts:230-233 | once thrown, the run stays as it was |
| `ScanBatch.Views` | src/app/api/scan/batch/route.ts:205-212 | one reported view per created record, in order |
| `ScanBatch.HandleEmail` | src/app/api/scan/batch/route.ts:161-217 | the per-email body computes that step on the store |
| `ScanBatch.FallbackReadingAsWritten` | src/app/api/scan/batch/route.ts:157 | the regex reading gives a subscription exactly when the route's `parseEmailFallback` returns one with a numeric amount, and then the same one |
| `ScanBatch.ReadEmail` | src/app/api/scan/batch/route.ts:139-158 | the reading is the model's when given, else the fallback's |
| `ScanBatch.ProcessEmails` | src/app/api/scan/batch/route.ts:129-220 | the loop over sub-batches of five computes the run over all emails |
| `ScanBatch.ProcessSubBatch` | src/app/api/scan/batch/route.ts:139-219 | the inner loop extends the run over one sub-batch |
| `ScanBatch.ProcessOne` | src/app/api/scan/batch/route.ts:139-218 | one email extends the run by one step |
| `ScanBatch.PostBatch` | src/app/api/scan/batch/route.ts:99-233 | the `POST` handler computes the response and the new records |
| `ScanBatch.PostCounts` | src/app/api/scan/batch/route.ts:103-229 | 400 exactly when the list is missing or empty; otherwise at most 10 emails are processed, processed plus remaining is the list's length, and no more subscriptions than emails processed are reported |
| `ScanBatch.ProcessCreatesFew` | src/app/api/scan/batch/route.ts:129-220 | at most one record per email, each the user's, unconfirmed, with consecutive ids |
| `ScanBatch.ProcessExtends` | src/app/api/scan/batch/route.ts:129-220 | the run only appends the records it reports as created |
| `ScanBatch.ProcessNoDuplicates` | src/app/api/scan/batch/route.ts:164-203 | the run keeps the user's slugs distinct and adds no duplicate of an earlier record |
| `ScanBatch.PostReportsCreated` | src/app/api/scan/batch/route.ts:205-229 | the response lists exactly the appended records, in order; a 400 changes nothing |
| `ScanBatch.PostAddsNoDuplicate` | src/app/api/scan/batch/route.ts:164-203 | the handler keeps the slugs distinct and adds no duplicate |
| `ScanStream.ParsedFor` | src/app/api/scan/stream/route.ts:41-46 | the model's reading is used when there is one; a fallback reading needs an extracted name and has a positive amount and confidence 0.5 |
| `ScanStream.NextDateFor` | src/app/api/scan/stream/route.ts:77-91 | a given date is kept; otherwise a date is computed from the cycle, and none only for an unknown cycle |
| `ScanStream.Handle` | src/app/api/scan/stream/route.ts:48-113 | a created record is appended, and every other outcome leaves the records alone |
| `ScanStream.HandleFacts` | src/app/api/scan/stream/route.ts:48-113 | an outcome reported to the client needs a reading and no store failure; a created record is the user's, unconfirmed, has a non-zero amount or is a trial, and has a slug no record of the user has; an existing record has the reading's slug; conversely a slug match is reported as the first matching record, and a fresh slug with a non-zero amount or a trial is created |
| `ScanStream.RunKeepsIds` | src/app/api/scan/stream/route.ts:94-109 | record ids stay their positions |
| `ScanStream.RunKeepsSlugsDistinct` | src/app/api/scan/stream/route.ts:50-109 | with the candidates handled in order, the run keeps the user's slugs distinct (concurrent same-slug candidates of one sub-batch are not covered) |
| `ScanStream.RunCreatesUnconfirmed` | src/app/api/scan/stream/route.ts:93-109 | the run only appends, at most one record per candidate, each the user's and unconfirmed |
| `ScanStream.Round` | src/app/api/scan/stream/route.ts:129 | `Math.round` gives the integer within a half of its argument, halves rounding up |
| `ScanStream.ProgressRounds` | src/app/api/scan/stream/route.ts:124-129 | the integer progress formula equals the rounded interpolation between start and end |
| `ScanStream.ProgressBounds` | src/app/api/scan/stream/route.ts:124-129 | progress stays between start and end, at start for none processed and at end for all |
| `ScanStream.ProgressMonotone` | src/app/api/scan/stream/route.ts:122-130 | progress never goes down as more are processed |
| `ScanStream.AnalyzingStatus` | src/app/api/scan/stream/route.ts:126-130 | a status event carries the progress after the candidates processed |
| `ScanStream.FoundEvents` | src/app/api/scan/stream/route.ts:132-148 | a reported outcome sends one subscription event with its view and running count; others send none |
| `ScanStream.StepEvents` | src/app/api/scan/stream/route.ts:122-149 | each candidate sends a status event, then its subscription event if it reports one |
| `ScanStream.EventsFor` | src/app/api/scan/stream/route.ts:122-150 | the loop's events number one per candidate plus one per reported outcome |
| `ScanStream.EventsFoundCount` | src/app/api/scan/stream/route.ts:132-148 | the subscription events are exactly the reported outcomes |
| `ScanStream.EventsCountsInOrder` | src/app/api/scan/stream/route.ts:134-148 | each subscription event's count is one more than the events before it |
| `ScanStream.CountsAfterStep` | src/app/api/scan/stream/route.ts:122-149 | a step keeps the counts in order |
| `ScanStream.EventsProgressBelow` | src/app/api/scan/stream/route.ts:124-130 | every status event's progress lies between start and the progress reached |
| `ScanStream.EventsProgressRises` | src/app/api/scan/stream/route.ts:124-130 | the status events' progress never goes down |
| `ScanStream.ParsedForAsWritten` | src/app/api/scan/stream/route.ts:41-46 | with no model reading and an extracted name, the reading is a subscription exactly when the route's `parseEmailFallback` returns one with a numeric amount, and then the same one |
| `ScanStream.FetchBounded` | src/app/api/scan/stream/route.ts:201 | the mailbox read lists at most 50 message ids |
| `ScanStream.ParseCandidate` | src/app/api/scan/stream/route.ts:40-46 | the model call, then the fallback, give that reading |
| `ScanStream.HandleEmail` | src/app/api/scan/stream/route.ts:48-113 | one candidate's body computes its outcome on the store |
| `ScanStream.HandleNext` | src/app/api/scan/stream/route.ts:37-118 | one more candidate extends the run by one outcome |
| `ScanStream.HandleBatch` | src/app/api/scan/stream/route.ts:33-119 | a sub-batch extends the run by its candidates' outcomes |
| `ScanStream.ReportBatch` | src/app/api/scan/stream/route.ts:122-150 | the results loop counts the outcomes processed and reported and sends their events |
| `ScanStream.ReportOne` | src/app/api/scan/stream/route.ts:122-149 | one result advances both counters and sends its step's events |
| `ScanStream.ProcessEmailBatch` | src/app/api/scan/stream/route.ts:19-154 | the function leaves the records of the run, returns the number reported and sends the run's events |
| `ScanStream.CandidatesFew` | src/app/api/scan/stream/route.ts:214-219 | at most 25 candidates are parsed |
| `ScanStream.Analyze` | src/app/api/scan/stream/route.ts:211-271 | filtering, the cut and the batch processing send the analysis events, and an error after them when the scan-log write throws, and leave the run's records |
| `ScanStream.AnalysisSplit` | src/app/api/scan/stream/route.ts:225-271 | no candidates close the stream with "found 0"; otherwise the run's events are followed by the count of reported subscriptions, then by an error when the scan-log write throws |
| `ScanStream.StreamScan` | src/app/api/scan/stream/route.ts:187-274 | the handler's body computes the whole event stream and the new records |
| `ScanStream.EventsNotTerminal` | src/app/api/scan/stream/route.ts:122-150 | the loop never sends a complete or error event |
| `ScanStream.ScanEndsOnce` | src/app/api/scan/stream/route.ts:187-274 | every stream starts with connecting and ends with a complete or error event; no closing event comes earlier, except that when the scan-log write after the complete event throws, the catch's error follows it |
| `ScanStream.ScanCountMatches` | src/app/api/scan/stream/route.ts:238-255 | every complete event reports as many subscriptions as the stream sent subscription events |
| `ScanStream.AnalysisCountMatches` | src/app/api/scan/stream/route.ts:225-255 | the analysis always sends its complete event, with its count equal to its subscription events; it is the last event unless the scan-log write throws, and then an error follows it |
| `ScanStream.ScanStoresFew` | src/app/api/scan/stream/route.ts:214-246 | a scan only appends, at most 25 records, each the user's and unconfirmed, and, with the candidates handled in order, keeps the user's slugs distinct |
| `Tier.GetTierLimits` | src/lib/tier.ts:32-34 | the pro plan has no tracking limit and may export; every other plan gets the free limits |
| `Tier.CanTrackMoreSubscriptions` | src/lib/tier.ts:36-39 | tracking more is allowed exactly on pro or below ten tracked |
| `Tier.CanTrackMonotone` | src/lib/tier.ts:36-39 | a plan allowed at some count is allowed at every smaller count |
| `Tier.TrackedSubscriptionCount` | src/lib/tier.ts:41-48 | the count is at most the number of subscriptions, and zero exactly when none is tracked, confirmed and neither cancelled nor dismissed |
| `Tier.TrackedCountIsCountedPositions` | src/lib/tier.ts:41-48 | the count is the number of positions holding such a subscription |
| `Tier.NotTrackedNote` | src/lib/tier.ts:55 | more than one excess gives the plural note |
| `Tier.OneNotTracked` | src/lib/tier.ts:55 | exactly one excess gives the singular note |
| `Tier.UpgradeMessage` | src/lib/tier.ts:50-56 | the message is empty exactly at or below ten, and otherwise ends with the note on the excess |
| `Track.EffectiveTier` | src/app/api/subscriptions/track/route.ts:41 | a stored non-empty plan is used; otherwise the free plan |
| `Track.FindOwn` | src/app/api/subscriptions/track/route.ts:35 | the record found is the user's with that id; none exactly when the user has no such record |
| `Track.TrackPost` | src/app/api/subscriptions/track/route.ts:16-70 | the handler computes the answer and the new records |
| `Track.LimitReachedExactly` | src/app/api/subscriptions/track/route.ts:18-57 | 403 exactly when enabling a found record on the free plan with ten or more other tracked records; 400 exactly when the id is missing; 404 exactly when the user has no such record |
| `Track.OnlyTargetWritten` | src/app/api/subscriptions/track/route.ts:60-70 | a successful toggle changes only the target's tracked flag and returns the updated record |
| `Track.EnableKeepsFreeLimit` | src/app/api/subscriptions/track/route.ts:40-65 | after enabling on the free plan at most ten records count as tracked |
| `ExportCsv.Cells` | src/app/api/settings/export/route.ts:34-42 | a row has the seven columns in header order, with empty cells for a missing date or description |
| `ExportCsv.QuoteAll` | src/app/api/settings/export/route.ts:47 | every cell is quoted |
| `ExportCsv.ActiveSubscriptions` | src/app/api/settings/export/route.ts:14-22 | the exported records are exactly the user's active ones |
| `ExportCsv.Export` | src/app/api/settings/export/route.ts:24-30 | 404 exactly when the user row is missing; 403 exactly when the plan is not pro |
| `ExportCsv.ReadRowLine` | src/app/api/settings/export/route.ts:47 | a written row reads back as its cells |
| `ExportCsv.ReadRowLines` | src/app/api/settings/export/route.ts:45-48 | the joined rows read back as the rows |
| `ExportCsv.DocumentReadsBack` | src/app/api/settings/export/route.ts:45-48 | the whole document reads back as the header and the rows |
| `ExportCsv.ExportReadsBack` | src/app/api/settings/export/route.ts:13-50 | for a pro user the export reads back as the header and one seven-cell row per active subscription |
| `ExportCsv.QuoteCellReadsBack` | src/app/api/settings/export/route.ts:47 | a quoted cell reads back as the cell, whatever quotes, commas or line feeds it holds |
| `ExportCsv.ReadEscaped` | src/app/api/settings/export/route.ts:47 | doubling the quotes is undone by the reader |
| `ExportCsv.HeaderHasNoLineFeed` | src/app/api/settings/export/route.ts:33 | the header is one line |
| `Scanner.Frame` | src/app/api/scan/stream/route.ts:183-185 | a server-sent frame starts with `data: ` and ends with a blank line |
| `Scanner.Apply` | src/components/EmailScanner.tsx:90-113 | each event gives the whole new panel: a status event sets the message and progress and updates the email count when non-zero; a subscription event appends its view; complete sets the status, progress 100 and the message; error sets the status and the error; every other field is kept, and any other type changes nothing |
| `Scanner.EventOf` | src/components/EmailScanner.tsx:86-88 | only a `data: ` line yields an event, the decoding of the rest of the line |
| `Scanner.EmailScanner.constructor` | src/components/EmailScanner.tsx:45-51 | the component starts idle with nothing found and no callback called |
| `Scanner.EmailScanner.OnFrame` | src/components/EmailScanner.tsx:85-117 | one frame updates the panel as `Apply` says and touches nothing else |
| `Scanner.EmailScanner.OnFrames` | src/components/EmailScanner.tsx:85-118 | the frames loop applies the frames in order |
| `Scanner.EmailScanner.ReadChunk` | src/components/EmailScanner.tsx:78-118 | a chunk handles the completed lines of buffer plus chunk and keeps the open piece as the buffer |
| `Scanner.EmailScanner.ReadStream` | src/components/EmailScanner.tsx:77-119 | the read loop handles the frames of the reassembled stream |
| `Scanner.EmailScanner.StartScan` | src/components/EmailScanner.tsx:53-125 | a second start does nothing; a first start shows the panel the response leads to |
| `Scanner.EmailScanner.ReadResponse` | src/components/EmailScanner.tsx:64-124 | a body read to its end shows its frames' panel; a throw after some frames shows the error with what was found kept |
| `Scanner.EmailScanner.Retry` | src/components/EmailScanner.tsx:321-324 | a retry starts over and shows the new response's panel |
| `Scanner.EmailScanner.HandleClose` | src/components/EmailScanner.tsx:131-138 | closing during a scan does nothing; otherwise close is called once, completion once if the scan completed, and the start guard is reset |
| `Scanner.HandleFramesAppend` | src/components/EmailScanner.tsx:85-118 | handling frames in two goes is handling them in one |
| `Scanner.FoundAreSubscriptions` | src/components/EmailScanner.tsx:97-101 | the found list gains exactly the subscription events' views, in order |
| `Scanner.ChunkingInvisible` | src/components/EmailScanner.tsx:77-84 | after any chunks, the completed lines and the buffer are the split of all text received, however it was chunked |
| `Scanner.ClosedOpen` | src/components/EmailScanner.tsx:82-83 | `pop` splits the pieces into the completed lines and the open one |
| `Scanner.SplitEncoded` | src/app/api/scan/stream/route.ts:183-185 | the frames of payloads without line feeds split back into their data lines |
| `Scanner.DataLinesAct` | src/components/EmailScanner.tsx:85-113 | the data lines of decodable payloads apply their events in order |
| `Scanner.StreamRoundTrip` | src/components/EmailScanner.tsx:64-119 | whatever the chunking, the client reads the server's frames back as its events, leaves no partial line, and shows exactly the subscriptions sent |
| `Text.CollapseSingleSpaced` | src/lib/ai/parser.ts:53 | replacing whitespace runs by one space leaves single-spaced text |
| `Text.CollapseTrimNormalized` | src/lib/email/filter.ts:202 | collapsing then trimming leaves single-spaced text with no whitespace at either end |
| `Text.Trim` | src/lib/email/filter.ts:202 | the result is the slice of the text left after its leading and trailing whitespace, and neither starts nor ends with whitespace |
| `Text.TrimStartDrops` | src/lib/email/filter.ts:202 | the leading part `trimStart` drops is all whitespace |
| `Text.TrimEndDrops` | src/lib/email/filter.ts:202 | the trailing part `trimEnd` drops is all whitespace |
| `Text.JoinSplit` | src/components/EmailScanner.tsx:82 | joining the pieces of a split with the separator gives back the text |
| `Text.SplitPiecesFree` | src/components/EmailScanner.tsx:82 | no piece of a split holds the separator |
| `Text.SplitAppend` | src/components/EmailScanner.tsx:81-83 | splitting the buffer plus a chunk re-splits only the last piece with the chunk |
| `Text.TitleCaseChars` | src/lib/email/filter.ts:205 | title case upper-cases each word's first letter and lower-cases the rest, keeping the length |
| `Text.LowerTitleCase` | src/lib/email/filter.ts:205 | title case only changes letter case |

## Left out

- Network and storage I/O are function parameters, not modelled: the Gmail list and batch endpoints (`Lister`, `Sender`), the language-model calls (`ask`, and `BatchReader` for `parseEmailsBatchAI`), and database failures (`fails`).
- `parseEmailsBatchAI`, imported by the batch route, is not defined in `src/lib/ai/parser.ts` and is not part of this model; the batch route takes it as the `BatchReader` parameter.
- JSON parsing and serialisation, base64 decoding and `TextDecoder` are parameters. The frame round trip assumes serialised events hold no line feed, which `JSON.stringify` guarantees.
- The dynamic service-name regular expressions of `src/lib/email/filter.ts` (lines 178-189) are an uninterpreted matcher parameter. The amount patterns are hand-coded matchers.
- Case mapping covers ASCII letters only.
- Floating point: amounts and confidences are exact reals; the filter's confidence is kept in integer hundredths. `parseFloat` rounding and exponents are left out.
- Dates are left out: the 30-day cut in `fetchGmailEmails`, `extractDate` (a parameter of the mock parser), the date hint of `extractSubscriptionHints`, and the concrete next-billing dates computed from today.
- `Promise.allSettled` in the stream route runs its five candidates concurrently; the model runs them in order, so races between two candidates of one sub-batch are not captured.
- The multipart batch response parsing of `fetchGmailEmails` is the `Sender` parameter.
- Token refresh I/O is the `refreshed` parameter of `Gmail.AccessToken`; the refresh request itself is not modelled.
- Session checks (401 without a session) and user lookups (404) are left out of the scan routes; the export route's 401 and 500 are left out.
- The contents of the `emailScan` record are modelled in the non-streaming scan route only; in the stream route only the failure of that write is modelled (`recordFails`).
- Logging, the batch route's debug loop and the React rendering, including `formatCurrency`, are left out. The `onSubscriptionFound` callbacks are not recorded.
- Plan names that are built-in object keys (such as `toString`) are treated like any other unknown plan.
- `Track.LimitReachedExactly`: the track route counts records whose flag is not `false`, while `getTrackedSubscriptionCount` in `src/lib/tier.ts` counts only records whose flag is `true`; each is modelled as written, and the two counts differ on records with no flag.
- `Filter.ExtractSubscriptionHints`: does not model the `possibleDate` field.
- `ScanStream.ParsedFor`: uses the corrected `parseEmailFallback`, so a capture of commas only (body `"$,"`) gives no reading, where the route would store a subscription with a NaN amount (see Findings and `ScanStream.ParsedForAsWritten`).
- `ScanStream.ParseCandidate`: same as `ScanStream.ParsedFor`, whose reading it computes.
- `ScanBatch.ReadingByPosition`: the route's regex reading is modelled by the corrected `parseEmailFallback` (`ScanBatch.FallbackReading`), so a NaN amount gives no reading where the route would store one (see Findings and `ScanBatch.FallbackReadingAsWritten`).
- `ScanBatch.ReadEmail`: same as `ScanBatch.ReadingByPosition`.
- `Gmail.ToEmail`: the cut to 5000 characters is in UTF-16 code units in the source and in characters here.
- `Parser.CleanBody`: the cut to 2000 characters (src/lib/ai/parser.ts:51-55) is in UTF-16 code units in the source and in characters here.
- `ScanBatch.Stored`: the `substring(0, 3000)` cut (src/app/api/scan/batch/route.ts:65) is in UTF-16 code units in the source and in characters here.
- `ScanBatch.PostCounts`: a request body that is not JSON, or is JSON `null`, throws inside the route's `try` and gets a 500 (src/app/api/scan/batch/route.ts:100-104, 230-232); the model has no such body, and its `emails: None` (the field missing) gets the 400.
- `ScanStream.RunKeepsSlugsDistinct`: holds for the candidates handled in order; with `Promise.allSettled` (src/app/api/scan/stream/route.ts:36-37) two candidates of one sub-batch with the same slug can both pass the `findFirst` check (lines 51-56) and both be created.
- `ScanStream.ScanStoresFew`: its distinct-slug clause holds in the same ordered reading as `ScanStream.RunKeepsSlugsDistinct`.

## Findings

| source | as written | input that shows it | evidently intended | confidence | as-written member | corrected member |
|---|---|---|---|---|---|---|
| src/lib/ai/parser.ts:163 | the fallback only rejects `amount === 0`, so a capture made only of commas gives `parseFloat('')`, which is NaN, and passes | subject `""`, sender `"x"`, body `"$,"`, hint `Acme`: the result has amount NaN | no result unless the amount is a number other than zero | not executed | `Parser.ParseEmailFallbackAsWritten` (shown by `Parser.FallbackAcceptsNaN`) | `Parser.ParseEmailFallback` (related by `Parser.FallbackAgreesOnNumbers`) |
