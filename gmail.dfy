/**
 * The mailbox adapter: collecting message ids page by page, pulling the text
 * out of a message's MIME parts, assembling the stored message, building the
 * multipart batch requests, and deciding whether the access token needs a
 * refresh. Every network exchange is a parameter.
 */
module Gmail {
  import opened Wrappers
  import opened Text

  // --------------------------------------------------------- pagination

  /** A message reference from a list page. */
  datatype MessageRef = MessageRef(id: string, threadId: string)

  /** One list request's outcome: a non-OK response, or a page of references. */
  datatype ListResponse = Failed | Page(messages: seq<MessageRef>, nextPageToken: Option<string>)

  /** At most this many list requests. */
  const MaxPages: nat := 20

  /** `listPage(k)` is the response to the `k`-th list request (0-based). */
  type Lister = nat -> ListResponse

  function PageMessages(r: ListResponse): seq<MessageRef> {
    if r.Page? then r.messages else []
  }

  /** The references of the first `n` responses, concatenated. */
  function Concat(listPage: Lister, n: nat): seq<MessageRef> {
    if n == 0 then [] else Concat(listPage, n - 1) + PageMessages(listPage(n - 1))
  }

  /** `maxEmails` as the code tests it: absent and 0 mean no limit. */
  predicate Capped(maxEmails: Option<nat>) {
    maxEmails.Some? && maxEmails.value > 0
  }

  /** The page token is truthy. */
  predicate HasNext(r: ListResponse) {
    r.Page? && r.nextPageToken.Some? && r.nextPageToken.value != []
  }

  /**
   * The ids collected by the `do … while` loop when request `k` is about to
   * be sent and `acc` holds the ids so far.
   */
  function Collect(listPage: Lister, maxEmails: Option<nat>, k: nat, acc: seq<MessageRef>): (r: seq<MessageRef>)
    requires k < MaxPages
    ensures acc <= r
    decreases MaxPages - k
  {
    var resp := listPage(k);
    if resp.Failed? then acc
    else
      var acc' := acc + resp.messages;
      if Capped(maxEmails) && |acc'| >= maxEmails.value then acc'
      else if HasNext(resp) && k + 1 < MaxPages then Collect(listPage, maxEmails, k + 1, acc')
      else acc'
  }

  /** The number of responses `Collect` reads. */
  function PagesRead(listPage: Lister, maxEmails: Option<nat>, k: nat, acc: seq<MessageRef>): (n: nat)
    requires k < MaxPages
    ensures k < n <= MaxPages
    decreases MaxPages - k
  {
    var resp := listPage(k);
    if resp.Failed? then k + 1
    else
      var acc' := acc + resp.messages;
      if Capped(maxEmails) && |acc'| >= maxEmails.value then k + 1
      else if HasNext(resp) && k + 1 < MaxPages then PagesRead(listPage, maxEmails, k + 1, acc')
      else k + 1
  }

  /** The ids `fetchGmailEmails` goes on to fetch: the collected ids, cut to `maxEmails`. */
  function MessageIds(listPage: Lister, maxEmails: Option<nat>): (r: seq<MessageRef>) {
    var all := Collect(listPage, maxEmails, 0, []);
    if Capped(maxEmails) && |all| > maxEmails.value then all[..maxEmails.value] else all
  }

  /** Starting from the first `k` pages, `Collect` ends with the first `PagesRead` pages. */
  lemma {:induction false} CollectIsConcat(listPage: Lister, maxEmails: Option<nat>, k: nat)
    requires k < MaxPages
    ensures Collect(listPage, maxEmails, k, Concat(listPage, k))
      == Concat(listPage, PagesRead(listPage, maxEmails, k, Concat(listPage, k)))
    decreases MaxPages - k
  {
    var resp := listPage(k);
    if resp.Page? {
      assert Concat(listPage, k) + resp.messages == Concat(listPage, k + 1);
      var acc' := Concat(listPage, k + 1);
      if !(Capped(maxEmails) && |acc'| >= maxEmails.value) && HasNext(resp) && k + 1 < MaxPages {
        CollectIsConcat(listPage, maxEmails, k + 1);
      }
    } else {
      assert Concat(listPage, k + 1) == Concat(listPage, k);
    }
  }

  /**
   * At most 20 pages are read, the ids are a prefix of those pages in order,
   * and with a limit there are at most that many.
   */
  lemma MessageIdsBounded(listPage: Lister, maxEmails: Option<nat>)
    ensures var n := PagesRead(listPage, maxEmails, 0, []);
      n <= MaxPages && MessageIds(listPage, maxEmails) <= Concat(listPage, n)
    ensures Capped(maxEmails) ==> |MessageIds(listPage, maxEmails)| <= maxEmails.value
  {
    CollectIsConcat(listPage, maxEmails, 0);
  }

  /** A failed request ends the loop and keeps what was collected before it. */
  lemma FailureKeepsIds(listPage: Lister, maxEmails: Option<nat>, k: nat, acc: seq<MessageRef>)
    requires k < MaxPages && listPage(k).Failed?
    ensures Collect(listPage, maxEmails, k, acc) == acc
  {
  }

  /** The paginating `do … while` loop and the final cut. */
  method ListMessageIds(listPage: Lister, maxEmails: Option<nat>) returns (ids: seq<MessageRef>)
    ensures ids == MessageIds(listPage, maxEmails)
  {
    ids := [];
    var pageCount := 0;
    ghost var all := Collect(listPage, maxEmails, 0, []);
    while true
      invariant pageCount < MaxPages
      invariant Collect(listPage, maxEmails, pageCount, ids) == all
      decreases MaxPages - pageCount
    {
      var resp := listPage(pageCount);
      if resp.Failed? {
        assert ids == all;
        break;
      }
      ids := ids + resp.messages;
      if Capped(maxEmails) && |ids| >= maxEmails.value {
        assert ids == all;
        break;
      }
      if !(HasNext(resp) && pageCount + 1 < MaxPages) {
        assert ids == all;
        break;
      }
      pageCount := pageCount + 1;
    }
    assert ids == all;
    if Capped(maxEmails) && |ids| > maxEmails.value {
      ids := ids[..maxEmails.value];
    }
  }

  // ------------------------------------------------------ MIME text

  /**
   * A MIME part: its type, its base64 body data when present, and its
   * sub-parts. An absent `parts` list is the empty list here: the code gets
   * `''` from both.
   */
  datatype Part = Part(mimeType: string, data: Option<string>, parts: seq<Part>)

  /** `part.body?.data` is truthy. */
  predicate HasData(p: Part) {
    p.data.Some? && p.data.value != []
  }

  predicate IsPlain(p: Part) {
    p.mimeType == "text/plain" && HasData(p)
  }

  predicate IsHtml(p: Part) {
    p.mimeType == "text/html" && HasData(p)
  }

  /** `decode` stands for base64 decoding to UTF-8 text. */
  type Decoder = string -> string

  /** `extractTextFromParts`: `''` for absent parts. */
  function ExtractText(parts: Option<seq<Part>>, decode: Decoder): (r: string)
    ensures parts.None? ==> r == []
    ensures parts.Some? ==> r == TextOf(parts.value, decode)
  {
    match parts
    case None => []
    case Some(ps) => TextOf(ps, decode)
  }

  /**
   * The text of a list of parts: the first non-empty nested text or
   * plain-text part, depth first; failing that, the first HTML part of this
   * level.
   */
  function TextOf(ps: seq<Part>, decode: Decoder): (r: string)
    decreases ps, 1
  {
    match FirstText(ps, 0, decode)
    case Some(t) => t
    case None => HtmlFallback(ps, 0, decode)
  }

  /** The text found below one part. */
  function NestedText(p: Part, decode: Decoder): string
    decreases p
  {
    TextOf(p.parts, decode)
  }

  /** The depth-first loop over the parts from `i` on. */
  function FirstText(ps: seq<Part>, i: nat, decode: Decoder): (r: Option<string>)
    decreases ps, 0, |ps| - i
  {
    if i >= |ps| then None
    else
      var nested := NestedText(ps[i], decode);
      if nested != [] then Some(nested)
      else if IsPlain(ps[i]) then Some(decode(ps[i].data.value))
      else FirstText(ps, i + 1, decode)
  }

  /** The first HTML part with data at or after `i`; `|ps|` (or `i` past the end) when there is none. */
  function FirstHtml(ps: seq<Part>, i: nat): (j: nat)
    ensures i <= j && (j <= |ps| || j == i)
    ensures j < |ps| ==> IsHtml(ps[j])
    ensures forall k :: i <= k < j && k < |ps| ==> !IsHtml(ps[k])
    decreases |ps| - i
  {
    if i >= |ps| || IsHtml(ps[i]) then i else FirstHtml(ps, i + 1)
  }

  /**
   * The second loop: the first HTML part from `i` on, as text; the empty
   * text when there is none.
   */
  function HtmlFallback(ps: seq<Part>, i: nat, decode: Decoder): (r: string)
    ensures r == [] || Normalized(r)
    ensures var j := FirstHtml(ps, i);
      r == if j < |ps| then HtmlToText(decode(ps[j].data.value)) else []
    decreases |ps| - i
  {
    if i >= |ps| then []
    else if IsHtml(ps[i]) then HtmlToText(decode(ps[i].data.value))
    else HtmlFallback(ps, i + 1, decode)
  }

  /** A plain-text part at this level means the HTML fallback is not reached. */
  lemma {:induction false} PlainBeatsHtml(ps: seq<Part>, i: nat, j: nat, decode: Decoder)
    requires i <= j < |ps| && IsPlain(ps[j])
    ensures FirstText(ps, i, decode).Some?
    decreases j - i
  {
    if NestedText(ps[i], decode) == [] && !IsPlain(ps[i]) {
      PlainBeatsHtml(ps, i + 1, j, decode);
    }
  }

  /** Nested text of an earlier part wins over anything later. */
  lemma NestedWins(ps: seq<Part>, decode: Decoder)
    requires |ps| > 0 && TextOf(ps[0].parts, decode) != []
    ensures ExtractText(Some(ps), decode) == TextOf(ps[0].parts, decode)
  {
    assert FirstText(ps, 0, decode) == Some(NestedText(ps[0], decode));
  }

  /** A later plain-text part beats an earlier HTML part of the same level. */
  lemma PlainAfterHtml(html: Part, plain: Part, decode: Decoder)
    requires IsHtml(html) && html.parts == [] && IsPlain(plain) && plain.parts == []
    ensures ExtractText(Some([html, plain]), decode) == decode(plain.data.value)
  {
    var ps := [html, plain];
    assert TextOf([], decode) == [];
    assert FirstText(ps, 1, decode) == Some(decode(plain.data.value));
    assert FirstText(ps, 0, decode) == FirstText(ps, 1, decode);
  }

  // ------------------------------------------------------ HTML to text

  /**
   * The end of the `<tag[^>]*>[\s\S]*?</tag>` block that starts at 0 (the tag
   * compared case-insensitively), if one does.
   */
  function BlockEnd(s: string, tag: string): (e: Option<nat>)
    ensures e.Some? ==> 0 < e.value <= |s|
  {
    var low := Lower(s);
    if !StartsWith(low, "<" + tag) then None
    else
      var g := IndexOf(low, ">", |tag| + 1);
      if g < 0 then None
      else
        var c := IndexOf(low, "</" + tag + ">", g + 1);
        if c < 0 then None else Some(c + |tag| + 3)
  }

  /** `s.replace(/<tag[^>]*>[\s\S]*?<\/tag>/gi, '')`. */
  function RemoveBlocks(s: string, tag: string): (r: string)
    ensures |r| <= |s|
    ensures '<' !in s ==> r == s
    decreases |s|
  {
    if s == [] then []
    else
      assert '<' !in s ==> BlockEnd(s, tag).None? by {
        if '<' !in s {
          assert Lower(s)[0] != '<';
          assert ("<" + tag)[0] == '<';
        }
      }
      match BlockEnd(s, tag)
      case Some(e) => RemoveBlocks(s[e..], tag)
      case None => [s[0]] + RemoveBlocks(s[1..], tag)
  }

  /** The end of the `<[^>]+>` tag that starts at 0, if one does. */
  function TagEnd(s: string): (e: Option<nat>)
    ensures e.Some? ==> 2 < e.value <= |s| && s[0] == '<' && s[e.value - 1] == '>'
    ensures e.Some? ==> forall k :: 0 < k < e.value - 1 ==> s[k] != '>'
    ensures e.None? && s != [] && s[0] == '<' ==>
      (|s| > 1 && s[1] == '>') || forall k :: 0 < k < |s| ==> s[k] != '>'
  {
    if s == [] || s[0] != '<' then None
    else
      var g := IndexOf(s, ">", 1);
      if g < 0 then
        assert forall k :: 0 < k < |s| ==> s[k] != '>' by {
          forall k | 0 < k < |s| ensures s[k] != '>' {
            assert !OccursAt(s, ">", k);
            assert s[k..k + 1] == [s[k]];
          }
        }
        None
      else if g == 1 then None
      else
        assert s[g..g + 1] == ">";
        assert forall k :: 0 < k < g ==> s[k] != '>' by {
          forall k | 0 < k < g ensures s[k] != '>' {
            assert !OccursAt(s, ">", k);
            assert s[k..k + 1] == [s[k]];
          }
        }
        Some(g + 1)
  }

  /** `s.replace(/<[^>]+>/g, ' ')`. */
  function ReplaceTags(s: string): (r: string)
    ensures '<' !in s ==> r == s
    decreases |s|
  {
    if s == [] then []
    else match TagEnd(s)
      case Some(e) => " " + ReplaceTags(s[e..])
      case None => [s[0]] + ReplaceTags(s[1..])
  }

  /** The text matches `<[^>]+>` at `i`. */
  predicate TagAt(r: string, i: nat, j: nat) {
    i + 1 < j < |r| && r[i] == '<' && r[j] == '>' && forall k :: i < k < j ==> r[k] != '>'
  }

  /** Every `>` left by `ReplaceTags` was in its input. */
  lemma {:induction false} ReplaceTagsGt(s: string, j: nat)
    requires j < |ReplaceTags(s)| && ReplaceTags(s)[j] == '>'
    ensures exists k :: 0 <= k < |s| && s[k] == '>'
    decreases |s|
  {
    var r := ReplaceTags(s);
    match TagEnd(s)
    case Some(e) =>
      assert r == " " + ReplaceTags(s[e..]);
      ReplaceTagsGt(s[e..], j - 1);
      var k :| 0 <= k < |s[e..]| && s[e..][k] == '>';
      assert s[e + k] == '>';
    case None =>
      assert r == [s[0]] + ReplaceTags(s[1..]);
      if j == 0 {
        assert s[0] == '>';
      } else {
        ReplaceTagsGt(s[1..], j - 1);
        var k :| 0 <= k < |s[1..]| && s[1..][k] == '>';
        assert s[k + 1] == '>';
      }
  }

  /** `ReplaceTags` keeps a leading `>`. */
  lemma ReplaceTagsHead(s: string)
    requires s != [] && s[0] == '>'
    ensures ReplaceTags(s) != [] && ReplaceTags(s)[0] == '>'
  {
  }

  /** `<>` at the start is kept as it is. */
  lemma ReplaceTagsSecond(s: string)
    requires |s| > 1 && s[0] == '<' && s[1] == '>'
    ensures |ReplaceTags(s)| > 1 && ReplaceTags(s)[1] == '>'
  {
    assert TagEnd(s).None?;
    ReplaceTagsHead(s[1..]);
    assert ReplaceTags(s) == [s[0]] + ReplaceTags(s[1..]);
  }

  /** A `>` after a kept `<` comes from a `>` after it in the input. */
  lemma GtAfterOpen(s: string, j: nat)
    requires s != [] && TagEnd(s).None? && 0 < j < |ReplaceTags(s)| && ReplaceTags(s)[j] == '>'
    ensures exists k :: 0 < k < |s| && s[k] == '>'
  {
    assert ReplaceTags(s) == [s[0]] + ReplaceTags(s[1..]);
    ReplaceTagsGt(s[1..], j - 1);
    var k :| 0 <= k < |s[1..]| && s[1..][k] == '>';
    assert s[k + 1] == '>';
  }

  /** No tag survives `ReplaceTags`. */
  lemma {:induction false} NoTagLeft(s: string, i: nat, j: nat)
    requires TagAt(ReplaceTags(s), i, j)
    ensures false
    decreases |s|
  {
    match TagEnd(s)
    case Some(e) =>
      var rest := ReplaceTags(s[e..]);
      assert ReplaceTags(s) == [' '] + rest;
      assert i > 0;
      TagShifts(ReplaceTags(s), ' ', rest, i, j);
      NoTagLeft(s[e..], i - 1, j - 1);
    case None =>
      var rest := ReplaceTags(s[1..]);
      assert ReplaceTags(s) == [s[0]] + rest;
      if i == 0 {
        if |s| > 1 && s[1] == '>' {
          ReplaceTagsSecond(s);
        } else {
          GtAfterOpen(s, j);
        }
      } else {
        TagShifts(ReplaceTags(s), s[0], rest, i, j);
        NoTagLeft(s[1..], i - 1, j - 1);
      }
  }

  /** A tag after the first character is a tag of the text after it. */
  lemma TagShifts(r: string, c: char, rest: string, i: nat, j: nat)
    requires r == [c] + rest && TagAt(r, i, j) && i > 0
    ensures TagAt(rest, i - 1, j - 1)
  {
    forall k | i - 1 < k < j - 1
      ensures rest[k] != '>'
    {
      assert rest[k] == r[k + 1];
    }
  }

  /**
   * The HTML fallback's conversion to text: always normalized, and a text
   * with no markup and no entity that is already normalized comes back as
   * it is.
   */
  function HtmlToText(html: string): (r: string)
    ensures Normalized(r)
    ensures '<' !in html && '&' !in html && Normalized(html) ==> r == html
  {
    var t := ReplaceTags(RemoveBlocks(RemoveBlocks(html, "style"), "script"));
    var u := ReplaceAll(ReplaceAll(ReplaceAll(ReplaceAll(t, "&nbsp;", " "), "&amp;", "&"), "&lt;", "<"), "&gt;", ">");
    ReplaceAllAbsent(t, "&nbsp;", " ");
    ReplaceAllAbsent(t, "&amp;", "&");
    ReplaceAllAbsent(t, "&lt;", "<");
    ReplaceAllAbsent(t, "&gt;", ">");
    CollapseTrimKept(u);
    CollapseTrimNormalized(u);
    Trim(CollapseSpaces(u))
  }

  /** After the tag step no `<…>` tag is left in the text. */
  lemma TagsRemoved(html: string, i: nat, j: nat)
    ensures !TagAt(ReplaceTags(RemoveBlocks(RemoveBlocks(html, "style"), "script")), i, j)
  {
    if TagAt(ReplaceTags(RemoveBlocks(RemoveBlocks(html, "style"), "script")), i, j) {
      NoTagLeft(RemoveBlocks(RemoveBlocks(html, "style"), "script"), i, j);
    }
  }

  // ------------------------------------------------ headers and body

  datatype Header = Header(name: string, value: string)

  /** `headers.find(h => h.name.toLowerCase() === name)?.value || ''`. */
  function HeaderValue(headers: seq<Header>, name: string): (v: string)
    ensures v != [] ==> exists k :: 0 <= k < |headers| && Lower(headers[k].name) == name && headers[k].value == v
    ensures (forall k :: 0 <= k < |headers| ==> Lower(headers[k].name) != name) ==> v == []
    ensures forall k :: 0 <= k < |headers| && Lower(headers[k].name) == name ==>
      (v == headers[k].value || exists m :: 0 <= m < k && Lower(headers[m].name) == name)
    decreases |headers|
  {
    if headers == [] then []
    else if Lower(headers[0].name) == name then headers[0].value
    else
      var v := HeaderValue(headers[1..], name);
      assert forall k :: 1 <= k < |headers| ==> headers[1..][k - 1] == headers[k];
      v
  }

  /** A message as the batch response describes it. */
  datatype MessageResponse = MessageResponse(
    id: string, threadId: string, snippet: string,
    headers: Option<seq<Header>>, bodyData: Option<string>, parts: Option<seq<Part>>)

  /** A message as the adapter returns it. */
  datatype EmailMessage = EmailMessage(
    id: string, threadId: string, snippet: string, subject: string, from: string, date: string, body: string)

  /** The stored body is cut to this many characters. */
  const MaxBody: nat := 5000

  /** The message text: the top-level body when present, else the text of the parts. */
  function RawBody(m: MessageResponse, decode: Decoder): string {
    if m.bodyData.Some? && m.bodyData.value != [] then decode(m.bodyData.value)
    else if m.parts.Some? then ExtractText(m.parts, decode)
    else []
  }

  /** The full body before the cut: the snippet marker first when the snippet is non-empty. */
  function FullBody(m: MessageResponse, decode: Decoder): string {
    if m.snippet != [] then "SNIPPET: " + m.snippet + " END_SNIPPET. " + RawBody(m, decode)
    else RawBody(m, decode)
  }

  /** The message built from one response part; a message without headers is skipped. */
  function ToEmail(m: MessageResponse, decode: Decoder): (e: Option<EmailMessage>)
    ensures e.None? <==> m.headers.None?
    ensures e.Some? ==> (|e.value.body| <= MaxBody && e.value.body <= FullBody(m, decode)
      && (|FullBody(m, decode)| <= MaxBody ==> e.value.body == FullBody(m, decode)))
    ensures e.Some? ==> |e.value.body| == if |FullBody(m, decode)| <= MaxBody then |FullBody(m, decode)| else MaxBody
    ensures e.Some? ==> (e.value.id == m.id && e.value.threadId == m.threadId && e.value.snippet == m.snippet
      && e.value.subject == HeaderValue(m.headers.value, "subject")
      && e.value.from == HeaderValue(m.headers.value, "from")
      && e.value.date == HeaderValue(m.headers.value, "date"))
  {
    match m.headers
    case None => None
    case Some(hs) =>
      var full := FullBody(m, decode);
      Some(EmailMessage(m.id, m.threadId, m.snippet,
        HeaderValue(hs, "subject"), HeaderValue(hs, "from"), HeaderValue(hs, "date"),
        if |full| <= MaxBody then full else full[..MaxBody]))
  }

  /** With a snippet, the stored body starts with the snippet marker when it fits. */
  lemma SnippetFirst(m: MessageResponse, decode: Decoder)
    requires m.headers.Some? && m.snippet != []
    requires |"SNIPPET: " + m.snippet + " END_SNIPPET. "| <= MaxBody
    ensures "SNIPPET: " + m.snippet + " END_SNIPPET. " <= ToEmail(m, decode).value.body
  {
    var pre := "SNIPPET: " + m.snippet + " END_SNIPPET. ";
    var full := FullBody(m, decode);
    assert full == pre + RawBody(m, decode);
    assert full[..|pre|] == pre;
  }

  // ------------------------------------------------------ batch requests

  /** Ids are fetched in batches of this many. */
  const BatchSize: nat := 25

  /** `ids` in consecutive slices of at most `n`. */
  function Chunks<T>(ids: seq<T>, n: nat): (cs: seq<seq<T>>)
    requires n > 0
    decreases |ids|
  {
    if ids == [] then []
    else if |ids| <= n then [ids]
    else [ids[..n]] + Chunks(ids[n..], n)
  }

  /** Every batch holds between 1 and `n` ids. */
  lemma {:induction false} ChunksBounded<T>(ids: seq<T>, n: nat)
    requires n > 0
    ensures forall k :: 0 <= k < |Chunks(ids, n)| ==> 0 < |Chunks(ids, n)[k]| <= n
    decreases |ids|
  {
    if |ids| > n {
      ChunksBounded(ids[n..], n);
      var cs := Chunks(ids, n);
      assert cs == [ids[..n]] + Chunks(ids[n..], n);
      forall k | 0 < k < |cs| ensures 0 < |cs[k]| <= n {
        assert cs[k] == Chunks(ids[n..], n)[k - 1];
      }
    }
  }

  function Flatten<T>(cs: seq<seq<T>>): seq<T> {
    if cs == [] then [] else cs[0] + Flatten(cs[1..])
  }

  /** The batches cover all ids, in order. */
  lemma {:induction false} ChunksCover<T>(ids: seq<T>, n: nat)
    requires n > 0
    ensures Flatten(Chunks(ids, n)) == ids
    decreases |ids|
  {
    if |ids| > n {
      ChunksCover(ids[n..], n);
      assert ids[..n] + ids[n..] == ids;
    }
  }

  /** The `j`-th section of a batch request. */
  function Section(boundary: string, j: nat, id: string): string {
    Delimiter(boundary) + ContentType() + ContentId(j) + RequestLine(id)
  }

  /** The delimiter line of section 5.1.1 of RFC 2046. */
  function Delimiter(boundary: string): string {
    "--" + boundary + "\r\n"
  }

  function ContentType(): string {
    "Content-Type: application/http\r\n"
  }

  function ContentId(j: nat): string {
    "Content-ID: <item" + NatToString(j) + ">\r\n\r\n"
  }

  function RequestLine(id: string): string {
    "GET /gmail/v1/users/me/messages/" + id + "?format=full\r\n\r\n"
  }

  /** The sections of a batch, one per id, numbered from 0. */
  function Sections(boundary: string, batch: seq<MessageRef>): (ss: seq<string>)
    ensures |ss| == |batch|
    ensures forall j :: 0 <= j < |batch| ==> ss[j] == Section(boundary, j, batch[j].id)
  {
    seq(|batch|, j requires 0 <= j < |batch| => Section(boundary, j, batch[j].id))
  }

  function ConcatAll(ss: seq<string>): string {
    if ss == [] then [] else ConcatAll(ss[..|ss| - 1]) + ss[|ss| - 1]
  }

  lemma ConcatAllSnoc(ss: seq<string>, j: nat)
    requires j < |ss|
    ensures ConcatAll(ss[..j + 1]) == ConcatAll(ss[..j]) + ss[j]
  {
    assert ss[..j + 1][..j] == ss[..j];
  }

  lemma AppendFour(p: string, a: string, b: string, c: string, d: string)
    ensures p + a + b + c + d == p + (a + b + c + d)
  {
  }

  /** The closing delimiter of section 5.1.1 of RFC 2046. */
  function Closing(boundary: string): string {
    "--" + boundary + "--"
  }

  /** The loop that builds a batch request body. */
  method BuildBatchBody(boundary: string, batch: seq<MessageRef>) returns (body: string)
    ensures body == ConcatAll(Sections(boundary, batch)) + Closing(boundary)
  {
    body := [];
    var j := 0;
    ghost var all := Sections(boundary, batch);
    while j < |batch|
      invariant 0 <= j <= |batch|
      invariant body == ConcatAll(all[..j])
    {
      ghost var prev := body;
      body := body + Delimiter(boundary);
      body := body + ContentType();
      body := body + ContentId(j);
      body := body + RequestLine(batch[j].id);
      AppendFour(prev, Delimiter(boundary), ContentType(), ContentId(j), RequestLine(batch[j].id));
      assert all[j] == Section(boundary, j, batch[j].id);
      ConcatAllSnoc(all, j);
      j := j + 1;
    }
    assert all[..|batch|] == all;
    body := body + "--" + boundary + "--";
  }

  /**
   * `send(boundary, body)` stands for the batch request: `None` when it
   * failed, else the message responses parsed out of its parts.
   */
  type Sender = (string, string) -> Option<seq<MessageResponse>>

  /** The messages built from one batch's responses, skipping those without headers. */
  function BuildAll(ms: seq<MessageResponse>, decode: Decoder): (es: seq<EmailMessage>)
    ensures |es| <= |ms|
  {
    if ms == [] then []
    else
      var rest := BuildAll(ms[..|ms| - 1], decode);
      match ToEmail(ms[|ms| - 1], decode)
      case Some(e) => rest + [e]
      case None => rest
  }

  /** The messages of every batch in turn; a failed batch contributes nothing. */
  function FetchAll(batches: seq<seq<MessageRef>>, boundary: string, send: Sender, decode: Decoder)
    : seq<EmailMessage>
  {
    if batches == [] then []
    else
      var init := FetchAll(batches[..|batches| - 1], boundary, send, decode);
      var b := batches[|batches| - 1];
      match send(boundary, ConcatAll(Sections(boundary, b)) + Closing(boundary))
      case None => init
      case Some(ms) => init + BuildAll(ms, decode)
  }

  /** A failed batch is skipped and the batches after it still run. */
  lemma FailedBatchSkipped(batches: seq<seq<MessageRef>>, b: seq<MessageRef>, boundary: string,
                           send: Sender, decode: Decoder)
    requires send(boundary, ConcatAll(Sections(boundary, b)) + Closing(boundary)).None?
    ensures FetchAll(batches + [b], boundary, send, decode) == FetchAll(batches, boundary, send, decode)
  {
    assert (batches + [b])[..|batches|] == batches;
  }

  /** One batch's messages as `FetchAll` adds them. */
  function BatchEmails(b: seq<MessageRef>, boundary: string, send: Sender, decode: Decoder): seq<EmailMessage> {
    match send(boundary, ConcatAll(Sections(boundary, b)) + Closing(boundary))
    case None => []
    case Some(ms) => BuildAll(ms, decode)
  }

  lemma FetchAllSnoc(done: seq<seq<MessageRef>>, b: seq<MessageRef>, boundary: string, send: Sender, decode: Decoder)
    ensures FetchAll(done + [b], boundary, send, decode)
      == FetchAll(done, boundary, send, decode) + BatchEmails(b, boundary, send, decode)
  {
    assert (done + [b])[..|done|] == done;
  }

  /** The loop over one batch's response parts. */
  method BuildEmails(ms: seq<MessageResponse>, decode: Decoder) returns (es: seq<EmailMessage>)
    ensures es == BuildAll(ms, decode)
  {
    es := [];
    var j := 0;
    while j < |ms|
      invariant 0 <= j <= |ms|
      invariant es == BuildAll(ms[..j], decode)
    {
      assert ms[..j + 1][..j] == ms[..j];
      var e := ToEmail(ms[j], decode);
      if e.Some? {
        es := es + [e.value];
      }
      j := j + 1;
    }
    assert ms[..|ms|] == ms;
  }

  /** The detail loop: the ids in batches of 25, each sent as one multipart request. */
  method FetchDetails(ids: seq<MessageRef>, boundary: string, send: Sender, decode: Decoder)
    returns (emails: seq<EmailMessage>)
    ensures emails == FetchAll(Chunks(ids, BatchSize), boundary, send, decode)
  {
    emails := [];
    var i := 0;
    ghost var done: seq<seq<MessageRef>> := [];
    assert ids[0..] == ids;
    while i < |ids|
      invariant 0 <= i <= |ids|
      invariant done + Chunks(ids[i..], BatchSize) == Chunks(ids, BatchSize)
      invariant emails == FetchAll(done, boundary, send, decode)
      decreases |ids| - i
    {
      var end := if i + BatchSize <= |ids| then i + BatchSize else |ids|;
      var batch := ids[i..end];
      var es := SendBatch(batch, boundary, send, decode);
      FetchAllSnoc(done, batch, boundary, send, decode);
      emails := emails + es;
      ChunksAdvance(ids, i, end, done);
      done := done + [batch];
      i := end;
    }
    assert done + [] == done;
  }

  /** One batch: its request body, the request, and the messages of the response, if it succeeded. */
  method SendBatch(batch: seq<MessageRef>, boundary: string, send: Sender, decode: Decoder)
    returns (es: seq<EmailMessage>)
    ensures es == BatchEmails(batch, boundary, send, decode)
  {
    var body := BuildBatchBody(boundary, batch);
    var resp := send(boundary, body);
    es := [];
    if resp.Some? {
      es := BuildEmails(resp.value, decode);
    }
  }

  lemma ChunksAdvance<T>(ids: seq<T>, i: nat, end: nat, done: seq<seq<T>>)
    requires i < |ids| && end == (if i + BatchSize <= |ids| then i + BatchSize else |ids|)
    requires done + Chunks(ids[i..], BatchSize) == Chunks(ids, BatchSize)
    ensures (done + [ids[i..end]]) + Chunks(ids[end..], BatchSize) == Chunks(ids, BatchSize)
  {
    ChunksAt(ids, i, end);
    assert (done + [ids[i..end]]) + Chunks(ids[end..], BatchSize)
      == done + ([ids[i..end]] + Chunks(ids[end..], BatchSize));
  }

  /** The batch starting at `i` and the batches after it. */
  lemma ChunksAt<T>(ids: seq<T>, i: nat, end: nat)
    requires i < |ids| && end == (if i + BatchSize <= |ids| then i + BatchSize else |ids|)
    ensures Chunks(ids[i..], BatchSize) == [ids[i..end]] + Chunks(ids[end..], BatchSize)
  {
    ChunksHead(ids[i..], BatchSize);
    assert ids[i..][..end - i] == ids[i..end];
    assert ids[i..][end - i..] == ids[end..];
  }

  /** The first batch of a non-empty list, and the rest. */
  lemma ChunksHead<T>(ids: seq<T>, n: nat)
    requires n > 0 && ids != []
    ensures var m := if n <= |ids| then n else |ids|;
      Chunks(ids, n) == [ids[..m]] + Chunks(ids[m..], n)
  {
    if |ids| <= n {
      assert ids[..|ids|] == ids;
      assert ids[|ids|..] == [];
    }
  }

  // ------------------------------------------------------- token expiry

  /** The stored Google account, as far as the token decision reads it. */
  datatype Account = Account(accessToken: Option<string>, expiresAt: Option<int>, refreshToken: Option<string>)

  /** A refresh is due when the expiry, 0 when absent, is less than five minutes away. */
  predicate Expired(a: Account, now: int) {
    (if a.expiresAt.Some? then a.expiresAt.value else 0) < now + 300
  }

  /** What `getGmailAccessToken` decides: the token it returns, and whether it asked for a refresh. */
  datatype TokenOutcome = TokenOutcome(token: Option<string>, refreshAttempted: bool)

  /**
   * `getGmailAccessToken` once the account is loaded; `refreshed` stands for
   * the result of the refresh request when one is made.
   */
  function AccessToken(account: Option<Account>, now: int, refreshed: Option<string>): (o: TokenOutcome)
    ensures o.refreshAttempted <==> (account.Some? && account.value.accessToken.Some?
      && account.value.accessToken.value != [] && Expired(account.value, now)
      && account.value.refreshToken.Some? && account.value.refreshToken.value != [])
    ensures (account.None? || account.value.accessToken.None? || account.value.accessToken.value == []) ==>
      o.token.None?
    ensures o.refreshAttempted && refreshed.Some? && refreshed.value != [] ==> o.token == refreshed
    ensures (account.Some? && account.value.accessToken.Some? && account.value.accessToken.value != []
      && !(o.refreshAttempted && refreshed.Some? && refreshed.value != [])) ==> o.token == account.value.accessToken
  {
    match account
    case None => TokenOutcome(None, false)
    case Some(a) =>
      if a.accessToken.None? || a.accessToken.value == [] then TokenOutcome(None, false)
      else if Expired(a, now) && a.refreshToken.Some? && a.refreshToken.value != [] then
        if refreshed.Some? && refreshed.value != [] then TokenOutcome(refreshed, true)
        else TokenOutcome(a.accessToken, true)
      else TokenOutcome(a.accessToken, false)
  }
}
