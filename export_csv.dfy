/**
 * The data export (`GET /api/settings/export`): pro users get their active
 * subscriptions as CSV, every cell quoted with inner quotes doubled (rule 7
 * of section 2 of RFC 4180), records separated by a line feed.
 */
module ExportCsv {
  import opened Wrappers
  import opened Text
  import opened Store

  const Fields: seq<string> := ["Name", "Amount", "Currency", "Billing Cycle", "Next Billing Date", "Status", "Description"]

  /** `fields.join(',')`. */
  function HeaderLine(): string {
    Join(Fields, ",")
  }

  /** `"${cell.replace(/"/g, '""')}"`. */
  function QuoteCell(cell: string): string {
    "\"" + ReplaceAll(cell, "\"", "\"\"") + "\""
  }

  /**
   * The cells of a record, in the order of `Fields`. `show` stands for
   * `String(amount)` and `day` for the ISO day of a stored date, both
   * outside this model.
   */
  function Cells(r: Record, show: real -> string, day: NextDate -> string): (cs: seq<string>)
    ensures |cs| == |Fields|
    ensures cs[0] == r.serviceName && cs[1] == show(r.amount) && cs[2] == r.currency && cs[3] == r.billingCycle
    ensures cs[4] == (if r.nextBillingDate.NoDate? then "" else day(r.nextBillingDate))
    ensures cs[5] == r.status
    ensures cs[6] == (if r.description.Some? then r.description.value else "")
  {
    [r.serviceName, show(r.amount), r.currency, r.billingCycle,
     if r.nextBillingDate.NoDate? then "" else day(r.nextBillingDate),
     r.status,
     if r.description.Some? && r.description.value != "" then r.description.value else ""]
  }

  function QuoteAll(cells: seq<string>): (qs: seq<string>)
    ensures |qs| == |cells| && forall k :: 0 <= k < |cells| ==> qs[k] == QuoteCell(cells[k])
  {
    seq(|cells|, k requires 0 <= k < |cells| => QuoteCell(cells[k]))
  }

  /** One CSV record: the quoted cells joined by commas. */
  function RowLine(cells: seq<string>): string {
    Join(QuoteAll(cells), ",")
  }

  function RowLines(rows: seq<seq<string>>): (ls: seq<string>)
    ensures |ls| == |rows| && forall k :: 0 <= k < |rows| ==> ls[k] == RowLine(rows[k])
  {
    seq(|rows|, k requires 0 <= k < |rows| => RowLine(rows[k]))
  }

  function AllCells(subs: seq<Record>, show: real -> string, day: NextDate -> string): (rows: seq<seq<string>>)
    ensures |rows| == |subs| && forall k :: 0 <= k < |subs| ==> rows[k] == Cells(subs[k], show, day)
  {
    seq(|subs|, k requires 0 <= k < |subs| => Cells(subs[k], show, day))
  }

  /** The user's subscriptions with status `active`, in store order. */
  function ActiveSubscriptions(recs: seq<Record>, userId: string): (subs: seq<Record>)
    ensures forall s :: s in subs <==> s in recs && s.userId == userId && s.status == "active"
    decreases |recs|
  {
    if recs == [] then []
    else
      var last := recs[|recs| - 1];
      ActiveSubscriptions(recs[..|recs| - 1], userId) + (if last.userId == userId && last.status == "active" then [last] else [])
  }

  /** The signed-in user's row, as far as the export reads it. */
  datatype User = User(id: string, tier: Option<string>)

  datatype ExportResult = UserNotFound | Forbidden | Csv(content: string)

  function HttpStatus(r: ExportResult): nat {
    match r
    case UserNotFound => 404
    case Forbidden => 403
    case Csv(_) => 200
  }

  /** `GET` for a signed-in session: 404 without a user row, 403 unless the plan is pro. */
  function Export(user: Option<User>, recs: seq<Record>, show: real -> string,
                  day: NextDate -> string): (r: ExportResult)
    ensures r.UserNotFound? <==> user.None?
    ensures r.Forbidden? <==> user.Some? && user.value.tier != Some("pro")
  {
    if user.None? then UserNotFound
    else if user.value.tier != Some("pro") then Forbidden
    else Csv(Join([HeaderLine()] + RowLines(AllCells(ActiveSubscriptions(recs, user.value.id), show, day)), "\n"))
  }

  // ---------------------------------------------------------------- reading it back

  /**
   * The rest of a quoted cell after its opening quote: `""` stands for one
   * quote and a lone `"` closes the cell. The cell's text and what follows.
   */
  function ReadQuoted(s: string): (r: Option<(string, string)>)
    ensures r.Some? ==> |r.value.1| < |s|
    decreases |s|
  {
    if s == [] then None
    else if s[0] == '"' then
      if |s| > 1 && s[1] == '"' then
        match ReadQuoted(s[2..])
        case None => None
        case Some((c, rest)) => Some(("\"" + c, rest))
      else Some(("", s[1..]))
    else
      match ReadQuoted(s[1..])
      case None => None
      case Some((c, rest)) => Some(([s[0]] + c, rest))
  }

  /** One record of quoted cells separated by commas, up to a line feed or the end. */
  function ReadRow(s: string): (r: Option<(seq<string>, string)>)
    ensures r.Some? ==> |r.value.1| < |s| && (r.value.1 == [] || r.value.1[0] == '\n')
    decreases |s|
  {
    if s == [] || s[0] != '"' then None
    else
      match ReadQuoted(s[1..])
      case None => None
      case Some((c, rest)) =>
        if rest != [] && rest[0] == ',' then
          match ReadRow(rest[1..])
          case None => None
          case Some((cs, after)) => Some(([c] + cs, after))
        else if rest == [] || rest[0] == '\n' then Some(([c], rest))
        else None
  }

  /** Records separated by line feeds. */
  function ReadRows(s: string): Option<seq<seq<string>>>
    decreases |s|
  {
    match ReadRow(s)
    case None => None
    case Some((cells, rest)) =>
      if rest == [] then Some([cells])
      else
        match ReadRows(rest[1..])
        case None => None
        case Some(more) => Some([cells] + more)
  }

  /** The header line, and the records after it. */
  function ReadExport(text: string): (string, Option<seq<seq<string>>>) {
    var i := IndexOf(text, "\n", 0);
    if i < 0 then (text, Some([])) else (text[..i], ReadRows(text[i + 1..]))
  }

  /** A cell's escaped text, its closing quote and anything not starting with a quote read back as the cell. */
  lemma {:induction false} ReadEscaped(c: string, rest: string)
    requires rest == [] || rest[0] != '"'
    ensures ReadQuoted(ReplaceAll(c, "\"", "\"\"") + "\"" + rest) == Some((c, rest))
    decreases |c|
  {
    var s := ReplaceAll(c, "\"", "\"\"") + "\"" + rest;
    if c == [] {
      assert s == "\"" + rest;
    } else if c[..1] == "\"" {
      ReadEscaped(c[1..], rest);
      assert s == "\"\"" + (ReplaceAll(c[1..], "\"", "\"\"") + "\"" + rest);
      assert s[2..] == ReplaceAll(c[1..], "\"", "\"\"") + "\"" + rest;
      assert c == "\"" + c[1..];
    } else {
      ReadEscaped(c[1..], rest);
      assert s == [c[0]] + (ReplaceAll(c[1..], "\"", "\"\"") + "\"" + rest);
      assert c == [c[0]] + c[1..];
    }
  }

  /** A record line followed by a line feed or nothing reads back as its cells. */
  lemma {:induction false} ReadRowLine(cells: seq<string>, rest: string)
    requires |cells| >= 1
    requires rest == [] || rest[0] == '\n'
    ensures ReadRow(RowLine(cells) + rest) == Some((cells, rest))
    decreases |cells|
  {
    if |cells| == 1 {
      RowLineOne(cells);
      ReadEscaped(cells[0], rest);
      CellEnds(cells[0], rest);
      assert [cells[0]] == cells;
    } else {
      var line := RowLine(cells[1..]);
      RowLineCons(cells);
      ReadEscaped(cells[0], "," + (line + rest));
      ReadRowLine(cells[1..], rest);
      CellContinues(cells[0], line, rest, cells[1..]);
      assert [cells[0]] + cells[1..] == cells;
    }
  }

  /** A record of one cell is that cell quoted. */
  lemma RowLineOne(cells: seq<string>)
    requires |cells| == 1
    ensures RowLine(cells) == QuoteCell(cells[0])
  {
  }

  /** A record of several cells is its first cell quoted, a comma, and the record of the others. */
  lemma RowLineCons(cells: seq<string>)
    requires |cells| >= 2
    ensures RowLine(cells) == QuoteCell(cells[0]) + "," + RowLine(cells[1..])
  {
    assert QuoteAll(cells) == [QuoteCell(cells[0])] + QuoteAll(cells[1..]);
    JoinCons(QuoteCell(cells[0]), QuoteAll(cells[1..]), ",");
  }

  /** A quoted cell followed by the end of the record is a record of one cell. */
  lemma RowEnds(s: string, body: string, c: string, rest: string)
    requires |s| > 0 && s[0] == '"' && s[1..] == body
    requires ReadQuoted(body) == Some((c, rest))
    requires rest == [] || rest[0] == '\n'
    ensures ReadRow(s) == Some(([c], rest))
  {
  }

  /** A quoted cell followed by a comma and a record is one cell longer than that record. */
  lemma RowContinues(s: string, body: string, c: string, more: string, cs: seq<string>, after: string)
    requires |s| > 0 && s[0] == '"' && s[1..] == body
    requires ReadQuoted(body) == Some((c, "," + more))
    requires ReadRow(more) == Some((cs, after))
    ensures ReadRow(s) == Some(([c] + cs, after))
  {
    assert ("," + more)[1..] == more;
  }

  /** The text after a quoted cell's opening quote. */
  lemma AfterOpeningQuote(c: string, rest: string)
    ensures var s := QuoteCell(c) + rest;
      |s| > 0 && s[0] == '"' && s[1..] == ReplaceAll(c, "\"", "\"\"") + "\"" + rest
  {
    var esc := ReplaceAll(c, "\"", "\"\"");
    assert QuoteCell(c) + rest == "\"" + (esc + "\"" + rest);
  }

  /** A quoted cell and the end of the record read back as a record of that cell. */
  lemma CellEnds(c: string, rest: string)
    requires ReadQuoted(ReplaceAll(c, "\"", "\"\"") + "\"" + rest) == Some((c, rest))
    requires rest == [] || rest[0] == '\n'
    ensures ReadRow(QuoteCell(c) + rest) == Some(([c], rest))
  {
    AfterOpeningQuote(c, rest);
    RowEnds(QuoteCell(c) + rest, ReplaceAll(c, "\"", "\"\"") + "\"" + rest, c, rest);
  }

  /** A quoted cell, a comma and a record read back as that record with the cell in front. */
  lemma CellContinues(c: string, line: string, rest: string, cs: seq<string>)
    requires ReadQuoted(ReplaceAll(c, "\"", "\"\"") + "\"" + ("," + (line + rest))) == Some((c, "," + (line + rest)))
    requires ReadRow(line + rest) == Some((cs, rest))
    ensures ReadRow(QuoteCell(c) + "," + line + rest) == Some(([c] + cs, rest))
  {
    var more := "," + (line + rest);
    AfterOpeningQuote(c, more);
    assert QuoteCell(c) + "," + line + rest == QuoteCell(c) + more;
    RowContinues(QuoteCell(c) + more, ReplaceAll(c, "\"", "\"\"") + "\"" + more, c, line + rest, cs, rest);
  }

  /** Record lines joined by line feeds read back as the records. */
  lemma {:induction false} ReadRowLines(rows: seq<seq<string>>)
    requires |rows| >= 1 && forall k :: 0 <= k < |rows| ==> |rows[k]| >= 1
    ensures ReadRows(Join(RowLines(rows), "\n")) == Some(rows)
    decreases |rows|
  {
    if |rows| == 1 {
      ReadRowLine(rows[0], "");
      assert Join(RowLines(rows), "\n") == RowLine(rows[0]) + "";
      assert [rows[0]] == rows;
    } else {
      var tail := Join(RowLines(rows[1..]), "\n");
      assert RowLines(rows)[1..] == RowLines(rows[1..]);
      assert Join(RowLines(rows), "\n") == RowLine(rows[0]) + ("\n" + tail);
      ReadRowLine(rows[0], "\n" + tail);
      ReadRowLines(rows[1..]);
      assert ("\n" + tail)[1..] == tail;
      assert [rows[0]] + rows[1..] == rows;
    }
  }

  /** Parts and a separator free of a character join into a text free of it. */
  lemma {:induction false} JoinAvoids(parts: seq<string>, sep: string, c: char)
    requires forall i, j :: 0 <= i < |parts| && 0 <= j < |parts[i]| ==> parts[i][j] != c
    requires forall j :: 0 <= j < |sep| ==> sep[j] != c
    ensures forall j :: 0 <= j < |Join(parts, sep)| ==> Join(parts, sep)[j] != c
    decreases |parts|
  {
    if |parts| > 1 {
      JoinAvoids(parts[1..], sep, c);
      var t := Join(parts[1..], sep);
      forall j | 0 <= j < |parts[0] + sep + t| ensures (parts[0] + sep + t)[j] != c {
        if j >= |parts[0]| + |sep| {
          assert (parts[0] + sep + t)[j] == t[j - |parts[0]| - |sep|];
        }
      }
    }
  }

  /** The header holds no line feed. */
  lemma HeaderHasNoLineFeed()
    ensures forall k :: 0 <= k < |HeaderLine()| ==> HeaderLine()[k] != '\n'
  {
    forall i, j | 0 <= i < |Fields| && 0 <= j < |Fields[i]| ensures Fields[i][j] != '\n' {
      assert Fields[i] in Fields;
    }
    JoinAvoids(Fields, ",", '\n');
  }

  /** The first line feed of the export is the one after the header. */
  lemma FirstLineFeed(h: string, body: string)
    requires forall k :: 0 <= k < |h| ==> h[k] != '\n'
    ensures IndexOf(h + "\n" + body, "\n", 0) == |h|
  {
    var text := h + "\n" + body;
    assert OccursAt(text, "\n", |h|) by {
      assert text[|h|..|h| + 1] == "\n";
    }
    forall j | 0 <= j < |h| ensures !OccursAt(text, "\n", j) {
      assert text[j] == h[j];
    }
  }

  lemma NoLineFeed(h: string)
    requires forall k :: 0 <= k < |h| ==> h[k] != '\n'
    ensures IndexOf(h, "\n", 0) == -1
  {
    forall j | 0 <= j ensures !OccursAt(h, "\n", j) {
      if j < |h| {
        assert h[j..j + 1] == [h[j]];
      }
    }
  }

  /** The header, then record lines, read back as the header and the records. */
  lemma DocumentReadsBack(rows: seq<seq<string>>)
    requires forall k :: 0 <= k < |rows| ==> |rows[k]| >= 1
    ensures ReadExport(Join([HeaderLine()] + RowLines(rows), "\n")) == (HeaderLine(), Some(rows))
  {
    var text := Join([HeaderLine()] + RowLines(rows), "\n");
    HeaderHasNoLineFeed();
    if rows == [] {
      assert text == HeaderLine();
      NoLineFeed(HeaderLine());
    } else {
      var tail := Join(RowLines(rows), "\n");
      JoinCons(HeaderLine(), RowLines(rows), "\n");
      FirstLineFeed(HeaderLine(), tail);
      assert text[|HeaderLine()| + 1..] == tail;
      assert text[..|HeaderLine()|] == HeaderLine();
      ReadRowLines(rows);
    }
  }

  /**
   * Reading a pro user's export back gives the fixed header and, in store
   * order, the seven cells of each of their active subscriptions: no cell's
   * quotes, commas or line feeds can be mistaken for the CSV's own.
   */
  lemma ExportReadsBack(user: User, recs: seq<Record>, show: real -> string, day: NextDate -> string)
    requires user.tier == Some("pro")
    ensures var subs := ActiveSubscriptions(recs, user.id);
      && Export(Some(user), recs, show, day).Csv?
      && ReadExport(Export(Some(user), recs, show, day).content) == (HeaderLine(), Some(AllCells(subs, show, day)))
      && forall k :: 0 <= k < |subs| ==> |AllCells(subs, show, day)[k]| == |Fields|
  {
    DocumentReadsBack(AllCells(ActiveSubscriptions(recs, user.id), show, day));
  }

  /** Every cell is quoted: stripping the outer quotes and halving each `""` gives the cell back. */
  lemma QuoteCellReadsBack(cell: string)
    ensures ReadQuoted(QuoteCell(cell)[1..]) == Some((cell, ""))
  {
    ReadEscaped(cell, "");
    assert QuoteCell(cell)[1..] == ReplaceAll(cell, "\"", "\"\"") + "\"" + "";
  }
}
