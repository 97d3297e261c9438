/**
 * The scan panel's side of the event stream: the server writes each event
 * as a `data: <json>` frame closed by a blank line, and the panel cuts its
 * growing buffer at blank lines, decodes each complete `data: ` frame and
 * updates what it shows. This is the `data:`-only subset of the event
 * stream format of section 9.2 (Server-sent events) of the WHATWG HTML
 * Living Standard that the two ends share.
 */
module Scanner {
  import opened Wrappers
  import opened Text
  import opened Store

  const FrameEnd: string := "\n\n"
  const DataPrefix: string := "data: "

  // ---------------------------------------------------------------- the server's encoder

  /** `sendEvent`: the serialised event after `data: `, closed by a blank line. */
  function Frame(json: string): (f: string)
    ensures StartsWith(f, DataPrefix) && EndsWith(f, FrameEnd)
  {
    var f := DataPrefix + json + FrameEnd;
    assert f[..|DataPrefix|] == DataPrefix;
    assert f[|f| - |FrameEnd|..] == FrameEnd;
    f
  }

  /** The stream body: the frames of the serialised events, in order. */
  function Encode(payloads: seq<string>): string
    decreases |payloads|
  {
    if payloads == [] then "" else Frame(payloads[0]) + Encode(payloads[1..])
  }

  /** What the panel cuts out of `Encode(payloads)`: each frame without its blank line. */
  function DataLines(payloads: seq<string>): (ls: seq<string>)
    ensures |ls| == |payloads| && forall k :: 0 <= k < |payloads| ==> ls[k] == DataPrefix + payloads[k]
  {
    seq(|payloads|, k requires 0 <= k < |payloads| => DataPrefix + payloads[k])
  }

  /** `JSON.stringify` escapes line feeds inside strings, so its output holds none. */
  predicate NoLineFeed(s: string) {
    forall k :: 0 <= k < |s| ==> s[k] != '\n'
  }

  // ---------------------------------------------------------------- the panel's state

  datatype Phase = Idle | Scanning | Complete | Failed

  /** What the panel shows. */
  datatype Panel = Panel(status: Phase, statusMessage: string, progress: int, found: seq<SubscriptionView>,
                         emailsFound: int, error: Option<string>)

  const Initial: Panel := Panel(Idle, "", 0, [], 0, None)

  /** The panel when a scan starts: everything reset, connecting. */
  const Started: Panel := Panel(Scanning, ConnectingMessage, 0, [], 0, None)

  const ConnectingMessage: string := "Connecting to Gmail..."
  const StartFailedMessage: string := "Failed to start scan"
  const NoStreamMessage: string := "No response stream"
  const ScanFailedMessage: string := "Scan failed"

  /**
   * A decoded frame, as the panel reads its `type`: a status with its
   * optional progress and email count, a found subscription, completion, an
   * error, or a type the panel ignores.
   */
  datatype ClientEvent =
    | StatusEvent(message: string, progress: Option<int>, emailsFound: Option<int>)
    | SubscriptionEvent(subscription: SubscriptionView)
    | CompleteEvent(message: string)
    | ErrorEvent(message: string)
    | OtherEvent

  /** `JSON.parse` followed by reading the event: `None` where either throws. */
  type Decoder = string -> Option<ClientEvent>

  /** The effect of one event on the panel. */
  function Apply(v: Panel, e: ClientEvent): (w: Panel)
    ensures e.StatusEvent? ==> w == v.(statusMessage := e.message,
      progress := if e.progress.Some? then e.progress.value else 0,
      emailsFound := if e.emailsFound.Some? && e.emailsFound.value != 0 then e.emailsFound.value else v.emailsFound)
    ensures e.SubscriptionEvent? ==> w == v.(found := v.found + [e.subscription])
    ensures e.CompleteEvent? ==> w == v.(status := Complete, progress := 100, statusMessage := e.message)
    ensures e.ErrorEvent? ==> w == v.(status := Failed, error := Some(e.message))
    ensures e.OtherEvent? ==> w == v
  {
    match e
    case StatusEvent(m, p, n) =>
      v.(statusMessage := m, progress := if p.Some? then p.value else 0,
         emailsFound := if n.Some? && n.value != 0 then n.value else v.emailsFound)
    case SubscriptionEvent(s) => v.(found := v.found + [s])
    case CompleteEvent(m) => v.(status := Complete, progress := 100, statusMessage := m)
    case ErrorEvent(m) => v.(status := Failed, error := Some(m))
    case OtherEvent => v
  }

  function ApplyAll(v: Panel, es: seq<ClientEvent>): Panel
    decreases |es|
  {
    if es == [] then v else Apply(ApplyAll(v, es[..|es| - 1]), es[|es| - 1])
  }

  /** The subscriptions the events carry, in order. */
  function Subscriptions(es: seq<ClientEvent>): seq<SubscriptionView>
    decreases |es|
  {
    if es == [] then []
    else
      var e := es[|es| - 1];
      Subscriptions(es[..|es| - 1]) + (if e.SubscriptionEvent? then [e.subscription] else [])
  }

  /** The event a frame carries: only a `data: ` frame that decodes. */
  function EventOf(frame: string, decode: Decoder): (e: Option<ClientEvent>)
    ensures e.Some? ==> StartsWith(frame, DataPrefix) && e == decode(frame[|DataPrefix|..])
    ensures !StartsWith(frame, DataPrefix) ==> e.None?
  {
    if StartsWith(frame, DataPrefix) then decode(frame[|DataPrefix|..]) else None
  }

  /** One complete frame: a frame that is not `data: `, or does not decode, is skipped. */
  function HandleFrame(v: Panel, frame: string, decode: Decoder): Panel {
    match EventOf(frame, decode)
    case None => v
    case Some(e) => Apply(v, e)
  }

  function HandleFrames(v: Panel, frames: seq<string>, decode: Decoder): Panel
    decreases |frames|
  {
    if frames == [] then v else HandleFrame(HandleFrames(v, frames[..|frames| - 1], decode), frames[|frames| - 1], decode)
  }

  // ---------------------------------------------------------------- reassembly

  /** The text of the first `n` chunks. */
  function Received(chunks: seq<string>, n: nat): string
    requires n <= |chunks|
  {
    if n == 0 then "" else Received(chunks, n - 1) + chunks[n - 1]
  }

  /** `buffer.split('\n\n')` once `lines.pop()` has taken the last piece: the complete frames. */
  function Closed(text: string): seq<string> {
    var lines := Split(text, FrameEnd);
    lines[..|lines| - 1]
  }

  /** What `lines.pop()` takes: the piece still open, kept as the buffer. */
  function Open(text: string): string {
    var lines := Split(text, FrameEnd);
    lines[|lines| - 1]
  }

  /** The buffer after the first `n` chunks: after each chunk, the open piece waits for the next. */
  function Buffered(chunks: seq<string>, n: nat): string
    requires n <= |chunks|
  {
    if n == 0 then "" else Open(Buffered(chunks, n - 1) + chunks[n - 1])
  }

  /** The frames completed while reading the first `n` chunks, in order. */
  function Completed(chunks: seq<string>, n: nat): seq<string>
    requires n <= |chunks|
  {
    if n == 0 then [] else Completed(chunks, n - 1) + Closed(Buffered(chunks, n - 1) + chunks[n - 1])
  }

  /** The frames of a whole response. */
  function Reassemble(chunks: seq<string>): seq<string> {
    Completed(chunks, |chunks|)
  }

  /** How the response ends: not ok, no body, or a body read chunk by chunk until done or a throw. */
  datatype ReadEnd = Done | Threw(message: Option<string>)
  datatype Response = NotOk | NoStream | Stream(chunks: seq<string>, end: ReadEnd)

  /** The panel after a scan that starts from `Started` and reads the whole response. */
  function ScanView(response: Response, decode: Decoder): Panel {
    match response
    case NotOk => Started.(status := Failed, error := Some(StartFailedMessage))
    case NoStream => Started.(status := Failed, error := Some(NoStreamMessage))
    case Stream(chunks, end) => StreamView(Started, chunks, end, decode)
  }

  /** The panel `v` after its frames are read to the end of the body, or to a throw. */
  function StreamView(v: Panel, chunks: seq<string>, end: ReadEnd, decode: Decoder): Panel {
    var w := HandleFrames(v, Reassemble(chunks), decode);
    match end
    case Done => w
    case Threw(m) => w.(status := Failed, error := Some(if m.Some? then m.value else ScanFailedMessage))
  }

  // ---------------------------------------------------------------- the panel

  class EmailScanner {
    var status: Phase
    var statusMessage: string
    var progress: int
    var found: seq<SubscriptionView>
    var emailsFound: int
    var error: Option<string>
    /** `scanStartedRef.current`. */
    var started: bool
    /** How many times `onScanComplete` and `onClose` were called. */
    var scanCompleteCalls: nat
    var closeCalls: nat

    function Shown(): Panel
      reads this
    {
      Panel(status, statusMessage, progress, found, emailsFound, error)
    }

    constructor()
      ensures Shown() == Initial && !started && scanCompleteCalls == 0 && closeCalls == 0
    {
      status := Idle;
      statusMessage := "";
      progress := 0;
      found := [];
      emailsFound := 0;
      error := None;
      started := false;
      scanCompleteCalls := 0;
      closeCalls := 0;
    }

    /** The `switch` on one complete frame. */
    method OnFrame(frame: string, decode: Decoder)
      modifies this
      ensures Shown() == HandleFrame(old(Shown()), frame, decode)
      ensures started == old(started) && scanCompleteCalls == old(scanCompleteCalls) && closeCalls == old(closeCalls)
    {
      if !StartsWith(frame, DataPrefix) {
        return;
      }
      var data := decode(frame[6..]);
      if data.None? {
        return;
      }
      match data.value {
        case StatusEvent(m, p, n) =>
          statusMessage := m;
          progress := if p.Some? then p.value else 0;
          if n.Some? && n.value != 0 {
            emailsFound := n.value;
          }
        case SubscriptionEvent(s) =>
          found := found + [s];
        case CompleteEvent(m) =>
          status := Complete;
          progress := 100;
          statusMessage := m;
        case ErrorEvent(m) =>
          status := Failed;
          error := Some(m);
        case OtherEvent =>
      }
    }

    /** The `for` over the complete frames of one read. */
    method OnFrames(frames: seq<string>, decode: Decoder)
      modifies this
      ensures Shown() == HandleFrames(old(Shown()), frames, decode)
      ensures started == old(started) && scanCompleteCalls == old(scanCompleteCalls) && closeCalls == old(closeCalls)
    {
      var j := 0;
      while j < |frames|
        invariant 0 <= j <= |frames|
        invariant Shown() == HandleFrames(old(Shown()), frames[..j], decode)
        invariant started == old(started) && scanCompleteCalls == old(scanCompleteCalls) && closeCalls == old(closeCalls)
      {
        OnFrame(frames[j], decode);
        assert frames[..j + 1][..j] == frames[..j];
        j := j + 1;
      }
      assert frames[..j] == frames;
    }

    /** One read: the chunk joins the buffer, the complete frames are handled, the open piece is kept. */
    method ReadChunk(buffer: string, chunk: string, decode: Decoder) returns (rest: string)
      modifies this
      ensures rest == Open(buffer + chunk)
      ensures Shown() == HandleFrames(old(Shown()), Closed(buffer + chunk), decode)
      ensures started == old(started) && scanCompleteCalls == old(scanCompleteCalls) && closeCalls == old(closeCalls)
    {
      var lines := Split(buffer + chunk, FrameEnd);
      var complete := lines[..|lines| - 1];
      rest := lines[|lines| - 1];
      OnFrames(complete, decode);
    }

    /** The `while (true)` over the reads. */
    method ReadStream(chunks: seq<string>, decode: Decoder)
      modifies this
      ensures Shown() == HandleFrames(old(Shown()), Reassemble(chunks), decode)
      ensures started == old(started) && scanCompleteCalls == old(scanCompleteCalls) && closeCalls == old(closeCalls)
    {
      ghost var v0 := Shown();
      var buffer := "";
      var i := 0;
      while i < |chunks|
        invariant 0 <= i <= |chunks|
        invariant buffer == Buffered(chunks, i) && Shown() == HandleFrames(v0, Completed(chunks, i), decode)
        invariant started == old(started) && scanCompleteCalls == old(scanCompleteCalls) && closeCalls == old(closeCalls)
      {
        ghost var w := Shown();
        ghost var frames := Closed(buffer + chunks[i]);
        buffer := ReadChunk(buffer, chunks[i], decode);
        HandleMore(v0, w, Completed(chunks, i), frames, decode, Shown(), Completed(chunks, i + 1));
        i := i + 1;
      }
    }

    /**
     * `startScan`: nothing while a scan has started and not been reset;
     * otherwise reset the panel and read the response to its end.
     */
    method StartScan(response: Response, decode: Decoder)
      modifies this
      ensures old(started) ==> Shown() == old(Shown())
      ensures !old(started) ==> Shown() == ScanView(response, decode)
      ensures started && scanCompleteCalls == old(scanCompleteCalls) && closeCalls == old(closeCalls)
    {
      if started {
        return;
      }
      started := true;
      status, progress, found, emailsFound, error := Scanning, 0, [], 0, None;
      statusMessage := ConnectingMessage;
      match response {
        case NotOk =>
          status, error := Failed, Some(StartFailedMessage);
        case NoStream =>
          status, error := Failed, Some(NoStreamMessage);
        case Stream(chunks, end) =>
          assert Shown() == Started;
          ReadResponse(chunks, end, decode);
      }
    }

    /** The `try` around the reads of a started scan, and its `catch`. */
    method ReadResponse(chunks: seq<string>, end: ReadEnd, decode: Decoder)
      modifies this
      ensures Shown() == StreamView(old(Shown()), chunks, end, decode)
      ensures started == old(started) && scanCompleteCalls == old(scanCompleteCalls) && closeCalls == old(closeCalls)
    {
      ghost var w := HandleFrames(Shown(), Reassemble(chunks), decode);
      ReadStream(chunks, decode);
      if end.Threw? {
        status := Failed;
        error := Some(if end.message.Some? then end.message.value else ScanFailedMessage);
        assert Shown() == w.(status := Failed, error := error);
      }
    }

    /** The "Try again" button: reset the started flag, then start. */
    method Retry(response: Response, decode: Decoder)
      modifies this
      ensures Shown() == ScanView(response, decode)
      ensures started && scanCompleteCalls == old(scanCompleteCalls) && closeCalls == old(closeCalls)
    {
      started := false;
      StartScan(response, decode);
    }

    /**
     * `handleClose`: ignored while scanning; otherwise the next scan may
     * start, the page hears of a completed scan, and the panel closes.
     */
    method HandleClose()
      modifies this
      ensures Shown() == old(Shown())
      ensures old(status) == Scanning ==> (
        started == old(started) && closeCalls == old(closeCalls) && scanCompleteCalls == old(scanCompleteCalls))
      ensures old(status) != Scanning ==> (
        && !started && closeCalls == old(closeCalls) + 1
        && scanCompleteCalls == old(scanCompleteCalls) + (if old(status) == Complete then 1 else 0))
    {
      if status == Scanning {
        return;
      }
      started := false;
      if status == Complete {
        scanCompleteCalls := scanCompleteCalls + 1;
      }
      closeCalls := closeCalls + 1;
    }
  }

  // ---------------------------------------------------------------- properties

  /** Handling two runs of frames is handling their concatenation. */
  lemma {:induction false} HandleFramesAppend(v: Panel, a: seq<string>, b: seq<string>, decode: Decoder)
    ensures HandleFrames(v, a + b, decode) == HandleFrames(HandleFrames(v, a, decode), b, decode)
    decreases |b|
  {
    if b == [] {
      assert a + b == a;
    } else {
      var n := |b| - 1;
      HandleFramesAppend(v, a, b[..n], decode);
      assert (a + b)[..|a + b| - 1] == a + b[..n];
    }
  }

  /** The frames of one more read are handled after those before. */
  lemma HandleMore(v: Panel, w: Panel, before: seq<string>, frames: seq<string>, decode: Decoder,
                   after: Panel, all: seq<string>)
    requires w == HandleFrames(v, before, decode)
    requires after == HandleFrames(w, frames, decode) && all == before + frames
    ensures after == HandleFrames(v, all, decode)
  {
    HandleFramesAppend(v, before, frames, decode);
  }

  /** The found list grows by the subscription events, in order. */
  lemma {:induction false} FoundAreSubscriptions(v: Panel, es: seq<ClientEvent>)
    ensures ApplyAll(v, es).found == v.found + Subscriptions(es)
    decreases |es|
  {
    if es != [] {
      FoundAreSubscriptions(v, es[..|es| - 1]);
    }
  }

  /**
   * However the stream is cut into chunks, the frames completed and the
   * buffer left are the pieces of the text received so far cut at blank
   * lines: each frame is handled once, in order.
   */
  lemma {:induction false} ChunkingInvisible(chunks: seq<string>, n: nat)
    requires n <= |chunks|
    ensures Completed(chunks, n) + [Buffered(chunks, n)] == Split(Received(chunks, n), FrameEnd)
  {
    if n == 0 {
      assert IndexOf("", FrameEnd, 0) == -1;
    } else {
      var frames, rest := Completed(chunks, n - 1), Buffered(chunks, n - 1);
      var t, c := Received(chunks, n - 1), chunks[n - 1];
      ChunkingInvisible(chunks, n - 1);
      var before := Split(t, FrameEnd);
      Unsnoc(before, frames, rest);
      SplitAppend(t, c, FrameEnd, before);
      ClosedOpen(rest + c);
      FramesThenPieces(frames, Closed(rest + c), Open(rest + c), Split(rest + c, FrameEnd), Split(t + c, FrameEnd));
      assert Completed(chunks, n) == frames + Closed(rest + c);
      assert Buffered(chunks, n) == Open(rest + c);
      assert Received(chunks, n) == t + c;
    }
  }

  /** The frames a read completes, then its open piece, are the pieces of the text it cut. */
  lemma ClosedOpen(text: string)
    ensures Closed(text) + [Open(text)] == Split(text, FrameEnd)
  {
    var lines := Split(text, FrameEnd);
    assert lines == lines[..|lines| - 1] + [lines[|lines| - 1]];
  }

  /** A sequence built by adding an element ends with it, after what it was built from. */
  lemma Unsnoc(s: seq<string>, a: seq<string>, x: string)
    requires s == a + [x]
    ensures |s| > 0 && s[..|s| - 1] == a && s[|s| - 1] == x
  {
    assert s[..|s| - 1] == a;
  }

  /** The sequence bookkeeping of `ChunkingInvisible`: the finished frames, then the pieces of the last chunk. */
  lemma FramesThenPieces(frames: seq<string>, closed: seq<string>, open: string, pieces: seq<string>,
                         after: seq<string>)
    requires pieces == closed + [open]
    requires after == frames + pieces
    ensures after == (frames + closed) + [open]
  {
  }

  /** The first blank line of an encoded stream closes its first frame. */
  lemma FirstFrameEnd(d: string, rest: string)
    requires NoLineFeed(d)
    ensures IndexOf(d + FrameEnd + rest, FrameEnd, 0) == |d|
  {
    var text := d + FrameEnd + rest;
    assert OccursAt(text, FrameEnd, |d|) by {
      assert text[|d|..|d| + 2] == FrameEnd;
    }
    forall j | 0 <= j < |d| ensures !OccursAt(text, FrameEnd, j) {
      assert text[j] == d[j];
    }
  }

  /** Cutting an encoded stream at blank lines gives its `data: ` lines, then an empty buffer. */
  lemma {:induction false} SplitEncoded(payloads: seq<string>)
    requires forall k :: 0 <= k < |payloads| ==> NoLineFeed(payloads[k])
    ensures Split(Encode(payloads), FrameEnd) == DataLines(payloads) + [""]
    decreases |payloads|
  {
    if payloads == [] {
      assert IndexOf("", FrameEnd, 0) == -1;
    } else {
      FirstFrameCut(payloads[0], Encode(payloads[1..]));
      SplitEncoded(payloads[1..]);
      assert DataLines(payloads) == [DataPrefix + payloads[0]] + DataLines(payloads[1..]);
    }
  }

  /** The first frame of an encoded stream is its first piece, and the rest is cut the same way. */
  lemma FirstFrameCut(p: string, rest: string)
    requires NoLineFeed(p)
    ensures Split(Frame(p) + rest, FrameEnd) == [DataPrefix + p] + Split(rest, FrameEnd)
  {
    var d := DataPrefix + p;
    var text := d + FrameEnd + rest;
    assert NoLineFeed(d) by {
      forall k | 0 <= k < |d| ensures d[k] != '\n' {
        if k >= |DataPrefix| {
          assert d[k] == p[k - |DataPrefix|];
        }
      }
    }
    assert Frame(p) + rest == text;
    FirstFrameEnd(d, rest);
    SplitStep(text, FrameEnd, |d|);
    assert text[..|d|] == d;
    assert text[|d| + |FrameEnd|..] == rest;
  }

  /** The `data: ` lines of payloads that decode to events act as those events. */
  lemma {:induction false} DataLinesAct(v: Panel, payloads: seq<string>, es: seq<ClientEvent>, decode: Decoder)
    requires |payloads| == |es|
    requires forall k :: 0 <= k < |es| ==> decode(payloads[k]) == Some(es[k])
    ensures HandleFrames(v, DataLines(payloads), decode) == ApplyAll(v, es)
    decreases |es|
  {
    if es != [] {
      var n := |es| - 1;
      DataLinesAct(v, payloads[..n], es[..n], decode);
      assert DataLines(payloads)[..n] == DataLines(payloads[..n]);
      var line := DataPrefix + payloads[n];
      assert line[..|DataPrefix|] == DataPrefix && line[|DataPrefix|..] == payloads[n];
    }
  }

  /** Two sequences that agree once an element is added to each agree before it too. */
  lemma SameLast(a: seq<string>, x: string, b: seq<string>, y: string)
    requires a + [x] == b + [y]
    ensures a == b && x == y
  {
    assert a == (a + [x])[..|a|];
    assert b == (b + [y])[..|b|];
  }

  /**
   * Whatever the chunking, a stream of serialised events read to its end
   * leaves the panel as the events themselves would, one-for-one and in
   * order, and its found list holds exactly the subscriptions they carried.
   */
  lemma StreamRoundTrip(chunks: seq<string>, payloads: seq<string>, es: seq<ClientEvent>, decode: Decoder)
    requires Received(chunks, |chunks|) == Encode(payloads)
    requires forall k :: 0 <= k < |payloads| ==> NoLineFeed(payloads[k])
    requires |payloads| == |es| && forall k :: 0 <= k < |es| ==> decode(payloads[k]) == Some(es[k])
    ensures Reassemble(chunks) == DataLines(payloads) && Buffered(chunks, |chunks|) == ""
    ensures ScanView(Stream(chunks, Done), decode) == ApplyAll(Started, es)
    ensures ScanView(Stream(chunks, Done), decode).found == Subscriptions(es)
  {
    ChunkingInvisible(chunks, |chunks|);
    SplitEncoded(payloads);
    SameLast(Completed(chunks, |chunks|), Buffered(chunks, |chunks|), DataLines(payloads), "");
    DataLinesAct(Started, payloads, es, decode);
    FoundAreSubscriptions(Started, es);
  }
}
