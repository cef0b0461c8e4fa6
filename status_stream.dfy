/** The job-status push stream: Get_status in Go and stream_status in
    Python. A session subscribes to `job_status_{uploadID}`, turns every
    published status into one server-sent event, and ends after `ready` or
    `failed`, or when the client goes away. What happens during a session
    is given as a trace of events. */
module StatusStream {
  import opened Wrappers
  import opened Dialects
  import JsonText

  /** One thing a session waits for: a published status, a wake-up that
      brings nothing (Python's 20-second poll timeout; Go's select does not
      wake for it), or the client disconnecting. */
  datatype Event = Message(payload: string) | Idle | Disconnect

  /** Why a session ended. */
  datatype Stop = Finished | Disconnected

  /** The statuses a session pushes, in order, and how it ended (None: it
      is still waiting when the trace runs out). */
  datatype Run = Run(payloads: seq<string>, stop: Option<Stop>)

  /** The handler's reply: Go rejects an empty id with 400 before
      subscribing; otherwise the frames written, whether the stream has
      closed, and whether the subscription has been released. */
  datatype StreamReply = Rejected | Streamed(frames: seq<string>, closed: bool, released: bool)

  function Channel(uploadID: string): string
  {
    "job_status_" + uploadID
  }

  predicate Terminal(p: string)
  {
    p == "ready" || p == "failed"
  }

  /** The session as a state machine over the trace. */
  function RunOf(events: seq<Event>): (r: Run)
    ensures |r.payloads| <= |events|
  {
    if events == [] then Run([], None)
    else
      match events[0]
      case Disconnect => Run([], Some(Disconnected))
      case Idle => RunOf(events[1..])
      case Message(p) =>
        if Terminal(p) then Run([p], Some(Finished))
        else
          var rest := RunOf(events[1..]);
          Run([p] + rest.payloads, rest.stop)
  }

  /** The `{"data":{"status":...}}` object as each implementation
      serialises it: Go's json.Marshal writes no spaces, Python's
      json.dumps writes ", " and ": ". */
  function StatusJson(d: Dialect, p: string): string
  {
    match d
    case Go => "{\"data\":{\"status\":" + JsonText.Quote(Go, p) + "}}"
    case Python => "{\"data\": {\"status\": " + JsonText.Quote(Python, p) + "}}"
  }

  /** What is written per status, given the JSON text of its object
      (`marshal`, the serialiser, is StatusJson above). Go formats the whole
      event, `data: <json>\n\n`; Python yields the event's data field and
      the SSE library frames it. */
  function Frame(d: Dialect, marshal: string -> string, p: string): string
  {
    match d
    case Go => "data: " + marshal(p) + "\n\n"
    case Python => marshal(p)
  }

  function Frames(d: Dialect, marshal: string -> string, payloads: seq<string>): (fs: seq<string>)
    ensures |fs| == |payloads|
    ensures forall i :: 0 <= i < |payloads| ==> fs[i] == Frame(d, marshal, payloads[i])
  {
    seq(|payloads|, i requires 0 <= i < |payloads| => Frame(d, marshal, payloads[i]))
  }

  lemma FramesSnoc(d: Dialect, marshal: string -> string, sent: seq<string>, p: string)
    ensures Frames(d, marshal, sent + [p]) == Frames(d, marshal, sent) + [Frame(d, marshal, p)]
  {
  }

  /** Get_status: the 400 check, the subscription, the c.Stream loop that
      handles one event per step, and the deferred Close that runs
      whenever the handler returns. */
  method GoStream(marshal: string -> string, uploadID: string, events: seq<Event>) returns (reply: StreamReply)
    ensures uploadID == "" <==> reply == Rejected
    ensures uploadID != "" ==>
      var run := RunOf(events);
      reply == Streamed(Frames(Go, marshal, run.payloads), run.stop.Some?, run.stop.Some?)
  {
    if uploadID == "" {
      return Rejected;
    }
    var subscribed := true;
    var frames: seq<string> := [];
    ghost var sent: seq<string> := [];
    var closed := false;
    var i := 0;
    while i < |events| && !closed
      invariant 0 <= i <= |events|
      invariant frames == Frames(Go, marshal, sent)
      invariant !closed ==> Resumes(events, i, sent)
      invariant closed ==> RunOf(events).payloads == sent && RunOf(events).stop.Some?
      decreases |events| - i
    {
      Advance(events, i, sent);
      match events[i] {
        case Message(p) =>
          FramesSnoc(Go, marshal, sent, p);
          frames := frames + [Frame(Go, marshal, p)];
          sent := sent + [p];
          if Terminal(p) {
            closed := true;
          }
        case Idle =>
        case Disconnect =>
          closed := true;
      }
      i := i + 1;
    }
    if !closed {
      ResumesAtEnd(events, sent);
    }
    var released := false;
    if closed {
      // the deferred pubsub.Close() runs as the handler returns
      released := true;
      subscribed := false;
    }
    reply := Streamed(frames, closed, released);
  }

  /** The session so far has pushed `sent`, and what it does from event
      `i` on is the run of the rest of the trace. */
  predicate Resumes(events: seq<Event>, i: nat, sent: seq<string>)
    requires i <= |events|
  {
    var rest := RunOf(events[i..]);
    RunOf(events) == Run(sent + rest.payloads, rest.stop)
  }

  /** One step of the session: what event `i` does to the run. */
  lemma Advance(events: seq<Event>, i: nat, sent: seq<string>)
    requires i < |events| && Resumes(events, i, sent)
    ensures match events[i]
      case Disconnect => RunOf(events) == Run(sent, Some(Disconnected))
      case Idle => Resumes(events, i + 1, sent)
      case Message(p) =>
        if Terminal(p) then RunOf(events) == Run(sent + [p], Some(Finished))
        else Resumes(events, i + 1, sent + [p])
  {
    match events[i]
    case Disconnect => AdvanceDisconnect(events, i, sent);
    case Idle => AdvanceIdle(events, i, sent);
    case Message(p) => AdvanceMessage(events, i, sent, p);
  }

  lemma AdvanceDisconnect(events: seq<Event>, i: nat, sent: seq<string>)
    requires i < |events| && events[i] == Disconnect && Resumes(events, i, sent)
    ensures RunOf(events) == Run(sent, Some(Disconnected))
  {
    var rest := events[i..];
    assert rest[0] == Disconnect;
    assert RunOf(rest) == Run([], Some(Disconnected));
    assert sent + [] == sent;
  }

  lemma AdvanceIdle(events: seq<Event>, i: nat, sent: seq<string>)
    requires i < |events| && events[i] == Idle && Resumes(events, i, sent)
    ensures Resumes(events, i + 1, sent)
  {
    var rest := events[i..];
    assert rest[0] == Idle;
    assert rest[1..] == events[i + 1..];
    assert RunOf(rest) == RunOf(events[i + 1..]);
  }

  lemma AdvanceMessage(events: seq<Event>, i: nat, sent: seq<string>, p: string)
    requires i < |events| && events[i] == Message(p) && Resumes(events, i, sent)
    ensures Terminal(p) ==> RunOf(events) == Run(sent + [p], Some(Finished))
    ensures !Terminal(p) ==> Resumes(events, i + 1, sent + [p])
  {
    var rest := events[i..];
    assert rest[0] == Message(p);
    if Terminal(p) {
      assert RunOf(rest) == Run([p], Some(Finished));
    } else {
      assert rest[1..] == events[i + 1..];
      var next := RunOf(events[i + 1..]);
      assert RunOf(rest) == Run([p] + next.payloads, next.stop);
      assert sent + ([p] + next.payloads) == (sent + [p]) + next.payloads;
    }
  }

  /** With nothing left the run has pushed everything and is still open. */
  lemma ResumesAtEnd(events: seq<Event>, sent: seq<string>)
    requires Resumes(events, |events|, sent)
    ensures RunOf(events) == Run(sent, None)
  {
    assert events[|events|..] == [];
    assert sent + [] == sent;
  }

  /** stream_status as written: the subscription, the `while True` loop
      that checks for a disconnect and then polls, and the close that only
      the disconnect branch performs. */
  method PyStream(marshal: string -> string, videoID: string, events: seq<Event>) returns (reply: StreamReply)
    ensures var run := RunOf(events);
      reply == Streamed(Frames(Python, marshal, run.payloads), run.stop.Some?, run.stop == Some(Disconnected))
  {
    var frames: seq<string> := [];
    ghost var sent: seq<string> := [];
    var closed, released := false, false;
    var i := 0;
    while i < |events| && !closed
      invariant 0 <= i <= |events|
      invariant frames == Frames(Python, marshal, sent)
      invariant !closed ==> Resumes(events, i, sent)
                            && !released
      invariant closed ==> RunOf(events).payloads == sent && RunOf(events).stop.Some?
                           && (released <==> RunOf(events).stop == Some(Disconnected))
      decreases |events| - i
    {
      Advance(events, i, sent);
      match events[i] {
        case Disconnect =>
          released := true;
          closed := true;
        case Idle =>
        case Message(p) =>
          FramesSnoc(Python, marshal, sent, p);
          frames := frames + [Frame(Python, marshal, p)];
          sent := sent + [p];
          if Terminal(p) {
            closed := true;
          }
      }
      i := i + 1;
    }
    if !closed {
      ResumesAtEnd(events, sent);
    }
    reply := Streamed(frames, closed, released);
  }

  /** stream_status with the close moved into a `finally` around the loop,
      so that every way out of the generator releases the subscription. */
  method PyStreamReleasing(marshal: string -> string, videoID: string, events: seq<Event>) returns (reply: StreamReply)
    ensures var run := RunOf(events);
      reply == Streamed(Frames(Python, marshal, run.payloads), run.stop.Some?, run.stop.Some?)
  {
    var frames: seq<string> := [];
    ghost var sent: seq<string> := [];
    var closed := false;
    var i := 0;
    while i < |events| && !closed
      invariant 0 <= i <= |events|
      invariant frames == Frames(Python, marshal, sent)
      invariant !closed ==> Resumes(events, i, sent)
      invariant closed ==> RunOf(events).payloads == sent && RunOf(events).stop.Some?
      decreases |events| - i
    {
      Advance(events, i, sent);
      match events[i] {
        case Disconnect =>
          closed := true;
        case Idle =>
        case Message(p) =>
          FramesSnoc(Python, marshal, sent, p);
          frames := frames + [Frame(Python, marshal, p)];
          sent := sent + [p];
          if Terminal(p) {
            closed := true;
          }
      }
      i := i + 1;
    }
    if !closed {
      ResumesAtEnd(events, sent);
    }
    var released := closed;
    reply := Streamed(frames, closed, released);
  }

  /** The payloads of the messages in a trace. */
  function Messages(events: seq<Event>): seq<string>
  {
    if events == [] then []
    else if events[0].Message? then [events[0].payload] + Messages(events[1..])
    else Messages(events[1..])
  }

  /** An event that ends a session. */
  predicate Exits(e: Event)
  {
    e.Disconnect? || (e.Message? && Terminal(e.payload))
  }

  /** The position of the first event that ends the session, if any. */
  function FirstExit(events: seq<Event>): (r: Option<nat>)
    ensures r.Some? ==> r.value < |events| && Exits(events[r.value])
                        && forall j :: 0 <= j < r.value ==> !Exits(events[j])
    ensures r.None? ==> forall j :: 0 <= j < |events| ==> !Exits(events[j])
  {
    if events == [] then None
    else if Exits(events[0]) then Some(0)
    else match FirstExit(events[1..])
      case None => None
      case Some(n) => Some(n + 1)
  }

  /** The session, described without stepping: it pushes every status up
      to the first exit event, including that event when it is a terminal
      status, and ends for that event's reason; without an exit event it
      pushes every status and keeps waiting. */
  lemma {:induction false} RunByFirstExit(events: seq<Event>)
    ensures RunOf(events) == match FirstExit(events)
      case None => Run(Messages(events), None)
      case Some(n) =>
        Run(Messages(events[..n + 1]), Some(if events[n].Disconnect? then Disconnected else Finished))
    decreases |events|
  {
    if events != [] {
      RunByFirstExit(events[1..]);
      var e := events[0];
      if Exits(e) {
        assert events[..1] == [e];
        assert Messages([e]) == (if e.Message? then [e.payload] else []) by {
          assert [e][1..] == [];
        }
      } else {
        match FirstExit(events[1..])
        case None =>
        case Some(n) =>
          assert events[..n + 2][1..] == events[1..][..n + 1];
          assert events[..n + 2][0] == e;
      }
    }
  }

  /** The number of frames is the number of statuses received up to and
      including the one that ends the session; a session that ended pushed
      nothing after its exit event. */
  lemma FramesCounted(d: Dialect, events: seq<Event>)
    ensures var run := RunOf(events);
      (forall i :: 0 <= i < |run.payloads| - 1 ==> !Terminal(run.payloads[i]))
      && (run.stop == Some(Finished) <==> |run.payloads| > 0 && Terminal(run.payloads[|run.payloads| - 1]))
  {
    RunShape(events);
  }

  lemma {:induction false} RunShape(events: seq<Event>)
    ensures var run := RunOf(events);
      (forall i :: 0 <= i < |run.payloads| - 1 ==> !Terminal(run.payloads[i]))
      && (run.stop == Some(Finished) <==> |run.payloads| > 0 && Terminal(run.payloads[|run.payloads| - 1]))
    decreases |events|
  {
    if events != [] {
      RunShape(events[1..]);
      var rest := RunOf(events[1..]);
      match events[0]
      case Disconnect =>
      case Idle =>
      case Message(p) =>
        if !Terminal(p) {
          var ps := [p] + rest.payloads;
          assert forall i :: 1 <= i < |ps| ==> ps[i] == rest.payloads[i - 1];
        }
    }
  }

  /** Three sample sessions: two `processing` and a `ready` give
      three frames and close; `failed` closes; a disconnect after a
      non-terminal status closes with no further frame. */
  lemma SessionExamples()
    ensures RunOf([Message("processing"), Message("processing"), Message("ready")])
         == Run(["processing", "processing", "ready"], Some(Finished))
    ensures RunOf([Message("failed"), Message("processing")]) == Run(["failed"], Some(Finished))
    ensures RunOf([Message("processing"), Disconnect, Message("ready")]) == Run(["processing"], Some(Disconnected))
  {
    var a := [Message("processing"), Message("processing"), Message("ready")];
    assert a[1..] == [Message("processing"), Message("ready")];
    assert a[1..][1..] == [Message("ready")];
    assert a[1..][1..][0] == Message("ready");
    var b := [Message("failed"), Message("processing")];
    assert b[0] == Message("failed");
    var c := [Message("processing"), Disconnect, Message("ready")];
    assert c[1..] == [Disconnect, Message("ready")];
  }

  /** Python keeps the subscription after `ready`: the loop breaks out of
      the generator without the close that only the disconnect branch
      calls, while Go's deferred close releases it. */
  lemma PyKeepsSubscription()
    ensures var run := RunOf([Message("ready")]);
      run.stop == Some(Finished) && run.stop != Some(Disconnected)
  {
    assert [Message("ready")][0] == Message("ready");
  }

  /** The JSON text of a status object has no line break, and the status
      comes back out of its quoted field unchanged. */
  lemma StatusJsonOneLine(d: Dialect, p: string)
    ensures '\n' !in StatusJson(d, p) && '\r' !in StatusJson(d, p)
    ensures JsonText.Unquote(JsonText.Quote(d, p)) == Some(p)
  {
    var q := JsonText.Quote(d, p);
    JsonText.QuoteOneLine(d, p);
    JsonText.UnquoteQuote(d, p);
    var h := if d == Go then "{\"data\":{\"status\":" else "{\"data\": {\"status\": ";
    assert '\n' !in h && '\r' !in h;
    assert StatusJson(d, p) == h + q + "}}";
  }

  /** A Go frame is one event: its only line breaks are the two that end
      it. */
  lemma GoFrameIsOneEvent(p: string)
    ensures var f := Frame(Go, s => StatusJson(Go, s), p);
      && |f| >= 2 && f[|f| - 2..] == "\n\n"
      && '\n' !in f[..|f| - 2] && '\r' !in f
  {
    var j := StatusJson(Go, p);
    StatusJsonOneLine(Go, p);
    var f := "data: " + j + "\n\n";
    assert f[..|f| - 2] == "data: " + j;
    assert Frame(Go, s => StatusJson(Go, s), p) == f;
  }

  /** A Python event's data is a single line, so the SSE library writes it
      as one `data:` field. */
  lemma PyFrameIsOneLine(p: string)
    ensures var f := Frame(Python, s => StatusJson(Python, s), p);
      '\n' !in f && '\r' !in f
  {
    StatusJsonOneLine(Python, p);
  }

  /** A status made of letters, digits and underscores, as every status
      the worker publishes is, is written verbatim between the quotes by
      both servers. */
  lemma PlainStatusQuoted(d: Dialect, p: string)
    requires forall i :: 0 <= i < |p| ==> JsonText.Plain(p[i])
    ensures JsonText.Quote(d, p) == "\"" + p + "\""
  {
    JsonText.PlainVerbatim(d, p);
  }
}
