/** The ASGI service (app.py): POST /carbon returns the agent result's string
    rendering; POST /carbon-streaming passes each chunk on as soon as the agent
    produces the event behind it. */
module FastApiService {
  import opened Common
  import opened SessionPaths
  import opened EventAdapter

  /** Name of the summary-signal tool registered for a streaming run. */
  const SignalToolName: string := "ready_to_summarize"
  /** What the signal tool returns to the agent. */
  const SignalToolAck: string := "Ok - continue providing the summary!"
  /** The chunk separating reasoning from summary: a bare newline. */
  const SummaryMarker: string := "\n"
  const ErrorPrefix: string := "Error: "
  const NoPromptDetail: string := "No prompt provided"

  /** An HTTP exception raised by an endpoint. */
  datatype HttpError = HttpError(status: nat, detail: string) {
    /** How the framework answers an exception that escapes the endpoint. */
    function ToResponse(): (r: Response) {
      JsonDetail(status, detail)
    }
    /** `str()` of the exception: "<status>: <detail>". */
    function Text(): (t: string) {
      DecimalString(status) + ": " + detail
    }
  }

  function DecimalString(n: nat): (r: string) {
    if n < 10 then [DigitChar(n)] else DecimalString(n / 10) + [DigitChar(n % 10)]
  }

  function DigitChar(d: nat): (c: char)
    requires d < 10
  {
    "0123456789"[d]
  }

  /** The prompt check of both endpoints; None lets the request through. */
  function CheckPrompt(prompt: string): (r: Option<HttpError>) {
    if prompt == "" then Some(HttpError(400, NoPromptDetail)) else None
  }

  // ------------------------------------------------------- /carbon-streaming

  /** What one streaming request has produced so far: the summary flag the loop
      and the signal tool share, and the chunks already sent to the client. */
  class StreamState {
    var isSummarizing: bool
    var chunks: seq<string>

    constructor ()
      ensures !isSummarizing && chunks == []
    {
      isSummarizing := false;
      chunks := [];
    }

    /** The `ready_to_summarize` tool, run by the agent: it sets the flag whatever
        its value was, sends nothing, and acknowledges to the agent. */
    method ReadyToSummarize() returns (ack: string)
      modifies this
      ensures isSummarizing && chunks == old(chunks)
      ensures ack == SignalToolAck
    {
      isSummarizing := true;
      ack := SignalToolAck;
    }

    /** One turn of the event loop. The flag does not gate what is sent. */
    method OnEvent(event: Event)
      modifies this
      ensures chunks == old(chunks) + EventChunks(event, SignalToolName, SummaryMarker)
      ensures isSummarizing == (old(isSummarizing) || IsSignal(event, SignalToolName))
    {
      match NamedToolUse(event)
      case Some(toolName) =>
        if toolName == SignalToolName {
          isSummarizing := true;
          chunks := chunks + [SummaryMarker];
        } else {
          chunks := chunks + [ToolMarkerPrefix + toolName];
        }
      case None =>
        if event.data.Some? {
          chunks := chunks + [event.data.value];
        }
    }

    /** The exception handler: one last error chunk. */
    method OnFailure(message: string)
      modifies this
      ensures chunks == old(chunks) + [ErrorPrefix + message]
      ensures isSummarizing == old(isSummarizing)
    {
      chunks := chunks + [ErrorPrefix + message];
    }
  }

  /** Whether the flag is set after these steps: by a signal tool-use event or by the tool itself. */
  predicate Summarizing(steps: seq<Step>) {
    steps != []
    && (Summarizing(steps[..|steps| - 1])
        || match steps[|steps| - 1]
           case Emit(e) => IsSignal(e, SignalToolName)
           case SignalToolRun => true)
  }

  /** The whole streamed body of a run: every event's chunks, then the error chunk if it failed. */
  function StreamedChunks(stream: AgentStream): (r: seq<string>) {
    Chunks(Events(stream.steps), SignalToolName, SummaryMarker)
    + (match stream.failure case Some(message) => [ErrorPrefix + message] case None => [])
  }

  /** The body generator of /carbon-streaming, with the flag it ends with. */
  method RunCarbonAgentAndStreamResponse(stream: AgentStream) returns (chunks: seq<string>, isSummarizing: bool)
    ensures chunks == StreamedChunks(stream)
    ensures isSummarizing == Summarizing(stream.steps)
  {
    var state := new StreamState();
    for i := 0 to |stream.steps|
      invariant state.chunks == Chunks(Events(stream.steps[..i]), SignalToolName, SummaryMarker)
      invariant state.isSummarizing == Summarizing(stream.steps[..i])
    {
      assert stream.steps[..i + 1][..i] == stream.steps[..i];
      match stream.steps[i]
      case Emit(event) =>
        assert Events(stream.steps[..i + 1]) == Events(stream.steps[..i]) + [event];
        ChunksAppend(Events(stream.steps[..i]), [event], SignalToolName, SummaryMarker);
        ChunksSingleton(event, SignalToolName, SummaryMarker);
        state.OnEvent(event);
      case SignalToolRun =>
        assert Events(stream.steps[..i + 1]) == Events(stream.steps[..i]);
        var _ := state.ReadyToSummarize();
    }
    assert stream.steps[..|stream.steps|] == stream.steps;
    if stream.failure.Some? {
      state.OnFailure(stream.failure.value);
    }
    chunks, isSummarizing := state.chunks, state.isSummarizing;
  }

  /** The endpoint's setup as written: the 400 for an empty prompt is raised inside a
      `try` whose `except Exception` turns every exception into a 500. */
  function StreamingSetupAsWritten(prompt: string): (r: Option<Response>)
    ensures r.Some? <==> prompt == ""
    ensures r.Some? ==> r.value.Status() == 500
  {
    match CheckPrompt(prompt)
    case Some(error) => Some(HttpError(500, error.Text()).ToResponse())
    case None => None
  }

  /** The endpoint's setup as intended: the prompt check answers 400 itself. */
  function StreamingSetup(prompt: string): (r: Option<Response>)
    ensures r.Some? <==> prompt == ""
    ensures r.Some? ==> r.value == JsonDetail(400, NoPromptDetail)
  {
    match CheckPrompt(prompt)
    case Some(error) => Some(error.ToResponse())
    case None => None
  }

  lemma EmptyStreamingPromptAnswers500()
    ensures StreamingSetupAsWritten("") == Some(JsonDetail(500, "400: No prompt provided"))
    ensures StreamingSetup("") == Some(JsonDetail(400, "No prompt provided"))
  {
    assert DecimalString(400) == "400" by {
      assert DigitChar(4) == '4' && DigitChar(0) == '0';
      assert DecimalString(4) == "4";
      assert DecimalString(40) == DecimalString(4) + "0" == "40";
      assert DecimalString(400) == DecimalString(40) + "0";
    }
    assert HttpError(400, NoPromptDetail).Text() == "400" + ": " + "No prompt provided";
    assert "400" + ": " + "No prompt provided" == "400: No prompt provided";
  }

  /** The endpoint as written: an empty prompt is answered with 500 (see `StreamingSetupAsWritten`).
      `session` is the session store the streaming agent is created with, None if none is. */
  method GetCarbonStreaming(base: Path, request: PromptRequest, stream: AgentStream)
    returns (resp: Response, session: Option<SessionHandle>)
    ensures session.Some? <==> request.prompt != ""
    ensures request.prompt == "" ==> resp == JsonDetail(500, "400: No prompt provided")
    ensures session.Some? ==> session.value == OpenSession(base, request.userId, request.sessionId)
    ensures session.Some? ==> resp == Streamed(StreamedChunks(stream))
  {
    var rejected := StreamingSetupAsWritten(request.prompt);
    if rejected.Some? {
      EmptyStreamingPromptAnswers500();
      return rejected.value, None;
    }
    session := Some(OpenSession(base, request.userId, request.sessionId));
    var chunks, _ := RunCarbonAgentAndStreamResponse(stream);
    resp := Streamed(chunks);
  }

  // ---------------------------------------------------------------- /carbon

  /** `agent` is what running the agent on the prompt gives: a result or an error message. */
  method GetCarbon(base: Path, request: PromptRequest, agent: Result<AgentResult, string>)
    returns (resp: Response, session: Option<SessionHandle>)
    ensures session.Some? <==> request.prompt != ""
    ensures request.prompt == "" ==> resp == JsonDetail(400, NoPromptDetail)
    ensures session.Some? ==> session.value == OpenSession(base, request.userId, request.sessionId)
    ensures session.Some? && agent.Failure? ==> resp == PlainText(500, ErrorPrefix + agent.error)
    ensures session.Some? && agent.Success? ==> resp == PlainText(200, agent.value.rendering)
  {
    var rejected := CheckPrompt(request.prompt);
    if rejected.Some? {
      return rejected.value.ToResponse(), None;
    }
    session := Some(OpenSession(base, request.userId, request.sessionId));
    match agent
    case Failure(message) =>
      resp := PlainText(500, ErrorPrefix + message);
    case Success(result) =>
      resp := PlainText(200, result.rendering);
  }

  // ------------------------------------------------------------ properties

  /** Chunks already sent are never taken back: the body of the first `k` steps
      is a prefix of the body of the whole run, whether or not the run fails later. */
  lemma StreamedPrefix(stream: AgentStream, k: nat)
    requires k <= |stream.steps|
    ensures StreamedChunks(AgentStream(stream.steps[..k], None))
         <= StreamedChunks(stream)
  {
    var steps := stream.steps;
    assert steps[..k] + steps[k..] == steps;
    EventsAppend(steps[..k], steps[k..]);
    ChunksAppend(Events(steps[..k]), Events(steps[k..]), SignalToolName, SummaryMarker);
  }

  /** A failing run ends with exactly one error chunk after at most one chunk per event. */
  lemma FailureEndsStream(stream: AgentStream)
    requires stream.failure.Some?
    ensures var out := StreamedChunks(stream);
      && 1 <= |out| <= |Events(stream.steps)| + 1
      && out[|out| - 1] == ErrorPrefix + stream.failure.value
      && out[..|out| - 1] == Chunks(Events(stream.steps), SignalToolName, SummaryMarker)
  {
    ChunksCount(Events(stream.steps), SignalToolName, SummaryMarker);
  }

  /** A run without named tool uses streams exactly its `data` chunks, summarizing or not. */
  lemma DataOnlyRun(stream: AgentStream)
    requires stream.failure.None?
    requires forall e | e in Events(stream.steps) :: NamedToolUse(e).None?
    ensures StreamedChunks(stream) == DataChunks(Events(stream.steps))
  {
    var events := Events(stream.steps);
    forall i | 0 <= i < |events| ensures NamedToolUse(events[i]).None? {
      assert events[i] in events;
    }
    ChunksWithoutToolUse(events, SignalToolName, SummaryMarker);
  }

  /** The flag is set exactly when the signal tool was used or run, and then stays set. */
  lemma {:induction false} SummarizingIff(steps: seq<Step>)
    ensures Summarizing(steps) <==> SignalSeen(Events(steps), SignalToolName) || SignalToolRun in steps
  {
    if steps != [] {
      var init := steps[..|steps| - 1];
      var last := steps[|steps| - 1];
      SummarizingIff(init);
      assert steps == init + [last];
      EventsAppend(init, [last]);
      assert Events([last]) == (if last.Emit? then [last.event] else []) by {
        assert [last][..0] == [];
      }
      SignalSeenAppend(Events(init), Events([last]), SignalToolName);
      if last.Emit? {
        assert [last.event][..0] == [];
      }
    }
  }

  lemma SummarizingMonotone(steps: seq<Step>, i: nat, j: nat)
    requires i <= j <= |steps|
    ensures Summarizing(steps[..i]) ==> Summarizing(steps[..j])
  {
    SummarizingIff(steps[..i]);
    SummarizingIff(steps[..j]);
    assert steps[..j] == steps[..i] + steps[i..j];
    EventsAppend(steps[..i], steps[i..j]);
    SignalSeenAppend(Events(steps[..i]), Events(steps[i..j]), SignalToolName);
  }

  /** The example run: a tool trace, reasoning text, the summary marker, summary text. */
  lemma ExampleRun()
    ensures StreamedChunks(AgentStream([
              Emit(Event(Some(ToolUse(Some("http_request"))), None)),
              Emit(Event(None, Some("Hello "))),
              Emit(Event(Some(ToolUse(Some("ready_to_summarize"))), None)),
              Emit(Event(None, Some("World")))], None))
         == [ToolMarkerPrefix + "http_request", "Hello ", "\n", "World"]
  {
    var e1 := Event(Some(ToolUse(Some("http_request"))), None);
    var e2 := Event(None, Some("Hello "));
    var e3 := Event(Some(ToolUse(Some("ready_to_summarize"))), None);
    var e4 := Event(None, Some("World"));
    var steps := [Emit(e1), Emit(e2), Emit(e3), Emit(e4)];
    assert steps[..3] == [Emit(e1), Emit(e2), Emit(e3)];
    assert steps[..3][..2] == [Emit(e1), Emit(e2)];
    assert steps[..3][..2][..1] == [Emit(e1)];
    assert steps[..3][..2][..1][..0] == [];
    assert Events(steps[..3][..2][..1]) == [e1];
    assert Events(steps[..3][..2]) == [e1, e2];
    assert Events(steps[..3]) == [e1, e2, e3];
    var events := Events(steps);
    assert events == [e1, e2, e3, e4];
    assert events[..3] == [e1, e2, e3];
    assert events[..3][..2] == [e1, e2];
    assert events[..3][..2][..1] == [e1];
    assert events[..3][..2][..1][..0] == [];
    assert EventChunks(e1, SignalToolName, SummaryMarker) == [ToolMarkerPrefix + "http_request"];
    assert EventChunks(e2, SignalToolName, SummaryMarker) == ["Hello "];
    assert EventChunks(e3, SignalToolName, SummaryMarker) == ["\n"];
    assert EventChunks(e4, SignalToolName, SummaryMarker) == ["World"];
    assert Chunks(events[..3][..2][..1], SignalToolName, SummaryMarker) == [ToolMarkerPrefix + "http_request"];
    var c2 := Chunks(events[..3][..2], SignalToolName, SummaryMarker);
    assert c2 == [ToolMarkerPrefix + "http_request", "Hello "];
    var c3 := Chunks(events[..3], SignalToolName, SummaryMarker);
    assert c3 == c2 + ["\n"];
    assert Chunks(events, SignalToolName, SummaryMarker) == c3 + ["World"];
  }
}
