/** The WSGI service (main.py): POST /carbon returns the agent's text in one
    body; POST /carbon-streaming first collects every agent event and only then
    replays them as chunks, so nothing reaches the client before the run ends. */
module FlaskService {
  import opened Common
  import opened SessionPaths
  import opened EventAdapter

  /** Name under which the streaming agent knows its summary-signal tool. */
  const SignalToolName: string := "ready_to_summarize_signal_tool"
  const SummaryBanner: string := "\n\n--- Agent is generating summary ---\n\n"
  const CollectionErrorPrefix: string := "\n\nError during streaming agent processing: "
  const InvalidBodyDetail: string := "Invalid JSON request body."
  const NoPromptDetail: string := "No prompt provided in the request."
  const AgentErrorPrefix: string := "An error occurred: "

  /** The request body as the framework hands it over: parsed into a request, rejected
      by field validation (with the validator's error list), or not a JSON object at all. */
  datatype RequestBody = Parsed(request: PromptRequest) | ValidationFailed(errors: string) | Malformed

  /** The checks both endpoints run before any agent exists; None lets the request through. */
  function Precheck(body: RequestBody): (r: Option<Response>) {
    match body
    case ValidationFailed(errors) => Some(JsonDetail(400, errors))
    case Malformed => Some(JsonDetail(400, InvalidBodyDetail))
    case Parsed(request) => if request.prompt == "" then Some(JsonDetail(400, NoPromptDetail)) else None
  }

  // ---------------------------------------------------------------- /carbon

  /** Reference definition: the `text` fields of the blocks that have one, concatenated in order. */
  function BlockText(blocks: seq<ContentBlock>): (r: string) {
    if blocks == [] then ""
    else
      BlockText(blocks[..|blocks| - 1])
      + (match blocks[|blocks| - 1].text case Some(t) => t case None => "")
  }

  /** The non-streaming body: the block texts when the message has a non-empty
      `content` list, otherwise the string rendering of the whole result. */
  function ResponseText(result: AgentResult): (r: string) {
    if result.content.Some? && result.content.value != [] then BlockText(result.content.value)
    else result.rendering
  }

  method ExtractResponseText(result: AgentResult) returns (text: string)
    ensures text == ResponseText(result)
  {
    text := "";
    if result.content.Some? && result.content.value != [] {
      var blocks := result.content.value;
      for i := 0 to |blocks|
        invariant text == BlockText(blocks[..i])
      {
        assert blocks[..i + 1][..i] == blocks[..i];
        if blocks[i].text.Some? {
          text := text + blocks[i].text.value;
        }
      }
      assert blocks[..|blocks|] == blocks;
    } else {
      text := result.rendering;
    }
  }

  lemma {:induction false} BlockTextAppend(a: seq<ContentBlock>, b: seq<ContentBlock>)
    ensures BlockText(a + b) == BlockText(a) + BlockText(b)
  {
    if b == [] {
      assert a + b == a;
    } else {
      var b' := b[..|b| - 1];
      assert (a + b)[..|a + b| - 1] == a + b';
      assert (a + b)[|a + b| - 1] == b[|b| - 1];
      BlockTextAppend(a, b');
    }
  }

  /** A block without `text` contributes nothing, wherever it stands. */
  lemma BlockTextSkipsUntexted(a: seq<ContentBlock>, b: seq<ContentBlock>)
    ensures BlockText(a + [ContentBlock(None)] + b) == BlockText(a + b)
  {
    BlockTextAppend(a + [ContentBlock(None)], b);
    BlockTextAppend(a, [ContentBlock(None)]);
    BlockTextAppend(a, b);
    assert [ContentBlock(None)][..0] == [];
  }

  /** A block list in which no block has `text` concatenates to the empty string. */
  lemma {:induction false} BlockTextAllUntexted(blocks: seq<ContentBlock>)
    requires forall i :: 0 <= i < |blocks| ==> blocks[i].text.None?
    ensures BlockText(blocks) == ""
  {
    if blocks != [] {
      BlockTextAllUntexted(blocks[..|blocks| - 1]);
    }
  }

  /** A non-empty `content` list without any `text` gives an empty body, not the fallback. */
  lemma UntextedContentGivesEmptyBody(blocks: seq<ContentBlock>, rendering: string)
    requires blocks != []
    requires forall i :: 0 <= i < |blocks| ==> blocks[i].text.None?
    ensures ResponseText(AgentResult(Some(blocks), rendering)) == ""
  {
    BlockTextAllUntexted(blocks);
  }

  /** `agent` is what running the agent on the prompt gives: a result or an error message.
      `session` is the session store the agent is created with, None if no agent is created. */
  method GetCarbon(base: Path, body: RequestBody, agent: Result<AgentResult, string>)
    returns (resp: Response, session: Option<SessionHandle>)
    ensures session.Some? <==> body.Parsed? && body.request.prompt != ""
    ensures body.Malformed? ==> resp == JsonDetail(400, InvalidBodyDetail)
    ensures body.ValidationFailed? ==> resp == JsonDetail(400, body.errors)
    ensures body.Parsed? && body.request.prompt == "" ==> resp == JsonDetail(400, NoPromptDetail)
    ensures session.Some? ==>
      session.value == OpenSession(base, body.request.userId, body.request.sessionId)
    ensures session.Some? && agent.Failure? ==> resp == JsonDetail(500, AgentErrorPrefix + agent.error)
    ensures session.Some? && agent.Success? ==> resp == PlainText(200, ResponseText(agent.value))
  {
    var rejected := Precheck(body);
    if rejected.Some? {
      return rejected.value, None;
    }
    var request := body.request;
    session := Some(OpenSession(base, request.userId, request.sessionId));
    match agent
    case Failure(message) =>
      resp := JsonDetail(500, AgentErrorPrefix + message);
    case Success(result) =>
      var text := ExtractResponseText(result);
      resp := PlainText(200, text);
  }

  // ------------------------------------------------------- /carbon-streaming

  /** Runs the whole agent stream, appending every event; a failure discards them all. */
  method CollectEvents(stream: AgentStream) returns (collected: Result<seq<Event>, string>)
    ensures stream.failure.Some? ==> collected == Failure(stream.failure.value)
    ensures stream.failure.None? ==> collected == Success(Events(stream.steps))
  {
    var allEvents: seq<Event> := [];
    for i := 0 to |stream.steps|
      invariant allEvents == Events(stream.steps[..i])
    {
      assert stream.steps[..i + 1][..i] == stream.steps[..i];
      if stream.steps[i].Emit? {
        allEvents := allEvents + [stream.steps[i].event];
      }
    }
    assert stream.steps[..|stream.steps|] == stream.steps;
    if stream.failure.Some? {
      return Failure(stream.failure.value);
    }
    collected := Success(allEvents);
  }

  /** Replays the collected events through the classification, tracking the summary flag. */
  method ReplayEvents(events: seq<Event>) returns (chunks: seq<string>, isSummarizing: bool)
    ensures chunks == Chunks(events, SignalToolName, SummaryBanner)
    ensures isSummarizing == SignalSeen(events, SignalToolName)
  {
    chunks, isSummarizing := [], false;
    for i := 0 to |events|
      invariant chunks == Chunks(events[..i], SignalToolName, SummaryBanner)
      invariant isSummarizing == SignalSeen(events[..i], SignalToolName)
    {
      assert events[..i + 1][..i] == events[..i];
      var event := events[i];
      match NamedToolUse(event)
      case Some(toolName) =>
        if toolName == SignalToolName {
          isSummarizing := true;
          chunks := chunks + [SummaryBanner];
        } else {
          chunks := chunks + [ToolMarkerPrefix + toolName];
        }
      case None =>
        if event.data.Some? {
          chunks := chunks + [event.data.value];
        }
    }
    assert events[..|events|] == events;
  }

  /** The body generator of /carbon-streaming. */
  method GenerateStreamingResponse(stream: AgentStream) returns (chunks: seq<string>)
    ensures stream.failure.Some? ==> chunks == [CollectionErrorPrefix + stream.failure.value]
    ensures stream.failure.None? ==> chunks == Chunks(Events(stream.steps), SignalToolName, SummaryBanner)
  {
    var collected := CollectEvents(stream);
    match collected
    case Failure(message) =>
      chunks := [CollectionErrorPrefix + message];
    case Success(allEvents) =>
      var isSummarizing;
      chunks, isSummarizing := ReplayEvents(allEvents);
  }

  method GetCarbonStreaming(base: Path, body: RequestBody, stream: AgentStream)
    returns (resp: Response, session: Option<SessionHandle>)
    ensures session.Some? <==> body.Parsed? && body.request.prompt != ""
    ensures session.None? ==> resp == Precheck(body).value && resp.Status() == 400
    ensures session.Some? ==>
      session.value == OpenSession(base, body.request.userId, body.request.sessionId)
    ensures session.Some? && stream.failure.Some? ==>
      resp == Streamed([CollectionErrorPrefix + stream.failure.value])
    ensures session.Some? && stream.failure.None? ==>
      resp == Streamed(Chunks(Events(stream.steps), SignalToolName, SummaryBanner))
  {
    var rejected := Precheck(body);
    if rejected.Some? {
      return rejected.value, None;
    }
    var request := body.request;
    session := Some(OpenSession(base, request.userId, request.sessionId));
    var chunks := GenerateStreamingResponse(stream);
    resp := Streamed(chunks);
  }

  // ------------------------------------------------------------ properties

  /** How a single event is replayed, by the shape of its `current_tool_use` and `data`. */
  lemma ReplayOneEvent(e: Event)
    ensures IsSignal(e, SignalToolName) ==>
      Chunks([e], SignalToolName, SummaryBanner) == [SummaryBanner] && SignalSeen([e], SignalToolName)
    ensures NamedToolUse(e).Some? && !IsSignal(e, SignalToolName) ==>
      Chunks([e], SignalToolName, SummaryBanner) == [ToolMarkerPrefix + NamedToolUse(e).value]
      && !SignalSeen([e], SignalToolName)
    ensures NamedToolUse(e).None? && e.data.Some? ==>
      Chunks([e], SignalToolName, SummaryBanner) == [e.data.value]
    ensures NamedToolUse(e).None? && e.data.None? ==> Chunks([e], SignalToolName, SummaryBanner) == []
    ensures e.currentToolUse.Some? && e.currentToolUse.value.name in {None, Some("")} ==>
      NamedToolUse(e).None?
  {
  }
}
