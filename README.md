# Carbon-footprint agent services: event-to-chunk adapter

The repository runs two HTTP services that forward a prompt to a hosted LLM
agent specialised in carbon-footprint analysis. `main.py` is the WSGI (Flask)
variant and `app.py` the ASGI (FastAPI) variant. Each has a blocking endpoint
(`POST /carbon`) and a streaming one (`POST /carbon-streaming`). This project
models the logic the repository itself contains:

- **Event classification** (`EventAdapter`). Both streaming endpoints classify
  each agent event in the same fixed order. A `current_tool_use` with a
  non-empty name yields either the service's summary marker (for the
  summary-signal tool) or `"\n\n🔧 Using tool: <name>"`. Otherwise a `data`
  field is passed on unchanged. Otherwise the event yields nothing. An agent
  run is an `AgentStream`: the ordered steps of the run, possibly ended by a
  failure with a message. A step is an emitted event or an execution of the
  summary-signal tool.
- **Buffered streaming** (`FlaskService`, main.py). All events are collected
  first (`CollectEvents`) and then replayed (`ReplayEvents`). The summary
  banner is `"\n\n--- Agent is generating summary ---\n\n"`. If collection
  fails, the body is a single `"\n\nError during streaming agent processing: "`
  chunk and nothing is replayed.
- **Incremental streaming** (`FastApiService`, app.py). A `StreamState`
  object holds the `is_summarizing` flag and the chunks sent so far. The
  event loop and the `ready_to_summarize` tool both update the flag. The
  summary marker is a bare `"\n"`. A failure part-way through appends one
  `"Error: <message>"` chunk after the chunks already sent.
- **Blocking endpoints.** main.py concatenates the `text` fields of the
  result's content blocks in order, and falls back to `str(result)` when there
  is no non-empty content list. app.py returns `str(result)`. Both reject an
  empty prompt before any agent is created. An agent failure gives status 500.
- **Session directory** (`SessionPaths`). `<base>/sessions/<user_id>` is
  joined the way POSIX `pathlib` joins paths. The session id is passed on
  unchanged and does not affect the directory.

Only the empty string counts as a missing prompt (`not prompt`); a blank or
whitespace-only prompt is accepted. app.py's streaming endpoint answers an
empty prompt with 500 (see "## Findings").

The path model also shows a consequence of `pathlib` joining
(`SessionPaths.AbsoluteUserIdEscapes`). A user id beginning with `/` replaces
the base directory, so that user's sessions are stored outside
`<base>/sessions`. A user id of `""` or `.` maps to the `sessions` directory
itself.

## Model

| member | source | states |
|---|---|---|
| `EventAdapter.ChunksSingleton` | app.py:215-229 | A one-event stream yields exactly that event's classification: a named tool use first (marker or trace), else `data` unchanged, else nothing |
| `EventAdapter.ChunksAppend` | main.py:284-297 | Event order is kept: the chunks of `a + b` are the chunks of `a` followed by those of `b` |
| `EventAdapter.ChunksCount` | main.py:284-297 | Exactly the events with a named tool use or a `data` field yield a chunk, one each, so there are at most as many chunks as events |
| `EventAdapter.ChunksWithoutToolUse` | app.py:224-229 | Without named tool uses, the output equals an independent definition: the `data` fields in order |
| `EventAdapter.ChunksIgnoreUnusedSignal` | app.py:216-222 | The signal name and its marker affect only events that use that tool |
| `EventAdapter.EventsAppend` | main.py:272-274 | Collecting the events of a run keeps their order: the events of `a + b` are those of `a`, then those of `b` |
| `EventAdapter.SignalSeenAppend` | main.py:283-289 | The summary flag after `a + b` is set iff it was set by `a` or by `b` |
| `EventAdapter.SignalSeenExists` | main.py:283-289 | The flag is set iff some event is a named tool use of the signal tool (both directions) |
| `EventAdapter.SignalSeenMonotone` | main.py:283-289 | Once `is_summarizing` is true after a prefix of the events, it stays true after every longer prefix |
| `FlaskService.ExtractResponseText` | main.py:225-234 | The loop produces the in-order concatenation of the block `text` fields when `content` is a non-empty list, otherwise `str(result)` |
| `FlaskService.BlockTextAppend` | main.py:227-229 | Concatenation is order-preserving across any split of the content list |
| `FlaskService.BlockTextSkipsUntexted` | main.py:228-229 | A block without `text` contributes nothing wherever it stands |
| `FlaskService.BlockTextAllUntexted` | main.py:225-229 | Blocks none of which has `text` concatenate to `""` |
| `FlaskService.UntextedContentGivesEmptyBody` | main.py:225-234 | A non-empty `content` list without any `text` gives the empty body, not the `str(result)` fallback |
| `FlaskService.GetCarbon` | main.py:197-240 | Malformed body or failed validation gives 400; an empty prompt gives 400 "No prompt provided in the request." and no agent or session store is created; otherwise the session store is `<base>/sessions/<user_id>` with the session id, an agent failure gives 500 "An error occurred: <msg>", and success gives 200 with the extracted text |
| `FlaskService.CollectEvents` | main.py:271-281 | A completed run gives every emitted event in order; a failure anywhere discards the partial list and gives only the message |
| `FlaskService.ReplayEvents` | main.py:283-297 | The replay loop yields the classification of the events in order, with the banner for `ready_to_summarize_signal_tool`; it ends with `is_summarizing` equal to `SignalSeen` of the events, which `SignalSeenExists` shows is true iff some event used that tool |
| `FlaskService.GenerateStreamingResponse` | main.py:260-297 | A failed collection gives exactly one chunk, `"\n\nError during streaming agent processing: " + msg`, and replays nothing; a completed one gives the replayed chunks |
| `FlaskService.GetCarbonStreaming` | main.py:242-299 | Same 400 checks as `/carbon`, before any agent is created; otherwise a streamed body as above, built with the user's session store |
| `FlaskService.ReplayOneEvent` | main.py:284-297 | The signal tool use gives the banner and sets the flag; any other named tool gives `"\n\n🔧 Using tool: " + name` even when `data` is present; a tool use with a missing or empty name falls through to `data`; an event with neither gives nothing |
| `SessionPaths.OpenSession` | main.py:112-123 | The store is opened with the session id unchanged; for a single-component user id its directory is `<base>/sessions/<user_id>`, whatever the session id; an empty user id gives `<base>/sessions` |
| `SessionPaths.JoinPlainName` | main.py:117 | Joining a single-component name appends exactly that component |
| `SessionPaths.SessionDirectoriesDistinct` | main.py:40 | Distinct single-component user ids never share a session directory |
| `SessionPaths.AbsoluteUserIdEscapes` | app.py:31-37 | A user id `"/" + rest` gives the directory `/rest`, independent of the base directory |
| `FastApiService.StreamState.constructor` | app.py:193 | A request starts with the flag false and nothing sent |
| `FastApiService.StreamState.ReadyToSummarize` | app.py:195-202 | The tool sets the flag whatever its previous value (so a second call leaves it true), sends nothing, and returns "Ok - continue providing the summary!" |
| `FastApiService.StreamState.OnEvent` | app.py:215-229 | One loop turn appends exactly that event's classification (a bare `"\n"` for `ready_to_summarize`), whatever the flag is; the flag becomes true on the signal tool use and is never cleared |
| `FastApiService.StreamState.OnFailure` | app.py:231-232 | The exception handler appends exactly one `"Error: " + msg` chunk and leaves the flag alone |
| `FastApiService.RunCarbonAgentAndStreamResponse` | app.py:188-232 | The generator sends the chunks of all events of the run in order, then `"Error: " + msg` if the run failed; the final flag is what `Summarizing` defines |
| `FastApiService.StreamedPrefix` | app.py:215-232 | Chunks already sent are never taken back: the output for the first k steps is a prefix of the output for the whole run, whether or not the run fails later |
| `FastApiService.FailureEndsStream` | app.py:231-232 | A failing run's last chunk is the error chunk; everything before it is the chunks of the events, at most one per event |
| `FastApiService.DataOnlyRun` | app.py:224-229 | A completed run with no named tool use streams exactly its `data` fields in order; the flag gates nothing |
| `FastApiService.SummarizingIff` | app.py:193-220 | The flag is set iff the run contained a `ready_to_summarize` tool-use event or an execution of the tool (both directions) |
| `FastApiService.SummarizingMonotone` | app.py:195-220 | Once set, the flag stays set for the rest of the run |
| `FastApiService.ExampleRun` | app.py:215-229 | The run [tool `http_request`, data "Hello ", tool `ready_to_summarize`, data "World"] streams the trace marker, "Hello ", "\n", "World" |
| `FastApiService.GetCarbon` | app.py:164-185 | An empty prompt gives 400 "No prompt provided" before any agent is created; an agent failure gives 500 with body "Error: <msg>"; success gives 200 with `str(result)`; the session store is opened with the request's user and session id |
| `FastApiService.StreamingSetupAsWritten` | app.py:238-249 | As written, an empty prompt is answered with status 500 (and only an empty prompt is refused) |
| `FastApiService.StreamingSetup` | app.py:241-242 | The intended check: an empty prompt is answered with 400 "No prompt provided", and any other prompt passes |
| `FastApiService.EmptyStreamingPromptAnswers500` | app.py:238-249 | For prompt `""` the endpoint as written answers 500 with detail "400: No prompt provided", where 400 "No prompt provided" was intended |
| `FastApiService.GetCarbonStreaming` | app.py:235-249 | As written: an empty prompt gives 500 with detail "400: No prompt provided" and no agent is created; any other prompt gives a streamed body equal to `StreamedChunks` of the run, built with the user's session store |
| `Variants.SameChunksWithoutSignal` | main.py:284-297 | On a completed run that uses neither signal tool, the buffered replay and the incremental stream send identical chunks |
| `Variants.SignalNamesDiffer` | app.py:218-220 | A `ready_to_summarize` tool use gives `"\n"` in the incremental service but only a tool trace in the buffered one, whose signal tool has another name |

## Left out

- HTTP routing, CORS, serving `index.html`, and `/health` are framework plumbing.
- The agent, the model client, the HTTP tool, the conversation window and the file session store are library code. A run is modelled only as its ordered steps and an optional failure message. A blocking call is modelled as a result or an error message.
- The thread pool and event loop, and the laziness of the generators, are not modelled. Streamed bodies are modelled as the finished sequence of chunks. `StreamedPrefix` states the incremental-delivery property instead.
- Flask and pydantic produce the request-body parse and validation errors. They are modelled as `RequestBody.Malformed` and `RequestBody.ValidationFailed`, with the validator's error list as an opaque string. FastAPI's own body validation, which returns 422, is not modelled: its endpoints take an already-parsed request.
- Environment loading, the API-key and port checks, directory creation (`mkdir`), logging, the system prompt and the model parameters are configuration and side effects.
- In main.py, `create_carbon_agent` runs inside the generator but outside its `try` (main.py:265-269). A failure there ends the response without an error chunk. This is not modelled, because agent construction is library code.
- `str(result)` for an agent result is given as `AgentResult.rendering`. Exception messages are given as strings.
- Event fields are modelled as strings. A non-string `data` value, or a non-string but truthy tool name, is not modelled.
- The string the main.py signal tool returns to the agent (main.py:149) is never seen by the adapter, so it is not modelled.
- Windows paths, and the POSIX special case of a path starting with exactly two slashes, are not modelled. `SessionPaths.OpenSession` states the layout only for single-component, empty or absolute user ids.

## Findings

| source | as written | input that shows it | evidently intended | confidence | as-written member | corrected member |
|---|---|---|---|---|---|---|
| app.py:238-249 | The empty-prompt `HTTPException(400)` is raised inside a `try` whose `except Exception` re-raises every exception as a 500 with detail `str(e)`, i.e. "400: No prompt provided" | POST /carbon-streaming with `prompt = ""` | status 400 with detail "No prompt provided", as `/carbon` answers at app.py:169-170 | not executed; the 500 status depends only on the framework's `HTTPException` being an `Exception` subclass; the detail text also assumes its `str()` is "<status>: <detail>" | `FastApiService.StreamingSetupAsWritten` | `FastApiService.StreamingSetup` |
