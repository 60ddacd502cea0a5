/** How the two streaming endpoints compare on the same agent run. */
module Variants {
  import opened Common
  import opened EventAdapter
  import Flask = FlaskService
  import FastApi = FastApiService

  /** On a run that completes and uses neither service's signal tool, the buffered
      replay and the incremental stream send the same chunks, in the same order. */
  lemma SameChunksWithoutSignal(stream: AgentStream)
    requires stream.failure.None?
    requires forall e | e in Events(stream.steps) ::
      NamedToolUse(e) != Some(Flask.SignalToolName) && NamedToolUse(e) != Some(FastApi.SignalToolName)
    ensures Chunks(Events(stream.steps), Flask.SignalToolName, Flask.SummaryBanner)
         == FastApi.StreamedChunks(stream)
  {
    var events := Events(stream.steps);
    forall i | 0 <= i < |events|
      ensures !IsSignal(events[i], Flask.SignalToolName) && !IsSignal(events[i], FastApi.SignalToolName)
    {
      assert events[i] in events;
    }
    ChunksIgnoreUnusedSignal(events, Flask.SignalToolName, Flask.SummaryBanner,
                             FastApi.SignalToolName, FastApi.SummaryMarker);
  }

  /** The two services use different signal names: a use of the incremental service's
      tool name is only an ordinary tool trace for the buffered one. */
  lemma SignalNamesDiffer(data: Option<string>)
    ensures var e := Event(Some(ToolUse(Some(FastApi.SignalToolName))), data);
      && Chunks([e], Flask.SignalToolName, Flask.SummaryBanner) == [ToolMarkerPrefix + "ready_to_summarize"]
      && Chunks([e], FastApi.SignalToolName, FastApi.SummaryMarker) == ["\n"]
  {
  }
}
