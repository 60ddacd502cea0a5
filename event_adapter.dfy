/** The per-event classification both streaming endpoints apply to the agent's
    event stream, and what it produces over a whole stream. Each endpoint supplies
    the name of its summary-signal tool and the chunk that marks the summary. */
module EventAdapter {
  import opened Common

  /** The `current_tool_use` entry of an event; `name` is None when it has no name. */
  datatype ToolUse = ToolUse(name: Option<string>)

  /** One streamed agent event as the adapter probes it: its `current_tool_use`
      and `data` keys, each of which may be absent. Any other keys are ignored. */
  datatype Event = Event(currentToolUse: Option<ToolUse>, data: Option<string>)

  /** What happens during an agent run, in order: the agent emits an event, or it
      executes the endpoint's summary-signal tool (which emits no event itself). */
  datatype Step = Emit(event: Event) | SignalToolRun

  /** A whole agent run: its steps, possibly ended by a failure with a message. */
  datatype AgentStream = AgentStream(steps: seq<Step>, failure: Option<string>)

  /** Prefix of the trace chunk for a tool use (U+1F527 is the wrench emoji). */
  const ToolMarkerPrefix: string := "\n\n\U{1F527} Using tool: "

  /** The tool name when `current_tool_use` is present with a non-empty (truthy) name. */
  function NamedToolUse(e: Event): (r: Option<string>) {
    match e.currentToolUse
    case Some(ToolUse(Some(name))) => if name != "" then Some(name) else None
    case _ => None
  }

  predicate IsSignal(e: Event, signalName: string) {
    NamedToolUse(e) == Some(signalName)
  }

  /** The chunks one event yields: a named tool use first, then `data`, else nothing. */
  function EventChunks(e: Event, signalName: string, summaryMarker: string): (r: seq<string>) {
    match NamedToolUse(e)
    case Some(name) => if name == signalName then [summaryMarker] else [ToolMarkerPrefix + name]
    case None => if e.data.Some? then [e.data.value] else []
  }

  /** The chunks a sequence of events yields, event after event. */
  function Chunks(events: seq<Event>, signalName: string, summaryMarker: string): (r: seq<string>) {
    if events == [] then []
    else
      Chunks(events[..|events| - 1], signalName, summaryMarker)
      + EventChunks(events[|events| - 1], signalName, summaryMarker)
  }

  /** The events of a run, in the order the agent emitted them. */
  function Events(steps: seq<Step>): (r: seq<Event>) {
    if steps == [] then []
    else
      Events(steps[..|steps| - 1])
      + (match steps[|steps| - 1] case Emit(e) => [e] case SignalToolRun => [])
  }

  /** Whether some event is a named tool use of the signal tool. */
  predicate SignalSeen(events: seq<Event>, signalName: string) {
    events != []
    && (SignalSeen(events[..|events| - 1], signalName) || IsSignal(events[|events| - 1], signalName))
  }

  /** Reference definition: the `data` fields of the events that carry one, in order. */
  function DataChunks(events: seq<Event>): (r: seq<string>) {
    if events == [] then []
    else (if events[0].data.Some? then [events[0].data.value] else []) + DataChunks(events[1..])
  }

  /** Reference definition: how many events carry a named tool use or `data`. */
  function Emitting(events: seq<Event>): (r: nat) {
    if events == [] then 0
    else (if NamedToolUse(events[0]).Some? || events[0].data.Some? then 1 else 0) + Emitting(events[1..])
  }

  lemma ChunksSingleton(e: Event, signalName: string, summaryMarker: string)
    ensures Chunks([e], signalName, summaryMarker) == EventChunks(e, signalName, summaryMarker)
  {
  }

  /** Event order is kept: the chunks of a concatenation are the concatenated chunks. */
  lemma {:induction false} ChunksAppend(a: seq<Event>, b: seq<Event>, signalName: string, summaryMarker: string)
    ensures Chunks(a + b, signalName, summaryMarker)
         == Chunks(a, signalName, summaryMarker) + Chunks(b, signalName, summaryMarker)
  {
    if b == [] {
      assert a + b == a;
    } else {
      var b' := b[..|b| - 1];
      assert (a + b)[..|a + b| - 1] == a + b';
      assert (a + b)[|a + b| - 1] == b[|b| - 1];
      ChunksAppend(a, b', signalName, summaryMarker);
    }
  }

  /** Each event yields at most one chunk: exactly the events with a named tool use or `data` do. */
  lemma {:induction false} ChunksCount(events: seq<Event>, signalName: string, summaryMarker: string)
    ensures |Chunks(events, signalName, summaryMarker)| == Emitting(events) <= |events|
  {
    if events != [] {
      ChunksCount(events[1..], signalName, summaryMarker);
      ChunksAppend([events[0]], events[1..], signalName, summaryMarker);
      ChunksSingleton(events[0], signalName, summaryMarker);
      assert [events[0]] + events[1..] == events;
    }
  }

  /** Without named tool uses, the output is exactly the `data` fields, in order. */
  lemma {:induction false} ChunksWithoutToolUse(events: seq<Event>, signalName: string, summaryMarker: string)
    requires forall i :: 0 <= i < |events| ==> NamedToolUse(events[i]).None?
    ensures Chunks(events, signalName, summaryMarker) == DataChunks(events)
  {
    if events != [] {
      ChunksWithoutToolUse(events[1..], signalName, summaryMarker);
      ChunksAppend([events[0]], events[1..], signalName, summaryMarker);
      ChunksSingleton(events[0], signalName, summaryMarker);
      assert [events[0]] + events[1..] == events;
    }
  }

  /** The signal name and its marker matter only for events that use that tool. */
  lemma {:induction false} ChunksIgnoreUnusedSignal(
    events: seq<Event>, name1: string, marker1: string, name2: string, marker2: string)
    requires forall i :: 0 <= i < |events| ==> !IsSignal(events[i], name1) && !IsSignal(events[i], name2)
    ensures Chunks(events, name1, marker1) == Chunks(events, name2, marker2)
  {
    if events != [] {
      ChunksIgnoreUnusedSignal(events[..|events| - 1], name1, marker1, name2, marker2);
    }
  }

  lemma {:induction false} EventsAppend(a: seq<Step>, b: seq<Step>)
    ensures Events(a + b) == Events(a) + Events(b)
  {
    if b == [] {
      assert a + b == a;
    } else {
      var b' := b[..|b| - 1];
      assert (a + b)[..|a + b| - 1] == a + b';
      assert (a + b)[|a + b| - 1] == b[|b| - 1];
      EventsAppend(a, b');
    }
  }

  lemma {:induction false} SignalSeenAppend(a: seq<Event>, b: seq<Event>, signalName: string)
    ensures SignalSeen(a + b, signalName) <==> SignalSeen(a, signalName) || SignalSeen(b, signalName)
  {
    if b == [] {
      assert a + b == a;
    } else {
      var b' := b[..|b| - 1];
      assert (a + b)[..|a + b| - 1] == a + b';
      assert (a + b)[|a + b| - 1] == b[|b| - 1];
      SignalSeenAppend(a, b', signalName);
    }
  }

  /** The recursive flag agrees with "some event is the signal tool use". */
  lemma {:induction false} SignalSeenExists(events: seq<Event>, signalName: string)
    ensures SignalSeen(events, signalName) <==> exists i :: 0 <= i < |events| && IsSignal(events[i], signalName)
  {
    if events != [] {
      var init := events[..|events| - 1];
      SignalSeenExists(init, signalName);
      if SignalSeen(init, signalName) {
        var i :| 0 <= i < |init| && IsSignal(init[i], signalName);
        assert events[i] == init[i];
      }
      if exists i :: 0 <= i < |events| && IsSignal(events[i], signalName) {
        var i :| 0 <= i < |events| && IsSignal(events[i], signalName);
        if i < |init| {
          assert init[i] == events[i];
        }
      }
    }
  }

  /** Once the summary flag is set it stays set for the rest of the stream. */
  lemma SignalSeenMonotone(events: seq<Event>, i: nat, j: nat, signalName: string)
    requires i <= j <= |events|
    ensures SignalSeen(events[..i], signalName) ==> SignalSeen(events[..j], signalName)
  {
    SignalSeenAppend(events[..i], events[i..j], signalName);
    assert events[..i] + events[i..j] == events[..j];
  }
}
