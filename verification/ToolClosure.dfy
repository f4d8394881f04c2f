/** The machine-event checker of crates/astra-test-harness/harbor_adapter.py,
    `validate_stream_event_jsonl`, against a per-tool definition of closure. */
module ToolClosure {

  datatype Option<T> = None | Some(value: T)

  /** What `json.loads` makes of a tool result's text. */
  datatype Payload = NotJson | Other | Object(status: Option<string>)

  datatype Output = NoText | Text(text: string, payload: Payload)

  /** A typed JSON event; `terminal` says its server_terminal field is exactly the
      recorded rejection. */
  datatype Event = Event(kind: string, toolId: Option<string>, status: Option<string>, output: Output, terminal: bool)

  datatype Line = Unterminated | InvalidJson | Untyped | Typed(event: Event)

  predicate ToolEvent(e: Event) { e.kind == "tool_started" || e.kind == "tool_completed" }

  /** `_is_unpaired_rejection_terminal`. */
  predicate Rejection(e: Event) {
    && e.status == Some("rejected")
    && e.output.Text? && e.output.text != ""
    && match e.output.payload
       case NotJson => e.terminal
       case Other => false
       case Object(status) => status == Some("rejected")
  }

  predicate WellFormed(line: Line) {
    line.Typed? && (ToolEvent(line.event) ==> line.event.toolId.Some? && line.event.toolId.value != "")
  }

  /** The events of one tool, in log order. */
  function EventsOf(lines: seq<Line>, id: string): seq<Event> {
    if lines == [] then []
    else
      var last := lines[|lines| - 1];
      var front := EventsOf(lines[..|lines| - 1], id);
      if last.Typed? && ToolEvent(last.event) && last.event.toolId == Some(id) then front + [last.event] else front
  }

  predicate Started(e: Event) { e.kind == "tool_started" }
  predicate Completed(e: Event) { e.kind == "tool_completed" }

  /** A tool is settled by a start and a completion, or by one completed rejection. */
  predicate Settled(es: seq<Event>) {
    || (|es| == 2 && Started(es[0]) && Completed(es[1]))
    || (|es| == 1 && Completed(es[0]) && Rejection(es[0]))
  }

  predicate Open(es: seq<Event>) { |es| == 1 && Started(es[0]) }

  ghost predicate Closed(lines: seq<Line>) {
    forall id: string :: EventsOf(lines, id) == [] || Settled(EventsOf(lines, id))
  }

  lemma {:induction false} EventsGrow(lines: seq<Line>, n: nat, id: string)
    requires n <= |lines|
    ensures EventsOf(lines[..n], id) <= EventsOf(lines, id)
    decreases |lines|
  {
    if n == |lines| {
      assert lines[..n] == lines;
    } else {
      var front := lines[..|lines| - 1];
      assert lines[..n] == front[..n];
      EventsGrow(front, n, id);
    }
  }

  /** A tool that is neither absent, open nor settled at some point never closes. */
  lemma StuckNeverCloses(lines: seq<Line>, n: nat, id: string)
    requires n <= |lines|
    requires var es := EventsOf(lines[..n], id); es != [] && !Open(es) && !Settled(es)
    ensures !Closed(lines)
  {
    EventsGrow(lines, n, id);
    var es, all := EventsOf(lines[..n], id), EventsOf(lines, id);
    assert es == all[..|es|];
    assert all != [] && !Settled(all);
  }

  /** The checker's two sets describe every tool's history so far. */
  ghost predicate Tracks(lines: seq<Line>, active: set<string>, completed: set<string>) {
    forall id: string ::
      && (id in active <==> Open(EventsOf(lines, id)))
      && (id in completed <==> Settled(EventsOf(lines, id)))
      && (id !in active && id !in completed ==> EventsOf(lines, id) == [])
  }

  /** One more line touches the history of its own tool only. */
  lemma OneMore(lines: seq<Line>, n: nat, id: string)
    requires n < |lines|
    ensures var e := lines[n];
      EventsOf(lines[..n + 1], id) == EventsOf(lines[..n], id)
        + (if e.Typed? && ToolEvent(e.event) && e.event.toolId == Some(id) then [e.event] else [])
  {
    assert lines[..n + 1][..n] == lines[..n];
  }

  /** The checker refuses this event of the tool. */
  predicate Refuses(event: Event, id: string, active: set<string>, completed: set<string>) {
    id in completed || (Started(event) && id in active) || (!Started(event) && id !in active && !Rejection(event))
  }

  /** A line that is no tool event changes no history. */
  lemma TracksOther(lines: seq<Line>, n: nat, active: set<string>, completed: set<string>)
    requires n < |lines| && Tracks(lines[..n], active, completed) && lines[n].Typed? && !ToolEvent(lines[n].event)
    ensures Tracks(lines[..n + 1], active, completed)
  {
    forall id: string ensures EventsOf(lines[..n + 1], id) == EventsOf(lines[..n], id) { OneMore(lines, n, id); }
  }

  /** An event that is not refused opens its tool or settles it. */
  lemma TracksTool(lines: seq<Line>, n: nat, active: set<string>, completed: set<string>, event: Event, id: string)
    requires n < |lines| && Tracks(lines[..n], active, completed)
    requires lines[n] == Typed(event) && ToolEvent(event) && event.toolId == Some(id) && !Refuses(event, id, active, completed)
    ensures Tracks(lines[..n + 1], if Started(event) then active + {id} else active - {id},
                   if Started(event) then completed else completed + {id})
  {
    OneMore(lines, n, id);
    forall other: string | other != id ensures EventsOf(lines[..n + 1], other) == EventsOf(lines[..n], other) {
      OneMore(lines, n, other);
    }
  }

  /** A refused event leaves its tool neither open nor settled, so the log never closes. */
  lemma RefusedNeverCloses(lines: seq<Line>, n: nat, active: set<string>, completed: set<string>, event: Event, id: string)
    requires n < |lines| && Tracks(lines[..n], active, completed)
    requires lines[n] == Typed(event) && ToolEvent(event) && event.toolId == Some(id) && Refuses(event, id, active, completed)
    ensures !Closed(lines)
  {
    OneMore(lines, n, id);
    StuckNeverCloses(lines, n + 1, id);
  }

  datatype Result = Accepted(count: nat) | Refused

  /** The one-pass checker accepts exactly the non-empty, well-formed logs in which every
      tool that appears is settled by its own events. */
  method ValidateStream(lines: seq<Line>) returns (r: Result)
    ensures r.Accepted? <==> lines != [] && (forall line <- lines :: WellFormed(line)) && Closed(lines)
    ensures r.Accepted? ==> r.count == |lines|
  {
    var active: set<string> := {};
    var completed: set<string> := {};
    var count := 0;
    for n := 0 to |lines|
      invariant count == n
      invariant forall k :: 0 <= k < n ==> WellFormed(lines[k])
      invariant Tracks(lines[..n], active, completed)
    {
      if !lines[n].Typed? {
        assert lines[n] in lines;
        return Refused;
      }
      var event := lines[n].event;
      if ToolEvent(event) {
        if event.toolId.None? || event.toolId.value == "" {
          assert lines[n] in lines;
          return Refused;
        }
        var id := event.toolId.value;
        if id in completed || (Started(event) && id in active) || (!Started(event) && id !in active && !Rejection(event)) {
          RefusedNeverCloses(lines, n, active, completed, event, id);
          return Refused;
        }
        TracksTool(lines, n, active, completed, event, id);
        if Started(event) {
          active := active + {id};
        } else {
          active := active - {id};
          completed := completed + {id};
        }
      } else {
        TracksOther(lines, n, active, completed);
      }
      count := count + 1;
    }
    assert lines[..|lines|] == lines;
    if count == 0 { return Refused; }
    if active != {} {
      ghost var id :| id in active;
      assert Open(EventsOf(lines, id));
      return Refused;
    }
    r := Accepted(count);
  }
}
