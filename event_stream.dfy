/**
 * The client side of the event-stream format (section 9.2, "Server-sent events", of the WHATWG
 * HTML Living Standard), as a reference reader for what the gateway writes: the stream is cut into
 * lines, `event:` sets the event type buffer, `data:` appends to the data buffer, a blank line
 * dispatches. Only LF line ends are recognised here.
 */
module EventStream {
  import opened Wrappers
  import opened Strings

  /** A dispatched event: its type ("message" unless an `event:` field named one) and its data. */
  datatype Event = Event(eventType: string, data: string)

  /** The complete lines of a stream; a trailing line without its LF is not yet a line. */
  function Lines(s: string): seq<string>
    decreases |s|
  {
    match IndexOf(s, '\n')
    case None => []
    case Some(i) => [s[..i]] + Lines(s[i + 1..])
  }

  lemma LinesCons(line: string, rest: string)
    requires '\n' !in line
    ensures Lines(line + "\n" + rest) == [line] + Lines(rest)
  {
    var s := line + "\n" + rest;
    IndexOfAfter(line, '\n', rest);
    assert s[..|line|] == line;
    assert s[|line| + 1..] == rest;
  }

  /** A field line split at its first colon, with one leading space dropped from the value. */
  function Field(line: string): (string, string)
  {
    match IndexOf(line, ':')
    case None => (line, "")
    case Some(i) =>
      var value := line[i + 1..];
      (line[..i], if |value| > 0 && value[0] == ' ' then value[1..] else value)
  }

  /** Dispatch on a blank line: nothing when the data buffer is empty. */
  function Dispatch(eventType: string, data: string): seq<Event>
  {
    if data == "" then []
    else
      var d := if data[|data| - 1] == '\n' then data[..|data| - 1] else data;
      [Event(if eventType == "" then "message" else eventType, d)]
  }

  /** The buffers after one line, and the events that line dispatches. */
  datatype Step = Step(eventType: string, data: string, dispatched: seq<Event>)

  /** Process one line against the event type and data buffers. */
  function ProcessLine(line: string, eventType: string, data: string): Step
  {
    if line == "" then Step("", "", Dispatch(eventType, data))
    else if line[0] == ':' then Step(eventType, data, [])
    else
      var field := Field(line);
      if field.0 == "event" then Step(field.1, data, [])
      else if field.0 == "data" then Step(eventType, data + field.1 + "\n", [])
      else Step(eventType, data, [])
  }

  /** Interpret lines with the current event type and data buffers. */
  function Interpret(lines: seq<string>, eventType: string, data: string): seq<Event>
    decreases |lines|
  {
    if |lines| == 0 then []
    else
      var step := ProcessLine(lines[0], eventType, data);
      step.dispatched + Interpret(lines[1..], step.eventType, step.data)
  }

  /** The events a client reads from a whole stream. */
  function Parse(s: string): seq<Event>
  {
    Interpret(Lines(s), "", "")
  }
}
