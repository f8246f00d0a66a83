/**
 * Server-sent-event framing and the outbound writer. Each write appends one frame: an unlabeled
 * `data:` event, a typed `event:`/`data:` event, or the `[DONE]` sentinel. A frame becomes wire text
 * only through `Render`, with the injected `JSON.stringify`.
 */
module Sse {
  import opened Wrappers
  import opened Strings
  import opened Json
  import opened Types
  import opened Runtime
  import opened EventStream

  /** What one call of a write helper hands to the writer. */
  datatype Frame = DataFrame(data: Json) | EventFrame(event: string, data: Json) | DoneFrame

  /** The exact bytes a frame puts on the wire. */
  function Render(f: Frame, ser: Serializer): string
  {
    match f
    case DataFrame(d) => "data: " + ser(d) + "\n\n"
    case EventFrame(e, d) => "event: " + e + "\ndata: " + ser(d) + "\n\n"
    case DoneFrame => "data: [DONE]\n\n"
  }

  /** The wire text of a whole log of frames. */
  function WireText(frames: seq<Frame>, ser: Serializer): string
  {
    if |frames| == 0 then "" else Render(frames[0], ser) + WireText(frames[1..], ser)
  }

  /** The event a conforming client dispatches for one frame. */
  function EventOf(f: Frame, ser: Serializer): Event
  {
    match f
    case DataFrame(d) => Event("message", ser(d))
    case EventFrame(e, d) => Event(if e == "" then "message" else e, ser(d))
    case DoneFrame => Event("message", "[DONE]")
  }

  /** A frame whose event name is a single line (payloads are single lines by the serialiser). */
  predicate NameSingleLine(f: Frame)
  {
    f.EventFrame? ==> SingleLine(f.event)
  }

  /** `JSON.stringify` output never holds a raw line break. */
  ghost predicate SingleLineSerializer(ser: Serializer)
  {
    forall j :: SingleLine(ser(j))
  }

  /** A `name: value` line splits back into its name and value. */
  lemma FieldOfLine(name: string, value: string)
    requires ':' !in name
    ensures Field(name + ": " + value) == (name, value)
  {
    var line := name + ": " + value;
    assert line == name + [':'] + (" " + value);
    IndexOfAfter(name, ':', " " + value);
    assert line[..|name|] == name;
    assert line[|name| + 1..] == " " + value;
  }

  lemma DataLine(value: string, eventType: string)
    ensures ProcessLine("data: " + value, eventType, "") == Step(eventType, value + "\n", [])
  {
    var line := "data: " + value;
    assert line[0] == 'd';
    assert line == "data" + ": " + value;
    FieldOfLine("data", value);
    assert "data" != "event";
    assert "" + value + "\n" == value + "\n";
  }

  lemma EventLine(name: string)
    ensures ProcessLine("event: " + name, "", "") == Step(name, "", [])
  {
    var line := "event: " + name;
    assert line[0] == 'e';
    assert line == "event" + ": " + name;
    FieldOfLine("event", name);
  }

  lemma BlankLine(eventType: string, value: string)
    ensures ProcessLine("", eventType, value + "\n") ==
      Step("", "", [Event(if eventType == "" then "message" else eventType, value)])
  {
    var data := value + "\n";
    assert data[..|data| - 1] == value;
  }

  /** Interpreting lines that start with a known line, by one step. */
  lemma InterpretCons(line: string, rest: seq<string>, eventType: string, data: string)
    ensures Interpret([line] + rest, eventType, data) ==
      ProcessLine(line, eventType, data).dispatched +
      Interpret(rest, ProcessLine(line, eventType, data).eventType, ProcessLine(line, eventType, data).data)
  {
    assert ([line] + rest)[1..] == rest;
  }

  lemma DataLineSingle(data: string)
    requires SingleLine(data)
    ensures '\n' !in "data: " + data
  {
    var dataLine := "data: " + data;
    assert forall i | 0 <= i < |dataLine| :: dataLine[i] == if i < 6 then "data: "[i] else data[i - 6];
  }

  lemma LinesBlank(rest: string)
    ensures Lines("\n" + rest) == [""] + Lines(rest)
  {
    LinesCons("", rest);
    assert "" + "\n" + rest == "\n" + rest;
  }

  lemma LinesOfDataBlock(data: string, rest: string)
    requires SingleLine(data)
    ensures Lines("data: " + data + "\n\n" + rest) == ["data: " + data] + ([""] + Lines(rest))
  {
    var dataLine := "data: " + data;
    DataLineSingle(data);
    assert "\n\n" == "\n" + "\n";
    assert dataLine + "\n\n" + rest == dataLine + "\n" + ("\n" + rest);
    LinesCons(dataLine, "\n" + rest);
    LinesBlank(rest);
  }

  lemma InterpretDataBlock(data: string, eventType: string, tail: seq<string>)
    ensures Interpret(["data: " + data] + ([""] + tail), eventType, "") ==
      [Event(if eventType == "" then "message" else eventType, data)] + Interpret(tail, "", "")
  {
    DataLine(data, eventType);
    InterpretCons("data: " + data, [""] + tail, eventType, "");
    BlankLine(eventType, data);
    InterpretCons("", tail, eventType, data + "\n");
  }

  /** A `data:` line and a blank line dispatch one event with that data. */
  lemma ParseDataBlock(data: string, eventType: string, rest: string)
    requires SingleLine(data)
    ensures Interpret(Lines("data: " + data + "\n\n" + rest), eventType, "") ==
      [Event(if eventType == "" then "message" else eventType, data)] + Interpret(Lines(rest), "", "")
  {
    LinesOfDataBlock(data, rest);
    InterpretDataBlock(data, eventType, Lines(rest));
  }

  /** A client reading one rendered frame (followed by anything) dispatches exactly that frame's event. */
  lemma ParseFrame(f: Frame, ser: Serializer, rest: string)
    requires SingleLineSerializer(ser) && NameSingleLine(f)
    ensures Interpret(Lines(Render(f, ser) + rest), "", "") == [EventOf(f, ser)] + Interpret(Lines(rest), "", "")
  {
    match f
    case DoneFrame =>
      assert Render(f, ser) + rest == "data: " + "[DONE]" + "\n\n" + rest;
      ParseDataBlock("[DONE]", "", rest);
    case DataFrame(d) =>
      assert SingleLine(ser(d));
      assert Render(f, ser) + rest == "data: " + ser(d) + "\n\n" + rest;
      ParseDataBlock(ser(d), "", rest);
    case EventFrame(e, d) =>
      assert SingleLine(ser(d));
      var eventLine := "event: " + e;
      var block := "data: " + ser(d) + "\n\n" + rest;
      assert Render(f, ser) + rest == eventLine + "\n" + block;
      LinesCons(eventLine, block);
      EventLine(e);
      InterpretCons(eventLine, Lines(block), "", "");
      ParseDataBlock(ser(d), e, rest);
  }

  /**
   * The wire text of any log of frames reads back, under the event-stream format, as exactly one
   * event per frame, in order: the framing loses nothing and adds nothing.
   */
  lemma {:induction false} ParseWireText(frames: seq<Frame>, ser: Serializer)
    requires SingleLineSerializer(ser)
    requires forall i :: 0 <= i < |frames| ==> NameSingleLine(frames[i])
    ensures Parse(WireText(frames, ser)) == Events(frames, ser)
  {
    if |frames| > 0 {
      ParseFrame(frames[0], ser, WireText(frames[1..], ser));
      ParseWireText(frames[1..], ser);
    } else {
      assert Lines("") == [];
    }
  }

  /** The events of a log of frames, one per frame and in order. */
  function Events(frames: seq<Frame>, ser: Serializer): (r: seq<Event>)
    ensures |r| == |frames|
    ensures forall i :: 0 <= i < |frames| ==> r[i] == EventOf(frames[i], ser)
  {
    if |frames| == 0 then [] else [EventOf(frames[0], ser)] + Events(frames[1..], ser)
  }

  // ----- the writer -----

  datatype Status = Open | Closed | Aborted

  /** Whether `n` more frames still reach a client that accepts at most `capacity` of them. */
  predicate Fits(log: seq<Frame>, n: nat, capacity: Option<nat>)
  {
    capacity.None? || |log| + n <= capacity.value
  }

  predicate Within(log: seq<Frame>, capacity: Option<nat>)
  {
    Fits(log, 0, capacity)
  }

  /** The log after writing `fs` in order, stopping at the first write the client refuses. */
  function Deliver(log: seq<Frame>, fs: seq<Frame>, capacity: Option<nat>): (r: seq<Frame>)
    requires Within(log, capacity)
    ensures Within(r, capacity)
  {
    if Fits(log, |fs|, capacity) then log + fs else log + fs[..capacity.value - |log|]
  }

  /** Writing `a` then `b` delivers what writing `a + b` delivers; a refusal in `a` stops `b`. */
  lemma DeliverAppend(log: seq<Frame>, a: seq<Frame>, b: seq<Frame>, capacity: Option<nat>)
    requires Within(log, capacity)
    ensures Fits(log, |a|, capacity) ==>
      Deliver(log, a + b, capacity) == Deliver(log + a, b, capacity) &&
      Fits(log, |a + b|, capacity) == Fits(log + a, |b|, capacity)
    ensures !Fits(log, |a|, capacity) ==>
      Deliver(log, a + b, capacity) == Deliver(log, a, capacity) && !Fits(log, |a + b|, capacity)
  {
    if !Fits(log, |a|, capacity) {
      assert (a + b)[..capacity.value - |log|] == a[..capacity.value - |log|];
    } else if !Fits(log, |a + b|, capacity) {
      assert (a + b)[..capacity.value - |log|] == a + b[..capacity.value - |log + a|];
    }
  }

  /** Writing the first frame of `fs`, then the rest, delivers what writing all of `fs` delivers. */
  lemma DeliverCons(log: seq<Frame>, fs: seq<Frame>, capacity: Option<nat>)
    requires Within(log, capacity) && |fs| > 0
    ensures Fits(log, 1, capacity) ==>
      Within(log + [fs[0]], capacity) &&
      Deliver(log, fs, capacity) == Deliver(log + [fs[0]], fs[1..], capacity) &&
      Fits(log, |fs|, capacity) == Fits(log + [fs[0]], |fs| - 1, capacity)
    ensures !Fits(log, 1, capacity) ==> Deliver(log, fs, capacity) == log && !Fits(log, |fs|, capacity)
  {
    assert fs == [fs[0]] + fs[1..];
    DeliverAppend(log, [fs[0]], fs[1..], capacity);
    if !Fits(log, 1, capacity) {
      assert [fs[0]][..capacity.value - |log|] == [];
    }
  }

  /**
   * The writable side of the response stream. `capacity` is the number of frames the downstream
   * client accepts before it goes away (None: it stays to the end); a write past it fails.
   */
  class Writer {
    var frames: seq<Frame>
    var status: Status
    const capacity: Option<nat>

    ghost predicate Valid()
      reads this
    {
      Within(frames, capacity)
    }

    constructor (capacity: Option<nat>)
      ensures Valid() && frames == [] && status == Open && this.capacity == capacity
    {
      frames := [];
      status := Open;
      this.capacity := capacity;
    }

    /** `writer.write`: succeeds on an open stream whose client is still reading. */
    method Write(f: Frame) returns (ok: bool)
      requires Valid()
      modifies this
      ensures Valid() && status == old(status)
      ensures ok == (old(status) == Open && Fits(old(frames), 1, capacity))
      ensures frames == if ok then old(frames) + [f] else old(frames)
    {
      ok := status == Open && Fits(frames, 1, capacity);
      if ok {
        frames := frames + [f];
      }
    }

    /** `writer.close`: ends an open stream normally. */
    method Close() returns (ok: bool)
      modifies this
      ensures ok == (old(status) == Open)
      ensures status == if ok then Closed else old(status)
      ensures frames == old(frames)
    {
      ok := status == Open;
      if ok {
        status := Closed;
      }
    }

    /** `writer.abort`: ends an open stream abnormally. */
    method Abort()
      modifies this
      ensures status == if old(status) == Open then Aborted else old(status)
      ensures frames == old(frames)
    {
      if status == Open {
        status := Aborted;
      }
    }
  }

  /** `writeSSEEvent`: one unlabeled data event. */
  method WriteSSEEvent(w: Writer, data: Json) returns (ok: bool)
    requires w.Valid()
    modifies w
    ensures w.Valid() && w.status == old(w.status)
    ensures ok == (old(w.status) == Open && Fits(old(w.frames), 1, w.capacity))
    ensures w.frames == if ok then old(w.frames) + [DataFrame(data)] else old(w.frames)
    ensures ok ==> forall ser: Serializer ::
      WireText(w.frames, ser) == WireText(old(w.frames), ser) + "data: " + ser(data) + "\n\n"
  {
    ok := w.Write(DataFrame(data));
    forall ser: Serializer | ok
      ensures WireText(w.frames, ser) == WireText(old(w.frames), ser) + "data: " + ser(data) + "\n\n"
    {
      WrittenWireText(old(w.frames), ser, data, "");
    }
  }

  /** `writeSSEEventWithType`: one event with a type line. */
  method WriteSSEEventWithType(w: Writer, eventType: string, data: Json) returns (ok: bool)
    requires w.Valid()
    modifies w
    ensures w.Valid() && w.status == old(w.status)
    ensures ok == (old(w.status) == Open && Fits(old(w.frames), 1, w.capacity))
    ensures w.frames == if ok then old(w.frames) + [EventFrame(eventType, data)] else old(w.frames)
    ensures ok ==> forall ser: Serializer ::
      WireText(w.frames, ser) == WireText(old(w.frames), ser) + "event: " + eventType + "\ndata: " + ser(data) + "\n\n"
  {
    ok := w.Write(EventFrame(eventType, data));
    forall ser: Serializer | ok
      ensures WireText(w.frames, ser) == WireText(old(w.frames), ser) + "event: " + eventType + "\ndata: " + ser(data) + "\n\n"
    {
      WrittenWireText(old(w.frames), ser, data, eventType);
    }
  }

  /** `writeSSEDone`: the `[DONE]` sentinel. */
  method WriteSSEDone(w: Writer) returns (ok: bool)
    requires w.Valid()
    modifies w
    ensures w.Valid() && w.status == old(w.status)
    ensures ok == (old(w.status) == Open && Fits(old(w.frames), 1, w.capacity))
    ensures w.frames == if ok then old(w.frames) + [DoneFrame] else old(w.frames)
    ensures ok ==> forall ser: Serializer ::
      WireText(w.frames, ser) == WireText(old(w.frames), ser) + "data: [DONE]\n\n"
  {
    ok := w.Write(DoneFrame);
    forall ser: Serializer | ok
      ensures WireText(w.frames, ser) == WireText(old(w.frames), ser) + "data: [DONE]\n\n"
    {
      WrittenWireText(old(w.frames), ser, JNull, "");
    }
  }

  /** How a frame announces itself: its `event:` name, "" for an unlabeled data event, or the sentinel. */
  function Label(f: Frame): string
  {
    match f
    case EventFrame(e, _) => e
    case DataFrame(_) => ""
    case DoneFrame => "[DONE]"
  }

  function Labels(frames: seq<Frame>): seq<string>
  {
    seq(|frames|, i requires 0 <= i < |frames| => Label(frames[i]))
  }

  /** Appending frames appends their wire text. */
  lemma {:induction false} WireTextAppend(a: seq<Frame>, b: seq<Frame>, ser: Serializer)
    ensures WireText(a + b, ser) == WireText(a, ser) + WireText(b, ser)
  {
    if |a| > 0 {
      var head := Render(a[0], ser);
      assert (a + b)[0] == a[0];
      assert (a + b)[1..] == a[1..] + b;
      assert WireText(a + b, ser) == head + WireText(a[1..] + b, ser);
      WireTextAppend(a[1..], b, ser);
      assert WireText(a, ser) == head + WireText(a[1..], ser);
      ConcatAssoc(head, WireText(a[1..], ser), WireText(b, ser));
    } else {
      assert a + b == b;
    }
  }

  /**
   * What each write helper adds to the wire: after a log, an unlabeled event adds `data: <json>` and a
   * blank line, a typed event adds its `event:` line first, and the sentinel adds `data: [DONE]`.
   */
  lemma WrittenWireText(log: seq<Frame>, ser: Serializer, data: Json, eventType: string)
    ensures WireText(log + [DataFrame(data)], ser) == WireText(log, ser) + "data: " + ser(data) + "\n\n"
    ensures WireText(log + [EventFrame(eventType, data)], ser) ==
      WireText(log, ser) + "event: " + eventType + "\ndata: " + ser(data) + "\n\n"
    ensures WireText(log + [DoneFrame], ser) == WireText(log, ser) + "data: [DONE]\n\n"
  {
    var w := WireText(log, ser);
    WireTextSnoc(log, DataFrame(data), ser);
    ConcatAssoc(w, "data: " + ser(data), "\n\n");
    ConcatAssoc(w, "data: ", ser(data));
    WireTextSnoc(log, EventFrame(eventType, data), ser);
    ConcatAssoc(w, "event: " + eventType + "\ndata: " + ser(data), "\n\n");
    ConcatAssoc(w, "event: " + eventType + "\ndata: ", ser(data));
    ConcatAssoc(w, "event: " + eventType, "\ndata: ");
    ConcatAssoc(w, "event: ", eventType);
    WireTextSnoc(log, DoneFrame, ser);
  }

  /** Writing one more frame appends its rendering. */
  lemma WireTextSnoc(log: seq<Frame>, f: Frame, ser: Serializer)
    ensures WireText(log + [f], ser) == WireText(log, ser) + Render(f, ser)
  {
    assert [f][1..] == [];
    WireTextAppend(log, [f], ser);
  }

  // ----- the OpenAI chunk object -----

  /** The `delta` of a chunk: optional role and optional content. */
  datatype Delta = Delta(role: Option<string>, content: Option<string>)

  const EmptyDelta := Delta(None, None)

  function DeltaJson(d: Delta): Json
  {
    JObj((if d.role.Some? then [("role", JStr(d.role.value))] else []) +
         (if d.content.Some? then [("content", JStr(d.content.value))] else []))
  }

  /** A `chat.completion.chunk` object with its single choice. */
  function ChunkJson(id: string, created: int, model: string, delta: Delta, finishReason: Option<string>): Json
  {
    JObj([("id", JStr(id)), ("object", JStr("chat.completion.chunk")), ("created", JNum(created)),
          ("model", JStr(model)),
          ("choices", JArr([ChoiceJson(delta, finishReason)]))])
  }

  /** The single choice of a chunk: index 0, the delta and the finish reason (null when there is none). */
  function ChoiceJson(delta: Delta, finishReason: Option<string>): Json
  {
    JObj([("index", JNum(0)), ("delta", DeltaJson(delta)), ("finish_reason", OptStr(finishReason))])
  }

  /**
   * Read back through member lookups, a chunk carries its id, the object tag, and exactly one choice
   * at index 0 with the given delta and finish reason (null when there is none).
   */
  lemma ChunkShape(id: string, created: int, model: string, delta: Delta, finishReason: Option<string>)
    ensures var c := ChunkJson(id, created, model, delta, finishReason);
      At(c, ["id"]) == Some(JStr(id)) &&
      At(c, ["object"]) == Some(JStr("chat.completion.chunk")) &&
      At(c, ["model"]) == Some(JStr(model)) &&
      At(c, ["choices"]).Some? && At(c, ["choices"]).value.JArr? &&
      |At(c, ["choices"]).value.items| == 1 &&
      At(At(c, ["choices"]).value.items[0], ["index"]) == Some(JNum(0)) &&
      At(At(c, ["choices"]).value.items[0], ["delta"]) == Some(DeltaJson(delta)) &&
      At(At(c, ["choices"]).value.items[0], ["finish_reason"]) == Some(OptStr(finishReason))
  {
    var c := ChunkJson(id, created, model, delta, finishReason);
    MemberAt(c.members, "object", 1);
    MemberAt(c.members, "model", 3);
    MemberAt(c.members, "choices", 4);
    var choice := c.members[4].1.items[0];
    MemberAt(choice.members, "delta", 1);
    MemberAt(choice.members, "finish_reason", 2);
  }

  /**
   * `createOpenAISSEChunk`: the supplied id when it is truthy, otherwise a fresh `chatcmpl-` id; the
   * creation time in seconds from the clock.
   */
  method CreateOpenAISSEChunk(p: Platform, model: string, delta: Delta, finishReason: Option<string>, id: Option<string>)
    returns (chunk: Json)
    modifies p
    ensures chunk == ChunkJson(if Truthy(id) then id.value else "chatcmpl-" + p.uuid(old(p.uuidsDrawn)),
                               p.nowMs(old(p.clockReads)) / 1000, model, delta, finishReason)
    ensures p.uuidsDrawn == old(p.uuidsDrawn) + (if Truthy(id) then 0 else 1)
    ensures p.clockReads == old(p.clockReads) + 1
  {
    var chunkId: string;
    if Truthy(id) {
      chunkId := id.value;
    } else {
      var u := p.RandomUUID();
      chunkId := "chatcmpl-" + u;
    }
    var created := p.NowSeconds();
    chunk := ChunkJson(chunkId, created, model, delta, finishReason);
  }
}
