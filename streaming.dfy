/**
 * `executeStreamingPipeline`: reads the upstream body chunk by chunk, decodes each chunk to text,
 * hands every non-empty fragment to the adapter's `onChunk`, then the concatenation to `onEnd`, and
 * closes the writer, or aborts it as soon as a read or a callback fails.
 */
module Streaming {
  import opened Wrappers
  import opened Strings
  import opened Types
  import opened Runtime
  import opened Sse
  import ChatHandler
  import ResponsesHandler
  import MessagesHandler

  type Bytes = seq<bv8>

  /**
   * The stateful UTF-8 decoder, given only its state and its `decode(bytes, isFinal)` signature:
   * `decode(s, bytes, isFinal)` is the new state and the text produced.
   */
  datatype Decoder<!D> = Decoder(init: D, decode: (D, Bytes, bool) -> (D, string))

  /** The upstream response: no body at all, or the chunks its reader yields, possibly ending in a read failure. */
  datatype Upstream = NoBody | Body(chunks: seq<Bytes>, readError: bool)

  /** The callbacks of one protocol, with what each adapter closes over. */
  datatype Adapter =
    | ChatAdapter(model: string)
    | ResponsesAdapter(model: string, responseId: string, messageId: string, messages: seq<Message>)
    | AnthropicAdapter(model: string, messageId: string, messages: seq<Message>)

  /** Only the chat adapter has no `onStart`. */
  predicate HasOnStart(a: Adapter)
  {
    !a.ChatAdapter?
  }

  // ----- the decoder walk -----

  /** The decoder state after the given chunks, each decoded with `isFinal = false`. */
  function StateAfter<D>(dec: Decoder<D>, chunks: seq<Bytes>): D
  {
    if |chunks| == 0 then dec.init
    else dec.decode(StateAfter(dec, chunks[..|chunks| - 1]), chunks[|chunks| - 1], false).0
  }

  /** The text decoded from the last chunk. */
  function LastDecoded<D>(dec: Decoder<D>, chunks: seq<Bytes>): string
    requires |chunks| > 0
  {
    dec.decode(StateAfter(dec, chunks[..|chunks| - 1]), chunks[|chunks| - 1], false).1
  }

  /** A fragment is pushed only when it is truthy, that is non-empty. */
  function NonEmpty(s: string): seq<string>
  {
    if s != "" then [s] else []
  }

  /** The fragments pushed to `contentChunks`, in arrival order. */
  function Pushed<D>(dec: Decoder<D>, chunks: seq<Bytes>): seq<string>
  {
    if |chunks| == 0 then [] else Pushed(dec, chunks[..|chunks| - 1]) + NonEmpty(LastDecoded(dec, chunks))
  }

  // ----- the callback trace -----

  /** One call the pipeline makes into the decoder or an adapter callback. */
  datatype Call = StartCall | DecodeCall(chunk: Bytes, isFinal: bool) | ChunkCall(fragment: string) | EndCall(text: string)

  function ChunkCalls(fragments: seq<string>): seq<Call>
  {
    seq(|fragments|, i requires 0 <= i < |fragments| => ChunkCall(fragments[i]))
  }

  /** The calls of the read loop: per chunk, one decode, then `onChunk` when the text is non-empty. */
  function LoopCalls<D>(dec: Decoder<D>, chunks: seq<Bytes>): seq<Call>
  {
    if |chunks| == 0 then []
    else LoopCalls(dec, chunks[..|chunks| - 1]) + [DecodeCall(chunks[|chunks| - 1], false)] + ChunkCalls(NonEmpty(LastDecoded(dec, chunks)))
  }

  /** The calls after `onStart`: the read loop, then `onEnd` with the concatenation unless a read fails. */
  function RestCalls<D>(dec: Decoder<D>, chunks: seq<Bytes>, readError: bool): seq<Call>
  {
    LoopCalls(dec, chunks) + (if readError then [] else [EndCall(Join(Pushed(dec, chunks), ""))])
  }

  /** Every call of a pipeline run in which no write is refused. */
  function Calls<D>(a: Adapter, dec: Decoder<D>, up: Upstream): seq<Call>
  {
    match up
    case NoBody => []
    case Body(chunks, readError) => (if HasOnStart(a) then [StartCall] else []) + RestCalls(dec, chunks, readError)
  }

  // ----- the frames of a run -----

  /** The frames `onStart` writes, given the clock index it reads. */
  function OpeningFrames(a: Adapter, p: Platform, svc: Services, c: nat): seq<Frame>
  {
    match a
    case ChatAdapter(_) => []
    case ResponsesAdapter(model, responseId, messageId, _) => ResponsesHandler.StartFrames(responseId, messageId, model, p.nowMs(c) / 1000)
    case AnthropicAdapter(model, messageId, messages) => MessagesHandler.StartFrames(messageId, model, svc.estimateInputTokens(messages))
  }

  /** The frame `onChunk` writes for one fragment, given the UUID and clock indices it would draw. */
  function ChunkFrame(a: Adapter, p: Platform, u: nat, c: nat, fragment: string): Frame
  {
    match a
    case ChatAdapter(model) => ChatHandler.ChunkFrame(ChatHandler.FreshId(p.uuid, u), p.nowMs(c) / 1000, model, fragment)
    case ResponsesAdapter(_, _, _, _) => ResponsesHandler.DeltaFrame(fragment)
    case AnthropicAdapter(_, _, _) => MessagesHandler.DeltaFrame(fragment)
  }

  /** The frames `onEnd` writes for the accumulated text, given the UUID and clock indices it would draw. */
  function ClosingFrames(a: Adapter, p: Platform, svc: Services, u: nat, c: nat, text: string): seq<Frame>
  {
    match a
    case ChatAdapter(model) => ChatHandler.EndFrames(ChatHandler.FreshId(p.uuid, u), p.nowMs(c) / 1000, model)
    case ResponsesAdapter(model, responseId, messageId, messages) =>
      ResponsesHandler.EndFrames(responseId, messageId, model, text, p.nowMs(c) / 1000,
                                 svc.estimateInputTokens(messages), svc.calculateTokens(text, model))
    case AnthropicAdapter(model, _, _) => MessagesHandler.EndFrames(svc.calculateTokens(text, model))
  }

  /** UUIDs drawn after `onStart` and `k` calls of `onChunk`: chat draws one per chunk. */
  function UuidsAfter(a: Adapter, u0: nat, k: nat): nat
  {
    if a.ChatAdapter? then u0 + k else u0
  }

  /** Clock readings after `onStart` and `k` calls of `onChunk`: chat reads one per chunk, Responses one at the start. */
  function ClockAfter(a: Adapter, c0: nat, k: nat): nat
  {
    match a
    case ChatAdapter(_) => c0 + k
    case ResponsesAdapter(_, _, _, _) => c0 + 1
    case AnthropicAdapter(_, _, _) => c0
  }

  function ChunkFrames(a: Adapter, p: Platform, u0: nat, c0: nat, fragments: seq<string>): seq<Frame>
  {
    seq(|fragments|, k requires 0 <= k < |fragments| => ChunkFrame(a, p, UuidsAfter(a, u0, k), ClockAfter(a, c0, k), fragments[k]))
  }

  /** The frames after `onStart`: one per pushed fragment, then the closing frames unless a read fails. */
  function RestFrames<D>(a: Adapter, p: Platform, svc: Services, u0: nat, c0: nat, dec: Decoder<D>, chunks: seq<Bytes>, readError: bool)
    : seq<Frame>
  {
    var pushed := Pushed(dec, chunks);
    ChunkFrames(a, p, u0, c0, pushed) +
    (if readError then [] else ClosingFrames(a, p, svc, UuidsAfter(a, u0, |pushed|), ClockAfter(a, c0, |pushed|), Join(pushed, "")))
  }

  /**
   * Every frame of a run that starts with `u0` UUIDs and `c0` clock readings drawn, as a client that
   * never disconnects receives it: none without a body; otherwise the opening frames, one frame per
   * pushed fragment, and the closing frames unless the upstream read fails.
   */
  function Full<D>(a: Adapter, p: Platform, svc: Services, u0: nat, c0: nat, dec: Decoder<D>, up: Upstream): seq<Frame>
  {
    match up
    case NoBody => []
    case Body(chunks, readError) => OpeningFrames(a, p, svc, c0) + RestFrames(a, p, svc, u0, c0, dec, chunks, readError)
  }

  // ----- the callbacks, dispatched on the adapter -----

  method OnStart(a: Adapter, w: Writer, p: Platform, svc: Services) returns (ok: bool)
    requires HasOnStart(a) && w.Valid() && w.status == Open
    modifies w, p
    ensures w.Valid() && w.status == Open
    ensures ok == Fits(old(w.frames), |OpeningFrames(a, p, svc, old(p.clockReads))|, w.capacity)
    ensures w.frames == Deliver(old(w.frames), OpeningFrames(a, p, svc, old(p.clockReads)), w.capacity)
    ensures p.uuidsDrawn == old(p.uuidsDrawn) && p.clockReads == ClockAfter(a, old(p.clockReads), 0)
  {
    if a.ResponsesAdapter? {
      ok := ResponsesHandler.OnStart(w, p, a.responseId, a.messageId, a.model);
    } else {
      ok := MessagesHandler.OnStart(w, svc, a.messageId, a.model, a.messages);
    }
  }

  method OnChunk(a: Adapter, w: Writer, p: Platform, chunk: string) returns (ok: bool)
    requires w.Valid() && w.status == Open
    modifies w, p
    ensures w.Valid() && w.status == Open
    ensures ok == Fits(old(w.frames), 1, w.capacity)
    ensures w.frames == Deliver(old(w.frames), [ChunkFrame(a, p, old(p.uuidsDrawn), old(p.clockReads), chunk)], w.capacity)
    ensures p.uuidsDrawn == old(p.uuidsDrawn) + (if a.ChatAdapter? then 1 else 0)
    ensures p.clockReads == old(p.clockReads) + (if a.ChatAdapter? then 1 else 0)
  {
    match a
    case ChatAdapter(model) =>
      ok := ChatHandler.OnChunk(w, p, model, chunk);
    case ResponsesAdapter(_, _, _, _) =>
      ok := ResponsesHandler.OnChunk(w, chunk);
    case AnthropicAdapter(_, _, _) =>
      ok := MessagesHandler.OnChunk(w, chunk);
  }

  method OnEnd(a: Adapter, w: Writer, p: Platform, svc: Services, text: string) returns (ok: bool)
    requires w.Valid() && w.status == Open
    modifies w, p
    ensures w.Valid() && w.status == Open
    ensures ok == Fits(old(w.frames), |ClosingFrames(a, p, svc, old(p.uuidsDrawn), old(p.clockReads), text)|, w.capacity)
    ensures w.frames == Deliver(old(w.frames), ClosingFrames(a, p, svc, old(p.uuidsDrawn), old(p.clockReads), text), w.capacity)
  {
    match a
    case ChatAdapter(model) =>
      ok := ChatHandler.OnEnd(w, p, model);
    case ResponsesAdapter(model, responseId, messageId, messages) =>
      ok := ResponsesHandler.OnEnd(w, p, svc, responseId, messageId, model, messages, text);
    case AnthropicAdapter(model, _, _) =>
      ok := MessagesHandler.OnEnd(w, svc, model, text);
  }

  // ----- the pipeline -----

  /**
   * One turn of the read loop on the `i`-th chunk: decode it, and when the text is non-empty push it
   * and pass it to `onChunk`. `made` is the calls this turn makes.
   */
  method ReadStep<D>(a: Adapter, w: Writer, p: Platform, dec: Decoder<D>, chunks: seq<Bytes>, i: nat,
                     state: D, contentChunks: seq<string>, ghost u0: nat, ghost c0: nat)
    returns (ok: bool, nextState: D, nextChunks: seq<string>, ghost made: seq<Call>)
    requires i < |chunks| && w.Valid() && w.status == Open
    requires state == StateAfter(dec, chunks[..i]) && contentChunks == Pushed(dec, chunks[..i])
    requires p.uuidsDrawn == UuidsAfter(a, u0, |contentChunks|) && p.clockReads == ClockAfter(a, c0, |contentChunks|)
    modifies w, p
    ensures w.Valid() && w.status == Open
    ensures nextState == StateAfter(dec, chunks[..i + 1]) && nextChunks == Pushed(dec, chunks[..i + 1])
    ensures LoopCalls(dec, chunks[..i]) + made == LoopCalls(dec, chunks[..i + 1])
    ensures p.uuidsDrawn == UuidsAfter(a, u0, |nextChunks|) && p.clockReads == ClockAfter(a, c0, |nextChunks|)
    ensures |contentChunks| <= |nextChunks| <= |contentChunks| + 1
    ensures ChunkFrames(a, p, u0, c0, contentChunks) + NewFrames(a, p, u0, c0, contentChunks, nextChunks)
      == ChunkFrames(a, p, u0, c0, nextChunks)
    ensures ok == Fits(old(w.frames), |nextChunks| - |contentChunks|, w.capacity)
    ensures w.frames == Deliver(old(w.frames), NewFrames(a, p, u0, c0, contentChunks, nextChunks), w.capacity)
  {
    var value := chunks[i];
    WalkStep(dec, chunks, i);
    var decoded := dec.decode(state, value, false);
    nextState := decoded.0;
    var chunk := decoded.1;
    made := [DecodeCall(value, false)] + ChunkCalls(NonEmpty(chunk));
    ChunkFramesSnoc(a, p, u0, c0, contentChunks, chunk);
    nextChunks := contentChunks;
    ok := true;
    if chunk != "" {
      nextChunks := contentChunks + [chunk];
      ok := OnChunk(a, w, p, chunk);
    } else {
      assert NewFrames(a, p, u0, c0, contentChunks, nextChunks) == [];
    }
  }

  /** The frames of the fragments in `next` beyond those in `prev`. */
  function NewFrames(a: Adapter, p: Platform, u0: nat, c0: nat, prev: seq<string>, next: seq<string>): seq<Frame>
    requires |prev| <= |next|
  {
    ChunkFrames(a, p, u0, c0, next)[|prev|..]
  }

  /**
   * The read loop of `executeStreamingPipeline` (no read failure inside the chunks): decodes each chunk,
   * pushes and forwards every non-empty fragment, and stops at the first `onChunk` whose write is
   * refused. `ok` says whether every write went through; the client has the frames of all pushed
   * fragments up to that point.
   */
  method ReadLoop<D>(a: Adapter, w: Writer, p: Platform, dec: Decoder<D>, chunks: seq<Bytes>, ghost u0: nat, ghost c0: nat)
    returns (ok: bool, contentChunks: seq<string>, ghost calls: seq<Call>)
    requires w.Valid() && w.status == Open
    requires p.uuidsDrawn == UuidsAfter(a, u0, 0) && p.clockReads == ClockAfter(a, c0, 0)
    modifies w, p
    ensures w.Valid() && w.status == Open
    ensures ok == Fits(old(w.frames), |ChunkFrames(a, p, u0, c0, Pushed(dec, chunks))|, w.capacity)
    ensures w.frames == Deliver(old(w.frames), ChunkFrames(a, p, u0, c0, Pushed(dec, chunks)), w.capacity)
    ensures calls <= LoopCalls(dec, chunks)
    ensures ok ==> contentChunks == Pushed(dec, chunks) && calls == LoopCalls(dec, chunks)
    ensures ok ==> p.uuidsDrawn == UuidsAfter(a, u0, |contentChunks|) && p.clockReads == ClockAfter(a, c0, |contentChunks|)
  {
    ghost var log := w.frames;
    ghost var all := ChunkFrames(a, p, u0, c0, Pushed(dec, chunks));
    calls := [];
    var state := dec.init;
    contentChunks := [];
    ok := true;
    var i := 0;
    while i < |chunks|
      invariant 0 <= i <= |chunks|
      invariant w.Valid() && w.status == Open
      invariant state == StateAfter(dec, chunks[..i])
      invariant contentChunks == Pushed(dec, chunks[..i])
      invariant w.frames == log + ChunkFrames(a, p, u0, c0, contentChunks)
      invariant p.uuidsDrawn == UuidsAfter(a, u0, |contentChunks|) && p.clockReads == ClockAfter(a, c0, |contentChunks|)
      invariant calls == LoopCalls(dec, chunks[..i])
    {
      ghost var made;
      ghost var prev := contentChunks;
      ok, state, contentChunks, made := ReadStep(a, w, p, dec, chunks, i, state, contentChunks, u0, c0);
      calls := calls + made;
      if !ok {
        LoopStops(a, p, dec, chunks, i, u0, c0, log, prev, contentChunks, w.capacity);
        return;
      }
      StepFits(log, ChunkFrames(a, p, u0, c0, prev), NewFrames(a, p, u0, c0, prev, contentChunks),
               ChunkFrames(a, p, u0, c0, contentChunks), w.capacity);
      i := i + 1;
    }
    assert chunks[..i] == chunks;
    DeliverAll(log, all, w.capacity);
  }

  /** A turn whose writes all go through extends the log by its frames. */
  lemma StepFits(log: seq<Frame>, before: seq<Frame>, added: seq<Frame>, after: seq<Frame>, capacity: Option<nat>)
    requires Within(log + before, capacity) && before + added == after
    requires Fits(log + before, |added|, capacity)
    ensures Deliver(log + before, added, capacity) == log + after
  {
  }

  /** A log that holds all of `fs` within the capacity is what delivering `fs` gives. */
  lemma DeliverAll(log: seq<Frame>, fs: seq<Frame>, capacity: Option<nat>)
    requires Within(log, capacity) && Within(log + fs, capacity)
    ensures Fits(log, |fs|, capacity) && Deliver(log, fs, capacity) == log + fs
  {
  }

  /**
   * Everything after `onStart`: the read loop, then on a read failure an abort, otherwise `onEnd` with
   * the concatenated fragments and `close`; a refused write aborts at once.
   */
  method ReadThenEnd<D>(a: Adapter, w: Writer, p: Platform, svc: Services, dec: Decoder<D>, chunks: seq<Bytes>, readError: bool,
                        ghost u0: nat, ghost c0: nat)
    returns (ghost trace: seq<Call>)
    requires w.Valid() && w.status == Open
    requires p.uuidsDrawn == UuidsAfter(a, u0, 0) && p.clockReads == ClockAfter(a, c0, 0)
    modifies w, p
    ensures w.Valid() && (w.status == Closed || w.status == Aborted)
    ensures w.frames == Deliver(old(w.frames), RestFrames(a, p, svc, u0, c0, dec, chunks, readError), w.capacity)
    ensures w.status == Closed <==> !readError && Fits(old(w.frames), |RestFrames(a, p, svc, u0, c0, dec, chunks, readError)|, w.capacity)
    ensures trace <= RestCalls(dec, chunks, readError)
    ensures Fits(old(w.frames), |RestFrames(a, p, svc, u0, c0, dec, chunks, readError)|, w.capacity) ==>
      trace == RestCalls(dec, chunks, readError)
  {
    ghost var log := w.frames;
    ghost var pushed := Pushed(dec, chunks);
    ghost var middle := ChunkFrames(a, p, u0, c0, pushed);
    ghost var closing := ClosingFrames(a, p, svc, UuidsAfter(a, u0, |pushed|), ClockAfter(a, c0, |pushed|), Join(pushed, ""));
    ghost var endCalls := if readError then [] else [EndCall(Join(pushed, ""))];
    var ok, contentChunks;
    ok, contentChunks, trace := ReadLoop(a, w, p, dec, chunks, u0, c0);
    if !ok {
      PrefixExtend(trace, LoopCalls(dec, chunks), endCalls);
      assert LoopCalls(dec, chunks) + endCalls == RestCalls(dec, chunks, readError);
      DeliverAppend(log, middle, if readError then [] else closing, w.capacity);
      w.Abort();
      return;
    }
    if readError {
      assert RestFrames(a, p, svc, u0, c0, dec, chunks, readError) == middle + [];
      w.Abort();
      return;
    }
    var accumulatedContent := Join(contentChunks, "");
    trace := trace + [EndCall(accumulatedContent)];
    DeliverAppend(log, middle, closing, w.capacity);
    ok := OnEnd(a, w, p, svc, accumulatedContent);
    if !ok {
      w.Abort();
      return;
    }
    var closed := w.Close();
  }

  /**
   * `executeStreamingPipeline`. The client receives the frames of the run up to the first write it
   * refuses; the writer is closed when there is no body or when everything went through and the
   * upstream ended cleanly, and aborted otherwise. The ghost `trace` records the decoder and callback
   * calls made: all of `Calls` when every write went through, a prefix of it otherwise.
   */
  method ExecuteStreamingPipeline<D>(a: Adapter, up: Upstream, dec: Decoder<D>, svc: Services, p: Platform, capacity: Option<nat>)
    returns (w: Writer, ghost trace: seq<Call>)
    modifies p
    ensures fresh(w) && w.Valid() && w.capacity == capacity
    ensures w.frames == Deliver([], Full(a, p, svc, old(p.uuidsDrawn), old(p.clockReads), dec, up), capacity)
    ensures up.NoBody? ==> w.status == Closed && trace == []
    ensures up.Body? ==>
      (w.status == Closed <==> !up.readError && Fits([], |Full(a, p, svc, old(p.uuidsDrawn), old(p.clockReads), dec, up)|, capacity))
    ensures w.status == Closed || w.status == Aborted
    ensures trace <= Calls(a, dec, up)
    ensures Fits([], |Full(a, p, svc, old(p.uuidsDrawn), old(p.clockReads), dec, up)|, capacity) ==> trace == Calls(a, dec, up)
  {
    w := new Writer(capacity);
    trace := [];
    if up.NoBody? {
      var closed := w.Close();
      return;
    }
    ghost var u0 := p.uuidsDrawn;
    ghost var c0 := p.clockReads;
    ghost var opening := OpeningFrames(a, p, svc, c0);
    ghost var rest := RestFrames(a, p, svc, u0, c0, dec, up.chunks, up.readError);
    ghost var startCalls := if HasOnStart(a) then [StartCall] else [];
    ghost var restCalls := RestCalls(dec, up.chunks, up.readError);
    assert Full(a, p, svc, u0, c0, dec, up) == opening + rest;
    assert Calls(a, dec, up) == startCalls + restCalls;
    DeliverAppend([], opening, rest, capacity);
    if HasOnStart(a) {
      trace := [StartCall];
      var ok := OnStart(a, w, p, svc);
      if !ok {
        PrefixOfAppend(startCalls, restCalls);
        w.Abort();
        return;
      }
    }
    assert w.frames == opening && trace == startCalls;
    ghost var restTrace := ReadThenEnd(a, w, p, svc, dec, up.chunks, up.readError, u0, c0);
    PrefixAppend(startCalls, restTrace, restCalls, []);
    assert startCalls + restCalls + [] == startCalls + restCalls;
    trace := trace + restTrace;
  }

  // ----- helper lemmas for the pipeline -----

  /**
   * When the writes attempted from `log` on do not all fit, the client has what it would have had of
   * the whole run from `base`.
   */
  lemma DeliverPrefix(log: seq<Frame>, part: seq<Frame>, base: seq<Frame>, full: seq<Frame>, capacity: Option<nat>)
    requires Within(log, capacity) && Within(base, capacity) && base <= log && log + part <= base + full
    requires !Fits(log, |part|, capacity)
    ensures Deliver(log, part, capacity) == Deliver(base, full, capacity)
    ensures !Fits(base, |full|, capacity)
  {
    var cap := capacity.value;
    assert |log + part| <= |base + full|;
    assert Deliver(log, part, capacity) == (log + part)[..cap];
    assert Deliver(base, full, capacity) == (base + full)[..cap];
  }

  /**
   * A refused write inside the fragments leaves the client with what it would have had of all the
   * fragments' frames.
   */
  lemma StopInside(log: seq<Frame>, sentBefore: seq<Frame>, attempted: seq<Frame>, sent: seq<Frame>, all: seq<Frame>,
                   capacity: Option<nat>)
    requires Within(log, capacity) && Within(log + sentBefore, capacity)
    requires sentBefore + attempted == sent && sent <= all
    requires !Fits(log + sentBefore, |attempted|, capacity)
    ensures Deliver(log + sentBefore, attempted, capacity) == Deliver(log, all, capacity)
    ensures !Fits(log, |all|, capacity)
  {
    PrefixAppend(log, sent, all, []);
    assert log + all + [] == log + all;
    assert log + sentBefore + attempted == log + sent;
    DeliverPrefix(log + sentBefore, attempted, log, all, capacity);
  }

  /** A refused write on the `i`-th chunk leaves the client with what it would have had of the whole loop. */
  lemma LoopStops<D>(a: Adapter, p: Platform, dec: Decoder<D>, chunks: seq<Bytes>, i: nat, u0: nat, c0: nat,
                     log: seq<Frame>, prev: seq<string>, next: seq<string>, capacity: Option<nat>)
    requires i < |chunks| && prev == Pushed(dec, chunks[..i]) && next == Pushed(dec, chunks[..i + 1]) && |prev| <= |next|
    requires Within(log, capacity) && Within(log + ChunkFrames(a, p, u0, c0, prev), capacity)
    requires ChunkFrames(a, p, u0, c0, prev) + NewFrames(a, p, u0, c0, prev, next) == ChunkFrames(a, p, u0, c0, next)
    requires !Fits(log + ChunkFrames(a, p, u0, c0, prev), |next| - |prev|, capacity)
    ensures Deliver(log + ChunkFrames(a, p, u0, c0, prev), NewFrames(a, p, u0, c0, prev, next), capacity)
      == Deliver(log, ChunkFrames(a, p, u0, c0, Pushed(dec, chunks)), capacity)
    ensures !Fits(log, |ChunkFrames(a, p, u0, c0, Pushed(dec, chunks))|, capacity)
    ensures LoopCalls(dec, chunks[..i + 1]) <= LoopCalls(dec, chunks)
  {
    PushedPrefix(dec, chunks, i + 1);
    LoopCallsPrefix(dec, chunks, i + 1);
    ChunkFramesPrefix(a, p, u0, c0, next, Pushed(dec, chunks));
    StopInside(log, ChunkFrames(a, p, u0, c0, prev), NewFrames(a, p, u0, c0, prev, next), ChunkFrames(a, p, u0, c0, next),
               ChunkFrames(a, p, u0, c0, Pushed(dec, chunks)), capacity);
  }

  lemma DeliverWhole(full: seq<Frame>, capacity: Option<nat>)
    requires Within(full, capacity)
    ensures Fits([], |full|, capacity) && Deliver([], full, capacity) == full
  {
  }

  lemma PrefixOfAppend<T>(t: seq<T>, v: seq<T>)
    ensures t <= t + v
  {
    assert (t + v)[..|t|] == t;
  }

  lemma PrefixExtend<T>(t: seq<T>, u: seq<T>, v: seq<T>)
    requires t <= u
    ensures t <= u + v
  {
    assert (u + v)[..|t|] == t;
  }

  lemma PrefixAppend<T>(s: seq<T>, t: seq<T>, u: seq<T>, v: seq<T>)
    requires t <= u
    ensures s + t <= s + u + v
    ensures t == u ==> s + t + v == s + u + v
  {
    assert (s + u + v)[..|s + t|] == s + t;
  }

  /** One more chunk: one more decode step, its text pushed when non-empty. */
  lemma WalkStep<D>(dec: Decoder<D>, chunks: seq<Bytes>, i: nat)
    requires i < |chunks|
    ensures var decoded := dec.decode(StateAfter(dec, chunks[..i]), chunks[i], false);
      StateAfter(dec, chunks[..i + 1]) == decoded.0 &&
      Pushed(dec, chunks[..i + 1]) == Pushed(dec, chunks[..i]) + NonEmpty(decoded.1) &&
      LoopCalls(dec, chunks[..i + 1]) == LoopCalls(dec, chunks[..i]) + [DecodeCall(chunks[i], false)] + ChunkCalls(NonEmpty(decoded.1))
  {
    assert chunks[..i + 1][..i] == chunks[..i];
  }

  lemma {:induction false} PushedPrefix<D>(dec: Decoder<D>, chunks: seq<Bytes>, k: nat)
    requires k <= |chunks|
    ensures Pushed(dec, chunks[..k]) <= Pushed(dec, chunks)
    decreases |chunks| - k
  {
    if k < |chunks| {
      PushedPrefix(dec, chunks, k + 1);
      var p := chunks[..k + 1];
      assert p[..|p| - 1] == chunks[..k];
      assert Pushed(dec, p) == Pushed(dec, chunks[..k]) + NonEmpty(LastDecoded(dec, p));
    } else {
      assert chunks[..k] == chunks;
    }
  }

  lemma {:induction false} LoopCallsPrefix<D>(dec: Decoder<D>, chunks: seq<Bytes>, k: nat)
    requires k <= |chunks|
    ensures LoopCalls(dec, chunks[..k]) <= LoopCalls(dec, chunks)
    decreases |chunks| - k
  {
    if k < |chunks| {
      LoopCallsPrefix(dec, chunks, k + 1);
      var p := chunks[..k + 1];
      assert p[..|p| - 1] == chunks[..k];
      assert LoopCalls(dec, p) == LoopCalls(dec, chunks[..k]) + [DecodeCall(p[k], false)] + ChunkCalls(NonEmpty(LastDecoded(dec, p)));
    } else {
      assert chunks[..k] == chunks;
    }
  }

  lemma ChunkFramesSnoc(a: Adapter, p: Platform, u0: nat, c0: nat, fragments: seq<string>, fragment: string)
    ensures ChunkFrames(a, p, u0, c0, fragments + [fragment]) ==
      ChunkFrames(a, p, u0, c0, fragments) + [ChunkFrame(a, p, UuidsAfter(a, u0, |fragments|), ClockAfter(a, c0, |fragments|), fragment)]
  {
  }

  lemma ChunkFramesPrefix(a: Adapter, p: Platform, u0: nat, c0: nat, s: seq<string>, t: seq<string>)
    requires s <= t
    ensures ChunkFrames(a, p, u0, c0, s) <= ChunkFrames(a, p, u0, c0, t)
  {
  }

  // ----- what a run does -----

  /** The fragments passed to `onChunk`, in call order. */
  function ChunkArgs(trace: seq<Call>): seq<string>
  {
    if |trace| == 0 then []
    else (if trace[0].ChunkCall? then [trace[0].fragment] else []) + ChunkArgs(trace[1..])
  }

  /** The byte chunks passed to `decode`, in call order. */
  function DecodeArgs(trace: seq<Call>): seq<Bytes>
  {
    if |trace| == 0 then []
    else (if trace[0].DecodeCall? then [trace[0].chunk] else []) + DecodeArgs(trace[1..])
  }

  lemma {:induction false} ArgsAppend(s: seq<Call>, t: seq<Call>)
    ensures ChunkArgs(s + t) == ChunkArgs(s) + ChunkArgs(t)
    ensures DecodeArgs(s + t) == DecodeArgs(s) + DecodeArgs(t)
  {
    if |s| > 0 {
      assert (s + t)[1..] == s[1..] + t;
      ArgsAppend(s[1..], t);
    } else {
      assert s + t == t;
    }
  }

  /**
   * The read loop decodes every chunk once, in order, never with `isFinal` set, and passes exactly the
   * pushed fragments to `onChunk`, in order; every pushed fragment is non-empty.
   */
  lemma {:induction false} LoopCallsShape<D>(dec: Decoder<D>, chunks: seq<Bytes>)
    ensures DecodeArgs(LoopCalls(dec, chunks)) == chunks
    ensures ChunkArgs(LoopCalls(dec, chunks)) == Pushed(dec, chunks)
    ensures forall k :: 0 <= k < |LoopCalls(dec, chunks)| ==>
      (LoopCalls(dec, chunks)[k].DecodeCall? && !LoopCalls(dec, chunks)[k].isFinal) || LoopCalls(dec, chunks)[k].ChunkCall?
    ensures forall k :: 0 <= k < |Pushed(dec, chunks)| ==> Pushed(dec, chunks)[k] != ""
  {
    if |chunks| > 0 {
      var init := chunks[..|chunks| - 1];
      var last := chunks[|chunks| - 1];
      var step := [DecodeCall(last, false)] + ChunkCalls(NonEmpty(LastDecoded(dec, chunks)));
      LoopCallsShape(dec, init);
      assert LoopCalls(dec, chunks) == LoopCalls(dec, init) + step;
      ArgsAppend(LoopCalls(dec, init), step);
      ArgsAppend([DecodeCall(last, false)], ChunkCalls(NonEmpty(LastDecoded(dec, chunks))));
      assert init + [last] == chunks;
      if LastDecoded(dec, chunks) != "" {
        assert ChunkCalls(NonEmpty(LastDecoded(dec, chunks)))[1..] == [];
      }
    }
  }

  /** A run's calls are `onStart` (when there is one), the read loop, and `onEnd` unless a read fails. */
  lemma CallsSplit<D>(a: Adapter, dec: Decoder<D>, chunks: seq<Bytes>, readError: bool)
    ensures Calls(a, dec, Body(chunks, readError)) ==
      (if HasOnStart(a) then [StartCall] else []) + LoopCalls(dec, chunks) +
      (if readError then [] else [EndCall(Join(Pushed(dec, chunks), ""))])
  {
  }

  /**
   * Where each kind of call sits in `start + loop + end` when `start` is at most `onStart`, the loop
   * holds only unflushed decodes and `onChunk`, and `end` is at most one `onEnd`.
   */
  lemma TraceLayout(start: seq<Call>, loop: seq<Call>, end: seq<Call>, hasStart: bool, closed: bool)
    requires start == (if hasStart then [StartCall] else [])
    requires forall k :: 0 <= k < |loop| ==> (loop[k].DecodeCall? && !loop[k].isFinal) || loop[k].ChunkCall?
    requires |end| == (if closed then 1 else 0) && (closed ==> end[0].EndCall?)
    ensures var c := start + loop + end;
      forall k :: 0 <= k < |c| ==>
        (c[k] == StartCall <==> k == 0 && hasStart) &&
        (c[k].EndCall? <==> k == |c| - 1 && closed) &&
        (c[k].DecodeCall? ==> !c[k].isFinal)
  {
    var c := start + loop + end;
    forall k | 0 <= k < |c|
      ensures (c[k] == StartCall <==> k == 0 && hasStart) &&
        (c[k].EndCall? <==> k == |c| - 1 && closed) &&
        (c[k].DecodeCall? ==> !c[k].isFinal)
    {
      if k < |start| {
        assert c[k] == start[k];
      } else if k < |start| + |loop| {
        assert c[k] == loop[k - |start|];
      } else {
        assert c[k] == end[k - |start| - |loop|];
      }
    }
  }

  /** `onStart`, when the adapter has one, is the first call of a run and is never called again. */
  lemma CallsStartFirst<D>(a: Adapter, dec: Decoder<D>, chunks: seq<Bytes>, readError: bool)
    ensures var c := Calls(a, dec, Body(chunks, readError));
      (HasOnStart(a) ==> c[0] == StartCall) &&
      forall k :: 0 <= k < |c| && c[k] == StartCall ==> k == 0 && HasOnStart(a)
  {
    var c := Calls(a, dec, Body(chunks, readError));
    var start := if HasOnStart(a) then [StartCall] else [];
    var loop := LoopCalls(dec, chunks);
    var end := if readError then [] else [EndCall(Join(Pushed(dec, chunks), ""))];
    CallsSplit(a, dec, chunks, readError);
    assert c == start + loop + end;
    LoopCallsShape(dec, chunks);
    TraceLayout(start, loop, end, HasOnStart(a), !readError);
  }

  /** Every call to `decode` in a run has `isFinal` unset: the decoder is never flushed. */
  lemma DecodeNeverFinal<D>(a: Adapter, dec: Decoder<D>, chunks: seq<Bytes>, readError: bool)
    ensures var c := Calls(a, dec, Body(chunks, readError));
      forall k :: 0 <= k < |c| && c[k].DecodeCall? ==> !c[k].isFinal
  {
    var c := Calls(a, dec, Body(chunks, readError));
    var start := if HasOnStart(a) then [StartCall] else [];
    var loop := LoopCalls(dec, chunks);
    var end := if readError then [] else [EndCall(Join(Pushed(dec, chunks), ""))];
    CallsSplit(a, dec, chunks, readError);
    assert c == start + loop + end;
    LoopCallsShape(dec, chunks);
    TraceLayout(start, loop, end, HasOnStart(a), !readError);
  }

  /**
   * The chunks a run decodes are the upstream chunks in order, and `onChunk` receives exactly the
   * pushed fragments, in order, none of them empty.
   */
  lemma CallArguments<D>(a: Adapter, dec: Decoder<D>, chunks: seq<Bytes>, readError: bool)
    ensures var c := Calls(a, dec, Body(chunks, readError));
      DecodeArgs(c) == chunks &&
      ChunkArgs(c) == Pushed(dec, chunks) &&
      forall k :: 0 <= k < |ChunkArgs(c)| ==> ChunkArgs(c)[k] != ""
  {
    var start := if HasOnStart(a) then [StartCall] else [];
    var loop := LoopCalls(dec, chunks);
    var end := if readError then [] else [EndCall(Join(Pushed(dec, chunks), ""))];
    CallsSplit(a, dec, chunks, readError);
    LoopCallsShape(dec, chunks);
    NoArgs(StartCall);
    NoArgs(EndCall(Join(Pushed(dec, chunks), "")));
    ArgsBetween(start, loop, end);
  }

  lemma NoArgs(c: Call)
    requires c.StartCall? || c.EndCall?
    ensures ChunkArgs([c]) == [] && DecodeArgs([c]) == [] && ChunkArgs([]) == [] && DecodeArgs([]) == []
  {
    assert [c][1..] == [];
  }

  lemma ArgsBetween(s: seq<Call>, t: seq<Call>, u: seq<Call>)
    requires ChunkArgs(s) == [] && DecodeArgs(s) == [] && ChunkArgs(u) == [] && DecodeArgs(u) == []
    ensures ChunkArgs(s + t + u) == ChunkArgs(t) && DecodeArgs(s + t + u) == DecodeArgs(t)
  {
    ArgsAppend(s, t);
    ArgsAppend(s + t, u);
  }

  /**
   * `onEnd` is called at most once, as the last call, with the concatenation of the fragments given to
   * `onChunk`; it is called exactly when no read fails.
   */
  lemma CallsEndLast<D>(a: Adapter, dec: Decoder<D>, chunks: seq<Bytes>, readError: bool)
    ensures var c := Calls(a, dec, Body(chunks, readError));
      (forall k :: 0 <= k < |c| && c[k].EndCall? ==> k == |c| - 1 && !readError) &&
      (!readError ==> c[|c| - 1] == EndCall(Join(ChunkArgs(c), "")))
  {
    var c := Calls(a, dec, Body(chunks, readError));
    var start := if HasOnStart(a) then [StartCall] else [];
    var loop := LoopCalls(dec, chunks);
    var end := if readError then [] else [EndCall(Join(Pushed(dec, chunks), ""))];
    CallsSplit(a, dec, chunks, readError);
    assert c == start + loop + end;
    LoopCallsShape(dec, chunks);
    TraceLayout(start, loop, end, HasOnStart(a), !readError);
    if !readError {
      CallArguments(a, dec, chunks, readError);
      assert c[|c| - 1] == end[0];
    }
  }

  /** For chat, the per-fragment frames are the chat handler's chunks with consecutive UUIDs and clock readings. */
  lemma ChatChunkFrames(model: string, p: Platform, u0: nat, c0: nat, fragments: seq<string>)
    ensures ChunkFrames(ChatAdapter(model), p, u0, c0, fragments) == ChatHandler.FragmentFrames(p.uuid, p.nowMs, u0, c0, model, fragments)
  {
    var perChunk := ChunkFrames(ChatAdapter(model), p, u0, c0, fragments);
    var expected := ChatHandler.FragmentFrames(p.uuid, p.nowMs, u0, c0, model, fragments);
    forall k | 0 <= k < |fragments|
      ensures perChunk[k] == expected[k]
    {
    }
  }

  /**
   * With a clean upstream and no refused write, a chat run sends exactly the chat stream of the pushed
   * fragments, drawing the UUIDs and clock readings that follow those drawn before the run.
   */
  lemma ChatRunIsChatStream<D>(model: string, p: Platform, svc: Services, u0: nat, c0: nat, dec: Decoder<D>, chunks: seq<Bytes>)
    ensures Full(ChatAdapter(model), p, svc, u0, c0, dec, Body(chunks, false)) ==
      ChatHandler.StreamFrames(p.uuid, p.nowMs, u0, c0, model, Pushed(dec, chunks))
  {
    var a := ChatAdapter(model);
    var pushed := Pushed(dec, chunks);
    var n := |pushed|;
    ChatChunkFrames(model, p, u0, c0, pushed);
    var closing := ClosingFrames(a, p, svc, UuidsAfter(a, u0, n), ClockAfter(a, c0, n), Join(pushed, ""));
    assert closing == ChatHandler.EndFrames(ChatHandler.FreshId(p.uuid, u0 + n), p.nowMs(c0 + n) / 1000, model);
    var perChunk := ChunkFrames(a, p, u0, c0, pushed);
    assert OpeningFrames(a, p, svc, c0) == [];
    assert Full(a, p, svc, u0, c0, dec, Body(chunks, false)) == [] + (perChunk + closing);
    assert [] + (perChunk + closing) == perChunk + closing;
    assert ChatHandler.StreamFrames(p.uuid, p.nowMs, u0, c0, model, pushed) ==
      ChatHandler.FragmentFrames(p.uuid, p.nowMs, u0, c0, model, pushed) +
      ChatHandler.EndFrames(ChatHandler.FreshId(p.uuid, u0 + n), p.nowMs(c0 + n) / 1000, model);
  }

  /**
   * A Responses run sends the Responses stream of the pushed fragments: its `created_at` is the first
   * clock reading, the completed response's the second, the input tokens are estimated from the
   * request messages and the output tokens counted from the concatenated text.
   */
  lemma ResponsesRunIsResponsesStream<D>(model: string, responseId: string, messageId: string, messages: seq<Message>,
                                         p: Platform, svc: Services, u0: nat, c0: nat, dec: Decoder<D>, chunks: seq<Bytes>)
    ensures Full(ResponsesAdapter(model, responseId, messageId, messages), p, svc, u0, c0, dec, Body(chunks, false)) ==
      ResponsesHandler.StreamFrames(responseId, messageId, model, p.nowMs(c0) / 1000, p.nowMs(c0 + 1) / 1000, Pushed(dec, chunks),
                                    svc.estimateInputTokens(messages), svc.calculateTokens(Join(Pushed(dec, chunks), ""), model))
  {
  }

  /** An Anthropic run sends the Messages stream of the pushed fragments with the estimated and counted tokens. */
  lemma AnthropicRunIsMessagesStream<D>(model: string, messageId: string, messages: seq<Message>,
                                        p: Platform, svc: Services, u0: nat, c0: nat, dec: Decoder<D>, chunks: seq<Bytes>)
    ensures Full(AnthropicAdapter(model, messageId, messages), p, svc, u0, c0, dec, Body(chunks, false)) ==
      MessagesHandler.StreamFrames(messageId, model, Pushed(dec, chunks), svc.estimateInputTokens(messages),
                                   svc.calculateTokens(Join(Pushed(dec, chunks), ""), model))
  {
  }

  /**
   * A failed upstream read costs exactly the closing frames: the run sends what a clean run sends
   * up to `onEnd`, and nothing after it (in particular no `[DONE]`).
   */
  lemma ReadErrorDropsClosing<D>(a: Adapter, p: Platform, svc: Services, u0: nat, c0: nat, dec: Decoder<D>, chunks: seq<Bytes>)
    ensures var failed := Full(a, p, svc, u0, c0, dec, Body(chunks, true));
      var clean := Full(a, p, svc, u0, c0, dec, Body(chunks, false));
      failed <= clean &&
      |clean| - |failed| == (match a case ChatAdapter(_) => 2 case ResponsesAdapter(_, _, _, _) => 5 case AnthropicAdapter(_, _, _) => 3) &&
      forall k :: 0 <= k < |failed| ==> failed[k] != DoneFrame
  {
    var pushed := Pushed(dec, chunks);
    var failed := Full(a, p, svc, u0, c0, dec, Body(chunks, true));
    var clean := Full(a, p, svc, u0, c0, dec, Body(chunks, false));
    var closing := ClosingFrames(a, p, svc, UuidsAfter(a, u0, |pushed|), ClockAfter(a, c0, |pushed|), Join(pushed, ""));
    assert failed == OpeningFrames(a, p, svc, c0) + ChunkFrames(a, p, u0, c0, pushed) + [];
    assert clean == OpeningFrames(a, p, svc, c0) + ChunkFrames(a, p, u0, c0, pushed) + closing;
    PrefixOfAppend(OpeningFrames(a, p, svc, c0) + ChunkFrames(a, p, u0, c0, pushed), closing);
  }
}
