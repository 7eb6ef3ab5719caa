/**
 * OpenAI `chat.completion.chunk` streaming, both ways: the gateway's encoder and the
 * provider's decoder of the same chunks.
 *
 * Tool calls carry their index here, so arbitrarily interleaved parallel calls survive.
 * What does not survive is anything empty, since the decoder tests for truthiness, and a
 * second start of the same index. `RoundTripExactlyDeliverable` shows that these are the
 * only losses.
 */
module OpenAICodec {
  import opened Wrappers
  import opened Streaming

  datatype Finish = Unfinished | Stop | ToolUseCalls | Length

  /** One entry of `delta.tool_calls`; an absent field is the empty string, which the decoder treats alike. */
  datatype ToolPart = ToolPart(index: int, id: string, name: string, arguments: string)

  /** Token counts; the prompt includes what was read from a cache, if that is told. */
  datatype TokenCounts = TokenCounts(prompt: int, completion: int, cached: Option<int>)

  datatype Chunk =
    | Choice(role: bool, content: string, tools: seq<ToolPart>, finish: Finish, usage: Option<TokenCounts>)
    | UsageOnly(usage: Option<TokenCounts>)

  function FinishReason(r: StopReason): Finish {
    match r
    case ToolUse => ToolUseCalls
    case MaxTokens => Length
    case EndTurn => Stop
  }

  // ----- encoder ------------------------------------------------------------------------

  function EncodeEvent(includeUsage: bool, first: bool, e: Event): (bool, seq<Chunk>) {
    match e
    case TextDelta(text) => (false, [Choice(first, text, [], Unfinished, None)])
    case ToolStart(index, id, name) => (false, [Choice(first, "", [ToolPart(index, id, name, "")], Unfinished, None)])
    case ToolDelta(index, args) => (first, [Choice(false, "", [ToolPart(index, "", "", args)], Unfinished, None)])
    case Done(r) =>
      var last := Choice(false, "", [], FinishReason(r.stopReason), None);
      (first,
       if includeUsage && r.usage.Some?
       then [last, UsageOnly(Some(TokenCounts(r.usage.value.inputTokens, r.usage.value.outputTokens, None)))]
       else [last])
  }

  function EncodeFrom(includeUsage: bool, first: bool, events: seq<Event>): seq<Chunk>
    decreases |events|
  {
    if events == [] then []
    else
      var (first', chunks) := EncodeEvent(includeUsage, first, events[0]);
      chunks + EncodeFrom(includeUsage, first', events[1..])
  }

  function Encode(includeUsage: bool, events: seq<Event>): seq<Chunk> {
    EncodeFrom(includeUsage, true, events)
  }

  class ChunkEncoder {
    const includeUsage: bool
    var first: bool

    constructor (includeUsage: bool)
      ensures first && this.includeUsage == includeUsage
    {
      this.includeUsage, first := includeUsage, true;
    }

    /** The role field: on the first delta that asks for it only. */
    method RoleField() returns (role: bool)
      modifies this
      ensures role == old(first) && !first
    {
      role := first;
      if first {
        first := false;
      }
    }

    method ForEvent(event: Event) returns (out: seq<Chunk>)
      modifies this
      ensures (first, out) == EncodeEvent(includeUsage, old(first), event)
    {
      var role;
      match event {
        case TextDelta(text) =>
          role := RoleField();
          out := [Choice(role, text, [], Unfinished, None)];
        case ToolStart(index, id, name) =>
          role := RoleField();
          out := [Choice(role, "", [ToolPart(index, id, name, "")], Unfinished, None)];
        case ToolDelta(index, args) =>
          out := [Choice(false, "", [ToolPart(index, "", "", args)], Unfinished, None)];
        case Done(r) =>
          var last := Choice(false, "", [], FinishReason(r.stopReason), None);
          out := [last];
          if includeUsage && r.usage.Some? {
            out := out + [UsageOnly(Some(TokenCounts(r.usage.value.inputTokens, r.usage.value.outputTokens, None)))];
            assert out == [last, out[1]];
          }
      }
    }
  }

  /** The gateway's loop over a router stream. */
  method EncodeStream(includeUsage: bool, events: seq<Event>) returns (chunks: seq<Chunk>)
    ensures chunks == Encode(includeUsage, events)
  {
    chunks := [];
    var encoder := new ChunkEncoder(includeUsage);
    ghost var all := Encode(includeUsage, events);
    assert events[0..] == events;
    for i := 0 to |events|
      invariant encoder.includeUsage == includeUsage
      invariant all == chunks + EncodeFrom(includeUsage, encoder.first, events[i..])
    {
      EncodeNext(includeUsage, encoder.first, events, i, chunks);
      var out := encoder.ForEvent(events[i]);
      chunks := chunks + out;
    }
    assert chunks + [] == chunks;
  }

  lemma EncodeNext(includeUsage: bool, first: bool, events: seq<Event>, i: nat, chunks: seq<Chunk>)
    requires i < |events|
    ensures var (first', out) := EncodeEvent(includeUsage, first, events[i]);
            chunks + EncodeFrom(includeUsage, first, events[i..]) == (chunks + out) + EncodeFrom(includeUsage, first', events[i + 1..])
  {
    var (first', out) := EncodeEvent(includeUsage, first, events[i]);
    assert events[i..][1..] == events[i + 1..];
    assert chunks + (out + EncodeFrom(includeUsage, first', events[i + 1..])) == (chunks + out) + EncodeFrom(includeUsage, first', events[i + 1..]);
  }

  // ----- decoder ------------------------------------------------------------------------

  datatype DecState = DecState(
    content: Option<string>,
    stopReason: StopReason,
    usage: Option<Usage>,
    buffers: map<int, Buffer>,
    started: set<int>)

  const IDLE := DecState(None, EndTurn, None, map[], {})

  function BufferAt(d: DecState, index: int): Buffer {
    if index in d.buffers then d.buffers[index] else Buffer("", "", "")
  }

  function OrElse(field: string, previous: string): string {
    if field != "" then field else previous
  }

  function DecodeTool(d: DecState, tc: ToolPart): (DecState, seq<Event>) {
    var known := BufferAt(d, tc.index);
    var id, name := OrElse(tc.id, known.id), OrElse(tc.name, known.name);
    var starts := tc.index !in d.started && id != "" && name != "";
    (d.(buffers := d.buffers[tc.index := Buffer(id, name, known.args + tc.arguments)],
        started := if starts then d.started + {tc.index} else d.started),
     (if starts then [ToolStart(tc.index, id, name)] else [])
     + (if tc.arguments != "" then [ToolDelta(tc.index, tc.arguments)] else []))
  }

  function DecodeTools(d: DecState, tools: seq<ToolPart>): (DecState, seq<Event>)
    decreases |tools|
  {
    if tools == [] then (d, [])
    else
      var (d1, out) := DecodeTool(d, tools[0]);
      var (d2, rest) := DecodeTools(d1, tools[1..]);
      (d2, out + rest)
  }

  /** Usage with the cached part of the prompt apart. */
  function ParsedUsage(u: TokenCounts): Usage {
    var uncached := u.prompt - u.cached.GetOr(0);
    Usage(if uncached < 0 then 0 else uncached, u.completion, u.cached, None)
  }

  function WithUsage(d: DecState, usage: Option<TokenCounts>): DecState {
    match usage
    case Some(u) => d.(usage := Some(ParsedUsage(u)))
    case None => d
  }

  function DecodeChunk(d: DecState, c: Chunk): (DecState, seq<Event>) {
    match c
    case UsageOnly(usage) => (WithUsage(d, usage), [])
    case Choice(_, content, tools, finish, usage) =>
      var d0 := if content == "" then d else d.(content := Some(d.content.GetOr("") + content));
      var (d1, calls) := DecodeTools(d0, tools);
      var d2 := d1.(stopReason := match finish case ToolUseCalls => ToolUse case Length => MaxTokens case _ => d1.stopReason);
      (WithUsage(d2, usage), (if content == "" then [] else [TextDelta(content)]) + calls)
  }

  function DecodeFrom(d: DecState, chunks: seq<Chunk>): (DecState, seq<Event>)
    decreases |chunks|
  {
    if chunks == [] then (d, [])
    else
      var (d1, out) := DecodeChunk(d, chunks[0]);
      var (d2, rest) := DecodeFrom(d1, chunks[1..]);
      (d2, out + rest)
  }

  function Decode(j: Json, chunks: seq<Chunk>): seq<Event> {
    var (d, out) := DecodeFrom(IDLE, chunks);
    out + [Done(Response(d.content, ToolCalls(j, d.buffers), d.stopReason, d.usage))]
  }

  method DecodeStream(j: Json, chunks: seq<Chunk>) returns (emitted: seq<Event>)
    ensures emitted == Decode(j, chunks)
  {
    emitted := [];
    var d := IDLE;
    for i := 0 to |chunks|
      invariant (d, emitted) == DecodeFrom(IDLE, chunks[..i])
    {
      DecodeConcat(IDLE, chunks[..i], [chunks[i]]);
      DecodeOne(d, chunks[i]);
      assert chunks[..i + 1] == chunks[..i] + [chunks[i]];
      var out;
      d, out := StepChunk(d, chunks[i]);
      emitted := emitted + out;
    }
    assert chunks[..|chunks|] == chunks;
    emitted := emitted + [Done(Response(d.content, ToolCalls(j, d.buffers), d.stopReason, d.usage))];
  }

  /** The body of the decoder's outer loop. */
  method StepChunk(d0: DecState, chunk: Chunk) returns (d: DecState, emitted: seq<Event>)
    ensures (d, emitted) == DecodeChunk(d0, chunk)
  {
    d, emitted := d0, [];
    if chunk.Choice? {
      if chunk.content != "" {
        d := d.(content := Some(d.content.GetOr("") + chunk.content));
        emitted := [TextDelta(chunk.content)];
      }
      var calls;
      d, calls := StepTools(d, chunk.tools);
      emitted := emitted + calls;
      if chunk.finish == ToolUseCalls {
        d := d.(stopReason := ToolUse);
      } else if chunk.finish == Length {
        d := d.(stopReason := MaxTokens);
      }
    }
    if chunk.usage.Some? {
      var u := chunk.usage.value;
      var cached := if u.cached.Some? then u.cached.value else 0;
      var usage := Usage(if u.prompt - cached < 0 then 0 else u.prompt - cached, u.completion, None, None);
      if u.cached.Some? {
        usage := usage.(cacheRead := Some(cached));
      }
      d := d.(usage := Some(usage));
    }
  }

  /** The decoder's inner loop. */
  method StepTools(d0: DecState, tools: seq<ToolPart>) returns (d: DecState, emitted: seq<Event>)
    ensures (d, emitted) == DecodeTools(d0, tools)
  {
    d, emitted := d0, [];
    for i := 0 to |tools|
      invariant (d, emitted) == DecodeTools(d0, tools[..i])
    {
      DecodeToolsSnoc(d0, tools[..i], tools[i]);
      assert tools[..i + 1] == tools[..i] + [tools[i]];
      var out;
      d, out := StepTool(d, tools[i]);
      emitted := emitted + out;
    }
    assert tools[..|tools|] == tools;
  }

  lemma {:induction false} DecodeToolsSnoc(d: DecState, tools: seq<ToolPart>, tc: ToolPart)
    ensures DecodeTools(d, tools + [tc])
         == var (d1, x) := DecodeTools(d, tools); var (d2, y) := DecodeTool(d1, tc); (d2, x + y)
    decreases |tools|
  {
    if tools == [] {
      var (d2, y) := DecodeTool(d, tc);
      assert tools + [tc] == [tc] && [tc][1..] == [];
      assert [] + y == y && y + [] == y;
    } else {
      var (d1, out) := DecodeTool(d, tools[0]);
      DecodeToolsSnoc(d1, tools[1..], tc);
      assert (tools + [tc])[0] == tools[0] && (tools + [tc])[1..] == tools[1..] + [tc];
      var (d2, x) := DecodeTools(d1, tools[1..]);
      var (d3, y) := DecodeTool(d2, tc);
      assert out + (x + y) == (out + x) + y;
    }
  }

  /** The body of the decoder's inner loop over `delta.tool_calls`. */
  method StepTool(d0: DecState, tc: ToolPart) returns (d: DecState, emitted: seq<Event>)
    ensures (d, emitted) == DecodeTool(d0, tc)
  {
    d, emitted := d0, [];
    var buf := BufferAt(d, tc.index);
    if tc.id != "" {
      buf := buf.(id := tc.id);
    }
    if tc.name != "" {
      buf := buf.(name := tc.name);
    }
    if tc.index !in d.started && buf.id != "" && buf.name != "" {
      d := d.(started := d.started + {tc.index});
      emitted := [ToolStart(tc.index, buf.id, buf.name)];
    }
    assert buf.args == buf.args + "";
    if tc.arguments != "" {
      buf := buf.(args := buf.args + tc.arguments);
      emitted := emitted + [ToolDelta(tc.index, tc.arguments)];
    }
    assert emitted == emitted + [] && buf.args == BufferAt(d0, tc.index).args + tc.arguments;
    d := d.(buffers := d.buffers[tc.index := buf]);
  }

  lemma {:induction false} DecodeConcat(d: DecState, a: seq<Chunk>, b: seq<Chunk>)
    ensures DecodeFrom(d, a + b)
         == var (d1, x) := DecodeFrom(d, a); var (d2, y) := DecodeFrom(d1, b); (d2, x + y)
    decreases |a|
  {
    if a == [] {
      assert a + b == b;
      var (d2, y) := DecodeFrom(d, b);
      assert [] + y == y;
    } else {
      var (d1, out) := DecodeChunk(d, a[0]);
      DecodeConcat(d1, a[1..], b);
      assert (a + b)[0] == a[0] && (a + b)[1..] == a[1..] + b;
      var (d2, x) := DecodeFrom(d1, a[1..]);
      var (d3, y) := DecodeFrom(d2, b);
      assert out + (x + y) == (out + x) + y;
    }
  }

  lemma DecodeOne(d: DecState, c: Chunk)
    ensures DecodeFrom(d, [c]) == DecodeChunk(d, c)
  {
    var (d1, out) := DecodeChunk(d, c);
    assert [c][1..] == [];
    assert out + [] == out;
  }

  // ----- decoding the encoding ------------------------------------------------------------

  predicate NoDone(events: seq<Event>) {
    forall e :: e in events ==> !e.Done?
  }

  /** Nothing is empty and no index is started twice; deltas may come in any order. */
  predicate Deliverable(started: set<int>, events: seq<Event>)
    decreases |events|
  {
    events == [] ||
    match events[0]
    case TextDelta(text) => text != "" && Deliverable(started, events[1..])
    case ToolStart(index, id, name) =>
      index !in started && id != "" && name != "" && Deliverable(started + {index}, events[1..])
    case ToolDelta(_, args) => args != "" && Deliverable(started, events[1..])
    case Done(_) => false
  }

  /** Deliverable, and every delta belongs to a call that has been started. */
  predicate WellFormed(started: set<int>, events: seq<Event>)
    decreases |events|
  {
    events == [] ||
    match events[0]
    case TextDelta(text) => text != "" && WellFormed(started, events[1..])
    case ToolStart(index, id, name) =>
      index !in started && id != "" && name != "" && WellFormed(started + {index}, events[1..])
    case ToolDelta(index, args) => args != "" && index in started && WellFormed(started, events[1..])
    case Done(_) => false
  }

  /** The decoder has started exactly the calls whose id and name it knows. */
  ghost predicate Coherent(d: DecState) {
    forall k :: k in d.started <==> k in d.buffers && d.buffers[k].id != "" && d.buffers[k].name != ""
  }

  /** What one event does to the decoder when it arrives by the wire. */
  function Deliver(d: DecState, e: Event): (DecState, seq<Event>) {
    match e
    case TextDelta(text) =>
      if text == "" then (d, []) else (d.(content := Some(d.content.GetOr("") + text)), [e])
    case ToolStart(index, id, name) => DecodeTool(d, ToolPart(index, id, name, ""))
    case ToolDelta(index, args) => DecodeTool(d, ToolPart(index, "", "", args))
    case Done(_) => (d, [])
  }

  lemma DecodeOfEvent(includeUsage: bool, first: bool, d: DecState, e: Event)
    requires !e.Done?
    ensures DecodeFrom(d, EncodeEvent(includeUsage, first, e).1) == Deliver(d, e)
  {
    var chunk := EncodeEvent(includeUsage, first, e).1[0];
    DecodeOne(d, chunk);
    assert EncodeEvent(includeUsage, first, e).1 == [chunk];
    if !e.TextDelta? {
      var (d1, out) := DecodeTool(d, chunk.tools[0]);
      assert chunk.tools[1..] == [];
      assert DecodeTools(d, chunk.tools) == (d1, out + []);
      assert out + [] == out && [] + out == out;
      assert d1.(stopReason := d1.stopReason) == d1;
    } else {
      assert DecodeTools(d, []) == (d, []);
      assert Deliver(d, e).1 + [] == Deliver(d, e).1;
    }
  }

  lemma DeliverKeepsCoherence(d: DecState, e: Event)
    requires Coherent(d)
    ensures Coherent(Deliver(d, e).0)
    ensures |Deliver(d, e).1| <= 1
  {
  }

  /** An event arrives as itself exactly when it is deliverable on its own. */
  lemma ArrivesAsItself(d: DecState, e: Event)
    requires Coherent(d) && !e.Done?
    ensures Deliver(d, e).1 == [e] <==> Deliverable(d.started, [e])
    ensures Deliver(d, e).1 == [e] ==> Deliver(d, e).0.started == d.started + (if e.ToolStart? then {e.index} else {})
  {
    assert [e][1..] == [];
  }

  function DeliverAll(d: DecState, events: seq<Event>): (DecState, seq<Event>)
    decreases |events|
  {
    if events == [] then (d, [])
    else
      var (d1, out) := Deliver(d, events[0]);
      var (d2, rest) := DeliverAll(d1, events[1..]);
      (d2, out + rest)
  }

  /** What the wire keeps of token counts: nothing unless asked for, and then the two plain counts. */
  function UsageOnWire(includeUsage: bool, usage: Option<Usage>): Option<Usage> {
    match usage
    case Some(u) =>
      if includeUsage then Some(Usage(if u.inputTokens < 0 then 0 else u.inputTokens, u.outputTokens, None, None)) else None
    case None => None
  }

  function Received(j: Json, includeUsage: bool, d: DecState, r: Response): Response {
    Response(d.content, ToolCalls(j, d.buffers), r.stopReason,
             UsageOnWire(includeUsage, r.usage))
  }

  lemma {:induction false} DecodeEncodedFrom(j: Json, includeUsage: bool, first: bool, d: DecState, body: seq<Event>, r: Response)
    requires NoDone(body) && d.stopReason == EndTurn && d.usage == None
    ensures var (d', out) := DecodeFrom(d, EncodeFrom(includeUsage, first, body + [Done(r)]));
            && out == DeliverAll(d, body).1
            && Response(d'.content, ToolCalls(j, d'.buffers), d'.stopReason, d'.usage)
               == Received(j, includeUsage, DeliverAll(d, body).0, r)
    decreases |body|
  {
    if body == [] {
      DecodeEnding(includeUsage, first, d, r);
      assert body + [Done(r)] == [Done(r)];
    } else {
      var e, rest := body[0], body[1..];
      var (first', chunks) := EncodeEvent(includeUsage, first, e);
      var (d1, out) := Deliver(d, e);
      assert (body + [Done(r)])[0] == e && (body + [Done(r)])[1..] == rest + [Done(r)];
      DecodeOfEvent(includeUsage, first, d, e);
      DecodeConcat(d, chunks, EncodeFrom(includeUsage, first', rest + [Done(r)]));
      DecodeEncodedFrom(j, includeUsage, first', d1, rest, r);
    }
  }

  lemma DecodeEnding(includeUsage: bool, first: bool, d: DecState, r: Response)
    requires d.stopReason == EndTurn && d.usage == None
    ensures var (d', out) := DecodeFrom(d, EncodeFrom(includeUsage, first, [Done(r)]));
            && out == [] && d'.content == d.content && d'.buffers == d.buffers && d'.stopReason == r.stopReason
            && d'.usage == UsageOnWire(includeUsage, r.usage)
  {
    var chunks := EncodeEvent(includeUsage, first, Done(r)).1;
    assert [Done(r)][1..] == [] && chunks + [] == chunks;
    var last := chunks[0];
    DecodeOne(d, last);
    assert last.tools == [];
    if |chunks| > 1 {
      assert chunks == [last] + [chunks[1]];
      DecodeConcat(d, [last], [chunks[1]]);
      DecodeOne(DecodeChunk(d, last).0, chunks[1]);
    } else {
      assert chunks == [last];
    }
  }

  lemma {:induction false} DeliverAllShorter(d: DecState, events: seq<Event>)
    requires Coherent(d)
    ensures |DeliverAll(d, events).1| <= |events|
    decreases |events|
  {
    if events != [] {
      DeliverKeepsCoherence(d, events[0]);
      DeliverAllShorter(Deliver(d, events[0]).0, events[1..]);
    }
  }

  lemma {:induction false} DeliveredExactly(d: DecState, events: seq<Event>)
    requires Coherent(d) && NoDone(events)
    ensures DeliverAll(d, events).1 == events <==> Deliverable(d.started, events)
    decreases |events|
  {
    if events != [] {
      var e, rest := events[0], events[1..];
      var (d1, out) := Deliver(d, e);
      var tail := DeliverAll(d1, rest).1;
      DeliverKeepsCoherence(d, e);
      ArrivesAsItself(d, e);
      DeliverAllShorter(d1, rest);
      DeliveredExactly(d1, rest);
      assert [e][1..] == [] && events == [e] + rest;
      assert Deliverable(d.started, events) <==> Deliverable(d.started, [e]) && Deliverable(d.started + (if e.ToolStart? then {e.index} else {}), rest);
      if out + tail == events {
        assert out == [e];
        assert (out + tail)[1..] == tail;
      }
    }
  }

  /**
   * Decoding the chunks gives the events back, in order and however interleaved, if and
   * only if nothing is empty and no call is started twice.
   */
  lemma RoundTripExactlyDeliverable(j: Json, includeUsage: bool, body: seq<Event>, r: Response)
    requires NoDone(body)
    ensures var back := Decode(j, Encode(includeUsage, body + [Done(r)]));
            back[..|back| - 1] == body <==> Deliverable({}, body)
  {
    DecodeEncodedFrom(j, includeUsage, true, IDLE, body, r);
    DeliveredExactly(IDLE, body);
    var back := Decode(j, Encode(includeUsage, body + [Done(r)]));
    assert back[..|back| - 1] == DeliverAll(IDLE, body).1;
  }

  lemma {:induction false} WellFormedAssembles(d: DecState, events: seq<Event>)
    requires Coherent(d) && (forall k :: k in d.buffers ==> k in d.started)
    requires WellFormed(d.started, events)
    ensures DeliverAll(d, events).1 == events
    ensures var d' := DeliverAll(d, events).0;
            Assembly(d'.content, d'.buffers) == AbsorbAll(Assembly(d.content, d.buffers), events)
    decreases |events|
  {
    if events != [] {
      var e, rest := events[0], events[1..];
      var (d1, out) := Deliver(d, e);
      assert events == [e] + rest;
      assert out == [e];
      assert "" + "" == "";
      assert Assembly(d1.content, d1.buffers) == Absorb(Assembly(d.content, d.buffers), e);
      WellFormedAssembles(d1, rest);
    }
  }

  /**
   * For well-formed streams of a faithful provider, whatever its usage, the final response
   * comes back too: content, every interleaved call with its own arguments, stop reason,
   * and of the token counts what the wire keeps.
   */
  lemma RoundTripWithResponse(j: Json, includeUsage: bool, body: seq<Event>, r: Response)
    requires WellFormed({}, body) && NoDone(body)
    requires r.content == AbsorbAll(NOTHING, body).content
    requires r.toolCalls == ToolCalls(j, AbsorbAll(NOTHING, body).buffers)
    ensures Decode(j, Encode(includeUsage, body + [Done(r)]))
         == body + [Done(r.(usage := UsageOnWire(includeUsage, r.usage)))]
  {
    DecodeEncodedFrom(j, includeUsage, true, IDLE, body, r);
    WellFormedAssembles(IDLE, body);
  }

  /**
   * The whole response comes back, usage included, if and only if there is no usage, or it
   * is asked for, its input count is not negative and it has no cache counts.
   */
  lemma UsageComesBackExactlyWhenPlain(j: Json, includeUsage: bool, body: seq<Event>, r: Response)
    requires WellFormed({}, body) && NoDone(body)
    requires r.content == AbsorbAll(NOTHING, body).content
    requires r.toolCalls == ToolCalls(j, AbsorbAll(NOTHING, body).buffers)
    ensures Decode(j, Encode(includeUsage, body + [Done(r)])) == body + [Done(r)]
       <==> match r.usage
            case Some(u) => includeUsage && u.inputTokens >= 0 && u.cacheRead == None && u.cacheWrite == None
            case None => true
  {
    RoundTripWithResponse(j, includeUsage, body, r);
    var back := Decode(j, Encode(includeUsage, body + [Done(r)]));
    assert back[|body|] == Done(r.(usage := UsageOnWire(includeUsage, r.usage)));
    assert (body + [Done(r)])[|body|] == Done(r);
  }

  // ----- the role field -------------------------------------------------------------------

  function RoleCount(chunks: seq<Chunk>): nat {
    if chunks == [] then 0 else (if chunks[0].Choice? && chunks[0].role then 1 else 0) + RoleCount(chunks[1..])
  }

  lemma {:induction false} RoleCountConcat(a: seq<Chunk>, b: seq<Chunk>)
    ensures RoleCount(a + b) == RoleCount(a) + RoleCount(b)
  {
    if a == [] {
      assert a + b == b;
    } else {
      RoleCountConcat(a[1..], b);
      assert (a + b)[0] == a[0] && (a + b)[1..] == a[1..] + b;
    }
  }

  /** The role is announced once if any text or call is ever sent, and never otherwise. */
  lemma {:induction false} RoleAnnouncedOnce(includeUsage: bool, first: bool, events: seq<Event>)
    ensures RoleCount(EncodeFrom(includeUsage, first, events))
         == if first && (exists e :: e in events && (e.TextDelta? || e.ToolStart?)) then 1 else 0
    decreases |events|
  {
    if events != [] {
      var e, rest := events[0], events[1..];
      var (first', chunks) := EncodeEvent(includeUsage, first, e);
      RoleAnnouncedOnce(includeUsage, first', rest);
      RoleCountConcat(chunks, EncodeFrom(includeUsage, first', rest));
      assert events == [e] + rest;
      assert RoleCount(chunks) == (if first && (e.TextDelta? || e.ToolStart?) then 1 else 0) by {
        assert chunks[1..] == [] || (|chunks[1..]| == 1 && chunks[1..][1..] == []);
      }
    }
  }
}
