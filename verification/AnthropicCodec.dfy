/**
 * Anthropic Messages streaming, both ways: the gateway's SSE encoder and the provider's
 * decoder of the same frames.
 *
 * Two results. Whatever events come in, the frames are well bracketed, checked by an
 * automaton that knows nothing of the encoder. And decoding the frames gives the events
 * back exactly when every tool delta follows its own start and starts are numbered in
 * order; for all other streams `Echo` says what comes back instead.
 */
module AnthropicCodec {
  import opened Wrappers
  import opened Streaming

  datatype Block = TextBlock | ToolBlock(id: string, name: string)

  datatype Delta = TextPart(text: string) | JsonPart(json: string)

  /** Server-sent frames, with the JSON payload already parsed. */
  datatype Frame =
    | MessageStart(model: string, id: string, usage: Usage)
    | BlockStart(index: int, block: Block)
    | BlockDelta(index: int, delta: Delta)
    | BlockStop(index: int)
    | MessageDelta(stopReason: StopReason, outputTokens: int)
    | MessageStop

  /** `input_tokens` and `output_tokens` of the opening frame are always zero. */
  const NO_USAGE := Usage(0, 0, None, None)

  function MapStopReason(r: StopReason): StopReason {
    match r
    case ToolUse => ToolUse
    case MaxTokens => MaxTokens
    case EndTurn => EndTurn
  }

  function OutputTokens(r: Response): int {
    match r.usage
    case Some(u) => u.outputTokens
    case None => 0
  }

  // ----- encoder ------------------------------------------------------------------------

  datatype OpenType = NoBlock | TextOpen | ToolOpen

  datatype EncState = EncState(started: bool, index: int, open: OpenType)

  const FRESH := EncState(false, -1, NoBlock)

  function Closing(s: EncState): seq<Frame> {
    if s.open == NoBlock then [] else [BlockStop(s.index)]
  }

  function Opening(model: string, id: string, s: EncState): seq<Frame> {
    if s.started then [] else [MessageStart(model, id, NO_USAGE)]
  }

  /** The frames of one event, after the opening frame if that is still due. */
  function Encoded(s: EncState, e: Event): (EncState, seq<Frame>) {
    match e
    case TextDelta(text) =>
      if s.open == TextOpen then (s, [BlockDelta(s.index, TextPart(text))])
      else (EncState(true, s.index + 1, TextOpen),
            Closing(s) + [BlockStart(s.index + 1, TextBlock), BlockDelta(s.index + 1, TextPart(text))])
    case ToolStart(_, id, name) =>
      (EncState(true, s.index + 1, ToolOpen), Closing(s) + [BlockStart(s.index + 1, ToolBlock(id, name))])
    case ToolDelta(_, args) =>
      (s, if s.open == ToolOpen then [BlockDelta(s.index, JsonPart(args))] else [])
    case Done(r) =>
      (s.(open := NoBlock), Closing(s) + [MessageDelta(MapStopReason(r.stopReason), OutputTokens(r)), MessageStop])
  }

  function EncodeEvent(model: string, id: string, s: EncState, e: Event): (EncState, seq<Frame>) {
    var (s', frames) := Encoded(s.(started := true), e);
    (s', Opening(model, id, s) + frames)
  }

  function EncodeFrom(model: string, id: string, s: EncState, events: seq<Event>): seq<Frame>
    decreases |events|
  {
    if events == [] then []
    else
      var (s', frames) := EncodeEvent(model, id, s, events[0]);
      frames + EncodeFrom(model, id, s', events[1..])
  }

  function Encode(model: string, id: string, events: seq<Event>): seq<Frame> {
    EncodeFrom(model, id, FRESH, events)
  }

  /** The encoder closure: three variables, updated event by event. */
  class Encoder {
    const model: string
    const id: string
    var started: bool
    var index: int
    var openType: OpenType

    function State(): EncState
      reads this
    {
      EncState(started, index, openType)
    }

    constructor (model: string, id: string)
      ensures State() == FRESH && this.model == model && this.id == id
    {
      this.model, this.id := model, id;
      started, index, openType := false, -1, NoBlock;
    }

    method CloseBlock() returns (out: seq<Frame>)
      modifies this`openType
      ensures out == Closing(old(State())) && openType == NoBlock
    {
      if openType == NoBlock {
        return [];
      }
      out := [BlockStop(index)];
      openType := NoBlock;
    }

    method ForEvent(event: Event) returns (out: seq<Frame>)
      modifies this
      ensures (State(), out) == EncodeEvent(model, id, old(State()), event)
    {
      var opening := [];
      if !started {
        started := true;
        opening := [MessageStart(model, id, NO_USAGE)];
      }
      var frames := [];
      match event {
        case TextDelta(text) =>
          if openType != TextOpen {
            frames := CloseBlock();
            index := index + 1;
            openType := TextOpen;
            frames := frames + [BlockStart(index, TextBlock), BlockDelta(index, TextPart(text))];
          } else {
            frames := [BlockDelta(index, TextPart(text))];
          }
        case ToolStart(_, callId, name) =>
          frames := CloseBlock();
          index := index + 1;
          openType := ToolOpen;
          frames := frames + [BlockStart(index, ToolBlock(callId, name))];
        case ToolDelta(_, args) =>
          if openType == ToolOpen {
            frames := [BlockDelta(index, JsonPart(args))];
          }
        case Done(r) =>
          frames := CloseBlock();
          frames := frames + [MessageDelta(MapStopReason(r.stopReason), OutputTokens(r)), MessageStop];
      }
      out := opening + frames;
    }
  }

  /** The gateway's loop: one encoder, every event's frames written in turn. */
  method EncodeStream(model: string, id: string, events: seq<Event>) returns (frames: seq<Frame>)
    ensures frames == Encode(model, id, events)
  {
    frames := [];
    var encoder := new Encoder(model, id);
    ghost var all := Encode(model, id, events);
    assert events[0..] == events;
    for i := 0 to |events|
      invariant encoder.model == model && encoder.id == id
      invariant all == frames + EncodeFrom(model, id, encoder.State(), events[i..])
    {
      ghost var rest := EncodeFrom(model, id, EncodeEvent(model, id, encoder.State(), events[i]).0, events[i + 1..]);
      EncodeSplit(model, id, encoder.State(), events[i], events[i + 1..]);
      assert events[i..] == [events[i]] + events[i + 1..];
      var out := encoder.ForEvent(events[i]);
      assert frames + (out + rest) == frames + out + rest;
      frames := frames + out;
    }
    assert frames + [] == frames;
  }

  lemma EncodeSplit(model: string, id: string, s: EncState, e: Event, rest: seq<Event>)
    ensures var (s', out) := EncodeEvent(model, id, s, e);
            EncodeFrom(model, id, s, [e] + rest) == out + EncodeFrom(model, id, s', rest)
  {
    assert ([e] + rest)[0] == e && ([e] + rest)[1..] == rest;
  }

  // ----- decoder ------------------------------------------------------------------------

  datatype DecState = DecState(
    content: Option<string>,
    stopReason: StopReason,
    usage: Option<Usage>,
    inputUsage: Option<Usage>,
    toolIndexByBlock: map<int, int>,
    buffers: map<int, Buffer>,
    nextToolIndex: int)

  const IDLE := DecState(None, EndTurn, None, None, map[], map[], 0)

  function DecodeFrame(d: DecState, f: Frame): (DecState, seq<Event>) {
    match f
    case MessageStart(_, _, usage) => (d.(inputUsage := Some(usage)), [])
    case BlockStart(index, ToolBlock(id, name)) =>
      var tool := d.nextToolIndex;
      (d.(toolIndexByBlock := d.toolIndexByBlock[index := tool],
          buffers := d.buffers[tool := Buffer(id, name, "")],
          nextToolIndex := tool + 1),
       [ToolStart(tool, id, name)])
    case BlockDelta(_, TextPart(text)) =>
      (d.(content := Some(d.content.GetOr("") + text)), [TextDelta(text)])
    case BlockDelta(index, JsonPart(json)) =>
      if index !in d.toolIndexByBlock then (d, [])
      else
        var tool := d.toolIndexByBlock[index];
        (if tool in d.buffers
         then d.(buffers := d.buffers[tool := d.buffers[tool].(args := d.buffers[tool].args + json)])
         else d,
         [ToolDelta(tool, json)])
    case MessageDelta(stopReason, outputTokens) =>
      (d.(stopReason := if stopReason == EndTurn then d.stopReason else stopReason,
          usage := Some(d.inputUsage.GetOr(NO_USAGE).(outputTokens := outputTokens))),
       [])
    case _ => (d, [])
  }

  function DecodeFrom(d: DecState, frames: seq<Frame>): (DecState, seq<Event>)
    decreases |frames|
  {
    if frames == [] then (d, [])
    else
      var (d1, out) := DecodeFrame(d, frames[0]);
      var (d2, rest) := DecodeFrom(d1, frames[1..]);
      (d2, out + rest)
  }

  function Decode(j: Json, frames: seq<Frame>): seq<Event> {
    var (d, out) := DecodeFrom(IDLE, frames);
    out + [Done(Response(d.content, ToolCalls(j, d.buffers), d.stopReason, d.usage))]
  }

  method DecodeStream(j: Json, frames: seq<Frame>) returns (emitted: seq<Event>)
    ensures emitted == Decode(j, frames)
  {
    emitted := [];
    var d := IDLE;
    for i := 0 to |frames|
      invariant (d, emitted) == DecodeFrom(IDLE, frames[..i])
    {
      DecodeSnoc(IDLE, frames[..i], frames[i]);
      assert frames[..i + 1] == frames[..i] + [frames[i]];
      var out;
      d, out := StepFrame(d, frames[i]);
      emitted := emitted + out;
    }
    assert frames[..|frames|] == frames;
    emitted := emitted + [Done(Response(d.content, ToolCalls(j, d.buffers), d.stopReason, d.usage))];
  }

  /** The body of the decoder's loop. */
  method StepFrame(d0: DecState, f: Frame) returns (d: DecState, emitted: seq<Event>)
    ensures (d, emitted) == DecodeFrame(d0, f)
  {
    d, emitted := d0, [];
    if f.MessageStart? {
      d := d.(inputUsage := Some(f.usage));
    } else if f.BlockStart? {
      if f.block.ToolBlock? {
        var index := d.nextToolIndex;
        d := d.(nextToolIndex := index + 1);
        d := d.(toolIndexByBlock := d.toolIndexByBlock[f.index := index]);
        d := d.(buffers := d.buffers[index := Buffer(f.block.id, f.block.name, "")]);
        emitted := [ToolStart(index, f.block.id, f.block.name)];
      }
    } else if f.BlockDelta? {
      if f.delta.TextPart? {
        d := d.(content := Some(d.content.GetOr("") + f.delta.text));
        emitted := [TextDelta(f.delta.text)];
      } else if f.index in d.toolIndexByBlock {
        var index := d.toolIndexByBlock[f.index];
        if index in d.buffers {
          var buf := d.buffers[index];
          d := d.(buffers := d.buffers[index := buf.(args := buf.args + f.delta.json)]);
        }
        emitted := [ToolDelta(index, f.delta.json)];
      }
    } else if f.MessageDelta? {
      if f.stopReason == ToolUse {
        d := d.(stopReason := ToolUse);
      } else if f.stopReason == MaxTokens {
        d := d.(stopReason := MaxTokens);
      }
      d := d.(usage := Some(d.inputUsage.GetOr(NO_USAGE).(outputTokens := f.outputTokens)));
    }
  }

  lemma {:induction false} DecodeConcat(d: DecState, a: seq<Frame>, b: seq<Frame>)
    ensures DecodeFrom(d, a + b)
         == var (d1, x) := DecodeFrom(d, a); var (d2, y) := DecodeFrom(d1, b); (d2, x + y)
    decreases |a|
  {
    if a == [] {
      assert a + b == b;
      var (d2, y) := DecodeFrom(d, b);
      assert [] + y == y;
    } else {
      var (d1, out) := DecodeFrame(d, a[0]);
      DecodeConcat(d1, a[1..], b);
      assert (a + b)[0] == a[0] && (a + b)[1..] == a[1..] + b;
      var (d2, x) := DecodeFrom(d1, a[1..]);
      var (d3, y) := DecodeFrom(d2, b);
      assert out + (x + y) == (out + x) + y;
    }
  }

  lemma DecodeSnoc(d: DecState, a: seq<Frame>, f: Frame)
    ensures DecodeFrom(d, a + [f])
         == var (d1, x) := DecodeFrom(d, a); var (d2, y) := DecodeFrame(d1, f); (d2, x + y)
  {
    DecodeConcat(d, a, [f]);
    DecodeOne(DecodeFrom(d, a).0, f);
  }

  // ----- bracketing -----------------------------------------------------------------------

  /** A reader's view of the protocol: what has been opened, and what may come next. */
  datatype Reader =
    | AwaitStart
    | Between(next: int)
    | Inside(block: int, tool: bool)
    | AwaitStop
    | Ended
    | Malformed

  function Read(r: Reader, f: Frame): Reader {
    match (r, f)
    case (AwaitStart, MessageStart(_, _, _)) => Between(0)
    case (Between(n), BlockStart(i, b)) => if i == n then Inside(i, b.ToolBlock?) else Malformed
    case (Between(_), MessageDelta(_, _)) => AwaitStop
    case (Inside(n, tool), BlockDelta(i, d)) => if i == n && tool == d.JsonPart? then r else Malformed
    case (Inside(n, _), BlockStop(i)) => if i == n then Between(n + 1) else Malformed
    case (AwaitStop, MessageStop) => Ended
    case _ => Malformed
  }

  function ReadAll(r: Reader, frames: seq<Frame>): Reader
    decreases |frames|
  {
    if frames == [] then r else ReadAll(Read(r, frames[0]), frames[1..])
  }

  lemma {:induction false} ReadConcat(r: Reader, a: seq<Frame>, b: seq<Frame>)
    ensures ReadAll(r, a + b) == ReadAll(ReadAll(r, a), b)
    decreases |a|
  {
    if a == [] {
      assert a + b == b;
    } else {
      ReadConcat(Read(r, a[0]), a[1..], b);
      assert (a + b)[0] == a[0] && (a + b)[1..] == a[1..] + b;
    }
  }

  function ReaderOf(s: EncState): Reader {
    if !s.started then AwaitStart
    else if s.open == NoBlock then Between(s.index + 1)
    else Inside(s.index, s.open == ToolOpen)
  }

  /** Between events the reader always knows exactly what the encoder has open. */
  lemma EventKeepsBrackets(model: string, id: string, s: EncState, e: Event)
    requires !s.started ==> s == FRESH
    ensures var (s', frames) := EncodeEvent(model, id, s, e);
            && s'.started
            && ReadAll(ReaderOf(s), frames) == if e.Done? then Ended else ReaderOf(s')
  {
    var s1 := s.(started := true);
    var (s', frames) := Encoded(s1, e);
    ReadConcat(ReaderOf(s), Opening(model, id, s), frames);
    assert ReadAll(ReaderOf(s), Opening(model, id, s)) == ReaderOf(s1);
    match e {
      case TextDelta(text) =>
        if s.open != TextOpen {
          var block := [BlockStart(s.index + 1, TextBlock), BlockDelta(s.index + 1, TextPart(text))];
          assert block[1..] == [BlockDelta(s.index + 1, TextPart(text))] && block[1..][1..] == [];
          assert ReadAll(Between(s.index + 1), block) == ReadAll(Inside(s.index + 1, false), block[1..]) == Inside(s.index + 1, false);
          ReadConcat(ReaderOf(s1), Closing(s1), block);
        }
      case ToolStart(_, callId, name) =>
        ReadConcat(ReaderOf(s1), Closing(s1), [BlockStart(s.index + 1, ToolBlock(callId, name))]);
      case ToolDelta(_, _) =>
      case Done(r) =>
        var ending := [MessageDelta(MapStopReason(r.stopReason), OutputTokens(r)), MessageStop];
        assert ending[1..] == [MessageStop] && ending[1..][1..] == [];
        assert ReadAll(Between(s.index + 1), ending) == ReadAll(AwaitStop, [MessageStop]) == Ended;
        ReadConcat(ReaderOf(s1), Closing(s1), [MessageDelta(MapStopReason(r.stopReason), OutputTokens(r)), MessageStop]);
    }
  }

  predicate NoDone(events: seq<Event>) {
    forall e :: e in events ==> !e.Done?
  }

  lemma {:induction false} EncodedFromIsBracketed(model: string, id: string, s: EncState, body: seq<Event>, r: Response)
    requires !s.started ==> s == FRESH
    requires NoDone(body)
    ensures ReadAll(ReaderOf(s), EncodeFrom(model, id, s, body + [Done(r)])) == Ended
    decreases |body|
  {
    if body == [] {
      var (s', frames) := EncodeEvent(model, id, s, Done(r));
      EventKeepsBrackets(model, id, s, Done(r));
      assert body + [Done(r)] == [Done(r)];
      assert EncodeFrom(model, id, s, [Done(r)]) == frames + [];
      assert frames + [] == frames;
    } else {
      var (s', frames) := EncodeEvent(model, id, s, body[0]);
      EventKeepsBrackets(model, id, s, body[0]);
      EncodedFromIsBracketed(model, id, s', body[1..], r);
      assert (body + [Done(r)])[0] == body[0] && (body + [Done(r)])[1..] == body[1..] + [Done(r)];
      ReadConcat(ReaderOf(s), frames, EncodeFrom(model, id, s', body[1..] + [Done(r)]));
    }
  }

  /**
   * Whatever the events of a response, valid or not, its frames form one well bracketed
   * message: one opening frame, blocks numbered 0, 1, 2, ..., every delta inside the open
   * block of its own kind and number, nothing open at the end.
   */
  lemma FramesAreBracketed(model: string, id: string, body: seq<Event>, r: Response)
    requires NoDone(body)
    ensures ReadAll(AwaitStart, Encode(model, id, body + [Done(r)])) == Ended
  {
    EncodedFromIsBracketed(model, id, FRESH, body, r);
  }

  // ----- decoding the encoding ----------------------------------------------------------------

  /**
   * What survives the wire: text as it is, starts renumbered from `k` on, and a tool delta
   * only while the latest start is still open, under that start's new number.
   */
  function Echo(k: int, inTool: bool, events: seq<Event>): seq<Event>
    decreases |events|
  {
    if events == [] then []
    else match events[0]
      case TextDelta(text) => [TextDelta(text)] + Echo(k, false, events[1..])
      case ToolStart(_, id, name) => [ToolStart(k, id, name)] + Echo(k + 1, true, events[1..])
      case ToolDelta(_, args) => (if inTool then [ToolDelta(k - 1, args)] else []) + Echo(k, inTool, events[1..])
      case Done(_) => Echo(k, false, events[1..])
  }

  /** Starts are numbered k, k + 1, ... and every tool delta belongs to the start that is still open. */
  predicate InOrder(k: int, inTool: bool, events: seq<Event>)
    decreases |events|
  {
    events == [] ||
    match events[0]
    case TextDelta(_) => InOrder(k, false, events[1..])
    case ToolStart(index, _, _) => index == k && InOrder(k + 1, true, events[1..])
    case ToolDelta(index, _) => inTool && index == k - 1 && InOrder(k, inTool, events[1..])
    case Done(_) => false
  }

  /** The decoder has followed the encoder: it knows the open tool block, and no later block. */
  predicate Follows(s: EncState, d: DecState) {
    && (s.open == ToolOpen ==> s.index in d.toolIndexByBlock && d.toolIndexByBlock[s.index] == d.nextToolIndex - 1)
    && (s.open == ToolOpen ==> d.nextToolIndex - 1 in d.buffers)
  }

  lemma DecodeTwo(d: DecState, a: seq<Frame>, b: seq<Frame>)
    ensures DecodeFrom(d, a).1 == [] ==> DecodeFrom(d, a + b) == DecodeFrom(DecodeFrom(d, a).0, b)
  {
    DecodeConcat(d, a, b);
    var (d1, x) := DecodeFrom(d, a);
    var (d2, y) := DecodeFrom(d1, b);
    assert x == [] ==> x + y == y;
  }

  lemma DecodeOne(d: DecState, f: Frame)
    ensures DecodeFrom(d, [f]) == DecodeFrame(d, f)
  {
    var (d1, out) := DecodeFrame(d, f);
    assert [f][1..] == [];
    assert out + [] == out;
  }

  /** Closing frames and the opening frame tell the decoder nothing but the input usage. */
  lemma Preamble(model: string, id: string, s: EncState, d: DecState)
    ensures DecodeFrom(d, Opening(model, id, s)) == (if s.started then d else d.(inputUsage := Some(NO_USAGE)), [])
    ensures DecodeFrom(d, Closing(s)) == (d, [])
  {
    DecodeOne(d, MessageStart(model, id, NO_USAGE));
    DecodeOne(d, BlockStop(s.index));
  }

  /** One event goes over the wire: the two sides stay in step, and the decoder assembles what it emits. */
  predicate Relays(s: EncState, d: DecState, e: Event) {
    var (s', frames) := Encoded(s, e);
    var (d', out) := DecodeFrom(d, frames);
    && Follows(s', d') && s'.started
    && d'.inputUsage == d.inputUsage && d'.stopReason == d.stopReason && d'.usage == d.usage
    && out == Echo(d.nextToolIndex, s.open == ToolOpen, [e])
    && d'.nextToolIndex == d.nextToolIndex + (if e.ToolStart? then 1 else 0)
    && (s'.open == ToolOpen) == (if e.ToolDelta? then s.open == ToolOpen else e.ToolStart?)
    && Assembly(d'.content, d'.buffers) == AbsorbAll(Assembly(d.content, d.buffers), out)
  }

  lemma RelaysText(s: EncState, d: DecState, text: string)
    requires Follows(s, d) && s.started
    ensures Relays(s, d, TextDelta(text))
  {
    var (s', frames) := Encoded(s, TextDelta(text));
    var start, part := BlockStart(s'.index, TextBlock), BlockDelta(s'.index, TextPart(text));
    Preamble("", "", s, d);
    DecodeOne(d, part);
    if s.open != TextOpen {
      DecodeTwo(d, Closing(s), [start, part]);
      DecodeOne(d, start);
      DecodeTwo(d, [start], [part]);
      assert [start, part] == [start] + [part];
    }
    assert [TextDelta(text)][1..] == [];
    AbsorbOne(Assembly(d.content, d.buffers), TextDelta(text));
  }

  lemma RelaysStart(s: EncState, d: DecState, index: int, id: string, name: string)
    requires Follows(s, d) && s.started
    ensures Relays(s, d, ToolStart(index, id, name))
  {
    var start := BlockStart(s.index + 1, ToolBlock(id, name));
    Preamble("", "", s, d);
    DecodeTwo(d, Closing(s), [start]);
    DecodeOne(d, start);
    assert [ToolStart(index, id, name)][1..] == [];
    AbsorbOne(Assembly(d.content, d.buffers), ToolStart(d.nextToolIndex, id, name));
  }

  lemma RelaysDelta(s: EncState, d: DecState, index: int, args: string)
    requires Follows(s, d) && s.started
    ensures Relays(s, d, ToolDelta(index, args))
  {
    DecodeOne(d, BlockDelta(s.index, JsonPart(args)));
    assert [ToolDelta(index, args)][1..] == [];
    AbsorbOne(Assembly(d.content, d.buffers), ToolDelta(d.nextToolIndex - 1, args));
  }

  lemma EventIsRelayed(s: EncState, d: DecState, e: Event)
    requires Follows(s, d) && s.started && !e.Done?
    ensures Relays(s, d, e)
  {
    match e {
      case TextDelta(text) => RelaysText(s, d, text);
      case ToolStart(index, id, name) => RelaysStart(s, d, index, id, name);
      case ToolDelta(index, args) => RelaysDelta(s, d, index, args);
    }
  }

  lemma AbsorbOne(a: Assembly, e: Event)
    ensures AbsorbAll(a, [e]) == Absorb(a, e)
  {
    assert [e][1..] == [];
  }

  lemma EchoCons(k: int, inTool: bool, e: Event, rest: seq<Event>)
    ensures Echo(k, inTool, [e] + rest)
         == Echo(k, inTool, [e])
          + Echo(if e.ToolStart? then k + 1 else k, if e.ToolDelta? then inTool else e.ToolStart?, rest)
  {
    assert ([e] + rest)[0] == e && ([e] + rest)[1..] == rest;
    assert [e][1..] == [];
  }

  lemma DecodeEnding(s: EncState, d: DecState, model: string, id: string, r: Response)
    requires s.started && d.stopReason == EndTurn && d.inputUsage == Some(NO_USAGE)
    ensures DecodeFrom(d, EncodeFrom(model, id, s, [Done(r)]))
         == (d.(stopReason := r.stopReason, usage := Some(Usage(0, OutputTokens(r), None, None))), [])
  {
    var last := MessageDelta(MapStopReason(r.stopReason), OutputTokens(r));
    var d' := DecodeFrame(d, last).0;
    assert EncodeFrom(model, id, s, [Done(r)]) == Closing(s) + [last, MessageStop] by {
      assert [Done(r)][1..] == [];
      assert [] + (Closing(s) + [last, MessageStop]) + [] == Closing(s) + [last, MessageStop];
    }
    Preamble(model, id, s, d);
    DecodeTwo(d, Closing(s), [last, MessageStop]);
    DecodeOne(d, last);
    DecodeTwo(d, [last], [MessageStop]);
    DecodeOne(d', MessageStop);
    assert [last, MessageStop] == [last] + [MessageStop];
  }

  lemma EncodeCons(model: string, id: string, s: EncState, e: Event, rest: seq<Event>)
    requires s.started
    ensures EncodeFrom(model, id, s, [e] + rest) == Encoded(s, e).1 + EncodeFrom(model, id, Encoded(s, e).0, rest)
  {
    assert ([e] + rest)[0] == e && ([e] + rest)[1..] == rest;
    assert s.(started := true) == s;
    assert [] + Encoded(s, e).1 == Encoded(s, e).1;
  }

  /** Decoding `frames` yields the echo of `events`, and the decoder assembles what it yields. */
  predicate Delivers(d: DecState, frames: seq<Frame>, inTool: bool, events: seq<Event>) {
    var (d', out) := DecodeFrom(d, frames);
    && out == Echo(d.nextToolIndex, inTool, events)
    && Assembly(d'.content, d'.buffers) == AbsorbAll(Assembly(d.content, d.buffers), out)
  }

  lemma DeliversConcat(d: DecState, a: seq<Frame>, b: seq<Frame>, inTool: bool, e: Event, rest: seq<Event>)
    requires Delivers(d, a, inTool, [e])
    requires DecodeFrom(d, a).0.nextToolIndex == d.nextToolIndex + (if e.ToolStart? then 1 else 0)
    requires Delivers(DecodeFrom(d, a).0, b, if e.ToolDelta? then inTool else e.ToolStart?, rest)
    ensures Delivers(d, a + b, inTool, [e] + rest)
    ensures DecodeFrom(d, a + b).0 == DecodeFrom(DecodeFrom(d, a).0, b).0
  {
    var (d1, out) := DecodeFrom(d, a);
    var (d2, out') := DecodeFrom(d1, b);
    DecodeConcat(d, a, b);
    EchoCons(d.nextToolIndex, inTool, e, rest);
    AbsorbAllConcat(Assembly(d.content, d.buffers), out, out');
  }

  /** The invariant of the whole exchange, from any point where decoder and encoder are in step. */
  lemma {:induction false} DecodeEncodedFrom(s: EncState, d: DecState, model: string, id: string, body: seq<Event>, r: Response)
    requires Follows(s, d) && NoDone(body) && s.started
    requires d.stopReason == EndTurn && d.inputUsage == Some(NO_USAGE)
    ensures var frames := EncodeFrom(model, id, s, body + [Done(r)]);
            var d' := DecodeFrom(d, frames).0;
            && Delivers(d, frames, s.open == ToolOpen, body)
            && d'.stopReason == r.stopReason
            && d'.usage == Some(Usage(0, OutputTokens(r), None, None))
    decreases |body|
  {
    if body == [] {
      assert body + [Done(r)] == [Done(r)];
      DecodeEnding(s, d, model, id, r);
    } else {
      var e, rest := body[0], body[1..];
      var (s', frames) := Encoded(s, e);
      var d' := DecodeFrom(d, frames).0;
      EncodeCons(model, id, s, e, rest + [Done(r)]);
      assert body + [Done(r)] == [e] + (rest + [Done(r)]);
      EventIsRelayed(s, d, e);
      DecodeEncodedFrom(s', d', model, id, rest, r);
      DeliversConcat(d, frames, EncodeFrom(model, id, s', rest + [Done(r)]), s.open == ToolOpen, e, rest);
      assert body == [e] + rest;
    }
  }

  /** The response the decoder reports: what a consumer assembles from the echoed events, with the reason and output count that were sent. */
  function EchoedResponse(j: Json, body: seq<Event>, r: Response): Response {
    var a := AbsorbAll(NOTHING, Echo(0, false, body));
    Response(a.content, ToolCalls(j, a.buffers), r.stopReason, Some(Usage(0, OutputTokens(r), None, None)))
  }

  /** What decoding an encoded response gives, for every event sequence. */
  lemma DecodeOfEncode(j: Json, model: string, id: string, body: seq<Event>, r: Response)
    requires NoDone(body)
    ensures Decode(j, Encode(model, id, body + [Done(r)])) == Echo(0, false, body) + [Done(EchoedResponse(j, body, r))]
  {
    var events := body + [Done(r)];
    var (s1, frames) := EncodeEvent(model, id, FRESH, events[0]);
    var running := FRESH.(started := true);
    assert Encode(model, id, events) == Opening(model, id, FRESH) + EncodeFrom(model, id, running, events) by {
      var (s2, direct) := Encoded(running, events[0]);
      assert Opening(model, id, running) + direct == direct;
      var tail := EncodeFrom(model, id, s2, events[1..]);
      assert (Opening(model, id, FRESH) + direct) + tail == Opening(model, id, FRESH) + (direct + tail);
    }
    Preamble(model, id, FRESH, IDLE);
    DecodeTwo(IDLE, Opening(model, id, FRESH), EncodeFrom(model, id, running, events));
    DecodeEncodedFrom(running, IDLE.(inputUsage := Some(NO_USAGE)), model, id, body, r);
  }

  lemma {:induction false} EchoShorter(k: int, inTool: bool, events: seq<Event>)
    ensures |Echo(k, inTool, events)| <= |events|
    decreases |events|
  {
    if events != [] {
      EchoShorter(if events[0].ToolStart? then k + 1 else k, if events[0].ToolDelta? then inTool else events[0].ToolStart?, events[1..]);
    }
  }

  lemma {:induction false} EchoIsIdentityInOrder(k: int, inTool: bool, events: seq<Event>)
    ensures Echo(k, inTool, events) == events <==> InOrder(k, inTool, events)
    decreases |events|
  {
    if events != [] {
      var e, rest := events[0], events[1..];
      var k', inTool' := if e.ToolStart? then k + 1 else k, if e.ToolDelta? then inTool else e.ToolStart?;
      EchoIsIdentityInOrder(k', inTool', rest);
      EchoShorter(k', inTool', rest);
      assert events == [e] + rest;
      EchoCons(k, inTool, e, rest);
      var head := Echo(k, inTool, [e]);
      assert [e][1..] == [];
      if head != [] && head + Echo(k', inTool', rest) == events {
        assert (head + Echo(k', inTool', rest))[1..] == Echo(k', inTool', rest);
      }
    }
  }

  /** The round trip returns the events if and only if the stream was in order. */
  lemma RoundTripExactlyInOrder(j: Json, model: string, id: string, body: seq<Event>, r: Response)
    requires NoDone(body)
    ensures var back := Decode(j, Encode(model, id, body + [Done(r)]));
            back[..|back| - 1] == body <==> InOrder(0, false, body)
  {
    DecodeOfEncode(j, model, id, body, r);
    EchoIsIdentityInOrder(0, false, body);
    var back := Decode(j, Encode(model, id, body + [Done(r)]));
    assert back[..|back| - 1] == Echo(0, false, body);
  }

  /** For an ordered stream of a faithful provider everything comes back but the input usage. */
  lemma RoundTripWithResponse(j: Json, model: string, id: string, body: seq<Event>, r: Response)
    requires NoDone(body) && InOrder(0, false, body)
    requires r.content == AbsorbAll(NOTHING, body).content
    requires r.toolCalls == ToolCalls(j, AbsorbAll(NOTHING, body).buffers)
    ensures Decode(j, Encode(model, id, body + [Done(r)]))
         == body + [Done(r.(usage := Some(Usage(0, match r.usage case Some(u) => u.outputTokens case None => 0, None, None))))]
  {
    DecodeOfEncode(j, model, id, body, r);
    EchoIsIdentityInOrder(0, false, body);
  }
}
