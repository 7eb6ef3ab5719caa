/**
 * What the OpenAI decoder makes of any chunks, read off the chunks themselves.
 *
 * An upstream may split a tool call's header and arguments over any number of fragments, mix
 * the fragments of several calls, repeat ids and names, and send counts with any chunk. Each
 * part of the result is stated here about the chunks alone, without the decoder's state.
 */
module OpenAIChunks {
  import opened Wrappers
  import opened Sequences
  import opened Streaming
  import opened OpenAICodec

  /** All tool fragments, in order. */
  function PartsIn(chunks: seq<Chunk>): seq<ToolPart> {
    if chunks == [] then []
    else PartsIn(chunks[..|chunks| - 1]) + if chunks[|chunks| - 1].Choice? then chunks[|chunks| - 1].tools else []
  }

  /** All text, in order. */
  function TextIn(chunks: seq<Chunk>): string {
    if chunks == [] then ""
    else TextIn(chunks[..|chunks| - 1]) + if chunks[|chunks| - 1].Choice? then chunks[|chunks| - 1].content else ""
  }

  /** The last id that a call was given, if any. */
  function IdOf(parts: seq<ToolPart>, index: int): string {
    if parts == [] then ""
    else
      var last := parts[|parts| - 1];
      if last.index == index && last.id != "" then last.id else IdOf(parts[..|parts| - 1], index)
  }

  function NameOf(parts: seq<ToolPart>, index: int): string {
    if parts == [] then ""
    else
      var last := parts[|parts| - 1];
      if last.index == index && last.name != "" then last.name else NameOf(parts[..|parts| - 1], index)
  }

  /** All arguments of a call, in order. */
  function ArgsOf(parts: seq<ToolPart>, index: int): string {
    if parts == [] then ""
    else
      var last := parts[|parts| - 1];
      ArgsOf(parts[..|parts| - 1], index) + if last.index == index then last.arguments else ""
  }

  ghost predicate Seen(parts: seq<ToolPart>, index: int) {
    exists i :: 0 <= i < |parts| && parts[i].index == index
  }

  /** Both id and name have been told. */
  predicate Known(parts: seq<ToolPart>, index: int) {
    IdOf(parts, index) != "" && NameOf(parts, index) != ""
  }

  /** A call starts with the fragment that completes its header; arguments are passed on. */
  function PartEvents(before: seq<ToolPart>, part: ToolPart): seq<Event> {
    var now := before + [part];
    (if !Known(before, part.index) && Known(now, part.index)
     then [ToolStart(part.index, IdOf(now, part.index), NameOf(now, part.index))] else [])
    + (if part.arguments != "" then [ToolDelta(part.index, part.arguments)] else [])
  }

  function PartsEvents(before: seq<ToolPart>, parts: seq<ToolPart>): seq<Event> {
    if parts == [] then []
    else
      var init := parts[..|parts| - 1];
      PartsEvents(before, init) + PartEvents(before + init, parts[|parts| - 1])
  }

  function EventsIn(chunks: seq<Chunk>): seq<Event> {
    if chunks == [] then []
    else
      var init, last := chunks[..|chunks| - 1], chunks[|chunks| - 1];
      EventsIn(init)
      + (if last.Choice? && last.content != "" then [TextDelta(last.content)] else [])
      + (if last.Choice? then PartsEvents(PartsIn(init), last.tools) else [])
  }

  // ----- the decoder says just that ------------------------------------------------------------

  ghost predicate CallOk(buffers: map<int, Buffer>, parts: seq<ToolPart>, index: int) {
    && (index in buffers <==> Seen(parts, index))
    && (index in buffers ==> buffers[index] == Buffer(IdOf(parts, index), NameOf(parts, index), ArgsOf(parts, index)))
  }

  ghost predicate CallsOk(buffers: map<int, Buffer>, parts: seq<ToolPart>) {
    forall index :: CallOk(buffers, parts, index)
  }

  ghost predicate StartedOk(started: set<int>, parts: seq<ToolPart>) {
    forall index :: index in started <==> Known(parts, index)
  }

  lemma SeenLonger(parts: seq<ToolPart>, part: ToolPart, index: int)
    ensures Seen(parts + [part], index) <==> Seen(parts, index) || part.index == index
  {
    var all := parts + [part];
    assert all[|parts|] == part && forall i :: 0 <= i < |parts| ==> all[i] == parts[i];
    if Seen(parts, index) {
      var i :| 0 <= i < |parts| && parts[i].index == index;
      assert all[i].index == index;
    }
  }

  lemma {:induction false} UnseenIsEmpty(parts: seq<ToolPart>, index: int)
    requires !Seen(parts, index)
    ensures IdOf(parts, index) == "" && NameOf(parts, index) == "" && ArgsOf(parts, index) == ""
  {
    if parts != [] {
      var init, last := parts[..|parts| - 1], parts[|parts| - 1];
      assert parts == init + [last];
      SeenLonger(init, last, index);
      UnseenIsEmpty(init, index);
    }
  }

  lemma CallStep(d: DecState, parts: seq<ToolPart>, part: ToolPart, index: int)
    requires CallsOk(d.buffers, parts)
    ensures CallOk(DecodeTool(d, part).0.buffers, parts + [part], index)
  {
    var all := parts + [part];
    assert all[..|parts|] == parts && all[|parts|] == part;
    assert CallOk(d.buffers, parts, index);
    SeenLonger(parts, part, index);
    if !Seen(parts, index) {
      UnseenIsEmpty(parts, index);
    }
    assert ArgsOf(parts, index) + "" == ArgsOf(parts, index);
  }

  lemma PartStep(d: DecState, parts: seq<ToolPart>, part: ToolPart)
    requires CallsOk(d.buffers, parts) && StartedOk(d.started, parts)
    ensures var (d', out) := DecodeTool(d, part);
            CallsOk(d'.buffers, parts + [part]) && StartedOk(d'.started, parts + [part]) && out == PartEvents(parts, part)
  {
    var all := parts + [part];
    assert all[..|parts|] == parts && all[|parts|] == part;
    forall index ensures CallOk(DecodeTool(d, part).0.buffers, all, index) {
      CallStep(d, parts, part, index);
    }
    assert CallOk(d.buffers, parts, part.index);
    if !Seen(parts, part.index) {
      UnseenIsEmpty(parts, part.index);
    }
  }

  lemma {:induction false} ToolsStep(d: DecState, before: seq<ToolPart>, parts: seq<ToolPart>)
    requires CallsOk(d.buffers, before) && StartedOk(d.started, before)
    ensures var (d', out) := DecodeTools(d, parts);
            && CallsOk(d'.buffers, before + parts) && StartedOk(d'.started, before + parts) && out == PartsEvents(before, parts)
            && d'.content == d.content && d'.stopReason == d.stopReason && d'.usage == d.usage
  {
    if parts == [] {
      assert before + [] == before;
    } else {
      var init, last := parts[..|parts| - 1], parts[|parts| - 1];
      assert parts == init + [last] && before + parts == before + init + [last];
      ToolsStep(d, before, init);
      DecodeToolsSnoc(d, init, last);
      PartStep(DecodeTools(d, init).0, before + init, last);
    }
  }

  lemma DecodeSnoc(d: DecState, chunks: seq<Chunk>, c: Chunk)
    ensures DecodeFrom(d, chunks + [c])
         == var (d1, x) := DecodeFrom(d, chunks); var (d2, y) := DecodeChunk(d1, c); (d2, x + y)
  {
    DecodeConcat(d, chunks, [c]);
    DecodeOne(DecodeFrom(d, chunks).0, c);
  }

  /** The decoder follows the fragments of one more chunk, and yields what the chunk adds. */
  ghost predicate Follows(d: DecState, init: seq<Chunk>, c: Chunk) {
    var (d', out) := DecodeChunk(d, c);
    && CallsOk(d'.buffers, PartsIn(init + [c])) && StartedOk(d'.started, PartsIn(init + [c]))
    && EventsIn(init + [c]) == EventsIn(init) + out
  }

  lemma OneMore(init: seq<Chunk>, c: Chunk)
    ensures PartsIn(init + [c]) == PartsIn(init) + if c.Choice? then c.tools else []
    ensures EventsIn(init + [c])
         == EventsIn(init) + ((if c.Choice? && c.content != "" then [TextDelta(c.content)] else [])
                              + (if c.Choice? then PartsEvents(PartsIn(init), c.tools) else []))
  {
    assert (init + [c])[..|init|] == init;
  }

  lemma ChoiceStep(d: DecState, init: seq<Chunk>, c: Chunk)
    requires CallsOk(d.buffers, PartsIn(init)) && StartedOk(d.started, PartsIn(init)) && c.Choice?
    ensures Follows(d, init, c)
  {
    OneMore(init, c);
    ToolsStep(if c.content == "" then d else d.(content := Some(d.content.GetOr("") + c.content)), PartsIn(init), c.tools);
  }

  lemma ChunkStep(d: DecState, init: seq<Chunk>, c: Chunk)
    requires CallsOk(d.buffers, PartsIn(init)) && StartedOk(d.started, PartsIn(init))
    ensures Follows(d, init, c)
  {
    if c.Choice? {
      ChoiceStep(d, init, c);
    } else {
      OneMore(init, c);
      assert PartsIn(init) + [] == PartsIn(init);
    }
  }

  lemma {:induction false} DecodesTools(chunks: seq<Chunk>)
    ensures var (d, out) := DecodeFrom(IDLE, chunks);
            CallsOk(d.buffers, PartsIn(chunks)) && StartedOk(d.started, PartsIn(chunks)) && out == EventsIn(chunks)
  {
    if chunks == [] {
      assert forall index :: !Seen([], index);
    } else {
      var init, c := chunks[..|chunks| - 1], chunks[|chunks| - 1];
      assert chunks == init + [c];
      DecodesTools(init);
      DecodeSnoc(IDLE, init, c);
      ChunkStep(DecodeFrom(IDLE, init).0, init, c);
    }
  }

  // ----- text, counts and stop reason, by the places of the chunks that decide them ------------

  function Texts(): Chunk -> bool {
    (c: Chunk) => c.Choice? && c.content != ""
  }

  function Counting(): Chunk -> bool {
    (c: Chunk) => c.usage.Some?
  }

  /** A chunk that finishes otherwise than normally. */
  function Stopping(): Chunk -> bool {
    (c: Chunk) => c.Choice? && c.finish in {ToolUseCalls, Length}
  }

  ghost predicate ContentOk(chunks: seq<Chunk>, content: Option<string>) {
    content == if Has(chunks, Texts()) then Some(TextIn(chunks)) else None
  }

  /** The uncached part of the prompt, never below zero, the completion, and the cached part if it was told. */
  predicate UsageOf(counts: TokenCounts, usage: Usage) {
    && usage.outputTokens == counts.completion && usage.cacheRead == counts.cached && usage.cacheWrite == None
    && usage.inputTokens >= 0
    && var cached := match counts.cached case Some(n) => n case None => 0;
       if cached <= counts.prompt then usage.inputTokens + cached == counts.prompt else usage.inputTokens == 0
  }

  ghost predicate UsageOk(chunks: seq<Chunk>, usage: Option<Usage>) {
    && (!Has(chunks, Counting()) ==> usage == None)
    && (forall k :: LastOf(chunks, Counting(), k) ==> usage.Some? && UsageOf(chunks[k].usage.value, usage.value))
  }

  ghost predicate StopOk(chunks: seq<Chunk>, stopReason: StopReason) {
    && (!Has(chunks, Stopping()) ==> stopReason == EndTurn)
    && (forall k :: LastOf(chunks, Stopping(), k) ==>
          stopReason == if chunks[k].finish == ToolUseCalls then ToolUse else MaxTokens)
  }

  /** Fragments touch neither text nor counts nor stop reason. */
  lemma ToolsKeepTheRest(d: DecState, tools: seq<ToolPart>)
    ensures var d' := DecodeTools(d, tools).0; d'.content == d.content && d'.stopReason == d.stopReason && d'.usage == d.usage
    decreases |tools|
  {
    if tools != [] {
      ToolsKeepTheRest(DecodeTool(d, tools[0]).0, tools[1..]);
    }
  }

  lemma ChunkKeepsTheRest(d: DecState, c: Chunk)
    ensures var d' := DecodeChunk(d, c).0;
            && d'.content == (if Texts()(c) then Some(d.content.GetOr("") + c.content) else d.content)
            && d'.usage == (if c.usage.Some? then Some(ParsedUsage(c.usage.value)) else d.usage)
            && d'.stopReason == (if Stopping()(c) then (if c.finish == ToolUseCalls then ToolUse else MaxTokens) else d.stopReason)
  {
    if c.Choice? {
      ToolsKeepTheRest(if c.content == "" then d else d.(content := Some(d.content.GetOr("") + c.content)), c.tools);
    }
  }

  lemma ContentStep(d: DecState, chunks: seq<Chunk>, c: Chunk)
    requires ContentOk(chunks, d.content)
    ensures ContentOk(chunks + [c], DecodeChunk(d, c).0.content)
  {
    assert (chunks + [c])[..|chunks|] == chunks;
    ChunkKeepsTheRest(d, c);
    HasLonger(chunks, c, Texts());
    if !Has(chunks, Texts()) {
      NoText(chunks);
    }
    assert TextIn(chunks) + "" == TextIn(chunks);
  }

  lemma {:induction false} NoText(chunks: seq<Chunk>)
    requires !Has(chunks, Texts())
    ensures TextIn(chunks) == ""
  {
    if chunks != [] {
      var init, last := chunks[..|chunks| - 1], chunks[|chunks| - 1];
      assert chunks == init + [last];
      HasLonger(init, last, Texts());
      NoText(init);
    }
  }

  lemma UsageAndStopStep(d: DecState, chunks: seq<Chunk>, c: Chunk)
    requires UsageOk(chunks, d.usage) && StopOk(chunks, d.stopReason)
    ensures UsageOk(chunks + [c], DecodeChunk(d, c).0.usage) && StopOk(chunks + [c], DecodeChunk(d, c).0.stopReason)
  {
    var all, d' := chunks + [c], DecodeChunk(d, c).0;
    ChunkKeepsTheRest(d, c);
    HasLonger(chunks, c, Counting());
    HasLonger(chunks, c, Stopping());
    forall k | LastOf(all, Counting(), k) ensures d'.usage.Some? && UsageOf(all[k].usage.value, d'.usage.value) {
      LastLonger(chunks, c, Counting(), k);
    }
    forall k | LastOf(all, Stopping(), k) ensures d'.stopReason == if all[k].finish == ToolUseCalls then ToolUse else MaxTokens {
      LastLonger(chunks, c, Stopping(), k);
    }
  }

  lemma {:induction false} DecodesTheRest(chunks: seq<Chunk>)
    ensures var d := DecodeFrom(IDLE, chunks).0;
            ContentOk(chunks, d.content) && UsageOk(chunks, d.usage) && StopOk(chunks, d.stopReason)
  {
    if chunks != [] {
      var init, c := chunks[..|chunks| - 1], chunks[|chunks| - 1];
      var d := DecodeFrom(IDLE, init).0;
      assert chunks == init + [c];
      DecodesTheRest(init);
      DecodeSnoc(IDLE, init, c);
      ContentStep(d, init, c);
      UsageAndStopStep(d, init, c);
    }
  }

  /**
   * For every list of chunks: the decoder yields their events and one `done`, whose content is
   * all their text, whose calls have the last id and name and all arguments under their index,
   * whose stop reason is the last that is not the normal end, and whose usage is that of the
   * last counts.
   */
  lemma DecodesAnyChunks(j: Json, chunks: seq<Chunk>) returns (r: Response, buffers: map<int, Buffer>)
    ensures Decode(j, chunks) == EventsIn(chunks) + [Done(r)]
    ensures CallsOk(buffers, PartsIn(chunks)) && r.toolCalls == ToolCalls(j, buffers)
    ensures ContentOk(chunks, r.content) && UsageOk(chunks, r.usage) && StopOk(chunks, r.stopReason)
    ensures r.usage.Some? <==> Has(chunks, Counting())
  {
    var d := DecodeFrom(IDLE, chunks).0;
    DecodesTools(chunks);
    DecodesTheRest(chunks);
    buffers := d.buffers;
    r := Response(d.content, ToolCalls(j, buffers), d.stopReason, d.usage);
    if Has(chunks, Counting()) {
      var k := SomeLast(chunks, Counting());
      assert LastOf(chunks, Counting(), k);
    }
  }
}
