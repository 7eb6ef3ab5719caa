/**
 * What the Anthropic decoder makes of any frames, read off the frames themselves.
 *
 * An upstream sends what it likes: an opening frame with its input and cache counts, blocks
 * in any order, deltas to blocks that were never opened, several closing frames. Each part of
 * the result is stated here about the frames alone, without the decoder's state.
 */
module AnthropicFrames {
  import opened Wrappers
  import opened Sequences
  import opened Streaming
  import opened AnthropicCodec

  predicate IsText(f: Frame) {
    f.BlockDelta? && f.delta.TextPart?
  }

  /** Opens a tool call in block `index`. */
  predicate OpensTool(f: Frame) {
    f.BlockStart? && f.block.ToolBlock?
  }

  /** All text, in order. */
  function TextIn(frames: seq<Frame>): string {
    if frames == [] then ""
    else TextIn(frames[..|frames| - 1]) + if IsText(frames[|frames| - 1]) then frames[|frames| - 1].delta.text else ""
  }

  /** How many tool calls were opened; they are numbered in this order. */
  function ToolsIn(frames: seq<Frame>): nat {
    if frames == [] then 0 else ToolsIn(frames[..|frames| - 1]) + if OpensTool(frames[|frames| - 1]) then 1 else 0
  }

  /** The tool call that a block belongs to: the last one opened under its number. */
  function OwnerOf(frames: seq<Frame>, block: int): Option<nat> {
    if frames == [] then None
    else
      var init, last := frames[..|frames| - 1], frames[|frames| - 1];
      if OpensTool(last) && last.index == block then Some(ToolsIn(init)) else OwnerOf(init, block)
  }

  /** The arguments of a tool call: every JSON part in a block that belongs to it at that point. */
  function ArgsIn(frames: seq<Frame>, tool: nat): string {
    if frames == [] then ""
    else
      var init, last := frames[..|frames| - 1], frames[|frames| - 1];
      ArgsIn(init, tool)
      + if last.BlockDelta? && last.delta.JsonPart? && OwnerOf(init, last.index) == Some(tool) then last.delta.json else ""
  }

  /** Id and name of the tool call with this number. */
  function HeaderIn(frames: seq<Frame>, tool: nat): (string, string)
    requires tool < ToolsIn(frames)
  {
    var init, last := frames[..|frames| - 1], frames[|frames| - 1];
    if tool < ToolsIn(init) then HeaderIn(init, tool) else (last.block.id, last.block.name)
  }

  /** The events of a stream: texts, starts and tool deltas, each under its call's number. */
  function EventsIn(frames: seq<Frame>): seq<Event> {
    if frames == [] then []
    else
      var init, last := frames[..|frames| - 1], frames[|frames| - 1];
      EventsIn(init) + EventIn(init, last)
  }

  function EventIn(before: seq<Frame>, f: Frame): seq<Event> {
    if IsText(f) then [TextDelta(f.delta.text)]
    else if OpensTool(f) then [ToolStart(ToolsIn(before), f.block.id, f.block.name)]
    else if f.BlockDelta? && f.delta.JsonPart? && OwnerOf(before, f.index).Some?
    then [ToolDelta(OwnerOf(before, f.index).value, f.delta.json)]
    else []
  }

  // ----- frames of a kind ----------------------------------------------------------------------

  function Texts(): Frame -> bool {
    (f: Frame) => IsText(f)
  }

  // ----- the decoder says just that ------------------------------------------------------------

  ghost predicate ContentOk(d: DecState, frames: seq<Frame>) {
    d.content == if Has(frames, Texts()) then Some(TextIn(frames)) else None
  }

  predicate OwnersOk(d: DecState, frames: seq<Frame>, block: int) {
    && (OwnerOf(frames, block).Some? <==> block in d.toolIndexByBlock)
    && (block in d.toolIndexByBlock ==>
          d.toolIndexByBlock[block] == OwnerOf(frames, block).value && OwnerOf(frames, block).value < ToolsIn(frames))
  }

  predicate BufferOk(d: DecState, frames: seq<Frame>, tool: nat)
    requires tool < ToolsIn(frames)
  {
    tool in d.buffers && d.buffers[tool] == Buffer(HeaderIn(frames, tool).0, HeaderIn(frames, tool).1, ArgsIn(frames, tool))
  }

  ghost predicate ToolsOk(d: DecState, frames: seq<Frame>) {
    && d.nextToolIndex == ToolsIn(frames)
    && (forall k :: k in d.buffers <==> 0 <= k < ToolsIn(frames))
    && (forall k :: 0 <= k < ToolsIn(frames) ==> BufferOk(d, frames, k))
    && (forall b :: OwnersOk(d, frames, b))
  }

  lemma ContentStep(d: DecState, frames: seq<Frame>, f: Frame)
    requires ContentOk(d, frames)
    ensures ContentOk(DecodeFrame(d, f).0, frames + [f])
  {
    assert (frames + [f])[..|frames|] == frames;
    HasLonger(frames, f, Texts());
    if !Has(frames, Texts()) {
      NoText(frames);
    }
    assert TextIn(frames) + "" == TextIn(frames);
  }

  lemma {:induction false} NoText(frames: seq<Frame>)
    requires !Has(frames, Texts())
    ensures TextIn(frames) == ""
  {
    if frames != [] {
      var init, last := frames[..|frames| - 1], frames[|frames| - 1];
      assert frames == init + [last];
      HasLonger(init, last, Texts());
      NoText(init);
    }
  }

  /** A call that is not open yet has no arguments. */
  lemma {:induction false} NoArgsYet(frames: seq<Frame>, tool: nat)
    requires tool >= ToolsIn(frames)
    ensures ArgsIn(frames, tool) == ""
    ensures forall b :: OwnerOf(frames, b) != Some(tool)
  {
    if frames != [] {
      NoArgsYet(frames[..|frames| - 1], tool);
    }
  }

  lemma BufferStep(d: DecState, frames: seq<Frame>, f: Frame, tool: nat)
    requires ToolsOk(d, frames) && tool < ToolsIn(frames + [f])
    ensures BufferOk(DecodeFrame(d, f).0, frames + [f], tool)
  {
    var all := frames + [f];
    assert all[..|frames|] == frames && all[|frames|] == f;
    if tool == ToolsIn(frames) {
      NoArgsYet(frames, tool);
      assert "" + "" == "";
    } else {
      assert BufferOk(d, frames, tool);
      assert HeaderIn(all, tool) == HeaderIn(frames, tool);
      if f.BlockDelta? {
        assert OwnersOk(d, frames, f.index);
      }
      assert ArgsIn(frames, tool) + "" == ArgsIn(frames, tool);
    }
  }

  lemma ToolsStep(d: DecState, frames: seq<Frame>, f: Frame)
    requires ToolsOk(d, frames)
    ensures ToolsOk(DecodeFrame(d, f).0, frames + [f])
  {
    var d', all := DecodeFrame(d, f).0, frames + [f];
    assert all[..|frames|] == frames && all[|frames|] == f;
    forall k | 0 <= k < ToolsIn(all) ensures BufferOk(d', all, k) {
      BufferStep(d, frames, f, k);
    }
    forall b ensures OwnersOk(d', all, b) {
      assert OwnersOk(d, frames, b);
    }
    if f.BlockDelta? {
      assert OwnersOk(d, frames, f.index);
    }
  }

  lemma EventStep(d: DecState, frames: seq<Frame>, f: Frame)
    requires ToolsOk(d, frames)
    ensures DecodeFrame(d, f).1 == EventIn(frames, f)
  {
    if f.BlockDelta? {
      assert OwnersOk(d, frames, f.index);
    }
  }

  lemma {:induction false} DecodesToolsAndText(frames: seq<Frame>)
    ensures var (d, out) := DecodeFrom(IDLE, frames);
            ContentOk(d, frames) && ToolsOk(d, frames) && out == EventsIn(frames)
  {
    if frames == [] {
      assert forall b :: OwnersOk(IDLE, [], b);
    } else {
      var init, f := frames[..|frames| - 1], frames[|frames| - 1];
      var d := DecodeFrom(IDLE, init).0;
      assert frames == init + [f];
      DecodesToolsAndText(init);
      DecodeSnoc(IDLE, init, f);
      ContentStep(d, init, f);
      ToolsStep(d, init, f);
      EventStep(d, init, f);
    }
  }

  // ----- usage and stop reason, by the places of the frames that decide them -------------------

  function Opening(): Frame -> bool {
    (f: Frame) => f.MessageStart?
  }

  function Closing(): Frame -> bool {
    (f: Frame) => f.MessageDelta?
  }

  /** A closing frame that gives a reason other than the normal end. */
  function Stopping(): Frame -> bool {
    (f: Frame) => f.MessageDelta? && f.stopReason != EndTurn
  }

  /** The counts of the opening frame before place `k`, or none of it, with the output count of the frame at `k`. */
  ghost predicate UsageAt(frames: seq<Frame>, k: nat, usage: Option<Usage>)
    requires k < |frames| && frames[k].MessageDelta?
  {
    && (!Has(frames[..k], Opening()) ==> usage == Some(Usage(0, frames[k].outputTokens, None, None)))
    && (forall i :: LastOf(frames[..k], Opening(), i) ==>
          usage == Some(Usage(frames[i].usage.inputTokens, frames[k].outputTokens, frames[i].usage.cacheRead, frames[i].usage.cacheWrite)))
  }

  /** An opening frame before the closing one, or none: there is a usage. */
  lemma UsageIsSome(frames: seq<Frame>, k: nat, usage: Option<Usage>)
    requires k < |frames| && frames[k].MessageDelta? && UsageAt(frames, k, usage)
    ensures usage.Some?
  {
    if Has(frames[..k], Opening()) {
      var i := SomeLast(frames[..k], Opening());
      assert LastOf(frames[..k], Opening(), i);
    }
  }

  ghost predicate UsageOk(frames: seq<Frame>, usage: Option<Usage>) {
    && (!Has(frames, Closing()) ==> usage == None)
    && (forall k :: LastOf(frames, Closing(), k) ==> UsageAt(frames, k, usage))
  }

  ghost predicate InputOk(frames: seq<Frame>, input: Option<Usage>) {
    && (!Has(frames, Opening()) ==> input == None)
    && (forall i :: LastOf(frames, Opening(), i) ==> input == Some(frames[i].usage))
  }

  ghost predicate StopOk(frames: seq<Frame>, stopReason: StopReason) {
    && (!Has(frames, Stopping()) ==> stopReason == EndTurn)
    && (forall k :: LastOf(frames, Stopping(), k) ==> stopReason == frames[k].stopReason)
  }

  lemma InputStep(d: DecState, frames: seq<Frame>, f: Frame)
    requires InputOk(frames, d.inputUsage)
    ensures InputOk(frames + [f], DecodeFrame(d, f).0.inputUsage)
  {
    HasLonger(frames, f, Opening());
    forall i | LastOf(frames + [f], Opening(), i) ensures DecodeFrame(d, f).0.inputUsage == Some((frames + [f])[i].usage) {
      LastLonger(frames, f, Opening(), i);
    }
  }

  lemma StopStep(d: DecState, frames: seq<Frame>, f: Frame)
    requires StopOk(frames, d.stopReason)
    ensures StopOk(frames + [f], DecodeFrame(d, f).0.stopReason)
  {
    HasLonger(frames, f, Stopping());
    forall k | LastOf(frames + [f], Stopping(), k) ensures DecodeFrame(d, f).0.stopReason == (frames + [f])[k].stopReason {
      LastLonger(frames, f, Stopping(), k);
    }
  }

  lemma UsageStep(d: DecState, frames: seq<Frame>, f: Frame)
    requires InputOk(frames, d.inputUsage) && UsageOk(frames, d.usage)
    ensures UsageOk(frames + [f], DecodeFrame(d, f).0.usage)
  {
    var all, usage := frames + [f], DecodeFrame(d, f).0.usage;
    HasLonger(frames, f, Closing());
    forall k | LastOf(all, Closing(), k) ensures UsageAt(all, k, usage) {
      LastLonger(frames, f, Closing(), k);
      if k == |frames| {
        assert all[..k] == frames;
      } else {
        assert all[..k] == frames[..k];
        assert UsageAt(frames, k, usage);
      }
    }
  }

  lemma {:induction false} DecodesUsageAndStop(frames: seq<Frame>)
    ensures var d := DecodeFrom(IDLE, frames).0;
            InputOk(frames, d.inputUsage) && UsageOk(frames, d.usage) && StopOk(frames, d.stopReason)
  {
    if frames != [] {
      var init, f := frames[..|frames| - 1], frames[|frames| - 1];
      var d := DecodeFrom(IDLE, init).0;
      assert frames == init + [f];
      DecodesUsageAndStop(init);
      DecodeSnoc(IDLE, init, f);
      InputStep(d, init, f);
      StopStep(d, init, f);
      UsageStep(d, init, f);
    }
  }

  // ----- the whole stream -----------------------------------------------------------------------

  /** The calls of a stream: each with its header and all arguments that were sent to it. */
  ghost predicate CallsOk(frames: seq<Frame>, buffers: map<int, Buffer>) {
    && (forall k :: k in buffers <==> 0 <= k < ToolsIn(frames))
    && (forall k :: 0 <= k < ToolsIn(frames) ==>
          buffers[k] == Buffer(HeaderIn(frames, k).0, HeaderIn(frames, k).1, ArgsIn(frames, k)))
  }

  /**
   * For every list of frames: the decoder yields their events and one `done`, whose content is
   * all their text, whose calls have the arguments sent to them, whose stop reason is the last
   * that is not the normal end, and whose usage joins the counts of the last opening frame
   * before the last closing frame with the latter's output count.
   */
  lemma DecodesAnyFrames(j: Json, frames: seq<Frame>) returns (buffers: map<int, Buffer>, stopReason: StopReason, usage: Option<Usage>)
    ensures CallsOk(frames, buffers) && StopOk(frames, stopReason) && UsageOk(frames, usage)
    ensures usage.Some? <==> Has(frames, Closing())
    ensures var content := if Has(frames, Texts()) then Some(TextIn(frames)) else None;
            Decode(j, frames) == EventsIn(frames) + [Done(Response(content, ToolCalls(j, buffers), stopReason, usage))]
  {
    var d := DecodeFrom(IDLE, frames).0;
    DecodesToolsAndText(frames);
    DecodesUsageAndStop(frames);
    buffers, stopReason, usage := d.buffers, d.stopReason, d.usage;
    if Has(frames, Closing()) {
      var k := SomeLast(frames, Closing());
      UsageIsSome(frames, k, usage);
    }
    forall k | 0 <= k < ToolsIn(frames)
      ensures buffers[k] == Buffer(HeaderIn(frames, k).0, HeaderIn(frames, k).1, ArgsIn(frames, k))
    {
      assert BufferOk(d, frames, k);
    }
  }

  /** An upstream's usual stream: its input and cache counts come with its output count. */
  lemma UpstreamUsageIsKept(j: Json, model: string, id: string, u: Usage, body: seq<Frame>, stopReason: StopReason, n: int)
    requires forall f :: f in body ==> !f.MessageStart? && !f.MessageDelta?
    ensures var frames := [MessageStart(model, id, u)] + body + [MessageDelta(stopReason, n), MessageStop];
            var events := Decode(j, frames);
            && events[|events| - 1].Done?
            && events[|events| - 1].response.usage == Some(Usage(u.inputTokens, n, u.cacheRead, u.cacheWrite))
            && events[|events| - 1].response.stopReason == stopReason
  {
    var frames := [MessageStart(model, id, u)] + body + [MessageDelta(stopReason, n), MessageStop];
    var k := |body| + 1;
    assert frames[0] == MessageStart(model, id, u) && frames[k] == MessageDelta(stopReason, n) && frames[k + 1] == MessageStop;
    assert forall i :: 1 <= i < k ==> frames[i] == body[i - 1] && frames[i] in body;
    var _, reason, usage := DecodesAnyFrames(j, frames);
    assert LastOf(frames, Closing(), k);
    assert LastOf(frames[..k], Opening(), 0);
    assert UsageAt(frames, k, usage);
    if stopReason != EndTurn {
      assert LastOf(frames, Stopping(), k);
    } else {
      assert !Has(frames, Stopping());
    }
  }

  /** The gateway's own messages open with the model, the id and zero counts, whatever comes first. */
  lemma EncodesOpeningFirst(model: string, id: string, events: seq<Event>)
    requires events != []
    ensures var frames := Encode(model, id, events);
            frames != [] && frames[0] == MessageStart(model, id, Usage(0, 0, None, None))
  {
    var (_, frames) := EncodeEvent(model, id, FRESH, events[0]);
    assert frames[0] == MessageStart(model, id, NO_USAGE);
  }
}
