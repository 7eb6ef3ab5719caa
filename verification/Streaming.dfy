/**
 * The streaming interface shared by providers, the router and the wire codecs: the
 * events, the consumer that folds a stream into a response, and the adapter that
 * presents a complete response as a stream.
 */
module Streaming {
  import opened Wrappers

  datatype StopReason = EndTurn | ToolUse | MaxTokens

  datatype Usage = Usage(inputTokens: int, outputTokens: int, cacheRead: Option<int>, cacheWrite: Option<int>)

  /** A parsed tool argument object; `Empty` is `{}`. */
  datatype Input = Empty | Fields(json: string)

  datatype ToolCall = ToolCall(id: string, name: string, input: Input)

  datatype Response = Response(content: Option<string>, toolCalls: seq<ToolCall>, stopReason: StopReason, usage: Option<Usage>)

  datatype Event =
    | TextDelta(text: string)
    | ToolStart(index: int, id: string, name: string)
    | ToolDelta(index: int, args: string)
    | Done(response: Response)

  /** `JSON.stringify` and `JSON.parse` on tool arguments; a failed parse is `None`. */
  datatype Json = Json(stringify: Input -> string, parse: string -> Option<Input>)

  ghost predicate InversePair(j: Json) {
    forall i :: j.stringify(i) != "" && j.parse(j.stringify(i)) == Some(i)
  }

  /** What cannot be parsed, or was never sent, is an empty object. */
  function ParseToolArguments(j: Json, args: string): (input: Input)
    ensures args == "" || j.parse(args).None? ==> input == Empty
  {
    if args == "" then Empty else j.parse(args).GetOr(Empty)
  }

  // ----- collecting ---------------------------------------------------------------------

  datatype Buffer = Buffer(id: string, name: string, args: string)

  /** What a consumer has assembled so far. */
  datatype Assembly = Assembly(content: Option<string>, buffers: map<int, Buffer>)

  const NOTHING := Assembly(None, map[])

  function Absorb(a: Assembly, e: Event): Assembly {
    match e
    case TextDelta(text) => a.(content := Some(a.content.GetOr("") + text))
    case ToolStart(index, id, name) => a.(buffers := a.buffers[index := Buffer(id, name, "")])
    case ToolDelta(index, args) =>
      if index in a.buffers
      then a.(buffers := a.buffers[index := a.buffers[index].(args := a.buffers[index].args + args)])
      else a
    case Done(_) => a
  }

  function AbsorbAll(a: Assembly, events: seq<Event>): Assembly
    decreases |events|
  {
    if events == [] then a else AbsorbAll(Absorb(a, events[0]), events[1..])
  }

  lemma {:induction false} LeastExists(s: set<int>)
    requires s != {}
    ensures exists m :: m in s && forall x :: x in s ==> m <= x
  {
    assert exists y :: y in s by {
      assert (forall y :: y !in s) ==> s == {};
    }
    var y :| y in s;
    if s != {y} {
      LeastExists(s - {y});
      var m :| m in s - {y} && forall x :: x in s - {y} ==> m <= x;
      var least := if m <= y then m else y;
      forall x | x in s ensures least <= x {
        assert x == y || x in s - {y};
      }
    }
  }

  function SortedKeys(s: set<int>): (keys: seq<int>)
    ensures forall k :: k in keys <==> k in s
  {
    if s == {} then [] else
      LeastExists(s);
      var m :| m in s && forall x :: x in s ==> m <= x;
      [m] + SortedKeys(s - {m})
  }

  /** The buffered tool calls in index order, arguments parsed only now. */
  function ToolCalls(j: Json, buffers: map<int, Buffer>): seq<ToolCall> {
    var keys := SortedKeys(buffers.Keys);
    seq(|keys|, i requires 0 <= i < |keys| =>
      var b := buffers[keys[i]];
      ToolCall(b.id, b.name, ParseToolArguments(j, b.args)))
  }

  /** The response a consumer makes of a stream that ended without `done`. */
  function Assemble(j: Json, a: Assembly): Response {
    var calls := ToolCalls(j, a.buffers);
    Response(a.content, calls, if calls == [] then EndTurn else ToolUse, None)
  }

  function FirstDone(events: seq<Event>): Option<Response> {
    if events == [] then None
    else if events[0].Done? then Some(events[0].response)
    else FirstDone(events[1..])
  }

  function Collected(j: Json, events: seq<Event>): Response {
    match FirstDone(events)
    case Some(r) => r
    case None => Assemble(j, AbsorbAll(NOTHING, events))
  }

  method CollectStream(j: Json, stream: seq<Event>) returns (r: Response)
    ensures r == Collected(j, stream)
  {
    var a := NOTHING;
    for i := 0 to |stream|
      invariant AbsorbAll(a, stream[i..]) == AbsorbAll(NOTHING, stream)
      invariant FirstDone(stream[i..]) == FirstDone(stream)
    {
      assert stream[i..][1..] == stream[i + 1..];
      if stream[i].Done? {
        return stream[i].response;
      }
      a := Absorb(a, stream[i]);
    }
    r := Assemble(j, a);
  }

  // ----- adapting -----------------------------------------------------------------------

  function CallEvents(j: Json, calls: seq<ToolCall>, index: nat): seq<Event> {
    if calls == [] then []
    else [ToolStart(index, calls[0].id, calls[0].name), ToolDelta(index, j.stringify(calls[0].input))]
         + CallEvents(j, calls[1..], index + 1)
  }

  /** The text delta of a response, if it has text. */
  function TextOf(r: Response): seq<Event> {
    if r.content.GetOr("") != "" then [TextDelta(r.content.value)] else []
  }

  /** The reconstructed deltas of a response, without the closing `done`. */
  function Deltas(j: Json, r: Response): seq<Event> {
    TextOf(r) + CallEvents(j, r.toolCalls, 0)
  }

  function Adapted(j: Json, r: Response): seq<Event> {
    Deltas(j, r) + [Done(r)]
  }

  method ResponseToStream(j: Json, r: Response) returns (emitted: seq<Event>)
    ensures emitted == Adapted(j, r)
  {
    emitted := [];
    if r.content.GetOr("") != "" {
      emitted := emitted + [TextDelta(r.content.value)];
    }
    for index := 0 to |r.toolCalls|
      invariant emitted + CallEvents(j, r.toolCalls[index..], index) == Deltas(j, r)
    {
      var tc := r.toolCalls[index];
      assert r.toolCalls[index..][1..] == r.toolCalls[index + 1..];
      emitted := emitted + [ToolStart(index, tc.id, tc.name)];
      emitted := emitted + [ToolDelta(index, j.stringify(tc.input))];
    }
    emitted := emitted + [Done(r)];
  }

  // ----- lemmas -------------------------------------------------------------------------

  lemma {:induction false} AbsorbAllConcat(a: Assembly, x: seq<Event>, y: seq<Event>)
    ensures AbsorbAll(a, x + y) == AbsorbAll(AbsorbAll(a, x), y)
    decreases |x|
  {
    if x == [] {
      assert x + y == y;
    } else {
      AbsorbAllConcat(Absorb(a, x[0]), x[1..], y);
      assert (x + y)[0] == x[0] && (x + y)[1..] == x[1..] + y;
    }
  }

  lemma {:induction false} FirstDoneConcat(x: seq<Event>, y: seq<Event>)
    requires forall e :: e in x ==> !e.Done?
    ensures FirstDone(x + y) == FirstDone(y)
  {
    if x == [] {
      assert x + y == y;
    } else {
      FirstDoneConcat(x[1..], y);
      assert (x + y)[0] == x[0] && (x + y)[1..] == x[1..] + y;
    }
  }

  lemma {:induction false} CallEventsNotDone(j: Json, calls: seq<ToolCall>, index: nat)
    ensures forall e :: e in CallEvents(j, calls, index) ==> !e.Done?
  {
    if calls != [] {
      CallEventsNotDone(j, calls[1..], index + 1);
    }
  }

  /** A consumer of an adapted response gets that very response: `done` is authoritative. */
  lemma CollectedOfAdapted(j: Json, r: Response)
    ensures Collected(j, Adapted(j, r)) == r
    ensures forall e :: e in Deltas(j, r) ==> !e.Done?
  {
    CallEventsNotDone(j, r.toolCalls, 0);
    FirstDoneConcat(Deltas(j, r), [Done(r)]);
  }

  lemma {:induction false} SortedKeysOfRange(lo: int, s: set<int>, n: nat)
    requires forall k :: k in s <==> lo <= k < lo + n
    ensures SortedKeys(s) == seq(n, i => lo + i)
    decreases n
  {
    if n == 0 {
      assert s == {};
    } else {
      assert lo in s;
      SortedKeysOfRange(lo + 1, s - {lo}, n - 1);
      assert SortedKeys(s) == [lo] + SortedKeys(s - {lo});
    }
  }

  function BufferOf(j: Json, tc: ToolCall): Buffer {
    Buffer(tc.id, tc.name, j.stringify(tc.input))
  }

  /** The buffers that the adapter's call events build: one per call, numbered from `index`. */
  lemma {:induction false} AbsorbCallEvents(j: Json, a: Assembly, calls: seq<ToolCall>, index: nat)
    ensures var b := AbsorbAll(a, CallEvents(j, calls, index));
            && b.content == a.content
            && (forall k :: k in b.buffers <==> k in a.buffers || index <= k < index + |calls|)
            && (forall i :: 0 <= i < |calls| ==> b.buffers[index + i] == BufferOf(j, calls[i]))
            && (forall k :: k in a.buffers && !(index <= k < index + |calls|) ==> b.buffers[k] == a.buffers[k])
    decreases |calls|
  {
    if calls != [] {
      var tc, rest := calls[0], CallEvents(j, calls[1..], index + 1);
      var two := [ToolStart(index, tc.id, tc.name), ToolDelta(index, j.stringify(tc.input))];
      var a1 := Absorb(a, two[0]);
      var a2 := Absorb(a1, two[1]);
      assert AbsorbAll(a, two + rest) == AbsorbAll(a2, rest) by {
        assert (two + rest)[0] == two[0] && (two + rest)[1..] == [two[1]] + rest;
        assert ([two[1]] + rest)[0] == two[1] && ([two[1]] + rest)[1..] == rest;
      }
      assert a2.buffers[index] == BufferOf(j, tc) by {
        assert "" + j.stringify(tc.input) == j.stringify(tc.input);
      }
      AbsorbCallEvents(j, a2, calls[1..], index + 1);
      var b := AbsorbAll(a, CallEvents(j, calls, index));
      forall i | 0 <= i < |calls| ensures b.buffers[index + i] == BufferOf(j, calls[i]) {
        if i > 0 {
          assert b.buffers[(index + 1) + (i - 1)] == BufferOf(j, calls[1..][i - 1]);
        }
      }
    }
  }

  lemma AbsorbText(r: Response)
    ensures AbsorbAll(NOTHING, TextOf(r)).buffers == map[]
    ensures AbsorbAll(NOTHING, TextOf(r)).content == if r.content.GetOr("") != "" then r.content else None
  {
    if TextOf(r) != [] {
      assert AbsorbAll(NOTHING, TextOf(r)) == Absorb(NOTHING, TextOf(r)[0]);
      assert "" + r.content.value == r.content.value;
    }
  }

  /** What the deltas of a response carry: its text unless empty, and its tool calls. */
  lemma DeltasAssemble(j: Json, r: Response)
    requires InversePair(j)
    ensures AbsorbAll(NOTHING, Deltas(j, r)).content == if r.content.GetOr("") != "" then r.content else None
    ensures ToolCalls(j, AbsorbAll(NOTHING, Deltas(j, r)).buffers) == r.toolCalls
  {
    var calls, a := r.toolCalls, AbsorbAll(NOTHING, TextOf(r));
    AbsorbAllConcat(NOTHING, TextOf(r), CallEvents(j, calls, 0));
    AbsorbText(r);
    AbsorbCallEvents(j, a, calls, 0);
    var buffers := AbsorbAll(NOTHING, Deltas(j, r)).buffers;
    SortedKeysOfRange(0, buffers.Keys, |calls|);
    forall i | 0 <= i < |calls| ensures ToolCalls(j, buffers)[i] == calls[i] {
      assert buffers[0 + i] == BufferOf(j, calls[i]);
    }
    assert ToolCalls(j, buffers) == calls;
  }

  /**
   * If the closing `done` is lost, the consumer still rebuilds the response from the
   * deltas, precisely when the response says nothing the deltas cannot carry: no empty
   * text, no usage, and the stop reason that the presence of tool calls implies.
   */
  lemma FallbackRebuildsResponse(j: Json, r: Response)
    requires InversePair(j)
    ensures Collected(j, Deltas(j, r)) == r
       <==> r.content != Some("") && r.usage == None && r.stopReason == (if r.toolCalls == [] then EndTurn else ToolUse)
  {
    CallEventsNotDone(j, r.toolCalls, 0);
    FirstDoneConcat(Deltas(j, r), []);
    assert Deltas(j, r) + [] == Deltas(j, r);
    DeltasAssemble(j, r);
  }
}
