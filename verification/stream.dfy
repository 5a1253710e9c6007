/** Reassembly of one streamed completion: a left fold over the stream's events that accumulates
    the text deltas and the tool calls, whose partial-JSON argument fragments are concatenated
    and parsed when their block stops. The master loop and the worker runner run the same fold;
    they differ only in how they tag the text events they emit, which is left to them. */
module Stream {
  import opened Wrappers
  import opened Seqs
  import opened JsonValue

  /** The kind of block a `content_block_start` opens: a tool call, or anything else (text). */
  datatype BlockStart = ToolUseStart(id: string, name: string) | OtherBlockStart

  /** A `content_block_delta` carries text, a fragment of JSON arguments, or neither. */
  datatype Delta = TextDelta(text: string) | JsonDelta(partialJson: string) | OtherDelta

  datatype StreamEvent =
    | ContentBlockStart(block: BlockStart)
    | ContentBlockDelta(delta: Delta)
    | ContentBlockStop
    | OtherEvent

  /** A finished tool call with its parsed arguments. */
  datatype ToolCall = ToolCall(id: string, name: string, input: Json)

  /** A tool call whose argument fragments are still arriving. */
  datatype OpenCall = OpenCall(id: string, name: string, inputJson: string)

  /** The fold's state: the text so far, the finished calls in the order their blocks stopped, the
      open call, and the text chunks emitted so far (one event each). */
  datatype Acc = Acc(text: string, calls: seq<ToolCall>, open: Option<OpenCall>, emitted: seq<string>)

  const Initial: Acc := Acc("", [], None, [])

  /** The arguments of a call: empty text is read as `{}`, and text that does not parse gives the
      empty object instead of an error. */
  function ParseInput(parse: Parser, raw: string): (r: Json)
    ensures raw != "" ==> r == (if parse(raw).Some? then parse(raw).value else EmptyObject)
    ensures raw == "" ==> r == (if parse("{}").Some? then parse("{}").value else EmptyObject)
  {
    match parse(if raw == "" then "{}" else raw)
    case Some(j) => j
    case None => EmptyObject
  }

  function Close(parse: Parser, oc: OpenCall): ToolCall {
    ToolCall(oc.id, oc.name, ParseInput(parse, oc.inputJson))
  }

  /** One stream event. A tool-use start replaces any open call; a fragment with no open call is
      dropped; a stop with no open call changes nothing. */
  function Step(parse: Parser, acc: Acc, ev: StreamEvent): Acc {
    match ev
    case ContentBlockStart(ToolUseStart(id, name)) => acc.(open := Some(OpenCall(id, name, "")))
    case ContentBlockStart(OtherBlockStart) => acc
    case ContentBlockDelta(TextDelta(t)) => acc.(text := acc.text + t, emitted := acc.emitted + [t])
    case ContentBlockDelta(JsonDelta(f)) =>
      if acc.open.Some? then acc.(open := Some(acc.open.value.(inputJson := acc.open.value.inputJson + f))) else acc
    case ContentBlockDelta(OtherDelta) => acc
    case ContentBlockStop =>
      if acc.open.Some? then acc.(calls := acc.calls + [Close(parse, acc.open.value)], open := None) else acc
    case OtherEvent => acc
  }

  function Fold(parse: Parser, acc: Acc, evs: seq<StreamEvent>): Acc
    decreases |evs|
  {
    if |evs| == 0 then acc else Fold(parse, Step(parse, acc, evs[0]), evs[1..])
  }

  /** The result of one streamed call: the text, the tool calls and the emitted text chunks. A call
      still open when the stream ends is discarded. */
  function Reassemble(parse: Parser, evs: seq<StreamEvent>): Acc {
    Fold(parse, Initial, evs)
  }

  /** One event extends the text by the chunk it emits, if any, and finishes a call exactly when
      it stops an open one; nothing is ever removed. */
  lemma StepExtends(parse: Parser, acc: Acc, ev: StreamEvent)
    ensures var r := Step(parse, acc, ev);
            && acc.text <= r.text && acc.emitted <= r.emitted && acc.calls <= r.calls
            && |r.emitted| <= |acc.emitted| + 1 && |r.calls| <= |acc.calls| + 1
            && (|r.calls| == |acc.calls| + 1 <==> ev.ContentBlockStop? && acc.open.Some?)
            && (|r.emitted| == |acc.emitted| + 1 <==> ev.ContentBlockDelta? && ev.delta.TextDelta?)
            && (|r.emitted| == |acc.emitted| ==> r.text == acc.text)
            && (|r.emitted| == |acc.emitted| + 1 ==> r.text == acc.text + r.emitted[|acc.emitted|])
  {
  }

  /** The fold only ever extends the text, the emitted chunks and the finished calls, and each
      event adds at most one chunk and finishes at most one call. */
  lemma {:induction false} FoldExtends(parse: Parser, acc: Acc, evs: seq<StreamEvent>)
    ensures var r := Fold(parse, acc, evs);
            && acc.text <= r.text && acc.emitted <= r.emitted && acc.calls <= r.calls
            && |r.calls| <= |acc.calls| + |evs| && |r.emitted| <= |acc.emitted| + |evs|
    decreases |evs|
  {
    if |evs| > 0 {
      var a1 := Step(parse, acc, evs[0]);
      StepExtends(parse, acc, evs[0]);
      FoldExtends(parse, a1, evs[1..]);
    }
  }

  /** A completion's text is exactly its emitted chunks concatenated, and it has at most one call
      per stream event. */
  lemma ReassembleEmitted(parse: Parser, evs: seq<StreamEvent>)
    ensures Reassemble(parse, evs).text == Concat(Reassemble(parse, evs).emitted)
    ensures |Reassemble(parse, evs).calls| <= |evs|
  {
    FoldText(parse, Initial, evs);
    FoldExtends(parse, Initial, evs);
    assert Initial.emitted + TextChunks(evs) == TextChunks(evs);
    assert Initial.text + Concat(TextChunks(evs)) == Concat(TextChunks(evs));
  }

  /* ---------- Reference definitions ---------- */

  /** The text deltas of a stream, in arrival order. */
  function TextChunks(evs: seq<StreamEvent>): seq<string> {
    if |evs| == 0 then []
    else if evs[0].ContentBlockDelta? && evs[0].delta.TextDelta? then [evs[0].delta.text] + TextChunks(evs[1..])
    else TextChunks(evs[1..])
  }

  /** A stream is processed piecewise. */
  lemma {:induction false} FoldAppend(parse: Parser, acc: Acc, a: seq<StreamEvent>, b: seq<StreamEvent>)
    ensures Fold(parse, acc, a + b) == Fold(parse, Fold(parse, acc, a), b)
    decreases |a|
  {
    if |a| == 0 {
      assert a + b == b;
    } else {
      assert (a + b)[0] == a[0] && (a + b)[1..] == a[1..] + b;
      FoldAppend(parse, Step(parse, acc, a[0]), a[1..], b);
      calc {
        Fold(parse, acc, a + b);
        Fold(parse, Step(parse, acc, a[0]), a[1..] + b);
        Fold(parse, Fold(parse, Step(parse, acc, a[0]), a[1..]), b);
      }
    }
  }

  /** The text is the concatenation of all text deltas in arrival order, and exactly those deltas
      are emitted, one event each, in the same order. Tool-call events never touch the text. */
  lemma {:induction false} FoldText(parse: Parser, acc: Acc, evs: seq<StreamEvent>)
    ensures Fold(parse, acc, evs).text == acc.text + Concat(TextChunks(evs))
    ensures Fold(parse, acc, evs).emitted == acc.emitted + TextChunks(evs)
    decreases |evs|
  {
    if |evs| > 0 {
      FoldText(parse, Step(parse, acc, evs[0]), evs[1..]);
    }
  }

  /** Finished calls are only ever appended: the calls of a prefix stay in place. */
  lemma {:induction false} FoldCallsExtend(parse: Parser, acc: Acc, evs: seq<StreamEvent>)
    ensures |acc.calls| <= |Fold(parse, acc, evs).calls|
    ensures Fold(parse, acc, evs).calls[..|acc.calls|] == acc.calls
    decreases |evs|
  {
    if |evs| > 0 {
      var next := Step(parse, acc, evs[0]);
      FoldCallsExtend(parse, next, evs[1..]);
      assert next.calls[..|acc.calls|] == acc.calls;
    }
  }

  lemma ReassembleText(parse: Parser, evs: seq<StreamEvent>)
    ensures Reassemble(parse, evs).text == Concat(TextChunks(evs))
    ensures Reassemble(parse, evs).emitted == TextChunks(evs)
  {
    FoldText(parse, Initial, evs);
  }

  /* ---------- Well-formed streams ---------- */

  /** A content block as the service sends it: a text block with its chunks, or a tool-use block
      with its id, name and argument fragments. */
  datatype WireBlock = TextBlock(chunks: seq<string>) | ToolBlock(id: string, name: string, fragments: seq<string>)

  function TextDeltas(chunks: seq<string>): (r: seq<StreamEvent>)
    ensures |r| == |chunks|
  {
    if |chunks| == 0 then [] else [ContentBlockDelta(TextDelta(chunks[0]))] + TextDeltas(chunks[1..])
  }

  function JsonDeltas(fragments: seq<string>): (r: seq<StreamEvent>)
    ensures |r| == |fragments|
  {
    if |fragments| == 0 then [] else [ContentBlockDelta(JsonDelta(fragments[0]))] + JsonDeltas(fragments[1..])
  }

  /** The events of one block: start, deltas, stop. */
  function RenderBlock(b: WireBlock): seq<StreamEvent> {
    match b
    case TextBlock(chunks) => [ContentBlockStart(OtherBlockStart)] + TextDeltas(chunks) + [ContentBlockStop]
    case ToolBlock(id, name, fragments) => [ContentBlockStart(ToolUseStart(id, name))] + JsonDeltas(fragments) + [ContentBlockStop]
  }

  function Render(bs: seq<WireBlock>): seq<StreamEvent> {
    if |bs| == 0 then [] else RenderBlock(bs[0]) + Render(bs[1..])
  }

  /** What one block means: its text, its text chunks, and its tool call, whose arguments are
      parsed from all of its fragments at once. */
  function BlockText(b: WireBlock): string {
    if b.TextBlock? then Concat(b.chunks) else ""
  }

  function BlockChunks(b: WireBlock): seq<string> {
    if b.TextBlock? then b.chunks else []
  }

  function BlockCalls(parse: Parser, b: WireBlock): seq<ToolCall> {
    if b.ToolBlock? then [ToolCall(b.id, b.name, ParseInput(parse, Concat(b.fragments)))] else []
  }

  /** What a block sequence means: the meanings of its blocks, in order. */
  function BlocksText(bs: seq<WireBlock>): string {
    if |bs| == 0 then "" else BlockText(bs[0]) + BlocksText(bs[1..])
  }

  function BlocksChunks(bs: seq<WireBlock>): seq<string> {
    if |bs| == 0 then [] else BlockChunks(bs[0]) + BlocksChunks(bs[1..])
  }

  function BlocksCalls(parse: Parser, bs: seq<WireBlock>): seq<ToolCall> {
    if |bs| == 0 then [] else BlockCalls(parse, bs[0]) + BlocksCalls(parse, bs[1..])
  }

  /** Text deltas extend the text and the emitted chunks and nothing else. */
  lemma {:induction false} FoldTextDeltas(parse: Parser, acc: Acc, chunks: seq<string>)
    ensures Fold(parse, acc, TextDeltas(chunks)) == acc.(text := acc.text + Concat(chunks), emitted := acc.emitted + chunks)
    decreases |chunks|
  {
    if |chunks| > 0 {
      var next := Step(parse, acc, ContentBlockDelta(TextDelta(chunks[0])));
      FoldTextDeltas(parse, next, chunks[1..]);
      assert acc.emitted + chunks == acc.emitted + [chunks[0]] + chunks[1..];
    }
  }

  /** Argument fragments are appended to the open call in arrival order. */
  lemma {:induction false} FoldJsonDeltas(parse: Parser, acc: Acc, oc: OpenCall, fragments: seq<string>)
    requires acc.open == Some(oc)
    ensures Fold(parse, acc, JsonDeltas(fragments)) == acc.(open := Some(oc.(inputJson := oc.inputJson + Concat(fragments))))
    decreases |fragments|
  {
    if |fragments| > 0 {
      var oc' := oc.(inputJson := oc.inputJson + fragments[0]);
      var next := Step(parse, acc, ContentBlockDelta(JsonDelta(fragments[0])));
      assert next == acc.(open := Some(oc'));
      var deltas := JsonDeltas(fragments);
      assert deltas == [ContentBlockDelta(JsonDelta(fragments[0]))] + JsonDeltas(fragments[1..]);
      assert deltas[1..] == JsonDeltas(fragments[1..]);
      FoldJsonDeltas(parse, next, oc', fragments[1..]);
      var whole := oc.(inputJson := oc.inputJson + Concat(fragments));
      assert oc'.(inputJson := oc'.inputJson + Concat(fragments[1..])) == whole;
      calc {
        Fold(parse, acc, deltas);
        Fold(parse, Step(parse, acc, deltas[0]), deltas[1..]);
        Fold(parse, next, JsonDeltas(fragments[1..]));
        next.(open := Some(whole));
        acc.(open := Some(whole));
      }
    } else {
      assert oc.inputJson + Concat(fragments) == oc.inputJson;
    }
  }

  /** The fold state after taking in some text, some finished calls and some emitted chunks. */
  function Absorb(acc: Acc, text: string, calls: seq<ToolCall>, chunks: seq<string>): (r: Acc)
    ensures r.open == acc.open
  {
    acc.(text := acc.text + text, calls := acc.calls + calls, emitted := acc.emitted + chunks)
  }

  lemma AbsorbTwice(acc: Acc, t1: string, c1: seq<ToolCall>, k1: seq<string>, t2: string, c2: seq<ToolCall>, k2: seq<string>)
    ensures Absorb(Absorb(acc, t1, c1, k1), t2, c2, k2) == Absorb(acc, t1 + t2, c1 + c2, k1 + k2)
  {
    assert acc.text + t1 + t2 == acc.text + (t1 + t2);
    assert acc.calls + c1 + c2 == acc.calls + (c1 + c2);
    assert acc.emitted + k1 + k2 == acc.emitted + (k1 + k2);
  }

  /** The events of one block add exactly its meaning. A tool block may start while another call
      is open: its start discards that call. */
  lemma FoldBlock(parse: Parser, acc: Acc, b: WireBlock)
    requires acc.open.None? || b.ToolBlock?
    ensures Fold(parse, acc, RenderBlock(b)) == Absorb(acc, BlockText(b), BlockCalls(parse, b), BlockChunks(b)).(open := None)
  {
    match b
    case TextBlock(chunks) =>
      var deltas := TextDeltas(chunks);
      FoldAppend(parse, acc, [ContentBlockStart(OtherBlockStart)] + deltas, [ContentBlockStop]);
      FoldAppend(parse, acc, [ContentBlockStart(OtherBlockStart)], deltas);
      FoldTextDeltas(parse, acc, chunks);
      assert acc.calls + [] == acc.calls;
    case ToolBlock(id, name, fragments) =>
      var start := ContentBlockStart(ToolUseStart(id, name));
      var deltas := JsonDeltas(fragments);
      var started := acc.(open := Some(OpenCall(id, name, "")));
      var call := ToolCall(id, name, ParseInput(parse, Concat(fragments)));
      FoldAppend(parse, acc, [start] + deltas, [ContentBlockStop]);
      FoldAppend(parse, acc, [start], deltas);
      FoldJsonDeltas(parse, started, OpenCall(id, name, ""), fragments);
      assert "" + Concat(fragments) == Concat(fragments);
      var filled := started.(open := Some(OpenCall(id, name, Concat(fragments))));
      calc {
        Fold(parse, acc, RenderBlock(b));
        Fold(parse, Fold(parse, acc, [start] + deltas), [ContentBlockStop]);
        Fold(parse, Fold(parse, Fold(parse, acc, [start]), deltas), [ContentBlockStop]);
        { assert Fold(parse, acc, [start]) == started; }
        Fold(parse, Fold(parse, started, deltas), [ContentBlockStop]);
        Fold(parse, filled, [ContentBlockStop]);
        Step(parse, filled, ContentBlockStop);
        acc.(calls := acc.calls + [call], open := None);
      }
      assert acc.text + "" == acc.text && acc.emitted + [] == acc.emitted;
  }

  /** Reassembly is correct on every well-formed stream: folding the events of a block sequence
      gives exactly the blocks' text and text chunks, and one call per tool block, in block order,
      whose arguments are the parse of all its fragments concatenated. */
  lemma {:induction false} ReassembleRendered(parse: Parser, acc: Acc, bs: seq<WireBlock>)
    requires acc.open.None?
    ensures Fold(parse, acc, Render(bs)) == Absorb(acc, BlocksText(bs), BlocksCalls(parse, bs), BlocksChunks(bs))
    decreases |bs|
  {
    if |bs| == 0 {
      assert acc.text + "" == acc.text && acc.calls + [] == acc.calls && acc.emitted + [] == acc.emitted;
    } else {
      var b := bs[0];
      var mid := Absorb(acc, BlockText(b), BlockCalls(parse, b), BlockChunks(b));
      FoldBlock(parse, acc, b);
      assert mid.(open := None) == mid;
      ReassembleRendered(parse, mid, bs[1..]);
      AbsorbTwice(acc, BlockText(b), BlockCalls(parse, b), BlockChunks(b),
                  BlocksText(bs[1..]), BlocksCalls(parse, bs[1..]), BlocksChunks(bs[1..]));
      calc {
        Fold(parse, acc, Render(bs));
        Fold(parse, acc, RenderBlock(b) + Render(bs[1..]));
        { FoldAppend(parse, acc, RenderBlock(b), Render(bs[1..])); }
        Fold(parse, mid, Render(bs[1..]));
        Absorb(mid, BlocksText(bs[1..]), BlocksCalls(parse, bs[1..]), BlocksChunks(bs[1..]));
        Absorb(acc, BlocksText(bs), BlocksCalls(parse, bs), BlocksChunks(bs));
      }
    }
  }

  /** Streaming a tool call's arguments in fragments gives the same arguments as parsing the whole
      JSON text at once; an empty argument text is read as `{}`; unparsable text gives `{}`. */
  lemma StreamedArguments(parse: Parser, id: string, name: string, fragments: seq<string>)
    ensures var r := Reassemble(parse, Render([ToolBlock(id, name, fragments)]));
            && |r.calls| == 1 && r.calls[0].id == id && r.calls[0].name == name
            && r.text == "" && r.open.None?
            && (Concat(fragments) != "" && parse(Concat(fragments)).Some? ==> r.calls[0].input == parse(Concat(fragments)).value)
            && (Concat(fragments) != "" && parse(Concat(fragments)).None? ==> r.calls[0].input == EmptyObject)
            && (Concat(fragments) == "" ==> r.calls[0].input == parse("{}").GetOr(EmptyObject))
  {
    ReassembleRendered(parse, Initial, [ToolBlock(id, name, fragments)]);
    var bs := [ToolBlock(id, name, fragments)];
    assert BlocksCalls(parse, bs) == BlockCalls(parse, bs[0]) + BlocksCalls(parse, bs[1..]);
    assert BlocksText(bs) == "" + BlocksText(bs[1..]);
  }

  /** A tool-use start while another call is still open discards the unfinished call: only the
      second call is returned. */
  lemma RestartDiscardsOpenCall(parse: Parser, id1: string, name1: string, fragments1: seq<string>, b: WireBlock)
    requires b.ToolBlock?
    ensures Reassemble(parse, [ContentBlockStart(ToolUseStart(id1, name1))] + JsonDeltas(fragments1) + RenderBlock(b)).calls
      == [ToolCall(b.id, b.name, ParseInput(parse, Concat(b.fragments)))]
  {
    var head := [ContentBlockStart(ToolUseStart(id1, name1))] + JsonDeltas(fragments1);
    FoldAppend(parse, Initial, head, RenderBlock(b));
    FoldAppend(parse, Initial, [ContentBlockStart(ToolUseStart(id1, name1))], JsonDeltas(fragments1));
    var started := Initial.(open := Some(OpenCall(id1, name1, "")));
    FoldJsonDeltas(parse, started, OpenCall(id1, name1, ""), fragments1);
    var mid := Fold(parse, Initial, head);
    assert mid.calls == [];
    FoldBlock(parse, mid, b);
  }

  /** A fragment that arrives with no open call, and a stop with no open call, change nothing. */
  lemma StrayEventsIgnored(parse: Parser, acc: Acc, f: string)
    requires acc.open.None?
    ensures Fold(parse, acc, [ContentBlockDelta(JsonDelta(f))]) == acc
    ensures Fold(parse, acc, [ContentBlockStop]) == acc
  {
  }
}
