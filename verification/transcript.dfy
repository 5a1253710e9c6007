/** The conversation both agent loops send to the completion service, and the messages one loop
    turn adds to it: an assistant turn holding the optional text and the tool calls, answered by a
    user turn holding one tool result per call, in call order, with matching ids. */
module Transcript {
  import opened JsonValue
  import opened Stream

  datatype Role = User | Assistant

  /** One content block of a message. */
  datatype Part =
    | TextPart(text: string)
    | ToolUsePart(id: string, name: string, input: Json)
    | ToolResultPart(toolUseId: string, content: string)

  /** A message's content: plain text, or a list of blocks. */
  datatype Content = Plain(text: string) | Parts(parts: seq<Part>)

  datatype Message = Message(role: Role, content: Content)

  /* ---------- Reading a message back ---------- */

  /** The tool calls a list of blocks carries, in block order. */
  function PartCalls(ps: seq<Part>): seq<ToolCall> {
    if |ps| == 0 then []
    else (if ps[0].ToolUsePart? then [ToolCall(ps[0].id, ps[0].name, ps[0].input)] else []) + PartCalls(ps[1..])
  }

  /** The text blocks of a list of blocks, concatenated. */
  function PartText(ps: seq<Part>): string {
    if |ps| == 0 then "" else (if ps[0].TextPart? then ps[0].text else "") + PartText(ps[1..])
  }

  /** The ids the tool-result blocks answer, in block order, and their contents. */
  function PartResultIds(ps: seq<Part>): seq<string> {
    if |ps| == 0 then [] else (if ps[0].ToolResultPart? then [ps[0].toolUseId] else []) + PartResultIds(ps[1..])
  }

  function PartResults(ps: seq<Part>): seq<string> {
    if |ps| == 0 then [] else (if ps[0].ToolResultPart? then [ps[0].content] else []) + PartResults(ps[1..])
  }

  function CallsOf(m: Message): seq<ToolCall> {
    if m.content.Parts? then PartCalls(m.content.parts) else []
  }

  function TextOf(m: Message): string {
    if m.content.Parts? then PartText(m.content.parts) else m.content.text
  }

  function ResultIdsOf(m: Message): seq<string> {
    if m.content.Parts? then PartResultIds(m.content.parts) else []
  }

  function ResultsOf(m: Message): seq<string> {
    if m.content.Parts? then PartResults(m.content.parts) else []
  }

  function Ids(calls: seq<ToolCall>): (r: seq<string>)
    ensures |r| == |calls| && forall i :: 0 <= i < |calls| ==> r[i] == calls[i].id
  {
    seq(|calls|, i requires 0 <= i < |calls| => calls[i].id)
  }

  /** A user turn answers an assistant turn when its results answer exactly the assistant's tool
      calls, one each, in the same order. */
  predicate AnswersToolUses(a: Message, u: Message) {
    a.role == Assistant && u.role == User && ResultIdsOf(u) == Ids(CallsOf(a))
  }

  predicate HasToolUses(m: Message) {
    m.role == Assistant && |CallsOf(m)| > 0
  }

  /** Every assistant turn that calls tools is immediately answered. */
  predicate Paired(conv: seq<Message>) {
    forall i :: 0 <= i < |conv| && HasToolUses(conv[i]) ==> i + 1 < |conv| && AnswersToolUses(conv[i], conv[i + 1])
  }

  /* ---------- Building a turn ---------- */

  function ToolUses(calls: seq<ToolCall>): (r: seq<Part>)
    ensures |r| == |calls|
    ensures forall i :: 0 <= i < |r| ==> r[i].ToolUsePart?
  {
    seq(|calls|, i requires 0 <= i < |calls| => ToolUsePart(calls[i].id, calls[i].name, calls[i].input))
  }

  lemma {:induction false} ToolUsesReadBack(calls: seq<ToolCall>)
    ensures PartCalls(ToolUses(calls)) == calls
    ensures PartText(ToolUses(calls)) == ""
    ensures PartResultIds(ToolUses(calls)) == []
    decreases |calls|
  {
    if |calls| > 0 {
      assert ToolUses(calls)[1..] == ToolUses(calls[1..]);
      ToolUsesReadBack(calls[1..]);
    }
  }

  /** The assistant turn of a round with tool calls: a text block only when the text is non-empty,
      then one tool-use block per call in call order. */
  function AssistantTurn(text: string, calls: seq<ToolCall>): (m: Message)
    ensures m.role == Assistant && m.content.Parts?
    ensures CallsOf(m) == calls && TextOf(m) == text
    ensures |m.content.parts| == |calls| + (if text == "" then 0 else 1)
    ensures forall i :: 0 <= i < |m.content.parts| ==> (m.content.parts[i].TextPart? <==> i == 0 && text != "")
    ensures ResultIdsOf(m) == []
  {
    ToolUsesReadBack(calls);
    var uses := ToolUses(calls);
    if text == "" then
      Message(Assistant, Parts(uses))
    else
      assert ([TextPart(text)] + uses)[1..] == uses;
      Message(Assistant, Parts([TextPart(text)] + uses))
  }

  function ResultParts(calls: seq<ToolCall>, results: seq<string>): (r: seq<Part>)
    requires |calls| == |results|
    ensures |r| == |calls|
  {
    seq(|calls|, i requires 0 <= i < |calls| => ToolResultPart(calls[i].id, results[i]))
  }

  lemma {:induction false} ResultPartsReadBack(calls: seq<ToolCall>, results: seq<string>)
    requires |calls| == |results|
    ensures PartResultIds(ResultParts(calls, results)) == Ids(calls)
    ensures PartResults(ResultParts(calls, results)) == results
    ensures PartCalls(ResultParts(calls, results)) == []
    decreases |calls|
  {
    if |calls| > 0 {
      assert ResultParts(calls, results)[1..] == ResultParts(calls[1..], results[1..]);
      ResultPartsReadBack(calls[1..], results[1..]);
      assert Ids(calls) == [calls[0].id] + Ids(calls[1..]);
    }
  }

  /** The user turn answering a round: one tool-result block per call, in call order, carrying the
      call's id and the text its execution returned. */
  function ResultsTurn(calls: seq<ToolCall>, results: seq<string>): (m: Message)
    requires |calls| == |results|
    ensures m.role == User
    ensures ResultIdsOf(m) == Ids(calls) && ResultsOf(m) == results
    ensures !HasToolUses(m)
  {
    ResultPartsReadBack(calls, results);
    Message(User, Parts(ResultParts(calls, results)))
  }

  /** The final turn: the text is appended as a plain assistant message only when it is non-empty. */
  function Finish(conv: seq<Message>, text: string): (r: seq<Message>)
    ensures text == "" ==> r == conv
    ensures text != "" ==> |r| == |conv| + 1 && r[..|conv|] == conv && r[|conv|] == Message(Assistant, Plain(text))
  {
    if text == "" then conv else conv + [Message(Assistant, Plain(text))]
  }

  /** A round's results turn answers its assistant turn, whatever the text. */
  lemma RoundAnswered(text: string, calls: seq<ToolCall>, results: seq<string>)
    requires |calls| == |results|
    ensures AnswersToolUses(AssistantTurn(text, calls), ResultsTurn(calls, results))
  {
  }

  /* ---------- The pairing invariant ---------- */

  /** Appending a message that calls no tools after an answered conversation keeps it paired. */
  lemma PairedAppendNoCalls(conv: seq<Message>, m: Message)
    requires Paired(conv) && !HasToolUses(m)
    ensures Paired(conv + [m])
  {
    var c := conv + [m];
    forall i | 0 <= i < |c| && HasToolUses(c[i])
      ensures i + 1 < |c| && AnswersToolUses(c[i], c[i + 1])
    {
      assert i < |conv| && c[i] == conv[i];
      assert c[i + 1] == conv[i + 1];
    }
  }

  /** A paired conversation never ends with an unanswered assistant turn. */
  lemma PairedLastAnswered(conv: seq<Message>)
    requires Paired(conv) && |conv| > 0
    ensures !HasToolUses(conv[|conv| - 1])
  {
  }

  /** Appending a round keeps every tool-using assistant turn answered. */
  lemma PairedAppendRound(conv: seq<Message>, text: string, calls: seq<ToolCall>, results: seq<string>)
    requires Paired(conv) && |calls| == |results|
    ensures Paired(conv + [AssistantTurn(text, calls), ResultsTurn(calls, results)])
  {
    var a := AssistantTurn(text, calls);
    var u := ResultsTurn(calls, results);
    var c := conv + [a, u];
    forall i | 0 <= i < |c| && HasToolUses(c[i])
      ensures i + 1 < |c| && AnswersToolUses(c[i], c[i + 1])
    {
      if i < |conv| {
        assert c[i] == conv[i] && c[i + 1] == (conv + [a])[i + 1];
        if i + 1 < |conv| {
          assert c[i + 1] == conv[i + 1];
        } else {
          PairedLastAnswered(conv);
          assert false;
        }
      } else {
        assert i == |conv| && c[i] == a && c[i + 1] == u;
        RoundAnswered(text, calls, results);
      }
    }
  }

  lemma PairedFinish(conv: seq<Message>, text: string)
    requires Paired(conv)
    ensures Paired(Finish(conv, text))
  {
    if text != "" {
      PairedAppendNoCalls(conv, Message(Assistant, Plain(text)));
    }
  }
}
