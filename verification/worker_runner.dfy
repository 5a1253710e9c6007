/** The worker runner: runs one agent on one task to completion. The assigned task is the first and only
    user message; each turn sends a request, folds the streamed reply, and either finishes with its
    text or records the tool calls, runs them in order and records their results. The worker's own
    tools' file-system bodies are a parameter. */
module WorkerRunner {
  import opened Wrappers
  import opened Seqs
  import opened JsonValue
  import opened Events
  import opened Stream
  import opened Transcript
  import opened Schema
  import State

  /* ---------- Tools ---------- */

  const ReadFileTool := ToolSchema("read_file", [StringProperty("path")], ["path"])
  const WriteFileTool := ToolSchema("write_file", [StringProperty("path"), StringProperty("content")], ["path", "content"])
  const SearchFilesTool := ToolSchema("search_files", [StringProperty("pattern")], ["pattern"])

  /** `WORKER_TOOLS`: the declarations of the tools a worker can be given, by name. */
  const WorkerTools: map<string, ToolSchema> :=
    map["read_file" := ReadFileTool, "write_file" := WriteFileTool, "search_files" := SearchFilesTool]

  /** Each declaration is stored under its own name and is well formed. */
  lemma WorkerToolsWellFormed()
    ensures forall n :: n in WorkerTools ==> WorkerTools[n].name == n && WellFormedSchema(WorkerTools[n])
  {
    assert PropertyNames(ReadFileTool) == ["path"];
    assert PropertyNames(WriteFileTool) == ["path", "content"];
    assert PropertyNames(SearchFilesTool) == ["pattern"];
  }

  /** The configured names that name a known tool, in configured order. */
  function KnownNames(names: seq<string>): (r: seq<string>)
    ensures |r| <= |names|
    ensures forall i :: 0 <= i < |r| ==> r[i] in WorkerTools && r[i] in names
  {
    if |names| == 0 then []
    else (if names[0] in WorkerTools then [names[0]] else []) + KnownNames(names[1..])
  }

  /** The tool declarations sent for an agent: those of its configured tools, in configured order,
      with unknown names dropped. */
  function ToolsFor(names: seq<string>): (r: seq<ToolSchema>)
    ensures |r| == |KnownNames(names)|
    ensures forall i :: 0 <= i < |r| ==> r[i] == WorkerTools[KnownNames(names)[i]]
    decreases |names|
  {
    if |names| == 0 then []
    else
      var rest := ToolsFor(names[1..]);
      if names[0] in WorkerTools then
        assert KnownNames(names) == [names[0]] + KnownNames(names[1..]);
        [WorkerTools[names[0]]] + rest
      else rest
  }

  /** Dropping unknown names is compositional: the filter of a concatenation is the concatenation
      of the filters. */
  lemma {:induction false} KnownNamesAppend(a: seq<string>, b: seq<string>)
    ensures KnownNames(a + b) == KnownNames(a) + KnownNames(b)
    decreases |a|
  {
    if |a| > 0 {
      assert (a + b)[1..] == a[1..] + b;
      KnownNamesAppend(a[1..], b);
    } else {
      assert a + b == b;
    }
  }

  /** A name is kept exactly when it names a known tool. */
  lemma KnownNamesOne(n: string)
    ensures KnownNames([n]) == (if n in WorkerTools then [n] else [])
  {
    assert [n][1..] == [];
  }

  /** Every configured tool that is known is sent, and nothing else is. */
  lemma {:induction false} ToolsForMembership(names: seq<string>, n: string)
    ensures n in KnownNames(names) <==> n in names && n in WorkerTools
    decreases |names|
  {
    if |names| > 0 {
      ToolsForMembership(names[1..], n);
      assert names == [names[0]] + names[1..];
    }
  }

  /** None of the default templates names a tool the runner knows, so their workers are sent no
      tools. */
  lemma DefaultTemplatesSendNoTools()
    ensures ToolsFor(State.GeneralConfig.allowedTools) == []
    ensures ToolsFor(State.CoderConfig.allowedTools) == []
    ensures ToolsFor(State.ResearcherConfig.allowedTools) == []
  {
    var general := State.GeneralConfig.allowedTools;
    var researcher := State.ResearcherConfig.allowedTools;
    forall n | n in general ensures n !in WorkerTools { }
    forall n | n in researcher ensures n !in WorkerTools { }
    ToolsForEmpty(general);
    ToolsForEmpty(researcher);
  }

  lemma ToolsForEmpty(names: seq<string>)
    requires forall n :: n in names ==> n !in WorkerTools
    ensures ToolsFor(names) == []
  {
  }

  /** The worker's file tools act on a workspace of type `F`: given the workspace, a tool name and
      its input, a body gives the workspace afterwards and the result text. */
  type FileTool<!F> = (F, string, Json) -> (F, string)

  /** `_execute_tool`: the three file tools are handled by `io` (their bodies are not modelled);
      any other name gives the unknown-tool text and leaves the workspace alone. The names it
      handles are exactly the declared tools. */
  function ExecuteTool<F>(io: FileTool<F>, fs: F, name: string, input: Json): (r: (F, string))
    ensures name in WorkerTools ==> r == io(fs, name, input)
    ensures name !in WorkerTools ==> r == (fs, "Unknown tool: " + name)
  {
    if name == "read_file" then io(fs, name, input)
    else if name == "write_file" then io(fs, name, input)
    else if name == "search_files" then io(fs, name, input)
    else (fs, "Unknown tool: " + name)
  }

  /* ---------- Requests ---------- */

  const MaxTokens: nat := 4096

  /** A request to the completion service. `tools` is absent when the request carries no tools
      field. */
  datatype Request = Request(maxTokens: nat, system: string, messages: seq<Message>, tools: Option<seq<ToolSchema>>)

  /** The agent's configuration as the runner reads it. */
  datatype AgentConfig = AgentConfig(name: string, systemPrompt: string, tools: seq<string>)

  /** The runner sets `Busy` on entry and `HasResult` on completion; other statuses are not told
      apart. */
  datatype AgentStatus = Busy | HasResult | OtherStatus

  datatype WorkerAgent = WorkerAgent(id: string, config: AgentConfig, status: AgentStatus,
                                     conversation: seq<Message>, lastResult: Option<string>)

  /** The request of one turn: the tools field is present only when there is at least one tool. */
  function BuildRequest(agent: WorkerAgent, conversation: seq<Message>, tools: seq<ToolSchema>): (r: Request)
    ensures r.tools.Some? <==> |tools| > 0
    ensures r.tools.Some? ==> r.tools.value == tools
    ensures r.system == agent.config.systemPrompt && r.messages == conversation && r.maxTokens == MaxTokens
  {
    Request(MaxTokens, agent.config.systemPrompt, conversation, if |tools| > 0 then Some(tools) else None)
  }

  /* ---------- The run ---------- */

  /** One `worker_text` event per chunk, tagged with the agent. */
  function TextEvents(agentId: string, chunks: seq<string>): (r: seq<Event>)
    ensures |r| == |chunks| && forall i :: 0 <= i < |r| ==> r[i] == WorkerTextEvent(agentId, chunks[i])
  {
    seq(|chunks|, i requires 0 <= i < |chunks| => WorkerTextEvent(agentId, chunks[i]))
  }

  /** One `worker_tool_call` event per call, in call order; each is emitted just before its call
      runs, and running a call emits nothing. */
  function CallEvents(agentId: string, calls: seq<ToolCall>): (r: seq<Event>)
    ensures |r| == |calls| && forall i :: 0 <= i < |r| ==> r[i] == WorkerToolCallEvent(agentId, calls[i].name, calls[i].input)
  {
    seq(|calls|, i requires 0 <= i < |calls| => WorkerToolCallEvent(agentId, calls[i].name, calls[i].input))
  }

  /** `_execute_tool` as a tool body of its own: the file tools through `io`, the rest refused. */
  function ToolExecutor<F>(io: FileTool<F>): FileTool<F> {
    (fs, name, input) => ExecuteTool(io, fs, name, input)
  }

  /** A batch of calls run: the workspace afterwards and one result per call. */
  datatype CallsRun<F> = CallsRun(fs: F, results: seq<string>)

  /** Runs the calls in order through `exec` on one workspace, each seeing what the earlier ones
      did. */
  function RunCalls<F>(exec: FileTool<F>, fs: F, calls: seq<ToolCall>): (r: CallsRun<F>)
    ensures |r.results| == |calls|
    decreases |calls|
  {
    if |calls| == 0 then CallsRun(fs, [])
    else
      var first := exec(fs, calls[0].name, calls[0].input);
      var rest := RunCalls(exec, first.0, calls[1..]);
      CallsRun(rest.fs, [first.1] + rest.results)
  }

  /** A non-empty batch runs its first call, then the rest on the workspace the first left. */
  lemma RunCallsCons<F>(exec: FileTool<F>, fs: F, calls: seq<ToolCall>)
    requires |calls| > 0
    ensures var first := exec(fs, calls[0].name, calls[0].input);
            var rest := RunCalls(exec, first.0, calls[1..]);
            RunCalls(exec, fs, calls) == CallsRun(rest.fs, [first.1] + rest.results)
  {
  }

  /** Running `a` then `b` is running `a + b`: the second batch starts from the workspace the
      first left. */
  lemma {:induction false} RunCallsAppend<F>(exec: FileTool<F>, fs: F, a: seq<ToolCall>, b: seq<ToolCall>)
    ensures var ra := RunCalls(exec, fs, a);
            var rb := RunCalls(exec, ra.fs, b);
            RunCalls(exec, fs, a + b) == CallsRun(rb.fs, ra.results + rb.results)
    decreases |a|
  {
    if |a| > 0 {
      var first := exec(fs, a[0].name, a[0].input);
      assert (a + b)[0] == a[0] && (a + b)[1..] == a[1..] + b;
      RunCallsAppend(exec, first.0, a[1..], b);
      RunCallsCons(exec, fs, a);
      RunCallsCons(exec, fs, a + b);
      var ra := RunCalls(exec, first.0, a[1..]);
      var rb := RunCalls(exec, ra.fs, b);
      assert [first.1] + (ra.results + rb.results) == ([first.1] + ra.results) + rb.results;
    } else {
      assert a + b == b;
      assert RunCalls(exec, fs, a) == CallsRun(fs, []);
      var rb := RunCalls(exec, fs, b);
      assert rb == CallsRun(rb.fs, [] + rb.results);
    }
  }

  /** The result of call `i` is the tool's result on the workspace the calls before it left: a
      write is seen by every later read in the same batch. */
  lemma RunCallsInOrder<F>(exec: FileTool<F>, fs: F, calls: seq<ToolCall>, i: nat)
    requires i < |calls|
    ensures RunCalls(exec, fs, calls).results[i] ==
            exec(RunCalls(exec, fs, calls[..i]).fs, calls[i].name, calls[i].input).1
  {
    var before := RunCalls(exec, fs, calls[..i]);
    RunCallsAppend(exec, fs, calls[..i], calls[i..]);
    assert calls[..i] + calls[i..] == calls;
    RunCallsCons(exec, before.fs, calls[i..]);
    assert calls[i..][0] == calls[i];
  }

  /** A call to a tool the runner does not know gives the unknown-tool text, and a batch of such
      calls leaves the workspace alone. */
  lemma {:induction false} UnknownCallsInert<F>(io: FileTool<F>, fs: F, calls: seq<ToolCall>)
    requires forall i :: 0 <= i < |calls| ==> calls[i].name !in WorkerTools
    ensures RunCalls(ToolExecutor(io), fs, calls).fs == fs
    ensures forall i :: 0 <= i < |calls| ==> RunCalls(ToolExecutor(io), fs, calls).results[i] == "Unknown tool: " + calls[i].name
    decreases |calls|
  {
    if |calls| > 0 {
      RunCallsCons(ToolExecutor(io), fs, calls);
      assert forall i :: 0 <= i < |calls[1..]| ==> calls[1..][i] == calls[i + 1];
      UnknownCallsInert(io, fs, calls[1..]);
    }
  }

  /** A run in progress: the agent, the conversation so far, the requests sent and the events
      emitted, in order, and the workspace. */
  datatype Progress<F> = Progress(agent: WorkerAgent, conversation: seq<Message>, requests: seq<Request>, events: seq<Event>, fs: F)

  datatype TurnResult<F> = Continue(progress: Progress<F>) | Ended(progress: Progress<F>, text: string)

  /** One turn on the stream `evs`. */
  function Turn<F>(parse: Parser, io: FileTool<F>, tools: seq<ToolSchema>, p: Progress<F>, evs: seq<StreamEvent>): (r: TurnResult<F>)
    ensures r.Ended? <==> Reassemble(parse, evs).calls == []
    ensures r.progress.agent == p.agent
    ensures r.progress.requests == p.requests + [BuildRequest(p.agent, p.conversation, tools)]
    ensures |p.events| <= |r.progress.events| && r.progress.events[..|p.events|] == p.events
    ensures r.Ended? ==> r.progress.fs == p.fs
  {
    var id := p.agent.id;
    var acc := Reassemble(parse, evs);
    var p1 := p.(requests := p.requests + [BuildRequest(p.agent, p.conversation, tools)],
                 events := p.events + TextEvents(id, acc.emitted));
    if |acc.calls| == 0 then
      Ended(p1.(conversation := Finish(p1.conversation, acc.text), events := p1.events + [WorkerDoneEvent(id, acc.text)]), acc.text)
    else
      var batch := RunCalls(ToolExecutor(io), p.fs, acc.calls);
      Continue(p1.(conversation := p1.conversation + [AssistantTurn(acc.text, acc.calls), ResultsTurn(acc.calls, batch.results)],
                   events := p1.events + CallEvents(id, acc.calls), fs := batch.fs))
  }

  /** The turns in order until one ends the run: one request per turn taken, all of them when the
      run is cut off. */
  function Loop<F>(parse: Parser, io: FileTool<F>, tools: seq<ToolSchema>, p: Progress<F>, turns: seq<seq<StreamEvent>>): (r: TurnResult<F>)
    ensures |turns| == 0 ==> r == Continue(p)
    ensures r.progress.agent == p.agent
    ensures |turns| > 0 ==> |p.requests| < |r.progress.requests| <= |p.requests| + |turns|
    ensures r.Continue? ==> |r.progress.requests| == |p.requests| + |turns|
    ensures p.requests <= r.progress.requests && p.events <= r.progress.events
    decreases |turns|
  {
    if |turns| == 0 then Continue(p)
    else
      match Turn(parse, io, tools, p, turns[0])
      case Continue(p') => Loop(parse, io, tools, p', turns[1..])
      case Ended(p', text) => Ended(p', text)
  }

  /** The outcome of `run`: finished with the agent's final text, or cut off when the turns ran out. */
  datatype RunResult<F> = Finished(agent: WorkerAgent, requests: seq<Request>, events: seq<Event>, text: string, fs: F)
                        | Unfinished(agent: WorkerAgent, requests: seq<Request>, events: seq<Event>, fs: F)

  /** The state a run starts from: the agent BUSY and the assigned task as the only message. */
  function Start<F>(agent: WorkerAgent, task: string, fs: F): (r: Progress<F>)
    ensures r.agent.status == Busy && r.agent == agent.(status := Busy)
    ensures r.conversation == [Message(User, Plain(task))] && r.requests == [] && r.events == [] && r.fs == fs
  {
    Progress(agent.(status := Busy), [Message(User, Plain(task))], [], [], fs)
  }

  /** `run`: on completion the agent keeps the conversation, becomes HAS_RESULT and stores the
      final text as its last result. */
  function Run<F>(parse: Parser, io: FileTool<F>, agent: WorkerAgent, task: string, fs: F, turns: seq<seq<StreamEvent>>): (r: RunResult<F>)
    ensures r.agent.id == agent.id && r.agent.config == agent.config
    ensures r.Finished? ==> r.agent.status == HasResult && r.agent.lastResult == Some(r.text) && 0 < |r.requests| <= |turns|
    ensures r.Unfinished? ==> r.agent == agent.(status := Busy) && |r.requests| == |turns|
  {
    var tools := ToolsFor(agent.config.tools);
    match Loop(parse, io, tools, Start(agent, task, fs), turns)
    case Ended(p, text) =>
      Finished(p.agent.(conversation := p.conversation, status := HasResult, lastResult := Some(text)), p.requests, p.events, text, p.fs)
    case Continue(p) => Unfinished(p.agent, p.requests, p.events, p.fs)
  }

  /* ---------- Properties ---------- */

  /** A turn without tool calls ends the run: its text is the turn's text chunks concatenated,
      appended only when non-empty, and the events are one `worker_text` per chunk then one
      `worker_done` carrying the text. */
  lemma FinalTurn<F>(parse: Parser, io: FileTool<F>, tools: seq<ToolSchema>, p: Progress<F>, evs: seq<StreamEvent>)
    requires Reassemble(parse, evs).calls == []
    ensures var r := Turn(parse, io, tools, p, evs);
            && r.Ended? && r.text == Concat(TextChunks(evs))
            && r.progress.conversation == Finish(p.conversation, r.text)
            && r.progress.events == p.events + TextEvents(p.agent.id, TextChunks(evs)) + [WorkerDoneEvent(p.agent.id, r.text)]
            && r.progress.requests == p.requests + [BuildRequest(p.agent, p.conversation, tools)]
  {
    ReassembleText(parse, evs);
  }

  /** A turn with tool calls appends the assistant turn and the results turn answering it, and
      emits the text chunks then one `worker_tool_call` per call, in call order. */
  lemma ToolTurn<F>(parse: Parser, io: FileTool<F>, tools: seq<ToolSchema>, p: Progress<F>, evs: seq<StreamEvent>)
    requires |Reassemble(parse, evs).calls| > 0
    ensures var calls := Reassemble(parse, evs).calls;
            var r := Turn(parse, io, tools, p, evs);
            && r.Continue?
            && |r.progress.conversation| == |p.conversation| + 2
            && r.progress.conversation[..|p.conversation|] == p.conversation
            && AnswersToolUses(r.progress.conversation[|p.conversation|], r.progress.conversation[|p.conversation| + 1])
            && CallsOf(r.progress.conversation[|p.conversation|]) == calls
            && ResultsOf(r.progress.conversation[|p.conversation| + 1]) == RunCalls(ToolExecutor(io), p.fs, calls).results
            && r.progress.fs == RunCalls(ToolExecutor(io), p.fs, calls).fs
            && r.progress.events == p.events + TextEvents(p.agent.id, TextChunks(evs)) + CallEvents(p.agent.id, calls)
  {
    ReassembleText(parse, evs);
    var acc := Reassemble(parse, evs);
    RoundAnswered(acc.text, acc.calls, RunCalls(ToolExecutor(io), p.fs, acc.calls).results);
  }

  /** What holds throughout a run of agent `id` on `task`: the assigned task is the first message and every
      tool-using turn is answered; every request carries the agent's system prompt, starts with the
      task, and has the tools field exactly when there are tools; every event so far is tagged with
      the agent and none is `worker_done`. */
  predicate Steady<F>(p: Progress<F>, id: string, system: string, task: string, tools: seq<ToolSchema>) {
    && p.agent.id == id && p.agent.status == Busy && p.agent.config.systemPrompt == system
    && |p.conversation| > 0 && p.conversation[0] == Message(User, Plain(task)) && Paired(p.conversation)
    && GoodRequests(p.requests, system, task, tools)
    && Tagged(p.events, id) && NoneDone(p.events)
  }

  predicate GoodRequests(rs: seq<Request>, system: string, task: string, tools: seq<ToolSchema>) {
    forall i :: 0 <= i < |rs| ==> GoodRequest(rs[i], system, task, tools)
  }

  /** Every event is tagged with agent `id`. */
  predicate Tagged(evs: seq<Event>, id: string) {
    forall i :: 0 <= i < |evs| ==> evs[i].agentId == Some(id)
  }

  predicate NoneDone(evs: seq<Event>) {
    forall i :: 0 <= i < |evs| ==> evs[i].eventType != WorkerDone
  }

  lemma TaggedAppend(a: seq<Event>, b: seq<Event>, id: string)
    requires Tagged(a, id) && Tagged(b, id)
    ensures Tagged(a + b, id)
  {
    forall i | 0 <= i < |a + b| ensures (a + b)[i].agentId == Some(id) {
      if i >= |a| { assert (a + b)[i] == b[i - |a|]; }
    }
  }

  lemma NoneDoneAppend(a: seq<Event>, b: seq<Event>)
    requires NoneDone(a) && NoneDone(b)
    ensures NoneDone(a + b)
  {
    forall i | 0 <= i < |a + b| ensures (a + b)[i].eventType != WorkerDone {
      if i >= |a| { assert (a + b)[i] == b[i - |a|]; }
    }
  }

  predicate GoodRequest(r: Request, system: string, task: string, tools: seq<ToolSchema>) {
    && r.system == system && |r.messages| > 0 && r.messages[0] == Message(User, Plain(task))
    && r.tools == (if |tools| > 0 then Some(tools) else None)
  }

  lemma StartSteady<F>(agent: WorkerAgent, task: string, fs: F, tools: seq<ToolSchema>)
    ensures Steady(Start(agent, task, fs), agent.id, agent.config.systemPrompt, task, tools)
  {
  }

  /** A turn's text and tool-call events are all tagged with the agent and none is `worker_done`. */
  lemma TurnEventsTagged(id: string, chunks: seq<string>, calls: seq<ToolCall>)
    ensures Tagged(TextEvents(id, chunks) + CallEvents(id, calls), id)
    ensures NoneDone(TextEvents(id, chunks) + CallEvents(id, calls))
  {
    TaggedAppend(TextEvents(id, chunks), CallEvents(id, calls), id);
    NoneDoneAppend(TextEvents(id, chunks), CallEvents(id, calls));
  }

  /** The request a turn sends keeps the invariant's promises about requests. */
  lemma RequestGood<F>(p: Progress<F>, tools: seq<ToolSchema>, id: string, system: string, task: string)
    requires Steady(p, id, system, task, tools)
    ensures GoodRequests(p.requests + [BuildRequest(p.agent, p.conversation, tools)], system, task, tools)
  {
    var rs := p.requests + [BuildRequest(p.agent, p.conversation, tools)];
    forall i | 0 <= i < |rs| ensures GoodRequest(rs[i], system, task, tools) {
      if i < |p.requests| { assert rs[i] == p.requests[i]; }
    }
  }

  /** The parts of a turn that goes on: the round appended to the conversation and the events added. */
  lemma ContinueShape<F>(parse: Parser, io: FileTool<F>, tools: seq<ToolSchema>, p: Progress<F>, evs: seq<StreamEvent>)
    requires Turn(parse, io, tools, p, evs).Continue?
    ensures var acc := Reassemble(parse, evs);
            var r := Turn(parse, io, tools, p, evs).progress;
            && r.conversation == p.conversation + [AssistantTurn(acc.text, acc.calls), ResultsTurn(acc.calls, RunCalls(ToolExecutor(io), p.fs, acc.calls).results)]
            && r.events == p.events + (TextEvents(p.agent.id, acc.emitted) + CallEvents(p.agent.id, acc.calls))
  {
    var acc := Reassemble(parse, evs);
    var r := Turn(parse, io, tools, p, evs).progress;
    assert r.events == p.events + TextEvents(p.agent.id, acc.emitted) + CallEvents(p.agent.id, acc.calls);
  }

  lemma ContinuePreservesSteady<F>(parse: Parser, io: FileTool<F>, tools: seq<ToolSchema>, p: Progress<F>, evs: seq<StreamEvent>,
                                id: string, system: string, task: string)
    requires Steady(p, id, system, task, tools)
    requires Turn(parse, io, tools, p, evs).Continue?
    ensures Steady(Turn(parse, io, tools, p, evs).progress, id, system, task, tools)
  {
    var acc := Reassemble(parse, evs);
    var results := RunCalls(ToolExecutor(io), p.fs, acc.calls).results;
    var added := TextEvents(id, acc.emitted) + CallEvents(id, acc.calls);
    var r := Turn(parse, io, tools, p, evs).progress;
    ContinueShape(parse, io, tools, p, evs);
    PairedAppendRound(p.conversation, acc.text, acc.calls, results);
    assert r.conversation[0] == p.conversation[0];
    RequestGood(p, tools, id, system, task);
    TurnEventsTagged(id, acc.emitted, acc.calls);
    TaggedAppend(p.events, added, id);
    NoneDoneAppend(p.events, added);
  }

  /** The run ends with its agent's `worker_done` as the last event and the only one. */
  predicate EndsDone(evs: seq<Event>, id: string, text: string) {
    && |evs| > 0 && evs[|evs| - 1] == WorkerDoneEvent(id, text)
    && NoneDone(evs[..|evs| - 1])
  }

  /** What holds when a run has ended: as `Steady`, except that the last event is the agent's
      `worker_done`. */
  predicate Settled<F>(p: Progress<F>, id: string, system: string, task: string, tools: seq<ToolSchema>, text: string) {
    && p.agent.id == id && p.agent.status == Busy && p.agent.config.systemPrompt == system
    && |p.conversation| > 0 && p.conversation[0] == Message(User, Plain(task)) && Paired(p.conversation)
    && GoodRequests(p.requests, system, task, tools)
    && Tagged(p.events, id) && EndsDone(p.events, id, text)
  }

  lemma EndedSettled<F>(parse: Parser, io: FileTool<F>, tools: seq<ToolSchema>, p: Progress<F>, evs: seq<StreamEvent>,
                     id: string, system: string, task: string)
    requires Steady(p, id, system, task, tools)
    requires Turn(parse, io, tools, p, evs).Ended?
    ensures var r := Turn(parse, io, tools, p, evs); Settled(r.progress, id, system, task, tools, r.text)
  {
    var acc := Reassemble(parse, evs);
    var r := Turn(parse, io, tools, p, evs).progress;
    var before := p.events + TextEvents(id, acc.emitted);
    var done := WorkerDoneEvent(id, acc.text);
    assert r.events == before + [done];
    assert r.conversation == Finish(p.conversation, acc.text);
    PairedFinish(p.conversation, acc.text);
    assert r.conversation[0] == p.conversation[0];
    RequestGood(p, tools, id, system, task);
    TurnEventsTagged(id, acc.emitted, []);
    assert TextEvents(id, acc.emitted) + CallEvents(id, []) == TextEvents(id, acc.emitted);
    TaggedAppend(p.events, TextEvents(id, acc.emitted), id);
    NoneDoneAppend(p.events, TextEvents(id, acc.emitted));
    assert Tagged([done], id);
    TaggedAppend(before, [done], id);
    assert r.events[..|r.events| - 1] == before;
  }

  /** Whatever the turns, a loop that ends does so settled, and one that does not end stays
      steady. */
  lemma {:induction false} LoopSteady<F>(parse: Parser, io: FileTool<F>, tools: seq<ToolSchema>, p: Progress<F>,
                                      turns: seq<seq<StreamEvent>>, id: string, system: string, task: string)
    requires Steady(p, id, system, task, tools)
    ensures var r := Loop(parse, io, tools, p, turns);
            && (r.Continue? ==> Steady(r.progress, id, system, task, tools))
            && (r.Ended? ==> Settled(r.progress, id, system, task, tools, r.text))
    decreases |turns|
  {
    if |turns| > 0 {
      var t := Turn(parse, io, tools, p, turns[0]);
      if t.Continue? {
        ContinuePreservesSteady(parse, io, tools, p, turns[0], id, system, task);
        LoopSteady(parse, io, tools, t.progress, turns[1..], id, system, task);
      } else {
        EndedSettled(parse, io, tools, p, turns[0], id, system, task);
      }
    }
  }

  /** A finished run: the agent keeps its id and configuration, becomes HAS_RESULT with the final
      text as its last result, and holds a conversation that starts with the assigned task and answers every
      tool-using turn. Every request carries the agent's system prompt, starts with the assigned task, and
      has a tools field exactly when the agent's configured tools include a known one. Every event
      is tagged with the agent, and `worker_done` with the final text is the last event and the
      only one. */
  lemma RunFinished<F>(parse: Parser, io: FileTool<F>, agent: WorkerAgent, task: string, fs: F, turns: seq<seq<StreamEvent>>)
    requires Run(parse, io, agent, task, fs, turns).Finished?
    ensures var r := Run(parse, io, agent, task, fs, turns);
            var tools := ToolsFor(agent.config.tools);
            && r.agent.id == agent.id && r.agent.config == agent.config
            && r.agent.status == HasResult && r.agent.lastResult == Some(r.text)
            && |r.agent.conversation| > 0 && r.agent.conversation[0] == Message(User, Plain(task))
            && Paired(r.agent.conversation)
            && GoodRequests(r.requests, agent.config.systemPrompt, task, tools)
            && Tagged(r.events, agent.id) && EndsDone(r.events, agent.id, r.text)
  {
    var tools := ToolsFor(agent.config.tools);
    StartSteady(agent, task, fs, tools);
    LoopSteady(parse, io, tools, Start(agent, task, fs), turns, agent.id, agent.config.systemPrompt, task);
    LoopKeepsAgent(parse, io, tools, Start(agent, task, fs), turns);
  }

  /** The loop never changes the agent record itself; the run updates it once, at the end. */
  lemma {:induction false} LoopKeepsAgent<F>(parse: Parser, io: FileTool<F>, tools: seq<ToolSchema>, p: Progress<F>,
                                          turns: seq<seq<StreamEvent>>)
    ensures Loop(parse, io, tools, p, turns).progress.agent == p.agent
    decreases |turns|
  {
    if |turns| > 0 {
      var t := Turn(parse, io, tools, p, turns[0]);
      if t.Continue? {
        LoopKeepsAgent(parse, io, tools, t.progress, turns[1..]);
      }
    }
  }

  /** Finished or cut off, every event a run emits is tagged with its agent. */
  lemma RunEventsTagged<F>(parse: Parser, io: FileTool<F>, agent: WorkerAgent, task: string, fs: F, turns: seq<seq<StreamEvent>>)
    ensures Tagged(Run(parse, io, agent, task, fs, turns).events, agent.id)
  {
    var tools := ToolsFor(agent.config.tools);
    StartSteady(agent, task, fs, tools);
    LoopSteady(parse, io, tools, Start(agent, task, fs), turns, agent.id, agent.config.systemPrompt, task);
  }

  /** A run cut off before its final turn leaves the agent BUSY, with no result stored. */
  lemma RunUnfinished<F>(parse: Parser, io: FileTool<F>, agent: WorkerAgent, task: string, fs: F, turns: seq<seq<StreamEvent>>)
    requires Run(parse, io, agent, task, fs, turns).Unfinished?
    ensures Run(parse, io, agent, task, fs, turns).agent == agent.(status := Busy)
  {
    LoopKeepsAgent(parse, io, ToolsFor(agent.config.tools), Start(agent, task, fs), turns);
  }
}
