/** The master agent's loop: each turn folds one streamed completion, and either ends the run with
    its text or records the tool calls, executes them in order through the tool executor, records
    their results and goes round again. The completion service is a list of streams, one per turn;
    running out of it leaves the run unfinished. */
module MasterLoop {
  import opened Wrappers
  import opened Seqs
  import opened JsonValue
  import opened Types
  import opened State
  import opened Events
  import opened Stream
  import opened Transcript
  import opened Dispatch
  import WorkerRunner

  /** What the loop touches: the federation state (for the master status), every status it set in
      order, the conversation, the events it emitted in order, and the tool executor's state. */
  datatype World<S> = World(fed: FederationState, statuses: seq<(MasterStatus, Option<string>)>,
                            conversation: seq<Message>, events: seq<Event>, tools: S)

  function SetStatus<S>(w: World<S>, status: MasterStatus, tool: Option<string>): (r: World<S>)
    ensures r.fed.master == MasterState(status, tool) && r.statuses == w.statuses + [(status, tool)]
    ensures r.conversation == w.conversation && r.events == w.events && r.tools == w.tools
  {
    w.(fed := SetMasterStatus(w.fed, status, tool), statuses := w.statuses + [(status, tool)])
  }

  /** One `master_text` event per chunk, in order. */
  function TextEvents(chunks: seq<string>): (r: seq<Event>)
    ensures |r| == |chunks| && forall i :: 0 <= i < |r| ==> r[i] == MasterTextEvent(chunks[i])
  {
    seq(|chunks|, i requires 0 <= i < |chunks| => MasterTextEvent(chunks[i]))
  }

  /** The status set before each call of a batch: calling that tool. */
  function CallingStatuses(calls: seq<ToolCall>): (r: seq<(MasterStatus, Option<string>)>)
    ensures |r| == |calls| && forall i :: 0 <= i < |r| ==> r[i] == (CallingTool, Some(calls[i].name))
  {
    seq(|calls|, i requires 0 <= i < |calls| => (CallingTool, Some(calls[i].name)))
  }

  /** The result of executing a batch of calls: the world, the result texts of the calls that
      returned, and the error when one raised (which ends the batch). */
  datatype Batch<S> = Batch(world: World<S>, results: seq<string>, error: Option<string>)

  /** What the loop calls a tool through: a state, a tool name and an input give an outcome. */
  type Executor<!S> = (S, string, Json) -> Outcome<S>

  /** The loop's executor is the tool executor over the interface `api`. */
  function ExecutorOf<S>(api: Api<S>): Executor<S> {
    (s, name, input) => Execute(api, s, name, input)
  }

  /** Executes the calls in order, setting the status to calling each one first. */
  function ExecuteCalls<S>(exec: Executor<S>, w: World<S>, calls: seq<ToolCall>): (r: Batch<S>)
    ensures r.world.conversation == w.conversation
    ensures r.error.None? ==> |r.results| == |calls| && r.world.statuses == w.statuses + CallingStatuses(calls)
    ensures |w.statuses| <= |r.world.statuses| && r.world.statuses[..|w.statuses|] == w.statuses
    ensures forall i :: |w.statuses| <= i < |r.world.statuses| ==>
              r.world.statuses[i].0 == CallingTool && r.world.statuses[i].1.Some?
    ensures w.events <= r.world.events
    ensures |calls| > 0 ==> r.world.fed.master.status == CallingTool
    ensures |calls| == 0 ==> r == Batch(w, [], None)
    decreases |calls|
  {
    if |calls| == 0 then Batch(w, [], None)
    else
      var w1 := SetStatus(w, CallingTool, Some(calls[0].name));
      var out := exec(w1.tools, calls[0].name, calls[0].input);
      var w2 := w1.(tools := out.state, events := w1.events + out.events);
      if out.Raised? then
        BatchStep(w.statuses, w2.statuses, w2.statuses, w.events, w2.events, w2.events, calls[0].name);
        Batch(w2, [], Some(out.error))
      else
        var rest := ExecuteCalls(exec, w2, calls[1..]);
        BatchStep(w.statuses, w2.statuses, rest.world.statuses, w.events, w2.events, rest.world.events, calls[0].name);
        CallingStatusesCons(w.statuses, calls);
        Batch(rest.world, [out.text] + rest.results, rest.error)
  }

  /** The statuses of a batch: the first call's, then the rest's. */
  lemma CallingStatusesCons(a: seq<(MasterStatus, Option<string>)>, calls: seq<ToolCall>)
    requires |calls| > 0
    ensures a + [(CallingTool, Some(calls[0].name))] + CallingStatuses(calls[1..]) == a + CallingStatuses(calls)
  {
    assert CallingStatuses(calls) == [(CallingTool, Some(calls[0].name))] + CallingStatuses(calls[1..]);
  }

  /** One call of a batch: its status, then what the rest of the batch adds. */
  lemma BatchStep(a: seq<(MasterStatus, Option<string>)>, b: seq<(MasterStatus, Option<string>)>,
                  c: seq<(MasterStatus, Option<string>)>, ea: seq<Event>, eb: seq<Event>, ec: seq<Event>, name: string)
    requires b == a + [(CallingTool, Some(name))]
    requires |b| <= |c| && c[..|b|] == b
    requires forall i :: |b| <= i < |c| ==> c[i].0 == CallingTool && c[i].1.Some?
    requires |ea| <= |eb| && eb[..|ea|] == ea && |eb| <= |ec| && ec[..|eb|] == eb
    ensures |a| <= |c| && c[..|a|] == a
    ensures forall i :: |a| <= i < |c| ==> c[i].0 == CallingTool && c[i].1.Some?
    ensures |ea| <= |ec| && ec[..|ea|] == ea
  {
    assert c[..|a|] == c[..|b|][..|a|];
    assert ec[..|ea|] == ec[..|eb|][..|ea|];
    forall i | |a| <= i < |c|
      ensures c[i].0 == CallingTool && c[i].1.Some?
    {
      if i < |b| {
        assert c[i] == c[..|b|][i] == b[i];
      }
    }
  }

  datatype TurnResult<S> = Continue(world: World<S>) | Ended(world: World<S>, text: string) | Crashed(world: World<S>, error: string)

  /** One turn on the stream `evs`: it ends the run exactly when the model asked for no tool, and
      then leaves the master IDLE with MASTER_DONE last; a turn that goes on leaves it THINKING.
      Events are only ever appended. */
  function Turn<S>(exec: Executor<S>, parse: Parser, w: World<S>, evs: seq<StreamEvent>): (r: TurnResult<S>)
    ensures r.Ended? <==> Reassemble(parse, evs).calls == []
    ensures r.Ended? ==> r.world.fed.master.status == MasterIdle && |r.world.events| > 0 && r.world.events[|r.world.events| - 1] == MasterDoneEvent
    ensures r.Continue? ==> r.world.fed.master.status == Thinking
    ensures w.events <= r.world.events
  {
    var acc := Reassemble(parse, evs);
    var w1 := w.(events := w.events + TextEvents(acc.emitted));
    if |acc.calls| == 0 then
      var w2 := SetStatus(w1.(conversation := Finish(w1.conversation, acc.text)), MasterIdle, None);
      Ended(w2.(events := w2.events + [MasterDoneEvent]), acc.text)
    else
      var w2 := w1.(conversation := w1.conversation + [AssistantTurn(acc.text, acc.calls)]);
      var b := ExecuteCalls(exec, w2, acc.calls);
      if b.error.Some? then Crashed(b.world, b.error.value)
      else
        var w3 := b.world.(conversation := b.world.conversation + [ResultsTurn(acc.calls, b.results)]);
        Continue(SetStatus(w3, Thinking, None))
  }

  datatype RunResult<S> = Finished(world: World<S>, text: string) | Failed(world: World<S>, error: string) | Unfinished(world: World<S>)

  /** The turns in order until one ends or crashes; a finished loop leaves the master IDLE, and
      running out of turns leaves it as the last turn did. */
  function Loop<S>(exec: Executor<S>, parse: Parser, w: World<S>, turns: seq<seq<StreamEvent>>): (r: RunResult<S>)
    ensures |turns| == 0 ==> r == Unfinished(w)
    ensures r.Finished? ==> r.world.fed.master.status == MasterIdle
    ensures r.Unfinished? && |turns| > 0 ==> r.world.fed.master.status == Thinking
    ensures w.events <= r.world.events
    decreases |turns|
  {
    if |turns| == 0 then Unfinished(w)
    else
      match Turn(exec, parse, w, turns[0])
      case Continue(w') => Loop(exec, parse, w', turns[1..])
      case Ended(w', text) => Finished(w', text)
      case Crashed(w', e) => Failed(w', e)
  }

  /** `run`: the status becomes THINKING, the user message is appended, then the loop runs. */
  function Run<S>(api: Api<S>, parse: Parser, w: World<S>, userMessage: string, turns: seq<seq<StreamEvent>>): (r: RunResult<S>)
    ensures r.Finished? ==> r.world.fed.master.status == MasterIdle
    ensures r.Unfinished? ==> r.world.fed.master.status == Thinking
    ensures w.events <= r.world.events
    ensures |turns| == 0 ==> r.Unfinished? && r.world.conversation == w.conversation + [Message(User, Plain(userMessage))]
  {
    var w1 := SetStatus(w, Thinking, None);
    Loop(ExecutorOf(api), parse, w1.(conversation := w1.conversation + [Message(User, Plain(userMessage))]), turns)
  }

  /* ---------- One turn ---------- */

  /** A turn without tool calls ends the run with the turn's text: the text is appended only when
      non-empty, the status becomes IDLE, and the events are the turn's text chunks then
      MASTER_DONE. */
  lemma FinalTurn<S>(exec: Executor<S>, parse: Parser, w: World<S>, evs: seq<StreamEvent>)
    requires Reassemble(parse, evs).calls == []
    ensures var r := Turn(exec, parse, w, evs);
            && r.Ended? && r.text == Concat(TextChunks(evs))
            && r.world.conversation == Finish(w.conversation, r.text)
            && r.world.statuses == w.statuses + [(MasterIdle, None)]
            && r.world.fed.master == MasterState(MasterIdle, None)
            && r.world.events == w.events + TextEvents(TextChunks(evs)) + [MasterDoneEvent]
            && r.world.tools == w.tools
  {
    ReassembleText(parse, evs);
  }

  /** The pieces of a tool turn that ran every call: the assistant turn, the batch, and the
      results turn. */
  lemma ToolTurnParts<S>(exec: Executor<S>, parse: Parser, w: World<S>, evs: seq<StreamEvent>)
    requires |Reassemble(parse, evs).calls| > 0
    requires Turn(exec, parse, w, evs).Continue?
    ensures var acc := Reassemble(parse, evs);
            var w2 := w.(events := w.events + TextEvents(acc.emitted),
                         conversation := w.conversation + [AssistantTurn(acc.text, acc.calls)]);
            var b := ExecuteCalls(exec, w2, acc.calls);
            && b.error.None?
            && Turn(exec, parse, w, evs).world ==
               SetStatus(b.world.(conversation := w2.conversation + [ResultsTurn(acc.calls, b.results)]), Thinking, None)
  {
  }

  /** A turn with tool calls that all return appends exactly the assistant turn, with the turn's
      text and calls, and the results turn answering it. */
  lemma ToolTurnTranscript<S>(exec: Executor<S>, parse: Parser, w: World<S>, evs: seq<StreamEvent>)
    requires |Reassemble(parse, evs).calls| > 0
    requires Turn(exec, parse, w, evs).Continue?
    ensures var r := Turn(exec, parse, w, evs).world;
            && |r.conversation| == |w.conversation| + 2
            && r.conversation[..|w.conversation|] == w.conversation
            && r.conversation[|w.conversation|] == AssistantTurn(Concat(TextChunks(evs)), Reassemble(parse, evs).calls)
            && AnswersToolUses(r.conversation[|w.conversation|], r.conversation[|w.conversation| + 1])
  {
    ReassembleText(parse, evs);
    ToolTurnParts(exec, parse, w, evs);
    var acc := Reassemble(parse, evs);
    var w2 := w.(events := w.events + TextEvents(acc.emitted),
                 conversation := w.conversation + [AssistantTurn(acc.text, acc.calls)]);
    var b := ExecuteCalls(exec, w2, acc.calls);
    RoundAnswered(acc.text, acc.calls, b.results);
    var r := Turn(exec, parse, w, evs).world;
    assert r.conversation == w.conversation + [AssistantTurn(acc.text, acc.calls), ResultsTurn(acc.calls, b.results)];
  }

  /** A turn with tool calls that all return sets CALLING_TOOL with each call's name in call order,
      then THINKING; the turn's text chunks are emitted before any call's events. */
  lemma ToolTurnStatuses<S>(exec: Executor<S>, parse: Parser, w: World<S>, evs: seq<StreamEvent>)
    requires |Reassemble(parse, evs).calls| > 0
    requires Turn(exec, parse, w, evs).Continue?
    ensures var r := Turn(exec, parse, w, evs).world;
            && r.statuses == w.statuses + CallingStatuses(Reassemble(parse, evs).calls) + [(Thinking, None)]
            && r.fed.master == MasterState(Thinking, None)
            && |r.events| >= |w.events| + |TextChunks(evs)|
            && r.events[..|w.events| + |TextChunks(evs)|] == w.events + TextEvents(TextChunks(evs))
  {
    ReassembleText(parse, evs);
    ToolTurnParts(exec, parse, w, evs);
    var acc := Reassemble(parse, evs);
    var w2 := w.(events := w.events + TextEvents(acc.emitted),
                 conversation := w.conversation + [AssistantTurn(acc.text, acc.calls)]);
    var b := ExecuteCalls(exec, w2, acc.calls);
    assert b.world.events[..|w2.events|] == w2.events;
  }

  /* ---------- Whole runs ---------- */

  /** A runner that never reports a MASTER_DONE event. */
  ghost predicate RunnerQuiet<S(!new)>(api: Api<S>) {
    api.runner.Some? ==> forall s, a, t :: MasterDoneEvent !in api.runner.value(s, a, t).2
  }

  lemma DelegateNoMasterDone<S(!new)>(api: Api<S>, s: S, agentId: string, task: string, intention: string, outputPath: Option<string>)
    requires RunnerQuiet(api)
    ensures MasterDoneEvent !in Delegate(api, s, agentId, task, intention, outputPath).events
  {
    if api.getAgent(s, agentId).Some? && IntentionTypeOf(intention).Some? && api.runner.Some? {
      DelegateWithRunner(api, s, agentId, task, intention, outputPath);
      var (s1, did) := api.createDelegation(s, agentId, task, IntentionTypeOf(intention).value, outputPath);
      var run := api.runner.value(s1, api.getAgent(s, agentId).value, task);
      assert MasterDoneEvent !in run.2;
    }
  }

  lemma HandlerNoMasterDone<S(!new)>(api: Api<S>, s: S, name: string, args: map<string, string>)
    requires RunnerQuiet(api)
    requires name in HandlerNames && forall k :: k in Params(name).0 ==> k in args
    ensures MasterDoneEvent !in RunHandler(api, s, name, args).events
  {
    if name == "delegate" {
      DelegateNoMasterDone(api, s, args["agent_id"], args["task"], args["intention"],
                           if "output_path" in args then Some(args["output_path"]) else None);
    }
  }

  /** The tool executor emits no MASTER_DONE unless its runner does. */
  lemma ExecuteNoMasterDone<S(!new)>(api: Api<S>, s: S, name: string, input: Json)
    requires RunnerQuiet(api)
    ensures MasterDoneEvent !in Execute(api, s, name, input).events
  {
    if name in HandlerNames {
      var (required, optional) := Params(name);
      var b := Bind(required, optional, input);
      if b.Ok? {
        HandlerNoMasterDone(api, s, name, b.value);
        ExecuteBracketsHandler(api, s, name, input);
      }
    }
  }

  /** Every event carries an agent id. */
  predicate AgentScoped(evs: seq<Event>) {
    forall i :: 0 <= i < |evs| ==> evs[i].agentId.Some?
  }

  /** A runner whose events all carry an agent id never reports MASTER_DONE, which carries none. */
  lemma ScopedRunnerQuiet<S(!new)>(api: Api<S>)
    requires api.runner.Some? ==> forall s, a, t :: AgentScoped(api.runner.value(s, a, t).2)
    ensures RunnerQuiet(api)
  {
    if api.runner.Some? {
      forall s, a, t ensures MasterDoneEvent !in api.runner.value(s, a, t).2 {
        var evs := api.runner.value(s, a, t).2;
        assert AgentScoped(evs);
      }
    }
  }

  /** The worker runner's events all carry the agent's id, so a runner that reports them is quiet
      in the sense `RunFinished` needs. */
  lemma WorkerRunScoped<F>(parse: Parser, io: WorkerRunner.FileTool<F>, agent: WorkerRunner.WorkerAgent, task: string,
                           fs: F, turns: seq<seq<StreamEvent>>)
    ensures AgentScoped(WorkerRunner.Run(parse, io, agent, task, fs, turns).events)
    ensures MasterDoneEvent !in WorkerRunner.Run(parse, io, agent, task, fs, turns).events
  {
    var evs := WorkerRunner.Run(parse, io, agent, task, fs, turns).events;
    WorkerRunner.RunEventsTagged(parse, io, agent, task, fs, turns);
    assert WorkerRunner.Tagged(evs, agent.id);
  }

  /** An executor that never reports a MASTER_DONE event. */
  ghost predicate Quiet<S(!new)>(exec: Executor<S>) {
    forall s, name, input :: MasterDoneEvent !in exec(s, name, input).events
  }

  lemma ExecutorQuiet<S(!new)>(api: Api<S>)
    requires RunnerQuiet(api)
    ensures Quiet(ExecutorOf(api))
  {
    forall s, name, input ensures MasterDoneEvent !in ExecutorOf(api)(s, name, input).events {
      ExecuteNoMasterDone(api, s, name, input);
    }
  }

  lemma {:induction false} ExecuteCallsNoMasterDone<S(!new)>(exec: Executor<S>, w: World<S>, calls: seq<ToolCall>)
    requires Quiet(exec)
    ensures var r := ExecuteCalls(exec, w, calls).world;
            MasterDoneEvent !in r.events[|w.events|..]
    decreases |calls|
  {
    if |calls| > 0 {
      var w1 := SetStatus(w, CallingTool, Some(calls[0].name));
      var out := exec(w1.tools, calls[0].name, calls[0].input);
      var w2 := w1.(tools := out.state, events := w1.events + out.events);
      assert w2.events[|w.events|..] == out.events;
      if out.Returned? {
        ExecuteCallsNoMasterDone(exec, w2, calls[1..]);
        var r := ExecuteCalls(exec, w2, calls[1..]).world;
        assert r.events[|w.events|..] == r.events[|w.events|..|w2.events|] + r.events[|w2.events|..];
        assert r.events[|w.events|..|w2.events|] == out.events;
      }
    }
  }

  /** The statuses the master holds while a run is in progress. */
  predicate Busy(st: (MasterStatus, Option<string>)) {
    (st.0 == Thinking && st.1.None?) || (st.0 == CallingTool && st.1.Some?)
  }

  /** `b` continues `a`. */
  predicate Extends<T(==)>(a: seq<T>, b: seq<T>) {
    |a| <= |b| && b[..|a|] == a
  }

  lemma ExtendsTrans<T>(a: seq<T>, b: seq<T>, c: seq<T>)
    requires Extends(a, b) && Extends(b, c)
    ensures Extends(a, c) && c[|a|..] == b[|a|..] + c[|b|..]
  {
    assert c[..|a|] == c[..|b|][..|a|];
  }

  /** MASTER_DONE once at the end of what `c` adds to `b`, and absent from what `b` adds to `a`,
      is once at the end of what `c` adds to `a`. */
  lemma DoneAcross(a: seq<Event>, b: seq<Event>, c: seq<Event>)
    requires Extends(a, b) && Extends(b, c)
    requires MasterDoneEvent !in b[|a|..] && DoneOnceAtEnd(|b|, c)
    ensures Extends(a, c) && DoneOnceAtEnd(|a|, c)
  {
    ExtendsTrans(a, b, c);
    assert c[|a|..|c| - 1] == b[|a|..] + c[|b|..|c| - 1];
  }

  lemma BusyAcross(a: seq<(MasterStatus, Option<string>)>, b: seq<(MasterStatus, Option<string>)>, c: seq<(MasterStatus, Option<string>)>)
    requires Extends(a, b) && Extends(b, c) && |b| < |c|
    requires forall i :: |a| <= i < |b| ==> Busy(b[i])
    requires forall i :: |b| <= i < |c| - 1 ==> Busy(c[i])
    ensures Extends(a, c) && forall i :: |a| <= i < |c| - 1 ==> Busy(c[i])
  {
    ExtendsTrans(a, b, c);
    forall i | |a| <= i < |c| - 1
      ensures Busy(c[i])
    {
      if i < |b| {
        assert c[i] == c[..|b|][i];
      }
    }
  }

  /** The last status set is IDLE. */
  predicate EndsIdle(st: seq<(MasterStatus, Option<string>)>) {
    |st| > 0 && st[|st| - 1] == (MasterIdle, None)
  }

  /** After position `from`, MASTER_DONE occurs once, as the last event. */
  predicate DoneOnceAtEnd(from: nat, evs: seq<Event>) {
    from < |evs| && evs[|evs| - 1] == MasterDoneEvent && MasterDoneEvent !in evs[from..|evs| - 1]
  }

  /** One step of the loop. */
  lemma LoopUnfold<S>(exec: Executor<S>, parse: Parser, w: World<S>, turns: seq<seq<StreamEvent>>)
    requires |turns| > 0
    ensures var t := Turn(exec, parse, w, turns[0]);
            Loop(exec, parse, w, turns) ==
              if t.Continue? then Loop(exec, parse, t.world, turns[1..])
              else if t.Ended? then Finished(t.world, t.text)
              else Failed(t.world, t.error)
  {
  }

  /** A turn that does not crash only appends to the conversation and keeps every tool-using
      assistant turn answered. */
  lemma TurnTranscriptStep<S>(exec: Executor<S>, parse: Parser, w: World<S>, evs: seq<StreamEvent>)
    requires !Turn(exec, parse, w, evs).Crashed?
    ensures var r := Turn(exec, parse, w, evs).world;
            && Extends(w.conversation, r.conversation)
            && (Paired(w.conversation) ==> Paired(r.conversation))
  {
    var acc := Reassemble(parse, evs);
    if |acc.calls| == 0 {
      FinalTurn(exec, parse, w, evs);
      if Paired(w.conversation) {
        PairedFinish(w.conversation, acc.text);
      }
    } else {
      ToolTurnParts(exec, parse, w, evs);
      var w2 := w.(events := w.events + TextEvents(acc.emitted),
                   conversation := w.conversation + [AssistantTurn(acc.text, acc.calls)]);
      var b := ExecuteCalls(exec, w2, acc.calls);
      var r := Turn(exec, parse, w, evs).world;
      assert r.conversation == w.conversation + [AssistantTurn(acc.text, acc.calls), ResultsTurn(acc.calls, b.results)];
      if Paired(w.conversation) {
        PairedAppendRound(w.conversation, acc.text, acc.calls, b.results);
      }
    }
  }

  /** A turn that does not crash adds statuses: IDLE alone when it ends the run, otherwise only busy
      ones. */
  lemma TurnStatusStep<S>(exec: Executor<S>, parse: Parser, w: World<S>, evs: seq<StreamEvent>)
    requires !Turn(exec, parse, w, evs).Crashed?
    ensures var t := Turn(exec, parse, w, evs);
            && Extends(w.statuses, t.world.statuses) && |w.statuses| < |t.world.statuses|
            && (t.Ended? ==> t.world.statuses == w.statuses + [(MasterIdle, None)]
                             && t.world.fed.master == MasterState(MasterIdle, None))
            && (t.Continue? ==> forall i :: |w.statuses| <= i < |t.world.statuses| ==> Busy(t.world.statuses[i]))
  {
    var acc := Reassemble(parse, evs);
    if |acc.calls| == 0 {
      FinalTurn(exec, parse, w, evs);
    } else {
      ToolTurnStatuses(exec, parse, w, evs);
      var r := Turn(exec, parse, w, evs).world;
      var added := CallingStatuses(acc.calls) + [(Thinking, None)];
      assert r.statuses == w.statuses + added;
      forall i | |w.statuses| <= i < |r.statuses|
        ensures Busy(r.statuses[i])
      {
        assert r.statuses[i] == added[i - |w.statuses|];
      }
    }
  }

  /** With a quiet executor, a turn that does not crash adds no MASTER_DONE unless it ends the run,
      and then MASTER_DONE is its last event and occurs once. */
  lemma TurnEventStep<S(!new)>(exec: Executor<S>, parse: Parser, w: World<S>, evs: seq<StreamEvent>)
    requires Quiet(exec)
    requires !Turn(exec, parse, w, evs).Crashed?
    ensures var t := Turn(exec, parse, w, evs);
            && Extends(w.events, t.world.events)
            && (t.Ended? ==> DoneOnceAtEnd(|w.events|, t.world.events))
            && (t.Continue? ==> MasterDoneEvent !in t.world.events[|w.events|..])
  {
    var acc := Reassemble(parse, evs);
    var text := TextEvents(acc.emitted);
    assert MasterDoneEvent !in text;
    if |acc.calls| == 0 {
      FinalTurn(exec, parse, w, evs);
      ReassembleText(parse, evs);
      var r := Turn(exec, parse, w, evs).world;
      assert r.events == w.events + text + [MasterDoneEvent];
      assert r.events[|w.events|..|r.events| - 1] == text;
    } else {
      ToolTurnParts(exec, parse, w, evs);
      var w2 := w.(events := w.events + text,
                   conversation := w.conversation + [AssistantTurn(acc.text, acc.calls)]);
      var b := ExecuteCalls(exec, w2, acc.calls);
      ExecuteCallsNoMasterDone(exec, w2, acc.calls);
      var r := Turn(exec, parse, w, evs).world;
      assert r.events == b.world.events;
      ExtendsTrans(w.events, w2.events, r.events);
      assert w2.events[|w.events|..] == text;
    }
  }

  /** A finished loop only appended to the conversation, and kept every tool-using assistant turn
      answered. */
  lemma {:induction false} LoopTranscript<S>(exec: Executor<S>, parse: Parser, w: World<S>, turns: seq<seq<StreamEvent>>)
    requires Loop(exec, parse, w, turns).Finished?
    ensures var r := Loop(exec, parse, w, turns).world;
            && Extends(w.conversation, r.conversation)
            && (Paired(w.conversation) ==> Paired(r.conversation))
    decreases |turns|
  {
    LoopUnfold(exec, parse, w, turns);
    var t := Turn(exec, parse, w, turns[0]);
    TurnTranscriptStep(exec, parse, w, turns[0]);
    if t.Continue? {
      LoopTranscript(exec, parse, t.world, turns[1..]);
      ExtendsTrans(w.conversation, t.world.conversation, Loop(exec, parse, t.world, turns[1..]).world.conversation);
    }
  }

  /** A finished loop held only busy statuses (THINKING, or CALLING_TOOL with a tool name) until
      its last status, IDLE, which the master keeps. */
  lemma {:induction false} LoopStatuses<S>(exec: Executor<S>, parse: Parser, w: World<S>, turns: seq<seq<StreamEvent>>)
    requires Loop(exec, parse, w, turns).Finished?
    ensures var r := Loop(exec, parse, w, turns).world;
            && Extends(w.statuses, r.statuses) && |w.statuses| < |r.statuses| && EndsIdle(r.statuses)
            && (forall i :: |w.statuses| <= i < |r.statuses| - 1 ==> Busy(r.statuses[i]))
            && r.fed.master == MasterState(MasterIdle, None)
    decreases |turns|
  {
    LoopUnfold(exec, parse, w, turns);
    var t := Turn(exec, parse, w, turns[0]);
    TurnStatusStep(exec, parse, w, turns[0]);
    if t.Continue? {
      LoopStatuses(exec, parse, t.world, turns[1..]);
      BusyAcross(w.statuses, t.world.statuses, Loop(exec, parse, t.world, turns[1..]).world.statuses);
    }
  }

  /** When the executor never reports MASTER_DONE, a finished loop emits MASTER_DONE exactly once,
      as its last event. */
  lemma {:induction false} LoopEvents<S(!new)>(exec: Executor<S>, parse: Parser, w: World<S>, turns: seq<seq<StreamEvent>>)
    requires Quiet(exec)
    requires Loop(exec, parse, w, turns).Finished?
    ensures var r := Loop(exec, parse, w, turns).world;
            && Extends(w.events, r.events) && DoneOnceAtEnd(|w.events|, r.events)
    decreases |turns|
  {
    LoopUnfold(exec, parse, w, turns);
    var t := Turn(exec, parse, w, turns[0]);
    TurnEventStep(exec, parse, w, turns[0]);
    if t.Continue? {
      LoopEvents(exec, parse, t.world, turns[1..]);
      var r := Loop(exec, parse, t.world, turns[1..]).world;
      assert Loop(exec, parse, w, turns).world == r;
      DoneAcross(w.events, t.world.events, r.events);
    } else {
      assert Loop(exec, parse, w, turns).world == t.world;
    }
  }

  /** A finished run: the user message follows the prior conversation and every later tool-using
      turn is answered; the status went THINKING first, stayed busy, and ended IDLE; and, when the
      runner never reports MASTER_DONE, exactly one MASTER_DONE was emitted, last. */
  lemma RunFinished<S(!new)>(api: Api<S>, parse: Parser, w: World<S>, userMessage: string, turns: seq<seq<StreamEvent>>)
    requires Run(api, parse, w, userMessage, turns).Finished?
    ensures var r := Run(api, parse, w, userMessage, turns).world;
            && |r.conversation| > |w.conversation|
            && r.conversation[..|w.conversation|] == w.conversation
            && r.conversation[|w.conversation|] == Message(User, Plain(userMessage))
            && (Paired(w.conversation) ==> Paired(r.conversation))
            && |r.statuses| >= |w.statuses| + 2
            && r.statuses[|w.statuses|] == (Thinking, None)
            && (forall i :: |w.statuses| <= i < |r.statuses| - 1 ==> Busy(r.statuses[i]))
            && EndsIdle(r.statuses)
            && r.fed.master == MasterState(MasterIdle, None)
            && (RunnerQuiet(api) ==> DoneOnceAtEnd(|w.events|, r.events))
  {
    var w1 := SetStatus(w, Thinking, None);
    var u := Message(User, Plain(userMessage));
    var start := w1.(conversation := w1.conversation + [u]);
    if Paired(w.conversation) {
      if |w.conversation| > 0 {
        PairedLastAnswered(w.conversation);
      }
      PairedAppendNoCalls(w.conversation, u);
    }
    assert Run(api, parse, w, userMessage, turns) == Loop(ExecutorOf(api), parse, start, turns);
    LoopTranscript(ExecutorOf(api), parse, start, turns);
    LoopStatuses(ExecutorOf(api), parse, start, turns);
    var r := Loop(ExecutorOf(api), parse, start, turns).world;
    assert r.conversation[..|w.conversation|] == r.conversation[..|start.conversation|][..|w.conversation|];
    assert r.conversation[|w.conversation|] == r.conversation[..|start.conversation|][|w.conversation|];
    assert r.statuses[|w.statuses|] == r.statuses[..|start.statuses|][|w.statuses|];
    forall i | |w.statuses| <= i < |r.statuses| - 1
      ensures Busy(r.statuses[i])
    {
      if i == |w.statuses| {
        assert r.statuses[i] == (Thinking, None);
      }
    }
    if RunnerQuiet(api) {
      ExecutorQuiet(api);
      LoopEvents(ExecutorOf(api), parse, start, turns);
    }
  }

  /** With a runner whose events all carry an agent id, as the worker runner's do
      (`WorkerRunScoped`), a finished run emits exactly one MASTER_DONE, as its last event. */
  lemma RunFinishedScopedRunner<S(!new)>(api: Api<S>, parse: Parser, w: World<S>, userMessage: string, turns: seq<seq<StreamEvent>>)
    requires api.runner.Some? ==> forall s, a, t :: AgentScoped(api.runner.value(s, a, t).2)
    requires Run(api, parse, w, userMessage, turns).Finished?
    ensures DoneOnceAtEnd(|w.events|, Run(api, parse, w, userMessage, turns).world.events)
  {
    ScopedRunnerQuiet(api);
    RunFinished(api, parse, w, userMessage, turns);
  }
}
