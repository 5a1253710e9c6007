/** The master's tool executor: name-based dispatch to one handler per tool, with keyword-argument
    binding, bracketed by a tool-call event before and a tool-result event after, and the result
    text each handler derives from the state call it makes.

    The handlers call a state and delegation interface (`spawn_agent`, `get_agent`,
    `create_delegation`, ...) that the state manager of this repository does not provide; it is
    modelled as a record of functions over an abstract state `S`. */
module Dispatch {
  import opened Wrappers
  import opened Seqs
  import opened JsonValue
  import opened Events
  import opened Schema

  /* ---------- The interface the handlers call ---------- */

  /** The three intentions the delegate tool accepts. */
  datatype IntentionType = ReturnToUser | PassToAgent | ReviewByMaster

  function IntentionTypeValue(i: IntentionType): string {
    match i
    case ReturnToUser => "return_to_user"
    case PassToAgent => "pass_to_agent"
    case ReviewByMaster => "review_by_master"
  }

  /** `IntentionType(v)`: `None` where the source raises `ValueError`. */
  function IntentionTypeOf(v: string): (r: Option<IntentionType>)
    ensures r.Some? <==> v in ["return_to_user", "pass_to_agent", "review_by_master"]
    ensures r.Some? ==> IntentionTypeValue(r.value) == v
  {
    match v
    case "return_to_user" => Some(ReturnToUser)
    case "pass_to_agent" => Some(PassToAgent)
    case "review_by_master" => Some(ReviewByMaster)
    case _ => None
  }

  lemma IntentionTypeRoundTrip(i: IntentionType)
    ensures IntentionTypeOf(IntentionTypeValue(i)) == Some(i)
  {
  }

  /** An agent template: its name, description and tool names. */
  datatype Template = Template(name: string, description: string, tools: seq<string>)

  /** What the handlers read of an agent: the status is its enum value text, the creation time
      its ISO text, and `messageCount` the length of its conversation. */
  datatype Agent = Agent(id: string, config: Template, status: string, createdAt: string, messageCount: nat,
                         lastResult: Option<string>)

  /** The state calls. Dictionaries are lists of entries in iteration order; `spawnAgent`'s error
      is the `ValueError` message; the runner, when configured, runs an agent on a task to its
      final text and reports the events it emitted. */
  datatype Api<!S> = Api(
    listAgentTypes: S -> seq<(string, Template)>,
    listRunningAgents: S -> seq<(string, Agent)>,
    getAgent: (S, string) -> Option<Agent>,
    spawnAgent: (S, string) -> Result<(S, Agent), string>,
    createDelegation: (S, string, string, IntentionType, Option<string>) -> (S, string),
    setAgentResult: (S, string, string) -> S,
    completeDelegation: (S, string, string) -> S,
    terminateAgent: (S, string) -> (S, bool),
    clearAgentContext: (S, string) -> (S, bool),
    runner: Option<(S, Agent, string) -> (S, string, seq<Event>)>)

  /** A handler or the whole call either returns its text or raises; either way it has emitted
      `events`, in order. */
  datatype Outcome<S> = Returned(state: S, text: string, events: seq<Event>) | Raised(state: S, events: seq<Event>, error: string)

  /* ---------- Result texts ---------- */

  function NotFound(agentId: string): string {
    "Agent not found: " + agentId
  }

  /** Python's `s[:n]`. */
  function Take(s: string, n: nat): (r: string)
    ensures |r| <= n && |r| <= |s| && r == s[..|r|]
    ensures |s| <= n ==> r == s
    ensures |r| == if |s| <= n then |s| else n
  {
    if |s| <= n then s else s[..n]
  }

  /** Two lines per template, in order: its name and description, then its tools. */
  function TemplateLines(templates: seq<(string, Template)>): (r: seq<string>)
    ensures |r| == 2 * |templates|
    ensures forall i :: 0 <= i < |templates| ==>
      && r[2 * i] == "\n- " + templates[i].0 + ": " + templates[i].1.description
      && r[2 * i + 1] == "  Tools: " + Join(", ", templates[i].1.tools)
  {
    if |templates| == 0 then []
    else
      var (name, t) := templates[0];
      ["\n- " + name + ": " + t.description, "  Tools: " + Join(", ", t.tools)] + TemplateLines(templates[1..])
  }

  /** Three lines per agent, in order: its id and type, its status, its message count. */
  function AgentLines(agents: seq<(string, Agent)>): (r: seq<string>)
    ensures |r| == 3 * |agents|
    ensures forall i :: 0 <= i < |agents| ==>
      && r[3 * i] == "\n- " + agents[i].0 + " (" + agents[i].1.config.name + ")"
      && r[3 * i + 1] == "  Status: " + agents[i].1.status
      && r[3 * i + 2] == "  Messages: " + NatToString(agents[i].1.messageCount)
  {
    if |agents| == 0 then []
    else
      var (id, a) := agents[0];
      ["\n- " + id + " (" + a.config.name + ")", "  Status: " + a.status, "  Messages: " + NatToString(a.messageCount)]
      + AgentLines(agents[1..])
  }

  const NoTemplatesText := "No agent templates available."
  const NoAgentsText := "No agents currently running."

  /** `list_agent_types`: a header line then two lines per template, or a fixed text when there is
      none. */
  function ListAgentTypes<S>(api: Api<S>, s: S): (r: Outcome<S>)
    ensures r.Returned? && r.state == s && r.events == []
    ensures r.text == NoTemplatesText <==> |api.listAgentTypes(s)| == 0
    ensures |api.listAgentTypes(s)| > 0 ==> |r.text| >= 26 && r.text[..26] == "Available agent templates:"
    ensures |api.listAgentTypes(s)| > 0 ==>
      r.text == Join("\n", ["Available agent templates:"] + TemplateLines(api.listAgentTypes(s)))
  {
    var templates := api.listAgentTypes(s);
    if |templates| == 0 then Returned(s, NoTemplatesText, [])
    else
      var lines := ["Available agent templates:"] + TemplateLines(templates);
      JoinStartsWithFirst("\n", lines);
      var text := Join("\n", lines);
      assert text != NoTemplatesText by {
        assert text[..26] == "Available agent templates:";
        assert text[0] == 'A' && NoTemplatesText[0] == 'N';
      }
      Returned(s, text, [])
  }

  /** `list_running_agents`: a header line then three lines per agent, or a fixed text when there
      is none. */
  function ListRunningAgents<S>(api: Api<S>, s: S): (r: Outcome<S>)
    ensures r.Returned? && r.state == s && r.events == []
    ensures r.text == NoAgentsText <==> |api.listRunningAgents(s)| == 0
    ensures |api.listRunningAgents(s)| > 0 ==> |r.text| >= 15 && r.text[..15] == "Running agents:"
    ensures |api.listRunningAgents(s)| > 0 ==>
      r.text == Join("\n", ["Running agents:"] + AgentLines(api.listRunningAgents(s)))
  {
    var agents := api.listRunningAgents(s);
    if |agents| == 0 then Returned(s, NoAgentsText, [])
    else
      var lines := ["Running agents:"] + AgentLines(agents);
      JoinStartsWithFirst("\n", lines);
      var text := Join("\n", lines);
      assert text != NoAgentsText by {
        assert text[..15] == "Running agents:";
        assert text[0] == 'R' && NoAgentsText[0] == 'N';
      }
      Returned(s, text, [])
  }

  /** The detail lines of an agent; a non-empty last result is shown cut to 200 characters and
      always followed by "...". */
  function DetailLines(agentId: string, a: Agent): (r: seq<string>)
    ensures |r| == (if a.lastResult.Some? && a.lastResult.value != "" then 7 else 6)
    ensures r[0] == "Agent: " + agentId
    ensures r[1] == "Type: " + a.config.name && r[2] == "Status: " + a.status && r[3] == "Created: " + a.createdAt
    ensures r[4] == "Messages in context: " + NatToString(a.messageCount) && r[5] == "Tools: " + Join(", ", a.config.tools)
    ensures |r| == 7 ==> var last := a.lastResult.value;
      && |r[6]| == 13 + |Take(last, 200)| + 3 && r[6][..13] == "Last result: "
      && r[6][13..13 + |Take(last, 200)|] == last[..|Take(last, 200)|] && r[6][|r[6]| - 3..] == "..."
  {
    ["Agent: " + agentId, "Type: " + a.config.name, "Status: " + a.status, "Created: " + a.createdAt,
     "Messages in context: " + NatToString(a.messageCount), "Tools: " + Join(", ", a.config.tools)]
    + (if a.lastResult.Some? && a.lastResult.value != "" then ["Last result: " + Take(a.lastResult.value, 200) + "..."] else [])
  }

  /** `get_agent_detail`: the detail text, or the not-found text; it changes nothing. */
  function GetAgentDetail<S>(api: Api<S>, s: S, agentId: string): (r: Outcome<S>)
    ensures r.Returned? && r.state == s && r.events == []
    ensures api.getAgent(s, agentId).None? <==> r.text == NotFound(agentId)
    ensures api.getAgent(s, agentId).Some? ==> r.text == Join("\n", DetailLines(agentId, api.getAgent(s, agentId).value))
  {
    match api.getAgent(s, agentId)
    case None => Returned(s, NotFound(agentId), [])
    case Some(a) =>
      var lines := DetailLines(agentId, a);
      JoinStartsWithFirst("\n", lines);
      var text := Join("\n", lines);
      assert text != NotFound(agentId) by {
        assert text[..7] == "Agent: ";
        assert text[6] == ' ' && NotFound(agentId)[6] == 'n';
      }
      Returned(s, text, [])
  }

  const SpawnFailedPrefix := "Failed to spawn agent: "

  /** `spawn_agent`: on success one `worker_spawned` event for the new agent; on a `ValueError` the
      failure text and no event. */
  function SpawnAgent<S>(api: Api<S>, s: S, templateName: string): (r: Outcome<S>)
    ensures r.Returned?
    ensures api.spawnAgent(s, templateName).Err? ==>
      r.state == s && r.events == [] && r.text == SpawnFailedPrefix + api.spawnAgent(s, templateName).error
    ensures api.spawnAgent(s, templateName).Ok? ==>
      var (s', a) := api.spawnAgent(s, templateName).value;
      && r.state == s' && r.events == [WorkerSpawnedEvent(a.id, a.config.name)]
      && r.text == "Spawned agent '" + a.config.name + "' with ID: " + a.id
  {
    match api.spawnAgent(s, templateName)
    case Ok((s', a)) =>
      Returned(s', "Spawned agent '" + a.config.name + "' with ID: " + a.id, [WorkerSpawnedEvent(a.id, a.config.name)])
    case Err(e) => Returned(s, SpawnFailedPrefix + e, [])
  }

  /** The fixed text a finished delegation puts before the worker's result, chosen by its
      intention. */
  function DelegationPrefix(i: IntentionType, agentId: string): string {
    match i
    case ReturnToUser => "Delegation complete. Result from " + agentId + ":\n\n"
    case ReviewByMaster => "Delegation complete. Review the result and decide next steps:\n\n"
    case PassToAgent => "Delegation complete with result:\n\n"
  }

  /** The text a finished delegation returns: its intention's prefix followed by the whole result. */
  function DelegationText(i: IntentionType, agentId: string, result: string): (r: string)
    ensures r == DelegationPrefix(i, agentId) + result
    ensures |r| - |result| == |DelegationPrefix(i, agentId)| && r[|r| - |result|..] == result
  {
    match i
    case ReturnToUser => "Delegation complete. Result from " + agentId + ":\n\n" + result
    case ReviewByMaster => "Delegation complete. Review the result and decide next steps:\n\n" + result
    case PassToAgent => "Delegation complete with result:\n\n" + result
  }

  /** `delegate`: looks the agent up, parses the intention (raising on an unknown one), records the
      delegation, and, when a runner is configured, runs the agent synchronously and records its
      result. */
  function Delegate<S>(api: Api<S>, s: S, agentId: string, task: string, intention: string, outputPath: Option<string>): (r: Outcome<S>)
    ensures api.getAgent(s, agentId).None? ==> r == Returned(s, NotFound(agentId), [])
    ensures api.getAgent(s, agentId).Some? && IntentionTypeOf(intention).None? ==>
      r.Raised? && r.state == s && r.events == []
    ensures r.Raised? <==> api.getAgent(s, agentId).Some? && IntentionTypeOf(intention).None?
    ensures api.getAgent(s, agentId).Some? && IntentionTypeOf(intention).Some? ==>
      var (s1, did) := api.createDelegation(s, agentId, task, IntentionTypeOf(intention).value, outputPath);
      && |r.events| > 0 && r.events[0] == DelegationStartedEvent(did, agentId, task)
      && (api.runner.None? ==> r.Returned? && r.state == s1 && r.events == [r.events[0]]
                               && r.text == "Delegation created (ID: " + did + ") but no worker runner configured.")
  {
    match api.getAgent(s, agentId)
    case None => Returned(s, NotFound(agentId), [])
    case Some(a) =>
      match IntentionTypeOf(intention)
      case None => Raised(s, [], "ValueError")
      case Some(it) =>
        var (s1, did) := api.createDelegation(s, agentId, task, it, outputPath);
        var started := DelegationStartedEvent(did, agentId, task);
        match api.runner
        case None => Returned(s1, "Delegation created (ID: " + did + ") but no worker runner configured.", [started])
        case Some(run) =>
          var (s2, result, runEvents) := run(s1, a, task);
          var s3 := api.setAgentResult(s2, agentId, result);
          var s4 := api.completeDelegation(s3, did, result);
          Returned(s4, DelegationText(it, agentId, result), [started] + runEvents + [DelegationCompletedEvent(did, agentId, result)])
  }

  /** `terminate_agent` and `clear_agent_context`: the success text exactly when the state call
      reports success. */
  function TerminateAgent<S>(api: Api<S>, s: S, agentId: string): (r: Outcome<S>)
    ensures r.Returned? && r.state == api.terminateAgent(s, agentId).0 && r.events == []
    ensures api.terminateAgent(s, agentId).1 <==> r.text == "Agent " + agentId + " terminated."
    ensures !api.terminateAgent(s, agentId).1 <==> r.text == NotFound(agentId)
  {
    var (s', ok) := api.terminateAgent(s, agentId);
    if ok then Returned(s', "Agent " + agentId + " terminated.", [])
    else
      assert |NotFound(agentId)| != |"Agent " + agentId + " terminated."|;
      Returned(s', NotFound(agentId), [])
  }

  function ClearAgentContext<S>(api: Api<S>, s: S, agentId: string): (r: Outcome<S>)
    ensures r.Returned? && r.state == api.clearAgentContext(s, agentId).0 && r.events == []
    ensures api.clearAgentContext(s, agentId).1 <==> r.text == "Agent " + agentId + " context cleared."
    ensures !api.clearAgentContext(s, agentId).1 <==> r.text == NotFound(agentId)
  {
    var (s', ok) := api.clearAgentContext(s, agentId);
    if ok then Returned(s', "Agent " + agentId + " context cleared.", [])
    else
      assert |NotFound(agentId)| != |"Agent " + agentId + " context cleared."|;
      Returned(s', NotFound(agentId), [])
  }

  /* ---------- Binding and dispatch ---------- */

  /** The tools the executor has a `_tool_<name>` handler for. */
  const HandlerNames: seq<string> := ["list_agent_types", "list_running_agents", "get_agent_detail", "spawn_agent",
                                      "delegate", "terminate_agent", "clear_agent_context"]

  /** Each handler's keyword parameters: the required ones, then the ones with a default. */
  function Params(name: string): (seq<string>, seq<string>) {
    match name
    case "get_agent_detail" => (["agent_id"], [])
    case "spawn_agent" => (["template_name"], [])
    case "delegate" => (["agent_id", "task", "intention"], ["output_path"])
    case "terminate_agent" => (["agent_id"], [])
    case "clear_agent_context" => (["agent_id"], [])
    case _ => ([], [])
  }

  /** `handler(**tool_input)`: the input must be an object naming only parameters of the handler
      and every required one; otherwise the call raises `TypeError`. Argument values are taken to
      be strings, as every declared property is. */
  function Bind(required: seq<string>, optional: seq<string>, input: Json): (r: Result<map<string, string>, string>)
    ensures r.Ok? <==>
      && input.JObject?
      && (forall k :: k in input.fields ==> (k in required || k in optional) && input.fields[k].JString?)
      && (forall k :: k in required ==> k in input.fields)
    ensures r.Ok? ==> r.value.Keys == input.fields.Keys && forall k :: k in r.value ==> input.fields[k] == JString(r.value[k])
  {
    if !input.JObject? then Err("TypeError")
    else if !(forall k :: k in input.fields ==> k in required || k in optional) then Err("TypeError")
    else if !(forall k :: k in required ==> k in input.fields) then Err("TypeError")
    else if !(forall k :: k in input.fields ==> input.fields[k].JString?) then Err("TypeError")
    else Ok(map k | k in input.fields :: input.fields[k].s)
  }

  /** Runs the handler `name` on bound arguments. */
  function RunHandler<S>(api: Api<S>, s: S, name: string, args: map<string, string>): (r: Outcome<S>)
    requires name in HandlerNames
    requires forall k :: k in Params(name).0 ==> k in args
    ensures r.Raised? ==> name == "delegate"
    ensures name == "list_agent_types" || name == "list_running_agents" || name == "get_agent_detail" ==>
      r.Returned? && r.state == s && r.events == []
    ensures name == "terminate_agent" || name == "clear_agent_context" ==> r.Returned? && r.events == []
  {
    match name
    case "list_agent_types" => ListAgentTypes(api, s)
    case "list_running_agents" => ListRunningAgents(api, s)
    case "get_agent_detail" => GetAgentDetail(api, s, args["agent_id"])
    case "spawn_agent" => SpawnAgent(api, s, args["template_name"])
    case "delegate" =>
      Delegate(api, s, args["agent_id"], args["task"], args["intention"],
               if "output_path" in args then Some(args["output_path"]) else None)
    case "terminate_agent" => TerminateAgent(api, s, args["agent_id"])
    case _ => ClearAgentContext(api, s, args["agent_id"])
  }

  /** `execute`: emits the tool-call event, runs the named handler (or produces the unknown-tool
      text without running any), then emits the tool-result event with exactly the returned text.
      When binding or the handler raises, the exception propagates and no result event follows. */
  function Execute<S>(api: Api<S>, s: S, name: string, input: Json): (r: Outcome<S>)
    ensures |r.events| > 0 && r.events[0] == MasterToolCallEvent(name, input)
    ensures r.Returned? ==> |r.events| >= 2 && r.events[|r.events| - 1] == MasterToolResultEvent(name, r.text)
  {
    var call := MasterToolCallEvent(name, input);
    if name !in HandlerNames then
      var text := "Unknown tool: " + name;
      Returned(s, text, [call, MasterToolResultEvent(name, text)])
    else
      var (required, optional) := Params(name);
      match Bind(required, optional, input)
      case Err(e) => Raised(s, [call], e)
      case Ok(args) =>
        match RunHandler(api, s, name, args)
        case Returned(s', text, evs) => Returned(s', text, [call] + evs + [MasterToolResultEvent(name, text)])
        case Raised(s', evs, e) => Raised(s', [call] + evs, e)
  }

  /* ---------- The declared tools ---------- */

  const AgentIdProperty := StringProperty("agent_id")

  const IntentionProperty := Property("intention", "string", Some(["return_to_user", "pass_to_agent", "review_by_master"]))

  /** `MASTER_TOOLS`: the declarations sent with every master request. */
  const MasterTools: seq<ToolSchema> := [
    ToolSchema("list_agent_types", [], []),
    ToolSchema("list_running_agents", [], []),
    ToolSchema("get_agent_detail", [AgentIdProperty], ["agent_id"]),
    ToolSchema("spawn_agent", [StringProperty("template_name")], ["template_name"]),
    ToolSchema("delegate", [AgentIdProperty, StringProperty("task"), IntentionProperty, StringProperty("output_path")],
               ["agent_id", "task", "intention"]),
    ToolSchema("terminate_agent", [AgentIdProperty], ["agent_id"]),
    ToolSchema("clear_agent_context", [AgentIdProperty], ["agent_id"])]

  /* ---------- Properties ---------- */

  /** The declarations and the handlers agree: same tools in the same order, each declaration well
      formed, requiring exactly the handler's required parameters and declaring exactly its
      parameters. */
  lemma MasterToolsMatchHandlers()
    ensures |MasterTools| == |HandlerNames|
    ensures forall i :: 0 <= i < |MasterTools| ==> MasterTools[i].name == HandlerNames[i]
    ensures forall i :: 0 <= i < |MasterTools| ==> WellFormedSchema(MasterTools[i])
    ensures forall i :: 0 <= i < |MasterTools| ==> MasterTools[i].required == Params(HandlerNames[i]).0
    ensures forall i :: 0 <= i < |MasterTools| ==>
      PropertyNames(MasterTools[i]) == Params(HandlerNames[i]).0 + Params(HandlerNames[i]).1
  {
    forall i | 0 <= i < |MasterTools|
      ensures MasterTools[i].name == HandlerNames[i]
      ensures WellFormedSchema(MasterTools[i])
      ensures MasterTools[i].required == Params(HandlerNames[i]).0
      ensures PropertyNames(MasterTools[i]) == Params(HandlerNames[i]).0 + Params(HandlerNames[i]).1
    {
      MasterToolAgrees(i);
    }
  }

  /** One declaration agrees with its handler. */
  lemma MasterToolAgrees(i: nat)
    requires i < |MasterTools|
    ensures MasterTools[i].name == HandlerNames[i]
    ensures WellFormedSchema(MasterTools[i])
    ensures MasterTools[i].required == Params(HandlerNames[i]).0
    ensures PropertyNames(MasterTools[i]) == Params(HandlerNames[i]).0 + Params(HandlerNames[i]).1
  {
    var t := MasterTools[i];
    if i == 4 {
      DelegateNames();
    } else if i == 2 || i == 5 || i == 6 {
      assert t.properties == [AgentIdProperty];
      NamesOf(t, ["agent_id"]);
    } else if i == 3 {
      assert t.properties == [StringProperty("template_name")];
      NamesOf(t, ["template_name"]);
    } else {
      assert t.properties == [];
      NamesOf(t, []);
    }
  }

  /** The delegate declaration's property names, which are distinct. */
  lemma DelegateNames()
    ensures PropertyNames(MasterTools[4]) == ["agent_id", "task", "intention", "output_path"]
    ensures NoDup(PropertyNames(MasterTools[4]))
  {
    var t := MasterTools[4];
    assert t.properties == [AgentIdProperty, StringProperty("task"), IntentionProperty, StringProperty("output_path")];
    NamesOf(t, ["agent_id", "task", "intention", "output_path"]);
  }

  /** A declaration whose properties are named, in order, by `names`. */
  lemma NamesOf(t: ToolSchema, names: seq<string>)
    requires |t.properties| == |names| && forall j :: 0 <= j < |names| ==> t.properties[j].name == names[j]
    ensures PropertyNames(t) == names
  {
  }

  /** The delegate declaration requires agent_id, task and intention and restricts the intention
      to the three values, every one of which the handler parses. */
  lemma DelegateDeclaration()
    ensures MasterTools[4].name == "delegate" && MasterTools[4].required == ["agent_id", "task", "intention"]
    ensures MasterTools[4].properties[2].name == "intention"
    ensures forall v :: v in MasterTools[4].properties[2].enumValues.value ==> IntentionTypeOf(v).Some?
  {
  }

  /** An unknown tool name runs no handler: the state is untouched and the only events are the
      call and the result carrying the unknown-tool text. */
  lemma UnknownToolRunsNoHandler<S>(api: Api<S>, s: S, name: string, input: Json)
    requires name !in HandlerNames
    ensures Execute(api, s, name, input) ==
      Returned(s, "Unknown tool: " + name, [MasterToolCallEvent(name, input), MasterToolResultEvent(name, "Unknown tool: " + name)])
  {
  }

  /** A known tool's events are the call event, the handler's events, and, when the handler
      returns, the result event carrying exactly its text. */
  lemma ExecuteBracketsHandler<S>(api: Api<S>, s: S, name: string, input: Json)
    requires name in HandlerNames && Bind(Params(name).0, Params(name).1, input).Ok?
    ensures var h := RunHandler(api, s, name, Bind(Params(name).0, Params(name).1, input).value);
            var r := Execute(api, s, name, input);
            && r.Returned? == h.Returned? && r.state == h.state
            && (h.Returned? ==>
                  r.text == h.text && r.events == [MasterToolCallEvent(name, input)] + h.events + [MasterToolResultEvent(name, h.text)])
            && (h.Raised? ==> r.events == [MasterToolCallEvent(name, input)] + h.events)
  {
  }

  /** For a declaration of string properties whose names are a handler's parameters and whose
      required list is the handler's required parameters, binding accepts exactly the inputs of
      the declared shape. */
  lemma BindMatchesShape(t: ToolSchema, required: seq<string>, optional: seq<string>, input: Json)
    requires PropertyNames(t) == required + optional && t.required == required
    requires forall j :: 0 <= j < |t.properties| ==> t.properties[j].jsonType == "string"
    ensures Bind(required, optional, input).Ok? <==> ConformsShape(t, input)
  {
    if input.JObject? {
      var f := input.fields;
      var names := PropertyNames(t);
      assert forall k :: k in names <==> k in required || k in optional;
      if forall k :: k in f ==> k in names {
        forall k | k in f
          ensures exists j :: 0 <= j < |t.properties| && t.properties[j].name == k
        {
          var j :| 0 <= j < |names| && names[j] == k;
          assert t.properties[j].name == k;
        }
        assert (forall k :: k in f ==> f[k].JString?) <==>
               (forall j :: 0 <= j < |t.properties| && t.properties[j].name in f ==>
                  HasType(f[t.properties[j].name], t.properties[j].jsonType));
      }
    }
  }

  /** Binding accepts exactly the inputs of the declared shape: an object that uses only declared
      properties, all strings, and supplies every required one. */
  lemma BindAcceptsDeclaredShape(i: nat, input: Json)
    requires i < |HandlerNames|
    ensures Bind(Params(HandlerNames[i]).0, Params(HandlerNames[i]).1, input).Ok? <==> ConformsShape(MasterTools[i], input)
  {
    MasterToolsMatchHandlers();
    var t := MasterTools[i];
    assert forall j :: 0 <= j < |t.properties| ==> t.properties[j].jsonType == "string";
    BindMatchesShape(t, Params(HandlerNames[i]).0, Params(HandlerNames[i]).1, input);
  }

  /** A call whose input conforms to its declaration, allowed values included, never raises: it
      binds, and a delegate's intention always parses. */
  lemma ConformingCallReturns<S>(api: Api<S>, s: S, i: nat, input: Json)
    requires i < |HandlerNames| && Conforms(MasterTools[i], input)
    ensures Execute(api, s, HandlerNames[i], input).Returned?
  {
    BindAcceptsDeclaredShape(i, input);
    if HandlerNames[i] == "delegate" {
      var f := input.fields;
      assert MasterTools[i].properties[2] == IntentionProperty;
      assert "intention" in f && Allowed(IntentionProperty, f["intention"]);
      assert IntentionTypeOf(f["intention"].s).Some?;
    }
  }

  /** An input naming an undeclared property makes the call raise. */
  lemma UndeclaredArgumentRaises<S>(api: Api<S>, s: S, i: nat, input: Json, k: string)
    requires i < |HandlerNames| && input.JObject? && k in input.fields && k !in PropertyNames(MasterTools[i])
    ensures Execute(api, s, HandlerNames[i], input).Raised?
  {
    BindAcceptsDeclaredShape(i, input);
  }

  /** The intention can be told from a finished delegation's text. */
  /** The characters at offsets 19 and 23 of a delegation prefix, which differ between
      intentions whatever the agent id. */
  lemma PrefixMarks(i: IntentionType, agentId: string)
    ensures var p := DelegationPrefix(i, agentId);
            && |p| > 23
            && (p[19], p[23]) == match i
                                 case ReturnToUser => ('.', 's')
                                 case ReviewByMaster => ('.', 'v')
                                 case PassToAgent => (' ', 'h')
  {
    var p := DelegationPrefix(i, agentId);
    match i
    case ReturnToUser =>
      var q := "Delegation complete. Result from ";
      assert p == q + (agentId + ":\n\n");
      assert p[19] == q[19] && p[23] == q[23];
    case ReviewByMaster =>
      assert p == "Delegation complete. Review the result and decide next steps:\n\n";
    case PassToAgent =>
      assert p == "Delegation complete with result:\n\n";
  }

  /** No intention's prefix is a prefix of another intention's prefix, for any agent ids. */
  lemma DelegationPrefixesIncomparable(i1: IntentionType, a1: string, i2: IntentionType, a2: string)
    requires i1 != i2
    ensures !(DelegationPrefix(i1, a1) <= DelegationPrefix(i2, a2))
  {
    PrefixMarks(i1, a1);
    PrefixMarks(i2, a2);
  }

  /** A delegation's text determines its intention, and, for a given agent, the worker's result. */
  lemma DelegationTextDecodes(i1: IntentionType, a1: string, r1: string, i2: IntentionType, a2: string, r2: string)
    requires DelegationText(i1, a1, r1) == DelegationText(i2, a2, r2)
    ensures i1 == i2
    ensures a1 == a2 ==> r1 == r2
  {
    var t := DelegationText(i1, a1, r1);
    PrefixMarks(i1, a1);
    PrefixMarks(i2, a2);
    assert t[19] == DelegationPrefix(i1, a1)[19] == DelegationPrefix(i2, a2)[19];
    assert t[23] == DelegationPrefix(i1, a1)[23] == DelegationPrefix(i2, a2)[23];
    if a1 == a2 {
      var n := |DelegationPrefix(i1, a1)|;
      assert r1 == t[n..] == r2;
    }
  }

  /** With a runner configured, a delegation runs the agent on the assigned task, records the result, and
      returns the intention's text; its events are the start, the runner's events, and the
      completion, all tagged with the agent's id except the runner's own. */
  lemma DelegateWithRunner<S>(api: Api<S>, s: S, agentId: string, task: string, intention: string, outputPath: Option<string>)
    requires api.getAgent(s, agentId).Some? && IntentionTypeOf(intention).Some? && api.runner.Some?
    ensures var it := IntentionTypeOf(intention).value;
            var (s1, did) := api.createDelegation(s, agentId, task, it, outputPath);
            var (s2, result, runEvents) := api.runner.value(s1, api.getAgent(s, agentId).value, task);
            var r := Delegate(api, s, agentId, task, intention, outputPath);
            && r.Returned?
            && r.state == api.completeDelegation(api.setAgentResult(s2, agentId, result), did, result)
            && r.text == DelegationText(it, agentId, result)
            && r.events == [DelegationStartedEvent(did, agentId, task)] + runEvents + [DelegationCompletedEvent(did, agentId, result)]
  {
  }
}
