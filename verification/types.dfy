/** The federation's data model: worker and master status enums, the delegation intention, the
    worker template, the worker record and the aggregate federation state. Creation timestamps are
    not modelled. */
module Types {
  import opened Wrappers

  /** Lifecycle of a worker record. */
  datatype WorkerStatus = Idle | Working | Done

  /** What the master loop is doing. */
  datatype MasterStatus = MasterIdle | Thinking | CallingTool

  /** What should happen to a worker's result once its task completes. */
  datatype Intention = ReturnToUser | ReviewByMaster

  /** The string value of each enum member (Python's `member.value`). */
  function WorkerStatusValue(s: WorkerStatus): string {
    match s
    case Idle => "idle"
    case Working => "working"
    case Done => "done"
  }

  function MasterStatusValue(s: MasterStatus): string {
    match s
    case MasterIdle => "idle"
    case Thinking => "thinking"
    case CallingTool => "calling_tool"
  }

  function IntentionValue(i: Intention): string {
    match i
    case ReturnToUser => "return_to_user"
    case ReviewByMaster => "review_by_master"
  }

  /** Lookup by value (Python's `WorkerStatus(v)`); `None` where Python raises `ValueError`. */
  function WorkerStatusOf(v: string): (r: Option<WorkerStatus>)
    ensures r.Some? <==> v in {"idle", "working", "done"}
    ensures r.Some? ==> WorkerStatusValue(r.value) == v
  {
    if v == "idle" then Some(Idle)
    else if v == "working" then Some(Working)
    else if v == "done" then Some(Done)
    else None
  }

  function MasterStatusOf(v: string): (r: Option<MasterStatus>)
    ensures r.Some? <==> v in {"idle", "thinking", "calling_tool"}
    ensures r.Some? ==> MasterStatusValue(r.value) == v
  {
    if v == "idle" then Some(MasterIdle)
    else if v == "thinking" then Some(Thinking)
    else if v == "calling_tool" then Some(CallingTool)
    else None
  }

  function IntentionOf(v: string): (r: Option<Intention>)
    ensures r.Some? <==> v in {"return_to_user", "review_by_master"}
    ensures r.Some? ==> IntentionValue(r.value) == v
  {
    if v == "return_to_user" then Some(ReturnToUser)
    else if v == "review_by_master" then Some(ReviewByMaster)
    else None
  }

  /** Each enum has exactly its three (resp. two) members: value and lookup are mutually inverse. */
  lemma EnumValuesRoundTrip(w: WorkerStatus, m: MasterStatus, i: Intention)
    ensures WorkerStatusOf(WorkerStatusValue(w)) == Some(w)
    ensures MasterStatusOf(MasterStatusValue(m)) == Some(m)
    ensures IntentionOf(IntentionValue(i)) == Some(i)
  {
  }

  /** There is no pass-to-agent intention in this data model. */
  lemma NoPassToAgentIntention()
    ensures IntentionOf("pass_to_agent") == None
  {
  }

  /** A worker template. */
  datatype WorkerConfig = WorkerConfig(
    name: string,
    description: string,
    systemPrompt: string,
    allowedTools: seq<string>)

  /** A worker record; `workerType` names its template and `config` is that template. */
  datatype Worker = Worker(
    id: string,
    workerType: string,
    config: WorkerConfig,
    status: WorkerStatus,
    currentTask: Option<string>,
    intention: Option<Intention>,
    result: Option<string>)

  /** How the optional fields go with the status: an idle worker carries no task, intention or
      result; a working one has a task and an intention and no result; a done one has a result. */
  predicate WellFormedWorker(w: Worker) {
    && (w.status == Idle ==> w.currentTask.None? && w.intention.None? && w.result.None?)
    && (w.status == Working ==> w.currentTask.Some? && w.intention.Some? && w.result.None?)
    && (w.status == Done ==> w.result.Some?)
  }

  /** A worker built with the dataclass defaults. */
  function NewWorker(id: string, workerType: string, config: WorkerConfig): (w: Worker)
    ensures w.id == id && w.workerType == workerType && w.config == config
    ensures w.status == Idle && WellFormedWorker(w)
  {
    Worker(id, workerType, config, Idle, None, None, None)
  }

  datatype MasterState = MasterState(status: MasterStatus, currentTool: Option<string>)

  /** The master state defaults: idle, no tool. */
  const DefaultMasterState: MasterState := MasterState(MasterIdle, None)

  /** The aggregate root. `completedQueue` lists the ids of workers whose results await pickup. */
  datatype FederationState = FederationState(
    master: MasterState,
    workers: map<string, Worker>,
    workerConfigs: map<string, WorkerConfig>,
    completedQueue: seq<string>,
    workspacePath: string)

  /** A federation state built with the dataclass defaults and the given workspace path. */
  function NewFederationState(workspacePath: string): (s: FederationState)
    ensures s.master.status == MasterIdle && s.master.currentTool == None
    ensures |s.workers| == 0 && |s.workerConfigs| == 0 && |s.completedQueue| == 0
    ensures s.workspacePath == workspacePath
  {
    FederationState(DefaultMasterState, map[], map[], [], workspacePath)
  }
}
