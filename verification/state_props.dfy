/** Properties of the state manager over whole call sequences: the queue invariant, where the
    WORKING and DONE statuses can come from, and the behaviours the source exhibits that a reader
    of its documentation might not expect. */
module StateProps {
  import opened Wrappers
  import opened Seqs
  import opened Types
  import opened State

  /** One call on the state manager. Reads (`GetWorker`, `GetCompletedWorkers`) are not steps:
      they return no state. */
  datatype Op =
    | SetMaster(status: MasterStatus, tool: Option<string>)
    | Spawn(workerType: string, freshId: string)
    | Terminate(id: string)
    | Assign(id: string, task: string, intention: Intention)
    | Complete(id: string, result: string)
    | Clear(id: string)
    | Pop

  /** The state after one call; a failed call (unknown type) leaves the state as it was. */
  function Apply(s: FederationState, op: Op): FederationState {
    match op
    case SetMaster(status, tool) => SetMasterStatus(s, status, tool)
    case Spawn(t, id) => (match SpawnWorker(s, t, id) case Ok(p) => p.0 case Err(_) => s)
    case Terminate(id) => TerminateWorker(s, id).0
    case Assign(id, task, i) => AssignTask(s, id, task, i).0
    case Complete(id, result) => CompleteTask(s, id, result).0
    case Clear(id) => ClearWorker(s, id).0
    case Pop => PopCompleted(s).0
  }

  function Run(s: FederationState, ops: seq<Op>): FederationState
    decreases |ops|
  {
    if |ops| == 0 then s else Run(Apply(s, ops[0]), ops[1..])
  }

  /** Every call keeps the invariant. */
  lemma ApplyPreservesInv(s: FederationState, op: Op)
    requires Inv(s)
    ensures Inv(Apply(s, op))
  {
  }

  /** Any call sequence from a fresh state manager keeps the queue duplicate-free and made of live
      ids, and every record well formed. */
  lemma {:induction false} RunPreservesInv(s: FederationState, ops: seq<Op>)
    requires Inv(s)
    ensures Inv(Run(s, ops))
    decreases |ops|
  {
    if |ops| > 0 {
      ApplyPreservesInv(s, ops[0]);
      RunPreservesInv(Apply(s, ops[0]), ops[1..]);
    }
  }

  lemma FreshManagerRunsKeepInv(path: string, ops: seq<Op>)
    ensures Inv(Run(NewStateManager(path), ops))
  {
    RunPreservesInv(NewStateManager(path), ops);
  }

  /** A worker only becomes WORKING through a successful assignment. */
  lemma OnlyAssignMakesWorking(s: FederationState, op: Op, id: string)
    requires Inv(s)
    requires id in Apply(s, op).workers && Apply(s, op).workers[id].status == Working
    requires id !in s.workers || s.workers[id].status != Working
    ensures op.Assign? && op.id == id
  {
  }

  /** A worker only becomes DONE through a completion. */
  lemma OnlyCompleteMakesDone(s: FederationState, op: Op, id: string)
    requires Inv(s)
    requires id in Apply(s, op).workers && Apply(s, op).workers[id].status == Done
    requires id !in s.workers || s.workers[id].status != Done
    ensures op.Complete? && op.id == id
  {
  }

  /** Assignment does not reject a worker that is already WORKING: the new task replaces the old. */
  lemma AssignOverridesWorking(s: FederationState, id: string, task: string, intention: Intention)
    requires id in s.workers && s.workers[id].status == Working
    ensures AssignTask(s, id, task, intention).1
    ensures AssignTask(s, id, task, intention).0.workers[id].currentTask == Some(task)
  {
  }

  /** Completing twice enqueues once; the second result overwrites the first. */
  lemma CompleteTwiceEnqueuesOnce(s: FederationState, id: string, r1: string, r2: string)
    requires Inv(s) && id in s.workers
    ensures var s1 := CompleteTask(s, id, r1).0;
            var s2 := CompleteTask(s1, id, r2).0;
            && s2.completedQueue == s1.completedQueue
            && multiset(s2.completedQueue)[id] == 1
            && s2.workers[id].result == Some(r2)
  {
  }

  /** Peeking consumes nothing: the next pop sees the same queue. */
  lemma PeekThenPop(s: FederationState)
    requires Inv(s) && |s.completedQueue| > 0 && LiveDone(s.workers, s.completedQueue[0])
    ensures GetCompletedWorkers(s)[0] == s.workers[s.completedQueue[0]]
    ensures PopCompleted(s).1 == Some(s.workers[s.completedQueue[0]])
    ensures PopCompleted(s).0.completedQueue == s.completedQueue[1..]
  {
  }

  /** After a completion on an empty queue, the next pop returns that worker, still DONE with its
      result, and leaves the queue empty; a second pop returns nothing. */
  lemma CompleteThenPopTwice(s: FederationState, id: string, result: string)
    requires Inv(s) && id in s.workers && s.completedQueue == []
    ensures var s1 := CompleteTask(s, id, result).0;
            var (s2, w) := PopCompleted(s1);
            && w.Some? && w.value.id == id && w.value.status == Done && w.value.result == Some(result)
            && s2.workers == s1.workers && s2.completedQueue == []
            && PopCompleted(s2).1 == None
  {
    var s1 := CompleteTask(s, id, result).0;
    assert s1.completedQueue == [id];
  }

  /** A DONE worker that is re-assigned before its result is picked up keeps its queue entry while
      WORKING: peeking still lists it, and popping drops the entry without returning it. */
  lemma ReassignedQueuedWorkerIsDropped(s: FederationState, id: string, task: string, intention: Intention)
    requires Inv(s) && id in s.workers && s.completedQueue == [id]
    ensures var s1 := AssignTask(s, id, task, intention).0;
            && s1.completedQueue == [id]
            && GetCompletedWorkers(s1) == [s1.workers[id]]
            && s1.workers[id].status == Working
            && PopCompleted(s1).1 == None
            && PopCompleted(s1).0.completedQueue == []
  {
    var s1 := AssignTask(s, id, task, intention).0;
    assert !LiveDone(s1.workers, s1.completedQueue[0]);
  }

  /** A spawn under an id already in use replaces that worker with a fresh idle record. */
  lemma SpawnCollisionReplaces(s: FederationState, workerType: string, id: string)
    requires workerType in s.workerConfigs && id in s.workers && s.workers[id].status != Idle
    ensures SpawnWorker(s, workerType, id).Ok?
    ensures |SpawnWorker(s, workerType, id).value.0.workers| == |s.workers|
    ensures SpawnWorker(s, workerType, id).value.0.workers[id] != s.workers[id]
  {
    var t := SpawnWorker(s, workerType, id).value.0;
    assert t.workers.Keys == s.workers.Keys;
  }
}
