/** The federation state manager: a state machine over the worker map, the template registry and
    the FIFO completion queue. Every operation is a pure transition; a Python mutation of the
    state in place becomes a function returning the new state. */
module State {
  import opened Wrappers
  import opened Seqs
  import opened Types

  /* ---------- Default templates ---------- */

  const GeneralConfig: WorkerConfig := WorkerConfig(
    "general",
    "A general-purpose worker that can handle various tasks.",
    "You are a helpful worker agent. Complete tasks thoroughly and clearly.",
    ["Read", "Write", "Edit", "Bash", "Glob", "Grep"])

  const CoderConfig: WorkerConfig := WorkerConfig(
    "coder",
    "A coding specialist for writing and modifying code.",
    "You are a coding agent. Write clean, well-structured code with good error handling.",
    ["Read", "Write", "Edit", "Bash", "Glob", "Grep"])

  const ResearcherConfig: WorkerConfig := WorkerConfig(
    "researcher",
    "A research agent for gathering and analyzing information.",
    "You are a research agent. Gather information thoroughly and provide clear summaries.",
    ["Read", "Glob", "Grep", "WebFetch", "WebSearch"])

  const DefaultConfigs: map<string, WorkerConfig> :=
    map["general" := GeneralConfig, "coder" := CoderConfig, "researcher" := ResearcherConfig]

  /* ---------- The invariant ---------- */

  /** The queue holds no duplicates and only ids of live workers. */
  predicate QueueInv(s: FederationState) {
    && NoDup(s.completedQueue)
    && forall i :: 0 <= i < |s.completedQueue| ==> s.completedQueue[i] in s.workers
  }

  /** Every record is stored under its own id, is well formed, and carries the registered
      template of its type. */
  predicate WorkersInv(s: FederationState) {
    forall id :: id in s.workers ==>
      && s.workers[id].id == id
      && WellFormedWorker(s.workers[id])
      && s.workers[id].workerType in s.workerConfigs
      && s.workerConfigs[s.workers[id].workerType] == s.workers[id].config
  }

  predicate Inv(s: FederationState) {
    QueueInv(s) && WorkersInv(s)
  }

  /** Outside `id`, the worker map is untouched. */
  ghost predicate OthersUnchanged(s: FederationState, t: FederationState, id: string) {
    forall k :: k != id ==> (k in t.workers <==> k in s.workers) && (k in s.workers ==> t.workers[k] == s.workers[k])
  }

  /* ---------- Construction and master status ---------- */

  /** A new state manager: empty workers and queue, and the three default templates. */
  function NewStateManager(workspacePath: string): (s: FederationState)
    ensures s.workerConfigs.Keys == {"general", "coder", "researcher"}
    ensures forall n :: n in s.workerConfigs ==> s.workerConfigs[n].name == n
    ensures s.master == DefaultMasterState && |s.workers| == 0 && s.completedQueue == []
    ensures s.workspacePath == workspacePath
    ensures Inv(s)
  {
    NewFederationState(workspacePath).(workerConfigs := DefaultConfigs)
  }

  /** Records the master's status and current tool; nothing else changes. */
  function SetMasterStatus(s: FederationState, status: MasterStatus, tool: Option<string>): (t: FederationState)
    ensures t.master.status == status && t.master.currentTool == tool
    ensures t.workers == s.workers && t.workerConfigs == s.workerConfigs && t.completedQueue == s.completedQueue
    ensures Inv(s) ==> Inv(t)
  {
    s.(master := MasterState(status, tool))
  }

  /* ---------- Workers ---------- */

  /** `get_worker`: the worker registered under `id`, if any. */
  function GetWorker(s: FederationState, id: string): (r: Option<Worker>)
    ensures r.Some? <==> id in s.workers
    ensures r.Some? ==> r.value == s.workers[id]
  {
    if id in s.workers then Some(s.workers[id]) else None
  }

  /** Spawns an idle worker of a registered type under `freshId` (the source draws it from a
      random UUID). An unknown type is an error and changes nothing. An id already in use is
      overwritten: the source does not guard against a collision. */
  function SpawnWorker(s: FederationState, workerType: string, freshId: string): (r: Result<(FederationState, Worker), string>)
    ensures r.Err? <==> workerType !in s.workerConfigs
    ensures r.Err? ==> r.error == "Unknown worker type: " + workerType
    ensures r.Ok? ==>
      var (t, w) := r.value;
      && w.id == freshId && w.workerType == workerType && w.config == s.workerConfigs[workerType]
      && w.status == Idle && w.currentTask == None && w.intention == None && w.result == None
      && freshId in t.workers && t.workers[freshId] == w
      && OthersUnchanged(s, t, freshId)
      && t.completedQueue == s.completedQueue && t.workerConfigs == s.workerConfigs && t.master == s.master
    ensures r.Ok? && freshId !in s.workers ==> |r.value.0.workers| == |s.workers| + 1
    ensures r.Ok? && Inv(s) ==> Inv(r.value.0)
  {
    if workerType !in s.workerConfigs then
      Err("Unknown worker type: " + workerType)
    else
      var w := NewWorker(freshId, workerType, s.workerConfigs[workerType]);
      Ok((s.(workers := s.workers[freshId := w]), w))
  }

  /** A spawned worker can be looked up under its id; every other lookup answers as before. */
  lemma SpawnThenGet(s: FederationState, workerType: string, freshId: string, other: string)
    requires SpawnWorker(s, workerType, freshId).Ok?
    ensures GetWorker(SpawnWorker(s, workerType, freshId).value.0, freshId) == Some(SpawnWorker(s, workerType, freshId).value.1)
    ensures other != freshId ==> GetWorker(SpawnWorker(s, workerType, freshId).value.0, other) == GetWorker(s, other)
  {
  }

  /** Removes a worker and its queue entry; `false` and no change for an unknown id. */
  function TerminateWorker(s: FederationState, id: string): (r: (FederationState, bool))
    ensures r.1 <==> id in s.workers
    ensures !r.1 ==> r.0 == s
    ensures r.1 ==>
      && r.0.workers.Keys == s.workers.Keys - {id}
      && OthersUnchanged(s, r.0, id)
      && r.0.completedQueue == RemoveFirst(s.completedQueue, id)
      && r.0.workerConfigs == s.workerConfigs && r.0.master == s.master
    ensures Inv(s) ==> Inv(r.0) && id !in r.0.completedQueue
  {
    if id in s.workers then
      var t := s.(workers := s.workers - {id}, completedQueue := RemoveFirst(s.completedQueue, id));
      assert Inv(s) ==> Inv(t) && id !in t.completedQueue by {
        if Inv(s) {
          RemoveFirstNoDup(s.completedQueue, id);
          assert forall i :: 0 <= i < |t.completedQueue| ==> t.completedQueue[i] in t.completedQueue;
        }
      }
      (t, true)
    else
      (s, false)
  }

  /* ---------- Task assignment ---------- */

  /** Gives a worker a task: status WORKING, the assigned task and intention recorded, any result cleared.
      The worker's prior status is not consulted, so a WORKING worker is re-assigned too; the
      queue is not touched, so a re-assigned worker keeps a pending queue entry. */
  function AssignTask(s: FederationState, id: string, task: string, intention: Intention): (r: (FederationState, bool))
    ensures r.1 <==> id in s.workers
    ensures !r.1 ==> r.0 == s
    ensures r.1 ==> id in r.0.workers
    ensures r.1 ==>
      var w := r.0.workers[id];
      && w.status == Working && w.currentTask == Some(task) && w.intention == Some(intention) && w.result == None
      && w.id == s.workers[id].id && w.workerType == s.workers[id].workerType && w.config == s.workers[id].config
      && OthersUnchanged(s, r.0, id)
      && r.0.completedQueue == s.completedQueue && r.0.workerConfigs == s.workerConfigs && r.0.master == s.master
    ensures Inv(s) ==> Inv(r.0)
  {
    if id !in s.workers then (s, false)
    else
      var w := s.workers[id].(status := Working, currentTask := Some(task), intention := Some(intention), result := None);
      (s.(workers := s.workers[id := w]), true)
  }

  /** Marks a worker DONE with `result` and enqueues it unless it is already queued. Its task and
      intention are kept as they were. */
  function CompleteTask(s: FederationState, id: string, result: string): (r: (FederationState, bool))
    ensures r.1 <==> id in s.workers
    ensures !r.1 ==> r.0 == s
    ensures r.1 ==> id in r.0.workers
    ensures r.1 ==>
      var w := r.0.workers[id];
      && w.status == Done && w.result == Some(result)
      && w.currentTask == s.workers[id].currentTask && w.intention == s.workers[id].intention
      && w.id == s.workers[id].id && w.workerType == s.workers[id].workerType && w.config == s.workers[id].config
      && OthersUnchanged(s, r.0, id)
      && r.0.workerConfigs == s.workerConfigs && r.0.master == s.master
    ensures r.1 ==> id in r.0.completedQueue && (id in s.completedQueue ==> r.0.completedQueue == s.completedQueue)
    ensures r.1 && id !in s.completedQueue ==> r.0.completedQueue == s.completedQueue + [id]
    ensures r.1 && NoDup(s.completedQueue) ==> multiset(r.0.completedQueue)[id] == 1
    ensures Inv(s) ==> Inv(r.0)
  {
    if id !in s.workers then (s, false)
    else
      var w := s.workers[id].(status := Done, result := Some(result));
      var q := if id in s.completedQueue then s.completedQueue else s.completedQueue + [id];
      var t := s.(workers := s.workers[id := w], completedQueue := q);
      assert NoDup(s.completedQueue) ==> multiset(q)[id] == 1 by {
        if NoDup(s.completedQueue) && id in s.completedQueue {
          NoDupCountsOne(s.completedQueue, id);
        }
      }
      (t, true)
  }

  /** In a duplicate-free sequence an element that occurs, occurs once. */
  lemma {:induction false} NoDupCountsOne<T>(s: seq<T>, x: T)
    requires NoDup(s) && x in s
    ensures multiset(s)[x] == 1
  {
    assert s == [s[0]] + s[1..];
    if s[0] == x {
      assert x !in s[1..];
    } else {
      assert x in s[1..];
      NoDupCountsOne(s[1..], x);
    }
  }

  /** Resets a worker to IDLE with no task, intention or result and removes its queue entry. */
  function ClearWorker(s: FederationState, id: string): (r: (FederationState, bool))
    ensures r.1 <==> id in s.workers
    ensures !r.1 ==> r.0 == s
    ensures r.1 ==> id in r.0.workers
    ensures r.1 ==>
      var w := r.0.workers[id];
      && w.status == Idle && w.currentTask == None && w.intention == None && w.result == None
      && w.id == s.workers[id].id && w.workerType == s.workers[id].workerType && w.config == s.workers[id].config
      && OthersUnchanged(s, r.0, id)
      && r.0.completedQueue == RemoveFirst(s.completedQueue, id)
      && r.0.workerConfigs == s.workerConfigs && r.0.master == s.master
    ensures Inv(s) ==> Inv(r.0) && id !in r.0.completedQueue
  {
    if id !in s.workers then (s, false)
    else
      var w := s.workers[id].(status := Idle, currentTask := None, intention := None, result := None);
      var t := s.(workers := s.workers[id := w], completedQueue := RemoveFirst(s.completedQueue, id));
      assert Inv(s) ==> Inv(t) && id !in t.completedQueue by {
        if Inv(s) {
          RemoveFirstNoDup(s.completedQueue, id);
          assert forall i :: 0 <= i < |t.completedQueue| ==> t.completedQueue[i] in t.completedQueue;
        }
      }
      (t, true)
  }

  /* ---------- Completion queue ---------- */

  /** The records of the queued ids that are still live, in queue order. */
  function LiveRecords(workers: map<string, Worker>, ids: seq<string>): (r: seq<Worker>)
    ensures |r| <= |ids|
    ensures forall i :: 0 <= i < |r| ==> r[i] in workers.Values
    ensures (forall j :: 0 <= j < |ids| ==> ids[j] !in workers) ==> r == []
    ensures forall j :: 0 <= j < |ids| && ids[j] in workers ==> workers[ids[j]] in r
    ensures (forall j :: 0 <= j < |ids| ==> ids[j] in workers) ==>
      |r| == |ids| && forall i :: 0 <= i < |r| ==> r[i] == workers[ids[i]]
  {
    if |ids| == 0 then []
    else
      var rest := LiveRecords(workers, ids[1..]);
      assert forall j :: 1 <= j < |ids| ==> ids[j] == ids[1..][j - 1];
      if ids[0] in workers then [workers[ids[0]]] + rest else rest
  }

  /** The completed workers, without consuming them: the live records of the queued ids in queue
      order; ids no longer in `workers` are skipped. The state is not returned, so it cannot change. */
  function GetCompletedWorkers(s: FederationState): (r: seq<Worker>)
    ensures QueueInv(s) ==> |r| == |s.completedQueue| && forall i :: 0 <= i < |r| ==> r[i] == s.workers[s.completedQueue[i]]
    ensures forall w :: w in r ==> w in s.workers.Values
  {
    LiveRecords(s.workers, s.completedQueue)
  }

  /** A queued id names a live DONE worker. */
  predicate LiveDone(workers: map<string, Worker>, id: string) {
    id in workers && workers[id].status == Done
  }

  /** Drops ids from the front of `q` until one names a live DONE worker, and returns that worker
      with the rest of the queue after it. */
  function PopFrom(workers: map<string, Worker>, q: seq<string>): (r: (Option<Worker>, seq<string>))
    ensures |r.1| <= |q| && r.1 == q[|q| - |r.1|..]
    ensures r.0.None? ==> r.1 == [] && forall i :: 0 <= i < |q| ==> !LiveDone(workers, q[i])
    ensures r.0.Some? ==>
      var k := |q| - |r.1| - 1;
      && 0 <= k
      && LiveDone(workers, q[k]) && workers[q[k]] == r.0.value
      && forall j :: 0 <= j < k ==> !LiveDone(workers, q[j])
  {
    if |q| == 0 then (None, [])
    else if LiveDone(workers, q[0]) then (Some(workers[q[0]]), q[1..])
    else
      var r := PopFrom(workers, q[1..]);
      assert forall j :: 1 <= j < |q| ==> q[j] == q[1..][j - 1];
      r
  }

  /** A suffix of a duplicate-free sequence is duplicate-free. */
  lemma NoDupSuffix<T>(s: seq<T>, k: nat)
    requires NoDup(s) && k <= |s|
    ensures NoDup(s[k..])
  {
    forall i, j | 0 <= i < j < |s[k..]| ensures s[k..][i] != s[k..][j] {
      assert s[k..][i] == s[k + i] && s[k..][j] == s[k + j];
    }
  }

  /** Pops the next completed worker. The returned worker is still DONE: popping does not reset
      it. Queue entries skipped on the way (dead ids, or live workers that are no longer DONE) are
      dropped. `None` once the queue is exhausted. */
  function PopCompleted(s: FederationState): (r: (FederationState, Option<Worker>))
    ensures r.0.workers == s.workers && r.0.workerConfigs == s.workerConfigs && r.0.master == s.master
    ensures r.1.Some? ==> r.1.value.status == Done && r.1.value in s.workers.Values
    ensures r.1.None? ==> r.0.completedQueue == []
    ensures |r.0.completedQueue| <= |s.completedQueue|
    ensures r.1.Some? ==> |r.0.completedQueue| < |s.completedQueue|
    ensures Inv(s) ==> Inv(r.0)
  {
    var (w, q) := PopFrom(s.workers, s.completedQueue);
    var t := s.(completedQueue := q);
    assert Inv(s) ==> Inv(t) by {
      if Inv(s) {
        NoDupSuffix(s.completedQueue, |s.completedQueue| - |q|);
        assert forall i :: 0 <= i < |q| ==> q[i] == s.completedQueue[|s.completedQueue| - |q| + i];
      }
    }
    (t, w)
  }
}
