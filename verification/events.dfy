/** The event bus: an ordered list of subscribed handlers and synchronous, in-order delivery, plus
    the event constructors. Handlers are opaque ids; whether a handler raises on an event is a
    parameter. Timestamps are not modelled. */
module Events {
  import opened Wrappers
  import opened Seqs
  import opened JsonValue

  datatype EventType =
    | MasterThinking | MasterText | MasterToolCall | MasterToolResult | MasterDone | MasterError
    | WorkerSpawned | WorkerThinking | WorkerText | WorkerToolCall | WorkerToolResult | WorkerDone
    | WorkerError | WorkerTerminated
    | DelegationStarted | DelegationCompleted
    | StatusUpdate

  /** A payload value: text, or a structured tool input. */
  datatype Value = VStr(s: string) | VJson(j: Json)

  /** `agentId` is `None` for master-scoped events; `data` holds the keyword payload. */
  datatype Event = Event(eventType: EventType, agentId: Option<string>, data: map<string, Value>)

  /** `Event.create`: the tag is the `agent_id` argument and the payload is exactly the other
      keyword arguments. */
  function Create(t: EventType, agentId: Option<string>, data: map<string, Value>): (r: Event)
    ensures r.eventType == t && r.agentId == agentId && r.data == data
    ensures data.Keys == PayloadKeys(t) && (agentId.Some? <==> IsAgentScoped(t)) ==> WellFormedEvent(r)
  {
    Event(t, agentId, data)
  }

  /** The payload keys each event kind carries, as observers of the bus rely on them. */
  function PayloadKeys(t: EventType): set<string> {
    match t
    case MasterText | WorkerText => {"text"}
    case MasterToolCall | WorkerToolCall => {"tool_name", "tool_input"}
    case MasterToolResult => {"tool_name", "result"}
    case WorkerSpawned => {"agent_type"}
    case WorkerDone => {"result"}
    case DelegationStarted => {"delegation_id", "task"}
    case DelegationCompleted => {"delegation_id", "result"}
    case StatusUpdate => {"message"}
    case _ => {}
  }

  /** Event kinds that concern one worker and so carry its id as the tag. */
  predicate IsAgentScoped(t: EventType) {
    t in {WorkerSpawned, WorkerThinking, WorkerText, WorkerToolCall, WorkerToolResult, WorkerDone,
          WorkerError, WorkerTerminated, DelegationStarted, DelegationCompleted}
  }

  /** An event is well formed when its payload has exactly its kind's keys and it is tagged exactly
      when its kind is agent-scoped. */
  predicate WellFormedEvent(e: Event) {
    e.data.Keys == PayloadKeys(e.eventType) && (e.agentId.Some? <==> IsAgentScoped(e.eventType))
  }

  /* ---------- Convenience constructors ---------- */

  function MasterTextEvent(text: string): (e: Event)
    ensures WellFormedEvent(e) && e.eventType == MasterText && e.data["text"] == VStr(text)
  {
    Create(MasterText, None, map["text" := VStr(text)])
  }

  function MasterToolCallEvent(toolName: string, toolInput: Json): (e: Event)
    ensures WellFormedEvent(e) && e.eventType == MasterToolCall
    ensures e.data["tool_name"] == VStr(toolName) && e.data["tool_input"] == VJson(toolInput)
  {
    Create(MasterToolCall, None, map["tool_name" := VStr(toolName), "tool_input" := VJson(toolInput)])
  }

  function MasterToolResultEvent(toolName: string, result: string): (e: Event)
    ensures WellFormedEvent(e) && e.eventType == MasterToolResult
    ensures e.data["tool_name"] == VStr(toolName) && e.data["result"] == VStr(result)
  {
    Create(MasterToolResult, None, map["tool_name" := VStr(toolName), "result" := VStr(result)])
  }

  /** The event the master loop emits when it finishes: no tag, empty payload. */
  const MasterDoneEvent: Event := Create(MasterDone, None, map[])

  lemma MasterDoneEventWellFormed()
    ensures WellFormedEvent(MasterDoneEvent) && MasterDoneEvent.agentId == None
  {
  }

  function WorkerSpawnedEvent(agentId: string, agentType: string): (e: Event)
    ensures WellFormedEvent(e) && e.eventType == WorkerSpawned
    ensures e.agentId == Some(agentId) && e.data["agent_type"] == VStr(agentType)
  {
    Create(WorkerSpawned, Some(agentId), map["agent_type" := VStr(agentType)])
  }

  function WorkerTextEvent(agentId: string, text: string): (e: Event)
    ensures WellFormedEvent(e) && e.eventType == WorkerText
    ensures e.agentId == Some(agentId) && e.data["text"] == VStr(text)
  {
    Create(WorkerText, Some(agentId), map["text" := VStr(text)])
  }

  function WorkerToolCallEvent(agentId: string, toolName: string, toolInput: Json): (e: Event)
    ensures WellFormedEvent(e) && e.eventType == WorkerToolCall && e.agentId == Some(agentId)
    ensures e.data["tool_name"] == VStr(toolName) && e.data["tool_input"] == VJson(toolInput)
  {
    Create(WorkerToolCall, Some(agentId), map["tool_name" := VStr(toolName), "tool_input" := VJson(toolInput)])
  }

  function WorkerDoneEvent(agentId: string, result: string): (e: Event)
    ensures WellFormedEvent(e) && e.eventType == WorkerDone
    ensures e.agentId == Some(agentId) && e.data["result"] == VStr(result)
  {
    Create(WorkerDone, Some(agentId), map["result" := VStr(result)])
  }

  /** The `agent_id` keyword binds `Event.create`'s own parameter, so the agent id becomes the
      event's tag and is not part of the payload. */
  function DelegationStartedEvent(delegationId: string, agentId: string, task: string): (e: Event)
    ensures WellFormedEvent(e) && e.eventType == DelegationStarted
    ensures e.agentId == Some(agentId) && "agent_id" !in e.data && e.data["task"] == VStr(task)
  {
    Create(DelegationStarted, Some(agentId), map["delegation_id" := VStr(delegationId), "task" := VStr(task)])
  }

  function DelegationCompletedEvent(delegationId: string, agentId: string, result: string): (e: Event)
    ensures WellFormedEvent(e) && e.eventType == DelegationCompleted
    ensures e.agentId == Some(agentId) && "agent_id" !in e.data && e.data["result"] == VStr(result)
  {
    Create(DelegationCompleted, Some(agentId), map["delegation_id" := VStr(delegationId), "result" := VStr(result)])
  }

  function StatusUpdateEvent(message: string): (e: Event)
    ensures WellFormedEvent(e) && e.eventType == StatusUpdate && e.data["message"] == VStr(message)
  {
    Create(StatusUpdate, None, map["message" := VStr(message)])
  }

  /* ---------- The bus ---------- */

  datatype Bus<H> = Bus(handlers: seq<H>)

  /** A bus with no handlers. */
  function NewBus<H>(): (r: Bus<H>)
    ensures |r.handlers| == 0
  {
    Bus([])
  }

  /** Appends `h`; a handler subscribed twice is listed twice. */
  function Subscribe<H>(b: Bus<H>, h: H): (r: Bus<H>)
    ensures |r.handlers| == |b.handlers| + 1 && r.handlers[|b.handlers|] == h
    ensures r.handlers[..|b.handlers|] == b.handlers
  {
    Bus(b.handlers + [h])
  }

  /** Removes the first occurrence of `h`; Python's `list.remove` raises when `h` is absent. */
  function Unsubscribe<H(==)>(b: Bus<H>, h: H): (r: Result<Bus<H>, string>)
    ensures r.Err? <==> h !in b.handlers
    ensures r.Ok? ==> |r.value.handlers| == |b.handlers| - 1
    ensures r.Ok? ==> multiset(r.value.handlers) == multiset(b.handlers) - multiset{h}
    ensures r.Ok? ==>
      var k := IndexOf(b.handlers, h);
      r.value.handlers == b.handlers[..k] + b.handlers[k + 1..]
  {
    if h !in b.handlers then Err("list.remove(x): x not in list")
    else
      RemoveFirstMultiset(b.handlers, h);
      RemoveFirstShape(b.handlers, h);
      Ok(Bus(RemoveFirst(b.handlers, h)))
  }

  /** What one `emit` did: the handlers called, in call order, and whether the last one raised
      (which ends delivery and propagates to the emitter). */
  datatype Delivery<H> = Delivery(called: seq<H>, raised: bool)

  /** Calls the handlers in list order until one raises. */
  function Deliver<H>(hs: seq<H>, e: Event, raises: (H, Event) -> bool): (d: Delivery<H>)
    ensures |d.called| <= |hs| && d.called == hs[..|d.called|]
    ensures !d.raised ==> d.called == hs
    ensures d.raised ==> |d.called| > 0 && raises(d.called[|d.called| - 1], e)
    ensures forall i :: 0 <= i < |d.called| - 1 ==> !raises(d.called[i], e)
    ensures !d.raised ==> forall i :: 0 <= i < |hs| ==> !raises(hs[i], e)
  {
    if |hs| == 0 then Delivery([], false)
    else if raises(hs[0], e) then Delivery([hs[0]], true)
    else
      var d := Deliver(hs[1..], e, raises);
      assert forall i :: 1 <= i < |hs| ==> hs[i] == hs[1..][i - 1];
      Delivery([hs[0]] + d.called, d.raised)
  }

  /** `emit`: synchronous delivery to the current handler list, with no failure isolation. */
  function Emit<H>(b: Bus<H>, e: Event, raises: (H, Event) -> bool): (r: Delivery<H>)
    ensures r.called <= b.handlers
    ensures r.raised <==> exists i :: 0 <= i < |b.handlers| && raises(b.handlers[i], e)
    ensures r.raised ==> |r.called| > 0 && raises(r.called[|r.called| - 1], e) && forall i :: 0 <= i < |r.called| - 1 ==> !raises(r.called[i], e)
  {
    Deliver(b.handlers, e, raises)
  }

  /** Emitting on a new bus calls nothing and cannot raise. */
  lemma NewBusCallsNothing<H>(e: Event, raises: (H, Event) -> bool)
    ensures Emit(NewBus(), e, raises) == Delivery([], false)
  {
  }

  /** When no handler raises, every list entry is called exactly once in list order, so a handler
      subscribed twice is called twice and one not subscribed is never called. */
  lemma EmitCallsEachEntryOnce<H>(b: Bus<H>, e: Event, raises: (H, Event) -> bool)
    requires forall i :: 0 <= i < |b.handlers| ==> !raises(b.handlers[i], e)
    ensures !Emit(b, e, raises).raised
    ensures Emit(b, e, raises).called == b.handlers
    ensures forall h :: multiset(Emit(b, e, raises).called)[h] == multiset(b.handlers)[h]
  {
  }

  /** When a handler raises, delivery stops there: exactly the entries up to and including the
      first raising one are called, and the later ones are not. */
  lemma {:induction false} EmitStopsAtFirstRaise<H>(hs: seq<H>, e: Event, raises: (H, Event) -> bool, k: nat)
    requires k < |hs| && raises(hs[k], e)
    requires forall i :: 0 <= i < k ==> !raises(hs[i], e)
    ensures Deliver(hs, e, raises).raised
    ensures Deliver(hs, e, raises).called == hs[..k + 1]
    decreases k
  {
    if k > 0 {
      EmitStopsAtFirstRaise(hs[1..], e, raises, k - 1);
      assert hs[..k + 1] == [hs[0]] + hs[1..][..k];
    }
  }

  /** A handler not in the list at emit time is never called. */
  lemma UnsubscribedNotCalled<H>(b: Bus<H>, e: Event, raises: (H, Event) -> bool, h: H)
    requires h !in b.handlers
    ensures h !in Emit(b, e, raises).called
  {
    var d := Emit(b, e, raises);
    assert forall i :: 0 <= i < |d.called| ==> d.called[i] == b.handlers[i];
  }

  /** After unsubscribing a handler that was subscribed once, an emit no longer reaches it. */
  lemma UnsubscribeThenEmit<H>(b: Bus<H>, h: H, e: Event, raises: (H, Event) -> bool)
    requires multiset(b.handlers)[h] == 1
    ensures Unsubscribe(b, h).Ok?
    ensures h !in Emit(Unsubscribe(b, h).value, e, raises).called
  {
    var b' := Unsubscribe(b, h).value;
    assert multiset(b'.handlers)[h] == 0;
    UnsubscribedNotCalled(b', e, raises, h);
  }

  /** A handler subscribed last is called last when no handler raises. */
  lemma SubscribeThenEmit<H>(b: Bus<H>, h: H, e: Event, raises: (H, Event) -> bool)
    requires forall i :: 0 <= i < |b.handlers| ==> !raises(b.handlers[i], e)
    requires !raises(h, e)
    ensures Emit(Subscribe(b, h), e, raises).called == b.handlers + [h]
  {
    EmitCallsEachEntryOnce(Subscribe(b, h), e, raises);
  }
}
