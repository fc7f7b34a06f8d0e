/** The request daemon as a value: the queues and proxies of
    online-accounts-service/request-manager.cpp, the requests of request.cpp, and the steps that
    D-Bus calls, sockets and timers make it take.

    A step is one slot run to its end, with everything it calls back into, followed by the
    deferred deletions (`deleteLater`) that it asked for. */
module Daemon {
  import opened Options
  import opened Proxy

  const ERROR_PROMPT_SESSION := "com.ubuntu.OnlineAccountsUi.NoPromptSession"

  type Pid = nat

  /** What happens when proxy number `pid` is started. */
  type World = Pid -> Outcome

  /** The slots that a request's `completed` signal is connected to. */
  datatype Slot = ToManager | DeleteLater | ToProxy(pid: Pid)

  datatype Request = Request(inProgress: bool, delay: int, slots: seq<Slot>)

  /** `routed`: an existing proxy had a handler for it, so it is in no queue. */
  datatype Arrival = Arrival(params: Params, routed: bool)

  datatype Answer = Result(data: string) | Failure(name: string, message: string)

  datatype Reply = Reply(rid: Rid, answer: Answer)

  const CANCELED := Failure(ERROR_USER_CANCELED, "Canceled")

  const NO_PROMPT := Failure(ERROR_PROMPT_SESSION, "Could not create a prompt session")

  /** `deleted` and `dying` are the requests and proxies that wait for their deferred deletion,
      `idleSeen` what the inactivity timer last read, `aborted` a failed assertion, `outOfTurn` that
      a request was completed which was not the first of its queue. */
  datatype State = State(arrivals: seq<Arrival>, requests: map<Rid, Request>, deleted: set<Rid>,
                         queues: map<nat, seq<Rid>>, proxies: map<Pid, UiProxy>, order: seq<Pid>, nextPid: nat,
                         dying: seq<Pid>, replies: seq<Reply>, idleSeen: bool, aborted: bool, outOfTurn: bool)

  const START := State([], map[], {}, map[], map[], [], 0, [], [], true, false, false)

  function Req(s: State, r: Rid): Request {
    if r in s.requests then s.requests[r] else Request(false, 0, [])
  }

  function Window(s: State, r: Rid): nat {
    if r < |s.arrivals| then s.arrivals[r].params.windowId else 0
  }

  function Queue(s: State, w: nat): seq<Rid> {
    if w in s.queues then s.queues[w] else []
  }

  // ----- RequestManagerPrivate -----

  function NotifyIfIdle(s: State): State {
    if s.queues == map[] then s.(idleSeen := true) else s
  }

  function Dequeue(s: State, w: nat): State
    requires Queue(s, w) != []
  {
    s.(queues := if |s.queues[w]| == 1 then s.queues - {w} else s.queues[w := s.queues[w][1..]],
       deleted := s.deleted + {s.queues[w][0]})
  }

  function SetRequest(s: State, r: Rid, x: Request): State {
    s.(requests := s.requests[r := x])
  }

  function SetProxy(s: State, pid: Pid, p: UiProxy): State {
    s.(proxies := s.proxies[pid := p])
  }

  function AddProxy(s: State): State {
    s.(proxies := s.proxies[s.nextPid := NEW_PROXY], order := s.order + [s.nextPid], nextPid := s.nextPid + 1)
  }

  /** Connect one more slot to the `completed` signal of request `r`. */
  function ConnectTo(s: State, r: Rid, slot: Slot): State {
    SetRequest(s, r, Req(s, r).(slots := Req(s, r).slots + [slot]))
  }

  function InitFailed(s: State, r: Rid): State {
    s.(nextPid := s.nextPid + 1, replies := s.replies + [Reply(r, NO_PROMPT)])
  }

  /** runQueue: start the head, or fail it and go on with the rest. */
  function RunQueue(world: World, s: State, w: nat): State
    decreases |Queue(s, w)|, 1
  {
    if Queue(s, w) == [] then s.(aborted := true)
    else
      var r := s.queues[w][0];
      if Req(s, r).inProgress then s
      else
        var t := ConnectTo(s, r, ToManager);
        if world(s.nextPid).InitFails? then HeadCompleted(world, InitFailed(t, r), w)
        else Handle(world, AddProxy(t), s.nextPid, r)
  }

  /** onRequestCompleted, sent by the head of queue `w`. */
  function HeadCompleted(world: World, s: State, w: nat): State
    requires Queue(s, w) != []
    decreases |Queue(s, w)|, 0
  {
    var t := Dequeue(s, w);
    NotifyIfIdle(if w in t.queues then RunQueue(world, t, w) else t)
  }

  function ManagerCompleted(world: World, s: State, r: Rid): State {
    var w := Window(s, r);
    if Queue(s, w) == [] then s.(aborted := true)
    else if s.queues[w][0] != r then s.(outOfTurn := true)
    else HeadCompleted(world, s, w)
  }

  /** UiProxy::handleRequest */
  function Handle(world: World, s: State, pid: Pid, r: Rid): State
    requires pid in s.proxies
  {
    var params := if r < |s.arrivals| then s.arrivals[r].params else Params(0, None, "");
    s.(proxies := s.proxies[pid := HandleRequest(world(pid), s.proxies[pid], Pending(r, params))],
       requests := s.requests[r := Req(s, r).(slots := Req(s, r).slots + [ToProxy(pid)], inProgress := true)])
  }

  function FirstHandler(s: State, params: Params, from: nat): (r: Option<Pid>)
    ensures r.Some? ==> r.value in s.proxies && r.value in s.order && HasHandlerFor(s.proxies[r.value], params)
    decreases |s.order| - from
  {
    if from >= |s.order| then None
    else if s.order[from] in s.proxies && HasHandlerFor(s.proxies[s.order[from]], params) then Some(s.order[from])
    else FirstHandler(s, params, from + 1)
  }

  /** A request comes in over D-Bus. */
  function Enqueue(world: World, s: State, params: Params): State {
    var r := |s.arrivals|;
    match FirstHandler(s, params, 0)
    case Some(pid) =>
      Handle(world, s.(arrivals := s.arrivals + [Arrival(params, true)],
                       requests := s.requests[r := Request(false, 0, [DeleteLater])]), pid, r)
    case None =>
      var w := params.windowId;
      var t := s.(arrivals := s.arrivals + [Arrival(params, false)],
                  requests := s.requests[r := Request(false, 0, [])],
                  queues := s.queues[w := Queue(s, w) + [r]],
                  idleSeen := if s.queues == map[] then false else s.idleSeen);
      RunQueue(world, t, w)
  }

  // ----- Request -----

  function EmitTo(world: World, s: State, r: Rid, slot: Slot): State {
    match slot
    case ToManager => ManagerCompleted(world, s, r)
    case DeleteLater => s.(deleted := s.deleted + {r})
    case ToProxy(pid) =>
      if pid in s.proxies then s.(proxies := s.proxies[pid := OnRequestCompleted(s.proxies[pid], r)]) else s
  }

  /** Emission of `completed`: the slots run in the order of their connection. */
  function Emit(world: World, s: State, r: Rid, slots: seq<Slot>): State
    decreases |slots|
  {
    if slots == [] then s else Emit(world, EmitTo(world, s, r, slots[0]), r, slots[1..])
  }

  function Answered(world: World, s: State, r: Rid, answer: Answer): State {
    Emit(world, s.(replies := s.replies + [Reply(r, answer)]), r, Req(s, r).slots)
  }

  function SetIdle(s: State, r: Rid): State {
    SetRequest(s, r, Req(s, r).(inProgress := false))
  }

  function RequestFail(world: World, s: State, r: Rid, name: string, message: string): State {
    Answered(world, s, r, Failure(name, message))
  }

  function RequestSetCanceled(world: World, s: State, r: Rid): State {
    if Req(s, r).inProgress then SetIdle(RequestFail(world, s, r, CANCELED.name, CANCELED.message), r) else s
  }

  function RequestSetResult(world: World, s: State, r: Rid, data: string): State {
    if Req(s, r).inProgress then SetIdle(Answered(world, s, r, Result(data)), r) else s
  }

  // ----- the end of a proxy -----

  function Without(order: seq<Pid>, pid: Pid): seq<Pid> {
    if order == [] then []
    else if order[0] == pid then order[1..]
    else [order[0]] + Without(order[1..], pid)
  }

  /** onProxyFinished */
  function ProxyFinished(s: State, pid: Pid): State {
    s.(order := Without(s.order, pid), dying := s.dying + [pid])
  }

  function CancelAll(world: World, s: State, rids: seq<Rid>): State
    decreases |rids|
  {
    if rids == [] then s else CancelAll(world, RequestSetCanceled(world, s, rids[0]), rids[1..])
  }

  /** ~UiProxyPrivate */
  function Destroy(world: World, s: State, pid: Pid): State {
    if pid !in s.proxies then s
    else
      var t := CancelAll(world, s, PendingList(s.proxies[pid], 0));
      t.(proxies := t.proxies - {pid}, dying := Without(t.dying, pid))
  }

  function DestroyAll(world: World, s: State, pids: seq<Pid>): State
    decreases |pids|
  {
    if pids == [] then s else DestroyAll(world, Destroy(world, s, pids[0]), pids[1..])
  }

  function Purge(s: State): State {
    s.(requests := s.requests - s.deleted, deleted := {})
  }

  /** Back in the event loop: the deferred deletions. */
  function Flush(world: World, s: State): State {
    Purge(DestroyAll(world, s, s.dying))
  }

  // ----- the steps -----

  datatype Event =
    | Call(params: Params)                   // a D-Bus call
    | CancelRequest(rid: Rid)                // cancelUiRequest found this request
    | Connect(pid: Pid)                      // the UI process opens the socket
    | Ui(pid: Pid, op: UiOp)                 // something happens in the UI process
    | DataReady(pid: Pid)                    // the next frame from the UI process
    | Disconnected(pid: Pid)                 // the socket is closed at the other end
    | Timeout(pid: Pid)                      // the delay timer of a proxy fires
    | PromptSessionFinished(pid: Pid)        // the display server ends the prompt session

  function DataReadyStep(world: World, s: State, pid: Pid): State
    requires pid in s.proxies && s.proxies[pid].wire.toService != []
  {
    var p := s.proxies[pid];
    var f := p.wire.toService[0];
    var t := SetProxy(s, pid, PopReply(p));
    if f.RegisterHandler? then SetProxy(t, pid, t.proxies[pid].(handlers := p.handlers + [f.handlerId]))
    else if f.id !in p.requests then t.(aborted := true)
    else
      var r := p.requests[f.id].rid;
      if f.Finished?
      then RequestSetResult(world, SetRequest(t, r, Req(t, r).(delay := f.delay)), r, f.data)
      else RequestFail(world, t, r, f.name, f.message)
  }

  function Handled(world: World, s: State, e: Event): State {
    match e
    case Call(params) => Enqueue(world, s, params)
    case CancelRequest(rid) => if rid in s.requests then RequestSetCanceled(world, s, rid) else s
    case Connect(pid) => if pid in s.proxies then SetProxy(s, pid, OnNewConnection(s.proxies[pid])) else s
    case Ui(pid, op) =>
      if pid in s.proxies && s.proxies[pid].socket == Open
      then SetProxy(s, pid, s.proxies[pid].(wire := UiDo(s.proxies[pid].wire, op)))
      else s
    case DataReady(pid) =>
      if pid in s.proxies && s.proxies[pid].wire.toService != [] then DataReadyStep(world, s, pid) else s
    case Disconnected(pid) =>
      if pid in s.proxies && s.proxies[pid].socket == Open then
        var t := SetProxy(s, pid, Disconnect(s.proxies[pid]));
        if s.proxies[pid].timerActive then t else ProxyFinished(t, pid)
      else s
    case Timeout(pid) =>
      if pid in s.proxies && s.proxies[pid].timerActive then
        var t := SetProxy(s, pid, s.proxies[pid].(timerActive := false));
        if s.proxies[pid].requests == map[] then ProxyFinished(t, pid) else t
      else s
    case PromptSessionFinished(pid) => if pid in s.proxies then ProxyFinished(s, pid) else s
  }

  function Step(world: World, s: State, e: Event): State {
    if s.aborted then s else Flush(world, Handled(world, s, e))
  }

  // ----- runs -----

  /** The states that a sequence of events leads through: event `i` is from state `i` to the next. */
  datatype Run = Run(world: World, events: seq<Event>, states: seq<State>)

  ghost predicate Follows(run: Run, i: nat)
    requires i < |run.events| && |run.states| == |run.events| + 1
  {
    run.states[i + 1] == Step(run.world, run.states[i], run.events[i])
  }

  ghost predicate IsRun(run: Run) {
    && |run.states| == |run.events| + 1 && run.states[0] == START
    && forall i :: 0 <= i < |run.events| ==> Follows(run, i)
  }

  /** State `n` of a run, with no failed assertion so far. */
  ghost predicate Reaches(run: Run, n: nat) {
    IsRun(run) && n < |run.states| && !run.states[n].aborted
  }

  function States(world: World, events: seq<Event>): (states: seq<State>)
    ensures |states| == |events| + 1
  {
    if events == [] then [START]
    else
      var states := States(world, events[..|events| - 1]);
      states + [Step(world, states[|events| - 1], events[|events| - 1])]
  }

  /** Whatever the world and the events, there is a run. */
  lemma {:induction false} RunExists(world: World, events: seq<Event>)
    ensures IsRun(Run(world, events, States(world, events)))
  {
    if events != [] {
      var n := |events| - 1;
      RunExists(world, events[..n]);
      var run, front := Run(world, events, States(world, events)), Run(world, events[..n], States(world, events[..n]));
      forall i | 0 <= i < |events| ensures Follows(run, i) {
        if i < n { assert Follows(front, i); }
      }
    }
  }
}
