/** What holds over whole runs of the daemon, for every world and every sequence of events. */
module Runs {
  import opened Options
  import opened Proxy
  import opened Daemon
  import opened Invariant
  import opened Steps

  lemma StartSettled()
    ensures Settled(START)
  {
    forall c: Clause ensures Ok(c, START, {}) {}
  }

  /** After a failed assertion nothing happens any more. */
  lemma {:induction false} ReachesBefore(run: Run, m: nat, n: nat)
    requires Reaches(run, n) && m <= n
    ensures Reaches(run, m)
    decreases n
  {
    if m < n {
      assert Follows(run, n - 1);
      ReachesBefore(run, m, n - 1);
    }
  }

  lemma {:induction false} RunSettled(run: Run, n: nat)
    requires Reaches(run, n)
    ensures Settled(run.states[n])
  {
    if n == 0 {
      StartSettled();
    } else {
      ReachesBefore(run, n - 1, n);
      RunSettled(run, n - 1);
      assert Follows(run, n - 1);
      LateReply(run.world, run.states[n - 1], run.events[n - 1]);
    }
  }

  // ----- where the requests are -----

  /** Behind the head of its own window's queue, untouched, in no proxy. */
  ghost predicate WaitsInQueue(s: State, r: Rid) {
    && r in s.requests && !s.requests[r].inProgress
    && (exists i :: 0 < i < |Queue(s, Window(s, r))| && Queue(s, Window(s, r))[i] == r)
    && (forall pid, id :: !Holds(s, pid, id, r))
  }

  ghost predicate InExactlyOneProxy(s: State, r: Rid) {
    && (exists pid, id :: Holds(s, pid, id, r))
    && (forall pid, id, x, i :: Holds(s, pid, id, r) && Holds(s, x, i, r) ==> pid == x && id == i)
  }

  ghost predicate LeadsItsQueue(s: State, r: Rid) {
    && r in s.requests && s.requests[r].inProgress && IsHead(s, r) && InExactlyOneProxy(s, r)
  }

  ghost predicate InNoQueue(s: State, r: Rid) {
    && r in s.requests && s.requests[r].inProgress && InExactlyOneProxy(s, r)
    && (forall w :: w in s.queues ==> r !in s.queues[w])
  }

  /** Between events every request that has not been answered is in exactly one of three
      places, and every request that has been answered is in none. */
  lemma Partition(run: Run, n: nat, r: Rid)
    requires Reaches(run, n) && r < |run.states[n].arrivals|
    ensures
      var s := run.states[n];
      if r in s.requests then
        if s.arrivals[r].routed then InNoQueue(s, r) else (WaitsInQueue(s, r) <==> !LeadsItsQueue(s, r))
      else (forall w :: w in s.queues ==> r !in s.queues[w]) && (forall pid, id :: !Holds(s, pid, id, r))
    ensures
      var s := run.states[n];
      r !in s.requests <==> exists i :: 0 <= i < |s.replies| && s.replies[i].rid == r
  {
    var s := run.states[n];
    RunSettled(run, n);
    assert Ok(Replies, s, {}) && Ok(Alive, s, {}) && Ok(Queues, s, {}) && Ok(Proxies, s, {});
    assert r in s.requests <==> Live(s, r);
    forall w | w in s.queues && r in s.queues[w] ensures r in s.requests && !s.arrivals[r].routed && w == Window(s, r) {
      assert QueueOk(s, w, {});
      var i :| 0 <= i < |s.queues[w]| && s.queues[w][i] == r;
      assert InQueueOf(s, w, s.queues[w][i]);
    }
    forall pid, id { HeldInProgress(s, pid, id, r); }
    if r in s.requests { PlacedOnce(s, r); }
  }

  lemma HeldInProgress(s: State, pid: Pid, id: nat, r: Rid)
    requires ProxiesOk(s, {})
    ensures Holds(s, pid, id, r) ==> r in s.requests && s.requests[r].inProgress
  {
    assert Holds(s, pid, id, r) ==> HeldOk(s, pid, id, {});
  }

  /** What is held is held by one proxy under one id. */
  lemma HolderIsUnique(s: State, r: Rid, pid: Pid, id: nat)
    requires ProxiesOk(s, {}) && Holds(s, pid, id, r)
    ensures InExactlyOneProxy(s, r)
  {
    forall x, i, y, k | Holds(s, x, i, r) && Holds(s, y, k, r) ensures x == y && i == k {
      HeldOnce(s, x, i, y, k, r, {});
    }
  }

  lemma RoutedIsPlaced(s: State, r: Rid)
    requires ProxiesOk(s, {}) && Routed(s, r)
    ensures s.requests[r].inProgress && InExactlyOneProxy(s, r)
  {
    var pid, id :| Holds(s, pid, id, r);
    HolderIsUnique(s, r, pid, id);
  }

  lemma HeadIsPlaced(s: State, r: Rid)
    requires ProxiesOk(s, {}) && Led(s, r)
    ensures s.requests[r].inProgress && InExactlyOneProxy(s, r)
  {
    var pid, id :| Holds(s, pid, id, r);
    HolderIsUnique(s, r, pid, id);
  }

  lemma QueuedIsPlaced(s: State, r: Rid, w: nat, i: nat)
    requires ProxiesOk(s, {}) && w == Window(s, r) && w in s.queues && QueueOk(s, w, {})
    requires i < |s.queues[w]| && s.queues[w][i] == r
    ensures WaitsInQueue(s, r) <==> !LeadsItsQueue(s, r)
  {
    if i == 0 {
      HeadIsPlaced(s, r);
    } else {
      forall pid, id { HeldInProgress(s, pid, id, r); }
    }
  }

  lemma PlacedOnce(s: State, r: Rid)
    requires Settled(s) && r in s.requests && r < |s.arrivals|
    ensures if s.arrivals[r].routed then s.requests[r].inProgress && InExactlyOneProxy(s, r)
            else (WaitsInQueue(s, r) <==> !LeadsItsQueue(s, r))
  {
    assert Ok(Alive, s, {}) && Ok(Queues, s, {}) && Ok(Proxies, s, {});
    assert Live(s, r);
    if s.arrivals[r].routed {
      RoutedIsPlaced(s, r);
    } else {
      var w := Window(s, r);
      var i :| 0 <= i < |Queue(s, w)| && Queue(s, w)[i] == r;
      QueuedIsPlaced(s, r, w, i);
    }
  }

  /** No empty queue is stored, and of each queue the head and nothing else is in progress. */
  lemma OnlyHeadsInProgress(run: Run, n: nat, w: nat, i: nat)
    requires Reaches(run, n) && w in run.states[n].queues && i < |run.states[n].queues[w]|
    ensures
      var s := run.states[n];
      var r := s.queues[w][i];
      r in s.requests && Window(s, r) == w && (s.requests[r].inProgress <==> i == 0)
  {
    var s := run.states[n];
    RunSettled(run, n);
    assert Ok(Queues, s, {}) && QueueOk(s, w, {});
    assert InQueueOf(s, w, s.queues[w][i]);
  }

  lemma NoEmptyQueue(run: Run, n: nat, w: nat)
    requires Reaches(run, n) && w in run.states[n].queues
    ensures run.states[n].queues[w] != []
  {
    RunSettled(run, n);
    assert Ok(Queues, run.states[n], {}) && QueueOk(run.states[n], w, {});
  }

  lemma StepInTurn(world: World, s: State, e: Event)
    requires Settled(s)
    ensures !Step(world, s, e).outOfTurn
  {
    assert Ok(Flags, s, {});
    if Late(s, e) {
      HandledInv(world, s, e);
      LateAborts(world, s, e);
    } else {
      StepSettles(world, s, e);
      assert Ok(Flags, Step(world, s, e), {});
    }
  }

  /** The branch for a completed request that is not the first of its queue is never taken, not
      even by a completion inside another one, or in the step in which an assertion fails. */
  lemma {:induction false} OnlyHeadsReport(run: Run, n: nat)
    requires IsRun(run) && n < |run.states|
    ensures !run.states[n].outOfTurn
  {
    if n > 0 {
      assert Follows(run, n - 1);
      OnlyHeadsReport(run, n - 1);
      if !run.states[n - 1].aborted {
        RunSettled(run, n - 1);
        StepInTurn(run.world, run.states[n - 1], run.events[n - 1]);
      }
    }
  }

  /** A request goes to the first proxy in the manager's list that has a handler for it. */
  lemma {:induction false} FirstHandlerIsFirst(s: State, params: Params, from: nat)
    ensures
      match FirstHandler(s, params, from)
      case None => forall i :: from <= i < |s.order| && s.order[i] in s.proxies ==>
                   !HasHandlerFor(s.proxies[s.order[i]], params)
      case Some(pid) =>
        exists i :: from <= i < |s.order| && s.order[i] == pid
                    && forall j :: from <= j < i && s.order[j] in s.proxies ==>
                         !HasHandlerFor(s.proxies[s.order[j]], params)
    decreases |s.order| - from
  {
    if from < |s.order| && !(s.order[from] in s.proxies && HasHandlerFor(s.proxies[s.order[from]], params)) {
      FirstHandlerIsFirst(s, params, from + 1);
    }
  }

  // ----- the replies -----

  /** The replies to the queued requests of a window come in the order of arrival, none is
      skipped, and what is left is the queue. */
  lemma RepliesInOrder(run: Run, n: nat, w: nat)
    requires Reaches(run, n)
    ensures
      var s := run.states[n];
      && AnsweredFor(s.arrivals, s.replies, w) <= QueuedFor(s.arrivals, w)
      && QueuedFor(s.arrivals, w)[|AnsweredFor(s.arrivals, s.replies, w)|..] == Queue(s, w)
  {
    RunSettled(run, n);
    assert Ok(History, run.states[n], {});
  }

  lemma AtMostOneReply(run: Run, n: nat, i: nat, j: nat)
    requires Reaches(run, n) && i < j < |run.states[n].replies|
    ensures run.states[n].replies[i].rid != run.states[n].replies[j].rid
  {
    RunSettled(run, n);
    assert Ok(Replies, run.states[n], {});
  }

  /** Cancelling a request that waits changes nothing at all. */
  lemma CancelWaiting(run: Run, n: nat, r: Rid)
    requires Reaches(run, n) && n < |run.events| && run.events[n] == CancelRequest(r)
    requires WaitsInQueue(run.states[n], r)
    ensures run.states[n + 1] == run.states[n]
  {
    var s := run.states[n];
    RunSettled(run, n);
    assert Follows(run, n);
    assert s.requests - s.deleted == s.requests;
  }

  /** The inactivity timer has read what is true. */
  lemma IdleIsSeen(run: Run, n: nat)
    requires Reaches(run, n)
    ensures run.states[n].idleSeen <==> run.states[n].queues == map[]
  {
    RunSettled(run, n);
    assert Ok(Flags, run.states[n], {});
  }

  // ----- the two processes -----

  /** While a UI process is connected, each pending id is in exactly one place on the way
      there and back, and no id is in two; while it is not, nothing is on the way. */
  lemma Conservation(run: Run, n: nat, pid: Pid, id: nat)
    requires Reaches(run, n) && pid in run.states[n].proxies
    ensures
      var p := run.states[n].proxies[pid];
      && Places(p.wire, id) <= 1
      && (p.socket == Open && id in p.requests ==> Places(p.wire, id) == 1)
      && (p.socket != Open ==> Places(p.wire, id) == 0)
      && (p.status == Ready <==> p.socket != Closed)
      && Faithful(p, id) && Increasing(p.sent) && (Places(p.wire, id) > 0 ==> id in p.sent)
  {
    RunSettled(run, n);
    assert Ok(Proxies, run.states[n], {}) && Valid(run.states[n].proxies[pid]);
  }

  /** Nothing is on the way but what is pending. */
  ghost predicate Clean(p: UiProxy) {
    forall id :: Places(p.wire, id) > 0 ==> id in p.requests
  }

  ghost predicate AllClean(s: State) {
    forall pid :: pid in s.proxies ==> Clean(s.proxies[pid])
  }

  lemma SparedClean(s: State, t: State)
    requires AllClean(s) && Spared(s, t)
    ensures AllClean(t)
  {
  }

  lemma SetClean(s: State, pid: Pid, q: UiProxy)
    requires AllClean(s) && Clean(q)
    ensures AllClean(SetProxy(s, pid, q))
  {
  }

  lemma EnqueueClean(world: World, s: State, params: Params)
    requires Settled(s) && AllClean(s)
    ensures AllClean(Enqueue(world, s, params))
  {
    match FirstHandler(s, params, 0)
    case Some(pid) =>
      var pending := Pending(|s.arrivals|, params);
      assert Ok(Proxies, s, {}) && Clean(s.proxies[pid]);
      HandleRequestKeeps(world(pid), s.proxies[pid], pending);
      SetClean(s, pid, HandleRequest(world(pid), s.proxies[pid], pending));
      assert Enqueue(world, s, params).proxies ==
             SetProxy(s, pid, HandleRequest(world(pid), s.proxies[pid], pending)).proxies;
    case None => EnqueueQueuedClean(world, s, params);
  }

  lemma EnqueueQueuedClean(world: World, s: State, params: Params)
    requires Settled(s) && AllClean(s) && FirstHandler(s, params, 0) == None
    ensures AllClean(Enqueue(world, s, params))
  {
    var t := ArriveQueued(s, params);
    EnqueueQueuedSpares(world, s, params);
    SparedClean(s, Enqueue(world, s, params));
  }

  lemma DataReadyClean(world: World, s: State, pid: Pid)
    requires Settled(s) && AllClean(s) && Finds(s, pid)
    ensures AllClean(DataReadyStep(world, s, pid))
  {
    var p := s.proxies[pid];
    var f := p.wire.toService[0];
    assert Ok(Proxies, s, {}) && Valid(p) && Clean(p) && OneId(p);
    if f.RegisterHandler? {
      PoppedClean(p);
      SetClean(s, pid, PopReply(p));
      SetClean(SetProxy(s, pid, PopReply(p)), pid, PopReply(p).(handlers := p.handlers + [f.handlerId]));
    } else {
      var d := OnRequestCompleted(PopReply(p), p.requests[f.id].rid);
      AnsweredClean(p);
      SetClean(s, pid, d);
      ReplySpares(world, s, pid);
      SparedClean(SetProxy(s, pid, d), DataReadyStep(world, s, pid));
    }
  }

  lemma PoppedClean(p: UiProxy)
    requires Valid(p) && Clean(p) && p.wire.toService != [] && p.wire.toService[0].RegisterHandler?
    ensures Clean(PopReply(p))
  {
    PopReplyKeeps(p);
  }

  lemma AnsweredClean(p: UiProxy)
    requires Valid(p) && Clean(p) && OneId(p) && p.wire.toService != []
    requires var f := p.wire.toService[0]; !f.RegisterHandler? && f.id in p.requests
    ensures Clean(OnRequestCompleted(PopReply(p), p.requests[p.wire.toService[0].id].rid))
  {
    PopReplyKeeps(p);
    OnRequestCompletedKeeps(PopReply(p), p.wire.toService[0].id);
  }

  lemma ReplySpares(world: World, s: State, pid: Pid)
    requires Settled(s) && Finds(s, pid) && !s.proxies[pid].wire.toService[0].RegisterHandler?
    ensures
      var p := s.proxies[pid];
      var d := OnRequestCompleted(PopReply(p), p.requests[p.wire.toService[0].id].rid);
      Spared(SetProxy(s, pid, d), DataReadyStep(world, s, pid))
  {
    var p := s.proxies[pid];
    var f := p.wire.toService[0];
    var r := p.requests[f.id].rid;
    var d := SetProxy(s, pid, OnRequestCompleted(PopReply(p), r));
    PoppedAnswering(s, pid);
    assert Ok(Names, s, {});
    assert s.requests[r := s.requests[r]] == s.requests;
    if f.Finished? {
      var x := Req(s, r).(delay := f.delay);
      CompleteHeld(world, s, pid, PopReply(p), f.id, x, Result(f.data));
      UndisturbedSpares(d, Answered(world, SetRequest(SetProxy(s, pid, PopReply(p)), r, x), r, Result(f.data)));
    } else {
      CompleteHeld(world, s, pid, PopReply(p), f.id, s.requests[r], Failure(f.name, f.message));
      UndisturbedSpares(d, DataReadyStep(world, s, pid));
    }
  }

  /** No proxy that is connected holds the request: it has not been sent to anyone who listens. */
  ghost predicate Unsent(s: State, r: Rid) {
    forall pid, id :: Holds(s, pid, id, r) ==> s.proxies[pid].socket != Open
  }

  lemma DropClean(p: UiProxy, id: nat)
    requires Valid(p) && Clean(p) && id in p.requests
    ensures Clean(p.(timerActive := true, requests := p.requests - {id})) <==> p.socket != Open
  {
    var q := p.(timerActive := true, requests := p.requests - {id});
    assert q.wire == p.wire;
    if p.socket == Open {
      assert Places(q.wire, id) == 1 && id !in q.requests;
    } else {
      forall i ensures Places(q.wire, i) == 0 {}
    }
  }

  lemma OneProxyClean(s: State, t: State, pid: Pid, q: UiProxy)
    requires AllClean(s) && pid in s.proxies && OnlyProxy(s, t, pid, q)
    ensures AllClean(t) <==> Clean(q)
  {
    forall x | x in t.proxies && x != pid ensures Clean(t.proxies[x]) {}
  }

  lemma CancelHeldClean(world: World, s: State, pid: Pid, id: nat)
    requires Settled(s) && AllClean(s) && pid in s.proxies && id in s.proxies[pid].requests
    ensures
      var t := RequestSetCanceled(world, s, s.proxies[pid].requests[id].rid);
      && t.dying == s.dying
      && (AllClean(t) <==> s.proxies[pid].socket != Open)
  {
    var p := s.proxies[pid];
    var t := RequestSetCanceled(world, s, p.requests[id].rid);
    CancelHeld(world, s, pid, id);
    assert Ok(Proxies, s, {}) && Valid(p) && Clean(p);
    DropClean(p, id);
    OneProxyClean(s, t, pid, p.(timerActive := true, requests := p.requests - {id}));
  }

  /** Cancelling a request leaves something on the way if and only if the request was sent. */
  lemma CancelClean(world: World, s: State, r: Rid)
    requires Settled(s) && AllClean(s)
    ensures AllClean(Step(world, s, CancelRequest(r))) <==> Unsent(s, r)
  {
    assert Ok(Flags, s, {}) && Ok(Proxies, s, {});
    if r in s.requests && s.requests[r].inProgress {
      InProgressIsHeld(s, r);
      var pid, id :| Holds(s, pid, id, r);
      CancelHeldClean(world, s, pid, id);
      forall x, i | Holds(s, x, i, r) ensures x == pid { HeldOnce(s, x, i, pid, id, r, {}); }
    } else {
      forall pid, id { HeldInProgress(s, pid, id, r); }
    }
  }

  lemma StepClean(world: World, s: State, e: Event)
    requires Settled(s) && AllClean(s) && (e.CancelRequest? ==> Unsent(s, e.rid))
    ensures var t := Step(world, s, e); !t.aborted && AllClean(t)
  {
    CleanIsNotLate(s, e);
    StepSettles(world, s, e);
    assert Ok(Flags, Step(world, s, e), {});
    if e.CancelRequest? {
      CancelClean(world, s, e.rid);
    } else {
      OtherStepClean(world, s, e);
    }
  }

  lemma CleanIsNotLate(s: State, e: Event)
    requires Settled(s) && AllClean(s)
    ensures !Late(s, e)
  {
    if e.DataReady? && e.pid in s.proxies && s.proxies[e.pid].wire.toService != [] {
      var p := s.proxies[e.pid];
      assert Ok(Proxies, s, {}) && Valid(p) && Clean(p);
      PopReplyKeeps(p);
    }
  }

  lemma OtherStepClean(world: World, s: State, e: Event)
    requires Settled(s) && AllClean(s) && !e.CancelRequest? && !Late(s, e)
    ensures AllClean(Step(world, s, e))
  {
    assert Ok(Flags, s, {});
    HandledInv(world, s, e);
    var h := Handled(world, s, e);
    match e {
      case Call(params) => EnqueueClean(world, s, params);
      case DataReady(pid) =>
        if pid in s.proxies && s.proxies[pid].wire.toService != [] { DataReadyClean(world, s, pid); }
      case _ => ProxyEventClean(world, s, e);
    }
    FlushSettles(world, h);
    SparedClean(h, Flush(world, h));
  }

  lemma ProxyEventClean(world: World, s: State, e: Event)
    requires Settled(s) && AllClean(s) && !e.Call? && !e.CancelRequest? && !e.DataReady?
    ensures AllClean(Handled(world, s, e))
  {
    if e.pid in s.proxies {
      var p := s.proxies[e.pid];
      assert Ok(Proxies, s, {}) && Valid(p) && Clean(p);
      match e {
        case Connect(pid) =>
          if p.listening && p.socket == Closed { ConnectedPlaces(p); ConnectionKeeps(p); }
          SetClean(s, pid, OnNewConnection(p));
        case Ui(pid, op) =>
          UiDoSteps(p, op);
          SetClean(s, pid, p.(wire := UiDo(p.wire, op)));
        case Disconnected(pid) => SetClean(s, pid, Disconnect(p));
        case Timeout(pid) => SetClean(s, pid, p.(timerActive := false));
        case PromptSessionFinished(pid) =>
      }
    }
  }

  /** In a run in which clients cancel no request that has been sent to a UI process which is
      still there, every reply finds its request. */
  lemma {:induction false} RepliesFindTheirRequests(run: Run, n: nat)
    requires IsRun(run) && n < |run.states|
    requires forall i :: 0 <= i < n && run.events[i].CancelRequest? ==> Unsent(run.states[i], run.events[i].rid)
    ensures !run.states[n].aborted && AllClean(run.states[n])
  {
    if n > 0 {
      RepliesFindTheirRequests(run, n - 1);
      RunSettled(run, n - 1);
      assert Follows(run, n - 1);
      StepClean(run.world, run.states[n - 1], run.events[n - 1]);
    }
  }

  // ----- a reply that comes too late -----

  const ASKED := Params(1, None, "")

  function Served(socket: Socket, wire: Wire): UiProxy {
    UiProxy(if socket == Open then Ready else Loading, socket == Closed, socket, 1,
            map[0 := Pending(0, ASKED)], [], false,
            wire, [0], if socket == Open then [0] else [])
  }

  /** The only request leads its queue, and proxy 0, in state `p`, holds it. */
  function Serving(p: UiProxy): State {
    State([Arrival(ASKED, false)], map[0 := Request(true, 0, [ToManager, ToProxy(0)])], {}, map[1 := [0]],
          map[0 := p], [0], 1, [], [], false, false, false)
  }

  /** It has been cancelled. */
  function Abandoned(p: UiProxy): State {
    State([Arrival(ASKED, false)], map[], {}, map[], map[0 := p.(requests := map[], timerActive := true)], [0], 1, [],
          [Reply(0, CANCELED)], true, false, false)
  }

  const SENT := Wire([Process(0, ASKED)], map[], [])

  const SHOWN := Wire([], map[0 := UiRequest(ASKED, true, true, "", "", "", 0)], [])

  const ANSWERED := Wire([], map[0 := UiRequest(ASKED, false, false, "", "", "x", 0)], [Finished(0, "x", 0, ASKED)])

  lemma Untouched(world: World, s: State)
    requires s.dying == [] && s.deleted == {}
    ensures Flush(world, s) == s
  {
    assert s.requests - s.deleted == s.requests;
  }

  /** `next` is `run` with one more event `e`, which leads to `t`. */
  ghost predicate Goes(run: Run, next: Run, e: Event, t: State) {
    && IsRun(next) && next.world == run.world && next.events == run.events + [e]
    && next.states == run.states + [t]
  }

  ghost predicate EndsIn(run: Run, s: State) {
    IsRun(run) && run.states[|run.events|] == s
  }

  lemma Continue(run: Run, s: State, e: Event) returns (next: Run)
    requires EndsIn(run, s)
    ensures Goes(run, next, e, Step(run.world, s, e))
  {
    var n := |run.events|;
    next := Run(run.world, run.events + [e], run.states + [Step(run.world, s, e)]);
    forall i | 0 <= i <= n ensures Follows(next, i) {
      if i < n { assert Follows(run, i); }
    }
  }

  lemma WitnessCall(run: Run) returns (next: Run)
    requires EndsIn(run, START) && run.world(0) == Starts
    ensures Goes(run, next, Call(ASKED), Serving(Served(Closed, NO_WIRE)))
  {
    next := Continue(run, START, Call(ASKED));
    var t := ArriveQueued(START, ASKED);
    assert |START.order| == 0 && [] + [Arrival(ASKED, false)] == [Arrival(ASKED, false)] && [] + [0] == [0];
    assert t == State([Arrival(ASKED, false)], map[0 := Request(false, 0, [])], {}, map[1 := [0]], map[], [], 0, [], [],
                      false, false, false);
    assert [] + [ToManager] == [ToManager] && [ToManager] + [ToProxy(0)] == [ToManager, ToProxy(0)];
    RunQueueStarts(run.world, t, 1);
    assert Enqueue(run.world, START, ASKED) == Serving(Served(Closed, NO_WIRE));
    Untouched(run.world, Serving(Served(Closed, NO_WIRE)));
  }

  lemma WitnessConnect(run: Run) returns (next: Run)
    requires EndsIn(run, Serving(Served(Closed, NO_WIRE)))
    ensures Goes(run, next, Connect(0), Serving(Served(Open, SENT)))
  {
    next := Continue(run, Serving(Served(Closed, NO_WIRE)), Connect(0));
    var p := Served(Closed, NO_WIRE).(socket := Open, listening := false, status := Ready);
    assert SendPending(p, 0) == SendPending(SendRequest(p, 0, ASKED), 1);
    assert OnNewConnection(Served(Closed, NO_WIRE)) == Served(Open, SENT);
    assert map[0 := Served(Closed, NO_WIRE)][0 := Served(Open, SENT)] == map[0 := Served(Open, SENT)];
    assert Handled(run.world, Serving(Served(Closed, NO_WIRE)), Connect(0)) == Serving(Served(Open, SENT));
    Untouched(run.world, Serving(Served(Open, SENT)));
  }

  lemma WitnessShow(run: Run) returns (next: Run)
    requires EndsIn(run, Serving(Served(Open, SENT)))
    ensures Goes(run, next, Ui(0, Receive), Serving(Served(Open, SHOWN)))
  {
    next := Continue(run, Serving(Served(Open, SENT)), Ui(0, Receive));
    assert UiReceive(SENT) == SHOWN;
    assert map[0 := Served(Open, SENT)][0 := Served(Open, SHOWN)] == map[0 := Served(Open, SHOWN)];
    assert Handled(run.world, Serving(Served(Open, SENT)), Ui(0, Receive)) == Serving(Served(Open, SHOWN));
    Untouched(run.world, Serving(Served(Open, SHOWN)));
  }

  lemma WitnessAnswer(run: Run) returns (next: Run)
    requires EndsIn(run, Serving(Served(Open, SHOWN)))
    ensures Goes(run, next, Ui(0, SetResult(0, "x")), Serving(Served(Open, ANSWERED)))
  {
    next := Continue(run, Serving(Served(Open, SHOWN)), Ui(0, SetResult(0, "x")));
    assert UiSetResult(SHOWN, 0, "x") == ANSWERED;
    assert map[0 := Served(Open, SHOWN)][0 := Served(Open, ANSWERED)] == map[0 := Served(Open, ANSWERED)];
    assert Handled(run.world, Serving(Served(Open, SHOWN)), Ui(0, SetResult(0, "x"))) ==
           Serving(Served(Open, ANSWERED));
    Untouched(run.world, Serving(Served(Open, ANSWERED)));
  }

  lemma WitnessCancel(run: Run) returns (next: Run)
    requires EndsIn(run, Serving(Served(Open, ANSWERED)))
    ensures Goes(run, next, CancelRequest(0), Abandoned(Served(Open, ANSWERED)))
  {
    var p := Served(Open, ANSWERED);
    var s := Serving(p);
    next := Continue(run, s, CancelRequest(0));
    EmitQueued(run.world, s, 0, CANCELED, 0);
    assert KeyOf(p.requests, 0, 0, 1) == 0 && p.requests - {0} == map[];
    assert s.proxies[0 := OnRequestCompleted(p, 0)] == Abandoned(p).proxies;
    assert s.queues - {1} == map[];
    assert Step(run.world, s, CancelRequest(0)) == Abandoned(p);
  }

  lemma WitnessLate(run: Run) returns (next: Run)
    requires EndsIn(run, Abandoned(Served(Open, ANSWERED)))
    ensures exists t :: Goes(run, next, DataReady(0), t) && t.aborted
  {
    var s := Abandoned(Served(Open, ANSWERED));
    next := Continue(run, s, DataReady(0));
    Untouched(run.world, DataReadyStep(run.world, s, 0));
  }

  /** The assertion of onDataReady does fail: a client cancels its request while the result is on
      its way back. */
  lemma LateReplyHappens() returns (run: Run)
    ensures IsRun(run) && forall pid :: run.world(pid) == Starts
    ensures run.events == [Call(ASKED), Connect(0), Ui(0, Receive), Ui(0, SetResult(0, "x")),
                           CancelRequest(0), DataReady(0)]
    ensures !run.states[5].aborted && run.states[6].aborted
  {
    run := Run((pid: Pid) => Starts, [], [START]);
    run := WitnessCall(run);
    run := WitnessConnect(run);
    run := WitnessShow(run);
    run := WitnessAnswer(run);
    run := WitnessCancel(run);
    run := WitnessLate(run);
  }

  // ----- one reply for each id -----

  /** Request `id` of proxy `pid` has been answered over there: what is still on its way, if
      anything, is one of `answers`. */
  ghost predicate UsedUp(s: State, pid: Pid, id: nat, answers: seq<ToService>) {
    && pid < s.nextPid
    && (pid in s.proxies ==> id in s.proxies[pid].sent && AtEnd(s.proxies[pid].wire, id, answers))
  }

  lemma SparedUsedUp(s: State, t: State, pid: Pid, id: nat, answers: seq<ToService>)
    requires Spared(s, t) && UsedUp(s, pid, id, answers)
    ensures UsedUp(t, pid, id, answers)
  {
  }

  lemma SetUsedUp(s: State, x: Pid, q: UiProxy, pid: Pid, id: nat, answers: seq<ToService>)
    requires UsedUp(s, pid, id, answers) && x in s.proxies && NoReturn(s.proxies[x], q)
    ensures UsedUp(SetProxy(s, x, q), pid, id, answers)
  {
  }

  lemma EnqueueUsedUp(world: World, s: State, params: Params, pid: Pid, id: nat, answers: seq<ToService>)
    requires Settled(s) && UsedUp(s, pid, id, answers)
    ensures UsedUp(Enqueue(world, s, params), pid, id, answers)
  {
    match FirstHandler(s, params, 0)
    case Some(x) =>
      assert Ok(Proxies, s, {});
      var q := HandleRequest(world(x), s.proxies[x], Pending(|s.arrivals|, params));
      HandleRequestNoReturn(world(x), s.proxies[x], Pending(|s.arrivals|, params));
      SetUsedUp(s, x, q, pid, id, answers);
      assert Enqueue(world, s, params).proxies == SetProxy(s, x, q).proxies;
    case None =>
      EnqueueQueuedSpares(world, s, params);
      SparedUsedUp(s, Enqueue(world, s, params), pid, id, answers);
  }

  lemma CancelUsedUp(world: World, s: State, r: Rid, pid: Pid, id: nat, answers: seq<ToService>)
    requires Settled(s) && UsedUp(s, pid, id, answers) && r in s.requests
    ensures UsedUp(RequestSetCanceled(world, s, r), pid, id, answers)
  {
    if s.requests[r].inProgress {
      InProgressIsHeld(s, r);
      var x, i :| Holds(s, x, i, r);
      CancelHeld(world, s, x, i);
    }
  }

  lemma DataReadyUsedUp(world: World, s: State, x: Pid, pid: Pid, id: nat, answers: seq<ToService>)
    requires Settled(s) && Finds(s, x) && UsedUp(s, pid, id, answers)
    ensures UsedUp(DataReadyStep(world, s, x), pid, id, answers)
  {
    var p := s.proxies[x];
    var f := p.wire.toService[0];
    assert Ok(Proxies, s, {});
    PopReplyNoReturn(p);
    if f.RegisterHandler? {
      SetUsedUp(s, x, PopReply(p).(handlers := p.handlers + [f.handlerId]), pid, id, answers);
    } else {
      var d := OnRequestCompleted(PopReply(p), p.requests[f.id].rid);
      SetUsedUp(s, x, d, pid, id, answers);
      ReplySpares(world, s, x);
      SparedUsedUp(SetProxy(s, x, d), DataReadyStep(world, s, x), pid, id, answers);
    }
  }

  lemma ProxyEventUsedUp(world: World, s: State, e: Event, pid: Pid, id: nat, answers: seq<ToService>)
    requires Settled(s) && UsedUp(s, pid, id, answers) && !e.Call? && !e.CancelRequest? && !e.DataReady?
    ensures UsedUp(Handled(world, s, e), pid, id, answers)
  {
    if e.pid in s.proxies {
      var p := s.proxies[e.pid];
      assert Ok(Proxies, s, {}) && Valid(p);
      match e {
        case Connect(x) =>
          ConnectionNoReturn(p);
          SetUsedUp(s, x, OnNewConnection(p), pid, id, answers);
        case Ui(x, op) =>
          UiDoSteps(p, op);
          UiStepNoReturn(p, UiDo(p.wire, op));
          SetUsedUp(s, x, p.(wire := UiDo(p.wire, op)), pid, id, answers);
        case Disconnected(x) => SetUsedUp(s, x, Disconnect(p), pid, id, answers);
        case Timeout(x) => SetUsedUp(s, x, p.(timerActive := false), pid, id, answers);
        case PromptSessionFinished(x) =>
      }
    }
  }

  lemma StepUsedUp(world: World, s: State, e: Event, pid: Pid, id: nat, answers: seq<ToService>)
    requires Settled(s) && UsedUp(s, pid, id, answers) && !Step(world, s, e).aborted
    ensures UsedUp(Step(world, s, e), pid, id, answers)
  {
    if Late(s, e) { LateAborts(world, s, e); }
    assert Ok(Flags, s, {});
    HandledInv(world, s, e);
    var h := Handled(world, s, e);
    match e {
      case Call(params) => EnqueueUsedUp(world, s, params, pid, id, answers);
      case CancelRequest(r) => if r in s.requests { CancelUsedUp(world, s, r, pid, id, answers); }
      case DataReady(x) =>
        if x in s.proxies && s.proxies[x].wire.toService != [] { DataReadyUsedUp(world, s, x, pid, id, answers); }
      case _ => ProxyEventUsedUp(world, s, e, pid, id, answers);
    }
    FlushSettles(world, h);
    SparedUsedUp(h, Flush(world, h), pid, id, answers);
  }

  lemma {:induction false} NeverAgain(run: Run, m: nat, n: nat, pid: Pid, id: nat, answers: seq<ToService>)
    requires Reaches(run, n) && m <= n && UsedUp(run.states[m], pid, id, answers)
    ensures UsedUp(run.states[n], pid, id, answers)
    decreases n
  {
    if m < n {
      ReachesBefore(run, n - 1, n);
      NeverAgain(run, m, n - 1, pid, id, answers);
      RunSettled(run, n - 1);
      assert Follows(run, n - 1);
      StepUsedUp(run.world, run.states[n - 1], run.events[n - 1], pid, id, answers);
    }
  }

  /** Event `k` brings a reply to request `id` of proxy `pid`. */
  ghost predicate BringsReply(run: Run, k: nat, pid: Pid, id: nat) {
    && k < |run.events| && k < |run.states| && run.events[k] == DataReady(pid)
    && var s := run.states[k];
    pid in s.proxies && s.proxies[pid].wire.toService != [] && Answers(s.proxies[pid].wire.toService[0], id)
  }

  lemma PoppedUsedUp(s: State, pid: Pid, id: nat)
    requires Settled(s) && Finds(s, pid) && Answers(s.proxies[pid].wire.toService[0], id)
    ensures
      var p := s.proxies[pid];
      UsedUp(SetProxy(s, pid, OnRequestCompleted(PopReply(p), p.requests[id].rid)), pid, id, [])
  {
    assert Ok(Proxies, s, {}) && Ok(Names, s, {});
    PopReplyNoReturn(s.proxies[pid]);
  }

  lemma ReplyStepUsesUp(world: World, s: State, pid: Pid, id: nat)
    requires Settled(s) && Finds(s, pid) && Answers(s.proxies[pid].wire.toService[0], id)
    ensures UsedUp(Step(world, s, DataReady(pid)), pid, id, [])
  {
    var p := s.proxies[pid];
    var h := DataReadyStep(world, s, pid);
    assert Ok(Flags, s, {});
    PoppedUsedUp(s, pid, id);
    ReplySpares(world, s, pid);
    SparedUsedUp(SetProxy(s, pid, OnRequestCompleted(PopReply(p), p.requests[id].rid)), h, pid, id, []);
    HandledInv(world, s, DataReady(pid));
    FlushSettles(world, h);
    SparedUsedUp(h, Flush(world, h), pid, id, []);
  }

  /** The UI process answers each request at most once: no two events of a run bring a reply to
      the same request of the same proxy. */
  lemma OneReplyForEachId(run: Run, k: nat, m: nat, pid: Pid, id: nat)
    requires Reaches(run, m) && k < m && BringsReply(run, k, pid, id)
    ensures !BringsReply(run, m, pid, id)
  {
    var s := run.states[k];
    ReachesBefore(run, k, m);
    ReachesBefore(run, k + 1, m);
    RunSettled(run, k);
    assert Follows(run, k);
    if Late(s, run.events[k]) { LateAborts(run.world, s, run.events[k]); }
    ReplyStepUsesUp(run.world, s, pid, id);
    NeverAgain(run, k + 1, m, pid, id, []);
    assert UsedUp(run.states[m], pid, id, []);
  }

  // ----- failing proxies -----

  /** How many of the next `n` proxies fail to initialise before one does not. */
  function Failures(world: World, pid: Pid, n: nat): (k: nat)
    ensures k <= n
    ensures forall i :: pid <= i < pid + k ==> world(i).InitFails?
    ensures k < n ==> !world(pid + k).InitFails?
    decreases n
  {
    if n == 0 || !world(pid).InitFails? then 0 else 1 + Failures(world, pid + 1, n - 1)
  }

  function PromptFailures(rids: seq<Rid>): seq<Reply> {
    if rids == [] then [] else [Reply(rids[0], NO_PROMPT)] + PromptFailures(rids[1..])
  }

  /** `t` is `s` after the first `k` requests of `q`, the queue of window `w`, were answered with
      one error each and the next one, if there is one, was handed to a proxy of its own. */
  ghost predicate FailedThenStarted(s: State, t: State, w: nat, q: seq<Rid>, k: nat) {
    && k <= |q|
    && t.replies == s.replies + PromptFailures(q[..k])
    && t.queues == (if k == |q| then s.queues - {w} else s.queues[w := q[k..]])
    && t.nextPid == s.nextPid + (if k == |q| then k else k + 1)
    && (k == |q| ==> t.proxies == s.proxies && t.order == s.order)
    && (k < |q| ==>
          var pid := s.nextPid + k;
          && t.order == s.order + [pid]
          && Holds(t, pid, 0, q[k]) && Led(t, q[k])
          && t.proxies == s.proxies[pid := t.proxies[pid]])
  }

  /** The state in which the rest of the queue is run. */
  lemma FirstFails(world: World, s: State, w: nat) returns (u: State)
    requires |Queue(s, w)| > 1 && Increasing(Queue(s, w)) && world(s.nextPid).InitFails?
    requires forall i :: 0 <= i < |Queue(s, w)| ==> Waiting(s, Queue(s, w)[i])
    ensures
      var q := Queue(s, w);
      && Queue(u, w) == q[1..] && Increasing(q[1..]) && (forall i :: 0 <= i < |q| - 1 ==> Waiting(u, q[1..][i]))
      && u.replies == s.replies + [Reply(q[0], NO_PROMPT)] && u.nextPid == s.nextPid + 1
      && u.queues == s.queues[w := q[1..]] && u.proxies == s.proxies && u.order == s.order
      && RunQueue(world, s, w) == NotifyIfIdle(RunQueue(world, u, w))
  {
    var q := Queue(s, w);
    RunQueueFails(world, s, w);
    u := Dequeue(InitFailed(ConnectTo(s, q[0], ToManager), q[0]), w);
    StillWaiting(s, u, q);
  }

  lemma {:induction false} FailThenStart(world: World, s: State, t: State, w: nat, q: seq<Rid>, k: nat)
    requires q == Queue(s, w) != [] && Increasing(q) && forall i :: 0 <= i < |q| ==> Waiting(s, q[i])
    requires t == RunQueue(world, s, w) && k == Failures(world, s.nextPid, |q|)
    ensures FailedThenStarted(s, t, w, q, k)
    decreases |q|
  {
    if !world(s.nextPid).InitFails? {
      StartsAtOnce(world, s, w);
    } else if |q| == 1 {
      LastOneFails(world, s, w);
    } else {
      var u := FirstFails(world, s, w);
      var v := RunQueue(world, u, w);
      FailThenStart(world, u, v, w, q[1..], k - 1);
      OneMoreFailure(s, u, v, w, q, k - 1);
    }
  }

  /** The recursion runQueue, fail, onRequestCompleted, runQueue answers exactly the requests
      whose proxies fail, in order, with one error each; the first that does not fail is handed
      to its proxy, and the rest of the queue and all other queues stay as they are. */
  lemma RunQueueEffect(world: World, s: State, w: nat)
    requires Queue(s, w) != [] && Increasing(Queue(s, w))
    requires forall i :: 0 <= i < |Queue(s, w)| ==> Waiting(s, Queue(s, w)[i])
    ensures FailedThenStarted(s, RunQueue(world, s, w), w, Queue(s, w), Failures(world, s.nextPid, |Queue(s, w)|))
  {
    FailThenStart(world, s, RunQueue(world, s, w), w, Queue(s, w), Failures(world, s.nextPid, |Queue(s, w)|));
  }

  lemma StillWaiting(s: State, u: State, q: seq<Rid>)
    requires q != [] && Increasing(q) && u.requests == ConnectTo(s, q[0], ToManager).requests
    requires forall i :: 0 <= i < |q| ==> Waiting(s, q[i])
    ensures Increasing(q[1..]) && forall i :: 0 <= i < |q| - 1 ==> Waiting(u, q[1..][i])
  {
    forall i | 0 <= i < |q| - 1 ensures Waiting(u, q[1..][i]) {
      assert q[0] < q[i + 1] && Waiting(s, q[i + 1]);
    }
  }

  lemma StartsAtOnce(world: World, s: State, w: nat)
    requires Queue(s, w) != [] && Waiting(s, Queue(s, w)[0]) && !world(s.nextPid).InitFails?
    ensures FailedThenStarted(s, RunQueue(world, s, w), w, Queue(s, w), 0)
  {
    var q := Queue(s, w);
    RunQueueStarts(world, s, w);
    LaunchEffect(world, ConnectTo(s, q[0], ToManager), q[0]);
    assert q[..0] == [] && s.replies + [] == s.replies && q[0..] == q && s.queues[w := q] == s.queues;
  }

  lemma LastOneFails(world: World, s: State, w: nat)
    requires |Queue(s, w)| == 1 && Waiting(s, Queue(s, w)[0]) && world(s.nextPid).InitFails?
    ensures FailedThenStarted(s, RunQueue(world, s, w), w, Queue(s, w), 1)
  {
    var q := Queue(s, w);
    RunQueueFails(world, s, w);
    assert q[..1] == q && PromptFailures(q) == [Reply(q[0], NO_PROMPT)] + PromptFailures([]);
  }

  lemma LedIfNotified(t: State, r: Rid)
    requires Led(t, r)
    ensures Led(NotifyIfIdle(t), r)
  {
    var x, id :| t.requests[r].slots == [ToManager, ToProxy(x)] && Holds(t, x, id, r);
    assert Holds(NotifyIfIdle(t), x, id, r);
  }

  lemma OneMoreFailure(s: State, u: State, t: State, w: nat, q: seq<Rid>, k: nat)
    requires |q| > 1 && FailedThenStarted(u, t, w, q[1..], k)
    requires u.replies == s.replies + [Reply(q[0], NO_PROMPT)] && u.nextPid == s.nextPid + 1
    requires u.queues == s.queues[w := q[1..]] && u.proxies == s.proxies && u.order == s.order
    ensures FailedThenStarted(s, NotifyIfIdle(t), w, q, k + 1)
  {
    RepliesShift(q, k);
    assert s.replies + [Reply(q[0], NO_PROMPT)] + PromptFailures(q[1..][..k]) == s.replies + PromptFailures(q[..k + 1]);
    assert q[1..][k..] == q[k + 1..];
    if k < |q| - 1 {
      assert q[1..][k] == q[k + 1];
      LedIfNotified(t, q[k + 1]);
    } else {
      assert s.queues[w := q[1..]] - {w} == s.queues - {w};
    }
  }

  lemma RepliesShift(q: seq<Rid>, k: nat)
    requires k < |q|
    ensures PromptFailures(q[..k + 1]) == [Reply(q[0], NO_PROMPT)] + PromptFailures(q[1..][..k])
  {
    assert q[..k + 1][1..] == q[1..][..k];
  }

  lemma LaunchEffect(world: World, s: State, r: Rid)
    requires r in s.requests && s.requests[r].slots == [ToManager]
    ensures
      var pid, t := s.nextPid, Handle(world, AddProxy(s), s.nextPid, r);
      && t == s.(order := s.order + [pid], nextPid := pid + 1, proxies := s.proxies[pid := t.proxies[pid]],
                 requests := t.requests)
      && Holds(t, pid, 0, r) && Led(t, r)
  {
    var pid, t := s.nextPid, Handle(world, AddProxy(s), s.nextPid, r);
    assert t.requests[r].slots == [ToManager, ToProxy(pid)];
    assert Holds(t, pid, 0, r);
  }

  // ----- dying proxies -----

  /** The requests that were answered with a cancellation. */
  function CanceledOnes(replies: seq<Reply>): seq<Rid> {
    if replies == [] then []
    else
      var n := |replies| - 1;
      CanceledOnes(replies[..n]) + if replies[n].answer == CANCELED then [replies[n].rid] else []
  }

  lemma CanceledSnoc(replies: seq<Reply>, x: Reply)
    ensures CanceledOnes(replies + [x]) == CanceledOnes(replies) + if x.answer == CANCELED then [x.rid] else []
  {
    assert (replies + [x])[..|replies|] == replies;
  }

  lemma {:induction false} RunQueueCancelsNone(world: World, s: State, w: nat)
    ensures CanceledOnes(RunQueue(world, s, w).replies) == CanceledOnes(s.replies)
    decreases |Queue(s, w)|, 1
  {
    if Queue(s, w) != [] && !Req(s, s.queues[w][0]).inProgress {
      var r := s.queues[w][0];
      if world(s.nextPid).InitFails? {
        RunQueueFails(world, s, w);
        CanceledSnoc(s.replies, Reply(r, NO_PROMPT));
        HeadCompletedCancelsNone(world, InitFailed(ConnectTo(s, r, ToManager), r), w);
      } else {
        RunQueueStarts(world, s, w);
      }
    }
  }

  lemma {:induction false} HeadCompletedCancelsNone(world: World, s: State, w: nat)
    requires Queue(s, w) != []
    ensures CanceledOnes(HeadCompleted(world, s, w).replies) == CanceledOnes(s.replies)
    decreases |Queue(s, w)|, 0
  {
    var t := Dequeue(s, w);
    if w in t.queues { RunQueueCancelsNone(world, t, w); }
  }

  lemma SlotCancelsNone(world: World, s: State, r: Rid, slot: Slot)
    ensures CanceledOnes(EmitTo(world, s, r, slot).replies) == CanceledOnes(s.replies)
  {
    var w := Window(s, r);
    if slot.ToManager? && Queue(s, w) != [] && s.queues[w][0] == r { HeadCompletedCancelsNone(world, s, w); }
  }

  lemma {:induction false} EmitCancelsNone(world: World, s: State, r: Rid, slots: seq<Slot>)
    ensures CanceledOnes(Emit(world, s, r, slots).replies) == CanceledOnes(s.replies)
    decreases |slots|
  {
    if slots != [] {
      SlotCancelsNone(world, s, r, slots[0]);
      EmitCancelsNone(world, EmitTo(world, s, r, slots[0]), r, slots[1..]);
    }
  }

  lemma CancelCancelsOne(world: World, s: State, r: Rid)
    requires Req(s, r).inProgress
    ensures CanceledOnes(RequestSetCanceled(world, s, r).replies) == CanceledOnes(s.replies) + [r]
  {
    CanceledSnoc(s.replies, Reply(r, CANCELED));
    EmitCancelsNone(world, s.(replies := s.replies + [Reply(r, CANCELED)]), r, Req(s, r).slots);
  }

  lemma Chain(before: seq<Rid>, r: Rid, rest: seq<Rid>, mid: seq<Rid>, after: seq<Rid>)
    requires mid == before + [r] && after == mid + rest
    ensures after == before + ([r] + rest)
  {
  }

  lemma FirstIsCanceled(world: World, s: State, pid: Pid, id: nat)
    requires Inv(s, {}) && pid in s.proxies && id in s.proxies[pid].requests
    ensures
      var r := s.proxies[pid].requests[id].rid;
      CanceledOnes(RequestSetCanceled(world, s, r).replies) == CanceledOnes(s.replies) + [r]
  {
    HeldAnswering(s, pid, id);
    CancelCancelsOne(world, s, s.proxies[pid].requests[id].rid);
  }

  /** A dying proxy that has still to cancel its requests from number `from` on. */
  ghost predicate CancelsFrom(world: World, s: State, pid: Pid, from: nat, rids: seq<Rid>, t: State) {
    && Inv(s, {}) && pid in s.proxies && (forall i: nat :: i in s.proxies[pid].requests ==> from <= i)
    && rids == PendingList(s.proxies[pid], from) && t == CancelAll(world, s, rids)
  }

  /** The first of the requests that it cancels leaves the rest to `u`. */
  lemma FirstOfAll(world: World, s: State, pid: Pid, from: nat, rids: seq<Rid>, t: State, r: Rid)
    returns (u: State, rest: seq<Rid>)
    requires CancelsFrom(world, s, pid, from, rids, t) && Holds(s, pid, from, r) && from < s.proxies[pid].nextRequestId
    ensures CancelsFrom(world, u, pid, from + 1, rest, t) && rids == [r] + rest
    ensures u.proxies[pid].nextRequestId == s.proxies[pid].nextRequestId
    ensures CanceledOnes(u.replies) == CanceledOnes(s.replies) + [r]
  {
    u, rest := AfterFirst(world, s, pid, from, rids, t);
    FirstIsCanceled(world, s, pid, from);
  }

  lemma NoneAt(world: World, s: State, pid: Pid, from: nat, rids: seq<Rid>, t: State)
    requires CancelsFrom(world, s, pid, from, rids, t)
    requires from < s.proxies[pid].nextRequestId && from !in s.proxies[pid].requests
    ensures CancelsFrom(world, s, pid, from + 1, rids, t)
  {
    PendingSkip(s.proxies[pid], from);
  }

  lemma {:induction false} CancelAllCancelsEach(world: World, s: State, pid: Pid, from: nat, rids: seq<Rid>, t: State)
    requires CancelsFrom(world, s, pid, from, rids, t)
    ensures CanceledOnes(t.replies) == CanceledOnes(s.replies) + rids
    decreases s.proxies[pid].nextRequestId - from
  {
    var p := s.proxies[pid];
    if from >= p.nextRequestId {
      assert t == s && rids == [];
    } else if from in p.requests {
      var r := p.requests[from].rid;
      var u, rest := FirstOfAll(world, s, pid, from, rids, t, r);
      CancelAllCancelsEach(world, u, pid, from + 1, rest, t);
      Chain(CanceledOnes(s.replies), r, rest, CanceledOnes(u.replies), CanceledOnes(t.replies));
    } else {
      NoneAt(world, s, pid, from, rids, t);
      CancelAllCancelsEach(world, s, pid, from + 1, rids, t);
    }
  }

  /** The destructor cancels each pending request once, in the order of the ids, and no other. */
  lemma DestructorCancelsEach(world: World, s: State, pid: Pid)
    requires Inv(s, {}) && pid in s.dying && pid in s.proxies
    ensures
      var t := Destroy(world, s, pid);
      && Inv(t, {}) && pid !in t.proxies
      && CanceledOnes(t.replies) == CanceledOnes(s.replies) + PendingList(s.proxies[pid], 0)
      && (forall id :: id in s.proxies[pid].requests ==> WasCanceled(t, s.proxies[pid].requests[id].rid))
  {
    assert Ok(Order, s, {}) && Ok(Proxies, s, {});
    DestroyInv(world, s, pid);
    var rids := PendingList(s.proxies[pid], 0);
    var all := CancelAll(world, s, rids);
    CancelAllCancelsEach(world, s, pid, 0, rids, all);
    var p, t := s.proxies[pid], Destroy(world, s, pid);
    assert Valid(p);
    forall id | id in p.requests ensures WasCanceled(t, p.requests[id].rid) {
      InPendingList(p, 0, id);
      assert p.requests[id].rid in CanceledOnes(s.replies) + PendingList(p, 0);
      CanceledWas(t.replies, p.requests[id].rid);
    }
  }

  lemma {:induction false} InPendingList(p: UiProxy, from: nat, id: nat)
    requires from <= id < p.nextRequestId && id in p.requests
    ensures p.requests[id].rid in PendingList(p, from)
    decreases p.nextRequestId - from
  {
    if from < id { InPendingList(p, from + 1, id); }
  }

  lemma {:induction false} CanceledWas(replies: seq<Reply>, r: Rid)
    requires r in CanceledOnes(replies)
    ensures Reply(r, CANCELED) in replies
  {
    var n := |replies| - 1;
    if r in CanceledOnes(replies[..n]) {
      CanceledWas(replies[..n], r);
      assert replies[..n] <= replies;
    }
  }

  /** A proxy with pending requests outlives its delay timer, and nobody is answered. */
  lemma TimerSparesPending(world: World, s: State, pid: Pid)
    requires Settled(s) && pid in s.proxies && s.proxies[pid].requests != map[]
    ensures Step(world, s, Timeout(pid)) == SetProxy(s, pid, s.proxies[pid].(timerActive := false))
  {
    assert Ok(Flags, s, {});
    assert s.requests - s.deleted == s.requests;
    assert s.proxies[pid := s.proxies[pid]] == s.proxies;
  }
}
