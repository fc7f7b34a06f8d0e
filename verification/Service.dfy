/** The daemon as an object: its members are the members of the manager and the tables of the
    objects it owns, its methods the slots of the C++ classes, calling each other in the order
    in which signals are delivered. Each is proved to do what the function of the same name in
    `Daemon` says.

    The methods that run a queue, complete its head, emit `completed` and fail a request call
    each other; what becomes smaller is the queue of the request's window. They ask for no more
    than that this queue is in order and that nothing behind its head has been started (`Tidy`),
    which holds also while a step is under way.

    The methods for whole events ask for the invariant, and so does the destructor of a proxy,
    whose loop answers requests while it visits them. */
module Service {
  import opened Proxy
  import D = Daemon
  import opened Invariant
  import Steps

  type Pid = D.Pid

  /** The queue of window `w` is in order, and all behind its head has yet to be started. */
  ghost predicate Tidy(s: D.State, w: nat) {
    var q := D.Queue(s, w);
    && Increasing(q)
    && (forall i :: 0 <= i < |q| ==> q[i] in s.requests && q[i] < |s.arrivals| && D.Window(s, q[i]) == w)
    && (forall i :: 0 < i < |q| ==> Waiting(s, q[i]))
  }

  lemma InvTidy(s: D.State, w: nat)
    requires Inv(s, {})
    ensures Tidy(s, w)
  {
    assert Ok(Queues, s, {});
    if w in s.queues {
      assert QueueOk(s, w, {});
      var q := s.queues[w];
      forall i | 0 <= i < |q| ensures q[i] in s.requests && D.Window(s, q[i]) == w { assert InQueueOf(s, w, q[i]); }
    }
  }

  lemma DequeueTidy(s: D.State, w: nat)
    requires Tidy(s, w) && D.Queue(s, w) != []
    ensures Tidy(D.Dequeue(s, w), w)
    ensures var q := D.Queue(D.Dequeue(s, w), w); q != [] ==> Waiting(D.Dequeue(s, w), q[0])
  {
    var t, q := D.Dequeue(s, w), D.Queue(s, w);
    assert D.Queue(t, w) == q[1..];
    forall i | 0 <= i < |q| - 1 ensures q[1..][i] == q[i + 1] && D.Window(t, q[i + 1]) == w && Waiting(t, q[i + 1]) {
      assert D.Window(s, q[i + 1]) == w;
    }
  }

  class RequestDaemon {
    const world: D.World
    var arrivals: seq<D.Arrival>
    var requests: map<Rid, D.Request>
    var deleted: set<Rid>
    var queues: map<nat, seq<Rid>>
    var proxies: map<Pid, UiProxy>
    var order: seq<Pid>
    var nextPid: nat
    var dying: seq<Pid>
    var replies: seq<D.Reply>
    var idleSeen: bool
    var aborted: bool
    var outOfTurn: bool

    function State(): D.State
      reads this
    {
      D.State(arrivals, requests, deleted, queues, proxies, order, nextPid, dying, replies, idleSeen, aborted,
              outOfTurn)
    }

    constructor (world: D.World)
      ensures State() == D.START && this.world == world
    {
      this.world := world;
      arrivals, requests, deleted, queues, proxies, order := [], map[], {}, map[], map[], [];
      nextPid, dying, replies, idleSeen, aborted, outOfTurn := 0, [], [], true, false, false;
    }

    // ----- RequestManagerPrivate -----

    method NotifyIdle()
      modifies this`idleSeen
      ensures idleSeen == (queues == map[])
    {
      idleSeen := queues == map[];
    }

    method RunQueue(w: nat)
      requires Tidy(State(), w)
      requires var q := D.Queue(State(), w); q != [] ==> Waiting(State(), q[0]) || D.Req(State(), q[0]).inProgress
      modifies this
      ensures State() == D.RunQueue(world, old(State()), w)
      decreases |D.Queue(State(), w)|, 4
    {
      if w !in queues || queues[w] == [] {
        aborted := true;
        return;
      }
      var r := queues[w][0];
      if requests[r].inProgress {
        return;
      }
      ghost var start := State();
      Connect(r, D.ToManager);
      var pid := nextPid;
      if world(pid).InitFails? {
        FailInRunQueue(world, start, w);
        nextPid := nextPid + 1;
        assert State() == D.ConnectTo(start, r, D.ToManager).(nextPid := start.nextPid + 1);
        Fail(r, D.ERROR_PROMPT_SESSION, "Could not create a prompt session");
      } else {
        Steps.RunQueueStarts(world, start, w);
        CreateProxy();
        HandleRequest(pid, r);
      }
    }

    /** The manager creates a proxy and keeps it in its list. */
    method CreateProxy()
      modifies this`proxies, this`order, this`nextPid
      ensures State() == D.AddProxy(old(State()))
    {
      proxies := proxies[nextPid := NEW_PROXY];
      order := order + [nextPid];
      nextPid := nextPid + 1;
    }

    /** The head of a queue is deleted later; no empty queue stays. */
    method Dequeue(w: nat)
      requires w in queues && queues[w] != []
      modifies this`queues, this`deleted
      ensures State() == D.Dequeue(old(State()), w)
    {
      deleted := deleted + {queues[w][0]};
      var rest := queues[w][1..];
      queues := if rest == [] then queues - {w} else queues[w := rest];
    }

    method OnRequestCompleted(r: Rid)
      requires Tidy(State(), D.Window(State(), r))
      modifies this
      ensures State() == D.ManagerCompleted(world, old(State()), r)
      decreases |D.Queue(State(), D.Window(State(), r))|, 1
    {
      var w := if r < |arrivals| then arrivals[r].params.windowId else 0;
      if w !in queues || queues[w] == [] {
        aborted := true;
        return;
      }
      if queues[w][0] != r {
        outOfTurn := true;
        return;
      }
      DequeueTidy(State(), w);
      Dequeue(w);
      if w in queues {
        RunQueue(w);
      }
      if queues == map[] {
        NotifyIdle();
      }
    }

    method Route(params: Params, pid: Pid)
      requires pid in proxies
      modifies this`arrivals, this`requests, this`proxies
      ensures State() == D.Handle(world, ArriveRouted(old(State()), params), pid, old(|arrivals|))
    {
      var r := |arrivals|;
      arrivals := arrivals + [D.Arrival(params, true)];
      requests := requests[r := D.Request(false, 0, [D.DeleteLater])];
      HandleRequest(pid, r);
    }

    method Append(params: Params)
      modifies this`arrivals, this`requests, this`queues, this`idleSeen
      ensures State() == ArriveQueued(old(State()), params)
    {
      var r := |arrivals|;
      var wasIdle := queues == map[];
      var w := params.windowId;
      arrivals := arrivals + [D.Arrival(params, false)];
      requests := requests[r := D.Request(false, 0, [])];
      queues := queues[w := (if w in queues then queues[w] else []) + [r]];
      if wasIdle {
        NotifyIdle();
      }
    }

    method Enqueue(params: Params)
      requires Settled(State())
      modifies this
      ensures State() == D.Enqueue(world, old(State()), params)
    {
      var r := |arrivals|;
      var i := 0;
      while i < |order|
        invariant 0 <= i <= |order| && State() == old(State()) && r == |arrivals|
        invariant D.FirstHandler(State(), params, i) == D.FirstHandler(State(), params, 0)
      {
        var pid := order[i];
        if pid in proxies && HasHandlerFor(proxies[pid], params) {
          Route(params, pid);
          return;
        }
        i := i + 1;
      }
      Append(params);
      ArrivedTidy(old(State()), State(), params);
      RunQueue(params.windowId);
    }

    method OnProxyFinished(pid: Pid)
      modifies this`order, this`dying
      ensures State() == D.ProxyFinished(old(State()), pid)
    {
      order := D.Without(order, pid);
      dying := dying + [pid];
    }

    // ----- Request -----

    method Connect(r: Rid, slot: D.Slot)
      requires r in requests
      modifies this`requests
      ensures State() == D.ConnectTo(old(State()), r, slot)
    {
      requests := requests[r := requests[r].(slots := requests[r].slots + [slot])];
    }

    method EmitCompleted(r: Rid)
      requires r in requests && Tidy(State(), D.Window(State(), r))
      requires forall i :: 0 < i < |requests[r].slots| ==> !requests[r].slots[i].ToManager?
      modifies this
      ensures State() == D.Emit(world, old(State()), r, old(requests[r].slots))
      decreases |D.Queue(State(), D.Window(State(), r))|, 2
    {
      var slots := requests[r].slots;
      ghost var start := State();
      var i := 0;
      while i < |slots|
        invariant 0 <= i <= |slots|
        invariant i == 0 ==> State() == start
        invariant D.Emit(world, State(), r, slots[i..]) == D.Emit(world, start, r, slots)
        decreases |slots| - i
      {
        ghost var before := State();
        assert slots[i..][1..] == slots[i + 1..];
        match slots[i] {
          case ToManager => OnRequestCompleted(r);
          case DeleteLater => deleted := deleted + {r};
          case ToProxy(pid) =>
            if pid in proxies { ProxyOnRequestCompleted(pid, r); }
        }
        assert State() == D.EmitTo(world, before, r, slots[i]);
        i := i + 1;
      }
    }

    method Fail(r: Rid, name: string, message: string)
      requires r in requests && Tidy(State(), D.Window(State(), r))
      requires forall i :: 0 < i < |requests[r].slots| ==> !requests[r].slots[i].ToManager?
      modifies this
      ensures State() == D.RequestFail(world, old(State()), r, name, message)
      decreases |D.Queue(State(), D.Window(State(), r))|, 3
    {
      replies := replies + [D.Reply(r, D.Failure(name, message))];
      assert Tidy(State(), D.Window(State(), r)) by { RepliesTidy(old(State()), State(), D.Window(State(), r)); }
      EmitCompleted(r);
    }

    method SetInProgress(r: Rid, inProgress: bool)
      requires r in requests
      modifies this`requests
      ensures State() == D.SetRequest(old(State()), r, old(requests[r]).(inProgress := inProgress))
    {
      requests := requests[r := requests[r].(inProgress := inProgress)];
    }

    method SetCanceled(r: Rid)
      requires r in requests && Tidy(State(), D.Window(State(), r))
      requires forall i :: 0 < i < |requests[r].slots| ==> !requests[r].slots[i].ToManager?
      modifies this
      ensures State() == D.RequestSetCanceled(world, old(State()), r)
    {
      if requests[r].inProgress {
        EmitKeepsRequests(world, State().(replies := replies + [D.Reply(r, D.CANCELED)]), r, requests[r].slots);
        Fail(r, ERROR_USER_CANCELED, "Canceled");
        SetInProgress(r, false);
      }
    }

    method SetResult(r: Rid, data: string)
      requires r in requests && Tidy(State(), D.Window(State(), r))
      requires forall i :: 0 < i < |requests[r].slots| ==> !requests[r].slots[i].ToManager?
      modifies this
      ensures State() == D.RequestSetResult(world, old(State()), r, data)
    {
      if requests[r].inProgress {
        EmitKeepsRequests(world, State().(replies := replies + [D.Reply(r, D.Result(data))]), r, requests[r].slots);
        replies := replies + [D.Reply(r, D.Result(data))];
        RepliesTidy(old(State()), State(), D.Window(State(), r));
        EmitCompleted(r);
        SetInProgress(r, false);
      }
    }

    // ----- UiProxy -----

    method HandleRequest(pid: Pid, r: Rid)
      requires pid in proxies && r in requests && r < |arrivals|
      modifies this`proxies, this`requests
      ensures State() == D.Handle(world, old(State()), pid, r)
    {
      proxies := proxies[pid := Proxy.HandleRequest(world(pid), proxies[pid], Pending(r, arrivals[r].params))];
      Connect(r, D.ToProxy(pid));
      SetInProgress(r, true);
      assert requests == old(requests)[r := requests[r]];
    }

    method ProxyOnRequestCompleted(pid: Pid, r: Rid)
      requires pid in proxies
      modifies this`proxies
      ensures State() == D.SetProxy(old(State()), pid, Proxy.OnRequestCompleted(old(proxies[pid]), r))
    {
      proxies := proxies[pid := Proxy.OnRequestCompleted(proxies[pid], r)];
    }

    method OnNewConnection(pid: Pid)
      requires pid in proxies
      modifies this`proxies
      ensures State() == D.SetProxy(old(State()), pid, Proxy.OnNewConnection(old(proxies[pid])))
    {
      proxies := proxies[pid := Proxy.OnNewConnection(proxies[pid])];
    }

    /** The next frame from the UI process. */
    method OnDataReady(pid: Pid)
      requires Settled(State()) && pid in proxies && proxies[pid].wire.toService != []
      modifies this
      ensures State() == D.DataReadyStep(world, old(State()), pid)
    {
      var p := proxies[pid];
      var f := p.wire.toService[0];
      proxies := proxies[pid := PopReply(p)];
      if f.RegisterHandler? {
        proxies := proxies[pid := proxies[pid].(handlers := p.handlers + [f.handlerId])];
        return;
      }
      if f.id !in p.requests {
        aborted := true;
        return;
      }
      var r := p.requests[f.id].rid;
      ReplyTidy(old(State()), pid, f.id);
      if f.Finished? {
        requests := requests[r := requests[r].(delay := f.delay)];
        TouchedTidy(old(State()), State(), r);
        SetResult(r, f.data);
      } else {
        TouchedTidy(old(State()), State(), r);
        Fail(r, f.name, f.message);
      }
    }

    method OnDisconnected(pid: Pid)
      requires pid in proxies
      modifies this`proxies, this`order, this`dying
      ensures var t := D.SetProxy(old(State()), pid, Disconnect(old(proxies[pid])));
              State() == if old(proxies[pid].timerActive) then t else D.ProxyFinished(t, pid)
    {
      var p := proxies[pid];
      proxies := proxies[pid := Disconnect(p)];
      if !p.timerActive {
        OnProxyFinished(pid);
      }
    }

    method OnFinishedTimer(pid: Pid)
      requires pid in proxies
      modifies this`proxies, this`order, this`dying
      ensures var t := D.SetProxy(old(State()), pid, old(proxies[pid]).(timerActive := false));
              State() == if old(proxies[pid].requests) == map[] then D.ProxyFinished(t, pid) else t
    {
      var p := proxies[pid];
      proxies := proxies[pid := p.(timerActive := false)];
      if p.requests == map[] {
        OnProxyFinished(pid);
      }
    }

    /** ~UiProxyPrivate, and what deleting the proxy takes with it. */
    method DestroyProxy(pid: Pid)
      requires Inv(State(), {}) && pid in dying && pid in proxies
      modifies this
      ensures State() == D.Destroy(world, old(State()), pid)
    {
      ghost var start := State();
      var p := proxies[pid];
      var id := 0;
      CancellingBegins(world, start, pid);
      while id < p.nextRequestId
        invariant 0 <= id <= p.nextRequestId && Cancelling(world, start, State(), pid, id)
      {
        if id in p.requests {
          CancellingOne(world, start, State(), pid, id);
          SetCanceled(p.requests[id].rid);
        } else {
          CancellingNone(world, start, State(), pid, id);
        }
        id := id + 1;
      }
      proxies := proxies - {pid};
      dying := D.Without(dying, pid);
    }

    /** The event loop deletes what `deleteLater` was called on. */
    method DeferredDeletes()
      requires Inv(State(), {})
      modifies this
      ensures State() == D.Flush(world, old(State()))
    {
      ghost var start := State();
      while dying != []
        invariant Inv(State(), {})
        invariant D.DestroyAll(world, State(), dying) == D.DestroyAll(world, start, start.dying)
        decreases |dying|
      {
        var pid := dying[0];
        assert Ok(Order, State(), {});
        Steps.DestroyInv(world, State(), pid);
        assert D.Without(dying, pid) == dying[1..];
        DestroyProxy(pid);
      }
      requests := requests - deleted;
      deleted := {};
    }

    /** The slot that the event is delivered to. */
    method Deliver(e: D.Event)
      requires Settled(State())
      modifies this
      ensures State() == D.Handled(world, old(State()), e)
    {
      match e {
        case Call(params) => Enqueue(params);
        case CancelRequest(r) =>
          if r in requests {
            CancelTidy(State(), r);
            SetCanceled(r);
          }
        case Connect(pid) => if pid in proxies { OnNewConnection(pid); }
        case Ui(pid, op) =>
          if pid in proxies && proxies[pid].socket == Open {
            proxies := proxies[pid := proxies[pid].(wire := UiDo(proxies[pid].wire, op))];
          }
        case DataReady(pid) => if pid in proxies && proxies[pid].wire.toService != [] { OnDataReady(pid); }
        case Disconnected(pid) => if pid in proxies && proxies[pid].socket == Open { OnDisconnected(pid); }
        case Timeout(pid) => if pid in proxies && proxies[pid].timerActive { OnFinishedTimer(pid); }
        case PromptSessionFinished(pid) => if pid in proxies { OnProxyFinished(pid); }
      }
    }

    /** One turn of the event loop. */
    method Dispatch(e: D.Event)
      requires Settled(State())
      modifies this
      ensures State() == D.Step(world, old(State()), e)
      ensures !aborted ==> Settled(State())
    {
      assert Ok(Flags, State(), {});
      LateIsAborted(world, State(), e);
      Steps.LateReply(world, State(), e);
      ghost var late := Steps.Late(State(), e);
      if late { Steps.LateAborts(world, State(), e); }
      Deliver(e);
      if aborted {
        return;
      }
      DeferredDeletes();
    }
  }

  lemma LateIsAborted(world: D.World, s: D.State, e: D.Event)
    requires Settled(s)
    ensures D.Handled(world, s, e).aborted <==> Steps.Late(s, e)
    ensures !Steps.Late(s, e) ==> Inv(D.Handled(world, s, e), {})
  {
    Steps.HandledInv(world, s, e);
    assert !Steps.Late(s, e) ==> Ok(Flags, D.Handled(world, s, e), {});
  }

  /** In the loop of the destructor: the requests below `id` are cancelled, the others are as
      they were, and cancelling them too is what cancelling all is. */
  ghost predicate Cancelling(world: D.World, start: D.State, s: D.State, pid: Pid, id: nat) {
    && pid in start.proxies && pid in s.proxies && Inv(s, {})
    && var p, q := start.proxies[pid], s.proxies[pid];
    && q.nextRequestId == p.nextRequestId
    && (forall i: nat :: i in q.requests ==> id <= i)
    && (forall i: nat :: id <= i ==> (i in q.requests <==> i in p.requests))
    && (forall i: nat :: id <= i && i in p.requests ==> q.requests[i] == p.requests[i])
    && D.CancelAll(world, s, PendingList(q, id)) == D.CancelAll(world, start, PendingList(p, 0))
  }

  lemma CancellingBegins(world: D.World, s: D.State, pid: Pid)
    requires Inv(s, {}) && pid in s.proxies
    ensures Cancelling(world, s, s, pid, 0)
  {
  }

  lemma CancellingOne(world: D.World, start: D.State, s: D.State, pid: Pid, id: nat)
    requires Cancelling(world, start, s, pid, id) && id in start.proxies[pid].requests
    requires id < start.proxies[pid].nextRequestId
    ensures
      var r := start.proxies[pid].requests[id].rid;
      && r in s.requests && Tidy(s, D.Window(s, r))
      && (forall i :: 0 < i < |s.requests[r].slots| ==> !s.requests[r].slots[i].ToManager?)
      && Cancelling(world, start, D.RequestSetCanceled(world, s, r), pid, id + 1)
  {
    var p := s.proxies[pid];
    var r := p.requests[id].rid;
    HeldTidy(s, pid, id);
    Steps.CancelHeld(world, s, pid, id);
    Steps.PendingCons(p, id);
    Steps.CancelAllCons(world, s, r, PendingList(D.RequestSetCanceled(world, s, r).proxies[pid], id + 1));
  }

  lemma CancellingNone(world: D.World, start: D.State, s: D.State, pid: Pid, id: nat)
    requires Cancelling(world, start, s, pid, id) && id !in start.proxies[pid].requests
    requires id < start.proxies[pid].nextRequestId
    ensures Cancelling(world, start, s, pid, id + 1)
  {
    assert PendingList(s.proxies[pid], id) == PendingList(s.proxies[pid], id + 1);
  }

  /** A held request may be answered. */
  lemma HeldTidy(s: D.State, pid: Pid, id: nat)
    requires Inv(s, {}) && pid in s.proxies && id in s.proxies[pid].requests
    ensures var r := s.proxies[pid].requests[id].rid;
            && r in s.requests && Tidy(s, D.Window(s, r))
            && forall i :: 0 < i < |s.requests[r].slots| ==> !s.requests[r].slots[i].ToManager?
  {
    assert Ok(Proxies, s, {}) && HeldOk(s, pid, id, {});
    InvTidy(s, D.Window(s, s.proxies[pid].requests[id].rid));
  }

  lemma ReplyTidy(s: D.State, pid: Pid, id: nat)
    requires Settled(s) && pid in s.proxies && id in s.proxies[pid].requests
    ensures var r := s.proxies[pid].requests[id].rid;
            && r in s.requests && s.requests[r].inProgress && Tidy(s, D.Window(s, r))
            && forall i :: 0 < i < |s.requests[r].slots| ==> !s.requests[r].slots[i].ToManager?
  {
    HeldTidy(s, pid, id);
    assert Ok(Proxies, s, {}) && HeldOk(s, pid, id, {});
  }

  /** Only a request that is in progress has changed, and proxies do not matter. */
  lemma TouchedTidy(s: D.State, t: D.State, r: Rid)
    requires Tidy(s, D.Window(s, r)) && r in s.requests && s.requests[r].inProgress
    requires t.arrivals == s.arrivals && t.queues == s.queues && r in t.requests
    requires t.requests == s.requests[r := t.requests[r]]
    ensures Tidy(t, D.Window(t, r))
  {
    var w := D.Window(s, r);
    var q := D.Queue(s, w);
    assert D.Queue(t, w) == q;
    forall i | 0 <= i < |q| ensures D.Window(t, q[i]) == w { assert D.Window(s, q[i]) == w; }
    forall i | 0 < i < |q| ensures Waiting(t, q[i]) { assert Waiting(s, q[i]); }
  }

  lemma CancelTidy(s: D.State, r: Rid)
    requires Settled(s) && r in s.requests
    ensures Tidy(s, D.Window(s, r))
    ensures forall i :: 0 < i < |s.requests[r].slots| ==> !s.requests[r].slots[i].ToManager?
  {
    InvTidy(s, D.Window(s, r));
    if s.requests[r].inProgress {
      Steps.InProgressIsHeld(s, r);
      var pid, id :| Holds(s, pid, id, r);
      HeldTidy(s, pid, id);
    } else {
      Steps.IdleIsWaiting(s, r);
    }
  }

  lemma RepliesTidy(s: D.State, t: D.State, w: nat)
    requires Tidy(s, w) && t == s.(replies := t.replies)
    ensures Tidy(t, w)
  {
    var q := D.Queue(s, w);
    assert D.Queue(t, w) == q;
    forall i | 0 <= i < |q| ensures D.Window(t, q[i]) == w { assert D.Window(s, q[i]) == w; }
  }

  /** The failing branch of runQueue, as it comes to call fail. */
  lemma FailInRunQueue(world: D.World, s: D.State, w: nat)
    requires Tidy(s, w) && D.Queue(s, w) != [] && Waiting(s, D.Queue(s, w)[0]) && world(s.nextPid).InitFails?
    ensures
      var r := D.Queue(s, w)[0];
      var t := D.ConnectTo(s, r, D.ToManager).(nextPid := s.nextPid + 1);
      && Tidy(t, w) && D.Window(t, r) == w && D.Queue(t, w) == D.Queue(s, w)
      && r in t.requests && t.requests[r].slots == [D.ToManager]
      && D.RunQueue(world, s, w) ==
           D.RequestFail(world, t, r, D.ERROR_PROMPT_SESSION, "Could not create a prompt session")
  {
    var q := D.Queue(s, w);
    var r := q[0];
    var t := D.ConnectTo(s, r, D.ToManager).(nextPid := s.nextPid + 1);
    assert D.Queue(t, w) == q;
    forall i | 0 <= i < |q| ensures D.Window(t, q[i]) == w { assert D.Window(s, q[i]) == w; }
    forall i | 0 < i < |q| ensures Waiting(t, q[i]) { assert q[0] < q[i] && Waiting(s, q[i]); }
    Steps.RunQueueFails(world, s, w);
    FailIsHeadCompleted(world, t, r);
  }

  lemma FailIsHeadCompleted(world: D.World, s: D.State, r: Rid)
    requires D.Req(s, r).slots == [D.ToManager]
    requires D.Queue(s, D.Window(s, r)) != [] && D.Queue(s, D.Window(s, r))[0] == r
    ensures D.RequestFail(world, s, r, D.ERROR_PROMPT_SESSION, "Could not create a prompt session") ==
            D.HeadCompleted(world, s.(replies := s.replies + [D.Reply(r, D.NO_PROMPT)]), D.Window(s, r))
  {
    var a := s.(replies := s.replies + [D.Reply(r, D.NO_PROMPT)]);
    var slots := D.Req(s, r).slots;
    assert slots[1..] == [];
    assert D.Emit(world, a, r, slots) == D.Emit(world, D.EmitTo(world, a, r, slots[0]), r, []);
  }

  lemma ArrivedTidy(s: D.State, t: D.State, params: Params)
    requires Settled(s) && Grown(s, t, false, params)
    ensures Tidy(t, params.windowId)
    ensures var q := D.Queue(t, params.windowId);
            q != [] && (Waiting(t, q[0]) || D.Req(t, q[0]).inProgress)
  {
    var w, r := params.windowId, |s.arrivals|;
    InvTidy(s, w);
    assert Ok(Names, s, {}) && Ok(Queues, s, {});
    var q := D.Queue(s, w);
    assert D.Queue(t, w) == q + [r];
    forall i | 0 <= i < |q| ensures D.Window(t, q[i]) == w && q[i] in t.requests && q[i] < r {
      assert D.Window(s, q[i]) == w;
    }
    if q != [] { assert QueueOk(s, w, {}); }
  }

  lemma {:induction false} EmitKeepsRequests(world: D.World, s: D.State, r: Rid, slots: seq<D.Slot>)
    requires r in s.requests
    ensures r in D.Emit(world, s, r, slots).requests
    decreases |slots|
  {
    if slots != [] {
      var w := D.Window(s, r);
      if slots[0].ToManager? && D.Queue(s, w) != [] && s.queues[w][0] == r { HeadKeepsRequests(world, s, w, r); }
      EmitKeepsRequests(world, D.EmitTo(world, s, r, slots[0]), r, slots[1..]);
    }
  }

  lemma {:induction false} HeadKeepsRequests(world: D.World, s: D.State, w: nat, r: Rid)
    requires D.Queue(s, w) != [] && r in s.requests
    ensures r in D.HeadCompleted(world, s, w).requests
    decreases |D.Queue(s, w)|
  {
    var t := D.Dequeue(s, w);
    if w in t.queues && !D.Req(t, t.queues[w][0]).inProgress && world(t.nextPid).InitFails? {
      var h := t.queues[w][0];
      Steps.RunQueueFails(world, t, w);
      HeadKeepsRequests(world, D.InitFailed(D.ConnectTo(t, h, D.ToManager), h), w, r);
    }
  }
}
