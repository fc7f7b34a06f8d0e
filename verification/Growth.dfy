/** What every part of a step does to the lists of the daemon, whichever part it is: the list of
    proxies grows at its end, replies are added at the end and only such as the daemon gives itself,
    handlers and sockets stay as they are, and a new proxy has been started and has no handlers.

    An answer of the UI process comes before all this: it is the first reply that the step adds,
    and what the completion sets off adds to it. A frame that registers a handler, a connection
    that is opened or closed and a timer that fires change one proxy and nothing else.

    The order is that of the calls, as in `Steps`: the queue and the completion of its head, the
    signals of a request, its cancellation, the end of a proxy, the deferred deletions, and the
    arrival of a request. */
module Growth {
  import opened Options
  import opened Proxy
  import opened Daemon
  import opened Invariant
  import opened Steps
  import opened Runs

  /** An answer that comes from the daemon itself: a proxy could not be initialised, or the request
      was cancelled. */
  predicate FromDaemon(answer: Answer) {
    || answer == Failure("com.ubuntu.OnlineAccountsUi.NoPromptSession", "Could not create a prompt session")
    || answer == Failure("com.ubuntu.OnlineAccountsUi.UserCanceled", "Canceled")
  }

  /** The list of proxies is as it was, with new ones at its end. */
  ghost predicate Grows(s: State, t: State) {
    && s.order <= t.order && s.nextPid <= t.nextPid
    && forall i :: |s.order| <= i < |t.order| ==> t.order[i] >= s.nextPid
  }

  /** Replies are added, and only such as the daemon gives itself. */
  ghost predicate Tells(s: State, t: State) {
    s.replies <= t.replies && forall i :: |s.replies| <= i < |t.replies| ==> FromDaemon(t.replies[i].answer)
  }

  /** Handlers stay as they are, a new proxy has none. */
  ghost predicate SameHandlers(s: State, t: State) {
    forall pid :: pid in t.proxies ==>
      || (pid in s.proxies && t.proxies[pid].handlers == s.proxies[pid].handlers)
      || (pid >= s.nextPid && t.proxies[pid].handlers == [])
  }

  /** How far a proxy has come with its UI process: it is connected; or it waits for the connection,
      unless there is no socket for it, and is in error if the process could not be started. */
  predicate IsStarted(outcome: Outcome, p: UiProxy) {
    if p.socket != Closed then p.status == Ready && !p.listening
    else match outcome
      case Starts => p.status == Loading && p.listening
      case ProcessFails => p.status == Error && p.listening
      case _ => p.status == Error && !p.listening
  }

  /** Sockets stay as they are, a new proxy has been started. */
  ghost predicate SameSockets(world: World, s: State, t: State) {
    forall pid :: pid in t.proxies ==>
      || (pid in s.proxies && SameSocket(s.proxies[pid], t.proxies[pid]))
      || (pid in s.proxies && s.proxies[pid].status == Null)
      || IsStarted(world(pid), t.proxies[pid])
  }

  predicate SameSocket(p: UiProxy, q: UiProxy) {
    q.status == p.status && q.listening == p.listening && q.socket == p.socket
  }

  ghost predicate Extends(world: World, s: State, t: State) {
    Grows(s, t) && Tells(s, t) && SameHandlers(s, t) && SameSockets(world, s, t)
  }

  lemma ExtendsTrans(world: World, s: State, t: State, u: State)
    requires Extends(world, s, t) && Extends(world, t, u)
    ensures Extends(world, s, u)
  {
    forall i | |s.order| <= i < |u.order| ensures u.order[i] >= s.nextPid {
      if i < |t.order| { assert u.order[i] == t.order[i]; }
    }
    forall i | |s.replies| <= i < |u.replies| ensures FromDaemon(u.replies[i].answer) {
      if i < |t.replies| { assert u.replies[i] == t.replies[i]; }
    }
  }

  lemma HandleExtends(world: World, s: State, pid: Pid, r: Rid)
    requires pid in s.proxies
    ensures Extends(world, s, Handle(world, s, pid, r))
  {
    var params := if r < |s.arrivals| then s.arrivals[r].params else Params(0, None, "");
    var q := HandleRequest(world(pid), s.proxies[pid], Pending(r, params));
    HandleKeepsHandlers(world(pid), s.proxies[pid], Pending(r, params));
    assert Handle(world, s, pid, r).proxies == s.proxies[pid := q];
  }

  lemma NewIsStarted(outcome: Outcome, pending: Pending)
    ensures var q := HandleRequest(outcome, NEW_PROXY, pending); IsStarted(outcome, q) && q.handlers == []
  {
  }

  lemma HandleKeepsHandlers(outcome: Outcome, p: UiProxy, pending: Pending)
    ensures var q := HandleRequest(outcome, p, pending);
            q.handlers == p.handlers && (SameSocket(p, q) || p.status == Null)
  {
  }

  lemma StartExtends(world: World, s: State, w: nat)
    requires Queue(s, w) != [] && !Req(s, s.queues[w][0]).inProgress && !world(s.nextPid).InitFails?
    ensures Extends(world, s, RunQueue(world, s, w))
  {
    var r := s.queues[w][0];
    RunQueueStarts(world, s, w);
    NewIsStarted(world(s.nextPid), Pending(r, if r < |s.arrivals| then s.arrivals[r].params else Params(0, None, "")));
  }

  lemma {:induction false} RunQueueExtends(world: World, s: State, w: nat)
    ensures Extends(world, s, RunQueue(world, s, w))
    decreases |Queue(s, w)|, 1
  {
    if Queue(s, w) != [] && !Req(s, s.queues[w][0]).inProgress {
      if world(s.nextPid).InitFails? {
        var t := InitFailed(ConnectTo(s, s.queues[w][0], ToManager), s.queues[w][0]);
        RunQueueFails(world, s, w);
        HeadCompletedExtends(world, t, w);
        ExtendsTrans(world, s, t, HeadCompleted(world, t, w));
      } else {
        StartExtends(world, s, w);
      }
    }
  }

  lemma {:induction false} HeadCompletedExtends(world: World, s: State, w: nat)
    requires Queue(s, w) != []
    ensures Extends(world, s, HeadCompleted(world, s, w))
    decreases |Queue(s, w)|, 0
  {
    var t := Dequeue(s, w);
    if w in t.queues { RunQueueExtends(world, t, w); }
  }

  lemma ManagerExtends(world: World, s: State, r: Rid)
    ensures Extends(world, s, ManagerCompleted(world, s, r))
  {
    var w := Window(s, r);
    if Queue(s, w) != [] && s.queues[w][0] == r { HeadCompletedExtends(world, s, w); }
  }

  lemma CompletedExtends(world: World, s: State, r: Rid, pid: Pid)
    requires pid in s.proxies
    ensures Extends(world, s, SetProxy(s, pid, OnRequestCompleted(s.proxies[pid], r)))
  {
    assert SameSocket(s.proxies[pid], OnRequestCompleted(s.proxies[pid], r));
  }

  lemma SlotExtends(world: World, s: State, r: Rid, slot: Slot)
    ensures Extends(world, s, EmitTo(world, s, r, slot))
  {
    match slot
    case ToManager => ManagerExtends(world, s, r);
    case DeleteLater =>
    case ToProxy(pid) => if pid in s.proxies { CompletedExtends(world, s, r, pid); }
  }

  lemma {:induction false} EmitExtends(world: World, s: State, r: Rid, slots: seq<Slot>)
    ensures Extends(world, s, Emit(world, s, r, slots))
    decreases |slots|
  {
    if slots != [] {
      var t := EmitTo(world, s, r, slots[0]);
      SlotExtends(world, s, r, slots[0]);
      EmitExtends(world, t, r, slots[1..]);
      ExtendsTrans(world, s, t, Emit(world, t, r, slots[1..]));
    }
  }

  /** The reply itself comes first. */
  lemma AnsweredExtends(world: World, s: State, r: Rid, answer: Answer)
    ensures Extends(world, s.(replies := s.replies + [Reply(r, answer)]), Answered(world, s, r, answer))
  {
    EmitExtends(world, s.(replies := s.replies + [Reply(r, answer)]), r, Req(s, r).slots);
  }

  lemma CanceledExtends(world: World, s: State, r: Rid)
    ensures Extends(world, s, RequestSetCanceled(world, s, r))
    ensures Req(s, r).inProgress ==>
              Extends(world, s.(replies := s.replies + [Reply(r, CANCELED)]), RequestSetCanceled(world, s, r))
  {
    if Req(s, r).inProgress {
      var t := s.(replies := s.replies + [Reply(r, CANCELED)]);
      AnsweredExtends(world, s, r, CANCELED);
      ExtendsTrans(world, t, Answered(world, s, r, CANCELED), RequestSetCanceled(world, s, r));
      ExtendsTrans(world, s, t, RequestSetCanceled(world, s, r));
    }
  }

  lemma {:induction false} CancelAllExtends(world: World, s: State, rids: seq<Rid>)
    ensures Extends(world, s, CancelAll(world, s, rids))
    decreases |rids|
  {
    if rids != [] {
      var t := RequestSetCanceled(world, s, rids[0]);
      CanceledExtends(world, s, rids[0]);
      CancelAllExtends(world, t, rids[1..]);
      ExtendsTrans(world, s, t, CancelAll(world, t, rids[1..]));
    }
  }

  lemma DestroyExtends(world: World, s: State, pid: Pid)
    ensures Extends(world, s, Destroy(world, s, pid))
  {
    if pid in s.proxies {
      var t := CancelAll(world, s, PendingList(s.proxies[pid], 0));
      CancelAllExtends(world, s, PendingList(s.proxies[pid], 0));
      ExtendsTrans(world, s, t, Destroy(world, s, pid));
    }
  }

  lemma {:induction false} DestroyAllExtends(world: World, s: State, pids: seq<Pid>)
    ensures Extends(world, s, DestroyAll(world, s, pids))
    decreases |pids|
  {
    if pids != [] {
      var t := Destroy(world, s, pids[0]);
      DestroyExtends(world, s, pids[0]);
      DestroyAllExtends(world, t, pids[1..]);
      ExtendsTrans(world, s, t, DestroyAll(world, t, pids[1..]));
    }
  }

  lemma FlushExtends(world: World, s: State)
    ensures Extends(world, s, Flush(world, s))
  {
    DestroyAllExtends(world, s, s.dying);
    ExtendsTrans(world, s, DestroyAll(world, s, s.dying), Flush(world, s));
  }

  lemma EnqueueExtends(world: World, s: State, params: Params)
    ensures Extends(world, s, Enqueue(world, s, params))
  {
    match FirstHandler(s, params, 0)
    case Some(pid) => RoutedExtends(world, s, params, pid);
    case None => QueuedExtends(world, s, params);
  }

  lemma RoutedExtends(world: World, s: State, params: Params, pid: Pid)
    requires FirstHandler(s, params, 0) == Some(pid)
    ensures Extends(world, s, Enqueue(world, s, params))
  {
    var t := ArriveRouted(s, params);
    HandleExtends(world, t, pid, |s.arrivals|);
    ExtendsTrans(world, s, t, Handle(world, t, pid, |s.arrivals|));
  }

  lemma QueuedExtends(world: World, s: State, params: Params)
    requires FirstHandler(s, params, 0) == None
    ensures Extends(world, s, Enqueue(world, s, params))
  {
    var t := ArriveQueued(s, params);
    RunQueueExtends(world, t, params.windowId);
    ExtendsTrans(world, s, t, RunQueue(world, t, params.windowId));
  }
}
