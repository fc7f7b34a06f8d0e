/** Every step of the daemon keeps the invariant: the nested completions, the cancellations of
    a dying proxy, and the events that begin them.

    The order is that of the calls, from the innermost outwards. Running a queue and completing
    its head call each other, once for each proxy that fails to initialise. A request that a proxy
    holds is answered while the proxy still holds it, and whatever that starts is started before
    the proxy lets go, so the argument takes the proxy out first and shows that it makes no
    difference. The destructor of a proxy cancels what is left, one request after the other, while
    the map of its requests changes. Then come the events, and the deferred deletions that end
    each step.

    `LateReply` is the one way in which a step can fail. */
module Steps {
  import opened Options
  import opened Proxy
  import opened Daemon
  import opened Invariant

  // ----- runQueue and onRequestCompleted -----

  /** What running a queue leaves alone. */
  ghost predicate Undisturbed(s: State, t: State) {
    && t.arrivals == s.arrivals && t.dying == s.dying
    && t.requests.Keys == s.requests.Keys && s.deleted <= t.deleted
    && (forall pid :: pid in s.proxies ==> pid in t.proxies && t.proxies[pid] == s.proxies[pid])
    && (forall pid :: pid in t.proxies && pid !in s.proxies ==> s.nextPid <= pid && t.proxies[pid].wire == NO_WIRE)
    && s.nextPid <= t.nextPid
  }

  ghost predicate Notified(s: State) {
    s.queues == map[] ==> s.idleSeen
  }

  /** The request at the head of queue `w` has yet to be started. */
  ghost predicate Startable(s: State, w: nat, r: Rid) {
    && Queue(s, w) != [] && s.queues[w][0] == r
    && Inv(s, {r}) && Waiting(s, r) && NeverIssued(s, r)
    && r < |s.arrivals| && !s.arrivals[r].routed && Window(s, r) == w
  }

  /** A head that could be started is connected to the manager and handed to a new proxy. */
  lemma LaunchInv(world: World, s: State, r: Rid)
    requires Inv(s, {r}) && Live(s, r) && NeverIssued(s, r) && r < |s.arrivals| && !s.arrivals[r].routed
    requires s.requests[r].slots == [ToManager]
    ensures var t := Handle(world, AddProxy(s), s.nextPid, r); Inv(t, {}) && Undisturbed(s, t)
  {
    var pid := s.nextPid;
    var t := AddProxy(s);
    Basics(s, {r});
    AddProxyInv(s, {r});
    NewProxyValid();
    var pending := Pending(r, s.arrivals[r].params);
    HandleRequestKeeps(world(pid), NEW_PROXY, pending);
    var q := HandleRequest(world(pid), NEW_PROXY, pending);
    assert CanTakeOver(t, pid, q, r);
    TakeOverInv(t, pid, q, r);
    assert Handle(world, t, pid, r) == TakeOver(t, pid, q, r);
  }

  lemma RunQueueFails(world: World, s: State, w: nat)
    requires Queue(s, w) != [] && !Req(s, s.queues[w][0]).inProgress && world(s.nextPid).InitFails?
    ensures var r := s.queues[w][0];
            RunQueue(world, s, w) == HeadCompleted(world, InitFailed(ConnectTo(s, r, ToManager), r), w)
  {
  }

  lemma RunQueueStarts(world: World, s: State, w: nat)
    requires Queue(s, w) != [] && !Req(s, s.queues[w][0]).inProgress && !world(s.nextPid).InitFails?
    ensures var r := s.queues[w][0];
            RunQueue(world, s, w) == Handle(world, AddProxy(ConnectTo(s, r, ToManager)), s.nextPid, r)
  {
  }

  lemma ConnectedInv(s: State, w: nat, r: Rid)
    requires Startable(s, w, r)
    ensures
      var t := ConnectTo(s, r, ToManager);
      && Inv(t, {r}) && NeverIssued(t, r) && t.requests[r] == Request(false, 0, [ToManager]) && CanRetire(t, r)
  {
    var x := Request(false, 0, [ToManager]);
    assert [] + [ToManager] == [ToManager];
    assert Ok(Loose, s, {r});
    SetRequestInv(s, r, x, {r});
    assert SetRequest(s, r, x) == ConnectTo(s, r, ToManager);
  }

  lemma SkippedInv(s: State, r: Rid)
    requires Inv(s, {r}) && NeverIssued(s, r) && CanRetire(s, r)
    ensures var t := s.(nextPid := s.nextPid + 1); Inv(t, {r}) && CanRetire(t, r) && NoTrace(t, r)
  {
    SkipPidInv(s, {r});
  }

  lemma UndisturbedAfter(s: State, u: State, t: State)
    requires Undisturbed(u, t) && u.arrivals == s.arrivals && u.dying == s.dying && u.requests.Keys == s.requests.Keys
    requires u.deleted == s.deleted && u.proxies == s.proxies && s.nextPid <= u.nextPid
    ensures Undisturbed(s, t)
  {
  }

  lemma StartedInv(world: World, s: State, w: nat, r: Rid)
    requires Startable(s, w, r) && !world(s.nextPid).InitFails?
    ensures var t := RunQueue(world, s, w); Inv(t, {}) && Undisturbed(s, t) && Notified(t)
  {
    var touched := ConnectTo(s, r, ToManager);
    ConnectedInv(s, w, r);
    RunQueueStarts(world, s, w);
    LaunchInv(world, touched, r);
    UndisturbedAfter(s, touched, RunQueue(world, s, w));
  }

  lemma {:induction false} RunQueueInv(world: World, s: State, w: nat, r: Rid)
    requires Startable(s, w, r)
    ensures var t := RunQueue(world, s, w); Inv(t, {}) && Undisturbed(s, t) && Notified(t)
    decreases |Queue(s, w)|, 1
  {
    if world(s.nextPid).InitFails? {
      var touched := ConnectTo(s, r, ToManager);
      var skipped := touched.(nextPid := s.nextPid + 1);
      ConnectedInv(s, w, r);
      RunQueueFails(world, s, w);
      SkippedInv(touched, r);
      RetiredInv(world, skipped, r, NO_PROMPT);
      UndisturbedAfter(s, skipped, RunQueue(world, s, w));
    } else {
      StartedInv(world, s, w, r);
    }
  }

  /** A queued request is answered: its queue goes on. */
  lemma {:induction false} RetiredInv(world: World, s: State, r: Rid, answer: Answer)
    requires Inv(s, {r}) && CanRetire(s, r) && !s.arrivals[r].routed && (answer == CANCELED || NoTrace(s, r))
    ensures var t := HeadCompleted(world, s.(replies := s.replies + [Reply(r, answer)]), Window(s, r));
            Inv(t, {}) && Undisturbed(s, t) && Notified(t) && r in t.deleted
    decreases |Queue(s, Window(s, r))|, 0
  {
    var w := Window(s, r);
    var t := Retire(s, r, answer);
    RetireInv(s, r, answer);
    RetireNext(s, r, answer);
    assert Ok(Queues, s, {r}) && QueueOk(s, w, {r});
    if w in t.queues {
      var x := t.queues[w][0];
      assert NextLoose(s, r) == {x};
      assert InQueueOf(s, w, s.queues[w][1]);
      RunQueueInv(world, t, w, x);
      NotifyInv(RunQueue(world, t, w), {});
    } else {
      NotifyInv(t, {});
    }
  }

  // ----- a request that a proxy holds is answered -----

  lemma SetSwap<K, V>(m: map<K, V>, a: K, u: V, b: K, v: V)
    requires a != b
    ensures m[a := u][b := v] == m[b := v][a := u]
  {
  }

  lemma HandleCommutes(world: World, s: State, added: Pid, r: Rid, pid: Pid, x: UiProxy)
    requires added in s.proxies && added != pid
    ensures Handle(world, SetProxy(s, pid, x), added, r) == SetProxy(Handle(world, s, added, r), pid, x)
  {
    var params := if r < |s.arrivals| then s.arrivals[r].params else Params(0, None, "");
    SetSwap(s.proxies, added, HandleRequest(world(added), s.proxies[added], Pending(r, params)), pid, x);
  }

  lemma LaunchCommutes(world: World, s: State, r: Rid, pid: Pid, x: UiProxy)
    requires pid < s.nextPid
    ensures var n := s.nextPid;
            Handle(world, AddProxy(SetProxy(s, pid, x)), n, r) == SetProxy(Handle(world, AddProxy(s), n, r), pid, x)
  {
    SetSwap(s.proxies, s.nextPid, NEW_PROXY, pid, x);
    HandleCommutes(world, AddProxy(s), s.nextPid, r, pid, x);
  }

  lemma FailedCommutes(s: State, r: Rid, pid: Pid, x: UiProxy)
    ensures InitFailed(ConnectTo(SetProxy(s, pid, x), r, ToManager), r) ==
            SetProxy(InitFailed(ConnectTo(s, r, ToManager), r), pid, x)
  {
  }

  lemma StartCommutes(world: World, s: State, w: nat, pid: Pid, x: UiProxy)
    requires pid < s.nextPid && Queue(s, w) != [] && !Req(s, s.queues[w][0]).inProgress && !world(s.nextPid).InitFails?
    ensures RunQueue(world, SetProxy(s, pid, x), w) == SetProxy(RunQueue(world, s, w), pid, x)
  {
    var r := s.queues[w][0];
    var t := ConnectTo(s, r, ToManager);
    assert ConnectTo(SetProxy(s, pid, x), r, ToManager) == SetProxy(t, pid, x);
    LaunchCommutes(world, t, r, pid, x);
    RunQueueStarts(world, s, w);
    RunQueueStarts(world, SetProxy(s, pid, x), w);
  }

  /** Running a queue does not look at the proxies that there are. */
  lemma {:induction false} RunQueueCommutes(world: World, s: State, w: nat, pid: Pid, x: UiProxy)
    requires pid < s.nextPid
    ensures RunQueue(world, SetProxy(s, pid, x), w) == SetProxy(RunQueue(world, s, w), pid, x)
    decreases |Queue(s, w)|, 1
  {
    if Queue(s, w) != [] && !Req(s, s.queues[w][0]).inProgress {
      if world(s.nextPid).InitFails? {
        var r := s.queues[w][0];
        var t := InitFailed(ConnectTo(s, r, ToManager), r);
        HeadCompletedCommutes(world, t, w, pid, x);
        FailedCommutes(s, r, pid, x);
        RunQueueFails(world, s, w);
        RunQueueFails(world, SetProxy(s, pid, x), w);
      } else {
        StartCommutes(world, s, w, pid, x);
      }
    }
  }

  lemma {:induction false} HeadCompletedCommutes(world: World, s: State, w: nat, pid: Pid, x: UiProxy)
    requires pid < s.nextPid && Queue(s, w) != []
    ensures HeadCompleted(world, SetProxy(s, pid, x), w) == SetProxy(HeadCompleted(world, s, w), pid, x)
    decreases |Queue(s, w)|, 0
  {
    var t := Dequeue(s, w);
    if w in t.queues { RunQueueCommutes(world, t, w, pid, x); }
  }

  /** Proxy `pid` in state `p` is about to see its request `id` answered; all else is as in `s`. */
  ghost predicate Answering(s: State, pid: Pid, p: UiProxy, id: nat) {
    && pid in s.proxies && id in s.proxies[pid].requests
    && var before := s.proxies[pid];
    && p.requests == before.requests && p.issued == before.issued && p.nextRequestId == before.nextRequestId
    && ValidBut(p, id) && OneId(p)
    && (forall i :: Places(p.wire, i) > 0 ==> Places(before.wire, i) > 0)
  }

  lemma AnsweringDetaches(s: State, pid: Pid, p: UiProxy, id: nat)
    requires Answering(s, pid, p, id)
    ensures CanDetach(s, pid, OnRequestCompleted(p, p.requests[id].rid), id)
    ensures OnRequestCompleted(p, p.requests[id].rid).wire == p.wire
  {
    OnRequestCompletedKeeps(p, id);
  }

  lemma DetachedTrace(s: State, pid: Pid, q: UiProxy, id: nat, x: Request)
    requires CanDetach(s, pid, q, id) && Inv(s, {}) && Places(q.wire, id) == 0
    ensures var r := s.proxies[pid].requests[id].rid; NoTrace(SetRequest(SetProxy(s, pid, q), r, x), r)
  {
    var r := s.proxies[pid].requests[id].rid;
    var t := SetProxy(s, pid, q);
    assert Ok(Proxies, s, {}) && Ok(Issued, s, {}) && Ok(Names, s, {});
    assert HeldOk(s, pid, id, {});
    forall y: Pid, i: nat | y in t.proxies && i !in t.proxies[y].requests && i < |t.proxies[y].issued|
      && t.proxies[y].issued[i] == r
      ensures Places(t.proxies[y].wire, i) == 0
    {
      if i in s.proxies[y].requests {
        assert Valid(s.proxies[y]);
        HeldOnce(s, pid, id, y, i, r, {});
      }
    }
  }

  /** The whole of `completed()` for a held request: the manager's slot or the deletion, then
      the proxy's. Whatever it starts is started before the proxy lets go. */
  lemma CompleteHeld(world: World, s: State, pid: Pid, p: UiProxy, id: nat, x: Request, answer: Answer)
    requires Inv(s, {}) && Answering(s, pid, p, id)
    requires x.slots == Req(s, p.requests[id].rid).slots
    requires answer == CANCELED || Places(p.wire, id) == 0
    ensures
      var r := p.requests[id].rid;
      var t := Answered(world, SetRequest(SetProxy(s, pid, p), r, x), r, answer);
      && Inv(t, {}) && (Notified(s) ==> Notified(t))
      && Undisturbed(SetProxy(s, pid, OnRequestCompleted(p, r)), t)
      && r in t.deleted && t.requests.Keys == s.requests.Keys
  {
    var r := p.requests[id].rid;
    var d := SetRequest(SetProxy(s, pid, OnRequestCompleted(p, r)), r, x);
    LooseHeld(s, pid, p, id, x);
    if Places(p.wire, id) == 0 {
      AnsweringDetaches(s, pid, p, id);
      DetachedTrace(s, pid, OnRequestCompleted(p, r), id, x);
    }
    CompleteIsRetire(world, s, pid, p, id, x, answer);
    if s.arrivals[r].routed {
      RetireInv(d, r, answer);
    } else {
      RetiredInv(world, d, r, answer);
    }
  }

  lemma LooseHeld(s: State, pid: Pid, p: UiProxy, id: nat, x: Request)
    requires Inv(s, {}) && Answering(s, pid, p, id)
    ensures var r := p.requests[id].rid;
            var d := SetRequest(SetProxy(s, pid, OnRequestCompleted(p, r)), r, x);
            r in s.requests && Inv(d, {r}) && CanRetire(d, r)
  {
    var r := p.requests[id].rid;
    var q := OnRequestCompleted(p, r);
    AnsweringDetaches(s, pid, p, id);
    DetachInv(s, pid, q, id);
    assert Ok(Proxies, s, {}) && HeldOk(s, pid, id, {});
    SetRequestInv(SetProxy(s, pid, q), r, x, {r});
    assert Ok(Loose, SetRequest(SetProxy(s, pid, q), r, x), {r});
  }

  lemma SetAgain(s: State, pid: Pid, p: UiProxy, q: UiProxy, r: Rid, x: Request)
    ensures SetProxy(SetRequest(SetProxy(s, pid, p), r, x), pid, q) == SetRequest(SetProxy(s, pid, q), r, x)
  {
    assert s.proxies[pid := p][pid := q] == s.proxies[pid := q];
  }

  lemma AnsweringSlots(s: State, pid: Pid, p: UiProxy, id: nat)
    requires Inv(s, {}) && Answering(s, pid, p, id)
    ensures
      var r := p.requests[id].rid;
      && r < |s.arrivals|
      && Req(s, r).slots == [if s.arrivals[r].routed then DeleteLater else ToManager, ToProxy(pid)]
      && (!s.arrivals[r].routed ==> IsHead(s, r))
      && forall y :: y in s.proxies ==> y < s.nextPid
  {
    assert Ok(Proxies, s, {}) && Ok(Names, s, {}) && HeldOk(s, pid, id, {});
  }

  lemma CompleteIsRetire(world: World, s: State, pid: Pid, p: UiProxy, id: nat, x: Request, answer: Answer)
    requires Inv(s, {}) && Answering(s, pid, p, id)
    requires x.slots == Req(s, p.requests[id].rid).slots
    ensures
      var r := p.requests[id].rid;
      var d := SetRequest(SetProxy(s, pid, OnRequestCompleted(p, r)), r, x);
      && r < |s.arrivals|
      && (!s.arrivals[r].routed ==> Queue(s, Window(s, r)) != [])
      && Answered(world, SetRequest(SetProxy(s, pid, p), r, x), r, answer) ==
         if s.arrivals[r].routed then Retire(d, r, answer)
         else HeadCompleted(world, d.(replies := d.replies + [Reply(r, answer)]), Window(s, r))
  {
    var r := p.requests[id].rid;
    var q := OnRequestCompleted(p, r);
    var start := SetRequest(SetProxy(s, pid, p), r, x);
    AnsweringSlots(s, pid, p, id);
    SetAgain(s, pid, p, q, r, x);
    if s.arrivals[r].routed {
      EmitRouted(world, start, r, answer, pid);
    } else {
      EmitQueued(world, start, r, answer, pid);
    }
  }

  lemma EmitTwo(world: World, s: State, r: Rid, a: Slot, b: Slot)
    ensures Emit(world, s, r, [a, b]) == EmitTo(world, EmitTo(world, s, r, a), r, b)
  {
    var t := EmitTo(world, s, r, a);
    assert [a, b][1..] == [b] && [b][1..] == [];
    assert Emit(world, t, r, [b]) == Emit(world, EmitTo(world, t, r, b), r, []);
  }

  lemma EmitQueued(world: World, s: State, r: Rid, answer: Answer, pid: Pid)
    requires Req(s, r).slots == [ToManager, ToProxy(pid)] && IsHead(s, r)
    requires pid in s.proxies && forall y :: y in s.proxies ==> y < s.nextPid
    ensures Answered(world, s, r, answer) ==
            var d := SetProxy(s, pid, OnRequestCompleted(s.proxies[pid], r));
            HeadCompleted(world, d.(replies := d.replies + [Reply(r, answer)]), Window(s, r))
  {
    var w := Window(s, r);
    var a := s.(replies := s.replies + [Reply(r, answer)]);
    var q := OnRequestCompleted(s.proxies[pid], r);
    var t := HeadCompleted(world, a, w);
    EmitTwo(world, a, r, ToManager, ToProxy(pid));
    HeadCompletedCommutes(world, a, w, pid, s.proxies[pid]);
    assert SetProxy(a, pid, s.proxies[pid]) == a by { assert s.proxies[pid := s.proxies[pid]] == s.proxies; }
    HeadCompletedCommutes(world, a, w, pid, q);
    assert EmitTo(world, a, r, ToManager) == t;
    assert t.proxies[pid] == s.proxies[pid];
    assert EmitTo(world, t, r, ToProxy(pid)) == SetProxy(t, pid, q);
  }

  lemma EmitRouted(world: World, s: State, r: Rid, answer: Answer, pid: Pid)
    requires Req(s, r).slots == [DeleteLater, ToProxy(pid)] && r < |s.arrivals| && s.arrivals[r].routed
    requires pid in s.proxies
    ensures Answered(world, s, r, answer) ==
            Retire(SetProxy(s, pid, OnRequestCompleted(s.proxies[pid], r)), r, answer)
  {
    EmitTwo(world, s.(replies := s.replies + [Reply(r, answer)]), r, DeleteLater, ToProxy(pid));
  }

  // ----- cancellation -----

  /** Proxy `pid` is `q` now, new proxies may have come, and nothing else happened to proxies. */
  ghost predicate OnlyProxy(s: State, t: State, pid: Pid, q: UiProxy) {
    && t.arrivals == s.arrivals && t.dying == s.dying
    && pid in s.proxies && pid in t.proxies && t.proxies[pid] == q
    && (forall x :: x in s.proxies && x != pid ==> x in t.proxies && t.proxies[x] == s.proxies[x])
    && (forall x :: x in t.proxies && x !in s.proxies ==> s.nextPid <= x && t.proxies[x].wire == NO_WIRE)
    && s.nextPid <= t.nextPid
  }

  lemma UndisturbedOnly(s: State, t: State, pid: Pid, q: UiProxy)
    requires pid in s.proxies && Undisturbed(SetProxy(s, pid, q), t)
    ensures OnlyProxy(s, t, pid, q)
  {
    var u := SetProxy(s, pid, q);
    assert u.proxies[pid] == q;
    forall x | x in s.proxies && x != pid ensures x in t.proxies && t.proxies[x] == s.proxies[x] {
      assert u.proxies[x] == s.proxies[x];
    }
  }

  lemma HeldAnswering(s: State, pid: Pid, id: nat)
    requires Inv(s, {}) && pid in s.proxies && id in s.proxies[pid].requests
    ensures
      var p := s.proxies[pid];
      var r := p.requests[id].rid;
      && Answering(s, pid, p, id) && r in s.requests && s.requests[r].inProgress
      && OnRequestCompleted(p, r) == p.(timerActive := true, requests := p.requests - {id})
  {
    var p := s.proxies[pid];
    assert Ok(Proxies, s, {}) && HeldOk(s, pid, id, {}) && OneId(p);
    OnRequestCompletedKeeps(p, id);
  }

  lemma AnswerCanceled(world: World, s: State, pid: Pid, id: nat)
    requires Inv(s, {}) && pid in s.proxies && id in s.proxies[pid].requests
    ensures
      var p := s.proxies[pid];
      var r := p.requests[id].rid;
      var t := Answered(world, s, r, CANCELED);
      && Inv(t, {}) && (Notified(s) ==> Notified(t)) && r in t.deleted && r in t.requests
      && OnlyProxy(s, t, pid, p.(timerActive := true, requests := p.requests - {id}))
      && Req(s, r).inProgress
  {
    var p := s.proxies[pid];
    var r := p.requests[id].rid;
    HeldAnswering(s, pid, id);
    CompleteHeld(world, s, pid, p, id, s.requests[r], CANCELED);
    SetSame(s, pid, r);
    UndisturbedOnly(s, Answered(world, s, r, CANCELED), pid, OnRequestCompleted(p, r));
  }

  lemma SetSame(s: State, pid: Pid, r: Rid)
    requires pid in s.proxies && r in s.requests
    ensures SetRequest(SetProxy(s, pid, s.proxies[pid]), r, s.requests[r]) == s
  {
    assert s.proxies[pid := s.proxies[pid]] == s.proxies && s.requests[r := s.requests[r]] == s.requests;
  }

  /** Cancelling a request that proxy `pid` holds under `id`. */
  lemma CancelHeld(world: World, s: State, pid: Pid, id: nat)
    requires Inv(s, {}) && pid in s.proxies && id in s.proxies[pid].requests
    ensures
      var p := s.proxies[pid];
      var t := RequestSetCanceled(world, s, p.requests[id].rid);
      && Inv(t, {}) && (Notified(s) ==> Notified(t))
      && OnlyProxy(s, t, pid, p.(timerActive := true, requests := p.requests - {id}))
  {
    var r := s.proxies[pid].requests[id].rid;
    var t := Answered(world, s, r, CANCELED);
    AnswerCanceled(world, s, pid, id);
    SetRequestInv(t, r, Req(t, r).(inProgress := false), {});
  }

  lemma {:induction false} PendingListAbove(p: UiProxy, q: UiProxy, from: nat)
    requires p.nextRequestId == q.nextRequestId
    requires forall i: nat :: i >= from ==> (i in p.requests <==> i in q.requests)
    requires forall i: nat :: i >= from && i in p.requests ==> p.requests[i] == q.requests[i]
    ensures PendingList(p, from) == PendingList(q, from)
    decreases p.nextRequestId - from
  {
    if from < p.nextRequestId { PendingListAbove(p, q, from + 1); }
  }

  lemma PendingCons(p: UiProxy, from: nat)
    requires from < p.nextRequestId && from in p.requests
    ensures var q := p.(timerActive := true, requests := p.requests - {from});
            PendingList(p, from) == [p.requests[from].rid] + PendingList(q, from + 1)
  {
    PendingListAbove(p, p.(timerActive := true, requests := p.requests - {from}), from + 1);
  }

  lemma PendingSkip(p: UiProxy, from: nat)
    requires from < p.nextRequestId && from !in p.requests
    ensures PendingList(p, from) == PendingList(p, from + 1)
  {
  }

  lemma CancelAllCons(world: World, s: State, r: Rid, rids: seq<Rid>)
    ensures CancelAll(world, s, [r] + rids) == CancelAll(world, RequestSetCanceled(world, s, r), rids)
  {
    assert ([r] + rids)[1..] == rids;
  }

  /** All requests of proxy `pid` have been cancelled. */
  ghost predicate Emptied(s: State, t: State, pid: Pid) {
    && Inv(t, {}) && (Notified(s) ==> Notified(t))
    && pid in t.proxies && OnlyProxy(s, t, pid, t.proxies[pid]) && t.proxies[pid].requests == map[]
  }

  lemma EmptiedAfter(s: State, u: State, t: State, pid: Pid)
    requires pid in u.proxies && OnlyProxy(s, u, pid, u.proxies[pid])
    requires (Notified(s) ==> Notified(u)) && Emptied(u, t, pid)
    ensures Emptied(s, t, pid)
  {
  }

  lemma NothingPending(s: State, pid: Pid, from: nat)
    requires Inv(s, {}) && pid in s.proxies && from >= s.proxies[pid].nextRequestId
    requires forall i: nat :: i in s.proxies[pid].requests ==> from <= i
    ensures Emptied(s, s, pid)
  {
    assert Ok(Proxies, s, {});
    var p := s.proxies[pid];
    assert Valid(p);
    assert p.requests == map[] by { assert forall i: nat :: i !in p.requests; }
    assert OnlyProxy(s, s, pid, p);
  }

  /** The loop of the destructor: it visits a copy of the map while the map shrinks. */
  lemma {:induction false} CancelAllInv(world: World, s: State, pid: Pid, from: nat, rids: seq<Rid>, t: State)
    requires Inv(s, {}) && pid in s.proxies
    requires forall i: nat :: i in s.proxies[pid].requests ==> from <= i
    requires rids == PendingList(s.proxies[pid], from) && t == CancelAll(world, s, rids)
    ensures Emptied(s, t, pid)
    decreases s.proxies[pid].nextRequestId - from
  {
    var p := s.proxies[pid];
    if from >= p.nextRequestId {
      NothingPending(s, pid, from);
      assert t == s;
    } else if from in p.requests {
      var u, rest := AfterFirst(world, s, pid, from, rids, t);
      CancelAllInv(world, u, pid, from + 1, rest, t);
      EmptiedAfter(s, u, t, pid);
    } else {
      PendingSkip(p, from);
      CancelAllInv(world, s, pid, from + 1, rids, t);
    }
  }

  /** The state after the first of the cancellations that lead from `s` to `t`. */
  lemma AfterFirst(world: World, s: State, pid: Pid, from: nat, rids: seq<Rid>, t: State)
    returns (u: State, rest: seq<Rid>)
    requires Inv(s, {}) && pid in s.proxies && from in s.proxies[pid].requests
    requires from < s.proxies[pid].nextRequestId && forall i: nat :: i in s.proxies[pid].requests ==> from <= i
    requires rids == PendingList(s.proxies[pid], from) && t == CancelAll(world, s, rids)
    ensures Inv(u, {}) && (Notified(s) ==> Notified(u))
    ensures pid in u.proxies && OnlyProxy(s, u, pid, u.proxies[pid])
    ensures u.proxies[pid].nextRequestId == s.proxies[pid].nextRequestId
    ensures forall i: nat :: i in u.proxies[pid].requests ==> from + 1 <= i
    ensures rest == PendingList(u.proxies[pid], from + 1) && t == CancelAll(world, u, rest)
    ensures rids == [s.proxies[pid].requests[from].rid] + rest
    ensures u.replies == RequestSetCanceled(world, s, s.proxies[pid].requests[from].rid).replies
  {
    u := RequestSetCanceled(world, s, s.proxies[pid].requests[from].rid);
    CancelFirst(world, s, pid, from);
    rest := PendingList(u.proxies[pid], from + 1);
  }

  /** Cancelling the pending requests is cancelling the first one and then the others. */
  lemma CancelFirst(world: World, s: State, pid: Pid, from: nat)
    requires Inv(s, {}) && pid in s.proxies && from in s.proxies[pid].requests
    requires from < s.proxies[pid].nextRequestId && forall i: nat :: i in s.proxies[pid].requests ==> from <= i
    ensures
      var p := s.proxies[pid];
      var t := RequestSetCanceled(world, s, p.requests[from].rid);
      && Inv(t, {}) && (Notified(s) ==> Notified(t))
      && OnlyProxy(s, t, pid, p.(timerActive := true, requests := p.requests - {from}))
      && PendingList(p, from) == [p.requests[from].rid] + PendingList(t.proxies[pid], from + 1)
      && CancelAll(world, s, PendingList(p, from)) == CancelAll(world, t, PendingList(t.proxies[pid], from + 1))
  {
    var p := s.proxies[pid];
    CancelHeld(world, s, pid, from);
    PendingCons(p, from);
    var t := RequestSetCanceled(world, s, p.requests[from].rid);
    CancelAllCons(world, s, p.requests[from].rid, PendingList(t.proxies[pid], from + 1));
  }

  /** Every proxy is as it was, or is new and has nothing on its wire. */
  ghost predicate Spared(s: State, t: State) {
    && s.nextPid <= t.nextPid
    && forall x :: x in t.proxies ==>
         if x < s.nextPid then x in s.proxies && t.proxies[x] == s.proxies[x] else t.proxies[x].wire == NO_WIRE
  }

  lemma UndisturbedSpares(s: State, t: State)
    requires Undisturbed(s, t) && forall pid :: pid in s.proxies ==> pid < s.nextPid
    ensures Spared(s, t)
  {
  }

  lemma SparedTrans(s: State, t: State, u: State)
    requires Spared(s, t) && Spared(t, u)
    ensures Spared(s, u)
  {
    forall x | x in u.proxies && x < s.nextPid ensures x in s.proxies && u.proxies[x] == s.proxies[x] {
      assert x < t.nextPid;
    }
    forall x | x in u.proxies && x >= s.nextPid ensures u.proxies[x].wire == NO_WIRE {}
  }

  lemma EmptiedSpares(s: State, t: State, pid: Pid)
    requires Emptied(s, t, pid) && forall x :: x in s.proxies ==> x < s.nextPid
    ensures Spared(s, Drop(t, pid))
    ensures forall x :: x in s.proxies && x != pid ==> x in t.proxies && t.proxies[x] == s.proxies[x]
  {
  }

  /** A proxy that is destroyed takes nothing with it. */
  lemma DestroyInv(world: World, s: State, pid: Pid)
    requires Inv(s, {}) && pid in s.dying
    ensures
      var t := Destroy(world, s, pid);
      && Inv(t, {}) && (Notified(s) ==> Notified(t)) && Spared(s, t)
      && pid !in t.proxies && t.dying == Without(s.dying, pid)
      && (forall x :: x in s.proxies && x != pid ==> x in t.proxies && t.proxies[x] == s.proxies[x])
  {
    assert Ok(Order, s, {});
    assert Ok(Names, s, {});
    var rids := PendingList(s.proxies[pid], 0);
    var t := CancelAll(world, s, rids);
    CancelAllInv(world, s, pid, 0, rids, t);
    EmptiedSpares(s, t, pid);
    DropInv(t, pid);
  }

  lemma {:induction false} DestroyAllInv(world: World, s: State)
    requires Inv(s, {})
    ensures
      var t := DestroyAll(world, s, s.dying);
      && Inv(t, {}) && (Notified(s) ==> Notified(t)) && t.dying == [] && Spared(s, t)
    decreases |s.dying|
  {
    assert Ok(Names, s, {});
    if s.dying != [] {
      var pid := s.dying[0];
      var t := Destroy(world, s, pid);
      DestroyInv(world, s, pid);
      assert t.dying == s.dying[1..];
      DestroyAllInv(world, t);
      SparedTrans(s, t, DestroyAll(world, t, t.dying));
    }
  }

  lemma FlushSettles(world: World, s: State)
    requires Inv(s, {}) && Notified(s)
    ensures Settled(Flush(world, s)) && Spared(s, Flush(world, s))
  {
    DestroyAllInv(world, s);
    PurgeInv(DestroyAll(world, s, s.dying));
  }

  // ----- the events -----

  lemma EnqueueInv(world: World, s: State, params: Params)
    requires Settled(s)
    ensures Inv(Enqueue(world, s, params), {}) && Notified(Enqueue(world, s, params))
  {
    var r := |s.arrivals|;
    match FirstHandler(s, params, 0)
    case Some(pid) => EnqueueRouted(world, s, params, pid);
    case None => EnqueueQueued(world, s, params);
  }

  lemma EnqueueRouted(world: World, s: State, params: Params, pid: Pid)
    requires Settled(s) && FirstHandler(s, params, 0) == Some(pid)
    ensures Inv(Enqueue(world, s, params), {}) && Notified(Enqueue(world, s, params))
  {
    var r := |s.arrivals|;
    var t := ArriveRouted(s, params);
    assert Ok(Flags, s, {});
    GrownInv(s, t, true, params);
    assert Ok(Proxies, s, {}) && Ok(Loose, t, {r});
    var p := s.proxies[pid];
    var pending := Pending(r, params);
    HandleRequestKeeps(world(pid), p, pending);
    var q := HandleRequest(world(pid), p, pending);
    assert CanTakeOver(t, pid, q, r);
    TakeOverInv(t, pid, q, r);
  }

  lemma EnqueueQueued(world: World, s: State, params: Params)
    requires Settled(s) && FirstHandler(s, params, 0) == None
    ensures Inv(Enqueue(world, s, params), {}) && Notified(Enqueue(world, s, params))
  {
    var r, w := |s.arrivals|, params.windowId;
    var t := ArriveQueued(s, params);
    assert Ok(Flags, s, {}) && Ok(Queues, s, {});
    assert w in t.queues;
    GrownInv(s, t, false, params);
    if Queue(s, w) == [] {
      assert Ok(Loose, t, {r});
      RunQueueInv(world, t, w, r);
    } else {
      assert Ok(Queues, t, {}) && QueueOk(t, w, {});
    }
  }

  /** What is in progress is held by a proxy. */
  lemma InProgressIsHeld(s: State, r: Rid)
    requires Settled(s) && r in s.requests && s.requests[r].inProgress
    ensures exists pid, id :: Holds(s, pid, id, r)
  {
    assert Ok(Names, s, {}) && Ok(Alive, s, {}) && Ok(Queues, s, {});
    assert Live(s, r);
    if s.arrivals[r].routed {
      assert Routed(s, r);
    } else {
      var w := s.arrivals[r].params.windowId;
      assert QueueOk(s, w, {});
      var i :| 0 <= i < |s.queues[w]| && s.queues[w][i] == r;
      assert i == 0 && Led(s, r);
    }
  }

  /** What is not in progress waits. */
  lemma IdleIsWaiting(s: State, r: Rid)
    requires Settled(s) && r in s.requests && !s.requests[r].inProgress
    ensures Waiting(s, r)
  {
    assert Ok(Names, s, {}) && Ok(Alive, s, {}) && Ok(Queues, s, {});
    assert Live(s, r);
    if !s.arrivals[r].routed {
      var w := s.arrivals[r].params.windowId;
      assert QueueOk(s, w, {});
      var i :| 0 <= i < |s.queues[w]| && s.queues[w][i] == r;
    } else {
      assert false;
    }
  }

  lemma CancelRequestInv(world: World, s: State, r: Rid)
    requires Settled(s) && r in s.requests
    ensures Inv(RequestSetCanceled(world, s, r), {}) && Notified(RequestSetCanceled(world, s, r))
  {
    if s.requests[r].inProgress {
      InProgressIsHeld(s, r);
      var pid, id :| Holds(s, pid, id, r);
      CancelHeld(world, s, pid, id);
    }
  }

  /** A frame from the UI process finds the request that it answers. */
  ghost predicate Finds(s: State, pid: Pid) {
    && pid in s.proxies && s.proxies[pid].wire.toService != []
    && var f := s.proxies[pid].wire.toService[0];
    f.RegisterHandler? || f.id in s.proxies[pid].requests
  }

  lemma PoppedAnswering(s: State, pid: Pid)
    requires Inv(s, {}) && Finds(s, pid) && !s.proxies[pid].wire.toService[0].RegisterHandler?
    ensures
      var p := s.proxies[pid];
      var id := p.wire.toService[0].id;
      var r := p.requests[id].rid;
      && Answering(s, pid, PopReply(p), id) && Places(PopReply(p).wire, id) == 0
      && r in s.requests && s.requests[r].inProgress
  {
    var p := s.proxies[pid];
    var id := p.wire.toService[0].id;
    assert Ok(Proxies, s, {}) && Valid(p) && OneId(p) && HeldOk(s, pid, id, {});
    PopReplyKeeps(p);
  }

  lemma ReplyInv(world: World, s: State, pid: Pid, x: Request, answer: Answer)
    requires Inv(s, {}) && Notified(s) && Finds(s, pid) && !s.proxies[pid].wire.toService[0].RegisterHandler?
    requires
      var p := s.proxies[pid];
      var r := p.requests[p.wire.toService[0].id].rid;
      x.slots == Req(s, r).slots
    ensures
      var p := s.proxies[pid];
      var r := p.requests[p.wire.toService[0].id].rid;
      var t := Answered(world, SetRequest(SetProxy(s, pid, PopReply(p)), r, x), r, answer);
      Inv(t, {}) && Notified(t) && r in t.deleted && r in t.requests
  {
    var p := s.proxies[pid];
    PoppedAnswering(s, pid);
    CompleteHeld(world, s, pid, PopReply(p), p.wire.toService[0].id, x, answer);
  }

  lemma RegisterInv(s: State, pid: Pid)
    requires Inv(s, {}) && Finds(s, pid) && s.proxies[pid].wire.toService[0].RegisterHandler?
    ensures
      var p := s.proxies[pid];
      Inv(SetProxy(s, pid, PopReply(p).(handlers := p.handlers + [p.wire.toService[0].handlerId])), {})
  {
    var p := s.proxies[pid];
    var q := PopReply(p).(handlers := p.handlers + [p.wire.toService[0].handlerId]);
    assert Ok(Proxies, s, {}) && Valid(p);
    PopReplyKeeps(p);
    RegisterKeeps(PopReply(p), p.wire.toService[0].handlerId);
    SetProxyInv(s, pid, q, {});
  }

  lemma DataReadyInv(world: World, s: State, pid: Pid)
    requires Settled(s) && Finds(s, pid)
    ensures Inv(DataReadyStep(world, s, pid), {}) && Notified(DataReadyStep(world, s, pid))
  {
    var p := s.proxies[pid];
    var f := p.wire.toService[0];
    var popped := SetProxy(s, pid, PopReply(p));
    if f.RegisterHandler? {
      RegisterInv(s, pid);
      var q := PopReply(p).(handlers := p.handlers + [f.handlerId]);
      assert s.proxies[pid := PopReply(p)][pid := q] == s.proxies[pid := q];
    } else {
      var r := p.requests[f.id].rid;
      PoppedAnswering(s, pid);
      assert s.requests[r := s.requests[r]] == s.requests;
      if f.Finished? {
        var x := Req(s, r).(delay := f.delay);
        ReplyInv(world, s, pid, x, Result(f.data));
        var t := Answered(world, SetRequest(popped, r, x), r, Result(f.data));
        SetRequestInv(t, r, Req(t, r).(inProgress := false), {});
      } else {
        ReplyInv(world, s, pid, s.requests[r], Failure(f.name, f.message));
      }
    }
  }

  lemma ConnectInv(s: State, pid: Pid)
    requires Inv(s, {}) && pid in s.proxies
    ensures Inv(SetProxy(s, pid, OnNewConnection(s.proxies[pid])), {})
  {
    var p := s.proxies[pid];
    assert Ok(Proxies, s, {}) && Valid(p);
    if p.listening && p.socket == Closed { ConnectionKeeps(p); ConnectedPlaces(p); }
    SetProxyInv(s, pid, OnNewConnection(p), {});
  }

  lemma UiInv(s: State, pid: Pid, op: UiOp)
    requires Inv(s, {}) && pid in s.proxies && s.proxies[pid].socket == Open
    ensures Inv(SetProxy(s, pid, s.proxies[pid].(wire := UiDo(s.proxies[pid].wire, op))), {})
  {
    var p := s.proxies[pid];
    assert Ok(Proxies, s, {}) && Valid(p);
    UiDoSteps(p, op);
    UiStepKeeps(p, UiDo(p.wire, op));
    SetProxyInv(s, pid, p.(wire := UiDo(p.wire, op)), {});
  }

  lemma DisconnectInv(s: State, pid: Pid)
    requires Inv(s, {}) && pid in s.proxies && s.proxies[pid].socket == Open
    ensures Inv(SetProxy(s, pid, Disconnect(s.proxies[pid])), {})
  {
    assert Ok(Proxies, s, {});
    DisconnectKeeps(s.proxies[pid]);
    SetProxyInv(s, pid, Disconnect(s.proxies[pid]), {});
  }

  lemma TimerInv(s: State, pid: Pid)
    requires Inv(s, {}) && pid in s.proxies
    ensures Inv(SetProxy(s, pid, s.proxies[pid].(timerActive := false)), {})
  {
    assert Ok(Proxies, s, {});
    TimerKeeps(s.proxies[pid], false);
    SetProxyInv(s, pid, s.proxies[pid].(timerActive := false), {});
  }

  lemma ProxyEventInv(world: World, s: State, e: Event)
    requires Settled(s) && !e.Call? && !e.CancelRequest? && !e.DataReady?
    ensures Inv(Handled(world, s, e), {}) && Notified(Handled(world, s, e))
  {
    if e.pid in s.proxies {
      var pid := e.pid;
      var p := s.proxies[pid];
      match e
      case Connect(_) => ConnectInv(s, pid);
      case Ui(_, op) => if p.socket == Open { UiInv(s, pid, op); }
      case Disconnected(_) =>
        if p.socket == Open {
          DisconnectInv(s, pid);
          if !p.timerActive { ProxyFinishedInv(SetProxy(s, pid, Disconnect(p)), pid); }
        }
      case Timeout(_) =>
        if p.timerActive {
          TimerInv(s, pid);
          if p.requests == map[] { ProxyFinishedInv(SetProxy(s, pid, p.(timerActive := false)), pid); }
        }
      case PromptSessionFinished(_) => ProxyFinishedInv(s, pid);
    }
  }

  lemma ConnectedPlaces(p: UiProxy)
    requires Valid(p) && p.listening && p.socket == Closed
    ensures forall i :: Places(OnNewConnection(p).wire, i) > 0 ==> i in p.requests
  {
    ConnectionKeeps(p);
    ConnectionSendsPending(p);
  }

  /** A reply comes in whose request is not there. */
  ghost predicate Late(s: State, e: Event) {
    e.DataReady? && e.pid in s.proxies && s.proxies[e.pid].wire.toService != [] && !Finds(s, e.pid)
  }

  lemma HandledInv(world: World, s: State, e: Event)
    requires Settled(s)
    ensures !Late(s, e) ==> Inv(Handled(world, s, e), {}) && Notified(Handled(world, s, e))
    ensures Late(s, e) ==> Handled(world, s, e) == SetProxy(s, e.pid, PopReply(s.proxies[e.pid])).(aborted := true)
  {
    match e {
      case Call(params) => EnqueueInv(world, s, params);
      case CancelRequest(rid) => if rid in s.requests { CancelRequestInv(world, s, rid); }
      case DataReady(pid) =>
        if pid in s.proxies && s.proxies[pid].wire.toService != [] && Finds(s, pid) { DataReadyInv(world, s, pid); }
      case _ => ProxyEventInv(world, s, e);
    }
  }

  /** Every step from a settled state settles, unless it ends in a failed assertion. */
  lemma StepSettles(world: World, s: State, e: Event)
    requires Settled(s) && !Late(s, e)
    ensures Settled(Step(world, s, e))
  {
    assert Ok(Flags, s, {});
    HandledInv(world, s, e);
    FlushSettles(world, Handled(world, s, e));
  }

  lemma LateAborts(world: World, s: State, e: Event)
    requires Settled(s) && Late(s, e)
    ensures Step(world, s, e) == Handled(world, s, e) && Step(world, s, e).aborted
  {
    assert Ok(Flags, s, {});
    HandledInv(world, s, e);
    assert s.requests - s.deleted == s.requests;
  }

  /** The next frame answers a request that the daemon has cancelled. */
  ghost predicate AnswersCanceled(s: State, pid: Pid)
    requires pid in s.proxies && s.proxies[pid].wire.toService != []
  {
    var p := s.proxies[pid];
    var f := p.wire.toService[0];
    !f.RegisterHandler? && f.id < |p.issued| && WasCanceled(s, p.issued[f.id])
  }

  lemma LateIsCanceled(s: State, e: Event)
    requires Settled(s) && Late(s, e)
    ensures AnswersCanceled(s, e.pid)
  {
    var p := s.proxies[e.pid];
    assert Ok(Proxies, s, {}) && Ok(Flight, s, {}) && Valid(p);
    PopReplyKeeps(p);
  }

  lemma SettledGoesOn(s: State)
    requires Settled(s)
    ensures !s.aborted
  {
    assert Ok(Flags, s, {});
  }

  /** The assertions at ui-proxy.cpp:191 and 195 fail for a reply exactly when the daemon has
      cancelled the request it answers; otherwise the reply finds the very request whose
      parameters produced it. */
  lemma LateReply(world: World, s: State, e: Event)
    requires Settled(s)
    ensures Step(world, s, e).aborted <==>
            (e.DataReady? && e.pid in s.proxies && s.proxies[e.pid].wire.toService != [] &&
             AnswersCanceled(s, e.pid))
    ensures !Step(world, s, e).aborted ==> Settled(Step(world, s, e))
  {
    if Late(s, e) {
      LateIsCanceled(s, e);
      LateAborts(world, s, e);
    } else {
      StepSettles(world, s, e);
      SettledGoesOn(Step(world, s, e));
      if e.DataReady? && e.pid in s.proxies && s.proxies[e.pid].wire.toService != [] { FoundIsNotCanceled(s, e.pid); }
    }
  }

  lemma FoundIsNotCanceled(s: State, pid: Pid)
    requires Settled(s) && Finds(s, pid)
    ensures
      var p := s.proxies[pid];
      var f := p.wire.toService[0];
      !f.RegisterHandler? ==>
        && f.id < |p.issued| && !WasCanceled(s, p.issued[f.id])
        && f.id in p.requests && p.requests[f.id].rid == p.issued[f.id]
        && p.issued[f.id] < |s.arrivals| && s.arrivals[p.issued[f.id]].params == f.about
  {
    var p := s.proxies[pid];
    var f := p.wire.toService[0];
    assert Ok(Proxies, s, {}) && Ok(Replies, s, {}) && Valid(p);
    if !f.RegisterHandler? {
      PopReplyKeeps(p);
      assert HeldOk(s, pid, f.id, {});
    }
  }

  /** A request that comes to an empty queue can be started. */
  lemma ArrivedAlone(s: State, params: Params)
    requires Settled(s) && Queue(s, params.windowId) == []
    ensures Startable(ArriveQueued(s, params), params.windowId, |s.arrivals|)
  {
    var r, t := |s.arrivals|, ArriveQueued(s, params);
    assert Ok(Flags, s, {}) && Ok(Names, s, {});
    GrownInv(s, t, false, params);
    assert Ok(Loose, t, {r});
  }

  lemma EnqueueQueuedSpares(world: World, s: State, params: Params)
    requires Settled(s) && FirstHandler(s, params, 0) == None
    ensures Spared(s, Enqueue(world, s, params))
  {
    var r, w := |s.arrivals|, params.windowId;
    var t := ArriveQueued(s, params);
    assert Ok(Names, s, {}) && w in t.queues;
    if Queue(s, w) == [] {
      ArrivedAlone(s, params);
      RunQueueInv(world, t, w, r);
      UndisturbedSpares(t, RunQueue(world, t, w));
    } else {
      assert Ok(Queues, s, {}) && QueueOk(s, w, {});
    }
  }
}
