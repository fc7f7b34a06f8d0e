/** What becomes of requests and proxies, said of the events of a run: what a client is told, which
    proxy a request is routed to, and how a proxy leaves. */
module Outcomes {
  import opened Options
  import opened Proxy
  import opened Daemon
  import opened Invariant
  import opened Steps
  import opened Runs
  import opened Growth

  // ----- what a client is told -----

  /** The frame that event `n` brings from the UI process of proxy `pid`. */
  ghost predicate Brings(s: State, e: Event, pid: Pid, f: ToService) {
    && e == DataReady(pid) && pid in s.proxies
    && s.proxies[pid].wire.toService != [] && s.proxies[pid].wire.toService[0] == f
  }

  /** What a frame says, as it is to be said to the client. */
  function Said(f: ToService): Answer
    requires !f.RegisterHandler?
  {
    match f
    case Finished(_, data, _, _) => Result(data)
    case Failed(_, name, message, _) => Failure(name, message)
  }

  /** The first new reply is `reply`, all others come from the daemon itself. */
  ghost predicate TellsFirst(s: State, t: State, reply: Reply) {
    && s.replies + [reply] <= t.replies
    && forall i :: |s.replies| < i < |t.replies| ==> FromDaemon(t.replies[i].answer)
  }

  lemma ExtendsTells(world: World, s: State, t: State, r: Rid, answer: Answer)
    requires Extends(world, s.(replies := s.replies + [Reply(r, answer)]), t)
    ensures TellsFirst(s, t, Reply(r, answer)) && SameHandlers(s, t) && Grows(s, t) && SameSockets(world, s, t)
  {
  }

  lemma FinishedTells(world: World, s: State, pid: Pid, f: ToService)
    requires Settled(s) && Brings(s, DataReady(pid), pid, f) && f.Finished? && f.id in s.proxies[pid].requests
    ensures var t := DataReadyStep(world, s, pid);
            && TellsFirst(s, t, Reply(s.proxies[pid].requests[f.id].rid, Result(f.data)))
            && SameHandlers(s, t) && Grows(s, t) && SameSockets(world, s, t)
  {
    var r := s.proxies[pid].requests[f.id].rid;
    var popped := SetProxy(s, pid, PopReply(s.proxies[pid]));
    PoppedAnswering(s, pid);
    var asked := SetRequest(popped, r, Req(popped, r).(delay := f.delay));
    AnsweredExtends(world, asked, r, Result(f.data));
    ExtendsTells(world, asked, Answered(world, asked, r, Result(f.data)), r, Result(f.data));
  }

  lemma FailedTells(world: World, s: State, pid: Pid, f: ToService)
    requires Settled(s) && Brings(s, DataReady(pid), pid, f) && f.Failed? && f.id in s.proxies[pid].requests
    ensures var t := DataReadyStep(world, s, pid);
            && TellsFirst(s, t, Reply(s.proxies[pid].requests[f.id].rid, Failure(f.name, f.message)))
            && SameHandlers(s, t) && Grows(s, t) && SameSockets(world, s, t)
  {
    var r := s.proxies[pid].requests[f.id].rid;
    var popped := SetProxy(s, pid, PopReply(s.proxies[pid]));
    AnsweredExtends(world, popped, r, Failure(f.name, f.message));
    ExtendsTells(world, popped, Answered(world, popped, r, Failure(f.name, f.message)), r, Failure(f.name, f.message));
  }

  lemma DataReadyTells(world: World, s: State, pid: Pid, f: ToService)
    requires Settled(s) && Brings(s, DataReady(pid), pid, f) && !f.RegisterHandler? && f.id in s.proxies[pid].requests
    ensures var t := DataReadyStep(world, s, pid);
            && TellsFirst(s, t, Reply(s.proxies[pid].requests[f.id].rid, Said(f)))
            && SameHandlers(s, t) && Grows(s, t) && SameSockets(world, s, t)
  {
    if f.Finished? { FinishedTells(world, s, pid, f); } else { FailedTells(world, s, pid, f); }
  }

  lemma TellsOn(world: World, s: State, t: State, u: State, reply: Reply)
    requires TellsFirst(s, t, reply) && Extends(world, t, u)
    ensures TellsFirst(s, u, reply)
  {
    forall i | |s.replies| < i < |u.replies| ensures FromDaemon(u.replies[i].answer) {
      if i < |t.replies| { assert u.replies[i] == t.replies[i]; }
    }
    assert u.replies[..|s.replies| + 1] == t.replies[..|s.replies| + 1];
  }

  lemma NotAborted(run: Run, n: nat)
    requires Reaches(run, n)
    ensures Settled(run.states[n]) && !run.states[n].aborted
    ensures n < |run.events| ==>
              run.states[n + 1] == Flush(run.world, Handled(run.world, run.states[n], run.events[n]))
  {
    RunSettled(run, n);
    if n < |run.events| { assert Follows(run, n); }
  }

  /** When the UI process answers a request and no assertion fails, the client of that request is
      told what the frame says; nobody else is told anything but the daemon's own failures. */
  lemma ClientIsTold(run: Run, n: nat, pid: Pid, f: ToService)
    requires Reaches(run, n) && n < |run.events| && Brings(run.states[n], run.events[n], pid, f) && !f.RegisterHandler?
    requires !run.states[n + 1].aborted
    ensures
      var s, t := run.states[n], run.states[n + 1];
      && f.id in s.proxies[pid].requests && |s.replies| < |t.replies| && s.replies <= t.replies
      && t.replies[|s.replies|] == Reply(s.proxies[pid].requests[f.id].rid,
                                         if f.Finished? then Result(f.data) else Failure(f.name, f.message))
      && forall i :: |s.replies| < i < |t.replies| ==> FromDaemon(t.replies[i].answer)
  {
    var s, e := run.states[n], run.events[n];
    NotAborted(run, n);
    if Late(s, e) {
      assert Follows(run, n);
      LateAborts(run.world, s, e);
    }
    var h := DataReadyStep(run.world, s, pid);
    DataReadyTells(run.world, s, pid, f);
    FlushExtends(run.world, h);
    TellsOn(run.world, s, h, run.states[n + 1], Reply(s.proxies[pid].requests[f.id].rid, Said(f)));
  }

  /** A client that cancels its request, which is in progress, is told so. */
  lemma CancelIsTold(run: Run, n: nat, r: Rid)
    requires Reaches(run, n) && n < |run.events| && run.events[n] == CancelRequest(r)
    requires r in run.states[n].requests && run.states[n].requests[r].inProgress
    ensures
      var s, t := run.states[n], run.states[n + 1];
      && |s.replies| < |t.replies| && s.replies <= t.replies
      && t.replies[|s.replies|] == Reply(r, Failure("com.ubuntu.OnlineAccountsUi.UserCanceled", "Canceled"))
      && forall i :: |s.replies| < i < |t.replies| ==> FromDaemon(t.replies[i].answer)
  {
    var s := run.states[n];
    var h := RequestSetCanceled(run.world, s, r);
    NotAborted(run, n);
    CanceledExtends(run.world, s, r);
    ExtendsTells(run.world, s, h, r, CANCELED);
    FlushExtends(run.world, h);
    TellsOn(run.world, s, h, run.states[n + 1], Reply(r, CANCELED));
  }

  /** Event `n` answers a request with what the UI process said, as reply number `i`. */
  ghost predicate SaidBy(run: Run, m: nat, i: nat, reply: Reply, pid: Pid, f: ToService)
    requires m < |run.events| && |run.states| == |run.events| + 1
  {
    var s := run.states[m];
    && Brings(s, run.events[m], pid, f) && !f.RegisterHandler? && f.id in s.proxies[pid].requests
    && |s.replies| == i && reply == Reply(s.proxies[pid].requests[f.id].rid, Said(f))
  }

  lemma ProxyEventTells(world: World, s: State, e: Event)
    requires !e.Call? && !e.CancelRequest? && !e.DataReady?
    ensures Tells(s, Handled(world, s, e))
  {
  }

  lemma HandledTells(world: World, s: State, e: Event)
    requires Settled(s)
    requires forall pid, f :: Brings(s, e, pid, f) && !f.RegisterHandler? ==> f.id !in s.proxies[pid].requests
    ensures Tells(s, Handled(world, s, e))
  {
    match e
    case Call(params) => EnqueueExtends(world, s, params);
    case CancelRequest(r) => if r in s.requests { CanceledExtends(world, s, r); }
    case DataReady(pid) =>
      if pid in s.proxies && s.proxies[pid].wire.toService != [] {
        assert Brings(s, e, pid, s.proxies[pid].wire.toService[0]);
      }
    case _ => ProxyEventTells(world, s, e);
  }

  lemma TellsTrans(s: State, t: State, u: State)
    requires Tells(s, t) && Tells(t, u)
    ensures Tells(s, u)
  {
    forall i | |s.replies| <= i < |u.replies| ensures FromDaemon(u.replies[i].answer) {
      if i < |t.replies| { assert u.replies[i] == t.replies[i]; }
    }
  }

  /** Every reply that is ever sent is either a failure that the daemon gives itself, or says what a
      frame said that came from the UI process for that very request. */
  lemma {:induction false} RepliesSayWhatCame(run: Run, n: nat, i: nat)
    requires Reaches(run, n) && i < |run.states[n].replies|
    ensures
      var reply := run.states[n].replies[i];
      FromDaemon(reply.answer) || exists m, pid, f :: 0 <= m < n && SaidBy(run, m, i, reply, pid, f)
  {
    if n > 0 {
      var s, t, e := run.states[n - 1], run.states[n], run.events[n - 1];
      ReachesBefore(run, n - 1, n);
      NotAborted(run, n - 1);
      var h := Handled(run.world, s, e);
      FlushExtends(run.world, h);
      if pid, f :| Brings(s, e, pid, f) && !f.RegisterHandler? {
        ClientIsTold(run, n - 1, pid, f);
        if i == |s.replies| { assert SaidBy(run, n - 1, i, t.replies[i], pid, f); }
      } else {
        HandledTells(run.world, s, e);
        TellsTrans(s, h, t);
      }
      if i < |s.replies| {
        RepliesSayWhatCame(run, n - 1, i);
        assert t.replies[i] == s.replies[i];
      }
    }
  }

  // ----- from the user to the client -----

  /** What an operation of the UI process answers a request with. */
  function AnswerOf(op: UiOp): Option<Answer> {
    match op
    case SetResult(_, data) => Some(Result(data))
    case Fail(_, name, message) => if name != "" then Some(Failure(name, message)) else None
    case Cancel(_) => Some(Failure("com.ubuntu.OnlineAccountsUi.UserCanceled", "Canceled"))
    case _ => None
  }

  function FrameOf(op: UiOp, id: nat, r: UiRequest): ToService {
    match op
    case SetResult(_, data) => Finished(id, data, r.delay, r.params)
    case Fail(_, name, message) => Failed(id, name, message, r.params)
    case _ => Failed(id, ERROR_USER_CANCELED, "Canceled", r.params)
  }

  lemma UiAnswers(p: UiProxy, op: UiOp, id: nat)
    requires Valid(p) && LiveInUi(p.wire, id) && AnswerOf(op).Some? && op.id == id
    ensures
      var f := FrameOf(op, id, p.wire.ui[id]);
      && AnswersWith(p.wire, UiDo(p.wire, op), id, f) && Answers(f, id) && Said(f) == AnswerOf(op).value
      && f.about == p.wire.ui[id].params && AtEnd(UiDo(p.wire, op), id, [f]) && id in p.sent
  {
    var w, v, f := p.wire, UiDo(p.wire, op), FrameOf(op, id, p.wire.ui[id]);
    match op {
      case SetResult(_, data) => UiSetResultSteps(w, id, data);
      case Fail(_, name, message) => UiFailSteps(w, id, name, message);
      case Cancel(_) => UiSetCanceledSteps(w, id);
    }
    assert Places(w, id) <= 1;
    NotInReplies(w.toService, id);
    forall g | g in v.toService && Answers(g, id) ensures g in [f] {}
  }

  lemma UiStepAnswers(run: Run, m: nat, pid: Pid, op: UiOp, id: nat)
    requires Reaches(run, m) && m < |run.events| && run.events[m] == Ui(pid, op) && pid in run.states[m].proxies
    requires AnswerOf(op).Some? && op.id == id && LiveInUi(run.states[m].proxies[pid].wire, id)
    ensures UsedUp(run.states[m + 1], pid, id, [FrameOf(op, id, run.states[m].proxies[pid].wire.ui[id])])
  {
    var s := run.states[m];
    var p := s.proxies[pid];
    NotAborted(run, m);
    assert Ok(Proxies, s, {}) && Ok(Names, s, {}) && Valid(p);
    UiAnswers(p, op, id);
    var t := SetProxy(s, pid, p.(wire := UiDo(p.wire, op)));
    assert Handled(run.world, s, run.events[m]) == t;
    Untouched(run.world, t);
  }

  /** Between the answer of the user and its arrival, whatever happened. */
  lemma AnswerArrives(run: Run, m: nat, n: nat, pid: Pid, op: UiOp, id: nat, f: ToService)
    requires m < n && Reaches(run, n) && BringsReply(run, n, pid, id)
    requires run.events[m] == Ui(pid, op) && pid in run.states[m].proxies
    requires AnswerOf(op).Some? && op.id == id && LiveInUi(run.states[m].proxies[pid].wire, id)
    requires f == FrameOf(op, id, run.states[m].proxies[pid].wire.ui[id])
    ensures Brings(run.states[n], run.events[n], pid, f) && Answers(f, id) && Said(f) == AnswerOf(op).value
    ensures f.about == run.states[m].proxies[pid].wire.ui[id].params
  {
    var before := run.states[m];
    ReachesBefore(run, m, n);
    UiStepAnswers(run, m, pid, op, id);
    NeverAgain(run, m + 1, n, pid, id, [f]);
    NotAborted(run, m);
    assert Ok(Proxies, before, {});
    UiAnswers(before.proxies[pid], op, id);
    assert run.states[n].proxies[pid].wire.toService[0] in [f];
  }

  /** What the user answers is what the client is told: when the answer that the UI process gave to
      a live request comes in, whatever happened in between, the client of the request whose
      parameters were shown gets this answer. */
  lemma UserIsHeard(run: Run, m: nat, n: nat, pid: Pid, op: UiOp, id: nat)
    requires m < n && Reaches(run, n) && BringsReply(run, n, pid, id) && !run.states[n + 1].aborted
    requires run.events[m] == Ui(pid, op) && pid in run.states[m].proxies
    requires AnswerOf(op).Some? && op.id == id && LiveInUi(run.states[m].proxies[pid].wire, id)
    ensures
      var s, t := run.states[n], run.states[n + 1];
      id in s.proxies[pid].requests &&
      var r := s.proxies[pid].requests[id].rid;
      && r < |s.arrivals| && s.arrivals[r].params == run.states[m].proxies[pid].wire.ui[id].params
      && |s.replies| < |t.replies| && t.replies[|s.replies|] == Reply(r, AnswerOf(op).value)
  {
    var f := FrameOf(op, id, run.states[m].proxies[pid].wire.ui[id]);
    AnswerArrives(run, m, n, pid, op, id, f);
    ClientIsTold(run, n, pid, f);
    NotAborted(run, n);
    FoundIsNotCanceled(run.states[n], pid);
  }

  // ----- which proxy a request is routed to -----

  /** The handlers that the UI process of proxy `pid` has registered before event `n`, in order. */
  ghost function RegisteredBy(run: Run, n: nat, pid: Pid): seq<string>
    requires IsRun(run) && n < |run.states|
  {
    if n == 0 then [] else RegisteredBy(run, n - 1, pid) + Registers(run.states[n - 1], run.events[n - 1], pid)
  }

  function Registers(s: State, e: Event, pid: Pid): seq<string> {
    if e == DataReady(pid) && pid in s.proxies && s.proxies[pid].wire.toService != []
       && s.proxies[pid].wire.toService[0].RegisterHandler?
    then [s.proxies[pid].wire.toService[0].handlerId] else []
  }

  /** Each proxy has the handlers that its UI process has registered; a new one has none. */
  ghost predicate HandlersAfter(s: State, e: Event, t: State) {
    forall pid :: pid in t.proxies ==>
      || (pid in s.proxies && t.proxies[pid].handlers == s.proxies[pid].handlers + Registers(s, e, pid))
      || (pid >= s.nextPid && pid !in s.proxies && t.proxies[pid].handlers == [])
  }

  lemma SameIsAfter(s: State, e: Event, t: State)
    requires SameHandlers(s, t) && forall pid :: Registers(s, e, pid) == []
    requires forall pid :: pid in s.proxies ==> pid < s.nextPid
    ensures HandlersAfter(s, e, t)
  {
    forall pid | pid in t.proxies && pid in s.proxies
      ensures t.proxies[pid].handlers == s.proxies[pid].handlers + Registers(s, e, pid)
    {
      assert s.proxies[pid].handlers + [] == s.proxies[pid].handlers;
    }
  }

  lemma AfterOn(s: State, e: Event, t: State, u: State)
    requires HandlersAfter(s, e, t) && SameHandlers(t, u) && s.nextPid <= t.nextPid
    requires forall pid :: pid in s.proxies ==> pid < s.nextPid
    ensures HandlersAfter(s, e, u)
  {
  }

  lemma {:induction false} SendingKeepsHandlers(p: UiProxy, from: nat)
    ensures SendPending(p, from).handlers == p.handlers
    decreases p.nextRequestId - from
  {
    if from < p.nextRequestId {
      SendingKeepsHandlers(if from in p.requests then SendRequest(p, from, p.requests[from].params) else p, from + 1);
    }
  }

  lemma ConnectKeepsHandlers(p: UiProxy)
    ensures OnNewConnection(p).handlers == p.handlers
  {
    SendingKeepsHandlers(p.(socket := Open, listening := false, status := Ready), 0);
  }

  lemma TouchKeepsHandlers(s: State, pid: Pid, p: UiProxy, t: State)
    requires pid in s.proxies && p.handlers == s.proxies[pid].handlers
    requires t.proxies == s.proxies[pid := p] || t.proxies == s.proxies
    ensures SameHandlers(s, t)
  {
  }

  lemma FinishingTouches(world: World, s: State, e: Event) returns (p: UiProxy)
    requires (e.Disconnected? || e.Timeout? || e.PromptSessionFinished?) && e.pid in s.proxies
    ensures
      var t := Handled(world, s, e);
      && p.handlers == s.proxies[e.pid].handlers && (t.proxies == s.proxies[e.pid := p] || t.proxies == s.proxies)
      && t.nextPid == s.nextPid
  {
    var before := s.proxies[e.pid];
    p := if e.Disconnected? then Disconnect(before) else before.(timerActive := false);
  }

  lemma TalkingTouches(world: World, s: State, e: Event) returns (p: UiProxy)
    requires (e.Connect? || e.Ui?) && e.pid in s.proxies
    ensures
      var t := Handled(world, s, e);
      && p.handlers == s.proxies[e.pid].handlers && (t.proxies == s.proxies[e.pid := p] || t.proxies == s.proxies)
      && t.nextPid == s.nextPid
  {
    var before := s.proxies[e.pid];
    ConnectKeepsHandlers(before);
    p := if e.Connect? then OnNewConnection(before) else before.(wire := UiDo(before.wire, e.op));
  }

  lemma ProxyEventKeepsHandlers(world: World, s: State, e: Event)
    requires !e.Call? && !e.CancelRequest? && !e.DataReady?
    ensures SameHandlers(s, Handled(world, s, e)) && Handled(world, s, e).nextPid == s.nextPid
  {
    if e.pid in s.proxies {
      var p: UiProxy;
      if e.Connect? || e.Ui? { p := TalkingTouches(world, s, e); } else { p := FinishingTouches(world, s, e); }
      TouchKeepsHandlers(s, e.pid, p, Handled(world, s, e));
    }
  }

  lemma DataReadyHandlers(world: World, s: State, pid: Pid)
    requires Settled(s) && Finds(s, pid)
    ensures var t := DataReadyStep(world, s, pid); HandlersAfter(s, DataReady(pid), t) && s.nextPid <= t.nextPid
  {
    var f := s.proxies[pid].wire.toService[0];
    assert Ok(Names, s, {});
    if f.RegisterHandler? {
      forall x | x in s.proxies ensures s.proxies[x].handlers + [] == s.proxies[x].handlers {}
    } else {
      DataReadyTells(world, s, pid, f);
      SameIsAfter(s, DataReady(pid), DataReadyStep(world, s, pid));
    }
  }

  lemma HandledHandlers(world: World, s: State, e: Event)
    requires Settled(s) && !Late(s, e)
    ensures HandlersAfter(s, e, Handled(world, s, e)) && s.nextPid <= Handled(world, s, e).nextPid
  {
    assert Ok(Names, s, {});
    if e.DataReady? && e.pid in s.proxies && s.proxies[e.pid].wire.toService != [] {
      DataReadyHandlers(world, s, e.pid);
    } else {
      match e {
        case Call(params) => EnqueueExtends(world, s, params);
        case CancelRequest(r) => CanceledExtends(world, s, r);
        case DataReady(pid) =>
        case _ => ProxyEventKeepsHandlers(world, s, e);
      }
      SameIsAfter(s, e, Handled(world, s, e));
    }
  }

  lemma {:induction false} NotYetRegistered(run: Run, n: nat, pid: Pid)
    requires Reaches(run, n) && pid >= run.states[n].nextPid
    ensures RegisteredBy(run, n, pid) == []
  {
    if n > 0 {
      var s, e := run.states[n - 1], run.events[n - 1];
      ReachesBefore(run, n - 1, n);
      NotAborted(run, n - 1);
      NextPidGrows(run, n - 1);
      assert Ok(Names, s, {});
      NotYetRegistered(run, n - 1, pid);
    }
  }

  lemma NextPidGrows(run: Run, n: nat)
    requires Reaches(run, n) && n < |run.events| && !run.states[n + 1].aborted
    ensures run.states[n].nextPid <= run.states[n + 1].nextPid
    ensures HandlersAfter(run.states[n], run.events[n], run.states[n + 1])
  {
    var s, e := run.states[n], run.events[n];
    NotAborted(run, n);
    assert Follows(run, n);
    if Late(s, e) { LateAborts(run.world, s, e); }
    assert Ok(Names, s, {});
    HandledHandlers(run.world, s, e);
    FlushExtends(run.world, Handled(run.world, s, e));
    AfterOn(s, e, Handled(run.world, s, e), run.states[n + 1]);
  }

  lemma {:induction false} HandlersAreRegistered(run: Run, n: nat, pid: Pid)
    requires Reaches(run, n) && pid in run.states[n].proxies
    ensures run.states[n].proxies[pid].handlers == RegisteredBy(run, n, pid)
  {
    if n > 0 {
      var s := run.states[n - 1];
      ReachesBefore(run, n - 1, n);
      NextPidGrows(run, n - 1);
      if pid in s.proxies {
        HandlersAreRegistered(run, n - 1, pid);
        assert Ok(Names, s, {}) by { NotAborted(run, n - 1); }
      } else {
        NotYetRegistered(run, n - 1, pid);
      }
    }
  }

  /** Event `m` brought the registration of handler `h` by the UI process of proxy `pid`. */
  ghost predicate BroughtHandler(run: Run, m: nat, pid: Pid, h: string) {
    m < |run.events| && m < |run.states| && Brings(run.states[m], run.events[m], pid, RegisterHandler(h))
  }

  lemma {:induction false} RegisteredExactly(run: Run, n: nat, pid: Pid, h: string)
    requires IsRun(run) && n < |run.states|
    ensures h in RegisteredBy(run, n, pid) <==> exists m :: 0 <= m < n && BroughtHandler(run, m, pid, h)
  {
    if n > 0 {
      RegisteredExactly(run, n - 1, pid, h);
      if h in Registers(run.states[n - 1], run.events[n - 1], pid) { assert BroughtHandler(run, n - 1, pid, h); }
      if m :| 0 <= m < n && BroughtHandler(run, m, pid, h) {
        if m == n - 1 { assert h in Registers(run.states[m], run.events[m], pid); }
      }
    }
  }

  /** The UI process of proxy `pid` has asked, before event `n`, for the requests that name the
      handler which these parameters name. */
  ghost predicate Wants(run: Run, n: nat, pid: Pid, params: Params) {
    && params.clientData.Some? && "X-RequestHandler" in params.clientData.value
    && params.clientData.value["X-RequestHandler"] != ""
    && exists m :: 0 <= m < n && BroughtHandler(run, m, pid, params.clientData.value["X-RequestHandler"])
  }

  lemma HandlerExactly(run: Run, n: nat, pid: Pid, params: Params)
    requires Reaches(run, n) && pid in run.states[n].proxies
    ensures HasHandlerFor(run.states[n].proxies[pid], params) <==> Wants(run, n, pid, params)
  {
    HandlersAreRegistered(run, n, pid);
    if params.clientData.Some? && "X-RequestHandler" in params.clientData.value {
      RegisteredExactly(run, n, pid, params.clientData.value["X-RequestHandler"]);
    }
  }

  /** Proxy `pid` is the first in the manager's list that wants the request. */
  ghost predicate FirstWants(run: Run, n: nat, pid: Pid, params: Params)
    requires n < |run.states|
  {
    var order := run.states[n].order;
    exists i :: 0 <= i < |order| && order[i] == pid && Wants(run, n, pid, params) && NoneWantsBefore(run, n, i, params)
  }

  ghost predicate NoneWantsBefore(run: Run, n: nat, i: nat, params: Params)
    requires n < |run.states|
  {
    forall j :: 0 <= j < i && j < |run.states[n].order| ==> !Wants(run, n, run.states[n].order[j], params)
  }

  lemma FirstHandlerWants(run: Run, n: nat, params: Params)
    requires Reaches(run, n)
    ensures
      match FirstHandler(run.states[n], params, 0)
      case Some(pid) => FirstWants(run, n, pid, params)
      case None => NoneWantsBefore(run, n, |run.states[n].order|, params)
  {
    var s := run.states[n];
    NotAborted(run, n);
    assert Ok(Order, s, {});
    FirstHandlerIsFirst(s, params, 0);
    forall pid | pid in s.proxies { HandlerExactly(run, n, pid, params); }
    match FirstHandler(s, params, 0)
    case Some(pid) =>
      var i :| 0 <= i < |s.order| && s.order[i] == pid
               && forall j :: 0 <= j < i && s.order[j] in s.proxies ==> !HasHandlerFor(s.proxies[s.order[j]], params);
      assert NoneWantsBefore(run, n, i, params);
    case None =>
  }

  lemma RoutedGoes(world: World, s: State, params: Params, pid: Pid)
    requires Settled(s) && FirstHandler(s, params, 0) == Some(pid)
    ensures
      var t, r := Flush(world, Enqueue(world, s, params)), |s.arrivals|;
      && t.arrivals == s.arrivals + [Arrival(params, true)] && t.queues == s.queues
      && Holds(t, pid, s.proxies[pid].nextRequestId, r)
  {
    var t := Enqueue(world, s, params);
    HandleKeepsIt(world(pid), s.proxies[pid], Pending(|s.arrivals|, params));
    Untouched(world, t);
  }

  lemma HandleKeepsIt(outcome: Outcome, p: UiProxy, pending: Pending)
    ensures var q := HandleRequest(outcome, p, pending);
            p.nextRequestId in q.requests && q.requests[p.nextRequestId] == pending
  {
  }

  lemma QueuedBehind(world: World, s: State, params: Params)
    requires Settled(s) && FirstHandler(s, params, 0) == None && Queue(s, params.windowId) != []
    ensures Flush(world, Enqueue(world, s, params)) == ArriveQueued(s, params)
  {
    var t := ArriveQueued(s, params);
    var w := params.windowId;
    assert Ok(Queues, s, {}) && Ok(Names, s, {}) && QueueOk(s, w, {});
    assert t.queues[w][0] == s.queues[w][0];
    Untouched(world, t);
  }

  lemma AloneFails(s: State, params: Params, t: State)
    requires FailedThenStarted(ArriveQueued(s, params), t, params.windowId, [|s.arrivals|], 1)
    requires Queue(s, params.windowId) == []
    ensures t.queues == s.queues - {params.windowId} && t.replies == s.replies + [Reply(|s.arrivals|, NO_PROMPT)]
  {
    var r := |s.arrivals|;
    assert ArriveQueued(s, params).queues - {params.windowId} == s.queues - {params.windowId};
    assert [r][..1] == [r] && [r][1..] == [] && PromptFailures([]) == [];
    assert PromptFailures([r]) == [Reply(r, NO_PROMPT)];
  }

  lemma AloneStarts(s: State, params: Params, t: State)
    requires FailedThenStarted(ArriveQueued(s, params), t, params.windowId, [|s.arrivals|], 0)
    requires Queue(s, params.windowId) == []
    ensures t.queues == s.queues[params.windowId := [|s.arrivals|]] && t.replies == s.replies
    ensures Holds(t, s.nextPid, 0, |s.arrivals|)
  {
    var r := |s.arrivals|;
    assert [r][..0] == [] && [r][0..] == [r];
  }

  lemma QueuedAlone(world: World, s: State, params: Params)
    requires Settled(s) && FirstHandler(s, params, 0) == None && Queue(s, params.windowId) == []
    ensures
      var t, r := Flush(world, Enqueue(world, s, params)), |s.arrivals|;
      && t.arrivals == s.arrivals + [Arrival(params, false)]
      && if world(s.nextPid).InitFails?
         then t.queues == s.queues - {params.windowId} && t.replies == s.replies + [Reply(r, NO_PROMPT)]
         else t.queues == s.queues[params.windowId := [r]] && t.replies == s.replies && Holds(t, s.nextPid, 0, r)
  {
    var a, w, r := ArriveQueued(s, params), params.windowId, |s.arrivals|;
    var t := RunQueue(world, a, w);
    ArrivedAlone(s, params);
    RunQueueEffect(world, a, w);
    RunQueueInv(world, a, w, r);
    FlushKeeps(world, t);
    assert Queue(a, w) == [r] && Failures(world, s.nextPid, 1) == if world(s.nextPid).InitFails? then 1 else 0;
    if world(s.nextPid).InitFails? { AloneFails(s, params, t); } else { AloneStarts(s, params, t); }
  }

  lemma FlushKeeps(world: World, s: State)
    requires s.dying == []
    ensures var t := Flush(world, s);
            t.queues == s.queues && t.arrivals == s.arrivals && t.replies == s.replies && t.proxies == s.proxies
  {
  }

  lemma FirstIsUnique(run: Run, n: nat, params: Params, pid: Pid, x: Pid)
    requires n < |run.states| && FirstWants(run, n, pid, params) && FirstWants(run, n, x, params)
    ensures pid == x
  {
    var order := run.states[n].order;
    var i :| 0 <= i < |order| && order[i] == pid && NoneWantsBefore(run, n, i, params);
    var j :| 0 <= j < |order| && order[j] == x && NoneWantsBefore(run, n, j, params);
  }

  lemma NoneIsFirst(run: Run, n: nat, params: Params, pid: Pid)
    requires n < |run.states| && NoneWantsBefore(run, n, |run.states[n].order|, params)
    ensures !FirstWants(run, n, pid, params)
  {
  }

  /** A call is routed to a proxy if and only if the UI process of that proxy has registered the
      handler that the client data names, and no proxy before it in the list has; then it is in no
      queue. A call for which there is none, for instance because it names none, is queued for its
      window, and answered at once if it is alone there and its proxy cannot be initialised. */
  lemma Routing(run: Run, n: nat, params: Params)
    requires Reaches(run, n) && n < |run.events| && run.events[n] == Call(params)
    ensures
      var s, t := run.states[n], run.states[n + 1];
      t.arrivals == s.arrivals + [Arrival(params, exists pid :: FirstWants(run, n, pid, params))]
    ensures
      var s, t := run.states[n], run.states[n + 1];
      forall pid :: FirstWants(run, n, pid, params) ==>
        pid in s.proxies && Holds(t, pid, s.proxies[pid].nextRequestId, |s.arrivals|) && t.queues == s.queues
    ensures
      var s, t, w, r := run.states[n], run.states[n + 1], params.windowId, |run.states[n].arrivals|;
      (forall pid :: !FirstWants(run, n, pid, params)) ==>
        if Queue(s, w) == [] && run.world(s.nextPid).InitFails?
        then Queue(t, w) == [] && t.replies == s.replies + [Reply(r, NO_PROMPT)]
        else Queue(t, w) == Queue(s, w) + [r] && t.replies == s.replies
  {
    var s := run.states[n];
    NotAborted(run, n);
    FirstHandlerWants(run, n, params);
    match FirstHandler(s, params, 0)
    case Some(pid) =>
      RoutedGoes(run.world, s, params, pid);
      forall x | FirstWants(run, n, x, params) ensures x == pid { FirstIsUnique(run, n, params, pid, x); }
    case None =>
      forall x ensures !FirstWants(run, n, x, params) { NoneIsFirst(run, n, params, x); }
      if Queue(s, params.windowId) == [] {
        QueuedAlone(run.world, s, params);
      } else {
        QueuedBehind(run.world, s, params);
      }
  }

  // ----- how a proxy leaves -----

  /** The slot that the event is delivered to finishes the proxy. */
  ghost predicate Finishes(s: State, e: Event, pid: Pid) {
    && pid in s.proxies
    && var p := s.proxies[pid];
    || e == PromptSessionFinished(pid)
    || (e == Disconnected(pid) && p.socket == Open && !p.timerActive)
    || (e == Timeout(pid) && p.timerActive && p.requests == map[])
  }

  lemma AtClosing(world: World, s: State, x: Pid)
    ensures var t := Handled(world, s, Disconnected(x));
            && t.nextPid == s.nextPid
            && t.order == if Finishes(s, Disconnected(x), x) then Without(s.order, x) else s.order
  {
  }

  lemma AtTimeout(world: World, s: State, x: Pid)
    ensures var t := Handled(world, s, Timeout(x));
            && t.nextPid == s.nextPid
            && t.order == if Finishes(s, Timeout(x), x) then Without(s.order, x) else s.order
  {
  }

  lemma AtProxyEvent(world: World, s: State, e: Event)
    requires e.Disconnected? || e.Timeout? || e.PromptSessionFinished?
    ensures var t := Handled(world, s, e);
            && t.nextPid == s.nextPid
            && t.order == if Finishes(s, e, e.pid) then Without(s.order, e.pid) else s.order
  {
    match e
    case Disconnected(x) => AtClosing(world, s, x);
    case Timeout(x) => AtTimeout(world, s, x);
    case PromptSessionFinished(x) =>
  }

  lemma HandledGrows(world: World, s: State, e: Event)
    requires Settled(s) && !e.Disconnected? && !e.Timeout? && !e.PromptSessionFinished?
    ensures Grows(s, Handled(world, s, e))
  {
    match e
    case Call(params) => EnqueueExtends(world, s, params);
    case CancelRequest(r) => CanceledExtends(world, s, r);
    case DataReady(pid) => DataReadyGrows(world, s, pid);
    case _ =>
  }

  lemma DataReadyGrows(world: World, s: State, pid: Pid)
    requires Settled(s)
    ensures Grows(s, Handled(world, s, DataReady(pid)))
  {
    if Finds(s, pid) && !s.proxies[pid].wire.toService[0].RegisterHandler? {
      DataReadyTells(world, s, pid, s.proxies[pid].wire.toService[0]);
    }
  }

  lemma GrowsKeeps(s: State, t: State, pid: Pid)
    requires Grows(s, t) && pid < s.nextPid
    ensures pid in t.order <==> pid in s.order
  {
    if pid in s.order {
      var i :| 0 <= i < |s.order| && s.order[i] == pid;
      assert t.order[i] == pid;
    }
    if pid in t.order {
      var i :| 0 <= i < |t.order| && t.order[i] == pid;
      assert s.order[i] == pid;
    }
  }

  lemma HandledFinishes(world: World, s: State, e: Event, pid: Pid)
    requires Settled(s) && pid in s.order && pid in s.proxies && pid < s.nextPid
    requires forall i, j :: 0 <= i < j < |s.order| ==> s.order[i] != s.order[j]
    ensures var t := Handled(world, s, e);
            (pid in t.order <==> !Finishes(s, e, pid)) && s.nextPid <= t.nextPid
  {
    if e.Disconnected? || e.Timeout? || e.PromptSessionFinished? {
      AtProxyEvent(world, s, e);
      WithoutOne(s.order, e.pid);
    } else {
      HandledGrows(world, s, e);
      GrowsKeeps(s, Handled(world, s, e), pid);
    }
  }

  /** In every run a proxy leaves the manager's list exactly when its prompt session ends, when its
      connection is closed while no delay timer runs, or when the timer fires and it has no pending
      requests; it is deleted in the same step, and not before. */
  lemma ProxyLeaves(run: Run, n: nat, pid: Pid)
    requires Reaches(run, n) && n < |run.events| && pid in run.states[n].proxies
    ensures pid !in run.states[n + 1].order <==> Finishes(run.states[n], run.events[n], pid)
    ensures !run.states[n + 1].aborted ==> (pid in run.states[n + 1].proxies <==> pid in run.states[n + 1].order)
  {
    var s, e := run.states[n], run.events[n];
    NotAborted(run, n);
    assert Ok(Order, s, {}) && Ok(Names, s, {});
    HandledFinishes(run.world, s, e, pid);
    FlushExtends(run.world, Handled(run.world, s, e));
    GrowsKeeps(Handled(run.world, s, e), run.states[n + 1], pid);
    if !run.states[n + 1].aborted {
      NotAborted(run, n + 1);
      assert Ok(Order, run.states[n + 1], {});
    }
  }

  /** With requests pending the delay timer does not finish it, and nothing else but the two. */
  lemma PendingProxyLeaves(run: Run, n: nat, pid: Pid)
    requires Reaches(run, n) && n < |run.events| && pid in run.states[n].proxies
    requires run.states[n].proxies[pid].requests != map[]
    ensures
      var e, p := run.events[n], run.states[n].proxies[pid];
      pid !in run.states[n + 1].order <==>
      e == PromptSessionFinished(pid) || (e == Disconnected(pid) && p.socket == Open && !p.timerActive)
  {
    ProxyLeaves(run, n, pid);
  }

  // ----- how far a proxy has come -----

  ghost predicate AllStarted(world: World, s: State) {
    forall pid :: pid in s.proxies ==> IsStarted(world(pid), s.proxies[pid])
  }

  lemma StartedOn(world: World, s: State, t: State)
    requires AllStarted(world, s) && SameSockets(world, s, t)
    ensures AllStarted(world, t)
  {
  }

  lemma TouchedStarted(world: World, s: State, pid: Pid, p: UiProxy, t: State)
    requires AllStarted(world, s) && IsStarted(world(pid), p)
    requires t.proxies == s.proxies[pid := p] || t.proxies == s.proxies
    ensures AllStarted(world, t)
  {
  }

  lemma {:induction false} SendingKeepsSocket(p: UiProxy, from: nat)
    ensures SameSocket(p, SendPending(p, from))
    decreases p.nextRequestId - from
  {
    if from < p.nextRequestId {
      SendingKeepsSocket(if from in p.requests then SendRequest(p, from, p.requests[from].params) else p, from + 1);
    }
  }

  lemma ConnectionStarts(outcome: Outcome, p: UiProxy)
    requires IsStarted(outcome, p)
    ensures IsStarted(outcome, OnNewConnection(p)) && (OnNewConnection(p).socket == Open <== p.listening)
  {
    SendingKeepsSocket(p.(socket := Open, listening := false, status := Ready), 0);
  }

  lemma DisconnectedStarted(world: World, s: State, pid: Pid)
    requires AllStarted(world, s) && pid in s.proxies
    ensures AllStarted(world, Handled(world, s, Disconnected(pid)))
  {
    if s.proxies[pid].socket == Open {
      TouchedStarted(world, s, pid, Disconnect(s.proxies[pid]), Handled(world, s, Disconnected(pid)));
    }
  }

  lemma TimeoutStarted(world: World, s: State, pid: Pid)
    requires AllStarted(world, s) && pid in s.proxies
    ensures AllStarted(world, Handled(world, s, Timeout(pid)))
  {
    if s.proxies[pid].timerActive {
      TouchedStarted(world, s, pid, s.proxies[pid].(timerActive := false), Handled(world, s, Timeout(pid)));
    }
  }

  lemma DataReadyStarted(world: World, s: State, pid: Pid)
    requires Settled(s) && Finds(s, pid) && AllStarted(world, s)
    ensures AllStarted(world, DataReadyStep(world, s, pid))
  {
    var f := s.proxies[pid].wire.toService[0];
    if !f.RegisterHandler? {
      DataReadyTells(world, s, pid, f);
      StartedOn(world, s, DataReadyStep(world, s, pid));
    }
  }

  lemma HandledStarted(world: World, s: State, e: Event)
    requires Settled(s) && AllStarted(world, s) && !Late(s, e)
    ensures AllStarted(world, Handled(world, s, e))
  {
    match e
    case Call(params) => EnqueueExtends(world, s, params); StartedOn(world, s, Enqueue(world, s, params));
    case CancelRequest(r) => CanceledExtends(world, s, r); StartedOn(world, s, RequestSetCanceled(world, s, r));
    case DataReady(pid) =>
      if pid in s.proxies && s.proxies[pid].wire.toService != [] { DataReadyStarted(world, s, pid); }
    case Connect(pid) =>
      if pid in s.proxies {
        ConnectionStarts(world(pid), s.proxies[pid]);
        TouchedStarted(world, s, pid, OnNewConnection(s.proxies[pid]), Handled(world, s, e));
      }
    case Ui(pid, op) =>
      if pid in s.proxies {
        TouchedStarted(world, s, pid, s.proxies[pid].(wire := UiDo(s.proxies[pid].wire, op)), Handled(world, s, e));
      }
    case Disconnected(pid) => if pid in s.proxies { DisconnectedStarted(world, s, pid); }
    case Timeout(pid) => if pid in s.proxies { TimeoutStarted(world, s, pid); }
    case PromptSessionFinished(_) =>
  }

  /** In every run each proxy is connected, or it waits for its UI process to connect, or that cannot
      happen any more because there is no socket; and it knows if the process was started. */
  lemma {:induction false} ProxiesAreStarted(run: Run, n: nat)
    requires Reaches(run, n)
    ensures forall pid :: pid in run.states[n].proxies ==> IsStarted(run.world(pid), run.states[n].proxies[pid])
  {
    if n > 0 {
      var s, e := run.states[n - 1], run.events[n - 1];
      ReachesBefore(run, n - 1, n);
      ProxiesAreStarted(run, n - 1);
      NotAborted(run, n - 1);
      assert Follows(run, n - 1);
      if Late(s, e) { LateAborts(run.world, s, e); }
      HandledStarted(run.world, s, e);
      FlushExtends(run.world, Handled(run.world, s, e));
      StartedOn(run.world, Handled(run.world, s, e), run.states[n]);
    }
  }
}
