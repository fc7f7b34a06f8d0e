/** The two ends of one connection and the two channels between them: the proxy that the daemon keeps
    (online-accounts-service/ui-proxy.cpp), the server in the UI process (online-accounts-ui/ui-server.cpp). */
module Proxy {
  import opened Options

  const ERROR_USER_CANCELED := "com.ubuntu.OnlineAccountsUi.UserCanceled"

  const REQUEST_MATCH_KEY := "X-RequestHandler"

  /** What a client sends: the window it asks for, the client data it passes, all the rest. */
  datatype Params = Params(windowId: nat, clientData: Option<map<string, string>>, other: string)

  function MatchId(params: Params): string {
    match params.clientData
    case None => ""
    case Some(data) => if REQUEST_MATCH_KEY in data then data[REQUEST_MATCH_KEY] else ""
  }

  /** A daemon-side request is known by its arrival number. */
  type Rid = nat

  // ----- the UI process -----

  datatype UiRequest = UiRequest(params: Params, inProgress: bool, connected: bool,
                                 errorName: string, errorMessage: string, result: string, delay: int)

  datatype ToUi = Process(id: nat, params: Params)

  /** `about` is not on the wire: it names the parameters of the request that is answered. */
  datatype ToService =
    | Finished(id: nat, data: string, delay: int, about: Params)
    | Failed(id: nat, name: string, message: string, about: Params)
    | RegisterHandler(handlerId: string)

  /** The channel to the UI process, the requests there, the channel back. */
  datatype Wire = Wire(toUi: seq<ToUi>, ui: map<nat, UiRequest>, toService: seq<ToService>)

  const NO_WIRE := Wire([], map[], [])

  /** UiServerPrivate::onDataReady: build a request, connect to it, start it. */
  function UiReceive(w: Wire): Wire {
    if w.toUi == [] then w
    else w.(toUi := w.toUi[1..],
            ui := w.ui[w.toUi[0].id := UiRequest(w.toUi[0].params, true, true, "", "", "", 0)])
  }

  /** UiServerPrivate::onRequestCompleted, when it is still connected to the request. */
  function UiCompleted(w: Wire, id: nat): Wire
    requires id in w.ui
  {
    var r := w.ui[id];
    if !r.connected then w
    else
      w.(ui := w.ui[id := r.(connected := false)],
         toService := w.toService + [if r.errorName == "" then Finished(id, r.result, r.delay, r.params)
                                     else Failed(id, r.errorName, r.errorMessage, r.params)])
  }

  function UiIdle(w: Wire, id: nat): Wire
    requires id in w.ui
  {
    w.(ui := w.ui[id := w.ui[id].(inProgress := false)])
  }

  function UiSetResult(w: Wire, id: nat, data: string): Wire {
    if id !in w.ui || !w.ui[id].inProgress then w
    else UiIdle(UiCompleted(w.(ui := w.ui[id := w.ui[id].(result := data)]), id), id)
  }

  function UiFail(w: Wire, id: nat, name: string, message: string): Wire {
    if id !in w.ui then w
    else UiCompleted(w.(ui := w.ui[id := w.ui[id].(errorName := name, errorMessage := message)]), id)
  }

  function UiSetCanceled(w: Wire, id: nat): Wire {
    if id !in w.ui || !w.ui[id].inProgress then w
    else UiIdle(UiFail(w, id, ERROR_USER_CANCELED, "Canceled"), id)
  }

  function UiSetDelay(w: Wire, id: nat, delay: int): Wire {
    if id !in w.ui then w else w.(ui := w.ui[id := w.ui[id].(delay := delay)])
  }

  function UiRegister(w: Wire, handlerId: string): Wire {
    w.(toService := w.toService + [RegisterHandler(handlerId)])
  }

  // ----- where an id is -----

  function InProcess(frames: seq<ToUi>, id: nat): nat {
    if frames == [] then 0
    else (if frames[0].id == id then 1 else 0) + InProcess(frames[1..], id)
  }

  predicate Answers(f: ToService, id: nat) {
    !f.RegisterHandler? && f.id == id
  }

  function InReplies(frames: seq<ToService>, id: nat): nat {
    if frames == [] then 0
    else (if Answers(frames[0], id) then 1 else 0) + InReplies(frames[1..], id)
  }

  predicate LiveInUi(w: Wire, id: nat) {
    id in w.ui && w.ui[id].connected
  }

  /** In how many places of the wire an id is: in frames to the UI process, alive there, in
      frames that answer it. */
  function Places(w: Wire, id: nat): nat {
    InProcess(w.toUi, id) + (if LiveInUi(w, id) then 1 else 0) + InReplies(w.toService, id)
  }

  // ----- the proxy -----

  datatype Status = Null | Loading | Ready | Error

  datatype Socket = Closed | Open | Dead

  /** What the world answers when a proxy is started. */
  datatype Outcome = InitFails | SocketFails | ProcessFails | Starts

  datatype Pending = Pending(rid: Rid, params: Params)

  /** `issued` and `sent` record the past: the request that got each id, and the ids sent. */
  datatype UiProxy = UiProxy(status: Status, listening: bool, socket: Socket, nextRequestId: nat,
                             requests: map<nat, Pending>, handlers: seq<string>, timerActive: bool,
                             wire: Wire, issued: seq<Rid>, sent: seq<nat>)

  const NEW_PROXY := UiProxy(Null, false, Closed, 0, map[], [], false, NO_WIRE, [], [])

  function SendRequest(p: UiProxy, id: nat, params: Params): UiProxy {
    p.(sent := p.sent + [id],
       wire := if p.socket == Open then p.wire.(toUi := p.wire.toUi + [Process(id, params)]) else p.wire)
  }

  function StartProcess(outcome: Outcome, p: UiProxy): UiProxy {
    match outcome
    case Starts => p.(status := Loading, listening := true)
    case ProcessFails => p.(status := Error, listening := true)
    case _ => p.(status := Error)
  }

  function HandleRequest(outcome: Outcome, p: UiProxy, pending: Pending): UiProxy {
    var id := p.nextRequestId;
    var q := p.(nextRequestId := id + 1, issued := p.issued + [pending.rid], requests := p.requests[id := pending]);
    if q.status == Ready then SendRequest(q, id, pending.params)
    else if q.status == Null then StartProcess(outcome, q)
    else q
  }

  predicate HasHandlerFor(p: UiProxy, params: Params) {
    MatchId(params) != "" && MatchId(params) in p.handlers
  }

  /** The loop over the pending requests, in the order of their ids. */
  function SendPending(p: UiProxy, from: nat): UiProxy
    decreases p.nextRequestId - from
  {
    if from >= p.nextRequestId then p
    else SendPending(if from in p.requests then SendRequest(p, from, p.requests[from].params) else p, from + 1)
  }

  function OnNewConnection(p: UiProxy): UiProxy {
    if !p.listening || p.socket != Closed then p
    else SendPending(p.(socket := Open, listening := false, status := Ready), 0)
  }

  /** QMap::key(request, -1) */
  function KeyOf(requests: map<nat, Pending>, rid: Rid, from: nat, bound: nat): (k: int)
    ensures k != -1 ==> from <= k < bound && k in requests && requests[k].rid == rid
    ensures k == -1 ==> forall i: nat :: from <= i < bound && i in requests ==> requests[i].rid != rid
    decreases bound - from
  {
    if from >= bound then -1
    else if from in requests && requests[from].rid == rid then from
    else KeyOf(requests, rid, from + 1, bound)
  }

  function OnRequestCompleted(p: UiProxy, rid: Rid): UiProxy {
    var k := KeyOf(p.requests, rid, 0, p.nextRequestId);
    p.(timerActive := true, requests := if k != -1 then p.requests - {k} else p.requests)
  }

  /** The pending requests in the order of their ids, as Q_FOREACH visits them. */
  function PendingList(p: UiProxy, from: nat): seq<Rid>
    decreases p.nextRequestId - from
  {
    if from >= p.nextRequestId then []
    else (if from in p.requests then [p.requests[from].rid] else []) + PendingList(p, from + 1)
  }

  // ----- what every step keeps -----

  ghost predicate Increasing(s: seq<nat>) {
    forall i, j :: 0 <= i < j < |s| ==> s[i] < s[j]
  }

  /** Everything on the wire that concerns a pending request carries its parameters. */
  ghost predicate Faithful(p: UiProxy, id: nat) {
    id in p.requests ==>
      && (forall f :: f in p.wire.toUi && f.id == id ==> f.params == p.requests[id].params)
      && (LiveInUi(p.wire, id) ==> p.wire.ui[id].params == p.requests[id].params)
      && (forall f :: f in p.wire.toService && Answers(f, id) ==> f.about == p.requests[id].params)
  }

  /** A request that is alive in the UI process is in progress there, and nothing has failed it. */
  ghost predicate UiFresh(w: Wire) {
    forall id :: LiveInUi(w, id) ==> w.ui[id].inProgress && w.ui[id].errorName == ""
  }

  ghost predicate Valid(p: UiProxy) {
    ValidBut(p, -1)
  }

  /** `Valid`, except that request `x` may just have been answered. */
  ghost predicate ValidBut(p: UiProxy, x: int) {
    && p.nextRequestId == |p.issued|
    && (forall id :: id in p.requests ==> id < p.nextRequestId && p.requests[id].rid == p.issued[id])
    && (p.status == Ready <==> p.socket != Closed)
    && Increasing(p.sent)
    && (forall i :: 0 <= i < |p.sent| ==> p.sent[i] < p.nextRequestId)
    && (p.socket == Closed ==> p.sent == [])
    && (p.socket != Closed ==> !p.listening && forall id :: id in p.requests ==> id in p.sent)
    && (p.socket != Open ==> p.wire == NO_WIRE)
    && (forall id :: Places(p.wire, id) <= 1)
    && (forall id :: Places(p.wire, id) > 0 ==> id in p.sent)
    && (p.socket == Open ==> forall id :: id in p.requests && id != x ==> Places(p.wire, id) == 1)
    && (forall id :: Faithful(p, id))
    && UiFresh(p.wire)
  }

  lemma {:induction false} ProcessAppend(frames: seq<ToUi>, f: ToUi, id: nat)
    ensures InProcess(frames + [f], id) == InProcess(frames, id) + if f.id == id then 1 else 0
  {
    if frames != [] {
      assert (frames + [f])[1..] == frames[1..] + [f];
      ProcessAppend(frames[1..], f, id);
    }
  }

  lemma {:induction false} RepliesAppend(frames: seq<ToService>, f: ToService, id: nat)
    ensures InReplies(frames + [f], id) == InReplies(frames, id) + if Answers(f, id) then 1 else 0
  {
    if frames != [] {
      assert (frames + [f])[1..] == frames[1..] + [f];
      RepliesAppend(frames[1..], f, id);
    }
  }

  lemma {:induction false} NotInProcess(frames: seq<ToUi>, id: nat)
    requires InProcess(frames, id) == 0
    ensures forall f :: f in frames ==> f.id != id
  {
    if frames != [] {
      assert frames == [frames[0]] + frames[1..];
      NotInProcess(frames[1..], id);
    }
  }

  lemma {:induction false} NotInReplies(frames: seq<ToService>, id: nat)
    requires InReplies(frames, id) == 0
    ensures forall f :: f in frames ==> !Answers(f, id)
  {
    if frames != [] {
      assert frames == [frames[0]] + frames[1..];
      NotInReplies(frames[1..], id);
    }
  }

  lemma Nowhere(w: Wire, id: nat)
    requires Places(w, id) == 0
    ensures forall f :: f in w.toUi ==> f.id != id
    ensures !LiveInUi(w, id)
    ensures forall f :: f in w.toService ==> !Answers(f, id)
  {
    NotInProcess(w.toUi, id);
    NotInReplies(w.toService, id);
  }

  // ----- the daemon's end -----

  /** `Valid`, in the middle of sending: all below `from` has been sent, nothing above. */
  ghost predicate Sending(p: UiProxy, from: nat) {
    && p.nextRequestId == |p.issued|
    && (forall id :: id in p.requests ==> id < p.nextRequestId && p.requests[id].rid == p.issued[id])
    && p.status == Ready && p.socket == Open && !p.listening
    && Increasing(p.sent)
    && (forall i :: 0 <= i < |p.sent| ==> p.sent[i] < from)
    && (forall id :: id in p.requests && id < from ==> id in p.sent && Places(p.wire, id) == 1)
    && (forall id :: Places(p.wire, id) <= 1)
    && (forall id :: Places(p.wire, id) > 0 ==> id in p.sent)
    && (forall id :: Faithful(p, id))
    && UiFresh(p.wire)
  }

  lemma SendOne(p: UiProxy, id: nat)
    requires Sending(p, id) && id in p.requests
    ensures Sending(SendRequest(p, id, p.requests[id].params), id + 1)
  {
    var params := p.requests[id].params;
    var q := SendRequest(p, id, params);
    var f := Process(id, params);
    assert id !in p.sent;
    Nowhere(p.wire, id);
    forall i ensures Places(q.wire, i) == Places(p.wire, i) + if i == id then 1 else 0 {
      ProcessAppend(p.wire.toUi, f, i);
    }
    forall i ensures Faithful(q, i) {
      assert Faithful(p, i);
    }
    assert q.sent[|p.sent|] == id;
    forall i | i in p.sent ensures i in q.sent {}
  }

  lemma {:induction false} SendPendingKeeps(p: UiProxy, from: nat)
    requires Sending(p, from) && from <= p.nextRequestId
    ensures Sending(SendPending(p, from), p.nextRequestId)
    ensures var q := SendPending(p, from);
            q == p.(sent := q.sent, wire := q.wire)
    decreases p.nextRequestId - from
  {
    if from < p.nextRequestId {
      if from in p.requests { SendOne(p, from); }
      var q := if from in p.requests then SendRequest(p, from, p.requests[from].params) else p;
      SendPendingKeeps(q, from + 1);
    }
  }

  /** The ids that are pending, in order. */
  function PendingIds(p: UiProxy, from: nat): seq<nat>
    decreases p.nextRequestId - from
  {
    if from >= p.nextRequestId then []
    else (if from in p.requests then [from] else []) + PendingIds(p, from + 1)
  }

  /** One frame for each of them. */
  function PendingFrames(p: UiProxy, from: nat): seq<ToUi>
    decreases p.nextRequestId - from
  {
    if from >= p.nextRequestId then []
    else (if from in p.requests then [Process(from, p.requests[from].params)] else []) + PendingFrames(p, from + 1)
  }

  lemma {:induction false} PendingOnlyRequests(p: UiProxy, q: UiProxy, from: nat)
    requires p.nextRequestId == q.nextRequestId && p.requests == q.requests
    ensures PendingIds(p, from) == PendingIds(q, from) && PendingFrames(p, from) == PendingFrames(q, from)
    decreases p.nextRequestId - from
  {
    if from < p.nextRequestId { PendingOnlyRequests(p, q, from + 1); }
  }

  lemma {:induction false} FramesOfIds(p: UiProxy, from: nat)
    ensures
      var ids, frames := PendingIds(p, from), PendingFrames(p, from);
      && |frames| == |ids|
      && forall i :: 0 <= i < |ids| ==> ids[i] in p.requests && frames[i] == Process(ids[i], p.requests[ids[i]].params)
    decreases p.nextRequestId - from
  {
    if from < p.nextRequestId { FramesOfIds(p, from + 1); }
  }

  lemma Insert<T>(a: seq<T>, b: seq<T>, c: seq<T>)
    ensures (a + b) + c == a + (b + c)
  {
  }

  /** One frame for each pending request, in the order of the ids. */
  lemma {:induction false} SendPendingSendsAll(p: UiProxy, from: nat)
    requires p.socket == Open
    ensures SendPending(p, from).sent == p.sent + PendingIds(p, from)
    ensures SendPending(p, from).wire.toUi == p.wire.toUi + PendingFrames(p, from)
    decreases p.nextRequestId - from
  {
    if from < p.nextRequestId {
      if from in p.requests {
        var q := SendRequest(p, from, p.requests[from].params);
        SendPendingSendsAll(q, from + 1);
        PendingOnlyRequests(p, q, from + 1);
        Insert(p.sent, [from], PendingIds(p, from + 1));
        Insert(p.wire.toUi, [Process(from, p.requests[from].params)], PendingFrames(p, from + 1));
      } else {
        SendPendingSendsAll(p, from + 1);
        assert [] + PendingIds(p, from + 1) == PendingIds(p, from + 1);
        assert [] + PendingFrames(p, from + 1) == PendingFrames(p, from + 1);
      }
    }
  }

  lemma SendingDone(p: UiProxy)
    requires Sending(p, p.nextRequestId)
    ensures Valid(p)
  {
  }

  lemma ConnectionKeeps(p: UiProxy)
    requires Valid(p) && p.listening && p.socket == Closed
    ensures var q := OnNewConnection(p);
            && Valid(q)
            && q == p.(socket := Open, listening := false, status := Ready, sent := q.sent, wire := q.wire)
  {
    var start := p.(socket := Open, listening := false, status := Ready);
    forall id ensures Faithful(start, id) {
      assert Places(p.wire, id) == 0;
    }
    SendPendingKeeps(start, 0);
    SendingDone(OnNewConnection(p));
  }

  /** On connection everything pending is sent, and nothing else, in the order of the ids. */
  lemma ConnectionSendsPending(p: UiProxy)
    requires Valid(p) && p.listening && p.socket == Closed
    ensures var q := OnNewConnection(p);
            && q.sent == PendingIds(p, 0)
            && |q.wire.toUi| == |q.sent|
            && forall i :: 0 <= i < |q.sent| ==>
                 q.sent[i] in p.requests && q.wire.toUi[i] == Process(q.sent[i], p.requests[q.sent[i]].params)
  {
    var start := p.(socket := Open, listening := false, status := Ready);
    SendPendingSendsAll(start, 0);
    PendingOnlyRequests(p, start, 0);
    FramesOfIds(p, 0);
  }

  /** The first half of handleRequest: number the request and keep it. */
  function Enrol(p: UiProxy, pending: Pending): UiProxy {
    p.(nextRequestId := p.nextRequestId + 1, issued := p.issued + [pending.rid],
       requests := p.requests[p.nextRequestId := pending])
  }

  lemma EnrolKeeps(p: UiProxy, pending: Pending)
    requires Valid(p)
    ensures p.socket == Open ==> Sending(Enrol(p, pending), p.nextRequestId)
    ensures p.socket == Closed ==> Valid(Enrol(p, pending))
  {
    var id, q := p.nextRequestId, Enrol(p, pending);
    assert Places(p.wire, id) == 0 by { assert id !in p.sent; }
    Nowhere(p.wire, id);
    forall i ensures Faithful(q, i) {
      assert Faithful(p, i);
    }
  }

  lemma StatusOnly(p: UiProxy, status: Status, listening: bool)
    requires Valid(p) && p.socket == Closed && status != Ready
    ensures Valid(p.(status := status, listening := listening))
  {
    var q := p.(status := status, listening := listening);
    forall i ensures Faithful(q, i) { assert Faithful(p, i); }
  }

  lemma HandleRequestValid(outcome: Outcome, p: UiProxy, pending: Pending)
    requires Valid(p)
    ensures Valid(HandleRequest(outcome, p, pending))
  {
    var r, q := Enrol(p, pending), HandleRequest(outcome, p, pending);
    if p.socket == Dead {
      HandleDead(outcome, p, pending);
    } else {
      EnrolKeeps(p, pending);
      if p.socket == Open {
        SendOne(r, p.nextRequestId);
        SendingDone(q);
      } else {
        StatusOnly(r, q.status, q.listening);
      }
    }
  }

  /** A request gets the next id, and is put on the wire at once if there is one. */
  lemma HandleRequestKeeps(outcome: Outcome, p: UiProxy, pending: Pending)
    requires Valid(p)
    ensures var q := HandleRequest(outcome, p, pending);
            && Valid(q)
            && q.requests == p.requests[p.nextRequestId := pending]
            && q.issued == p.issued + [pending.rid]
            && q.nextRequestId == p.nextRequestId + 1
            && forall id ::
                 Places(q.wire, id) == Places(p.wire, id) + if id == p.nextRequestId && p.socket == Open then 1 else 0
  {
    HandleRequestValid(outcome, p, pending);
    forall i {
      ProcessAppend(p.wire.toUi, Process(p.nextRequestId, pending.params), i);
    }
  }

  lemma HandleDead(outcome: Outcome, p: UiProxy, pending: Pending)
    requires Valid(p) && p.socket == Dead
    ensures Valid(HandleRequest(outcome, p, pending))
  {
    var id, q := p.nextRequestId, HandleRequest(outcome, p, pending);
    assert q.sent == p.sent + [id];
    assert q.sent[|p.sent|] == id;
    forall i | i in p.sent ensures i in q.sent {}
    forall i ensures Faithful(q, i) {}
  }

  lemma OnRequestCompletedKeeps(p: UiProxy, id: nat)
    requires ValidBut(p, id) && id in p.requests
    requires forall i :: i in p.requests && p.requests[i].rid == p.requests[id].rid ==> i == id
    ensures var q := OnRequestCompleted(p, p.requests[id].rid);
            && q == p.(timerActive := true, requests := p.requests - {id})
            && Valid(q)
  {
    var q := OnRequestCompleted(p, p.requests[id].rid);
    forall i ensures Faithful(q, i) {
      assert Faithful(p, i);
    }
  }

  /** The frame that is handed to onDataReady has left the wire. */
  function PopReply(p: UiProxy): UiProxy
    requires p.wire.toService != []
  {
    p.(wire := p.wire.(toService := p.wire.toService[1..]))
  }

  lemma PopReplyKeeps(p: UiProxy)
    requires Valid(p) && p.wire.toService != []
    ensures var f, q := p.wire.toService[0], PopReply(p);
            && (forall id :: Places(q.wire, id) == Places(p.wire, id) - if Answers(f, id) then 1 else 0)
            && (f.RegisterHandler? ==> Valid(q))
            && (!f.RegisterHandler? ==>
                  ValidBut(q, f.id) && Places(p.wire, f.id) == 1 && Places(q.wire, f.id) == 0
                  && (f.id in p.requests ==> f.about == p.requests[f.id].params)
                  && (f.id !in p.requests ==> Valid(q)))
  {
    var f, q := p.wire.toService[0], PopReply(p);
    if !f.RegisterHandler? { assert Places(p.wire, f.id) <= 1 && Faithful(p, f.id); }
    forall id ensures Faithful(q, id) {
      assert Faithful(p, id);
    }
  }

  lemma RegisterKeeps(p: UiProxy, handlerId: string)
    requires Valid(p)
    ensures Valid(p.(handlers := p.handlers + [handlerId]))
  {
    forall id ensures Faithful(p.(handlers := p.handlers + [handlerId]), id) { assert Faithful(p, id); }
  }

  lemma TimerKeeps(p: UiProxy, active: bool)
    requires Valid(p)
    ensures Valid(p.(timerActive := active))
  {
    forall id ensures Faithful(p.(timerActive := active), id) { assert Faithful(p, id); }
  }

  function Disconnect(p: UiProxy): UiProxy {
    p.(socket := Dead, wire := NO_WIRE)
  }

  lemma DisconnectKeeps(p: UiProxy)
    requires Valid(p) && p.socket == Open
    ensures Valid(Disconnect(p))
  {
    forall id ensures Faithful(Disconnect(p), id) {}
  }

  // ----- the UI's end -----

  /** A step of the UI process: nothing but the wire changes, and no id changes its count. */
  ghost predicate UiStep(w: Wire, v: Wire) {
    && (UiFresh(w) ==> UiFresh(v))
    && (forall id :: Places(v, id) == Places(w, id))
    && (forall f :: f in v.toUi ==> f in w.toUi)
    && (forall id :: LiveInUi(v, id) ==>
          (LiveInUi(w, id) && v.ui[id].params == w.ui[id].params) || Process(id, v.ui[id].params) in w.toUi)
    && (forall f :: f in v.toService && !f.RegisterHandler? ==>
          f in w.toService || (LiveInUi(w, f.id) && f.about == w.ui[f.id].params) || Process(f.id, f.about) in w.toUi)
  }

  lemma UiStepKeeps(p: UiProxy, v: Wire)
    requires Valid(p) && p.socket == Open && UiStep(p.wire, v)
    ensures Valid(p.(wire := v))
  {
    var q := p.(wire := v);
    forall id ensures Faithful(q, id) {
      assert Faithful(p, id);
    }
  }

  lemma UiReceiveSteps(p: UiProxy)
    requires Valid(p)
    ensures UiStep(p.wire, UiReceive(p.wire))
  {
    var w, v := p.wire, UiReceive(p.wire);
    if w.toUi != [] {
      var f := w.toUi[0];
      forall id ensures Places(v, id) == Places(w, id) {
        assert Places(w, f.id) <= 1;
      }
    }
  }

  /** The request leaves the live ones for one answer frame, which says how it ended; completing
      it once more changes nothing. */
  lemma UiCompletedSteps(w: Wire, id: nat)
    requires id in w.ui
    ensures UiStep(w, UiCompleted(w, id))
    ensures
      var v, r := UiCompleted(w, id), w.ui[id];
      && !LiveInUi(v, id) && v.toUi == w.toUi && UiCompleted(v, id) == v
      && (r.connected ==>
            var f := v.toService[|v.toService| - 1];
            && v.toService == w.toService + [f] && Answers(f, id) && f.about == r.params
            && (r.errorName == "" ==> f.Finished? && f.data == r.result && f.delay == r.delay)
            && (r.errorName != "" ==> f.Failed? && f.name == r.errorName && f.message == r.errorMessage))
  {
    var v := UiCompleted(w, id);
    if w.ui[id].connected {
      var f := v.toService[|w.toService|];
      assert v.toService == w.toService + [f];
      forall i ensures Places(v, i) == Places(w, i) {
        RepliesAppend(w.toService, f, i);
      }
    }
  }

  datatype UiOp =
    | Receive
    | SetDelay(id: nat, delay: int)
    | SetResult(id: nat, data: string)
    | Fail(id: nat, name: string, message: string)
    | Cancel(id: nat)
    | Register(handlerId: string)

  function UiDo(w: Wire, op: UiOp): Wire {
    match op
    case Receive => UiReceive(w)
    case SetDelay(id, delay) => UiSetDelay(w, id, delay)
    case SetResult(id, data) => UiSetResult(w, id, data)
    case Fail(id, name, message) => UiFail(w, id, name, message)
    case Cancel(id) => UiSetCanceled(w, id)
    case Register(handlerId) => UiRegister(w, handlerId)
  }

  /** From `w` to `v` the UI process answers request `id` with the frame `f`, and that is all. */
  ghost predicate AnswersWith(w: Wire, v: Wire, id: nat, f: ToService) {
    && LiveInUi(w, id) && !LiveInUi(v, id)
    && v.toUi == w.toUi && v.toService == w.toService + [f]
    && v.ui.Keys == w.ui.Keys && (forall i :: i in w.ui && i != id ==> v.ui[i] == w.ui[i])
  }

  /** From `w` to `v` nothing is sent and no other request touched. */
  ghost predicate Silent(w: Wire, v: Wire, id: nat) {
    && v.toUi == w.toUi && v.toService == w.toService && (LiveInUi(v, id) <==> LiveInUi(w, id))
    && v.ui.Keys == w.ui.Keys && (forall i :: i in w.ui && i != id ==> v.ui[i] == w.ui[i])
  }

  /** A live request that fails is answered with the name and the message of the failure; an empty
      name counts as none. */
  lemma UiFailSteps(w: Wire, id: nat, name: string, message: string)
    ensures UiStep(w, UiFail(w, id, name, message))
    ensures LiveInUi(w, id) ==>
              AnswersWith(w, UiFail(w, id, name, message), id,
                          if name != "" then Failed(id, name, message, w.ui[id].params)
                          else Finished(id, w.ui[id].result, w.ui[id].delay, w.ui[id].params))
    ensures !LiveInUi(w, id) ==> Silent(w, UiFail(w, id, name, message), id)
  {
    if id in w.ui {
      FailIsOneChange(w, id, name, message);
      var v := UiFail(w, id, name, message);
      if w.ui[id].connected { UiAnswerSteps(w, v, id, v.toService[|w.toService|]); }
    }
  }

  lemma FailIsOneChange(w: Wire, id: nat, name: string, message: string)
    requires id in w.ui
    ensures
      var r := w.ui[id].(errorName := name, errorMessage := message);
      UiFail(w, id, name, message) ==
      if !w.ui[id].connected then w.(ui := w.ui[id := r])
      else w.(ui := w.ui[id := r.(connected := false)],
              toService := w.toService + [if name == "" then Finished(id, r.result, r.delay, r.params)
                                          else Failed(id, name, message, r.params)])
  {
  }

  /** Answering a live request. */
  lemma UiAnswerSteps(w: Wire, v: Wire, id: nat, f: ToService)
    requires AnswersWith(w, v, id, f) && Answers(f, id) && f.about == w.ui[id].params
    ensures UiStep(w, v)
  {
    forall i ensures LiveInUi(v, i) <==> LiveInUi(w, i) && i != id {}
    forall i ensures Places(v, i) == Places(w, i) {
      RepliesAppend(w.toService, f, i);
    }
  }

  lemma UiSilentSteps(w: Wire, v: Wire, id: nat)
    requires Silent(w, v, id) && (LiveInUi(w, id) ==> v.ui[id].params == w.ui[id].params)
    requires LiveInUi(w, id) && UiFresh(w) ==> v.ui[id].inProgress && v.ui[id].errorName == ""
    ensures UiStep(w, v)
  {
    forall i ensures LiveInUi(v, i) <==> LiveInUi(w, i) {}
    forall i ensures Places(v, i) == Places(w, i) {}
  }

  /** A live request in progress that nothing has failed is answered with the result. */
  lemma UiSetResultSteps(w: Wire, id: nat, data: string)
    ensures UiStep(w, UiSetResult(w, id, data))
    ensures LiveInUi(w, id) && w.ui[id].inProgress && w.ui[id].errorName == "" ==>
              AnswersWith(w, UiSetResult(w, id, data), id, Finished(id, data, w.ui[id].delay, w.ui[id].params))
    ensures !LiveInUi(w, id) || !w.ui[id].inProgress ==> Silent(w, UiSetResult(w, id, data), id)
  {
    var v := UiSetResult(w, id, data);
    if LiveInUi(w, id) && w.ui[id].inProgress {
      UiAnswerSteps(w, v, id, v.toService[|w.toService|]);
    } else {
      UiSilentSteps(w, v, id);
    }
  }

  /** A live request in progress that is cancelled is answered with that failure. */
  lemma UiSetCanceledSteps(w: Wire, id: nat)
    ensures UiStep(w, UiSetCanceled(w, id))
    ensures LiveInUi(w, id) && w.ui[id].inProgress ==>
              AnswersWith(w, UiSetCanceled(w, id), id,
                          Failed(id, "com.ubuntu.OnlineAccountsUi.UserCanceled", "Canceled", w.ui[id].params))
    ensures !LiveInUi(w, id) || !w.ui[id].inProgress ==> Silent(w, UiSetCanceled(w, id), id)
  {
    var v := UiSetCanceled(w, id);
    if id in w.ui && w.ui[id].inProgress {
      FailIsOneChange(w, id, ERROR_USER_CANCELED, "Canceled");
      if w.ui[id].connected {
        UiAnswerSteps(w, v, id, v.toService[|w.toService|]);
      } else {
        UiSilentSteps(w, v, id);
      }
    }
  }

  /** The delay goes into the answer that is given later. */
  lemma UiSetDelaySteps(w: Wire, id: nat, delay: int)
    ensures UiStep(w, UiSetDelay(w, id, delay)) && Silent(w, UiSetDelay(w, id, delay), id)
    ensures LiveInUi(w, id) ==> UiSetDelay(w, id, delay).ui[id] == w.ui[id].(delay := delay)
  {
    UiSilentSteps(w, UiSetDelay(w, id, delay), id);
  }

  /** The next frame becomes a request in progress, with the parameters of the frame. */
  lemma UiReceiveBuilds(w: Wire)
    requires w.toUi != []
    ensures
      var v, f := UiReceive(w), w.toUi[0];
      && v.toUi == w.toUi[1..] && v.toService == w.toService && v.ui.Keys == w.ui.Keys + {f.id}
      && v.ui[f.id] == UiRequest(f.params, true, true, "", "", "", 0)
      && forall i :: i in w.ui && i != f.id ==> v.ui[i] == w.ui[i]
  {
  }

  /** Nothing that the UI process does loses an id, duplicates one or mixes up parameters. */
  lemma UiDoSteps(p: UiProxy, op: UiOp)
    requires Valid(p)
    ensures UiStep(p.wire, UiDo(p.wire, op))
  {
    var w := p.wire;
    match op
    case Receive => UiReceiveSteps(p);
    case SetDelay(id, delay) => UiSetDelaySteps(w, id, delay);
    case SetResult(id, data) => UiSetResultSteps(w, id, data);
    case Fail(id, name, message) => UiFailSteps(w, id, name, message);
    case Cancel(id) => UiSetCanceledSteps(w, id);
    case Register(handlerId) =>
      var f := RegisterHandler(handlerId);
      forall i ensures Places(UiRegister(w, handlerId), i) == Places(w, i) {
        RepliesAppend(w.toService, f, i);
      }
  }

  // ----- no id comes back -----

  /** Request `id` has been answered over there: only frames of `answers` are still on their way. */
  ghost predicate AtEnd(w: Wire, id: nat, answers: seq<ToService>) {
    && InProcess(w.toUi, id) == 0 && !LiveInUi(w, id)
    && forall f :: f in w.toService && Answers(f, id) ==> f in answers
  }

  /** What has been sent stays sent; what has been answered over there stays answered as it was. */
  ghost predicate NoReturn(p: UiProxy, q: UiProxy) {
    forall id :: id in p.sent ==>
      && id in q.sent
      && (InProcess(p.wire.toUi, id) == 0 ==> InProcess(q.wire.toUi, id) == 0)
      && (InProcess(p.wire.toUi, id) == 0 && !LiveInUi(p.wire, id) ==>
            && !LiveInUi(q.wire, id)
            && forall f :: f in q.wire.toService && Answers(f, id) ==> f in p.wire.toService)
  }

  lemma {:induction false} NoneInProcess(frames: seq<ToUi>, id: nat)
    requires forall f :: f in frames ==> f.id != id
    ensures InProcess(frames, id) == 0
  {
    if frames != [] {
      assert frames[0] in frames && forall f :: f in frames[1..] ==> f in frames;
      NoneInProcess(frames[1..], id);
    }
  }

  lemma UiStepNoReturn(p: UiProxy, v: Wire)
    requires UiStep(p.wire, v)
    ensures NoReturn(p, p.(wire := v))
  {
    forall id | InProcess(p.wire.toUi, id) == 0
      ensures InProcess(v.toUi, id) == 0
      ensures !LiveInUi(p.wire, id) ==> !LiveInUi(v, id)
      ensures !LiveInUi(p.wire, id) ==> forall f :: f in v.toService && Answers(f, id) ==> f in p.wire.toService
    {
      NotInProcess(p.wire.toUi, id);
      forall f | f in v.toUi ensures f.id != id {}
      NoneInProcess(v.toUi, id);
    }
  }

  lemma HandleRequestNoReturn(outcome: Outcome, p: UiProxy, pending: Pending)
    requires Valid(p)
    ensures NoReturn(p, HandleRequest(outcome, p, pending))
  {
    HandleRequestKeeps(outcome, p, pending);
    var q := HandleRequest(outcome, p, pending);
    if p.status == Ready && p.socket == Open {
      forall id { ProcessAppend(p.wire.toUi, Process(p.nextRequestId, pending.params), id); }
    }
    forall id | id in p.sent ensures id in q.sent {}
  }

  lemma ConnectionNoReturn(p: UiProxy)
    requires Valid(p)
    ensures NoReturn(p, OnNewConnection(p))
  {
  }

  lemma PopReplyNoReturn(p: UiProxy)
    requires Valid(p) && p.wire.toService != []
    ensures NoReturn(p, PopReply(p))
    ensures var f := p.wire.toService[0];
            !f.RegisterHandler? ==> f.id in p.sent && AtEnd(PopReply(p).wire, f.id, [])
  {
    PopReplyKeeps(p);
    var f := p.wire.toService[0];
    if !f.RegisterHandler? { Nowhere(PopReply(p).wire, f.id); }
  }
}
