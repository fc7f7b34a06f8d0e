/** What every step of the daemon keeps, and the small moves that steps are made of.

    The invariant has a clause for each part of the state: names are in use, queues are in order
    and only their heads are started, proxies hold what they were given, live requests are where
    they belong, each request is answered at most once, the manager's list of proxies is that of
    the proxies there are, replies come in the order of arrival, what is on a wire belongs to a
    pending or a cancelled request, what was handed out is held or answered, and no assertion has
    failed. While a step is at work it may have one request in its hands that is neither waiting
    nor held: the clauses take the set of these, `loose`, and between events it is empty.

    The moves: a proxy takes over a request, a proxy lets go of one, a request that has been
    answered leaves its queue, a request comes in, a proxy comes or goes, and changes that leave
    every live request where it is. Each comes with one lemma for each clause and one for all. */
module Invariant {
  import opened Proxy
  import opened Daemon

  // ----- the invariant -----

  ghost predicate Live(s: State, r: Rid) {
    r in s.requests && r !in s.deleted
  }

  ghost predicate Waiting(s: State, r: Rid) {
    r in s.requests && s.requests[r] == Request(false, 0, [])
  }

  ghost predicate Holds(s: State, pid: Pid, id: nat, r: Rid) {
    pid in s.proxies && id in s.proxies[pid].requests && s.proxies[pid].requests[id].rid == r
  }

  /** In progress, connected to the manager and then to the proxy that holds it. */
  ghost predicate Led(s: State, r: Rid) {
    && r in s.requests && s.requests[r].inProgress
    && exists pid, id :: s.requests[r].slots == [ToManager, ToProxy(pid)] && Holds(s, pid, id, r)
  }

  /** In progress, connected to its own deletion and then to the proxy that holds it. */
  ghost predicate Routed(s: State, r: Rid) {
    && r in s.requests && s.requests[r].inProgress
    && exists pid, id :: s.requests[r].slots == [DeleteLater, ToProxy(pid)] && Holds(s, pid, id, r)
  }

  ghost predicate InQueueOf(s: State, w: nat, r: Rid) {
    r < |s.arrivals| && !s.arrivals[r].routed && s.arrivals[r].params.windowId == w && Live(s, r)
  }

  /** A stored queue: not empty, in order of arrival, only its head started. A request in
      `loose` is one that a step has under way. */
  ghost predicate QueueOk(s: State, w: nat, loose: set<Rid>)
    requires w in s.queues
  {
    var q := s.queues[w];
    && q != []
    && Increasing(q)
    && (forall i :: 0 <= i < |q| ==> InQueueOf(s, w, q[i]))
    && (forall i :: 0 < i < |q| ==> Waiting(s, q[i]) && q[i] !in loose)
    && (q[0] !in loose ==> Led(s, q[0]))
  }

  ghost predicate QueuesOk(s: State, loose: set<Rid>) {
    forall w :: w in s.queues ==> QueueOk(s, w, loose)
  }

  ghost predicate IsHead(s: State, r: Rid) {
    r < |s.arrivals| && Queue(s, Window(s, r)) != [] && Queue(s, Window(s, r))[0] == r
  }

  ghost predicate HeldOk(s: State, pid: Pid, id: nat, loose: set<Rid>)
    requires pid in s.proxies && id in s.proxies[pid].requests
  {
    var held := s.proxies[pid].requests[id];
    var r := held.rid;
    && r < |s.arrivals| && held.params == s.arrivals[r].params
    && Live(s, r) && r !in loose && s.requests[r].inProgress
    && s.requests[r].slots == [if s.arrivals[r].routed then DeleteLater else ToManager, ToProxy(pid)]
    && (!s.arrivals[r].routed ==> IsHead(s, r))
  }

  ghost predicate OneId(p: UiProxy) {
    forall a, b :: a in p.requests && b in p.requests && p.requests[a].rid == p.requests[b].rid ==> a == b
  }

  ghost predicate ProxiesOk(s: State, loose: set<Rid>) {
    && (forall pid :: pid in s.proxies ==> Valid(s.proxies[pid]))
    && (forall pid, id :: pid in s.proxies && id in s.proxies[pid].requests ==> HeldOk(s, pid, id, loose))
    && (forall pid :: pid in s.proxies ==> OneId(s.proxies[pid]))
  }

  ghost predicate LiveOk(s: State, loose: set<Rid>) {
    forall r: Rid :: Live(s, r) && r < |s.arrivals| ==>
      if s.arrivals[r].routed then r in loose || Routed(s, r)
      else r in Queue(s, s.arrivals[r].params.windowId)
  }

  /** Every request is alive or answered, never both, never answered twice. */
  ghost predicate RepliesOk(s: State) {
    && (forall i :: 0 <= i < |s.replies| ==> s.replies[i].rid < |s.arrivals| && !Live(s, s.replies[i].rid))
    && (forall i, j :: 0 <= i < j < |s.replies| ==> s.replies[i].rid != s.replies[j].rid)
    && (forall r :: 0 <= r < |s.arrivals| && !Live(s, r) ==> exists i :: 0 <= i < |s.replies| && s.replies[i].rid == r)
  }

  ghost predicate NamesOk(s: State) {
    && (forall r :: r in s.requests ==> r < |s.arrivals|)
    && s.deleted <= s.requests.Keys
    && (forall pid :: pid in s.proxies ==> pid < s.nextPid)
    && (forall pid, i :: pid in s.proxies && 0 <= i < |s.proxies[pid].issued| ==>
          s.proxies[pid].issued[i] < |s.arrivals|)
  }

  ghost predicate OrderOk(s: State) {
    && (forall i, j :: 0 <= i < j < |s.order| ==> s.order[i] != s.order[j])
    && (forall i, j :: 0 <= i < j < |s.dying| ==> s.dying[i] != s.dying[j])
    && (forall pid :: pid in s.dying ==> pid in s.proxies && pid !in s.order)
    && (forall pid :: pid in s.proxies ==> pid in s.order || pid in s.dying)
    && (forall pid :: pid in s.order ==> pid in s.proxies)
  }

  /** The requests that were queued for window `w`, in order of arrival. */
  function QueuedFor(arrivals: seq<Arrival>, w: nat): seq<Rid> {
    if arrivals == [] then []
    else
      var n := |arrivals| - 1;
      QueuedFor(arrivals[..n], w) + if !arrivals[n].routed && arrivals[n].params.windowId == w then [n] else []
  }

  predicate ForQueue(arrivals: seq<Arrival>, r: Rid, w: nat) {
    r < |arrivals| && !arrivals[r].routed && arrivals[r].params.windowId == w
  }

  /** The queued requests of window `w` that have been answered, in the order of the replies. */
  function AnsweredFor(arrivals: seq<Arrival>, replies: seq<Reply>, w: nat): seq<Rid> {
    if replies == [] then []
    else
      var n := |replies| - 1;
      AnsweredFor(arrivals, replies[..n], w) + if ForQueue(arrivals, replies[n].rid, w) then [replies[n].rid] else []
  }

  /** Replies to the queued requests of a window come in the order of arrival. */
  ghost predicate HistoryOk(s: State) {
    forall w :: QueuedFor(s.arrivals, w) == AnsweredFor(s.arrivals, s.replies, w) + Queue(s, w)
  }

  ghost predicate WasCanceled(s: State, r: Rid) {
    Reply(r, CANCELED) in s.replies
  }

  /** An id on the wire belongs to a pending request, or to one that was cancelled here. */
  ghost predicate InFlightOk(s: State, loose: set<Rid>) {
    forall pid: Pid, id: nat ::
      (pid in s.proxies && Places(s.proxies[pid].wire, id) > 0 && id !in s.proxies[pid].requests) ==>
      id < |s.proxies[pid].issued| && (WasCanceled(s, s.proxies[pid].issued[id]) || s.proxies[pid].issued[id] in loose)
  }

  /** A request that a proxy was given is held by it, or not alive any more. */
  ghost predicate IssuedOk(s: State, loose: set<Rid>) {
    forall pid: Pid, id: nat :: pid in s.proxies && id < |s.proxies[pid].issued| && id !in s.proxies[pid].requests ==>
      !Live(s, s.proxies[pid].issued[id]) || s.proxies[pid].issued[id] in loose
  }

  ghost predicate NeverIssued(s: State, r: Rid) {
    forall pid: Pid, id: nat :: pid in s.proxies && id < |s.proxies[pid].issued| ==> s.proxies[pid].issued[id] != r
  }

  ghost predicate LooseOk(s: State, loose: set<Rid>) {
    forall r :: r in loose ==> Live(s, r) && r < |s.arrivals| && (!s.arrivals[r].routed ==> IsHead(s, r))
  }

  ghost predicate FlagsOk(s: State) {
    (s.idleSeen ==> s.queues == map[]) && !s.aborted && !s.outOfTurn
  }

  datatype Clause = Names | Queues | Proxies | Alive | Replies | Order | History | Flight | Issued | Loose | Flags

  ghost predicate Ok(c: Clause, s: State, loose: set<Rid>) {
    match c
    case Names => NamesOk(s)
    case Queues => QueuesOk(s, loose)
    case Proxies => ProxiesOk(s, loose)
    case Alive => LiveOk(s, loose)
    case Replies => RepliesOk(s)
    case Order => OrderOk(s)
    case History => HistoryOk(s)
    case Flight => InFlightOk(s, loose)
    case Issued => IssuedOk(s, loose)
    case Loose => LooseOk(s, loose)
    case Flags => FlagsOk(s)
  }

  ghost predicate Inv(s: State, loose: set<Rid>) {
    forall c: Clause :: Ok(c, s, loose)
  }

  /** Between events. */
  ghost predicate Settled(s: State) {
    Inv(s, {}) && s.dying == [] && s.deleted == {} && (s.queues == map[] ==> s.idleSeen)
  }

  // ----- a proxy takes over the request that a step has under way -----

  function TakeOver(s: State, pid: Pid, q: UiProxy, r: Rid): State
    requires r in s.requests
  {
    s.(proxies := s.proxies[pid := q],
       requests := s.requests[r := s.requests[r].(slots := s.requests[r].slots + [ToProxy(pid)], inProgress := true)])
  }

  ghost predicate CanTakeOver(s: State, pid: Pid, q: UiProxy, r: Rid) {
    && Live(s, r) && r < |s.arrivals| && NeverIssued(s, r)
    && s.requests[r].slots == [if s.arrivals[r].routed then DeleteLater else ToManager]
    && pid in s.proxies
    && var p := s.proxies[pid];
    && (forall id :: id in p.requests ==> id < p.nextRequestId)
    && Valid(q) && q.requests == p.requests[p.nextRequestId := Pending(r, s.arrivals[r].params)]
    && q.issued == p.issued + [r]
    && (forall id :: Places(q.wire, id) > 0 ==> Places(p.wire, id) > 0 || id == p.nextRequestId)
  }

  lemma TakeOverQueues(s: State, pid: Pid, q: UiProxy, r: Rid)
    requires CanTakeOver(s, pid, q, r) && QueuesOk(s, {r})
    ensures QueuesOk(TakeOver(s, pid, q, r), {})
  {
    var t := TakeOver(s, pid, q, r);
    assert Holds(t, pid, s.proxies[pid].nextRequestId, r);
    forall w | w in t.queues ensures QueueOk(t, w, {}) {
      assert QueueOk(s, w, {r});
      var h := t.queues[w][0];
      if h != r {
        var x, id :| s.requests[h].slots == [ToManager, ToProxy(x)] && Holds(s, x, id, h);
        assert Holds(t, x, id, h);
      } else {
        assert t.requests[h].slots == [ToManager, ToProxy(pid)];
      }
    }
  }

  lemma TakeOverHeld(s: State, pid: Pid, q: UiProxy, r: Rid, x: Pid, id: nat)
    requires CanTakeOver(s, pid, q, r) && x in s.proxies && id in s.proxies[x].requests && HeldOk(s, x, id, {r})
    requires x != pid || id != s.proxies[pid].nextRequestId
    ensures var t := TakeOver(s, pid, q, r);
            id in t.proxies[x].requests && HeldOk(t, x, id, {})
  {
    var t := TakeOver(s, pid, q, r);
    assert t.proxies[x].requests[id] == s.proxies[x].requests[id];
    assert IsHead(s, s.proxies[x].requests[id].rid) ==> IsHead(t, s.proxies[x].requests[id].rid);
  }

  lemma TakeOverProxies(s: State, pid: Pid, q: UiProxy, r: Rid)
    requires CanTakeOver(s, pid, q, r) && ProxiesOk(s, {r}) && (!s.arrivals[r].routed ==> IsHead(s, r))
    ensures ProxiesOk(TakeOver(s, pid, q, r), {})
  {
    var t, n := TakeOver(s, pid, q, r), s.proxies[pid].nextRequestId;
    assert HeldOk(t, pid, n, {}) by { assert IsHead(s, r) ==> IsHead(t, r); }
    forall x, id | x in t.proxies && id in t.proxies[x].requests ensures HeldOk(t, x, id, {}) {
      if x != pid || id != n { TakeOverHeld(s, pid, q, r, x, id); }
    }
    TakeOverOneId(s, pid, q, r);
  }

  lemma TakeOverOneId(s: State, pid: Pid, q: UiProxy, r: Rid)
    requires CanTakeOver(s, pid, q, r) && ProxiesOk(s, {r})
    ensures OneId(q)
  {
    var p := s.proxies[pid];
    forall a | a in p.requests ensures p.requests[a].rid != r {
      assert HeldOk(s, pid, a, {r});
    }
    assert OneId(p);
  }

  lemma TakeOverLive(s: State, pid: Pid, q: UiProxy, r: Rid)
    requires CanTakeOver(s, pid, q, r) && LiveOk(s, {r})
    ensures LiveOk(TakeOver(s, pid, q, r), {})
  {
    var t := TakeOver(s, pid, q, r);
    assert Holds(t, pid, s.proxies[pid].nextRequestId, r);
    forall x: Rid | Live(t, x) && x < |t.arrivals| && t.arrivals[x].routed ensures Routed(t, x) {
      if x != r {
        assert Live(s, x) && Routed(s, x);
        var y, id :| s.requests[x].slots == [DeleteLater, ToProxy(y)] && Holds(s, y, id, x);
        assert Holds(t, y, id, x);
      }
    }
    forall x: Rid | Live(t, x) && x < |t.arrivals| && !t.arrivals[x].routed
      ensures x in Queue(t, t.arrivals[x].params.windowId)
    {
      assert Live(s, x);
    }
  }

  lemma TakeOverInFlight(s: State, pid: Pid, q: UiProxy, r: Rid)
    requires CanTakeOver(s, pid, q, r) && InFlightOk(s, {r})
    ensures InFlightOk(TakeOver(s, pid, q, r), {})
  {
    var t := TakeOver(s, pid, q, r);
    forall x: Pid, id: nat | x in t.proxies && Places(t.proxies[x].wire, id) > 0 && id !in t.proxies[x].requests
      ensures id < |t.proxies[x].issued| && (WasCanceled(t, t.proxies[x].issued[id]) || t.proxies[x].issued[id] in {})
    {
      assert Places(s.proxies[x].wire, id) > 0 && id !in s.proxies[x].requests;
    }
  }

  lemma TakeOverIssued(s: State, pid: Pid, q: UiProxy, r: Rid)
    requires CanTakeOver(s, pid, q, r) && IssuedOk(s, {r}) && s.proxies[pid].nextRequestId == |s.proxies[pid].issued|
    ensures IssuedOk(TakeOver(s, pid, q, r), {})
  {
    var t := TakeOver(s, pid, q, r);
    forall x: Pid, id: nat | x in t.proxies && id < |t.proxies[x].issued| && id !in t.proxies[x].requests
      ensures !Live(t, t.proxies[x].issued[id])
    {
      assert id < |s.proxies[x].issued| && id !in s.proxies[x].requests;
    }
  }

  lemma RepliesFrame(s: State, t: State)
    requires RepliesOk(s) && t.replies == s.replies && t.arrivals == s.arrivals
    requires t.requests.Keys == s.requests.Keys && t.deleted == s.deleted
    ensures RepliesOk(t)
  {
    forall x: Rid ensures Live(t, x) <==> Live(s, x) {}
  }

  lemma HistoryFrame(s: State, t: State)
    requires HistoryOk(s) && t.replies == s.replies && t.arrivals == s.arrivals && t.queues == s.queues
    ensures HistoryOk(t)
  {
    forall w ensures QueuedFor(t.arrivals, w) == AnsweredFor(t.arrivals, t.replies, w) + Queue(t, w) {
      assert Queue(t, w) == Queue(s, w);
    }
  }

  lemma TakeOverInv(s: State, pid: Pid, q: UiProxy, r: Rid)
    requires CanTakeOver(s, pid, q, r) && Inv(s, {r})
    ensures Inv(TakeOver(s, pid, q, r), {})
  {
    var t := TakeOver(s, pid, q, r);
    forall c: Clause ensures Ok(c, t, {}) {
      assert Ok(c, s, {r});
      match c
      case Queues => TakeOverQueues(s, pid, q, r);
      case Proxies => assert Ok(Loose, s, {r}); TakeOverProxies(s, pid, q, r);
      case Alive => TakeOverLive(s, pid, q, r);
      case Replies => RepliesFrame(s, t);
      case History => HistoryFrame(s, t);
      case Flight => TakeOverInFlight(s, pid, q, r);
      case Issued => assert Ok(Proxies, s, {r}); TakeOverIssued(s, pid, q, r);
      case _ =>
    }
  }

  // ----- a proxy lets go of a request that has been answered -----

  ghost predicate CanDetach(s: State, pid: Pid, q: UiProxy, id: nat) {
    && pid in s.proxies && id in s.proxies[pid].requests
    && var p := s.proxies[pid];
    && Valid(q) && q.requests == p.requests - {id} && q.issued == p.issued
    && (forall i :: Places(q.wire, i) > 0 ==> Places(p.wire, i) > 0)
  }

  lemma DetachQueues(s: State, pid: Pid, q: UiProxy, id: nat)
    requires CanDetach(s, pid, q, id) && QueuesOk(s, {}) && HeldOk(s, pid, id, {})
    ensures QueuesOk(SetProxy(s, pid, q), {s.proxies[pid].requests[id].rid})
  {
    var t, r := SetProxy(s, pid, q), s.proxies[pid].requests[id].rid;
    forall w | w in t.queues ensures QueueOk(t, w, {r}) {
      assert QueueOk(s, w, {});
      var h := t.queues[w][0];
      if h != r {
        var x, i :| s.requests[h].slots == [ToManager, ToProxy(x)] && Holds(s, x, i, h);
        assert Holds(t, x, i, h);
      }
    }
  }

  /** A request is held once. */
  lemma HeldOnce(s: State, x: Pid, i: nat, y: Pid, j: nat, r: Rid, loose: set<Rid>)
    requires ProxiesOk(s, loose) && Holds(s, x, i, r) && Holds(s, y, j, r)
    ensures x == y && i == j
  {
    assert HeldOk(s, x, i, loose) && HeldOk(s, y, j, loose);
    var slots := s.requests[r].slots;
    assert slots[1] == ToProxy(x) && slots[1] == ToProxy(y);
    assert OneId(s.proxies[x]);
  }

  lemma DetachHeld(s: State, pid: Pid, q: UiProxy, id: nat, x: Pid, i: nat)
    requires CanDetach(s, pid, q, id) && ProxiesOk(s, {}) && x in s.proxies && i in s.proxies[x].requests
    requires x != pid || i != id
    ensures var t := SetProxy(s, pid, q);
            i in t.proxies[x].requests ==> HeldOk(t, x, i, {s.proxies[pid].requests[id].rid})
  {
    var t, r := SetProxy(s, pid, q), s.proxies[pid].requests[id].rid;
    var rid := s.proxies[x].requests[i].rid;
    assert HeldOk(s, x, i, {});
    assert IsHead(s, rid) ==> IsHead(t, rid);
    if rid == r { HeldOnce(s, pid, id, x, i, r, {}); }
  }

  lemma DetachProxies(s: State, pid: Pid, q: UiProxy, id: nat)
    requires CanDetach(s, pid, q, id) && ProxiesOk(s, {})
    ensures ProxiesOk(SetProxy(s, pid, q), {s.proxies[pid].requests[id].rid})
  {
    var t, r := SetProxy(s, pid, q), s.proxies[pid].requests[id].rid;
    assert OneId(s.proxies[pid]);
    forall x, i | x in t.proxies && i in t.proxies[x].requests ensures HeldOk(t, x, i, {r}) {
      DetachHeld(s, pid, q, id, x, i);
    }
  }

  lemma DetachLive(s: State, pid: Pid, q: UiProxy, id: nat)
    requires CanDetach(s, pid, q, id) && LiveOk(s, {})
    ensures LiveOk(SetProxy(s, pid, q), {s.proxies[pid].requests[id].rid})
  {
    var t, r := SetProxy(s, pid, q), s.proxies[pid].requests[id].rid;
    forall x: Rid | Live(t, x) && x < |t.arrivals| && t.arrivals[x].routed && x != r ensures Routed(t, x) {
      assert Live(s, x) && Routed(s, x);
      var y, i :| s.requests[x].slots == [DeleteLater, ToProxy(y)] && Holds(s, y, i, x);
      assert Holds(t, y, i, x);
    }
    forall x: Rid | Live(t, x) && x < |t.arrivals| && !t.arrivals[x].routed
      ensures x in Queue(t, t.arrivals[x].params.windowId)
    {
      assert Live(s, x);
    }
  }

  lemma DetachFlight(s: State, pid: Pid, q: UiProxy, id: nat)
    requires CanDetach(s, pid, q, id) && InFlightOk(s, {}) && Valid(s.proxies[pid])
    ensures InFlightOk(SetProxy(s, pid, q), {s.proxies[pid].requests[id].rid})
  {
    var t, r := SetProxy(s, pid, q), s.proxies[pid].requests[id].rid;
    forall x: Pid, i: nat | x in t.proxies && Places(t.proxies[x].wire, i) > 0 && i !in t.proxies[x].requests
      ensures i < |t.proxies[x].issued| && (WasCanceled(t, t.proxies[x].issued[i]) || t.proxies[x].issued[i] in {r})
    {
      assert Places(s.proxies[x].wire, i) > 0;
    }
  }

  lemma DetachIssued(s: State, pid: Pid, q: UiProxy, id: nat)
    requires CanDetach(s, pid, q, id) && IssuedOk(s, {}) && Valid(s.proxies[pid])
    ensures IssuedOk(SetProxy(s, pid, q), {s.proxies[pid].requests[id].rid})
  {
    var t, r := SetProxy(s, pid, q), s.proxies[pid].requests[id].rid;
    forall x: Pid, i: nat | x in t.proxies && i < |t.proxies[x].issued| && i !in t.proxies[x].requests
      ensures !Live(t, t.proxies[x].issued[i]) || t.proxies[x].issued[i] in {r}
    {
      assert Live(s, s.proxies[x].issued[i]) <==> Live(t, t.proxies[x].issued[i]);
    }
  }

  lemma DetachInv(s: State, pid: Pid, q: UiProxy, id: nat)
    requires CanDetach(s, pid, q, id) && Inv(s, {})
    ensures Inv(SetProxy(s, pid, q), {s.proxies[pid].requests[id].rid})
  {
    var t, r := SetProxy(s, pid, q), s.proxies[pid].requests[id].rid;
    forall c: Clause ensures Ok(c, t, {r}) {
      assert Ok(c, s, {});
      match c
      case Queues => assert Ok(Proxies, s, {}); DetachQueues(s, pid, q, id);
      case Proxies => DetachProxies(s, pid, q, id);
      case Alive => DetachLive(s, pid, q, id);
      case Replies => RepliesFrame(s, t);
      case History => HistoryFrame(s, t);
      case Flight => assert Ok(Proxies, s, {}); DetachFlight(s, pid, q, id);
      case Issued => assert Ok(Proxies, s, {}); DetachIssued(s, pid, q, id);
      case Loose => assert Ok(Proxies, s, {}); assert HeldOk(s, pid, id, {}); HeldIsHead(s, t, pid, id);
      case _ =>
    }
  }

  lemma HeldIsHead(s: State, t: State, pid: Pid, id: nat)
    requires pid in s.proxies && id in s.proxies[pid].requests && HeldOk(s, pid, id, {})
    requires t.arrivals == s.arrivals && t.requests == s.requests && t.deleted == s.deleted && t.queues == s.queues
    ensures LooseOk(t, {s.proxies[pid].requests[id].rid})
  {
    assert IsHead(s, s.proxies[pid].requests[id].rid) ==> IsHead(t, s.proxies[pid].requests[id].rid);
  }

  // ----- moves that leave every live request where it is -----

  ghost predicate SameRequests(p: UiProxy, q: UiProxy) {
    && q.requests == p.requests && q.issued == p.issued
    && (forall i :: Places(q.wire, i) > 0 ==> Places(p.wire, i) > 0 || i in q.requests)
  }

  ghost predicate Unused(p: UiProxy) {
    p.requests == map[] && p.issued == [] && forall i :: Places(p.wire, i) == 0
  }

  ghost predicate Unchanged(s: State, t: State, pid: Pid)
    requires pid in t.proxies
  {
    pid in s.proxies && t.proxies[pid] == s.proxies[pid]
  }

  ghost predicate Frame(s: State, t: State, loose: set<Rid>) {
    && t.arrivals == s.arrivals && t.replies == s.replies && t.queues == s.queues
    && (forall r: Rid :: Live(t, r) <==> Live(s, r))
    && (forall r: Rid :: Live(s, r) && r !in loose ==> t.requests[r] == s.requests[r])
    && (forall pid :: pid in t.proxies && !Unchanged(s, t, pid) ==>
          && Valid(t.proxies[pid])
          && if pid in s.proxies then SameRequests(s.proxies[pid], t.proxies[pid]) else Unused(t.proxies[pid]))
    && (forall pid :: pid in s.proxies && s.proxies[pid].requests != map[] ==> pid in t.proxies)
  }

  lemma FrameHolds(s: State, t: State, loose: set<Rid>, pid: Pid, id: nat, r: Rid)
    requires Frame(s, t, loose) && Holds(s, pid, id, r)
    ensures Holds(t, pid, id, r)
  {
    assert s.proxies[pid].requests != map[];
  }

  lemma FrameQueues(s: State, t: State, loose: set<Rid>)
    requires Frame(s, t, loose) && QueuesOk(s, loose)
    ensures QueuesOk(t, loose)
  {
    forall w | w in t.queues ensures QueueOk(t, w, loose) {
      assert QueueOk(s, w, loose);
      var q := t.queues[w];
      forall i | 0 <= i < |q| ensures InQueueOf(t, w, q[i]) { assert InQueueOf(s, w, q[i]); }
      if q[0] !in loose {
        var x, id :| s.requests[q[0]].slots == [ToManager, ToProxy(x)] && Holds(s, x, id, q[0]);
        FrameHolds(s, t, loose, x, id, q[0]);
      }
    }
  }

  lemma FrameProxies(s: State, t: State, loose: set<Rid>)
    requires Frame(s, t, loose) && ProxiesOk(s, loose)
    ensures ProxiesOk(t, loose)
  {
    forall x | x in t.proxies ensures OneId(t.proxies[x]) {
      if x in s.proxies { assert OneId(s.proxies[x]); }
    }
    forall x, i | x in t.proxies && i in t.proxies[x].requests ensures HeldOk(t, x, i, loose) {
      assert HeldOk(s, x, i, loose);
      assert IsHead(s, s.proxies[x].requests[i].rid) ==> IsHead(t, t.proxies[x].requests[i].rid);
    }
  }

  lemma FrameLive(s: State, t: State, loose: set<Rid>)
    requires Frame(s, t, loose) && LiveOk(s, loose)
    ensures LiveOk(t, loose)
  {
    forall x: Rid | Live(t, x) && x < |t.arrivals| && t.arrivals[x].routed && x !in loose ensures Routed(t, x) {
      assert Live(s, x) && Routed(s, x);
      var y, i :| s.requests[x].slots == [DeleteLater, ToProxy(y)] && Holds(s, y, i, x);
      FrameHolds(s, t, loose, y, i, x);
    }
    forall x: Rid | Live(t, x) && x < |t.arrivals| && !t.arrivals[x].routed
      ensures x in Queue(t, t.arrivals[x].params.windowId)
    {
      assert Live(s, x);
    }
  }

  lemma FrameFlight(s: State, t: State, loose: set<Rid>)
    requires Frame(s, t, loose) && InFlightOk(s, loose)
    ensures InFlightOk(t, loose)
  {
    forall x: Pid, i: nat | x in t.proxies && Places(t.proxies[x].wire, i) > 0 && i !in t.proxies[x].requests
      ensures i < |t.proxies[x].issued| && (WasCanceled(t, t.proxies[x].issued[i]) || t.proxies[x].issued[i] in loose)
    {
      assert Places(s.proxies[x].wire, i) > 0;
    }
  }

  ghost predicate Basic(s: State) {
    NamesOk(s) && OrderOk(s) && FlagsOk(s)
  }

  lemma FrameInv(s: State, t: State, loose: set<Rid>)
    requires Frame(s, t, loose) && Inv(s, loose) && Basic(t)
    ensures Inv(t, loose)
    ensures forall r :: NeverIssued(s, r) ==> NeverIssued(t, r)
  {
    forall c: Clause ensures Ok(c, t, loose) {
      assert Ok(c, s, loose);
      match c
      case Queues => FrameQueues(s, t, loose);
      case Proxies => FrameProxies(s, t, loose);
      case Alive => FrameLive(s, t, loose);
      case History => HistoryFrame(s, t);
      case Flight => FrameFlight(s, t, loose);
      case Loose => assert forall r :: r in loose && IsHead(s, r) ==> IsHead(t, r);
      case _ =>
    }
  }

  // ----- a request that a step has under way is answered and leaves its queue -----

  function Retire(s: State, r: Rid, answer: Answer): State {
    var t := s.(replies := s.replies + [Reply(r, answer)]);
    if r < |s.arrivals| && !s.arrivals[r].routed && Queue(s, Window(s, r)) != [] then Dequeue(t, Window(s, r))
    else t.(deleted := t.deleted + {r})
  }

  ghost predicate CanRetire(s: State, r: Rid) {
    r in s.requests && r < |s.arrivals| && r !in s.deleted && (!s.arrivals[r].routed ==> IsHead(s, r))
  }

  /** What is under way after that: the next request of the queue, if there is one. */
  function NextLoose(s: State, r: Rid): set<Rid> {
    if r < |s.arrivals| && !s.arrivals[r].routed && |Queue(s, Window(s, r))| > 1
    then {Queue(s, Window(s, r))[1]} else {}
  }

  lemma RetireQueues(s: State, r: Rid, answer: Answer)
    requires CanRetire(s, r) && QueuesOk(s, {r})
    ensures QueuesOk(Retire(s, r, answer), NextLoose(s, r))
  {
    var t := Retire(s, r, answer);
    forall w | w in t.queues ensures QueueOk(t, w, NextLoose(s, r)) {
      if w == Window(s, r) && !s.arrivals[r].routed {
        RetireOwnQueue(s, r, answer);
      } else {
        RetireOtherQueue(s, r, answer, w);
      }
    }
  }

  lemma RetireOwnQueue(s: State, r: Rid, answer: Answer)
    requires CanRetire(s, r) && QueuesOk(s, {r}) && !s.arrivals[r].routed
    requires Window(s, r) in Retire(s, r, answer).queues
    ensures QueueOk(Retire(s, r, answer), Window(s, r), NextLoose(s, r))
  {
    var t, w := Retire(s, r, answer), Window(s, r);
    assert QueueOk(s, w, {r});
    var q := s.queues[w];
    assert t.queues[w] == q[1..];
    forall i | 0 <= i < |q| - 1 ensures q[i + 1] == q[1..][i] && InQueueOf(t, w, q[1..][i]) {
      assert q[0] < q[i + 1] && InQueueOf(s, w, q[i + 1]);
    }
  }

  lemma RetireOtherQueue(s: State, r: Rid, answer: Answer, w: nat)
    requires CanRetire(s, r) && QueuesOk(s, {r}) && w in s.queues && (s.arrivals[r].routed || w != Window(s, r))
    ensures QueueOk(Retire(s, r, answer), w, NextLoose(s, r))
  {
    var t := Retire(s, r, answer);
    assert QueueOk(s, w, {r});
    var q := s.queues[w];
    assert t.queues[w] == q;
    forall i | 0 <= i < |q| ensures q[i] != r && InQueueOf(t, w, q[i]) {
      assert InQueueOf(s, w, q[i]);
    }
    RetireLed(s, r, answer, q[0]);
    NextElsewhere(s, r, w);
  }

  lemma RetireLed(s: State, r: Rid, answer: Answer, h: Rid)
    requires Led(s, h)
    ensures Led(Retire(s, r, answer), h)
  {
    var t := Retire(s, r, answer);
    var x, id :| s.requests[h].slots == [ToManager, ToProxy(x)] && Holds(s, x, id, h);
    assert Holds(t, x, id, h);
  }

  /** The next request of one queue is in no other. */
  lemma NextElsewhere(s: State, r: Rid, w: nat)
    requires QueuesOk(s, {r}) && w in s.queues && r < |s.arrivals|
    requires s.arrivals[r].routed || w != Window(s, r)
    ensures forall i :: 0 <= i < |s.queues[w]| ==> s.queues[w][i] !in NextLoose(s, r)
  {
    assert QueueOk(s, w, {r});
    if !s.arrivals[r].routed && |Queue(s, Window(s, r))| > 1 {
      var v := Window(s, r);
      assert QueueOk(s, v, {r});
      assert InQueueOf(s, v, s.queues[v][1]);
      forall i | 0 <= i < |s.queues[w]| ensures s.queues[w][i] != s.queues[v][1] {
        assert InQueueOf(s, w, s.queues[w][i]);
      }
    }
  }

  lemma RetireHeld(s: State, r: Rid, answer: Answer, x: Pid, i: nat)
    requires CanRetire(s, r) && QueuesOk(s, {r}) && x in s.proxies && i in s.proxies[x].requests && HeldOk(s, x, i, {r})
    ensures HeldOk(Retire(s, r, answer), x, i, NextLoose(s, r))
  {
    var t, rid := Retire(s, r, answer), s.proxies[x].requests[i].rid;
    assert Live(t, rid);
    if IsHead(s, rid) { OtherHead(s, r, answer, rid); }
    NextIsWaiting(s, r);
  }

  lemma RetireProxies(s: State, r: Rid, answer: Answer)
    requires CanRetire(s, r) && ProxiesOk(s, {r}) && QueuesOk(s, {r})
    ensures ProxiesOk(Retire(s, r, answer), NextLoose(s, r))
  {
    var t := Retire(s, r, answer);
    assert forall x :: x in s.proxies ==> OneId(s.proxies[x]);
    forall x, i | x in t.proxies && i in t.proxies[x].requests ensures HeldOk(t, x, i, NextLoose(s, r)) {
      RetireHeld(s, r, answer, x, i);
    }
  }

  lemma OtherHead(s: State, r: Rid, answer: Answer, x: Rid)
    requires CanRetire(s, r) && QueuesOk(s, {r}) && IsHead(s, x) && x != r
    ensures IsHead(Retire(s, r, answer), x)
  {
    if !s.arrivals[r].routed && Window(s, x) == Window(s, r) { assert false; }
  }

  lemma NextIsWaiting(s: State, r: Rid)
    requires CanRetire(s, r) && QueuesOk(s, {r})
    ensures forall x :: x in NextLoose(s, r) ==> Waiting(s, x) && x != r && InQueueOf(s, Window(s, r), x)
  {
    if NextLoose(s, r) != {} {
      var w := Window(s, r);
      assert QueueOk(s, w, {r});
      var q := s.queues[w];
      assert q[0] < q[1] && InQueueOf(s, w, q[1]);
    }
  }

  lemma RetireRouted(s: State, r: Rid, answer: Answer, x: Rid)
    requires CanRetire(s, r) && Routed(s, x)
    ensures Routed(Retire(s, r, answer), x)
  {
    var y, i :| s.requests[x].slots == [DeleteLater, ToProxy(y)] && Holds(s, y, i, x);
    assert Holds(Retire(s, r, answer), y, i, x);
  }

  lemma RetireQueued(s: State, r: Rid, answer: Answer, x: Rid)
    requires CanRetire(s, r) && x != r && x in Queue(s, Window(s, x))
    ensures var t := Retire(s, r, answer); x in Queue(t, Window(t, x))
  {
    var w := Window(s, x);
    var q := Queue(s, w);
    var k :| 0 <= k < |q| && q[k] == x;
    if w == Window(s, r) && !s.arrivals[r].routed { assert q[1..][k - 1] == x; }
  }

  lemma RetireLive(s: State, r: Rid, answer: Answer)
    requires CanRetire(s, r) && LiveOk(s, {r})
    ensures LiveOk(Retire(s, r, answer), NextLoose(s, r))
  {
    var t := Retire(s, r, answer);
    forall x: Rid | Live(t, x) && x < |t.arrivals| ensures Live(s, x) && x != r {}
    forall x: Rid | Live(t, x) && x < |t.arrivals| && t.arrivals[x].routed ensures Routed(t, x) {
      RetireRouted(s, r, answer, x);
    }
    forall x: Rid | Live(t, x) && x < |t.arrivals| && !t.arrivals[x].routed
      ensures x in Queue(t, t.arrivals[x].params.windowId)
    {
      RetireQueued(s, r, answer, x);
    }
  }

  lemma RetireReplies(s: State, r: Rid, answer: Answer)
    requires CanRetire(s, r) && RepliesOk(s)
    ensures RepliesOk(Retire(s, r, answer))
  {
    var t := Retire(s, r, answer);
    assert Live(s, r);
    forall x: Rid ensures Live(t, x) <==> Live(s, x) && x != r {}
    OneMoreReply(s, t, r, answer);
  }

  lemma OneMoreReply(s: State, t: State, r: Rid, answer: Answer)
    requires RepliesOk(s) && Live(s, r) && r < |s.arrivals|
    requires t.arrivals == s.arrivals && t.replies == s.replies + [Reply(r, answer)]
    requires forall x: Rid :: Live(t, x) <==> Live(s, x) && x != r
    ensures RepliesOk(t)
  {
    forall x: Rid | x < |t.arrivals| && !Live(t, x) ensures exists i :: 0 <= i < |t.replies| && t.replies[i].rid == x {
      if x == r {
        assert t.replies[|s.replies|].rid == x;
      } else {
        var i :| 0 <= i < |s.replies| && s.replies[i].rid == x;
        assert t.replies[i].rid == x;
      }
    }
  }

  lemma RetireHistory(s: State, r: Rid, answer: Answer)
    requires CanRetire(s, r) && HistoryOk(s)
    ensures HistoryOk(Retire(s, r, answer))
  {
    forall w {
      RetireHistoryOf(s, r, answer, w);
    }
  }

  lemma AnsweredSnoc(arrivals: seq<Arrival>, replies: seq<Reply>, x: Reply, w: nat)
    ensures AnsweredFor(arrivals, replies + [x], w) ==
            AnsweredFor(arrivals, replies, w) + if ForQueue(arrivals, x.rid, w) then [x.rid] else []
  {
    assert (replies + [x])[..|replies|] == replies;
  }

  lemma RetireQueue(s: State, r: Rid, answer: Answer, w: nat)
    requires CanRetire(s, r)
    ensures Queue(s, w) == (if ForQueue(s.arrivals, r, w) then [r] else []) + Queue(Retire(s, r, answer), w)
  {
    var q := Queue(s, w);
    if ForQueue(s.arrivals, r, w) {
      assert q == [q[0]] + q[1..];
    }
  }

  lemma Regroup(a: seq<Rid>, b: seq<Rid>, c: seq<Rid>)
    ensures a + (b + c) == (a + b) + c
  {
  }

  lemma RetireHistoryOf(s: State, r: Rid, answer: Answer, w: nat)
    requires CanRetire(s, r) && QueuedFor(s.arrivals, w) == AnsweredFor(s.arrivals, s.replies, w) + Queue(s, w)
    ensures var t := Retire(s, r, answer);
            QueuedFor(t.arrivals, w) == AnsweredFor(t.arrivals, t.replies, w) + Queue(t, w)
  {
    AnsweredSnoc(s.arrivals, s.replies, Reply(r, answer), w);
    RetireQueue(s, r, answer, w);
    Regroup(AnsweredFor(s.arrivals, s.replies, w), if ForQueue(s.arrivals, r, w) then [r] else [],
            Queue(Retire(s, r, answer), w));
  }

  /** Only a cancelled request may leave its id on a wire. */
  ghost predicate NoTrace(s: State, r: Rid) {
    forall pid: Pid, id: nat ::
      (pid in s.proxies && Places(s.proxies[pid].wire, id) > 0
       && id !in s.proxies[pid].requests && id < |s.proxies[pid].issued|) ==> s.proxies[pid].issued[id] != r
  }

  lemma RetireFlight(s: State, r: Rid, answer: Answer)
    requires CanRetire(s, r) && InFlightOk(s, {r}) && (answer == CANCELED || NoTrace(s, r))
    ensures InFlightOk(Retire(s, r, answer), NextLoose(s, r))
  {
    var t := Retire(s, r, answer);
    assert t.replies == s.replies + [Reply(r, answer)];
    forall x | WasCanceled(s, x) ensures WasCanceled(t, x) {}
    if answer == CANCELED { assert Reply(r, answer) in t.replies; }
  }

  lemma RetireIssued(s: State, r: Rid, answer: Answer)
    requires CanRetire(s, r) && IssuedOk(s, {r})
    ensures IssuedOk(Retire(s, r, answer), NextLoose(s, r))
  {
    var t := Retire(s, r, answer);
    forall x: Rid ensures Live(t, x) ==> Live(s, x) && x != r {}
  }

  lemma RetireLoose(s: State, r: Rid, answer: Answer)
    requires CanRetire(s, r) && QueuesOk(s, {r})
    ensures LooseOk(Retire(s, r, answer), NextLoose(s, r))
  {
    var t := Retire(s, r, answer);
    NextIsWaiting(s, r);
    forall x | x in NextLoose(s, r) ensures IsHead(t, x) && Live(t, x) && x < |t.arrivals| {
      assert t.queues[Window(s, r)][0] == x;
    }
  }

  lemma RetireBasics(s: State, r: Rid, answer: Answer)
    requires CanRetire(s, r) && NamesOk(s) && OrderOk(s) && FlagsOk(s)
    ensures var t := Retire(s, r, answer); NamesOk(t) && OrderOk(t) && FlagsOk(t)
  {
  }

  lemma RetireInv(s: State, r: Rid, answer: Answer)
    requires CanRetire(s, r) && Inv(s, {r}) && (answer == CANCELED || NoTrace(s, r))
    ensures Inv(Retire(s, r, answer), NextLoose(s, r))
  {
    var t := Retire(s, r, answer);
    assert Ok(Queues, s, {r});
    forall c: Clause ensures Ok(c, t, NextLoose(s, r)) {
      assert Ok(c, s, {r});
      match c
      case Queues => RetireQueues(s, r, answer);
      case Proxies => RetireProxies(s, r, answer);
      case Alive => RetireLive(s, r, answer);
      case Replies => RetireReplies(s, r, answer);
      case History => RetireHistory(s, r, answer);
      case Flight => RetireFlight(s, r, answer);
      case Issued => RetireIssued(s, r, answer);
      case Loose => RetireLoose(s, r, answer);
      case _ => assert Ok(Names, s, {r}) && Ok(Order, s, {r}) && Ok(Flags, s, {r}); RetireBasics(s, r, answer);
    }
  }

  lemma RetireNext(s: State, r: Rid, answer: Answer)
    requires CanRetire(s, r) && Inv(s, {r})
    ensures forall x :: x in NextLoose(s, r) ==>
              Waiting(Retire(s, r, answer), x) && NeverIssued(Retire(s, r, answer), x)
  {
    var t := Retire(s, r, answer);
    assert Ok(Queues, s, {r});
    NextIsWaiting(s, r);
    assert Ok(Issued, s, {r}) && Ok(Proxies, s, {r});
    forall x | x in NextLoose(s, r) ensures NeverIssued(t, x) { WaitingNeverIssued(s, x, {r}); }
  }

  lemma WaitingNeverIssued(s: State, x: Rid, loose: set<Rid>)
    requires Waiting(s, x) && Live(s, x) && x !in loose && IssuedOk(s, loose) && ProxiesOk(s, loose)
    ensures NeverIssued(s, x)
  {
    forall pid: Pid, id: nat | pid in s.proxies && id < |s.proxies[pid].issued| ensures s.proxies[pid].issued[id] != x {
      if id in s.proxies[pid].requests {
        assert HeldOk(s, pid, id, loose);
        assert Valid(s.proxies[pid]);
      }
    }
  }

  // ----- a request comes in -----

  function ArriveQueued(s: State, params: Params): State {
    var r := |s.arrivals|;
    s.(arrivals := s.arrivals + [Arrival(params, false)],
       requests := s.requests[r := Request(false, 0, [])],
       queues := s.queues[params.windowId := Queue(s, params.windowId) + [r]],
       idleSeen := if s.queues == map[] then false else s.idleSeen)
  }

  function ArriveRouted(s: State, params: Params): State {
    var r := |s.arrivals|;
    s.(arrivals := s.arrivals + [Arrival(params, true)],
       requests := s.requests[r := Request(false, 0, [DeleteLater])])
  }

  /** `t` is `s` with one more request, which is new. */
  ghost predicate Grown(s: State, t: State, routed: bool, params: Params) {
    var r := |s.arrivals|;
    && t.arrivals == s.arrivals + [Arrival(params, routed)]
    && t.requests == s.requests[r := Request(false, 0, if routed then [DeleteLater] else [])]
    && t.deleted == s.deleted && t.proxies == s.proxies && t.order == s.order && t.dying == s.dying
    && t.replies == s.replies && t.nextPid == s.nextPid
    && t.queues == if routed then s.queues else s.queues[params.windowId := Queue(s, params.windowId) + [r]]
  }

  /** The new request is under way, unless it waits behind others. */
  function NewLoose(s: State, routed: bool, params: Params): set<Rid> {
    if routed || Queue(s, params.windowId) == [] then {|s.arrivals|} else {}
  }

  lemma GrownLed(s: State, t: State, routed: bool, params: Params, h: Rid)
    requires Grown(s, t, routed, params) && NamesOk(s) && Led(s, h)
    ensures Led(t, h)
  {
    var x, id :| s.requests[h].slots == [ToManager, ToProxy(x)] && Holds(s, x, id, h);
    assert Holds(t, x, id, h);
  }

  lemma GrownBehind(s: State, t: State, routed: bool, params: Params, w: nat)
    requires Grown(s, t, routed, params) && NamesOk(s) && w in s.queues && QueueOk(s, w, {})
    ensures forall i :: 0 <= i < |s.queues[w]| ==> InQueueOf(t, w, s.queues[w][i]) && s.queues[w][i] < |s.arrivals|
    ensures forall i :: 0 < i < |s.queues[w]| ==> Waiting(t, s.queues[w][i])
  {
    forall i | 0 <= i < |s.queues[w]| ensures InQueueOf(t, w, s.queues[w][i]) && s.queues[w][i] < |s.arrivals| {
      assert InQueueOf(s, w, s.queues[w][i]);
    }
  }

  lemma GrownQueue(s: State, t: State, routed: bool, params: Params, w: nat)
    requires Grown(s, t, routed, params) && NamesOk(s) && w in s.queues && QueueOk(s, w, {})
    ensures w in t.queues && QueueOk(t, w, NewLoose(s, routed, params))
  {
    var r, q := |s.arrivals|, s.queues[w];
    GrownBehind(s, t, routed, params, w);
    GrownLed(s, t, routed, params, q[0]);
    assert t.queues[w] == if !routed && w == params.windowId then q + [r] else q;
  }

  lemma GrownQueues(s: State, t: State, routed: bool, params: Params)
    requires Grown(s, t, routed, params) && NamesOk(s) && QueuesOk(s, {})
    ensures QueuesOk(t, NewLoose(s, routed, params))
  {
    var r := |s.arrivals|;
    forall w | w in t.queues ensures QueueOk(t, w, NewLoose(s, routed, params)) {
      if w in s.queues {
        assert QueueOk(s, w, {});
        GrownQueue(s, t, routed, params, w);
      }
    }
  }

  lemma GrownProxies(s: State, t: State, routed: bool, params: Params)
    requires Grown(s, t, routed, params) && NamesOk(s) && ProxiesOk(s, {})
    ensures ProxiesOk(t, NewLoose(s, routed, params))
  {
    assert forall x :: x in s.proxies ==> OneId(s.proxies[x]);
    forall x, i | x in t.proxies && i in t.proxies[x].requests
      ensures HeldOk(t, x, i, NewLoose(s, routed, params))
    {
      assert HeldOk(s, x, i, {});
      assert IsHead(s, s.proxies[x].requests[i].rid) ==> IsHead(t, t.proxies[x].requests[i].rid);
    }
  }

  lemma GrownLive(s: State, t: State, routed: bool, params: Params)
    requires Grown(s, t, routed, params) && NamesOk(s) && LiveOk(s, {})
    ensures LiveOk(t, NewLoose(s, routed, params))
  {
    var r := |s.arrivals|;
    forall x: Rid | Live(t, x) && x < r && t.arrivals[x].routed ensures Routed(t, x) {
      assert Live(s, x) && Routed(s, x);
      var y, i :| s.requests[x].slots == [DeleteLater, ToProxy(y)] && Holds(s, y, i, x);
      assert Holds(t, y, i, x);
    }
    forall x: Rid | Live(t, x) && x <= r && !t.arrivals[x].routed
      ensures x in Queue(t, t.arrivals[x].params.windowId)
    {
      if x < r { assert Live(s, x); }
    }
  }

  lemma GrownReplies(s: State, t: State, routed: bool, params: Params)
    requires Grown(s, t, routed, params) && NamesOk(s) && RepliesOk(s)
    ensures RepliesOk(t)
  {
    var r := |s.arrivals|;
    assert Live(t, r);
    forall x: Rid ensures x != r ==> (Live(t, x) <==> Live(s, x)) {}
  }

  lemma {:induction false} AnsweredGrow(arrivals: seq<Arrival>, a: Arrival, replies: seq<Reply>, w: nat)
    requires forall i :: 0 <= i < |replies| ==> replies[i].rid < |arrivals|
    ensures AnsweredFor(arrivals + [a], replies, w) == AnsweredFor(arrivals, replies, w)
  {
    if replies != [] {
      var n := |replies| - 1;
      AnsweredGrow(arrivals, a, replies[..n], w);
      assert ForQueue(arrivals + [a], replies[n].rid, w) <==> ForQueue(arrivals, replies[n].rid, w);
    }
  }

  lemma GrownHistory(s: State, t: State, routed: bool, params: Params)
    requires Grown(s, t, routed, params) && RepliesOk(s) && HistoryOk(s)
    ensures HistoryOk(t)
  {
    var r := |s.arrivals|;
    assert t.arrivals[..r] == s.arrivals;
    forall w ensures QueuedFor(t.arrivals, w) == AnsweredFor(t.arrivals, t.replies, w) + Queue(t, w) {
      AnsweredGrow(s.arrivals, Arrival(params, routed), s.replies, w);
      Regroup(AnsweredFor(s.arrivals, s.replies, w), Queue(s, w), if !routed && params.windowId == w then [r] else []);
      assert Queue(s, w) + [] == Queue(s, w);
      assert QueuedFor(s.arrivals, w) == AnsweredFor(s.arrivals, s.replies, w) + Queue(s, w);
    }
  }

  lemma GrownInv(s: State, t: State, routed: bool, params: Params)
    requires Grown(s, t, routed, params) && Inv(s, {}) && FlagsOk(t)
    ensures Inv(t, NewLoose(s, routed, params))
    ensures NeverIssued(t, |s.arrivals|)
  {
    assert Ok(Names, s, {});
    forall c: Clause ensures Ok(c, t, NewLoose(s, routed, params)) {
      assert Ok(c, s, {});
      match c
      case Queues => GrownQueues(s, t, routed, params);
      case Proxies => GrownProxies(s, t, routed, params);
      case Alive => GrownLive(s, t, routed, params);
      case Replies => GrownReplies(s, t, routed, params);
      case History => assert Ok(Replies, s, {}); GrownHistory(s, t, routed, params);
      case Flight => assert forall y :: WasCanceled(s, y) ==> WasCanceled(t, y);
      case Issued => assert forall y: Rid :: y != |s.arrivals| ==> (Live(t, y) <==> Live(s, y));
      case _ =>
    }
  }

  // ----- the moves that leave every live request where it is -----

  lemma SetProxyFrame(s: State, pid: Pid, q: UiProxy, loose: set<Rid>)
    requires pid in s.proxies && SameRequests(s.proxies[pid], q) && Valid(q) && Basic(s)
    ensures Frame(s, SetProxy(s, pid, q), loose) && Basic(SetProxy(s, pid, q))
  {
  }

  lemma SetProxyInv(s: State, pid: Pid, q: UiProxy, loose: set<Rid>)
    requires pid in s.proxies && SameRequests(s.proxies[pid], q) && Valid(q) && Inv(s, loose)
    ensures Inv(SetProxy(s, pid, q), loose)
  {
    Basics(s, loose);
    SetProxyFrame(s, pid, q, loose);
    FrameInv(s, SetProxy(s, pid, q), loose);
  }

  lemma Basics(s: State, loose: set<Rid>)
    requires Inv(s, loose)
    ensures Basic(s)
  {
    assert Ok(Names, s, loose) && Ok(Order, s, loose) && Ok(Flags, s, loose);
  }

  /** A change of a request that a step has under way, or that is about to go. */
  lemma SetRequestInv(s: State, r: Rid, x: Request, loose: set<Rid>)
    requires r in s.requests && (r in loose || r in s.deleted) && Inv(s, loose)
    ensures Inv(SetRequest(s, r, x), loose)
    ensures forall y :: NeverIssued(s, y) ==> NeverIssued(SetRequest(s, r, x), y)
  {
    Basics(s, loose);
    FrameInv(s, SetRequest(s, r, x), loose);
  }

  lemma NewProxyValid()
    ensures Valid(NEW_PROXY) && Unused(NEW_PROXY)
  {
    assert forall i :: Faithful(NEW_PROXY, i);
  }

  lemma AddProxyFrame(s: State, loose: set<Rid>)
    requires Basic(s)
    ensures Frame(s, AddProxy(s), loose) && Basic(AddProxy(s))
  {
    NewProxyValid();
    assert s.nextPid !in s.proxies && s.nextPid !in s.order;
  }

  lemma AddProxyInv(s: State, loose: set<Rid>)
    requires Inv(s, loose)
    ensures Inv(AddProxy(s), loose)
    ensures forall r :: NeverIssued(s, r) ==> NeverIssued(AddProxy(s), r)
  {
    Basics(s, loose);
    AddProxyFrame(s, loose);
    FrameInv(s, AddProxy(s), loose);
  }

  lemma SkipPidInv(s: State, loose: set<Rid>)
    requires Inv(s, loose)
    ensures Inv(s.(nextPid := s.nextPid + 1), loose)
    ensures forall r :: NeverIssued(s, r) ==> NeverIssued(s.(nextPid := s.nextPid + 1), r)
  {
    Basics(s, loose);
    FrameInv(s, s.(nextPid := s.nextPid + 1), loose);
  }

  lemma NotifyInv(s: State, loose: set<Rid>)
    requires Inv(s, loose)
    ensures Inv(NotifyIfIdle(s), loose)
  {
    Basics(s, loose);
    FrameInv(s, NotifyIfIdle(s), loose);
  }

  lemma {:induction false} WithoutOne(order: seq<Pid>, pid: Pid)
    requires forall i, j :: 0 <= i < j < |order| ==> order[i] != order[j]
    ensures var rest := Without(order, pid);
            && (forall x :: x in rest <==> x in order && x != pid)
            && (forall i, j :: 0 <= i < j < |rest| ==> rest[i] != rest[j])
  {
    if order != [] {
      assert order == [order[0]] + order[1..] && order[0] !in order[1..];
      WithoutOne(order[1..], pid);
      var rest := Without(order, pid);
      if order[0] != pid {
        forall i | 0 < i < |rest| ensures rest[i] != rest[0] { assert rest[i] in Without(order[1..], pid); }
      }
    }
  }

  lemma ProxyFinishedFrame(s: State, pid: Pid)
    requires Basic(s) && pid in s.proxies && pid !in s.dying
    ensures Frame(s, ProxyFinished(s, pid), {}) && Basic(ProxyFinished(s, pid))
  {
    WithoutOne(s.order, pid);
  }

  lemma ProxyFinishedInv(s: State, pid: Pid)
    requires Inv(s, {}) && pid in s.proxies && pid !in s.dying
    ensures Inv(ProxyFinished(s, pid), {})
  {
    Basics(s, {});
    ProxyFinishedFrame(s, pid);
    FrameInv(s, ProxyFinished(s, pid), {});
  }

  function Drop(s: State, pid: Pid): State {
    s.(proxies := s.proxies - {pid}, dying := Without(s.dying, pid))
  }

  lemma DropFrame(s: State, pid: Pid)
    requires Basic(s) && pid in s.dying && pid in s.proxies && s.proxies[pid].requests == map[]
    ensures Frame(s, Drop(s, pid), {}) && Basic(Drop(s, pid))
  {
    WithoutOne(s.dying, pid);
  }

  lemma DropInv(s: State, pid: Pid)
    requires Inv(s, {}) && pid in s.dying && pid in s.proxies && s.proxies[pid].requests == map[]
    ensures Inv(Drop(s, pid), {})
  {
    Basics(s, {});
    DropFrame(s, pid);
    FrameInv(s, Drop(s, pid), {});
  }

  lemma PurgeInv(s: State)
    requires Inv(s, {})
    ensures Inv(Purge(s), {})
  {
    Basics(s, {});
    FrameInv(s, Purge(s), {});
  }
}
