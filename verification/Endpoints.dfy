/** The two ends of a connection as objects: the UiProxy of the daemon
    (online-accounts-service/ui-proxy.cpp) and the UiServer of the UI process
    (online-accounts-ui/ui-server.cpp, with its requests of request.cpp). Each method does what
    the function named in its contract does; what these functions keep is proved in `Proxy`. */
module Endpoints {
  import opened P = Proxy

  class ServiceProxy {
    var status: Status
    var listening: bool
    var socket: Socket
    var nextRequestId: nat
    var requests: map<nat, Pending>
    var handlers: seq<string>
    var timerActive: bool
    var wire: Wire
    ghost var issued: seq<Rid>
    ghost var sent: seq<nat>

    ghost function State(): UiProxy
      reads this
    {
      UiProxy(status, listening, socket, nextRequestId, requests, handlers, timerActive, wire, issued, sent)
    }

    constructor ()
      ensures State() == NEW_PROXY
    {
      status, listening, socket, nextRequestId, requests := Null, false, Closed, 0, map[];
      handlers, timerActive, wire, issued, sent := [], false, NO_WIRE, [], [];
    }

    method SendRequest(id: nat, params: Params)
      modifies this`wire, this`sent
      ensures State() == P.SendRequest(old(State()), id, params)
    {
      sent := sent + [id];
      if socket == Open {
        wire := wire.(toUi := wire.toUi + [Process(id, params)]);
      }
    }

    method StartProcess(outcome: Outcome)
      modifies this`status, this`listening
      ensures State() == P.StartProcess(outcome, old(State()))
    {
      if outcome == InitFails || outcome == SocketFails {
        status := Error;
        return;
      }
      listening := true;
      if outcome == ProcessFails {
        status := Error;
      } else {
        status := Loading;
      }
    }

    method HandleRequest(outcome: Outcome, request: Pending)
      modifies this
      ensures State() == P.HandleRequest(outcome, old(State()), request)
    {
      var id := nextRequestId;
      nextRequestId := nextRequestId + 1;
      issued := issued + [request.rid];
      requests := requests[id := request];
      if status == Ready {
        SendRequest(id, request.params);
      } else if status == Null {
        StartProcess(outcome);
      }
    }

    /** The UI process connects: stop listening and send all that waits, in the order of the ids. */
    method OnNewConnection()
      modifies this
      ensures State() == P.OnNewConnection(old(State()))
    {
      if !listening || socket != Closed {
        return;
      }
      socket := Open;
      listening := false;
      status := Ready;
      ghost var start := State();
      var id := 0;
      while id < nextRequestId
        invariant 0 <= id <= nextRequestId == start.nextRequestId && requests == start.requests
        invariant SendPending(State(), id) == SendPending(start, 0)
      {
        if id in requests {
          SendRequest(id, requests[id].params);
        }
        id := id + 1;
      }
    }

    /** QMap::key: the id of a request, or -1. */
    method Key(rid: Rid) returns (id: int)
      ensures id == KeyOf(requests, rid, 0, nextRequestId)
    {
      var k := 0;
      while k < nextRequestId
        invariant 0 <= k <= nextRequestId
        invariant KeyOf(requests, rid, 0, nextRequestId) == KeyOf(requests, rid, k, nextRequestId)
      {
        if k in requests && requests[k].rid == rid {
          return k;
        }
        k := k + 1;
      }
      return -1;
    }

    method OnRequestCompleted(rid: Rid)
      modifies this`timerActive, this`requests
      ensures State() == P.OnRequestCompleted(old(State()), rid)
    {
      timerActive := true;
      var id := Key(rid);
      if id != -1 {
        requests := requests - {id};
      }
    }

    /** `finished`: the proxy tells the manager that it is done. */
    method OnFinishedTimer() returns (finished: bool)
      modifies this`timerActive
      ensures State() == old(State()).(timerActive := false)
      ensures finished == (old(requests) == map[])
    {
      timerActive := false;
      finished := requests == map[];
    }

    method OnDisconnected() returns (finished: bool)
      modifies this`socket, this`wire
      ensures State() == Disconnect(old(State())) && finished == !timerActive
    {
      socket, wire := Dead, NO_WIRE;
      finished := !timerActive;
    }
  }

  class UiServer {
    var toUi: seq<ToUi>
    var requests: map<nat, UiRequest>
    var toService: seq<ToService>

    function State(): Wire
      reads this
    {
      Wire(toUi, requests, toService)
    }

    constructor ()
      ensures State() == NO_WIRE
    {
      toUi, requests, toService := [], map[], [];
    }

    method OnDataReady()
      modifies this`toUi, this`requests
      ensures State() == UiReceive(old(State()))
    {
      if toUi == [] {
        return;
      }
      var message := toUi[0];
      toUi := toUi[1..];
      requests := requests[message.id := UiRequest(message.params, true, true, "", "", "", 0)];
    }

    /** Answer the request, and do not listen to it any more. */
    method OnRequestCompleted(id: nat)
      requires id in requests
      modifies this`requests, this`toService
      ensures State() == UiCompleted(old(State()), id)
    {
      var request := requests[id];
      if !request.connected {
        return;
      }
      requests := requests[id := request.(connected := false)];
      if request.errorName == "" {
        toService := toService + [Finished(id, request.result, request.delay, request.params)];
      } else {
        toService := toService + [Failed(id, request.errorName, request.errorMessage, request.params)];
      }
    }

    method SetResult(id: nat, data: string)
      modifies this`requests, this`toService
      ensures State() == UiSetResult(old(State()), id, data)
    {
      if id in requests && requests[id].inProgress {
        requests := requests[id := requests[id].(result := data)];
        OnRequestCompleted(id);
        requests := requests[id := requests[id].(inProgress := false)];
      }
    }

    method Fail(id: nat, name: string, message: string)
      modifies this`requests, this`toService
      ensures State() == UiFail(old(State()), id, name, message)
      ensures old(requests).Keys == requests.Keys
    {
      if id in requests {
        requests := requests[id := requests[id].(errorName := name, errorMessage := message)];
        OnRequestCompleted(id);
      }
    }

    method SetCanceled(id: nat)
      modifies this`requests, this`toService
      ensures State() == UiSetCanceled(old(State()), id)
    {
      if id in requests && requests[id].inProgress {
        Fail(id, ERROR_USER_CANCELED, "Canceled");
        requests := requests[id := requests[id].(inProgress := false)];
      }
    }

    method RegisterHandlerId(handlerId: string)
      modifies this`toService
      ensures State() == UiRegister(old(State()), handlerId)
    {
      toService := toService + [RegisterHandler(handlerId)];
    }
  }
}
