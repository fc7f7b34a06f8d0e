/** The search for a free port: plugins/OnlineAccountsPlugin/loopback-server.cpp. */
module Loopback {
  import opened Options

  const PORTS: nat := 0x1_0000

  /** Port arithmetic is modulo 2^16. */
  function PortAt(port: nat, i: nat): nat {
    (port + i) % PORTS
  }

  /** How many ports are tried; the comparison is made in `int`, the counter has sixteen bits. */
  function Tried(increments: int): nat {
    if increments < 0 then 1 else if increments < PORTS then increments + 1 else PORTS
  }

  /** Counting through all sixteen bits visits every port. */
  lemma EveryPortIsVisited(port: nat, p: nat)
    requires port < PORTS && p < PORTS
    ensures exists i: nat :: i < PORTS && PortAt(port, i) == p
  {
    var i := if port <= p then p - port else p + PORTS - port;
    assert PortAt(port, i) == p;
  }

  lemma NoPortIsFree(port: nat, free: nat -> bool)
    requires port < PORTS && forall i: nat :: i < PORTS ==> !free(PortAt(port, i))
    ensures forall p: nat :: p < PORTS ==> !free(p)
  {
    forall p: nat | p < PORTS ensures !free(p) {
      EveryPortIsVisited(port, p);
    }
  }

  /** How many steps up from `port` it is to `p`, from the last port on to the first. */
  function StepsUp(port: nat, p: nat): int {
    if port <= p then p - port else p + 65536 - port
  }

  lemma StepsToPort(port: nat, i: nat)
    requires port < PORTS && i < PORTS
    ensures PortAt(port, i) < 65536 && StepsUp(port, PortAt(port, i)) == i
  {
  }

  lemma PortInSteps(port: nat, p: nat)
    requires port < PORTS && p < PORTS
    ensures 0 <= StepsUp(port, p) < PORTS && PortAt(port, StepsUp(port, p)) == p
  {
  }

  lemma NoneBelow(port: nat, free: nat -> bool, n: int)
    requires port < PORTS && forall j: nat :: j < n ==> !free(PortAt(port, j))
    ensures forall p: nat :: p < 65536 && StepsUp(port, p) < n ==> !free(p)
  {
    forall p: nat | p < 65536 && StepsUp(port, p) < n ensures !free(p) {
      PortInSteps(port, p);
    }
  }

  /** The first free port is bound; port 0 is free when the system can choose one. If none of the
      ports is free and more increments are allowed than there are ports, the counter wraps around
      and the loop never ends: `spinning`. */
  method Listen(port: nat, increments: int, free: nat -> bool) returns (bound: Option<nat>, spinning: bool)
    requires port < PORTS
    ensures bound.Some? ==>
              && bound.value < 65536 && free(bound.value)
              && (StepsUp(port, bound.value) == 0 || StepsUp(port, bound.value) <= increments)
              && forall p: nat :: p < 65536 && StepsUp(port, p) < StepsUp(port, bound.value) ==> !free(p)
    ensures bound.None? ==>
              forall p: nat :: p < 65536 && (StepsUp(port, p) == 0 || StepsUp(port, p) <= increments) ==> !free(p)
    ensures bound.Some? ==> exists i: nat :: i < Tried(increments) && bound.value == PortAt(port, i)
                                             && free(bound.value)
                                             && forall j: nat :: j < i ==> !free(PortAt(port, j))
    ensures bound.None? ==> forall i: nat :: i < Tried(increments) ==> !free(PortAt(port, i))
    ensures spinning <==> bound.None? && increments >= PORTS
    ensures spinning <==> increments >= PORTS && forall p: nat :: p < PORTS ==> !free(p)
  {
    bound, spinning := None, false;
    var attempts: nat := 0;
    var tries: nat := 0;
    while true
      invariant attempts == tries < PORTS && tries < Tried(increments) && bound.None? && !spinning
      invariant forall j: nat :: j < tries ==> !free(PortAt(port, j))
      decreases PORTS - tries
    {
      var candidate := PortAt(port, attempts);
      if free(candidate) {
        StepsToPort(port, tries);
        NoneBelow(port, free, tries);
        bound := Some(candidate);
        return;
      }
      var more := attempts < increments;
      attempts := (attempts + 1) % PORTS;
      tries := tries + 1;
      if !more {
        NoneBelow(port, free, tries);
        break;
      }
      if attempts == 0 {
        NoPortIsFree(port, free);
        spinning := true;
        break;
      }
    }
  }
}
