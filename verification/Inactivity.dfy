/** The timer that ends the daemon when nothing is left to do:
    online-accounts-service/inactivity-timer.cpp, watching the objects that main.cpp gives it,
    the request manager and the indicator service among them. */
module Inactivity {
  import D = Daemon
  import V = Invariant
  import Runs
  import Steps
  import I = Indicator

  // ----- the object -----

  class Watched {
    var isIdle: bool

    constructor (isIdle: bool)
      ensures this.isIdle == isIdle
    {
      this.isIdle := isIdle;
    }
  }

  class InactivityTimer {
    var watchedObjects: seq<Watched>
    var active: bool
    var timeouts: nat

    ghost predicate AllIdle()
      reads this, watchedObjects
    {
      forall o :: o in watchedObjects ==> o.isIdle
    }

    constructor ()
      ensures watchedObjects == [] && !active && timeouts == 0
    {
      watchedObjects, active, timeouts := [], false, 0;
    }

    method AllObjectsAreIdle() returns (idle: bool)
      ensures idle == AllIdle()
    {
      for i := 0 to |watchedObjects|
        invariant forall o :: o in watchedObjects[..i] ==> o.isIdle
      {
        if !watchedObjects[i].isIdle {
          return false;
        }
      }
      return true;
    }

    method OnIdleChanged()
      modifies this`active
      ensures active == AllIdle()
    {
      active := AllObjectsAreIdle();
    }

    method WatchObject(o: Watched)
      modifies this
      ensures watchedObjects == old(watchedObjects) + [o] && timeouts == old(timeouts)
      ensures active == (o.isIdle && old(AllIdle()))
    {
      watchedObjects := watchedObjects + [o];
      OnIdleChanged();
      assert o in watchedObjects && forall w :: w in old(watchedObjects) ==> w in watchedObjects;
    }

    /** The timer is single-shot. */
    method OnTimeout()
      requires active
      modifies this`active, this`timeouts
      ensures !active && timeouts == old(timeouts) + if AllIdle() then 1 else 0
    {
      active := false;
      var idle := AllObjectsAreIdle();
      if idle {
        timeouts := timeouts + 1;
      }
    }
  }

  // ----- the timer beside the daemon -----

  /** `api`: the third watched object is idle. `fired`: there was no notification since the timer
      fired. */
  datatype System = System(d: D.State, n: I.Service, api: bool, active: bool, fired: bool, timeouts: nat)

  predicate Quiet(s: System) {
    s.d.queues == map[] && s.n.failures == {} && s.api
  }

  /** onIdleChanged */
  function Notified(s: System): System {
    s.(active := Quiet(s), fired := false)
  }

  /** `again`: the object notified although its last notification was still true. */
  datatype Event =
    | OfDaemon(de: D.Event, again: bool)
    | OfIndicator(ie: I.Event, again: bool)
    | OfApi(idle: bool, again: bool)
    | Fire

  const BEGIN := System(D.START, I.FRESH, true, true, false, 0)

  /** What happens to the objects that are watched. */
  function Moved(world: D.World, s: System, e: Event): System {
    match e
    case OfDaemon(de, _) => s.(d := D.Step(world, s.d, de))
    case OfIndicator(ie, _) => s.(n := I.Step(s.n, ie))
    case OfApi(idle, _) => s.(api := idle)
    case Fire => s
  }

  predicate Notifies(s: System, t: System, e: Event) {
    && !e.Fire?
    && (t.d.idleSeen != s.d.idleSeen || t.n.idleSeen != s.n.idleSeen || t.api != s.api || e.again)
  }

  /** onTimeout; the timer is single-shot. */
  function Fired(s: System): System {
    if s.active then s.(active := false, fired := true, timeouts := s.timeouts + if Quiet(s) then 1 else 0) else s
  }

  function Step(world: D.World, s: System, e: Event): System {
    if e.Fire? then Fired(s)
    else
      var t := Moved(world, s, e);
      if Notifies(s, t, e) then Notified(t) else t
  }

  // ----- the object is the timer of the system -----

  /** `timer` watches the three objects that main.cpp gives it, and they are as `s` says. */
  ghost predicate Watches(timer: InactivityTimer, s: System)
    reads timer, timer.watchedObjects
  {
    var objects := timer.watchedObjects;
    && |objects| == 3 && objects[0] != objects[1] && objects[0] != objects[2] && objects[1] != objects[2]
    && objects[0].isIdle == s.api
    && objects[1].isIdle == (s.d.queues == map[])
    && objects[2].isIdle == (s.n.failures == {})
    && timer.active == s.active && timer.timeouts == s.timeouts
  }

  method WatchAll() returns (timer: InactivityTimer)
    ensures Watches(timer, BEGIN)
  {
    var v2api := new Watched(true);
    var requestManager := new Watched(true);
    var indicatorService := new Watched(true);
    timer := new InactivityTimer();
    timer.WatchObject(v2api);
    timer.WatchObject(requestManager);
    timer.WatchObject(indicatorService);
    assert timer.watchedObjects == [v2api, requestManager, indicatorService];
    assert timer.AllIdle() == (v2api.isIdle && requestManager.isIdle && indicatorService.isIdle);
  }

  /** The objects become what they are in `t`, and may notify. */
  method Move(timer: InactivityTimer, s: System, t: System, notifies: bool)
    requires Watches(timer, s) && t.active == s.active && t.timeouts == s.timeouts
    modifies timer, timer.watchedObjects
    ensures Watches(timer, if notifies then Notified(t) else t)
  {
    var objects := timer.watchedObjects;
    objects[0].isIdle := t.api;
    objects[1].isIdle := t.d.queues == map[];
    objects[2].isIdle := t.n.failures == {};
    if notifies {
      timer.OnIdleChanged();
    }
  }

  /** Whatever happens in the daemon, the object does what the timer of the system does: its
      slots run when an object it watches notifies, and when it fires. */
  method Dispatch(world: D.World, timer: InactivityTimer, s: System, e: Event)
    requires Watches(timer, s)
    modifies timer, timer.watchedObjects
    ensures Watches(timer, Step(world, s, e))
  {
    if e.Fire? {
      if timer.active {
        timer.OnTimeout();
      }
    } else {
      var t := Moved(world, s, e);
      Move(timer, s, t, Notifies(s, t, e));
    }
  }

  /** The states that a sequence of events leads through. */
  datatype Run = Run(world: D.World, events: seq<Event>, states: seq<System>)

  ghost predicate Follows(run: Run, i: nat)
    requires i < |run.events| && |run.states| == |run.events| + 1
  {
    run.states[i + 1] == Step(run.world, run.states[i], run.events[i])
  }

  ghost predicate IsRun(run: Run) {
    && |run.states| == |run.events| + 1 && run.states[0] == BEGIN
    && forall i :: 0 <= i < |run.events| ==> Follows(run, i)
  }

  predicate Alive(s: System) {
    !s.d.aborted && !s.n.aborted
  }

  ghost predicate Faithful(s: System) {
    && V.Settled(s.d) && I.Inv(s.n)
    && (s.active <==> Quiet(s) && !s.fired)
  }

  lemma StepFaithful(world: D.World, s: System, e: Event)
    requires Faithful(s) && Alive(s) && Alive(Step(world, s, e))
    ensures Faithful(Step(world, s, e))
  {
    assert V.Ok(V.Flags, s.d, {});
    match e
    case OfDaemon(de, _) =>
      Steps.LateReply(world, s.d, de);
      assert V.Ok(V.Flags, D.Step(world, s.d, de), {});
    case OfIndicator(ie, _) => I.StepKeeps(s.n, ie);
    case _ =>
  }

  lemma AbortStays(world: D.World, s: System, e: Event)
    ensures Alive(Step(world, s, e)) ==> Alive(s)
  {
  }

  /** State `n` of a run, with no failed assertion so far. */
  ghost predicate Reaches(run: Run, n: nat) {
    IsRun(run) && n < |run.states| && Alive(run.states[n])
  }

  lemma BeginFaithful()
    ensures Faithful(BEGIN)
  {
    Runs.StartSettled();
    I.FreshInv();
  }

  lemma {:induction false} RunFaithful(run: Run, n: nat)
    requires Reaches(run, n)
    ensures Faithful(run.states[n])
  {
    if n == 0 {
      BeginFaithful();
    } else {
      assert Follows(run, n - 1);
      AbortStays(run.world, run.states[n - 1], run.events[n - 1]);
      RunFaithful(run, n - 1);
      StepFaithful(run.world, run.states[n - 1], run.events[n - 1]);
    }
  }

  /** Between events the timer runs exactly while all that it watches is idle, until it fires. */
  lemma ActiveWhileIdle(run: Run, n: nat)
    requires Reaches(run, n)
    ensures
      var s := run.states[n];
      s.active <==> s.d.queues == map[] && s.n.failures == {} && s.api && !s.fired
  {
    RunFaithful(run, n);
  }

  /** When the timer fires, no queue exists and no failure is recorded: the second look that
      onTimeout takes never finds anything. */
  lemma TimeoutOnlyWhenIdle(run: Run, n: nat)
    requires Reaches(run, n) && run.states[n].active
    ensures
      var s := run.states[n];
      && s.d.queues == map[] && s.n.failures == {} && s.api
      && Step(run.world, s, Fire) == s.(active := false, fired := true, timeouts := s.timeouts + 1)
  {
    RunFaithful(run, n);
  }
}
