/** Storing account changes on behalf of a client, online-accounts-service/libaccounts-service.cpp:
    what a list of changes does to the values of an account and of its services, and which client
    is told how storing an account object has ended. */
module Libaccounts {

  const GLOBAL := "global"

  /** Where a value is kept: with the account itself or with one of its services. */
  datatype Place = Account | OfService(id: string)

  datatype Slot = Slot(place: Place, key: string)

  type Values = map<Slot, string>

  /** `settings` is visited in the order of its keys; the order does not matter. */
  datatype ServiceChanges = ServiceChanges(service: string, settings: map<string, string>, removedKeys: seq<string>)

  type Services = string -> bool

  function PlaceOf(service: string): Place {
    if service == GLOBAL then Account else OfService(service)
  }

  predicate Accepted(valid: Services, sc: ServiceChanges) {
    sc.service == GLOBAL || valid(sc.service)
  }

  // ----- the specification: the last change that touches a slot decides -----

  datatype Effect = Untouched | Removed | SetTo(value: string)

  /** What one change does to a slot: removal beats setting. */
  function EffectOf(valid: Services, sc: ServiceChanges, slot: Slot): Effect {
    if !Accepted(valid, sc) || slot.place != PlaceOf(sc.service) then Untouched
    else if slot.key in sc.removedKeys then Removed
    else if slot.key in sc.settings then SetTo(sc.settings[slot.key])
    else Untouched
  }

  function LastEffect(valid: Services, changes: seq<ServiceChanges>, slot: Slot): Effect {
    if changes == [] then Untouched
    else
      var e := EffectOf(valid, changes[|changes| - 1], slot);
      if e != Untouched then e else LastEffect(valid, changes[..|changes| - 1], slot)
  }

  /** `v` is what `slot` holds in `after` if it held `before[slot]` and `e` was done to it. */
  ghost predicate Obeys(before: Values, after: Values, slot: Slot, e: Effect) {
    match e
    case Untouched => (slot in after <==> slot in before) && (slot in after ==> after[slot] == before[slot])
    case Removed => slot !in after
    case SetTo(v) => slot in after && after[slot] == v
  }

  /** The effect is that of one particular change, after which none touches the slot. */
  lemma {:induction false} LastEffectIsLast(valid: Services, changes: seq<ServiceChanges>, slot: Slot)
    ensures
      var e := LastEffect(valid, changes, slot);
      if e == Untouched then forall i :: 0 <= i < |changes| ==> EffectOf(valid, changes[i], slot) == Untouched
      else exists i :: 0 <= i < |changes| && EffectOf(valid, changes[i], slot) == e
                       && forall j :: i < j < |changes| ==> EffectOf(valid, changes[j], slot) == Untouched
  {
    if changes != [] {
      var n := |changes| - 1;
      LastEffectIsLast(valid, changes[..n], slot);
      if EffectOf(valid, changes[n], slot) == Untouched && LastEffect(valid, changes[..n], slot) != Untouched {
        var e := LastEffect(valid, changes, slot);
        var i :| 0 <= i < n && EffectOf(valid, changes[..n][i], slot) == e
                 && forall j :: i < j < n ==> EffectOf(valid, changes[..n][j], slot) == Untouched;
        assert EffectOf(valid, changes[i], slot) == e;
        forall j | i < j <= n ensures EffectOf(valid, changes[j], slot) == Untouched {
          if j < n { assert changes[..n][j] == changes[j]; }
        }
      }
    }
  }

  // ----- the writes that wait for libaccounts -----

  type Object = nat
  type Message = nat

  datatype Outcome = Created(accountId: nat) | Failed(error: string)

  /** `replaced`: messages whose account object was used again before it was synced. */
  datatype Pending = Pending(waiting: map<Object, Message>, answered: seq<(Message, Outcome)>, replaced: seq<Message>)

  function Register(p: Pending, account: Object, m: Message): Pending {
    p.(waiting := p.waiting[account := m],
       replaced := if account in p.waiting then p.replaced + [p.waiting[account]] else p.replaced)
  }

  /** onAccountSynced and onAccountError */
  function Settle(p: Pending, account: Object, outcome: Outcome): Pending {
    if account !in p.waiting then p
    else p.(waiting := p.waiting - {account}, answered := p.answered + [(p.waiting[account], outcome)])
  }

  datatype Event = Store(account: Object) | Settled(account: Object, outcome: Outcome)

  /** The messages are numbered in the order in which they come in. */
  function Run(events: seq<Event>): (Pending, nat) {
    if events == [] then (Pending(map[], [], []), 0)
    else
      var (p, n) := Run(events[..|events| - 1]);
      match events[|events| - 1]
      case Store(account) => (Register(p, account, n), n + 1)
      case Settled(account, outcome) => (Settle(p, account, outcome), n)
  }

  ghost predicate IsAnswered(answered: seq<(Message, Outcome)>, m: Message) {
    exists i :: 0 <= i < |answered| && answered[i].0 == m
  }

  ghost predicate IsWaiting(p: Pending, m: Message) {
    exists a :: a in p.waiting && p.waiting[a] == m
  }

  /** Messages below `n` are answered, waiting or replaced; in one of these, and once. */
  ghost predicate Accounted(p: Pending, n: nat) {
    && (forall i :: 0 <= i < |p.answered| ==> p.answered[i].0 < n)
    && (forall i, j :: 0 <= i < j < |p.answered| ==> p.answered[i].0 != p.answered[j].0)
    && (forall a :: a in p.waiting ==>
          p.waiting[a] < n && !IsAnswered(p.answered, p.waiting[a]) && p.waiting[a] !in p.replaced)
    && (forall a, b :: a in p.waiting && b in p.waiting && a != b ==> p.waiting[a] != p.waiting[b])
    && (forall m :: m in p.replaced ==> m < n && !IsAnswered(p.answered, m))
    && (forall m: nat :: m < n ==> IsAnswered(p.answered, m) || IsWaiting(p, m) || m in p.replaced)
  }

  lemma RegisterKeeps(p: Pending, account: Object, n: nat)
    requires Accounted(p, n)
    ensures Accounted(Register(p, account, n), n + 1)
  {
    var q := Register(p, account, n);
    assert !IsAnswered(p.answered, n);
    forall m: nat | m < n + 1 ensures IsAnswered(q.answered, m) || IsWaiting(q, m) || m in q.replaced {
      RegisterSpares(p, account, n, m);
    }
  }

  lemma RegisterSpares(p: Pending, account: Object, n: nat, m: nat)
    requires m == n || IsAnswered(p.answered, m) || IsWaiting(p, m) || m in p.replaced
    ensures var q := Register(p, account, n); IsAnswered(q.answered, m) || IsWaiting(q, m) || m in q.replaced
  {
    var q := Register(p, account, n);
    if m == n {
      assert q.waiting[account] == m;
    } else if IsWaiting(p, m) {
      var a :| a in p.waiting && p.waiting[a] == m;
      if a != account { assert q.waiting[a] == m; }
    }
  }

  lemma SettleKeeps(p: Pending, account: Object, outcome: Outcome, n: nat)
    requires Accounted(p, n)
    ensures Accounted(Settle(p, account, outcome), n)
  {
    if account in p.waiting {
      var q, x := Settle(p, account, outcome), p.waiting[account];
      forall m: nat ensures IsAnswered(q.answered, m) <==> IsAnswered(p.answered, m) || m == x {
        if IsAnswered(p.answered, m) {
          var i :| 0 <= i < |p.answered| && p.answered[i].0 == m;
          assert q.answered[i].0 == m;
        }
        assert q.answered[|p.answered|].0 == x;
      }
      forall m: nat | m < n ensures IsAnswered(q.answered, m) || IsWaiting(q, m) || m in q.replaced {
        if IsWaiting(p, m) && m != x {
          var a :| a in p.waiting && p.waiting[a] == m;
          assert a in q.waiting && q.waiting[a] == m;
        }
      }
    }
  }

  /** Each registered message is answered once and then forgotten, or still waits, or has lost
      its place because its account object was stored again in the meantime. */
  lemma {:induction false} EachMessageOnce(events: seq<Event>)
    ensures Accounted(Run(events).0, Run(events).1)
  {
    if events != [] {
      var (p, n) := Run(events[..|events| - 1]);
      EachMessageOnce(events[..|events| - 1]);
      match events[|events| - 1]
      case Store(account) => RegisterKeeps(p, account, n);
      case Settled(account, outcome) => SettleKeeps(p, account, outcome, n);
    }
  }

  /** Message `m` asked for the account object `a` to be stored. */
  ghost predicate AskedFor(events: seq<Event>, m: Message, a: Object) {
    exists k :: 0 <= k < |events| && events[k] == Store(a) && Run(events[..k]).1 == m
  }

  /** The object settled, with this outcome, after message `m` had asked for it to be stored. */
  ghost predicate Told(events: seq<Event>, m: Message, outcome: Outcome) {
    exists k, a :: 0 <= k < |events| && events[k] == Settled(a, outcome) && AskedFor(events[..k], m, a)
  }

  lemma AskedEarlier(events: seq<Event>, n: nat, m: Message, a: Object)
    requires n <= |events| && AskedFor(events[..n], m, a)
    ensures AskedFor(events, m, a)
  {
    var k :| 0 <= k < n && events[..n][k] == Store(a) && Run(events[..n][..k]).1 == m;
    assert events[..n][..k] == events[..k];
  }

  lemma ToldEarlier(events: seq<Event>, n: nat, m: Message, outcome: Outcome)
    requires n <= |events| && Told(events[..n], m, outcome)
    ensures Told(events, m, outcome)
  {
    var k, a :| 0 <= k < n && events[..n][k] == Settled(a, outcome) && AskedFor(events[..n][..k], m, a);
    assert events[..n][..k] == events[..k];
  }

  ghost predicate Theirs(events: seq<Event>, p: Pending) {
    && (forall a :: a in p.waiting ==> AskedFor(events, p.waiting[a], a))
    && (forall i :: 0 <= i < |p.answered| ==> Told(events, p.answered[i].0, p.answered[i].1))
  }

  lemma TheirsLater(events: seq<Event>, n: nat, p: Pending)
    requires n <= |events| && Theirs(events[..n], p)
    ensures Theirs(events, p)
  {
    forall a | a in p.waiting { AskedEarlier(events, n, p.waiting[a], a); }
    forall i | 0 <= i < |p.answered| { ToldEarlier(events, n, p.answered[i].0, p.answered[i].1); }
  }

  /** Each client is told the outcome of storing the very object that it asked for. */
  lemma {:induction false} OutcomesAreTheirs(events: seq<Event>)
    ensures Theirs(events, Run(events).0)
  {
    if events != [] {
      var k := |events| - 1;
      var (p, n) := Run(events[..k]);
      OutcomesAreTheirs(events[..k]);
      TheirsLater(events, k, p);
      match events[k]
      case Store(account) => assert AskedFor(events, n, account);
      case Settled(account, outcome) =>
        if account in p.waiting { assert Told(events, p.waiting[account], outcome); }
    }
  }

  /** Objects that are not stored again while they wait. */
  ghost predicate NoReuse(events: seq<Event>) {
    forall n :: 0 <= n < |events| && events[n].Store? ==> events[n].account !in Run(events[..n]).0.waiting
  }

  /** Nothing is ever lost exactly when objects are not reused while they wait. */
  lemma {:induction false} NothingReplaced(events: seq<Event>)
    ensures Run(events).0.replaced == [] <==> NoReuse(events)
  {
    if events != [] {
      var k := |events| - 1;
      NothingReplaced(events[..k]);
      forall n | 0 <= n < k ensures events[..k][..n] == events[..n] && events[..k][n] == events[n] {}
      assert NoReuse(events) <==>
        NoReuse(events[..k]) && (events[k].Store? ==> events[k].account !in Run(events[..k]).0.waiting);
    }
  }

  // ----- the object -----

  class LibaccountsService {
    const valid: Services
    var waiting: map<Object, Message>
    var answered: seq<(Message, Outcome)>
    var replaced: seq<Message>

    function State(): Pending
      reads this
    {
      Pending(waiting, answered, replaced)
    }

    constructor (valid: Services)
      ensures State() == Pending(map[], [], []) && this.valid == valid
    {
      this.valid, waiting, answered, replaced := valid, map[], [], [];
    }

    /** The loops of writeChanges over the service changes of an account that is not deleted. */
    method ApplyChanges(values: Values, changes: seq<ServiceChanges>) returns (after: Values)
      ensures forall slot :: Obeys(values, after, slot, LastEffect(valid, changes, slot))
    {
      after := values;
      for i := 0 to |changes|
        invariant forall slot :: Obeys(values, after, slot, LastEffect(valid, changes[..i], slot))
      {
        assert changes[..i + 1][..i] == changes[..i];
        var sc := changes[i];
        var selected := Account;
        if sc.service != GLOBAL {
          if !valid(sc.service) {
            continue;
          }
          selected := OfService(sc.service);
        }
        after := ApplyOne(after, selected, sc);
      }
      assert changes[..|changes|] == changes;
    }

    /** Set, then remove, with one service selected. */
    method ApplyOne(values: Values, selected: Place, sc: ServiceChanges) returns (after: Values)
      requires selected == PlaceOf(sc.service) && Accepted(valid, sc)
      ensures forall slot :: Obeys(values, after, slot, EffectOf(valid, sc, slot))
    {
      after := values;
      var rest := sc.settings.Keys;
      while rest != {}
        invariant rest <= sc.settings.Keys
        invariant forall slot :: Obeys(values, after, slot, SetSoFar(selected, sc, rest, slot))
        decreases |rest|
      {
        ghost var was, left := after, rest;
        var key :| key in rest;
        rest := rest - {key};
        after := after[Slot(selected, key) := sc.settings[key]];
        forall slot ensures Obeys(values, after, slot, SetSoFar(selected, sc, rest, slot)) {
          assert Obeys(values, was, slot, SetSoFar(selected, sc, left, slot));
        }
      }
      for i := 0 to |sc.removedKeys|
        invariant forall slot :: Obeys(values, after, slot, RemovedSoFar(selected, sc, sc.removedKeys[..i], slot))
      {
        ghost var was := after;
        after := after - {Slot(selected, sc.removedKeys[i])};
        ghost var removed := sc.removedKeys[..i + 1];
        assert removed == sc.removedKeys[..i] + [sc.removedKeys[i]];
        forall slot ensures Obeys(values, after, slot, RemovedSoFar(selected, sc, removed, slot)) {
          assert Obeys(values, was, slot, RemovedSoFar(selected, sc, sc.removedKeys[..i], slot));
        }
      }
      assert sc.removedKeys[..|sc.removedKeys|] == sc.removedKeys;
      forall slot ensures Obeys(values, after, slot, EffectOf(valid, sc, slot)) {
        assert Obeys(values, after, slot, RemovedSoFar(selected, sc, sc.removedKeys, slot));
      }
    }

    method InsertPending(account: Object, message: Message)
      modifies this`waiting, this`replaced
      ensures State() == Register(old(State()), account, message)
    {
      if account in waiting {
        replaced := replaced + [waiting[account]];
      }
      waiting := waiting[account := message];
    }

    method OnAccountSynced(account: Object, accountId: nat)
      modifies this`waiting, this`answered
      ensures State() == Settle(old(State()), account, Created(accountId))
    {
      if account in waiting {
        answered := answered + [(waiting[account], Created(accountId))];
        waiting := waiting - {account};
      }
    }

    method OnAccountError(account: Object, error: string)
      modifies this`waiting, this`answered
      ensures State() == Settle(old(State()), account, Failed(error))
    {
      if account in waiting {
        answered := answered + [(waiting[account], Failed(error))];
        waiting := waiting - {account};
      }
    }
  }

  function SetSoFar(selected: Place, sc: ServiceChanges, rest: set<string>, slot: Slot): Effect {
    if slot.place == selected && slot.key in sc.settings && slot.key !in rest then SetTo(sc.settings[slot.key])
    else Untouched
  }

  function RemovedSoFar(selected: Place, sc: ServiceChanges, removed: seq<string>, slot: Slot): Effect {
    if slot.place == selected && slot.key in removed then Removed else SetSoFar(selected, sc, {}, slot)
  }

  /** The change is of a service that is known, or of the account itself, and names the value. */
  predicate Names(valid: Services, sc: ServiceChanges, slot: Slot) {
    && (if sc.service == "global" then slot.place == Account
        else valid(sc.service) && slot.place == OfService(sc.service))
    && (slot.key in sc.settings || slot.key in sc.removedKeys)
  }

  lemma NamesExactly(valid: Services, sc: ServiceChanges, slot: Slot)
    ensures EffectOf(valid, sc, slot) != Untouched <==> Names(valid, sc, slot)
  {
  }

  /** What is read afterwards is what the last change says that names the value; removing beats
      setting. */
  lemma LastWriterWins(valid: Services, before: Values, after: Values, changes: seq<ServiceChanges>,
                       i: nat, slot: Slot)
    requires i < |changes| && Names(valid, changes[i], slot)
    requires Obeys(before, after, slot, LastEffect(valid, changes, slot))
    requires forall j :: i < j < |changes| ==> !Names(valid, changes[j], slot)
    ensures slot.key in changes[i].removedKeys ==> slot !in after
    ensures slot.key !in changes[i].removedKeys ==> slot in after && after[slot] == changes[i].settings[slot.key]
  {
    NamesExactly(valid, changes[i], slot);
    forall j | i < j < |changes| ensures EffectOf(valid, changes[j], slot) == Untouched {
      NamesExactly(valid, changes[j], slot);
    }
    LastEffectFrom(valid, changes, i, slot);
  }

  /** A value that no change names, for instance one of a service that is not known, stays. */
  lemma OthersStay(valid: Services, before: Values, after: Values, changes: seq<ServiceChanges>, slot: Slot)
    requires Obeys(before, after, slot, LastEffect(valid, changes, slot))
    requires forall i :: 0 <= i < |changes| ==> !Names(valid, changes[i], slot)
    ensures (slot in after <==> slot in before) && (slot in before ==> after[slot] == before[slot])
  {
    forall i | 0 <= i < |changes| ensures EffectOf(valid, changes[i], slot) == Untouched {
      NamesExactly(valid, changes[i], slot);
    }
    LastEffectIsLast(valid, changes, slot);
  }

  lemma {:induction false} LastEffectFrom(valid: Services, changes: seq<ServiceChanges>, i: nat, slot: Slot)
    requires i < |changes| && EffectOf(valid, changes[i], slot) != Untouched
    requires forall j :: i < j < |changes| ==> EffectOf(valid, changes[j], slot) == Untouched
    ensures LastEffect(valid, changes, slot) == EffectOf(valid, changes[i], slot)
  {
    var n := |changes| - 1;
    if i < n {
      forall j | i < j < n ensures EffectOf(valid, changes[..n][j], slot) == Untouched {
        assert changes[..n][j] == changes[j];
      }
      LastEffectFrom(valid, changes[..n], i, slot);
    }
  }
}
