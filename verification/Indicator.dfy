/** The service that reports failed authentications and replays them:
    online-accounts-service/indicator-service.cpp. */
module Indicator {
  import opened Options
  import opened Reauthentication

  type Account = nat
  type Rid = nat
  type Auth = string

  /** A reauthenticator that was started: for which account, and what became of its sessions. */
  datatype Start = Start(account: Account, sessions: seq<Session>)

  /** `joins` are the reauthenticators at work, `signals` their queued `finished` signals,
      `started` all that there have been, by number, `idleSeen` the value of isIdle at the last
      isIdleChanged, `aborted` a failed assertion. */
  datatype Service = Service(failures: set<Account>, clientData: map<Account, seq<Auth>>, active: map<Account, Rid>,
                             joins: map<Rid, Join>, signals: seq<(Rid, bool)>, started: seq<Start>,
                             errorStatus: bool, idleSeen: bool, replies: seq<bool>, aborted: bool)

  const FRESH := Service({}, map[], map[], map[], [], [], false, true, [], false)

  function Notify(s: Service): Service {
    s.(idleSeen := s.failures == {})
  }

  function DataOf(s: Service, account: Account): seq<Auth> {
    if account in s.clientData then s.clientData[account] else []
  }

  function Reported(s: Service, account: Account, auth: Option<Auth>): Service {
    var t := s.(failures := s.failures + {account}, errorStatus := true);
    var u := if s.failures == {} then Notify(t) else t;
    if auth.None? then u else u.(clientData := u.clientData[account := DataOf(u, account) + [auth.value]])
  }

  function Removed(s: Service, accounts: set<Account>): Service {
    var t := s.(failures := s.failures - accounts);
    if t.failures == {} then Notify(t) else t
  }

  predicate CanReplay(s: Service, account: Account) {
    account in s.clientData && account !in s.active
  }

  /** The queued signals of reauthenticator `rid` for these emissions. */
  function Emitted(rid: Rid, outcomes: seq<bool>): (signals: seq<(Rid, bool)>)
    ensures |signals| == |outcomes| && forall i :: 0 <= i < |outcomes| ==> signals[i] == (rid, outcomes[i])
  {
    seq(|outcomes|, i requires 0 <= i < |outcomes| => (rid, outcomes[i]))
  }

  /** ReauthenticateAccount; `sessions` is what the stored authentications turn into. */
  function Reauthenticate(s: Service, account: Account, sessions: seq<Session>): Service {
    if !CanReplay(s, account) then s
    else
      var rid, j := |s.started|, Started(sessions);
      s.(active := s.active[account := rid], joins := s.joins[rid := j],
         started := s.started + [Start(account, sessions)], signals := s.signals + Emitted(rid, j.finished))
  }

  /** A session of a reauthenticator ends. */
  function SessionEnds(s: Service, rid: Rid, ok: bool): Service
    requires rid in s.joins
  {
    var before, after := s.joins[rid], Answer(s.joins[rid], ok);
    s.(joins := s.joins[rid := after], signals := s.signals + Emitted(rid, after.finished[|before.finished|..]))
  }

  predicate IsLeast(m: Account, accounts: set<Account>) {
    m in accounts && forall b :: b in accounts ==> m <= b
  }

  lemma {:induction false} LeastExists(accounts: set<Account>)
    requires accounts != {}
    ensures exists m :: IsLeast(m, accounts)
  {
    var a :| a in accounts;
    var rest := accounts - {a};
    assert accounts == rest + {a};
    if rest == {} {
      assert IsLeast(a, accounts);
    } else {
      LeastExists(rest);
      var m :| IsLeast(m, rest);
      assert IsLeast(if a <= m then a else m, accounts);
    }
  }

  /** The first key in the order of a QMap. */
  function Least(accounts: set<Account>): (m: Account)
    requires accounts != {}
    ensures IsLeast(m, accounts)
  {
    LeastExists(accounts);
    var m :| IsLeast(m, accounts);
    m
  }

  /** The accounts whose reauthenticator it is. */
  function Owners(active: map<Account, Rid>, rid: Rid): set<Account> {
    set a | a in active && active[a] == rid
  }

  /** The search of onReauthenticatorFinished: 0 also stands for "not found". */
  function AccountOf(active: map<Account, Rid>, rid: Rid): Account {
    if Owners(active, rid) == {} then 0 else Least(Owners(active, rid))
  }

  /** onReauthenticatorFinished, for the account that was found. */
  function Conclude(s: Service, account: Account, success: bool): Service
    requires account in s.active
  {
    var t := s.(replies := s.replies + [success], active := s.active - {account},
              joins := s.joins - {s.active[account]});
    if !success then t
    else
      var u := t.(clientData := t.clientData - {account}, failures := t.failures - {account});
      if u.failures == {} then Notify(u.(errorStatus := false)) else u
  }

  /** onReauthenticatorFinished */
  function Finish(s: Service, rid: Rid, success: bool): Service {
    var account := AccountOf(s.active, rid);
    if account == 0 then s.(aborted := true) else Conclude(s, account, success)
  }

  datatype Event =
    | Report(account: Account, auth: Option<Auth>)
    | Remove(accounts: set<Account>)
    | ClearError
    | Replay(account: Account, sessions: seq<Session>)
    | SessionDone(rid: Rid, ok: bool)
    | Deliver                            // the first queued signal

  /** What can happen: a replay starts one session for each authentication that is stored; a
      session ends while it is under way; a signal is delivered that is queued. */
  predicate Possible(s: Service, e: Event) {
    match e
    case Replay(account, sessions) => |sessions| == |DataOf(s, account)|
    case SessionDone(rid, _) =>
      rid in s.joins && s.joins[rid].errorCount + s.joins[rid].responseCount < s.joins[rid].total
    case Deliver => s.signals != []
    case _ => true
  }

  function Step(s: Service, e: Event): Service {
    if s.aborted || !Possible(s, e) then s
    else
      match e
      case Report(account, auth) => Reported(s, account, auth)
      case Remove(accounts) => Removed(s, accounts)
      case ClearError => s.(errorStatus := false)
      case Replay(account, sessions) => Reauthenticate(s, account, sessions)
      case SessionDone(rid, ok) => SessionEnds(s, rid, ok)
      case Deliver => Finish(s.(signals := s.signals[1..]), s.signals[0].0, s.signals[0].1)
  }

  /** The states that a sequence of events leads through. */
  datatype Run = Run(events: seq<Event>, states: seq<Service>)

  ghost predicate Follows(run: Run, i: nat)
    requires i < |run.events| && |run.states| == |run.events| + 1
  {
    run.states[i + 1] == Step(run.states[i], run.events[i])
  }

  ghost predicate IsRun(run: Run) {
    && |run.states| == |run.events| + 1 && run.states[0] == FRESH
    && forall i :: 0 <= i < |run.events| ==> Follows(run, i)
  }

  /** State `n` of a run, with no failed assertion so far. */
  ghost predicate Reaches(run: Run, n: nat) {
    IsRun(run) && n < |run.states| && !run.states[n].aborted
  }

  // ----- the invariant -----

  /** How many signals of a reauthenticator are queued. */
  function CountOf(signals: seq<(Rid, bool)>, r: Rid): nat {
    if signals == [] then 0 else (if signals[0].0 == r then 1 else 0) + CountOf(signals[1..], r)
  }

  lemma {:induction false} CountAppend(a: seq<(Rid, bool)>, b: seq<(Rid, bool)>, r: Rid)
    ensures CountOf(a + b, r) == CountOf(a, r) + CountOf(b, r)
  {
    if a == [] {
      assert a + b == b;
    } else {
      assert (a + b)[1..] == a[1..] + b;
      CountAppend(a[1..], b, r);
    }
  }

  lemma {:induction false} CountEmitted(rid: Rid, outcomes: seq<bool>, r: Rid)
    ensures CountOf(Emitted(rid, outcomes), r) == if r == rid then |outcomes| else 0
  {
    if outcomes != [] {
      assert Emitted(rid, outcomes)[1..] == Emitted(rid, outcomes[1..]);
      CountEmitted(rid, outcomes[1..], r);
    }
  }

  lemma {:induction false} CountPositive(signals: seq<(Rid, bool)>, r: Rid)
    ensures CountOf(signals, r) > 0 <==> exists i :: 0 <= i < |signals| && signals[i].0 == r
  {
    if signals != [] {
      CountPositive(signals[1..], r);
      if CountOf(signals[1..], r) > 0 {
        var i :| 0 <= i < |signals| - 1 && signals[1..][i].0 == r;
        assert signals[i + 1].0 == r;
      }
      if i :| 0 < i < |signals| && signals[i].0 == r { assert signals[1..][i - 1].0 == r; }
    }
  }

  /** Outcomes are counted; the signal was emitted with the last of them, or twice at the start. */
  ghost predicate Joined(j: Join, sessions: seq<Session>) {
    var ok := j.errorCount == 0;
    && j.errorCount + j.responseCount <= j.total
    && (DoneBeforeTheEnd(sessions) ==> j.errorCount + j.responseCount == j.total)
    && j.finished == if j.errorCount + j.responseCount < j.total then []
                     else if DoneBeforeTheEnd(sessions) then [ok, ok] else [ok]
  }

  /** All signals of a reauthenticator at work are queued; one that is gone has left the second of
      two signals at most. */
  ghost predicate CountOk(s: Service, r: Rid) {
    var n := CountOf(s.signals, r);
    if r in s.joins then n == |s.joins[r].finished|
    else n == 0 || (n == 1 && r < |s.started| && DoneBeforeTheEnd(s.started[r].sessions))
  }

  ghost predicate SignalsOk(s: Service) {
    && (forall r: Rid :: CountOk(s, r))
    && (forall i :: 0 <= i < |s.signals| && s.signals[i].0 in s.joins ==>
          s.signals[i].1 in s.joins[s.signals[i].0].finished)
  }

  ghost predicate ActiveOk(s: Service) {
    && s.active.Keys <= s.clientData.Keys
    && (forall a :: a in s.active ==>
          s.active[a] in s.joins && s.active[a] < |s.started| && s.started[s.active[a]].account == a)
    && (forall r :: r in s.joins ==> r < |s.started| && Joined(s.joins[r], s.started[r].sessions) && Owned(s, r))
  }

  /** The account for which it was started is under reauthentication by it. */
  ghost predicate Owned(s: Service, r: Rid) {
    r < |s.started| && s.started[r].account in s.active && s.active[s.started[r].account] == r
  }

  ghost predicate Inv(s: Service) {
    SignalsOk(s) && ActiveOk(s) && (s.idleSeen <==> s.failures == {}) && |s.replies| + |s.active| == |s.started|
  }

  lemma StartedJoined(sessions: seq<Session>)
    ensures Joined(Started(sessions), sessions)
  {
    BeginCounts(|sessions|, sessions);
  }

  lemma AnswerJoined(j: Join, sessions: seq<Session>, ok: bool)
    requires Joined(j, sessions) && j.errorCount + j.responseCount < j.total
    ensures Joined(Answer(j, ok), sessions) && j.finished == []
  {
  }

  /** One more reauthenticator, or one that has moved on, and its signals if there are any. */
  lemma SignalsAdded(s: Service, t: Service, r: Rid)
    requires SignalsOk(s) && r in t.joins && t.joins == s.joins[r := t.joins[r]] && s.started <= t.started
    requires CountOf(s.signals, r) == 0 && t.signals == s.signals + Emitted(r, t.joins[r].finished)
    ensures SignalsOk(t)
  {
    var more := Emitted(r, t.joins[r].finished);
    forall x: Rid ensures CountOk(t, x) {
      assert CountOk(s, x);
      CountAppend(s.signals, more, x);
      CountEmitted(r, t.joins[r].finished, x);
    }
    CountPositive(s.signals, r);
    forall i | 0 <= i < |t.signals| && t.signals[i].0 in t.joins
      ensures t.signals[i].1 in t.joins[t.signals[i].0].finished
    {
      if i < |s.signals| { assert t.signals[i] == s.signals[i]; } else { assert t.signals[i] == more[i - |s.signals|]; }
    }
  }

  lemma AccountAdded(s: Service, t: Service, account: Account, sessions: seq<Session>)
    requires ActiveOk(s) && CanReplay(s, account)
    requires t.active == s.active[account := |s.started|] && t.joins == s.joins[|s.started| := Started(sessions)]
    requires t.started == s.started + [Start(account, sessions)] && t.clientData == s.clientData
    ensures ActiveOk(t) && |t.active| == |s.active| + 1 && |s.started| !in s.joins
  {
    assert |s.started| !in s.joins;
    StartedJoined(sessions);
    forall r | r in t.joins ensures r < |t.started| && Joined(t.joins[r], t.started[r].sessions) && Owned(t, r) {
      if r != |s.started| { assert Owned(s, r); }
    }
  }

  lemma ReplayKeeps(s: Service, account: Account, sessions: seq<Session>)
    requires Inv(s)
    ensures Inv(Reauthenticate(s, account, sessions))
  {
    if CanReplay(s, account) {
      var t, r := Reauthenticate(s, account, sessions), |s.started|;
      AccountAdded(s, t, account, sessions);
      assert CountOk(s, r);
      SignalsAdded(s, t, r);
    }
  }

  lemma SessionKeeps(s: Service, rid: Rid, ok: bool)
    requires Inv(s) && Possible(s, SessionDone(rid, ok))
    ensures Inv(SessionEnds(s, rid, ok))
  {
    var t := SessionEnds(s, rid, ok);
    AnswerJoined(s.joins[rid], s.started[rid].sessions, ok);
    assert CountOk(s, rid);
    assert t.joins[rid].finished[0..] == t.joins[rid].finished;
    SignalsAdded(s, t, rid);
    forall r | r in t.joins ensures Owned(t, r) { assert Owned(s, r); }
  }

  /** The first signal is gone, and with it its reauthenticator. */
  lemma SignalRemoved(s: Service, t: Service, r: Rid)
    requires SignalsOk(s) && ActiveOk(s) && r in s.joins && s.signals != [] && s.signals[0].0 == r
    requires t.signals == s.signals[1..] && t.joins == s.joins - {r} && t.started == s.started
    ensures SignalsOk(t)
  {
    forall x: Rid ensures CountOk(t, x) {
      assert CountOk(s, x);
      if x == r { assert Joined(s.joins[r], s.started[r].sessions); }
    }
    forall i | 0 <= i < |t.signals| && t.signals[i].0 in t.joins
      ensures t.signals[i].1 in t.joins[t.signals[i].0].finished
    {
      assert t.signals[i] == s.signals[i + 1];
    }
  }

  lemma AccountRemoved(s: Service, t: Service, account: Account)
    requires ActiveOk(s) && account in s.active
    requires t.active == s.active - {account} && t.joins == s.joins - {s.active[account]} && t.started == s.started
    requires s.clientData.Keys - {account} <= t.clientData.Keys
    ensures ActiveOk(t) && |t.active| == |s.active| - 1
  {
    ActiveShrinks(s.active, account);
    forall r | r in t.joins ensures Owned(t, r) { assert Owned(s, r); }
  }

  lemma ActiveShrinks(active: map<Account, Rid>, account: Account)
    requires account in active
    ensures |active - {account}| == |active| - 1
  {
    var smaller := active - {account};
    assert active.Keys == smaller.Keys + {account};
    assert |active| == |active.Keys| && |smaller| == |smaller.Keys|;
  }

  lemma ConcludeNotifies(s: Service, account: Account, success: bool)
    requires account in s.active && (s.idleSeen <==> s.failures == {})
    ensures
      var t := Conclude(s, account, success);
      && (t.idleSeen <==> t.failures == {}) && |t.replies| == |s.replies| + 1 && t.aborted == s.aborted
      && t.active == s.active - {account} && t.joins == s.joins - {s.active[account]}
      && t.started == s.started && t.signals == s.signals && s.clientData.Keys - {account} <= t.clientData.Keys
  {
  }

  lemma ConcludeKeeps(s: Service, account: Account)
    requires Inv(s) && account in s.active && s.signals != [] && s.signals[0].0 == s.active[account]
    ensures Inv(Conclude(s.(signals := s.signals[1..]), account, s.signals[0].1))
  {
    var u := s.(signals := s.signals[1..]);
    var t := Conclude(u, account, s.signals[0].1);
    ConcludeNotifies(u, account, s.signals[0].1);
    SignalRemoved(s, t, s.active[account]);
    AccountRemoved(s, t, account);
  }

  lemma FailuresKeep(s: Service, t: Service)
    requires Inv(s)
    requires t == s.(failures := t.failures, clientData := t.clientData,
                    errorStatus := t.errorStatus, idleSeen := t.idleSeen)
    requires s.clientData.Keys <= t.clientData.Keys && (t.idleSeen <==> t.failures == {})
    ensures Inv(t)
  {
    forall r: Rid ensures CountOk(t, r) { assert CountOk(s, r); }
    forall r | r in t.joins ensures Owned(t, r) { assert Owned(s, r); }
  }

  lemma ReportKeeps(s: Service, account: Account, auth: Option<Auth>)
    requires Inv(s)
    ensures Inv(Reported(s, account, auth))
  {
    FailuresKeep(s, Reported(s, account, auth));
  }

  lemma RemoveKeeps(s: Service, accounts: set<Account>)
    requires Inv(s)
    ensures Inv(Removed(s, accounts))
  {
    FailuresKeep(s, Removed(s, accounts));
  }

  lemma ClearKeeps(s: Service)
    requires Inv(s)
    ensures Inv(s.(errorStatus := false))
  {
    FailuresKeep(s, s.(errorStatus := false));
  }

  /** Where the search ends: at the account of the reauthenticator, or nowhere. */
  lemma SearchFinds(s: Service, r: Rid)
    requires Inv(s)
    ensures r in s.joins ==>
              Owners(s.active, r) == {s.started[r].account} && AccountOf(s.active, r) == s.started[r].account
    ensures r !in s.joins ==> Owners(s.active, r) == {} && AccountOf(s.active, r) == 0
  {
    if r in s.joins {
      assert Owned(s, r);
      assert Owners(s.active, r) == {s.started[r].account};
    }
  }

  /** What the first signal is of: a reauthenticator at work, or one whose last session answered on
      the spot with nothing left to wait for. */
  lemma SignalIsOf(s: Service)
    requires Inv(s) && s.signals != []
    ensures
      var r := s.signals[0].0;
      r < |s.started| && (r !in s.joins ==> DoneBeforeTheEnd(s.started[r].sessions))
  {
    var r := s.signals[0].0;
    CountPositive(s.signals, r);
    assert CountOk(s, r);
  }

  /** A signal that does not fail is that of an account that is found. */
  lemma DeliverConcludes(s: Service)
    requires Inv(s) && !s.aborted && s.signals != [] && !Fails(s, Deliver)
    ensures
      var (r, ok) := s.signals[0];
      && r in s.joins && Owned(s, r) && s.started[r].account != 0 && Owners(s.active, r) == {s.started[r].account}
      && Step(s, Deliver) == Conclude(s.(signals := s.signals[1..]), s.started[r].account, ok)
  {
    SearchFinds(s, s.signals[0].0);
    assert Owned(s, s.signals[0].0);
    FoundConcludes(s, s.started[s.signals[0].0].account);
  }

  lemma FoundConcludes(s: Service, account: Account)
    requires !s.aborted && s.signals != [] && AccountOf(s.active, s.signals[0].0) == account != 0 && account in s.active
    ensures Step(s, Deliver) == Conclude(s.(signals := s.signals[1..]), account, s.signals[0].1)
  {
  }

  /** The next step delivers a signal of the reauthenticator of account 0, or of one that is gone. */
  ghost predicate Fails(s: Service, e: Event) {
    e.Deliver? && s.signals != [] &&
    var r := s.signals[0].0;
    r !in s.joins || (r < |s.started| && s.started[r].account == 0)
  }

  /** Every step keeps the invariant or fails the assertion of onReauthenticatorFinished; it fails
      it exactly at a signal of account 0 and at the second signal of a reauthenticator. */
  lemma StepKeeps(s: Service, e: Event)
    requires Inv(s) && !s.aborted
    ensures var t := Step(s, e);
            && (t.aborted <==> Fails(s, e))
            && (!t.aborted ==> Inv(t))
  {
    match e
    case Replay(account, sessions) => ReplayKeeps(s, account, sessions);
    case SessionDone(rid, ok) => if Possible(s, e) { SessionKeeps(s, rid, ok); }
    case Deliver => DeliverKeeps(s);
    case Report(account, auth) => ReportKeeps(s, account, auth);
    case Remove(accounts) => RemoveKeeps(s, accounts);
    case ClearError => ClearKeeps(s);
  }

  lemma DeliverKeeps(s: Service)
    requires Inv(s) && !s.aborted
    ensures var t := Step(s, Deliver);
            && (t.aborted <==> Fails(s, Deliver))
            && (!t.aborted ==> Inv(t))
  {
    if s.signals != [] {
      var r := s.signals[0].0;
      SignalIsOf(s);
      SearchFinds(s, r);
      if r in s.joins && s.started[r].account != 0 {
        assert Owned(s, r);
        ConcludeKeeps(s, s.started[r].account);
        ConcludeNotifies(s.(signals := s.signals[1..]), s.started[r].account, s.signals[0].1);
      }
    }
  }

  lemma FreshInv()
    ensures Inv(FRESH)
  {
    forall r: Rid ensures CountOk(FRESH, r) {}
  }

  lemma {:induction false} RunKeeps(run: Run, n: nat)
    requires Reaches(run, n)
    ensures Inv(run.states[n])
  {
    if n == 0 {
      FreshInv();
    } else {
      assert Follows(run, n - 1);
      RunKeeps(run, n - 1);
      StepKeeps(run.states[n - 1], run.events[n - 1]);
    }
  }

  // ----- when the assertion fails -----

  /** In every run the assertion of onReauthenticatorFinished fails exactly when a signal is
      delivered of the reauthenticator of account 0, or of one that has finished already; and the
      latter is one whose last session answered on the spot with nothing left to wait for. */
  lemma AbortsExactly(run: Run, n: nat)
    requires Reaches(run, n) && n < |run.events|
    ensures run.states[n + 1].aborted <==> Fails(run.states[n], run.events[n])
    ensures
      var s := run.states[n];
      Fails(s, run.events[n]) ==>
        s.signals[0].0 < |s.started| &&
        var start := s.started[s.signals[0].0];
        start.account == 0 || (DoneBeforeTheEnd(start.sessions) && s.signals[0].0 !in s.joins)
  {
    RunKeeps(run, n);
    assert Follows(run, n);
    StepKeeps(run.states[n], run.events[n]);
    if Fails(run.states[n], run.events[n]) { SignalIsOf(run.states[n]); }
  }

  /** A reauthenticator whose signals cannot all be delivered. */
  predicate Doomed(start: Start) {
    start.account == 0 || DoneBeforeTheEnd(start.sessions)
  }

  ghost predicate NoneDoomed(s: Service) {
    forall r :: 0 <= r < |s.started| ==> !Doomed(s.started[r])
  }

  lemma StartsOnlyByReplay(s: Service, e: Event)
    ensures var t := Step(s, e).started;
            t == s.started || (e.Replay? && t == s.started + [Start(e.account, e.sessions)])
  {
  }

  /** In a run that replays neither account 0 nor sessions of which the last answers on the spot
      with nothing left to wait for, the assertion never fails. */
  lemma {:induction false} NeverAborts(run: Run, n: nat)
    requires IsRun(run) && n < |run.states|
    requires forall i :: 0 <= i < n && run.events[i].Replay? ==>
               !Doomed(Start(run.events[i].account, run.events[i].sessions))
    ensures !run.states[n].aborted && NoneDoomed(run.states[n])
  {
    if n > 0 {
      NeverAborts(run, n - 1);
      assert Follows(run, n - 1);
      StartsOnlyByReplay(run.states[n - 1], run.events[n - 1]);
      AbortsExactly(run, n - 1);
    }
  }

  /** The event loop delivers the first `n` signals. */
  function DeliverMany(s: Service, n: nat): Service
    decreases n
  {
    if n == 0 then s else DeliverMany(Step(s, Deliver), n - 1)
  }

  lemma {:induction false} AbortedStays(s: Service, n: nat)
    requires s.aborted
    ensures DeliverMany(s, n) == s
  {
    if n > 0 { AbortedStays(s, n - 1); }
  }

  ghost predicate DoomedAt(s: Service, i: nat) {
    i < |s.signals| && s.signals[i].0 < |s.started| && Doomed(s.started[s.signals[i].0])
  }

  lemma Delivered(s: Service)
    requires Inv(s) && !s.aborted && s.signals != [] && !Fails(s, Deliver)
    ensures var t := Step(s, Deliver);
            t.signals == s.signals[1..] && t.started == s.started && !t.aborted && Inv(t)
  {
    DeliverConcludes(s);
    StepKeeps(s, Deliver);
    ConcludeNotifies(s.(signals := s.signals[1..]), s.started[s.signals[0].0].account, s.signals[0].1);
  }

  /** The second of two signals is still there when the first has been delivered. */
  lemma SecondIsLeft(s: Service, t: Service)
    requires Inv(s) && s.signals != [] && !Fails(s, Deliver) && DoomedAt(s, 0)
    requires t.signals == s.signals[1..] && t.started == s.started
    ensures exists i :: DoomedAt(t, i)
  {
    var r := s.signals[0].0;
    assert CountOk(s, r) && Joined(s.joins[r], s.started[r].sessions);
    CountPositive(t.signals, r);
    var i :| 0 <= i < |t.signals| && t.signals[i].0 == r;
    assert DoomedAt(t, i);
  }

  lemma RestIsDoomed(s: Service, t: Service)
    requires Inv(s) && s.signals != [] && !Fails(s, Deliver) && t.signals == s.signals[1..] && t.started == s.started
    ensures (exists i :: DoomedAt(t, i)) <==> (exists i :: DoomedAt(s, i))
  {
    if i: nat :| DoomedAt(t, i) { assert DoomedAt(s, i + 1); }
    if i: nat :| DoomedAt(s, i) {
      if i == 0 { SecondIsLeft(s, t); } else { assert DoomedAt(t, i - 1); }
    }
  }

  lemma FailsAtOnce(s: Service)
    requires Inv(s) && !s.aborted && Fails(s, Deliver)
    ensures DeliverMany(s, |s.signals|).aborted && DoomedAt(s, 0)
  {
    StepKeeps(s, Deliver);
    SignalIsOf(s);
    AbortedStays(Step(s, Deliver), |s.signals| - 1);
  }

  /** Delivering all that is queued fails the assertion if and only if a signal is among it of
      account 0 or of sessions that were done before the end of `start`. */
  lemma {:induction false} QueueAbortsExactly(s: Service)
    requires Inv(s) && !s.aborted
    ensures DeliverMany(s, |s.signals|).aborted <==> exists i :: DoomedAt(s, i)
    decreases |s.signals|
  {
    if s.signals == [] {
    } else if Fails(s, Deliver) {
      FailsAtOnce(s);
    } else {
      Delivered(s);
      RestIsDoomed(s, Step(s, Deliver));
      QueueAbortsExactly(Step(s, Deliver));
    }
  }

  /** It does fail: a failure is reported for account 0, which is replayed without a session. */
  lemma AbortHappens() returns (run: Run)
    ensures IsRun(run) && |run.events| == 3 && !run.states[2].aborted && run.states[3].aborted
  {
    var report, replay := Report(0, Some("a")), Replay(0, [Missing]);
    var reported := ReportFirst(0, "a");
    var replayed := Step(reported, replay);
    assert [Missing][..0] == [] && Started([Missing]) == Join(1, 1, 0, [false]);
    assert replayed.active == map[0 := 0] && replayed.signals == [(0, false)];
    run := Run([report, replay, Deliver], [FRESH, reported, replayed, Step(replayed, Deliver)]);
    assert Follows(run, 0) && Follows(run, 1) && Follows(run, 2);
  }

  /** And for an account that is not 0: its only session answers on the spot, so that `finished` is
      emitted twice, and there is no account any more when the second signal is delivered. */
  lemma SecondSignalAborts() returns (run: Run)
    ensures IsRun(run) && run.events == [Report(5, Some("a")), Replay(5, [AtOnce(true)]), Deliver, Deliver]
    ensures !run.states[3].aborted && run.states[4].aborted
  {
    var report, replay := Report(5, Some("a")), Replay(5, [AtOnce(true)]);
    var reported := ReportFirst(5, "a");
    var replayed := TwiceAtTheStart(reported);
    var once := FirstOfTwo(replayed);
    run := Run([report, replay, Deliver, Deliver], [FRESH, reported, replayed, once, Step(once, Deliver)]);
    assert Follows(run, 0) && Follows(run, 1) && Follows(run, 2) && Follows(run, 3);
  }

  lemma ReportFirst(account: Account, auth: Auth) returns (t: Service)
    ensures t == Step(FRESH, Report(account, Some(auth))) && !t.aborted
    ensures t.active == map[] && t.joins == map[] && t.signals == [] && t.started == []
    ensures CanReplay(t, account) && |DataOf(t, account)| == 1
  {
    t := Reported(FRESH, account, Some(auth));
    assert t == Step(FRESH, Report(account, Some(auth)));
  }

  lemma TwiceAtTheStart(s: Service) returns (t: Service)
    requires s.active == map[] && s.signals == [] && s.started == [] && !s.aborted
    requires CanReplay(s, 5) && |DataOf(s, 5)| == 1
    ensures t == Step(s, Replay(5, [AtOnce(true)]))
    ensures t.active == map[5 := 0] && t.signals == [(0, true), (0, true)] && !t.aborted
  {
    AnsweredOnTheSpot();
    t := Reauthenticate(s, 5, [AtOnce(true)]);
    assert t == Step(s, Replay(5, [AtOnce(true)]));
    assert Emitted(0, [true, true]) == [(0, true), (0, true)];
  }

  lemma FirstOfTwo(s: Service) returns (t: Service)
    requires s.active == map[5 := 0] && s.signals == [(0, true), (0, true)] && !s.aborted
    ensures t == Step(s, Deliver) && !t.aborted && Step(t, Deliver).aborted
  {
    assert Owners(s.active, 0) == {5};
    FoundConcludes(s, 5);
    t := Step(s, Deliver);
    assert t.active == map[] && t.signals == [(0, true)];
  }

  lemma AnsweredOnTheSpot()
    ensures Started([AtOnce(true)]) == Join(1, 0, 1, [true, true])
  {
    assert [AtOnce(true)][..0] == [] && Begin(1, []) == Join(1, 0, 0, []);
    assert Begin(1, [AtOnce(true)]) == Join(1, 0, 1, [true]);
    assert [true] + [true] == [true, true];
  }

  // ----- what holds over runs -----

  /** The first queued signal says that the reauthenticator of the account was successful. */
  predicate Succeeds(s: Service, account: Account) {
    && s.signals != [] && s.signals[0].1 && s.signals[0].0 in s.joins
    && s.signals[0].0 < |s.started| && s.started[s.signals[0].0].account == account
  }

  /** What is stored for an account after an event, if it was `earlier` before it. */
  function StoredAfter(s: Service, e: Event, account: Account, earlier: seq<Auth>): seq<Auth> {
    match e
    case Report(a, auth) => if a == account && auth.Some? then earlier + [auth.value] else earlier
    case Deliver => if Succeeds(s, account) then [] else earlier
    case _ => earlier
  }

  /** What was reported for an account in `n` events, in order, since it was last reauthenticated
      with success. */
  function ReportedFor(run: Run, n: nat, account: Account): seq<Auth>
    requires n <= |run.events| < |run.states|
  {
    if n == 0 then []
    else StoredAfter(run.states[n - 1], run.events[n - 1], account, ReportedFor(run, n - 1, account))
  }

  /** Exactly `auths` are stored for the account. */
  ghost predicate Stores(s: Service, account: Account, auths: seq<Auth>) {
    (account in s.clientData <==> auths != []) && (account in s.clientData ==> s.clientData[account] == auths)
  }

  lemma ConcludeForgets(s: Service, account: Account, success: bool)
    requires account in s.active
    ensures Conclude(s, account, success).clientData == if success then s.clientData - {account} else s.clientData
  {
  }

  lemma DeliverStores(s: Service, account: Account, auths: seq<Auth>)
    requires Inv(s) && !s.aborted && !Step(s, Deliver).aborted && Stores(s, account, auths)
    ensures Stores(Step(s, Deliver), account, StoredAfter(s, Deliver, account, auths))
  {
    StepKeeps(s, Deliver);
    if s.signals != [] {
      DeliverConcludes(s);
      ConcludeForgets(s.(signals := s.signals[1..]), s.started[s.signals[0].0].account, s.signals[0].1);
    }
  }

  lemma ReportStores(s: Service, a: Account, auth: Option<Auth>, account: Account, auths: seq<Auth>)
    requires Stores(s, account, auths)
    ensures Stores(Reported(s, a, auth), account, StoredAfter(s, Report(a, auth), account, auths))
  {
    if a == account && auth.Some? { assert [] + [auth.value] == [auth.value]; }
  }

  lemma StepStores(s: Service, e: Event, account: Account, auths: seq<Auth>)
    requires Inv(s) && !s.aborted && !Step(s, e).aborted && Stores(s, account, auths)
    ensures Stores(Step(s, e), account, StoredAfter(s, e, account, auths))
  {
    match e
    case Deliver => DeliverStores(s, account, auths);
    case Report(a, auth) => ReportStores(s, a, auth, account, auths);
    case _ => assert Step(s, e).clientData == s.clientData;
  }

  /** The authentications that are stored for replay are those that were reported, in order, since
      the account was last reauthenticated with success; and there is an entry only for these. */
  lemma {:induction false} StoredIsReported(run: Run, n: nat, account: Account)
    requires Reaches(run, n)
    ensures Stores(run.states[n], account, ReportedFor(run, n, account))
  {
    if n > 0 {
      assert Follows(run, n - 1);
      RunKeeps(run, n - 1);
      StoredIsReported(run, n - 1, account);
      StepStores(run.states[n - 1], run.events[n - 1], account, ReportedFor(run, n - 1, account));
    }
  }

  /** A report marks the account as failed and raises the error; removing takes back the mark of
      exactly the accounts that are named; clearing the error leaves the marks. */
  lemma FailuresAreMarked(s: Service, e: Event)
    requires !s.aborted
    ensures
      var t := Step(s, e);
      match e
      case Report(account, _) => t.failures == s.failures + {account} && t.errorStatus
      case Remove(accounts) => t.failures == s.failures - accounts && t.errorStatus == s.errorStatus
      case ClearError => t.failures == s.failures && !t.errorStatus
      case Deliver => t.failures <= s.failures
      case _ => t.failures == s.failures && t.errorStatus == s.errorStatus
  {
  }

  /** Accounts that are being reauthenticated have stored data, each reauthenticator at work
      belongs to exactly one account, and each request is answered once or still under way. */
  lemma ActiveAccounts(run: Run, n: nat)
    requires Reaches(run, n)
    ensures
      var s := run.states[n];
      && s.active.Keys <= s.clientData.Keys
      && (forall r :: r in s.joins <==> Owned(s, r))
      && (forall a, b :: a in s.active && b in s.active && s.active[a] == s.active[b] ==> a == b)
      && |s.replies| + |s.active| == |s.started|
      && (s.idleSeen <==> s.failures == {})
  {
    RunKeeps(run, n);
  }

  /** A finishing reauthenticator is found under its account; the reply says whether nothing
      failed; success clears that account and no other, failure clears nothing. */
  lemma DeliverEffect(run: Run, n: nat)
    requires Reaches(run, n) && run.states[n].signals != [] && !Fails(run.states[n], Deliver)
    ensures
      var s := run.states[n];
      var r := s.signals[0].0;
      r in s.joins && r < |s.started| &&
      var account, j := s.started[r].account, s.joins[r];
      var ok := j.errorCount == 0;
      var t := Step(s, Deliver);
      && s.signals[0].1 == ok && j.errorCount + j.responseCount == j.total
      && Owners(s.active, r) == {account} && account != 0
      && t.replies == s.replies + [ok] && t.active == s.active - {account} && t.signals == s.signals[1..]
      && t.clientData == (if ok then s.clientData - {account} else s.clientData)
      && t.failures == (if ok then s.failures - {account} else s.failures)
      && t.errorStatus == (s.errorStatus && !(ok && t.failures == {}))
  {
    RunKeeps(run, n);
    DeliverConcludes(run.states[n]);
    SignalSaysOk(run.states[n]);
  }

  lemma SignalSaysOk(s: Service)
    requires Inv(s) && s.signals != [] && s.signals[0].0 in s.joins
    ensures var j := s.joins[s.signals[0].0];
            s.signals[0].1 == (j.errorCount == 0) && j.errorCount + j.responseCount == j.total
  {
    assert Joined(s.joins[s.signals[0].0], s.started[s.signals[0].0].sessions);
  }

  /** Every queued signal of a reauthenticator that has not finished finds its account; any other
      is the second of two, and finds none. */
  lemma SignalsFindTheirAccount(run: Run, n: nat, i: nat)
    requires Reaches(run, n) && i < |run.states[n].signals|
    ensures
      var s := run.states[n];
      var r := s.signals[i].0;
      r < |s.started| &&
      if r in s.joins then AccountOf(s.active, r) == s.started[r].account && s.started[r].account in s.active
      else DoneBeforeTheEnd(s.started[r].sessions) && AccountOf(s.active, r) == 0
           && forall k :: 0 <= k < |s.signals| && k != i ==> s.signals[k].0 != r
  {
    RunKeeps(run, n);
    var s := run.states[n];
    var r := s.signals[i].0;
    SearchFinds(s, r);
    CountPositive(s.signals, r);
    assert CountOk(s, r);
    if r in s.joins {
      assert Owned(s, r);
    } else {
      forall k | 0 <= k < |s.signals| && k != i ensures s.signals[k].0 != r {
        CountTwo(s.signals, r, if i < k then i else k, if i < k then k else i);
      }
    }
  }

  lemma {:induction false} CountTwo(signals: seq<(Rid, bool)>, r: Rid, i: nat, k: nat)
    requires i < k < |signals|
    ensures signals[i].0 == r && signals[k].0 == r ==> CountOf(signals, r) >= 2
  {
    if i > 0 {
      CountTwo(signals[1..], r, i - 1, k - 1);
    } else {
      CountPositive(signals[1..], r);
      assert signals[1..][k - 1] == signals[k];
    }
  }

  // ----- the object -----

  class IndicatorService {
    var failures: set<Account>
    var failureClientData: map<Account, seq<Auth>>
    var reauthenticators: map<Account, Rid>
    var joins: map<Rid, Join>
    var signals: seq<(Rid, bool)>
    var started: seq<Start>
    var errorStatus: bool
    var idleSeen: bool
    var replies: seq<bool>
    var aborted: bool

    function State(): Service
      reads this
    {
      Service(failures, failureClientData, reauthenticators, joins, signals, started,
              errorStatus, idleSeen, replies, aborted)
    }

    constructor ()
      ensures State() == FRESH
    {
      failures, failureClientData, reauthenticators, joins, signals := {}, map[], map[], map[], [];
      started, errorStatus, idleSeen, replies, aborted := [], false, true, [], false;
    }

    method IsIdleChanged()
      modifies this`idleSeen
      ensures idleSeen == (failures == {})
    {
      idleSeen := failures == {};
    }

    method ReportFailure(account: Account, auth: Option<Auth>)
      modifies this`failures, this`failureClientData, this`errorStatus, this`idleSeen
      ensures State() == Reported(old(State()), account, auth)
    {
      var wasIdle := failures == {};
      failures := failures + {account};
      if wasIdle {
        IsIdleChanged();
      }
      if auth.Some? {
        if account !in failureClientData {
          failureClientData := failureClientData[account := []];
        }
        failureClientData := failureClientData[account := failureClientData[account] + [auth.value]];
      }
      errorStatus := true;
    }

    method RemoveFailures(accounts: set<Account>)
      modifies this`failures, this`idleSeen
      ensures State() == Removed(old(State()), accounts)
    {
      failures := failures - accounts;
      if failures == {} {
        IsIdleChanged();
      }
    }

    /** The result says whether the caller will get its answer later. */
    method ReauthenticateAccount(account: Account, sessions: seq<Session>) returns (delayed: bool)
      modifies this`reauthenticators, this`joins, this`signals, this`started
      ensures State() == Reauthenticate(old(State()), account, sessions) && delayed == CanReplay(old(State()), account)
    {
      if account !in failureClientData {
        return false;
      }
      if account in reauthenticators {
        return false;
      }
      var rid := |started|;
      started := started + [Start(account, sessions)];
      reauthenticators := reauthenticators[account := rid];
      var reauthenticator := new Reauthenticator(sessions);
      reauthenticator.Start();
      joins := joins[rid := reauthenticator.State()];
      signals := signals + Emitted(rid, reauthenticator.finished);
      return true;
    }

    /** The loop over the reauthenticators, in the order of the accounts. */
    method FindAccount(rid: Rid) returns (accountId: Account)
      ensures accountId == AccountOf(reauthenticators, rid)
    {
      accountId := 0;
      var rest := reauthenticators.Keys;
      while rest != {}
        invariant rest <= reauthenticators.Keys && accountId == 0
        invariant forall a :: a in reauthenticators && a !in rest ==> reauthenticators[a] != rid
        decreases |rest|
      {
        var i := Least(rest);
        rest := rest - {i};
        if reauthenticators[i] == rid {
          assert i in Owners(reauthenticators, rid);
          return i;
        }
      }
    }

    /** A found account is concluded; when none is found, or account 0, the assertion fails. */
    method OnReauthenticatorFinished(rid: Rid, success: bool)
      modifies this
      ensures State() == Finish(old(State()), rid, success)
    {
      var accountId := FindAccount(rid);
      if accountId == 0 {
        aborted := true;
        return;
      }
      replies := replies + [success];
      if success {
        failureClientData := failureClientData - {accountId};
        failures := failures - {accountId};
        if failures == {} {
          errorStatus := false;
          IsIdleChanged();
        }
      }
      joins := joins - {reauthenticators[accountId]};
      reauthenticators := reauthenticators - {accountId};
    }

    /** The event loop delivers the first queued signal. */
    method DeliverSignal()
      requires !aborted
      modifies this
      ensures State() == Step(old(State()), Deliver)
    {
      if signals != [] {
        var (rid, success) := signals[0];
        signals := signals[1..];
        OnReauthenticatorFinished(rid, success);
      }
    }
  }
}
