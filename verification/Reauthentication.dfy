/** Replaying failed authentications: online-accounts-service/reauthenticator.cpp, which starts
    one session for each stored authentication and joins their outcomes by counting. */
module Reauthentication {

  /** What becomes of one stored authentication when the reauthenticator starts: there is no
      identity or no session for it, its session answers later, or it answers on the spot. */
  datatype Session = Missing | Later | AtOnce(ok: bool)

  /** `finished` holds the arguments of the signal, in the order of emission. */
  datatype Join = Join(total: nat, errorCount: nat, responseCount: nat, finished: seq<bool>)

  function CheckFinished(j: Join): Join {
    if j.errorCount + j.responseCount < j.total then j else j.(finished := j.finished + [j.errorCount == 0])
  }

  /** onResponse and onError */
  function Answer(j: Join, ok: bool): Join {
    CheckFinished(if ok then j.(responseCount := j.responseCount + 1) else j.(errorCount := j.errorCount + 1))
  }

  /** The loop of start, over the first sessions. */
  function Begin(total: nat, sessions: seq<Session>): Join {
    if sessions == [] then Join(total, 0, 0, [])
    else
      var j := Begin(total, sessions[..|sessions| - 1]);
      match sessions[|sessions| - 1]
      case Missing => j.(errorCount := j.errorCount + 1)
      case Later => j
      case AtOnce(ok) => Answer(j, ok)
  }

  function Started(sessions: seq<Session>): Join {
    CheckFinished(Begin(|sessions|, sessions))
  }

  function AnswerAll(j: Join, outcomes: seq<bool>): Join {
    if outcomes == [] then j
    else Answer(AnswerAll(j, outcomes[..|outcomes| - 1]), outcomes[|outcomes| - 1])
  }

  // ----- counting -----

  function CountLater(sessions: seq<Session>): (n: nat)
    ensures n <= |sessions|
  {
    if sessions == [] then 0
    else CountLater(sessions[..|sessions| - 1]) + if sessions[|sessions| - 1].Later? then 1 else 0
  }

  predicate Good(s: Session) {
    s.Later? || (s.AtOnce? && s.ok)
  }

  ghost predicate AllGood(sessions: seq<Session>) {
    forall i :: 0 <= i < |sessions| ==> Good(sessions[i])
  }

  ghost predicate AllTrue(outcomes: seq<bool>) {
    forall i :: 0 <= i < |outcomes| ==> outcomes[i]
  }

  /** The last session answers on the spot, and there is nothing to wait for. */
  predicate DoneBeforeTheEnd(sessions: seq<Session>) {
    sessions != [] && CountLater(sessions) == 0 && sessions[|sessions| - 1].AtOnce?
  }

  lemma {:induction false} BeginCounts(total: nat, sessions: seq<Session>)
    requires |sessions| <= total
    ensures
      var j := Begin(total, sessions);
      && j.total == total
      && j.errorCount + j.responseCount + CountLater(sessions) == |sessions|
      && (j.errorCount == 0 <==> AllGood(sessions))
      && j.finished == if |sessions| == total && DoneBeforeTheEnd(sessions) then [AllGood(sessions)] else []
  {
    if sessions != [] {
      var n := |sessions| - 1;
      BeginCounts(total, sessions[..n]);
      assert AllGood(sessions) <==> AllGood(sessions[..n]) && Good(sessions[n]) by {
        if AllGood(sessions[..n]) && Good(sessions[n]) {
          forall i | 0 <= i < |sessions| ensures Good(sessions[i]) { if i < n { assert Good(sessions[..n][i]); } }
        }
      }
      assert [] + [AllGood(sessions)] == [AllGood(sessions)];
    }
  }

  /** Nothing is emitted before the last outcome. */
  lemma {:induction false} AnswersShort(j: Join, outcomes: seq<bool>)
    requires j.errorCount + j.responseCount + |outcomes| < j.total
    ensures
      var r := AnswerAll(j, outcomes);
      && r.total == j.total && r.errorCount + r.responseCount == j.errorCount + j.responseCount + |outcomes|
      && (r.errorCount == 0 <==> j.errorCount == 0 && AllTrue(outcomes))
      && r.finished == j.finished
    decreases |outcomes|
  {
    if outcomes != [] {
      var n := |outcomes| - 1;
      AnswersShort(j, outcomes[..n]);
      AllTrueSnoc(outcomes);
    }
  }

  lemma AllTrueSnoc(outcomes: seq<bool>)
    requires outcomes != []
    ensures var n := |outcomes| - 1; AllTrue(outcomes) <==> AllTrue(outcomes[..n]) && outcomes[n]
  {
    var n := |outcomes| - 1;
    if AllTrue(outcomes[..n]) && outcomes[n] {
      forall i | 0 <= i < |outcomes| ensures outcomes[i] { if i < n { assert outcomes[..n][i]; } }
    }
  }

  lemma AnswersSoFar(j: Join, outcomes: seq<bool>)
    requires outcomes != [] && j.errorCount + j.responseCount + |outcomes| == j.total
    ensures
      var r := AnswerAll(j, outcomes);
      && r.total == j.total && r.errorCount + r.responseCount == j.total
      && (r.errorCount == 0 <==> j.errorCount == 0 && AllTrue(outcomes))
      && r.finished == j.finished + [r.errorCount == 0]
  {
    var n := |outcomes| - 1;
    AnswersShort(j, outcomes[..n]);
    AllTrueSnoc(outcomes);
  }

  /** Each started session answers once, in any order of the answers: `finished` is emitted, with
      true if and only if nothing failed, exactly once, unless the last session answered before
      start was at its end and nothing was left to wait for; then it is emitted twice. */
  lemma FinishedOnce(sessions: seq<Session>, outcomes: seq<bool>)
    requires |outcomes| == CountLater(sessions)
    ensures
      var ok := AllGood(sessions) && AllTrue(outcomes);
      AnswerAll(Started(sessions), outcomes).finished == if DoneBeforeTheEnd(sessions) then [ok, ok] else [ok]
  {
    var j := Begin(|sessions|, sessions);
    BeginCounts(|sessions|, sessions);
    if outcomes == [] {
      assert [j.errorCount == 0] + [j.errorCount == 0] == [j.errorCount == 0, j.errorCount == 0];
      assert [] + [j.errorCount == 0] == [j.errorCount == 0];
    } else {
      AnswersSoFar(j, outcomes);
      assert [] + [AllGood(sessions) && AllTrue(outcomes)] == [AllGood(sessions) && AllTrue(outcomes)];
    }
  }

  /** While an outcome is missing nothing is emitted. */
  lemma NotFinishedEarly(sessions: seq<Session>, outcomes: seq<bool>)
    requires |outcomes| < CountLater(sessions)
    ensures AnswerAll(Started(sessions), outcomes).finished == []
  {
    BeginCounts(|sessions|, sessions);
    AnswersShort(Begin(|sessions|, sessions), outcomes);
  }

  class Reauthenticator {
    const clientData: seq<Session>
    var errorCount: nat
    var responseCount: nat
    var finished: seq<bool>

    function State(): Join
      reads this
    {
      Join(|clientData|, errorCount, responseCount, finished)
    }

    constructor (clientData: seq<Session>)
      ensures State() == Join(|clientData|, 0, 0, []) && this.clientData == clientData
    {
      this.clientData, errorCount, responseCount, finished := clientData, 0, 0, [];
    }

    method Start()
      requires State() == Join(|clientData|, 0, 0, [])
      modifies this
      ensures State() == Started(clientData)
    {
      for i := 0 to |clientData|
        invariant State() == Begin(|clientData|, clientData[..i])
      {
        assert clientData[..i + 1][..i] == clientData[..i];
        match clientData[i] {
          case Missing => errorCount := errorCount + 1;
          case Later =>
          case AtOnce(ok) => if ok { OnResponse(); } else { OnError(); }
        }
      }
      assert clientData[..|clientData|] == clientData;
      Check();
    }

    method Check()
      modifies this`finished
      ensures State() == CheckFinished(old(State()))
    {
      if errorCount + responseCount < |clientData| { return; }
      finished := finished + [errorCount == 0];
    }

    method OnError()
      modifies this`errorCount, this`finished
      ensures State() == Answer(old(State()), false)
    {
      errorCount := errorCount + 1;
      Check();
    }

    method OnResponse()
      modifies this`responseCount, this`finished
      ensures State() == Answer(old(State()), true)
    {
      responseCount := responseCount + 1;
      Check();
    }
  }
}
