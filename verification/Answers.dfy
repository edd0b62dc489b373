/**
 What each command of the daemon asks of its backend, what it answers and where it leaves the state, written as
 a script of calls and a table of endings, apart from the step functions of the lifecycle.
 */
module Answers {
  import opened Basics
  import opened Lifecycle

  /** The calls a connect sets out to make. */
  function Script(request: Request, was: bool): seq<Call> {
    [Validate] + HoldCalls(request) + StopCalls(was) + DataPlaneCalls(request)
  }

  function HoldCalls(request: Request): seq<Call> {
    if request.mode == Tun then [InstallHold, VerifyHold] else []
  }

  function StopCalls(was: bool): seq<Call> {
    if was then [Stop(true)] else []
  }

  function DataPlaneCalls(request: Request): seq<Call> {
    [Start, Activate, VerifyConnection] + if request.mode == Tun && !request.killswitch then [RemoveHold] else []
  }

  /** The first of the calls, asked from number `n` on, that fails, and the number of the call after it. */
  datatype Break = Break(failed: Call, next: nat)

  function FirstBreak(env: Environment, n: nat, calls: seq<Call>): Option<Break>
    decreases |calls|
  {
    if calls == [] then None
    else if !env(n).ok then Some(Break(calls[0], n + 1))
    else FirstBreak(env, n + 1, calls[1..])
  }

  /** What is asked after `failed` has failed, from call number `m` on. */
  function FollowUp(env: Environment, m: nat, request: Request, was: bool, failed: Call): seq<Event> {
    if failed == VerifyHold then [Event(RemoveHold, env(m))]
    else if failed in {Start, Activate, VerifyConnection} then
      [Event(Stop(false), env(m))]
      + if env(m).ok && request.mode == Tun && !was && !request.killswitch then [Event(RemoveHold, env(m + 1))] else []
    else []
  }

  /** The phase a connect ends in after that. */
  function EndPhase(env: Environment, m: nat, request: Request, was: bool, failed: Call): Phase {
    var resting := if was then Connected else Disconnected;
    match failed
    case VerifyHold => if env(m).ok then resting else RecoveryRequired
    case Stop(_) => if request.mode == Tun then Blocking else RecoveryRequired
    case RemoveHold => RecoveryRequired
    case Validate => resting
    case InstallHold => resting
    case _ =>
      if !env(m).ok then RecoveryRequired
      else if request.mode == Tun && (was || request.killswitch) then Blocking
      else Disconnected
  }

  /** Everything asked for the calls from number `n` on: all of them, or up to the first that fails and what follows
      it. */
  function Events(env: Environment, n: nat, calls: seq<Call>, request: Request, was: bool): seq<Event>
    decreases |calls|
  {
    if calls == [] then []
    else
      [Event(calls[0], env(n))]
      + if env(n).ok then Events(env, n + 1, calls[1..], request, was)
        else FollowUp(env, n + 1, request, was, calls[0])
  }

  /** `step` follows the calls that are left after `trace`: success when all of them go well, and otherwise an error
      that names the first that failed. */
  predicate Follows(env: Environment, trace: seq<Event>, block: bool, calls: seq<Call>, request: Request, was: bool,
                    step: Step) {
    var broken := FirstBreak(env, |trace|, calls);
    && step.next.trace == trace + Events(env, |trace|, calls, request, was)
    && if broken.None? then
         && step.next.state == DaemonState(Connected, request.excludedApps != [], request.mode == Tun)
         && step.next.blockOnFailure == (request.mode == Tun && request.killswitch)
         && step.result == Success(step.next.state)
       else
         && step.next.state
            == DaemonState(EndPhase(env, broken.value.next, request, was, broken.value.failed), false, false)
         && step.next.blockOnFailure == block
         && step.result == Failure(BackendError(broken.value.failed))
  }

  // ---- One call at a time ----

  lemma FirstCall(env: Environment, n: nat, call: Call, rest: seq<Call>, request: Request, was: bool)
    ensures FirstBreak(env, n, [call] + rest) ==
            if env(n).ok then FirstBreak(env, n + 1, rest) else Some(Break(call, n + 1))
    ensures Events(env, n, [call] + rest, request, was) ==
            [Event(call, env(n))]
            + if env(n).ok then Events(env, n + 1, rest, request, was) else FollowUp(env, n + 1, request, was, call)
  {
    assert ([call] + rest)[1..] == rest;
  }

  lemma GoesOn(env: Environment, s: System, call: Call, rest: seq<Call>, request: Request, was: bool, step: Step)
    requires env(|s.trace|).ok
    requires Follows(env, Ask(env, s, call).trace, s.blockOnFailure, rest, request, was, step)
    ensures Follows(env, s.trace, s.blockOnFailure, [call] + rest, request, was, step)
  {
    AskTrace(env, s, call);
    FirstCall(env, |s.trace|, call, rest, request, was);
    hide FirstBreak, Events, FollowUp, EndPhase, Ask;
  }

  lemma StopsHere(env: Environment, s: System, call: Call, rest: seq<Call>, request: Request, was: bool, step: Step)
    requires !env(|s.trace|).ok
    requires var m := |s.trace| + 1;
             && step.next.trace == Ask(env, s, call).trace + FollowUp(env, m, request, was, call)
             && step.next.state == DaemonState(EndPhase(env, m, request, was, call), false, false)
             && step.next.blockOnFailure == s.blockOnFailure
             && step.result == Failure(BackendError(call))
    ensures Follows(env, s.trace, s.blockOnFailure, [call] + rest, request, was, step)
  {
    AskTrace(env, s, call);
    FirstCall(env, |s.trace|, call, rest, request, was);
    hide FirstBreak, Events, FollowUp, EndPhase, Ask;
  }

  // ---- The parts of a connect ----

  predicate Cleared(s: System) { !s.state.splitActive && !s.state.dnsProtected }

  lemma GiveUpFollows(env: Environment, s: System, call: Call, rest: seq<Call>, request: Request, was: bool)
    requires Cleared(s) && call in {Start, Activate, VerifyConnection} && !env(|s.trace|).ok
    ensures Follows(env, s.trace, s.blockOnFailure, [call] + rest, request, was,
                    GiveUp(env, Ask(env, s, call), request, was, call))
  {
    var asked := Ask(env, s, call);
    AskTrace(env, s, call);
    AskTrace(env, asked, Stop(false));
    AskTrace(env, Ask(env, asked, Stop(false)), RemoveHold);
    StopsHere(env, s, call, rest, request, was, GiveUp(env, asked, request, was, call));
  }

  lemma CommitFollows(env: Environment, s: System, request: Request, was: bool)
    requires Cleared(s) && Answered(s)
    ensures Follows(env, s.trace, s.blockOnFailure, DataPlaneCalls(request)[3..], request, was, Commit(env, s, request))
  {
    var step := Commit(env, s, request);
    AskTrace(env, s, RemoveHold);
    if request.mode == Tun && !request.killswitch {
      assert DataPlaneCalls(request)[3..] == [RemoveHold] + [];
      if env(|s.trace|).ok {
        GoesOn(env, s, RemoveHold, [], request, was, step);
      } else {
        StopsHere(env, s, RemoveHold, [], request, was, step);
      }
    } else {
      assert DataPlaneCalls(request)[3..] == [];
    }
  }

  lemma BringUpFollows(env: Environment, s: System, request: Request, was: bool)
    requires Cleared(s)
    ensures Follows(env, s.trace, s.blockOnFailure, DataPlaneCalls(request), request, was,
                    BringUp(env, s, request, was))
  {
    var last := DataPlaneCalls(request)[3..];
    var s1 := Ask(env, s, Start);
    var s2 := Ask(env, s1, Activate);
    var s3 := Ask(env, s2, VerifyConnection);
    var step := BringUp(env, s, request, was);
    AskTrace(env, s, Start);
    AskTrace(env, s1, Activate);
    AskTrace(env, s2, VerifyConnection);
    assert [VerifyConnection] + last == DataPlaneCalls(request)[2..];
    assert [Activate] + DataPlaneCalls(request)[2..] == DataPlaneCalls(request)[1..];
    assert [Start] + DataPlaneCalls(request)[1..] == DataPlaneCalls(request);
    hide Follows, GiveUp, Commit;
    if !env(|s.trace|).ok {
      GiveUpFollows(env, s, Start, DataPlaneCalls(request)[1..], request, was);
    } else {
      if !env(|s1.trace|).ok {
        GiveUpFollows(env, s1, Activate, DataPlaneCalls(request)[2..], request, was);
      } else {
        if !env(|s2.trace|).ok {
          GiveUpFollows(env, s2, VerifyConnection, last, request, was);
        } else {
          CommitFollows(env, s3, request, was);
          GoesOn(env, s2, VerifyConnection, last, request, was, step);
        }
        GoesOn(env, s1, Activate, DataPlaneCalls(request)[2..], request, was, step);
      }
      GoesOn(env, s, Start, DataPlaneCalls(request)[1..], request, was, step);
    }
  }

  lemma ReplaceFollows(env: Environment, s: System, request: Request, was: bool)
    requires Cleared(s)
    ensures Follows(env, s.trace, s.blockOnFailure, StopCalls(was) + DataPlaneCalls(request), request, was,
                    ReplaceDataPlane(env, s, request, was))
  {
    var step := ReplaceDataPlane(env, s, request, was);
    if was {
      var s1 := Ask(env, s, Stop(true));
      AskTrace(env, s, Stop(true));
      if env(|s.trace|).ok {
        BringUpFollows(env, s1, request, was);
        hide Follows, BringUp;
        GoesOn(env, s, Stop(true), DataPlaneCalls(request), request, was, step);
      } else {
        StopsHere(env, s, Stop(true), DataPlaneCalls(request), request, was, step);
      }
    } else {
      BringUpFollows(env, s, request, was);
      hide Follows, BringUp;
      assert StopCalls(was) + DataPlaneCalls(request) == DataPlaneCalls(request);
    }
  }

  lemma RaiseHoldFollows(env: Environment, s: System, request: Request, was: bool)
    requires Cleared(s) && request.mode == Tun
    ensures Follows(env, s.trace, s.blockOnFailure,
                    [InstallHold] + ([VerifyHold] + (StopCalls(was) + DataPlaneCalls(request))), request, was,
                    RaiseHold(env, s, request, was))
  {
    var rest := StopCalls(was) + DataPlaneCalls(request);
    var step := RaiseHold(env, s, request, was);
    var s1 := Ask(env, s, InstallHold);
    var s2 := Ask(env, s1, VerifyHold);
    AskTrace(env, s, InstallHold);
    AskTrace(env, s1, VerifyHold);
    AskTrace(env, s2, RemoveHold);
    hide ReplaceDataPlane, StopCalls, DataPlaneCalls, FirstBreak;
    if !env(|s.trace|).ok {
      StopsHere(env, s, InstallHold, [VerifyHold] + rest, request, was, step);
    } else {
      if !env(|s1.trace|).ok {
        StopsHere(env, s1, VerifyHold, rest, request, was, step);
      } else {
        ReplaceFollows(env, WithPhase(s2, Blocking), request, was);
        GoesOn(env, s1, VerifyHold, rest, request, was, step);
      }
      GoesOn(env, s, InstallHold, [VerifyHold] + rest, request, was, step);
    }
  }

  /** Every connect follows its script: the calls it makes, the state it ends in and its answer, for every outcome of
      every call. */
  lemma ConnectFollowsItsScript(env: Environment, s: System, request: Request)
    ensures var was := s.state.phase == Connected;
            Follows(env, s.trace, s.blockOnFailure, Script(request, was), request, was, Connect(env, s, request))
  {
    var was := s.state.phase == Connected;
    var tail := StopCalls(was) + DataPlaneCalls(request);
    var rest := HoldCalls(request) + tail;
    ScriptParts(request, was);
    var s0 := s.(state := DaemonState(if was then Reconnecting else Preparing, false, false));
    var s1 := Ask(env, s0, Validate);
    var step := Connect(env, s, request);
    AskTrace(env, s0, Validate);
    hide Script, HoldCalls, StopCalls, DataPlaneCalls, RaiseHold, ReplaceDataPlane;
    if !env(|s.trace|).ok {
      StopsHere(env, s0, Validate, rest, request, was, step);
    } else {
      hide Follows;
      if request.mode == Tun {
        RaiseHoldFollows(env, s1, request, was);
      } else {
        ReplaceFollows(env, s1, request, was);
      }
      GoesOn(env, s0, Validate, rest, request, was, step);
    }
  }

  lemma ScriptParts(request: Request, was: bool)
    ensures var tail := StopCalls(was) + DataPlaneCalls(request);
            && Script(request, was) == [Validate] + (HoldCalls(request) + tail)
            && (request.mode == Tun ==> HoldCalls(request) + tail == [InstallHold] + ([VerifyHold] + tail))
            && (request.mode == Proxy ==> HoldCalls(request) + tail == tail)
  {
  }

  // ---- The answers ----

  /** The call `failed` is the first of the command that did not go well. */
  predicate FirstToFail(before: seq<Event>, after: seq<Event>, failed: Call) {
    exists j :: |before| <= j < |after| && after[j].call == failed && !after[j].outcome.ok
                && AllWell(after, |before|, j)
  }

  predicate AllWell(trace: seq<Event>, from: nat, to: nat)
    requires to <= |trace|
  {
    forall k :: from <= k < to ==> trace[k].outcome.ok
  }

  /** Connect answers success exactly when every call it made went well, and then with the state it is in; a failure
      names the first call that failed. */
  lemma ConnectAnswers(env: Environment, s: System, request: Request)
    ensures var Step(next, result) := Connect(env, s, request);
            && s.trace <= next.trace
            && (result.Success? <==> AllWell(next.trace, |s.trace|, |next.trace|))
            && (result.Success? ==>
                  && result.state == next.state && next.state.phase == Connected
                  && (next.state.dnsProtected <==> request.mode == Tun)
                  && (next.state.splitActive <==> request.excludedApps != []))
            && (result.Failure? ==> result.error.BackendError? && FirstToFail(s.trace, next.trace, result.error.call))
  {
    var was := s.state.phase == Connected;
    var script, n := Script(request, was), |s.trace|;
    ConnectFollowsItsScript(env, s, request);
    EventsTell(env, n, script, request, was);
    hide Connect, Script, FollowUp, EndPhase, FirstBreak, Events, AllWell, FirstToFail;
    var events, broken := Events(env, n, script, request, was), FirstBreak(env, n, script);
    if broken.Some? {
      FailsAfter(s.trace, events, broken.value.failed);
    } else {
      WellAfter(s.trace, events);
    }
  }

  lemma WellAfter(before: seq<Event>, events: seq<Event>)
    requires AllWell(events, 0, |events|)
    ensures AllWell(before + events, |before|, |before + events|)
  {
  }

  lemma FailsAfter(before: seq<Event>, events: seq<Event>, failed: Call)
    requires FirstToFail([], events, failed)
    ensures FirstToFail(before, before + events, failed)
    ensures !AllWell(before + events, |before|, |before + events|)
  {
    var j :| 0 <= j < |events| && events[j].call == failed && !events[j].outcome.ok && AllWell(events, 0, j);
    var t := before + events;
    assert t[|before| + j] == events[j] && AllWell(t, |before|, |before| + j);
  }

  /** The events tell which call failed first, if any. */
  lemma {:induction false} EventsTell(env: Environment, n: nat, calls: seq<Call>, request: Request, was: bool)
    ensures var events, broken := Events(env, n, calls, request, was), FirstBreak(env, n, calls);
            && (broken.None? ==> AllWell(events, 0, |events|))
            && (broken.Some? ==> FirstToFail([], events, broken.value.failed))
    decreases |calls|
  {
    if calls != [] {
      var events := Events(env, n, calls, request, was);
      if env(n).ok {
        EventsTell(env, n + 1, calls[1..], request, was);
        var rest := Events(env, n + 1, calls[1..], request, was);
        assert events == [Event(calls[0], env(n))] + rest;
        if FirstBreak(env, n, calls).Some? {
          var failed := FirstBreak(env, n, calls).value.failed;
          var j :| 0 <= j < |rest| && rest[j].call == failed && !rest[j].outcome.ok && AllWell(rest, 0, j);
          assert events[j + 1] == rest[j] && AllWell(events, 0, j + 1);
        }
      } else {
        assert events[0].call == calls[0] && !events[0].outcome.ok && AllWell(events, 0, 0);
      }
    }
  }

  /** Disconnect makes both its calls whatever happens, and answers success exactly when both went well. */
  lemma DisconnectAnswers(env: Environment, s: System)
    ensures var Step(next, result) := Disconnect(env, s);
            var n := |s.trace|;
            && next.trace == s.trace + [Event(Stop(false), env(n)), Event(RemoveHold, env(n + 1))]
            && (if env(n).ok && env(n + 1).ok
                then
                  && next.state == DaemonState(Disconnected, false, false) && !next.blockOnFailure
                  && result == Success(next.state)
                else
                  && next.state == s.state.(phase := RecoveryRequired) && next.blockOnFailure == s.blockOnFailure
                  && result == Failure(CleanupFailed))
  {
    AskTrace(env, s, Stop(false));
    AskTrace(env, Ask(env, s, Stop(false)), RemoveHold);
  }

  /** A health check looks only while connected and acts only on a dead data plane, which it stops; it answers failure
      exactly when that stop fails. */
  lemma HealthAnswers(env: Environment, s: System)
    ensures var Step(next, result) := ReconcileHealth(env, s);
            var n := |s.trace|;
            && next.blockOnFailure == s.blockOnFailure
            && (s.state.phase != Connected ==> next == s && result == Success(s.state))
            && (s.state.phase == Connected && env(n).ok ==>
                  next.state == s.state && next.trace == s.trace + [Event(Alive, env(n))] && result == Success(s.state))
            && (s.state.phase == Connected && !env(n).ok ==>
                  && next.trace == s.trace + [Event(Alive, env(n)), Event(Stop(false), env(n + 1))]
                  && next.state == DaemonState(if !env(n + 1).ok then RecoveryRequired
                                               else if s.blockOnFailure then Blocking else Disconnected, false, false)
                  && result == if env(n + 1).ok then Success(next.state) else Failure(CleanupFailed))
  {
    var n := |s.trace|;
    AskTrace(env, s, Alive);
    AskTrace(env, Ask(env, s, Alive), Stop(false));
  }

  /** A split update is refused unless connected, without a call; a failed one changes nothing; a successful one
      books what the backend reports. */
  lemma SplitAnswers(env: Environment, s: System)
    ensures var Step(next, result) := UpdateLiveSplit(env, s);
            var n := |s.trace|;
            && next.blockOnFailure == s.blockOnFailure
            && (s.state.phase != Connected ==> next == s && result == Failure(NotConnected))
            && (s.state.phase == Connected ==>
                  && next.trace == s.trace + [Event(UpdateSplit, env(n))]
                  && next.state == (if env(n).ok then s.state.(splitActive := env(n).effect) else s.state)
                  && result == if env(n).ok then Success(next.state) else Failure(BackendError(UpdateSplit)))
  {
    AskTrace(env, s, UpdateSplit);
  }

  /** A failed write of the state calls for recovery and asks nothing. */
  lemma PersistFailureAnswers(s: System)
    ensures var next := MarkRecoveryRequired(s);
            && next.trace == s.trace && next.blockOnFailure == s.blockOnFailure
            && next.state == DaemonState(RecoveryRequired, false, false)
  {
  }
}
