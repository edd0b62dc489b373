/**
 The connection lifecycle of the daemon, over a backend in which every call may fail.

 The backend is an arbitrary environment: a function that fixes the outcome of the n-th call it
 receives. Quantifying over that function quantifies over every failure schedule. What is true of
 the kernel is read off the trace of calls: `Hold` says whether the hold block is installed.
 */
module Lifecycle {
  import opened Basics

  datatype Phase = Disconnected | Preparing | Blocking | Connected | Reconnecting | RecoveryRequired

  datatype Mode = Tun | Proxy

  datatype Request = Request(mode: Mode, killswitch: bool, excludedApps: seq<string>)

  datatype DaemonState = DaemonState(phase: Phase, splitActive: bool, dnsProtected: bool)

  datatype Call =
    | Alive
    | Validate
    | InstallHold
    | VerifyHold
    | Stop(preserveSplit: bool)
    | Start
    | Activate
    | UpdateSplit
    | VerifyConnection
    | RemoveHold

  /** `ok` is the call's result. `effect` settles what a call leaves open: whether a failed installation of
      the hold block took effect all the same, whether a removal, whatever it reports, left the block in
      place, and what a successful split update reports. */
  datatype Outcome = Outcome(ok: bool, effect: bool)

  datatype Event = Event(call: Call, outcome: Outcome)

  type Environment = nat -> Outcome

  datatype Error = BackendError(call: Call) | NotConnected | CleanupFailed

  datatype Result = Success(state: DaemonState) | Failure(error: Error)

  datatype System = System(state: DaemonState, blockOnFailure: bool, trace: seq<Event>)

  datatype Step = Step(next: System, result: Result)

  /** Whether the hold block is installed after `trace`. Installing is one nft transaction, so a
      failed installation never takes an installed block away. A removal may leave the block whether or not
      it reports success, because the helper does not look at what nft says. */
  function Hold(initial: bool, trace: seq<Event>): bool {
    if trace == [] then initial
    else
      var before := Hold(initial, trace[..|trace| - 1]);
      var Event(call, outcome) := trace[|trace| - 1];
      match call
      case InstallHold => outcome.ok || before || outcome.effect
      case RemoveHold => before && outcome.effect
      case _ => before
  }

  // ---- One command at a time ----

  function Ask(env: Environment, s: System, call: Call): System {
    s.(trace := s.trace + [Event(call, env(|s.trace|))])
  }

  predicate Answered(s: System) {
    |s.trace| > 0 && s.trace[|s.trace| - 1].outcome.ok
  }

  function WithPhase(s: System, phase: Phase): System {
    s.(state := s.state.(phase := phase))
  }

  function Fail(s: System, phase: Phase, call: Call): Step {
    Step(WithPhase(s, phase), Failure(BackendError(call)))
  }

  function Resting(wasConnected: bool): Phase {
    if wasConnected then Connected else Disconnected
  }

  function Connect(env: Environment, s: System, request: Request): Step {
    var wasConnected := s.state.phase == Connected;
    var opening := DaemonState(if wasConnected then Reconnecting else Preparing, false, false);
    var s1 := Ask(env, s.(state := opening), Validate);
    if !Answered(s1) then Fail(s1, Resting(wasConnected), Validate)
    else if request.mode == Tun then RaiseHold(env, s1, request, wasConnected)
    else ReplaceDataPlane(env, s1, request, wasConnected)
  }

  function RaiseHold(env: Environment, s: System, request: Request, wasConnected: bool): Step {
    var s1 := Ask(env, s, InstallHold);
    if !Answered(s1) then Fail(s1, Resting(wasConnected), InstallHold)
    else
      var s2 := Ask(env, s1, VerifyHold);
      if !Answered(s2) then
        var s3 := Ask(env, s2, RemoveHold);
        Fail(s3, if Answered(s3) then Resting(wasConnected) else RecoveryRequired, VerifyHold)
      else ReplaceDataPlane(env, WithPhase(s2, Blocking), request, wasConnected)
  }

  function ReplaceDataPlane(env: Environment, s: System, request: Request, wasConnected: bool): Step {
    if !wasConnected then BringUp(env, s, request, wasConnected)
    else
      var s1 := Ask(env, s, Stop(true));
      if !Answered(s1) then
        Fail(s1, if request.mode == Tun then Blocking else RecoveryRequired, Stop(true))
      else BringUp(env, s1, request, wasConnected)
  }

  function BringUp(env: Environment, s: System, request: Request, wasConnected: bool): Step {
    var s1 := Ask(env, s, Start);
    if !Answered(s1) then GiveUp(env, s1, request, wasConnected, Start)
    else
      var s2 := Ask(env, s1, Activate);
      if !Answered(s2) then GiveUp(env, s2, request, wasConnected, Activate)
      else
        var s3 := Ask(env, s2, VerifyConnection);
        if !Answered(s3) then GiveUp(env, s3, request, wasConnected, VerifyConnection)
        else Commit(env, s3, request)
  }

  function GiveUp(env: Environment, s: System, request: Request, wasConnected: bool, failed: Call): Step {
    var guarded := request.mode == Tun;
    var s1 := Ask(env, s, Stop(false));
    if !Answered(s1) then Fail(s1, RecoveryRequired, failed)
    else if guarded && (wasConnected || request.killswitch) then Fail(s1, Blocking, failed)
    else Fail(if guarded then Ask(env, s1, RemoveHold) else s1, Disconnected, failed)
  }

  function Commit(env: Environment, s: System, request: Request): Step {
    var guarded := request.mode == Tun;
    var s1 := if guarded && !request.killswitch then Ask(env, s, RemoveHold) else s;
    if !Answered(s1) then Fail(s1, RecoveryRequired, RemoveHold)
    else
      var state := DaemonState(Connected, request.excludedApps != [], guarded);
      Step(System(state, guarded && request.killswitch, s1.trace), Success(state))
  }

  function Disconnect(env: Environment, s: System): Step {
    var s1 := Ask(env, s, Stop(false));
    var s2 := Ask(env, s1, RemoveHold);
    if !Answered(s1) || !Answered(s2) then Step(WithPhase(s2, RecoveryRequired), Failure(CleanupFailed))
    else
      var state := DaemonState(Disconnected, false, false);
      Step(System(state, false, s2.trace), Success(state))
  }

  function MarkRecoveryRequired(s: System): System {
    s.(state := DaemonState(RecoveryRequired, false, false))
  }

  function ReconcileHealth(env: Environment, s: System): Step {
    if s.state.phase != Connected then Step(s, Success(s.state))
    else
      var s1 := Ask(env, s, Alive);
      if Answered(s1) then Step(s1, Success(s1.state))
      else
        var s2 := Ask(env, s1, Stop(false));
        if !Answered(s2) then Step(MarkRecoveryRequired(s2), Failure(CleanupFailed))
        else
          var state := DaemonState(if s.blockOnFailure then Blocking else Disconnected, false, false);
          Step(s2.(state := state), Success(state))
  }

  function UpdateLiveSplit(env: Environment, s: System): Step {
    if s.state.phase != Connected then Step(s, Failure(NotConnected))
    else
      var s1 := Ask(env, s, UpdateSplit);
      if !Answered(s1) then Step(s1, Failure(BackendError(UpdateSplit)))
      else
        var state := s.state.(splitActive := env(|s.trace|).effect);
        Step(s1.(state := state), Success(state))
  }

  /** A backend that keeps the record of what it was asked. */
  class Backend {
    const env: Environment
    var trace: seq<Event>

    constructor (env: Environment)
      ensures this.env == env && trace == []
    {
      this.env := env;
      trace := [];
    }

    method Invoke(call: Call) returns (outcome: Outcome)
      modifies this
      ensures outcome == env(|old(trace)|)
      ensures trace == old(trace) + [Event(call, outcome)]
    {
      outcome := env(|trace|);
      trace := trace + [Event(call, outcome)];
    }
  }

  class LifecycleManager {
    const backend: Backend
    var state: DaemonState
    var blockOnFailure: bool

    constructor (backend: Backend, phase: Phase)
      ensures this.backend == backend && fresh(this)
      ensures View() == System(DaemonState(phase, false, false), false, backend.trace)
    {
      this.backend := backend;
      state := DaemonState(phase, false, false);
      blockOnFailure := false;
    }

    function View(): System
      reads this, backend
    {
      System(state, blockOnFailure, backend.trace)
    }

    method SetPhase(phase: Phase)
      modifies this
      ensures View() == WithPhase(old(View()), phase)
    {
      state := state.(phase := phase);
    }

    method RecoveryIsRequired()
      modifies this
      ensures View() == MarkRecoveryRequired(old(View()))
    {
      state := DaemonState(RecoveryRequired, false, false);
    }

    method ConnectTo(request: Request) returns (result: Result)
      modifies this, backend
      ensures Step(View(), result) == Connect(backend.env, old(View()), request)
    {
      hide BringUp;
      var wasConnected := state.phase == Connected;
      state := DaemonState(if wasConnected then Reconnecting else Preparing, false, false);
      var outcome := backend.Invoke(Validate);
      if !outcome.ok {
        SetPhase(Resting(wasConnected));
        return Failure(BackendError(Validate));
      }
      var guarded := request.mode == Tun;
      if guarded {
        outcome := backend.Invoke(InstallHold);
        if !outcome.ok {
          SetPhase(Resting(wasConnected));
          return Failure(BackendError(InstallHold));
        }
        outcome := backend.Invoke(VerifyHold);
        if !outcome.ok {
          var removal := backend.Invoke(RemoveHold);
          SetPhase(if removal.ok then Resting(wasConnected) else RecoveryRequired);
          return Failure(BackendError(VerifyHold));
        }
        SetPhase(Blocking);
      }
      if wasConnected {
        outcome := backend.Invoke(Stop(true));
        if !outcome.ok {
          SetPhase(if guarded then Blocking else RecoveryRequired);
          return Failure(BackendError(Stop(true)));
        }
      }
      result := StartVerified(request, wasConnected);
    }

    method StartVerified(request: Request, wasConnected: bool) returns (result: Result)
      modifies this, backend
      ensures Step(View(), result) == BringUp(backend.env, old(View()), request, wasConnected)
    {
      var failed := Start;
      var outcome := backend.Invoke(Start);
      if outcome.ok {
        failed := Activate;
        outcome := backend.Invoke(Activate);
      }
      if outcome.ok {
        failed := VerifyConnection;
        outcome := backend.Invoke(VerifyConnection);
      }
      hide GiveUp, Commit;
      if !outcome.ok {
        result := CleanUp(request, wasConnected, failed);
      } else {
        result := Conclude(request);
      }
    }

    method CleanUp(request: Request, wasConnected: bool, failed: Call) returns (result: Result)
      modifies this, backend
      ensures Step(View(), result) == GiveUp(backend.env, old(View()), request, wasConnected, failed)
    {
      var guarded := request.mode == Tun;
      var cleanup := backend.Invoke(Stop(false));
      if !cleanup.ok {
        SetPhase(RecoveryRequired);
      } else if guarded && (wasConnected || request.killswitch) {
        SetPhase(Blocking);
      } else {
        if guarded {
          var removal := backend.Invoke(RemoveHold);
        }
        SetPhase(Disconnected);
      }
      result := Failure(BackendError(failed));
    }

    method Conclude(request: Request) returns (result: Result)
      requires Answered(View())
      modifies this, backend
      ensures Step(View(), result) == Commit(backend.env, old(View()), request)
    {
      var guarded := request.mode == Tun;
      if guarded && !request.killswitch {
        var outcome := backend.Invoke(RemoveHold);
        if !outcome.ok {
          SetPhase(RecoveryRequired);
          return Failure(BackendError(RemoveHold));
        }
      }
      state := DaemonState(Connected, request.excludedApps != [], guarded);
      blockOnFailure := guarded && request.killswitch;
      result := Success(state);
    }

    method UpdateApplications(applications: seq<string>) returns (result: Result)
      modifies this, backend
      ensures Step(View(), result) == UpdateLiveSplit(backend.env, old(View()))
    {
      if state.phase != Connected {
        return Failure(NotConnected);
      }
      var outcome := backend.Invoke(UpdateSplit);
      if !outcome.ok {
        return Failure(BackendError(UpdateSplit));
      }
      state := state.(splitActive := outcome.effect);
      result := Success(state);
    }

    method TearDown() returns (result: Result)
      modifies this, backend
      ensures Step(View(), result) == Disconnect(backend.env, old(View()))
    {
      var dataPlane := backend.Invoke(Stop(false));
      var holdBlock := backend.Invoke(RemoveHold);
      if !dataPlane.ok || !holdBlock.ok {
        SetPhase(RecoveryRequired);
        return Failure(CleanupFailed);
      }
      state := DaemonState(Disconnected, false, false);
      blockOnFailure := false;
      result := Success(state);
    }

    method CheckHealth() returns (result: Result)
      modifies this, backend
      ensures Step(View(), result) == ReconcileHealth(backend.env, old(View()))
    {
      if state.phase != Connected {
        return Success(state);
      }
      var alive := backend.Invoke(Alive);
      if alive.ok {
        return Success(state);
      }
      var cleanup := backend.Invoke(Stop(false));
      if !cleanup.ok {
        RecoveryIsRequired();
        return Failure(CleanupFailed);
      }
      state := DaemonState(if blockOnFailure then Blocking else Disconnected, false, false);
      result := Success(state);
    }
  }

  // ---- Runs ----

  /** What the controller drives the manager with; `PersistFailed` is a failed write of its state. */
  datatype Command =
    | ConnectCommand(request: Request)
    | DisconnectCommand
    | HealthCommand
    | SplitCommand(applications: seq<string>)
    | PersistFailed

  function Exec(env: Environment, s: System, command: Command): System {
    match command
    case ConnectCommand(request) => Connect(env, s, request).next
    case DisconnectCommand => Disconnect(env, s).next
    case HealthCommand => ReconcileHealth(env, s).next
    case SplitCommand(_) => UpdateLiveSplit(env, s).next
    case PersistFailed => MarkRecoveryRequired(s)
  }

  function Run(env: Environment, s: System, commands: seq<Command>): System {
    if commands == [] then s
    else Exec(env, Run(env, s, commands[..|commands| - 1]), commands[|commands| - 1])
  }

  predicate Initial(s: System) {
    s.state.phase in {Disconnected, RecoveryRequired} && !s.blockOnFailure
  }

  /** A phase that promises to block does block. */
  predicate HoldKept(initial: bool, s: System) {
    && (s.state.phase == Blocking ==> Hold(initial, s.trace))
    && (s.state.phase == Connected && s.blockOnFailure ==> Hold(initial, s.trace))
  }

  /** A reconnect out of a kill-switch session whose fresh hold block fails its verification and is
      taken away, while the session it was protecting goes on. */
  predicate DropsHold(env: Environment, s: System, command: Command) {
    var n := |s.trace|;
    && command.ConnectCommand?
    && command.request.mode == Tun
    && s.state.phase == Connected
    && s.blockOnFailure
    && env(n).ok && env(n + 1).ok && !env(n + 2).ok && env(n + 3).ok && !env(n + 3).effect
  }

  lemma HoldAfter(initial: bool, env: Environment, s: System, call: Call)
    ensures Hold(initial, Ask(env, s, call).trace) ==
            var outcome := env(|s.trace|);
            match call
            case InstallHold => outcome.ok || Hold(initial, s.trace) || outcome.effect
            case RemoveHold => Hold(initial, s.trace) && outcome.effect
            case _ => Hold(initial, s.trace)
  {
    var t := Ask(env, s, call).trace;
    assert t[..|t| - 1] == s.trace;
  }

  /** Without a removal the hold block stays. */
  lemma {:induction false} HoldPersists(initial: bool, trace: seq<Event>, from: nat, to: nat)
    requires from <= to <= |trace| && Hold(initial, trace[..from])
    requires forall k :: from <= k < to ==> trace[k].call != RemoveHold
    ensures Hold(initial, trace[..to])
  {
    if from < to {
      HoldPersists(initial, trace, from, to - 1);
      assert trace[..to][..to - 1] == trace[..to - 1];
    }
  }

  // ---- The hold block over every run ----

  lemma GiveUpKeepsHold(env: Environment, initial: bool, s: System, request: Request, was: bool, failed: Call)
    requires request.mode == Tun ==> Hold(initial, s.trace)
    ensures HoldKept(initial, GiveUp(env, s, request, was, failed).next)
  {
    HoldAfter(initial, env, s, Stop(false));
  }

  lemma BringUpKeepsHold(env: Environment, initial: bool, s: System, request: Request, was: bool)
    requires request.mode == Tun ==> Hold(initial, s.trace)
    ensures HoldKept(initial, BringUp(env, s, request, was).next)
  {
    HoldAfter(initial, env, s, Start);
    var s1 := Ask(env, s, Start);
    if !Answered(s1) {
      GiveUpKeepsHold(env, initial, s1, request, was, Start);
    } else {
      HoldAfter(initial, env, s1, Activate);
      var s2 := Ask(env, s1, Activate);
      if !Answered(s2) {
        GiveUpKeepsHold(env, initial, s2, request, was, Activate);
      } else {
        HoldAfter(initial, env, s2, VerifyConnection);
        var s3 := Ask(env, s2, VerifyConnection);
        if !Answered(s3) {
          GiveUpKeepsHold(env, initial, s3, request, was, VerifyConnection);
        }
      }
    }
  }

  lemma ConnectKeepsHold(env: Environment, initial: bool, s: System, request: Request)
    requires HoldKept(initial, s)
    ensures HoldKept(initial, Connect(env, s, request).next) <==> !DropsHold(env, s, ConnectCommand(request))
  {
    hide Hold, BringUp;
    var was := s.state.phase == Connected;
    var opening := DaemonState(if was then Reconnecting else Preparing, false, false);
    var s0 := s.(state := opening);
    var s1 := Ask(env, s0, Validate);
    HoldAfter(initial, env, s0, Validate);
    if Answered(s1) {
      if request.mode == Tun {
        var s2 := Ask(env, s1, InstallHold);
        HoldAfter(initial, env, s1, InstallHold);
        var s3 := Ask(env, s2, VerifyHold);
        HoldAfter(initial, env, s2, VerifyHold);
        HoldAfter(initial, env, s3, RemoveHold);
        if Answered(s2) && Answered(s3) {
          var s4 := WithPhase(s3, Blocking);
          HoldAfter(initial, env, s4, Stop(true));
          BringUpKeepsHold(env, initial, if was then Ask(env, s4, Stop(true)) else s4, request, was);
        }
      } else {
        BringUpKeepsHold(env, initial, if was then Ask(env, s1, Stop(true)) else s1, request, was);
      }
    }
  }

  /** The failed verification on a reconnect is the only step of any command that breaks the promise. */
  lemma ExecKeepsHold(env: Environment, initial: bool, s: System, command: Command)
    requires HoldKept(initial, s)
    ensures HoldKept(initial, Exec(env, s, command)) <==> !DropsHold(env, s, command)
  {
    match command
    case ConnectCommand(request) => ConnectKeepsHold(env, initial, s, request);
    case HealthCommand =>
      HoldAfter(initial, env, s, Alive);
      HoldAfter(initial, env, Ask(env, s, Alive), Stop(false));
    case SplitCommand(_) => HoldAfter(initial, env, s, UpdateSplit);
    case _ =>
  }

  /** The promise holds before the first command and after each one. */
  predicate KeptThroughout(env: Environment, initial: bool, s: System, commands: seq<Command>) {
    && HoldKept(initial, Run(env, s, commands))
    && (commands != [] ==> KeptThroughout(env, initial, s, commands[..|commands| - 1]))
  }

  /** No command of the run is the reconnect that drops the hold block. */
  predicate NeverDrops(env: Environment, s: System, commands: seq<Command>) {
    commands != [] ==>
      var n := |commands| - 1;
      NeverDrops(env, s, commands[..n]) && !DropsHold(env, Run(env, s, commands[..n]), commands[n])
  }

  /** Over every run and every failure schedule: the promise holds at every command boundary exactly
      when no command of the run drops the hold block. */
  lemma {:induction false} RunKeepsHold(env: Environment, initial: bool, s: System, commands: seq<Command>)
    requires Initial(s)
    ensures KeptThroughout(env, initial, s, commands) <==> NeverDrops(env, s, commands)
  {
    if commands == [] {
    } else {
      hide Exec, HoldKept, DropsHold;
      var n := |commands| - 1;
      RunKeepsHold(env, initial, s, commands[..n]);
      if KeptThroughout(env, initial, s, commands[..n]) {
        ExecKeepsHold(env, initial, Run(env, s, commands[..n]), commands[n]);
      }
    }
  }

  const IDLE := System(DaemonState(Disconnected, false, false), false, [])

  const KILLSWITCH_REQUEST := Request(Tun, true, [])

  const DROPPING_RUN := [ConnectCommand(KILLSWITCH_REQUEST), ConnectCommand(KILLSWITCH_REQUEST), HealthCommand]

  lemma RunOfOneMore(env: Environment, s: System, commands: seq<Command>, last: Command)
    ensures Run(env, s, commands + [last]) == Exec(env, Run(env, s, commands), last)
  {
    assert (commands + [last])[..|commands|] == commands;
  }

  lemma RunOfTwo(env: Environment, s: System, a: Command, b: Command)
    ensures Run(env, s, [a]) == Exec(env, s, a)
    ensures Run(env, s, [a, b]) == Exec(env, Exec(env, s, a), b)
  {
    hide Exec;
    RunOfOneMore(env, s, [], a);
    RunOfOneMore(env, s, [a], b);
    assert [] + [a] == [a] && [a] + [b] == [a, b];
  }

  /** The gap is real: a kill-switch session, a reconnect whose hold verification fails, and then an
      exit of Xray leave the daemon claiming to block with no hold block installed. */
  lemma BlockingWithoutHold(initial: bool)
    ensures var env := (n: nat) => Outcome(n != 8 && n != 10, false);
            var end := Run(env, IDLE, DROPPING_RUN);
            end.state.phase == Blocking && !Hold(initial, end.trace)
  {
    var env := (n: nat) => Outcome(n != 8 && n != 10, false);
    var connect := ConnectCommand(KILLSWITCH_REQUEST);
    hide Exec, Run, Hold;
    var one := Exec(env, IDLE, connect);
    var two := Exec(env, one, connect);
    assert DROPPING_RUN == [connect, connect] + [HealthCommand];
    RunOfOneMore(env, IDLE, [connect, connect], HealthCommand);
    RunOfTwo(env, IDLE, connect, connect);
    BlockedAfterInstalling(env);
    FailedVerification(env, initial, one);
    DeadDataPlane(env, initial, two);
  }

  lemma DeadDataPlane(env: Environment, initial: bool, s: System)
    requires s.state.phase == Connected && !env(|s.trace|).ok && env(|s.trace| + 1).ok
    ensures var t := Exec(env, s, HealthCommand);
            && t.state.phase == (if s.blockOnFailure then Blocking else Disconnected)
            && Hold(initial, t.trace) == Hold(initial, s.trace)
  {
    hide Hold;
    HoldAfter(initial, env, s, Alive);
    HoldAfter(initial, env, Ask(env, s, Alive), Stop(false));
  }

  /** The rollback that drops the block and keeps the session. */
  lemma FailedVerification(env: Environment, initial: bool, s: System)
    requires s.state.phase == Connected
    requires var n := |s.trace|;
             env(n).ok && env(n + 1).ok && !env(n + 2).ok && env(n + 3).ok && !env(n + 3).effect
    ensures var t := Exec(env, s, ConnectCommand(KILLSWITCH_REQUEST));
            && t.state.phase == Connected && t.blockOnFailure == s.blockOnFailure && |t.trace| == |s.trace| + 4
            && !Hold(initial, t.trace)
  {
    hide Hold;
    var s0 := s.(state := DaemonState(Reconnecting, false, false));
    HoldAfter(initial, env, Ask(env, Ask(env, Ask(env, s0, Validate), InstallHold), VerifyHold), RemoveHold);
  }

  // ---- The converse: a hold block that somebody answers for ----

  /** A hold block is installed only while the phase says so or the connection asked for it. */
  predicate HoldExplained(initial: bool, s: System) {
    Hold(initial, s.trace) ==>
      s.state.phase in {Blocking, RecoveryRequired} || (s.state.phase == Connected && s.blockOnFailure)
  }

  /** The first of start, activate and verify, asked from call `m` on, that fails. */
  function FirstFailure(env: Environment, m: nat): Option<nat> {
    if !env(m).ok then Some(m) else if !env(m + 1).ok then Some(m + 1) else if !env(m + 2).ok then Some(m + 2) else None
  }

  /** Bringing a data plane up from call `m` on ends in a phase other than recovery. */
  predicate Concludes(env: Environment, m: nat) {
    FirstFailure(env, m).Some? ==> env(FirstFailure(env, m).value + 1).ok
  }

  /** Bringing a guarded data plane up without kill switch, from call `m` on, asks for the block to be removed:
      after a first attempt that failed and was cleaned up, or on success. The block stays all the same, and no
      failure of the removal is noticed that would call for recovery. */
  predicate RemovalLost(env: Environment, m: nat, was: bool) {
    var failed := FirstFailure(env, m);
    if failed.Some? then !was && env(failed.value + 1).ok && env(failed.value + 2).effect
    else env(m + 3).ok && env(m + 3).effect
  }

  /** The connects that leave a hold block nobody answers for, by the calls they make from `n` on. `hold` is
      whether the block was there before.

      A refused request out of Blocking or RecoveryRequired; a proxy connection, or attempt at one, under a
      block that was there; a failed installation that took effect, or found the block, outside a kill-switch
      session; and a removal that leaves the block, after a failed verification of it outside such a session
      or around a data plane without kill switch. */
  predicate StrandsHold(env: Environment, hold: bool, s: System, request: Request) {
    var n, was := |s.trace|, s.state.phase == Connected;
    var protected := was && s.blockOnFailure;
    if !env(n).ok then hold && !was
    else if request.mode == Proxy then
      hold && (if was then env(n + 1).ok && Concludes(env, n + 2) else Concludes(env, n + 1))
    else if !env(n + 1).ok then (hold || env(n + 1).effect) && !protected
    else if !env(n + 2).ok then env(n + 3).ok && env(n + 3).effect && !protected
    else
      !request.killswitch
      && if was then env(n + 3).ok && RemovalLost(env, n + 4, true) else RemovalLost(env, n + 3, false)
  }

  lemma GiveUpExplained(env: Environment, initial: bool, s: System, request: Request, was: bool, failed: Call)
    requires request.mode == Tun ==> Hold(initial, s.trace)
    ensures var n, end := |s.trace|, GiveUp(env, s, request, was, failed).next;
            HoldExplained(initial, end) <==>
            !(env(n).ok && Hold(initial, s.trace)
              && (request.mode == Tun ==> !was && !request.killswitch && env(n + 1).effect))
  {
    hide Hold;
    HoldAfter(initial, env, s, Stop(false));
    HoldAfter(initial, env, Ask(env, s, Stop(false)), RemoveHold);
  }

  lemma BringUpExplained(env: Environment, initial: bool, s: System, request: Request, was: bool)
    requires request.mode == Tun ==> Hold(initial, s.trace)
    ensures var m, end := |s.trace|, BringUp(env, s, request, was).next;
            HoldExplained(initial, end) <==>
            if request.mode == Tun then request.killswitch || !RemovalLost(env, m, was)
            else !(Hold(initial, s.trace) && Concludes(env, m))
  {
    hide Hold, GiveUp, HoldExplained;
    HoldAfter(initial, env, s, Start);
    var s1 := Ask(env, s, Start);
    GiveUpExplained(env, initial, s1, request, was, Start);
    HoldAfter(initial, env, s1, Activate);
    var s2 := Ask(env, s1, Activate);
    GiveUpExplained(env, initial, s2, request, was, Activate);
    HoldAfter(initial, env, s2, VerifyConnection);
    var s3 := Ask(env, s2, VerifyConnection);
    GiveUpExplained(env, initial, s3, request, was, VerifyConnection);
    if Answered(s1) && Answered(s2) && Answered(s3) {
      CommitExplained(env, initial, s3, request);
    }
  }

  lemma CommitExplained(env: Environment, initial: bool, s: System, request: Request)
    requires Answered(s)
    ensures var n := |s.trace|;
            HoldExplained(initial, Commit(env, s, request).next) <==>
            if request.mode == Tun then
              request.killswitch || !Hold(initial, s.trace) || !(env(n).ok && env(n).effect)
            else !Hold(initial, s.trace)
  {
    hide Hold;
    HoldAfter(initial, env, s, RemoveHold);
  }

  lemma RaiseHoldExplained(env: Environment, initial: bool, s: System, request: Request, was: bool)
    requires request.mode == Tun && Answered(s)
    ensures var n, hold, protected := |s.trace|, Hold(initial, s.trace), was && s.blockOnFailure;
            HoldExplained(initial, RaiseHold(env, s, request, was).next) <==>
            !(if !env(n).ok then (hold || env(n).effect) && !protected
              else if !env(n + 1).ok then env(n + 2).ok && env(n + 2).effect && !protected
              else
                !request.killswitch
                && if was then env(n + 2).ok && RemovalLost(env, n + 3, true) else RemovalLost(env, n + 2, false))
  {
    hide Hold, BringUp, RemovalLost, Concludes;
    var s2 := Ask(env, s, InstallHold);
    HoldAfter(initial, env, s, InstallHold);
    var s3 := Ask(env, s2, VerifyHold);
    HoldAfter(initial, env, s2, VerifyHold);
    HoldAfter(initial, env, s3, RemoveHold);
    if Answered(s2) && Answered(s3) {
      var s4 := WithPhase(s3, Blocking);
      HoldAfter(initial, env, s4, Stop(true));
      BringUpExplained(env, initial, if was then Ask(env, s4, Stop(true)) else s4, request, was);
    }
  }

  lemma ConnectExplained(env: Environment, initial: bool, s: System, request: Request)
    requires HoldExplained(initial, s)
    ensures HoldExplained(initial, Connect(env, s, request).next) <==>
            !StrandsHold(env, Hold(initial, s.trace), s, request)
  {
    hide Hold, BringUp, RemovalLost, Concludes, RaiseHold;
    var was := s.state.phase == Connected;
    var s0 := s.(state := DaemonState(if was then Reconnecting else Preparing, false, false));
    var s1 := Ask(env, s0, Validate);
    HoldAfter(initial, env, s0, Validate);
    if Answered(s1) {
      if request.mode == Tun {
        RaiseHoldExplained(env, initial, s1, request, was);
      } else {
        HoldAfter(initial, env, s1, Stop(true));
        BringUpExplained(env, initial, if was then Ask(env, s1, Stop(true)) else s1, request, was);
      }
    }
  }

  predicate Strands(env: Environment, initial: bool, s: System, command: Command) {
    var n, hold := |s.trace|, Hold(initial, s.trace);
    || (command.ConnectCommand? && StrandsHold(env, hold, s, command.request))
    || (command.DisconnectCommand? && hold && env(n).ok && env(n + 1).ok && env(n + 1).effect)
  }

  /** Those connects, and a disconnect whose removal leaves the block, are the only steps of any command that
      leave a block unexplained. */
  lemma ExecExplained(env: Environment, initial: bool, s: System, command: Command)
    requires HoldExplained(initial, s)
    ensures HoldExplained(initial, Exec(env, s, command)) <==> !Strands(env, initial, s, command)
  {
    hide Hold, StrandsHold;
    match command
    case ConnectCommand(request) => ConnectExplained(env, initial, s, request);
    case HealthCommand =>
      HoldAfter(initial, env, s, Alive);
      HoldAfter(initial, env, Ask(env, s, Alive), Stop(false));
    case SplitCommand(_) => HoldAfter(initial, env, s, UpdateSplit);
    case DisconnectCommand =>
      HoldAfter(initial, env, s, Stop(false));
      HoldAfter(initial, env, Ask(env, s, Stop(false)), RemoveHold);
    case PersistFailed =>
  }

  predicate ExplainedThroughout(env: Environment, initial: bool, s: System, commands: seq<Command>) {
    && HoldExplained(initial, Run(env, s, commands))
    && (commands != [] ==> ExplainedThroughout(env, initial, s, commands[..|commands| - 1]))
  }

  predicate NeverStrands(env: Environment, initial: bool, s: System, commands: seq<Command>) {
    commands != [] ==>
      var n := |commands| - 1;
      NeverStrands(env, initial, s, commands[..n]) && !Strands(env, initial, Run(env, s, commands[..n]), commands[n])
  }

  /** Over every run and every failure schedule: at every command boundary an installed block is explained, exactly
      when no command of the run strands one. A block found at the start calls for recovery. */
  lemma {:induction false} RunExplainsHold(env: Environment, initial: bool, s: System, commands: seq<Command>)
    requires Initial(s) && HoldExplained(initial, s)
    ensures ExplainedThroughout(env, initial, s, commands) <==> NeverStrands(env, initial, s, commands)
  {
    if commands != [] {
      hide Exec, HoldExplained, Strands;
      var n := |commands| - 1;
      RunExplainsHold(env, initial, s, commands[..n]);
      if ExplainedThroughout(env, initial, s, commands[..n]) {
        ExecExplained(env, initial, Run(env, s, commands[..n]), commands[n]);
      }
    }
  }

  const ALL_WELL: Environment := (n: nat) => Outcome(true, false)

  /** The block is still there when a command asked for no removal. */
  lemma NoRemoval(initial: bool, s: System, t: System)
    requires s.trace <= t.trace && Hold(initial, s.trace)
    requires forall k :: |s.trace| <= k < |t.trace| ==> t.trace[k].call != RemoveHold
    ensures Hold(initial, t.trace)
  {
    assert t.trace[..|s.trace|] == s.trace && t.trace[..|t.trace|] == t.trace;
    HoldPersists(initial, t.trace, |s.trace|, |t.trace|);
  }

  lemma BringUpUnderKillswitch(env: Environment, s: System)
    requires var n := |s.trace|; env(n + 1).ok && (env(n).ok ==> env(n + 2).ok)
    ensures var n, t := |s.trace|, BringUp(env, s, KILLSWITCH_REQUEST, false).next;
            && s.trace <= t.trace && (forall k :: n <= k < |t.trace| ==> t.trace[k].call != RemoveHold)
            && (if env(n).ok then t.state.phase == Connected && t.blockOnFailure && |t.trace| == n + 3
                else t.state.phase == Blocking && |t.trace| == n + 2)
  {
  }

  /** A first kill-switch connect whose calls before the data plane go well. */
  lemma BlockedAfterInstalling(env: Environment)
    requires env(0).ok && env(1).ok && env(2).ok && env(4).ok && (env(3).ok ==> env(5).ok)
    ensures var one := Exec(env, IDLE, ConnectCommand(KILLSWITCH_REQUEST));
            && Hold(false, one.trace)
            && (if env(3).ok then one.state.phase == Connected && one.blockOnFailure && |one.trace| == 6
                else one.state.phase == Blocking && |one.trace| == 5)
  {
    hide BringUp;
    var s0 := IDLE.(state := DaemonState(Preparing, false, false));
    var s3 := WithPhase(Ask(env, Ask(env, Ask(env, s0, Validate), InstallHold), VerifyHold), Blocking);
    var one := Exec(env, IDLE, ConnectCommand(KILLSWITCH_REQUEST));
    assert s3.trace == [Event(Validate, env(0)), Event(InstallHold, env(1)), Event(VerifyHold, env(2))];
    assert one == BringUp(env, s3, KILLSWITCH_REQUEST, false).next;
    BringUpUnderKillswitch(env, s3);
    HoldInstalled(false, s3.trace, 1);
    HoldPersists(false, s3.trace, 2, 3);
    assert s3.trace[..3] == s3.trace;
    hide Hold;
    NoRemoval(false, s3, one);
  }

  lemma SwitchToProxy(s: System)
    requires s.state.phase == Connected
    ensures var t := Exec(ALL_WELL, s, ConnectCommand(Request(Proxy, false, [])));
            && t.state.phase == Connected && !t.blockOnFailure
            && s.trace <= t.trace && forall k :: |s.trace| <= k < |t.trace| ==> t.trace[k].call != RemoveHold
  {
  }

  /** A kill-switch session over TUN, then a switch to proxy mode, with every call succeeding: connected, not to
      block on failure, and still blocked. */
  lemma ProxyReconnectKeepsHold()
    ensures var run := [ConnectCommand(KILLSWITCH_REQUEST), ConnectCommand(Request(Proxy, false, []))];
            var end := Run(ALL_WELL, IDLE, run);
            end.state.phase == Connected && !end.blockOnFailure && Hold(false, end.trace)
  {
    hide Exec, Hold;
    var first, second := ConnectCommand(KILLSWITCH_REQUEST), ConnectCommand(Request(Proxy, false, []));
    var one := Exec(ALL_WELL, IDLE, first);
    RunOfTwo(ALL_WELL, IDLE, first, second);
    BlockedAfterInstalling(ALL_WELL);
    SwitchToProxy(one);
    NoRemoval(false, one, Exec(ALL_WELL, one, second));
  }

  lemma RefusedOutOfBlocking(env: Environment, s: System, request: Request)
    requires s.state.phase == Blocking && !env(|s.trace|).ok
    ensures var t := Exec(env, s, ConnectCommand(request));
            t.state.phase == Disconnected && t.trace == s.trace + [Event(Validate, env(|s.trace|))]
  {
  }

  /** A kill-switch session whose data plane cannot be started is blocked; a second request that is refused
      turns that into Disconnected, and the block stays. */
  lemma RefusedRequestForgetsBlocking()
    ensures var env: Environment := (n: nat) => Outcome(n != 3 && n != 5, false);
            var end := Run(env, IDLE, [ConnectCommand(KILLSWITCH_REQUEST), ConnectCommand(KILLSWITCH_REQUEST)]);
            end.state.phase == Disconnected && Hold(false, end.trace)
  {
    hide Exec, Hold;
    var env: Environment := (n: nat) => Outcome(n != 3 && n != 5, false);
    var again := ConnectCommand(KILLSWITCH_REQUEST);
    var one := Exec(env, IDLE, again);
    RunOfTwo(env, IDLE, again, again);
    BlockedAfterInstalling(env);
    RefusedOutOfBlocking(env, one, KILLSWITCH_REQUEST);
    NoRemoval(false, one, Exec(env, one, again));
  }

  const PLAIN_REQUEST := Request(Tun, false, [])

  lemma GivenUp(env: Environment)
    requires env(0).ok && env(1).ok && env(2).ok && !env(3).ok && env(4).ok
    ensures Connect(env, IDLE, PLAIN_REQUEST).next.state.phase == Disconnected
  {
  }

  /** A first attempt without kill switch: the data plane cannot be started, nor the block removed. */
  lemma FailedRemovalIsForgotten()
    ensures var env: Environment := (n: nat) => Outcome(n != 3 && n != 5, true);
            var end := Run(env, IDLE, [ConnectCommand(PLAIN_REQUEST)]);
            end.state.phase == Disconnected && Hold(false, end.trace)
  {
    var env: Environment := (n: nat) => Outcome(n != 3 && n != 5, true);
    var command := ConnectCommand(PLAIN_REQUEST);
    GivenUp(env);
    ConnectExplained(env, false, IDLE, PLAIN_REQUEST);
    assert StrandsHold(env, false, IDLE, PLAIN_REQUEST);
    hide Connect, StrandsHold;
    RunOfTwo(env, IDLE, command, command);
  }

  lemma Disconnects(env: Environment, s: System)
    requires env(|s.trace|).ok && env(|s.trace| + 1).ok
    ensures Exec(env, s, DisconnectCommand).state.phase == Disconnected
  {
  }

  /** A kill-switch session and a disconnect, with every call reporting success: the removal of the block did
      nothing, and Disconnected is under it. */
  lemma IgnoredRemovalKeepsHold()
    ensures var env: Environment := (n: nat) => Outcome(true, true);
            var end := Run(env, IDLE, [ConnectCommand(KILLSWITCH_REQUEST), DisconnectCommand]);
            end.state.phase == Disconnected && Hold(false, end.trace)
  {
    var env: Environment := (n: nat) => Outcome(true, true);
    var connect := ConnectCommand(KILLSWITCH_REQUEST);
    var one := Exec(env, IDLE, connect);
    BlockedAfterInstalling(env);
    Disconnects(env, one);
    hide Exec, Hold;
    ExecExplained(env, false, one, DisconnectCommand);
    RunOfTwo(env, IDLE, connect, DisconnectCommand);
  }

  // ---- What a connected phase stands for ----

  /** The data plane was started, then verified, and nothing stopped or restarted it since. */
  ghost predicate Verified(trace: seq<Event>) {
    exists i, j :: 0 <= i < j < |trace| && VerifiedAt(trace, i, j)
  }

  predicate VerifiedAt(trace: seq<Event>, i: nat, j: nat)
    requires i < j < |trace|
  {
    && trace[i].call == Start && trace[i].outcome.ok
    && trace[j].call == VerifyConnection && trace[j].outcome.ok
    && forall k :: i < k < |trace| ==> !trace[k].call.Stop? && !trace[k].call.Start?
  }

  ghost predicate Settled(s: System) {
    && s.state.phase != Preparing
    && s.state.phase != Reconnecting
    && (s.state.phase == Connected ==> Verified(s.trace))
  }

  lemma VerifiedAfter(env: Environment, s: System, call: Call)
    requires Verified(s.trace) && !call.Stop? && !call.Start?
    ensures Verified(Ask(env, s, call).trace)
  {
    var i, j :| 0 <= i < j < |s.trace| && VerifiedAt(s.trace, i, j);
    assert VerifiedAt(Ask(env, s, call).trace, i, j);
  }

  lemma BringUpSettles(env: Environment, s: System, request: Request, was: bool)
    ensures Settled(BringUp(env, s, request, was).next)
  {
    var s1 := Ask(env, s, Start);
    var s2 := Ask(env, s1, Activate);
    var s3 := Ask(env, s2, VerifyConnection);
    var s4 := Ask(env, s3, RemoveHold);
    AskTrace(env, s, Start);
    AskTrace(env, s1, Activate);
    AskTrace(env, s2, VerifyConnection);
    AskTrace(env, s3, RemoveHold);
    hide Ask;
    var n := |s.trace|;
    if env(n).ok && env(n + 1).ok && env(n + 2).ok {
      assert VerifiedAt(s3.trace, n, n + 2) && VerifiedAt(s4.trace, n, n + 2);
    }
  }

  lemma ExecSettles(env: Environment, s: System, command: Command)
    requires Settled(s)
    ensures Settled(Exec(env, s, command))
  {
    hide Verified, BringUp;
    match command
    case ConnectCommand(request) =>
      var was := s.state.phase == Connected;
      var s0 := s.(state := DaemonState(if was then Reconnecting else Preparing, false, false));
      var s1 := Ask(env, s0, Validate);
      var s2 := Ask(env, s1, InstallHold);
      var s3 := Ask(env, s2, VerifyHold);
      if was {
        VerifiedAfter(env, s0, Validate);
        VerifiedAfter(env, s1, InstallHold);
        VerifiedAfter(env, s2, VerifyHold);
        VerifiedAfter(env, s3, RemoveHold);
      }
      var s4 := if request.mode == Tun then WithPhase(s3, Blocking) else s1;
      BringUpSettles(env, if was then Ask(env, s4, Stop(true)) else s4, request, was);
    case HealthCommand =>
      if s.state.phase == Connected {
        VerifiedAfter(env, s, Alive);
      }
    case SplitCommand(_) =>
      if s.state.phase == Connected {
        VerifiedAfter(env, s, UpdateSplit);
      }
    case _ =>
  }

  /** In every state between commands: no transient phase, and a connected one was verified. */
  lemma {:induction false} RunSettles(env: Environment, s: System, commands: seq<Command>)
    requires Initial(s)
    ensures Settled(Run(env, s, commands))
  {
    if commands == [] {
    } else {
      var n := |commands| - 1;
      RunSettles(env, s, commands[..n]);
      ExecSettles(env, Run(env, s, commands[..n]), commands[n]);
    }
  }

  // ---- A TUN reconnect at every intermediate step ----

  predicate Confirmed(trace: seq<Event>, from: nat) {
    exists k :: from <= k < |trace| && trace[k].call == VerifyConnection && trace[k].outcome.ok
  }

  /** The calls of a TUN replacement. */
  function BringUpCalls(env: Environment, n: nat, killswitch: bool): seq<Event> {
    var start, activate, verify := Event(Start, env(n)), Event(Activate, env(n + 1)),
                                   Event(VerifyConnection, env(n + 2));
    if !env(n).ok then [start, Event(Stop(false), env(n + 1))]
    else if !env(n + 1).ok then [start, activate, Event(Stop(false), env(n + 2))]
    else if !env(n + 2).ok then [start, activate, verify, Event(Stop(false), env(n + 3))]
    else if killswitch then [start, activate, verify]
    else [start, activate, verify, Event(RemoveHold, env(n + 3))]
  }

  lemma BringUpTrace(env: Environment, s: System, request: Request)
    requires request.mode == Tun
    ensures BringUp(env, s, request, true).next.trace == s.trace + BringUpCalls(env, |s.trace|, request.killswitch)
  {
    var s1 := Ask(env, s, Start);
    var s2 := Ask(env, s1, Activate);
    var s3 := Ask(env, s2, VerifyConnection);
    var n := |s.trace|;
    AskTrace(env, s, Start);
    AskTrace(env, s1, Activate);
    AskTrace(env, s2, VerifyConnection);
    AskTrace(env, s1, Stop(false));
    AskTrace(env, s2, Stop(false));
    AskTrace(env, s3, Stop(false));
    AskTrace(env, s3, RemoveHold);
    hide Ask;
    assert s2.trace == s.trace + [Event(Start, env(n)), Event(Activate, env(n + 1))];
    assert s3.trace == s.trace + [Event(Start, env(n)), Event(Activate, env(n + 1)),
                                  Event(VerifyConnection, env(n + 2))];
  }

  lemma AskTrace(env: Environment, s: System, call: Call)
    ensures Ask(env, s, call).trace == s.trace + [Event(call, env(|s.trace|))]
    ensures Answered(Ask(env, s, call)) <==> env(|s.trace|).ok
  {
  }

  /** Bringing a replacement up removes the hold block only right after verifying the connection. */
  lemma RemovalFollowsConfirmation(env: Environment, s: System, request: Request)
    requires request.mode == Tun
    ensures var n, t := |s.trace|, BringUp(env, s, request, true).next.trace;
            && s.trace <= t
            && forall j :: n <= j < |t| && t[j].call == RemoveHold ==>
                 n < j && t[j - 1].call == VerifyConnection && t[j - 1].outcome.ok
  {
    hide BringUp;
    BringUpTrace(env, s, request);
    var n, t := |s.trace|, BringUp(env, s, request, true).next.trace;
    var calls := BringUpCalls(env, n, request.killswitch);
    assert forall j :: n <= j < |t| ==> t[j] == calls[j - n];
    assert forall j :: 0 <= j < |calls| && calls[j].call == RemoveHold ==>
           j == 3 && calls[2].call == VerifyConnection && calls[2].outcome.ok;
  }

  /** The calls of a TUN reconnect up to the stop of the old data plane. */
  lemma ReconnectOpening(env: Environment, s: System, request: Request)
    requires s.state.phase == Connected && request.mode == Tun
    ensures var n, t := |s.trace|, Connect(env, s, request).next.trace;
            && s.trace <= t
            && (env(n).ok && env(n + 1).ok && env(n + 2).ok ==>
                  && n + 3 < |t|
                  && t[n] == Event(Validate, env(n))
                  && t[n + 1] == Event(InstallHold, env(n + 1))
                  && t[n + 2] == Event(VerifyHold, env(n + 2))
                  && t[n + 3] == Event(Stop(true), env(n + 3))
                  && (env(n + 3).ok ==>
                        exists s4: System :: |s4.trace| == n + 4 && t == BringUp(env, s4, request, true).next.trace)
                  && (!env(n + 3).ok ==> |t| == n + 4))
            && (!(env(n).ok && env(n + 1).ok && env(n + 2).ok) ==>
                  forall k :: n <= k < |t| ==> !t[k].call.Stop?)
  {
    hide BringUp;
    var n := |s.trace|;
    var s0 := s.(state := DaemonState(Reconnecting, false, false));
    var s3 := Ask(env, Ask(env, Ask(env, s0, Validate), InstallHold), VerifyHold);
    var s4 := Ask(env, WithPhase(s3, Blocking), Stop(true));
    if env(n).ok && env(n + 1).ok && env(n + 2).ok {
      assert |s4.trace| == n + 4;
      if env(n + 3).ok {
        assert Connect(env, s, request) == BringUp(env, s4, request, true);
        RemovalFollowsConfirmation(env, s4, request);
        assert s4.trace <= BringUp(env, s4, request, true).next.trace;
      }
    }
  }

  /** Whatever fails, the old data plane is stopped only behind an installed and verified hold block,
      which is then present after every further call, and at the return, until the new connection has
      been verified. */
  lemma ReconnectNeverExposes(env: Environment, initial: bool, s: System, request: Request)
    requires s.state.phase == Connected && request.mode == Tun
    ensures var n, t := |s.trace|, Connect(env, s, request).next.trace;
            && s.trace <= t
            && forall stop :: n <= stop < |t| && t[stop].call.Stop? ==>
                 && n + 3 <= stop
                 && t[n + 1].call == InstallHold && t[n + 1].outcome.ok
                 && t[n + 2].call == VerifyHold && t[n + 2].outcome.ok
                 && (forall k :: stop <= k <= |t| && !Confirmed(t[..k], n) ==> Hold(initial, t[..k]))
  {
    hide Hold, Connect, BringUp;
    var n, t := |s.trace|, Connect(env, s, request).next.trace;
    ReconnectOpening(env, s, request);
    if env(n).ok && env(n + 1).ok && env(n + 2).ok {
      HoldInstalled(initial, t, n + 1);
      if env(n + 3).ok {
        var s4: System :| |s4.trace| == n + 4 && t == BringUp(env, s4, request, true).next.trace;
        RemovalFollowsConfirmation(env, s4, request);
      }
      forall k | n + 3 <= k <= |t| && !Confirmed(t[..k], n)
        ensures Hold(initial, t[..k])
      {
        forall j | n + 2 <= j < k ensures t[j].call != RemoveHold {
          assert t[..k][j - 1] == t[j - 1];
        }
        HoldPersists(initial, t, n + 2, k);
      }
    }
  }

  lemma HoldInstalled(initial: bool, trace: seq<Event>, at: nat)
    requires at < |trace| && trace[at].call == InstallHold && trace[at].outcome.ok
    ensures Hold(initial, trace[..at + 1])
  {
    assert trace[..at + 1][at] == trace[at];
  }
}
