/** The process-wide webhook server handle: `startWebhookServer`,
    `stopWebhookServer`, the server's 'close' callback and
    `isWebhookServerRunning`.

    `server.close(cb)` stops accepting connections at once but runs `cb` (which
    clears the handle and resolves the stop promise) only when the server emits
    'close'. Every `close` call on the same server adds one such callback, and
    all of them run on that one 'close' event. `pendingStops` counts the stop
    promises waiting for it; while it is positive the server is shutting down
    but the handle is still set. */
module ServerLifecycle {
  import opened Wrappers

  /** The configuration a server is started with (the handler and logger it
      also takes belong to the request model). The handle of a created server
      is modelled by the configuration it was created from. */
  datatype Config = Config(port: int, path: string)

  datatype LifecycleState = LifecycleState(server: Option<Config>, pendingStops: nat)

  /** Module load: `let server = null`. */
  const Initial: LifecycleState := LifecycleState(None, 0)

  /** Close callbacks exist only for a server that is set. */
  predicate Valid(s: LifecycleState) {
    s.server.None? ==> s.pendingStops == 0
  }

  /** isWebhookServerRunning. */
  predicate IsRunning(s: LifecycleState) {
    s.server.Some?
  }

  /** startWebhookServer: "already running" while a handle is set, otherwise a
      new server for `config`. */
  function Start(s: LifecycleState, config: Config): LifecycleState {
    if s.server.Some? then s else s.(server := Some(config))
  }

  /** stopWebhookServer: with no server the promise resolves at once; otherwise
      one more close callback waits for the 'close' event. */
  function Stop(s: LifecycleState): LifecycleState {
    if s.server.None? then s else s.(pendingStops := s.pendingStops + 1)
  }

  /** The server's 'close' event: every registered callback clears the handle
      and resolves its promise. With no callback registered nothing happens. */
  function Closed(s: LifecycleState): LifecycleState {
    if s.pendingStops == 0 then s else LifecycleState(None, 0)
  }

  /** A call or event at module level. */
  datatype Op = StartCall(config: Config) | StopCall | CloseEvent

  /** The new state and the number of stop promises the operation resolves. */
  function Apply(s: LifecycleState, op: Op): (LifecycleState, nat) {
    match op
    case StartCall(config) => (Start(s, config), 0)
    case StopCall => (Stop(s), if IsRunning(s) then 0 else 1)
    case CloseEvent => (Closed(s), s.pendingStops)
  }

  /** The state after a sequence of operations and the stop promises resolved on the way. */
  function Replay(s: LifecycleState, ops: seq<Op>): (LifecycleState, nat)
    decreases |ops|
  {
    if ops == [] then (s, 0)
    else
      var (next, resolved) := Apply(s, ops[0]);
      var (last, later) := Replay(next, ops[1..]);
      (last, resolved + later)
  }

  /** Number of `stopWebhookServer` calls in a sequence of operations. */
  function StopCalls(ops: seq<Op>): nat {
    if ops == [] then 0 else (if ops[0].StopCall? then 1 else 0) + StopCalls(ops[1..])
  }

  /** The module-level `server` variable and the close callbacks waiting on it. */
  class WebhookModule {
    var server: Option<Config>
    var pendingStops: nat

    function State(): LifecycleState
      reads this
    {
      LifecycleState(server, pendingStops)
    }

    constructor ()
      ensures State() == Initial
    {
      server := None;
      pendingStops := 0;
    }

    method StartWebhookServer(config: Config)
      modifies this
      ensures State() == Start(old(State()), config)
    {
      if server.Some? {
        return;
      }
      server := Some(config);
    }

    /** Returns whether the returned promise is already resolved, which is
        exactly when no server is running. */
    method StopWebhookServer() returns (resolved: bool)
      modifies this
      ensures State() == Stop(old(State()))
      ensures resolved == !IsRunning(old(State()))
    {
      if server.None? {
        resolved := true;
        return;
      }
      pendingStops := pendingStops + 1;
      resolved := false;
    }

    /** The server's 'close' event; returns how many stop promises it resolves. */
    method OnServerClose() returns (resolved: nat)
      modifies this
      ensures State() == Closed(old(State()))
      ensures resolved == old(pendingStops)
    {
      resolved := pendingStops;
      if pendingStops > 0 {
        server := None;
        pendingStops := 0;
      }
    }

    method IsWebhookServerRunning() returns (running: bool)
      ensures running <==> server != None
    {
      running := server.Some?;
    }
  }

  /** Starting while a handle is set keeps that handle and changes nothing. */
  lemma StartWhileRunningIsNoOp(s: LifecycleState, config: Config)
    requires IsRunning(s)
    ensures Start(s, config) == s
  {
  }

  /** Starting from stopped creates a server for the given configuration. */
  lemma StartFromStopped(s: LifecycleState, config: Config)
    requires Valid(s) && !IsRunning(s)
    ensures var t := Start(s, config);
      IsRunning(t) && t.server.value == config && t.pendingStops == 0
  {
  }

  /** A second start, with whatever configuration, is a no-op: one server. */
  lemma StartTwice(s: LifecycleState, first: Config, second: Config)
    ensures Start(Start(s, first), second) == Start(s, first)
  {
  }

  /** Stopping a stopped module resolves at once and changes nothing. */
  lemma StopWhenStopped(s: LifecycleState)
    requires Valid(s) && !IsRunning(s)
    ensures Stop(s) == s && !IsRunning(s)
  {
  }

  /** A stop of a running server completes with the 'close' event, which
      leaves the handle null and resolves every stop waiting, this one
      included; a stop after that resolves at once. */
  lemma StopCompletes(s: LifecycleState)
    requires Valid(s) && IsRunning(s)
    ensures !!IsRunning(s)
    ensures var t := Closed(Stop(s));
      !IsRunning(t) && t.pendingStops == 0 && Apply(Stop(s), CloseEvent).1 == s.pendingStops + 1 &&
      !IsRunning(t)
  {
  }

  /** A start issued between `stop` and the 'close' event is taken for "already
      running" and is lost: after the close no server is running. */
  lemma StartDuringShutdownIsLost(s: LifecycleState, config: Config)
    requires IsRunning(s)
    ensures IsRunning(Start(Stop(s), config))
    ensures !IsRunning(Closed(Start(Stop(s), config)))
  {
  }

  lemma ApplyKeepsValid(s: LifecycleState, op: Op)
    requires Valid(s)
    ensures Valid(Apply(s, op).0)
  {
  }

  /** Along any sequence of calls and events no stop promise is lost or
      resolved twice: those resolved plus those still waiting are exactly the
      ones waiting before plus the stop calls made, and close callbacks never
      outlive the handle. */
  lemma {:induction false} StopsAccountedFor(s: LifecycleState, ops: seq<Op>)
    requires Valid(s)
    ensures var (last, resolved) := Replay(s, ops);
      Valid(last) && resolved + last.pendingStops == s.pendingStops + StopCalls(ops)
    decreases |ops|
  {
    if ops != [] {
      ApplyKeepsValid(s, ops[0]);
      StopsAccountedFor(Apply(s, ops[0]).0, ops[1..]);
    }
  }

  /** Only the 'close' event clears the handle: without one, any mix of
      starts and stops leaves the running server in place, unreplaced. */
  lemma {:induction false} OnlyStartsRun(s: LifecycleState, ops: seq<Op>)
    requires Valid(s) && IsRunning(s)
    requires forall i | 0 <= i < |ops| :: !ops[i].CloseEvent?
    ensures IsRunning(Replay(s, ops).0) && Replay(s, ops).0.server == s.server
    decreases |ops|
  {
    if ops != [] {
      OnlyStartsRun(Apply(s, ops[0]).0, ops[1..]);
    }
  }
}
