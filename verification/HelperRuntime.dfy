/**
 The helper's execution of one authorized child (internal/adapter/contextexec/runtime.go).

 A prepared executable and a child process are objects that record what is done to them, in order. How
 the launcher, the daemon's connection, the clock and the child behave is an `Env`. The collection phase
 ends in one of the ways that ChildCollection proves its goroutines to end in, all of which happen.
 */
module HelperRuntime {
  import opened Prelude
  import opened ChildCollection

  // --------------------------------------------------------------- environment

  /** Which of the three ends a Start can have, and what a started child offers. `same`: the child's
      executable is the prepared one. */
  datatype Offer = Offer(stdout: bool, stderr: bool, wait: bool, kill: bool, executable: string, same: bool,
                         outcome: WaitOutcome, kills: bool)
  datatype StartOutcome = StartError | NoChild | Child(offer: Offer)

  datatype Preparation = PrepareError | NoPrepared | Ready(resolved: string, start: StartOutcome, closes: bool)

  /** The daemon's answer: `same` says that it names the prepared executable. */
  datatype Authorization = AckLost | ExecuteFrame(valid: bool, authorized: bool, same: bool)

  datatype Env = Env(requestValid: bool, connected: bool, qualified: bool, cwdSame: bool, preparation: Preparation,
                     authorization: Authorization, spawnSent: bool, timeout: int, wake: Wake, captured: Captured,
                     terminalValid: bool)

  datatype Terminal = Terminal(code: Option<int>, signal: string, killed: Signal, timedOut: bool,
                               stdoutBytes: nat, stderrBytes: nat, outputComplete: bool, truncated: bool,
                               qualityComplete: bool)

  datatype Result = Ok(terminal: Terminal) | Failed(reason: string)

  // ------------------------------------------------------------------- objects

  class ChildProcess {
    const offer: Offer
    var acts: seq<ChildAct>

    constructor (offer: Offer)
      ensures this.offer == offer && acts == []
    {
      this.offer := offer;
      acts := [];
    }

    method KillGroup() returns (ok: bool)
      requires offer.kill
      modifies this
      ensures acts == old(acts) + [Kill] && ok == offer.kills
    {
      acts := acts + [Kill];
      return offer.kills;
    }

    /** Reaping the same process twice could reap another one. */
    method Await() returns (outcome: WaitOutcome)
      requires offer.wait && Wait !in acts
      modifies this
      ensures acts == old(acts) + [Wait] && outcome == offer.outcome
    {
      acts := acts + [Wait];
      return offer.outcome;
    }
  }

  datatype PreparedAct = Start | Close

  class PreparedExecution {
    const resolved: string
    const start: StartOutcome
    const closes: bool
    var acts: seq<PreparedAct>

    constructor (resolved: string, start: StartOutcome, closes: bool)
      ensures this.resolved == resolved && this.start == start && this.closes == closes && acts == []
    {
      this.resolved, this.start, this.closes := resolved, start, closes;
      acts := [];
    }

    method StartChild() returns (ok: bool, child: ChildProcess?)
      requires acts == []
      modifies this
      ensures acts == [Start] && ok == !start.StartError?
      ensures child != null <==> start.Child?
      ensures child != null ==> fresh(child) && child.acts == [] && child.offer == start.offer
    {
      acts := [Start];
      child := null;
      if start.Child? {
        child := new ChildProcess(start.offer);
      }
      ok := !start.StartError?;
    }

    /** Closing twice could close another descriptor. */
    method CloseHandle() returns (ok: bool)
      requires Close !in acts
      modifies this
      ensures acts == old(acts) + [Close] && ok == closes
    {
      acts := acts + [Close];
      return closes;
    }
  }

  datatype Sent = PreparedFailure | Prepared(resolved: string) | SpawnFailed | Spawned

  class Protocol {
    var sent: seq<Sent>

    constructor ()
      ensures sent == []
    {
      sent := [];
    }

    method Send(message: Sent)
      modifies this
      ensures sent == old(sent) + [message]
    {
      sent := sent + [message];
    }
  }

  // -------------------------------------------------------------- what is owed

  predicate Absolute(path: string) { path != "" && path[0] == '/' }

  /** Everything a usable child must offer. */
  predicate Proven(offer: Offer) {
    offer.stdout && offer.stderr && offer.wait && offer.kill && Absolute(offer.executable) && offer.same
  }

  /** A prepared executable has been closed exactly once, after at most one start. */
  ghost predicate PreparedSettled(p: PreparedExecution)
    reads p
  {
    p.acts == [Close] || p.acts == [Start, Close]
  }

  /** A child that can be waited for has been, exactly once; it was killed at most once. */
  ghost predicate ChildSettled(c: ChildProcess)
    reads c
  {
    && multiset(c.acts)[Wait] == (if c.offer.wait then 1 else 0)
    && multiset(c.acts)[Kill] <= 1
  }

  /** What is done to a child that is not handed on: it is killed, then reaped, as far as it offers that. */
  function Abandoned(offer: Offer): seq<ChildAct> {
    (if offer.kill then [Kill] else []) + (if offer.wait then [Wait] else [])
  }

  /** What the terminal frame says of the child, its output and what was done to it. */
  ghost predicate Reports(t: Terminal, env: Env, offer: Offer) {
    && t.timedOut == TimesOut(env.timeout, env.wake)
    && t.killed == (if Kills(env.timeout, env.wake) then Killed(offer.kills) else NoSignal)
    && (offer.outcome.Exited? ==> t.code == offer.outcome.code && t.signal == offer.outcome.signal)
    && (env.captured.Captured? ==>
          && t.stdoutBytes == env.captured.stdoutBytes && t.stderrBytes == env.captured.stderrBytes
          && t.outputComplete == t.qualityComplete == env.captured.complete
          && t.truncated == env.captured.truncated)
  }

  predicate Launched(env: Env) { env.requestValid && env.connected && env.qualified && env.cwdSame }

  /** The prepared executable may be started. */
  predicate MayStart(env: Env) {
    && Launched(env) && env.preparation.Ready? && Absolute(env.preparation.resolved)
    && env.authorization == ExecuteFrame(true, true, true)
  }

  /** A proven child runs and the daemon was told. */
  predicate Running(env: Env) {
    && MayStart(env) && env.preparation.start.Child? && Proven(env.preparation.start.offer)
    && env.preparation.closes && env.spawnSent
  }

  /** Everything that has to go well for a terminal frame. */
  predicate Completes(env: Env) {
    && Running(env) && env.preparation.start.offer.outcome.Exited? && env.captured.Captured?
    && env.preparation.start.offer.outcome.reaped && env.terminalValid
  }

  /** The child and the request as the collection phase sees them. */
  function Collecting(env: Env, offer: Offer): Setup { Setup(offer.outcome, offer.kills, env.timeout, env.captured) }

  function Messages(env: Env): seq<Sent> {
    if !Launched(env) || env.preparation.NoPrepared? then []
    else if env.preparation.PrepareError? then [PreparedFailure]
    else if !Absolute(env.preparation.resolved) then []
    else if !MayStart(env) then [Prepared(env.preparation.resolved)]
    else if env.preparation.start.StartError? then [Prepared(env.preparation.resolved), SpawnFailed]
    else if env.preparation.start.Child? && Proven(env.preparation.start.offer) && env.preparation.closes
    then [Prepared(env.preparation.resolved), Spawned]
    else [Prepared(env.preparation.resolved)]
  }

  /** The first thing that goes wrong in an execution that gives no terminal frame. */
  ghost function Reason(env: Env): string
    requires !Completes(env)
  {
    if !env.requestValid then "invalid request"
    else if !env.connected then "execution_protocol_unavailable"
    else if !env.qualified then "strong_executor_unavailable"
    else if !env.cwdSame then "cwd_drift"
    else if !env.preparation.Ready? then Unprepared(env)
    else if !Absolute(env.preparation.resolved) then "prepared_executable_unproven"
    else if env.authorization.AckLost? then "execute_ack_lost"
    else if !MayStart(env) then "execute_not_authorized"
    else if !Running(env) then Unstarted(env)
    else if env.preparation.start.offer.outcome.WaitError? then "wait_failed"
    else if env.captured.CaptureError? then "output_failed"
    else if !env.preparation.start.offer.outcome.reaped then "reap_unproven"
    else "invalid context child terminal result"
  }

  ghost function Unprepared(env: Env): string {
    if env.preparation.NoPrepared? then "prepared_executor_unavailable"
    else if env.authorization.AckLost? then "prepare_failure_ack_lost"
    else "prepare_failed"
  }

  ghost function Unstarted(env: Env): string
    requires MayStart(env)
  {
    match env.preparation.start
    case StartError => if env.spawnSent then "spawn_failed" else "spawn_failure_report_lost"
    case NoChild => "executor_identity_unproven"
    case Child(offer) =>
      if !Proven(offer) then "executor_identity_unproven"
      else if !env.preparation.closes then "prepared_close_failed"
      else "spawn_report_lost"
  }

  // ------------------------------------------------------------------- methods

  method KillAndReapChild(child: ChildProcess?)
    requires child != null ==> child.acts == []
    modifies child
    ensures child != null ==> ChildSettled(child)
    ensures child != null ==> child.acts == Abandoned(child.offer)
  {
    if child == null {
      return;
    }
    if child.offer.kill {
      var _ := child.KillGroup();
    }
    if child.offer.wait {
      var _ := child.Await();
    }
  }

  /** The waiting goroutine and the select, for one of the ways they can fall. */
  method WaitForChild(env: Env, child: ChildProcess) returns (waited: Waited)
    requires child.offer.wait && child.offer.kill && child.acts == []
    modifies child
    ensures child.acts == ActsOf(env.timeout, env.wake) && ChildSettled(child)
    ensures waited == WaitedOf(Collecting(env, child.offer), env.wake)
  {
    var timedOut := env.timeout != 0 && env.wake.TimerFirst?;
    var outcome;
    if !timedOut && !env.wake.CancelFirst? {
      outcome := child.Await();
      return Waited(outcome, false, NoSignal);
    }
    var ok;
    if env.wake.reaped {
      outcome := child.Await();
      ok := child.KillGroup();
    } else {
      ok := child.KillGroup();
      outcome := child.Await();
    }
    return Waited(outcome, timedOut, Killed(ok));
  }

  method PrepareAuthorizedExecution(env: Env, protocol: Protocol) returns (prepared: PreparedExecution?, error: string)
    requires Launched(env) && protocol.sent == []
    modifies protocol
    ensures prepared != null ==> fresh(prepared)
    ensures env.preparation.Ready? <==> prepared != null
    ensures prepared != null ==>
              && prepared.resolved == env.preparation.resolved && prepared.start == env.preparation.start
              && prepared.closes == env.preparation.closes
              && prepared.acts == (if MayStart(env) then [] else [Close])
    ensures error == if MayStart(env) then "" else Reason(env)
    ensures MayStart(env) ==> protocol.sent == [Prepared(env.preparation.resolved)]
    ensures !MayStart(env) ==> protocol.sent == Messages(env)
  {
    prepared := null;
    match env.preparation
    case PrepareError =>
      protocol.Send(PreparedFailure);
      error := if env.authorization.AckLost? then "prepare_failure_ack_lost" else "prepare_failed";
    case NoPrepared => error := "prepared_executor_unavailable";
    case Ready(resolved, start, closes) =>
      prepared := new PreparedExecution(resolved, start, closes);
      if !Absolute(resolved) {
        var _ := prepared.CloseHandle();
        return prepared, "prepared_executable_unproven";
      }
      protocol.Send(Prepared(resolved));
      if env.authorization.AckLost? {
        var _ := prepared.CloseHandle();
        return prepared, "execute_ack_lost";
      }
      if !env.authorization.valid || !env.authorization.authorized || !env.authorization.same {
        var _ := prepared.CloseHandle();
        return prepared, "execute_not_authorized";
      }
      error := "";
  }

  method StartAuthorizedExecution(env: Env, protocol: Protocol, prepared: PreparedExecution)
    returns (child: ChildProcess?, error: string)
    requires MayStart(env) && prepared.acts == [] && protocol.sent == [Prepared(env.preparation.resolved)]
    requires prepared.start == env.preparation.start && prepared.closes == env.preparation.closes
    modifies protocol, prepared
    ensures prepared.acts == [Start, Close]
    ensures env.preparation.start.Child? <==> child != null
    ensures child != null ==> fresh(child) && child.offer == env.preparation.start.offer
    ensures child != null ==> child.acts == (if error == "" then [] else Abandoned(child.offer))
    ensures child != null && error != "" ==> ChildSettled(child)
    ensures error == if Running(env) then "" else Reason(env)
    ensures protocol.sent == Messages(env)
  {
    var started;
    started, child := prepared.StartChild();
    var closed := prepared.CloseHandle();
    if !started {
      protocol.Send(SpawnFailed);
      error := if env.spawnSent then "spawn_failed" else "spawn_failure_report_lost";
      return;
    }
    if child == null || !Proven(child.offer) {
      KillAndReapChild(child);
      return child, "executor_identity_unproven";
    }
    if !closed {
      KillAndReapChild(child);
      return child, "prepared_close_failed";
    }
    protocol.Send(Spawned);
    if !env.spawnSent {
      KillAndReapChild(child);
      return child, "spawn_report_lost";
    }
    error := "";
  }

  method CollectChildTerminal(env: Env, child: ChildProcess) returns (r: Result)
    requires Running(env) && child.offer == env.preparation.start.offer && child.acts == []
    modifies child
    ensures child.acts == ActsOf(env.timeout, env.wake) && ChildSettled(child)
    ensures if Completes(env) then r.Ok? && Reports(r.terminal, env, child.offer) else r == Failed(Reason(env))
  {
    var waited := WaitForChild(env, child);
    var outcome := waited.outcome;
    if outcome.WaitError? {
      return Failed("wait_failed");
    }
    if env.captured.CaptureError? {
      return Failed("output_failed");
    }
    if !outcome.reaped {
      return Failed("reap_unproven");
    }
    var c := env.captured;
    if !env.terminalValid {
      return Failed("invalid context child terminal result");
    }
    return Ok(Terminal(outcome.code, outcome.signal, waited.signal, waited.timedOut, c.stdoutBytes, c.stderrBytes,
                       c.complete, c.truncated, c.complete));
  }

  /** On every path out: the prepared executable, if one was handed out, has been closed exactly once,
      after at most one start; the child, if one was started, has been waited for exactly once, and killed
      first if it was not handed on; the daemon was told what happened; and a terminal frame is returned
      exactly when everything went well. */
  method Execute(env: Env, protocol: Protocol) returns (r: Result, prepared: PreparedExecution?, child: ChildProcess?)
    requires protocol.sent == []
    modifies protocol
    ensures Launched(env) && env.preparation.Ready? <==> prepared != null
    ensures MayStart(env) && env.preparation.start.Child? <==> child != null
    ensures prepared != null ==> PreparedSettled(prepared) && (Start in prepared.acts <==> MayStart(env))
    ensures child != null ==> child.offer == env.preparation.start.offer && ChildSettled(child)
    ensures protocol.sent == Messages(env)
    ensures if Completes(env) then r.Ok? && Reports(r.terminal, env, child.offer) else r == Failed(Reason(env))
    ensures child != null ==>
              child.acts == (if Running(env) then ActsOf(env.timeout, env.wake) else Abandoned(child.offer))
  {
    prepared, child := null, null;
    if !env.requestValid {
      return Failed("invalid request"), null, null;
    }
    if !env.connected {
      return Failed("execution_protocol_unavailable"), null, null;
    }
    if !env.qualified {
      return Failed("strong_executor_unavailable"), null, null;
    }
    if !env.cwdSame {
      return Failed("cwd_drift"), null, null;
    }
    var error;
    prepared, error := PrepareAuthorizedExecution(env, protocol);
    if error != "" {
      return Failed(error), prepared, null;
    }
    child, error := StartAuthorizedExecution(env, protocol, prepared);
    if error != "" {
      return Failed(error), prepared, child;
    }
    r := CollectChildTerminal(env, child);
  }

  // ------------------------------------------------- what the messages promise

  /** The daemon hears of a successful spawn exactly when it authorized that very executable by its absolute
      path and the child that was started from it offers both pipes, waiting and killing, runs that executable,
      and the prepared handle closed. It hears of a failed one exactly when the start failed. Either report
      comes last, after the prepared report. */
  lemma SpawnReportsFollowPreparation(env: Env)
    ensures var m := Messages(env);
            && (Spawned in m <==>
                  && Launched(env) && env.preparation.Ready? && env.authorization == ExecuteFrame(true, true, true)
                  && env.preparation.resolved != "" && env.preparation.resolved[0] == '/'
                  && env.preparation.start.Child? && env.preparation.closes
                  && var offer := env.preparation.start.offer;
                     && offer.stdout && offer.stderr && offer.wait && offer.kill && offer.same
                     && offer.executable != "" && offer.executable[0] == '/')
            && (SpawnFailed in m <==> MayStart(env) && env.preparation.start.StartError?)
            && (Spawned in m ==> m == [Prepared(env.preparation.resolved), Spawned])
            && (SpawnFailed in m ==> m == [Prepared(env.preparation.resolved), SpawnFailed])
            && (Completes(env) ==> Spawned in m)
  {
  }
}
