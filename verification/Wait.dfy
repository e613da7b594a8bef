/**
 Waiting for a pane's process to exit (internal/adapter/delegatedtmux/provider_session.go: Wait,
 currentWaitFacts and inspectTerminalAfterExitRace).

 Wait's own steps interleave with everything else: the process exits, tmux notices and later learns the
 exit code, the observer is replaced or detached, the clock advances and the caller gives up. The exit
 watcher is used by its contract: registration reports the process gone only if it is, and a
 registered watcher is told of the exit, be it before or after the registration.
 */
module Wait {
  import opened Prelude

  const SETTLE_BUDGET := 100
  const SETTLE_INTERVAL := 5
  const ATTEMPTS := 3

  datatype Stage = First | AfterRegister | Settle(deadline: nat)

  /** What one successful query saw. */
  datatype Facts = Facts(terminal: bool, code: Option<int>)

  datatype Result =
    | Observed(code: int)
    | ObserverMissing
    | QueryFailed(control: nat)
    | ObserverChanged
    | NotSettled(deadline: nat)
    | RegisterFailed
    | WatcherFailed
    | GaveUp

  /** `since` counts the clients installed when the present currentWaitFacts began. */
  datatype Pc =
    | Reading(stage: Stage, attempt: nat, since: nat)
    | Querying(stage: Stage, attempt: nat, since: nat, control: nat)
    | Rechecking(stage: Stage, attempt: nat, since: nat, control: nat)
    | Registering
    | Blocked
    | Settling
    | Sleeping(deadline: nat, wake: nat)
    | Returned(result: Result, since: nat)

  datatype World = World(exited: bool, facts: Facts, installed: nat, observer: Option<nat>,
                         registered: bool, delivered: bool, clock: nat, cancelled: bool, pc: Pc)

  datatype Registration = Registered | Gone | Refused

  /** What the environment decides in a step of Wait; `seesCancellation` when both a cancellation and what was
      waited for are there. */
  datatype Choice = Choice(answers: bool, registration: Registration, watcherBreaks: bool, seesCancellation: bool)

  datatype Event =
    | Exits
    | Notices
    | LearnsCode(code: int)
    | Replaces
    | Detaches
    | Delivers
    | Ticks(elapsed: nat)
    | Cancels
    | Moves(choice: Choice)

  // ---------------------------------------------------------------------- Wait

  function Begin(stage: Stage, installed: nat): Pc { Reading(stage, 0, installed) }

  /** What Wait does with the facts of a successful query. */
  function OnFacts(stage: Stage, facts: Facts, clock: nat, since: nat): Pc {
    if facts.terminal && facts.code.Some? then Returned(Observed(facts.code.value), since)
    else
      match stage
      case First => if facts.terminal then Settling else Registering
      case AfterRegister => if facts.terminal then Settling else Blocked
      case Settle(deadline) =>
        if clock >= deadline then Returned(NotSettled(deadline), since) else Sleeping(deadline, clock + SETTLE_INTERVAL)
  }

  /** The next place of Wait; the same place when it has to wait. */
  function Next(w: World, choice: Choice): Pc {
    match w.pc
    case Reading(stage, attempt, since) =>
      if attempt >= ATTEMPTS then Returned(ObserverChanged, since)
      else if w.observer.None? then Returned(ObserverMissing, since)
      else Querying(stage, attempt, since, w.observer.value)
    case Querying(stage, attempt, since, control) =>
      if choice.answers then OnFacts(stage, w.facts, w.clock, since) else Rechecking(stage, attempt, since, control)
    case Rechecking(stage, attempt, since, control) =>
      if w.observer.Some? && w.observer.value != control then Reading(stage, attempt + 1, since)
      else Returned(QueryFailed(control), since)
    case Registering =>
      if choice.registration.Gone? && w.exited then Settling
      else if choice.registration.Registered? then Begin(AfterRegister, w.installed)
      else Returned(RegisterFailed, w.installed)
    case Blocked =>
      if w.cancelled && (choice.seesCancellation || !w.delivered) then Returned(GaveUp, w.installed)
      else if w.delivered then Settling
      else if choice.watcherBreaks then Returned(WatcherFailed, w.installed)
      else Blocked
    case Settling => Begin(Settle(w.clock + SETTLE_BUDGET), w.installed)
    case Sleeping(deadline, wake) =>
      if w.cancelled && (choice.seesCancellation || w.clock < wake) then Returned(GaveUp, w.installed)
      else if w.clock >= wake then Begin(Settle(deadline), w.installed)
      else w.pc
    case Returned(_, _) => w.pc
  }

  function Step(w: World, e: Event): World {
    match e
    case Exits => w.(exited := true)
    case Notices => if w.exited then w.(facts := w.facts.(terminal := true)) else w
    case LearnsCode(code) => if w.facts.terminal && w.facts.code.None? then w.(facts := Facts(true, Some(code))) else w
    case Replaces => w.(installed := w.installed + 1, observer := Some(w.installed + 1))
    case Detaches => w.(observer := None)
    case Delivers => if w.registered && w.exited then w.(delivered := true) else w
    case Ticks(elapsed) => w.(clock := w.clock + elapsed)
    case Cancels => w.(cancelled := true)
    case Moves(choice) =>
      w.(pc := Next(w, choice), registered := w.registered || (w.pc.Registering? && choice.registration.Registered?))
  }

  /** Wait is called at any time in the life of the process and of the observers. */
  ghost predicate Initial(w: World) {
    && w.pc == Begin(First, w.installed) && !w.registered && !w.delivered
    && (w.facts.terminal ==> w.exited) && (w.facts.code.Some? ==> w.facts.terminal)
    && (w.observer.Some? ==> w.observer.value == w.installed)
  }

  function Run(w: World, events: seq<Event>): World {
    if events == [] then w else Step(Run(w, events[..|events| - 1]), events[|events| - 1])
  }

  // ----------------------------------------------------------------- invariant

  ghost predicate AttemptOk(w: World, stage: Stage, attempt: nat, since: nat) {
    && (stage.Settle? ==> w.exited)
    && (stage.AfterRegister? ==> w.registered) && (stage.First? ==> !w.registered)
    && since + attempt <= w.installed
  }

  ghost predicate PcOk(w: World) {
    match w.pc
    case Reading(stage, attempt, since) => AttemptOk(w, stage, attempt, since) && attempt <= ATTEMPTS
    case Querying(stage, attempt, since, control) =>
      AttemptOk(w, stage, attempt, since) && attempt < ATTEMPTS && since + attempt <= control <= w.installed
    case Rechecking(stage, attempt, since, control) =>
      AttemptOk(w, stage, attempt, since) && attempt < ATTEMPTS && since + attempt <= control <= w.installed
    case Registering => !w.registered
    case Blocked => w.registered
    case Settling => w.exited
    case Sleeping(deadline, wake) => w.exited && wake < deadline + SETTLE_INTERVAL
    case Returned(result, since) =>
      match result
      case Observed(code) => w.exited && w.facts == Facts(true, Some(code))
      case ObserverChanged => since + ATTEMPTS <= w.installed
      case NotSettled(deadline) => w.exited && w.clock >= deadline
      case GaveUp => w.cancelled
      case _ => true
  }

  ghost predicate Inv(w: World) {
    && (w.facts.terminal ==> w.exited) && (w.facts.code.Some? ==> w.facts.terminal)
    && (w.observer.Some? ==> w.observer.value == w.installed)
    && (w.delivered ==> w.exited)
    && PcOk(w)
  }

  lemma MoveKeeps(w: World, choice: Choice)
    requires Inv(w)
    ensures Inv(Step(w, Moves(choice)))
  {
    hide OnFacts;
    match w.pc
    case Querying(stage, _, since, _) => FactsKeep(w, stage, since);
    case _ =>
  }

  lemma FactsKeep(w: World, stage: Stage, since: nat)
    requires (w.facts.terminal ==> w.exited) && AttemptOk(w, stage, 0, since)
    ensures PcOk(w.(pc := OnFacts(stage, w.facts, w.clock, since)))
  {
  }

  lemma EnvironmentKeeps(w: World, e: Event)
    requires Inv(w) && !e.Moves?
    ensures Inv(Step(w, e))
  {
    hide Next;
  }

  lemma StepKeeps(w: World, e: Event)
    requires Inv(w)
    ensures Inv(Step(w, e))
  {
    if e.Moves? {
      MoveKeeps(w, e.choice);
    } else {
      EnvironmentKeeps(w, e);
    }
    hide Inv, Step;
  }

  lemma {:induction false} RunKeeps(w: World, events: seq<Event>)
    requires Initial(w)
    ensures Inv(Run(w, events))
    decreases |events|
  {
    if events != [] {
      RunKeeps(w, events[..|events| - 1]);
      hide Inv, Step;
      StepKeeps(Run(w, events[..|events| - 1]), events[|events| - 1]);
    }
  }

  // ------------------------------------------------------------------ theorems

  /** Every successful return is terminal with the exit code, of a process that did exit. The settling
      error too is only ever reported about a process that exited, and not before its budget is over. */
  lemma {:induction false} ReturnsAreTruthful(w: World, events: seq<Event>)
    requires Initial(w)
    ensures var v := Run(w, events);
            v.pc.Returned? ==>
              && (v.pc.result.Observed? ==> v.exited && v.facts == Facts(true, Some(v.pc.result.code)))
              && (v.pc.result.NotSettled? ==> v.exited && v.clock >= v.pc.result.deadline)
  {
    RunKeeps(w, events);
  }

  /** Replacing the observer does not fail a Wait: it gives up on a changing observer only after three
      replacements within one proof. */
  lemma {:induction false} SurvivesReplacement(w: World, events: seq<Event>)
    requires Initial(w)
    ensures var v := Run(w, events);
            v.pc.Returned? && v.pc.result.ObserverChanged? ==> v.installed >= v.pc.since + ATTEMPTS
  {
    RunKeeps(w, events);
  }

  /** A failed query ends a Wait exactly when the client it went through is still the installed one, or
      none is. */
  lemma {:induction false} QueryFailureEnds(w: World, events: seq<Event>, choice: Choice)
    requires Initial(w) && Run(w, events).pc.Rechecking?
    ensures var v := Run(w, events);
            (Next(v, choice).Returned? <==> v.observer.None? || v.installed == v.pc.control)
  {
    RunKeeps(w, events);
  }

  /** The watcher's contract has been met so far: if it was registered and the process is gone, it knows. */
  ghost predicate WatcherTold(w: World) { w.registered && w.exited ==> w.delivered }

  /** After the exit Wait is never stuck: unless it has returned, its next step goes on, or it sleeps
      between two looks at tmux, for no longer than the settle interval. */
  lemma {:induction false} NeverBlocksPastExit(w: World, events: seq<Event>, choice: Choice)
    requires Initial(w)
    ensures var v := Run(w, events);
            v.exited && WatcherTold(v) && !v.pc.Returned? && Next(v, choice) == v.pc ==>
              v.pc.Sleeping? && v.clock < v.pc.wake && v.pc.wake < v.pc.deadline + SETTLE_INTERVAL
  {
    RunKeeps(w, events);
  }

  // --------------------------------------------------------- how long it can take

  /** Looks at tmux left before the deadline. */
  function LooksLeft(deadline: nat, clock: nat): nat {
    if clock >= deadline then 0 else (deadline - clock + SETTLE_INTERVAL - 1) / SETTLE_INTERVAL
  }

  const PER_LOOK := 3 * ATTEMPTS + 1

  function After(stage: Stage, clock: nat): nat {
    match stage
    case Settle(deadline) => PER_LOOK * LooksLeft(deadline, clock) + 2
    case AfterRegister => PER_LOOK * (SETTLE_BUDGET / SETTLE_INTERVAL + 1) + 4
    case First => PER_LOOK * (SETTLE_BUDGET / SETTLE_INTERVAL + 2) + 6
  }

  /** A bound on Wait's own steps from here. */
  function StepsLeft(w: World): nat {
    match w.pc
    case Reading(stage, attempt, _) =>
      if attempt >= ATTEMPTS then 1 else After(stage, w.clock) + 3 * (ATTEMPTS - attempt)
    case Querying(stage, attempt, _, _) =>
      After(stage, w.clock) + (if attempt < ATTEMPTS then 3 * (ATTEMPTS - attempt) - 1 else 0)
    case Rechecking(stage, attempt, _, _) =>
      After(stage, w.clock) + (if attempt < ATTEMPTS then 3 * (ATTEMPTS - attempt) - 2 else 0)
    case Registering => After(AfterRegister, w.clock) + PER_LOOK
    case Blocked => PER_LOOK * (SETTLE_BUDGET / SETTLE_INTERVAL + 1) + 3
    case Settling => PER_LOOK * (SETTLE_BUDGET / SETTLE_INTERVAL + 1) + 2
    case Sleeping(deadline, wake) =>
      PER_LOOK * LooksLeft(deadline, if w.clock < wake then wake else w.clock) + PER_LOOK + 2
    case Returned(_, _) => 0
  }

  lemma LooksLeftFalls(deadline: nat, a: nat, b: nat)
    requires a <= b
    ensures LooksLeft(deadline, b) <= LooksLeft(deadline, a)
    ensures a < deadline && b >= a + SETTLE_INTERVAL ==> LooksLeft(deadline, b) < LooksLeft(deadline, a)
  {
  }

  lemma FactsRunOut(w: World, stage: Stage, since: nat)
    ensures StepsLeft(w.(pc := OnFacts(stage, w.facts, w.clock, since))) <= After(stage, w.clock)
  {
    hide LooksLeft;
    if stage.Settle? {
      LooksLeftFalls(stage.deadline, w.clock, w.clock + SETTLE_INTERVAL);
    }
  }

  lemma MoveRunsOut(w: World, choice: Choice)
    requires Inv(w) && Next(w, choice) != w.pc
    ensures StepsLeft(w.(pc := Next(w, choice))) < StepsLeft(w)
  {
    hide OnFacts;
    match w.pc
    case Querying(stage, _, since, _) => FactsRunOut(w, stage, since);
    case _ =>
  }

  lemma AfterFalls(stage: Stage, a: nat, b: nat)
    requires a <= b
    ensures After(stage, b) <= After(stage, a)
  {
    hide LooksLeft;
    if stage.Settle? {
      LooksLeftFalls(stage.deadline, a, b);
    }
  }

  lemma ClockRunsOut(w: World, elapsed: nat)
    ensures StepsLeft(w.(clock := w.clock + elapsed)) <= StepsLeft(w)
  {
    hide After, LooksLeft;
    var clock' := w.clock + elapsed;
    match w.pc
    case Reading(stage, _, _) => AfterFalls(stage, w.clock, clock');
    case Querying(stage, _, _, _) => AfterFalls(stage, w.clock, clock');
    case Rechecking(stage, _, _, _) => AfterFalls(stage, w.clock, clock');
    case Registering => AfterFalls(AfterRegister, w.clock, clock');
    case Sleeping(deadline, wake) =>
      LooksLeftFalls(deadline, if w.clock < wake then wake else w.clock, if clock' < wake then wake else clock');
    case _ =>
  }

  /** The bound depends on where Wait is and on the clock, and on nothing else. */
  lemma OnlyPlaceAndClock(a: World, b: World)
    requires a.pc == b.pc && a.clock == b.clock
    ensures StepsLeft(a) == StepsLeft(b)
  {
    hide After, LooksLeft;
  }

  /** Own steps use up the bound; nothing the environment does, replacing the observer included, raises it. */
  lemma StepsRunOut(w: World, e: Event)
    requires Inv(w)
    ensures StepsLeft(Step(w, e)) <= StepsLeft(w)
    ensures e.Moves? && Step(w, e).pc != w.pc ==> StepsLeft(Step(w, e)) < StepsLeft(w)
  {
    hide Inv, Next, StepsLeft;
    match e
    case Moves(choice) =>
      if Next(w, choice) != w.pc {
        MoveRunsOut(w, choice);
        OnlyPlaceAndClock(Step(w, e), w.(pc := Next(w, choice)));
      } else {
        OnlyPlaceAndClock(Step(w, e), w);
      }
    case Ticks(elapsed) => ClockRunsOut(w, elapsed);
    case _ => OnlyPlaceAndClock(Step(w, e), w);
  }

  /** The steps of Wait in a run that took it anywhere. */
  function OwnSteps(w: World, events: seq<Event>): nat {
    if events == [] then 0
    else
      var v, e := Run(w, events[..|events| - 1]), events[|events| - 1];
      OwnSteps(w, events[..|events| - 1]) + if e.Moves? && Step(v, e).pc != v.pc then 1 else 0
  }

  /** In every run, however the exit, the replacements and the clock fall, Wait takes a bounded number of
      steps of its own. */
  lemma {:induction false} WaitIsBounded(w: World, events: seq<Event>)
    requires Initial(w)
    ensures OwnSteps(w, events) + StepsLeft(Run(w, events)) <= PER_LOOK * (SETTLE_BUDGET / SETTLE_INTERVAL + 3) + 5
    decreases |events|
  {
    if events != [] {
      var v, e := Run(w, events[..|events| - 1]), events[|events| - 1];
      WaitIsBounded(w, events[..|events| - 1]);
      RunKeeps(w, events[..|events| - 1]);
      StepsRunOut(v, e);
      hide Step, StepsLeft, Inv;
    }
  }

  // --------------------------------------------------------------- it does return

  /** A round after the exit: anything else happens, then the settle interval passes, the watcher is told
      and Wait takes a step. */
  datatype Round = Round(event: Event, choice: Choice)

  function PlayRound(w: World, r: Round): World {
    Step(Readied(w, r.event), Moves(r.choice))
  }

  function Play(w: World, rounds: seq<Round>): World
    decreases |rounds|
  {
    if rounds == [] then w else Play(PlayRound(w, rounds[0]), rounds[1..])
  }

  lemma ExitStays(w: World, e: Event)
    requires w.exited
    ensures Step(w, e).exited
  {
    hide Next;
  }

  lemma LastMoveCounts(w: World, choice: Choice)
    requires Inv(w) && w.exited && WatcherTold(w) && !w.pc.Returned? && (w.pc.Sleeping? ==> w.clock >= w.pc.wake)
    ensures StepsLeft(Step(w, Moves(choice))) < StepsLeft(w)
  {
    StepsRunOut(w, Moves(choice));
    hide StepsLeft;
  }

  /** Wait never sleeps longer than the interval from now. */
  ghost predicate SleepsBriefly(w: World) { w.pc.Sleeping? ==> w.pc.wake <= w.clock + SETTLE_INTERVAL }

  lemma StepSleepsBriefly(w: World, e: Event)
    requires SleepsBriefly(w)
    ensures SleepsBriefly(Step(w, e))
  {
  }

  /** The world when Wait takes its step of a round. */
  function Readied(w: World, e: Event): World { Step(Step(Step(w, e), Ticks(SETTLE_INTERVAL)), Delivers) }

  lemma ReadiedKeeps(w: World, e: Event)
    requires Inv(w)
    ensures Inv(Readied(w, e)) && StepsLeft(Readied(w, e)) <= StepsLeft(w)
  {
    hide Inv, Step, StepsLeft;
    var a := Step(w, e);
    var b := Step(a, Ticks(SETTLE_INTERVAL));
    StepKeeps(w, e);
    StepKeeps(a, Ticks(SETTLE_INTERVAL));
    StepKeeps(b, Delivers);
    StepsRunOut(w, e);
    StepsRunOut(a, Ticks(SETTLE_INTERVAL));
    StepsRunOut(b, Delivers);
  }

  /** By then the watcher has been told and a sleep is over. */
  lemma ReadiedIsReady(w: World, e: Event)
    requires w.exited && SleepsBriefly(w)
    ensures var c := Readied(w, e);
            c.exited && WatcherTold(c) && (c.pc.Sleeping? ==> c.clock >= c.pc.wake) && SleepsBriefly(c)
  {
    StepSleepsBriefly(w, e);
    ExitStays(w, e);
    var a := Step(w, e);
    assert a.exited && SleepsBriefly(a);
    var b := Step(a, Ticks(SETTLE_INTERVAL));
    assert b.pc == a.pc && b.clock == a.clock + SETTLE_INTERVAL && b.exited;
    var c := Step(b, Delivers);
    assert c.pc == b.pc && c.clock == b.clock && c.exited;
    hide Next;
  }

  lemma RoundCounts(w: World, r: Round)
    requires Inv(w) && w.exited && SleepsBriefly(w)
    ensures var w' := PlayRound(w, r);
            && Inv(w') && w'.exited && SleepsBriefly(w')
            && (w'.pc.Returned? || StepsLeft(w') < StepsLeft(w))
  {
    hide Step, StepsLeft, Inv, SleepsBriefly, WatcherTold;
    var c := Readied(w, r.event);
    ReadiedKeeps(w, r.event);
    ReadiedIsReady(w, r.event);
    hide Readied;
    StepKeeps(c, Moves(r.choice));
    StepSleepsBriefly(c, Moves(r.choice));
    ExitStays(c, Moves(r.choice));
    if c.pc.Returned? {
      StepLeavesReturned(c, Moves(r.choice));
    } else {
      LastMoveCounts(c, r.choice);
    }
  }

  lemma {:induction false} RunSleepsBriefly(w: World, events: seq<Event>)
    requires Initial(w)
    ensures SleepsBriefly(Run(w, events))
    decreases |events|
  {
    if events != [] {
      RunSleepsBriefly(w, events[..|events| - 1]);
      hide Step, SleepsBriefly;
      StepSleepsBriefly(Run(w, events[..|events| - 1]), events[|events| - 1]);
    }
  }

  /** Once the process has exited and the watcher's contract is met, Wait returns, from every reachable
      state and within a fixed number of rounds, however the observer is replaced and whatever else
      happens meanwhile. */
  lemma ExitEndsWait(w: World, events: seq<Event>, rounds: seq<Round>)
    requires Initial(w) && Run(w, events).exited
    requires |rounds| >= PER_LOOK * (SETTLE_BUDGET / SETTLE_INTERVAL + 3) + 5
    ensures Play(Run(w, events), rounds).pc.Returned?
  {
    RunKeeps(w, events);
    RunSleepsBriefly(w, events);
    WaitIsBounded(w, events);
    hide Run, Play, StepsLeft, Inv, SleepsBriefly;
    RoundsEndWait(Run(w, events), rounds);
  }

  lemma {:induction false} RoundsEndWait(w: World, rounds: seq<Round>)
    requires Inv(w) && w.exited && SleepsBriefly(w) && |rounds| >= StepsLeft(w)
    ensures Play(w, rounds).pc.Returned?
    decreases |rounds|
  {
    hide Inv, PlayRound, StepsLeft;
    if w.pc.Returned? {
      ReturnedStays(w, rounds);
    } else {
      NotDoneYet(w);
      RoundCounts(w, rounds[0]);
      var w' := PlayRound(w, rounds[0]);
      if w'.pc.Returned? {
        ReturnedStays(w', rounds[1..]);
      } else {
        RoundsEndWait(w', rounds[1..]);
      }
    }
  }

  lemma NotDoneYet(w: World)
    requires !w.pc.Returned?
    ensures StepsLeft(w) > 0
  {
    hide LooksLeft;
  }

  lemma StepLeavesReturned(w: World, e: Event)
    requires w.pc.Returned?
    ensures Step(w, e).pc == w.pc
  {
  }

  lemma RoundLeavesReturned(w: World, r: Round)
    requires w.pc.Returned?
    ensures PlayRound(w, r).pc == w.pc
  {
    hide Step;
    StepLeavesReturned(w, r.event);
    StepLeavesReturned(Step(w, r.event), Ticks(SETTLE_INTERVAL));
    StepLeavesReturned(Step(Step(w, r.event), Ticks(SETTLE_INTERVAL)), Delivers);
    StepLeavesReturned(Readied(w, r.event), Moves(r.choice));
  }

  lemma {:induction false} ReturnedStays(w: World, rounds: seq<Round>)
    requires w.pc.Returned?
    ensures Play(w, rounds).pc == w.pc
    decreases |rounds|
  {
    if rounds != [] {
      RoundLeavesReturned(w, rounds[0]);
      hide PlayRound;
      ReturnedStays(PlayRound(w, rounds[0]), rounds[1..]);
    }
  }

  // ------------------------------------------------------------- what it returns

  /** Wait is past saving: it has returned, or its proof has failed on a client that is still the installed one,
      or has used up its attempts. */
  predicate Doomed(w: World) {
    match w.pc
    case Reading(_, attempt, _) => attempt >= ATTEMPTS
    case Rechecking(_, attempt, _, control) => w.observer == Some(control) || attempt + 1 >= ATTEMPTS
    case Returned(_, _) => true
    case _ => false
  }

  /** A round in which nobody replaces or detaches the observer or cancels, and every query and the exit
      watcher work. */
  predicate Smooth(r: Round) {
    && !r.event.Replaces? && !r.event.Detaches? && !r.event.Cancels? && !r.event.Moves?
    && r.choice.answers && !r.choice.registration.Refused? && !r.choice.watcherBreaks
  }

  /** The process is gone, tmux has its exit code, and an observer is installed. */
  predicate Settled(w: World, code: int) {
    w.exited && w.facts == Facts(true, Some(code)) && w.observer.Some? && !w.cancelled
  }

  /** Wait is on its way to the exit code, or has returned it. */
  ghost predicate OnItsWay(w: World, code: int) {
    Settled(w, code) && (!Doomed(w) || (w.pc.Returned? && w.pc.result == Observed(code)))
  }

  lemma SmoothEventKeeps(w: World, e: Event, code: int)
    requires OnItsWay(w, code) && !e.Replaces? && !e.Detaches? && !e.Cancels? && !e.Moves?
    ensures OnItsWay(Step(w, e), code) && Step(w, e).pc == w.pc
  {
  }

  lemma SmoothMoveKeeps(w: World, choice: Choice, code: int)
    requires OnItsWay(w, code) && choice.answers && !choice.registration.Refused? && !choice.watcherBreaks
    ensures OnItsWay(Step(w, Moves(choice)), code)
  {
  }

  lemma SmoothRoundKeeps(w: World, r: Round, code: int)
    requires OnItsWay(w, code) && Smooth(r)
    ensures OnItsWay(PlayRound(w, r), code)
  {
    hide OnItsWay, Step;
    SmoothEventKeeps(w, r.event, code);
    SmoothEventKeeps(Step(w, r.event), Ticks(SETTLE_INTERVAL), code);
    SmoothEventKeeps(Step(Step(w, r.event), Ticks(SETTLE_INTERVAL)), Delivers, code);
    SmoothMoveKeeps(Readied(w, r.event), r.choice, code);
  }

  lemma {:induction false} SmoothPlayKeeps(w: World, rounds: seq<Round>, code: int)
    requires OnItsWay(w, code) && forall r | r in rounds :: Smooth(r)
    ensures OnItsWay(Play(w, rounds), code)
    decreases |rounds|
  {
    if rounds != [] {
      hide OnItsWay, PlayRound;
      SmoothRoundKeeps(w, rounds[0], code);
      SmoothPlayKeeps(PlayRound(w, rounds[0]), rounds[1..], code);
    }
  }

  lemma DoomedStaysDoomed(w: World, r: Round, code: int)
    requires Settled(w, code) && Doomed(w) && Smooth(r)
    ensures var w' := PlayRound(w, r);
            && Settled(w', code) && Doomed(w')
            && (w'.pc.Returned? && w'.pc.result == Observed(code) ==> w.pc.Returned? && w.pc.result == Observed(code))
  {
    var c := Readied(w, r.event);
    assert c.pc == w.pc && c.observer == w.observer && c.facts == w.facts && c.exited && !c.cancelled;
  }

  lemma {:induction false} DoomedPlays(w: World, rounds: seq<Round>, code: int)
    requires Settled(w, code) && Doomed(w) && forall r | r in rounds :: Smooth(r)
    ensures var w' := Play(w, rounds);
            w'.pc.Returned? && w'.pc.result == Observed(code) ==> w.pc.Returned? && w.pc.result == Observed(code)
    decreases |rounds|
  {
    if rounds != [] {
      hide PlayRound, Doomed, Smooth;
      DoomedStaysDoomed(w, rounds[0], code);
      DoomedPlays(PlayRound(w, rounds[0]), rounds[1..], code);
    }
  }

  /** From every reachable state after the exit in which tmux has the exit code and an observer is installed, if
      the rounds go smoothly Wait returns that code, unless it was past saving already: exactly then. */
  lemma {:induction false} ExitCodeIsReturned(w: World, events: seq<Event>, rounds: seq<Round>, code: int)
    requires Initial(w) && Settled(Run(w, events), code)
    requires |rounds| >= PER_LOOK * (SETTLE_BUDGET / SETTLE_INTERVAL + 3) + 5
    requires forall r | r in rounds :: Smooth(r)
    ensures var v := Run(w, events);
            var end := Play(v, rounds);
            && end.pc.Returned?
            && (end.pc.result == Observed(code) <==> !Doomed(v) || (v.pc.Returned? && v.pc.result == Observed(code)))
  {
    ExitEndsWait(w, events, rounds);
    var v := Run(w, events);
    hide Run, Play, Smooth;
    if OnItsWay(v, code) {
      SmoothPlayKeeps(v, rounds, code);
    } else {
      DoomedPlays(v, rounds, code);
    }
  }

  /** Why Wait returned what it returned, looking at the world in which it took its last step. */
  ghost predicate Because(v: World, choice: Choice, result: Result) {
    match result
    case Observed(code) => v.pc.Querying? && choice.answers && v.facts == Facts(true, Some(code))
    case ObserverMissing => v.pc.Reading? && v.pc.attempt < 3 && v.observer.None?
    case QueryFailed(control) =>
      v.pc.Rechecking? && v.pc.control == control && (v.observer.None? || v.observer == Some(control))
    case ObserverChanged => v.pc.Reading? && v.pc.attempt >= 3
    case NotSettled(deadline) =>
      && v.pc.Querying? && v.pc.stage == Settle(deadline) && choice.answers && v.clock >= deadline
      && v.facts.code.None?
    case RegisterFailed =>
      v.pc.Registering? && !choice.registration.Registered? && !(choice.registration.Gone? && v.exited)
    case WatcherFailed => v.pc.Blocked? && choice.watcherBreaks && !v.delivered && !v.cancelled
    case GaveUp =>
      && v.cancelled
      && (|| (v.pc.Blocked? && (choice.seesCancellation || !v.delivered))
          || (v.pc.Sleeping? && (choice.seesCancellation || v.clock < v.pc.wake)))
  }

  /** Each answer has its cause, and each cause its answer: in every run, the step in which Wait returns a result
      is exactly one that explains it. In particular the observer is reported missing exactly when none was
      installed at that look. */
  lemma {:induction false} EveryAnswerHasItsCause(w: World, events: seq<Event>, choice: Choice, result: Result)
    requires Initial(w) && !Run(w, events).pc.Returned?
    ensures var v := Run(w, events);
            var next := Next(v, choice);
            next.Returned? && next.result == result <==> Because(v, choice, result)
  {
    RunKeeps(w, events);
    hide Run;
  }

  /** Wait knows that the process is gone, and waits for tmux to show its exit code. */
  predicate SettlePhase(pc: Pc) {
    match pc
    case Settling => true
    case Sleeping(_, _) => true
    case Reading(stage, _, _) => stage.Settle?
    case Querying(stage, _, _, _) => stage.Settle?
    case Rechecking(stage, _, _, _) => stage.Settle?
    case _ => false
  }

  /** In every run Wait registers only after a look that showed the pane alive, blocks only after such a look that
      came after the registration, and a look that shows it terminal, or the news of the exit, brings it into
      the settle phase, which it leaves only by returning. */
  lemma {:induction false} LooksDecide(w: World, events: seq<Event>, choice: Choice)
    requires Initial(w) && !Run(w, events).pc.Returned?
    ensures var v := Run(w, events);
            var next := Next(v, choice);
            && (SettlePhase(v.pc) ==> next.Returned? || SettlePhase(next))
            && (v.pc.Querying? && choice.answers && v.facts.terminal ==> next.Returned? || SettlePhase(next))
            && (v.pc.Blocked? && v.delivered ==> next.Returned? || SettlePhase(next))
            && (next.Registering? ==> v.pc.Querying? && v.pc.stage.First? && !v.facts.terminal && !v.registered)
            && (next.Blocked? && !v.pc.Blocked? ==>
                  v.registered && v.pc.Querying? && v.pc.stage.AfterRegister? && !v.facts.terminal)
            && (SettlePhase(next) && !SettlePhase(v.pc) ==> v.exited)
  {
    RunKeeps(w, events);
    hide Run;
  }

  // ------------------------------------------------------ every answer can come

  /** A live process watched by one observer, before the first look. */
  const LIVE := World(false, Facts(false, None), 1, Some(1), false, false, 0, false, Reading(First, 0, 1))

  ghost predicate Reached(v: World) { exists events :: Run(LIVE, events) == v }

  lemma ReachesOn(v: World, e: Event)
    requires Reached(v)
    ensures Reached(Step(v, e))
  {
    var events :| Run(LIVE, events) == v;
    assert (events + [e])[..|events|] == events;
    assert Run(LIVE, events + [e]) == Step(v, e);
  }

  lemma ReachesStart()
    ensures Initial(LIVE) && Reached(LIVE)
  {
    assert Run(LIVE, []) == LIVE;
  }

  /** The environment lets this move go through. */
  const FINE := Choice(true, Registered, false, false)

  /** Wait is blocked on the watcher of a live process. */
  lemma ReachesBlocked() returns (v: World)
    ensures Reached(v) && v == LIVE.(registered := true, pc := Blocked)
  {
    hide Reached;
    ReachesStart();
    var a := Step(LIVE, Moves(FINE));
    ReachesOn(LIVE, Moves(FINE));
    var b := Step(a, Moves(FINE));
    ReachesOn(a, Moves(FINE));
    var c := Step(b, Moves(FINE));
    ReachesOn(b, Moves(FINE));
    var d := Step(c, Moves(FINE));
    ReachesOn(c, Moves(FINE));
    v := Step(d, Moves(FINE));
    ReachesOn(d, Moves(FINE));
  }

  lemma ReachesExit(code: int) returns (v: World)
    ensures Reached(v) && v.pc.Returned? && v.pc.result == Observed(code)
  {
    hide Reached;
    var u := ReachesBlocked();
    var a := Step(u, Exits);
    ReachesOn(u, Exits);
    var b := Step(a, Delivers);
    ReachesOn(a, Delivers);
    var c := Step(b, Notices);
    ReachesOn(b, Notices);
    var d := Step(c, LearnsCode(code));
    ReachesOn(c, LearnsCode(code));
    var f := Step(d, Moves(FINE));
    ReachesOn(d, Moves(FINE));
    var g := Step(f, Moves(FINE));
    ReachesOn(f, Moves(FINE));
    var h := Step(g, Moves(FINE));
    ReachesOn(g, Moves(FINE));
    v := Step(h, Moves(FINE));
    ReachesOn(h, Moves(FINE));
  }

  lemma ReachesMissing() returns (v: World)
    ensures Reached(v) && v.pc.Returned? && v.pc.result == ObserverMissing
  {
    hide Reached;
    ReachesStart();
    var a := Step(LIVE, Detaches);
    ReachesOn(LIVE, Detaches);
    v := Step(a, Moves(FINE));
    ReachesOn(a, Moves(FINE));
  }

  lemma ReachesGaveUp() returns (v: World)
    ensures Reached(v) && v.pc.Returned? && v.pc.result == GaveUp
  {
    hide Reached;
    var u := ReachesBlocked();
    var a := Step(u, Cancels);
    ReachesOn(u, Cancels);
    v := Step(a, Moves(FINE));
    ReachesOn(a, Moves(FINE));
  }

  /** The observer is replaced during a failing query. */
  lemma ReachesReplaced(u: World) returns (v: World)
    requires Reached(u) && u.pc.Reading? && u.pc.attempt < ATTEMPTS && u.observer == Some(u.installed)
    ensures Reached(v) && v.pc == Reading(u.pc.stage, u.pc.attempt + 1, u.pc.since)
    ensures v.observer == Some(v.installed)
  {
    hide Reached;
    var failing := Moves(FINE.(answers := false));
    var a := Step(u, failing);
    ReachesOn(u, failing);
    var b := Step(a, failing);
    ReachesOn(a, failing);
    var c := Step(b, Replaces);
    ReachesOn(b, Replaces);
    v := Step(c, failing);
    ReachesOn(c, failing);
  }

  lemma ReachesChanged() returns (v: World)
    ensures Reached(v) && v.pc.Returned? && v.pc.result == ObserverChanged
  {
    hide Reached;
    ReachesStart();
    var a := ReachesReplaced(LIVE);
    var b := ReachesReplaced(a);
    var c := ReachesReplaced(b);
    v := Step(c, Moves(FINE));
    ReachesOn(c, Moves(FINE));
  }

  /** A process that lives when Wait is called can end in any exit code, its observer can go missing or change too
      often, and the wait can be given up. */
  lemma AnswersHappen(code: int)
    ensures Initial(LIVE)
    ensures exists events :: Run(LIVE, events).pc.Returned? && Run(LIVE, events).pc.result == Observed(code)
    ensures exists events :: Run(LIVE, events).pc.Returned? && Run(LIVE, events).pc.result == ObserverMissing
    ensures exists events :: Run(LIVE, events).pc.Returned? && Run(LIVE, events).pc.result == ObserverChanged
    ensures exists events :: Run(LIVE, events).pc.Returned? && Run(LIVE, events).pc.result == GaveUp
  {
    ReachesStart();
    var exit := ReachesExit(code);
    var missing := ReachesMissing();
    var changed := ReachesChanged();
    var gaveUp := ReachesGaveUp();
    var a :| Run(LIVE, a) == exit;
    var b :| Run(LIVE, b) == missing;
    var c :| Run(LIVE, c) == changed;
    var d :| Run(LIVE, d) == gaveUp;
    hide Run;
  }
}
