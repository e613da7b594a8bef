/**
 How the helper collects its child (internal/adapter/contextexec/runtime.go, collectChildTerminal and
 waitForChild): one goroutine waits for the child and puts the outcome into a channel, one captures its
 output, and the main one selects between that channel, the timer and the cancellation, kills if it must,
 and receives the outcome.

 Their steps interleave in every way, and with the child's exit, the timer and the cancellation.
 */
module ChildCollection {
  import opened Prelude

  datatype WaitOutcome = WaitError | Exited(reaped: bool, code: Option<int>, signal: string)

  datatype Signal = NoSignal | Killed(succeeded: bool)

  datatype Captured = CaptureError | Captured(stdoutBytes: nat, stderrBytes: nat, complete: bool, truncated: bool)

  /** What happens to the child: its group is killed; a wait for it returns. */
  datatype ChildAct = Kill | Wait

  /** What the main goroutine has after waitForChild. */
  datatype Waited = Waited(outcome: WaitOutcome, timedOut: bool, signal: Signal)

  /** The child and the request: how its wait will end, whether a kill works, the timeout, the capture. */
  datatype Setup = Setup(outcome: WaitOutcome, kills: bool, timeout: int, captured: Captured)

  datatype Main =
    | Selecting
    | Killing(timedOut: bool)
    | Receiving(timedOut: bool, signal: Signal)
    | Draining(waited: Waited)
    | Collected(waited: Waited, captured: Captured)

  /** `channel` is the waiting goroutine's, `output` the capturing one's; both hold one value. */
  datatype World = World(main: Main, exited: bool, waitReturned: bool, channel: Option<WaitOutcome>, timerFired: bool,
                         cancelled: bool, output: Option<Captured>, acts: seq<ChildAct>)

  const INITIAL := World(Selecting, false, false, None, false, false, None, [])

  datatype Pick = TakeOutcome | TakeTimer | TakeCancellation

  datatype Event =
    | ChildExits
    | WaitReturns
    | TimerFires
    | Cancels
    | CaptureEnds
    | MainMoves(pick: Pick)

  /** The main goroutine; `pick` is the ready case the select takes. A case that is not ready is no step. */
  function Move(w: World, setup: Setup, pick: Pick): World {
    match w.main
    case Selecting =>
      (match pick
       case TakeOutcome =>
         if w.channel.None? then w else w.(main := Draining(Waited(w.channel.value, false, NoSignal)), channel := None)
       case TakeTimer => if w.timerFired then w.(main := Killing(true)) else w
       case TakeCancellation => if w.cancelled then w.(main := Killing(false)) else w)
    case Killing(timedOut) => w.(main := Receiving(timedOut, Killed(setup.kills)), acts := w.acts + [Kill])
    case Receiving(timedOut, signal) =>
      if w.channel.None? then w else w.(main := Draining(Waited(w.channel.value, timedOut, signal)), channel := None)
    case Draining(waited) =>
      if w.output.None? then w else w.(main := Collected(waited, w.output.value), output := None)
    case Collected(_, _) => w
  }

  function Step(w: World, setup: Setup, e: Event): World {
    match e
    case ChildExits => w.(exited := true)
    case WaitReturns =>
      if w.waitReturned || !(w.exited || setup.outcome.WaitError?) then w
      else w.(waitReturned := true, channel := Some(setup.outcome), acts := w.acts + [Wait])
    case TimerFires => if setup.timeout == 0 then w else w.(timerFired := true)
    case Cancels => w.(cancelled := true)
    case CaptureEnds => if w.output.Some? || w.main.Collected? then w else w.(output := Some(setup.captured))
    case MainMoves(pick) => Move(w, setup, pick)
  }

  function Run(w: World, setup: Setup, events: seq<Event>): World {
    if events == [] then w else Step(Run(w, setup, events[..|events| - 1]), setup, events[|events| - 1])
  }

  // -------------------------------------------------------------- how it can end

  /** The ways the select and the kill can fall; `reaped` if the wait had returned before the kill. */
  datatype Wake = ChildFirst | TimerFirst(reaped: bool) | CancelFirst(reaped: bool)

  predicate TimesOut(timeout: int, wake: Wake) { timeout != 0 && wake.TimerFirst? }

  predicate Kills(timeout: int, wake: Wake) { TimesOut(timeout, wake) || wake.CancelFirst? }

  function ActsOf(timeout: int, wake: Wake): seq<ChildAct> {
    if !Kills(timeout, wake) then [Wait] else if wake.reaped then [Wait, Kill] else [Kill, Wait]
  }

  function WaitedOf(setup: Setup, wake: Wake): Waited {
    Waited(setup.outcome, TimesOut(setup.timeout, wake),
           if Kills(setup.timeout, wake) then Killed(setup.kills) else NoSignal)
  }

  // ------------------------------------------------------------------ invariant

  ghost predicate EndsAs(w: World, setup: Setup, waited: Waited, wake: Wake) {
    w.acts == ActsOf(setup.timeout, wake) && waited == WaitedOf(setup, wake)
  }

  ghost predicate Ended(w: World, setup: Setup, waited: Waited) {
    w.waitReturned && w.channel == None && exists wake :: EndsAs(w, setup, waited, wake)
  }

  ghost predicate Inv(w: World, setup: Setup) {
    && (w.timerFired ==> setup.timeout != 0)
    && (w.output.Some? ==> w.output.value == setup.captured)
    && match w.main
       case Selecting => w.channel == Sent(w, setup) && w.acts == if w.waitReturned then [Wait] else []
       case Killing(timedOut) =>
         && w.channel == Sent(w, setup) && (timedOut ==> setup.timeout != 0)
         && w.acts == if w.waitReturned then [Wait] else []
       case Receiving(timedOut, signal) =>
         && w.channel == Sent(w, setup) && (timedOut ==> setup.timeout != 0) && signal == Killed(setup.kills)
         && (if w.waitReturned then w.acts == [Wait, Kill] || w.acts == [Kill, Wait] else w.acts == [Kill])
       case Draining(waited) => Ended(w, setup, waited)
       case Collected(waited, captured) => Ended(w, setup, waited) && captured == setup.captured
  }

  ghost function Sent(w: World, setup: Setup): Option<WaitOutcome> {
    if w.waitReturned then Some(setup.outcome) else None
  }

  /** Receiving the outcome ends the collection in one of the ways. */
  lemma ReceiveEnds(w: World, setup: Setup, pick: Pick)
    requires Inv(w, setup) && !w.main.Draining? && Move(w, setup, pick).main.Draining?
    ensures Inv(Move(w, setup, pick), setup)
  {
    var w' := Move(w, setup, pick);
    var wake :=
      if w.main.Selecting? then ChildFirst
      else if w.main.timedOut then TimerFirst(w.acts == [Wait, Kill])
      else CancelFirst(w.acts == [Wait, Kill]);
    assert EndsAs(w', setup, w'.main.waited, wake);
  }

  lemma EndStays(w: World, setup: Setup, w': World, waited: Waited)
    requires Ended(w, setup, waited) && w'.waitReturned && w'.channel == None && w'.acts == w.acts
    ensures Ended(w', setup, waited)
  {
    var wake :| EndsAs(w, setup, waited, wake);
    assert EndsAs(w', setup, waited, wake);
  }

  lemma MoveKeeps(w: World, setup: Setup, pick: Pick)
    requires Inv(w, setup)
    ensures Inv(Move(w, setup, pick), setup)
  {
    hide Ended;
    var w' := Move(w, setup, pick);
    if w.main.Draining? || w.main.Collected? {
      EndImplies(w, setup);
      EndStays(w, setup, w', w.main.waited);
    } else if w'.main.Draining? {
      ReceiveEnds(w, setup, pick);
    }
  }

  lemma EndImplies(w: World, setup: Setup)
    requires Inv(w, setup) && (w.main.Draining? || w.main.Collected?)
    ensures w.waitReturned && w.channel == None
  {
  }

  lemma StepKeeps(w: World, setup: Setup, e: Event)
    requires Inv(w, setup)
    ensures Inv(Step(w, setup, e), setup)
  {
    if e.MainMoves? {
      MoveKeeps(w, setup, e.pick);
    } else if w.main.Draining? || w.main.Collected? {
      EndImplies(w, setup);
      hide Ended;
      EndStays(w, setup, Step(w, setup, e), w.main.waited);
    }
  }

  lemma {:induction false} RunKeeps(w: World, setup: Setup, events: seq<Event>)
    requires Inv(w, setup)
    ensures Inv(Run(w, setup, events), setup)
    decreases |events|
  {
    if events != [] {
      hide Inv, Step;
      RunKeeps(w, setup, events[..|events| - 1]);
      StepKeeps(Run(w, setup, events[..|events| - 1]), setup, events[|events| - 1]);
    }
  }

  // ------------------------------------------------------------------- theorems

  /** In every interleaving: when the collection is over the wait has returned exactly once and the group was
      killed at most once, and it is over in one of the ways above. */
  lemma {:induction false} EndsInOneOfTheWays(setup: Setup, events: seq<Event>)
    ensures var w := Run(INITIAL, setup, events);
            && multiset(w.acts)[Wait] <= 1 && multiset(w.acts)[Kill] <= 1
            && (w.main.Draining? || w.main.Collected? ==>
                  multiset(w.acts)[Wait] == 1 && exists wake :: EndsAs(w, setup, w.main.waited, wake))
            && (w.main.Collected? ==> w.main.captured == setup.captured)
  {
    RunKeeps(INITIAL, setup, events);
  }

  /** The kill is late, that is after the child was reaped, exactly when the wait had returned before the kill
      step, be it before the select or between the select and the kill. */
  lemma {:induction false} LateKillExactlyWhen(setup: Setup, before: seq<Event>, pick: Pick, after: seq<Event>)
    requires Run(INITIAL, setup, before).main.Killing?
    ensures var killing := Run(INITIAL, setup, before);
            var w := Run(Step(killing, setup, MainMoves(pick)), setup, after);
            w.main.Draining? || w.main.Collected? ==> (w.acts == [Wait, Kill] <==> killing.waitReturned)
  {
    RunKeeps(INITIAL, setup, before);
    var killing := Run(INITIAL, setup, before);
    var killed := Step(killing, setup, MainMoves(pick));
    assert killed.acts == if killing.waitReturned then [Wait, Kill] else [Kill];
    StepKeeps(killing, setup, MainMoves(pick));
    hide Run, Step;
    RunKeeps(killed, setup, after);
    ActsGrow(killed, setup, after);
    var w := Run(killed, setup, after);
    hide Inv;
    if w.main.Draining? || w.main.Collected? {
      ActsAtTheEnd(w, setup);
      assert w.acts[0] == killed.acts[0];
    }
  }

  lemma ActsAtTheEnd(w: World, setup: Setup)
    requires Inv(w, setup) && (w.main.Draining? || w.main.Collected?)
    ensures w.acts == [Wait] || w.acts == [Wait, Kill] || w.acts == [Kill, Wait]
  {
  }

  lemma {:induction false} ActsGrow(w: World, setup: Setup, events: seq<Event>)
    ensures w.acts <= Run(w, setup, events).acts
    decreases |events|
  {
    if events != [] {
      hide Step;
      ActsGrow(w, setup, events[..|events| - 1]);
      ActsGrowOnce(Run(w, setup, events[..|events| - 1]), setup, events[|events| - 1]);
    }
  }

  lemma ActsGrowOnce(w: World, setup: Setup, e: Event)
    ensures w.acts <= Step(w, setup, e).acts
  {
  }

  /** The collection is never stuck: once the wait has returned and the capture has ended, some step goes on. */
  lemma {:induction false} CanGoOn(setup: Setup, events: seq<Event>)
    ensures var w := Run(INITIAL, setup, events);
            w.waitReturned && w.output.Some? && !w.main.Collected? ==> Move(w, setup, TakeOutcome).main != w.main
  {
    RunKeeps(INITIAL, setup, events);
  }

  // --------------------------------------------------------- why it was killed

  ghost predicate Causes(events: seq<Event>, setup: Setup, timedOut: bool) {
    if timedOut then setup.timeout != 0 && TimerFires in events else Cancels in events
  }

  ghost predicate Caused(w: World, setup: Setup, events: seq<Event>) {
    && (w.timerFired ==> Causes(events, setup, true)) && (w.cancelled ==> Causes(events, setup, false))
    && (Kill in w.acts ==> Causes(events, setup, true) || Causes(events, setup, false))
    && match w.main
       case Selecting => Kill !in w.acts
       case Killing(timedOut) => Causes(events, setup, timedOut)
       case Receiving(timedOut, signal) => Causes(events, setup, timedOut)
       case Draining(waited) => waited.signal.Killed? ==> Causes(events, setup, waited.timedOut)
       case Collected(waited, _) => waited.signal.Killed? ==> Causes(events, setup, waited.timedOut)
  }

  lemma StepKeepsCaused(w: World, setup: Setup, events: seq<Event>, e: Event)
    requires Caused(w, setup, events)
    ensures Caused(Step(w, setup, e), setup, events + [e])
  {
    assert e in events + [e];
    assert forall x | x in events :: x in events + [e];
  }

  /** The child is killed only for a timeout that ran out or a cancellation that came, and a timeout is reported
      only where it ran out: a child that is left alone ends by itself and is never killed. */
  lemma {:induction false} KilledOnlyWithCause(setup: Setup, events: seq<Event>)
    ensures var w := Run(INITIAL, setup, events);
            && (Kill in w.acts ==> (setup.timeout != 0 && TimerFires in events) || Cancels in events)
            && (w.main.Draining? || w.main.Collected? ==>
                  var waited := w.main.waited;
                  waited.signal.Killed? ==>
                    if waited.timedOut then setup.timeout != 0 && TimerFires in events else Cancels in events)
            && Caused(w, setup, events)
    decreases |events|
  {
    if events != [] {
      var before, e := events[..|events| - 1], events[|events| - 1];
      KilledOnlyWithCause(setup, before);
      assert events == before + [e];
      hide Step, Caused;
      StepKeepsCaused(Run(INITIAL, setup, before), setup, before, e);
    }
    assert Caused(Run(INITIAL, setup, events), setup, events);
  }

  // ------------------------------------------------------------------ witnesses

  /** A run that ends the given way. The late kills fall between the select and the kill. */
  function Schedule(wake: Wake): seq<Event> {
    match wake
    case ChildFirst => [ChildExits, WaitReturns, MainMoves(TakeOutcome)]
    case TimerFirst(reaped) => [TimerFires, MainMoves(TakeTimer)] + KillAndReceive(reaped)
    case CancelFirst(reaped) => [Cancels, MainMoves(TakeCancellation)] + KillAndReceive(reaped)
  }

  function KillAndReceive(reaped: bool): seq<Event> {
    if reaped then [ChildExits, WaitReturns, MainMoves(TakeOutcome), MainMoves(TakeOutcome)]
    else [MainMoves(TakeOutcome), ChildExits, WaitReturns, MainMoves(TakeOutcome)]
  }

  lemma RunTwo(w: World, setup: Setup, a: Event, b: Event)
    ensures Run(w, setup, [a, b]) == Step(Step(w, setup, a), setup, b)
  {
    assert [a, b][..1] == [a] && [a][..0] == [];
    assert Run(w, setup, []) == w;
    assert Run(w, setup, [a]) == Step(w, setup, a);
    hide Step;
  }

  lemma {:induction false} RunConcat(w: World, setup: Setup, a: seq<Event>, b: seq<Event>)
    ensures Run(w, setup, a + b) == Run(Run(w, setup, a), setup, b)
    decreases |b|
  {
    hide Step;
    if b == [] {
      assert a + b == a;
    } else {
      assert (a + b)[..|a + b| - 1] == a + b[..|b| - 1];
      RunConcat(w, setup, a, b[..|b| - 1]);
    }
  }

  lemma KillAndReceiveEnds(w: World, setup: Setup, reaped: bool)
    requires w.main.Killing? && !w.waitReturned && w.acts == [] && w.output.None?
    ensures var w' := Run(w, setup, KillAndReceive(reaped));
            && w'.main == Draining(Waited(setup.outcome, w.main.timedOut, Killed(setup.kills)))
            && w'.acts == (if reaped then [Wait, Kill] else [Kill, Wait]) && w'.output.None?
  {
    var events := KillAndReceive(reaped);
    assert events == events[..2] + events[2..];
    RunConcat(w, setup, events[..2], events[2..]);
    var half := Run(w, setup, events[..2]);
    assert events[..2] == [events[0], events[1]] && events[2..] == [events[2], events[3]];
    RunTwo(w, setup, events[0], events[1]);
    RunTwo(half, setup, events[2], events[3]);
    hide Run;
  }

  /** Every way of ending happens, the late kills included. */
  lemma EveryWayHappens(setup: Setup, wake: Wake)
    requires wake.TimerFirst? ==> setup.timeout != 0
    ensures var w := Run(INITIAL, setup, Schedule(wake));
            w.main.Draining? && EndsAs(w, setup, w.main.waited, wake) && w.output.None?
  {
    var events := Schedule(wake);
    assert events == events[..2] + events[2..] && events[..2] == [events[0], events[1]];
    RunConcat(INITIAL, setup, events[..2], events[2..]);
    RunTwo(INITIAL, setup, events[0], events[1]);
    var half := Run(INITIAL, setup, events[..2]);
    if wake.ChildFirst? {
      assert events[2..] == [MainMoves(TakeOutcome)];
      assert [MainMoves(TakeOutcome)][..0] == [];
      assert Run(half, setup, []) == half;
      assert Run(half, setup, [MainMoves(TakeOutcome)]) == Step(half, setup, MainMoves(TakeOutcome));
    } else {
      assert events[2..] == KillAndReceive(wake.reaped);
      KillAndReceiveEnds(half, setup, wake.reaped);
    }
    hide Run;
  }

  /** And each of them is followed by the capture's end, and so by a collection. */
  lemma EveryWayCollects(setup: Setup, wake: Wake)
    requires wake.TimerFirst? ==> setup.timeout != 0
    ensures Run(INITIAL, setup, Schedule(wake) + [CaptureEnds, MainMoves(TakeOutcome)]).main ==
            Collected(WaitedOf(setup, wake), setup.captured)
  {
    EveryWayHappens(setup, wake);
    var w := Run(INITIAL, setup, Schedule(wake));
    RunConcat(INITIAL, setup, Schedule(wake), [CaptureEnds, MainMoves(TakeOutcome)]);
    RunTwo(w, setup, CaptureEnds, MainMoves(TakeOutcome));
    hide Run, Schedule;
  }

  /** A late kill before the select as well: the wait has returned, and the select picks the timer all the same. */
  lemma SelectPrefersTimer(setup: Setup)
    requires setup.timeout != 0
    ensures var ready := Run(INITIAL, setup, [ChildExits, WaitReturns]);
            var killing := Run(ready, setup, [TimerFires, MainMoves(TakeTimer)]);
            var w := Run(killing, setup, [MainMoves(TakeTimer), MainMoves(TakeTimer)]);
            ready.channel.Some? && w.main.Draining? && w.acts == [Wait, Kill] && w.main.waited.timedOut
  {
    RunTwo(INITIAL, setup, ChildExits, WaitReturns);
    var ready := Run(INITIAL, setup, [ChildExits, WaitReturns]);
    RunTwo(ready, setup, TimerFires, MainMoves(TakeTimer));
    var killing := Run(ready, setup, [TimerFires, MainMoves(TakeTimer)]);
    RunTwo(killing, setup, MainMoves(TakeTimer), MainMoves(TakeTimer));
    hide Run;
  }
}
