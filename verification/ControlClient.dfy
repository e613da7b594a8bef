/**
 The tmux control client (internal/adapter/delegatedtmux/control.go): delivery of pane output to the
 sink around one `setTarget`, the byte counter shared along observer replacements, and the pairing of
 command calls with result blocks.

 Goroutines interleave at their critical sections: every lock-protected section and every sink append
 is one step.
 */
module ControlClient {
  const MAX_PRE_TARGET_BYTES := 0x4_0000

  datatype Out = Out(pane: string, data: string)

  /** Bytes the sink accepted, and whether `setTarget` drained them or the reader delivered them. */
  datatype Entry = Entry(early: bool, out: Out)

  datatype ReaderAt = Idle | Holding(out: Out)

  datatype TargetAt = NotCalled | Draining(rest: seq<Out>) | Finished | Failed

  /** `pane` is "" until a target is set. `events` is what the reader parses; `at` counts how many it
      has taken; `cut` is that count when the target was set. */
  datatype Client = Client(events: seq<Out>, at: nat, reader: ReaderAt, target: TargetAt, pane: string,
                           pending: seq<Out>, pendingBytes: int, readErr: bool, log: seq<Entry>, counter: int, cut: nat)

  datatype Step = ReaderTakes | ReaderAppends(ok: bool) | TargetSets(pane: string) | TargetDrains(ok: bool)

  function Start(events: seq<Out>): Client {
    Client(events, 0, Idle, NotCalled, "", [], 0, false, [], 0, 0)
  }

  // ------------------------------------------------------ one step of a thread

  /** `deliverOutput` under the lock: buffer the output, or note where it goes. */
  function Take(c: Client): Client {
    if c.reader.Holding? || c.at >= |c.events| then c
    else
      var out := c.events[c.at];
      if c.pane != "" then c.(at := c.at + 1, reader := Holding(out))
      else if c.pendingBytes + |out.data| > MAX_PRE_TARGET_BYTES then
        c.(at := c.at + 1, pendingBytes := c.pendingBytes + |out.data|, readErr := true)
      else c.(at := c.at + 1, pendingBytes := c.pendingBytes + |out.data|, pending := c.pending + [out])
  }

  /** `deliverOutput` after the lock: append to the sink if the output is the target's and not empty. */
  function Deliver(c: Client, ok: bool): Client {
    if c.reader.Idle? then c
    else
      var out := c.reader.out;
      if out.pane != c.pane || out.data == "" then c.(reader := Idle)
      else if !ok then c.(reader := Idle, readErr := true)
      else c.(reader := Idle, log := c.log + [Entry(false, out)], counter := c.counter + |out.data|)
  }

  /** `setTarget` under the lock, with a sink: take over everything buffered. */
  function SetTarget(c: Client, pane: string): Client {
    if !c.target.NotCalled? || pane == "" then c
    else c.(pane := pane, target := Draining(c.pending), pending := [], pendingBytes := 0, cut := c.at)
  }

  /** `setTarget` after the lock: the next buffered output. */
  function Drain(c: Client, ok: bool): Client {
    if !c.target.Draining? then c
    else if c.target.rest == [] then c.(target := Finished)
    else
      var out, rest := c.target.rest[0], c.target.rest[1..];
      if out.pane != c.pane then c.(target := Draining(rest))
      else if !ok then c.(target := Failed, readErr := true)
      else c.(target := Draining(rest), log := c.log + [Entry(true, out)], counter := c.counter + |out.data|)
  }

  function Next(c: Client, step: Step): Client {
    match step
    case ReaderTakes => Take(c)
    case ReaderAppends(ok) => Deliver(c, ok)
    case TargetSets(pane) => SetTarget(c, pane)
    case TargetDrains(ok) => Drain(c, ok)
  }

  function Run(events: seq<Out>, steps: seq<Step>): Client {
    if steps == [] then Start(events) else Next(Run(events, steps[..|steps| - 1]), steps[|steps| - 1])
  }

  // ------------------------------------------------------------ conservation

  /** The outputs of one pane, in order; with `nonEmpty`, only those that carry bytes. */
  function Of(outs: seq<Out>, pane: string, nonEmpty: bool): seq<Out> {
    if outs == [] then []
    else
      var last := outs[|outs| - 1];
      Of(outs[..|outs| - 1], pane, nonEmpty) +
      (if last.pane == pane && (nonEmpty ==> last.data != "") then [last] else [])
  }

  function Logged(log: seq<Entry>, early: bool): seq<Out> {
    if log == [] then []
    else
      var last := log[|log| - 1];
      Logged(log[..|log| - 1], early) + (if last.early == early then [last.out] else [])
  }

  function Bytes(outs: seq<Out>): nat {
    if outs == [] then 0 else Bytes(outs[..|outs| - 1]) + |outs[|outs| - 1].data|
  }

  function LogBytes(log: seq<Entry>): nat {
    if log == [] then 0 else LogBytes(log[..|log| - 1]) + |log[|log| - 1].out.data|
  }

  lemma {:induction false} OfConcat(a: seq<Out>, b: seq<Out>, pane: string, nonEmpty: bool)
    ensures Of(a + b, pane, nonEmpty) == Of(a, pane, nonEmpty) + Of(b, pane, nonEmpty)
    decreases |b|
  {
    if b == [] {
      assert a + b == a;
    } else {
      assert (a + b)[..|a + b| - 1] == a + b[..|b| - 1];
      OfConcat(a, b[..|b| - 1], pane, nonEmpty);
    }
  }

  lemma OfOne(out: Out, pane: string, nonEmpty: bool)
    ensures Of([out], pane, nonEmpty) == if out.pane == pane && (nonEmpty ==> out.data != "") then [out] else []
  {
    assert [out][..0] == [];
  }

  lemma LoggedSnoc(log: seq<Entry>, e: Entry, early: bool)
    ensures Logged(log + [e], early) == Logged(log, early) + if e.early == early then [e.out] else []
    ensures LogBytes(log + [e]) == LogBytes(log) + |e.out.data|
  {
    assert (log + [e])[..|log|] == log;
  }

  lemma BytesSnoc(outs: seq<Out>, out: Out)
    ensures Bytes(outs + [out]) == Bytes(outs) + |out.data|
  {
    assert (outs + [out])[..|outs|] == outs;
  }

  /** What the reader still holds, as a sequence. */
  ghost function InHand(c: Client): seq<Out> { if c.reader.Holding? then [c.reader.out] else [] }

  ghost function ToDrain(c: Client): seq<Out> { if c.target.Draining? then c.target.rest else [] }

  ghost predicate Bounded(c: Client) {
    && c.at <= |c.events| && c.cut <= c.at
    && (c.pane == "" <==> c.target.NotCalled?)
    && 0 <= Bytes(c.pending) <= c.pendingBytes
    && (c.pane != "" ==> c.pending == [])
    && (c.pane == "" ==> c.reader.Idle? && c.log == [])
    && (c.target.Failed? ==> c.readErr)
    && c.counter == LogBytes(c.log)
  }

  /** Nothing retained exceeds the bound even when the buffer overflowed. */
  ghost predicate Retained(c: Client) { Bytes(c.pending) <= MAX_PRE_TARGET_BYTES }

  /** As long as no error is recorded: before the target is set everything is buffered; afterwards
      each output of the target is logged, or in a thread's hands, exactly once and in order. */
  ghost predicate Conserved(c: Client)
    requires c.cut <= c.at <= |c.events|
  {
    !c.readErr ==>
      if c.pane == "" then c.pending == c.events[..c.at] && c.pendingBytes == Bytes(c.pending)
      else
        && Logged(c.log, true) + Of(ToDrain(c), c.pane, false) == Of(c.events[..c.cut], c.pane, false)
        && Logged(c.log, false) + Of(InHand(c), c.pane, true) == Of(c.events[c.cut..c.at], c.pane, true)
  }

  ghost predicate Inv(c: Client) { Bounded(c) && Retained(c) && Conserved(c) }

  lemma NoneLeft(log: seq<Entry>, pane: string)
    ensures Logged(log, false) + Of([], pane, true) == Logged(log, false)
    ensures Logged(log, true) + Of([], pane, false) == Logged(log, true)
  {
  }

  lemma TakeKeeps(c: Client)
    requires Inv(c)
    ensures Inv(Take(c))
  {
    hide Bytes, Of, Logged, LogBytes;
    if c.reader.Idle? && c.at < |c.events| {
      var out := c.events[c.at];
      if c.pane == "" {
        BytesSnoc(c.pending, out);
        assert c.events[..c.at + 1] == c.events[..c.at] + [out];
      } else {
        assert c.events[c.cut..c.at + 1] == c.events[c.cut..c.at] + [out];
        OfConcat(c.events[c.cut..c.at], [out], c.pane, true);
        NoneLeft(c.log, c.pane);
      }
    }
  }

  lemma DeliverKeeps(c: Client, ok: bool)
    requires Inv(c)
    ensures Inv(Deliver(c, ok))
  {
    hide Bytes, Of, Logged, LogBytes;
    if c.reader.Holding? {
      var out := c.reader.out;
      OfOne(out, c.pane, true);
      LoggedSnoc(c.log, Entry(false, out), false);
      LoggedSnoc(c.log, Entry(false, out), true);
      NoneLeft(c.log, c.pane);
      NoneLeft(c.log + [Entry(false, out)], c.pane);
      assert Logged(c.log, true) + [] == Logged(c.log, true);
      assert Logged(c.log, false) + [] == Logged(c.log, false);
    }
  }

  lemma SetTargetKeeps(c: Client, pane: string)
    requires Inv(c)
    ensures Inv(SetTarget(c, pane))
  {
    assert Bytes([]) == 0;
    assert c.events[c.at..c.at] == [];
    if c.target.NotCalled? && pane != "" {
      assert Logged([], true) == [] && Logged([], false) == [];
      assert Of([], pane, true) == [];
      assert [] + Of(c.pending, pane, false) == Of(c.pending, pane, false);
    }
  }

  /** Draining one buffered output moves it from the buffer to the log, or drops another pane's. */
  lemma DrainOne(log: seq<Entry>, out: Out, rest: seq<Out>, pane: string)
    ensures out.pane != pane ==> Of([out] + rest, pane, false) == Of(rest, pane, false)
    ensures out.pane == pane ==>
              Logged(log + [Entry(true, out)], true) + Of(rest, pane, false) ==
                Logged(log, true) + Of([out] + rest, pane, false)
    ensures Logged(log + [Entry(true, out)], false) == Logged(log, false)
  {
    OfConcat([out], rest, pane, false);
    OfOne(out, pane, false);
    LoggedSnoc(log, Entry(true, out), false);
    LoggedSnoc(log, Entry(true, out), true);
    hide Of, Logged;
    assert Logged(log, false) + [] == Logged(log, false);
    assert Logged(log, true) + ([out] + Of(rest, pane, false)) == Logged(log, true) + [out] + Of(rest, pane, false);
  }

  lemma DrainKeeps(c: Client, ok: bool)
    requires Inv(c)
    ensures Inv(Drain(c, ok))
  {
    hide Bytes, Of, Logged, LogBytes;
    if c.target.Draining? && c.target.rest != [] {
      var out, rest := c.target.rest[0], c.target.rest[1..];
      assert c.target.rest == [out] + rest;
      LoggedSnoc(c.log, Entry(true, out), true);
      DrainOne(c.log, out, rest, c.pane);
    }
  }

  lemma NextKeepsEvents(c: Client, step: Step)
    ensures Next(c, step).events == c.events
  {
  }

  lemma {:induction false} RunInv(events: seq<Out>, steps: seq<Step>)
    ensures Inv(Run(events, steps)) && Run(events, steps).events == events
    decreases |steps|
  {
    if steps == [] {
      assert events[..0] == [];
    } else {
      hide Inv, Take, Deliver, SetTarget, Drain;
      RunInv(events, steps[..|steps| - 1]);
      var c := Run(events, steps[..|steps| - 1]);
      NextKeepsEvents(c, steps[|steps| - 1]);
      match steps[|steps| - 1]
      case ReaderTakes => TakeKeeps(c);
      case ReaderAppends(ok) => DeliverKeeps(c, ok);
      case TargetSets(pane) => SetTargetKeeps(c, pane);
      case TargetDrains(ok) => DrainKeeps(c, ok);
    }
  }

  ghost predicate Settled(c: Client) { c.target.Finished? && c.reader.Idle? && c.at == |c.events| }

  /** For one `setTarget` interleaved in any way with delivery: when both threads have finished and no
      error is recorded, every output of the target pane was appended exactly once, those parsed before
      the call in order and those parsed after it in order, and the counter is the sum of all appends. */
  lemma EveryOutputOnce(events: seq<Out>, steps: seq<Step>)
    ensures var c := Run(events, steps);
            Settled(c) && !c.readErr ==>
              && c.cut <= |events|
              && Logged(c.log, true) == Of(events[..c.cut], c.pane, false)
              && Logged(c.log, false) == Of(events[c.cut..], c.pane, true)
              && c.counter == LogBytes(c.log)
  {
    RunInv(events, steps);
    var c := Run(events, steps);
    if Settled(c) && !c.readErr {
      NoneLeft(c.log, c.pane);
      assert events[c.cut..c.at] == events[c.cut..];
    }
  }

  /** In every reachable state the buffer is within its bound and the counter counts exactly the bytes
      appended so far; no step lowers it. */
  lemma BufferIsBounded(events: seq<Out>, steps: seq<Step>, step: Step)
    ensures var c := Run(events, steps);
            && Bytes(c.pending) <= MAX_PRE_TARGET_BYTES
            && c.counter == LogBytes(c.log) <= Next(c, step).counter
  {
    RunInv(events, steps);
    hide Run, Conserved, Bytes, LogBytes;
  }

  // ------------------------------------------------- when an error is recorded

  /** The step hands the sink an output of the target pane, and the sink refuses it. */
  ghost predicate Refuses(c: Client, step: Step) {
    match step
    case ReaderAppends(ok) => !ok && c.reader.Holding? && c.reader.out.pane == c.pane && c.reader.out.data != ""
    case TargetDrains(ok) => !ok && c.target.Draining? && c.target.rest != [] && c.target.rest[0].pane == c.pane
    case _ => false
  }

  ghost predicate Refused(events: seq<Out>, steps: seq<Step>) {
    steps != [] &&
    var before := steps[..|steps| - 1];
    Refused(events, before) || Refuses(Run(events, before), steps[|steps| - 1])
  }

  /** The outputs parsed while there was no target. */
  ghost function Early(c: Client): seq<Out>
    requires c.cut <= c.at <= |c.events|
  {
    if c.target.NotCalled? then c.events[..c.at] else c.events[..c.cut]
  }

  ghost predicate Blames(c: Client, refused: bool) {
    && Bounded(c)
    && (c.pane == "" ==> c.pendingBytes == Bytes(c.events[..c.at]))
    && (c.readErr <==> Bytes(Early(c)) > MAX_PRE_TARGET_BYTES || refused)
  }

  lemma TakeBlames(c: Client, refused: bool)
    requires Blames(c, refused) && Bounded(Take(c))
    ensures Blames(Take(c), refused)
  {
    hide Bytes, LogBytes;
    if c.reader.Idle? && c.at < |c.events| && c.pane == "" {
      assert c.events[..c.at + 1] == c.events[..c.at] + [c.events[c.at]];
      BytesSnoc(c.events[..c.at], c.events[c.at]);
    }
  }

  lemma NextBlames(c: Client, step: Step, refused: bool)
    requires Inv(c) && Blames(c, refused)
    ensures Blames(Next(c, step), refused || Refuses(c, step))
  {
    hide Bytes, LogBytes, Conserved, Retained;
    match step
    case ReaderTakes =>
      TakeKeeps(c);
      hide Blames, Take;
      TakeBlames(c, refused);
    case ReaderAppends(ok) => DeliverKeeps(c, ok);
    case TargetSets(pane) => SetTargetKeeps(c, pane);
    case TargetDrains(ok) => DrainKeeps(c, ok);
  }

  lemma {:induction false} RunBlames(events: seq<Out>, steps: seq<Step>)
    ensures Blames(Run(events, steps), Refused(events, steps))
    decreases |steps|
  {
    if steps == [] {
      assert events[..0] == [];
    } else {
      var before := steps[..|steps| - 1];
      RunBlames(events, before);
      RunInv(events, before);
      hide Inv, Blames, Next;
      NextBlames(Run(events, before), steps[|steps| - 1], Refused(events, before));
    }
  }

  /** An error is recorded exactly when more than 256 KiB of output were parsed before there was a target,
      or the sink refused an output of the target. */
  lemma {:induction false} ErrorExactlyWhen(events: seq<Out>, steps: seq<Step>)
    ensures var c := Run(events, steps);
            && c.cut <= c.at <= |c.events| && c.events == events
            && (c.readErr <==> Bytes(Early(c)) > 256 * 1024 || Refused(events, steps))
  {
    RunBlames(events, steps);
    RunInv(events, steps);
  }

  /** Delivery never stops: in every reachable state the thread that holds or drains an output, and the reader
      that has one to take, can each go on, and what is left to do shrinks by it. */
  lemma {:induction false} DeliveryGoesOn(events: seq<Out>, steps: seq<Step>, ok: bool)
    ensures var c := Run(events, steps);
            && (c.reader.Holding? ==> Next(c, ReaderAppends(ok)).reader.Idle?)
            && (c.reader.Idle? && c.at < |events| ==> Next(c, ReaderTakes).at == c.at + 1)
            && (c.target.Draining? ==>
                  var target := Next(c, TargetDrains(ok)).target;
                  || target.Finished? || (target.Failed? && !ok)
                  || (target.Draining? && |target.rest| < |c.target.rest|))
  {
    RunInv(events, steps);
    var c := Run(events, steps);
    hide Run, Inv, Next;
    ReaderGoesOn(c, ok);
    DrainGoesOn(c, ok);
  }

  lemma ReaderGoesOn(c: Client, ok: bool)
    ensures c.reader.Holding? ==> Next(c, ReaderAppends(ok)).reader.Idle?
    ensures c.reader.Idle? && c.at < |c.events| ==> Next(c, ReaderTakes).at == c.at + 1
  {
  }

  lemma DrainGoesOn(c: Client, ok: bool)
    ensures c.target.Draining? ==>
              var target := Next(c, TargetDrains(ok)).target;
              || target.Finished? || (target.Failed? && !ok)
              || (target.Draining? && |target.rest| < |c.target.rest|)
  {
  }

  // ------------------------------------------------------------ it all arrives

  ghost predicate Reached(events: seq<Out>, c: Client) { exists steps :: Run(events, steps) == c }

  lemma ReachesStart(events: seq<Out>)
    ensures Reached(events, Start(events))
  {
    assert Run(events, []) == Start(events);
  }

  lemma ReachesOn(events: seq<Out>, c: Client, step: Step)
    requires Reached(events, c)
    ensures Reached(events, Next(c, step))
  {
    var steps :| Run(events, steps) == c;
    assert (steps + [step])[..|steps|] == steps;
    assert Run(events, steps + [step]) == Next(c, step);
  }

  lemma ReachedInv(events: seq<Out>, c: Client)
    requires Reached(events, c)
    ensures Inv(c) && c.events == events
  {
    var steps :| Run(events, steps) == c;
    RunInv(events, steps);
  }

  /** So many outputs have been buffered before there is a target. */
  lemma {:induction false} ReachesTaken(events: seq<Out>, n: nat) returns (c: Client)
    requires n <= |events| && Bytes(events[..n]) <= MAX_PRE_TARGET_BYTES
    ensures Reached(events, c) && c.at == n && c.target.NotCalled? && c.reader.Idle? && !c.readErr
    decreases n
  {
    hide Reached, Conserved, Retained, LogBytes;
    if n == 0 {
      ReachesStart(events);
      c := Start(events);
    } else {
      assert events[..n] == events[..n - 1] + [events[n - 1]];
      BytesSnoc(events[..n - 1], events[n - 1]);
      hide Bytes;
      var b := ReachesTaken(events, n - 1);
      ReachedInv(events, b);
      assert b.pendingBytes == Bytes(events[..n - 1]) by { BufferedBytes(b); }
      c := Next(b, ReaderTakes);
      ReachesOn(events, b, ReaderTakes);
    }
  }

  lemma BufferedBytes(c: Client)
    requires Inv(c) && c.target.NotCalled? && !c.readErr
    ensures c.pendingBytes == Bytes(c.events[..c.at])
  {
    hide Bytes, LogBytes;
  }

  /** Where delivery stands: the target was set at `cut`, and nothing has failed. */
  ghost predicate Going(events: seq<Out>, c: Client, pane: string, cut: nat) {
    Reached(events, c) && c.pane == pane && c.cut == cut && !c.readErr && c.reader.Idle? && c.events == events
  }

  lemma {:induction false} ReachesDrained(events: seq<Out>, b: Client, pane: string, cut: nat) returns (c: Client)
    requires Going(events, b, pane, cut) && b.target.Draining?
    ensures Going(events, c, pane, cut) && c.target.Finished? && c.at == b.at
    decreases |b.target.rest|
  {
    hide Reached;
    var a := Next(b, TargetDrains(true));
    ReachesOn(events, b, TargetDrains(true));
    if a.target.Draining? {
      c := ReachesDrained(events, a, pane, cut);
    } else {
      c := a;
    }
  }

  lemma {:induction false} ReachesSettled(events: seq<Out>, b: Client, pane: string, cut: nat) returns (c: Client)
    requires Going(events, b, pane, cut) && b.target.Finished? && b.at <= |events| && pane != ""
    ensures Going(events, c, pane, cut) && Settled(c)
    decreases |events| - b.at
  {
    hide Reached;
    if b.at == |events| {
      c := b;
    } else {
      var d := Next(b, ReaderTakes);
      ReachesOn(events, b, ReaderTakes);
      var a := Next(d, ReaderAppends(true));
      ReachesOn(events, d, ReaderAppends(true));
      c := ReachesSettled(events, a, pane, cut);
    }
  }

  /** Whatever is parsed, and wherever between it the target is set, if no more than 256 KiB come before it: some
      run settles without an error, and so appends every output of the target. */
  lemma {:induction false} EverythingCanArrive(events: seq<Out>, pane: string, cut: nat)
    requires pane != "" && cut <= |events| && Bytes(events[..cut]) <= 256 * 1024
    ensures exists steps ::
              var c := Run(events, steps); Settled(c) && !c.readErr && c.pane == pane && c.cut == cut
  {
    hide Bytes, Reached;
    var taken := ReachesTaken(events, cut);
    ReachedInv(events, taken);
    var targeted := Next(taken, TargetSets(pane));
    ReachesOn(events, taken, TargetSets(pane));
    var drained := ReachesDrained(events, targeted, pane, cut);
    var c := ReachesSettled(events, drained, pane, cut);
    assert exists steps :: Run(events, steps) == c by { ReachedBySome(events, c); }
  }

  lemma ReachedBySome(events: seq<Out>, c: Client)
    requires Reached(events, c)
    ensures exists steps :: Run(events, steps) == c
  {
  }

  /** The client object itself: each critical section updates its fields in place. */
  class LiveClient {
    const events: seq<Out>
    var at: nat
    var reader: ReaderAt
    var target: TargetAt
    var pane: string
    var pending: seq<Out>
    var pendingBytes: int
    var readErr: bool
    var log: seq<Entry>
    var counter: int
    ghost var cut: nat

    ghost function View(): Client
      reads this
    {
      Client(events, at, reader, target, pane, pending, pendingBytes, readErr, log, counter, cut)
    }

    constructor (events: seq<Out>)
      ensures View() == Start(events)
    {
      this.events := events;
      at, reader, target, pane := 0, Idle, NotCalled, "";
      pending, pendingBytes, readErr, log, counter, cut := [], 0, false, [], 0, 0;
    }

    /** control.go `deliverOutput`, from taking the lock to releasing it. */
    method TakeOutput()
      modifies this
      ensures View() == Take(old(View()))
    {
      if reader.Holding? || at >= |events| {
        return;
      }
      var out := events[at];
      at := at + 1;
      if pane == "" {
        pendingBytes := pendingBytes + |out.data|;
        if pendingBytes > MAX_PRE_TARGET_BYTES {
          readErr := true;
          return;
        }
        pending := pending + [out];
        return;
      }
      reader := Holding(out);
    }

    /** control.go `deliverOutput`, after the lock. `ok` is whether the sink accepts. */
    method AppendOutput(ok: bool)
      modifies this
      ensures View() == Deliver(old(View()), ok)
    {
      if reader.Idle? {
        return;
      }
      var out := reader.out;
      reader := Idle;
      if out.pane != pane || out.data == "" {
        return;
      }
      if !ok {
        readErr := true;
        return;
      }
      log := log + [Entry(false, out)];
      counter := counter + |out.data|;
    }

    /** control.go `setTarget`, under the lock. */
    method Retarget(to: string)
      modifies this
      ensures View() == SetTarget(old(View()), to)
    {
      if !target.NotCalled? || to == "" {
        return;
      }
      pane, target, cut := to, Draining(pending), at;
      pending, pendingBytes := [], 0;
    }

    /** control.go `setTarget`, one round of the loop after the lock. */
    method DrainNext(ok: bool)
      modifies this
      ensures View() == Drain(old(View()), ok)
    {
      if !target.Draining? {
        return;
      }
      var rest := target.rest;
      if rest == [] {
        target := Finished;
        return;
      }
      if rest[0].pane == pane {
        if !ok {
          target, readErr := Failed, true;
          return;
        }
        log := log + [Entry(true, rest[0])];
        counter := counter + |rest[0].data|;
      }
      target := Draining(rest[1..]);
    }
  }
}

/**
 The output counter handed from observer to observer (control.go `outputCounter`,
 `shareOutputCounter`): arm and replace make the new client count into the old client's counter before
 it is given a target.
 */
module SharedCounter {

  /** Client `i` counts into counter `home[i]` and has itself appended `appended[i]` bytes. */
  datatype Ledger = Ledger(home: seq<nat>, appended: seq<nat>, targeted: seq<bool>, counters: seq<nat>)

  datatype Action = NewClient | Share(client: nat, from: nat) | Target(client: nat) | Append(client: nat, bytes: nat)

  const EMPTY := Ledger([], [], [], [])

  ghost predicate Shaped(l: Ledger) {
    && |l.home| == |l.appended| == |l.targeted| == |l.counters|
    && (forall i | 0 <= i < |l.home| :: l.home[i] < |l.counters|)
  }

  /** A client appends only after it has a target, and shares a counter only before. */
  function Apply(l: Ledger, a: Action): Ledger {
    var n := |l.home|;
    if !(|l.appended| == |l.targeted| == |l.counters| == n) then l
    else
      match a
      case NewClient => Ledger(l.home + [n], l.appended + [0], l.targeted + [false], l.counters + [0])
      case Share(c, from) =>
        if c < n && from < n && !l.targeted[c] then l.(home := l.home[c := l.home[from]]) else l
      case Target(c) => if c < n then l.(targeted := l.targeted[c := true]) else l
      case Append(c, bytes) =>
        if c < n && l.targeted[c] && l.home[c] < n then
          l.(appended := l.appended[c := l.appended[c] + bytes],
             counters := l.counters[l.home[c] := l.counters[l.home[c]] + bytes])
        else l
  }

  function Run(actions: seq<Action>): Ledger {
    if actions == [] then EMPTY else Apply(Run(actions[..|actions| - 1]), actions[|actions| - 1])
  }

  /** The bytes appended by every client that counts into `id`. */
  function Total(home: seq<nat>, appended: seq<nat>, id: nat): nat
    requires |home| == |appended|
  {
    if home == [] then 0
    else
      Total(home[..|home| - 1], appended[..|home| - 1], id) +
      if home[|home| - 1] == id then appended[|home| - 1] else 0
  }

  ghost predicate Balanced(l: Ledger) {
    && Shaped(l)
    && (forall i | 0 <= i < |l.home| :: l.targeted[i] || l.appended[i] == 0)
    && (forall id: nat | id < |l.counters| :: l.counters[id] == Total(l.home, l.appended, id))
  }

  lemma {:induction false} TotalOfUnused(home: seq<nat>, appended: seq<nat>, id: nat)
    requires |home| == |appended| && forall i | 0 <= i < |home| :: home[i] < id
    ensures Total(home, appended, id) == 0
    decreases |home|
  {
    if home != [] {
      TotalOfUnused(home[..|home| - 1], appended[..|home| - 1], id);
    }
  }

  /** Moving a client that appended nothing changes no total. */
  lemma {:induction false} TotalAfterShare(home: seq<nat>, appended: seq<nat>, c: nat, to: nat, id: nat)
    requires |home| == |appended| && c < |home| && appended[c] == 0
    ensures Total(home[c := to], appended, id) == Total(home, appended, id)
    decreases |home|
  {
    var n := |home| - 1;
    if c < n {
      assert home[c := to][..n] == home[..n][c := to];
      TotalAfterShare(home[..n], appended[..n], c, to, id);
    } else {
      assert home[c := to][..n] == home[..n];
    }
  }

  lemma {:induction false} TotalAfterAppend(home: seq<nat>, appended: seq<nat>, c: nat, bytes: nat, id: nat)
    requires |home| == |appended| && c < |home|
    ensures Total(home, appended[c := appended[c] + bytes], id) ==
            Total(home, appended, id) + if home[c] == id then bytes else 0
    decreases |home|
  {
    var n := |home| - 1;
    var more := appended[c := appended[c] + bytes];
    if c < n {
      assert more[..n] == appended[..n][c := appended[c] + bytes];
      TotalAfterAppend(home[..n], appended[..n], c, bytes, id);
    } else {
      assert more[..n] == appended[..n];
    }
  }

  lemma ApplyKeepsBalanced(l: Ledger, a: Action)
    requires Balanced(l)
    ensures Balanced(Apply(l, a))
  {
    var l' := Apply(l, a);
    forall id: nat | id < |l'.counters|
      ensures l'.counters[id] == Total(l'.home, l'.appended, id)
    {
      match a
      case NewClient =>
        assert l'.home[..|l.home|] == l.home && l'.appended[..|l.home|] == l.appended;
        if id == |l.home| {
          TotalOfUnused(l.home, l.appended, id);
        }
      case Share(c, from) =>
        if l' != l {
          TotalAfterShare(l.home, l.appended, c, l.home[from], id);
        }
      case Target(c) =>
      case Append(c, bytes) =>
        if l' != l {
          TotalAfterAppend(l.home, l.appended, c, bytes, id);
        }
    }
  }

  /** Over every run, each counter equals all bytes appended by the clients that share it, and two
      clients linked by sharing report the same count. */
  lemma {:induction false} CountersBalance(actions: seq<Action>)
    ensures Balanced(Run(actions))
    decreases |actions|
  {
    if actions != [] {
      CountersBalance(actions[..|actions| - 1]);
      ApplyKeepsBalanced(Run(actions[..|actions| - 1]), actions[|actions| - 1]);
    }
  }

  /** The count an observer reports. */
  ghost function Reported(l: Ledger, c: nat): nat
    requires Shaped(l) && c < |l.home|
  {
    l.counters[l.home[c]]
  }

  /** Handing the counter on keeps the reported total, and nothing ever lowers a counter. */
  lemma SharingContinuesTheCount(actions: seq<Action>, c: nat, from: nat, later: Action)
    ensures var l := Run(actions);
            var l' := Apply(l, Share(c, from));
            && Shaped(l) && Shaped(l')
            && (c < |l.home| && from < |l.home| && !l.targeted[c] ==>
               Reported(l', c) == Reported(l, from) == Reported(l', from))
            && |l.counters| <= |Apply(l, later).counters|
            && forall id | 0 <= id < |l.counters| :: l.counters[id] <= Apply(l, later).counters[id]
  {
    CountersBalance(actions);
    ApplyKeepsBalanced(Run(actions), Share(c, from));
  }

  /** A new client that takes over a counter before it has a target counts on from there. */
  lemma ReplacementCountsOn(actions: seq<Action>, from: nat, bytes: nat)
    ensures var l := Run(actions);
            from < |l.home| ==>
              var c := |l.home|;
              var l' := Apply(Apply(Apply(Apply(l, NewClient), Share(c, from)), Target(c)), Append(c, bytes));
              && Shaped(l) && Shaped(l') && c < |l'.home|
              && Reported(l', c) == Reported(l', from) == Reported(l, from) + bytes
  {
    CountersBalance(actions);
  }
}

/**
 Pairing of commands with result blocks (control.go `command`, `waitResult`, `readLoop`). Calls are
 serialised by the command mutex; call 0 is the wait for the startup block of
 `startControlWithFlags`. A call that returns without taking a result (its context was cancelled, or
 it saw the reader gone) is abandoned.
 */
module CommandResults {
  const RESULT_QUEUE: nat := 64

  /** `returned[j]` is the pair of a call and the block it took. Block `k` answers call `k`. */
  datatype Pipe = Pipe(calls: nat, waiting: bool, answered: nat, queue: seq<nat>, returned: seq<(nat, nat)>,
                       abandoned: nat, overflow: bool)

  datatype Action = Issue | Answer | Receive | Abandon

  const START := Pipe(1, true, 0, [], [], 0, false)

  function Apply(p: Pipe, a: Action): Pipe {
    match a
    case Issue => if p.waiting then p else p.(calls := p.calls + 1, waiting := true)
    case Answer =>
      if p.overflow || p.answered >= p.calls then p
      else if |p.queue| >= RESULT_QUEUE then p.(answered := p.answered + 1, overflow := true)
      else p.(answered := p.answered + 1, queue := p.queue + [p.answered])
    case Receive =>
      if !p.waiting || p.queue == [] || p.calls == 0 then p
      else p.(waiting := false, queue := p.queue[1..], returned := p.returned + [(p.calls - 1, p.queue[0])])
    case Abandon => if !p.waiting then p else p.(waiting := false, abandoned := p.abandoned + 1)
  }

  function Run(actions: seq<Action>): Pipe {
    if actions == [] then START else Apply(Run(actions[..|actions| - 1]), actions[|actions| - 1])
  }

  ghost predicate Inv(p: Pipe) {
    && p.calls == |p.returned| + p.abandoned + (if p.waiting then 1 else 0)
    && p.answered <= p.calls
    && (p.overflow ==> p.abandoned >= RESULT_QUEUE)
    && (!p.overflow ==> |p.returned| + |p.queue| == p.answered)
    && |p.queue| <= RESULT_QUEUE
    && (forall j | 0 <= j < |p.queue| :: p.queue[j] == |p.returned| + j)
    && (forall j | 0 <= j < |p.returned| :: p.returned[j].1 == j)
  }

  lemma ApplyKeepsInv(p: Pipe, a: Action)
    requires Inv(p)
    ensures Inv(Apply(p, a))
  {
  }

  lemma {:induction false} RunInv(actions: seq<Action>)
    ensures Inv(Run(actions))
    decreases |actions|
  {
    if actions != [] {
      RunInv(actions[..|actions| - 1]);
      ApplyKeepsInv(Run(actions[..|actions| - 1]), actions[|actions| - 1]);
    }
  }

  /** A call that takes a result takes its own block exactly when no earlier call was abandoned: the
      block it takes is the one of the call as many places back as there were abandoned calls. */
  lemma ResultsShiftByAbandonedCalls(actions: seq<Action>)
    ensures var p, p' := Run(actions), Apply(Run(actions), Receive);
            && (p.waiting && p.queue != [] <==> p' != p)
            && (p' != p ==>
              && |p'.returned| == |p.returned| + 1
              && var (call, block) := p'.returned[|p.returned|];
                 call == p.calls - 1 && block == call - p.abandoned && (block == call <==> p.abandoned == 0))
  {
    RunInv(actions);
  }

  /** With no abandoned call, at most one result is ever queued and the queue never overflows; in
      general the queue holds at most one more result than there are abandoned calls. It overflows exactly when
      a block arrives while 64 wait to be taken. */
  lemma QueueStaysShort(actions: seq<Action>)
    ensures var p := Run(actions);
            && (!p.overflow ==> |p.queue| <= p.abandoned + 1)
            && (p.overflow ==> p.abandoned >= 64)
            && (!p.overflow ==>
                  && p.answered == |p.returned| + |p.queue| && |p.queue| <= 64
                  && (p.answered < p.calls ==>
                        var p' := Apply(p, Answer);
                        if p.answered == |p.returned| + 64 then p'.overflow && p'.queue == p.queue
                        else !p'.overflow && p'.queue == p.queue + [p.answered]))
  {
    RunInv(actions);
  }

  /** One cancelled call is enough: the next call returns the cancelled call's block. */
  lemma AbandonedCallMispairs()
    ensures var p := Run([Answer, Receive, Issue, Abandon, Issue, Answer, Receive]);
            p.returned == [(0, 0), (2, 1)]
  {
    var a := [Answer, Receive, Issue, Abandon, Issue, Answer, Receive];
    assert a[..6][..5] == a[..5] && a[..5][..4] == a[..4] && a[..4][..3] == a[..3] && a[..3][..2] == a[..2] &&
      a[..2][..1] == a[..1] && a[..1][..0] == [];
    assert Run(a[..1]) == Apply(START, Answer);
    assert Run(a[..2]) == Apply(Run(a[..1]), Receive);
    assert Run(a[..3]) == Apply(Run(a[..2]), Issue);
    assert Run(a[..4]) == Apply(Run(a[..3]), Abandon);
    assert Run(a[..5]) == Apply(Run(a[..4]), Issue);
    assert Run(a[..6]) == Apply(Run(a[..5]), Answer);
  }
}
