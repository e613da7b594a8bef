/**
 Reading evidence at a cut (cmd/shellbeam/decision_protocol.go, decisionVerificationSource): look at the
 watermark, read the candidates in several steps, look at the watermark again.

 The store is a history of versions. Every write, whatever it does to the evidence, raises the
 watermark; reservations are never changed once made. Writes fall anywhere between the steps of a read,
 and each step sees the version of its own moment.
 */
module EvidenceCut {
  datatype Reservation = Reservation(workspace: string, activity: string)

  datatype Candidate = Candidate(workspace: string, activity: string, operation: string, body: string)

  datatype Version = Version(high: nat, operations: map<string, Reservation>, evidence: seq<Candidate>)

  datatype Coverage = Whole | Truncated

  datatype EvidenceSet = EvidenceSet(cut: nat, candidates: seq<Candidate>, coverage: Coverage)

  const MAX_RECORDS := 128

  // --------------------------------------------------------- the read as a whole

  predicate Matches(c: Candidate, r: Reservation) { c.workspace == r.workspace && c.activity == r.activity }

  /** The candidates of a reservation, oldest first, at most MAX_RECORDS. */
  function Scan(evidence: seq<Candidate>, r: Reservation): seq<Candidate> {
    if evidence == [] then []
    else
      var rest, last := Scan(evidence[..|evidence| - 1], r), evidence[|evidence| - 1];
      if Matches(last, r) && |rest| < MAX_RECORDS then rest + [last] else rest
  }

  /** Some candidate was left out for want of room. */
  function Covered(evidence: seq<Candidate>, r: Reservation): Coverage {
    if evidence == [] then Whole
    else
      var front, last := evidence[..|evidence| - 1], evidence[|evidence| - 1];
      if Matches(last, r) && |Scan(front, r)| >= MAX_RECORDS then Truncated else Covered(front, r)
  }

  /** The candidates that match, all of them, in order. */
  ghost function AllMatching(evidence: seq<Candidate>, r: Reservation): seq<Candidate> {
    if evidence == [] then []
    else
      var last := evidence[|evidence| - 1];
      AllMatching(evidence[..|evidence| - 1], r) +
      if last.workspace == r.workspace && last.activity == r.activity then [last] else []
  }

  /** The read gives the first 128 candidates of the reservation, and says that it is whole exactly when
      there are no more. */
  lemma {:induction false} ScanKeepsTheFirst(evidence: seq<Candidate>, r: Reservation)
    ensures var all := AllMatching(evidence, r);
            && Scan(evidence, r) == all[..if |all| < 128 then |all| else 128]
            && (Covered(evidence, r) == Whole <==> |all| <= 128)
    decreases |evidence|
  {
    if evidence != [] {
      ScanKeepsTheFirst(evidence[..|evidence| - 1], r);
    }
  }

  function OfOperation(candidates: seq<Candidate>, id: string): seq<Candidate> {
    if candidates == [] then []
    else
      var rest, last := OfOperation(candidates[..|candidates| - 1], id), candidates[|candidates| - 1];
      if last.operation == id then rest + [last] else rest
  }

  /** Filtering is decided candidate by candidate and keeps their order and repetitions. */
  lemma {:induction false} FilteringKeepsOrder(a: seq<Candidate>, b: seq<Candidate>, c: Candidate, id: string)
    ensures OfOperation(a + b, id) == OfOperation(a, id) + OfOperation(b, id)
    ensures OfOperation([c], id) == if c.operation == id then [c] else []
    decreases |b|
  {
    assert [c][..0] == [];
    if b == [] {
      assert a + b == a;
    } else {
      assert (a + b)[..|a + b| - 1] == a + b[..|b| - 1];
      FilteringKeepsOrder(a, b[..|b| - 1], c, id);
    }
  }

  /** The filtering loop. */
  method FilterOperation(candidates: seq<Candidate>, id: string) returns (filtered: seq<Candidate>)
    ensures filtered == OfOperation(candidates, id)
    ensures forall c :: c in filtered <==> c in candidates && c.operation == id
  {
    filtered := [];
    for i := 0 to |candidates|
      invariant filtered == OfOperation(candidates[..i], id)
      invariant forall c :: c in filtered <==> c in candidates[..i] && c.operation == id
    {
      assert candidates[..i + 1] == candidates[..i] + [candidates[i]];
      if candidates[i].operation == id {
        filtered := filtered + [candidates[i]];
      }
    }
    assert candidates[..|candidates|] == candidates;
  }

  /** The evidence of an operation in one version. */
  function EvidenceAt(v: Version, id: string, cut: nat): EvidenceSet
    requires id in v.operations
  {
    var r := v.operations[id];
    EvidenceSet(cut, OfOperation(Scan(v.evidence, r), id), Covered(v.evidence, r))
  }

  // --------------------------------------------------------- the read step by step

  datatype Error = Unavailable | NotSettled

  datatype Pc =
    | Finding
    | CheckingBefore(r: Reservation)
    | Scanning(r: Reservation, position: nat, found: seq<Candidate>, coverage: Coverage)
    | CheckingAfter(found: seq<Candidate>, coverage: Coverage)
    | Returned(evidence: EvidenceSet)
    | Failed(error: Error)

  /** One reader of operation `id` at `cut`; `checked` is the version its first check saw. */
  datatype World = World(history: seq<Version>, id: string, cut: nat, checked: nat, pc: Pc)

  function Current(w: World): Version
    requires w.history != []
  {
    w.history[|w.history| - 1]
  }

  datatype Event =
    | Writes(raise: nat, operations: map<string, Reservation>, evidence: seq<Candidate>)
    | Moves(readable: bool)

  /** A write adds reservations, replaces the evidence as it likes and raises the watermark. */
  function Write(v: Version, raise: nat, operations: map<string, Reservation>, evidence: seq<Candidate>): Version {
    Version(v.high + 1 + raise, operations + v.operations, evidence)
  }

  function Move(w: World, readable: bool): World
    requires w.history != []
  {
    var v := Current(w);
    if !readable && !w.pc.Returned? && !w.pc.Failed? then w.(pc := Failed(Unavailable))
    else
      match w.pc
      case Finding =>
        w.(pc := if w.id in v.operations then CheckingBefore(v.operations[w.id]) else Failed(Unavailable))
      case CheckingBefore(r) =>
        if v.high == w.cut then w.(pc := Scanning(r, 0, [], Whole), checked := |w.history| - 1)
        else w.(pc := Failed(NotSettled))
      case Scanning(r, position, found, coverage) =>
        if position >= |v.evidence| then w.(pc := CheckingAfter(found, coverage))
        else
          var c := v.evidence[position];
          w.(pc := if !Matches(c, r) then Scanning(r, position + 1, found, coverage)
                   else if |found| < MAX_RECORDS then Scanning(r, position + 1, found + [c], coverage)
                   else Scanning(r, position + 1, found, Truncated))
      case CheckingAfter(found, coverage) =>
        if v.high == w.cut then w.(pc := Returned(EvidenceSet(w.cut, OfOperation(found, w.id), coverage)))
        else w.(pc := Failed(NotSettled))
      case Returned(_) => w
      case Failed(_) => w
  }

  function Step(w: World, e: Event): (w': World)
    requires w.history != []
    ensures w'.history != []
  {
    match e
    case Writes(raise, operations, evidence) =>
      w.(history := w.history + [Write(Current(w), raise, operations, evidence)])
    case Moves(readable) => Move(w, readable)
  }

  function Run(w: World, events: seq<Event>): (w': World)
    requires w.history != []
    ensures w'.history != []
  {
    if events == [] then w else Step(Run(w, events[..|events| - 1]), events[|events| - 1])
  }

  /** Any history, any cut: one just acquired, an old one or a made-up one. */
  ghost predicate Initial(w: World) {
    && w.history != [] && Rising(w.history) && w.pc == Finding
  }

  // ----------------------------------------------------------------- invariant

  /** Watermarks rise, reservations stay. */
  ghost predicate Rising(history: seq<Version>) {
    && (forall m, n | 0 <= m < n < |history| :: history[m].high < history[n].high)
    && (forall m, n, id | 0 <= m < n < |history| && id in history[m].operations ::
          id in history[n].operations && history[n].operations[id] == history[m].operations[id])
  }

  ghost predicate Reserved(w: World, r: Reservation)
    requires w.history != []
  {
    w.id in Current(w).operations && Current(w).operations[w.id] == r
  }

  /** The first check passed on a version of the history; while no write came since, the version is the
      present one. */
  ghost predicate Checked(w: World) {
    w.checked < |w.history| && w.history[w.checked].high == w.cut && w.id in w.history[w.checked].operations
  }

  ghost predicate Undisturbed(w: World) { w.checked == |w.history| - 1 }

  ghost predicate PcOk(w: World)
    requires w.history != []
  {
    match w.pc
    case Finding => true
    case CheckingBefore(r) => Reserved(w, r)
    case Scanning(r, position, found, coverage) =>
      && Reserved(w, r) && Checked(w)
      && (Undisturbed(w) ==>
            && position <= |Current(w).evidence|
            && found == Scan(Current(w).evidence[..position], r)
            && coverage == Covered(Current(w).evidence[..position], r))
    case CheckingAfter(found, coverage) =>
      && Checked(w)
      && (Undisturbed(w) ==>
            var r := Current(w).operations[w.id];
            found == Scan(Current(w).evidence, r) && coverage == Covered(Current(w).evidence, r))
    case Returned(evidence) => Checked(w) && evidence == EvidenceAt(w.history[w.checked], w.id, w.cut)
    case Failed(_) => true
  }

  ghost predicate Inv(w: World) { w.history != [] && Rising(w.history) && PcOk(w) }

  lemma WriteKeeps(w: World, raise: nat, operations: map<string, Reservation>, evidence: seq<Candidate>)
    requires Inv(w)
    ensures Inv(Step(w, Writes(raise, operations, evidence)))
  {
    var w' := Step(w, Writes(raise, operations, evidence));
    forall m, n | 0 <= m < n < |w'.history|
      ensures w'.history[m].high < w'.history[n].high
      ensures forall id | id in w'.history[m].operations ::
                id in w'.history[n].operations && w'.history[n].operations[id] == w'.history[m].operations[id]
    {
      if n == |w.history| && m < |w.history| - 1 {
        assert w.history[m].high < w.history[|w.history| - 1].high;
      }
    }
  }

  /** One more position of the scan. */
  lemma ScanMore(evidence: seq<Candidate>, position: nat, r: Reservation)
    requires position < |evidence|
    ensures var before, c := evidence[..position], evidence[position];
            && Scan(evidence[..position + 1], r) ==
               (if Matches(c, r) && |Scan(before, r)| < MAX_RECORDS then Scan(before, r) + [c] else Scan(before, r))
            && Covered(evidence[..position + 1], r) ==
               (if Matches(c, r) && |Scan(before, r)| >= MAX_RECORDS then Truncated else Covered(before, r))
  {
    assert evidence[..position + 1][..position] == evidence[..position];
  }

  lemma ScanKeeps(w: World)
    requires Inv(w) && w.pc.Scanning?
    ensures Inv(Move(w, true))
  {
    hide Rising, Scan, Covered, Matches, OfOperation;
    var v, position := Current(w), w.pc.position;
    if position < |v.evidence| {
      ScanMore(v.evidence, position, w.pc.r);
    } else if Undisturbed(w) {
      assert v.evidence[..position] == v.evidence;
    }
  }

  lemma SecondCheckKeeps(w: World)
    requires Inv(w) && w.pc.CheckingAfter?
    ensures Inv(Move(w, true))
  {
    hide Scan, Covered, OfOperation;
    assert w.checked < |w.history| - 1 ==> w.history[w.checked].high < w.history[|w.history| - 1].high;
  }

  lemma MoveKeeps(w: World, readable: bool)
    requires Inv(w)
    ensures Inv(Step(w, Moves(readable)))
  {
    if readable && w.pc.Scanning? {
      ScanKeeps(w);
    } else if readable && w.pc.CheckingAfter? {
      SecondCheckKeeps(w);
    } else {
      OtherMoveKeeps(w, readable);
    }
    hide Inv, Move;
  }

  lemma OtherMoveKeeps(w: World, readable: bool)
    requires Inv(w) && (readable ==> !w.pc.Scanning? && !w.pc.CheckingAfter?)
    ensures Inv(Move(w, readable))
  {
    hide Rising, Matches, OfOperation;
    if w.pc.CheckingBefore? {
      assert Current(w).evidence[..0] == [];
    }
  }

  lemma {:induction false} RunKeeps(w: World, events: seq<Event>)
    requires Initial(w)
    ensures Inv(Run(w, events))
    decreases |events|
  {
    if events != [] {
      var v, e := Run(w, events[..|events| - 1]), events[|events| - 1];
      RunKeeps(w, events[..|events| - 1]);
      hide Inv, Step, Initial;
      match e
      case Writes(raise, operations, evidence) => WriteKeeps(v, raise, operations, evidence);
      case Moves(readable) => MoveKeeps(v, readable);
    }
  }

  // ------------------------------------------------------------------ theorems

  /** Whatever writes come in between, a returned set is the operation's evidence in the one version whose
      watermark is the cut. */
  lemma {:induction false} ReturnsTheCut(w: World, events: seq<Event>, n: nat)
    requires Initial(w)
    ensures var w' := Run(w, events);
            w'.pc.Returned? ==>
              && (exists m | 0 <= m < |w'.history| :: w'.history[m].high == w'.cut)
              && (n < |w'.history| && w'.history[n].high == w'.cut ==>
                    w'.id in w'.history[n].operations && w'.pc.evidence == EvidenceAt(w'.history[n], w'.id, w'.cut))
  {
    RunKeeps(w, events);
    var w' := Run(w, events);
    hide Run;
    if w'.pc.Returned? && n < |w'.history| && w'.history[n].high == w'.cut {
      assert n == w'.checked;
    }
  }

  /** The moves that read everything without a write in between. */
  function Undisturbing(steps: nat): seq<Event> { seq(steps, _ => Moves(true)) }

  lemma {:induction false} OneMoreMove(w: World, steps: nat)
    requires w.history != []
    ensures Run(w, Undisturbing(steps + 1)) == Move(Run(w, Undisturbing(steps)), true)
  {
    assert Undisturbing(steps + 1)[..steps] == Undisturbing(steps);
    hide Move;
  }

  lemma NoMove(w: World)
    requires w.history != []
    ensures Run(w, Undisturbing(0)) == w
  {
  }

  lemma OneMoreCandidate(w: World)
    requires w.history != [] && w.pc.Scanning? && w.pc.position < |Current(w).evidence|
    ensures var w' := Move(w, true);
            w'.history == w.history && w'.id == w.id && w'.cut == w.cut && w'.pc.Scanning? &&
              w'.pc.position == w.pc.position + 1
  {
  }

  lemma StartsScanning(w: World)
    requires w.history != [] && w.pc.Finding? && w.cut == Current(w).high && w.id in Current(w).operations
    ensures var w' := Move(Move(w, true), true);
            w'.history == w.history && w'.id == w.id && w'.cut == w.cut && w'.pc.Scanning? && w'.pc.position == 0
  {
  }

  lemma {:induction false} ScansToTheEnd(w: World, steps: nat)
    requires w.history != [] && w.pc.Finding? && w.cut == Current(w).high && w.id in Current(w).operations
    requires steps <= |Current(w).evidence|
    ensures var w' := Run(w, Undisturbing(steps + 2));
            w'.history == w.history && w'.id == w.id && w'.cut == w.cut && w'.pc.Scanning? && w'.pc.position == steps
    decreases steps
  {
    hide Run, Undisturbing, Move;
    OneMoreMove(w, steps + 1);
    if steps == 0 {
      NoMove(w);
      OneMoreMove(w, 0);
      StartsScanning(w);
    } else {
      ScansToTheEnd(w, steps - 1);
      OneMoreCandidate(Run(w, Undisturbing(steps + 1)));
    }
  }

  /** A reader that nobody disturbs gets the evidence of its cut. */
  lemma UndisturbedReaderSucceeds(w: World)
    requires Initial(w) && w.cut == Current(w).high && w.id in Current(w).operations
    ensures Run(w, Undisturbing(|Current(w).evidence| + 4)).pc == Returned(EvidenceAt(Current(w), w.id, w.cut))
  {
    hide Run, Undisturbing, OfOperation, Scan, Covered;
    var n := |Current(w).evidence|;
    ScansToTheEnd(w, n);
    OneMoreMove(w, n + 2);
    OneMoreMove(w, n + 3);
    ReturnsTheCut(w, Undisturbing(n + 4), |w.history| - 1);
  }

  lemma StaleStays(w: World, e: Event)
    requires w.history != [] && Current(w).high > w.cut && !w.pc.Returned?
    ensures var w' := Step(w, e); Current(w').high > w'.cut && !w'.pc.Returned? && w'.cut == w.cut
  {
    hide OfOperation, Matches;
  }

  /** Once the watermark has passed the cut, a reader that has not returned never will, in any run. */
  lemma {:induction false} StaleCutIsRefused(w: World, events: seq<Event>)
    requires w.history != [] && Current(w).high > w.cut && !w.pc.Returned?
    ensures var w' := Run(w, events); Current(w').high > w'.cut && !w'.pc.Returned? && w'.cut == w.cut
    decreases |events|
  {
    if events != [] {
      hide Step;
      StaleCutIsRefused(w, events[..|events| - 1]);
      StaleStays(Run(w, events[..|events| - 1]), events[|events| - 1]);
    }
  }

  /** A write that comes anywhere before the second check of a reader whose cut is not in the future means that
      this reader never returns a set. After the first check no cut is in the future. */
  lemma {:induction false} WriteSpoilsTheCut(w: World, before: seq<Event>, write: Event, after: seq<Event>)
    requires Initial(w) && write.Writes?
    requires var v := Run(w, before);
             !v.pc.Returned? && (v.pc.Scanning? || v.pc.CheckingAfter? || v.cut <= Current(v).high)
    ensures !Run(Step(Run(w, before), write), after).pc.Returned?
  {
    RunKeeps(w, before);
    var v := Run(w, before);
    hide Run;
    if v.pc.Scanning? || v.pc.CheckingAfter? {
      assert Checked(v);
      assert v.checked < |v.history| - 1 ==> v.history[v.checked].high < v.history[|v.history| - 1].high;
    }
    StaleCutIsRefused(Step(v, write), after);
  }

  ghost predicate HasWrite(events: seq<Event>) { exists i | 0 <= i < |events| :: events[i].Writes? }

  /** What the failure of a reader that started in `start` tells. */
  ghost predicate CauseOk(start: World, events: seq<Event>, w: World) {
    && start.history != [] && w.history != []
    && w.id == start.id && w.cut == start.cut && |start.history| <= |w.history|
    && w.history[|start.history| - 1] == Current(start)
    && (!HasWrite(events) ==> Current(w) == Current(start))
    && (w.pc == Failed(NotSettled) ==> start.cut != Current(start).high || HasWrite(events))
    && (w.pc == Failed(Unavailable) ==> Moves(false) in events || start.id !in Current(start).operations)
  }

  lemma CauseStep(start: World, events: seq<Event>, w: World, e: Event)
    requires CauseOk(start, events, w) && Rising(w.history)
    ensures CauseOk(start, events + [e], Step(w, e))
  {
    hide OfOperation, Matches;
    var all := events + [e];
    assert forall i | 0 <= i < |events| :: all[i] == events[i];
    assert all[|events|] == e;
    var m, n := |start.history| - 1, |w.history| - 1;
    assert w.id in w.history[m].operations ==> w.id in w.history[n].operations;
  }

  lemma {:induction false} RunHasCauses(w: World, events: seq<Event>)
    requires Initial(w)
    ensures CauseOk(w, events, Run(w, events))
    decreases |events|
  {
    if events != [] {
      var before, e := events[..|events| - 1], events[|events| - 1];
      RunHasCauses(w, before);
      RunKeeps(w, before);
      assert events == before + [e];
      var v := Run(w, before);
      assert Run(w, events) == Step(v, e);
      hide CauseOk, Step, Run, PcOk, Initial;
      CauseStep(w, before, v, e);
    }
  }

  /** A reader reports an unsettled store only when its cut was not the watermark from the start or something
      was written, and an unavailable one only when a read failed or its operation was unknown. */
  lemma {:induction false} FailuresHaveCauses(w: World, events: seq<Event>)
    requires Initial(w)
    ensures var w' := Run(w, events);
            && (w'.pc == Failed(NotSettled) ==> w.cut != Current(w).high || HasWrite(events))
            && (w'.pc == Failed(Unavailable) ==> Moves(false) in events || w.id !in Current(w).operations)
  {
    RunHasCauses(w, events);
    hide Run, HasWrite;
  }

  /** In every run a reader that has not finished makes progress with each of its moves. A move that cannot read
      fails; a check fails exactly when the watermark is not the cut; and an unknown operation fails at once. */
  lemma {:induction false} EveryMoveCounts(w: World, events: seq<Event>, readable: bool)
    requires w.history != []
    ensures var v := Run(w, events);
            var next := Move(v, readable).pc;
            !v.pc.Returned? && !v.pc.Failed? ==>
              && next != v.pc
              && (!readable ==> next == Failed(Unavailable))
              && (readable && v.pc.Finding? ==> (next.Failed? <==> v.id !in Current(v).operations))
              && (readable && (v.pc.CheckingBefore? || v.pc.CheckingAfter?) ==>
                    (next == Failed(NotSettled) <==> Current(v).high != v.cut))
              && (readable && v.pc.Scanning? ==> !next.Failed?)
  {
    hide Run, OfOperation, Matches;
  }
}
