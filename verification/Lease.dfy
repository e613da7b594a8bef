/**
 Directory ownership (internal/ownership/lease_unix.go): reference-counted holders over an exclusive
 kernel lock on a directory, shared explicitly and released at most once per lease.

 Calls of any number of processes interleave at their system calls and critical sections. The kernel
 is modelled by its lock table: a directory is locked through at most one open file, and a lock goes
 when it is unlocked, when its file is closed and when its process dies. Which directory a path names
 is decided at each open.
 */
module Lease {
  import opened Prelude

  type Directory = nat
  type Process = nat

  // --------------------------------------------------------------------- state

  /** Who will close a file; a label that no step looks at. */
  datatype Owner = OfCall(call: nat) | OfHolder(holder: nat)

  datatype File = File(process: Process, dir: Directory, owner: Owner, closes: nat)

  /** The mutex is held by a call; `published` once the acquiring call has succeeded. */
  datatype Holder = Holder(process: Process, dir: Directory, file: nat, acquirer: nat, refs: nat, mutex: Option<nat>,
                           published: bool)

  datatype Once = NotStarted | Running(call: nat) | Finished

  /** `live` until the lease gave its reference back. */
  datatype LeaseState = LeaseState(holder: nat, once: Once, live: bool)

  datatype Error = OwnerAlive | Other

  datatype Result =
    | Acquired(lease: nat)
    | Refused(error: Error, abandoned: Option<nat>)   // the lease abandoned when its owner file could not be written
    | Released(lease: nat)
    | Probed(held: bool)

  datatype Pc =
    | Covering(lease: nat)
    | Comparing(lease: nat, file: nat)
    | Sharing(lease: nat)
    | Opening
    | Opened(file: nat)
    | Failing(file: nat, error: Error)
    | Writing(lease: nat)
    | Releasing(lease: nat, abandoned: bool)
    | Unlocking(lease: nat, abandoned: bool)
    | Closing(lease: nat, abandoned: bool)
    | Awaiting(lease: nat)
    | Probing
    | ProbeOpened(file: nat)
    | ProbeLocked(file: nat)
    | ProbeClosing(file: nat, held: bool)
    | Leaving(result: Result)
    | Returned(result: Result)

  /** `guard` is the emptied holder whose mutex AcquireWith keeps while it acquires afresh. */
  datatype Call = Call(process: Process, pc: Pc, guard: Option<nat>)

  datatype World = World(files: seq<File>, locks: map<Directory, nat>, dead: set<Process>,
                         holders: seq<Holder>, leases: seq<LeaseState>, calls: seq<Call>)

  const INITIAL := World([], map[], {}, [], [], [])

  /** What the environment decides in a step: the directory an open finds, and whether the other system
      calls of the step work. */
  datatype Choice = Choice(dir: Option<Directory>, ok: bool)

  datatype Event =
    | Acquires(process: Process)
    | AcquiresWith(process: Process, lease: nat)
    | Releases(process: Process, lease: nat)
    | Probes(process: Process)
    | Moves(call: nat, choice: Choice)
    | Dies(process: Process)

  // -------------------------------------------------------------------- kernel

  /** The file that locks its directory. */
  predicate Locks(w: World, f: nat)
    requires f < |w.files|
  {
    w.files[f].dir in w.locks && w.locks[w.files[f].dir] == f
  }

  function Unlocked(w: World, f: nat): map<Directory, nat>
    requires f < |w.files|
  {
    if Locks(w, f) then w.locks - {w.files[f].dir} else w.locks
  }

  function Die(w: World, p: Process): World {
    w.(dead := w.dead + {p},
       locks := map d | d in w.locks && !(w.locks[d] < |w.files| && w.files[w.locks[d]].process == p) :: w.locks[d])
  }

  // --------------------------------------------------------------------- steps

  function Goto(w: World, i: nat, pc: Pc): World
    requires i < |w.calls|
  {
    w.(calls := w.calls[i := w.calls[i].(pc := pc)])
  }

  function OpenFile(w: World, i: nat, dir: Directory, pc: Pc): World
    requires i < |w.calls|
  {
    Goto(w, i, pc).(files := w.files + [File(w.calls[i].process, dir, OfCall(i), 0)])
  }

  function CloseFile(w: World, i: nat, f: nat, pc: Pc): World
    requires i < |w.calls| && f < |w.files|
  {
    Goto(w, i, pc).(files := w.files[f := w.files[f].(closes := w.files[f].closes + 1)], locks := Unlocked(w, f))
  }

  /** The lock was free: take it, with a new holder and its first lease. */
  function Take(w: World, i: nat, f: nat): World
    requires i < |w.calls| && f < |w.files|
  {
    var file, h := w.files[f], |w.holders|;
    Goto(w, i, Writing(|w.leases|))
    .(locks := w.locks[file.dir := f],
      files := w.files[f := file.(owner := OfHolder(h))],
      holders := w.holders + [Holder(file.process, file.dir, f, i, 1, None, false)],
      leases := w.leases + [LeaseState(h, NotStarted, true)])
  }

  function Publish(w: World, i: nat, l: nat): World
    requires i < |w.calls| && l < |w.leases| && w.leases[l].holder < |w.holders|
  {
    var h := w.leases[l].holder;
    Goto(w, i, Leaving(Acquired(l))).(holders := w.holders[h := w.holders[h].(published := true)])
  }

  /** AcquireWith under the holder's mutex. */
  function Share(w: World, i: nat, h: nat): World
    requires i < |w.calls| && h < |w.holders|
  {
    if w.holders[h].mutex.Some? then w
    else if w.holders[h].refs == 0 then
      w.(calls := w.calls[i := w.calls[i].(pc := Opening, guard := Some(h))],
         holders := w.holders[h := w.holders[h].(mutex := Some(i))])
    else
      Goto(w, i, Leaving(Acquired(|w.leases|)))
      .(holders := w.holders[h := w.holders[h].(refs := w.holders[h].refs + 1)],
        leases := w.leases + [LeaseState(h, NotStarted, true)])
  }

  function EndOfRelease(l: nat, abandoned: bool): Pc {
    Leaving(if abandoned then Refused(Other, Some(l)) else Released(l))
  }

  /** Release inside its once-guard, when the holder's mutex is free. */
  function GiveBack(w: World, i: nat, l: nat, abandoned: bool): World
    requires i < |w.calls| && l < |w.leases| && w.leases[l].holder < |w.holders|
  {
    var h := w.leases[l].holder;
    if w.holders[h].mutex.Some? then w
    else if w.holders[h].refs == 0 then
      Goto(w, i, EndOfRelease(l, abandoned)).(leases := w.leases[l := w.leases[l].(once := Finished)])
    else if w.holders[h].refs > 1 then
      Goto(w, i, EndOfRelease(l, abandoned))
      .(leases := w.leases[l := w.leases[l].(once := Finished, live := false)],
        holders := w.holders[h := w.holders[h].(refs := w.holders[h].refs - 1)])
    else
      Goto(w, i, Unlocking(l, abandoned))
      .(leases := w.leases[l := w.leases[l].(live := false)],
        holders := w.holders[h := w.holders[h].(refs := 0, mutex := Some(i))])
  }

  function UnlockHolder(w: World, i: nat, l: nat, abandoned: bool): World
    requires i < |w.calls| && l < |w.leases| && w.leases[l].holder < |w.holders|
    requires w.holders[w.leases[l].holder].file < |w.files|
  {
    Goto(w, i, Closing(l, abandoned)).(locks := Unlocked(w, w.holders[w.leases[l].holder].file))
  }

  function CloseHolder(w: World, i: nat, l: nat, abandoned: bool): World
    requires i < |w.calls| && l < |w.leases| && w.leases[l].holder < |w.holders|
    requires w.holders[w.leases[l].holder].file < |w.files|
  {
    var h := w.leases[l].holder;
    CloseFile(w, i, w.holders[h].file, EndOfRelease(l, abandoned))
    .(leases := w.leases[l := w.leases[l].(once := Finished)],
      holders := w.holders[h := w.holders[h].(mutex := None)])
  }

  /** The call returns; the deferred unlock of AcquireWith runs here. */
  function Leave(w: World, i: nat, result: Result): World
    requires i < |w.calls|
  {
    var c := w.calls[i];
    var w' := w.(calls := w.calls[i := c.(pc := Returned(result), guard := None)]);
    if c.guard.Some? && c.guard.value < |w.holders|
    then w'.(holders := w.holders[c.guard.value := w.holders[c.guard.value].(mutex := None)])
    else w'
  }

  predicate HasHolder(w: World, l: nat) {
    && l < |w.leases| && w.leases[l].holder < |w.holders|
    && w.holders[w.leases[l].holder].file < |w.files|
  }

  function Move(w: World, i: nat, choice: Choice): World
    requires i < |w.calls|
  {
    match w.calls[i].pc
    case Covering(l) =>
      if choice.dir.None? then Goto(w, i, Opening) else OpenFile(w, i, choice.dir.value, Comparing(l, |w.files|))
    case Comparing(l, f) =>
      if !HasHolder(w, l) || f >= |w.files| then w
      else
        var same := w.files[f].dir == w.holders[w.leases[l].holder].dir;
        CloseFile(w, i, f, if choice.ok && same then Sharing(l) else Opening)
    case Sharing(l) => if HasHolder(w, l) then Share(w, i, w.leases[l].holder) else w
    case Opening =>
      if choice.dir.None? then Goto(w, i, Leaving(Refused(Other, None)))
      else OpenFile(w, i, choice.dir.value, Opened(|w.files|))
    case Opened(f) =>
      if f >= |w.files| then w
      else if !choice.ok then Goto(w, i, Failing(f, Other))
      else if w.files[f].dir in w.locks then Goto(w, i, Failing(f, OwnerAlive))
      else Take(w, i, f)
    case Failing(f, error) => if f < |w.files| then CloseFile(w, i, f, Leaving(Refused(error, None))) else w
    case Writing(l) =>
      if !HasHolder(w, l) then w
      else if choice.ok then Publish(w, i, l)
      else Goto(w, i, Releasing(l, true)).(leases := w.leases[l := w.leases[l].(once := Running(i))])
    case Releasing(l, abandoned) => if HasHolder(w, l) then GiveBack(w, i, l, abandoned) else w
    case Unlocking(l, abandoned) => if HasHolder(w, l) then UnlockHolder(w, i, l, abandoned) else w
    case Closing(l, abandoned) => if HasHolder(w, l) then CloseHolder(w, i, l, abandoned) else w
    case Awaiting(l) =>
      if l >= |w.leases| || w.leases[l].once.Running? then w
      else if w.leases[l].once.Finished? then Goto(w, i, Leaving(Released(l)))
      else Goto(w, i, Releasing(l, false)).(leases := w.leases[l := w.leases[l].(once := Running(i))])
    case Probing =>
      if choice.dir.None? then Goto(w, i, Leaving(Probed(false)))
      else OpenFile(w, i, choice.dir.value, ProbeOpened(|w.files|))
    case ProbeOpened(f) =>
      if f >= |w.files| then w
      else if !choice.ok then Goto(w, i, ProbeClosing(f, false))
      else if w.files[f].dir in w.locks then Goto(w, i, ProbeClosing(f, true))
      else Goto(w, i, ProbeLocked(f)).(locks := w.locks[w.files[f].dir := f])
    case ProbeLocked(f) =>
      if f < |w.files| then Goto(w, i, ProbeClosing(f, false)).(locks := Unlocked(w, f)) else w
    case ProbeClosing(f, held) => if f < |w.files| then CloseFile(w, i, f, Leaving(Probed(held))) else w
    case Leaving(result) => Leave(w, i, result)
    case Returned(_) => w
  }

  /** A lease a caller of this process can have in its hands. */
  predicate Available(w: World, p: Process, l: nat) {
    HasHolder(w, l) && w.holders[w.leases[l].holder].published && w.holders[w.leases[l].holder].process == p
  }

  function Start(w: World, p: Process, pc: Pc): World { w.(calls := w.calls + [Call(p, pc, None)]) }

  function Step(w: World, e: Event): World {
    match e
    case Acquires(p) => if p in w.dead then w else Start(w, p, Opening)
    case AcquiresWith(p, l) => if p in w.dead || !Available(w, p, l) then w else Start(w, p, Covering(l))
    case Releases(p, l) => if p in w.dead || !Available(w, p, l) then w else Start(w, p, Awaiting(l))
    case Probes(p) => if p in w.dead then w else Start(w, p, Probing)
    case Moves(i, choice) => if i >= |w.calls| || w.calls[i].process in w.dead then w else Move(w, i, choice)
    case Dies(p) => Die(w, p)
  }

  function Run(events: seq<Event>): World {
    if events == [] then INITIAL else Step(Run(events[..|events| - 1]), events[|events| - 1])
  }

  // ----------------------------------------------------------------- invariant

  /** References still out on a holder. */
  function LiveLeases(leases: seq<LeaseState>, h: nat): nat {
    if leases == [] then 0
    else
      var last := leases[|leases| - 1];
      LiveLeases(leases[..|leases| - 1], h) + if last.live && last.holder == h then 1 else 0
  }

  /** The file a call opened and has yet to close. */
  function OpenedFile(pc: Pc): Option<nat> {
    match pc
    case Comparing(_, f) => Some(f)
    case Opened(f) => Some(f)
    case Failing(f, _) => Some(f)
    case ProbeOpened(f) => Some(f)
    case ProbeLocked(f) => Some(f)
    case ProbeClosing(f, _) => Some(f)
    case _ => None
  }

  /** The last reference is gone and the call that returned it has yet to unlock, or to close. */
  predicate Winding(w: World, h: nat, unlocked: bool)
    requires h < |w.holders|
  {
    && w.holders[h].mutex.Some? && w.holders[h].mutex.value < |w.calls|
    && var pc := w.calls[w.holders[h].mutex.value].pc;
       && (if unlocked then pc.Closing? else pc.Unlocking?)
       && pc.lease < |w.leases| && w.leases[pc.lease].holder == h
  }

  predicate StillLocked(w: World, h: nat)
    requires h < |w.holders|
  {
    w.holders[h].refs > 0 || Winding(w, h, false)
  }

  ghost predicate FileOk(w: World, f: nat)
    requires f < |w.files|
  {
    var file := w.files[f];
    match file.owner
    case OfCall(i) =>
      && i < |w.calls| && w.calls[i].process == file.process
      && file.closes == (if OpenedFile(w.calls[i].pc) == Some(f) then 0 else 1)
      && (Locks(w, f) <==> file.process !in w.dead && w.calls[i].pc == ProbeLocked(f))
    case OfHolder(h) =>
      && h < |w.holders| && w.holders[h].file == f
      && w.holders[h].process == file.process && w.holders[h].dir == file.dir
      && file.closes == (if StillLocked(w, h) || Winding(w, h, true) then 0 else 1)
      && (Locks(w, f) <==> file.process !in w.dead && StillLocked(w, h))
  }

  ghost predicate HolderOk(w: World, h: nat)
    requires h < |w.holders|
  {
    var holder := w.holders[h];
    && holder.file < |w.files| && w.files[holder.file].owner == OfHolder(h)
    && holder.refs == LiveLeases(w.leases, h)
    && (!holder.published ==> holder.refs <= 1)
    && (holder.mutex.Some? ==>
          && holder.refs == 0 && holder.mutex.value < |w.calls|
          && w.calls[holder.mutex.value].process == holder.process
          && (w.calls[holder.mutex.value].guard == Some(h) || Winding(w, h, false) || Winding(w, h, true)))
  }

  ghost predicate LeaseOk(w: World, l: nat)
    requires l < |w.leases|
  {
    var lease := w.leases[l];
    && lease.holder < |w.holders|
    && match lease.once
       case NotStarted => lease.live
       case Finished => !lease.live
       case Running(i) =>
         && i < |w.calls|
         && var pc := w.calls[i].pc;
            && (pc.Releasing? || pc.Unlocking? || pc.Closing?) && pc.lease == l
            && (lease.live <==> pc.Releasing?)
  }

  /** The lease exists and belongs to the call's process. */
  ghost predicate Names(w: World, c: Call, l: nat) {
    l < |w.leases| && w.leases[l].holder < |w.holders| && w.holders[w.leases[l].holder].process == c.process
  }

  ghost predicate NamesPublished(w: World, c: Call, l: nat) {
    Names(w, c, l) && w.holders[w.leases[l].holder].published
  }

  /** The lease a call acquired and has not returned. */
  ghost predicate Unpublished(w: World, i: nat, l: nat)
    requires l < |w.leases| && w.leases[l].holder < |w.holders|
  {
    !w.holders[w.leases[l].holder].published && w.holders[w.leases[l].holder].acquirer == i
  }

  /** Between the decision to release and the return of the lock. */
  ghost predicate InRelease(w: World, i: nat, c: Call, l: nat, abandoned: bool) {
    && Names(w, c, l) && w.leases[l].once == Running(i)
    && (if abandoned then Unpublished(w, i, l) else w.holders[w.leases[l].holder].published)
  }

  ghost predicate ResultOk(w: World, i: nat, c: Call, result: Result) {
    match result
    case Acquired(l) => NamesPublished(w, c, l)
    case Refused(_, Some(l)) =>
      && Names(w, c, l) && Unpublished(w, i, l)
      && w.leases[l].once.Finished? && w.holders[w.leases[l].holder].refs == 0
      && w.holders[w.leases[l].holder].mutex.None?
    case Refused(_, None) => true
    case Released(l) => NamesPublished(w, c, l) && w.leases[l].once.Finished?
    case Probed(_) => true
  }

  ghost predicate CallOk(w: World, i: nat)
    requires i < |w.calls|
  {
    var c := w.calls[i];
    && (OpenedFile(c.pc).Some? ==>
          OpenedFile(c.pc).value < |w.files| && w.files[OpenedFile(c.pc).value].owner == OfCall(i))
    && (c.guard.Some? ==>
          && (c.pc.Opening? || c.pc.Opened? || c.pc.Failing? || c.pc.Writing? || c.pc.Leaving? ||
              ((c.pc.Releasing? || c.pc.Unlocking? || c.pc.Closing?) && c.pc.abandoned))
          && c.guard.value < |w.holders| && w.holders[c.guard.value].mutex == Some(i)
          && w.holders[c.guard.value].refs == 0 && w.holders[c.guard.value].published)
    && match c.pc
       case Covering(l) => NamesPublished(w, c, l)
       case Comparing(l, _) => NamesPublished(w, c, l)
       case Sharing(l) => NamesPublished(w, c, l)
       case Awaiting(l) => NamesPublished(w, c, l)
       case Writing(l) => Names(w, c, l) && Unpublished(w, i, l) && w.leases[l].once == NotStarted
       case Releasing(l, abandoned) => InRelease(w, i, c, l, abandoned)
       case Unlocking(l, abandoned) =>
         InRelease(w, i, c, l, abandoned) && w.holders[w.leases[l].holder].mutex == Some(i)
       case Closing(l, abandoned) => InRelease(w, i, c, l, abandoned) && w.holders[w.leases[l].holder].mutex == Some(i)
       case Leaving(result) => ResultOk(w, i, c, result)
       case Returned(result) => ResultOk(w, i, c, result)
       case _ => true
  }

  ghost predicate LocksOk(w: World) {
    forall d | d in w.locks :: w.locks[d] < |w.files| && w.files[w.locks[d]].dir == d
  }

  ghost predicate FilesOk(w: World) { forall f | 0 <= f < |w.files| :: FileOk(w, f) }
  ghost predicate HoldersOk(w: World) { forall h | 0 <= h < |w.holders| :: HolderOk(w, h) }
  ghost predicate LeasesOk(w: World) { forall l | 0 <= l < |w.leases| :: LeaseOk(w, l) }
  ghost predicate CallsOk(w: World) { forall i | 0 <= i < |w.calls| :: CallOk(w, i) }

  ghost predicate Inv(w: World) {
    LocksOk(w) && FilesOk(w) && HoldersOk(w) && LeasesOk(w) && CallsOk(w)
  }

  lemma {:induction false} LiveUpdate(leases: seq<LeaseState>, h: nat, l: nat, lease: LeaseState)
    requires l < |leases| && lease.holder == leases[l].holder
    ensures LiveLeases(leases[l := lease], h) ==
            LiveLeases(leases, h) - (if leases[l].live && leases[l].holder == h then 1 else 0)
                                  + (if lease.live && lease.holder == h then 1 else 0)
    decreases |leases|
  {
    var rest, l' := leases[..|leases| - 1], leases[l := lease];
    if l < |rest| {
      LiveUpdate(rest, h, l, lease);
      assert l'[..|l'| - 1] == rest[l := lease];
    } else {
      assert l'[..|l'| - 1] == rest;
    }
  }

  lemma {:induction false} LiveCounted(leases: seq<LeaseState>, l: nat)
    requires l < |leases| && leases[l].live
    ensures LiveLeases(leases, leases[l].holder) >= 1
    decreases |leases|
  {
    if l < |leases| - 1 {
      LiveCounted(leases[..|leases| - 1], l);
    }
  }

  lemma {:induction false} NoLeasesYet(leases: seq<LeaseState>, h: nat)
    requires forall l | 0 <= l < |leases| :: leases[l].holder < h
    ensures LiveLeases(leases, h) == 0
    decreases |leases|
  {
    if leases != [] {
      NoLeasesYet(leases[..|leases| - 1], h);
    }
  }

  lemma LiveAppend(leases: seq<LeaseState>, h: nat, lease: LeaseState)
    ensures LiveLeases(leases + [lease], h) == LiveLeases(leases, h) + if lease.live && lease.holder == h then 1 else 0
  {
    assert (leases + [lease])[..|leases|] == leases;
  }

  ghost predicate NotReleasing(pc: Pc) { !pc.Releasing? && !pc.Unlocking? && !pc.Closing? }

  lemma Parts(w: World)
    requires Inv(w)
    ensures LocksOk(w)
    ensures forall f | 0 <= f < |w.files| :: FileOk(w, f)
    ensures forall h | 0 <= h < |w.holders| :: HolderOk(w, h)
    ensures forall l | 0 <= l < |w.leases| :: LeaseOk(w, l)
    ensures forall i | 0 <= i < |w.calls| :: CallOk(w, i)
  {
  }

  lemma Whole(w: World)
    requires LocksOk(w)
    requires forall f | 0 <= f < |w.files| :: FileOk(w, f)
    requires forall h | 0 <= h < |w.holders| :: HolderOk(w, h)
    requires forall l | 0 <= l < |w.leases| :: LeaseOk(w, l)
    requires forall i | 0 <= i < |w.calls| :: CallOk(w, i)
    ensures Inv(w)
  {
  }

  /** A step that changes nothing but where one call is. */
  lemma GotoKeeps(w: World, i: nat, pc: Pc)
    requires Inv(w) && i < |w.calls| && CallOk(Goto(w, i, pc), i)
    requires OpenedFile(w.calls[i].pc) == OpenedFile(pc) && !w.calls[i].pc.ProbeLocked? && !pc.ProbeLocked?
    requires NotReleasing(w.calls[i].pc) && NotReleasing(pc)
    ensures Inv(Goto(w, i, pc))
  {
    hide LiveLeases, Inv, FilesOk, HoldersOk, LeasesOk, CallsOk;
    Parts(w);
    var w' := Goto(w, i, pc);
    forall f | 0 <= f < |w'.files| ensures FileOk(w', f) { assert FileOk(w, f); }
    forall h | 0 <= h < |w'.holders| ensures HolderOk(w', h) { assert HolderOk(w, h); }
    forall l | 0 <= l < |w'.leases| ensures LeaseOk(w', l) { assert LeaseOk(w, l); }
    forall j | 0 <= j < |w'.calls| ensures CallOk(w', j) { assert CallOk(w, j); }
    Whole(w');
  }

  lemma OpenFileKeeps(w: World, i: nat, dir: Directory, pc: Pc)
    requires Inv(w) && i < |w.calls| && CallOk(OpenFile(w, i, dir, pc), i)
    requires OpenedFile(w.calls[i].pc).None? && OpenedFile(pc) == Some(|w.files|) && !pc.ProbeLocked?
    requires NotReleasing(w.calls[i].pc) && NotReleasing(pc)
    ensures Inv(OpenFile(w, i, dir, pc))
  {
    hide LiveLeases, Inv, FilesOk, HoldersOk, LeasesOk, CallsOk;
    Parts(w);
    var w' := OpenFile(w, i, dir, pc);
    forall f | 0 <= f < |w'.files| ensures FileOk(w', f) { if f < |w.files| { assert FileOk(w, f); } }
    forall h | 0 <= h < |w'.holders| ensures HolderOk(w', h) { assert HolderOk(w, h); }
    forall l | 0 <= l < |w'.leases| ensures LeaseOk(w', l) { assert LeaseOk(w, l); }
    forall j | 0 <= j < |w'.calls| ensures CallOk(w', j) { assert CallOk(w, j); }
    Whole(w');
  }

  lemma CloseFileKeeps(w: World, i: nat, f0: nat, pc: Pc)
    requires Inv(w) && i < |w.calls| && f0 < |w.files| && CallOk(CloseFile(w, i, f0, pc), i)
    requires OpenedFile(w.calls[i].pc) == Some(f0) && OpenedFile(pc).None? && !w.calls[i].pc.ProbeLocked?
    requires NotReleasing(pc)
    ensures Inv(CloseFile(w, i, f0, pc))
  {
    hide LiveLeases, Inv, FilesOk, HoldersOk, LeasesOk, CallsOk;
    Parts(w);
    var w' := CloseFile(w, i, f0, pc);
    assert CallOk(w, i) && FileOk(w, f0);
    assert w'.locks == w.locks;
    forall f | 0 <= f < |w'.files| ensures FileOk(w', f) { assert FileOk(w, f); }
    forall h | 0 <= h < |w'.holders| ensures HolderOk(w', h) { assert HolderOk(w, h); }
    forall l | 0 <= l < |w'.leases| ensures LeaseOk(w', l) { assert LeaseOk(w, l); }
    forall j | 0 <= j < |w'.calls| ensures CallOk(w', j) { assert CallOk(w, j); }
    Whole(w');
  }

  lemma ProbeLockKeeps(w: World, i: nat, f0: nat)
    requires Inv(w) && i < |w.calls| && w.calls[i].pc == ProbeOpened(f0) && w.calls[i].process !in w.dead
    requires f0 < |w.files| && w.files[f0].dir !in w.locks
    ensures Inv(Goto(w, i, ProbeLocked(f0)).(locks := w.locks[w.files[f0].dir := f0]))
  {
    hide LiveLeases, Inv, FilesOk, HoldersOk, LeasesOk, CallsOk;
    Parts(w);
    var w' := Goto(w, i, ProbeLocked(f0)).(locks := w.locks[w.files[f0].dir := f0]);
    assert CallOk(w, i);
    forall f | 0 <= f < |w'.files| ensures FileOk(w', f) { assert FileOk(w, f); }
    forall h | 0 <= h < |w'.holders| ensures HolderOk(w', h) { assert HolderOk(w, h); }
    forall l | 0 <= l < |w'.leases| ensures LeaseOk(w', l) { assert LeaseOk(w, l); }
    forall j | 0 <= j < |w'.calls| ensures CallOk(w', j) { assert CallOk(w, j); }
    Whole(w');
  }

  lemma ProbeUnlockKeeps(w: World, i: nat, f0: nat)
    requires Inv(w) && i < |w.calls| && w.calls[i].pc == ProbeLocked(f0) && w.calls[i].process !in w.dead
    requires f0 < |w.files|
    ensures Inv(Goto(w, i, ProbeClosing(f0, false)).(locks := Unlocked(w, f0)))
  {
    hide LiveLeases, Inv, FilesOk, HoldersOk, LeasesOk, CallsOk;
    Parts(w);
    var w' := Goto(w, i, ProbeClosing(f0, false)).(locks := Unlocked(w, f0));
    assert CallOk(w, i) && FileOk(w, f0);
    forall f | 0 <= f < |w'.files| ensures FileOk(w', f) { assert FileOk(w, f); }
    forall h | 0 <= h < |w'.holders| ensures HolderOk(w', h) { assert HolderOk(w, h); }
    forall l | 0 <= l < |w'.leases| ensures LeaseOk(w', l) { assert LeaseOk(w, l); }
    forall j | 0 <= j < |w'.calls| ensures CallOk(w', j) { assert CallOk(w, j); }
    Whole(w');
  }

  /** What a step of call `i` leaves alone of a holder: one whose mutex another call holds, and one whose only
      lease was abandoned. */
  ghost predicate HolderKept(a: Holder, b: Holder, i: nat) {
    && a.process == b.process && a.published == b.published && a.acquirer == b.acquirer
    && ((a.mutex.Some? && a.mutex != Some(i)) || (a.mutex.None? && a.refs == 0 && !a.published) ==>
          a.refs == b.refs && a.mutex == b.mutex)
  }

  /** The calls of others stay in order through a step of call `i` that leaves their files, holders and leases
      alone. */
  lemma CallStays(w: World, w': World, i: nat, j: nat)
    requires j < |w.calls| && j < |w'.calls| && j != i && CallOk(w, j) && w'.calls[j] == w.calls[j]
    requires |w.files| <= |w'.files| && |w.holders| <= |w'.holders| && |w.leases| <= |w'.leases|
    requires forall f | 0 <= f < |w.files| && w.files[f].owner == OfCall(j) :: w'.files[f].owner == OfCall(j)
    requires forall h | 0 <= h < |w.holders| :: HolderKept(w.holders[h], w'.holders[h], i)
    requires forall l | 0 <= l < |w.leases| ::
               && w'.leases[l].holder == w.leases[l].holder
               && (w'.leases[l].once == w.leases[l].once || w.leases[l].once == Running(i))
    ensures CallOk(w', j)
  {
  }

  lemma TakeKeepsTables(w: World, i: nat, f0: nat)
    requires Inv(w) && i < |w.calls| && w.calls[i].pc == Opened(f0) && w.calls[i].process !in w.dead
    requires f0 < |w.files| && w.files[f0].dir !in w.locks
    ensures var w' := Take(w, i, f0); LocksOk(w') && FilesOk(w') && HoldersOk(w')
  {
    hide LiveLeases, Inv, LeasesOk, CallsOk, ResultOk;
    Parts(w);
    var w' := Take(w, i, f0);
    assert CallOk(w, i) && FileOk(w, f0);
    var h0 := |w.holders|;
    forall f | 0 <= f < |w'.files| ensures FileOk(w', f) { assert FileOk(w, f); }
    forall h | 0 <= h < |w'.holders|
      ensures HolderOk(w', h)
    {
      LiveAppend(w.leases, h, LeaseState(h0, NotStarted, true));
      if h < h0 {
        assert HolderOk(w, h);
      } else {
        forall l | 0 <= l < |w.leases|
          ensures w.leases[l].holder < h0
        {
          assert LeaseOk(w, l);
        }
        NoLeasesYet(w.leases, h0);
      }
    }
  }

  lemma TakeKeepsCalls(w: World, i: nat, f0: nat)
    requires Inv(w) && i < |w.calls| && w.calls[i].pc == Opened(f0) && w.calls[i].process !in w.dead
    requires f0 < |w.files| && w.files[f0].dir !in w.locks
    ensures var w' := Take(w, i, f0); LeasesOk(w') && CallsOk(w')
  {
    hide LiveLeases, Inv, FilesOk, HoldersOk;
    Parts(w);
    var w' := Take(w, i, f0);
    assert CallOk(w, i) && FileOk(w, f0);
    var h0 := |w.holders|;
    forall l | 0 <= l < |w'.leases| ensures LeaseOk(w', l) { if l < |w.leases| { assert LeaseOk(w, l); } }
    forall j | 0 <= j < |w'.calls|
      ensures CallOk(w', j)
    {
      if j != i {
        CallStays(w, w', i, j);
      }
    }
  }

  lemma TakeKeeps(w: World, i: nat, f0: nat)
    requires Inv(w) && i < |w.calls| && w.calls[i].pc == Opened(f0) && w.calls[i].process !in w.dead
    requires f0 < |w.files| && w.files[f0].dir !in w.locks
    ensures Inv(Take(w, i, f0))
  {
    TakeKeepsTables(w, i, f0);
    TakeKeepsCalls(w, i, f0);
    hide LocksOk, FilesOk, HoldersOk, LeasesOk, CallsOk;
  }

  lemma PublishKeeps(w: World, i: nat, l0: nat)
    requires Inv(w) && i < |w.calls| && w.calls[i].pc == Writing(l0) && HasHolder(w, l0)
    ensures Inv(Publish(w, i, l0))
  {
    hide LiveLeases, Inv, FilesOk, HoldersOk, LeasesOk, CallsOk;
    Parts(w);
    var w' := Publish(w, i, l0);
    assert CallOk(w, i) && LeaseOk(w, l0);
    forall f | 0 <= f < |w'.files| ensures FileOk(w', f) { assert FileOk(w, f); }
    forall h | 0 <= h < |w'.holders| ensures HolderOk(w', h) { assert HolderOk(w, h); }
    forall l | 0 <= l < |w'.leases| ensures LeaseOk(w', l) { assert LeaseOk(w, l); }
    forall j | 0 <= j < |w'.calls| ensures CallOk(w', j) { assert CallOk(w, j); }
    Whole(w');
  }

  /** The emptied holder is guarded: only its mutex changes. */
  lemma GuardKeepsTables(w: World, i: nat, l0: nat)
    requires Inv(w) && i < |w.calls| && w.calls[i].pc == Sharing(l0) && HasHolder(w, l0)
    requires w.holders[w.leases[l0].holder].refs == 0
    ensures var w' := Share(w, i, w.leases[l0].holder); LocksOk(w') && FilesOk(w') && HoldersOk(w')
  {
    hide LiveLeases, Inv, LeasesOk, CallsOk, ResultOk;
    Parts(w);
    var w' := Share(w, i, w.leases[l0].holder);
    assert CallOk(w, i) && HolderOk(w, w.leases[l0].holder);
    forall f | 0 <= f < |w'.files| ensures FileOk(w', f) { assert FileOk(w, f); }
    forall h | 0 <= h < |w'.holders| ensures HolderOk(w', h) { assert HolderOk(w, h); }
  }

  /** The holder is shared: one more reference and one more lease. */
  lemma ReferenceKeepsTables(w: World, i: nat, l0: nat)
    requires Inv(w) && i < |w.calls| && w.calls[i].pc == Sharing(l0) && HasHolder(w, l0)
    requires w.holders[w.leases[l0].holder].refs > 0
    ensures var w' := Share(w, i, w.leases[l0].holder); LocksOk(w') && FilesOk(w') && HoldersOk(w')
  {
    hide LiveLeases, Inv, LeasesOk, CallsOk, ResultOk;
    Parts(w);
    var h0 := w.leases[l0].holder;
    var w' := Share(w, i, h0);
    assert CallOk(w, i) && HolderOk(w, h0);
    forall f | 0 <= f < |w'.files| ensures FileOk(w', f) { assert FileOk(w, f); }
    forall h | 0 <= h < |w'.holders|
      ensures HolderOk(w', h)
    {
      LiveAppend(w.leases, h, LeaseState(h0, NotStarted, true));
      assert HolderOk(w, h);
    }
  }

  lemma ShareKeepsTables(w: World, i: nat, l0: nat)
    requires Inv(w) && i < |w.calls| && w.calls[i].pc == Sharing(l0) && HasHolder(w, l0)
    ensures var w' := Share(w, i, w.leases[l0].holder); LocksOk(w') && FilesOk(w') && HoldersOk(w')
  {
    if w.holders[w.leases[l0].holder].refs == 0 {
      GuardKeepsTables(w, i, l0);
    } else {
      ReferenceKeepsTables(w, i, l0);
    }
    hide Share, Inv, LocksOk, FilesOk, HoldersOk;
  }

  lemma ShareKeepsOwnCall(w: World, i: nat, l0: nat)
    requires Inv(w) && i < |w.calls| && w.calls[i].pc == Sharing(l0) && HasHolder(w, l0)
    ensures CallOk(Share(w, i, w.leases[l0].holder), i)
  {
    Parts(w);
    assert CallOk(w, i);
    hide Inv, FilesOk, HoldersOk, LeasesOk, CallsOk, FileOk, LiveLeases, LocksOk;
    assert HolderOk(w, w.leases[l0].holder) && LeaseOk(w, l0);
  }

  lemma ShareKeepsCalls(w: World, i: nat, l0: nat)
    requires Inv(w) && i < |w.calls| && w.calls[i].pc == Sharing(l0) && HasHolder(w, l0)
    ensures var w' := Share(w, i, w.leases[l0].holder); LeasesOk(w') && CallsOk(w')
  {
    hide LiveLeases, Inv, FilesOk, HoldersOk, FileOk, ResultOk, InRelease;
    Parts(w);
    var w' := Share(w, i, w.leases[l0].holder);
    var h0 := w.leases[l0].holder;
    assert CallOk(w, i) && HolderOk(w, h0);
    forall l | 0 <= l < |w'.leases| ensures LeaseOk(w', l) { if l < |w.leases| { assert LeaseOk(w, l); } }
    forall j | 0 <= j < |w'.calls|
      ensures CallOk(w', j)
    {
      if j == i {
        ShareKeepsOwnCall(w, i, l0);
      } else {
        CallStays(w, w', i, j);
      }
    }
  }

  lemma ShareKeeps(w: World, i: nat, l0: nat)
    requires Inv(w) && i < |w.calls| && w.calls[i].pc == Sharing(l0) && HasHolder(w, l0)
    ensures Inv(Share(w, i, w.leases[l0].holder))
  {
    ShareKeepsTables(w, i, l0);
    ShareKeepsCalls(w, i, l0);
    hide LocksOk, FilesOk, HoldersOk, LeasesOk, CallsOk;
  }

  /** Entering the once-guard: an abandoned acquisition, or a release call. */
  lemma EnterReleaseKeepsTables(w: World, i: nat, l0: nat, abandoned: bool)
    requires Inv(w) && i < |w.calls| && l0 < |w.leases| && w.leases[l0].once.NotStarted?
    requires w.calls[i].pc == if abandoned then Writing(l0) else Awaiting(l0)
    ensures var leases := w.leases[l0 := w.leases[l0].(once := Running(i))];
            var w' := Goto(w, i, Releasing(l0, abandoned)).(leases := leases);
            LocksOk(w') && FilesOk(w') && HoldersOk(w')
  {
    hide LiveLeases, Inv, LeasesOk, CallsOk, ResultOk;
    Parts(w);
    var w' := Goto(w, i, Releasing(l0, abandoned)).(leases := w.leases[l0 := w.leases[l0].(once := Running(i))]);
    assert CallOk(w, i) && LeaseOk(w, l0);
    forall f | 0 <= f < |w'.files| ensures FileOk(w', f) { assert FileOk(w, f); }
    forall h | 0 <= h < |w'.holders|
      ensures HolderOk(w', h)
    {
      LiveUpdate(w.leases, h, l0, w'.leases[l0]);
      assert HolderOk(w, h);
    }
  }

  lemma EnterReleaseKeepsCalls(w: World, i: nat, l0: nat, abandoned: bool)
    requires Inv(w) && i < |w.calls| && l0 < |w.leases| && w.leases[l0].once.NotStarted?
    requires w.calls[i].pc == if abandoned then Writing(l0) else Awaiting(l0)
    ensures var leases := w.leases[l0 := w.leases[l0].(once := Running(i))];
            var w' := Goto(w, i, Releasing(l0, abandoned)).(leases := leases);
            LeasesOk(w') && CallsOk(w')
  {
    hide LiveLeases, Inv, FilesOk, HoldersOk, FileOk;
    Parts(w);
    var w' := Goto(w, i, Releasing(l0, abandoned)).(leases := w.leases[l0 := w.leases[l0].(once := Running(i))]);
    assert CallOk(w, i) && LeaseOk(w, l0);
    forall l | 0 <= l < |w'.leases| ensures LeaseOk(w', l) { assert LeaseOk(w, l); }
    forall j | 0 <= j < |w'.calls| ensures CallOk(w', j) { assert CallOk(w, j); }
  }

  lemma EnterReleaseKeeps(w: World, i: nat, l0: nat, abandoned: bool)
    requires Inv(w) && i < |w.calls| && l0 < |w.leases| && w.leases[l0].once.NotStarted?
    requires w.calls[i].pc == if abandoned then Writing(l0) else Awaiting(l0)
    ensures Inv(Goto(w, i, Releasing(l0, abandoned)).(leases := w.leases[l0 := w.leases[l0].(once := Running(i))]))
  {
    EnterReleaseKeepsTables(w, i, l0, abandoned);
    EnterReleaseKeepsCalls(w, i, l0, abandoned);
    hide LocksOk, FilesOk, HoldersOk, LeasesOk, CallsOk;
  }

  lemma GiveBackKeepsTables(w: World, i: nat, l0: nat, abandoned: bool)
    requires Inv(w) && i < |w.calls| && w.calls[i].pc == Releasing(l0, abandoned) && HasHolder(w, l0)
    ensures var w' := GiveBack(w, i, l0, abandoned); LocksOk(w') && FilesOk(w') && HoldersOk(w')
  {
    hide LiveLeases, Inv, LeasesOk, CallsOk, ResultOk;
    Parts(w);
    var w' := GiveBack(w, i, l0, abandoned);
    var h0 := w.leases[l0].holder;
    assert CallOk(w, i) && LeaseOk(w, l0) && HolderOk(w, h0);
    LiveCounted(w.leases, l0);
    forall f | 0 <= f < |w'.files| ensures FileOk(w', f) { assert FileOk(w, f); }
    forall h | 0 <= h < |w'.holders|
      ensures HolderOk(w', h)
    {
      LiveUpdate(w.leases, h, l0, w'.leases[l0]);
      assert HolderOk(w, h);
    }
  }

  lemma GiveBackKeepsOwnCall(w: World, i: nat, l0: nat, abandoned: bool)
    requires Inv(w) && i < |w.calls| && w.calls[i].pc == Releasing(l0, abandoned) && HasHolder(w, l0)
    ensures CallOk(GiveBack(w, i, l0, abandoned), i)
  {
    Parts(w);
    assert CallOk(w, i);
    hide Inv, FilesOk, HoldersOk, LeasesOk, CallsOk, FileOk, LiveLeases, LocksOk;
    assert HolderOk(w, w.leases[l0].holder) && LeaseOk(w, l0);
    LiveCounted(w.leases, l0);
  }

  lemma GiveBackKeepsCalls(w: World, i: nat, l0: nat, abandoned: bool)
    requires Inv(w) && i < |w.calls| && w.calls[i].pc == Releasing(l0, abandoned) && HasHolder(w, l0)
    ensures var w' := GiveBack(w, i, l0, abandoned); LeasesOk(w') && CallsOk(w')
  {
    hide LiveLeases, Inv, FilesOk, HoldersOk, FileOk;
    Parts(w);
    var w' := GiveBack(w, i, l0, abandoned);
    var h0 := w.leases[l0].holder;
    assert CallOk(w, i) && LeaseOk(w, l0) && HolderOk(w, h0);
    LiveCounted(w.leases, l0);
    forall l | 0 <= l < |w'.leases| ensures LeaseOk(w', l) { assert LeaseOk(w, l); }
    forall j | 0 <= j < |w'.calls|
      ensures CallOk(w', j)
    {
      if j == i {
        GiveBackKeepsOwnCall(w, i, l0, abandoned);
      } else {
        CallStays(w, w', i, j);
      }
    }
  }

  lemma GiveBackKeeps(w: World, i: nat, l0: nat, abandoned: bool)
    requires Inv(w) && i < |w.calls| && w.calls[i].pc == Releasing(l0, abandoned) && HasHolder(w, l0)
    ensures Inv(GiveBack(w, i, l0, abandoned))
  {
    GiveBackKeepsTables(w, i, l0, abandoned);
    GiveBackKeepsCalls(w, i, l0, abandoned);
    hide LocksOk, FilesOk, HoldersOk, LeasesOk, CallsOk;
  }

  lemma UnlockHolderKeeps(w: World, i: nat, l0: nat, abandoned: bool)
    requires Inv(w) && i < |w.calls| && w.calls[i].pc == Unlocking(l0, abandoned) && HasHolder(w, l0)
    ensures Inv(UnlockHolder(w, i, l0, abandoned))
  {
    hide LiveLeases, Inv, FilesOk, HoldersOk, LeasesOk, CallsOk;
    Parts(w);
    var w' := UnlockHolder(w, i, l0, abandoned);
    var h0 := w.leases[l0].holder;
    assert CallOk(w, i) && LeaseOk(w, l0) && HolderOk(w, h0) && FileOk(w, w.holders[h0].file);
    forall f | 0 <= f < |w'.files| ensures FileOk(w', f) { assert FileOk(w, f); }
    forall h | 0 <= h < |w'.holders| ensures HolderOk(w', h) { assert HolderOk(w, h); }
    forall l | 0 <= l < |w'.leases| ensures LeaseOk(w', l) { assert LeaseOk(w, l); }
    forall j | 0 <= j < |w'.calls| ensures CallOk(w', j) { assert CallOk(w, j); }
    Whole(w');
  }

  lemma CloseHolderKeepsTables(w: World, i: nat, l0: nat, abandoned: bool)
    requires Inv(w) && i < |w.calls| && w.calls[i].pc == Closing(l0, abandoned) && HasHolder(w, l0)
    ensures var w' := CloseHolder(w, i, l0, abandoned); LocksOk(w') && FilesOk(w') && HoldersOk(w')
  {
    hide LiveLeases, Inv, LeasesOk, CallsOk, ResultOk;
    Parts(w);
    var w' := CloseHolder(w, i, l0, abandoned);
    var h0 := w.leases[l0].holder;
    assert CallOk(w, i) && LeaseOk(w, l0) && HolderOk(w, h0) && FileOk(w, w.holders[h0].file);
    forall f | 0 <= f < |w'.files| ensures FileOk(w', f) { assert FileOk(w, f); }
    forall h | 0 <= h < |w'.holders|
      ensures HolderOk(w', h)
    {
      LiveUpdate(w.leases, h, l0, w'.leases[l0]);
      assert HolderOk(w, h);
    }
  }

  lemma CloseHolderKeepsCalls(w: World, i: nat, l0: nat, abandoned: bool)
    requires Inv(w) && i < |w.calls| && w.calls[i].pc == Closing(l0, abandoned) && HasHolder(w, l0)
    ensures var w' := CloseHolder(w, i, l0, abandoned); LeasesOk(w') && CallsOk(w')
  {
    hide LiveLeases, Inv, FilesOk, HoldersOk, FileOk;
    Parts(w);
    var w' := CloseHolder(w, i, l0, abandoned);
    var h0 := w.leases[l0].holder;
    assert CallOk(w, i) && LeaseOk(w, l0) && HolderOk(w, h0);
    forall l | 0 <= l < |w'.leases| ensures LeaseOk(w', l) { assert LeaseOk(w, l); }
    forall j | 0 <= j < |w'.calls|
      ensures CallOk(w', j)
    {
      if j != i {
        CallStays(w, w', i, j);
      }
    }
  }

  lemma CloseHolderKeeps(w: World, i: nat, l0: nat, abandoned: bool)
    requires Inv(w) && i < |w.calls| && w.calls[i].pc == Closing(l0, abandoned) && HasHolder(w, l0)
    ensures Inv(CloseHolder(w, i, l0, abandoned))
  {
    CloseHolderKeepsTables(w, i, l0, abandoned);
    CloseHolderKeepsCalls(w, i, l0, abandoned);
    hide LocksOk, FilesOk, HoldersOk, LeasesOk, CallsOk;
  }

  lemma LeaveKeepsTables(w: World, i: nat, result: Result)
    requires Inv(w) && i < |w.calls| && w.calls[i].pc == Leaving(result)
    ensures var w' := Leave(w, i, result); LocksOk(w') && FilesOk(w') && HoldersOk(w')
  {
    hide LiveLeases, Inv, LeasesOk, CallsOk, ResultOk;
    Parts(w);
    var w' := Leave(w, i, result);
    assert CallOk(w, i);
    forall f | 0 <= f < |w'.files| ensures FileOk(w', f) { assert FileOk(w, f); }
    forall h | 0 <= h < |w'.holders| ensures HolderOk(w', h) { assert HolderOk(w, h); }
  }

  lemma LeaveKeepsCalls(w: World, i: nat, result: Result)
    requires Inv(w) && i < |w.calls| && w.calls[i].pc == Leaving(result)
    ensures var w' := Leave(w, i, result); LeasesOk(w') && CallsOk(w')
  {
    hide LiveLeases, Inv, FilesOk, HoldersOk, FileOk;
    Parts(w);
    var w' := Leave(w, i, result);
    assert CallOk(w, i);
    forall l | 0 <= l < |w'.leases| ensures LeaseOk(w', l) { assert LeaseOk(w, l); }
    forall j | 0 <= j < |w'.calls|
      ensures CallOk(w', j)
    {
      if j != i {
        CallStays(w, w', i, j);
      }
    }
  }

  lemma LeaveKeeps(w: World, i: nat, result: Result)
    requires Inv(w) && i < |w.calls| && w.calls[i].pc == Leaving(result)
    ensures Inv(Leave(w, i, result))
  {
    LeaveKeepsTables(w, i, result);
    LeaveKeepsCalls(w, i, result);
    hide LocksOk, FilesOk, HoldersOk, LeasesOk, CallsOk;
  }

  lemma StartKeeps(w: World, p: Process, pc: Pc)
    requires Inv(w)
    requires pc.Opening? || pc.Probing? || ((pc.Covering? || pc.Awaiting?) && Available(w, p, pc.lease))
    ensures Inv(Start(w, p, pc))
  {
    hide LiveLeases, Inv, FilesOk, HoldersOk, LeasesOk, CallsOk;
    Parts(w);
    var w' := Start(w, p, pc);
    forall f | 0 <= f < |w'.files| ensures FileOk(w', f) { assert FileOk(w, f); }
    forall h | 0 <= h < |w'.holders| ensures HolderOk(w', h) { assert HolderOk(w, h); }
    forall l | 0 <= l < |w'.leases| ensures LeaseOk(w', l) { assert LeaseOk(w, l); }
    forall j | 0 <= j < |w'.calls| ensures CallOk(w', j) { if j < |w.calls| { assert CallOk(w, j); } }
    Whole(w');
  }

  lemma DieKeeps(w: World, p: Process)
    requires Inv(w)
    ensures Inv(Die(w, p))
  {
    hide LiveLeases, Inv, FilesOk, HoldersOk, LeasesOk, CallsOk;
    Parts(w);
    var w' := Die(w, p);
    forall f | 0 <= f < |w'.files| ensures FileOk(w', f) { assert FileOk(w, f); }
    forall h | 0 <= h < |w'.holders| ensures HolderOk(w', h) { assert HolderOk(w, h); }
    forall l | 0 <= l < |w'.leases| ensures LeaseOk(w', l) { assert LeaseOk(w, l); }
    forall j | 0 <= j < |w'.calls| ensures CallOk(w', j) { assert CallOk(w, j); }
    Whole(w');
  }

  ghost predicate Acquiring(pc: Pc) {
    pc.Covering? || pc.Comparing? || pc.Sharing? || pc.Opening? || pc.Opened? || pc.Failing? || pc.Writing?
  }

  lemma MoveKeeps(w: World, i: nat, choice: Choice)
    requires Inv(w) && i < |w.calls| && w.calls[i].process !in w.dead
    ensures Inv(Move(w, i, choice))
  {
    hide Inv, Move;
    var pc := w.calls[i].pc;
    if Acquiring(pc) {
      AcquireMoveKeeps(w, i, choice);
    } else {
      OtherMoveKeeps(w, i, choice);
    }
  }

  lemma AcquireMoveKeeps(w: World, i: nat, choice: Choice)
    requires Inv(w) && i < |w.calls| && w.calls[i].process !in w.dead
    requires Acquiring(w.calls[i].pc)
    ensures Inv(Move(w, i, choice))
  {
    Parts(w);
    assert CallOk(w, i);
    hide Inv, LocksOk, FileOk, HolderOk, LeaseOk, OpenFile, CloseFile, Take, Publish, Share, GiveBack, UnlockHolder,
      CloseHolder, Leave;
    match w.calls[i].pc
    case Covering(l) =>
      if choice.dir.None? { GotoKeeps(w, i, Opening); } else { OpenCoveredKeeps(w, i, l, choice.dir.value); }
    case Comparing(l, f) =>
      if HasHolder(w, l) && f < |w.files| { CompareKeeps(w, i, l, f, choice.ok); }
    case Sharing(l) => if HasHolder(w, l) { ShareKeeps(w, i, l); }
    case Opening =>
      if choice.dir.None? {
        GotoKeeps(w, i, Leaving(Refused(Other, None)));
      } else {
        OpenKeeps(w, i, choice.dir.value, Opened(|w.files|));
      }
    case Opened(f) =>
      if f < |w.files| {
        if !choice.ok { GotoKeeps(w, i, Failing(f, Other)); }
        else if w.files[f].dir in w.locks { GotoKeeps(w, i, Failing(f, OwnerAlive)); }
        else { TakeKeeps(w, i, f); }
      }
    case Failing(f, error) => if f < |w.files| { CloseToLeaveKeeps(w, i, f, Refused(error, None)); }
    case Writing(l) =>
      if HasHolder(w, l) {
        if choice.ok { PublishKeeps(w, i, l); } else { EnterReleaseKeeps(w, i, l, true); }
      }
  }

  lemma OtherMoveKeeps(w: World, i: nat, choice: Choice)
    requires Inv(w) && i < |w.calls| && w.calls[i].process !in w.dead
    requires !Acquiring(w.calls[i].pc)
    ensures Inv(Move(w, i, choice))
  {
    Parts(w);
    assert CallOk(w, i);
    hide Inv, LocksOk, FileOk, HolderOk, LeaseOk, OpenFile, CloseFile, Take, Publish, Share, GiveBack, UnlockHolder,
      CloseHolder, Leave;
    match w.calls[i].pc
    case Releasing(l, abandoned) => if HasHolder(w, l) { GiveBackKeeps(w, i, l, abandoned); }
    case Unlocking(l, abandoned) => if HasHolder(w, l) { UnlockHolderKeeps(w, i, l, abandoned); }
    case Closing(l, abandoned) => if HasHolder(w, l) { CloseHolderKeeps(w, i, l, abandoned); }
    case Awaiting(l) =>
      if w.leases[l].once.Finished? { GotoKeeps(w, i, Leaving(Released(l))); }
      else if w.leases[l].once.NotStarted? { EnterReleaseKeeps(w, i, l, false); }
    case Probing =>
      if choice.dir.None? {
        GotoKeeps(w, i, Leaving(Probed(false)));
      } else {
        OpenKeeps(w, i, choice.dir.value, ProbeOpened(|w.files|));
      }
    case ProbeOpened(f) =>
      if f < |w.files| {
        if !choice.ok { GotoKeeps(w, i, ProbeClosing(f, false)); }
        else if w.files[f].dir in w.locks { GotoKeeps(w, i, ProbeClosing(f, true)); }
        else { ProbeLockKeeps(w, i, f); }
      }
    case ProbeLocked(f) => if f < |w.files| { ProbeUnlockKeeps(w, i, f); }
    case ProbeClosing(f, held) => if f < |w.files| { CloseToLeaveKeeps(w, i, f, Probed(held)); }
    case Leaving(result) => LeaveKeeps(w, i, result);
    case Returned(_) =>
  }

  lemma OpenCoveredKeeps(w: World, i: nat, l: nat, dir: Directory)
    requires Inv(w) && i < |w.calls| && w.calls[i].pc == Covering(l)
    ensures Inv(OpenFile(w, i, dir, Comparing(l, |w.files|)))
  {
    assert CallOk(w, i);
    OpenFileKeeps(w, i, dir, Comparing(l, |w.files|));
  }

  lemma OpenKeeps(w: World, i: nat, dir: Directory, pc: Pc)
    requires Inv(w) && i < |w.calls|
    requires w.calls[i].pc.Opening? || w.calls[i].pc.Probing?
    requires pc == if w.calls[i].pc.Opening? then Opened(|w.files|) else ProbeOpened(|w.files|)
    ensures Inv(OpenFile(w, i, dir, pc))
  {
    assert CallOk(w, i);
    OpenFileKeeps(w, i, dir, pc);
  }

  lemma CompareKeeps(w: World, i: nat, l: nat, f: nat, ok: bool)
    requires Inv(w) && i < |w.calls| && w.calls[i].pc == Comparing(l, f) && HasHolder(w, l) && f < |w.files|
    ensures Inv(Move(w, i, Choice(None, ok)))
  {
    assert CallOk(w, i);
    var pc := if ok && w.files[f].dir == w.holders[w.leases[l].holder].dir then Sharing(l) else Opening;
    CloseFileKeeps(w, i, f, pc);
  }

  lemma CloseToLeaveKeeps(w: World, i: nat, f: nat, result: Result)
    requires Inv(w) && i < |w.calls| && f < |w.files|
    requires w.calls[i].pc.Failing? || w.calls[i].pc.ProbeClosing?
    requires OpenedFile(w.calls[i].pc) == Some(f)
    requires result.Probed? || (result.Refused? && result.abandoned.None?)
    ensures Inv(CloseFile(w, i, f, Leaving(result)))
  {
    assert CallOk(w, i);
    CloseFileKeeps(w, i, f, Leaving(result));
  }

  lemma StepKeeps(w: World, e: Event)
    requires Inv(w)
    ensures Inv(Step(w, e))
  {
    hide Inv, Move, Start, Die;
    match e
    case Acquires(p) => StartKeeps(w, p, Opening);
    case AcquiresWith(p, l) => if Available(w, p, l) { StartKeeps(w, p, Covering(l)); }
    case Releases(p, l) => if Available(w, p, l) { StartKeeps(w, p, Awaiting(l)); }
    case Probes(p) => StartKeeps(w, p, Probing);
    case Moves(i, choice) => if i < |w.calls| && w.calls[i].process !in w.dead { MoveKeeps(w, i, choice); }
    case Dies(p) => DieKeeps(w, p);
  }

  lemma {:induction false} RunInv(events: seq<Event>)
    ensures Inv(Run(events))
    decreases |events|
  {
    if events != [] {
      RunInv(events[..|events| - 1]);
      hide Inv, Step;
      StepKeeps(Run(events[..|events| - 1]), events[|events| - 1]);
    }
  }

  // ------------------------------------------------------------------ theorems

  /** The kernel lock of the holder is held. */
  predicate HoldsLock(w: World, h: nat)
    requires h < |w.holders|
  {
    w.holders[h].dir in w.locks && w.locks[w.holders[h].dir] == w.holders[h].file
  }

  /** In every run, for every holder: the reference count is the number of leases that have not given
      their reference back; while its process lives and nobody is inside its mutex, the kernel lock is
      held exactly when that count is positive; the descriptor is open or was closed exactly once, and
      it is closed exactly when the count is zero. */
  lemma {:induction false} HolderFollowsItsLeases(events: seq<Event>, h: nat)
    ensures var w := Run(events);
            h < |w.holders| ==>
              && w.holders[h].refs == LiveLeases(w.leases, h)
              && w.holders[h].file < |w.files|
              && w.files[w.holders[h].file].closes <= 1
              && (w.holders[h].refs > 0 ==> w.files[w.holders[h].file].closes == 0)
              && (w.holders[h].mutex.None? ==>
                    && (w.files[w.holders[h].file].closes == 1 <==> w.holders[h].refs == 0)
                    && (HoldsLock(w, h) <==> w.holders[h].process !in w.dead && w.holders[h].refs > 0))
  {
    RunInv(events);
    var w := Run(events);
    Parts(w);
    hide Run, LiveLeases;
    if h < |w.holders| {
      assert HolderOk(w, h) && FileOk(w, w.holders[h].file);
    }
  }

  /** No descriptor, of a holder or of a probe or of a failed attempt, is ever closed twice. */
  lemma {:induction false} ClosedAtMostOnce(events: seq<Event>, f: nat)
    ensures var w := Run(events); f < |w.files| ==> w.files[f].closes <= 1
  {
    RunInv(events);
    var w := Run(events);
    Parts(w);
    hide Run;
    if f < |w.files| {
      assert FileOk(w, f);
    }
  }

  /** At most one referenced holder of a living process per directory: two live leases on one directory
      are shares of one holder, and so belong to one process. */
  lemma {:induction false} OneHolderPerDirectory(events: seq<Event>, h: nat, k: nat)
    ensures var w := Run(events);
            (&& h < |w.holders| && k < |w.holders| && w.holders[h].dir == w.holders[k].dir
             && w.holders[h].refs > 0 && w.holders[k].refs > 0
             && w.holders[h].process !in w.dead && w.holders[k].process !in w.dead) ==> h == k
  {
    RunInv(events);
    var w := Run(events);
    Parts(w);
    hide Run, LiveLeases;
    if h < |w.holders| && k < |w.holders| {
      assert HolderOk(w, h) && HolderOk(w, k);
      assert FileOk(w, w.holders[h].file) && FileOk(w, w.holders[k].file);
    }
  }

  /** A call that ended without a lease leaves nothing behind: every file it opened itself is closed and
      locks nothing, and so is the file of the lease it had to abandon. */
  lemma {:induction false} FailedAcquireLeavesNoLock(events: seq<Event>, i: nat, f: nat)
    ensures var w := Run(events);
            i < |w.calls| && w.calls[i].pc.Returned? && f < |w.files| ==>
              && (w.files[f].owner == OfCall(i) ==> w.files[f].closes == 1 && !Locks(w, f))
              && (w.calls[i].pc.result.Refused? && w.calls[i].pc.result.abandoned.Some? ==>
                    var l := w.calls[i].pc.result.abandoned.value;
                    && HasHolder(w, l) && !w.leases[l].live
                    && (f == w.holders[w.leases[l].holder].file ==> w.files[f].closes == 1 && !Locks(w, f)))
  {
    RunInv(events);
    var w := Run(events);
    Parts(w);
    hide Run, LiveLeases;
    if i < |w.calls| && w.calls[i].pc.Returned? && f < |w.files| {
      assert CallOk(w, i) && FileOk(w, f);
      if w.calls[i].pc.result.Refused? && w.calls[i].pc.result.abandoned.Some? {
        var l := w.calls[i].pc.result.abandoned.value;
        assert LeaseOk(w, l) && HolderOk(w, w.leases[l].holder);
      }
    }
  }

  /** Every Release call that returns, the first or a later one, finds the reference given back; and the
      guard inside Release against an already empty holder is never taken. */
  lemma {:induction false} ReleaseIsDone(events: seq<Event>, i: nat, l: nat)
    ensures var w := Run(events);
            && (i < |w.calls| && w.calls[i].pc == Returned(Released(l)) ==> l < |w.leases| && !w.leases[l].live)
            && (i < |w.calls| && w.calls[i].pc.Releasing? && w.calls[i].pc.lease == l ==>
               HasHolder(w, l) && w.holders[w.leases[l].holder].refs > 0)
  {
    RunInv(events);
    var w := Run(events);
    Parts(w);
    hide Run, LiveLeases;
    if i < |w.calls| {
      assert CallOk(w, i);
      if w.calls[i].pc == Returned(Released(l)) {
        assert LeaseOk(w, l);
      }
      if w.calls[i].pc.Releasing? && w.calls[i].pc.lease == l {
        assert LeaseOk(w, l) && HolderOk(w, w.leases[l].holder);
        LiveCounted(w.leases, l);
      }
    }
  }

  /** Nobody waits for a mutex forever: the call inside a holder's mutex is in the same process and its
      own next step is never blocked on a mutex or on another release. */
  lemma {:induction false} MutexHolderCanMove(events: seq<Event>, h: nat)
    ensures var w := Run(events);
            h < |w.holders| && w.holders[h].mutex.Some? ==>
              var j := w.holders[h].mutex.value;
              && j < |w.calls| && w.calls[j].process == w.holders[h].process
              && !w.calls[j].pc.Sharing? && !w.calls[j].pc.Awaiting? && !w.calls[j].pc.Returned?
              && (w.calls[j].pc.Releasing? ==>
                 HasHolder(w, w.calls[j].pc.lease) && w.holders[w.leases[w.calls[j].pc.lease].holder].mutex.None?)
  {
    RunInv(events);
    var w := Run(events);
    Parts(w);
    hide Run, LiveLeases;
    if h < |w.holders| && w.holders[h].mutex.Some? {
      var j := w.holders[h].mutex.value;
      assert HolderOk(w, h) && CallOk(w, j);
      if w.calls[j].pc.Releasing? {
        var l := w.calls[j].pc.lease;
        assert LeaseOk(w, l) && HolderOk(w, w.leases[l].holder);
        LiveCounted(w.leases, l);
      }
    }
  }

  // ------------------------------------------------------- when an owner is seen

  /** A living process still owns the directory: a holder with leases out, or one whose last lease is
      being given back and which has not unlocked yet. */
  ghost predicate Owned(w: World, dir: Directory) {
    exists h | 0 <= h < |w.holders| :: w.holders[h].dir == dir && w.holders[h].process !in w.dead && StillLocked(w, h)
  }

  /** A probe is between its lock and its unlock. */
  ghost predicate BeingProbed(w: World, dir: Directory) {
    exists i | 0 <= i < |w.calls| ::
      && w.calls[i].process !in w.dead && w.calls[i].pc.ProbeLocked?
      && w.calls[i].pc.file < |w.files| && w.files[w.calls[i].pc.file].dir == dir
  }

  /** The lock table holds a directory exactly when it is owned or a probe is inside its critical section. */
  lemma {:induction false} LockedExactlyWhen(events: seq<Event>, dir: Directory)
    ensures var w := Run(events); dir in w.locks <==> Owned(w, dir) || BeingProbed(w, dir)
  {
    RunInv(events);
    var w := Run(events);
    Parts(w);
    hide Run, LiveLeases;
    if dir in w.locks {
      var f := w.locks[dir];
      assert FileOk(w, f);
      match w.files[f].owner
      case OfCall(i) => assert CallOk(w, i);
      case OfHolder(h) => assert HolderOk(w, h);
    }
    if Owned(w, dir) {
      var h :| 0 <= h < |w.holders| && w.holders[h].dir == dir && w.holders[h].process !in w.dead && StillLocked(w, h);
      assert HolderOk(w, h) && FileOk(w, w.holders[h].file);
    }
    if BeingProbed(w, dir) {
      var i :| 0 <= i < |w.calls| && w.calls[i].process !in w.dead && w.calls[i].pc.ProbeLocked?
               && w.calls[i].pc.file < |w.files| && w.files[w.calls[i].pc.file].dir == dir;
      assert CallOk(w, i) && FileOk(w, w.calls[i].pc.file);
    }
  }

  /** In every run, the lock attempt of an acquisition ends in daemon_already_running, and that of a probe in
      the answer that the directory is held, exactly when the directory is owned or another probe is inside
      its critical section at that moment. */
  lemma {:induction false} TurnedAwayExactlyWhen(events: seq<Event>, i: nat, choice: Choice)
    requires choice.ok
    ensures var w := Run(events);
            i < |w.calls| && w.calls[i].process !in w.dead && (w.calls[i].pc.Opened? || w.calls[i].pc.ProbeOpened?) ==>
              && w.calls[i].pc.file < |w.files|
              && var f := w.calls[i].pc.file;
                 var after := Step(w, Moves(i, choice)).calls[i].pc;
                 var taken := Owned(w, w.files[f].dir) || BeingProbed(w, w.files[f].dir);
                 && (w.calls[i].pc.Opened? ==> (after == Failing(f, OwnerAlive) <==> taken))
                 && (w.calls[i].pc.ProbeOpened? ==> (after == ProbeClosing(f, true) <==> taken))
  {
    RunInv(events);
    var w := Run(events);
    Parts(w);
    if i < |w.calls| && (w.calls[i].pc.Opened? || w.calls[i].pc.ProbeOpened?) {
      assert CallOk(w, i);
      LockedExactlyWhen(events, w.files[w.calls[i].pc.file].dir);
    }
    hide Run, Inv, CallOk, FileOk, HolderOk, LeaseOk, Owned, BeingProbed;
  }

  // ------------------------------------------------------- what a call has seen

  /** The directory a call's last open found, and whether its lock attempt found that directory locked. */
  datatype Sight = Sight(found: Option<Directory>, taken: Option<bool>)

  const NOTHING := Sight(None, None)

  /** What call `i` learns in a step. */
  function See(w: World, s: Sight, i: nat, e: Event): Sight {
    if !e.Moves? || e.call != i || i >= |w.calls| || w.calls[i].process in w.dead then s
    else
      var pc := w.calls[i].pc;
      if pc.Covering? || pc.Opening? || pc.Probing? then
        if e.choice.dir.Some? then Sight(e.choice.dir, None) else s
      else if (pc.Opened? || pc.ProbeOpened?) && pc.file < |w.files| && e.choice.ok then
        s.(taken := Some(w.files[pc.file].dir in w.locks))
      else s
  }

  function Seen(events: seq<Event>, i: nat): Sight {
    if events == [] then NOTHING
    else
      var front := events[..|events| - 1];
      See(Run(front), Seen(front, i), i, events[|events| - 1])
  }

  /** The directory a lease is of. */
  ghost predicate IsOf(w: World, l: nat, dir: Option<Directory>) {
    l < |w.leases| && w.leases[l].holder < |w.holders| && dir == Some(w.holders[w.leases[l].holder].dir)
  }

  ghost predicate FoundIn(w: World, f: nat, dir: Option<Directory>) { f < |w.files| && dir == Some(w.files[f].dir) }

  /** A result agrees with what was seen: a lease is of the directory that was found, a live owner is reported
      exactly when the lock attempt met one, and a probe answers what its attempt met. */
  ghost predicate Agrees(w: World, result: Result, s: Sight) {
    match result
    case Acquired(l) => IsOf(w, l, s.found)
    case Refused(error, None) => error == OwnerAlive <==> s.taken == Some(true)
    case Refused(error, Some(_)) => error == Other
    case Released(_) => true
    case Probed(held) => held <==> s.taken == Some(true)
  }

  ghost predicate SightOk(w: World, i: nat, s: Sight) {
    if i >= |w.calls| then s == NOTHING
    else
      match w.calls[i].pc
      case Covering(_) => s.taken == None
      case Comparing(_, f) => FoundIn(w, f, s.found) && s.taken == None
      case Sharing(l) => IsOf(w, l, s.found) && s.taken == None
      case Opening => s.taken == None
      case Opened(f) => FoundIn(w, f, s.found) && s.taken == None
      case Failing(_, error) => error == OwnerAlive <==> s.taken == Some(true)
      case Writing(l) => IsOf(w, l, s.found)
      case Probing => s.taken == None
      case ProbeOpened(f) => FoundIn(w, f, s.found) && s.taken == None
      case ProbeLocked(_) => s.taken == Some(false)
      case ProbeClosing(_, held) => held <==> s.taken == Some(true)
      case Leaving(result) => Agrees(w, result, s)
      case Returned(result) => Agrees(w, result, s)
      case _ => true
  }

  /** Files and holders keep their directory, and leases their holder. */
  ghost predicate DirsStay(w: World, w': World) {
    && |w.files| <= |w'.files| && (forall f | 0 <= f < |w.files| :: w'.files[f].dir == w.files[f].dir)
    && |w.holders| <= |w'.holders| && (forall h | 0 <= h < |w.holders| :: w'.holders[h].dir == w.holders[h].dir)
    && |w.leases| <= |w'.leases| && (forall l | 0 <= l < |w.leases| :: w'.leases[l].holder == w.leases[l].holder)
  }

  /** What a step of call `i` leaves alone. */
  ghost predicate OnlyMoves(w: World, w': World, i: nat) {
    && DirsStay(w, w') && |w'.calls| == |w.calls|
    && forall j | 0 <= j < |w.calls| && j != i :: w'.calls[j] == w.calls[j]
  }

  lemma AcquiringKeepsDirs(w: World, i: nat, choice: Choice)
    requires i < |w.calls| && Acquiring(w.calls[i].pc)
    ensures OnlyMoves(w, Move(w, i, choice), i)
  {
    hide Unlocked;
  }

  lemma ReleasingKeepsDirs(w: World, i: nat, choice: Choice)
    requires i < |w.calls| && !NotReleasing(w.calls[i].pc)
    ensures OnlyMoves(w, Move(w, i, choice), i)
  {
    hide EndOfRelease, Unlocked;
  }

  lemma OtherKeepsDirs(w: World, i: nat, choice: Choice)
    requires i < |w.calls| && !Acquiring(w.calls[i].pc) && NotReleasing(w.calls[i].pc)
    ensures OnlyMoves(w, Move(w, i, choice), i)
  {
    hide Unlocked;
  }

  lemma MoveKeepsDirs(w: World, i: nat, choice: Choice)
    requires i < |w.calls|
    ensures OnlyMoves(w, Move(w, i, choice), i)
  {
    hide Move, OnlyMoves;
    if Acquiring(w.calls[i].pc) {
      AcquiringKeepsDirs(w, i, choice);
    } else if !NotReleasing(w.calls[i].pc) {
      ReleasingKeepsDirs(w, i, choice);
    } else {
      OtherKeepsDirs(w, i, choice);
    }
  }

  lemma StepKeepsDirs(w: World, e: Event)
    ensures DirsStay(w, Step(w, e)) && |w.calls| <= |Step(w, e).calls|
    ensures forall j | 0 <= j < |w.calls| && !(e.Moves? && e.call == j) :: Step(w, e).calls[j] == w.calls[j]
  {
    if e.Moves? && e.call < |w.calls| && w.calls[e.call].process !in w.dead {
      MoveKeepsDirs(w, e.call, e.choice);
      hide Move;
    }
  }

  lemma SightStays(w: World, w': World, i: nat, s: Sight)
    requires SightOk(w, i, s) && DirsStay(w, w') && i < |w.calls| && i < |w'.calls| && w'.calls[i] == w.calls[i]
    ensures SightOk(w', i, s)
  {
  }

  lemma AcquiringKeepsSight(w: World, i: nat, choice: Choice, s: Sight)
    requires Inv(w) && SightOk(w, i, s) && i < |w.calls| && w.calls[i].process !in w.dead && Acquiring(w.calls[i].pc)
    ensures SightOk(Move(w, i, choice), i, See(w, s, i, Moves(i, choice)))
  {
    Parts(w);
    assert CallOk(w, i);
    hide Inv, FileOk, HolderOk, LeaseOk, LocksOk, Unlocked;
  }

  lemma ReleasingKeepsSight(w: World, i: nat, choice: Choice, s: Sight)
    requires SightOk(w, i, s) && i < |w.calls| && w.calls[i].process !in w.dead && !NotReleasing(w.calls[i].pc)
    ensures SightOk(Move(w, i, choice), i, See(w, s, i, Moves(i, choice)))
  {
    hide Unlocked;
  }

  lemma OtherKeepsSight(w: World, i: nat, choice: Choice, s: Sight)
    requires Inv(w) && SightOk(w, i, s) && i < |w.calls| && w.calls[i].process !in w.dead
    requires !Acquiring(w.calls[i].pc) && NotReleasing(w.calls[i].pc)
    ensures SightOk(Move(w, i, choice), i, See(w, s, i, Moves(i, choice)))
  {
    Parts(w);
    assert CallOk(w, i);
    hide Inv, FileOk, HolderOk, LeaseOk, LocksOk, Unlocked;
  }

  lemma MoveKeepsSight(w: World, i: nat, choice: Choice, s: Sight)
    requires Inv(w) && SightOk(w, i, s) && i < |w.calls| && w.calls[i].process !in w.dead
    ensures SightOk(Move(w, i, choice), i, See(w, s, i, Moves(i, choice)))
  {
    hide Inv, Move, See, SightOk;
    if Acquiring(w.calls[i].pc) {
      AcquiringKeepsSight(w, i, choice, s);
    } else if !NotReleasing(w.calls[i].pc) {
      ReleasingKeepsSight(w, i, choice, s);
    } else {
      OtherKeepsSight(w, i, choice, s);
    }
  }

  lemma StepKeepsSight(w: World, e: Event, i: nat, s: Sight)
    requires Inv(w) && SightOk(w, i, s)
    ensures SightOk(Step(w, e), i, See(w, s, i, e))
  {
    if i < |w.calls| && e.Moves? && e.call == i {
      if w.calls[i].process !in w.dead {
        hide Move;
        MoveKeepsSight(w, i, e.choice, s);
      }
    } else if i < |w.calls| {
      StepKeepsDirs(w, e);
      hide Step;
      SightStays(w, Step(w, e), i, s);
    } else {
      NewCallsHaveSeenNothing(w, e, i);
    }
  }

  lemma NewCallsHaveSeenNothing(w: World, e: Event, i: nat)
    requires i >= |w.calls|
    ensures SightOk(Step(w, e), i, NOTHING)
  {
    hide Move;
    if e.Moves? && e.call < |w.calls| {
      MoveKeepsDirs(w, e.call, e.choice);
    }
  }

  lemma {:induction false} RunSight(events: seq<Event>, i: nat)
    ensures SightOk(Run(events), i, Seen(events, i))
    decreases |events|
  {
    if events != [] {
      var front := events[..|events| - 1];
      RunSight(front, i);
      RunInv(front);
      hide Inv, Step, See, SightOk;
      StepKeepsSight(Run(front), events[|events| - 1], i, Seen(front, i));
    }
  }

  /** In every run: a call that acquired a lease, alone or by sharing, has one of the very directory its last
      open found, and while the lease is live and its process lives that directory is locked by the lease's
      holder. So a call whose directory differs from the lease it was given never returns a share of it. */
  lemma {:induction false} AcquiredIsWhatWasAsked(events: seq<Event>, i: nat, l: nat)
    ensures var w := Run(events);
            i < |w.calls| && (w.calls[i].pc == Leaving(Acquired(l)) || w.calls[i].pc == Returned(Acquired(l))) ==>
              && l < |w.leases| && w.leases[l].holder < |w.holders|
              && Seen(events, i).found == Some(w.holders[w.leases[l].holder].dir)
              && (w.leases[l].live && w.calls[i].process !in w.dead ==> HoldsLock(w, w.leases[l].holder))
  {
    RunSight(events, i);
    RunInv(events);
    var w := Run(events);
    Parts(w);
    hide Run, Seen, LiveLeases, Inv;
    if i < |w.calls| && (w.calls[i].pc == Leaving(Acquired(l)) || w.calls[i].pc == Returned(Acquired(l))) {
      var h := w.leases[l].holder;
      assert CallOk(w, i) && HolderOk(w, h) && FileOk(w, w.holders[h].file);
      if w.leases[l].live {
        LiveCounted(w.leases, l);
      }
    }
  }

  /** In every run: an acquisition is refused because of a live owner exactly when its lock attempt found the
      directory locked, and a probe answers that the directory is held exactly then. */
  lemma {:induction false} AnswersMatchTheAttempt(events: seq<Event>, i: nat)
    ensures var w := Run(events);
            i < |w.calls| && w.calls[i].pc.Returned? ==>
              var result := w.calls[i].pc.result;
              var taken := Seen(events, i).taken == Some(true);
              && (result.Refused? ==> (result.error == OwnerAlive <==> result.abandoned.None? && taken))
              && (result.Probed? ==> (result.held <==> taken))
  {
    RunSight(events, i);
    hide Run, Seen;
  }

  // ------------------------------------------------- each operation left to itself

  /** Call `i` takes so many steps, finding directory `dir` and having every system call work. */
  function Moved(w: World, i: nat, dir: Directory, n: nat): World {
    if n == 0 then w else Step(Moved(w, i, dir, n - 1), Moves(i, Choice(Some(dir), true)))
  }

  lemma {:induction false} FirstMove(w: World, i: nat, dir: Directory, n: nat)
    requires i < |w.calls| && w.calls[i].process !in w.dead
    ensures Moved(w, i, dir, n + 1) == Moved(Move(w, i, Choice(Some(dir), true)), i, dir, n)
    decreases n
  {
    hide Move;
    if n == 0 {
      assert Moved(w, i, dir, 0) == w;
    } else {
      FirstMove(w, i, dir, n - 1);
    }
  }

  lemma NoMove(w: World, i: nat, dir: Directory)
    ensures Moved(w, i, dir, 0) == w
  {
  }

  /** The steps of a call that finds `dir` and has every system call work, place by place. */
  lemma AcquireMoves(w: World, i: nat, dir: Directory)
    requires i < |w.calls|
    ensures var v, pc := Move(w, i, Choice(Some(dir), true)), w.calls[i].pc;
            && (pc.Covering? ==> v == OpenFile(w, i, dir, Comparing(pc.lease, |w.files|)))
            && (pc.Opening? ==> v == OpenFile(w, i, dir, Opened(|w.files|)))
            && (pc.Opened? && pc.file < |w.files| && w.files[pc.file].dir !in w.locks ==> v == Take(w, i, pc.file))
            && (pc.Opened? && pc.file < |w.files| && w.files[pc.file].dir in w.locks ==>
                  v == Goto(w, i, Failing(pc.file, OwnerAlive)))
            && (pc.Failing? && pc.file < |w.files| ==>
                  v == CloseFile(w, i, pc.file, Leaving(Refused(pc.error, None))))
            && (pc.Writing? && HasHolder(w, pc.lease) ==> v == Publish(w, i, pc.lease))
            && (pc.Sharing? && HasHolder(w, pc.lease) ==> v == Share(w, i, w.leases[pc.lease].holder))
            && (pc.Leaving? ==> v == Leave(w, i, pc.result))
  {
    hide OpenFile, CloseFile, Take, Publish, Share, Leave;
  }

  lemma CompareMoves(w: World, i: nat, dir: Directory)
    requires i < |w.calls| && w.calls[i].pc.Comparing?
    requires HasHolder(w, w.calls[i].pc.lease) && w.calls[i].pc.file < |w.files|
    ensures var v, pc := Move(w, i, Choice(Some(dir), true)), w.calls[i].pc;
            var same := w.files[pc.file].dir == w.holders[w.leases[pc.lease].holder].dir;
            v == CloseFile(w, i, pc.file, if same then Sharing(pc.lease) else Opening)
  {
    hide CloseFile;
  }

  lemma ReleaseMoves(w: World, i: nat, dir: Directory)
    requires i < |w.calls|
    ensures var v, pc := Move(w, i, Choice(Some(dir), true)), w.calls[i].pc;
            && (pc.Releasing? && HasHolder(w, pc.lease) ==> v == GiveBack(w, i, pc.lease, pc.abandoned))
            && (pc.Unlocking? && HasHolder(w, pc.lease) ==> v == UnlockHolder(w, i, pc.lease, pc.abandoned))
            && (pc.Closing? && HasHolder(w, pc.lease) ==> v == CloseHolder(w, i, pc.lease, pc.abandoned))
            && (pc.Leaving? ==> v == Leave(w, i, pc.result))
  {
    hide GiveBack, UnlockHolder, CloseHolder, Leave;
  }

  lemma ProbeMoves(w: World, i: nat, dir: Directory)
    requires i < |w.calls|
    ensures var v, pc := Move(w, i, Choice(Some(dir), true)), w.calls[i].pc;
            && (pc.Probing? ==> v == OpenFile(w, i, dir, ProbeOpened(|w.files|)))
            && (pc.ProbeOpened? && pc.file < |w.files| && w.files[pc.file].dir in w.locks ==>
                  v == Goto(w, i, ProbeClosing(pc.file, true)))
            && (pc.ProbeOpened? && pc.file < |w.files| && w.files[pc.file].dir !in w.locks ==>
                  v == Goto(w, i, ProbeLocked(pc.file)).(locks := w.locks[w.files[pc.file].dir := pc.file]))
            && (pc.ProbeLocked? && pc.file < |w.files| ==>
                  v == Goto(w, i, ProbeClosing(pc.file, false)).(locks := Unlocked(w, pc.file)))
            && (pc.ProbeClosing? && pc.file < |w.files| ==>
                  v == CloseFile(w, i, pc.file, Leaving(Probed(pc.held))))
            && (pc.Leaving? ==> v == Leave(w, i, pc.result))
  {
    hide OpenFile, CloseFile, Goto, Unlocked, Leave;
  }

  /** A new file is nobody's lock, so closing it leaves the locks alone. */
  lemma NewFileLocksNothing(w: World, f: nat)
    requires LocksOk(w)
    ensures f >= |w.files| ==> forall d | d in w.locks :: w.locks[d] != f
  {
  }

  /** Taking a free directory from its open file, up to the return. */
  lemma {:induction false} TakesOpened(w: World, i: nat, f: nat)
    requires i < |w.calls| && f < |w.files| && w.calls[i].pc == Opened(f) && w.calls[i].process !in w.dead
    requires w.files[f].dir !in w.locks && (w.calls[i].guard.Some? ==> w.calls[i].guard.value < |w.holders|)
    ensures var w' := Moved(w, i, w.files[f].dir, 3);
            var taken := w.holders + [Holder(w.files[f].process, w.files[f].dir, f, i, 1, None, true)];
            && |w'.calls| == |w.calls| && w'.calls[i].pc == Returned(Acquired(|w.leases|))
            && w'.leases == w.leases + [LeaseState(|w.holders|, NotStarted, true)]
            && w'.holders == (match w.calls[i].guard
                              case None => taken
                              case Some(g) => taken[g := taken[g].(mutex := None)])
            && w'.locks == w.locks[w.files[f].dir := f]
  {
    hide Moved, Move;
    var dir := w.files[f].dir;
    var a := Take(w, i, f);
    AcquireMoves(w, i, dir);
    FirstMove(w, i, dir, 2);
    var b := Publish(a, i, |w.leases|);
    AcquireMoves(a, i, dir);
    FirstMove(a, i, dir, 1);
    AcquireMoves(b, i, dir);
    FirstMove(b, i, dir, 0);
    NoMove(Leave(b, i, Acquired(|w.leases|)), i, dir);
  }

  /** Acquiring a free directory gives a new lease of it, with a holder of its own, and locks it. */
  lemma {:induction false} AcquireAlone(w: World, p: Process, dir: Directory)
    requires p !in w.dead && dir !in w.locks
    ensures var w' := Moved(Step(w, Acquires(p)), |w.calls|, dir, 4);
            && |w'.calls| == |w.calls| + 1 && w'.calls[|w.calls|].pc == Returned(Acquired(|w.leases|))
            && w'.leases == w.leases + [LeaseState(|w.holders|, NotStarted, true)]
            && w'.holders == w.holders + [Holder(p, dir, |w.files|, |w.calls|, 1, None, true)]
            && w'.locks == w.locks[dir := |w.files|]
  {
    hide Moved, Move;
    var i, a := |w.calls|, Step(w, Acquires(p));
    var b := OpenFile(a, i, dir, Opened(|w.files|));
    AcquireMoves(a, i, dir);
    FirstMove(a, i, dir, 3);
    TakesOpened(b, i, |w.files|);
  }

  /** Nobody keeps the mutex of a holder that has references left. */
  lemma CountedHolderIsFree(events: seq<Event>, h: nat)
    requires h < |Run(events).holders| && Run(events).holders[h].refs > 0
    ensures Run(events).holders[h].mutex.None?
  {
    RunInv(events);
    var w := Run(events);
    Parts(w);
    assert HolderOk(w, h);
    hide Run, Inv, FileOk, LeaseOk, CallOk;
  }

  /** The file of a holder that has references left is open and locks its directory. */
  lemma CountedHolderLocks(events: seq<Event>, h: nat)
    requires h < |Run(events).holders| && Run(events).holders[h].refs > 0
    requires Run(events).holders[h].process !in Run(events).dead && Run(events).holders[h].file < |Run(events).files|
    ensures var w := Run(events);
            var f := w.holders[h].file;
            Locks(w, f) && w.files[f].dir == w.holders[h].dir && w.files[f].closes == 0
  {
    RunInv(events);
    var w := Run(events);
    Parts(w);
    assert HolderOk(w, h) && FileOk(w, w.holders[h].file);
    hide Run, Inv, LeaseOk, CallOk, LiveLeases;
  }

  lemma RunHasLocks(events: seq<Event>)
    ensures LocksOk(Run(events))
  {
    RunInv(events);
    hide Run;
  }

  lemma {:induction false} AcquireLockedFrom(w: World, p: Process, dir: Directory)
    requires p !in w.dead && dir in w.locks
    requires LocksOk(w)
    ensures var w' := Moved(Step(w, Acquires(p)), |w.calls|, dir, 4);
            && |w'.calls| == |w.calls| + 1 && w'.calls[|w.calls|].pc == Returned(Refused(OwnerAlive, None))
            && w'.leases == w.leases && w'.holders == w.holders && w'.locks == w.locks
  {
    hide Moved, Move;
    NewFileLocksNothing(w, |w.files|);
    hide LocksOk;
    var i, f, a := |w.calls|, |w.files|, Step(w, Acquires(p));
    var b := OpenFile(a, i, dir, Opened(f));
    AcquireMoves(a, i, dir);
    FirstMove(a, i, dir, 3);
    var c := Goto(b, i, Failing(f, OwnerAlive));
    AcquireMoves(b, i, dir);
    FirstMove(b, i, dir, 2);
    var d := CloseFile(c, i, f, Leaving(Refused(OwnerAlive, None)));
    AcquireMoves(c, i, dir);
    FirstMove(c, i, dir, 1);
    AcquireMoves(d, i, dir);
    FirstMove(d, i, dir, 0);
    NoMove(Leave(d, i, Refused(OwnerAlive, None)), i, dir);
  }

  /** Acquiring a locked directory reports a live owner and leaves the locks as they were. */
  lemma {:induction false} AcquireLocked(events: seq<Event>, p: Process, dir: Directory)
    requires var w := Run(events); p !in w.dead && dir in w.locks
    ensures var w := Run(events);
            var w' := Moved(Step(w, Acquires(p)), |w.calls|, dir, 4);
            && |w'.calls| == |w.calls| + 1 && w'.calls[|w.calls|].pc == Returned(Refused(OwnerAlive, None))
            && w'.leases == w.leases && w'.holders == w.holders && w'.locks == w.locks
  {
    var w := Run(events);
    RunHasLocks(events);
    hide *;
    AcquireLockedFrom(w, p, dir);
  }

  /** Comparing the directory found with that of the lease: the file is closed again and the locks are as
      they were. */
  lemma {:induction false} Compares(w: World, p: Process, l: nat, dir: Directory, n: nat)
    requires LocksOk(w) && p !in w.dead && Available(w, p, l)
    ensures var a, i, f := Step(w, AcquiresWith(p, l)), |w.calls|, |w.files|;
            var same := dir == w.holders[w.leases[l].holder].dir;
            var c := a.(calls := a.calls[i := Call(p, if same then Sharing(l) else Opening, None)],
                        files := w.files + [File(p, dir, OfCall(i), 1)]);
            Moved(a, i, dir, n + 2) == Moved(c, i, dir, n)
  {
    hide Moved, Move;
    NewFileLocksNothing(w, |w.files|);
    var i, f, a := |w.calls|, |w.files|, Step(w, AcquiresWith(p, l));
    var b := OpenFile(a, i, dir, Comparing(l, f));
    AcquireMoves(a, i, dir);
    FirstMove(a, i, dir, n + 1);
    var same := dir == w.holders[w.leases[l].holder].dir;
    var c := CloseFile(b, i, f, if same then Sharing(l) else Opening);
    CompareMoves(b, i, dir);
    FirstMove(b, i, dir, n);
    assert c == a.(calls := a.calls[i := Call(p, if same then Sharing(l) else Opening, None)],
                   files := w.files + [File(p, dir, OfCall(i), 1)]);
  }

  lemma {:induction false} ShareFrom(w: World, p: Process, l: nat)
    requires p !in w.dead && Available(w, p, l) && w.holders[w.leases[l].holder].refs > 0
    requires LocksOk(w) && w.holders[w.leases[l].holder].mutex.None?
    ensures var h := w.leases[l].holder;
            var w' := Moved(Step(w, AcquiresWith(p, l)), |w.calls|, w.holders[h].dir, 4);
            && |w'.calls| == |w.calls| + 1 && w'.calls[|w.calls|].pc == Returned(Acquired(|w.leases|))
            && w'.leases == w.leases + [LeaseState(h, NotStarted, true)]
            && w'.holders == w.holders[h := w.holders[h].(refs := w.holders[h].refs + 1)]
            && w'.locks == w.locks
  {
    hide Moved, Move;
    var h, i := w.leases[l].holder, |w.calls|;
    var dir, a := w.holders[h].dir, Step(w, AcquiresWith(p, l));
    Compares(w, p, l, dir, 2);
    hide LocksOk;
    var c := a.(calls := a.calls[i := Call(p, Sharing(l), None)], files := w.files + [File(p, dir, OfCall(i), 1)]);
    assert c == World(w.files + [File(p, dir, OfCall(i), 1)], w.locks, w.dead, w.holders, w.leases,
                      w.calls + [Call(p, Sharing(l), None)]);
    hide Step;
    var d := Share(c, i, h);
    AcquireMoves(c, i, dir);
    FirstMove(c, i, dir, 1);
    AcquireMoves(d, i, dir);
    FirstMove(d, i, dir, 0);
    NoMove(Leave(d, i, Acquired(|w.leases|)), i, dir);
  }

  /** AcquireWith on the very directory of a held lease gives one more lease of the same holder; the lock is
      not touched. */
  lemma {:induction false} ShareAlone(events: seq<Event>, p: Process, l: nat)
    requires var w := Run(events); p !in w.dead && Available(w, p, l) && w.holders[w.leases[l].holder].refs > 0
    ensures var w := Run(events);
            var h := w.leases[l].holder;
            var w' := Moved(Step(w, AcquiresWith(p, l)), |w.calls|, w.holders[h].dir, 4);
            && |w'.calls| == |w.calls| + 1 && w'.calls[|w.calls|].pc == Returned(Acquired(|w.leases|))
            && w'.leases == w.leases + [LeaseState(h, NotStarted, true)]
            && w'.holders == w.holders[h := w.holders[h].(refs := w.holders[h].refs + 1)]
            && w'.locks == w.locks
  {
    var w := Run(events);
    RunHasLocks(events);
    CountedHolderIsFree(events, w.leases[l].holder);
    hide *;
    ShareFrom(w, p, l);
  }

  lemma {:induction false} OpensAndTakes(w: World, i: nat, dir: Directory)
    requires i < |w.calls| && w.calls[i].pc == Opening && w.calls[i].process !in w.dead && w.calls[i].guard == None
    requires dir !in w.locks
    ensures var w' := Moved(w, i, dir, 4);
            && |w'.calls| == |w.calls| && w'.calls[i].pc == Returned(Acquired(|w.leases|))
            && w'.leases == w.leases + [LeaseState(|w.holders|, NotStarted, true)]
            && w'.holders == w.holders + [Holder(w.calls[i].process, dir, |w.files|, i, 1, None, true)]
            && w'.locks == w.locks[dir := |w.files|]
  {
    hide Moved, Move;
    AcquireMoves(w, i, dir);
    FirstMove(w, i, dir, 3);
    TakesOpened(OpenFile(w, i, dir, Opened(|w.files|)), i, |w.files|);
  }

  lemma {:induction false} OtherDirectoryFrom(w: World, p: Process, l: nat, dir: Directory)
    requires p !in w.dead && Available(w, p, l) && dir != w.holders[w.leases[l].holder].dir && dir !in w.locks
    requires LocksOk(w)
    ensures var w' := Moved(Step(w, AcquiresWith(p, l)), |w.calls|, dir, 6);
            && |w'.calls| == |w.calls| + 1 && w'.calls[|w.calls|].pc == Returned(Acquired(|w.leases|))
            && w'.leases == w.leases + [LeaseState(|w.holders|, NotStarted, true)]
            && w'.holders == w.holders + [Holder(p, dir, |w.files| + 1, |w.calls|, 1, None, true)]
            && w'.locks == w.locks[dir := |w.files| + 1]
  {
    hide Moved, LocksOk;
    var i, a := |w.calls|, Step(w, AcquiresWith(p, l));
    Compares(w, p, l, dir, 4);
    var c := a.(calls := a.calls[i := Call(p, Opening, None)], files := w.files + [File(p, dir, OfCall(i), 1)]);
    assert c == World(w.files + [File(p, dir, OfCall(i), 1)], w.locks, w.dead, w.holders, w.leases,
                      w.calls + [Call(p, Opening, None)]);
    hide Step, Available;
    OpensAndTakes(c, i, dir);
  }

  /** AcquireWith on any other free directory acquires that directory afresh, with a holder of its own. */
  lemma {:induction false} OtherDirectoryAlone(events: seq<Event>, p: Process, l: nat, dir: Directory)
    requires var w := Run(events);
             p !in w.dead && Available(w, p, l) && dir != w.holders[w.leases[l].holder].dir && dir !in w.locks
    ensures var w := Run(events);
            var w' := Moved(Step(w, AcquiresWith(p, l)), |w.calls|, dir, 6);
            && |w'.calls| == |w.calls| + 1 && w'.calls[|w.calls|].pc == Returned(Acquired(|w.leases|))
            && w'.leases == w.leases + [LeaseState(|w.holders|, NotStarted, true)]
            && w'.holders == w.holders + [Holder(p, dir, |w.files| + 1, |w.calls|, 1, None, true)]
            && w'.locks == w.locks[dir := |w.files| + 1]
  {
    var w := Run(events);
    RunHasLocks(events);
    hide *;
    OtherDirectoryFrom(w, p, l, dir);
  }

  /** With the mutex of an emptied holder kept until the fresh lease is had. */
  lemma {:induction false} GuardsAndTakes(w: World, i: nat, l: nat, dir: Directory)
    requires i < |w.calls| && w.calls[i].pc == Sharing(l) && w.calls[i].process !in w.dead && HasHolder(w, l)
    requires dir !in w.locks
    requires w.holders[w.leases[l].holder].refs == 0 && w.holders[w.leases[l].holder].mutex.None?
    ensures var w' := Moved(w, i, dir, 5);
            && |w'.calls| == |w.calls| && w'.calls[i].pc == Returned(Acquired(|w.leases|))
            && w'.leases == w.leases + [LeaseState(|w.holders|, NotStarted, true)]
            && w'.holders == w.holders + [Holder(w.calls[i].process, dir, |w.files|, i, 1, None, true)]
            && w'.locks == w.locks[dir := |w.files|]
  {
    hide Moved, Move;
    var h := w.leases[l].holder;
    var d := Share(w, i, h);
    AcquireMoves(w, i, dir);
    FirstMove(w, i, dir, 4);
    var e := OpenFile(d, i, dir, Opened(|w.files|));
    AcquireMoves(d, i, dir);
    FirstMove(d, i, dir, 3);
    TakesOpened(e, i, |w.files|);
    var taken := d.holders + [Holder(w.calls[i].process, dir, |w.files|, i, 1, None, true)];
    assert taken[h := taken[h].(mutex := None)] ==
           w.holders + [Holder(w.calls[i].process, dir, |w.files|, i, 1, None, true)];
  }

  lemma {:induction false} EmptiedHolderFrom(w: World, p: Process, l: nat)
    requires LocksOk(w) && p !in w.dead && Available(w, p, l) && w.holders[w.leases[l].holder].dir !in w.locks
    requires w.holders[w.leases[l].holder].refs == 0 && w.holders[w.leases[l].holder].mutex.None?
    ensures var dir := w.holders[w.leases[l].holder].dir;
            var w' := Moved(Step(w, AcquiresWith(p, l)), |w.calls|, dir, 7);
            && |w'.calls| == |w.calls| + 1 && w'.calls[|w.calls|].pc == Returned(Acquired(|w.leases|))
            && w'.leases == w.leases + [LeaseState(|w.holders|, NotStarted, true)]
            && w'.holders == w.holders + [Holder(p, dir, |w.files| + 1, |w.calls|, 1, None, true)]
            && w'.locks == w.locks[dir := |w.files| + 1]
  {
    hide Moved, LocksOk, Move;
    var i, a, dir := |w.calls|, Step(w, AcquiresWith(p, l)), w.holders[w.leases[l].holder].dir;
    Compares(w, p, l, dir, 5);
    var c := a.(calls := a.calls[i := Call(p, Sharing(l), None)], files := w.files + [File(p, dir, OfCall(i), 1)]);
    assert c == World(w.files + [File(p, dir, OfCall(i), 1)], w.locks, w.dead, w.holders, w.leases,
                      w.calls + [Call(p, Sharing(l), None)]);
    hide Step;
    GuardsAndTakes(c, i, l, dir);
  }

  /** AcquireWith on the directory of a lease whose holder is empty acquires it afresh, and frees the emptied
      holder's mutex when it is done. */
  lemma {:induction false} EmptiedHolderAlone(events: seq<Event>, p: Process, l: nat)
    requires var w := Run(events);
             && p !in w.dead && Available(w, p, l) && w.holders[w.leases[l].holder].dir !in w.locks
             && w.holders[w.leases[l].holder].refs == 0 && w.holders[w.leases[l].holder].mutex.None?
    ensures var w := Run(events);
            var dir := w.holders[w.leases[l].holder].dir;
            var w' := Moved(Step(w, AcquiresWith(p, l)), |w.calls|, dir, 7);
            && |w'.calls| == |w.calls| + 1 && w'.calls[|w.calls|].pc == Returned(Acquired(|w.leases|))
            && w'.leases == w.leases + [LeaseState(|w.holders|, NotStarted, true)]
            && w'.holders == w.holders + [Holder(p, dir, |w.files| + 1, |w.calls|, 1, None, true)]
            && w'.locks == w.locks[dir := |w.files| + 1]
  {
    hide Run, Inv, Moved, LocksOk, Step, Available;
    RunHasLocks(events);
    EmptiedHolderFrom(Run(events), p, l);
  }

  /** Where a release of the last reference passes through. */
  lemma {:induction false} LastReferenceGoes(w: World, i: nat, l: nat, any: Directory)
    requires i < |w.calls| && w.calls[i].pc == Releasing(l, false) && w.calls[i].guard == None
    requires w.calls[i].process !in w.dead && HasHolder(w, l)
    requires var h := w.leases[l].holder;
             w.holders[h].refs == 1 && w.holders[h].mutex.None? && Locks(w, w.holders[h].file)
    ensures var h := w.leases[l].holder;
            var w' := Moved(w, i, any, 4);
            && |w'.calls| == |w.calls| && w'.calls[i].pc == Returned(Released(l))
            && w'.leases == w.leases[l := w.leases[l].(once := Finished, live := false)]
            && w'.holders == w.holders[h := w.holders[h].(refs := 0)]
            && w'.locks == w.locks - {w.files[w.holders[h].file].dir}
            && var f := w.holders[h].file;
               w'.files == w.files[f := w.files[f].(closes := w.files[f].closes + 1)]
  {
    hide Moved, Move;
    var b := GiveBack(w, i, l, false);
    ReleaseMoves(w, i, any);
    FirstMove(w, i, any, 3);
    var c := UnlockHolder(b, i, l, false);
    ReleaseMoves(b, i, any);
    FirstMove(b, i, any, 2);
    var d := CloseHolder(c, i, l, false);
    ReleaseMoves(c, i, any);
    FirstMove(c, i, any, 1);
    ReleaseMoves(d, i, any);
    FirstMove(d, i, any, 0);
    NoMove(Leave(d, i, Released(l)), i, any);
  }

  /** A release call on a lease nobody has released enters the once-guard. */
  lemma {:induction false} ReleaseEnters(w: World, p: Process, l: nat, any: Directory, n: nat)
    requires p !in w.dead && Available(w, p, l) && w.leases[l].once.NotStarted?
    ensures var a, i := Step(w, Releases(p, l)), |w.calls|;
            var b := a.(calls := a.calls[i := Call(p, Releasing(l, false), None)],
                        leases := w.leases[l := w.leases[l].(once := Running(i))]);
            Moved(a, i, any, n + 1) == Moved(b, i, any, n)
  {
    hide Moved;
    FirstMove(Step(w, Releases(p, l)), |w.calls|, any, n);
  }

  lemma {:induction false} ReleaseLastFrom(w: World, p: Process, l: nat, any: Directory)
    requires p !in w.dead && Available(w, p, l) && w.leases[l].once.NotStarted?
             && w.holders[w.leases[l].holder].refs == 1
    requires var h := w.leases[l].holder;
             && w.holders[h].mutex.None? && Locks(w, w.holders[h].file)
             && w.files[w.holders[h].file].dir == w.holders[h].dir && w.files[w.holders[h].file].closes == 0
    ensures var h := w.leases[l].holder;
            var w' := Moved(Step(w, Releases(p, l)), |w.calls|, any, 5);
            && |w'.calls| == |w.calls| + 1 && w'.calls[|w.calls|].pc == Returned(Released(l))
            && w'.leases == w.leases[l := LeaseState(h, Finished, false)]
            && w'.holders == w.holders[h := w.holders[h].(refs := 0)]
            && w'.locks == w.locks - {w.holders[h].dir}
            && |w'.files| == |w.files| && w'.files[w.holders[h].file].closes == 1
  {
    hide Moved, Move;
    var i := |w.calls|;
    ReleaseEnters(w, p, l, any, 4);
    var a := Step(w, Releases(p, l));
    assert a == w.(calls := w.calls + [Call(p, Awaiting(l), None)]);
    hide Step;
    var b := a.(calls := a.calls[i := Call(p, Releasing(l, false), None)],
                leases := w.leases[l := w.leases[l].(once := Running(i))]);
    LastReferenceGoes(b, i, l, any);
    var back := LeaseState(w.leases[l].holder, Finished, false);
    assert b.leases[l := back] == w.leases[l := back];
  }

  /** Releasing the last lease of a holder unlocks its directory and closes its descriptor. */
  lemma {:induction false} ReleaseLastAlone(events: seq<Event>, p: Process, l: nat, any: Directory)
    requires var w := Run(events);
             && p !in w.dead && Available(w, p, l) && w.leases[l].once.NotStarted?
             && w.holders[w.leases[l].holder].refs == 1
    ensures var w := Run(events);
            var h := w.leases[l].holder;
            var w' := Moved(Step(w, Releases(p, l)), |w.calls|, any, 5);
            && |w'.calls| == |w.calls| + 1 && w'.calls[|w.calls|].pc == Returned(Released(l))
            && w'.leases == w.leases[l := LeaseState(h, Finished, false)]
            && w'.holders == w.holders[h := w.holders[h].(refs := 0)]
            && w'.locks == w.locks - {w.holders[h].dir}
            && |w'.files| == |w.files| && w'.files[w.holders[h].file].closes == 1
  {
    var w := Run(events);
    CountedHolderIsFree(events, w.leases[l].holder);
    CountedHolderLocks(events, w.leases[l].holder);
    hide *;
    ReleaseLastFrom(w, p, l, any);
  }

  /** A release in its once-guard gives back one of several references. */
  lemma {:induction false} SharedReferenceGoes(b: World, i: nat, l: nat, any: Directory)
    requires i < |b.calls| && b.calls[i] == Call(b.calls[i].process, Releasing(l, false), None)
    requires b.calls[i].process !in b.dead && HasHolder(b, l)
    requires b.holders[b.leases[l].holder].mutex.None? && b.holders[b.leases[l].holder].refs > 1
    ensures var h := b.leases[l].holder;
            var w' := Moved(b, i, any, 2);
            && |w'.calls| == |b.calls| && w'.calls[i].pc == Returned(Released(l))
            && w'.leases == b.leases[l := LeaseState(h, Finished, false)]
            && w'.holders == b.holders[h := b.holders[h].(refs := b.holders[h].refs - 1)]
            && w'.locks == b.locks && w'.files == b.files
  {
    hide Moved, Move;
    var c := GiveBack(b, i, l, false);
    ReleaseMoves(b, i, any);
    FirstMove(b, i, any, 1);
    ReleaseMoves(c, i, any);
    FirstMove(c, i, any, 0);
    NoMove(Leave(c, i, Released(l)), i, any);
  }

  lemma {:induction false} SharedRelease(w: World, p: Process, l: nat, any: Directory)
    requires p !in w.dead && Available(w, p, l) && w.leases[l].once.NotStarted?
    requires w.holders[w.leases[l].holder].refs > 1 && w.holders[w.leases[l].holder].mutex.None?
    ensures var h := w.leases[l].holder;
            var w' := Moved(Step(w, Releases(p, l)), |w.calls|, any, 3);
            && |w'.calls| == |w.calls| + 1 && w'.calls[|w.calls|].pc == Returned(Released(l))
            && w'.leases == w.leases[l := LeaseState(h, Finished, false)]
            && w'.holders == w.holders[h := w.holders[h].(refs := w.holders[h].refs - 1)]
            && w'.locks == w.locks && w'.files == w.files
  {
    hide Moved, Move;
    var i, back := |w.calls|, LeaseState(w.leases[l].holder, Finished, false);
    ReleaseEnters(w, p, l, any, 2);
    var a := Step(w, Releases(p, l));
    assert a == w.(calls := w.calls + [Call(p, Awaiting(l), None)]);
    hide Step;
    var b := a.(calls := a.calls[i := Call(p, Releasing(l, false), None)],
                leases := w.leases[l := w.leases[l].(once := Running(i))]);
    SharedReferenceGoes(b, i, l, any);
    assert b.leases[l := back] == w.leases[l := back];
  }

  /** Releasing a shared lease gives back one reference and leaves the lock where it is. */
  lemma {:induction false} ReleaseSharedAlone(events: seq<Event>, p: Process, l: nat, any: Directory)
    requires var w := Run(events);
             && p !in w.dead && Available(w, p, l) && w.leases[l].once.NotStarted?
             && w.holders[w.leases[l].holder].refs > 1
    ensures var w := Run(events);
            var h := w.leases[l].holder;
            var w' := Moved(Step(w, Releases(p, l)), |w.calls|, any, 3);
            && |w'.calls| == |w.calls| + 1 && w'.calls[|w.calls|].pc == Returned(Released(l))
            && w'.leases == w.leases[l := LeaseState(h, Finished, false)]
            && w'.holders == w.holders[h := w.holders[h].(refs := w.holders[h].refs - 1)]
            && w'.locks == w.locks && w'.files == w.files
  {
    var w := Run(events);
    CountedHolderIsFree(events, w.leases[l].holder);
    hide *;
    SharedRelease(w, p, l, any);
  }

  lemma {:induction false} ProbeFreeFrom(w: World, p: Process, dir: Directory)
    requires p !in w.dead && dir !in w.locks
    requires LocksOk(w)
    ensures var w' := Moved(Step(w, Probes(p)), |w.calls|, dir, 5);
            && |w'.calls| == |w.calls| + 1 && w'.calls[|w.calls|].pc == Returned(Probed(false))
            && w'.leases == w.leases && w'.holders == w.holders && w'.locks == w.locks
  {
    hide Moved, Move;
    NewFileLocksNothing(w, |w.files|);
    hide LocksOk;
    var i, f, a := |w.calls|, |w.files|, Step(w, Probes(p));
    var b := OpenFile(a, i, dir, ProbeOpened(f));
    ProbeMoves(a, i, dir);
    FirstMove(a, i, dir, 4);
    var c := Goto(b, i, ProbeLocked(f)).(locks := w.locks[dir := f]);
    ProbeMoves(b, i, dir);
    FirstMove(b, i, dir, 3);
    var d := Goto(c, i, ProbeClosing(f, false)).(locks := Unlocked(c, f));
    ProbeMoves(c, i, dir);
    FirstMove(c, i, dir, 2);
    assert d.locks == w.locks;
    var e := CloseFile(d, i, f, Leaving(Probed(false)));
    ProbeMoves(d, i, dir);
    FirstMove(d, i, dir, 1);
    ProbeMoves(e, i, dir);
    FirstMove(e, i, dir, 0);
    NoMove(Leave(e, i, Probed(false)), i, dir);
  }

  /** A probe of a free directory answers that it is not held, and leaves the locks as they were. */
  lemma {:induction false} ProbeFreeAlone(events: seq<Event>, p: Process, dir: Directory)
    requires var w := Run(events); p !in w.dead && dir !in w.locks
    ensures var w := Run(events);
            var w' := Moved(Step(w, Probes(p)), |w.calls|, dir, 5);
            && |w'.calls| == |w.calls| + 1 && w'.calls[|w.calls|].pc == Returned(Probed(false))
            && w'.leases == w.leases && w'.holders == w.holders && w'.locks == w.locks
  {
    var w := Run(events);
    RunHasLocks(events);
    hide *;
    ProbeFreeFrom(w, p, dir);
  }

  lemma {:induction false} ProbeLockedFrom(w: World, p: Process, dir: Directory)
    requires p !in w.dead && dir in w.locks
    requires LocksOk(w)
    ensures var w' := Moved(Step(w, Probes(p)), |w.calls|, dir, 4);
            && |w'.calls| == |w.calls| + 1 && w'.calls[|w.calls|].pc == Returned(Probed(true))
            && w'.leases == w.leases && w'.holders == w.holders && w'.locks == w.locks
  {
    hide Moved, Move;
    NewFileLocksNothing(w, |w.files|);
    hide LocksOk;
    var i, f, a := |w.calls|, |w.files|, Step(w, Probes(p));
    var b := OpenFile(a, i, dir, ProbeOpened(f));
    ProbeMoves(a, i, dir);
    FirstMove(a, i, dir, 3);
    var c := Goto(b, i, ProbeClosing(f, true));
    ProbeMoves(b, i, dir);
    FirstMove(b, i, dir, 2);
    var d := CloseFile(c, i, f, Leaving(Probed(true)));
    ProbeMoves(c, i, dir);
    FirstMove(c, i, dir, 1);
    ProbeMoves(d, i, dir);
    FirstMove(d, i, dir, 0);
    NoMove(Leave(d, i, Probed(true)), i, dir);
  }

  /** A probe of a locked directory answers that it is held, and leaves the locks as they were. */
  lemma {:induction false} ProbeLockedAlone(events: seq<Event>, p: Process, dir: Directory)
    requires var w := Run(events); p !in w.dead && dir in w.locks
    ensures var w := Run(events);
            var w' := Moved(Step(w, Probes(p)), |w.calls|, dir, 4);
            && |w'.calls| == |w.calls| + 1 && w'.calls[|w.calls|].pc == Returned(Probed(true))
            && w'.leases == w.leases && w'.holders == w.holders && w'.locks == w.locks
  {
    var w := Run(events);
    RunHasLocks(events);
    hide *;
    ProbeLockedFrom(w, p, dir);
  }

  const FOUND := Choice(Some(7), true)
  const PROBING: seq<Event> := [Probes(1), Moves(0, FOUND), Moves(0, FOUND)]
  const ACQUIRING: seq<Event> := [Acquires(2), Moves(1, FOUND), Moves(1, FOUND)]

  /** A probe alone makes an acquisition report a live owner where there never was a lease. */
  lemma ProbeRefusesAcquire()
    ensures var w := Run(PROBING + ACQUIRING);
            w.leases == [] && |w.calls| == 2 && w.calls[1].pc == Failing(1, OwnerAlive)
  {
    ProbeTakesTheLock();
    var w0 := Run(PROBING);
    hide Run;
    var w1 := Step(w0, Acquires(2));
    var w2 := Step(w1, Moves(1, FOUND));
    var w3 := Step(w2, Moves(1, FOUND));
    RunThree(PROBING, Acquires(2), Moves(1, FOUND), Moves(1, FOUND));
  }

  lemma ProbeTakesTheLock()
    ensures Run(PROBING) == World([File(1, 7, OfCall(0), 0)], map[7 := 0], {}, [], [], [Call(1, ProbeLocked(0), None)])
  {
    assert Run([]) == INITIAL;
    hide Run;
    var w1 := Step(INITIAL, Probes(1));
    var w2 := Step(w1, Moves(0, FOUND));
    var w3 := Step(w2, Moves(0, FOUND));
    RunThree([], Probes(1), Moves(0, FOUND), Moves(0, FOUND));
    assert [] + [Probes(1), Moves(0, FOUND), Moves(0, FOUND)] == PROBING;
  }

  lemma RunThree(events: seq<Event>, a: Event, b: Event, c: Event)
    ensures Run(events + [a, b, c]) == Step(Step(Step(Run(events), a), b), c)
  {
    hide Step;
    RunSnoc(events, a);
    RunSnoc(events + [a], b);
    RunSnoc(events + [a] + [b], c);
    assert events + [a] + [b] + [c] == events + [a, b, c];
  }

  lemma RunSnoc(events: seq<Event>, e: Event)
    ensures Run(events + [e]) == Step(Run(events), e)
  {
    assert (events + [e])[..|events|] == events;
  }
}
