/**
 Private observation (internal/adapter/delegatedtmux/privacy.go, privacy_recovery.go and the attach
 and detach operations of provider_session.go): a persisted privacy record and the one control client
 that observes the pane must agree across arming, releasing, reattaching, detaching and restarts.

 One provider reference; its calls are serialised. What the file system, tmux and the caller's context
 do inside a call is an `Env`. The pane's bytes reach the sink of the installed client unless tmux has
 been told not to send that client any output.
 */
module Privacy {
  import opened Prelude
  import opened Text

  // --------------------------------------------------------------------- state

  type Sink = nat

  datatype Kind = AskFacts | AskGeneration | Unmute | Other

  /** A control client, numbered in order of attachment. `private` is the provider's flag, `muted` is what
      tmux was last told. `commands` are the commands sent through it, `behind` how many of them were
      given up on: from then on each answer is that of an earlier command, as many places back. */
  datatype Observer = Observer(id: nat, pane: string, sink: Option<Sink>, private: bool, muted: bool,
                               commands: seq<Kind>, behind: nat)

  /** A digest, taken as injective, of the text it was computed from; or any text a caller made up. */
  datatype OpaqueRef = Derived(logical: string) | Foreign(text: string)

  datatype Handle = Handle(tag: OpaqueRef, generation: string)

  datatype Record = Record(generation: string, handoff: string, epoch: nat, tag: OpaqueRef, active: bool)

  function HandleOf(record: Record): Handle { Handle(record.tag, record.generation) }

  datatype State = State(generation: string, pane: string)

  datatype World = World(ref: string, state: Option<State>, record: Option<Record>, observer: Option<Observer>,
                         attached: nat)

  datatype Spec = Spec(handoff: string, epoch: nat)

  datatype Boundary = Boundary(valid: bool, handoff: string, epoch: nat)

  // --------------------------------------------------------------- environment

  /** Temp file and rename: stored; not stored; or stored although the call reports an error. */
  datatype Save = Saved | NotSaved | SavedWithError

  datatype Facts = Verified | Unreadable | Mismatched

  /** A command's wait: an answer came, good or an error; or it was given up. */
  datatype Reply = Came(good: bool) | Abandoned

  /** `ready`: the provider's own state and server check out. `readable`: the record file can be read.
      `factsReply`, `generationReply`, `matches`: the two queries of an identity check through the installed
      client. `reply`, `applied`: the further command of a call, and whether tmux carried it out.
      `attaches`, `newFacts`: a new client starts and is checked. `targets`, `retargets`: pending output is
      written to the sink. `starts`: the start gate opens. `kills`, `removesRecord`, `removesState`: what
      Close manages. */
  datatype Env = Env(ready: bool, readable: bool, factsReply: Reply, generationReply: Reply, matches: bool,
                     reply: Reply, applied: bool,
                     attaches: bool, newFacts: Facts, targets: bool, retargets: bool, starts: bool,
                     save: Save, stateSave: Save, kills: bool, removesRecord: bool, removesState: bool)

  datatype Outcome = Failed(code: string) | Armed(handle: Handle) | Proved(handle: Handle) | Done

  // ---------------------------------------------------------------- small parts

  predicate OpaqueChar(c: char) {
    'a' <= c <= 'z' || 'A' <= c <= 'Z' || '0' <= c <= '9' || c in {'_', '-', '.'}
  }

  predicate ValidOpaque(v: string) { 0 < |v| <= 128 && forall i | 0 <= i < |v| :: OpaqueChar(v[i]) }

  predicate ValidSpec(spec: Spec) { ValidOpaque(spec.handoff) && spec.epoch >= 1 }

  predicate ValidHandle(handle: Handle) {
    (handle.tag.Foreign? ==> ValidOpaque(handle.tag.text)) && ValidOpaque(handle.generation)
  }

  predicate BoundaryFor(boundary: Boundary, record: Record) {
    boundary.valid && boundary.handoff == record.handoff && boundary.epoch == record.epoch
  }

  /** privacy.go `newPrivacyHandle`. */
  function NewHandle(ref: string, generation: string, spec: Spec): Handle {
    Handle(Derived(Join([ref, generation, spec.handoff, Decimal(spec.epoch)], ['\0'])), generation)
  }

  /** A new client, checked, takes the place of the old one, if any. */
  function Install(w: World, pane: string, sink: Option<Sink>, private: bool): World {
    w.(observer := Some(Observer(w.attached, pane, sink, private, private, [AskFacts, AskGeneration], 0)),
       attached := w.attached + 1)
  }

  /** One command: the answer that came, if any, and the command it really answers. */
  function Send(o: Observer, kind: Kind, reply: Reply): (Observer, Option<Kind>) {
    var commands := o.commands + [kind];
    if reply.Abandoned? then (o.(commands := commands, behind := o.behind + 1), None)
    else
      (o.(commands := commands),
       if o.behind < |commands| && reply.good then Some(commands[|commands| - 1 - o.behind]) else None)
  }

  /** provider_tmux.go `queryFacts` and `verifyFacts`: an answer to any other command does not parse. */
  function Check(o: Observer, env: Env): (Observer, Facts) {
    var (asked, facts) := Send(o, AskFacts, env.factsReply);
    if facts != Some(AskFacts) then (asked, Unreadable)
    else
      var (checked, generation) := Send(asked, AskGeneration, env.generationReply);
      (checked, if generation == Some(AskGeneration) && env.matches then Verified else Mismatched)
  }

  function Observing(w: World, o: Observer): World { w.(observer := Some(o)) }

  function Store(w: World, record: Record, save: Save): World {
    if save == NotSaved then w else w.(record := Some(record))
  }

  /** The outcome of checking facts through a client. */
  function Checked(facts: Facts, code: string): Option<string> {
    match facts
    case Verified => None
    case Unreadable => Some(code)
    case Mismatched => Some("provider_mismatch")
  }

  // ---------------------------------------------------------------- operations

  function ArmObserver(w: World, spec: Spec, env: Env): (World, Outcome)
    requires w.state.Some?
  {
    var state := w.state.value;
    if w.observer.None? then (w, Failed("observer_missing"))
    else if w.observer.value.pane != state.pane || w.observer.value.sink.None? then
      (w, Failed("observer_target_missing"))
    else if !env.attaches then (w, Failed("private_attach"))
    else if env.newFacts != Verified then (w, Failed(Checked(env.newFacts, "private_attach_proof").value))
    else if !env.targets then (w, Failed("private_target"))
    else
      var handle := NewHandle(w.ref, state.generation, spec);
      var w' := Install(w, state.pane, w.observer.value.sink, true);
      var record := Record(state.generation, spec.handoff, spec.epoch, handle.tag, true);
      (Store(w', record, env.save), if env.save == Saved then Armed(handle) else Failed("privacy_state_write"))
  }

  /** privacy_recovery.go `replaceWithPrivateObserver`. */
  function Replace(w: World, sink: Option<Sink>, env: Env): (World, Option<string>)
    requires w.state.Some?
  {
    if !env.attaches then (w, Some("private_reattach"))
    else if env.newFacts != Verified then (w, Checked(env.newFacts, "private_reattach_proof"))
    else if !env.targets then (w, Some("private_target"))
    else (Install(w, w.state.value.pane, sink, true), None)
  }

  /** privacy_recovery.go `ensureCurrentObserverPrivate`. */
  function EnsurePrivate(w: World, env: Env): (World, Option<string>)
    requires w.state.Some?
  {
    if w.observer.None? then (w, Some("observer_target_missing"))
    else if !w.observer.value.private then ReplaceOrFail(w, env)
    else
      var (o, facts) := Check(w.observer.value, env);
      if facts == Verified then (Observing(w, o), None) else ReplaceOrFail(Observing(w, o), env)
  }

  function ReplaceOrFail(w: World, env: Env): (World, Option<string>)
    requires w.state.Some? && w.observer.Some?
  {
    if w.observer.value.sink.None? then (w, Some("observer_target_missing")) else Replace(w, w.observer.value.sink, env)
  }

  function Arm(w: World, spec: Spec, env: Env): (World, Outcome) {
    if !ValidSpec(spec) then (w, Failed("privacy_spec"))
    else if w.state.None? || !env.ready then (w, Failed("provider_lost"))
    else if w.record.None? then ArmObserver(w, spec, env)
    else if !env.readable then (w, Failed("privacy_state_invalid"))
    else
      var existing := w.record.value;
      if existing.generation != w.state.value.generation then (w, Failed("active_binding_conflict"))
      else if !existing.active then
        if existing.handoff == spec.handoff then (w, Failed("privacy_already_released"))
        else if spec.epoch <= existing.epoch then (w, Failed("stale_privacy_epoch"))
        else ArmObserver(w, spec, env)
      else if existing.handoff != spec.handoff then (w, Failed("active_binding_conflict"))
      else
        var (w', error) := EnsurePrivate(w, env);
        if error.Some? then (w', Failed(error.value))
        else if spec.epoch < existing.epoch then (w', Failed("stale_privacy_epoch"))
        else if spec.epoch == existing.epoch then (w', Armed(HandleOf(existing)))
        else
          var handle := NewHandle(w.ref, w.state.value.generation, spec);
          var record := existing.(epoch := spec.epoch, tag := handle.tag);
          (Store(w', record, env.save), if env.save == Saved then Armed(handle) else Failed("privacy_state_write"))
  }

  function Prove(w: World, handle: Handle, env: Env): (World, Outcome) {
    if !ValidHandle(handle) then (w, Failed("privacy_handle"))
    else if w.state.None? || !env.ready then (w, Failed("provider_lost"))
    else if w.record.None? || !env.readable || !w.record.value.active || HandleOf(w.record.value) != handle
            || w.record.value.generation != w.state.value.generation then (w, Failed("private_proof_unavailable"))
    else if w.observer.None? || !w.observer.value.private then (w, Failed("observer_not_private"))
    else
      var (o, facts) := Check(w.observer.value, env);
      (Observing(w, o), if facts == Verified then Proved(handle) else Failed(Checked(facts, "observer_proof").value))
  }

  /** tmux carries out an answered command exactly when the answer is good, unless the answer is that of
      another command. */
  predicate Applies(o: Observer, env: Env) { if o.behind == 0 && env.reply.Came? then env.reply.good else env.applied }

  /** The answer to the unmute command, or what is taken for it, decides the flag and the record. */
  function Unmuting(w: World, env: Env): (World, Outcome)
    requires w.observer.Some? && w.record.Some?
  {
    var (sent, _) := Send(w.observer.value, Unmute, env.reply);
    var o := sent.(muted := sent.muted && !Applies(w.observer.value, env));
    if env.reply != Came(true) then (Observing(w, o), Failed("release_command"))
    else
      (Store(Observing(w, o.(private := false)), w.record.value.(active := false), env.save),
       if env.save == Saved then Done else Failed("privacy_state_write"))
  }

  /** Release gets as far as its unmute command. */
  predicate ReleaseUnmutes(w: World, handle: Handle, boundary: Boundary, env: Env) {
    && ValidHandle(handle) && w.state.Some? && env.ready
    && w.record.Some? && env.readable && HandleOf(w.record.value) == handle
    && w.record.value.generation == w.state.value.generation
    && BoundaryFor(boundary, w.record.value) && w.record.value.active
    && w.observer.Some? && w.observer.value.private && Check(w.observer.value, env).1 == Verified
  }

  function Release(w: World, handle: Handle, boundary: Boundary, env: Env): (World, Outcome) {
    if !ValidHandle(handle) then (w, Failed("privacy_handle"))
    else if w.state.None? || !env.ready then (w, Failed("provider_lost"))
    else if w.record.None? || !env.readable || HandleOf(w.record.value) != handle
            || w.record.value.generation != w.state.value.generation then (w, Failed("privacy_binding_missing"))
    else if !BoundaryFor(boundary, w.record.value) then (w, Failed("boundary_unproven"))
    else if !w.record.value.active then (w, Done)
    else if w.observer.None? || !w.observer.value.private then (w, Failed("observer_not_private"))
    else
      var (o, facts) := Check(w.observer.value, env);
      if facts != Verified then (Observing(w, o), Failed(Checked(facts, "observer_proof").value))
      else Unmuting(Observing(w, o), env)
  }

  /** provider_session.go `Inspect`: an identity check through the installed client. */
  function Inspect(w: World, env: Env): (World, Outcome) {
    if w.state.None? then (w, Failed("private_state"))
    else if w.observer.None? then (w, Failed("observer_missing"))
    else
      var (o, facts) := Check(w.observer.value, env);
      (Observing(w, o), if facts == Verified then Done else Failed(Checked(facts, "inspect").value))
  }

  /** provider_session.go `Write`, of up to 1024 bytes: an inspection, then a command. */
  function Write(w: World, env: Env): (World, Outcome) {
    var (w', outcome) := Inspect(w, env);
    if outcome.Failed? || w'.observer.None? then (w', outcome)
    else
      (Observing(w', Send(w'.observer.value, Other, env.reply).0),
       if env.reply == Came(true) then Done else Failed("write"))
  }

  /** Reattach through the client already installed. */
  function ReattachExisting(w: World, sink: Option<Sink>, env: Env): (World, Outcome)
    requires w.state.Some? && w.observer.Some?
  {
    var (o, facts) := Check(w.observer.value, env);
    if facts != Verified then (Observing(w, o), Failed(Checked(facts, "inspect_existing").value))
    else
      (Observing(w, o.(pane := w.state.value.pane, sink := sink)),
       if env.retargets then Done else Failed("output_sink"))
  }

  function ReattachNew(w: World, private: bool, sink: Option<Sink>, env: Env): (World, Outcome)
    requires w.state.Some?
  {
    if !env.attaches then (w, Failed("control_reattach"))
    else if env.newFacts != Verified then (w, Failed(Checked(env.newFacts, "inspect_reattach").value))
    else if !env.targets then (w, Failed("output_sink"))
    else
      (Install(w, w.state.value.pane, sink, private),
       if env.starts then Done else Failed("start_gate"))
  }

  function Reattach(w: World, sink: Option<Sink>, env: Env): (World, Outcome) {
    if w.state.None? || !env.ready then (w, Failed("private_state_missing"))
    else if w.record.Some? && !env.readable then (w, Failed("privacy_state_invalid"))
    else if w.record.Some? && w.record.value.generation != w.state.value.generation then
      (w, Failed("privacy_provider_mismatch"))
    else
      var active := w.record.Some? && w.record.value.active;
      if w.observer.None? then ReattachNew(w, active, sink, env)
      else if active && !w.observer.value.private then
        var (w', error) := Replace(w, sink, env);
        if error.Some? then (w', Failed(error.value)) else ReattachExisting(w', sink, env)
      else ReattachExisting(w, sink, env)
  }

  function Detach(w: World): (World, Outcome) {
    if w.state.None? then (w, Failed("private_state")) else (w.(observer := None), Done)
  }

  /** Create on a missing state: a fresh session of a new generation with an ordinary client. */
  function CreateFresh(w: World, state: State, sink: Option<Sink>, env: Env): (World, Outcome) {
    if !ValidOpaque(state.generation) || !env.ready || !env.attaches || env.newFacts != Verified || !env.targets then
      (w, Failed("create"))
    else if env.stateSave == NotSaved then (w, Failed("private_state_write"))
    else if env.stateSave == SavedWithError then (w.(state := Some(state)), Failed("private_state_write"))
    else
      (Install(w.(state := Some(state)), state.pane, sink, false),
       if env.starts then Done else Failed("start_gate"))
  }

  function Create(w: World, state: State, sink: Option<Sink>, env: Env): (World, Outcome) {
    if w.state.Some? then Reattach(w, sink, env) else CreateFresh(w, state, sink, env)
  }

  function Close(w: World, env: Env): (World, Outcome) {
    var w' := w.(observer := None);
    if w.state.Some? && !env.kills then (w', Failed("kill_server"))
    else if !env.removesRecord then (w', Failed("privacy_remove"))
    else if !env.removesState then (w'.(record := None), Failed("state_remove"))
    else (w'.(record := None, state := None), Done)
  }

  // ------------------------------------------------------------- the provider

  class ControlClient {
    const id: nat
    var pane: string
    var sink: Option<Sink>
    var privateObservation: bool
    var muted: bool
    var commands: seq<Kind>
    var behind: nat

    /** Attaches with the no-output flag exactly when private, and is checked once. */
    constructor (id: nat, private: bool)
      ensures View() == Observer(id, "", None, private, private, [AskFacts, AskGeneration], 0)
    {
      this.id := id;
      pane, sink, privateObservation, muted := "", None, private, private;
      commands, behind := [AskFacts, AskGeneration], 0;
    }

    function View(): Observer
      reads this
    {
      Observer(id, pane, sink, privateObservation, muted, commands, behind)
    }

    method SetTarget(pane: string, sink: Option<Sink>)
      modifies this
      ensures View() == old(View()).(pane := pane, sink := sink)
    {
      this.pane := pane;
      this.sink := sink;
    }

    /** Results are taken from one queue, so an answer that nobody waited for is taken by the next call. */
    method Command(kind: Kind, reply: Reply) returns (answer: Option<Kind>)
      modifies this
      ensures (View(), answer) == Send(old(View()), kind, reply)
    {
      commands := commands + [kind];
      if reply.Abandoned? {
        behind := behind + 1;
        return None;
      }
      if behind < |commands| && reply.good {
        return Some(commands[|commands| - 1 - behind]);
      }
      return None;
    }

    method CheckFacts(env: Env) returns (facts: Facts)
      modifies this
      ensures (View(), facts) == Check(old(View()), env)
    {
      var answer := Command(AskFacts, env.factsReply);
      if answer != Some(AskFacts) {
        return Unreadable;
      }
      answer := Command(AskGeneration, env.generationReply);
      if answer != Some(AskGeneration) || !env.matches {
        return Mismatched;
      }
      return Verified;
    }
  }

  class Provider {
    const ref: string
    var state: Option<State>
    var record: Option<Record>
    var control: ControlClient?
    var attached: nat

    constructor (ref: string)
      ensures View() == World(ref, None, None, None, 0)
    {
      this.ref := ref;
      state, record, control, attached := None, None, null, 0;
    }

    function View(): World
      reads this, control
    {
      World(ref, state, record, if control == null then None else Some(control.View()), attached)
    }

    method SaveRecord(record: Record, save: Save) returns (ok: bool)
      modifies this`record
      ensures View() == Store(old(View()), record, save)
      ensures ok <==> save == Saved
    {
      if save != NotSaved {
        this.record := Some(record);
      }
      return save == Saved;
    }

    method InstallClient(pane: string, sink: Option<Sink>, private: bool)
      modifies this`control, this`attached
      ensures View() == Install(old(View()), pane, sink, private)
      ensures control != null && fresh(control)
    {
      var client := new ControlClient(attached, private);
      client.SetTarget(pane, sink);
      control, attached := client, attached + 1;
    }

    method ArmPrivateObserver(spec: Spec, handle: Handle, env: Env) returns (r: Outcome)
      requires state.Some? && handle == NewHandle(ref, state.value.generation, spec)
      modifies this`control, this`attached, this`record
      ensures (View(), r) == ArmObserver(old(View()), spec, env)
    {
      if control == null {
        return Failed("observer_missing");
      }
      var sink := control.sink;
      if control.pane != state.value.pane || sink.None? {
        return Failed("observer_target_missing");
      }
      if !env.attaches {
        return Failed("private_attach");
      }
      var wrong := Checked(env.newFacts, "private_attach_proof");
      if wrong.Some? {
        return Failed(wrong.value);
      }
      if !env.targets {
        return Failed("private_target");
      }
      InstallClient(state.value.pane, sink, true);
      var ok := SaveRecord(Record(state.value.generation, spec.handoff, spec.epoch, handle.tag, true), env.save);
      if !ok {
        return Failed("privacy_state_write");
      }
      return Armed(handle);
    }

    method ReplaceWithPrivateObserver(sink: Option<Sink>, env: Env) returns (error: Option<string>)
      requires state.Some?
      modifies this`control, this`attached
      ensures (View(), error) == Replace(old(View()), sink, env)
      ensures error.None? ==> control != null && fresh(control)
      ensures error.Some? ==> control == old(control)
    {
      if !env.attaches {
        return Some("private_reattach");
      }
      var wrong := Checked(env.newFacts, "private_reattach_proof");
      if wrong.Some? {
        return wrong;
      }
      if !env.targets {
        return Some("private_target");
      }
      InstallClient(state.value.pane, sink, true);
      return None;
    }

    method EnsureCurrentObserverPrivate(env: Env) returns (error: Option<string>)
      requires state.Some?
      modifies this`control, this`attached, control
      ensures (View(), error) == EnsurePrivate(old(View()), env)
    {
      if control != null && control.privateObservation {
        var facts := control.CheckFacts(env);
        if facts == Verified {
          return None;
        }
      }
      var sink: Option<Sink> := None;
      if control != null {
        sink := control.sink;
      }
      if sink.None? {
        return Some("observer_target_missing");
      }
      error := ReplaceWithPrivateObserver(sink, env);
    }

    method ArmPrivateObservation(spec: Spec, env: Env) returns (r: Outcome)
      modifies this`control, this`attached, this`record, control
      ensures (View(), r) == Arm(old(View()), spec, env)
    {
      if !ValidSpec(spec) {
        return Failed("privacy_spec");
      }
      if state.None? || !env.ready {
        return Failed("provider_lost");
      }
      var handle := NewHandle(ref, state.value.generation, spec);
      if record.None? {
        r := ArmPrivateObserver(spec, handle, env);
        return;
      }
      if !env.readable {
        return Failed("privacy_state_invalid");
      }
      var existing := record.value;
      if existing.generation != state.value.generation {
        return Failed("active_binding_conflict");
      }
      if !existing.active {
        if existing.handoff == spec.handoff {
          return Failed("privacy_already_released");
        }
        if spec.epoch <= existing.epoch {
          return Failed("stale_privacy_epoch");
        }
        r := ArmPrivateObserver(spec, handle, env);
        return;
      }
      r := Rearm(existing, spec, handle, env);
    }

    /** Arming a handoff whose interval is already active. */
    method Rearm(existing: Record, spec: Spec, handle: Handle, env: Env) returns (r: Outcome)
      requires ValidSpec(spec) && env.ready && env.readable
      requires state.Some? && handle == NewHandle(ref, state.value.generation, spec)
      requires record == Some(existing) && existing.generation == state.value.generation && existing.active
      modifies this`control, this`attached, this`record, control
      ensures (View(), r) == Arm(old(View()), spec, env)
    {
      if existing.handoff != spec.handoff {
        return Failed("active_binding_conflict");
      }
      var error := EnsureCurrentObserverPrivate(env);
      if error.Some? {
        return Failed(error.value);
      }
      if spec.epoch < existing.epoch {
        return Failed("stale_privacy_epoch");
      }
      if spec.epoch == existing.epoch {
        return Armed(HandleOf(existing));
      }
      var ok := SaveRecord(existing.(epoch := spec.epoch, tag := handle.tag), env.save);
      if !ok {
        return Failed("privacy_state_write");
      }
      return Armed(handle);
    }

    method ProvePrivateObservation(handle: Handle, env: Env) returns (r: Outcome)
      modifies control
      ensures (View(), r) == Prove(old(View()), handle, env)
    {
      if !ValidHandle(handle) {
        return Failed("privacy_handle");
      }
      if state.None? || !env.ready {
        return Failed("provider_lost");
      }
      if record.None? || !env.readable || !record.value.active || HandleOf(record.value) != handle
         || record.value.generation != state.value.generation {
        return Failed("private_proof_unavailable");
      }
      if control == null || !control.privateObservation {
        return Failed("observer_not_private");
      }
      var facts := control.CheckFacts(env);
      if facts != Verified {
        return Failed(Checked(facts, "observer_proof").value);
      }
      return Proved(handle);
    }

    method ReleasePrivateObservation(handle: Handle, boundary: Boundary, env: Env) returns (r: Outcome)
      modifies this`record, control
      ensures (View(), r) == Release(old(View()), handle, boundary, env)
    {
      hide Check, Unmuting;
      if !ValidHandle(handle) {
        return Failed("privacy_handle");
      }
      if state.None? || !env.ready {
        return Failed("provider_lost");
      }
      if record.None? || !env.readable || HandleOf(record.value) != handle
         || record.value.generation != state.value.generation {
        return Failed("privacy_binding_missing");
      }
      if !BoundaryFor(boundary, record.value) {
        return Failed("boundary_unproven");
      }
      if !record.value.active {
        return Done;
      }
      if control == null || !control.privateObservation {
        return Failed("observer_not_private");
      }
      var facts := control.CheckFacts(env);
      if facts != Verified {
        return Failed(Checked(facts, "observer_proof").value);
      }
      r := UnmuteAndRecord(control, record.value, env);
    }

    method UnmuteAndRecord(client: ControlClient, active: Record, env: Env) returns (r: Outcome)
      requires control == client && record == Some(active)
      modifies this`record, client
      ensures (View(), r) == Unmuting(old(View()), env)
    {
      hide Send;
      var applies := Applies(client.View(), env);
      var _ := client.Command(Unmute, env.reply);
      if applies {
        client.muted := false;
      }
      if env.reply != Came(true) {
        return Failed("release_command");
      }
      client.privateObservation := false;
      var ok := SaveRecord(active.(active := false), env.save);
      if !ok {
        return Failed("privacy_state_write");
      }
      return Done;
    }

    method ReattachSession(sink: Option<Sink>, env: Env) returns (r: Outcome)
      modifies this`control, this`attached, control
      ensures (View(), r) == Reattach(old(View()), sink, env)
    {
      hide Check, Send, ReattachNew;
      if state.None? || !env.ready {
        return Failed("private_state_missing");
      }
      if record.Some? && !env.readable {
        return Failed("privacy_state_invalid");
      }
      if record.Some? && record.value.generation != state.value.generation {
        return Failed("privacy_provider_mismatch");
      }
      var active := record.Some? && record.value.active;
      if control != null && active && !control.privateObservation {
        var error := ReplaceWithPrivateObserver(sink, env);
        if error.Some? {
          return Failed(error.value);
        }
      }
      if control != null {
        r := ReattachThrough(control, sink, env);
      } else {
        r := ReattachFresh(active, sink, env);
      }
    }

    method ReattachThrough(existing: ControlClient, sink: Option<Sink>, env: Env) returns (r: Outcome)
      requires state.Some? && control == existing
      modifies existing
      ensures (View(), r) == ReattachExisting(old(View()), sink, env)
    {
      var facts := existing.CheckFacts(env);
      if facts != Verified {
        return Failed(Checked(facts, "inspect_existing").value);
      }
      existing.SetTarget(state.value.pane, sink);
      return if env.retargets then Done else Failed("output_sink");
    }

    method ReattachFresh(private: bool, sink: Option<Sink>, env: Env) returns (r: Outcome)
      requires state.Some?
      modifies this`control, this`attached
      ensures (View(), r) == ReattachNew(old(View()), private, sink, env)
    {
      if !env.attaches {
        return Failed("control_reattach");
      }
      var wrong := Checked(env.newFacts, "inspect_reattach");
      if wrong.Some? {
        return Failed(wrong.value);
      }
      if !env.targets {
        return Failed("output_sink");
      }
      InstallClient(state.value.pane, sink, private);
      return if env.starts then Done else Failed("start_gate");
    }

    /** Create: resume an existing session, or set up a fresh one with an ordinary client. */
    method CreateSession(created: State, sink: Option<Sink>, env: Env) returns (r: Outcome)
      modifies this`state, this`control, this`attached, control
      ensures (View(), r) == Create(old(View()), created, sink, env)
    {
      if state.Some? {
        r := ReattachSession(sink, env);
        return;
      }
      if !ValidOpaque(created.generation) || !env.ready || !env.attaches || env.newFacts != Verified || !env.targets {
        return Failed("create");
      }
      if env.stateSave != NotSaved {
        state := Some(created);
      }
      if env.stateSave != Saved {
        return Failed("private_state_write");
      }
      InstallClient(created.pane, sink, false);
      return if env.starts then Done else Failed("start_gate");
    }

    method DetachSession() returns (r: Outcome)
      modifies this`control
      ensures (View(), r) == Detach(old(View()))
    {
      if state.None? {
        return Failed("private_state");
      }
      control := null;
      return Done;
    }

    method CloseSession(env: Env) returns (r: Outcome)
      modifies this`control, this`record, this`state
      ensures (View(), r) == Close(old(View()), env)
    {
      control := null;
      if state.Some? && !env.kills {
        return Failed("kill_server");
      }
      if !env.removesRecord {
        return Failed("privacy_remove");
      }
      record := None;
      if !env.removesState {
        return Failed("state_remove");
      }
      state := None;
      return Done;
    }
  }

  // ---------------------------------------------------------------------- runs

  datatype Event =
    | Arms(spec: Spec, env: Env)
    | Proves(handle: Handle, env: Env)
    | Releases(handle: Handle, boundary: Boundary, env: Env)
    | Reattaches(sink: Option<Sink>, env: Env)
    | Inspects(env: Env)
    | Writes(env: Env)
    | Detaches
    | Creates(state: State, sink: Option<Sink>, env: Env)
    | Closes(env: Env)
    | Restarts
    | Emits(output: char)

  function Do(w: World, e: Event): (World, Outcome) {
    match e
    case Arms(spec, env) => Arm(w, spec, env)
    case Proves(handle, env) => Prove(w, handle, env)
    case Releases(handle, boundary, env) => Release(w, handle, boundary, env)
    case Reattaches(sink, env) => Reattach(w, sink, env)
    case Inspects(env) => Inspect(w, env)
    case Writes(env) => Write(w, env)
    case Detaches => Detach(w)
    case Creates(state, sink, env) => Create(w, state, sink, env)
    case Closes(env) => Close(w, env)
    case Restarts => (w.(observer := None), Done)
    case Emits(_) => (w, Done)
  }

  /** The record marks a private interval of the provider's present generation. */
  predicate Interval(w: World) {
    w.record.Some? && w.record.value.active && w.state.Some? && w.record.value.generation == w.state.value.generation
  }

  /** Output would reach a sink. */
  predicate Audible(w: World) { w.observer.Some? && !w.observer.value.muted && w.observer.value.sink.Some? }

  /** The release's command was answered, but the record kept its old contents. */
  predicate Unrecorded(w: World, e: Event) {
    e.Releases? && ReleaseUnmutes(w, e.handle, e.boundary, e.env) && e.env.reply == Came(true) && e.env.save == NotSaved
  }

  /** The release was carried out by tmux, but the record does not say so: not stored, or never tried
      because no good answer came. */
  predicate Loosens(w: World, e: Event) {
    && e.Releases? && ReleaseUnmutes(w, e.handle, e.boundary, e.env) && Applies(Check(w.observer.value, e.env).0, e.env)
    && (e.env.reply != Came(true) || e.env.save == NotSaved)
  }

  /** A run with its history: what was armed and handed out under the stored record, which clients a
      release went unrecorded on or loosened, and the output that reached a sink inside an interval. */
  datatype Trace = Trace(world: World, issued: set<Spec>, unrecorded: set<nat>, loosened: set<nat>, leaked: string)

  function Step(t: Trace, e: Event): Trace {
    var w := t.world;
    var (w', outcome) := Do(w, e);
    Trace(w',
          if w'.record.None? then {} else t.issued + (if e.Arms? && outcome.Armed? then {e.spec} else {}),
          t.unrecorded + (if Unrecorded(w, e) then {w.observer.value.id} else {}),
          t.loosened + (if Loosens(w, e) then {w.observer.value.id} else {}),
          t.leaked + (if e.Emits? && Interval(w) && Audible(w) then [e.output] else ""))
  }

  function Start(ref: string): Trace { Trace(World(ref, None, None, None, 0), {}, {}, {}, "") }

  function RunFrom(t: Trace, events: seq<Event>): Trace {
    if events == [] then t else Step(RunFrom(t, events[..|events| - 1]), events[|events| - 1])
  }

  // ------------------------------------------------------------------- handles

  lemma OpaqueIsNulFree(v: string)
    requires ValidOpaque(v)
    ensures '\0' !in v
  {
  }

  /** Handles of one provider name their generation, handoff and epoch. */
  lemma HandleInjective(ref: string, g: string, h: string, a: Spec, b: Spec)
    requires ValidOpaque(ref) && ValidOpaque(g) && ValidOpaque(h) && ValidSpec(a) && ValidSpec(b)
    requires NewHandle(ref, g, a) == NewHandle(ref, h, b)
    ensures g == h && a == b
  {
    var x, y := [ref, g, a.handoff, Decimal(a.epoch)], [ref, h, b.handoff, Decimal(b.epoch)];
    OpaqueIsNulFree(ref);
    OpaqueIsNulFree(g);
    OpaqueIsNulFree(a.handoff);
    OpaqueIsNulFree(b.handoff);
    assert AllDigits(Decimal(a.epoch)) && AllDigits(Decimal(b.epoch));
    JoinInjective(x, y, '\0');
    assert x[2] == y[2] && x[3] == y[3];
    DecimalRoundTrip(a.epoch);
    DecimalRoundTrip(b.epoch);
  }

  // ----------------------------------------------------------------- invariant

  function SpecOf(record: Record): Spec { Spec(record.handoff, record.epoch) }

  ghost predicate RecordOk(w: World) {
    && ValidOpaque(w.ref)
    && (w.state.Some? ==> ValidOpaque(w.state.value.generation))
    && (w.record.Some? ==>
          && w.state.Some? && w.record.value.generation == w.state.value.generation
          && ValidSpec(SpecOf(w.record.value))
          && HandleOf(w.record.value) == NewHandle(w.ref, w.record.value.generation, SpecOf(w.record.value)))
  }

  ghost predicate ObserverOk(t: Trace) {
    && (forall id | id in t.unrecorded :: id < t.world.attached)
    && (forall id | id in t.loosened :: id < t.world.attached)
    && (t.world.observer.Some? ==>
          var o := t.world.observer.value;
          && o.id < t.world.attached
          && (o.id in t.unrecorded ==> !o.private)
          && (o.private || Interval(t.world) ==> (o.muted <==> o.id !in t.loosened))
          && (o.private && o.id in t.loosened ==> o.behind > 0)
          && (Interval(t.world) && !o.private ==> o.id in t.unrecorded))
  }

  ghost predicate IssuedOk(t: Trace) {
    forall s | s in t.issued ::
      && ValidSpec(s) && t.world.record.Some?
      && (s.epoch < t.world.record.value.epoch || s == SpecOf(t.world.record.value))
  }

  ghost predicate Inv(t: Trace) { RecordOk(t.world) && ObserverOk(t) && IssuedOk(t) }

  /** Sending commands changes nothing about a client but its queue. */
  lemma SendKeeps(o: Observer, kind: Kind, reply: Reply)
    ensures var o' := Send(o, kind, reply).0;
            o'.(commands := o.commands, behind := o.behind) == o && o'.behind >= o.behind &&
              (reply.Abandoned? ==> o'.behind > 0)
  {
  }

  lemma CheckKeeps(o: Observer, env: Env)
    ensures var o' := Check(o, env).0;
            o'.(commands := o.commands, behind := o.behind) == o && o'.behind >= o.behind
  {
  }

  /** With exactly one answer lost no check succeeds: the second query is answered by the first. */
  lemma OneLostAnswerFailsChecks(o: Observer, env: Env)
    requires o.behind == 1
    ensures Check(o, env).1 != Verified
  {
    var (asked, facts) := Send(o, AskFacts, env.factsReply);
    if facts == Some(AskFacts) {
      assert asked.behind == 1;
      assert (asked.commands + [AskGeneration])[|asked.commands| - 1] == AskFacts;
    }
  }

  lemma EnsureKeepsRecord(w: World, env: Env)
    requires w.state.Some?
    ensures var w' := EnsurePrivate(w, env).0; w'.ref == w.ref && w'.state == w.state && w'.record == w.record
  {
    hide Check;
  }

  lemma ArmObserverKeepsRecord(w: World, spec: Spec, env: Env)
    requires RecordOk(w) && w.state.Some? && ValidSpec(spec)
    ensures RecordOk(ArmObserver(w, spec, env).0) && ArmObserver(w, spec, env).0.ref == w.ref
  {
    hide ValidOpaque, Join, Decimal;
  }

  lemma ArmKeepsRecord(w: World, spec: Spec, env: Env)
    requires RecordOk(w)
    ensures RecordOk(Arm(w, spec, env).0) && Arm(w, spec, env).0.ref == w.ref
  {
    hide ValidOpaque, Join, Decimal, EnsurePrivate, ArmObserver;
    if ValidSpec(spec) && w.state.Some? {
      EnsureKeepsRecord(w, env);
      ArmObserverKeepsRecord(w, spec, env);
    }
  }

  lemma StepKeepsRecord(w: World, e: Event)
    requires RecordOk(w)
    ensures RecordOk(Do(w, e).0) && Do(w, e).0.ref == w.ref
  {
    hide ValidOpaque, Join, Decimal, ValidHandle, BoundaryFor, Arm, Check, Send;
    if e.Arms? {
      ArmKeepsRecord(w, e.spec, e.env);
    } else if e.Reattaches? {
      ReattachKeepsRecord(w, e.sink, e.env);
    } else if e.Creates? {
      ReattachKeepsRecord(w, e.sink, e.env);
      hide Reattach;
    }
  }

  lemma ReattachKeepsRecord(w: World, sink: Option<Sink>, env: Env)
    ensures var w' := Reattach(w, sink, env).0; w'.record == w.record && w'.state == w.state && w'.ref == w.ref
  {
    hide Check, Send;
  }

  lemma EnsureKeepsObserver(t: Trace, env: Env)
    requires ObserverOk(t) && t.world.state.Some?
    ensures var w' := EnsurePrivate(t.world, env).0;
            ObserverOk(t.(world := w')) && w'.record == t.world.record && w'.state == t.world.state
  {
    hide Check;
    if t.world.observer.Some? {
      CheckKeeps(t.world.observer.value, env);
    }
  }

  lemma ArmObserverKeepsObserver(t: Trace, spec: Spec, env: Env)
    requires ObserverOk(t) && t.world.state.Some?
    ensures ObserverOk(t.(world := ArmObserver(t.world, spec, env).0))
  {
    hide NewHandle;
  }

  /** Moving an active record on keeps the interval, so the client stays in order. */
  lemma RecordKeepsObserver(t: Trace, record: Record, save: Save)
    requires ObserverOk(t) && Interval(t.world) && record.active && record.generation == t.world.record.value.generation
    ensures ObserverOk(t.(world := Store(t.world, record, save)))
  {
  }

  lemma ArmKeepsWorld(t: Trace, spec: Spec, env: Env)
    requires RecordOk(t.world) && ObserverOk(t)
    ensures ObserverOk(t.(world := Arm(t.world, spec, env).0))
  {
    var w := t.world;
    if ValidSpec(spec) && w.state.Some? && env.ready {
      ArmObserverKeepsObserver(t, spec, env);
      EnsureKeepsObserver(t, env);
      if w.record.Some? && w.record.value.active {
        var ensured := EnsurePrivate(w, env).0;
        var handle := NewHandle(w.ref, w.state.value.generation, spec);
        var record := w.record.value.(epoch := spec.epoch, tag := handle.tag);
        RecordKeepsObserver(t.(world := ensured), record, env.save);
      }
    }
    hide ObserverOk, ArmObserver, EnsurePrivate, ValidSpec, NewHandle, Store;
  }

  lemma ArmKeepsObserver(t: Trace, e: Event)
    requires RecordOk(t.world) && ObserverOk(t) && e.Arms?
    ensures ObserverOk(Step(t, e))
  {
    hide RecordOk, Arm;
    ArmKeepsWorld(t, e.spec, e.env);
    assert Step(t, e).unrecorded == t.unrecorded && Step(t, e).loosened == t.loosened;
  }

  lemma ReleaseKeepsObserver(t: Trace, e: Event)
    requires RecordOk(t.world) && ObserverOk(t) && e.Releases?
    ensures ObserverOk(Step(t, e))
  {
    hide ValidOpaque, NewHandle, ValidHandle, BoundaryFor, Check, Send;
    if t.world.observer.Some? {
      CheckKeeps(t.world.observer.value, e.env);
      SendKeeps(Check(t.world.observer.value, e.env).0, Unmute, e.env.reply);
    }
  }

  lemma ReattachKeepsObserver(t: Trace, sink: Option<Sink>, env: Env)
    requires ObserverOk(t)
    ensures ObserverOk(t.(world := Reattach(t.world, sink, env).0))
  {
    hide Check;
    if t.world.observer.Some? {
      CheckKeeps(t.world.observer.value, env);
    }
    if t.world.state.Some? {
      CheckKeeps(Install(t.world, t.world.state.value.pane, sink, true).observer.value, env);
    }
  }

  lemma FreshKeepsObserver(t: Trace, state: State, sink: Option<Sink>, env: Env)
    requires RecordOk(t.world) && ObserverOk(t) && t.world.state.None?
    ensures ObserverOk(t.(world := CreateFresh(t.world, state, sink, env).0))
  {
    hide ValidOpaque, NewHandle;
  }

  lemma AttachKeepsObserver(t: Trace, e: Event)
    requires RecordOk(t.world) && ObserverOk(t) && (e.Reattaches? || e.Creates?)
    ensures ObserverOk(Step(t, e))
  {
    hide RecordOk, Reattach, CreateFresh;
    var t' := t.(world := Do(t.world, e).0);
    if e.Creates? && t.world.state.None? {
      FreshKeepsObserver(t, e.state, e.sink, e.env);
    } else {
      ReattachKeepsObserver(t, e.sink, e.env);
    }
    assert Step(t, e).unrecorded == t.unrecorded && Step(t, e).loosened == t.loosened && Step(t, e).world == t'.world;
    hide Step, Do;
  }

  lemma QuietKeepsObserver(t: Trace, e: Event)
    requires RecordOk(t.world) && ObserverOk(t) && !e.Arms? && !e.Releases? && !e.Reattaches? && !e.Creates?
    ensures ObserverOk(Step(t, e))
  {
    hide ValidOpaque, NewHandle, ValidHandle, Check, Send;
    if t.world.observer.Some? && (e.Proves? || e.Inspects? || e.Writes?) {
      CheckKeeps(t.world.observer.value, e.env);
      SendKeeps(Check(t.world.observer.value, e.env).0, Other, e.env.reply);
    }
  }

  lemma StepKeepsObserver(t: Trace, e: Event)
    requires RecordOk(t.world) && ObserverOk(t)
    ensures ObserverOk(Step(t, e))
  {
    if e.Arms? {
      ArmKeepsObserver(t, e);
    } else if e.Releases? {
      ReleaseKeepsObserver(t, e);
    } else if e.Reattaches? || e.Creates? {
      AttachKeepsObserver(t, e);
    } else {
      QuietKeepsObserver(t, e);
    }
    hide Step, ObserverOk, RecordOk;
  }

  /** Only Arm changes what is recorded, but for Release, which ends the interval, and Close. */
  lemma OthersKeepSpec(w: World, e: Event)
    requires !e.Arms?
    ensures var w' := Do(w, e).0;
            && (w'.record.Some? ==>
                  && w.record.Some?
                  && (w'.record.value == w.record.value || w'.record.value == w.record.value.(active := false)))
            && (w.record.Some? && !e.Closes? ==> w'.record.Some?)
  {
    hide ValidOpaque, ValidHandle, BoundaryFor, Check, Send;
  }

  /** Arm leaves the record as it is or moves it on to a later epoch. */
  lemma ArmMovesSpecOn(w: World, spec: Spec, env: Env)
    requires RecordOk(w)
    ensures var (w', outcome) := Arm(w, spec, env);
            && (w.record.Some? ==>
                  && w'.record.Some? && w'.record.value.generation == w.record.value.generation
                  && (w'.record.value.epoch > w.record.value.epoch || w'.record == w.record))
            && (outcome.Armed? ==> ValidSpec(spec) && w'.record.Some? && SpecOf(w'.record.value) == spec)
  {
    hide ValidOpaque, NewHandle, Check;
  }

  lemma StepKeepsIssued(t: Trace, e: Event)
    requires RecordOk(t.world) && IssuedOk(t)
    ensures IssuedOk(Step(t, e))
  {
    hide Do, RecordOk, Arm, ValidSpec;
    if e.Arms? {
      ArmMovesSpecOn(t.world, e.spec, e.env);
      DoesArm(t.world, e.spec, e.env);
    } else {
      OthersKeepSpec(t.world, e);
    }
  }

  lemma DoesArm(w: World, spec: Spec, env: Env)
    ensures Do(w, Arms(spec, env)) == Arm(w, spec, env)
  {
    hide Arm;
  }

  lemma StepKeeps(t: Trace, e: Event)
    requires Inv(t)
    ensures Inv(Step(t, e))
  {
    StepKeepsRecord(t.world, e);
    StepKeepsObserver(t, e);
    StepKeepsIssued(t, e);
    hide RecordOk, ObserverOk, IssuedOk, Do;
  }

  lemma {:induction false} RunKeeps(t: Trace, events: seq<Event>)
    requires Inv(t)
    ensures Inv(RunFrom(t, events))
    decreases |events|
  {
    if events != [] {
      RunKeeps(t, events[..|events| - 1]);
      hide Inv, Step;
      StepKeeps(RunFrom(t, events[..|events| - 1]), events[|events| - 1]);
    }
  }

  lemma {:induction false} RunInv(ref: string, events: seq<Event>)
    requires ValidOpaque(ref)
    ensures Inv(RunFrom(Start(ref), events))
  {
    RunKeeps(Start(ref), events);
  }

  // --------------------------------------------------- theorems: the observer

  /** In every run, inside a private interval the installed client carries the private flag, except
      exactly when it is a client whose release could not be recorded. */
  lemma {:induction false} PrivateUnlessUnrecorded(ref: string, events: seq<Event>)
    requires ValidOpaque(ref)
    ensures var t := RunFrom(Start(ref), events);
            Interval(t.world) && t.world.observer.Some? ==>
              (t.world.observer.value.private <==> t.world.observer.value.id !in t.unrecorded)
  {
    RunInv(ref, events);
  }

  /** In every run, inside a private interval the installed client is sent output exactly when a release on
      that client was carried out by tmux without the record saying so. */
  lemma {:induction false} MutedUnlessLoosened(ref: string, events: seq<Event>)
    requires ValidOpaque(ref)
    ensures var t := RunFrom(Start(ref), events);
            Interval(t.world) && t.world.observer.Some? ==>
              (t.world.observer.value.muted <==> t.world.observer.value.id !in t.loosened)
  {
    RunInv(ref, events);
  }

  /** Without such a release, no output of an interval ever reaches a sink. */
  lemma {:induction false} NothingLeaks(ref: string, events: seq<Event>)
    requires ValidOpaque(ref)
    requires RunFrom(Start(ref), events).loosened == {}
    ensures RunFrom(Start(ref), events).leaked == ""
    decreases |events|
  {
    if events != [] {
      var t := RunFrom(Start(ref), events[..|events| - 1]);
      assert t.loosened <= RunFrom(Start(ref), events).loosened;
      NothingLeaks(ref, events[..|events| - 1]);
      RunInv(ref, events[..|events| - 1]);
      hide Do;
    }
  }

  /** A successful Reattach or Arm leaves every interval with a flagged client; and with a silenced one,
      unless it kept a loosened client on which at least two answers were lost. A single lost answer is
      always repaired, because no identity check succeeds on such a client. */
  lemma {:induction false} SuccessRestores(ref: string, events: seq<Event>, e: Event)
    requires ValidOpaque(ref)
    ensures var t := RunFrom(Start(ref), events);
            var (w', outcome) := Do(t.world, e);
            (e.Reattaches? && outcome.Done?) || (e.Arms? && outcome.Armed?) ==>
              && w'.observer.Some? && (e.Arms? ==> Interval(w'))
              && (Interval(w') ==>
                    && w'.observer.value.private
                    && (w'.observer.value.muted <==> w'.observer.value.id !in t.loosened)
                    && (!w'.observer.value.muted ==> w'.observer.value.behind >= 2))
  {
    RunInv(ref, events);
    var t := RunFrom(Start(ref), events);
    hide RunFrom;
    StepKeepsObserver(t, e);
    SuccessIsPrivate(t.world, e);
    hide Do, RecordOk, IssuedOk;
    assert !e.Releases? ==> Step(t, e).loosened == t.loosened;
  }

  lemma ArmedIsPrivate(w: World, spec: Spec, env: Env)
    ensures var (w', outcome) := Arm(w, spec, env);
            outcome.Armed? ==>
              w'.observer.Some? && Interval(w') && w'.observer.value.private && w'.observer.value.behind != 1
  {
    hide ValidOpaque, Join, Decimal, Check;
    if w.observer.Some? {
      SuccessfulCheck(w.observer.value, env);
    }
  }

  lemma ReattachedIsPrivate(w: World, sink: Option<Sink>, env: Env)
    ensures var (w', outcome) := Reattach(w, sink, env);
            outcome.Done? ==>
              w'.observer.Some? && (Interval(w') ==> w'.observer.value.private && w'.observer.value.behind != 1)
  {
    hide Check;
    if w.observer.Some? {
      SuccessfulCheck(w.observer.value, env);
    }
    if w.state.Some? {
      SuccessfulCheck(Install(w, w.state.value.pane, sink, true).observer.value, env);
    }
  }

  lemma SuccessIsPrivate(w: World, e: Event)
    ensures var (w', outcome) := Do(w, e);
            (e.Reattaches? && outcome.Done?) || (e.Arms? && outcome.Armed?) ==>
              && w'.observer.Some? && (e.Arms? ==> Interval(w'))
              && (Interval(w') ==> w'.observer.value.private && w'.observer.value.behind != 1)
  {
    hide Arm, Reattach;
    if e.Arms? {
      ArmedIsPrivate(w, e.spec, e.env);
    } else if e.Reattaches? {
      ReattachedIsPrivate(w, e.sink, e.env);
    }
  }

  lemma SuccessfulCheck(o: Observer, env: Env)
    ensures var (o', facts) := Check(o, env);
            o'.(commands := o.commands, behind := o.behind) == o && (facts == Verified ==> o'.behind == o.behind != 1)
  {
    CheckKeeps(o, env);
    if o.behind == 1 {
      OneLostAnswerFailsChecks(o, env);
    }
  }

  // ---------------------------------------------- theorems: what a success means

  /** In every run, a proof of privacy means that an interval is on, that the handle is the record's own, and that
      the installed client is flagged, has no release that went unrecorded, has not lost exactly one answer,
      and is silenced exactly when no release loosened it. */
  lemma {:induction false} ProofMeansPrivate(ref: string, events: seq<Event>, handle: Handle, env: Env)
    requires ValidOpaque(ref)
    ensures var t := RunFrom(Start(ref), events);
            var w := t.world;
            Prove(w, handle, env).1.Proved? ==>
              && Prove(w, handle, env).1 == Proved(handle)
              && Interval(w) && handle == HandleOf(w.record.value)
              && w.observer.Some? && w.observer.value.private && w.observer.value.id !in t.unrecorded
              && w.observer.value.behind != 1
              && (w.observer.value.muted <==> w.observer.value.id !in t.loosened)
  {
    RunInv(ref, events);
    var w := RunFrom(Start(ref), events).world;
    hide RunFrom, Check;
    if w.observer.Some? {
      SuccessfulCheck(w.observer.value, env);
    }
  }

  /** So without a loosening release privacy is proved only while nothing is audible. */
  lemma {:induction false} ProofMeansSilence(ref: string, events: seq<Event>, handle: Handle, env: Env)
    requires ValidOpaque(ref) && RunFrom(Start(ref), events).loosened == {}
    ensures var w := RunFrom(Start(ref), events).world;
            Prove(w, handle, env).1.Proved? ==> Interval(w) && !Audible(w)
  {
    ProofMeansPrivate(ref, events, handle, env);
    hide RunFrom, Prove;
  }

  /** A client on which no answer was lost, and an environment in which everything works. */
  predicate Works(w: World, env: Env) {
    && env.ready && env.readable && env.factsReply == Came(true) && env.generationReply == Came(true) && env.matches
    && env.reply == Came(true) && env.attaches && env.newFacts == Verified && env.targets && env.retargets && env.starts
    && env.save == Saved && env.stateSave == Saved && env.kills && env.removesRecord && env.removesState
    && (w.observer.Some? ==> w.observer.value.behind == 0)
  }

  lemma CheckWorks(o: Observer, env: Env)
    requires o.behind == 0 && env.factsReply == Came(true) && env.generationReply == Came(true) && env.matches
    ensures Check(o, env).1 == Verified
  {
  }

  /** When everything works, the record's own handle is proved exactly inside an interval with a flagged client. */
  lemma {:induction false} ProofExactlyWhen(ref: string, events: seq<Event>, env: Env)
    requires ValidOpaque(ref)
    requires var w := RunFrom(Start(ref), events).world; w.record.Some? && Works(w, env)
    ensures var w := RunFrom(Start(ref), events).world;
            var handle := HandleOf(w.record.value);
            Prove(w, handle, env).1 == Proved(handle) <==>
              w.record.value.active && w.observer.Some? && w.observer.value.private
  {
    RunInv(ref, events);
    var w := RunFrom(Start(ref), events).world;
    hide RunFrom, Check, Join, Decimal;
    if w.observer.Some? {
      CheckWorks(w.observer.value, env);
    }
  }

  /** What a successful arm leaves: the interval of the asked handoff at the asked epoch, its handle, and a
      flagged client on the provider's pane that goes on writing to the same sink. */
  lemma ArmedMeans(w: World, spec: Spec, env: Env)
    requires RecordOk(w)
    ensures var (w', outcome) := Arm(w, spec, env);
            outcome.Armed? ==>
              && w.state.Some? && w'.state == w.state
              && outcome.handle == NewHandle(w.ref, w.state.value.generation, spec)
              && w'.record == Some(Record(w.state.value.generation, spec.handoff, spec.epoch, outcome.handle.tag, true))
              && w.observer.Some? && w'.observer.Some?
              && w'.observer.value.private && w'.observer.value.sink == w.observer.value.sink
              && (w'.observer.value.id != w.observer.value.id ==>
                    w'.observer.value.pane == w.state.value.pane && w'.observer.value.muted)
              && (w.record.Some? && w.record.value.active && w.observer.value.private &&
                  Check(w.observer.value, env).1 == Verified ==>
                    w'.observer == Some(Check(w.observer.value, env).0) && w'.attached == w.attached)
  {
    hide ValidOpaque, Join, Decimal, Check;
    if w.observer.Some? {
      CheckKeeps(w.observer.value, env);
    }
  }

  /** When everything works, an arm succeeds exactly for a first or a later interval, or for the active one at no
      earlier epoch, given a client with a sink on the provider's pane. */
  lemma {:induction false} ArmExactlyWhen(ref: string, events: seq<Event>, spec: Spec, env: Env)
    requires ValidOpaque(ref) && ValidSpec(spec)
    requires var w := RunFrom(Start(ref), events).world; w.state.Some? && Works(w, env)
    ensures var w := RunFrom(Start(ref), events).world;
            Arm(w, spec, env).1.Armed? <==>
              && w.observer.Some?
              && if w.record.Some? && w.record.value.active then
                   && spec.handoff == w.record.value.handoff && spec.epoch >= w.record.value.epoch
                   && (w.observer.value.private || w.observer.value.sink.Some?)
                 else
                   && (w.record.Some? ==>
                         spec.handoff != w.record.value.handoff && spec.epoch > w.record.value.epoch)
                   && w.observer.value.pane == w.state.value.pane && w.observer.value.sink.Some?
  {
    RunInv(ref, events);
    var w := RunFrom(Start(ref), events).world;
    hide RunFrom, Check, Join, Decimal;
    if w.observer.Some? {
      CheckWorks(w.observer.value, env);
    }
  }

  /** What a successful release leaves: the record closed, the client unflagged and, if no answer was lost on
      it, sent output again; a second release through the same handle changes nothing. */
  lemma ReleasedMeans(w: World, handle: Handle, boundary: Boundary, env: Env)
    ensures var (w', outcome) := Release(w, handle, boundary, env);
            outcome.Done? ==>
              && w.record.Some? && handle == HandleOf(w.record.value) && BoundaryFor(boundary, w.record.value)
              && w'.record == Some(w.record.value.(active := false))
              && (w.record.value.active ==>
                    && w.observer.Some? && w.observer.value.private && w'.observer.Some?
                    && w'.observer.value.id == w.observer.value.id && w'.observer.value.sink == w.observer.value.sink
                    && !w'.observer.value.private && (w.observer.value.behind == 0 ==> !w'.observer.value.muted))
              && (!w.record.value.active ==> w' == w)
  {
    hide Check, Send, ValidOpaque;
    if w.observer.Some? {
      SuccessfulCheck(w.observer.value, env);
      SendKeeps(Check(w.observer.value, env).0, Unmute, env.reply);
    }
  }

  /** When everything works, a release through the record's own handle with its boundary succeeds exactly when
      the interval is over already or the client is flagged. */
  lemma {:induction false} ReleaseExactlyWhen(ref: string, events: seq<Event>, boundary: Boundary, env: Env)
    requires ValidOpaque(ref)
    requires var w := RunFrom(Start(ref), events).world;
             w.record.Some? && Works(w, env) && BoundaryFor(boundary, w.record.value)
    ensures var w := RunFrom(Start(ref), events).world;
            Release(w, HandleOf(w.record.value), boundary, env).1.Done? <==>
              !w.record.value.active || (w.observer.Some? && w.observer.value.private)
  {
    RunInv(ref, events);
    var w := RunFrom(Start(ref), events).world;
    hide RunFrom, Check, Send, Join, Decimal, BoundaryFor;
    if w.observer.Some? {
      CheckWorks(w.observer.value, env);
    }
  }

  /** What a successful reattach leaves: a client on the provider's pane that writes to the given sink, flagged
      inside an interval and ordinary if it is new outside; record and state are untouched. A client that may
      stay, stays as it is. */
  lemma ReattachedMeans(w: World, sink: Option<Sink>, env: Env)
    ensures var (w', outcome) := Reattach(w, sink, env);
            && w'.record == w.record && w'.state == w.state
            && (outcome.Done? ==>
                  && w.state.Some? && w'.observer.Some?
                  && w'.observer.value.pane == w.state.value.pane && w'.observer.value.sink == sink
                  && (Interval(w) ==> w'.observer.value.private)
                  && (w.observer.None? && !Interval(w) ==> !w'.observer.value.private && !w'.observer.value.muted)
                  && (w.observer.Some? && (Interval(w) ==> w.observer.value.private) ==>
                        && w'.observer.value.id == w.observer.value.id && w'.attached == w.attached
                        && w'.observer.value.private == w.observer.value.private
                        && w'.observer.value.muted == w.observer.value.muted))
  {
    hide Check;
    if w.observer.Some? {
      CheckKeeps(w.observer.value, env);
    }
    if w.state.Some? {
      CheckKeeps(Install(w, w.state.value.pane, sink, true).observer.value, env);
    }
  }

  /** When everything works, reattaching succeeds exactly when there is a session. */
  lemma {:induction false} ReattachExactlyWhen(ref: string, events: seq<Event>, sink: Option<Sink>, env: Env)
    requires ValidOpaque(ref) && Works(RunFrom(Start(ref), events).world, env)
    ensures var w := RunFrom(Start(ref), events).world; Reattach(w, sink, env).1.Done? <==> w.state.Some?
  {
    RunInv(ref, events);
    var w := RunFrom(Start(ref), events).world;
    hide RunFrom, Check, Join, Decimal;
    if w.observer.Some? {
      CheckWorks(w.observer.value, env);
    }
    if w.state.Some? {
      CheckWorks(Install(w, w.state.value.pane, sink, true).observer.value, env);
    }
  }

  /** What creating, detaching and closing leave when they succeed. */
  lemma SessionsComeAndGo(w: World, state: State, sink: Option<Sink>, env: Env)
    ensures var (w', outcome) := Create(w, state, sink, env);
            && (outcome.Done? ==>
                  && w'.state == Some(if w.state.Some? then w.state.value else state) && w'.observer.Some?
                  && w'.observer.value.pane == w'.state.value.pane && w'.observer.value.sink == sink)
            && (w.state.None? && Works(w, env) && ValidOpaque(state.generation) ==> outcome.Done?)
    ensures var (w', outcome) := Detach(w);
            && (outcome.Done? <==> w.state.Some?) && w'.record == w.record && w'.state == w.state
            && (outcome.Done? ==> w'.observer.None?)
    ensures var (w', outcome) := Close(w, env);
            && w'.observer.None? && (outcome.Done? ==> w'.state.None? && w'.record.None?)
            && (Works(w, env) ==> outcome.Done?)
  {
    hide Check;
    ReattachedMeans(w, sink, env);
  }

  /** A new client started, proved to be on the provider's pane, and took over the sink. */
  predicate NewClientWorked(env: Env) { env.attaches && env.newFacts == Verified && env.targets }

  /** What has worked when a call succeeds: every step outside the provider that it stands on. */
  ghost predicate Succeeded(w: World, e: Event, w': World) {
    match e
    case Arms(spec, env) =>
      && w.state.Some? && env.ready && ValidSpec(spec) && (w.record.Some? ==> env.readable)
      && (w'.record != w.record ==> env.save == Saved)
      && w.observer.Some? && w'.observer.Some?
      && if w'.observer.value.id == w.observer.value.id then Check(w.observer.value, env).1 == Verified
         else NewClientWorked(env)
    case Proves(_, env) =>
      && w.state.Some? && env.ready && env.readable
      && w.observer.Some? && Check(w.observer.value, env).1 == Verified
    case Releases(_, _, env) =>
      && w.state.Some? && env.ready && env.readable && w.record.Some?
      && (w.record.value.active ==>
            && w.observer.Some? && Check(w.observer.value, env).1 == Verified
            && env.reply == Came(true) && env.save == Saved)
    case Reattaches(_, env) =>
      && w.state.Some? && env.ready && (w.record.Some? ==> env.readable) && w'.observer.Some?
      && if w.observer.None? then NewClientWorked(env) && env.starts
         else env.retargets &&
              if w'.observer.value.id == w.observer.value.id then Check(w.observer.value, env).1 == Verified
              else NewClientWorked(env)
    case Inspects(env) => w.state.Some? && w.observer.Some? && Check(w.observer.value, env).1 == Verified
    case Writes(env) =>
      w.state.Some? && w.observer.Some? && Check(w.observer.value, env).1 == Verified && env.reply == Came(true)
    case Detaches => w.state.Some?
    case Creates(_, _, env) =>
      w.state.None? ==> env.ready && NewClientWorked(env) && env.stateSave == Saved && env.starts
    case Closes(env) => (w.state.Some? ==> env.kills) && env.removesRecord && env.removesState
    case Restarts => true
    case Emits(_) => true
  }

  /** In every run, a call that succeeds stands on steps that worked; a close succeeds exactly then. */
  lemma {:induction false} SuccessMeans(ref: string, events: seq<Event>, e: Event)
    requires ValidOpaque(ref)
    ensures var w := RunFrom(Start(ref), events).world;
            var (w', outcome) := Do(w, e);
            && (!outcome.Failed? ==> Succeeded(w, e, w'))
            && (e.Closes? && Succeeded(w, e, w') ==> outcome.Done?)
  {
    RunInv(ref, events);
    var w := RunFrom(Start(ref), events).world;
    assert w.observer.Some? ==> w.observer.value.id < w.attached;
    hide RunFrom, Inv;
    CallSuccess(w, e);
  }

  lemma CallSuccess(w: World, e: Event)
    requires w.observer.Some? ==> w.observer.value.id < w.attached
    ensures var (w', outcome) := Do(w, e);
            && (!outcome.Failed? ==> Succeeded(w, e, w'))
            && (e.Closes? && Succeeded(w, e, w') ==> outcome.Done?)
  {
    hide Check, NewHandle, ValidOpaque;
    match e
    case Arms(spec, env) => ArmSuccess(w, spec, env);
    case Reattaches(sink, env) => ReattachSuccess(w, sink, env);
    case Creates(state, sink, env) => FreshSuccess(w, state, sink, env);
    case Releases(handle, boundary, env) => ReleaseSuccess(w, handle, boundary, env);
    case _ =>
  }

  lemma ArmSuccess(w: World, spec: Spec, env: Env)
    requires w.observer.Some? ==> w.observer.value.id < w.attached
    ensures var (w', outcome) := Arm(w, spec, env); !outcome.Failed? ==> Succeeded(w, Arms(spec, env), w')
  {
    hide NewHandle, ValidOpaque;
  }

  lemma ReattachSuccess(w: World, sink: Option<Sink>, env: Env)
    requires w.observer.Some? ==> w.observer.value.id < w.attached
    ensures var (w', outcome) := Reattach(w, sink, env); !outcome.Failed? ==> Succeeded(w, Reattaches(sink, env), w')
  {
    hide ValidOpaque;
  }

  lemma FreshSuccess(w: World, state: State, sink: Option<Sink>, env: Env)
    ensures var (w', outcome) := Create(w, state, sink, env);
            !outcome.Failed? ==> Succeeded(w, Creates(state, sink, env), w')
  {
    hide ValidOpaque, Reattach;
  }

  lemma ReleaseSuccess(w: World, handle: Handle, boundary: Boundary, env: Env)
    ensures var (w', outcome) := Release(w, handle, boundary, env);
            !outcome.Failed? ==> Succeeded(w, Releases(handle, boundary, env), w')
  {
    hide ValidOpaque;
  }

  /** What the refusals of an arm say. */
  lemma ArmRefusalsMean(w: World, spec: Spec, env: Env)
    ensures var outcome := Arm(w, spec, env).1;
            outcome.Failed? ==>
              && (outcome.code == "privacy_spec" <==> !ValidSpec(spec))
              && (outcome.code == "provider_lost" <==> ValidSpec(spec) && (w.state.None? || !env.ready))
              && (outcome.code == "privacy_already_released" ==>
                    w.record.Some? && !w.record.value.active && w.record.value.handoff == spec.handoff)
              && (outcome.code == "stale_privacy_epoch" ==>
                    && w.record.Some? && spec.epoch <= w.record.value.epoch
                    && (w.record.value.active ==> spec.epoch < w.record.value.epoch))
              && (outcome.code == "active_binding_conflict" ==>
                    && w.record.Some? && w.state.Some?
                    && (w.record.value.generation != w.state.value.generation ||
                        (w.record.value.active && w.record.value.handoff != spec.handoff)))
              && (outcome.code == "observer_missing" ==> w.observer.None?)
              && (outcome.code == "privacy_state_write" ==> env.save != Saved)
  {
    hide Check, ValidOpaque, Join, Decimal;
    if w.state.Some? {
      ArmObserverRefuses(w, spec, env);
      EnsureRefuses(w, env);
    }
    hide ArmObserver, EnsurePrivate;
  }

  /** Codes that only Arm itself gives. */
  predicate OwnCode(code: string) {
    || code == "privacy_spec" || code == "provider_lost" || code == "privacy_already_released"
    || code == "stale_privacy_epoch" || code == "active_binding_conflict"
  }

  lemma ArmObserverRefuses(w: World, spec: Spec, env: Env)
    requires w.state.Some?
    ensures var outcome := ArmObserver(w, spec, env).1;
            outcome.Failed? ==>
              && !OwnCode(outcome.code) && (outcome.code == "observer_missing" ==> w.observer.None?)
              && (outcome.code == "privacy_state_write" ==> env.save != Saved)
  {
    hide NewHandle;
  }

  lemma EnsureRefuses(w: World, env: Env)
    requires w.state.Some?
    ensures var error := EnsurePrivate(w, env).1;
            error.Some? ==>
              !OwnCode(error.value) && error.value != "observer_missing" && error.value != "privacy_state_write"
  {
    hide Check;
  }

  /** What the refusals of a proof say. */
  lemma ProofRefusalsMean(w: World, handle: Handle, env: Env)
    ensures var outcome := Prove(w, handle, env).1;
            outcome.Failed? ==>
              && (outcome.code == "privacy_handle" <==> !ValidHandle(handle))
              && (outcome.code == "provider_lost" <==> ValidHandle(handle) && (w.state.None? || !env.ready))
              && (outcome.code == "observer_not_private" ==> w.observer.None? || !w.observer.value.private)
              && (outcome.code == "private_proof_unavailable" ==>
                    !env.readable || !Interval(w) || HandleOf(w.record.value) != handle)
  {
    hide Check, ValidOpaque;
  }

  /** What the refusals of a release say. */
  lemma ReleaseRefusalsMean(w: World, handle: Handle, boundary: Boundary, env: Env)
    ensures var outcome := Release(w, handle, boundary, env).1;
            outcome.Failed? ==>
              && (outcome.code == "privacy_handle" <==> !ValidHandle(handle))
              && (outcome.code == "provider_lost" <==> ValidHandle(handle) && (w.state.None? || !env.ready))
              && (outcome.code == "observer_not_private" ==> w.observer.None? || !w.observer.value.private)
              && (outcome.code == "privacy_binding_missing" ==>
                    || w.record.None? || !env.readable || HandleOf(w.record.value) != handle
                    || (w.state.Some? && w.record.value.generation != w.state.value.generation))
              && (outcome.code == "boundary_unproven" ==> w.record.Some? && !BoundaryFor(boundary, w.record.value))
              && (outcome.code == "release_command" ==> env.reply != Came(true))
              && (outcome.code == "privacy_state_write" ==> env.save != Saved)
  {
    hide Check, Send, ValidOpaque, Join, Decimal;
  }

  // ------------------------------------------------------ theorems: the epochs

  /** Until Close the stored epoch never decreases; a new interval, or a new handle within one, has a
      strictly greater epoch. */
  lemma EpochsIncrease(w: World, e: Event)
    requires RecordOk(w) && w.record.Some? && !e.Closes?
    ensures var w' := Do(w, e).0;
            && w'.record.Some? && w'.record.value.generation == w.record.value.generation
            && w'.record.value.epoch >= w.record.value.epoch
            && (w'.record.value.active && !w.record.value.active ==> w'.record.value.epoch > w.record.value.epoch)
            && (w'.record.value.handoff != w.record.value.handoff ==> w'.record.value.epoch > w.record.value.epoch)
            && (HandleOf(w'.record.value) != HandleOf(w.record.value) ==> w'.record.value.epoch > w.record.value.epoch)
  {
    hide Do, RecordOk, Arm;
    if e.Arms? {
      ArmMovesSpecOn(w, e.spec, e.env);
      DoesArm(w, e.spec, e.env);
    } else {
      OthersKeepSpec(w, e);
    }
  }

  /** The same over any stretch of any run without Close. */
  lemma {:induction false} EpochNeverDecreases(t: Trace, events: seq<Event>)
    requires Inv(t) && t.world.record.Some?
    requires forall e | e in events :: !e.Closes?
    ensures var w := RunFrom(t, events).world;
            && w.record.Some? && w.record.value.generation == t.world.record.value.generation
            && w.record.value.epoch >= t.world.record.value.epoch
            && (w.record.value.epoch == t.world.record.value.epoch ==>
                  && HandleOf(w.record.value) == HandleOf(t.world.record.value)
                  && (w.record.value.active ==> t.world.record.value.active))
    decreases |events|
  {
    if events != [] {
      var rest, e := events[..|events| - 1], events[|events| - 1];
      EpochNeverDecreases(t, rest);
      RunKeeps(t, rest);
      EpochsIncrease(RunFrom(t, rest).world, e);
      hide Do, ValidOpaque, NewHandle, ObserverOk, IssuedOk;
    }
  }

  /** The armed spec has been superseded or released. */
  predicate Retired(w: World, s: Spec) {
    w.record.Some? && (s.epoch < w.record.value.epoch || (s == SpecOf(w.record.value) && !w.record.value.active))
  }

  lemma {:induction false} RetiredForever(t: Trace, s: Spec, events: seq<Event>)
    requires Inv(t) && Retired(t.world, s)
    requires forall e | e in events :: !e.Closes?
    ensures Retired(RunFrom(t, events).world, s)
    ensures RunFrom(t, events).world.ref == t.world.ref &&
            RunFrom(t, events).world.record.value.generation == t.world.record.value.generation
    decreases |events|
  {
    if events != [] {
      var rest, e := events[..|events| - 1], events[|events| - 1];
      RetiredForever(t, s, rest);
      RunKeeps(t, rest);
      EpochsIncrease(RunFrom(t, rest).world, e);
      StepKeepsRecord(RunFrom(t, rest).world, e);
      hide Do, ValidOpaque, NewHandle, ObserverOk, IssuedOk;
    }
  }

  /** The handle of a retired spec proves nothing and releases nothing. */
  lemma RetiredHandleIsDead(w: World, s: Spec, boundary: Boundary, env: Env)
    requires RecordOk(w) && ValidSpec(s) && Retired(w, s)
    ensures var h := NewHandle(w.ref, w.record.value.generation, s);
            && Prove(w, h, env).1.Failed?
            && Release(w, h, boundary, env).0 == w
  {
    var g := w.record.value.generation;
    if NewHandle(w.ref, g, s) == HandleOf(w.record.value) {
      HandleInjective(w.ref, g, g, s, SpecOf(w.record.value));
    }
    hide NewHandle;
  }

  /** From any reachable state: once a handle is superseded or released it never proves privacy again and
      Release through it never changes anything again, whatever happens until Close. */
  lemma {:induction false} SupersededHandleStaysDead(ref: string, events: seq<Event>, later: seq<Event>, s: Spec,
                                                     boundary: Boundary, env: Env)
    requires ValidOpaque(ref) && ValidSpec(s)
    requires Retired(RunFrom(Start(ref), events).world, s)
    requires forall e | e in later :: !e.Closes?
    ensures var t := RunFrom(Start(ref), events);
            var w := RunFrom(t, later).world;
            var h := NewHandle(ref, t.world.record.value.generation, s);
            Prove(w, h, env).1.Failed? && Release(w, h, boundary, env).0 == w
  {
    RunInv(ref, events);
    var t := RunFrom(Start(ref), events);
    RetiredForever(t, s, later);
    RunKeeps(t, later);
    RefStays(Start(ref), events);
    RetiredHandleIsDead(RunFrom(t, later).world, s, boundary, env);
  }

  lemma {:induction false} RefStays(t: Trace, events: seq<Event>)
    requires Inv(t)
    ensures RunFrom(t, events).world.ref == t.world.ref
    decreases |events|
  {
    if events != [] {
      RefStays(t, events[..|events| - 1]);
      RunKeeps(t, events[..|events| - 1]);
      StepKeepsRecord(RunFrom(t, events[..|events| - 1]).world, events[|events| - 1]);
    }
  }

  /** Of all handles handed out under the stored record, only the record's own can prove or release;
      every other one, and this one too after its release, is retired. */
  lemma {:induction false} OneHandleAtATime(ref: string, events: seq<Event>, s: Spec, boundary: Boundary, env: Env)
    requires ValidOpaque(ref) && s in RunFrom(Start(ref), events).issued
    ensures var w := RunFrom(Start(ref), events).world;
            && w.record.Some?
            && (Retired(w, s) <==> !(w.record.value.active && s == SpecOf(w.record.value)))
            && var h := NewHandle(w.ref, w.record.value.generation, s);
               (Prove(w, h, env).1.Proved? || Release(w, h, boundary, env).0 != w ==>
                 w.record.value.active && s == SpecOf(w.record.value))
  {
    RunInv(ref, events);
    var t := RunFrom(Start(ref), events);
    if Retired(t.world, s) {
      RetiredHandleIsDead(t.world, s, boundary, env);
    }
    hide RunFrom, NewHandle, Prove, Release;
  }

  /** A successful release, and an arm that moves on to a later epoch, retire the handle that was current. */
  lemma CurrentHandleRetires(w: World, e: Event)
    requires RecordOk(w) && w.record.Some?
    ensures var (w', outcome) := Do(w, e);
            && (e.Releases? && outcome.Done? ==> Retired(w', SpecOf(w.record.value)))
            && (e.Arms? && outcome.Armed? && e.spec != SpecOf(w.record.value) ==> Retired(w', SpecOf(w.record.value)))
  {
    hide ValidOpaque, Join, Decimal, ValidHandle, Check, Send;
  }

  // ---------------------------------------------- what two lost answers can leave

  const GOOD := Came(true)
  const WELL := Env(true, true, GOOD, GOOD, true, GOOD, true, true, Verified, true, true, true, Saved, Saved, true,
                    true, true)
  const SPEC := Spec("h", 1)
  const HANDLE := NewHandle("r", "g", SPEC)

  /** The provider while armed, with what was sent through its client. */
  function ArmedWith(muted: bool, commands: seq<Kind>, behind: nat): World {
    World("r", Some(State("g", "%0")), Some(Record("g", "h", 1, HANDLE.tag, true)),
          Some(Observer(1, "%0", Some(0), true, muted, commands, behind)), 2)
  }

  const ARMING: seq<Event> := [Creates(State("g", "%0"), Some(0), WELL), Arms(SPEC, WELL)]
  const RELEASING := Releases(HANDLE, Boundary(true, "h", 1), WELL.(reply := Abandoned))
  const GIVE_UP := Inspects(WELL.(factsReply := Abandoned))
  const INSPECT := Inspects(WELL)

  const SENT_AT_RELEASE: seq<Kind> := [AskFacts, AskGeneration, AskFacts, AskGeneration, Unmute]
  const SENT_AT_ARM: seq<Kind> := SENT_AT_RELEASE + [AskFacts, AskFacts, AskFacts, AskGeneration]
  const SENT_AFTER_ARM: seq<Kind> := SENT_AT_ARM + [AskFacts, AskGeneration]

  lemma ArmingSilences()
    ensures RunFrom(Start("r"), ARMING) == Trace(ArmedWith(true, [AskFacts, AskGeneration], 0), {SPEC}, {}, {}, "")
  {
    hide Join, Decimal;
    var t0 := Start("r");
    var t1 := Step(t0, ARMING[0]);
    assert t1.world == World("r", Some(State("g", "%0")), None,
                             Some(Observer(0, "%0", Some(0), false, false, [AskFacts, AskGeneration], 0)), 1);
    var t2 := Step(t1, ARMING[1]);
    assert t2 == Trace(ArmedWith(true, [AskFacts, AskGeneration], 0), {SPEC}, {}, {}, "");
    hide Step;
    assert ARMING[..0] == [] && ARMING[..1][..0] == [];
    assert RunFrom(t0, ARMING[..0]) == t0;
    assert RunFrom(t0, ARMING[..1]) == t1;
  }

  /** The release is carried out, but its answer is given up on. */
  lemma AbandonedReleaseLoosens()
    ensures Step(Trace(ArmedWith(true, [AskFacts, AskGeneration], 0), {SPEC}, {}, {}, ""), RELEASING) ==
            Trace(ArmedWith(false, SENT_AT_RELEASE, 1), {SPEC}, {}, {1}, "")
  {
    hide Join, Decimal;
    var o := ArmedWith(true, [AskFacts, AskGeneration], 0).observer.value;
    var (checked, facts) := Check(o, WELL.(reply := Abandoned));
    assert checked.commands == [AskFacts, AskGeneration, AskFacts, AskGeneration] && facts == Verified;
    assert checked.commands + [Unmute] == SENT_AT_RELEASE;
  }

  /** An inspection is given up on as well; two more then fail, and leave the queue two places behind. */
  lemma InspectionsFallBehind()
    ensures var t := Trace(ArmedWith(false, SENT_AT_RELEASE, 1), {SPEC}, {}, {1}, "");
            Step(Step(Step(t, GIVE_UP), INSPECT), INSPECT) ==
              Trace(ArmedWith(false, SENT_AT_ARM, 2), {SPEC}, {}, {1}, "")
  {
    hide NewHandle;
    var t := Trace(ArmedWith(false, SENT_AT_RELEASE, 1), {SPEC}, {}, {1}, "");
    var c1 := SENT_AT_RELEASE + [AskFacts];
    assert Step(t, GIVE_UP) == t.(world := ArmedWith(false, c1, 2));
    var c2 := c1 + [AskFacts];
    assert c2[|c2| - 3] == Unmute;
    assert Step(Step(t, GIVE_UP), INSPECT) == t.(world := ArmedWith(false, c2, 2));
    var c3 := c2 + [AskFacts];
    assert c3[|c3| - 3] == AskFacts;
    var c4 := c3 + [AskGeneration];
    assert c4[|c4| - 3] == AskFacts;
    assert c4 == SENT_AT_ARM;
  }

  /** Now checks succeed again, on the answers of earlier ones: arming keeps the client. */
  lemma ArmingKeepsLoosened()
    ensures Step(Trace(ArmedWith(false, SENT_AT_ARM, 2), {SPEC}, {}, {1}, ""), Arms(SPEC, WELL)) ==
            Trace(ArmedWith(false, SENT_AFTER_ARM, 2), {SPEC}, {}, {1}, "")
    ensures Prove(ArmedWith(false, SENT_AFTER_ARM, 2), HANDLE, WELL).1 == Proved(HANDLE)
  {
    hide Join, Decimal;
    RepeatedCheck(SENT_AT_ARM);
    RepeatedCheck(SENT_AFTER_ARM);
    hide Check;
  }

  lemma RepeatedCheck(commands: seq<Kind>)
    requires |commands| >= 2 && commands[|commands| - 2..] == [AskFacts, AskGeneration]
    ensures Check(ArmedWith(false, commands, 2).observer.value, WELL) ==
            (ArmedWith(false, commands + [AskFacts, AskGeneration], 2).observer.value, Verified)
  {
    hide NewHandle;
    var a := commands + [AskFacts];
    var b := a + [AskGeneration];
    assert b == commands + [AskFacts, AskGeneration];
    assert a[|a| - 3] == commands[|commands| - 2..][0] && b[|b| - 3] == commands[|commands| - 2..][1];
  }

  lemma EmittingLeaks(output: char)
    ensures Step(Trace(ArmedWith(false, SENT_AFTER_ARM, 2), {SPEC}, {}, {1}, ""), Emits(output)) ==
            Trace(ArmedWith(false, SENT_AFTER_ARM, 2), {SPEC}, {}, {1}, [output])
  {
    hide NewHandle;
  }

  /** Two lost answers, the release's and an inspection's, are not repaired by arming again: the arm
      succeeds, privacy is proved, and the pane's output reaches the sink. */
  lemma TwoLostAnswersLeak(output: char)
    ensures var t := RunFrom(Start("r"), ARMING + [RELEASING, GIVE_UP, INSPECT] +
            [INSPECT, Arms(SPEC, WELL), Emits(output)]);
            Interval(t.world) && Prove(t.world, HANDLE, WELL).1 == Proved(HANDLE) && t.leaked == [output]
  {
    hide Step, RunFrom, NewHandle, Prove;
    ArmingSilences();
    AbandonedReleaseLoosens();
    InspectionsFallBehind();
    ArmingKeepsLoosened();
    EmittingLeaks(output);
    RunThree(Start("r"), ARMING, RELEASING, GIVE_UP, INSPECT);
    RunThree(Start("r"), ARMING + [RELEASING, GIVE_UP, INSPECT], INSPECT, Arms(SPEC, WELL), Emits(output));
  }

  lemma RunSnoc(t: Trace, events: seq<Event>, e: Event)
    ensures RunFrom(t, events + [e]) == Step(RunFrom(t, events), e)
  {
    hide Step;
    assert (events + [e])[..|events|] == events;
  }

  lemma RunThree(t: Trace, events: seq<Event>, a: Event, b: Event, c: Event)
    ensures RunFrom(t, events + [a, b, c]) == Step(Step(Step(RunFrom(t, events), a), b), c)
  {
    hide Step, RunFrom;
    RunSnoc(t, events, a);
    RunSnoc(t, events + [a], b);
    RunSnoc(t, events + [a] + [b], c);
    assert events + [a] + [b] + [c] == events + [a, b, c];
  }
}
