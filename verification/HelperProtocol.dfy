/**
 The exchange between the context-exec helper and the daemon (internal/adapter/contextexec):
 authenticate, prepare, reserve durably, authorize, spawn, stream, terminate.

 Both programs are stepped one message or one local action at a time over a connection that is
 first-in first-out in each direction and may break at any moment, losing what is in flight. Every
 local choice (a failing launcher, a cancelled context, what a callback returns) is part of the
 event, so a list of events is one run and every run is such a list.
 */
module HelperProtocol {
  import opened Prelude
  import Claim

  type Identity = Claim.Identity

  /** The printable MAC of a payload under a capability. */
  type Mac = (nat, string) -> string

  datatype Expectation = Expectation(identity: Identity, helper: string, context: string, mac: Mac)

  datatype Lifecycle = HelperAuthenticated | ChildReserved | ChildSpawned | OtherLifecycle

  /** The durable execution record, as the store holds it. `valid` is the record's own validation. */
  datatype Durable = Durable(valid: bool, lifecycle: Lifecycle, helper: Option<string>, context: Option<string>,
                             contextExec: string, session: string, epoch: nat, fingerprint: string,
                             authorized: bool, childOperation: string, childSession: string)

  datatype Child = Child(operation: string, session: string)

  datatype Message =
    | Hello(launch: string)
    | Proof(proof: string)
    | Context
    | Prepared(resolved: string, failure: string)
    | Spawn(child: Child, succeeded: bool)
    | Output
    | Terminal
    | Challenge(identity: Identity, challenge: string)
    | Capability(capability: nat)
    | Request(identity: Identity)
    | Execute(authorized: bool, child: Child)

  /** One direction: everything sent and not lost, and how much of it the peer has read. */
  datatype Channel = Channel(sent: seq<Message>, read: nat)

  datatype HelperPc =
    | SendHello
    | WaitChallenge
    | WaitCapability(identity: Identity, challenge: string)
    | SendProof(capability: nat, identity: Identity, challenge: string)
    | SendContext(identity: Identity)
    | WaitRequest(identity: Identity)
    | Prepare
    | WaitExecute
    | WaitDenial
    | Start(child: Child)
    | ReportSpawn(child: Child, succeeded: bool)
    | Streaming(child: Child)
    | HelperDone

  datatype ServerPc =
    | WaitHello
    | SendChallenge
    | SendCapability(challenge: string, capability: nat)
    | WaitProof(challenge: string, capability: nat)
    | WaitContext
    | Bind
    | SendRequest(state: Durable)
    | WaitPrepared(state: Durable)
    | Authorize(state: Durable, failed: bool)
    | SendDenial
    | SendExecute(next: Durable, child: Child)
    | WaitSpawn(next: Durable, child: Child)
    | Record(next: Durable, child: Child, succeeded: bool)
    | Receiving(spawned: Durable, child: Child)
    | ServerDone(result: Option<(Durable, Child)>)

  datatype World = World(helper: HelperPc, server: ServerPc, up: Channel, down: Channel, linked: bool,
                         log: seq<Durable>, started: Option<Child>, confused: bool)

  /** What the environment decides for one helper step. */
  datatype HelperChoice =
    | Proceed
    | Fail                       // cancelled context, lost write, unavailable directory, failed check
    | PrepareFails
    | PrepareGives(resolved: string)
    | StartFails
    | MoreOutput

  /** What the environment decides for one server step. */
  datatype ServerChoice =
    | Continue
    | Refuse                     // cancelled context, failed check, failed callback
    | Fresh(challenge: string, capability: nat)
    | Stores(states: seq<Durable>, returned: Durable, authorized: bool, child: Child)

  datatype Event = HelperMoves(h: HelperChoice) | ServerMoves(s: ServerChoice) | LinkBreaks(up: nat, down: nat)

  const INITIAL := World(SendHello, WaitHello, Channel([], 0), Channel([], 0), true, [], None, false)

  // ------------------------------------------------------------------ checks

  /** server.go `validateExecutionState` and, for a freshly bound state, `validateBoundState`. */
  predicate ValidExecutionState(state: Durable, e: Expectation, lifecycle: Lifecycle) {
    && state.valid
    && state.lifecycle == lifecycle
    && state.helper == Some(e.helper)
    && state.context == Some(e.context)
    && state.contextExec == e.identity.contextExecId
    && state.session == e.identity.sessionId
    && state.epoch == e.identity.authorityEpoch
    && state.fingerprint == e.identity.requestFingerprint
  }

  predicate NamesChild(state: Durable, child: Child) {
    state.childOperation == child.operation && state.childSession == child.session
  }

  // ------------------------------------------------------------------- steps

  function Put(c: Channel, m: Option<Message>, linked: bool): Channel {
    if linked && m.Some? then c.(sent := c.sent + [m.value]) else c
  }

  predicate Unread(c: Channel) { c.read < |c.sent| }

  /** A reader that finds nothing gets an error once the peer has closed or the link is gone. */
  predicate EndOfStream(c: Channel, linked: bool, peerDone: bool) { !Unread(c) && (!linked || peerDone) }

  predicate HelperWaiting(pc: HelperPc) {
    pc.WaitChallenge? || pc.WaitCapability? || pc.WaitRequest? || pc.WaitExecute? || pc.WaitDenial?
  }

  predicate ServerWaiting(pc: ServerPc) {
    pc.WaitHello? || pc.WaitProof? || pc.WaitContext? || pc.WaitPrepared? || pc.WaitSpawn? || pc.Receiving?
  }

  datatype HelperAct = HelperAct(next: HelperPc, send: Option<Message>, starts: bool)

  /** client.go and runtime.go between two reads. */
  function HelperAction(pc: HelperPc, launch: string, mac: Mac, choice: HelperChoice): HelperAct {
    if choice == Fail then HelperAct(HelperDone, None, false)
    else
      match pc
      case SendHello => HelperAct(WaitChallenge, Some(Hello(launch)), false)
      case SendProof(capability, identity, challenge) =>
        (match Claim.ClaimProof(mac, capability, identity, challenge)
         case None => HelperAct(HelperDone, None, false)
         case Some(proof) => HelperAct(SendContext(identity), Some(Proof(proof)), false))
      case SendContext(identity) => HelperAct(WaitRequest(identity), Some(Context), false)
      case Prepare =>
        (match choice
         case PrepareFails => HelperAct(WaitDenial, Some(Prepared("", "unavailable")), false)
         case PrepareGives(resolved) =>
           if resolved == "" then HelperAct(HelperDone, None, false)
           else HelperAct(WaitExecute, Some(Prepared(resolved, "")), false)
         case _ => HelperAct(pc, None, false))
      case Start(child) => HelperAct(ReportSpawn(child, choice != StartFails), None, choice != StartFails)
      case ReportSpawn(child, succeeded) =>
        HelperAct(if succeeded then Streaming(child) else HelperDone, Some(Spawn(child, succeeded)), false)
      case Streaming(child) =>
        if choice == MoreOutput then HelperAct(pc, Some(Output), false)
        else HelperAct(HelperDone, Some(Terminal), false)
      case _ => HelperAct(pc, None, false)
  }

  /** The helper's next point after reading `m`; `None` when the message is not of the kind it expects. */
  function HelperOnMessage(pc: HelperPc, launch: string, m: Message): Option<HelperPc> {
    match pc
    case WaitChallenge =>
      if !m.Challenge? then None
      else if m.identity.opaqueLaunchId != launch then Some(HelperDone)
      else Some(WaitCapability(m.identity, m.challenge))
    case WaitCapability(identity, challenge) =>
      if m.Capability? then Some(SendProof(m.capability, identity, challenge)) else None
    case WaitRequest(identity) =>
      if !m.Request? then None
      else if m.identity != identity then Some(HelperDone)
      else Some(Prepare)
    case WaitExecute =>
      if !m.Execute? then None
      else if !m.authorized then Some(HelperDone)
      else Some(Start(m.child))
    case WaitDenial => if m.Execute? then Some(HelperDone) else None
    case _ => Some(pc)
  }

  function HelperStep(w: World, launch: string, mac: Mac, choice: HelperChoice): World {
    if w.helper.HelperDone? then w
    else if HelperWaiting(w.helper) && choice != Fail then HelperReads(w, launch)
    else HelperActs(w, HelperAction(w.helper, launch, mac, choice))
  }

  function HelperActs(w: World, a: HelperAct): World {
    w.(helper := a.next, up := Put(w.up, a.send, w.linked),
       started := if a.starts && w.helper.Start? then Some(w.helper.child) else w.started)
  }

  function HelperReads(w: World, launch: string): World {
    if Unread(w.down) then
      var next := HelperOnMessage(w.helper, launch, w.down.sent[w.down.read]);
      w.(helper := if next.Some? then next.value else HelperDone, down := w.down.(read := w.down.read + 1),
         confused := w.confused || next.None?)
    else if EndOfStream(w.down, w.linked, w.server.ServerDone?) then w.(helper := HelperDone)
    else w
  }

  datatype ServerAct = ServerAct(next: ServerPc, send: Option<Message>, stored: seq<Durable>)

  const STOPPED := ServerDone(None)

  /** server.go between two reads. Whatever a callback stored is logged; the state it returns is one
      it stored. */
  function ServerAction(pc: ServerPc, e: Expectation, choice: ServerChoice): ServerAct {
    if choice == Refuse then ServerAct(STOPPED, None, [])
    else
      match pc
      case SendChallenge =>
        if choice.Fresh? then
          ServerAct(SendCapability(choice.challenge, choice.capability),
                    Some(Challenge(e.identity, choice.challenge)), [])
        else ServerAct(pc, None, [])
      case SendCapability(challenge, capability) =>
        ServerAct(WaitProof(challenge, capability), Some(Capability(capability)), [])
      case Bind => Callback(pc, choice, if choice.Stores? then AfterBind(e, choice) else pc)
      case SendRequest(state) => ServerAct(WaitPrepared(state), Some(Request(e.identity)), [])
      case Authorize(state, failed) =>
        Callback(pc, choice, if choice.Stores? then AfterAuthorize(failed, e, choice) else pc)
      case SendDenial => ServerAct(STOPPED, Some(Execute(false, Child("", ""))), [])
      case SendExecute(next, child) => ServerAct(WaitSpawn(next, child), Some(Execute(true, child)), [])
      case Record(next, child, succeeded) =>
        Callback(pc, choice, if choice.Stores? then AfterRecord(child, succeeded, e, choice) else pc)
      case _ => ServerAct(pc, None, [])
  }

  function Callback(pc: ServerPc, choice: ServerChoice, next: ServerPc): ServerAct {
    if choice.Stores? then ServerAct(next, None, choice.states + [choice.returned]) else ServerAct(pc, None, [])
  }

  function AfterBind(e: Expectation, choice: ServerChoice): ServerPc
    requires choice.Stores?
  {
    if ValidExecutionState(choice.returned, e, HelperAuthenticated) then SendRequest(choice.returned) else STOPPED
  }

  /** After the prepared frame: the daemon's callback reserves the child, and nothing is sent unless
      the returned state is a durable reservation of exactly the child the execute frame names. */
  function AfterAuthorize(failed: bool, e: Expectation, choice: ServerChoice): ServerPc
    requires choice.Stores?
  {
    if failed then if choice.authorized then STOPPED else SendDenial
    else if !choice.authorized then STOPPED
    else if !ValidExecutionState(choice.returned, e, ChildReserved) || !choice.returned.authorized
            || !NamesChild(choice.returned, choice.child) then STOPPED
    else SendExecute(choice.returned, choice.child)
  }

  function AfterRecord(child: Child, succeeded: bool, e: Expectation, choice: ServerChoice): ServerPc
    requires choice.Stores?
  {
    if !succeeded then STOPPED
    else if !ValidExecutionState(choice.returned, e, ChildSpawned) || !choice.returned.authorized
            || !NamesChild(choice.returned, child) then STOPPED
    else Receiving(choice.returned, child)
  }

  function ServerOnMessage(pc: ServerPc, e: Expectation, m: Message): Option<ServerPc> {
    match pc
    case WaitHello =>
      if !m.Hello? then None
      else if m.launch != e.identity.opaqueLaunchId then Some(STOPPED)
      else Some(SendChallenge)
    case WaitProof(challenge, capability) =>
      if !m.Proof? then None
      else if !Claim.VerifyClaimProof(e.mac, capability, e.identity, challenge, m.proof) then Some(STOPPED)
      else Some(WaitContext)
    case WaitContext => if m.Context? then Some(Bind) else None
    case WaitPrepared(state) => if m.Prepared? then Some(Authorize(state, m.failure != "")) else None
    case WaitSpawn(next, child) =>
      if !m.Spawn? then None
      else if m.child != child then Some(STOPPED)
      else Some(Record(next, child, m.succeeded))
    case Receiving(spawned, child) =>
      if m.Terminal? then Some(ServerDone(Some((spawned, child))))
      else if m.Output? || m.Prepared? || m.Spawn? then Some(pc)
      else None
    case _ => Some(pc)
  }

  function ServerStep(w: World, e: Expectation, choice: ServerChoice): World {
    if w.server.ServerDone? then w
    else if ServerWaiting(w.server) && choice != Refuse then ServerReads(w, e)
    else ServerActs(w, ServerAction(w.server, e, choice))
  }

  function ServerActs(w: World, a: ServerAct): World {
    w.(server := a.next, down := Put(w.down, a.send, w.linked), log := w.log + a.stored)
  }

  function ServerReads(w: World, e: Expectation): World {
    if Unread(w.up) then
      var next := ServerOnMessage(w.server, e, w.up.sent[w.up.read]);
      w.(server := if next.Some? then next.value else STOPPED, up := w.up.(read := w.up.read + 1),
         confused := w.confused || next.None?)
    else if EndOfStream(w.up, w.linked, w.helper.HelperDone?) then w.(server := STOPPED)
    else w
  }

  /** The link breaks: each direction loses some of what was in flight. */
  function Break(w: World, up: nat, down: nat): World {
    if w.up.read <= up <= |w.up.sent| && w.down.read <= down <= |w.down.sent| then
      w.(linked := false, up := w.up.(sent := w.up.sent[..up]), down := w.down.(sent := w.down.sent[..down]))
    else w
  }

  function Step(w: World, e: Expectation, launch: string, event: Event): World {
    match event
    case HelperMoves(choice) => HelperStep(w, launch, e.mac, choice)
    case ServerMoves(choice) => ServerStep(w, e, choice)
    case LinkBreaks(up, down) => Break(w, up, down)
  }

  /** The world after a run. `launch` is the launch identity the helper was started with. */
  function Run(e: Expectation, launch: string, events: seq<Event>): World {
    if events == [] then INITIAL
    else Step(Run(e, launch, events[..|events| - 1]), e, launch, events[|events| - 1])
  }

  // ------------------------------------------------ shape: who sent and read what

  ghost predicate UpKind(i: nat, m: Message) {
    match i
    case 0 => m.Hello?
    case 1 => m.Proof?
    case 2 => m.Context?
    case 3 => m.Prepared?
    case 4 => m.Spawn?
    case _ => m.Output? || m.Terminal?
  }

  ghost predicate DownKind(i: nat, m: Message) {
    match i
    case 0 => m.Challenge?
    case 1 => m.Capability?
    case 2 => m.Request?
    case 3 => m.Execute?
    case _ => false
  }

  /** How many messages the helper has sent at a program point (at least five while streaming). */
  ghost function HelperSent(pc: HelperPc): nat {
    match pc
    case SendHello => 0
    case WaitChallenge => 1
    case WaitCapability(_, _) => 1
    case SendProof(_, _, _) => 1
    case SendContext(_) => 2
    case WaitRequest(_) => 3
    case Prepare => 3
    case Streaming(_) => 5
    case _ => 4
  }

  ghost function HelperRead(pc: HelperPc): nat {
    match pc
    case SendHello => 0
    case WaitChallenge => 0
    case WaitCapability(_, _) => 1
    case SendProof(_, _, _) => 2
    case SendContext(_) => 2
    case WaitRequest(_) => 2
    case Prepare => 3
    case WaitExecute => 3
    case WaitDenial => 3
    case _ => 4
  }

  ghost function ServerSent(pc: ServerPc): nat {
    match pc
    case WaitHello => 0
    case SendChallenge => 0
    case SendCapability(_, _) => 1
    case WaitProof(_, _) => 2
    case WaitContext => 2
    case Bind => 2
    case SendRequest(_) => 2
    case WaitSpawn(_, _) => 4
    case Record(_, _, _) => 4
    case Receiving(_, _) => 4
    case _ => 3
  }

  ghost function ServerRead(pc: ServerPc): nat {
    match pc
    case WaitHello => 0
    case SendChallenge => 1
    case SendCapability(_, _) => 1
    case WaitProof(_, _) => 1
    case WaitContext => 2
    case Bind => 3
    case SendRequest(_) => 3
    case WaitPrepared(_) => 3
    case Record(_, _, _) => 5
    case Receiving(_, _) => 5
    case _ => 4
  }

  ghost predicate Kinds(w: World) {
    && w.up.read <= |w.up.sent| && w.down.read <= |w.down.sent|
    && (forall i: nat | i < |w.up.sent| :: UpKind(i, w.up.sent[i]))
    && (forall i: nat | i < |w.down.sent| :: DownKind(i, w.down.sent[i]))
  }

  ghost predicate HelperInPlace(w: World) {
    !w.helper.HelperDone? ==>
      && w.down.read == HelperRead(w.helper)
      && (w.linked ==> if w.helper.Streaming? then |w.up.sent| >= 5 else |w.up.sent| == HelperSent(w.helper))
  }

  ghost predicate ServerInPlace(w: World) {
    !w.server.ServerDone? ==>
      && (if w.server.Receiving? then w.up.read >= 5 else w.up.read == ServerRead(w.server))
      && (w.linked ==> |w.down.sent| == ServerSent(w.server))
  }

  ghost predicate Shape(w: World) {
    Kinds(w) && HelperInPlace(w) && ServerInPlace(w) && !w.confused
  }

  lemma HelperActionShape(pc: HelperPc, launch: string, mac: Mac, choice: HelperChoice)
    requires !HelperWaiting(pc) && !pc.HelperDone?
    ensures var a := HelperAction(pc, launch, mac, choice);
            && (a.send.Some? ==>
               forall i: nat | i == HelperSent(pc) || (pc.Streaming? && i >= 5) :: UpKind(i, a.send.value))
            && (!a.next.HelperDone? ==>
                  && HelperRead(a.next) == HelperRead(pc)
                  && (pc.Streaming? ==> a.next.Streaming?)
                  && (!pc.Streaming? ==> HelperSent(a.next) == HelperSent(pc) + if a.send.Some? then 1 else 0))
  {
  }

  lemma HelperActsKeepsShape(w: World, launch: string, mac: Mac, choice: HelperChoice)
    requires Shape(w) && !w.helper.HelperDone? && (!HelperWaiting(w.helper) || choice == Fail)
    ensures Shape(HelperActs(w, HelperAction(w.helper, launch, mac, choice)))
  {
    hide UpKind, DownKind;
    if !HelperWaiting(w.helper) {
      hide HelperSent, HelperRead, HelperAction;
      HelperActionShape(w.helper, launch, mac, choice);
    }
  }

  lemma HelperOnMessageShape(pc: HelperPc, launch: string, m: Message)
    requires HelperWaiting(pc) && DownKind(HelperRead(pc), m)
    ensures var next := HelperOnMessage(pc, launch, m);
            && next.Some?
            && (!next.value.HelperDone? ==>
                  && !next.value.Streaming?
                  && HelperRead(next.value) == HelperRead(pc) + 1
                  && HelperSent(next.value) == HelperSent(pc))
  {
  }

  lemma HelperReadsKeepsShape(w: World, launch: string)
    requires Shape(w) && HelperWaiting(w.helper)
    ensures Shape(HelperReads(w, launch))
  {
    if Unread(w.down) {
      HelperOnMessageShape(w.helper, launch, w.down.sent[w.down.read]);
    }
  }

  lemma ServerActionShape(pc: ServerPc, e: Expectation, choice: ServerChoice)
    requires !ServerWaiting(pc) && !pc.ServerDone?
    ensures var a := ServerAction(pc, e, choice);
            && (a.send.Some? ==> DownKind(ServerSent(pc), a.send.value))
            && (!a.next.ServerDone? ==>
                  && ServerRead(a.next) == ServerRead(pc)
                  && ServerSent(a.next) == ServerSent(pc) + if a.send.Some? then 1 else 0)
  {
  }

  lemma ServerActsKeepsShape(w: World, e: Expectation, choice: ServerChoice)
    requires Shape(w) && !w.server.ServerDone? && (!ServerWaiting(w.server) || choice == Refuse)
    ensures Shape(ServerActs(w, ServerAction(w.server, e, choice)))
  {
    hide UpKind, DownKind;
    if !ServerWaiting(w.server) {
      hide ServerSent, ServerRead, ServerAction;
      ServerActionShape(w.server, e, choice);
    }
  }

  lemma ServerOnMessageShape(pc: ServerPc, e: Expectation, m: Message, i: nat)
    requires ServerWaiting(pc) && UpKind(i, m)
    requires if pc.Receiving? then i >= 5 else i == ServerRead(pc)
    ensures var next := ServerOnMessage(pc, e, m);
            && next.Some?
            && (!next.value.ServerDone? ==>
                  && ServerSent(next.value) == ServerSent(pc)
                  && if next.value.Receiving? then pc.Receiving? else ServerRead(next.value) == ServerRead(pc) + 1)
  {
  }

  lemma ServerReadsKeepsShape(w: World, e: Expectation)
    requires Shape(w) && ServerWaiting(w.server)
    ensures Shape(ServerReads(w, e))
  {
    if Unread(w.up) {
      ServerOnMessageShape(w.server, e, w.up.sent[w.up.read], w.up.read);
    }
  }

  lemma BreakKeepsShape(w: World, up: nat, down: nat)
    requires Shape(w)
    ensures Shape(Break(w, up, down))
  {
  }

  // -------------------------------------------------- backing: what is durable

  /** Some durable state reserves exactly this child and authorizes its execution. */
  ghost predicate Reserved(log: seq<Durable>, e: Expectation, child: Child) {
    exists d :: d in log && ValidExecutionState(d, e, ChildReserved) && d.authorized && NamesChild(d, child)
  }

  ghost predicate Spawned(log: seq<Durable>, e: Expectation, d: Durable, child: Child) {
    d in log && ValidExecutionState(d, e, ChildSpawned) && d.authorized && NamesChild(d, child)
  }

  /** The helper has read the execute frame that authorizes `child`. */
  ghost predicate HasExecute(w: World, child: Child) {
    4 <= w.down.read <= |w.down.sent| && w.down.sent[3] == Execute(true, child)
  }

  /** The daemon has read the spawn frame for `child`. */
  ghost predicate HasSpawn(w: World, child: Child, succeeded: bool) {
    5 <= w.up.read <= |w.up.sent| && w.up.sent[4] == Spawn(child, succeeded)
  }

  ghost function ChildOf(pc: HelperPc): Option<Child> {
    match pc
    case Start(child) => Some(child)
    case ReportSpawn(child, _) => Some(child)
    case Streaming(child) => Some(child)
    case _ => None
  }

  ghost predicate Running(pc: HelperPc) { pc.Streaming? || (pc.ReportSpawn? && pc.succeeded) }

  ghost predicate ExecuteIsBacked(w: World, e: Expectation) {
    |w.down.sent| > 3 && w.down.sent[3].Execute? && w.down.sent[3].authorized ==>
      Reserved(w.log, e, w.down.sent[3].child)
  }

  ghost predicate HelperIsBacked(w: World) {
    && (ChildOf(w.helper).Some? ==> HasExecute(w, ChildOf(w.helper).value))
    && (Running(w.helper) ==> w.started == ChildOf(w.helper))
    && (!Running(w.helper) && !w.helper.HelperDone? ==> w.started == None)
    && (w.started.Some? ==> HasExecute(w, w.started.value))
  }

  ghost predicate SpawnIsBacked(w: World) {
    |w.up.sent| > 4 ==>
      && w.up.sent[4].Spawn?
      && HasExecute(w, w.up.sent[4].child)
      && (w.up.sent[4].succeeded ==> w.started == Some(w.up.sent[4].child))
  }

  ghost predicate ServerIsBacked(w: World, e: Expectation) {
    match w.server
    case SendExecute(_, child) => Reserved(w.log, e, child)
    case WaitSpawn(_, child) => Reserved(w.log, e, child)
    case Record(_, child, succeeded) => Reserved(w.log, e, child) && HasSpawn(w, child, succeeded)
    case Receiving(spawned, child) =>
      Reserved(w.log, e, child) && HasSpawn(w, child, true) && Spawned(w.log, e, spawned, child)
    case ServerDone(Some((spawned, child))) =>
      Reserved(w.log, e, child) && HasSpawn(w, child, true) && Spawned(w.log, e, spawned, child)
    case _ => true
  }

  ghost predicate Backed(w: World, e: Expectation) {
    ExecuteIsBacked(w, e) && HelperIsBacked(w) && SpawnIsBacked(w) && ServerIsBacked(w, e)
  }

  lemma ReservedStays(log: seq<Durable>, more: seq<Durable>, e: Expectation, child: Child)
    requires Reserved(log, e, child)
    ensures Reserved(log + more, e, child)
  {
    var d :| d in log && ValidExecutionState(d, e, ChildReserved) && d.authorized && NamesChild(d, child);
    assert d in log + more;
  }

  lemma HelperActsKeepsBacked(w: World, e: Expectation, launch: string, choice: HelperChoice)
    requires Shape(w) && Backed(w, e) && !w.helper.HelperDone? && (!HelperWaiting(w.helper) || choice == Fail)
    ensures Backed(HelperActs(w, HelperAction(w.helper, launch, e.mac, choice)), e)
  {
    hide Reserved, Spawned, UpKind, DownKind;
  }

  lemma HelperReadsKeepsBacked(w: World, e: Expectation, launch: string)
    requires Shape(w) && Backed(w, e) && HelperWaiting(w.helper)
    ensures Backed(HelperReads(w, launch), e)
  {
    hide Reserved, Spawned;
    if Unread(w.down) {
      assert DownKind(w.down.read, w.down.sent[w.down.read]);
    }
  }

  lemma ServerReadsKeepsBacked(w: World, e: Expectation)
    requires Shape(w) && Backed(w, e) && ServerWaiting(w.server)
    ensures Backed(ServerReads(w, e), e)
  {
    hide Reserved, Spawned;
    if Unread(w.up) {
      assert UpKind(w.up.read, w.up.sent[w.up.read]);
    }
  }

  /** What the daemon's own step adds: the state it goes on with is one it stored. */
  lemma ServerActionBacked(pc: ServerPc, e: Expectation, choice: ServerChoice, log: seq<Durable>)
    requires !ServerWaiting(pc) || choice == Refuse
    requires !pc.ServerDone?
    ensures var a := ServerAction(pc, e, choice);
            && (a.next.SendExecute? && !pc.SendExecute? ==> Reserved(log + a.stored, e, a.next.child))
            && (a.next.SendExecute? && pc.SendExecute? ==> a.next == pc)
            && (a.next.WaitSpawn? ==> pc.SendExecute? && a.next.child == pc.child)
            && (a.next.Record? ==> a.next == pc)
            && (a.next.Receiving? ==>
                  pc.Record? && pc.succeeded && a.next.child == pc.child &&
                  Spawned(log + a.stored, e, a.next.spawned, a.next.child))
            && (a.next.ServerDone? ==> a.next == STOPPED)
            && (a.send.Some? && a.send.value.Execute? && a.send.value.authorized ==>
                  pc.SendExecute? && a.send.value.child == pc.child)
  {
    if choice.Stores? {
      assert choice.returned in log + (choice.states + [choice.returned]);
    }
  }

  lemma ServerActsKeepsBacked(w: World, e: Expectation, choice: ServerChoice)
    requires Shape(w) && Backed(w, e) && !w.server.ServerDone? && (!ServerWaiting(w.server) || choice == Refuse)
    ensures Backed(ServerActs(w, ServerAction(w.server, e, choice)), e)
  {
    hide Reserved, Spawned, UpKind, DownKind, ServerAction;
    var a := ServerAction(w.server, e, choice);
    ServerActionBacked(w.server, e, choice, w.log);
    forall child | Reserved(w.log, e, child)
      ensures Reserved(w.log + a.stored, e, child)
    {
      ReservedStays(w.log, a.stored, e, child);
    }
  }

  lemma BreakKeepsBacked(w: World, e: Expectation, up: nat, down: nat)
    requires Shape(w) && Backed(w, e)
    ensures Backed(Break(w, up, down), e)
  {
    hide Reserved, Spawned, UpKind, DownKind;
  }

  // ------------------------------------------------ authentication: what was proved

  /** The daemon got past the proof check. */
  ghost predicate Authenticated(pc: ServerPc) {
    match pc
    case WaitHello => false
    case SendChallenge => false
    case SendCapability(_, _) => false
    case WaitProof(_, _) => false
    case ServerDone(result) => result.Some?
    case _ => true
  }

  /** What the daemon sent before the proof, as far as it was not lost. */
  ghost predicate Issued(w: World, e: Expectation, challenge: string, capability: nat) {
    && (|w.down.sent| > 0 ==> w.down.sent[0] == Challenge(e.identity, challenge))
    && (|w.down.sent| > 1 ==> w.down.sent[1] == Capability(capability))
  }

  /** The helper has read this challenge, and the capability that follows it. */
  ghost predicate Answering(w: World, identity: Identity, challenge: string) {
    1 <= w.down.read <= |w.down.sent| && w.down.sent[0] == Challenge(identity, challenge)
  }

  ghost predicate Holding(w: World, capability: nat) {
    2 <= w.down.read <= |w.down.sent| && w.down.sent[1] == Capability(capability)
  }

  /** The proof on the wire was computed from the challenge and the capability that were read. */
  ghost predicate ProofIsAnswer(w: World, e: Expectation) {
    |w.up.sent| > 1 ==>
      && 2 <= w.down.read <= |w.down.sent|
      && w.down.sent[0].Challenge? && w.down.sent[1].Capability? && w.up.sent[1].Proof?
      && Claim.ClaimProof(e.mac, w.down.sent[1].capability, w.down.sent[0].identity, w.down.sent[0].challenge) ==
         Some(w.up.sent[1].proof)
  }

  /** The proof that was read verifies for what this daemon sent. */
  ghost predicate ProvedHere(w: World, e: Expectation) {
    && 2 <= w.down.read <= |w.down.sent| && 2 <= w.up.read <= |w.up.sent|
    && w.down.sent[0].Challenge? && w.down.sent[0].identity == e.identity
    && w.down.sent[1].Capability? && w.up.sent[1].Proof?
    && Claim.VerifyClaimProof(e.mac, w.down.sent[1].capability, e.identity, w.down.sent[0].challenge,
                              w.up.sent[1].proof)
  }

  ghost predicate HelperAnswers(w: World) {
    match w.helper
    case WaitCapability(identity, challenge) => Answering(w, identity, challenge)
    case SendProof(capability, identity, challenge) => Answering(w, identity, challenge) && Holding(w, capability)
    case _ => true
  }

  ghost predicate ServerIssued(w: World, e: Expectation) {
    match w.server
    case WaitHello => w.down.sent == []
    case SendChallenge => w.down.sent == []
    case SendCapability(challenge, capability) => |w.down.sent| <= 1 && Issued(w, e, challenge, capability)
    case WaitProof(challenge, capability) => Issued(w, e, challenge, capability)
    case _ => true
  }

  ghost predicate Proved(w: World, e: Expectation) {
    HelperAnswers(w) && ProofIsAnswer(w, e) && ServerIssued(w, e) && (Authenticated(w.server) ==> ProvedHere(w, e))
  }

  lemma HelperActsKeepsProved(w: World, e: Expectation, launch: string, choice: HelperChoice)
    requires Shape(w) && Proved(w, e) && !w.helper.HelperDone? && (!HelperWaiting(w.helper) || choice == Fail)
    ensures Proved(HelperActs(w, HelperAction(w.helper, launch, e.mac, choice)), e)
  {
    hide UpKind, DownKind, Claim.ClaimProof, Claim.VerifyClaimProof;
  }

  lemma HelperReadsKeepsProved(w: World, e: Expectation, launch: string)
    requires Shape(w) && Proved(w, e) && HelperWaiting(w.helper)
    ensures Proved(HelperReads(w, launch), e)
  {
    hide Claim.ClaimProof, Claim.VerifyClaimProof;
    if Unread(w.down) {
      assert DownKind(w.down.read, w.down.sent[w.down.read]);
    }
  }

  lemma ServerReadsKeepsProved(w: World, e: Expectation)
    requires Shape(w) && Proved(w, e) && ServerWaiting(w.server)
    ensures Proved(ServerReads(w, e), e)
  {
    hide Claim.ClaimProof, Claim.VerifyClaimProof;
    if Unread(w.up) {
      assert UpKind(w.up.read, w.up.sent[w.up.read]);
    }
  }

  lemma ServerActsKeepsProved(w: World, e: Expectation, choice: ServerChoice)
    requires Shape(w) && Proved(w, e) && !w.server.ServerDone? && (!ServerWaiting(w.server) || choice == Refuse)
    ensures Proved(ServerActs(w, ServerAction(w.server, e, choice)), e)
  {
    hide UpKind, DownKind, Claim.ClaimProof, Claim.VerifyClaimProof, ValidExecutionState, NamesChild;
  }

  lemma BreakKeepsProved(w: World, e: Expectation, up: nat, down: nat)
    requires Shape(w) && Proved(w, e)
    ensures Proved(Break(w, up, down), e)
  {
    hide UpKind, DownKind, Claim.ClaimProof, Claim.VerifyClaimProof;
  }

  // --------------------------------------------------------------- whole runs

  ghost predicate Inv(w: World, e: Expectation) { Shape(w) && Backed(w, e) && Proved(w, e) }

  lemma HelperKeepsInvariant(w: World, e: Expectation, launch: string, choice: HelperChoice)
    requires Inv(w, e) && !w.helper.HelperDone?
    ensures Inv(HelperStep(w, launch, e.mac, choice), e)
  {
    hide Shape, Backed, Proved, HelperActs, HelperReads, HelperAction;
    if HelperWaiting(w.helper) && choice != Fail {
      HelperReadsKeepsShape(w, launch);
      HelperReadsKeepsBacked(w, e, launch);
      HelperReadsKeepsProved(w, e, launch);
    } else {
      HelperActsKeepsShape(w, launch, e.mac, choice);
      HelperActsKeepsBacked(w, e, launch, choice);
      HelperActsKeepsProved(w, e, launch, choice);
    }
  }

  lemma ServerKeepsInvariant(w: World, e: Expectation, choice: ServerChoice)
    requires Inv(w, e) && !w.server.ServerDone?
    ensures Inv(ServerStep(w, e, choice), e)
  {
    hide Shape, Backed, Proved, ServerActs, ServerReads, ServerAction;
    if ServerWaiting(w.server) && choice != Refuse {
      ServerReadsKeepsShape(w, e);
      ServerReadsKeepsBacked(w, e);
      ServerReadsKeepsProved(w, e);
    } else {
      ServerActsKeepsShape(w, e, choice);
      ServerActsKeepsBacked(w, e, choice);
      ServerActsKeepsProved(w, e, choice);
    }
  }

  lemma StepKeepsInvariant(w: World, e: Expectation, launch: string, event: Event)
    requires Inv(w, e)
    ensures Inv(Step(w, e, launch, event), e)
  {
    match event
    case HelperMoves(choice) =>
      if !w.helper.HelperDone? {
        HelperKeepsInvariant(w, e, launch, choice);
      }
    case ServerMoves(choice) =>
      if !w.server.ServerDone? {
        ServerKeepsInvariant(w, e, choice);
      }
    case LinkBreaks(up, down) =>
      BreakKeepsShape(w, up, down);
      BreakKeepsBacked(w, e, up, down);
      BreakKeepsProved(w, e, up, down);
    hide Shape, Backed, Proved, Break, HelperReads, HelperActs, ServerReads, ServerActs;
  }

  lemma {:induction false} RunInvariant(e: Expectation, launch: string, events: seq<Event>)
    ensures Inv(Run(e, launch, events), e)
    decreases |events|
  {
    if events != [] {
      hide Inv, Step;
      RunInvariant(e, launch, events[..|events| - 1]);
      StepKeepsInvariant(Run(e, launch, events[..|events| - 1]), e, launch, events[|events| - 1]);
    }
  }

  /** No child without a durable reservation: in every run, a started child is named by a durable,
      authorized reservation, and it is the child of the only execute frame. */
  lemma {:induction false} NoChildBeforeReservation(e: Expectation, launch: string, events: seq<Event>)
    ensures var w := Run(e, launch, events);
            w.started.Some? ==>
              Reserved(w.log, e, w.started.value) && |w.down.sent| > 3 &&
                w.down.sent[3] == Execute(true, w.started.value)
  {
    RunInvariant(e, launch, events);
    hide Run, Proved, Kinds;
  }

  /** The step that starts a child finds its reservation already in the log; no later step starts another. */
  lemma {:induction false} ReservationPrecedesStart(e: Expectation, launch: string, events: seq<Event>, event: Event)
    ensures var w, w' := Run(e, launch, events), Step(Run(e, launch, events), e, launch, event);
            && (w'.started != w.started ==>
               w.started == None && w'.started.Some? && Reserved(w.log, e, w'.started.value))
            && w.log <= w'.log
  {
    RunInvariant(e, launch, events);
    hide Run, Reserved, Proved, Kinds, ServerAction, ServerOnMessage;
  }

  /** Output is accepted only from a durably spawned child, and the reservation, the execute frame,
      the spawn frame, the spawned state and the process the helper started all name that child. */
  lemma {:induction false} ResultNamesOneChild(e: Expectation, launch: string, events: seq<Event>)
    ensures var w := Run(e, launch, events);
            && (w.server.Receiving? ==>
                  Spawned(w.log, e, w.server.spawned, w.server.child) && OneChild(w, e, w.server.child))
            && (w.server.ServerDone? && w.server.result.Some? ==>
                  Spawned(w.log, e, w.server.result.value.0, w.server.result.value.1) &&
                    OneChild(w, e, w.server.result.value.1))
  {
    RunInvariant(e, launch, events);
    hide Run, Proved, Kinds;
  }

  ghost predicate OneChild(w: World, e: Expectation, child: Child) {
    Reserved(w.log, e, child) && HasExecute(w, child) && HasSpawn(w, child, true) && w.started == Some(child)
  }

  /** A step of this side would change the world. */
  ghost predicate HelperCanMove(w: World) {
    && !w.helper.HelperDone?
    && (HelperWaiting(w.helper) ==> Unread(w.down) || EndOfStream(w.down, w.linked, w.server.ServerDone?))
  }

  ghost predicate ServerCanMove(w: World) {
    && !w.server.ServerDone?
    && (ServerWaiting(w.server) ==> Unread(w.up) || EndOfStream(w.up, w.linked, w.helper.HelperDone?))
  }

  /** Being able to move is being able to change the world, without giving up, wherever a side waits. */
  lemma MovingChangesTheWorld(w: World, e: Expectation, launch: string)
    requires Shape(w)
    ensures HelperWaiting(w.helper) ==> (HelperCanMove(w) <==> HelperStep(w, launch, e.mac, Proceed) != w)
    ensures ServerWaiting(w.server) ==> (ServerCanMove(w) <==> ServerStep(w, e, Continue) != w)
  {
  }

  /** Whatever a peer sends, each side takes only the kind of message it waits for; while receiving output the
      daemon skips stray prepared and spawn frames. */
  lemma OnlyTheExpectedKind(helper: HelperPc, server: ServerPc, e: Expectation, launch: string, m: Message)
    ensures HelperWaiting(helper) ==>
              (HelperOnMessage(helper, launch, m).Some? <==>
                 match helper
                 case WaitChallenge => m.Challenge?
                 case WaitCapability(_, _) => m.Capability?
                 case WaitRequest(_) => m.Request?
                 case _ => m.Execute?)
    ensures ServerWaiting(server) ==>
              (ServerOnMessage(server, e, m).Some? <==>
                 match server
                 case WaitHello => m.Hello?
                 case WaitProof(_, _) => m.Proof?
                 case WaitContext => m.Context?
                 case WaitPrepared(_) => m.Prepared?
                 case WaitSpawn(_, _) => m.Spawn?
                 case _ => m.Output? || m.Terminal? || m.Prepared? || m.Spawn?)
  {
    hide Claim.VerifyClaimProof;
  }

  /** In every run the message that a waiting side finds is of the one kind it waits for. */
  lemma {:induction false} NextMessageFits(e: Expectation, launch: string, events: seq<Event>)
    ensures var w := Run(e, launch, events);
            && (HelperWaiting(w.helper) && Unread(w.down) ==>
                  HelperOnMessage(w.helper, launch, w.down.sent[w.down.read]).Some?)
            && (ServerWaiting(w.server) && Unread(w.up) ==>
                  ServerOnMessage(w.server, e, w.up.sent[w.up.read]).Some?)
  {
    RunInvariant(e, launch, events);
    var w := Run(e, launch, events);
    hide Run, Backed, Proved, ServerOnMessage, HelperOnMessage;
    if HelperWaiting(w.helper) && Unread(w.down) {
      HelperOnMessageShape(w.helper, launch, w.down.sent[w.down.read]);
    }
    if ServerWaiting(w.server) && Unread(w.up) {
      ServerOnMessageShape(w.server, e, w.up.sent[w.up.read], w.up.read);
    }
  }

  /** The two programs are dual: no run reaches a point where both wait for the other, and neither
      ever reads a message of a kind it does not expect. */
  lemma {:induction false} NeverBothWaiting(e: Expectation, launch: string, events: seq<Event>)
    ensures var w := Run(e, launch, events);
            && !w.confused
            && ((w.helper.HelperDone? && w.server.ServerDone?) || HelperCanMove(w) || ServerCanMove(w))
  {
    RunInvariant(e, launch, events);
    hide Run, Proved, Backed;
  }

  /** In every run in which the daemon is past the proof check, the proof it read verifies for the
      capability and the challenge it sent and for its own identity; and, the MAC being injective, it is a
      proof of nothing else. */
  lemma {:induction false} ProofIsForThisExchange(e: Expectation, launch: string, events: seq<Event>, used: nat,
                                                  claimed: Identity, answered: string)
    requires Claim.Injective(e.mac)
    ensures var w := Run(e, launch, events);
            Authenticated(w.server) ==>
              && ProvedHere(w, e)
              && (Claim.ClaimProof(e.mac, used, claimed, answered) == Some(w.up.sent[1].proof) <==>
                    used == w.down.sent[1].capability && claimed == e.identity && answered == w.down.sent[0].challenge)
  {
    RunInvariant(e, launch, events);
    var w := Run(e, launch, events);
    hide Run, Shape, Backed;
    if Authenticated(w.server) && Claim.ClaimProof(e.mac, used, claimed, answered) == Some(w.up.sent[1].proof) {
      Claim.AcceptedExactlyForOwnClaim(e.mac, w.down.sent[1].capability, e.identity, w.down.sent[0].challenge,
                                       used, claimed, answered);
    }
  }

  // ------------------------------------------------------- against any peer at all

  /** One step of the daemon facing a peer that may send anything. */
  datatype PeerStep = Acts(choice: ServerChoice) | Hears(message: Message) | HearsNothing

  /** The daemon, the challenge and capability it issued, and the proof it accepted. */
  datatype Session = Session(server: ServerPc, issued: Option<(string, nat)>, accepted: Option<string>)

  function Face(s: Session, e: Expectation, step: PeerStep): Session {
    if s.server.ServerDone? then s
    else if ServerWaiting(s.server) then
      match step
      case Acts(_) => s.(server := STOPPED)
      case HearsNothing => s.(server := STOPPED)
      case Hears(m) =>
        var next := ServerOnMessage(s.server, e, m);
        s.(server := if next.Some? then next.value else STOPPED,
           accepted := if s.server.WaitProof? && next == Some(WaitContext) && m.Proof? then Some(m.proof)
                       else s.accepted)
    else if !step.Acts? then s
    else
      var next := ServerAction(s.server, e, step.choice).next;
      s.(server := next, issued := if next.SendCapability? then Some((next.challenge, next.capability)) else s.issued)
  }

  function FaceAll(e: Expectation, steps: seq<PeerStep>): Session {
    if steps == [] then Session(WaitHello, None, None)
    else Face(FaceAll(e, steps[..|steps| - 1]), e, steps[|steps| - 1])
  }

  ghost predicate SessionOk(s: Session, e: Expectation) {
    && (s.server.SendCapability? ==> s.issued == Some((s.server.challenge, s.server.capability)))
    && (s.server.WaitProof? ==> s.issued == Some((s.server.challenge, s.server.capability)))
    && (Authenticated(s.server) ==>
          && s.issued.Some? && s.accepted.Some?
          && Claim.VerifyClaimProof(e.mac, s.issued.value.1, e.identity, s.issued.value.0, s.accepted.value))
  }

  lemma FaceKeeps(s: Session, e: Expectation, step: PeerStep)
    requires SessionOk(s, e)
    ensures SessionOk(Face(s, e, step), e)
  {
    hide Claim.ClaimProof, Claim.VerifyClaimProof, ValidExecutionState, NamesChild;
  }

  lemma {:induction false} FaceAllKeeps(e: Expectation, steps: seq<PeerStep>)
    ensures SessionOk(FaceAll(e, steps), e)
    decreases |steps|
  {
    if steps != [] {
      hide SessionOk, Face;
      FaceAllKeeps(e, steps[..|steps| - 1]);
      FaceKeeps(FaceAll(e, steps[..|steps| - 1]), e, steps[|steps| - 1]);
    }
  }

  /** Whatever the peer sends, the daemon gets past authentication only by a proof of its own identity,
      challenge and capability. */
  lemma {:induction false} AnyPeerMustProveTheClaim(e: Expectation, steps: seq<PeerStep>, used: nat, claimed: Identity,
                                                    answered: string)
    requires Claim.Injective(e.mac)
    ensures var s := FaceAll(e, steps);
            Authenticated(s.server) ==>
              && s.issued.Some? && s.accepted.Some?
              && (Claim.ClaimProof(e.mac, used, claimed, answered) == s.accepted <==>
                    (answered, used) == s.issued.value && claimed == e.identity)
  {
    FaceAllKeeps(e, steps);
    var s := FaceAll(e, steps);
    hide FaceAll;
    if Authenticated(s.server) && Claim.ClaimProof(e.mac, used, claimed, answered) == s.accepted {
      Claim.AcceptedExactlyForOwnClaim(e.mac, s.issued.value.1, e.identity, s.issued.value.0, used, claimed, answered);
    }
  }

  // ------------------------------------------------- the exchange has a result

  /** In every run: once the daemon has read the terminal frame it has a result, for the child that the helper
      started; and it has no result before. */
  ghost predicate ResultOk(w: World) {
    && (forall i | 0 <= i < w.up.read && i < |w.up.sent| :: w.up.sent[i].Terminal? ==>
          i == w.up.read - 1 && w.server.ServerDone? && w.server.result.Some?)
    && (w.server.ServerDone? && w.server.result.Some? ==>
          0 < w.up.read <= |w.up.sent| && w.up.sent[w.up.read - 1].Terminal?)
  }

  lemma ServerReadsKeepsResult(w: World, e: Expectation)
    requires Shape(w) && ResultOk(w) && ServerWaiting(w.server)
    ensures ResultOk(ServerReads(w, e))
  {
    hide Claim.VerifyClaimProof;
    if Unread(w.up) {
      assert UpKind(w.up.read, w.up.sent[w.up.read]);
    }
  }

  lemma OtherStepsKeepResult(w: World, e: Expectation, launch: string, event: Event)
    requires Shape(w) && ResultOk(w)
    requires !(event.ServerMoves? && !w.server.ServerDone? && ServerWaiting(w.server) && event.s != Refuse)
    ensures ResultOk(Step(w, e, launch, event))
  {
    hide UpKind, DownKind, Claim.ClaimProof, Claim.VerifyClaimProof, ValidExecutionState, NamesChild;
    hide HelperAction, HelperOnMessage;
    if event.ServerMoves? && !w.server.ServerDone? {
      ServerActionGivesNoResult(w.server, e, event.s);
    }
    hide ServerAction;
  }

  lemma ServerActionGivesNoResult(pc: ServerPc, e: Expectation, choice: ServerChoice)
    requires !pc.ServerDone?
    ensures var next := ServerAction(pc, e, choice).next; next.ServerDone? ==> next.result.None?
  {
    hide ValidExecutionState, NamesChild;
  }

  lemma {:induction false} RunHasResult(e: Expectation, launch: string, events: seq<Event>)
    ensures ResultOk(Run(e, launch, events))
    decreases |events|
  {
    if events != [] {
      var w, event := Run(e, launch, events[..|events| - 1]), events[|events| - 1];
      RunHasResult(e, launch, events[..|events| - 1]);
      RunInvariant(e, launch, events[..|events| - 1]);
      hide Run, ResultOk, Backed, Proved, ServerReads;
      if event.ServerMoves? && !w.server.ServerDone? && ServerWaiting(w.server) && event.s != Refuse {
        ServerReadsKeepsResult(w, e);
      } else {
        hide Step;
        OtherStepsKeepResult(w, e, launch, event);
      }
    }
  }

  /** In every run the daemon has a result exactly when the last message it has read is the terminal frame, and
      then the result is for the child that the helper started. */
  lemma {:induction false} TerminalGivesTheResult(e: Expectation, launch: string, events: seq<Event>)
    ensures var w := Run(e, launch, events);
            && ((0 < w.up.read <= |w.up.sent| && w.up.sent[w.up.read - 1].Terminal?) <==>
                 (w.server.ServerDone? && w.server.result.Some?))
            && (w.server.ServerDone? && w.server.result.Some? ==> w.started == Some(w.server.result.value.1))
  {
    RunInvariant(e, launch, events);
    RunHasResult(e, launch, events);
    hide Run, Proved, Kinds, ExecuteIsBacked;
  }

  // ------------------------------------------------------ the exchange completes

  /** Some run leads there. */
  ghost predicate Reached(e: Expectation, launch: string, w: World) {
    exists events :: Run(e, launch, events) == w
  }

  lemma ReachesOn(e: Expectation, launch: string, w: World, event: Event)
    requires Reached(e, launch, w)
    ensures Reached(e, launch, Step(w, e, launch, event))
  {
    var events :| Run(e, launch, events) == w;
    assert (events + [event])[..|events|] == events;
    assert Run(e, launch, events + [event]) == Step(w, e, launch, event);
  }

  const HELPER := HelperMoves(Proceed)
  const SERVER := ServerMoves(Continue)

  /** The durable record of this expectation at a stage, for a child. */
  function DurableFor(e: Expectation, lifecycle: Lifecycle, child: Child): Durable {
    Durable(true, lifecycle, Some(e.helper), Some(e.context), e.identity.contextExecId, e.identity.sessionId,
            e.identity.authorityEpoch, e.identity.requestFingerprint, true, child.operation, child.session)
  }

  function Storing(e: Expectation, lifecycle: Lifecycle, child: Child): Event {
    ServerMoves(Stores([], DurableFor(e, lifecycle, child), true, child))
  }

  /** Both sides have authenticated: hello, proof and context one way, challenge and capability the other. */
  function Met(e: Expectation, challenge: string, capability: nat, proof: string): World {
    World(WaitRequest(e.identity), Bind, Channel([Hello(e.identity.opaqueLaunchId), Proof(proof), Context], 3),
          Channel([Challenge(e.identity, challenge), Capability(capability)], 2), true, [], None, false)
  }

  lemma {:induction false} ReachesMet(e: Expectation, challenge: string, capability: nat)
    requires Claim.ClaimProof(e.mac, capability, e.identity, challenge).Some?
    ensures Reached(e, e.identity.opaqueLaunchId,
                    Met(e, challenge, capability, Claim.ClaimProof(e.mac, capability, e.identity, challenge).value))
  {
    hide Claim.ClaimProof, Reached;
    var launch, proof := e.identity.opaqueLaunchId, Claim.ClaimProof(e.mac, capability, e.identity, challenge).value;
    ReachesStart(e, launch);
    var w1 := Step(INITIAL, e, launch, HELPER);
    ReachesOn(e, launch, INITIAL, HELPER);
    var w2 := Step(w1, e, launch, SERVER);
    ReachesOn(e, launch, w1, SERVER);
    var w3 := Step(w2, e, launch, ServerMoves(Fresh(challenge, capability)));
    ReachesOn(e, launch, w2, ServerMoves(Fresh(challenge, capability)));
    var w4 := Step(w3, e, launch, SERVER);
    ReachesOn(e, launch, w3, SERVER);
    assert w4.down.sent == [Challenge(e.identity, challenge), Capability(capability)];
    var w5 := Step(w4, e, launch, HELPER);
    ReachesOn(e, launch, w4, HELPER);
    var w6 := Step(w5, e, launch, HELPER);
    ReachesOn(e, launch, w5, HELPER);
    var w7 := Step(w6, e, launch, HELPER);
    ReachesOn(e, launch, w6, HELPER);
    assert w7.up.sent == [Hello(launch), Proof(proof)];
    var w8 := Step(w7, e, launch, SERVER);
    ReachesOn(e, launch, w7, SERVER);
    var w9 := Step(w8, e, launch, HELPER);
    ReachesOn(e, launch, w8, HELPER);
    var w10 := Step(w9, e, launch, SERVER);
    ReachesOn(e, launch, w9, SERVER);
    assert w10 == Met(e, challenge, capability, proof);
  }

  lemma ReachesStart(e: Expectation, launch: string)
    ensures Reached(e, launch, INITIAL)
  {
    assert Run(e, launch, []) == INITIAL;
  }

  /** The child is reserved and its execute frame has been read. */
  function Authorized(e: Expectation, met: World, child: Child, resolved: string): World {
    World(Start(child), WaitSpawn(DurableFor(e, ChildReserved, child), child),
          Channel(met.up.sent + [Prepared(resolved, "")], 4),
          Channel(met.down.sent + [Request(e.identity), Execute(true, child)], 4), true,
          [DurableFor(e, HelperAuthenticated, child), DurableFor(e, ChildReserved, child)], None, false)
  }

  /** The daemon has bound the claim, and the helper has prepared its executable. */
  function Readied(e: Expectation, met: World, child: Child, resolved: string): World {
    World(WaitExecute, WaitPrepared(DurableFor(e, HelperAuthenticated, child)),
          Channel(met.up.sent + [Prepared(resolved, "")], 3), Channel(met.down.sent + [Request(e.identity)], 3), true,
          [DurableFor(e, HelperAuthenticated, child)], None, false)
  }

  /** The daemon has bound the claim and asked. */
  function Asked(e: Expectation, met: World, child: Child): World {
    World(WaitRequest(e.identity), WaitPrepared(DurableFor(e, HelperAuthenticated, child)), met.up,
          Channel(met.down.sent + [Request(e.identity)], 2), true, [DurableFor(e, HelperAuthenticated, child)], None,
          false)
  }

  lemma {:induction false} ReachesAsked(e: Expectation, launch: string, met: World, challenge: string, capability: nat,
                                        proof: string, child: Child)
    requires met == Met(e, challenge, capability, proof) && Reached(e, launch, met)
    ensures Reached(e, launch, Asked(e, met, child))
  {
    hide Reached;
    var w1 := Step(met, e, launch, Storing(e, HelperAuthenticated, child));
    ReachesOn(e, launch, met, Storing(e, HelperAuthenticated, child));
    assert w1.log == [DurableFor(e, HelperAuthenticated, child)];
    var w2 := Step(w1, e, launch, SERVER);
    ReachesOn(e, launch, w1, SERVER);
    assert w2 == Asked(e, met, child);
  }

  lemma {:induction false} ReachesReadied(e: Expectation, launch: string, met: World, challenge: string,
                                          capability: nat, proof: string, child: Child, resolved: string)
    requires met == Met(e, challenge, capability, proof) && Reached(e, launch, met) && resolved != ""
    ensures Reached(e, launch, Readied(e, met, child, resolved))
  {
    hide Reached;
    ReachesAsked(e, launch, met, challenge, capability, proof, child);
    var w2 := Asked(e, met, child);
    var w3 := Step(w2, e, launch, HELPER);
    ReachesOn(e, launch, w2, HELPER);
    var w4 := Step(w3, e, launch, HelperMoves(PrepareGives(resolved)));
    ReachesOn(e, launch, w3, HelperMoves(PrepareGives(resolved)));
    assert w4 == Readied(e, met, child, resolved);
  }

  /** The child is reserved, and the daemon is about to send the execute frame. */
  function Issuing(e: Expectation, met: World, child: Child, resolved: string): World {
    World(WaitExecute, SendExecute(DurableFor(e, ChildReserved, child), child),
          Channel(met.up.sent + [Prepared(resolved, "")], 4), Channel(met.down.sent + [Request(e.identity)], 3), true,
          [DurableFor(e, HelperAuthenticated, child), DurableFor(e, ChildReserved, child)], None, false)
  }

  lemma {:induction false} ReachesIssuing(e: Expectation, launch: string, met: World, child: Child, resolved: string)
    requires |met.up.sent| == 3 && |met.down.sent| == 2 && resolved != ""
    requires Reached(e, launch, Readied(e, met, child, resolved))
    ensures Reached(e, launch, Issuing(e, met, child, resolved))
  {
    hide Reached;
    var w4 := Readied(e, met, child, resolved);
    var w5 := Step(w4, e, launch, SERVER);
    ReachesOn(e, launch, w4, SERVER);
    var w6 := Step(w5, e, launch, Storing(e, ChildReserved, child));
    ReachesOn(e, launch, w5, Storing(e, ChildReserved, child));
    assert w6 == Issuing(e, met, child, resolved);
  }

  lemma {:induction false} ReachesAuthorized(e: Expectation, launch: string, met: World, child: Child, resolved: string)
    requires |met.up.sent| == 3 && |met.down.sent| == 2 && resolved != ""
    requires Reached(e, launch, Readied(e, met, child, resolved))
    ensures Reached(e, launch, Authorized(e, met, child, resolved))
  {
    hide Reached;
    ReachesIssuing(e, launch, met, child, resolved);
    var w6 := Issuing(e, met, child, resolved);
    var w7 := Step(w6, e, launch, SERVER);
    ReachesOn(e, launch, w6, SERVER);
    var w8 := Step(w7, e, launch, HELPER);
    ReachesOn(e, launch, w7, HELPER);
    assert w8 == Authorized(e, met, child, resolved);
  }

  /** The exchange is over, with a result for the child. */
  ghost predicate Finished(w: World, e: Expectation, child: Child) {
    && w.helper.HelperDone? && w.server == ServerDone(Some((DurableFor(e, ChildSpawned, child), child)))
    && w.started == Some(child) && !w.confused
  }

  /** The child runs and the daemon knows. */
  function Reported(e: Expectation, met: World, child: Child, resolved: string): World {
    var authorized := Authorized(e, met, child, resolved);
    authorized.(helper := Streaming(child), server := Receiving(DurableFor(e, ChildSpawned, child), child),
                up := Channel(authorized.up.sent + [Spawn(child, true)], 5),
                log := authorized.log + [DurableFor(e, ChildSpawned, child)], started := Some(child))
  }

  /** The helper has started the child and reported it. */
  function Started(e: Expectation, met: World, child: Child, resolved: string): World {
    var authorized := Authorized(e, met, child, resolved);
    authorized.(helper := Streaming(child), up := Channel(authorized.up.sent + [Spawn(child, true)], 4),
                started := Some(child))
  }

  lemma {:induction false} ReachesStarted(e: Expectation, launch: string, met: World, child: Child, resolved: string)
    requires Reached(e, launch, Authorized(e, met, child, resolved))
    ensures Reached(e, launch, Started(e, met, child, resolved))
  {
    hide Reached;
    var w0 := Authorized(e, met, child, resolved);
    var w1 := Step(w0, e, launch, HELPER);
    ReachesOn(e, launch, w0, HELPER);
    var w2 := Step(w1, e, launch, HELPER);
    ReachesOn(e, launch, w1, HELPER);
    assert w2 == Started(e, met, child, resolved);
  }

  lemma {:induction false} ReachesReported(e: Expectation, launch: string, met: World, child: Child, resolved: string)
    requires |met.up.sent| == 3 && |met.down.sent| == 2
    requires Reached(e, launch, Authorized(e, met, child, resolved))
    ensures Reached(e, launch, Reported(e, met, child, resolved))
  {
    hide Reached;
    ReachesStarted(e, launch, met, child, resolved);
    var w2 := Started(e, met, child, resolved);
    var w3 := Step(w2, e, launch, SERVER);
    ReachesOn(e, launch, w2, SERVER);
    var w4 := Step(w3, e, launch, Storing(e, ChildSpawned, child));
    ReachesOn(e, launch, w3, Storing(e, ChildSpawned, child));
    assert w4 == Reported(e, met, child, resolved);
  }

  lemma {:induction false} ReachesFinished(e: Expectation, launch: string, met: World, child: Child, resolved: string)
    returns (end: World)
    requires |met.up.sent| == 3 && |met.down.sent| == 2
    requires Reached(e, launch, Reported(e, met, child, resolved))
    ensures Reached(e, launch, end) && Finished(end, e, child)
  {
    hide Reached;
    var w4 := Reported(e, met, child, resolved);
    var w5 := Step(w4, e, launch, HelperMoves(MoreOutput));
    ReachesOn(e, launch, w4, HelperMoves(MoreOutput));
    var w6 := Step(w5, e, launch, SERVER);
    ReachesOn(e, launch, w5, SERVER);
    assert w6.server == Receiving(DurableFor(e, ChildSpawned, child), child);
    var w7 := Step(w6, e, launch, HELPER);
    ReachesOn(e, launch, w6, HELPER);
    end := Step(w7, e, launch, SERVER);
    ReachesOn(e, launch, w7, SERVER);
  }

  /** The exchange can succeed: for every expectation, challenge and capability that have a proof, every child
      and every executable, some run of the honest pair ends with both sides done, nothing confused, and a
      result for that child. */
  lemma {:induction false} ExchangeCanSucceed(e: Expectation, challenge: string, capability: nat, child: Child,
                                              resolved: string)
    requires Claim.ClaimProof(e.mac, capability, e.identity, challenge).Some? && resolved != ""
    ensures exists events :: Finished(Run(e, e.identity.opaqueLaunchId, events), e, child)
  {
    hide Claim.ClaimProof;
    var launch, proof := e.identity.opaqueLaunchId, Claim.ClaimProof(e.mac, capability, e.identity, challenge).value;
    ReachesMet(e, challenge, capability);
    var met := Met(e, challenge, capability, proof);
    ReachesReadied(e, launch, met, challenge, capability, proof, child, resolved);
    ReachesAuthorized(e, launch, met, child, resolved);
    ReachesReported(e, launch, met, child, resolved);
    var end := ReachesFinished(e, launch, met, child, resolved);
    var events :| Run(e, launch, events) == end;
  }

  // ------------------------------------------------ what both sides have checked

  /** The daemon is past the hello. */
  ghost predicate PastHello(pc: ServerPc) { !pc.WaitHello? && (pc.ServerDone? ==> pc.result.Some?) }

  /** The identity a helper has accepted in the challenge. */
  ghost function Accepted(pc: HelperPc): Option<Identity> {
    match pc
    case WaitCapability(identity, _) => Some(identity)
    case SendProof(_, identity, _) => Some(identity)
    case SendContext(identity) => Some(identity)
    case WaitRequest(identity) => Some(identity)
    case _ => None
  }

  /** The helper has accepted the request, or has gone on from there. */
  ghost predicate HasRequest(w: World) {
    || w.started.Some? || w.helper.Prepare? || w.helper.WaitExecute? || w.helper.WaitDenial?
    || w.helper.Start? || w.helper.ReportSpawn? || w.helper.Streaming?
  }

  /** The challenge names the helper's own launch. */
  ghost predicate OwnChallenge(w: World, launch: string) {
    1 <= w.down.read <= |w.down.sent| && w.down.sent[0].Challenge? && w.down.sent[0].identity.opaqueLaunchId == launch
  }

  ghost predicate OwnRequest(w: World, launch: string) {
    OwnChallenge(w, launch) && 3 <= w.down.read && w.down.sent[2] == Request(w.down.sent[0].identity)
  }

  ghost predicate Bound(log: seq<Durable>, e: Expectation) {
    exists d :: d in log && ValidExecutionState(d, e, HelperAuthenticated)
  }

  ghost predicate Checked(w: World, e: Expectation, launch: string) {
    && (PastHello(w.server) ==> 0 < w.up.read <= |w.up.sent| && w.up.sent[0] == Hello(e.identity.opaqueLaunchId))
    && (Accepted(w.helper).Some? ==>
          OwnChallenge(w, launch) && w.down.sent[0].identity == Accepted(w.helper).value)
    && (HasRequest(w) ==> OwnRequest(w, launch))
    && (w.server.SendRequest? || |w.down.sent| > 2 ==> Bound(w.log, e))
  }

  lemma BoundStays(log: seq<Durable>, more: seq<Durable>, e: Expectation)
    requires Bound(log, e)
    ensures Bound(log + more, e)
  {
    var d :| d in log && ValidExecutionState(d, e, HelperAuthenticated);
    assert d in log + more;
  }

  lemma HelperActsKeepsChecked(w: World, e: Expectation, launch: string, choice: HelperChoice)
    requires Shape(w) && Checked(w, e, launch) && !w.helper.HelperDone? && (!HelperWaiting(w.helper) || choice == Fail)
    ensures Checked(HelperActs(w, HelperAction(w.helper, launch, e.mac, choice)), e, launch)
  {
    hide UpKind, DownKind, Claim.ClaimProof, Bound;
  }

  lemma HelperReadsKeepsChecked(w: World, e: Expectation, launch: string)
    requires Shape(w) && Checked(w, e, launch) && HelperWaiting(w.helper)
    ensures Checked(HelperReads(w, launch), e, launch)
  {
    hide Bound;
    if Unread(w.down) {
      assert DownKind(w.down.read, w.down.sent[w.down.read]);
    }
  }

  lemma ServerReadsKeepsChecked(w: World, e: Expectation, launch: string)
    requires Shape(w) && Checked(w, e, launch) && ServerWaiting(w.server)
    ensures Checked(ServerReads(w, e), e, launch)
  {
    hide Bound, Claim.VerifyClaimProof;
    if Unread(w.up) {
      assert UpKind(w.up.read, w.up.sent[w.up.read]);
    }
  }

  /** The daemon goes on to the request only with a bound state that its callback stored. */
  lemma ServerActionBinds(pc: ServerPc, e: Expectation, choice: ServerChoice, log: seq<Durable>)
    requires !pc.ServerDone?
    ensures var a := ServerAction(pc, e, choice);
            && (a.next.SendRequest? && !pc.SendRequest? ==> Bound(log + a.stored, e))
            && (a.send.Some? && a.send.value.Request? ==> pc.SendRequest?)
            && (PastHello(a.next) ==> PastHello(pc))
  {
    if choice.Stores? {
      assert choice.returned in log + (choice.states + [choice.returned]);
    }
  }

  lemma ServerActsKeepsChecked(w: World, e: Expectation, launch: string, choice: ServerChoice)
    requires Shape(w) && Checked(w, e, launch) && !w.server.ServerDone?
    requires !ServerWaiting(w.server) || choice == Refuse
    ensures Checked(ServerActs(w, ServerAction(w.server, e, choice)), e, launch)
  {
    hide Bound, UpKind, DownKind, ServerAction;
    var a := ServerAction(w.server, e, choice);
    ServerActionBinds(w.server, e, choice, w.log);
    ThirdIsRequest(w, e, choice);
    if Bound(w.log, e) {
      BoundStays(w.log, a.stored, e);
    }
  }

  /** What a daemon adds as the third message is the request. */
  lemma ThirdIsRequest(w: World, e: Expectation, choice: ServerChoice)
    requires Shape(w) && !w.server.ServerDone? && (!ServerWaiting(w.server) || choice == Refuse)
    ensures var a := ServerAction(w.server, e, choice);
            w.linked && |w.down.sent| == 2 && a.send.Some? ==> a.send.value.Request?
  {
  }

  lemma BreakKeepsChecked(w: World, e: Expectation, launch: string, up: nat, down: nat)
    requires Shape(w) && Checked(w, e, launch)
    ensures Checked(Break(w, up, down), e, launch)
  {
    hide Bound, UpKind, DownKind;
  }

  lemma StepKeepsChecked(w: World, e: Expectation, launch: string, event: Event)
    requires Shape(w) && Checked(w, e, launch)
    ensures Checked(Step(w, e, launch, event), e, launch)
  {
    match event
    case HelperMoves(choice) =>
      if w.helper.HelperDone? {
      } else if HelperWaiting(w.helper) && choice != Fail {
        HelperReadsKeepsChecked(w, e, launch);
      } else {
        HelperActsKeepsChecked(w, e, launch, choice);
      }
    case ServerMoves(choice) =>
      if w.server.ServerDone? {
      } else if ServerWaiting(w.server) && choice != Refuse {
        ServerReadsKeepsChecked(w, e, launch);
      } else {
        ServerActsKeepsChecked(w, e, launch, choice);
      }
    case LinkBreaks(up, down) => BreakKeepsChecked(w, e, launch, up, down);
    hide Shape, Checked, HelperActs, HelperReads, ServerActs, ServerReads, Break, HelperAction, ServerAction;
  }

  lemma {:induction false} RunChecked(e: Expectation, launch: string, events: seq<Event>)
    ensures Checked(Run(e, launch, events), e, launch)
    decreases |events|
  {
    if events != [] {
      RunChecked(e, launch, events[..|events| - 1]);
      RunInvariant(e, launch, events[..|events| - 1]);
      hide Run, Shape, Backed, Proved, Checked, Step;
      StepKeepsChecked(Run(e, launch, events[..|events| - 1]), e, launch, events[|events| - 1]);
    }
  }

  /** In every run: the daemon goes past the hello only for its own launch; it sends a request only after its
      callback stored a valid authenticated state; and a child is started only by a helper whose launch the
      challenge names and whose request is for the challenge's identity. */
  lemma {:induction false} IdentitiesAreChecked(e: Expectation, launch: string, events: seq<Event>)
    ensures var w := Run(e, launch, events);
            && (PastHello(w.server) ==> |w.up.sent| > 0 && w.up.sent[0] == Hello(e.identity.opaqueLaunchId))
            && (|w.down.sent| > 2 ==> Bound(w.log, e))
            && (w.started.Some? ==> OwnRequest(w, launch))
  {
    RunChecked(e, launch, events);
    hide Run, Bound;
  }

  /** The daemon's check leaves nothing of a durable record open but the child and the permission. */
  lemma StateIsCheckedExactlyWhen(state: Durable, e: Expectation, lifecycle: Lifecycle)
    ensures ValidExecutionState(state, e, lifecycle) <==>
            state == Durable(true, lifecycle, Some(e.helper), Some(e.context), e.identity.contextExecId,
                             e.identity.sessionId, e.identity.authorityEpoch, e.identity.requestFingerprint,
                             state.authorized, state.childOperation, state.childSession)
  {
  }

  // --------------------------------------------- the answer to the preparation

  /** The helper reported that it could not prepare. */
  ghost predicate PrepareFailed(w: World) {
    4 <= w.up.read <= |w.up.sent| && w.up.sent[3].Prepared? && w.up.sent[3].failure != ""
  }

  ghost predicate PrepareSucceeded(w: World) {
    4 <= w.up.read <= |w.up.sent| && w.up.sent[3].Prepared? && w.up.sent[3].failure == ""
  }

  ghost predicate AnswerOk(w: World) {
    && (w.server.Authorize? ==> if w.server.failed then PrepareFailed(w) else PrepareSucceeded(w))
    && (w.server.SendDenial? ==> PrepareFailed(w))
    && (w.server.SendExecute? || w.server.WaitSpawn? || w.server.Record? || w.server.Receiving? ==> PrepareSucceeded(w))
    && (|w.down.sent| > 3 && w.down.sent[3].Execute? ==>
          if w.down.sent[3].authorized then PrepareSucceeded(w) else PrepareFailed(w))
  }

  lemma ServerActionAnswers(pc: ServerPc, e: Expectation, choice: ServerChoice)
    ensures var a := ServerAction(pc, e, choice);
            && (a.next.Authorize? ==> a.next == pc)
            && (a.next.SendDenial? ==> a.next == pc || (pc.Authorize? && pc.failed))
            && (a.next.SendExecute? ==> a.next == pc || (pc.Authorize? && !pc.failed))
            && (a.next.WaitSpawn? ==> a.next == pc || pc.SendExecute?)
            && (a.next.Record? ==> a.next == pc) && (a.next.Receiving? ==> a.next == pc || pc.Record?)
            && (a.send.Some? && a.send.value.Execute? ==>
                  if a.send.value.authorized then pc.SendExecute? else pc.SendDenial?)
  {
    hide ValidExecutionState, NamesChild;
  }

  lemma ServerActsKeepsAnswer(w: World, e: Expectation, choice: ServerChoice)
    requires Shape(w) && AnswerOk(w) && !w.server.ServerDone?
    ensures AnswerOk(ServerActs(w, ServerAction(w.server, e, choice)))
  {
    ServerActionAnswers(w.server, e, choice);
    hide ServerAction, UpKind, DownKind;
  }

  lemma ServerReadsKeepsAnswer(w: World, e: Expectation)
    requires Shape(w) && AnswerOk(w) && ServerWaiting(w.server)
    ensures AnswerOk(ServerReads(w, e))
  {
    hide Claim.VerifyClaimProof;
    if Unread(w.up) {
      assert UpKind(w.up.read, w.up.sent[w.up.read]);
    }
  }

  lemma OtherStepsKeepAnswer(w: World, e: Expectation, launch: string, event: Event)
    requires Shape(w) && AnswerOk(w) && !event.ServerMoves?
    ensures AnswerOk(Step(w, e, launch, event))
  {
    hide HelperAction, HelperOnMessage, UpKind, DownKind;
  }

  lemma {:induction false} RunAnswers(e: Expectation, launch: string, events: seq<Event>)
    ensures AnswerOk(Run(e, launch, events))
    decreases |events|
  {
    if events != [] {
      var w, event := Run(e, launch, events[..|events| - 1]), events[|events| - 1];
      RunAnswers(e, launch, events[..|events| - 1]);
      RunInvariant(e, launch, events[..|events| - 1]);
      hide Run, Shape, Backed, Proved, AnswerOk, ServerActs, ServerReads, ServerAction;
      if !event.ServerMoves? {
        hide Step;
        OtherStepsKeepAnswer(w, e, launch, event);
      } else if !w.server.ServerDone? && ServerWaiting(w.server) && event.s != Refuse {
        ServerReadsKeepsAnswer(w, e);
      } else if !w.server.ServerDone? {
        ServerActsKeepsAnswer(w, e, event.s);
      }
    }
  }

  /** In every run the daemon's fourth message answers the helper's: it authorizes only a preparation that
      succeeded, and denies only one that failed. */
  lemma {:induction false} ExecuteAnswersThePreparation(e: Expectation, launch: string, events: seq<Event>)
    ensures var w := Run(e, launch, events);
            |w.down.sent| > 3 ==>
              && w.down.sent[3].Execute? && |w.up.sent| > 3 && w.up.sent[3].Prepared?
              && (w.down.sent[3].authorized <==> w.up.sent[3].failure == "")
  {
    RunAnswers(e, launch, events);
    RunInvariant(e, launch, events);
    var w := Run(e, launch, events);
    hide Run, Backed, Proved;
    if |w.down.sent| > 3 {
      assert DownKind(3, w.down.sent[3]);
    }
  }

  /** What the daemon does with its authorizer's answer: it denies only a failed preparation that the authorizer
      does not authorize, it authorizes exactly a good one with a stored reservation of the child it names, and
      everything else ends the exchange without an answer. */
  lemma AuthorizerDecides(state: Durable, failed: bool, e: Expectation, choice: ServerChoice)
    requires choice.Stores?
    ensures var a := ServerAction(Authorize(state, failed), e, choice);
            && a.send.None? && a.stored == choice.states + [choice.returned]
            && (a.next == SendDenial <==> failed && !choice.authorized)
            && (a.next == SendExecute(choice.returned, choice.child) <==>
                  && !failed && choice.authorized && choice.returned.authorized
                  && ValidExecutionState(choice.returned, e, ChildReserved)
                  && choice.returned.childOperation == choice.child.operation
                  && choice.returned.childSession == choice.child.session)
            && (a.next == SendDenial || a.next.SendExecute? || a.next == ServerDone(None))
  {
    hide ValidExecutionState;
  }

  /** The helper could not prepare, and waits for the answer. */
  function Unprepared(e: Expectation, met: World, child: Child): World {
    World(WaitDenial, WaitPrepared(DurableFor(e, HelperAuthenticated, child)),
          Channel(met.up.sent + [Prepared("", "unavailable")], 3),
          Channel(met.down.sent + [Request(e.identity)], 3), true, [DurableFor(e, HelperAuthenticated, child)], None,
          false)
  }

  lemma {:induction false} ReachesUnprepared(e: Expectation, launch: string, met: World, challenge: string,
                                             capability: nat, proof: string, child: Child)
    requires met == Met(e, challenge, capability, proof) && Reached(e, launch, met)
    ensures Reached(e, launch, Unprepared(e, met, child))
  {
    hide Reached;
    ReachesAsked(e, launch, met, challenge, capability, proof, child);
    var w2 := Asked(e, met, child);
    var w3 := Step(w2, e, launch, HELPER);
    ReachesOn(e, launch, w2, HELPER);
    var w4 := Step(w3, e, launch, HelperMoves(PrepareFails));
    ReachesOn(e, launch, w3, HelperMoves(PrepareFails));
    assert w4 == Unprepared(e, met, child);
  }

  /** The daemon has recorded the failure and is about to deny. */
  function Denying(e: Expectation, met: World, child: Child, record: Durable): World {
    World(WaitDenial, SendDenial, Channel(met.up.sent + [Prepared("", "unavailable")], 4),
          Channel(met.down.sent + [Request(e.identity)], 3), true,
          [DurableFor(e, HelperAuthenticated, child), record], None, false)
  }

  lemma {:induction false} ReachesDenying(e: Expectation, launch: string, met: World, child: Child, record: Durable)
    requires |met.up.sent| == 3 && |met.down.sent| == 2
    requires Reached(e, launch, Unprepared(e, met, child))
    ensures Reached(e, launch, Denying(e, met, child, record))
  {
    hide Reached;
    var w0 := Unprepared(e, met, child);
    var w1 := Step(w0, e, launch, SERVER);
    ReachesOn(e, launch, w0, SERVER);
    assert w1.server == Authorize(DurableFor(e, HelperAuthenticated, child), true);
    var storing := ServerMoves(Stores([], record, false, child));
    var w2 := Step(w1, e, launch, storing);
    ReachesOn(e, launch, w1, storing);
    assert w2 == Denying(e, met, child, record);
  }

  lemma {:induction false} ReachesDenied(e: Expectation, launch: string, met: World, child: Child, record: Durable)
    returns (end: World)
    requires |met.up.sent| == 3 && |met.down.sent| == 2
    requires Reached(e, launch, Denying(e, met, child, record))
    ensures Reached(e, launch, end) && end.helper.HelperDone? && end.server == ServerDone(None)
    ensures end.started.None? && !end.confused && record in end.log && end.down.read == |end.down.sent| == 4
  {
    hide Reached;
    var w2 := Denying(e, met, child, record);
    assert w2.log[1] == record;
    var w3 := Step(w2, e, launch, SERVER);
    ReachesOn(e, launch, w2, SERVER);
    assert w3.down.sent[3] == Execute(false, Child("", ""));
    end := Step(w3, e, launch, HELPER);
    ReachesOn(e, launch, w3, HELPER);
  }

  /** A failed preparation can be reported, recorded and answered: some run ends with both sides done, no child
      started, the daemon's record of the failure stored, and the denial read by the helper. */
  lemma {:induction false} FailedPreparationIsAnswered(e: Expectation, challenge: string, capability: nat, child: Child,
                                                       record: Durable)
    requires Claim.ClaimProof(e.mac, capability, e.identity, challenge).Some?
    ensures exists events ::
              var w := Run(e, e.identity.opaqueLaunchId, events);
              && w.helper.HelperDone? && w.server == ServerDone(None) && w.started.None? && !w.confused
              && record in w.log && w.down.read == |w.down.sent| == 4
  {
    hide Claim.ClaimProof;
    var launch, proof := e.identity.opaqueLaunchId, Claim.ClaimProof(e.mac, capability, e.identity, challenge).value;
    ReachesMet(e, challenge, capability);
    var met := Met(e, challenge, capability, proof);
    ReachesUnprepared(e, launch, met, challenge, capability, proof, child);
    ReachesDenying(e, launch, met, child, record);
    var end := ReachesDenied(e, launch, met, child, record);
    var events :| Run(e, launch, events) == end;
  }

  lemma {:induction false} ReachesUnstarted(e: Expectation, launch: string, met: World, child: Child, resolved: string,
                                            record: Durable) returns (end: World)
    requires |met.up.sent| == 3 && |met.down.sent| == 2
    requires Reached(e, launch, Authorized(e, met, child, resolved))
    ensures Reached(e, launch, end) && end.helper.HelperDone? && end.server == ServerDone(None)
    ensures end.started.None? && !end.confused && record in end.log
    ensures end.up.read == |end.up.sent| == 5 && end.up.sent[4] == Spawn(child, false)
  {
    hide Reached;
    var w0 := Authorized(e, met, child, resolved);
    var w1 := Step(w0, e, launch, HelperMoves(StartFails));
    ReachesOn(e, launch, w0, HelperMoves(StartFails));
    assert w1.helper == ReportSpawn(child, false);
    var w2 := Step(w1, e, launch, HELPER);
    ReachesOn(e, launch, w1, HELPER);
    assert w2.up.sent[4] == Spawn(child, false) && w2.helper.HelperDone?;
    var w3 := Step(w2, e, launch, SERVER);
    ReachesOn(e, launch, w2, SERVER);
    var storing := ServerMoves(Stores([], record, true, child));
    end := Step(w3, e, launch, storing);
    ReachesOn(e, launch, w3, storing);
    assert end.log[2] == record;
  }

  /** A child that could not be started is reported and recorded: some run ends with both sides done, nothing
      started, the failed spawn read and its record stored. */
  lemma {:induction false} FailedSpawnIsRecorded(e: Expectation, challenge: string, capability: nat, child: Child,
                                                 resolved: string, record: Durable)
    requires Claim.ClaimProof(e.mac, capability, e.identity, challenge).Some? && resolved != ""
    ensures exists events ::
              var w := Run(e, e.identity.opaqueLaunchId, events);
              && w.helper.HelperDone? && w.server == ServerDone(None) && w.started.None? && !w.confused
              && record in w.log && w.up.read == |w.up.sent| == 5 && w.up.sent[4] == Spawn(child, false)
  {
    hide Claim.ClaimProof;
    var launch, proof := e.identity.opaqueLaunchId, Claim.ClaimProof(e.mac, capability, e.identity, challenge).value;
    ReachesMet(e, challenge, capability);
    var met := Met(e, challenge, capability, proof);
    ReachesReadied(e, launch, met, challenge, capability, proof, child, resolved);
    ReachesAuthorized(e, launch, met, child, resolved);
    var end := ReachesUnstarted(e, launch, met, child, resolved, record);
    var events :| Run(e, launch, events) == end;
  }

  /** A failed local step or a cancellation ends a side at once: it sends, starts and stores nothing more. */
  lemma FailingSideStops(w: World, e: Expectation, launch: string)
    ensures Step(w, e, launch, HelperMoves(Fail)) == w.(helper := HelperDone)
    ensures Step(w, e, launch, ServerMoves(Refuse)) ==
            if w.server.ServerDone? then w else w.(server := ServerDone(None))
  {
    assert w.log + [] == w.log;
  }
}
