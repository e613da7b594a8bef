/**
 The Git snapshot cache (internal/adapter/git/cache.go) and the calls that drive it
 (internal/adapter/git/snapshot.go): a time-limited cache with one flight per key, any number of
 concurrent callers, and a stale fallback.

 Times are nanoseconds on a clock that never goes back. Callers interleave at their critical sections.
 */
module SnapshotCache {
  import opened Prelude

  type Key = string

  datatype Quality = Fresh | Cached | Stale | Unavailable

  /** `read` is the repository read the contents came from, none for an unavailable snapshot. */
  datatype Snapshot = Snapshot(quality: Quality, observedAt: int, cacheAgeMs: int, diagnostic: string,
                               read: Option<nat>)

  // ---------------------------------------------------------- cache operations

  datatype Found = Found(snapshot: Snapshot, current: bool)

  /** cache.go `lookup`. */
  function LookupEntry(entries: map<Key, Snapshot>, key: Key, now: int, ttl: int): Option<Found> {
    if key !in entries then None
    else
      var entry := entries[key];
      var age := if now - entry.observedAt < 0 then 0 else now - entry.observedAt;
      var got := entry.(cacheAgeMs := age / 1_000_000);
      if age <= ttl then Some(Found(got.(quality := Cached, diagnostic := ""), true))
      else Some(Found(got.(quality := Stale), false))
  }

  /** The entries after a result of the key was published: only a fresh one is kept. */
  function Published(entries: map<Key, Snapshot>, key: Key, result: Snapshot): map<Key, Snapshot> {
    if result.quality == Fresh then entries[key := result] else entries
  }

  /** Joining the open flight of a key, or opening `candidate` for it: the flights, the flight and whether it is led. */
  function Joined<F>(flights: map<Key, F>, key: Key, candidate: F): (map<Key, F>, F, bool) {
    if key in flights then (flights, flights[key], false) else (flights[key := candidate], candidate, true)
  }

  /** The flights once the flight of the key is over. */
  function Landed<F>(flights: map<Key, F>, key: Key): map<Key, F> { flights - {key} }

  class Flight {
    var done: bool
    var result: Snapshot

    constructor ()
      ensures !done
    {
      done := false;
      result := Snapshot(Unavailable, 0, 0, "", None);
    }
  }

  class Store {
    var entries: map<Key, Snapshot>
    var flights: map<Key, Flight>

    constructor ()
      ensures entries == map[] && flights == map[]
    {
      entries, flights := map[], map[];
    }

    method Lookup(key: Key, now: int, ttl: int) returns (found: Option<Found>)
      ensures found == LookupEntry(entries, key, now, ttl)
    {
      if key !in entries {
        return None;
      }
      var got := entries[key];
      var age := now - got.observedAt;
      if age < 0 {
        age := 0;
      }
      got := got.(cacheAgeMs := age / 1_000_000);
      if age <= ttl {
        return Some(Found(got.(quality := Cached, diagnostic := ""), true));
      }
      return Some(Found(got.(quality := Stale), false));
    }

    /** cache.go `begin`: join the open flight of the key, or open a new one and lead it. */
    method Begin(key: Key) returns (flight: Flight, leader: bool)
      modifies this
      ensures entries == old(entries)
      ensures (flights, flight, leader) == Joined(old(flights), key, flight)
      ensures leader ==> fresh(flight) && !flight.done
    {
      if key in flights {
        return flights[key], false;
      }
      flight := new Flight();
      flights := flights[key := flight];
      return flight, true;
    }

    /** cache.go `complete`. Closing the channel twice would panic, so the flight is still open. */
    method Complete(key: Key, flight: Flight, result: Snapshot)
      requires !flight.done
      modifies this, flight
      ensures flight.done && flight.result == result
      ensures entries == Published(old(entries), key, result)
      ensures flights == Landed(old(flights), key)
    {
      if result.quality == Fresh {
        entries := entries[key := result];
      }
      flight.result := result;
      flights := flights - {key};
      flight.done := true;
    }
  }

  // ------------------------------------------------------------------- callers

  datatype Mode = Warm | FreshOnly | CacheOnly

  datatype Pc =
    | Started
    | LookedUp(cached: Option<Snapshot>)
    | Leading(cached: Option<Snapshot>, flight: nat)
    | Reading(cached: Option<Snapshot>, flight: nat, read: nat)
    | Publishing(result: Snapshot, flight: nat)
    | Following(flight: nat)
    | Returned(snapshot: Snapshot, via: Option<nat>)   // `via` is the flight that produced it

  datatype Caller = Caller(key: Key, mode: Mode, now: int, pc: Pc)

  datatype FlightState = FlightState(key: Key, leader: nat, result: Option<Snapshot>, completions: nat)

  datatype Read = Read(caller: nat, key: Key, began: int, succeeded: bool)

  datatype World = World(clock: int, entries: map<Key, Snapshot>, flights: map<Key, nat>,
                         table: seq<FlightState>, callers: seq<Caller>, history: seq<Read>)

  datatype Event =
    | Tick(elapsed: nat)
    | Call(key: Key, mode: Mode, valid: bool)
    | Looks(i: nat)
    | Begins(i: nat)
    | StartsRead(i: nat)
    | EndsRead(i: nat, diagnostic: string)
    | Completes(i: nat)
    | Wakes(i: nat)
    | GivesUp(i: nat)

  const INITIAL := World(0, map[], map[], [], [], [])

  function UnavailableSnapshot(now: int, code: string): Snapshot { Snapshot(Unavailable, now, 0, code, None) }

  function At(w: World, i: nat, pc: Pc): World
    requires i < |w.callers|
  {
    w.(callers := w.callers[i := w.callers[i].(pc := pc)])
  }

  function Look(w: World, ttl: int, i: nat): World
    requires i < |w.callers|
  {
    var c := w.callers[i];
    if !c.pc.Started? then w
    else
      match LookupEntry(w.entries, c.key, c.now, ttl)
      case None =>
        At(w, i, if c.mode == CacheOnly then Returned(UnavailableSnapshot(c.now, "workspace_cache_empty"), None)
                 else LookedUp(None))
      case Some(found) =>
        At(w, i, if c.mode == CacheOnly || (c.mode == Warm && found.current) then Returned(found.snapshot, None)
                 else LookedUp(Some(found.snapshot)))
  }

  function Begin(w: World, i: nat): World
    requires i < |w.callers|
  {
    var c := w.callers[i];
    if !c.pc.LookedUp? then w
    else
      var (flights, f, leader) := Joined(w.flights, c.key, |w.table|);
      if !leader then At(w, i, Following(f))
      else At(w, i, Leading(c.pc.cached, f)).(flights := flights, table := w.table + [FlightState(c.key, i, None, 0)])
  }

  function StartRead(w: World, i: nat): World
    requires i < |w.callers|
  {
    var c := w.callers[i];
    if !c.pc.Leading? then w
    else
      At(w, i, Reading(c.pc.cached, c.pc.flight, |w.history|))
      .(history := w.history + [Read(i, c.key, w.clock, false)])
  }

  /** What the leader publishes: the fresh snapshot, or the cached one marked stale, or nothing. */
  function Outcome(cached: Option<Snapshot>, now: int, read: nat, diagnostic: string): Snapshot {
    if diagnostic == "" then Snapshot(Fresh, now, 0, "", Some(read))
    else if cached.Some? then cached.value.(quality := Stale, diagnostic := diagnostic)
    else UnavailableSnapshot(now, diagnostic)
  }

  function EndRead(w: World, i: nat, diagnostic: string): World
    requires i < |w.callers|
  {
    var c := w.callers[i];
    if !c.pc.Reading? || c.pc.read >= |w.history| then w
    else
      At(w, i, Publishing(Outcome(c.pc.cached, c.now, c.pc.read, diagnostic), c.pc.flight))
      .(history := w.history[c.pc.read := w.history[c.pc.read].(succeeded := diagnostic == "")])
  }

  function Complete(w: World, i: nat): World
    requires i < |w.callers|
  {
    var c := w.callers[i];
    if !c.pc.Publishing? || c.pc.flight >= |w.table| then w
    else
      var f, result := c.pc.flight, c.pc.result;
      At(w, i, Returned(result, Some(f)))
      .(entries := Published(w.entries, c.key, result),
        flights := Landed(w.flights, c.key),
        table := w.table[f := w.table[f].(result := Some(result), completions := w.table[f].completions + 1)])
  }

  function Wake(w: World, i: nat): World
    requires i < |w.callers|
  {
    var c := w.callers[i];
    if c.pc.Following? && c.pc.flight < |w.table| && w.table[c.pc.flight].result.Some?
    then At(w, i, Returned(w.table[c.pc.flight].result.value, Some(c.pc.flight)))
    else w
  }

  const BUDGET := "observation_budget_exceeded"

  function GiveUp(w: World, i: nat): World
    requires i < |w.callers|
  {
    var c := w.callers[i];
    if c.pc.Following? then At(w, i, Returned(UnavailableSnapshot(c.now, BUDGET), None)) else w
  }

  function Step(w: World, ttl: int, e: Event): World {
    match e
    case Tick(elapsed) => w.(clock := w.clock + elapsed)
    case Call(key, mode, valid) =>
      var pc := if valid then Started else Returned(UnavailableSnapshot(w.clock, "workspace_invalid"), None);
      w.(callers := w.callers + [Caller(key, mode, w.clock, pc)])
    case Looks(i) => if i < |w.callers| then Look(w, ttl, i) else w
    case Begins(i) => if i < |w.callers| then Begin(w, i) else w
    case StartsRead(i) => if i < |w.callers| then StartRead(w, i) else w
    case EndsRead(i, diagnostic) => if i < |w.callers| then EndRead(w, i, diagnostic) else w
    case Completes(i) => if i < |w.callers| then Complete(w, i) else w
    case Wakes(i) => if i < |w.callers| then Wake(w, i) else w
    case GivesUp(i) => if i < |w.callers| then GiveUp(w, i) else w
  }

  function Run(ttl: int, events: seq<Event>): World {
    if events == [] then INITIAL else Step(Run(ttl, events[..|events| - 1]), ttl, events[|events| - 1])
  }

  // ---------------------------------------------------- invariant: the flights

  function Leads(pc: Pc): Option<nat> {
    match pc
    case Leading(_, f) => Some(f)
    case Reading(_, f, _) => Some(f)
    case Publishing(_, f) => Some(f)
    case _ => None
  }

  predicate Open(f: FlightState) { f.result.None? }

  ghost predicate FlightsOk(w: World) {
    && (forall k | k in w.flights ::
          w.flights[k] < |w.table| && w.table[w.flights[k]].key == k && Open(w.table[w.flights[k]]))
    && (forall f | 0 <= f < |w.table| && Open(w.table[f]) ::
          w.table[f].key in w.flights && w.flights[w.table[f].key] == f)
    && (forall f | 0 <= f < |w.table| :: w.table[f].completions == if Open(w.table[f]) then 0 else 1)
  }

  ghost predicate LeadersOk(w: World) {
    && (forall f | 0 <= f < |w.table| && Open(w.table[f]) ::
          w.table[f].leader < |w.callers| && Leads(w.callers[w.table[f].leader].pc) == Some(f))
    && (forall i | 0 <= i < |w.callers| && Leads(w.callers[i].pc).Some? ::
          var f := Leads(w.callers[i].pc).value;
          f < |w.table| && w.table[f].leader == i && w.table[f].key == w.callers[i].key && Open(w.table[f]))
    && (forall i | 0 <= i < |w.callers| && w.callers[i].pc.Following? ::
          w.callers[i].pc.flight < |w.table| && w.table[w.callers[i].pc.flight].key == w.callers[i].key)
  }

  // ------------------------------------------------ invariant: what is returned

  /** The snapshot's contents come from a successful read of this key that began no earlier than the
      time the snapshot claims. */
  ghost predicate Sourced(w: World, key: Key, s: Snapshot) {
    && s.read.Some? && s.read.value < |w.history|
    && w.history[s.read.value].key == key
    && w.history[s.read.value].succeeded
    && s.observedAt <= w.history[s.read.value].began
  }

  ghost predicate EntriesOk(w: World) {
    forall k | k in w.entries :: w.entries[k].quality == Fresh && Sourced(w, k, w.entries[k])
  }

  /** A result a flight may carry: never marked cached; sourced unless unavailable. */
  ghost predicate Publishable(w: World, key: Key, s: Snapshot) {
    && s.quality != Cached
    && (s.quality == Unavailable || Sourced(w, key, s))
  }

  ghost predicate ReturnedOk(w: World, ttl: int, c: Caller, s: Snapshot, via: Option<nat>) {
    && (s.quality == Unavailable || Sourced(w, c.key, s))
    && (s.quality == Cached ==> c.mode != FreshOnly && via == None && s.observedAt >= c.now - ttl)
    && (via.Some? ==> via.value < |w.table| && w.table[via.value].key == c.key && w.table[via.value].result == Some(s))
  }

  ghost predicate CachedOk(w: World, c: Caller, cached: Option<Snapshot>) {
    cached.Some? ==> Sourced(w, c.key, cached.value)
  }

  ghost predicate CallerOk(w: World, ttl: int, c: Caller) {
    && c.now <= w.clock
    && match c.pc
       case Started => true
       case LookedUp(cached) => CachedOk(w, c, cached) && c.mode != CacheOnly
       case Leading(cached, _) => CachedOk(w, c, cached)
       case Reading(cached, _, read) =>
         CachedOk(w, c, cached) && read < |w.history| && w.history[read].key == c.key && c.now <= w.history[read].began
       case Publishing(result, _) => Publishable(w, c.key, result)
       case Following(_) => true
       case Returned(s, via) => ReturnedOk(w, ttl, c, s, via)
  }

  /** A read in progress belongs to one caller and is not yet a source of anything. */
  ghost predicate ReadsOk(w: World) {
    forall i | 0 <= i < |w.callers| && w.callers[i].pc.Reading? ::
      && w.callers[i].pc.read < |w.history|
      && w.history[w.callers[i].pc.read].caller == i
      && !w.history[w.callers[i].pc.read].succeeded
  }

  ghost predicate ResultsOk(w: World, ttl: int) {
    && EntriesOk(w)
    && (forall f | 0 <= f < |w.table| && w.table[f].result.Some? ::
          Publishable(w, w.table[f].key, w.table[f].result.value))
    && (forall i | 0 <= i < |w.callers| :: CallerOk(w, ttl, w.callers[i]))
  }

  ghost predicate Inv(w: World, ttl: int) {
    FlightsOk(w) && LeadersOk(w) && ReadsOk(w) && ResultsOk(w, ttl)
  }

  // -------------------------------------------------------------- preservation

  /** Later worlds only add: reads stay what they were, success included, and published results stay. */
  ghost predicate Extends(w: World, w': World) {
    && w.clock <= w'.clock
    && |w.history| <= |w'.history|
    && (forall r | 0 <= r < |w.history| ::
          && w'.history[r].key == w.history[r].key && w'.history[r].began == w.history[r].began
          && (w.history[r].succeeded ==> w'.history[r].succeeded))
    && |w.table| <= |w'.table|
    && (forall f | 0 <= f < |w.table| ::
          w'.table[f].key == w.table[f].key && (w.table[f].result.Some? ==> w'.table[f].result == w.table[f].result))
  }

  /** The calls already made keep their key, mode and clock reading; at most `i` moved. */
  ghost predicate OnlyMoves(w: World, w': World, i: nat) {
    && |w'.callers| == |w.callers|
    && (forall j | 0 <= j < |w.callers| && j != i :: w'.callers[j] == w.callers[j])
  }

  lemma CallerStays(w: World, w': World, ttl: int, c: Caller)
    requires Extends(w, w') && CallerOk(w, ttl, c)
    ensures CallerOk(w', ttl, c)
  {
  }

  lemma PublishedStays(w: World, w': World, key: Key, s: Snapshot)
    requires Extends(w, w') && Publishable(w, key, s)
    ensures Publishable(w', key, s)
  {
  }

  /** When one caller moves and the rest of the world only grows, it is enough to look at that caller,
      the changed entries and the newly published result. */
  lemma MoveKeepsResults(w: World, w': World, ttl: int, i: nat)
    requires ResultsOk(w, ttl) && Extends(w, w') && i < |w.callers| && OnlyMoves(w, w', i)
    requires CallerOk(w', ttl, w'.callers[i])
    requires forall k | k in w'.entries :: (k in w.entries && w'.entries[k] == w.entries[k]) ||
               (w'.entries[k].quality == Fresh && Sourced(w', k, w'.entries[k]))
    requires forall f | 0 <= f < |w'.table| && w'.table[f].result.Some? ::
               (f < |w.table| && w.table[f].result.Some?) || Publishable(w', w'.table[f].key, w'.table[f].result.value)
    ensures ResultsOk(w', ttl)
  {
    hide CallerOk, Publishable;
    forall j | 0 <= j < |w'.callers|
      ensures CallerOk(w', ttl, w'.callers[j])
    {
      if j != i {
        CallerStays(w, w', ttl, w.callers[j]);
      }
    }
    forall f | 0 <= f < |w'.table| && w'.table[f].result.Some?
      ensures Publishable(w', w'.table[f].key, w'.table[f].result.value)
    {
      if f < |w.table| && w.table[f].result.Some? {
        PublishedStays(w, w', w.table[f].key, w.table[f].result.value);
      }
    }
  }

  /** A found entry is current exactly when it is marked cached, and then it is within the time limit. */
  lemma LookupIsSourced(w: World, ttl: int, key: Key, now: int)
    requires EntriesOk(w)
    ensures var found := LookupEntry(w.entries, key, now, ttl);
            found.Some? ==>
              && Sourced(w, key, found.value.snapshot)
              && (found.value.snapshot.quality == Cached <==> found.value.current)
              && found.value.snapshot.quality in {Cached, Stale}
              && (found.value.current ==> found.value.snapshot.observedAt >= now - ttl)
  {
  }

  ghost predicate Structure(w: World) { FlightsOk(w) && LeadersOk(w) && ReadsOk(w) }

  /** A caller that neither leads, follows nor reads after its step leaves the structure alone. */
  lemma QuietMove(w: World, i: nat, pc: Pc)
    requires Structure(w) && i < |w.callers|
    requires Leads(w.callers[i].pc).None? && Leads(pc).None? && !pc.Following?
    ensures Structure(At(w, i, pc))
  {
  }

  lemma LookKeeps(w: World, ttl: int, i: nat)
    requires Inv(w, ttl) && i < |w.callers|
    ensures Inv(Look(w, ttl, i), ttl)
  {
    hide FlightsOk, LeadersOk, ReadsOk;
    var c, w' := w.callers[i], Look(w, ttl, i);
    if c.pc.Started? {
      LookupIsSourced(w, ttl, c.key, c.now);
      hide LookupEntry;
      assert CallerOk(w, ttl, c);
      QuietMove(w, i, w'.callers[i].pc);
      MoveKeepsResults(w, w', ttl, i);
    }
  }

  lemma JoinKeepsLeaders(w: World, i: nat)
    requires FlightsOk(w) && LeadersOk(w)
    requires i < |w.callers| && w.callers[i].pc.LookedUp? && w.callers[i].key in w.flights
    ensures LeadersOk(Begin(w, i))
  {
  }

  lemma JoinKeepsRest(w: World, i: nat)
    requires FlightsOk(w) && ReadsOk(w)
    requires i < |w.callers| && w.callers[i].pc.LookedUp? && w.callers[i].key in w.flights
    ensures FlightsOk(Begin(w, i)) && ReadsOk(Begin(w, i)) && Extends(w, Begin(w, i))
  {
  }

  lemma JoinKeepsStructure(w: World, i: nat)
    requires Structure(w) && i < |w.callers| && w.callers[i].pc.LookedUp? && w.callers[i].key in w.flights
    ensures Structure(Begin(w, i)) && Extends(w, Begin(w, i))
  {
    JoinKeepsLeaders(w, i);
    JoinKeepsRest(w, i);
    hide FlightsOk, LeadersOk, ReadsOk, Begin, Extends;
  }

  lemma LeadKeepsFlights(w: World, i: nat)
    requires FlightsOk(w) && i < |w.callers| && w.callers[i].pc.LookedUp? && w.callers[i].key !in w.flights
    ensures FlightsOk(Begin(w, i)) && Extends(w, Begin(w, i))
  {
  }

  lemma LeadKeepsLeaders(w: World, i: nat)
    requires LeadersOk(w) && ReadsOk(w)
    requires i < |w.callers| && w.callers[i].pc.LookedUp? && w.callers[i].key !in w.flights
    ensures LeadersOk(Begin(w, i)) && ReadsOk(Begin(w, i))
  {
  }

  lemma BeginKeepsStructure(w: World, i: nat)
    requires Structure(w) && i < |w.callers|
    ensures Structure(Begin(w, i)) && Extends(w, Begin(w, i))
  {
    if w.callers[i].pc.LookedUp? {
      hide FlightsOk, LeadersOk, ReadsOk, Begin, Extends;
      if w.callers[i].key in w.flights {
        JoinKeepsStructure(w, i);
      } else {
        LeadKeepsFlights(w, i);
        LeadKeepsLeaders(w, i);
      }
    }
  }

  lemma BeginMoves(w: World, ttl: int, i: nat)
    requires i < |w.callers| && w.callers[i].pc.LookedUp? && CallerOk(w, ttl, w.callers[i])
    ensures var w' := Begin(w, i);
            && OnlyMoves(w, w', i) && CallerOk(w', ttl, w'.callers[i]) && w'.entries == w.entries
            && forall f | 0 <= f < |w'.table| && w'.table[f].result.Some? :: f < |w.table| && w.table[f].result.Some?
  {
  }

  lemma BeginKeeps(w: World, ttl: int, i: nat)
    requires Inv(w, ttl) && i < |w.callers|
    ensures Inv(Begin(w, i), ttl)
  {
    hide FlightsOk, LeadersOk, ReadsOk, Extends;
    BeginKeepsStructure(w, i);
    if w.callers[i].pc.LookedUp? {
      var w' := Begin(w, i);
      BeginMoves(w, ttl, i);
      hide CallerOk, Publishable, Sourced, Begin;
      assert w'.entries == w.entries;
      MoveKeepsResults(w, w', ttl, i);
    }
  }

  lemma StartReadKeepsStructure(w: World, i: nat)
    requires Structure(w) && i < |w.callers|
    ensures Structure(StartRead(w, i))
  {
    StartReadKeepsLeaders(w, i);
    hide LeadersOk;
  }

  lemma StartReadKeepsLeaders(w: World, i: nat)
    requires LeadersOk(w) && i < |w.callers|
    ensures LeadersOk(StartRead(w, i))
  {
    if w.callers[i].pc.Leading? {
      assert Leads(w.callers[i].pc) == Some(w.callers[i].pc.flight);
    }
  }

  lemma StartReadKeeps(w: World, ttl: int, i: nat)
    requires Inv(w, ttl) && i < |w.callers|
    ensures Inv(StartRead(w, i), ttl)
  {
    StartReadKeepsStructure(w, i);
    hide FlightsOk, LeadersOk, ReadsOk;
    if w.callers[i].pc.Leading? {
      assert CallerOk(w, ttl, w.callers[i]);
      StartReadMoves(w, ttl, i);
      hide CallerOk, Publishable, Sourced, StartRead, Extends;
      MoveKeepsResults(w, StartRead(w, i), ttl, i);
    }
  }

  lemma StartReadMoves(w: World, ttl: int, i: nat)
    requires i < |w.callers| && w.callers[i].pc.Leading? && CallerOk(w, ttl, w.callers[i])
    ensures var w' := StartRead(w, i);
            && Extends(w, w') && OnlyMoves(w, w', i) && CallerOk(w', ttl, w'.callers[i])
            && w'.entries == w.entries && w'.table == w.table
  {
  }

  lemma EndReadKeepsStructure(w: World, i: nat, diagnostic: string)
    requires Structure(w) && i < |w.callers|
    ensures Structure(EndRead(w, i, diagnostic))
    ensures Extends(w, EndRead(w, i, diagnostic))
  {
    EndReadKeepsLeaders(w, i, diagnostic);
    hide LeadersOk;
  }

  lemma EndReadKeepsLeaders(w: World, i: nat, diagnostic: string)
    requires LeadersOk(w) && i < |w.callers|
    ensures LeadersOk(EndRead(w, i, diagnostic))
  {
    hide Outcome;
    var c := w.callers[i];
    if c.pc.Reading? && c.pc.read < |w.history| {
      assert Leads(c.pc) == Some(c.pc.flight);
    }
  }

  lemma EndReadMoves(w: World, ttl: int, i: nat, diagnostic: string)
    requires i < |w.callers| && w.callers[i].pc.Reading? && CallerOk(w, ttl, w.callers[i])
    requires Extends(w, EndRead(w, i, diagnostic))
    ensures var w' := EndRead(w, i, diagnostic);
            OnlyMoves(w, w', i) && CallerOk(w', ttl, w'.callers[i]) && w'.entries == w.entries && w'.table == w.table
  {
    var c, w' := w.callers[i], EndRead(w, i, diagnostic);
    if diagnostic != "" && c.pc.cached.Some? {
      assert Sourced(w', c.key, c.pc.cached.value);
    }
  }

  lemma EndReadKeeps(w: World, ttl: int, i: nat, diagnostic: string)
    requires Inv(w, ttl) && i < |w.callers|
    ensures Inv(EndRead(w, i, diagnostic), ttl)
  {
    EndReadKeepsStructure(w, i, diagnostic);
    hide FlightsOk, LeadersOk, ReadsOk;
    var c, w' := w.callers[i], EndRead(w, i, diagnostic);
    if c.pc.Reading? && c.pc.read < |w.history| {
      assert CallerOk(w, ttl, c);
      EndReadMoves(w, ttl, i, diagnostic);
      hide CallerOk, Publishable, Sourced, EndRead;
      MoveKeepsResults(w, w', ttl, i);
    }
  }

  lemma CompleteKeepsFlights(w: World, i: nat)
    requires Structure(w) && i < |w.callers|
    ensures FlightsOk(Complete(w, i))
    ensures Extends(w, Complete(w, i))
  {
    if w.callers[i].pc.Publishing? {
      assert Leads(w.callers[i].pc) == Some(w.callers[i].pc.flight);
    }
  }

  lemma CompleteKeepsLeaders(w: World, i: nat)
    requires Structure(w) && i < |w.callers|
    ensures LeadersOk(Complete(w, i)) && ReadsOk(Complete(w, i))
  {
    hide FlightsOk;
    if w.callers[i].pc.Publishing? {
      assert Leads(w.callers[i].pc) == Some(w.callers[i].pc.flight);
    }
  }

  lemma CompleteMoves(w: World, ttl: int, i: nat)
    requires i < |w.callers| && w.callers[i].pc.Publishing? && w.callers[i].pc.flight < |w.table|
    requires w.table[w.callers[i].pc.flight].key == w.callers[i].key && CallerOk(w, ttl, w.callers[i])
    requires Publishable(Complete(w, i), w.callers[i].key, w.callers[i].pc.result)
    ensures var c, w' := w.callers[i], Complete(w, i);
            && OnlyMoves(w, w', i) && CallerOk(w', ttl, w'.callers[i])
            && (forall k | k in w'.entries :: (k in w.entries && w'.entries[k] == w.entries[k]) ||
                  (w'.entries[k].quality == Fresh && Sourced(w', k, w'.entries[k])))
            && (forall f | 0 <= f < |w'.table| && w'.table[f].result.Some? ::
                  (f < |w.table| && w.table[f].result.Some?) ||
                  Publishable(w', w'.table[f].key, w'.table[f].result.value))
  {
  }

  lemma CompleteKeeps(w: World, ttl: int, i: nat)
    requires Inv(w, ttl) && i < |w.callers|
    ensures Inv(Complete(w, i), ttl)
  {
    CompleteKeepsFlights(w, i);
    CompleteKeepsLeaders(w, i);
    var c, w' := w.callers[i], Complete(w, i);
    if c.pc.Publishing? {
      assert Leads(c.pc) == Some(c.pc.flight);
      hide FlightsOk, LeadersOk, ReadsOk, Extends;
      assert CallerOk(w, ttl, c);
      PublishedStays(w, w', c.key, c.pc.result);
      CompleteMoves(w, ttl, i);
      hide Complete, CallerOk, Sourced;
      MoveKeepsResults(w, w', ttl, i);
    }
  }

  lemma WakeKeeps(w: World, ttl: int, i: nat)
    requires Inv(w, ttl) && i < |w.callers|
    ensures Inv(Wake(w, i), ttl)
  {
    var c, w' := w.callers[i], Wake(w, i);
    if w' != w {
      assert w.table[c.pc.flight].key == c.key;
      hide FlightsOk, LeadersOk, ReadsOk;
      QuietMove(w, i, w'.callers[i].pc);
      assert CallerOk(w, ttl, c);
      assert Publishable(w, c.key, w.table[c.pc.flight].result.value);
      MoveKeepsResults(w, w', ttl, i);
    }
  }

  lemma GiveUpKeeps(w: World, ttl: int, i: nat)
    requires Inv(w, ttl) && i < |w.callers|
    ensures Inv(GiveUp(w, i), ttl)
  {
    hide FlightsOk, LeadersOk, ReadsOk;
    var c, w' := w.callers[i], GiveUp(w, i);
    if c.pc.Following? {
      QuietMove(w, i, w'.callers[i].pc);
      assert CallerOk(w, ttl, c);
      MoveKeepsResults(w, w', ttl, i);
    }
  }

  lemma ArriveKeeps(w: World, ttl: int, e: Event)
    requires Inv(w, ttl) && (e.Tick? || e.Call?)
    ensures Inv(Step(w, ttl, e), ttl)
  {
    var w' := Step(w, ttl, e);
    ArriveKeepsStructure(w, ttl, e);
    forall j | 0 <= j < |w.callers|
      ensures CallerOk(w', ttl, w.callers[j])
    {
      CallerStays(w, w', ttl, w.callers[j]);
    }
    hide FlightsOk, LeadersOk, ReadsOk, LookupEntry;
  }

  lemma ArriveKeepsStructure(w: World, ttl: int, e: Event)
    requires Structure(w) && (e.Tick? || e.Call?)
    ensures Structure(Step(w, ttl, e)) && Extends(w, Step(w, ttl, e))
  {
  }

  lemma StepKeeps(w: World, ttl: int, e: Event)
    requires Inv(w, ttl)
    ensures Inv(Step(w, ttl, e), ttl)
  {
    hide Inv, Look, Begin, StartRead, EndRead, Complete, Wake, GiveUp;
    match e
    case Tick(_) => ArriveKeeps(w, ttl, e);
    case Call(_, _, _) => ArriveKeeps(w, ttl, e);
    case Looks(i) => if i < |w.callers| { LookKeeps(w, ttl, i); }
    case Begins(i) => if i < |w.callers| { BeginKeeps(w, ttl, i); }
    case StartsRead(i) => if i < |w.callers| { StartReadKeeps(w, ttl, i); }
    case EndsRead(i, diagnostic) => if i < |w.callers| { EndReadKeeps(w, ttl, i, diagnostic); }
    case Completes(i) => if i < |w.callers| { CompleteKeeps(w, ttl, i); }
    case Wakes(i) => if i < |w.callers| { WakeKeeps(w, ttl, i); }
    case GivesUp(i) => if i < |w.callers| { GiveUpKeeps(w, ttl, i); }
  }

  lemma {:induction false} RunInv(ttl: int, events: seq<Event>)
    ensures Inv(Run(ttl, events), ttl)
    decreases |events|
  {
    if events != [] {
      hide Inv, Step;
      RunInv(ttl, events[..|events| - 1]);
      StepKeeps(Run(ttl, events[..|events| - 1]), ttl, events[|events| - 1]);
    }
  }

  // --------------------------------------------------- invariant: landed flights

  /** The leader of a flight that is over has returned what it published. */
  ghost predicate LandedOk(w: World) {
    forall f | 0 <= f < |w.table| && !Open(w.table[f]) ::
      && w.table[f].leader < |w.callers|
      && w.callers[w.table[f].leader].pc == Returned(w.table[f].result.value, Some(f))
  }

  /** A caller that has returned stays where it is. */
  lemma ReturnedStays(w: World, ttl: int, e: Event, i: nat)
    requires i < |w.callers| && w.callers[i].pc.Returned?
    ensures i < |Step(w, ttl, e).callers| && Step(w, ttl, e).callers[i] == w.callers[i]
  {
    hide LookupEntry, Outcome;
  }

  /** A step changes a flight of the table only by completing it. */
  lemma TableChanges(w: World, ttl: int, e: Event, f: nat)
    requires f < |w.table| && !(e.Completes? && e.i < |w.callers| && w.callers[e.i].pc.Publishing?)
    ensures f < |Step(w, ttl, e).table| && Step(w, ttl, e).table[f] == w.table[f]
  {
    hide LookupEntry, Outcome;
  }

  lemma CompleteKeepsLanded(w: World, i: nat)
    requires LeadersOk(w) && LandedOk(w) && i < |w.callers| && w.callers[i].pc.Publishing?
    ensures LandedOk(Complete(w, i))
  {
    assert Leads(w.callers[i].pc) == Some(w.callers[i].pc.flight);
  }

  lemma StepKeepsLanded(w: World, ttl: int, e: Event)
    requires LeadersOk(w) && LandedOk(w)
    ensures LandedOk(Step(w, ttl, e))
  {
    if e.Completes? && e.i < |w.callers| && w.callers[e.i].pc.Publishing? {
      CompleteKeepsLanded(w, e.i);
    } else {
      var w' := Step(w, ttl, e);
      hide Step, LeadersOk;
      forall f | 0 <= f < |w'.table| && !Open(w'.table[f])
        ensures w'.table[f].leader < |w'.callers|
        ensures w'.callers[w'.table[f].leader].pc == Returned(w'.table[f].result.value, Some(f))
      {
        if f < |w.table| {
          TableChanges(w, ttl, e, f);
          ReturnedStays(w, ttl, e, w.table[f].leader);
        } else {
          NewFlightsAreOpen(w, ttl, e);
        }
      }
    }
  }

  lemma NewFlightsAreOpen(w: World, ttl: int, e: Event)
    ensures forall g | |w.table| <= g < |Step(w, ttl, e).table| :: Open(Step(w, ttl, e).table[g])
  {
    hide LookupEntry, Outcome;
  }

  lemma {:induction false} RunLanded(ttl: int, events: seq<Event>)
    ensures LandedOk(Run(ttl, events))
    decreases |events|
  {
    if events != [] {
      hide Step, LandedOk;
      RunLanded(ttl, events[..|events| - 1]);
      RunInv(ttl, events[..|events| - 1]);
      StepKeepsLanded(Run(ttl, events[..|events| - 1]), ttl, events[|events| - 1]);
    } else {
      assert Run(ttl, events).table == [];
    }
  }

  // ------------------------------------------- what each caller found and met

  /** What happened to a caller: whether its workspace was valid, the entry of its key when it looked (none
      when there was no entry), the diagnostic its own read ended with, and whether its budget ran out. */
  datatype Note = Note(valid: bool, entry: Option<Option<Snapshot>>, outcome: Option<string>, gaveUp: bool)

  function Noted(w: World, notes: seq<Note>, e: Event): seq<Note>
    requires |notes| == |w.callers|
  {
    match e
    case Call(_, _, valid) => notes + [Note(valid, None, None, false)]
    case Looks(i) =>
      if i < |notes| && w.callers[i].pc.Started? then
        var key := w.callers[i].key;
        notes[i := notes[i].(entry := Some(if key in w.entries then Some(w.entries[key]) else None))]
      else notes
    case EndsRead(i, diagnostic) =>
      if i < |notes| && w.callers[i].pc.Reading? then notes[i := notes[i].(outcome := Some(diagnostic))] else notes
    case GivesUp(i) =>
      if i < |notes| && w.callers[i].pc.Following? then notes[i := notes[i].(gaveUp := true)] else notes
    case _ => notes
  }

  lemma NotedLength(w: World, ttl: int, notes: seq<Note>, e: Event)
    requires |notes| == |w.callers|
    ensures |Noted(w, notes, e)| == |Step(w, ttl, e).callers|
  {
    hide LookupEntry, Outcome;
  }

  function Notes(ttl: int, events: seq<Event>): (notes: seq<Note>)
    ensures |notes| == |Run(ttl, events).callers|
  {
    if events == [] then []
    else
      var before, e := events[..|events| - 1], events[|events| - 1];
      NotedLength(Run(ttl, before), ttl, Notes(ttl, before), e);
      Noted(Run(ttl, before), Notes(ttl, before), e)
  }

  /** An entry no older than the time limit; one from the future counts as just observed. */
  predicate Recent(ttl: int, now: int, entry: Snapshot) { 0 <= ttl && now <= entry.observedAt + ttl }

  /** The contents of the entry, with its age in whole milliseconds. */
  predicate Carries(s: Snapshot, entry: Snapshot, now: int) {
    && s.read == entry.read && s.observedAt == entry.observedAt
    && if now <= entry.observedAt then s.cacheAgeMs == 0
       else s.cacheAgeMs * 1_000_000 <= now - entry.observedAt < (s.cacheAgeMs + 1) * 1_000_000
  }

  /** The call may be answered from what it found. */
  predicate AnsweredByCache(ttl: int, mode: Mode, now: int, entry: Option<Snapshot>) {
    mode == CacheOnly || (mode == Warm && entry.Some? && Recent(ttl, now, entry.value))
  }

  predicate FromCache(ttl: int, now: int, entry: Option<Snapshot>, s: Snapshot) {
    match entry
    case None => s == UnavailableSnapshot(now, "workspace_cache_empty")
    case Some(e) =>
      && Carries(s, e, now)
      && if Recent(ttl, now, e) then s.quality == Cached && s.diagnostic == ""
         else s.quality == Stale && s.diagnostic == e.diagnostic
  }

  ghost predicate OwnRead(w: World, i: nat, read: nat) { read < |w.history| && w.history[read].caller == i }

  /** What a leader publishes: its own read when that succeeded; else the entry it had found, marked stale
      and with the reason; and nothing only when it had found none. */
  ghost predicate FromRead(w: World, i: nat, now: int, entry: Option<Snapshot>, diagnostic: string, s: Snapshot) {
    if diagnostic == "" then
      && s.quality == Fresh && s.observedAt == now && s.cacheAgeMs == 0 && s.diagnostic == ""
      && s.read.Some? && OwnRead(w, i, s.read.value)
    else if entry.Some? then s.quality == Stale && Carries(s, entry.value, now) && s.diagnostic == diagnostic
    else s == UnavailableSnapshot(now, diagnostic)
  }

  predicate Bypasses(ttl: int, c: Caller, n: Note) {
    n.valid && n.entry.Some? && !AnsweredByCache(ttl, c.mode, c.now, n.entry.value) && !n.gaveUp
  }

  predicate Remembers(ttl: int, c: Caller, n: Note, cached: Option<Snapshot>) {
    && Bypasses(ttl, c, n) && n.outcome.None?
    && (cached.Some? <==> n.entry.value.Some?)
    && (cached.Some? ==> Carries(cached.value, n.entry.value.value, c.now))
  }

  /** The answer of a call, decided by what it found and met. */
  ghost predicate Answers(w: World, ttl: int, i: nat, c: Caller, n: Note, s: Snapshot, via: Option<nat>) {
    if !n.valid then s == UnavailableSnapshot(c.now, "workspace_invalid") && via.None?
    else
      && n.entry.Some?
      && if AnsweredByCache(ttl, c.mode, c.now, n.entry.value) then FromCache(ttl, c.now, n.entry.value, s) && via.None?
         else if n.outcome.Some? then
           FromRead(w, i, c.now, n.entry.value, n.outcome.value, s) && via.Some? && LedBy(w, via.value, i)
         else if n.gaveUp then s == UnavailableSnapshot(c.now, BUDGET) && via.None?
         else via.Some? && via.value < |w.table| && w.table[via.value].leader != i
  }

  ghost predicate LedBy(w: World, f: nat, i: nat) { f < |w.table| && w.table[f].leader == i }

  ghost predicate NoteOk(w: World, ttl: int, i: nat, c: Caller, n: Note) {
    match c.pc
    case Started => n == Note(true, None, None, false)
    case LookedUp(cached) => Remembers(ttl, c, n, cached)
    case Leading(cached, f) => Remembers(ttl, c, n, cached)
    case Reading(cached, f, read) => Remembers(ttl, c, n, cached) && OwnRead(w, i, read)
    case Publishing(result, f) =>
      Bypasses(ttl, c, n) && n.outcome.Some? && FromRead(w, i, c.now, n.entry.value, n.outcome.value, result)
    case Following(f) => Bypasses(ttl, c, n) && n.outcome.None? && f < |w.table| && w.table[f].leader != i
    case Returned(s, via) => Answers(w, ttl, i, c, n, s, via)
  }

  ghost predicate NotesOk(w: World, ttl: int, notes: seq<Note>) {
    && |notes| == |w.callers|
    && forall i | 0 <= i < |notes| :: NoteOk(w, ttl, i, w.callers[i], notes[i])
  }

  /** Reads keep their caller and flights their leader. */
  ghost predicate Owned(w: World, w': World) {
    && |w.history| <= |w'.history| && (forall r | 0 <= r < |w.history| :: w'.history[r].caller == w.history[r].caller)
    && |w.table| <= |w'.table| && (forall f | 0 <= f < |w.table| :: w'.table[f].leader == w.table[f].leader)
  }

  lemma StepOwned(w: World, ttl: int, e: Event)
    ensures Owned(w, Step(w, ttl, e))
  {
    hide LookupEntry, Outcome;
  }

  lemma NoteStays(w: World, w': World, ttl: int, i: nat, c: Caller, n: Note)
    requires Owned(w, w') && NoteOk(w, ttl, i, c, n)
    ensures NoteOk(w', ttl, i, c, n)
  {
    hide Carries, Recent, AnsweredByCache, FromCache;
  }

  /** Whom a step moves. */
  function Mover(e: Event): Option<nat> {
    match e
    case Tick(_) => None
    case Call(_, _, _) => None
    case Looks(i) => Some(i)
    case Begins(i) => Some(i)
    case StartsRead(i) => Some(i)
    case EndsRead(i, _) => Some(i)
    case Completes(i) => Some(i)
    case Wakes(i) => Some(i)
    case GivesUp(i) => Some(i)
  }

  lemma OthersStay(w: World, ttl: int, notes: seq<Note>, e: Event, j: nat)
    requires |notes| == |w.callers| && j < |notes| && Mover(e) != Some(j)
    ensures j < |Step(w, ttl, e).callers| && Step(w, ttl, e).callers[j] == w.callers[j]
    ensures j < |Noted(w, notes, e)| && Noted(w, notes, e)[j] == notes[j]
  {
    hide LookupEntry, Outcome;
  }

  lemma LookNotes(w: World, ttl: int, i: nat, n: Note)
    requires i < |w.callers| && w.callers[i].pc.Started? && n == Note(true, None, None, false)
    ensures var c := w.callers[i];
            var entry := if c.key in w.entries then Some(w.entries[c.key]) else None;
            NoteOk(Look(w, ttl, i), ttl, i, Look(w, ttl, i).callers[i], n.(entry := Some(entry)))
  {
  }

  lemma BeginNotes(w: World, ttl: int, i: nat, n: Note)
    requires Inv(w, ttl) && i < |w.callers| && NoteOk(w, ttl, i, w.callers[i], n)
    ensures NoteOk(Begin(w, i), ttl, i, Begin(w, i).callers[i], n)
  {
    hide ResultsOk, ReadsOk, Carries, Recent, AnsweredByCache, FromCache;
    var c := w.callers[i];
    if c.pc.LookedUp? && c.key in w.flights {
      assert Open(w.table[w.flights[c.key]]);
    }
  }

  lemma EndReadNotes(w: World, ttl: int, i: nat, n: Note, diagnostic: string)
    requires i < |w.callers| && w.callers[i].pc.Reading? && NoteOk(w, ttl, i, w.callers[i], n)
    ensures var w' := EndRead(w, i, diagnostic);
            NoteOk(w', ttl, i, w'.callers[i], n.(outcome := Some(diagnostic)))
  {
    hide Recent, AnsweredByCache, FromCache;
  }

  lemma CompleteNotes(w: World, ttl: int, i: nat, n: Note)
    requires LeadersOk(w) && i < |w.callers| && NoteOk(w, ttl, i, w.callers[i], n)
    ensures NoteOk(Complete(w, i), ttl, i, Complete(w, i).callers[i], n)
  {
    hide Carries, Recent, AnsweredByCache, FromCache;
    if w.callers[i].pc.Publishing? {
      assert Leads(w.callers[i].pc) == Some(w.callers[i].pc.flight);
    }
  }

  lemma StartReadNotes(w: World, ttl: int, i: nat, n: Note)
    requires i < |w.callers| && NoteOk(w, ttl, i, w.callers[i], n)
    ensures NoteOk(StartRead(w, i), ttl, i, StartRead(w, i).callers[i], n)
  {
    hide Carries, Recent, AnsweredByCache, FromCache;
  }

  lemma WakeNotes(w: World, ttl: int, i: nat, n: Note)
    requires i < |w.callers| && NoteOk(w, ttl, i, w.callers[i], n)
    ensures NoteOk(Wake(w, i), ttl, i, Wake(w, i).callers[i], n)
  {
    hide Carries, Recent, AnsweredByCache, FromCache;
  }

  lemma GiveUpNotes(w: World, ttl: int, i: nat, n: Note)
    requires i < |w.callers| && w.callers[i].pc.Following? && NoteOk(w, ttl, i, w.callers[i], n)
    ensures NoteOk(GiveUp(w, i), ttl, i, GiveUp(w, i).callers[i], n.(gaveUp := true))
  {
    hide Carries, Recent, AnsweredByCache, FromCache;
  }

  /** The caller that a step moves, with its note brought up to date. */
  lemma MoverNotes(w: World, ttl: int, notes: seq<Note>, e: Event, i: nat)
    requires Inv(w, ttl) && NotesOk(w, ttl, notes) && Mover(e) == Some(i) && i < |notes|
    ensures var w' := Step(w, ttl, e);
            i < |w'.callers| && i < |Noted(w, notes, e)| && NoteOk(w', ttl, i, w'.callers[i], Noted(w, notes, e)[i])
  {
    assert NoteOk(w, ttl, i, w.callers[i], notes[i]);
    assert Inv(w, ttl) ==> LeadersOk(w);
    match e
    case Looks(_) =>
      if w.callers[i].pc.Started? {
        LookNotes(w, ttl, i, notes[i]);
      }
    case Begins(_) => BeginNotes(w, ttl, i, notes[i]);
    case StartsRead(_) => StartReadNotes(w, ttl, i, notes[i]);
    case EndsRead(_, diagnostic) =>
      if w.callers[i].pc.Reading? {
        EndReadNotes(w, ttl, i, notes[i], diagnostic);
      }
    case Completes(_) => CompleteNotes(w, ttl, i, notes[i]);
    case Wakes(_) => WakeNotes(w, ttl, i, notes[i]);
    case GivesUp(_) =>
      if w.callers[i].pc.Following? {
        GiveUpNotes(w, ttl, i, notes[i]);
      }
  }

  lemma StepKeepsNotes(w: World, ttl: int, notes: seq<Note>, e: Event)
    requires Inv(w, ttl) && NotesOk(w, ttl, notes)
    ensures NotesOk(Step(w, ttl, e), ttl, Noted(w, notes, e))
  {
    NotedLength(w, ttl, notes, e);
    StepOwned(w, ttl, e);
    var w', notes' := Step(w, ttl, e), Noted(w, notes, e);
    forall j | 0 <= j < |notes'|
      ensures NoteOk(w', ttl, j, w'.callers[j], notes'[j])
    {
      if j >= |notes| {
        NewcomerNote(w, ttl, notes, e);
      } else {
        hide Step, Noted, NoteOk;
        if Mover(e) == Some(j) {
          MoverNotes(w, ttl, notes, e, j);
        } else {
          OthersStay(w, ttl, notes, e, j);
          NoteStays(w, w', ttl, j, w.callers[j], notes[j]);
        }
      }
    }
  }

  lemma NewcomerNote(w: World, ttl: int, notes: seq<Note>, e: Event)
    requires |notes| == |w.callers|
    ensures var w', notes' := Step(w, ttl, e), Noted(w, notes, e);
            |notes'| > |notes| ==> |notes'| == |notes| + 1 && |w'.callers| == |notes'| &&
                                    NoteOk(w', ttl, |notes|, w'.callers[|notes|], notes'[|notes|])
  {
  }

  lemma {:induction false} RunNotes(ttl: int, events: seq<Event>)
    ensures NotesOk(Run(ttl, events), ttl, Notes(ttl, events))
    decreases |events|
  {
    if events != [] {
      var before := events[..|events| - 1];
      RunNotes(ttl, before);
      RunInv(ttl, before);
      hide Inv, NotesOk, Step, Noted;
      StepKeepsNotes(Run(ttl, before), ttl, Notes(ttl, before), events[|events| - 1]);
    }
  }

  // ------------------------------------------------------------------ theorems

  /** The next step of a caller that leads a flight. */
  function LeaderStep(pc: Pc, i: nat): Event {
    match pc
    case Leading(_, _) => StartsRead(i)
    case Reading(_, _, _) => EndsRead(i, "")
    case _ => Completes(i)
  }

  /** Every flight is completed exactly once: one that is open has a leader that has not returned and whose
      next step is never blocked; one that is over was completed once, and its leader returned what was
      published. So a leader that has returned has completed its flight. */
  lemma {:induction false} EveryFlightLandsOnce(ttl: int, events: seq<Event>, f: nat)
    ensures var w := Run(ttl, events);
            f < |w.table| ==>
              var flight := w.table[f];
              && flight.leader < |w.callers|
              && var pc := w.callers[flight.leader].pc;
                 if Open(flight) then
                   && flight.completions == 0 && Leads(pc) == Some(f)
                   && Step(w, ttl, LeaderStep(pc, flight.leader)) != w
                 else flight.completions == 1 && pc == Returned(flight.result.value, Some(f))
  {
    RunInv(ttl, events);
    RunLanded(ttl, events);
    var w := Run(ttl, events);
    hide Run;
    if f < |w.table| && Open(w.table[f]) {
      LeaderGoesOn(w, ttl, w.table[f].leader);
    }
  }

  lemma LeaderGoesOn(w: World, ttl: int, i: nat)
    requires Inv(w, ttl) && i < |w.callers| && Leads(w.callers[i].pc).Some?
    ensures Step(w, ttl, LeaderStep(w.callers[i].pc, i)) != w
  {
    hide FlightsOk, ResultsOk, Outcome;
    var w' := Step(w, ttl, LeaderStep(w.callers[i].pc, i));
    assert w'.callers[i].pc != w.callers[i].pc;
  }

  /** At most one open flight per key; no flight is completed twice. */
  lemma {:induction false} OneFlightPerKey(ttl: int, events: seq<Event>, f: nat, g: nat)
    ensures var w := Run(ttl, events);
            && (f < |w.table| ==> w.table[f].completions <= 1)
            && (f < |w.table| && g < |w.table| && Open(w.table[f]) && Open(w.table[g]) ==>
                  w.table[f].key == w.table[g].key ==> f == g)
  {
    RunInv(ttl, events);
  }

  /** Completing removes the completing flight's own entry among the open flights, publishes its result, and
      stores it exactly when it is fresh. */
  lemma {:induction false} CompletingRemovesOwnFlight(ttl: int, events: seq<Event>, i: nat)
    ensures var w, w' := Run(ttl, events), Step(Run(ttl, events), ttl, Completes(i));
            i < |w.callers| && w.callers[i].pc.Publishing? ==>
              var key, f := w.callers[i].key, w.callers[i].pc.flight;
              && key in w.flights && w.flights[key] == f && f < |w'.table|
              && w'.flights == w.flights - {key}
              && w'.table[f].result == Some(w.callers[i].pc.result)
              && w'.entries ==
                 if w.callers[i].pc.result.quality == Fresh then w.entries[key := w.callers[i].pc.result] else w.entries
  {
    RunInv(ttl, events);
    var w := Run(ttl, events);
    hide Run, ReadsOk, ResultsOk;
    if i < |w.callers| && w.callers[i].pc.Publishing? {
      assert Leads(w.callers[i].pc) == Some(w.callers[i].pc.flight);
    }
  }

  /** Entries hold only fresh results. */
  lemma {:induction false} EntriesAreFresh(ttl: int, events: seq<Event>, key: Key)
    ensures var w := Run(ttl, events);
            key in w.entries ==> w.entries[key].quality == Fresh && Sourced(w, key, w.entries[key])
  {
    RunInv(ttl, events);
  }

  /** A cached answer comes from a successful read of that key that began no earlier than the caller's
      clock minus the time limit; a forced-fresh call never gives one. */
  lemma {:induction false} CachedAnswersAreRecent(ttl: int, events: seq<Event>, i: nat)
    ensures var w := Run(ttl, events);
            i < |w.callers| && w.callers[i].pc.Returned? && w.callers[i].pc.snapshot.quality == Cached ==>
              var c := w.callers[i];
              && c.mode != FreshOnly
              && c.pc.snapshot.read.Some? && c.pc.snapshot.read.value < |w.history|
              && var r := w.history[c.pc.snapshot.read.value];
                 r.succeeded && r.key == c.key && r.began >= c.now - ttl
  {
    RunInv(ttl, events);
    var w := Run(ttl, events);
    if i < |w.callers| {
      assert CallerOk(w, ttl, w.callers[i]);
    }
  }

  /** A caller that followed a flight returns exactly what its leader published, or the budget
      diagnostic; and it can return that as soon as it is published. */
  lemma {:induction false} FollowersShareTheResult(ttl: int, events: seq<Event>, i: nat, e: Event)
    ensures var w, w' := Run(ttl, events), Step(Run(ttl, events), ttl, e);
            i < |w.callers| && w.callers[i].pc.Following? && i < |w'.callers| && w'.callers[i].pc != w.callers[i].pc ==>
              var c, f := w'.callers[i], w.callers[i].pc.flight;
              && c.pc.Returned?
              && (|| (f < |w'.table| && w'.table[f].key == c.key && w'.table[f].result == Some(c.pc.snapshot))
                  || c.pc.snapshot == UnavailableSnapshot(c.now, BUDGET))
    ensures var w := Run(ttl, events);
            i < |w.callers| && w.callers[i].pc.Following? && w.callers[i].pc.flight < |w.table| &&
            w.table[w.callers[i].pc.flight].result.Some? ==>
              var f := w.callers[i].pc.flight;
              Step(w, ttl, Wakes(i)).callers[i].pc == Returned(w.table[f].result.value, Some(f))
  {
    var w, w' := Run(ttl, events), Step(Run(ttl, events), ttl, e);
    RunInv(ttl, events);
    hide Run, FlightsOk, ReadsOk, ResultsOk;
    if i < |w.callers| && w.callers[i].pc.Following? {
      assert w.callers[i].pc.flight < |w.table| && w.table[w.callers[i].pc.flight].key == w.callers[i].key;
      if e != Wakes(i) && e != GivesUp(i) {
        hide Step;
        OnlyTheCallerMoves(w, ttl, i, e);
      }
    }
  }

  /** A follower is moved by waking up and by giving up, and by nothing else. */
  lemma OnlyTheCallerMoves(w: World, ttl: int, i: nat, e: Event)
    requires i < |w.callers| && w.callers[i].pc.Following?
    requires e != Wakes(i) && e != GivesUp(i)
    ensures i < |Step(w, ttl, e).callers| && Step(w, ttl, e).callers[i] == w.callers[i]
  {
    hide LookupEntry, Outcome;
  }

  /** Every answer that is not marked unavailable carries the contents of a successful read of its key. */
  lemma {:induction false} AnswersAreSourced(ttl: int, events: seq<Event>, i: nat)
    ensures var w := Run(ttl, events);
            i < |w.callers| && w.callers[i].pc.Returned? && w.callers[i].pc.snapshot.quality != Unavailable ==>
              Sourced(w, w.callers[i].key, w.callers[i].pc.snapshot)
  {
    RunInv(ttl, events);
    var w := Run(ttl, events);
    if i < |w.callers| {
      assert CallerOk(w, ttl, w.callers[i]);
    }
  }

  /** Every answer is decided by what its call found and met. From the cache: the entry's contents, marked
      cached within the time limit and stale beyond it. From its own read: that read when it succeeded, the
      entry marked stale with the reason when it failed over one, and unavailable only when there was none.
      From another's flight: what the flight's leader published. Else the budget ran out. */
  lemma {:induction false} AnswersMatchWhatWasFound(ttl: int, events: seq<Event>, i: nat)
    ensures var w := Run(ttl, events);
            i < |w.callers| && w.callers[i].pc.Returned? ==>
              var c, s, via := w.callers[i], w.callers[i].pc.snapshot, w.callers[i].pc.via;
              && Answers(w, ttl, i, c, Notes(ttl, events)[i], s, via)
              && (via.Some? ==> via.value < |w.table| && w.table[via.value].result == Some(s))
  {
    RunNotes(ttl, events);
    RunInv(ttl, events);
    var w := Run(ttl, events);
    hide Run, Notes;
    if i < |w.callers| && w.callers[i].pc.Returned? {
      assert NoteOk(w, ttl, i, w.callers[i], Notes(ttl, events)[i]);
      hide NoteOk, Answers;
      assert CallerOk(w, ttl, w.callers[i]);
    }
  }

  /** The result of a flight that is over is what its leader's own read and its own lookup decide. */
  lemma {:induction false} FlightsCarryTheLeadersRead(ttl: int, events: seq<Event>, f: nat)
    ensures var w := Run(ttl, events);
            f < |w.table| && !Open(w.table[f]) ==>
              var i := w.table[f].leader;
              && i < |w.callers|
              && var n := Notes(ttl, events)[i];
                 && n.entry.Some? && n.outcome.Some?
                 && FromRead(w, i, w.callers[i].now, n.entry.value, n.outcome.value, w.table[f].result.value)
  {
    RunLanded(ttl, events);
    RunNotes(ttl, events);
    var w := Run(ttl, events);
    hide Run, Notes, FromRead;
    if f < |w.table| && !Open(w.table[f]) {
      var i := w.table[f].leader;
      assert NoteOk(w, ttl, i, w.callers[i], Notes(ttl, events)[i]);
    }
  }

  /** The next step of a caller, and how many it has still to make. */
  function OwnStep(pc: Pc, i: nat): Event {
    match pc
    case Started => Looks(i)
    case LookedUp(_) => Begins(i)
    case Following(_) => GivesUp(i)
    case _ => LeaderStep(pc, i)
  }

  function Left(pc: Pc): nat {
    match pc
    case Started => 5
    case LookedUp(_) => 4
    case Leading(_, _) => 3
    case Reading(_, _, _) => 2
    case Publishing(_, _) => 1
    case Following(_) => 1
    case Returned(_, _) => 0
  }

  /** No call is ever stuck: in every reachable state each of a caller's own steps brings it nearer to its
      answer, at most five of them are needed, and nobody else's step moves it. */
  lemma {:induction false} EveryCallReturns(ttl: int, events: seq<Event>, i: nat, e: Event)
    ensures var w := Run(ttl, events);
            i < |w.callers| && !w.callers[i].pc.Returned? ==>
              var mine, other := Step(w, ttl, OwnStep(w.callers[i].pc, i)), Step(w, ttl, e);
              && i < |mine.callers| && Left(mine.callers[i].pc) < Left(w.callers[i].pc) <= 5
              && (Mover(e) != Some(i) ==> i < |other.callers| && other.callers[i] == w.callers[i])
  {
    RunInv(ttl, events);
    var w := Run(ttl, events);
    hide Run;
    if i < |w.callers| && !w.callers[i].pc.Returned? {
      OwnStepAdvances(w, ttl, i);
      if Mover(e) != Some(i) {
        OthersStay(w, ttl, Notes(ttl, events), e, i);
      }
    }
  }

  lemma OwnStepAdvances(w: World, ttl: int, i: nat)
    requires Inv(w, ttl) && i < |w.callers| && !w.callers[i].pc.Returned?
    ensures var w' := Step(w, ttl, OwnStep(w.callers[i].pc, i));
            i < |w'.callers| && Left(w'.callers[i].pc) < Left(w.callers[i].pc)
  {
    hide FlightsOk, ResultsOk, LookupEntry, Outcome;
    assert Leads(w.callers[i].pc).Some? ==> Leads(w.callers[i].pc).value < |w.table|;
  }

  // ------------------------------------------------------------------ witnesses

  ghost predicate Reached(ttl: int, w: World) { exists events :: Run(ttl, events) == w }

  lemma ReachesOn(ttl: int, w: World, e: Event)
    requires Reached(ttl, w)
    ensures Reached(ttl, Step(w, ttl, e))
  {
    var events :| Run(ttl, events) == w;
    assert (events + [e])[..|events|] == events;
    assert Run(ttl, events + [e]) == Step(w, ttl, e);
  }

  /** One call has read and stored a snapshot. */
  function Filled(key: Key, mode: Mode): World {
    var stored := Snapshot(Fresh, 0, 0, "", Some(0));
    World(0, map[key := stored], map[], [FlightState(key, 0, Some(stored), 1)],
          [Caller(key, mode, 0, Returned(stored, Some(0)))], [Read(0, key, 0, true)])
  }

  lemma ReachesFilled(ttl: int, key: Key, mode: Mode)
    requires mode != CacheOnly
    ensures Reached(ttl, Filled(key, mode))
  {
    hide Reached;
    assert Reached(ttl, INITIAL) by { ReachesStart(ttl); }
    var a := Step(INITIAL, ttl, Call(key, mode, true));
    ReachesOn(ttl, INITIAL, Call(key, mode, true));
    var b := Step(a, ttl, Looks(0));
    ReachesOn(ttl, a, Looks(0));
    var c := Step(b, ttl, Begins(0));
    ReachesOn(ttl, b, Begins(0));
    assert c.callers[0].pc == Leading(None, 0) && c.flights == map[key := 0];
    var d := Step(c, ttl, StartsRead(0));
    ReachesOn(ttl, c, StartsRead(0));
    assert d.history == [Read(0, key, 0, false)];
    var f := Step(d, ttl, EndsRead(0, ""));
    ReachesOn(ttl, d, EndsRead(0, ""));
    var g := Step(f, ttl, Completes(0));
    ReachesOn(ttl, f, Completes(0));
    assert g.flights == map[];
    assert g == Filled(key, mode);
  }

  lemma ReachesStart(ttl: int)
    ensures Reached(ttl, INITIAL)
  {
    assert Run(ttl, []) == INITIAL;
  }

  /** A later call has seen the entry expire, and reads. */
  lemma ReachesExpired(ttl: nat, key: Key) returns (w: World)
    ensures Reached(ttl, w) && |w.callers| == 2 && w.callers[1].key == key && |w.history| == 2 && |w.table| == 2
    ensures w.callers[1].pc.Reading? && w.callers[1].pc.flight == 1 && w.callers[1].pc.read == 1
    ensures w.callers[1].pc.cached.Some? && w.callers[1].pc.cached.value.read == Some(0)
  {
    hide Reached;
    ReachesFilled(ttl, key, Warm);
    var start := Filled(key, Warm);
    var a := Step(start, ttl, Tick(ttl + 1));
    ReachesOn(ttl, start, Tick(ttl + 1));
    var b := Step(a, ttl, Call(key, Warm, true));
    ReachesOn(ttl, a, Call(key, Warm, true));
    var c := Step(b, ttl, Looks(1));
    ReachesOn(ttl, b, Looks(1));
    assert c.callers[1].pc.LookedUp?;
    var d := Step(c, ttl, Begins(1));
    ReachesOn(ttl, c, Begins(1));
    assert d.callers[1].pc.Leading?;
    w := Step(d, ttl, StartsRead(1));
    ReachesOn(ttl, d, StartsRead(1));
  }

  /** A call whose read fails over an expired entry answers with that entry, marked stale and with the reason. */
  lemma StaleAnswerHappens(ttl: nat, key: Key, diagnostic: string)
    requires diagnostic != ""
    ensures exists events ::
              var w := Run(ttl, events);
              && |w.callers| == 2 && w.callers[1].pc.Returned?
              && var s := w.callers[1].pc.snapshot;
                 s.quality == Stale && s.read == Some(0) && s.diagnostic == diagnostic
  {
    hide Reached;
    var a := ReachesExpired(ttl, key);
    var b := Step(a, ttl, EndsRead(1, diagnostic));
    ReachesOn(ttl, a, EndsRead(1, diagnostic));
    var w := Step(b, ttl, Completes(1));
    ReachesOn(ttl, b, Completes(1));
    assert w.callers[1].pc.Returned?;
    assert exists events :: Run(ttl, events) == w by { ReachedBySome(ttl, w); }
  }

  lemma ReachedBySome(ttl: int, w: World)
    requires Reached(ttl, w)
    ensures exists events :: Run(ttl, events) == w
  {
  }

  /** A call within the limit answers from the cache, without a read. */
  lemma CachedAnswerHappens(ttl: nat, key: Key)
    ensures exists events ::
              var w := Run(ttl, events);
              && |w.callers| == 2 && |w.history| == 1 && w.callers[1].pc.Returned?
              && w.callers[1].pc.snapshot.quality == Cached && w.callers[1].pc.snapshot.read == Some(0)
  {
    hide Reached;
    ReachesFilled(ttl, key, Warm);
    var start := Filled(key, Warm);
    var a := Step(start, ttl, Tick(ttl));
    ReachesOn(ttl, start, Tick(ttl));
    var b := Step(a, ttl, Call(key, Warm, true));
    ReachesOn(ttl, a, Call(key, Warm, true));
    var w := Step(b, ttl, Looks(1));
    ReachesOn(ttl, b, Looks(1));
    assert w.callers[1].pc.Returned?;
    assert exists events :: Run(ttl, events) == w by { ReachedBySome(ttl, w); }
  }
}
