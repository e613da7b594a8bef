/**
 The qualification gate derived from bound probe reports and its verification
 (tools/interactive-handoff-h0/report.go and platform_gate.go).

 `sort.Slice` is any function that returns its input in order: nothing here depends on how it breaks ties.
 */
module QualificationGate {
  import opened Prelude
  import opened Sequences
  import opened ProbeReport

  const GATE_SCHEMA := 2
  const GATE_KIND := "provider_qualification"
  const SPEC_COMMIT := "c3fc3d57dfbb5707e1b521e6acaaf79b33300bea"
  const PROVIDER_ID := "tmux_control_mode"
  const CONTROL_ADAPTER := "raw_control_mode"
  const UNQUALIFIED := "unqualified"
  const GENUINE_GATE_IDS: seq<string> := ["P3", "P4", "P5", "P6", "P14", "P15"]
  const REQUIRED_PLATFORMS: seq<string> := ["darwin", "linux"]
  const TOPOLOGIES: seq<string> :=
    ["per_session_observer", "shared_observer_with_per_pane_off", "shared_observer_with_daemon_demux_simulation"]
  const PRIVACY_PROBES: seq<(string, string)> :=
    [("P4", "p4"), ("P5", "p5"), ("P6", "p6"), ("P14", "p14"), ("P15", "p15")]

  datatype Bound = Bound(report: Report, digest: string, path: string)

  datatype Binding = Binding(goos: string, goarch: string, tmuxPath: string, tmuxVersion: string, tmuxDigest: string,
                             verdict: Status, path: string, digest: string)

  datatype Qualification = Qualification(goos: string, allowed: bool, fence: string, topology: string)

  datatype Gate = Gate(schema: int, kind: string, specCommit: string, platforms: seq<string>, probeIds: seq<string>,
                       genuineIds: seq<string>, bindings: seq<Binding>, platformH1: seq<Qualification>,
                       providerId: string, providerVersion: int, fence: string, topology: string, adapter: string,
                       h1Allowed: bool)

  // -------------------------------------------------------------------- sorting

  /** Byte-wise order of strings. */
  predicate Less(a: string, b: string) {
    b != "" && (a == "" || a[0] < b[0] || (a[0] == b[0] && Less(a[1..], b[1..])))
  }

  lemma {:induction false} LessIsTotal(a: string, b: string)
    ensures a == b || Less(a, b) || Less(b, a)
    decreases |a|
  {
    if a != "" && b != "" {
      LessIsTotal(a[1..], b[1..]);
      assert a == [a[0]] + a[1..] && b == [b[0]] + b[1..];
    }
  }

  lemma {:induction false} LessPassesOn(a: string, b: string, c: string)
    ensures Less(c, a) ==> Less(b, a) || Less(c, b)
    decreases |a|
  {
    if a != "" && b != "" && c != "" {
      LessPassesOn(a[1..], b[1..], c[1..]);
    }
  }

  lemma {:induction false} LessIsOneWay(a: string, b: string)
    ensures !(Less(a, b) && Less(b, a))
    decreases |a|
  {
    if a != "" && b != "" {
      LessIsOneWay(a[1..], b[1..]);
    }
  }

  predicate BindingLess(a: Binding, b: Binding) {
    if a.goos != b.goos then Less(a.goos, b.goos) else Less(a.goarch, b.goarch)
  }

  predicate QualificationLess(a: Qualification, b: Qualification) { Less(a.goos, b.goos) }

  /** The sorters assumed below exist. */
  lemma BothOrdersCanBeSorted()
    ensures Sorts(InsertionSorter(BindingLess), BindingLess)
    ensures Sorts(InsertionSorter(QualificationLess), QualificationLess)
  {
    forall a: Qualification, b: Qualification, c: Qualification | QualificationLess(c, a)
      ensures QualificationLess(b, a) || QualificationLess(c, b)
    {
      LessPassesOn(a.goos, b.goos, c.goos);
    }
    forall a: Binding, b: Binding, c: Binding | BindingLess(c, a)
      ensures BindingLess(b, a) || BindingLess(c, b)
    {
      LessPassesOn(a.goos, b.goos, c.goos);
      LessPassesOn(a.goarch, b.goarch, c.goarch);
      LessIsTotal(a.goos, b.goos);
      LessIsTotal(b.goos, c.goos);
    }
    forall a: Qualification, b: Qualification | QualificationLess(a, b)
      ensures !QualificationLess(b, a)
    {
      LessIsOneWay(a.goos, b.goos);
    }
    forall a: Binding, b: Binding | BindingLess(a, b)
      ensures !BindingLess(b, a)
    {
      LessIsOneWay(a.goos, b.goos);
      LessIsOneWay(a.goarch, b.goarch);
    }
    InsertionSorts(BindingLess);
    InsertionSorts(QualificationLess);
  }

  // ----------------------------------------------------------------- derivation

  /** The fact of the first result of a probe, "" if there is none. */
  function FactOf(results: seq<Probe>, id: string, key: string): string {
    if results == [] then ""
    else if results[0].id == id then if key in results[0].facts then results[0].facts[key] else ""
    else FactOf(results[1..], id, key)
  }

  /** The first result of the probe passed. */
  predicate ProbePassed(results: seq<Probe>, id: string) {
    results != [] && (if results[0].id == id then results[0].status == PASS else ProbePassed(results[1..], id))
  }

  predicate GenuineGatesPassed(r: Report) { forall id | id in GENUINE_GATE_IDS :: ProbePassed(r.results, id) }

  predicate TopologyPassed(r: Report, candidate: string) {
    forall p | p in PRIVACY_PROBES :: FactOf(r.results, p.0, "candidate." + candidate + "." + p.1) == "PASS"
  }

  function FirstPassed(r: Report, candidates: seq<string>): string {
    if candidates == [] then UNQUALIFIED
    else if TopologyPassed(r, candidates[0]) then candidates[0]
    else FirstPassed(r, candidates[1..])
  }

  function QualifiedTopology(r: Report): string { FirstPassed(r, TOPOLOGIES) }

  function FenceOf(r: Report): string { FactOf(r.results, "P3", "input_fence_mechanism") }

  /** The one value all give, when there is one. */
  function Consensus(values: seq<string>, missing: string): string {
    if values != [] && values[0] != missing && forall v | v in values :: v == values[0] then values[0] else UNQUALIFIED
  }

  /** The loop both consensus functions share: an early exit on a missing or a differing value. */
  method ComputeConsensus(values: seq<string>, missing: string) returns (value: string)
    requires missing != "" ==> "" !in values
    ensures value == Consensus(values, missing)
  {
    value := "";
    for i := 0 to |values|
      invariant if i == 0 then value == "" else value == values[0] && value != missing && value != ""
      invariant forall j | 0 <= j < i :: values[j] == values[0]
    {
      assert values[i] in values;
      if values[i] == missing {
        return UNQUALIFIED;
      }
      if value == "" {
        value := values[i];
      } else if values[i] != value {
        return UNQUALIFIED;
      }
    }
    if value == "" {
      return UNQUALIFIED;
    }
  }

  function BoundFence(b: Bound): string { FenceOf(b.report) }
  function BoundTopology(b: Bound): string { QualifiedTopology(b.report) }
  function BoundPlatform(b: Bound): string { b.report.goos }

  function ConsensusFence(reports: seq<Bound>): string { Consensus(Map(BoundFence, reports), "") }
  function ConsensusTopology(reports: seq<Bound>): string { Consensus(Map(BoundTopology, reports), UNQUALIFIED) }

  function Bind(b: Bound): Binding {
    Binding(b.report.goos, b.report.goarch, b.report.tmuxPath, b.report.tmuxVersion, b.report.tmuxDigest,
            b.report.verdict, b.path, b.digest)
  }

  function Qualify(r: Report): Qualification {
    var refused := Qualification(r.goos, false, UNQUALIFIED, UNQUALIFIED);
    if !ValidReport(r) || r.verdict != PASS then refused
    else if FenceOf(r) == "" || FenceOf(r) == UNQUALIFIED then refused
    else if QualifiedTopology(r) == "" || QualifiedTopology(r) == UNQUALIFIED then refused
    else if !GenuineGatesPassed(r) then refused
    else Qualification(r.goos, true, FenceOf(r), QualifiedTopology(r))
  }

  function QualifyBound(b: Bound): Qualification { Qualify(b.report) }

  function PlatformH1(reports: seq<Bound>, sort: Sorter<Qualification>): seq<Qualification> {
    sort(Map(QualifyBound, reports))
  }

  /** A required platform is covered by a passing report. */
  predicate Covered(reports: seq<Bound>, platform: string) {
    exists b | b in reports :: b.report.goos == platform && b.report.verdict == PASS && GenuineGatesPassed(b.report)
  }

  predicate H1Allowed(g: Gate, reports: seq<Bound>) {
    && g.schema == GATE_SCHEMA && g.kind == GATE_KIND && g.specCommit == SPEC_COMMIT
    && g.providerId == PROVIDER_ID && g.providerVersion == 1 && g.adapter == CONTROL_ADAPTER
    && g.fence != "" && g.fence != UNQUALIFIED && g.topology != "" && g.topology != UNQUALIFIED
    && g.fence == ConsensusFence(reports) && g.topology == ConsensusTopology(reports)
    && (forall b | b in reports :: ValidReport(b.report))
    && Distinct(Map(BoundPlatform, reports))
    && (forall platform | platform in REQUIRED_PLATFORMS :: Covered(reports, platform))
  }

  function GateFromReports(reports: seq<Bound>, sortBindings: Sorter<Binding>, sortH1: Sorter<Qualification>): Gate {
    var g := Gate(GATE_SCHEMA, GATE_KIND, SPEC_COMMIT, REQUIRED_PLATFORMS, RequiredProbeIds(), GENUINE_GATE_IDS,
                  sortBindings(Map(Bind, reports)), PlatformH1(reports, sortH1), PROVIDER_ID, 1,
                  ConsensusFence(reports), ConsensusTopology(reports), CONTROL_ADAPTER, false);
    g.(h1Allowed := H1Allowed(g, reports))
  }

  // --------------------------------------------------------------- verification

  function BindingKey(b: Binding): string { b.goos + "/" + b.goarch }
  function BoundKey(b: Bound): string { b.report.goos + "/" + b.report.goarch }

  predicate HexDigit(c: char) { '0' <= c <= '9' || 'a' <= c <= 'f' || 'A' <= c <= 'F' }

  predicate HexDigest(d: string) { |d| == 64 && forall i | 0 <= i < 64 :: HexDigit(d[i]) }

  predicate SameIdentity(binding: Binding, b: Bound) {
    && binding.digest == b.digest && binding.path == b.path && binding.verdict == b.report.verdict
    && binding.tmuxPath == b.report.tmuxPath && binding.tmuxVersion == b.report.tmuxVersion
    && binding.tmuxDigest == b.report.tmuxDigest
  }

  /** The report is valid and its platform's binding is its own. */
  predicate BoundIn(b: Bound, bindings: seq<Binding>) {
    && ValidReport(b.report) && HexDigest(b.digest)
    && exists binding | binding in bindings :: BindingKey(binding) == BoundKey(b) && SameIdentity(binding, b)
  }

  predicate Verifies(g: Gate, reports: seq<Bound>, sortH1: Sorter<Qualification>) {
    && g.schema == GATE_SCHEMA && g.kind == GATE_KIND && g.specCommit == SPEC_COMMIT
    && g.platforms == REQUIRED_PLATFORMS && g.probeIds == RequiredProbeIds() && g.genuineIds == GENUINE_GATE_IDS
    && |g.bindings| == |reports|
    && Distinct(Map(BindingKey, g.bindings))
    && (forall b | b in reports :: BoundIn(b, g.bindings))
    && g.platformH1 == PlatformH1(reports, sortH1)
    && g.h1Allowed == H1Allowed(g, reports)
  }

  /** Bindings under their platform keys, none if a key occurs twice. */
  method IndexBindings(bindings: seq<Binding>) returns (index: Option<map<string, Binding>>)
    ensures index.Some? <==> Distinct(Map(BindingKey, bindings))
    ensures index.Some? ==>
              && (forall b | b in bindings :: BindingKey(b) in index.value && index.value[BindingKey(b)] == b)
              && (forall k | k in index.value :: index.value[k] in bindings && BindingKey(index.value[k]) == k)
  {
    hide BindingKey, Distinct, Map;
    var byKey: map<string, Binding> := map[];
    for i := 0 to |bindings|
      invariant forall j | 0 <= j < i ::
                  BindingKey(bindings[j]) in byKey && byKey[BindingKey(bindings[j])] == bindings[j]
      invariant forall k | k in byKey ::
                  exists j | 0 <= j < i :: bindings[j] == byKey[k] && BindingKey(bindings[j]) == k
      invariant forall j, k | 0 <= j < k < i :: BindingKey(bindings[j]) != BindingKey(bindings[k])
    {
      var key := BindingKey(bindings[i]);
      if key in byKey {
        ghost var j :| 0 <= j < i && bindings[j] == byKey[key] && BindingKey(bindings[j]) == key;
        SameKeyTwice(bindings, j, i);
        return None;
      }
      byKey := byKey[key := bindings[i]];
    }
    KeysAreDistinct(bindings);
    return Some(byKey);
  }

  lemma SameKeyTwice(bindings: seq<Binding>, i: nat, j: nat)
    requires i < j < |bindings| && BindingKey(bindings[i]) == BindingKey(bindings[j])
    ensures !Distinct(Map(BindingKey, bindings))
  {
    var keys := Map(BindingKey, bindings);
    assert keys[i] == keys[j];
  }

  lemma KeysAreDistinct(bindings: seq<Binding>)
    requires forall j, k | 0 <= j < k < |bindings| :: BindingKey(bindings[j]) != BindingKey(bindings[k])
    ensures Distinct(Map(BindingKey, bindings))
  {
  }

  method DecodesAsHex(digest: string) returns (ok: bool)
    ensures ok <==> forall i | 0 <= i < |digest| :: HexDigit(digest[i])
  {
    for i := 0 to |digest|
      invariant forall j | 0 <= j < i :: HexDigit(digest[j])
    {
      if !HexDigit(digest[i]) {
        return false;
      }
    }
    return true;
  }

  lemma OneBindingPerKey(bindings: seq<Binding>, binding: Binding, b: Bound)
    requires Distinct(Map(BindingKey, bindings)) && binding in bindings && BindingKey(binding) == BoundKey(b)
    ensures BoundIn(b, bindings) <==> ValidReport(b.report) && HexDigest(b.digest) && SameIdentity(binding, b)
  {
    hide ValidReport, HexDigest;
    if BoundIn(b, bindings) {
      var other :| other in bindings && BindingKey(other) == BoundKey(b) && SameIdentity(other, b);
      var i :| 0 <= i < |bindings| && bindings[i] == binding;
      var j :| 0 <= j < |bindings| && bindings[j] == other;
      assert Map(BindingKey, bindings)[i] == Map(BindingKey, bindings)[j];
    }
  }

  /** report.go `verifyGate`, with its two maps and early exits. */
  method VerifyGate(g: Gate, reports: seq<Bound>, sortH1: Sorter<Qualification>) returns (ok: bool)
    ensures ok <==> Verifies(g, reports, sortH1)
  {
    hide ValidReport, HexDigest, H1Allowed, PlatformH1, RequiredProbeIds, BoundIn;
    if g.schema != GATE_SCHEMA || g.kind != GATE_KIND || g.specCommit != SPEC_COMMIT {
      return false;
    }
    if g.platforms != REQUIRED_PLATFORMS || g.probeIds != RequiredProbeIds() || g.genuineIds != GENUINE_GATE_IDS {
      return false;
    }
    if |g.bindings| != |reports| {
      return false;
    }
    var index := IndexBindings(g.bindings);
    if index.None? {
      return false;
    }
    for i := 0 to |reports|
      invariant forall j | 0 <= j < i :: BoundIn(reports[j], g.bindings)
    {
      var bound := CheckBound(reports[i], g.bindings, index.value);
      if !bound {
        return false;
      }
    }
    return g.platformH1 == PlatformH1(reports, sortH1) && g.h1Allowed == H1Allowed(g, reports);
  }

  method CheckBound(b: Bound, ghost bindings: seq<Binding>, byKey: map<string, Binding>) returns (ok: bool)
    requires Distinct(Map(BindingKey, bindings))
    requires forall x | x in bindings :: BindingKey(x) in byKey && byKey[BindingKey(x)] == x
    requires forall k | k in byKey :: byKey[k] in bindings && BindingKey(byKey[k]) == k
    ensures ok <==> BoundIn(b, bindings)
  {
    hide ValidReport;
    var valid := ValidateReport(b.report);
    if !valid {
      return false;
    }
    if |b.digest| != 64 {
      return false;
    }
    var hex := DecodesAsHex(b.digest);
    if !hex {
      return false;
    }
    if BoundKey(b) !in byKey {
      return false;
    }
    var binding := byKey[BoundKey(b)];
    OneBindingPerKey(bindings, binding, b);
    return SameIdentity(binding, b);
  }

  // ------------------------------------------------ a derived gate verifies itself

  lemma DerivedBindings(reports: seq<Bound>, sort: Sorter<Binding>)
    requires Sorts(sort, BindingLess)
    ensures var bindings := sort(Map(Bind, reports));
            && |bindings| == |reports|
            && multiset(Map(BindingKey, bindings)) == multiset(Map(BoundKey, reports))
            && (forall b | b in reports :: Bind(b) in bindings)
  {
    var bound, bindings := Map(Bind, reports), sort(Map(Bind, reports));
    assert multiset(bindings) == multiset(bound);
    assert |bindings| == |multiset(bindings)| == |bound|;
    MapPermutes(BindingKey, bindings, bound);
    assert Map(BindingKey, bound) == Map(BoundKey, reports);
    forall b | b in reports
      ensures Bind(b) in bindings
    {
      var i :| 0 <= i < |reports| && reports[i] == b;
      assert bound[i] == Bind(b) && Bind(b) in multiset(bindings);
    }
  }

  /** A derived gate verifies against its own reports exactly when they are valid, their digests are 64 hex
      digits and their platform keys are distinct. */
  lemma DerivedGateVerifies(reports: seq<Bound>, sortBindings: Sorter<Binding>, sortH1: Sorter<Qualification>)
    requires Sorts(sortBindings, BindingLess)
    ensures Verifies(GateFromReports(reports, sortBindings, sortH1), reports, sortH1) <==>
            (forall b | b in reports :: ValidReport(b.report) && HexDigest(b.digest)) &&
              Distinct(Map(BoundKey, reports))
  {
    hide ValidReport, HexDigest, ConsensusFence, ConsensusTopology, PlatformH1, RequiredProbeIds;
    var g := GateFromReports(reports, sortBindings, sortH1);
    DerivedBindings(reports, sortBindings);
    if Distinct(Map(BoundKey, reports)) {
      PermutedIsDistinct(Map(BoundKey, reports), Map(BindingKey, g.bindings));
    }
    if Distinct(Map(BindingKey, g.bindings)) {
      PermutedIsDistinct(Map(BindingKey, g.bindings), Map(BoundKey, reports));
    }
    assert g.h1Allowed == H1Allowed(g, reports) by { H1IgnoresItself(g, reports); }
    hide H1Allowed, GateFromReports;
    forall b | b in reports && ValidReport(b.report) && HexDigest(b.digest)
      ensures BoundIn(b, g.bindings)
    {
      assert BindingKey(Bind(b)) == BoundKey(b) && SameIdentity(Bind(b), b);
    }
  }

  lemma H1IgnoresItself(g: Gate, reports: seq<Bound>)
    ensures H1Allowed(g, reports) == H1Allowed(g.(h1Allowed := false), reports)
  {
  }

  // ------------------------------------------------- the order of reports is free

  lemma InPermutation<T>(a: seq<T>, b: seq<T>, x: T)
    requires multiset(a) == multiset(b) && x in a
    ensures x in b
  {
    assert x in multiset(a);
  }

  lemma ConsensusPermutes(a: seq<string>, b: seq<string>, missing: string)
    requires multiset(a) == multiset(b)
    ensures Consensus(a, missing) == Consensus(b, missing)
  {
    assert |a| == |multiset(a)| == |multiset(b)| == |b|;
    if a != [] {
      forall x | x in a
        ensures x in b
      {
        InPermutation(a, b, x);
      }
      forall x | x in b
        ensures x in a
      {
        InPermutation(b, a, x);
      }
      assert a[0] in a && b[0] in b;
    }
  }

  lemma AllowedPermutes(g: Gate, a: seq<Bound>, b: seq<Bound>)
    requires multiset(a) == multiset(b)
    ensures H1Allowed(g, a) ==> H1Allowed(g, b)
  {
    if !H1Allowed(g, a) {
      return;
    }
    hide ValidReport, GenuineGatesPassed, Consensus, Distinct;
    MapPermutes(BoundFence, a, b);
    MapPermutes(BoundTopology, a, b);
    MapPermutes(BoundPlatform, a, b);
    ConsensusPermutes(Map(BoundFence, a), Map(BoundFence, b), "");
    ConsensusPermutes(Map(BoundTopology, a), Map(BoundTopology, b), UNQUALIFIED);
    PermutedIsDistinct(Map(BoundPlatform, a), Map(BoundPlatform, b));
    forall x | x in b
      ensures ValidReport(x.report)
    {
      InPermutation(b, a, x);
    }
    forall platform | platform in REQUIRED_PLATFORMS
      ensures Covered(b, platform)
    {
      assert Covered(a, platform);
      var x :| x in a && x.report.goos == platform && x.report.verdict == PASS && GenuineGatesPassed(x.report);
      InPermutation(a, b, x);
    }
  }

  /** Distinct platforms give elements that the two orders tell apart. */
  lemma PlatformsTellApart<T(!new)>(reports: seq<Bound>, f: Bound -> T, platform: T -> string, less: (T, T) -> bool)
    requires Distinct(Map(BoundPlatform, reports))
    requires forall b :: platform(f(b)) == BoundPlatform(b)
    requires forall x, y | platform(x) != platform(y) && Less(platform(x), platform(y)) :: less(x, y)
    ensures forall x, y | x in Map(f, reports) && y in Map(f, reports) && x != y :: less(x, y) || less(y, x)
  {
    var mapped := Map(f, reports);
    forall x, y | x in mapped && y in mapped && x != y
      ensures less(x, y) || less(y, x)
    {
      var i :| 0 <= i < |mapped| && mapped[i] == x;
      var j :| 0 <= j < |mapped| && mapped[j] == y;
      assert Map(BoundPlatform, reports)[i] != Map(BoundPlatform, reports)[j];
      assert platform(x) != platform(y);
      LessIsTotal(platform(x), platform(y));
    }
  }

  lemma SortedMapsAgree<T(!new)>(a: seq<Bound>, b: seq<Bound>, f: Bound -> T, platform: T -> string,
                                 less: (T, T) -> bool, sort: Sorter<T>)
    requires multiset(a) == multiset(b) && Sorts(sort, less) && Distinct(Map(BoundPlatform, a))
    requires forall x :: platform(f(x)) == BoundPlatform(x)
    requires forall x, y | platform(x) != platform(y) && Less(platform(x), platform(y)) :: less(x, y)
    ensures sort(Map(f, a)) == sort(Map(f, b))
  {
    var s, t := sort(Map(f, a)), sort(Map(f, b));
    MapPermutes(f, a, b);
    PlatformsTellApart(a, f, platform, less);
    forall x | x in s
      ensures x in Map(f, a)
    {
      InPermutation(s, Map(f, a), x);
    }
    SortIsUnique(s, t, less);
  }

  /** For reports of distinct platforms the derived gate does not depend on the order they come in. */
  lemma OrderOfReportsIsFree(a: seq<Bound>, b: seq<Bound>, sortBindings: Sorter<Binding>, sortH1: Sorter<Qualification>)
    requires multiset(a) == multiset(b) && Distinct(Map(BoundPlatform, a))
    requires Sorts(sortBindings, BindingLess) && Sorts(sortH1, QualificationLess)
    ensures GateFromReports(a, sortBindings, sortH1) == GateFromReports(b, sortBindings, sortH1)
  {
    SortedMapsAgree(a, b, Bind, (x: Binding) => x.goos, BindingLess, sortBindings);
    SortedMapsAgree(a, b, QualifyBound, (x: Qualification) => x.goos, QualificationLess, sortH1);
    MapPermutes(BoundFence, a, b);
    MapPermutes(BoundTopology, a, b);
    ConsensusPermutes(Map(BoundFence, a), Map(BoundFence, b), "");
    ConsensusPermutes(Map(BoundTopology, a), Map(BoundTopology, b), UNQUALIFIED);
    var g := GateFromReports(a, sortBindings, sortH1).(h1Allowed := false);
    hide H1Allowed, Consensus, Sorts;
    AllowedPermutes(g, a, b);
    AllowedPermutes(g, b, a);
  }

  // --------------------------------------------------- what a passing check means

  lemma {:induction false} PassedInAll(results: seq<Probe>, id: string)
    requires AllPass(results) && id in Ids(results)
    ensures ProbePassed(results, id)
    decreases |results|
  {
    if results[0].id != id {
      var i :| 0 <= i < |results| && Ids(results)[i] == id;
      assert Ids(results[1..])[i - 1] == id;
      forall j | 0 <= j < |results| - 1
        ensures results[1..][j].status == PASS
      {
        assert results[j + 1].status == PASS;
      }
      PassedInAll(results[1..], id);
    }
  }

  /** The check of the genuine gates can only fail on a report that did not pass: a platform is allowed
      exactly when its report is valid and passed, names a fence and has a qualified topology. */
  lemma AllowedExactlyWhen(r: Report)
    ensures Qualify(r).allowed <==>
            ValidReport(r) && r.verdict == PASS && FenceOf(r) != "" && FenceOf(r) != UNQUALIFIED &&
              QualifiedTopology(r) != UNQUALIFIED
  {
    TopologyIsNamed(r);
    if ValidReport(r) && r.verdict == PASS {
      PassExactlyWhen(r.results);
      GenuineGatesPass(r);
    }
    hide ValidReport, FenceOf, QualifiedTopology;
  }

  lemma GenuineGatesPass(r: Report)
    requires multiset(Ids(r.results)) == multiset(RequiredProbeIds()) && AllPass(r.results)
    ensures GenuineGatesPassed(r)
  {
    forall id | id in GENUINE_GATE_IDS
      ensures ProbePassed(r.results, id)
    {
      GenuineIsRequired(id);
      assert id in multiset(RequiredProbeIds());
      assert id in multiset(Ids(r.results));
      PassedInAll(r.results, id);
    }
  }

  lemma GenuineIsRequired(id: string)
    requires id in GENUINE_GATE_IDS
    ensures id in RequiredProbeIds()
  {
    var r := RequiredProbeIds();
    assert r[3] == "P3" && r[4] == "P4" && r[5] == "P5" && r[6] == "P6" && r[14] == "P14" && r[15] == "P15";
  }

  lemma TopologyIsNamed(r: Report)
    ensures QualifiedTopology(r) in TOPOLOGIES + [UNQUALIFIED]
    ensures QualifiedTopology(r) != UNQUALIFIED ==> TopologyPassed(r, QualifiedTopology(r))
    ensures QualifiedTopology(r) == UNQUALIFIED ==> forall t | t in TOPOLOGIES :: !TopologyPassed(r, t)
  {
    hide TopologyPassed;
    var a, b, c := TOPOLOGIES, TOPOLOGIES[1..], TOPOLOGIES[1..][1..];
    assert c == [TOPOLOGIES[2]] && c[1..] == [];
    assert FirstPassed(r, c) == if TopologyPassed(r, TOPOLOGIES[2]) then TOPOLOGIES[2] else UNQUALIFIED;
    assert FirstPassed(r, b) == if TopologyPassed(r, TOPOLOGIES[1]) then TOPOLOGIES[1] else FirstPassed(r, c);
  }

  /** platform_gate.go `platformH1Qualification`: the first entry of the platform. */
  function QualificationFor(qs: seq<Qualification>, platform: string): (q: Option<Qualification>)
    ensures q.Some? ==> q.value in qs && q.value.goos == platform
    ensures q.None? ==> forall x | x in qs :: x.goos != platform
  {
    if qs == [] then None else if qs[0].goos == platform then Some(qs[0]) else QualificationFor(qs[1..], platform)
  }

  /** platform_gate.go `verifyH1ForPlatform`. */
  predicate H1Verified(g: Gate, reports: seq<Bound>, platform: string, sortH1: Sorter<Qualification>) {
    && Verifies(g, reports, sortH1)
    && QualificationFor(g.platformH1, platform).Some?
    && QualificationFor(g.platformH1, platform).value.allowed
  }

  /** A passing check binds a report of that platform in which all sixteen probes passed, which names an
      input fence and in which every privacy probe of one topology passed. */
  lemma PassingCheckMeans(g: Gate, reports: seq<Bound>, platform: string, sortH1: Sorter<Qualification>)
    requires Sorts(sortH1, QualificationLess) && H1Verified(g, reports, platform, sortH1)
    ensures exists b | b in reports ::
              && b.report.goos == platform && BoundIn(b, g.bindings)
              && multiset(Ids(b.report.results)) == multiset(RequiredProbeIds()) && AllPass(b.report.results)
              && FenceOf(b.report) != "" && FenceOf(b.report) != UNQUALIFIED
              && exists t | t in TOPOLOGIES :: TopologyPassed(b.report, t)
  {
    var q := QualificationFor(g.platformH1, platform).value;
    var mapped := Map(QualifyBound, reports);
    InPermutation(g.platformH1, mapped, q);
    var i :| 0 <= i < |mapped| && mapped[i] == q;
    var b := reports[i];
    assert Qualify(b.report) == q;
    AllowedExactlyWhen(b.report);
    PassExactlyWhen(b.report.results);
    TopologyIsNamed(b.report);
    assert BoundIn(b, g.bindings);
  }

  // ------------------------------------------------------ permission, fact by fact

  /** Some result of the probe gives the fact this value. */
  ghost predicate Says(results: seq<Probe>, id: string, key: string, value: string) {
    exists p | p in results :: p.id == id && key in p.facts && p.facts[key] == value
  }

  /** Where every probe is listed once, the fact of its first result is the fact of its only one. */
  lemma {:induction false} FactMeans(results: seq<Probe>, id: string, key: string, value: string)
    requires Distinct(Ids(results)) && value != ""
    ensures FactOf(results, id, key) == value <==> Says(results, id, key, value)
    decreases |results|
  {
    if results != [] {
      var rest := results[1..];
      assert results == [results[0]] + rest;
      assert forall i | 0 <= i < |rest| :: Ids(rest)[i] == Ids(results)[i + 1];
      FactMeans(rest, id, key, value);
      if results[0].id == id {
        forall p | p in rest
          ensures p.id != id
        {
          var i :| 0 <= i < |rest| && rest[i] == p;
          assert Ids(results)[0] != Ids(results)[i + 1];
        }
      }
    }
  }

  ghost predicate PrivacyProven(results: seq<Probe>, topology: string) {
    && Says(results, "P4", "candidate." + topology + ".p4", "PASS")
    && Says(results, "P5", "candidate." + topology + ".p5", "PASS")
    && Says(results, "P6", "candidate." + topology + ".p6", "PASS")
    && Says(results, "P14", "candidate." + topology + ".p14", "PASS")
    && Says(results, "P15", "candidate." + topology + ".p15", "PASS")
  }

  /** The topology is the first one, in the order of preference, for which privacy is proven. */
  ghost predicate Preferred(results: seq<Probe>, topology: string) {
    var own, paneOff, demux :=
      "per_session_observer", "shared_observer_with_per_pane_off", "shared_observer_with_daemon_demux_simulation";
    && PrivacyProven(results, topology)
    && match PrivacyProven(results, own)
       case true => topology == own
       case false => topology == if PrivacyProven(results, paneOff) then paneOff else demux
  }

  lemma TopologyMeans(r: Report, topology: string)
    requires Distinct(Ids(r.results))
    ensures TopologyPassed(r, topology) <==> PrivacyProven(r.results, topology)
  {
    hide FactOf, Says, Distinct;
    forall p | p in PRIVACY_PROBES
      ensures var key := "candidate." + topology + "." + p.1;
              FactOf(r.results, p.0, key) == "PASS" <==> Says(r.results, p.0, key, "PASS")
    {
      FactMeans(r.results, p.0, "candidate." + topology + "." + p.1, "PASS");
    }
    var prefix := "candidate." + topology;
    assert prefix + "." + "p4" == prefix + ".p4" && prefix + "." + "p5" == prefix + ".p5";
    assert prefix + "." + "p6" == prefix + ".p6" && prefix + "." + "p14" == prefix + ".p14";
    assert prefix + "." + "p15" == prefix + ".p15";
    assert PRIVACY_PROBES[0] in PRIVACY_PROBES && PRIVACY_PROBES[1] in PRIVACY_PROBES &&
      PRIVACY_PROBES[2] in PRIVACY_PROBES && PRIVACY_PROBES[3] in PRIVACY_PROBES && PRIVACY_PROBES[4] in PRIVACY_PROBES;
  }

  lemma FirstOfThree(r: Report)
    ensures QualifiedTopology(r) ==
            if TopologyPassed(r, TOPOLOGIES[0]) then TOPOLOGIES[0]
            else if TopologyPassed(r, TOPOLOGIES[1]) then TOPOLOGIES[1]
            else if TopologyPassed(r, TOPOLOGIES[2]) then TOPOLOGIES[2] else UNQUALIFIED
  {
    hide TopologyPassed;
    var b, c := TOPOLOGIES[1..], TOPOLOGIES[1..][1..];
    assert c == [TOPOLOGIES[2]] && c[1..] == [];
    assert FirstPassed(r, c) == if TopologyPassed(r, TOPOLOGIES[2]) then TOPOLOGIES[2] else UNQUALIFIED;
    assert FirstPassed(r, b) == if TopologyPassed(r, TOPOLOGIES[1]) then TOPOLOGIES[1] else FirstPassed(r, c);
  }

  lemma PreferredMeans(r: Report, topology: string)
    requires Distinct(Ids(r.results))
    ensures topology != "unqualified" ==> (QualifiedTopology(r) == topology <==> Preferred(r.results, topology))
    ensures Preferred(r.results, topology) ==> topology != "" && topology != "unqualified"
  {
    FirstOfThree(r);
    TopologyMeans(r, TOPOLOGIES[0]);
    TopologyMeans(r, TOPOLOGIES[1]);
    TopologyMeans(r, TOPOLOGIES[2]);
    hide TopologyPassed, PrivacyProven, QualifiedTopology;
  }

  /** The report passed and names this fence and, by preference, this topology. */
  ghost predicate Qualifies(r: Report, fence: string, topology: string) {
    && r.schema == 1 && r.verdict == "PASS"
    && multiset(Ids(r.results)) == multiset(RequiredProbeIds()) && AllPass(r.results)
    && fence != "" && fence != "unqualified" && Says(r.results, "P3", "input_fence_mechanism", fence)
    && Preferred(r.results, topology)
  }

  lemma PassedReport(r: Report)
    ensures ValidReport(r) && r.verdict == PASS <==>
            r.schema == 1 && r.verdict == "PASS" && multiset(Ids(r.results)) == multiset(RequiredProbeIds()) &&
              AllPass(r.results)
  {
    PassExactlyWhen(r.results);
    ValidExactlyWhen(r);
    ListedExactlyWhen(r.results);
    hide RequiredProbeIds, Verdict, Listed;
  }

  /** A platform's entry, fact by fact: it is allowed with this fence and this topology exactly when all
      sixteen probes passed and prove them; an entry that is not allowed names neither. */
  lemma QualifyExactlyWhen(r: Report, fence: string, topology: string)
    ensures Qualify(r) == Qualification(r.goos, true, fence, topology) <==> Qualifies(r, fence, topology)
    ensures !Qualify(r).allowed ==> Qualify(r) == Qualification(r.goos, false, "unqualified", "unqualified")
    ensures Qualify(r).allowed <==> Qualifies(r, Qualify(r).fence, Qualify(r).topology)
  {
    AllowedExactlyWhen(r);
    PassedReport(r);
    hide ValidReport, GenuineGatesPassed, QualifiedTopology, Preferred, Says, RequiredProbeIds, AllPass, FactOf;
    if Qualify(r).allowed || Qualifies(r, fence, topology) {
      RequiredAreDistinct();
      PermutedIsDistinct(RequiredProbeIds(), Ids(r.results));
      hide Distinct;
      if fence != "" {
        FactMeans(r.results, "P3", "input_fence_mechanism", fence);
      }
      if FenceOf(r) != "" {
        FactMeans(r.results, "P3", "input_fence_mechanism", FenceOf(r));
      }
      PreferredMeans(r, topology);
      PreferredMeans(r, QualifiedTopology(r));
    }
  }

  /** A report of the platform passed. */
  ghost predicate PassedOn(reports: seq<Bound>, platform: string) {
    exists b | b in reports :: b.report.goos == platform && AllPass(b.report.results)
  }

  lemma CoveredMeans(reports: seq<Bound>, platform: string)
    requires forall b | b in reports :: ValidReport(b.report)
    ensures Covered(reports, platform) <==> PassedOn(reports, platform)
  {
    forall b | b in reports
      ensures b.report.verdict == PASS <==> AllPass(b.report.results)
      ensures AllPass(b.report.results) ==> GenuineGatesPassed(b.report)
    {
      ValidExactlyWhen(b.report);
      PassExactlyWhen(b.report.results);
      hide RequiredProbeIds, Verdict, Has;
      if AllPass(b.report.results) {
        GenuineGatesPass(b.report);
      }
    }
  }

  lemma ConsensusMeans(values: seq<string>, missing: string, value: string)
    requires value != UNQUALIFIED && value != missing
    ensures Consensus(values, missing) == value <==> values != [] && forall v | v in values :: v == value
  {
    if values != [] {
      assert values[0] in values;
    }
  }

  lemma AllMapped(reports: seq<Bound>, f: Bound -> string, value: string)
    ensures (forall v | v in Map(f, reports) :: v == value) <==> (forall b | b in reports :: f(b) == value)
  {
    var mapped := Map(f, reports);
    forall b | b in reports
      ensures f(b) in mapped
    {
      var i :| 0 <= i < |reports| && reports[i] == b;
      assert mapped[i] == f(b);
    }
  }

  ghost predicate Agree(reports: seq<Bound>, fence: string, topology: string) {
    forall b | b in reports ::
      Says(b.report.results, "P3", "input_fence_mechanism", fence) && Preferred(b.report.results, topology)
  }

  lemma ConsensusAgrees(reports: seq<Bound>, fence: string, topology: string)
    requires reports != [] && forall b | b in reports :: ValidReport(b.report)
    requires fence != "" && fence != "unqualified" && topology != "unqualified"
    ensures ConsensusFence(reports) == fence && ConsensusTopology(reports) == topology <==>
            Agree(reports, fence, topology)
  {
    ConsensusMeans(Map(BoundFence, reports), "", fence);
    ConsensusMeans(Map(BoundTopology, reports), UNQUALIFIED, topology);
    AllMapped(reports, BoundFence, fence);
    AllMapped(reports, BoundTopology, topology);
    hide Consensus, FactOf, QualifiedTopology, Says, Preferred;
    forall b | b in reports
      ensures FenceOf(b.report) == fence <==> Says(b.report.results, "P3", "input_fence_mechanism", fence)
      ensures QualifiedTopology(b.report) == topology <==> Preferred(b.report.results, topology)
    {
      assert ValidReport(b.report);
      hide Distinct, Verdict;
      FactMeans(b.report.results, "P3", "input_fence_mechanism", fence);
      PreferredMeans(b.report, topology);
    }
  }

  /** Permission for the whole provider, fact by fact: all reports are valid, of distinct platforms and agree on
      the gate's fence and topology, and darwin and linux each have a report in which all sixteen passed. */
  lemma PermittedExactlyWhen(g: Gate, reports: seq<Bound>)
    ensures H1Allowed(g, reports) <==>
            && g.schema == 2 && g.kind == "provider_qualification" && g.specCommit == SPEC_COMMIT
            && g.providerId == "tmux_control_mode" && g.providerVersion == 1 && g.adapter == "raw_control_mode"
            && g.fence != "" && g.fence != "unqualified"
            && (forall b | b in reports :: ValidReport(b.report))
            && Distinct(Map(BoundPlatform, reports))
            && Agree(reports, g.fence, g.topology)
            && PassedOn(reports, "darwin") && PassedOn(reports, "linux")
  {
    hide ValidReport, Consensus, Agree, Distinct, Map, AllPass, GenuineGatesPassed;
    assert REQUIRED_PLATFORMS[0] in REQUIRED_PLATFORMS && REQUIRED_PLATFORMS[1] in REQUIRED_PLATFORMS;
    if forall b | b in reports :: ValidReport(b.report) {
      CoveredMeans(reports, "darwin");
      CoveredMeans(reports, "linux");
      hide Covered;
      if reports != [] && g.fence != "" && g.fence != "unqualified" {
        if g.topology != "unqualified" {
          ConsensusAgrees(reports, g.fence, g.topology);
        }
        AgreeNamesATopology(reports, g.fence, g.topology);
      }
      hide ConsensusFence, ConsensusTopology;
    }
  }

  lemma AgreeNamesATopology(reports: seq<Bound>, fence: string, topology: string)
    requires reports != [] && forall b | b in reports :: ValidReport(b.report)
    ensures Agree(reports, fence, topology) ==> topology != "" && topology != "unqualified"
  {
    hide Says, Preferred, Verdict, Distinct;
    var b := reports[0];
    assert b in reports && ValidReport(b.report);
    PreferredMeans(b.report, topology);
  }

  // ------------------------------------------------- what a verified gate is bound to

  /** What a binding, or a report, says of a platform. */
  type Identity = (string, string, string, Status, string, string, string)

  function BindingIdentity(b: Binding): Identity {
    (b.goos + "/" + b.goarch, b.digest, b.path, b.verdict, b.tmuxPath, b.tmuxVersion, b.tmuxDigest)
  }

  function BoundIdentity(b: Bound): Identity {
    var r := b.report;
    (r.goos + "/" + r.goarch, b.digest, b.path, r.verdict, r.tmuxPath, r.tmuxVersion, r.tmuxDigest)
  }

  function PlatformOf(i: Identity): string { i.0 }

  ghost predicate ConstantsHold(g: Gate) {
    && g.schema == 2 && g.kind == "provider_qualification" && g.specCommit == SPEC_COMMIT
    && g.platforms == ["darwin", "linux"] && g.probeIds == RequiredProbeIds()
    && g.genuineIds == ["P3", "P4", "P5", "P6", "P14", "P15"]
  }

  ghost predicate ReportsHold(reports: seq<Bound>) {
    forall b | b in reports ::
      && ValidReport(b.report)
      && |b.digest| == 64 && forall c | c in b.digest :: '0' <= c <= '9' || 'a' <= c <= 'f' || 'A' <= c <= 'F'
  }

  lemma KeysOfIdentities(bindings: seq<Binding>, reports: seq<Bound>)
    ensures Map(PlatformOf, Map(BindingIdentity, bindings)) == Map(BindingKey, bindings)
    ensures Map(PlatformOf, Map(BoundIdentity, reports)) == Map(BoundKey, reports)
  {
  }

  lemma DistinctKeysDistinctIdentities(ids: seq<Identity>)
    requires Distinct(Map(PlatformOf, ids))
    ensures Distinct(ids)
  {
    forall i, j | 0 <= i < j < |ids|
      ensures ids[i] != ids[j]
    {
      assert Map(PlatformOf, ids)[i] != Map(PlatformOf, ids)[j];
    }
  }

  lemma BoundInMeans(b: Bound, bindings: seq<Binding>)
    ensures (exists x | x in bindings :: BindingKey(x) == BoundKey(b) && SameIdentity(x, b)) <==>
            BoundIdentity(b) in Map(BindingIdentity, bindings)
  {
    var ids := Map(BindingIdentity, bindings);
    if x :| x in bindings && BindingKey(x) == BoundKey(b) && SameIdentity(x, b) {
      var i :| 0 <= i < |bindings| && bindings[i] == x;
      assert ids[i] == BoundIdentity(b);
    }
    if BoundIdentity(b) in ids {
      var i :| 0 <= i < |ids| && ids[i] == BoundIdentity(b);
      assert bindings[i] in bindings && BindingKey(bindings[i]) == BoundKey(b) && SameIdentity(bindings[i], b);
    }
  }

  lemma ReportsBound(bindings: seq<Binding>, reports: seq<Bound>)
    ensures (forall b | b in reports :: BoundIn(b, bindings)) <==>
            ReportsHold(reports) &&
              forall i | i in Map(BoundIdentity, reports) :: i in Map(BindingIdentity, bindings)
  {
    forall b | b in reports
      ensures BoundIn(b, bindings) <==>
              ReportsHold([b]) && BoundIdentity(b) in Map(BindingIdentity, bindings)
    {
      BoundInMeans(b, bindings);
      OneReportHolds(b);
      hide ValidReport, HexDigest, ReportsHold, SameIdentity, BindingKey, BindingIdentity, BoundIdentity;
    }
    hide BoundIn, BoundIdentity, BindingIdentity, ValidReport;
    var ids := Map(BoundIdentity, reports);
    forall b | b in reports
      ensures BoundIdentity(b) in ids
    {
      var k :| 0 <= k < |reports| && reports[k] == b;
      assert ids[k] == BoundIdentity(b);
    }
    assert ReportsHold(reports) <==> forall b | b in reports :: ReportsHold([b]) by { EachReportHolds(reports); }
    hide ReportsHold;
  }

  lemma OneReportHolds(b: Bound)
    ensures ReportsHold([b]) <==> ValidReport(b.report) && HexDigest(b.digest)
  {
    hide ValidReport;
    assert b in [b];
    assert forall i | 0 <= i < |b.digest| :: b.digest[i] in b.digest;
  }

  lemma EachReportHolds(reports: seq<Bound>)
    ensures ReportsHold(reports) <==> forall b | b in reports :: ReportsHold([b])
  {
    hide ValidReport;
    forall b: Bound
      ensures b in [b]
    {
    }
  }

  lemma InSet<T>(s: seq<T>)
    ensures forall x | x in s :: x in multiset(s)
  {
  }

  /** Two lists of the same length without repetitions, one inside the other, are rearrangements. */
  lemma ContainedIsPermutation<T(!new)>(a: seq<T>, b: seq<T>)
    requires Distinct(a) && Distinct(b) && |a| == |b| && forall x | x in a :: x in b
    ensures multiset(a) == multiset(b)
  {
    DistinctIsSet(a);
    DistinctIsSet(b);
    SubsetOfEqualSize(set x | x in a, set x | x in b);
  }

  /** Where the keys of the reports are distinct, as many bindings with distinct keys that contain all the
      reports' identities are just those. */
  lemma BindingsMatch(bindings: seq<Identity>, bound: seq<Identity>)
    requires Distinct(Map(PlatformOf, bound))
    ensures |bindings| == |bound| && Distinct(Map(PlatformOf, bindings)) && (forall i | i in bound :: i in bindings)
            <==> multiset(bindings) == multiset(bound)
  {
    DistinctKeysDistinctIdentities(bound);
    if Distinct(Map(PlatformOf, bindings)) && |bindings| == |bound| && forall i | i in bound :: i in bindings {
      DistinctKeysDistinctIdentities(bindings);
      ContainedIsPermutation(bound, bindings);
    }
    if multiset(bindings) == multiset(bound) {
      assert |bindings| == |multiset(bindings)| == |multiset(bound)| == |bound|;
      MapPermutes(PlatformOf, bindings, bound);
      PermutedIsDistinct(Map(PlatformOf, bound), Map(PlatformOf, bindings));
      InSet(bound);
      assert forall i | i in bound :: i in multiset(bindings);
    }
  }

  /** For reports of distinct platform keys a gate verifies exactly when its constants are right, the reports
      are valid with proper digests, its bindings are theirs in some order, and its entries and its permission
      are those derived from them. */
  lemma VerifiesExactlyWhen(g: Gate, reports: seq<Bound>, sortH1: Sorter<Qualification>)
    requires Distinct(Map(BoundKey, reports))
    ensures Verifies(g, reports, sortH1) <==>
            && ConstantsHold(g) && ReportsHold(reports)
            && multiset(Map(BindingIdentity, g.bindings)) == multiset(Map(BoundIdentity, reports))
            && g.platformH1 == sortH1(Map(QualifyBound, reports))
            && g.h1Allowed == H1Allowed(g, reports)
  {
    KeysOfIdentities(g.bindings, reports);
    BindingsMatch(Map(BindingIdentity, g.bindings), Map(BoundIdentity, reports));
    ReportsBound(g.bindings, reports);
    hide H1Allowed, RequiredProbeIds, BoundIn, ReportsHold, BindingIdentity, BoundIdentity, BindingKey, BoundKey;
    hide Distinct, QualifyBound, PlatformOf;
  }

  /** Every binding of a verified gate is backed by a report exactly when the reports' platform keys are
      distinct: the check counts bindings and looks each report up, so a report given twice leaves one free. */
  lemma BackedExactlyWhen(g: Gate, reports: seq<Bound>, sortH1: Sorter<Qualification>)
    requires Verifies(g, reports, sortH1)
    ensures (forall x | x in Map(BindingIdentity, g.bindings) :: x in Map(BoundIdentity, reports)) <==>
            Distinct(Map(BoundKey, reports))
  {
    var bindings, bound := Map(BindingIdentity, g.bindings), Map(BoundIdentity, reports);
    KeysOfIdentities(g.bindings, reports);
    hide H1Allowed, RequiredProbeIds, BoundIn, BindingIdentity, BoundIdentity, BindingKey, BoundKey;
    if Distinct(Map(BoundKey, reports)) {
      VerifiesExactlyWhen(g, reports, sortH1);
      forall x | x in bindings
        ensures x in bound
      {
        InPermutation(bindings, bound, x);
      }
    }
    if forall x | x in bindings :: x in bound {
      DistinctKeysDistinctIdentities(bindings);
      CoveringIsDistinct(bindings, bound);
      ContainedIsPermutation(bindings, bound);
      MapPermutes(PlatformOf, bindings, bound);
      PermutedIsDistinct(Map(PlatformOf, bindings), Map(PlatformOf, bound));
    }
  }

  /** A list that contains as many different elements as it is long has no repetitions. */
  lemma CoveringIsDistinct<T(!new)>(a: seq<T>, b: seq<T>)
    requires Distinct(a) && |a| == |b| && forall x | x in a :: x in b
    ensures Distinct(b)
  {
    if i, j :| 0 <= i < j < |b| && b[i] == b[j] {
      var shorter := Without(b, j);
      DistinctIsSet(a);
      forall x | x in a
        ensures x in shorter
      {
        var k :| 0 <= k < |b| && b[k] == x;
        assert shorter[if k == j then i else if k < j then k else k - 1] == x;
      }
      SetOfSequence(shorter);
      SubsetIsSmaller(set x | x in a, set x | x in shorter);
    }
  }

  lemma {:induction false} SetOfSequence<T(!new)>(s: seq<T>)
    ensures |set x | x in s| <= |s|
    decreases |s|
  {
    if s != [] {
      var front, last := s[..|s| - 1], s[|s| - 1];
      assert s == front + [last];
      SetOfSequence(front);
      assert (set x | x in s) == (set x | x in front) + {last};
    }
  }

  lemma SubsetIsSmaller<T>(a: set<T>, b: set<T>)
    requires a <= b
    ensures |a| <= |b|
  {
    assert b == a + (b - a);
  }

  /** Such a gate: any one report given twice, its own binding and any other one. */
  lemma UnbackedBindingVerifies(b: Bound, other: Binding, sortBindings: Sorter<Binding>, sortH1: Sorter<Qualification>)
    requires ValidReport(b.report) && HexDigest(b.digest) && BindingKey(other) != BoundKey(b)
    ensures var g := GateFromReports([b, b], sortBindings, sortH1).(bindings := [Bind(b), other]);
            Verifies(g, [b, b], sortH1) && BindingIdentity(other) !in Map(BoundIdentity, [b, b])
  {
    var d, bindings := GateFromReports([b, b], sortBindings, sortH1), [Bind(b), other];
    OwnAndOther(b, other);
    H1IgnoresItself(d, [b, b]);
    H1IgnoresBindings(d, bindings, [b, b]);
    hide H1Allowed, ConsensusFence, ConsensusTopology, PlatformH1, RequiredProbeIds, BoundIn, BindingKey, BoundKey;
    hide Bind, BindingIdentity, BoundIdentity, Map, Distinct, ValidReport, HexDigest;
    assert forall x | x in [b, b] :: x == b;
  }

  lemma OwnAndOther(b: Bound, other: Binding)
    requires ValidReport(b.report) && HexDigest(b.digest) && BindingKey(other) != BoundKey(b)
    ensures var bindings := [Bind(b), other];
            && Distinct(Map(BindingKey, bindings)) && BoundIn(b, bindings)
            && BindingIdentity(other) !in Map(BoundIdentity, [b, b])
  {
    hide ValidReport, HexDigest;
    var bindings := [Bind(b), other];
    assert Map(BindingKey, bindings) == [BoundKey(b), BindingKey(other)];
    assert Map(BoundIdentity, [b, b]) == [BoundIdentity(b), BoundIdentity(b)];
    assert bindings[0] == Bind(b) && BindingKey(Bind(b)) == BoundKey(b) && SameIdentity(Bind(b), b);
  }

  lemma H1IgnoresBindings(g: Gate, bindings: seq<Binding>, reports: seq<Bound>)
    ensures H1Allowed(g.(bindings := bindings), reports) == H1Allowed(g, reports)
  {
  }

  /** For reports of distinct platforms the check of one platform passes exactly when the gate verifies and
      that platform's report passed and proves a fence and a topology; the gate's own permission, which needs
      every required platform, is not asked for. */
  lemma PlatformCheckExactlyWhen(g: Gate, reports: seq<Bound>, platform: string, sortH1: Sorter<Qualification>)
    requires Sorts(sortH1, QualificationLess) && Distinct(Map(BoundPlatform, reports))
    ensures H1Verified(g, reports, platform, sortH1) <==>
            && Verifies(g, reports, sortH1)
            && exists b | b in reports :: b.report.goos == platform && Proven(b.report)
  {
    var mapped := Map(QualifyBound, reports);
    hide Qualify, Verifies, Qualifies, Sorts;
    assert multiset(sortH1(mapped)) == multiset(mapped) by { SortsOne(sortH1, mapped); }
    if Verifies(g, reports, sortH1) {
      EntriesAreDerived(g, reports, sortH1);
      hide PlatformH1;
      if H1Verified(g, reports, platform, sortH1) {
        var q := QualificationFor(g.platformH1, platform).value;
        InPermutation(g.platformH1, mapped, q);
        var i :| 0 <= i < |mapped| && mapped[i] == q;
        AllowedIsProven(reports[i].report);
        QualifyKeepsPlatform(reports[i].report);
        assert reports[i] in reports;
      }
      if b :| b in reports && b.report.goos == platform && Proven(b.report) {
        AllowedIsProven(b.report);
        QualifyKeepsPlatform(b.report);
        var i :| 0 <= i < |reports| && reports[i] == b;
        assert mapped[i] == Qualify(b.report) && mapped[i] in mapped;
        InPermutation(mapped, g.platformH1, mapped[i]);
        var q := QualificationFor(g.platformH1, platform);
        InPermutation(g.platformH1, mapped, q.value);
        OneEntryPerPlatform(reports, q.value, mapped[i]);
      }
    }
  }

  ghost predicate Proven(r: Report) { exists fence, topology :: Qualifies(r, fence, topology) }

  lemma SortsOne<T(!new)>(sort: Sorter<T>, s: seq<T>)
    requires exists less :: Sorts(sort, less)
    ensures multiset(sort(s)) == multiset(s)
  {
  }

  lemma EntriesAreDerived(g: Gate, reports: seq<Bound>, sortH1: Sorter<Qualification>)
    requires Verifies(g, reports, sortH1)
    ensures g.platformH1 == sortH1(Map(QualifyBound, reports))
  {
  }

  lemma AllowedIsProven(r: Report)
    ensures Qualify(r).allowed <==> Proven(r)
  {
    var q := Qualify(r);
    QualifyExactlyWhen(r, q.fence, q.topology);
    hide Qualifies;
    if fence, topology :| Qualifies(r, fence, topology) {
      QualifyExactlyWhen(r, fence, topology);
    }
  }

  lemma OneEntryPerPlatform(reports: seq<Bound>, p: Qualification, q: Qualification)
    requires Distinct(Map(BoundPlatform, reports)) && p.goos == q.goos
    requires p in Map(QualifyBound, reports) && q in Map(QualifyBound, reports)
    ensures p == q
  {
    var mapped := Map(QualifyBound, reports);
    var i :| 0 <= i < |mapped| && mapped[i] == p;
    var j :| 0 <= j < |mapped| && mapped[j] == q;
    hide Qualify, Distinct, Map;
    QualifyKeepsPlatform(reports[i].report);
    QualifyKeepsPlatform(reports[j].report);
    OneReportPerPlatform(reports, i, j);
  }

  lemma OneReportPerPlatform(reports: seq<Bound>, i: nat, j: nat)
    requires Distinct(Map(BoundPlatform, reports)) && i < |reports| && j < |reports|
    requires reports[i].report.goos == reports[j].report.goos
    ensures i == j
  {
    var platforms := Map(BoundPlatform, reports);
    assert platforms[i] == platforms[j];
  }

  lemma QualifyKeepsPlatform(r: Report)
    ensures Qualify(r).goos == r.goos
  {
    hide ValidReport, GenuineGatesPassed, QualifiedTopology, FenceOf;
  }

  ghost predicate Ready(reports: seq<Bound>) {
    && (forall b | b in reports :: ValidReport(b.report)) && Distinct(Map(BoundPlatform, reports))
    && PassedOn(reports, "darwin") && PassedOn(reports, "linux")
  }

  /** The derived gate permits the provider exactly when valid reports of distinct platforms, passed on darwin
      and on linux, agree on a fence and a topology, and those are the ones it names. */
  lemma DerivedGatePermits(reports: seq<Bound>, sortBindings: Sorter<Binding>, sortH1: Sorter<Qualification>,
                           fence: string, topology: string)
    ensures var g := GateFromReports(reports, sortBindings, sortH1);
            && (g.h1Allowed && g.fence == fence && g.topology == topology <==>
                  Ready(reports) && fence != "" && fence != "unqualified" && Agree(reports, fence, topology))
            && (g.h1Allowed ==> Agree(reports, g.fence, g.topology))
  {
    var g := GateFromReports(reports, sortBindings, sortH1);
    H1IgnoresItself(g, reports);
    PermittedExactlyWhen(g, reports);
    hide H1Allowed, ValidReport, Consensus, Agree, Distinct, Map, AllPass, PlatformH1, RequiredProbeIds;
    if Ready(reports) && fence != "" && fence != "unqualified" && Agree(reports, fence, topology) {
      assert reports != [];
      AgreeNamesATopology(reports, fence, topology);
      ConsensusAgrees(reports, fence, topology);
      hide ConsensusFence, ConsensusTopology;
    }
  }
}
