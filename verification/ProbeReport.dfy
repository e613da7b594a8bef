/**
 Probe reports of the provider qualification (tools/interactive-handoff-h0/report.go): sixteen probes, the
 verdict over them and the validity of a report.
 */
module ProbeReport {
  import opened Prelude
  import opened Text
  import opened Sequences

  // --------------------------------------------------------------------- types

  type Status = string

  const PASS: Status := "PASS"
  const FAIL: Status := "FAIL"
  const NOT_RUN: Status := "NOT_RUN"

  const REPORT_SCHEMA := 1

  datatype Probe = Probe(id: string, status: Status, summary: string, facts: map<string, string>)

  datatype Report = Report(schema: int, gitHead: string, goos: string, goarch: string, goVersion: string,
                           tmuxPath: string, tmuxVersion: string, tmuxDigest: string, results: seq<Probe>,
                           verdict: Status)

  // ------------------------------------------------------------------ probe ids

  function ProbeId(n: nat): string { "P" + Decimal(n) }

  function RequiredProbeIds(): seq<string> { seq(16, i => if i >= 0 then ProbeId(i) else "") }

  function ProbeNumber(id: string): Option<nat> {
    if |id| < 2 || id[0] != 'P' then None
    else
      var n := ParseInt64(id[1..]);
      if n.None? || n.value < 0 || n.value > 15 || ProbeId(n.value) != id then None else Some(n.value)
  }

  /** Known ids are exactly P0 to P15, in their one spelling. */
  lemma KnownProbes(id: string)
    ensures ProbeNumber(id).Some? <==> id in RequiredProbeIds()
    ensures ProbeNumber(id).Some? ==> ProbeNumber(id).value <= 15 && RequiredProbeIds()[ProbeNumber(id).value] == id
  {
    var n := ProbeNumber(id);
    if n.Some? {
      assert RequiredProbeIds()[n.value] == id;
    }
    if id in RequiredProbeIds() {
      var m :| 0 <= m < 16 && RequiredProbeIds()[m] == id;
      ParseDecimal(m);
      assert id[1..] == Decimal(m);
      hide Decimal, ParseInt64;
    }
  }

  lemma ProbeIdsDiffer(m: nat, n: nat)
    requires ProbeId(m) == ProbeId(n)
    ensures m == n
  {
    assert ProbeId(m)[1..] == Decimal(m) && ProbeId(n)[1..] == Decimal(n);
    DecimalRoundTrip(m);
    DecimalRoundTrip(n);
  }

  // -------------------------------------------------------------------- verdict

  predicate ValidStatus(s: Status) { s == PASS || s == FAIL || s == NOT_RUN }

  function Ids(results: seq<Probe>): seq<string> { seq(|results|, i requires 0 <= i < |results| => results[i].id) }

  /** A known probe that did not fail. */
  predicate Acceptable(p: Probe) { ProbeNumber(p.id).Some? && (p.status == PASS || p.status == NOT_RUN) }

  predicate Clean(results: seq<Probe>) {
    (forall i | 0 <= i < |results| :: Acceptable(results[i])) && Distinct(Ids(results))
  }

  predicate Skipped(results: seq<Probe>) { exists i | 0 <= i < |results| :: results[i].status == NOT_RUN }

  /** What the verdict says of sixteen results. */
  function Verdict(results: seq<Probe>): Status {
    if |results| != 16 then NOT_RUN
    else if !Clean(results) then FAIL
    else if Skipped(results) then NOT_RUN
    else PASS
  }

  lemma IdsSnoc(results: seq<Probe>, i: nat)
    requires i < |results|
    ensures Ids(results[..i + 1]) == Ids(results[..i]) + [results[i].id]
    ensures Distinct(Ids(results[..i + 1])) <==> Distinct(Ids(results[..i])) && results[i].id !in Ids(results[..i])
  {
    var a, b := Ids(results[..i]), Ids(results[..i + 1]);
    assert b == a + [results[i].id];
    if Distinct(b) {
      forall j | 0 <= j < i
        ensures a[j] != results[i].id && forall k | j < k < i :: a[j] != a[k]
      {
        assert b[j] == a[j] && b[j] != b[i];
        assert forall k | j < k < i :: b[j] != b[k] && b[k] == a[k];
      }
    }
  }

  lemma CleanSnoc(results: seq<Probe>, i: nat)
    requires i < |results|
    ensures Clean(results[..i + 1]) <==>
            Clean(results[..i]) && Acceptable(results[i]) && results[i].id !in Ids(results[..i])
    ensures Skipped(results[..i + 1]) <==> Skipped(results[..i]) || results[i].status == NOT_RUN
    ensures Ids(results[..i + 1]) == Ids(results[..i]) + [results[i].id]
  {
    hide Acceptable, Distinct;
    IdsSnoc(results, i);
    var a, b := results[..i], results[..i + 1];
    assert b == a + [results[i]];
    assert forall j | 0 <= j < i :: a[j] == b[j];
    assert b[i] == results[i];
  }

  lemma {:induction false} PrefixOfClean(results: seq<Probe>, i: nat)
    requires i <= |results| && Clean(results)
    ensures Clean(results[..i])
    decreases |results| - i
  {
    hide Clean;
    if i < |results| {
      PrefixOfClean(results, i + 1);
      CleanSnoc(results, i);
    } else {
      assert results[..i] == results;
    }
  }

  method ComputeVerdict(results: seq<Probe>) returns (verdict: Status)
    ensures verdict == Verdict(results)
  {
    hide ProbeNumber, Clean, Skipped;
    if |results| != 16 {
      return NOT_RUN;
    }
    var seen: set<string>, anyNotRun := {}, false;
    assert Clean(results[..0]) && !Skipped(results[..0]) by { EmptyIsClean(results[..0]); }
    for i := 0 to |results|
      invariant Clean(results[..i]) && (anyNotRun <==> Skipped(results[..i]))
      invariant forall id :: id in seen <==> id in Ids(results[..i])
    {
      CleanSnoc(results, i);
      if Clean(results) {
        PrefixOfClean(results, i + 1);
      }
      var p := results[i];
      if ProbeNumber(p.id).None? || p.id in seen {
        return FAIL;
      }
      seen := seen + {p.id};
      if p.status == FAIL {
        return FAIL;
      }
      if p.status == NOT_RUN {
        anyNotRun := true;
      }
      if !ValidStatus(p.status) {
        return FAIL;
      }
    }
    assert results[..|results|] == results;
    if anyNotRun {
      return NOT_RUN;
    }
    return PASS;
  }

  lemma EmptyIsClean(results: seq<Probe>)
    requires results == []
    ensures Clean(results) && !Skipped(results) && Ids(results) == []
  {
  }

  // ----------------------------------------------------------------- pigeonhole

  /** Sixteen distinct known ids are all of them. */
  lemma Pigeonhole(ids: seq<string>)
    requires |ids| == 16 && Distinct(ids) && forall id | id in ids :: ProbeNumber(id).Some?
    ensures multiset(ids) == multiset(RequiredProbeIds())
  {
    var required := RequiredProbeIds();
    hide ProbeNumber;
    forall i, j | 0 <= i < j < 16
      ensures required[i] != required[j]
    {
      if required[i] == required[j] {
        ProbeIdsDiffer(i, j);
      }
    }
    hide RequiredProbeIds, ProbeId;
    DistinctIsSet(ids);
    DistinctIsSet(required);
    var a, b := set x | x in ids, set x | x in required;
    forall id | id in a
      ensures id in b
    {
      KnownProbes(id);
    }
    SubsetOfEqualSize(a, b);
  }

  predicate AllPass(results: seq<Probe>) { forall i | 0 <= i < |results| :: results[i].status == PASS }

  /** The verdict is PASS exactly when the results are a permutation of P0 to P15, all passing. */
  lemma PassExactlyWhen(results: seq<Probe>)
    ensures Verdict(results) == PASS <==> multiset(Ids(results)) == multiset(RequiredProbeIds()) && AllPass(results)
  {
    if Verdict(results) == PASS {
      forall id | id in Ids(results)
        ensures ProbeNumber(id).Some?
      {
        var i :| 0 <= i < |results| && Ids(results)[i] == id;
        assert Acceptable(results[i]);
      }
      Pigeonhole(Ids(results));
    }
    if multiset(Ids(results)) == multiset(RequiredProbeIds()) && AllPass(results) {
      PermutationIsClean(results);
    }
  }

  lemma RequiredAreDistinct()
    ensures Distinct(RequiredProbeIds()) && |RequiredProbeIds()| == 16
  {
    forall i, j | 0 <= i < j < 16
      ensures RequiredProbeIds()[i] != RequiredProbeIds()[j]
    {
      if RequiredProbeIds()[i] == RequiredProbeIds()[j] {
        ProbeIdsDiffer(i, j);
      }
    }
  }

  lemma PermutationIsClean(results: seq<Probe>)
    requires multiset(Ids(results)) == multiset(RequiredProbeIds()) && AllPass(results)
    ensures |results| == 16 && Clean(results) && !Skipped(results)
  {
    RequiredAreDistinct();
    PermutedIsDistinct(RequiredProbeIds(), Ids(results));
    hide ProbeNumber, RequiredProbeIds;
    assert |Ids(results)| == |multiset(Ids(results))| == |multiset(RequiredProbeIds())| == 16;
    forall i | 0 <= i < |results|
      ensures Acceptable(results[i])
    {
      assert Ids(results)[i] in multiset(Ids(results));
      KnownProbes(results[i].id);
    }
  }

  // --------------------------------------------------------------------- report

  /** Known probes with known statuses, each once. */
  predicate Listed(results: seq<Probe>) {
    (forall i | 0 <= i < |results| :: Known(results[i])) && Distinct(Ids(results))
  }

  predicate Known(p: Probe) { ProbeNumber(p.id).Some? && ValidStatus(p.status) }

  predicate ValidReport(r: Report) {
    r.schema == REPORT_SCHEMA && |r.results| == 16 && Listed(r.results) && r.verdict == Verdict(r.results)
  }

  lemma ListedSnoc(results: seq<Probe>, i: nat)
    requires i < |results|
    ensures Listed(results[..i + 1]) <==>
            Listed(results[..i]) && Known(results[i]) && results[i].id !in Ids(results[..i])
    ensures Ids(results[..i + 1]) == Ids(results[..i]) + [results[i].id]
  {
    hide Known, Distinct;
    IdsSnoc(results, i);
    var a, b := results[..i], results[..i + 1];
    assert b == a + [results[i]];
    assert forall j | 0 <= j < i :: a[j] == b[j];
    assert b[i] == results[i];
  }

  lemma {:induction false} PrefixOfListed(results: seq<Probe>, i: nat)
    requires i <= |results| && Listed(results)
    ensures Listed(results[..i])
    decreases |results| - i
  {
    hide Listed;
    if i < |results| {
      PrefixOfListed(results, i + 1);
      ListedSnoc(results, i);
    } else {
      assert results[..i] == results;
    }
  }

  /** report.go `validateReport`. The check for missing probes cannot fail once the others passed. */
  method ValidateReport(r: Report) returns (ok: bool)
    ensures ok <==> ValidReport(r)
  {
    hide ProbeNumber, Verdict, RequiredProbeIds, Listed;
    if r.schema != REPORT_SCHEMA || |r.results| != 16 {
      return false;
    }
    var seen: set<string> := {};
    assert Listed(r.results[..0]) by { NoneIsListed(r.results[..0]); }
    for i := 0 to 16
      invariant Listed(r.results[..i])
      invariant forall id :: id in seen <==> id in Ids(r.results[..i])
    {
      ListedSnoc(r.results, i);
      if Listed(r.results) {
        PrefixOfListed(r.results, i + 1);
      }
      var p := r.results[i];
      if ProbeNumber(p.id).None? || p.id in seen {
        return false;
      }
      seen := seen + {p.id};
      if !ValidStatus(p.status) {
        return false;
      }
    }
    assert r.results[..16] == r.results;
    NothingMissing(r.results);
    var required := RequiredProbeIds();
    for i := 0 to |required|
    {
      if required[i] !in seen {
        return false;
      }
    }
    var want := ComputeVerdict(r.results);
    return r.verdict == want;
  }

  lemma NoneIsListed(results: seq<Probe>)
    requires results == []
    ensures Listed(results) && Ids(results) == []
  {
  }

  lemma NothingMissing(results: seq<Probe>)
    requires |results| == 16 && Listed(results)
    ensures forall id | id in RequiredProbeIds() :: id in Ids(results)
  {
    hide ProbeNumber, RequiredProbeIds;
    forall id | id in Ids(results)
      ensures ProbeNumber(id).Some?
    {
      var i :| 0 <= i < 16 && Ids(results)[i] == id;
      assert Known(results[i]);
    }
    Pigeonhole(Ids(results));
    forall id | id in RequiredProbeIds()
      ensures id in Ids(results)
    {
      assert id in multiset(RequiredProbeIds());
      assert id in multiset(Ids(results));
    }
  }

  /** Every required probe is listed once and has a status. */
  ghost predicate Complete(results: seq<Probe>) {
    && multiset(Ids(results)) == multiset(RequiredProbeIds())
    && forall i | 0 <= i < |results| :: results[i].status in {"PASS", "FAIL", "NOT_RUN"}
  }

  ghost predicate Has(results: seq<Probe>, status: string) {
    exists i | 0 <= i < |results| :: results[i].status == status
  }

  lemma ListedExactlyWhen(results: seq<Probe>)
    ensures |results| == 16 && Listed(results) <==> Complete(results)
  {
    if |results| == 16 && Listed(results) {
      hide ProbeNumber, RequiredProbeIds;
      forall id | id in Ids(results)
        ensures ProbeNumber(id).Some?
      {
        var i :| 0 <= i < 16 && Ids(results)[i] == id;
        assert Known(results[i]);
      }
      Pigeonhole(Ids(results));
      forall i | 0 <= i < |results|
        ensures results[i].status in {"PASS", "FAIL", "NOT_RUN"}
      {
        assert Known(results[i]);
      }
    }
    if Complete(results) {
      RequiredAreDistinct();
      PermutedIsDistinct(RequiredProbeIds(), Ids(results));
      hide ProbeNumber, RequiredProbeIds;
      assert |Ids(results)| == |multiset(Ids(results))| == |multiset(RequiredProbeIds())| == 16;
      forall i | 0 <= i < |results|
        ensures Known(results[i])
      {
        assert Ids(results)[i] in multiset(Ids(results));
        KnownProbes(results[i].id);
      }
    }
  }

  /** A report is valid exactly when it lists P0 to P15, each once and with a status, and its verdict is that
      one failed, or else that one was not run, or else that all passed. */
  lemma ValidExactlyWhen(r: Report)
    ensures ValidReport(r) <==>
            && r.schema == 1 && Complete(r.results)
            && r.verdict == if Has(r.results, "FAIL") then "FAIL"
                            else if Has(r.results, "NOT_RUN") then "NOT_RUN" else "PASS"
  {
    ListedExactlyWhen(r.results);
    hide ProbeNumber, RequiredProbeIds;
    if |r.results| == 16 && Listed(r.results) {
      assert forall i | 0 <= i < 16 :: Known(r.results[i]);
      if Has(r.results, "FAIL") {
        var i :| 0 <= i < 16 && r.results[i].status == "FAIL";
        assert !Acceptable(r.results[i]);
      }
    }
  }

  /** The verdict of any list of results: not run without sixteen of them, and of sixteen exactly when each
      required probe is there, none failed and one was not run. */
  lemma NotRunExactlyWhen(results: seq<Probe>)
    ensures Verdict(results) == "NOT_RUN" <==>
            |results| != 16 || (Complete(results) && !Has(results, "FAIL") && Has(results, "NOT_RUN"))
    ensures Verdict(results) in {"PASS", "FAIL", "NOT_RUN"}
  {
    ListedExactlyWhen(results);
    hide ProbeNumber, RequiredProbeIds, Complete;
    if |results| == 16 && Clean(results) {
      assert forall i | 0 <= i < 16 :: Acceptable(results[i]);
    }
    if |results| == 16 && Listed(results) {
      assert forall i | 0 <= i < 16 :: Known(results[i]);
    }
  }
}
