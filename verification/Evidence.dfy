/** The evidence bundle: one canonical order for findings that arrive in whatever order children are listed. */
module Evidence {
  import opened Wrappers
  import opened Crds
  import opened StableOrder
  import opened Encodings

  // ---- The order of the sort keys ----

  predicate TextLeq(a: string, b: string) {
    a == [] || (b != [] && (a[0] < b[0] || (a[0] == b[0] && TextLeq(a[1..], b[1..]))))
  }

  lemma {:induction false} TextLeqIsTotal(a: string, b: string)
    ensures TextLeq(a, b) || TextLeq(b, a)
    ensures TextLeq(a, b) && TextLeq(b, a) ==> a == b
  {
    if a != [] && b != [] && a[0] == b[0] {
      TextLeqIsTotal(a[1..], b[1..]);
      assert a == [a[0]] + a[1..] && b == [b[0]] + b[1..];
    }
  }

  lemma {:induction false} TextLeqIsTransitive(a: string, b: string, c: string)
    requires TextLeq(a, b) && TextLeq(b, c)
    ensures TextLeq(a, c)
  {
    if a != [] && a[0] == b[0] == c[0] {
      TextLeqIsTransitive(a[1..], b[1..], c[1..]);
    }
  }

  // An absent id sorts before every present one
  predicate CveLeq(a: Option<string>, b: Option<string>) {
    a.None? || (b.Some? && TextLeq(a.value, b.value))
  }

  lemma CveLeqIsTotal(a: Option<string>, b: Option<string>)
    ensures CveLeq(a, b) || CveLeq(b, a)
    ensures CveLeq(a, b) && CveLeq(b, a) ==> a == b
  {
    if a.Some? && b.Some? { TextLeqIsTotal(a.value, b.value); }
  }

  lemma CveLeqIsTransitive(a: Option<string>, b: Option<string>, c: Option<string>)
    requires CveLeq(a, b) && CveLeq(b, c)
    ensures CveLeq(a, c)
  {
    if a.Some? && b.Some? && c.Some? { TextLeqIsTransitive(a.value, b.value, c.value); }
  }

  // (scanner, cve_id, first_seen)
  predicate FindingLeq(a: Finding, b: Finding) {
    if a.scanner != b.scanner then ScannerRank(a.scanner) <= ScannerRank(b.scanner)
    else if a.cveId != b.cveId then CveLeq(a.cveId, b.cveId)
    else a.firstSeen <= b.firstSeen
  }

  lemma ScannerRankIsInjective(s: Scanner, t: Scanner)
    ensures ScannerRank(s) == ScannerRank(t) ==> s == t
  {
  }

  lemma FindingLeqIsPreorder()
    ensures TotalPreorder(FindingLeq)
  {
    forall a, b ensures FindingLeq(a, b) || FindingLeq(b, a) {
      CveLeqIsTotal(a.cveId, b.cveId);
    }
    forall a, b, c | FindingLeq(a, b) && FindingLeq(b, c) ensures FindingLeq(a, c) {
      ScannerRankIsInjective(a.scanner, b.scanner);
      ScannerRankIsInjective(b.scanner, c.scanner);
      CveLeqIsTotal(a.cveId, b.cveId);
      CveLeqIsTotal(b.cveId, c.cveId);
      if CveLeq(a.cveId, b.cveId) && CveLeq(b.cveId, c.cveId) {
        CveLeqIsTransitive(a.cveId, b.cveId, c.cveId);
      }
    }
  }

  // ---- The union of the children's findings ----

  function Canonical(fs: seq<Finding>): (r: seq<Finding>)
    ensures |r| == |fs|
  {
    StableSort(FindingLeq, fs)
  }

  function AllFindings(children: seq<ScanJob>): seq<Finding> {
    if children == [] then [] else children[0].Findings() + AllFindings(children[1..])
  }

  lemma {:induction false} AllFindingsAppend(children: seq<ScanJob>, c: ScanJob)
    ensures AllFindings(children + [c]) == AllFindings(children) + c.Findings()
  {
    if children == [] {
      assert (children + [c])[1..] == [];
      assert AllFindings([]) == [];
    } else {
      assert (children + [c])[1..] == children[1..] + [c];
      AllFindingsAppend(children[1..], c);
    }
  }

  method CanonicalFindings(children: seq<ScanJob>) returns (all: seq<Finding>)
    ensures all == Canonical(AllFindings(children))
  {
    all := [];
    for i := 0 to |children|
      invariant all == AllFindings(children[..i])
    {
      var fs := children[i].Findings();
      ghost var before := all;
      for j := 0 to |fs|
        invariant all == before + fs[..j]
      {
        all := all + [fs[j]];
      }
      AllFindingsAppend(children[..i], children[i]);
      assert children[..i + 1] == children[..i] + [children[i]];
    }
    assert children[..|children|] == children;
    all := StableSort(FindingLeq, all);
  }

  // ---- The canonical order, in plain words ----

  // Dictionary order: the same text, a proper prefix, or a smaller character at the first difference
  ghost predicate DictionaryLeq(a: string, b: string) {
    || a <= b
    || exists k :: 0 <= k < |a| && k < |b| && a[..k] == b[..k] && a[k] < b[k]
  }

  lemma {:induction false} TextLeqIsDictionaryOrder(a: string, b: string)
    ensures TextLeq(a, b) <==> DictionaryLeq(a, b)
  {
    if a != [] && b != [] {
      TextLeqIsDictionaryOrder(a[1..], b[1..]);
      if a[0] == b[0] {
        assert a == [a[0]] + a[1..] && b == [b[0]] + b[1..];
        if k :| 0 <= k < |a[1..]| && k < |b[1..]| && a[1..][..k] == b[1..][..k] && a[1..][k] < b[1..][k] {
          assert a[..k + 1] == [a[0]] + a[1..][..k] && b[..k + 1] == [b[0]] + b[1..][..k];
          assert a[k + 1] < b[k + 1];
        }
        if k :| 0 <= k < |a| && k < |b| && a[..k] == b[..k] && a[k] < b[k] {
          assert k > 0;
          assert a[1..][..k - 1] == a[..k][1..] && b[1..][..k - 1] == b[..k][1..];
          assert a[1..][k - 1] < b[1..][k - 1];
        }
      } else if DictionaryLeq(a, b) {
        assert !(a <= b);
      } else {
        assert a[..0] == b[..0];
      }
    }
  }

  // The scanners as they are declared
  const DECLARED: seq<Scanner> :=
    [Trivy, Grype, Syft, Trufflehog, Semgrep, KubeLinter, KubeBench, KubeHunter, Polaris, StigCisValidator, Zap,
     Snyk, DockerScout, JfrogXray, Wiz, PrismaCloud, BurpEnterprise, Codeql]

  ghost predicate DeclaredBefore(s: Scanner, t: Scanner) {
    exists i, j :: 0 <= i < j < |DECLARED| && DECLARED[i] == s && DECLARED[j] == t
  }

  // Scanner by scanner as declared; of one scanner those without a CVE id first, then by id as in a dictionary;
  // of one id the older first
  ghost predicate MayPrecede(a: Finding, b: Finding) {
    || DeclaredBefore(a.scanner, b.scanner)
    || (a.scanner == b.scanner && a.cveId.None? && b.cveId.Some?)
    || (a.scanner == b.scanner && a.cveId.Some? && b.cveId.Some? && a.cveId != b.cveId &&
      DictionaryLeq(a.cveId.value, b.cveId.value))
    || (a.scanner == b.scanner && a.cveId == b.cveId && a.firstSeen <= b.firstSeen)
  }

  lemma RankOfDeclared(i: nat)
    requires i < |DECLARED|
    ensures ScannerRank(DECLARED[i]) == i
  {
  }

  lemma DeclaredAtRank(s: Scanner)
    ensures ScannerRank(s) < |DECLARED| && DECLARED[ScannerRank(s)] == s
  {
  }

  lemma RankIsThePlace(s: Scanner, t: Scanner)
    ensures ScannerRank(s) < ScannerRank(t) <==> DeclaredBefore(s, t)
  {
    hide ScannerRank, DECLARED;
    DeclaredAtRank(s);
    DeclaredAtRank(t);
    if ScannerRank(s) < ScannerRank(t) {
      assert DeclaredBefore(s, t);
    } else if DeclaredBefore(s, t) {
      var i, j :| 0 <= i < j < |DECLARED| && DECLARED[i] == s && DECLARED[j] == t;
      RankOfDeclared(i);
      RankOfDeclared(j);
    }
  }

  lemma FindingLeqMeans(a: Finding, b: Finding)
    ensures FindingLeq(a, b) <==> MayPrecede(a, b)
  {
    hide DeclaredBefore, ScannerRank, TextLeq, DictionaryLeq;
    RankIsThePlace(a.scanner, b.scanner);
    ScannerRankIsInjective(a.scanner, b.scanner);
    if a.cveId.Some? && b.cveId.Some? {
      TextLeqIsDictionaryOrder(a.cveId.value, b.cveId.value);
    }
  }

  predicate SameKey(a: Finding, b: Finding) {
    a.scanner == b.scanner && a.cveId == b.cveId && a.firstSeen == b.firstSeen
  }

  lemma TiesHaveTheSameKey(a: Finding, b: Finding)
    ensures Tied(FindingLeq, a, b) <==> Tied(SameKey, a, b)
  {
    ScannerRankIsInjective(a.scanner, b.scanner);
    CveLeqIsTotal(a.cveId, b.cveId);
  }

  // What is hashed: the same findings, each as often as it was reported, in that order; findings of one scanner,
  // id and age stay as they were reported
  lemma CanonicalIsInOrder(fs: seq<Finding>)
    ensures multiset(Canonical(fs)) == multiset(fs)
    ensures forall i, j | 0 <= i < j < |fs| :: MayPrecede(Canonical(fs)[i], Canonical(fs)[j])
    ensures forall f :: TiedWith(SameKey, Canonical(fs), f) == TiedWith(SameKey, fs, f)
  {
    hide FindingLeq, MayPrecede, SameKey;
    FindingLeqIsPreorder();
    StableSortIsStable(FindingLeq, fs);
    StableSortPermutes(FindingLeq, fs);
    var r := Canonical(fs);
    forall i, j | 0 <= i < j < |fs| ensures MayPrecede(r[i], r[j]) {
      FindingLeqMeans(r[i], r[j]);
    }
    forall f ensures TiedWith(SameKey, r, f) == TiedWith(SameKey, fs, f) {
      forall g ensures Tied(FindingLeq, g, f) <==> Tied(SameKey, g, f) { TiesHaveTheSameKey(g, f); }
      SameTies(FindingLeq, SameKey, r, f);
      SameTies(FindingLeq, SameKey, fs, f);
    }
  }

  // Each block carries its own scanner and no two blocks share one
  ghost predicate StampedBlocks(blocks: map<string, seq<Finding>>, scannerOf: map<string, Scanner>) {
    && blocks.Keys <= scannerOf.Keys
    && (forall k, f | k in blocks && f in blocks[k] :: f.scanner == scannerOf[k])
    && (forall k, l | k in blocks && l in blocks && scannerOf[k] == scannerOf[l] :: k == l)
  }

  // The canonical findings do not depend on the order in which the children are listed
  lemma CanonicalIgnoresListing(blocks: map<string, seq<Finding>>, scannerOf: map<string, Scanner>, ks: seq<string>,
    ls: seq<string>)
    requires StampedBlocks(blocks, scannerOf)
    requires Distinct(ks) && Distinct(ls) && forall k :: k in ks <==> k in ls
    ensures Canonical(Concat(blocks, ks)) == Canonical(Concat(blocks, ls))
  {
    FindingLeqIsPreorder();
    StableSortIsStable(FindingLeq, Concat(blocks, ks));
    StableSortIsStable(FindingLeq, Concat(blocks, ls));
    forall k, l, a, b | k in blocks && l in blocks && a in blocks[k] && b in blocks[l] && Tied(FindingLeq, a, b)
      ensures k == l
    {
      ScannerRankIsInjective(a.scanner, b.scanner);
    }
    BlockOrderIsErased(FindingLeq, blocks, ks, ls, Canonical(Concat(blocks, ks)), Canonical(Concat(blocks, ls)));
  }

  // ---- The aggregate job of the work graph ----

  predicate JobFindingLeq(a: JobFinding, b: JobFinding) {
    if a.scanner != b.scanner then TextLeq(a.scanner, b.scanner) else CveLeq(a.cveId, b.cveId)
  }

  lemma JobFindingLeqIsPreorder()
    ensures TotalPreorder(JobFindingLeq)
  {
    forall a, b ensures JobFindingLeq(a, b) || JobFindingLeq(b, a) {
      TextLeqIsTotal(a.scanner, b.scanner);
      CveLeqIsTotal(a.cveId, b.cveId);
    }
    forall a, b, c | JobFindingLeq(a, b) && JobFindingLeq(b, c) ensures JobFindingLeq(a, c) {
      TextLeqIsTotal(a.scanner, b.scanner);
      TextLeqIsTotal(b.scanner, c.scanner);
      if TextLeq(a.scanner, b.scanner) && TextLeq(b.scanner, c.scanner) {
        TextLeqIsTransitive(a.scanner, b.scanner, c.scanner);
      }
      if CveLeq(a.cveId, b.cveId) && CveLeq(b.cveId, c.cveId) {
        CveLeqIsTransitive(a.cveId, b.cveId, c.cveId);
      }
    }
  }

  // By scanner name and then by CVE id, both as in a dictionary, an absent id first
  ghost predicate JobMayPrecede(a: JobFinding, b: JobFinding) {
    || (a.scanner != b.scanner && DictionaryLeq(a.scanner, b.scanner))
    || (a.scanner == b.scanner && a.cveId.None?)
    || (a.scanner == b.scanner && a.cveId.Some? && b.cveId.Some? && DictionaryLeq(a.cveId.value, b.cveId.value))
  }

  lemma JobFindingLeqMeans(a: JobFinding, b: JobFinding)
    ensures JobFindingLeq(a, b) <==> JobMayPrecede(a, b)
  {
    hide TextLeq, DictionaryLeq;
    TextLeqIsDictionaryOrder(a.scanner, b.scanner);
    if a.cveId.Some? && b.cveId.Some? { TextLeqIsDictionaryOrder(a.cveId.value, b.cveId.value); }
  }

  datatype AggregateOutcome = AggregateOutcome(digest: string, totalFindings: nat, scannersReported: nat,
    evidenceHash: string)

  // The outcome when the sink's entries are visited in the order `ids`
  function Aggregated(digest: string, sink: map<string, seq<JobFinding>>, ids: seq<string>,
    blake3: string -> string): AggregateOutcome {
    var findings := StableSort(JobFindingLeq, Concat(sink, ids));
    AggregateOutcome(digest, |findings|, |ids|, blake3(SerdeBytes(findings)))
  }

  lemma {:induction false} ConcatAppend<T>(blocks: map<string, seq<T>>, ks: seq<string>, k: string)
    requires k in blocks
    ensures Concat(blocks, ks + [k]) == Concat(blocks, ks) + blocks[k]
  {
    if ks == [] {
      assert (ks + [k])[1..] == [];
      assert Concat(blocks, []) == [];
    } else {
      assert (ks + [k])[1..] == ks[1..] + [k];
      ConcatAppend(blocks, ks[1..], k);
    }
  }

  // Findings by job id, as the scan jobs record them
  class ScanResultSink {
    var inner: map<string, seq<JobFinding>>

    constructor ()
      ensures inner == map[]
    {
      inner := map[];
    }

    // A job that runs again replaces its own entry and touches no other
    method Record(id: string, findings: seq<JobFinding>)
      modifies this
      ensures inner == old(inner)[id := findings]
    {
      inner := inner[id := findings];
    }
  }

  // The hash map is visited in an order nobody controls
  method AggregateExecuteBody(digest: string, results: ScanResultSink, blake3: string -> string)
    returns (r: AggregateOutcome)
    ensures exists ids :: ListsKeys(results.inner, ids) && r == Aggregated(digest, results.inner, ids, blake3)
  {
    var todo, count, findings := results.inner.Keys, 0, [];
    ghost var ids: seq<string> := [];
    while todo != {}
      invariant todo <= results.inner.Keys && Distinct(ids)
      invariant forall k :: k in ids <==> k in results.inner && k !in todo
      invariant count == |ids| && findings == Concat(results.inner, ids)
      decreases |todo|
    {
      var k :| k in todo;
      ConcatAppend(results.inner, ids, k);
      findings := findings + results.inner[k];
      count := count + 1;
      ids := ids + [k];
      todo := todo - {k};
    }
    findings := StableSort(JobFindingLeq, findings);
    var bytes := SerdeBytesOf(findings);
    r := AggregateOutcome(digest, |findings|, count, blake3(bytes));
    assert ListsKeys(results.inner, ids) && r == Aggregated(digest, results.inner, ids, blake3);
  }

  // Every finding in the sink, by its job and its place there
  function PlacesIn(sink: map<string, seq<JobFinding>>, ids: seq<string>): set<(string, nat)> {
    set id, i: nat | id in sink && id in ids && i < |sink[id]| :: (id, i)
  }

  lemma {:induction false} PlacesOfOne(id: string, m: nat)
    ensures |set i: nat | i < m :: (id, i)| == m
  {
    if m > 0 {
      PlacesOfOne(id, m - 1);
      assert (set i: nat | i < m :: (id, i)) == (set i: nat | i < m - 1 :: (id, i)) + {(id, m - 1)};
    }
  }

  lemma {:induction false} ConcatSize(sink: map<string, seq<JobFinding>>, ids: seq<string>)
    requires Distinct(ids)
    ensures |Concat(sink, ids)| == |PlacesIn(sink, ids)|
  {
    if ids != [] {
      ConcatSize(sink, ids[1..]);
      var here := if ids[0] in sink then set i: nat | i < |sink[ids[0]]| :: (ids[0], i) else {};
      if ids[0] in sink { PlacesOfOne(ids[0], |sink[ids[0]]|); }
      assert PlacesIn(sink, ids) == here + PlacesIn(sink, ids[1..]);
      assert here !! PlacesIn(sink, ids[1..]);
    }
  }

  // In whatever order the map is visited: the totals count the findings and the jobs of the sink, and what is
  // hashed holds exactly its findings, in order
  lemma AggregateCountsAndOrders(digest: string, sink: map<string, seq<JobFinding>>, ids: seq<string>,
    blake3: string -> string)
    requires ListsKeys(sink, ids)
    ensures var r := Aggregated(digest, sink, ids, blake3);
            && r.digest == digest && r.scannersReported == |sink.Keys| && r.totalFindings == |PlacesIn(sink, ids)|
            && exists fs :: r.evidenceHash == blake3(SerdeBytes(fs)) && multiset(fs) == multiset(Concat(sink, ids))
                            && forall i, j | 0 <= i < j < |fs| :: JobMayPrecede(fs[i], fs[j])
  {
    hide JobFindingLeq, JobMayPrecede, PlacesIn;
    JobFindingLeqIsPreorder();
    ConcatSize(sink, ids);
    DistinctSize(ids);
    assert (set k | k in ids) == sink.Keys;
    var fs := StableSort(JobFindingLeq, Concat(sink, ids));
    StableSortIsStable(JobFindingLeq, Concat(sink, ids));
    StableSortPermutes(JobFindingLeq, Concat(sink, ids));
    forall i, j | 0 <= i < j < |fs| ensures JobMayPrecede(fs[i], fs[j]) {
      JobFindingLeqMeans(fs[i], fs[j]);
    }
  }

  // When every job reports under its own scanner name, the outcome is the same for every visiting order
  lemma AggregateIgnoresMapOrder(digest: string, sink: map<string, seq<JobFinding>>, scannerOf: map<string, string>,
                                 ids: seq<string>, jds: seq<string>, blake3: string -> string)
    requires sink.Keys <= scannerOf.Keys
    requires forall k, f | k in sink && f in sink[k] :: f.scanner == scannerOf[k]
    requires forall k, l | k in sink && l in sink && scannerOf[k] == scannerOf[l] :: k == l
    requires ListsKeys(sink, ids) && ListsKeys(sink, jds)
    ensures Aggregated(digest, sink, ids, blake3) == Aggregated(digest, sink, jds, blake3)
  {
    JobFindingLeqIsPreorder();
    StableSortIsStable(JobFindingLeq, Concat(sink, ids));
    StableSortIsStable(JobFindingLeq, Concat(sink, jds));
    forall k, l, a, b | k in sink && l in sink && a in sink[k] && b in sink[l] && Tied(JobFindingLeq, a, b)
      ensures k == l
    {
      TextLeqIsTotal(a.scanner, b.scanner);
    }
    BlockOrderIsErased(JobFindingLeq, sink, ids, jds,
                       StableSort(JobFindingLeq, Concat(sink, ids)), StableSort(JobFindingLeq, Concat(sink, jds)));
    SameSize(ids, jds);
  }

  lemma SameSize(ks: seq<string>, ls: seq<string>)
    requires Distinct(ks) && Distinct(ls) && forall k :: k in ks <==> k in ls
    ensures |ks| == |ls|
  {
    DistinctSize(ks);
    DistinctSize(ls);
    assert (set k | k in ks) == (set k | k in ls);
  }

  lemma {:induction false} DistinctSize(ks: seq<string>)
    requires Distinct(ks)
    ensures |set k | k in ks| == |ks|
  {
    if ks != [] {
      DistinctSize(ks[1..]);
      assert (set k | k in ks) == {ks[0]} + (set k | k in ks[1..]);
    }
  }

  lemma SortedWellFormed(sink: map<string, seq<JobFinding>>, ids: seq<string>)
    requires forall k, f | k in sink && f in sink[k] :: WellFormed(f)
    ensures forall f | f in StableSort(JobFindingLeq, Concat(sink, ids)) :: WellFormed(f)
  {
    hide WellFormed;
    JobFindingLeqIsPreorder();
    ConcatMembers(sink, ids);
    forall f | f in StableSort(JobFindingLeq, Concat(sink, ids)) ensures WellFormed(f) {
      SortKeepsMembers(JobFindingLeq, Concat(sink, ids), f);
    }
  }

  // For well-formed findings and a hash without collisions: the outcome is the same for every visiting order
  // exactly when the ties of different jobs commute
  lemma AggregateIgnoresMapOrderIff(digest: string, sink: map<string, seq<JobFinding>>, blake3: string -> string)
    requires forall k, f | k in sink && f in sink[k] :: WellFormed(f)
    requires forall a, b :: blake3(a) == blake3(b) ==> a == b
    ensures (forall ids, jds | ListsKeys(sink, ids) && ListsKeys(sink, jds) ::
               Aggregated(digest, sink, ids, blake3) == Aggregated(digest, sink, jds, blake3))
            <==> TiesCommute(JobFindingLeq, sink)
  {
    hide WellFormed, JobFindingLeq, SerdeBytes, TiesCommute;
    JobFindingLeqIsPreorder();
    OrderErasedIff(JobFindingLeq, sink);
    forall ids, jds | ListsKeys(sink, ids) && ListsKeys(sink, jds)
      ensures Aggregated(digest, sink, ids, blake3) == Aggregated(digest, sink, jds, blake3) <==>
              StableSort(JobFindingLeq, Concat(sink, ids)) == StableSort(JobFindingLeq, Concat(sink, jds))
    {
      SameSize(ids, jds);
      SortedWellFormed(sink, ids);
      SortedWellFormed(sink, jds);
      WellFormedReadBack(StableSort(JobFindingLeq, Concat(sink, ids)));
      WellFormedReadBack(StableSort(JobFindingLeq, Concat(sink, jds)));
    }
  }

  // Two jobs reporting under one scanner name: the visiting order reaches the bytes
  lemma SharedScannerNameLeaksOrder()
    ensures var a, b := JobFinding("trivy", "High", None), JobFinding("trivy", "Low", None);
            var sink := map["j" := [a], "k" := [b]];
            SerdeBytes(StableSort(JobFindingLeq, Concat(sink, ["j", "k"])))
              != SerdeBytes(StableSort(JobFindingLeq, Concat(sink, ["k", "j"])))
  {
    var a, b := JobFinding("trivy", "High", None), JobFinding("trivy", "Low", None);
    var sink := map["j" := [a], "k" := [b]];
    assert ["j", "k"][1..] == ["k"] && ["k", "j"][1..] == ["j"] && ["j"][1..] == [] && ["k"][1..] == [];
    assert Concat(sink, []) == [] && Concat(sink, ["k"]) == [b] && Concat(sink, ["j"]) == [a];
    assert Concat(sink, ["j", "k"]) == [a, b] && Concat(sink, ["k", "j"]) == [b, a];
    assert [a, b][1..] == [b] && [b, a][1..] == [a] && [a][1..] == [] && [b][1..] == [];
    assert StableSort(JobFindingLeq, []) == [];
    assert StableSort(JobFindingLeq, [a]) == [a] && StableSort(JobFindingLeq, [b]) == [b];
    assert JobFindingLeq(a, b) && JobFindingLeq(b, a);
    assert StableSort(JobFindingLeq, [a, b]) == [a, b] && StableSort(JobFindingLeq, [b, a]) == [b, a];
    WellFormedReadBack([a, b]);
    WellFormedReadBack([b, a]);
    assert [a, b][0] != [b, a][0];
  }
}
