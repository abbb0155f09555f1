/** The texts the controllers hash and name things by, and which of them can be read back. */
module Encodings {
  import opened Wrappers
  import opened Crds

  predicate Free(sep: char, s: string) {
    forall i | 0 <= i < |s| :: s[i] != sep
  }

  // ---- Splitting at the first and at the last separator ----

  function SplitFirst(sep: char, s: string): (r: Option<(string, string)>)
    ensures r.Some? ==> Free(sep, r.value.0) && s == r.value.0 + [sep] + r.value.1
  {
    if s == [] then None
    else if s[0] == sep then Some(([], s[1..]))
    else
      var rest := SplitFirst(sep, s[1..]);
      if rest.None? then None
      else
        assert s == [s[0]] + s[1..];
        Some(([s[0]] + rest.value.0, rest.value.1))
  }

  lemma {:induction false} SplitFirstReads(sep: char, field: string, rest: string)
    requires Free(sep, field)
    ensures SplitFirst(sep, field + [sep] + rest) == Some((field, rest))
  {
    var s := field + [sep] + rest;
    if field == [] {
      assert s[1..] == rest;
    } else {
      assert s[1..] == field[1..] + [sep] + rest;
      SplitFirstReads(sep, field[1..], rest);
      assert field == [field[0]] + field[1..];
    }
  }

  function SplitLast(sep: char, s: string): (r: Option<(string, string)>)
    ensures r.Some? ==> Free(sep, r.value.1) && s == r.value.0 + [sep] + r.value.1
  {
    if s == [] then None
    else
      var n := |s| - 1;
      if s[n] == sep then Some((s[..n], []))
      else
        var rest := SplitLast(sep, s[..n]);
        if rest.None? then None
        else
          assert s == s[..n] + [s[n]];
          Some((rest.value.0, rest.value.1 + [s[n]]))
  }

  lemma {:induction false} SplitLastReads(sep: char, front: string, field: string)
    requires Free(sep, field)
    ensures SplitLast(sep, front + [sep] + field) == Some((front, field))
  {
    var s := front + [sep] + field;
    var n := |s| - 1;
    if field == [] {
      assert s[..n] == front;
    } else {
      var m := |field| - 1;
      assert s[..n] == front + [sep] + field[..m];
      SplitLastReads(sep, front, field[..m]);
      assert field == field[..m] + [field[m]];
    }
  }

  // ---- Names of scan jobs and tenants ----

  function ScanJobName(s: Scanner, parent: string): string {
    "sj-" + ScannerKebab(s) + "-" + parent
  }

  function TenantName(parent: string): string {
    "eph-" + parent
  }

  // The length and one or two letters tell the kebab names apart
  function ReadKebab(k: string): Scanner
    requires |k| >= 3
  {
    match |k|
    case 3 => if k[0] == 'z' then Zap else Wiz
    case 4 =>
      if k[0] == 'x' then JfrogXray else if k[0] == 'b' then BurpEnterprise
      else if k[1] == 'y' then Syft else if k[1] == 't' then StigCisValidator else Snyk
    case 5 => if k[0] == 't' then Trivy else if k[0] == 'g' then Grype else DockerScout
    case 6 => if k[0] == 'p' then PrismaCloud else Codeql
    case 7 => if k[0] == 's' then Semgrep else Polaris
    case 9 => KubeBench
    case _ => if k[0] == 't' then Trufflehog else if |k| > 4 && k[4] == 'l' then KubeLinter else KubeHunter
  }

  lemma KebabReadsBack(s: Scanner)
    ensures Free('-', ScannerKebab(s))
    ensures |ScannerKebab(s)| >= 3 && ReadKebab(ScannerKebab(s)) == s
  {
  }

  // A scan job's name determines its scanner and its parent, whatever the parent is called
  lemma ScanJobNameIsInjective(s: Scanner, p: string, t: Scanner, q: string)
    requires ScanJobName(s, p) == ScanJobName(t, q)
    ensures s == t && p == q
  {
    KebabReadsBack(s);
    KebabReadsBack(t);
    var a, b := ScannerKebab(s) + "-" + p, ScannerKebab(t) + "-" + q;
    assert ScanJobName(s, p)[3..] == a && ScanJobName(t, q)[3..] == b;
    SplitFirstReads('-', ScannerKebab(s), p);
    SplitFirstReads('-', ScannerKebab(t), q);
  }

  lemma TenantNameIsInjective(p: string, q: string)
    requires TenantName(p) == TenantName(q)
    ensures p == q
  {
    assert TenantName(p)[4..] == p && TenantName(q)[4..] == q;
  }

  // ---- The outcome receipt ----

  datatype ReceiptParts = ReceiptParts(service: string, digest: string, verdict: string, severity: string,
    evidence: string)

  function ReceiptText(r: ReceiptParts): string {
    r.service + "|" + r.digest + "|" + r.verdict + "|" + r.severity + "|" + r.evidence
  }

  function ReadReceipt(s: string): Option<ReceiptParts> {
    var e := SplitLast('|', s);
    if e.None? then None else
    var v := SplitLast('|', e.value.0);
    if v.None? then None else
    var w := SplitLast('|', v.value.0);
    if w.None? then None else
    var d := SplitLast('|', w.value.0);
    if d.None? then None else
    Some(ReceiptParts(d.value.0, d.value.1, w.value.1, v.value.1, e.value.1))
  }

  // The receipt text can be read back exactly when the four fields after the service have no bar;
  // the service may be any text
  lemma ReceiptReadsBack(r: ReceiptParts)
    ensures ReadReceipt(ReceiptText(r)) == Some(r) <==>
            Free('|', r.digest) && Free('|', r.verdict) && Free('|', r.severity) && Free('|', r.evidence)
  {
    var d := r.service + "|" + r.digest;
    var w := d + "|" + r.verdict;
    var v := w + "|" + r.severity;
    assert ReceiptText(r) == v + "|" + r.evidence;
    if Free('|', r.digest) && Free('|', r.verdict) && Free('|', r.severity) && Free('|', r.evidence) {
      SplitLastReads('|', v, r.evidence);
      SplitLastReads('|', w, r.severity);
      SplitLastReads('|', d, r.verdict);
      SplitLastReads('|', r.service, r.digest);
    }
  }

  // ---- The aggregate job's byte view ----

  // Characters stand for bytes: a UTF-8 text has a zero byte exactly where it has the zero character
  datatype JobFinding = JobFinding(scanner: string, severity: string, cveId: Option<string>)

  const NUL: char := '\0'

  function FindingBytes(f: JobFinding): string {
    f.scanner + [NUL] + f.severity + [NUL] + f.cveId.GetOr("") + [NUL]
  }

  function SerdeBytes(fs: seq<JobFinding>): string {
    if fs == [] then [] else FindingBytes(fs[0]) + SerdeBytes(fs[1..])
  }

  lemma {:induction false} SerdeBytesAppend(fs: seq<JobFinding>, f: JobFinding)
    ensures SerdeBytes(fs + [f]) == SerdeBytes(fs) + FindingBytes(f)
  {
    if fs == [] {
      assert (fs + [f])[1..] == [];
      assert SerdeBytes([]) == [];
    } else {
      assert (fs + [f])[1..] == fs[1..] + [f];
      SerdeBytesAppend(fs[1..], f);
    }
  }

  method SerdeBytesOf(findings: seq<JobFinding>) returns (out: string)
    ensures out == SerdeBytes(findings)
  {
    out := [];
    for i := 0 to |findings|
      invariant out == SerdeBytes(findings[..i])
    {
      var f := findings[i];
      ghost var before := out;
      out := out + f.scanner;
      out := out + [NUL];
      out := out + f.severity;
      out := out + [NUL];
      out := out + f.cveId.GetOr("");
      out := out + [NUL];
      assert out == before + FindingBytes(f);
      SerdeBytesAppend(findings[..i], f);
      assert findings[..i + 1] == findings[..i] + [f];
    }
    assert findings[..|findings|] == findings;
  }

  predicate WellFormed(f: JobFinding) {
    Free(NUL, f.scanner) && Free(NUL, f.severity) && Free(NUL, f.cveId.GetOr("")) && f.cveId != Some("")
  }

  function ReadFinding(s: string): (r: Option<(JobFinding, string)>)
    ensures r.Some? ==> WellFormed(r.value.0) && |r.value.1| < |s|
  {
    var a := SplitFirst(NUL, s);
    if a.None? then None else
    var b := SplitFirst(NUL, a.value.1);
    if b.None? then None else
    var c := SplitFirst(NUL, b.value.1);
    if c.None? then None else
    Some((JobFinding(a.value.0, b.value.0, if c.value.0 == "" then None else Some(c.value.0)), c.value.1))
  }

  function ReadFindings(s: string): (r: Option<seq<JobFinding>>)
    ensures r.Some? ==> forall f | f in r.value :: WellFormed(f)
    decreases |s|
  {
    if s == [] then Some([]) else
    var one := ReadFinding(s);
    if one.None? then None else
    var rest := ReadFindings(one.value.1);
    if rest.None? then None else Some([one.value.0] + rest.value)
  }

  lemma FindingReadsBack(f: JobFinding, rest: string)
    requires WellFormed(f)
    ensures ReadFinding(FindingBytes(f) + rest) == Some((f, rest))
  {
    var c := f.cveId.GetOr("") + [NUL] + rest;
    var b := f.severity + [NUL] + c;
    assert FindingBytes(f) + rest == f.scanner + [NUL] + b;
    SplitFirstReads(NUL, f.scanner, b);
    SplitFirstReads(NUL, f.severity, c);
    SplitFirstReads(NUL, f.cveId.GetOr(""), rest);
  }

  lemma {:induction false} WellFormedReadBack(fs: seq<JobFinding>)
    requires forall f | f in fs :: WellFormed(f)
    ensures ReadFindings(SerdeBytes(fs)) == Some(fs)
  {
    if fs != [] {
      assert fs[0] in fs && forall g | g in fs[1..] :: g in fs;
      FindingReadsBack(fs[0], SerdeBytes(fs[1..]));
      WellFormedReadBack(fs[1..]);
      assert fs == [fs[0]] + fs[1..];
    }
  }

  // The bytes can be read back exactly when no field holds a zero byte and no CVE id is the empty text
  lemma {:induction false} SerdeBytesReadBack(fs: seq<JobFinding>)
    ensures ReadFindings(SerdeBytes(fs)) == Some(fs) <==> forall f | f in fs :: WellFormed(f)
  {
    if forall f | f in fs :: WellFormed(f) {
      WellFormedReadBack(fs);
    }
  }

  // Two finding lists that differ and have the same bytes: an absent CVE id against an empty one
  lemma SerdeBytesConfuse()
    ensures var a, b := [JobFinding("trivy", "High", None)], [JobFinding("trivy", "High", Some(""))];
            a != b && SerdeBytes(a) == SerdeBytes(b)
  {
    var a, b := [JobFinding("trivy", "High", None)], [JobFinding("trivy", "High", Some(""))];
    assert a[0] != b[0];
    assert a[1..] == [] && b[1..] == [];
  }
}
