/** The custom resources the controllers share: validations, tenants, scan jobs and what they carry. */
module Crds {
  import opened Wrappers

  // Nanoseconds since the epoch
  type Time = int

  // ---- Scanners ----

  // `ScannerKind` and `RequiredScanner` mirror each other arm for arm; the order is the derived one
  datatype Scanner =
    | Trivy | Grype | Syft | Trufflehog | Semgrep | KubeLinter | KubeBench | KubeHunter | Polaris
    | StigCisValidator | Zap | Snyk | DockerScout | JfrogXray | Wiz | PrismaCloud | BurpEnterprise | Codeql

  const ALL_SCANNERS: seq<Scanner> :=
    [Trivy, Grype, Syft, Trufflehog, Semgrep, KubeLinter, KubeBench, KubeHunter, Polaris,
     StigCisValidator, Zap, Snyk, DockerScout, JfrogXray, Wiz, PrismaCloud, BurpEnterprise, Codeql]

  function ScannerRank(s: Scanner): nat {
    match s
    case Trivy => 0 case Grype => 1 case Syft => 2 case Trufflehog => 3 case Semgrep => 4
    case KubeLinter => 5 case KubeBench => 6 case KubeHunter => 7 case Polaris => 8
    case StigCisValidator => 9 case Zap => 10 case Snyk => 11 case DockerScout => 12
    case JfrogXray => 13 case Wiz => 14 case PrismaCloud => 15 case BurpEnterprise => 16 case Codeql => 17
  }

  function ScannerKebab(s: Scanner): string {
    match s
    case Trivy => "trivy" case Grype => "grype" case Syft => "syft" case Trufflehog => "trufflehog"
    case Semgrep => "semgrep" case KubeLinter => "kubelinter" case KubeBench => "kubebench"
    case KubeHunter => "kubehunter" case Polaris => "polaris" case StigCisValidator => "stig"
    case Zap => "zap" case Snyk => "snyk" case DockerScout => "scout" case JfrogXray => "xray"
    case Wiz => "wiz" case PrismaCloud => "prisma" case BurpEnterprise => "burp" case Codeql => "codeql"
  }

  datatype TargetField = DigestTarget | SourceTarget | TenantUrlTarget | NoTarget

  // The scanner catalogue's target column
  function TargetFieldOf(s: Scanner): TargetField {
    match s
    case Semgrep => SourceTarget case KubeLinter => SourceTarget case Codeql => SourceTarget
    case KubeBench => NoTarget case KubeHunter => NoTarget case Polaris => NoTarget case StigCisValidator => NoTarget
    case Zap => TenantUrlTarget case BurpEnterprise => TenantUrlTarget
    case _ => DigestTarget
  }

  datatype FindingSeverity = LowFinding | MediumFinding | HighFinding | CriticalFinding

  // `detail` stands for message and score, which nothing but the canonical bytes looks at
  datatype Finding = Finding(
    scanner: Scanner, cveId: Option<string>, severity: FindingSeverity, firstSeen: Time,
    fixedIn: Option<string>, exceptionId: Option<string>, detail: string)

  // ---- ScanJob ----

  datatype ScanJobPhase =
    | JobPending | Forking | Execing | Running | Attested | Reconverging | Exiting | JobFailed | Zombie | JobReaped

  datatype ScanJobStatus = ScanJobStatus(
    phase: Option<ScanJobPhase>, findings: seq<Finding>, findingsCount: nat, attestation: Option<string>)

  datatype ScanJob = ScanJob(
    scanner: Scanner, parent: string, targetTenantUrl: Option<string>, status: Option<ScanJobStatus>)
  {
    function Phase(): Option<ScanJobPhase> {
      if status.Some? then status.value.phase else None
    }

    function Findings(): seq<Finding> {
      if status.Some? then status.value.findings else []
    }
  }

  // ---- Tenant ----

  datatype TenantPhase =
    | TenantPending | InfraProvisioning | ChartRendering | PodsRunning | Ready | TenantScanning
    | Teardown | TenantReaped | TenantFailed

  datatype TenantStatus = TenantStatus(
    phase: Option<TenantPhase>, ingressUrl: Option<string>, podsReady: nat, podsTotal: nat,
    allocatedAt: Option<Time>, readyAt: Option<Time>, teardownStartedAt: Option<Time>)

  const DEFAULT_TENANT_STATUS := TenantStatus(None, None, 0, 0, None, None, None)

  datatype Tenant = Tenant(parent: string, status: Option<TenantStatus>)
  {
    function Phase(): TenantPhase {
      if status.Some? && status.value.phase.Some? then status.value.phase.value else TenantPending
    }
  }

  // ---- Validation ----

  datatype Phase =
    | Pending | Provisioning | Scanning | Aggregating | Attesting | Gating | Passed | Failed | Quarantined
  {
    predicate Terminal() {
      Passed? || Failed? || Quarantined?
    }

    // How far along the chain a phase is; the three outcomes share the last place
    function Rank(): nat {
      match this
      case Pending => 0 case Provisioning => 1 case Scanning => 2 case Aggregating => 3
      case Attesting => 4 case Gating => 5 case _ => 6
    }
  }

  datatype Summary = Summary(name: string, scanner: Scanner, phase: ScanJobPhase, findingsCount: nat)

  datatype Verdict = VerdictPassed | VerdictFailed | VerdictQuarantined

  datatype Severity = Cosmetic | Functional | Critical
  {
    function Rank(): nat {
      match this case Cosmetic => 0 case Functional => 1 case Critical => 2
    }
  }

  datatype ArtifactState = ArtifactPending | ArtifactActive | ArtifactQuarantined | ArtifactRevoked | ArtifactSuperseded

  datatype Receipt = Receipt(blake3Hash: string, signedAt: Time)
}
