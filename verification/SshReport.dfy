/** SSH audit reports and their independent validator (internal/protocol/inspection.go). */
module SshReport {
  import opened Core
  import opened Protocol
  import opened Text

  const MAX_FILES := 4
  const MAX_ENTRIES := 8
  const MAX_FINDINGS := 16
  const MAX_LINES := 512

  datatype FileKind = SshdConfig | AuthorizedKeys

  /** InspectionCode: how reading and parsing a file ended. */
  datatype FileStatus =
    | Intact | Partial | Missing | PermissionDenied | UnsafePath | UnsafeType | OwnerMismatch | TooLarge
    | ChangedDuringRead | Unsupported | IoError | ParseError | SensitiveContent

  /** SSHFinding. */
  datatype Finding =
    | GroupOrOtherWritable | MatchNotEvaluated | IncludeNotExpanded | DynamicAuthNotEvaluated
    | OtherDirectivesNotEvaluated
    | InvalidLine | KeyOptionsNotEvaluated | KeyCertificateNotEvaluated | KeyLimit | LineLimit | DuplicateDirective
    | EmptyKeyFile | BaselineChanged | InvalidValue | DirectiveLimit

  datatype Directive =
    | PermitRootLogin | PasswordAuthentication | PubkeyAuthentication | KbdInteractiveAuthentication
    | PermitEmptyPasswords | StrictModes | UsePam

  /** File contents: text, or bytes that are not UTF-8. */
  datatype Content = Utf8(text: string) | OtherBytes(bytes: seq<int>)

  datatype Metadata = Metadata(uid: nat, gid: nat, mode: int, size: int)

  /** "SHA256:" with the unpadded base64 of some bytes, or any other text. */
  datatype Fingerprint = Digest(bytes: string) | Malformed(text: string)

  datatype KeyEntry = KeyEntry(line: int, kind: string, fingerprint: Fingerprint, hasOptions: bool)

  datatype DirectiveEntry = DirectiveEntry(line: int, name: Directive, value: string)

  datatype Baseline = Unavailable | Unconfigured | Match | Changed

  datatype File = File(
    id: string, kind: FileKind, status: FileStatus, metadataAvailable: bool, metadata: Metadata,
    digest: Option<Sha256<Content>>,
    baseline: Baseline, keys: seq<KeyEntry>, directives: seq<DirectiveEntry>, findings: seq<Finding>)

  datatype Coverage = CompleteCoverage | PartialCoverage | NoCoverage

  datatype Report = Report(profile: string, observedAt: int64, coverage: Coverage, files: seq<File>)

  /** DirectiveValue. */
  predicate DirectiveValue(d: Directive, value: string) {
    value == "yes" || value == "no"
    || (d.PermitRootLogin?
         && (value == "prohibit-password" || value == "without-password" || value == "forced-commands-only"))
  }

  predicate KeyOk(k: KeyEntry) {
    1 <= k.line <= 512 && k.kind != "" && CleanText(k.kind, 64) && k.fingerprint.Digest?
      && |k.fingerprint.bytes| == 32
  }

  predicate DirectiveOk(d: DirectiveEntry) {
    1 <= d.line <= 512 && DirectiveValue(d.name, d.value)
  }

  predicate WasRead(s: FileStatus) {
    s.Intact? || s.Partial?
  }

  predicate DistinctFindings(findings: seq<Finding>) {
    forall i, j :: 0 <= i < j < |findings| ==> findings[i] != findings[j]
  }

  /** What the report may say about the outcome of one read. */
  predicate OutcomeOk(f: File) {
    && (!f.metadataAvailable ==> f.metadata == Metadata(0, 0, 0, 0))
    && (if WasRead(f.status) then f.metadataAvailable && f.digest.Some? && !f.baseline.Unavailable?
        else f.digest.None? && f.baseline.Unavailable? && f.keys == [] && f.directives == [])
    && (if f.kind.SshdConfig? then f.keys == [] else f.directives == [])
  }

  predicate EntriesOk(f: File) {
    && (forall i :: 0 <= i < |f.keys| ==> KeyOk(f.keys[i]))
    && (forall i :: 0 <= i < |f.directives| ==> DirectiveOk(f.directives[i]))
    && DistinctFindings(f.findings)
  }

  predicate BoundsOk(f: File) {
    && ResourceId(f.id) && f.metadata.mode <= 0xFFF && f.metadata.size >= 0
    && |f.keys| <= 8 && |f.directives| <= 8 && |f.findings| <= 16
  }

  predicate FileOk(f: File) {
    BoundsOk(f) && OutcomeOk(f) && EntriesOk(f)
  }

  predicate DistinctFiles(files: seq<File>) {
    forall i, j :: 0 <= i < j < |files| ==> files[i].id != files[j].id
  }

  predicate AllIntact(files: seq<File>) {
    forall i :: 0 <= i < |files| ==> files[i].status.Intact?
  }

  predicate AnyRead(files: seq<File>) {
    exists i :: 0 <= i < |files| && WasRead(files[i].status)
  }

  function WantCoverage(files: seq<File>): Coverage {
    if AllIntact(files) then CompleteCoverage else if AnyRead(files) then PartialCoverage else NoCoverage
  }

  /** SSHReport.Validate. */
  predicate ReportOk(r: Report, now: int64) {
    && ResourceId(r.profile) && 1 <= r.observedAt <= now && 1 <= |r.files| <= 4 && DistinctFiles(r.files)
    && (forall i :: 0 <= i < |r.files| ==> FileOk(r.files[i]))
    && r.coverage == WantCoverage(r.files)
  }

  /** The inner loops of Validate. */
  method CheckEntries(f: File) returns (ok: bool)
    ensures ok <==> EntriesOk(f)
  {
    hide KeyOk, DirectiveOk;
    for i := 0 to |f.keys|
      invariant forall j :: 0 <= j < i ==> KeyOk(f.keys[j])
    {
      if !KeyOk(f.keys[i]) {
        return false;
      }
    }
    for i := 0 to |f.directives|
      invariant forall j :: 0 <= j < i ==> DirectiveOk(f.directives[j])
    {
      if !DirectiveOk(f.directives[i]) {
        return false;
      }
    }
    var findings: set<Finding> := {};
    for i := 0 to |f.findings|
      invariant findings == set j | 0 <= j < i :: f.findings[j]
      invariant forall j, k :: 0 <= j < k < i ==> f.findings[j] != f.findings[k]
    {
      if f.findings[i] in findings {
        return false;
      }
      findings := findings + {f.findings[i]};
    }
    return true;
  }

  method Validate(r: Report, now: int64) returns (ok: bool)
    ensures ok <==> ReportOk(r, now)
  {
    hide BoundsOk, OutcomeOk, EntriesOk, ResourceId;
    if !ResourceId(r.profile) || r.observedAt < 1 || r.observedAt > now || |r.files| < 1 || |r.files| > MAX_FILES {
      return false;
    }
    var seen: set<string> := {};
    var allOk, anyRead := true, false;
    for i := 0 to |r.files|
      invariant seen == set j | 0 <= j < i :: r.files[j].id
      invariant forall j, k :: 0 <= j < k < i ==> r.files[j].id != r.files[k].id
      invariant forall j :: 0 <= j < i ==> FileOk(r.files[j])
      invariant allOk <==> forall j :: 0 <= j < i ==> r.files[j].status.Intact?
      invariant anyRead <==> exists j :: 0 <= j < i && WasRead(r.files[j].status)
    {
      var f := r.files[i];
      if !BoundsOk(f) || f.id in seen || !OutcomeOk(f) {
        return false;
      }
      seen := seen + {f.id};
      allOk := allOk && f.status.Intact?;
      anyRead := anyRead || WasRead(f.status);
      var good := CheckEntries(f);
      if !good {
        return false;
      }
    }
    var want := if allOk then CompleteCoverage else if !anyRead then NoCoverage else PartialCoverage;
    return r.coverage == want;
  }
}
