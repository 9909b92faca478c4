/** The SSH file observer (internal/sshaudit/audit.go): bounded, literal observations of two kinds of file. */
module SshAudit {
  import opened Core
  import opened Protocol
  import opened SshLines
  import opened SshReport
  import opened Text

  const MAX_BYTES := 65536

  // ---- What a configuration file says ----

  function Classified(lines: seq<string>, kind: FileKind, parser: KeyParser): (r: seq<Line>)
    ensures |r| == |lines| && forall i :: 0 <= i < |r| ==> r[i] == Classify(lines[i], kind, parser)
  {
    if lines == [] then []
    else Classified(lines[..|lines| - 1], kind, parser) + [Classify(lines[|lines| - 1], kind, parser)]
  }

  /** A well-formed supported setting: one literal value of the kind the directive takes. */
  predicate SettingAt(lines: seq<Line>, i: nat, d: Directive) {
    i < |lines| && lines[i].Setting? && lines[i].name == d && lines[i].single
  }

  predicate BeforeMatch(lines: seq<Line>, i: nat) {
    forall j :: 0 <= j < i && j < |lines| ==> !lines[j].Block?
  }

  /** The first well-formed supported occurrence of a name before the first Match. */
  ghost predicate FirstSetting(lines: seq<Line>, i: nat, d: Directive) {
    SettingAt(lines, i, d) && BeforeMatch(lines, i) && forall j: nat :: j < i ==> !SettingAt(lines, j, d)
  }

  ghost predicate RecordsOne(lines: seq<Line>, n: nat, e: DirectiveEntry) {
    1 <= e.line <= n && FirstSetting(lines, e.line - 1, e.name) && lines[e.line - 1].value == e.value
  }

  ghost predicate Recorded(directives: seq<DirectiveEntry>, i: nat) {
    exists k :: 0 <= k < |directives| && directives[k].line == i + 1
  }

  predicate InOrder(directives: seq<DirectiveEntry>) {
    forall j, k ::
      0 <= j < k < |directives| ==> directives[j].line < directives[k].line && directives[j].name != directives[k].name
  }

  /** The recorded directives of a file, in order: exactly the first settings among the first n lines. */
  ghost predicate RecordsFirst(lines: seq<Line>, n: nat, directives: seq<DirectiveEntry>) {
    && (forall k :: 0 <= k < |directives| ==> RecordsOne(lines, n, directives[k]))
    && (forall i: nat, d: Directive :: i < n && FirstSetting(lines, i, d) ==> Recorded(directives, i))
    && InOrder(directives)
  }

  lemma RecordSkip(lines: seq<Line>, i: nat, directives: seq<DirectiveEntry>)
    requires RecordsFirst(lines, i, directives) && forall d: Directive :: !FirstSetting(lines, i, d)
    ensures RecordsFirst(lines, i + 1, directives)
  {
    hide FirstSetting, Recorded;
    forall k | 0 <= k < |directives| ensures RecordsOne(lines, i + 1, directives[k]) {
      assert RecordsOne(lines, i, directives[k]);
    }
  }

  lemma RecordedGrows(directives: seq<DirectiveEntry>, e: DirectiveEntry, j: nat)
    ensures Recorded(directives, j) ==> Recorded(directives + [e], j)
    ensures e.line == j + 1 ==> Recorded(directives + [e], j)
  {
    var all := directives + [e];
    assert all[|directives|] == e;
    if Recorded(directives, j) {
      var k :| 0 <= k < |directives| && directives[k].line == j + 1;
      assert all[k].line == j + 1;
    }
  }

  lemma EntryPrecedes(lines: seq<Line>, i: nat, a: DirectiveEntry, e: DirectiveEntry)
    requires RecordsOne(lines, i, a) && e.line == i + 1 && RecordsOne(lines, i + 1, e)
    ensures a.line < e.line && a.name != e.name && RecordsOne(lines, i + 1, a)
  {
    assert SettingAt(lines, a.line - 1, a.name);
  }

  lemma RecordNext(lines: seq<Line>, i: nat, directives: seq<DirectiveEntry>, e: DirectiveEntry)
    requires RecordsFirst(lines, i, directives) && e.line == i + 1 && RecordsOne(lines, i + 1, e)
    ensures RecordsFirst(lines, i + 1, directives + [e])
  {
    hide FirstSetting, RecordsOne, Recorded;
    forall k | 0 <= k < |directives|
      ensures directives[k].line < e.line && directives[k].name != e.name && RecordsOne(lines, i + 1, directives[k]) {
      EntryPrecedes(lines, i, directives[k], e);
    }
    forall j: nat, d: Directive | j < i + 1 && FirstSetting(lines, j, d) ensures Recorded(directives + [e], j) {
      RecordedGrows(directives, e, j);
    }
  }

  /** The names recorded so far. */
  function Names(directives: seq<DirectiveEntry>): set<Directive> {
    set k | 0 <= k < |directives| :: directives[k].name
  }

  lemma {:induction false} EarliestSetting(lines: seq<Line>, j: nat, d: Directive) returns (first: nat)
    requires SettingAt(lines, j, d)
    ensures first <= j && SettingAt(lines, first, d) && forall k: nat :: k < first ==> !SettingAt(lines, k, d)
  {
    first := 0;
    while !SettingAt(lines, first, d)
      invariant first <= j && forall k: nat :: k < first ==> !SettingAt(lines, k, d)
      decreases j - first
    {
      first := first + 1;
    }
  }

  lemma EarlierIsRecorded(lines: seq<Line>, i: nat, directives: seq<DirectiveEntry>, d: Directive, j: nat)
    requires RecordsFirst(lines, i, directives) && BeforeMatch(lines, i) && j < i && SettingAt(lines, j, d)
    ensures d in Names(directives)
  {
    var first := EarliestSetting(lines, j, d);
    assert FirstSetting(lines, first, d);
    assert Recorded(directives, first);
    var k :| 0 <= k < |directives| && directives[k].line == first + 1;
    assert RecordsOne(lines, i, directives[k]);
    assert directives[k].name == d;
  }

  /** Before any Match, a well-formed setting is the first of its name exactly when the name is not recorded yet. */
  lemma FirstIffNew(lines: seq<Line>, i: nat, directives: seq<DirectiveEntry>, d: Directive)
    requires RecordsFirst(lines, i, directives) && SettingAt(lines, i, d) && BeforeMatch(lines, i)
    ensures FirstSetting(lines, i, d) <==> d !in Names(directives)
  {
    if j: nat :| j < i && SettingAt(lines, j, d) {
      EarlierIsRecorded(lines, i, directives, d, j);
    }
    if d in Names(directives) {
      var k :| 0 <= k < |directives| && directives[k].name == d;
      assert RecordsOne(lines, i, directives[k]);
    }
  }

  // ---- Bounds from distinctness ----

  lemma {:induction false} Pigeonhole(s: seq<nat>, n: nat)
    requires forall i, j :: 0 <= i < j < |s| ==> s[i] != s[j]
    requires forall i :: 0 <= i < |s| ==> s[i] < n
    ensures |s| <= n
  {
    if s != [] {
      assert s[0] < n;
      if k :| 0 <= k < |s| && s[k] == n - 1 {
        Pigeonhole(s[..k] + s[k + 1..], n - 1);
      } else {
        Pigeonhole(s, n - 1);
      }
    }
  }

  function DirectiveIndex(d: Directive): nat {
    match d
    case PermitRootLogin => 0
    case PasswordAuthentication => 1
    case PubkeyAuthentication => 2
    case KbdInteractiveAuthentication => 3
    case PermitEmptyPasswords => 4
    case StrictModes => 5
    case UsePam => 6
  }

  function FindingIndex(f: Finding): nat {
    match f
    case GroupOrOtherWritable => 0
    case MatchNotEvaluated => 1
    case IncludeNotExpanded => 2
    case DynamicAuthNotEvaluated => 3
    case OtherDirectivesNotEvaluated => 4
    case InvalidLine => 5
    case KeyOptionsNotEvaluated => 6
    case KeyCertificateNotEvaluated => 7
    case KeyLimit => 8
    case LineLimit => 9
    case DuplicateDirective => 10
    case EmptyKeyFile => 11
    case BaselineChanged => 12
    case InvalidValue => 13
    case DirectiveLimit => 14
  }

  /** At most seven directives are ever recorded, so the limit of eight is never reached. */
  lemma FewDirectives(directives: seq<DirectiveEntry>)
    requires InOrder(directives)
    ensures |directives| <= 7
  {
    Pigeonhole(seq(|directives|, i requires 0 <= i < |directives| => DirectiveIndex(directives[i].name)), 7);
  }

  lemma FewFindings(findings: seq<Finding>)
    requires DistinctFindings(findings)
    ensures |findings| <= 15
  {
    Pigeonhole(seq(|findings|, i requires 0 <= i < |findings| => FindingIndex(findings[i])), 15);
  }

  // ---- The observer ----

  function WithFinding(findings: seq<Finding>, code: Finding): (r: seq<Finding>)
    ensures forall c :: c in r <==> c in findings || c == code
  {
    if code in findings then findings else findings + [code]
  }

  function WithPartial(f: File, code: Finding): File {
    f.(status := if f.status.Intact? then Partial else f.status, findings := WithFinding(f.findings, code))
  }

  /** The key entries of the first n lines: at most eight, in order. */
  function KeysOf(lines: seq<Line>, n: nat): (keys: seq<KeyEntry>)
    requires n <= |lines|
  {
    if n == 0 then []
    else
      var before := KeysOf(lines, n - 1);
      match lines[n - 1]
      case Key(k) =>
        if |before| >= MAX_ENTRIES then before else before + [KeyEntry(n, k.kind, k.fingerprint, k.hasOptions)]
      case _ => before
  }

  /** A line that the report covers completely: blank, a recorded setting, or a recorded plain key. */
  ghost predicate Plain(lines: seq<Line>, i: nat)
    requires i < |lines|
  {
    match lines[i]
    case Blank => true
    case Setting(name, _, _) => FirstSetting(lines, i, name)
    case Key(k) => !k.hasOptions && !k.certificate && |KeysOf(lines, i)| < MAX_ENTRIES
    case _ => false
  }

  ghost predicate AllPlain(lines: seq<Line>, n: nat)
    requires n <= |lines|
  {
    forall i: nat :: i < n ==> Plain(lines, i)
  }

  predicate NoBad(lines: seq<Line>, n: nat)
    requires n <= |lines|
  {
    forall i: nat :: i < n ==> !lines[i].Bad?
  }

  /** The findings that one line gives rise to. */
  ghost predicate RemarkAt(lines: seq<Line>, i: nat, c: Finding)
    requires i < |lines|
  {
    match lines[i]
    case Blank => false
    case Bad(finding) => c == finding
    case Key(k) =>
      if |KeysOf(lines, i)| >= MAX_ENTRIES then c.KeyLimit?
      else (c.KeyOptionsNotEvaluated? && k.hasOptions) || (c.KeyCertificateNotEvaluated? && k.certificate)
    case Block => c.MatchNotEvaluated?
    case Include => c.IncludeNotExpanded?
    case Dynamic => c.DynamicAuthNotEvaluated?
    case NotObserved => c.OtherDirectivesNotEvaluated? && BeforeMatch(lines, i)
    case Setting(name, _, single) =>
      BeforeMatch(lines, i)
        && if single then c.DuplicateDirective? && !FirstSetting(lines, i, name) else c.InvalidValue?
  }

  /** The findings that the first n lines give rise to; nothing after a bad line is looked at. */
  ghost predicate Remarked(lines: seq<Line>, n: nat, c: Finding)
    requires n <= |lines|
  {
    exists i: nat :: i < n && NoBad(lines, i) && RemarkAt(lines, i, c)
  }

  ghost predicate RemarksOf(start: seq<Finding>, lines: seq<Line>, n: nat, findings: seq<Finding>)
    requires n <= |lines|
  {
    forall c :: c in findings <==> c in start || Remarked(lines, n, c)
  }

  /** What one line adds to the findings. */
  ghost predicate Remarks(before: seq<Finding>, lines: seq<Line>, i: nat, findings: seq<Finding>)
    requires i < |lines|
  {
    forall c :: c in findings <==> c in before || RemarkAt(lines, i, c)
  }

  lemma RemarksNext(start: seq<Finding>, lines: seq<Line>, i: nat, before: seq<Finding>, findings: seq<Finding>)
    requires i < |lines| && NoBad(lines, i) && RemarksOf(start, lines, i, before) && Remarks(before, lines, i, findings)
    ensures RemarksOf(start, lines, i + 1, findings)
  {
    hide RemarkAt, NoBad;
    forall c ensures Remarked(lines, i + 1, c) <==> Remarked(lines, i, c) || RemarkAt(lines, i, c) {
    }
  }

  /** Reading stops at the first bad line. */
  lemma RemarksEnd(start: seq<Finding>, lines: seq<Line>, i: nat, findings: seq<Finding>)
    requires i < |lines| && lines[i].Bad? && RemarksOf(start, lines, i + 1, findings)
    ensures RemarksOf(start, lines, |lines|, findings)
  {
    hide RemarkAt;
    forall c ensures Remarked(lines, |lines|, c) <==> Remarked(lines, i + 1, c) {
    }
  }

  /** What an observation records of the first n lines: for a configuration file, exactly the first
      well-formed supported occurrence of each name before the first Match; for a key file, the first eight
      keys; and "ok" rather than "partial" exactly when nothing was left out. */
  ghost predicate Observed(f: File, lines: seq<Line>, n: nat)
    requires n <= |lines|
  {
    && (f.status.Intact? <==> AllPlain(lines, n))
    && RecordsFirst(lines, n, f.directives) && (f.kind.AuthorizedKeys? ==> f.directives == [])
    && (if f.kind.SshdConfig? then f.keys == [] else f.keys == KeysOf(lines, n))
    && |f.keys| <= MAX_ENTRIES && (forall k :: 0 <= k < |f.keys| ==> KeyOk(f.keys[k]))
  }

  /** What parse keeps true while it reads line after line: the findings are those it started with and those
      of the lines. */
  ghost predicate Observing(f: File, start: seq<Finding>, lines: seq<Line>, n: nat) {
    && n <= |lines| && WasRead(f.status) && Observed(f, lines, n)
    && NoBad(lines, n) && RemarksOf(start, lines, n, f.findings) && DistinctFindings(f.findings)
  }

  /** One more line: whatever was recorded, the status follows from whether the line is plain. */
  lemma NextLine(f: File, f': File, start: seq<Finding>, lines: seq<Line>, i: nat)
    requires Observing(f, start, lines, i) && i < |lines| && f'.kind == f.kind && DistinctFindings(f'.findings)
    requires !lines[i].Bad? && Remarks(f.findings, lines, i, f'.findings)
    requires WasRead(f'.status) && (f'.status.Intact? <==> f.status.Intact? && Plain(lines, i))
    requires |f'.keys| <= MAX_ENTRIES && forall k :: 0 <= k < |f'.keys| ==> KeyOk(f'.keys[k])
    requires if f.kind.SshdConfig? then f'.keys == [] else f'.keys == KeysOf(lines, i + 1)
    requires RecordsFirst(lines, i + 1, f'.directives) && (f.kind.AuthorizedKeys? ==> f'.directives == [])
    ensures Observing(f', start, lines, i + 1)
  {
    hide RecordsFirst, KeyOk, KeysOf, Plain, DistinctFindings, RemarksOf, Remarks;
    RemarksNext(start, lines, i, f.findings, f'.findings);
  }

  lemma FindingsStayDistinct(findings: seq<Finding>, code: Finding)
    requires DistinctFindings(findings)
    ensures DistinctFindings(WithFinding(findings, code))
  {
  }

  lemma ObservedDirectives(lines: seq<Line>, n: nat, directives: seq<DirectiveEntry>)
    requires RecordsFirst(lines, n, directives) && n <= MAX_LINES + 1
    requires n == MAX_LINES + 1 ==> |lines| > MAX_LINES && lines[MAX_LINES].Blank?
    requires forall i :: 0 <= i < |lines| && lines[i].Setting? ==> DirectiveValue(lines[i].name, lines[i].value)
    ensures forall k :: 0 <= k < |directives| ==> DirectiveOk(directives[k])
    ensures |directives| <= 7
  {
    forall k | 0 <= k < |directives| ensures DirectiveOk(directives[k]) {
      assert RecordsOne(lines, n, directives[k]);
      assert SettingAt(lines, directives[k].line - 1, directives[k].name);
    }
    FewDirectives(directives);
  }

  lemma NoSettingHere(lines: seq<Line>, i: nat)
    requires i < |lines| && (!lines[i].Setting? || !lines[i].single || !BeforeMatch(lines, i))
    ensures forall d: Directive :: !FirstSetting(lines, i, d)
  {
  }

  lemma BeforeMatchNext(lines: seq<Line>, i: nat)
    requires i < |lines|
    ensures BeforeMatch(lines, i + 1) <==> BeforeMatch(lines, i) && !lines[i].Block?
  {
  }

  lemma NamesNext(directives: seq<DirectiveEntry>, e: DirectiveEntry)
    ensures Names(directives + [e]) == Names(directives) + {e.name}
  {
    var all := directives + [e];
    assert all[|directives|] == e;
    assert forall k :: 0 <= k < |directives| ==> all[k] == directives[k];
  }

  /** Skipping a line, with or without a remark about it. */
  lemma SkipKeeps(f: File, remark: Option<Finding>, start: seq<Finding>, lines: seq<Line>, i: nat)
    requires Observing(f, start, lines, i) && i < |lines| && !lines[i].Bad?
             && (forall d: Directive :: !FirstSetting(lines, i, d))
    requires lines[i].Key? ==> f.kind.AuthorizedKeys? && |f.keys| >= MAX_ENTRIES
    requires forall c :: RemarkAt(lines, i, c) <==> remark == Some(c)
    requires remark.Some? ==> !Plain(lines, i)
    requires remark.None? ==> lines[i].Blank? || !f.status.Intact?
    ensures Observing(if remark.Some? then WithPartial(f, remark.value) else f, start, lines, i + 1)
  {
    hide RecordsFirst, FirstSetting, KeyOk, DistinctFindings, RemarkAt, RemarksOf, NoBad;
    RecordSkip(lines, i, f.directives);
    if remark.Some? { FindingsStayDistinct(f.findings, remark.value); }
    NextLine(f, if remark.Some? then WithPartial(f, remark.value) else f, start, lines, i);
  }

  lemma AfterMatchPartial(f: File, start: seq<Finding>, lines: seq<Line>, i: nat)
    requires Observing(f, start, lines, i) && !BeforeMatch(lines, i)
    ensures !f.status.Intact?
  {
    hide RecordsFirst, KeyOk, KeysOf, FirstSetting, RemarksOf, NoBad;
    var j :| 0 <= j < i && lines[j].Block?;
    assert !Plain(lines, j);
  }

  lemma BadLine(f: File, start: seq<Finding>, lines: seq<Line>, i: nat)
    requires Observing(f, start, lines, i) && i < |lines| && lines[i].Bad?
    ensures RemarksOf(start, lines, |lines|, WithFinding(f.findings, lines[i].finding)) && !NoBad(lines, |lines|)
  {
    hide RecordsFirst, KeyOk, AllPlain, RemarksOf, KeysOf;
    var findings := WithFinding(f.findings, lines[i].finding);
    RemarksNext(start, lines, i, f.findings, findings);
    RemarksEnd(start, lines, i, findings);
  }

  predicate NoKeys(lines: seq<Line>, n: nat)
    requires n <= |lines|
  {
    forall i: nat :: i < n ==> !lines[i].Key?
  }

  lemma {:induction false} NoKeysOf(lines: seq<Line>, n: nat)
    requires n <= |lines|
    ensures KeysOf(lines, n) == [] <==> NoKeys(lines, n)
  {
    if n > 0 {
      NoKeysOf(lines, n - 1);
    }
  }

  /** A key file is found empty exactly when it has no key line. */
  lemma NoKeysIff(f: File, start: seq<Finding>, lines: seq<Line>)
    requires Observing(f, start, lines, |lines|)
    requires f.kind.AuthorizedKeys? ==>
               forall i :: 0 <= i < |lines| ==> lines[i].Blank? || lines[i].Bad? || lines[i].Key?
    ensures f.kind.AuthorizedKeys? ==> (f.status.Intact? && f.keys == [] <==> NoKeys(lines, |lines|))
  {
    hide RecordsFirst, KeyOk, KeysOf, RemarksOf;
    NoKeysOf(lines, |lines|);
  }

  /** What a readable file is compared with. */
  function Comparison(data: Content, want: Option<Sha256<Content>>): Baseline {
    if want.None? then Unconfigured else if want == Some(Sha256(data)) then Match else Changed
  }

  // ---- When a file is read, and what is found ----

  predicate Control(c: char) {
    (c < ' ' && c != '\r' && c != '\n' && c != '\t') || c == '\U{7F}'
  }

  predicate ControlFree(text: string) {
    forall i :: 0 <= i < |text| ==> !Control(text[i])
  }

  predicate LineCountOk(raw: seq<string>) {
    |raw| <= 512 || (|raw| == 513 && raw[512] == "")
  }

  /** Content that is not looked at any further. */
  predicate Sensitive(data: Content) {
    ContentSize(data) > 65536 || data.OtherBytes? || Contains(data.text, "PRIVATE KEY")
  }

  predicate Readable(data: Content, kind: FileKind, parser: KeyParser) {
    !Sensitive(data) && ControlFree(data.text) && LineCountOk(Lines(data.text))
    && var lines := Classified(Lines(data.text), kind, parser); NoBad(lines, |lines|)
  }

  /** The status of content that is not readable. */
  function FailureStatus(data: Content): FileStatus {
    if Sensitive(data) then SensitiveContent else ParseError
  }

  /** The findings that parse adds for some content. */
  ghost predicate Found(data: Content, kind: FileKind, parser: KeyParser, c: Finding) {
    && !Sensitive(data) && ControlFree(data.text)
    && (if !LineCountOk(Lines(data.text)) then c.LineLimit?
        else
          var lines := Classified(Lines(data.text), kind, parser);
          || Remarked(lines, |lines|, c)
          || (c.EmptyKeyFile? && kind.AuthorizedKeys? && NoBad(lines, |lines|) && NoKeys(lines, |lines|)))
  }

  // ---- From classified lines back to the characters ----

  /** In a configuration file without a bad line, the first settings are those that the characters give. */
  lemma FirstSettingIff(raw: seq<string>, parser: KeyParser, i: nat, d: Directive)
    requires var lines := Classified(raw, SshdConfig, parser); NoBad(lines, |lines|)
    ensures var lines := Classified(raw, SshdConfig, parser);
            FirstSetting(lines, i, d) <==> i < |raw| && SetsFirst(raw, i, d, if lines[i].Setting? then lines[i].value else "")
    ensures forall v: string :: SetsFirst(raw, i, d, v) ==> Classified(raw, SshdConfig, parser)[i] == Setting(d, v, true)
  {
    hide Classify, Sets, Begins;
    var lines := Classified(raw, SshdConfig, parser);
    forall j: nat | j < |raw|
      ensures lines[j].Block? <==> Begins(raw[j], "match")
      ensures SettingAt(lines, j, d) <==> lines[j].Setting? && Sets(raw[j], d, lines[j].value)
      ensures forall v: string :: lines[j] == Setting(d, v, true) <==> Sets(raw[j], d, v)
    {
      ClassifyIff(raw[j], parser);
    }
  }

  lemma RecordedAreFirst(raw: seq<string>, parser: KeyParser, directives: seq<DirectiveEntry>, k: nat)
    requires var lines := Classified(raw, SshdConfig, parser);
             NoBad(lines, |lines|) && RecordsFirst(lines, |lines|, directives) && k < |directives|
    ensures directives[k].line >= 1
    ensures SetsFirst(raw, directives[k].line - 1, directives[k].name, directives[k].value)
  {
    hide Classify, FirstSetting, SetsFirst, Classified, Recorded, NoBad;
    var lines := Classified(raw, SshdConfig, parser);
    assert RecordsOne(lines, |lines|, directives[k]);
    FirstSettingIff(raw, parser, directives[k].line - 1, directives[k].name);
    RecordedIsSetting(lines, directives[k]);
  }

  lemma FirstAreRecorded(
      raw: seq<string>, parser: KeyParser, directives: seq<DirectiveEntry>, i: nat, d: Directive, v: string)
    requires var lines := Classified(raw, SshdConfig, parser);
             NoBad(lines, |lines|) && RecordsFirst(lines, |lines|, directives)
    requires SetsFirst(raw, i, d, v)
    ensures DirectiveEntry(i + 1, d, v) in directives
  {
    hide Classify, FirstSetting, SetsFirst, Classified, NoBad;
    var lines := Classified(raw, SshdConfig, parser);
    FirstSettingIff(raw, parser, i, d);
    FirstIsInside(raw, i, d, v);
    assert FirstSetting(lines, i, d);
    assert Recorded(directives, i);
    var k :| 0 <= k < |directives| && directives[k].line == i + 1;
    assert RecordsOne(lines, |lines|, directives[k]);
    RecordedIsSetting(lines, directives[k]);
    assert directives[k] == DirectiveEntry(i + 1, d, v);
  }

  /** What parse records of a configuration file is what its characters say. */
  lemma RecordsAreReports(raw: seq<string>, parser: KeyParser, directives: seq<DirectiveEntry>)
    requires var lines := Classified(raw, SshdConfig, parser);
             NoBad(lines, |lines|) && RecordsFirst(lines, |lines|, directives)
    ensures Reports(raw, directives)
  {
    hide Classify, FirstSetting, SetsFirst, NoBad, Classified, RecordsOne;
    forall k | 0 <= k < |directives|
      ensures directives[k].line >= 1
              && SetsFirst(raw, directives[k].line - 1, directives[k].name, directives[k].value)
    {
      RecordedAreFirst(raw, parser, directives, k);
    }
    forall i: nat, d: Directive, v: string | SetsFirst(raw, i, d, v) ensures DirectiveEntry(i + 1, d, v) in directives {
      FirstAreRecorded(raw, parser, directives, i, d, v);
    }
  }

  lemma FirstIsInside(raw: seq<string>, i: nat, d: Directive, v: string)
    requires SetsFirst(raw, i, d, v)
    ensures i < |raw|
  {
  }

  lemma RecordedIsSetting(lines: seq<Line>, e: DirectiveEntry)
    requires RecordsOne(lines, |lines|, e)
    ensures lines[e.line - 1] == Setting(e.name, e.value, true)
  {
  }

  class Observer {
    var f: File

    constructor (f: File)
      ensures this.f == f
    {
      this.f := f;
    }

    /** finding. */
    method AddFinding(code: Finding)
      modifies this
      ensures f == old(f).(findings := WithFinding(old(f).findings, code))
      ensures DistinctFindings(old(f).findings) ==> DistinctFindings(f.findings)
    {
      for i := 0 to |f.findings|
        invariant f == old(f) && forall j :: 0 <= j < i ==> f.findings[j] != code
      {
        if f.findings[i] == code {
          return;
        }
      }
      f := f.(findings := f.findings + [code]);
    }

    /** partial. */
    method MarkPartial(code: Finding)
      modifies this
      ensures f == WithPartial(old(f), code)
    {
      if f.status.Intact? {
        f := f.(status := Partial);
      }
      AddFinding(code);
    }

    /** One key line. */
    method ObserveKey(k: PublicKey, i: nat, ghost start: seq<Finding>, ghost lines: seq<Line>)
      requires i < |lines| && lines[i] == Key(k) && i < MAX_LINES && WellFormedKey(k)
      requires f.kind.AuthorizedKeys? && Observing(f, start, lines, i)
      modifies this
      ensures Observing(f, start, lines, i + 1) && SameFile(old(f), f)
    {
      hide RecordsFirst, FirstSetting, BeforeMatch, DistinctFindings, RemarksOf, NoBad;
      NoSettingHere(lines, i);
      if |f.keys| >= MAX_ENTRIES {
        SkipKeeps(f, Some(KeyLimit), start, lines, i);
        MarkPartial(KeyLimit);
        return;
      }
      ghost var before := f;
      f := f.(keys := f.keys + [KeyEntry(i + 1, k.kind, k.fingerprint, k.hasOptions)]);
      if k.hasOptions {
        FindingsStayDistinct(f.findings, KeyOptionsNotEvaluated);
        MarkPartial(KeyOptionsNotEvaluated);
      }
      if k.certificate {
        FindingsStayDistinct(f.findings, KeyCertificateNotEvaluated);
        MarkPartial(KeyCertificateNotEvaluated);
      }
      RecordSkip(lines, i, f.directives);
      NextLine(before, f, start, lines, i);
    }

    /** One well-formed supported directive with a single value, before any Match. */
    method ObserveSetting(line: Line, i: nat, seen: set<Directive>, ghost start: seq<Finding>, ghost lines: seq<Line>)
      returns (seen': set<Directive>)
      requires i < |lines| && lines[i] == line && line.Setting? && line.single && i < MAX_LINES && BeforeMatch(lines, i)
      requires f.kind.SshdConfig? && Observing(f, start, lines, i) && seen == Names(f.directives)
      modifies this
      ensures Observing(f, start, lines, i + 1) && SameFile(old(f), f) && seen' == Names(f.directives)
    {
      hide BeforeMatch, RecordsOne, KeysOf, KeyOk, AllPlain, DistinctFindings, RemarksOf, NoBad;
      FirstIffNew(lines, i, f.directives, line.name);
      FewDirectives(f.directives);
      if line.name in seen {
        NotFirst(lines, i);
        hide FirstSetting, RecordsFirst;
        SkipKeeps(f, Some(DuplicateDirective), start, lines, i);
        MarkPartial(DuplicateDirective);
        return seen;
      }
      seen' := seen + {line.name};
      if |f.directives| >= MAX_ENTRIES {
        // The branch that would report directive_limit: there are only seven names to record.
        assert false;
      }
      var e := DirectiveEntry(i + 1, line.name, line.value);
      assert RecordsOne(lines, i + 1, e) by { NewEntry(lines, i, e); }
      RecordNext(lines, i, f.directives, e);
      NamesNext(f.directives, e);
      hide FirstSetting, RecordsFirst, Names;
      NextLine(f, f.(directives := f.directives + [e]), start, lines, i);
      f := f.(directives := f.directives + [e]);
    }

    /** One line of either kind of file, other than a bad one. */
    method Observe(
      line: Line, i: nat, matched: bool, seen: set<Directive>, ghost start: seq<Finding>, ghost lines: seq<Line>)
      returns (matched': bool, seen': set<Directive>)
      requires i < |lines| && lines[i] == line && !line.Bad? && (i < MAX_LINES || line.Blank?)
      requires f.kind.SshdConfig? ==> !line.Key?
      requires f.kind.AuthorizedKeys? ==> line.Blank? || line.Key?
      requires line.Key? ==> WellFormedKey(line.key)
      requires Observing(f, start, lines, i) && matched == !BeforeMatch(lines, i) && seen == Names(f.directives)
      modifies this
      ensures Observing(f, start, lines, i + 1) && SameFile(old(f), f)
      ensures matched' == !BeforeMatch(lines, i + 1) && seen' == Names(f.directives)
    {
      hide RecordsFirst, FirstSetting, BeforeMatch, KeyOk, AllPlain, KeysOf, DistinctFindings, RemarksOf, NoBad;
      BeforeMatchNext(lines, i);
      matched', seen' := matched || line.Block?, seen;
      if line.Key? {
        KeysHaveNoDirectives(f, start, lines, i);
        ObserveKey(line.key, i, start, lines);
        KeysHaveNoDirectives(f, start, lines, i + 1);
        return;
      }
      if line.Setting? && !matched && line.single {
        seen' := ObserveSetting(line, i, seen, start, lines);
        return;
      }
      NoSettingHere(lines, i);
      if matched { AfterMatchPartial(f, start, lines, i); }
      var remark :=
        match line
        case Block => Some(MatchNotEvaluated)
        case Include => Some(IncludeNotExpanded)
        case Dynamic => Some(DynamicAuthNotEvaluated)
        case NotObserved => if matched then None else Some(OtherDirectivesNotEvaluated)
        case Setting(_, _, _) => if matched then None else Some(InvalidValue)
        case _ => None;
      SkipKeeps(f, remark, start, lines, i);
      if remark.Some? {
        MarkPartial(remark.value);
      }
    }

    /** The line loop of parse; `broken` when it stopped at a bad line, which it does if there is one. */
    method ParseLines(raw: seq<string>, parser: KeyParser) returns (broken: bool)
      requires f.status.Intact? && f.keys == [] && f.directives == [] && DistinctFindings(f.findings)
      requires KeysWellFormed(parser) && LineCountOk(raw)
      modifies this
      ensures SameFile(old(f), f) && DistinctFindings(f.findings)
      ensures var lines := Classified(raw, f.kind, parser);
              && (broken <==> !NoBad(lines, |lines|))
              && (if broken then f.status.ParseError? && RemarksOf(old(f).findings, lines, |lines|, f.findings)
                  else Observing(f, old(f).findings, lines, |lines|))
    {
      hide RecordsFirst, BeforeMatch, Classify, WellFormedKey, KeyOk, AllPlain, KeysOf, RemarksOf, KeysWellFormed;
      ghost var start, lines := f.findings, Classified(raw, f.kind, parser);
      NothingObserved(f, lines);
      var matched, seen := false, {};
      for i := 0 to |raw|
        invariant SameFile(old(f), f) && Observing(f, start, lines, i)
        invariant matched == !BeforeMatch(lines, i) && seen == Names(f.directives)
      {
        var line := Classify(raw[i], f.kind, parser);
        LineFacts(raw[i], f.kind, parser);
        if line.Bad? {
          BadLine(f, start, lines, i);
          f := f.(status := ParseError);
          AddFinding(line.finding);
          return true;
        }
        matched, seen := Observe(line, i, matched, seen, start, lines);
      }
      return false;
    }

    /** The digest of a file that was read, against its baseline. */
    method Compare(data: Content, want: Option<Sha256<Content>>)
      modifies this
      ensures f == old(f).(digest := Some(Sha256(data)), baseline := Comparison(data, want),
                           findings := if !Comparison(data, want).Changed? then old(f).findings
                                       else WithFinding(old(f).findings, BaselineChanged))
      ensures DistinctFindings(old(f).findings) ==> DistinctFindings(f.findings)
    {
      f := f.(digest := Some(Sha256(data)), baseline := Unconfigured);
      if want.Some? {
        f := f.(baseline := Match);
        if want != f.digest {
          f := f.(baseline := Changed);
          AddFinding(BaselineChanged);
        }
      }
    }

    /** parse: the file is read exactly when its content is readable, and otherwise the status says why. */
    method Parse(data: Content, parser: KeyParser)
      requires f.status.Intact? && f.keys == [] && f.directives == [] && DistinctFindings(f.findings)
      requires KeysWellFormed(parser)
      modifies this
      ensures SameFile(old(f), f) && DistinctFindings(f.findings)
      ensures WasRead(f.status) <==> Readable(data, f.kind, parser)
      ensures if Readable(data, f.kind, parser)
              then var lines := Classified(Lines(data.text), f.kind, parser); Observed(f, lines, |lines|)
              else f.status == FailureStatus(data) && f.keys == [] && f.directives == []
      ensures forall c :: c in f.findings <==> c in old(f).findings || Found(data, f.kind, parser, c)
      ensures WasRead(f.status) && f.kind.SshdConfig? ==> data.Utf8? && Reports(Lines(data.text), f.directives)
    {
      hide RecordsFirst, KeyOk, Lines, Contains, ByteSize, Classified, KeysWellFormed, AllPlain, KeysOf, NoBad,
           Remarked, DistinctFindings, Reports;
      if ContentSize(data) > MAX_BYTES || data.OtherBytes? || Contains(data.text, "PRIVATE KEY") {
        f := f.(status := SensitiveContent);
        return;
      }
      for i := 0 to |data.text|
        invariant f == old(f) && ControlFree(data.text[..i])
      {
        var c := data.text[i];
        assert data.text[..i + 1][i] == c;
        if Control(c) {
          f := f.(status := ParseError);
          return;
        }
      }
      assert data.text[..|data.text|] == data.text;
      var raw := Lines(data.text);
      if !LineCountOk(raw) {
        f := f.(status := ParseError);
        AddFinding(LineLimit);
        return;
      }
      var broken := ParseLines(raw, parser);
      if broken {
        f := f.(keys := [], directives := []);
      } else {
        NoKeysIff(f, old(f).findings, Classified(raw, f.kind, parser));
        if f.kind.SshdConfig? { RecordsAreReports(raw, parser, f.directives); }
      }
      if f.kind.AuthorizedKeys? && f.status.Intact? && f.keys == [] {
        AddFinding(EmptyKeyFile);
      }
    }
  }


  lemma NothingObserved(f: File, lines: seq<Line>)
    requires f.status.Intact? && f.keys == [] && f.directives == [] && DistinctFindings(f.findings)
    ensures Observing(f, f.findings, lines, 0) && BeforeMatch(lines, 0) && Names(f.directives) == {}
  {
  }

  lemma LineFacts(raw: string, kind: FileKind, parser: KeyParser)
    requires KeysWellFormed(parser)
    ensures raw == "" ==> Classify(raw, kind, parser).Blank?
    ensures Classify(raw, kind, parser).Key? ==> WellFormedKey(Classify(raw, kind, parser).key)
  {
    hide WellFormedKey, LowerName, KeywordOf;
  }

  /** The parts of an observation that parsing leaves alone. */
  predicate SameFile(f: File, f': File) {
    f'.id == f.id && f'.kind == f.kind && f'.metadataAvailable == f.metadataAvailable && f'.metadata == f.metadata
    && f'.digest == f.digest && f'.baseline == f.baseline
  }

  lemma NotFirst(lines: seq<Line>, i: nat)
    requires i < |lines| && lines[i].Setting? && !FirstSetting(lines, i, lines[i].name)
    ensures forall d: Directive :: !FirstSetting(lines, i, d)
  {
  }

  lemma NewEntry(lines: seq<Line>, i: nat, e: DirectiveEntry)
    requires i < |lines| && lines[i].Setting? && FirstSetting(lines, i, lines[i].name)
             && e == DirectiveEntry(i + 1, lines[i].name, lines[i].value)
    ensures RecordsOne(lines, i + 1, e)
  {
  }

  lemma KeysHaveNoDirectives(f: File, start: seq<Finding>, lines: seq<Line>, n: nat)
    requires Observing(f, start, lines, n) && f.kind.AuthorizedKeys?
    ensures Names(f.directives) == {}
  {
    hide RecordsFirst;
  }

  // ---- Collect ----

  /** A configured file and the content digest it should have, if any. */
  datatype Mapping = Mapping(id: string, kind: FileKind, baseline: Option<Sha256<Content>>)

  datatype Profile = Profile(id: string, files: seq<Mapping>)

  predicate ProfileOk(p: Profile) {
    && ResourceId(p.id) && 1 <= |p.files| <= 4
    && (forall i :: 0 <= i < |p.files| ==> ResourceId(p.files[i].id))
    && (forall i, j :: 0 <= i < j < |p.files| ==> p.files[i].id != p.files[j].id)
  }

  /** What a bounded read returns. */
  datatype Read = Read(code: FileStatus, metadataAvailable: bool, metadata: Metadata, data: Content)

  predicate ReadOk(r: Read) {
    && !r.code.Partial? && !r.code.ParseError? && !r.code.SensitiveContent?
    && (!r.metadataAvailable ==> r.metadata == Metadata(0, 0, 0, 0))
    && (r.code.Intact? ==> r.metadataAvailable)
    && 0 <= r.metadata.mode <= 0xFFF && r.metadata.size >= 0
  }

  /** Mode bits 0020 and 0002. */
  predicate OthersMayWrite(mode: int) {
    mode / 16 % 2 == 1 || mode / 2 % 2 == 1
  }

  /** The findings of the report about one file. */
  ghost predicate Expected(m: Mapping, r: Read, parser: KeyParser, c: Finding) {
    || (c.GroupOrOtherWritable? && r.metadataAvailable && OthersMayWrite(r.metadata.mode))
    || (r.code.Intact? && Found(r.data, m.kind, parser, c))
    || (c.BaselineChanged? && r.code.Intact? && Readable(r.data, m.kind, parser)
        && Comparison(r.data, m.baseline).Changed?)
  }

  /** What the report says about a file: whether it was read and why not, what it records of the lines of a
      file that was, and exactly which findings it lists. */
  ghost predicate Faithful(f: File, m: Mapping, r: Read, parser: KeyParser) {
    && f.id == m.id && f.kind == m.kind && f.metadataAvailable == r.metadataAvailable && f.metadata == r.metadata
    && (WasRead(f.status) <==> r.code.Intact? && Readable(r.data, m.kind, parser))
    && (!r.code.Intact? ==> f.status == r.code)
    && (r.code.Intact? && !Readable(r.data, m.kind, parser) ==> f.status == FailureStatus(r.data))
    && (WasRead(f.status) ==>
          && f.digest == Some(Sha256(r.data)) && f.baseline == Comparison(r.data, m.baseline)
          && var lines := Classified(Lines(r.data.text), m.kind, parser); Observed(f, lines, |lines|))
    && (forall c :: c in f.findings <==> Expected(m, r, parser, c))
  }

  /** What the report says of a configuration file that was read is what its characters say. */
  ghost predicate Literal(f: File, r: Read) {
    WasRead(f.status) && f.kind.SshdConfig? ==> r.data.Utf8? && Reports(Lines(r.data.text), f.directives)
  }

  /** The limit on recorded directives is never reported. */
  lemma DirectiveLimitNeverFound(f: File, m: Mapping, r: Read, parser: KeyParser)
    requires Faithful(f, m, r, parser)
    ensures DirectiveLimit !in f.findings
  {
    hide Readable, Sensitive, ControlFree, Classify, Lines, Observed;
    assert !Expected(m, r, parser, DirectiveLimit);
  }

  lemma SettingsHaveValues(raw: seq<string>, kind: FileKind, parser: KeyParser)
    ensures var lines := Classified(raw, kind, parser);
            forall i :: 0 <= i < |lines| && lines[i].Setting? ==> DirectiveValue(lines[i].name, lines[i].value)
  {
    hide Classify, DirectiveValue;
  }

  /** What parse records of readable content passes the entry checks of the validator. */
  lemma {:induction false} ReadableIsOk(f: File, data: Content, parser: KeyParser)
    requires KeysWellFormed(parser) && Readable(data, f.kind, parser) && DistinctFindings(f.findings)
    requires var lines := Classified(Lines(data.text), f.kind, parser); Observed(f, lines, |lines|)
    ensures EntriesOk(f) && |f.keys| <= MAX_ENTRIES && |f.directives| <= MAX_ENTRIES
    ensures if f.kind.SshdConfig? then f.keys == [] else f.directives == []
  {
    hide RecordsFirst, Classify, Classified, KeysWellFormed, KeyOk, DirectiveOk, DirectiveValue, AllPlain, KeysOf;
    hide DistinctFindings, Lines, Contains, ContentSize, ControlFree, NoBad;
    var raw := Lines(data.text);
    SettingsHaveValues(raw, f.kind, parser);
    if |raw| == MAX_LINES + 1 {
      LineFacts(raw[MAX_LINES], f.kind, parser);
    }
    ObservedDirectives(Classified(raw, f.kind, parser), |raw|, f.directives);
  }

  lemma NoFindings(f: File)
    requires f.findings == []
    ensures DistinctFindings(f.findings)
  {
  }

  /** The body of the loop of Collect: one file of the report. */
  method Inspect(m: Mapping, r: Read, parser: KeyParser) returns (f: File)
    requires ResourceId(m.id) && ReadOk(r) && KeysWellFormed(parser)
    ensures FileOk(f) && Faithful(f, m, r, parser)
    ensures Literal(f, r)
  {
    hide RecordsFirst, Classify, KeyOk, DirectiveOk, Lines, ResourceId, KeysWellFormed, Classified, OthersMayWrite,
         AllPlain, KeysOf;
    hide DistinctFindings, Found, Readable, FailureStatus, Reports;
    var start := File(m.id, m.kind, r.code, r.metadataAvailable, r.metadata, None, Unavailable, [], [], []);
    var o := new Observer(start);
    assert DistinctFindings(start.findings) by { NoFindings(start); }
    if r.metadataAvailable && OthersMayWrite(r.metadata.mode) {
      o.AddFinding(GroupOrOtherWritable);
    }
    if r.code.Intact? {
      o.Parse(r.data, parser);
      if WasRead(o.f.status) {
        ReadableIsOk(o.f, r.data, parser);
        o.Compare(r.data, m.baseline);
      }
    }
    FewFindings(o.f.findings);
    return o.f;
  }

  /** Collect: whatever the files hold and however reading them ends, the report is one that the
      independent validator accepts, then and at any later time, unless the clock read before 1970. */
  method Collect(p: Profile, contents: seq<Read>, parser: KeyParser, observedAt: int64) returns (r: Report)
    requires ProfileOk(p) && |contents| == |p.files| && KeysWellFormed(parser)
    requires forall i :: 0 <= i < |contents| ==> ReadOk(contents[i])
    ensures forall now: int64 :: ReportOk(r, now) <==> 1 <= observedAt <= now
    ensures r.profile == p.id && r.observedAt == observedAt && |r.files| == |p.files|
    ensures r.coverage == CompleteCoverage <==> forall i :: 0 <= i < |r.files| ==> r.files[i].status == Intact
    ensures r.coverage == NoCoverage <==>
              forall i :: 0 <= i < |r.files| ==> r.files[i].status != Intact && r.files[i].status != Partial
    ensures forall i :: 0 <= i < |r.files| ==> Faithful(r.files[i], p.files[i], contents[i], parser)
    ensures forall i :: 0 <= i < |r.files| ==> Literal(r.files[i], contents[i])
  {
    hide FileOk, ReadOk, ResourceId, Faithful, KeysWellFormed, ReportOk, Literal;
    var coverage, files: seq<File>, anyRead := CompleteCoverage, [], false;
    for i := 0 to |p.files|
      invariant |files| == i
      invariant forall j :: 0 <= j < i ==> FileOk(files[j]) && Faithful(files[j], p.files[j], contents[j], parser)
      invariant forall j :: 0 <= j < i ==> Literal(files[j], contents[j])
      invariant anyRead <==> AnyRead(files)
      invariant coverage == if AllIntact(files) then CompleteCoverage else PartialCoverage
    {
      var f := Inspect(p.files[i], contents[i], parser);
      CoverageNext(files, f);
      if WasRead(f.status) {
        anyRead := true;
      }
      if !f.status.Intact? {
        coverage := PartialCoverage;
      }
      files := files + [f];
    }
    if !anyRead {
      coverage := NoCoverage;
    }
    assert AllIntact(files) ==> WasRead(files[0].status);
    r := Report.Report(p.id, observedAt, coverage, files);
    AcceptedIff(p, r, contents, parser);
  }

  lemma AcceptedIff(p: Profile, r: Report, contents: seq<Read>, parser: KeyParser)
    requires ProfileOk(p) && r.profile == p.id && |r.files| == |p.files| == |contents|
    requires forall i :: 0 <= i < |r.files| ==>
               FileOk(r.files[i]) && Faithful(r.files[i], p.files[i], contents[i], parser)
    requires r.coverage == WantCoverage(r.files)
    ensures forall now: int64 :: ReportOk(r, now) <==> 1 <= r.observedAt <= now
  {
    hide FileOk, ResourceId, Readable, Observed, Expected, FailureStatus, WantCoverage;
  }

  lemma CoverageNext(files: seq<File>, f: File)
    ensures AllIntact(files + [f]) <==> AllIntact(files) && f.status.Intact?
    ensures AnyRead(files + [f]) <==> AnyRead(files) || WasRead(f.status)
  {
    var all := files + [f];
    assert all[|files|] == f;
    if AnyRead(files) {
      var i :| 0 <= i < |files| && WasRead(files[i].status);
      assert all[i] == files[i];
    }
    assert forall i :: 0 <= i < |files| ==> all[i] == files[i];
  }
}
