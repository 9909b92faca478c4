/** What a report says of a file, in terms of its characters and metadata alone (internal/sshaudit/audit.go). */
module SshFindings {
  import opened Core
  import opened Protocol
  import opened SshLines
  import opened SshReport
  import opened SshAudit
  import opened Text

  // ---- Verdicts ----

  /** The verdict on a file that was read is that of comparing digests; a warning is given for every difference and for
      every file that others may write, and for no other. */
  lemma VerdictsIff(f: File, m: Mapping, r: Read, parser: KeyParser)
    requires Faithful(f, m, r, parser)
    ensures GroupOrOtherWritable in f.findings <==>
              r.metadataAvailable && (r.metadata.mode / 16 % 2 == 1 || r.metadata.mode / 2 % 2 == 1)
    ensures WasRead(f.status) ==>
              && f.digest == Some(Sha256(r.data))
              && (f.baseline == Unconfigured <==> m.baseline == None)
              && (f.baseline == Match <==> m.baseline == Some(Sha256(r.data)))
              && (f.baseline == Changed <==> m.baseline != None && m.baseline != Some(Sha256(r.data)))
              && (BaselineChanged in f.findings <==> f.baseline == Changed)
  {
    hide Sensitive, ControlFree, Classify, Lines, Observed, Classified, LineCountOk, NoBad, WasRead;
    assert GroupOrOtherWritable in f.findings <==> Expected(m, r, parser, GroupOrOtherWritable);
    assert BaselineChanged in f.findings <==> Expected(m, r, parser, BaselineChanged);
    if r.data.Utf8? {
      NotOfALine(Lines(r.data.text), m.kind, parser, GroupOrOtherWritable);
      NotOfALine(Lines(r.data.text), m.kind, parser, BaselineChanged);
    } else {
      BytesAreSensitive(r.data);
    }
  }

  lemma BytesAreSensitive(data: Content)
    ensures !Sensitive(data) ==> data.Utf8?
  {
  }

  lemma NotOfALine(raw: seq<string>, kind: FileKind, parser: KeyParser, c: Finding)
    requires c.GroupOrOtherWritable? || c.BaselineChanged?
    ensures var lines := Classified(raw, kind, parser); !Remarked(lines, |lines|, c)
  {
    hide Classify, NoBad, BeforeMatch, FirstSetting;
  }

  // ---- Warnings about a configuration file ----

  ghost predicate SomeLine(raw: seq<string>, name: string) {
    exists i :: 0 <= i < |raw| && Begins(raw[i], name)
  }

  ghost predicate SomeDelegates(raw: seq<string>) {
    exists i :: 0 <= i < |raw| && Delegates(raw[i])
  }

  lemma LineKinds(raw: seq<string>, parser: KeyParser)
    requires var lines := Classified(raw, SshdConfig, parser); NoBad(lines, |lines|)
    ensures var lines := Classified(raw, SshdConfig, parser);
            && |lines| == |raw|
            && (forall i :: 0 <= i < |raw| ==>
                  && (lines[i].Block? <==> Begins(raw[i], "match")) && (lines[i].Include? <==> Begins(raw[i], "include"))
                  && (lines[i].Dynamic? <==> Delegates(raw[i])) && !lines[i].Bad? && !lines[i].Key?)
  {
    hide Classify, Begins, Delegates;
    forall i | 0 <= i < |raw|
      ensures !Classified(raw, SshdConfig, parser)[i].Bad? { }
    forall i | 0 <= i < |raw| { ClassifyIff(raw[i], parser); }
  }

  /** A configuration file that was read gets each of the three warnings exactly if some line of it starts a Match block,
      includes a file, or sends key or certificate lookup elsewhere. */
  lemma WarningsIff(f: File, m: Mapping, r: Read, parser: KeyParser)
    requires Faithful(f, m, r, parser) && WasRead(f.status) && m.kind == SshdConfig
    ensures MatchNotEvaluated in f.findings <==> SomeLine(Lines(r.data.text), "match")
    ensures IncludeNotExpanded in f.findings <==> SomeLine(Lines(r.data.text), "include")
    ensures DynamicAuthNotEvaluated in f.findings <==> SomeDelegates(Lines(r.data.text))
  {
    BytesAreSensitive(r.data);
    hide Sensitive, ControlFree, Classify, Lines, Observed, Classified, LineCountOk, NoBad, Remarked, WasRead, Begins,
         Delegates;
    var raw := Lines(r.data.text);
    LineKinds(raw, parser);
    RemarkedKinds(Classified(raw, SshdConfig, parser));
    assert MatchNotEvaluated in f.findings <==> Expected(m, r, parser, MatchNotEvaluated);
    assert IncludeNotExpanded in f.findings <==> Expected(m, r, parser, IncludeNotExpanded);
    assert DynamicAuthNotEvaluated in f.findings <==> Expected(m, r, parser, DynamicAuthNotEvaluated);
  }

  lemma RemarkedKinds(lines: seq<Line>)
    requires NoBad(lines, |lines|)
    ensures Remarked(lines, |lines|, MatchNotEvaluated) <==> exists i :: 0 <= i < |lines| && lines[i].Block?
    ensures Remarked(lines, |lines|, IncludeNotExpanded) <==> exists i :: 0 <= i < |lines| && lines[i].Include?
    ensures Remarked(lines, |lines|, DynamicAuthNotEvaluated) <==> exists i :: 0 <= i < |lines| && lines[i].Dynamic?
  {
    hide FirstSetting, BeforeMatch;
    forall i: nat | i < |lines|
      ensures NoBad(lines, i)
      ensures RemarkAt(lines, i, MatchNotEvaluated) <==> lines[i].Block?
      ensures RemarkAt(lines, i, IncludeNotExpanded) <==> lines[i].Include?
      ensures RemarkAt(lines, i, DynamicAuthNotEvaluated) <==> lines[i].Dynamic?
    {
    }
    hide RemarkAt, NoBad;
  }

  // ---- Keys ----

  /** The characters of this line, without white space around them, are this key. */
  ghost predicate KeyLine(s: string, parser: KeyParser, k: PublicKey) {
    exists lo: nat, hi: nat :: Body(s, lo, hi) && s[lo] != '#' && parser(s[lo..hi]) == Some(k)
  }

  function Entry(i: nat, k: PublicKey): KeyEntry {
    KeyEntry(i + 1, k.kind, k.fingerprint, k.hasOptions)
  }

  ghost predicate ReportsKey(raw: seq<string>, parser: KeyParser, e: KeyEntry) {
    exists i: nat, k: PublicKey :: i < |raw| && KeyLine(raw[i], parser, k) && e == Entry(i, k)
  }

  /** The reported keys are, in order, those of the first eight lines that hold one. */
  ghost predicate ReportsKeys(raw: seq<string>, parser: KeyParser, keys: seq<KeyEntry>) {
    && |keys| <= 8 && (forall j :: 0 <= j < |keys| ==> ReportsKey(raw, parser, keys[j]))
    && (forall j, l :: 0 <= j < l < |keys| ==> keys[j].line < keys[l].line)
    && (forall i: nat, k: PublicKey :: i < |raw| && KeyLine(raw[i], parser, k) ==>
          Entry(i, k) in keys || (|keys| == 8 && keys[7].line < i + 1))
  }

  lemma {:induction false} BodyOf(s: string, hi: nat) returns (end: nat)
    requires hi <= |s| && Blanks(s, hi, |s|) && exists i :: 0 <= i < hi && !IsSpace(s[i])
    ensures 0 < end <= hi && Blanks(s, end, |s|) && !IsSpace(s[end - 1])
  {
    hide IsSpace;
    if IsSpace(s[hi - 1]) {
      end := BodyOf(s, hi - 1);
    } else {
      end := hi;
    }
  }

  /** Blank lines and comments hold no key. */
  lemma EmptyHasNoBody(s: string, lo: nat, hi: nat)
    requires Body(s, lo, hi)
    ensures Empty(s) <==> s[lo] == '#'
  {
  }

  lemma KeyLineIff(s: string, parser: KeyParser, k: PublicKey)
    requires Clean(s)
    ensures Classify(s, AuthorizedKeys, parser) == Key(k) <==> KeyLine(s, parser, k)
  {
    hide Classify, Clean;
    if KeyLine(s, parser, k) {
      var lo: nat, hi: nat :| Body(s, lo, hi) && s[lo] != '#' && parser(s[lo..hi]) == Some(k);
      EmptyHasNoBody(s, lo, hi);
      ClassifyKeyIff(s, parser, lo, hi);
    }
    if Classify(s, AuthorizedKeys, parser) == Key(k) {
      ClassifyKeyIff(s, parser, 0, 0);
      var lo := FirstOf(s, 0);
      var hi := BodyOf(s, |s|);
      EmptyHasNoBody(s, lo, hi);
      ClassifyKeyIff(s, parser, lo, hi);
    }
  }

  lemma FirstOf(s: string, lo: nat) returns (first: nat)
    requires Blanks(s, 0, lo) && !Blanks(s, 0, |s|)
    ensures first < |s| && Blanks(s, 0, first) && !IsSpace(s[first])
    decreases |s| - lo
  {
    hide IsSpace;
    if !IsSpace(s[lo]) {
      first := lo;
    } else {
      first := FirstOf(s, lo + 1);
    }
  }

  lemma KeyLines(raw: seq<string>, parser: KeyParser)
    requires var lines := Classified(raw, AuthorizedKeys, parser); NoBad(lines, |lines|)
    ensures var lines := Classified(raw, AuthorizedKeys, parser);
            forall i: nat, k: PublicKey :: i < |raw| ==> (lines[i] == Key(k) <==> KeyLine(raw[i], parser, k))
  {
    hide Classify, KeyLine, Clean;
    var lines := Classified(raw, AuthorizedKeys, parser);
    forall i: nat, k: PublicKey | i < |raw| ensures lines[i] == Key(k) <==> KeyLine(raw[i], parser, k) {
      assert !lines[i].Bad?;
      ClassifyKeyIff(raw[i], parser, 0, 0);
      KeyLineIff(raw[i], parser, k);
    }
  }

  ghost predicate FromLine(lines: seq<Line>, n: nat, e: KeyEntry) {
    exists i: nat, k: PublicKey :: i < n && i < |lines| && lines[i] == Key(k) && e == Entry(i, k)
  }

  lemma {:induction false} KeysOfIs(lines: seq<Line>, n: nat)
    requires n <= |lines|
    ensures var keys := KeysOf(lines, n);
            && |keys| <= 8 && (forall j :: 0 <= j < |keys| ==> keys[j].line <= n && FromLine(lines, n, keys[j]))
            && (forall j, l :: 0 <= j < l < |keys| ==> keys[j].line < keys[l].line)
            && (forall i: nat, k: PublicKey :: i < n && lines[i] == Key(k) ==>
                  Entry(i, k) in keys || (|keys| == 8 && keys[7].line < i + 1))
  {
    if n > 0 {
      KeysOfIs(lines, n - 1);
      var before, keys := KeysOf(lines, n - 1), KeysOf(lines, n);
      forall j | 0 <= j < |before| ensures FromLine(lines, n, before[j]) {
        assert FromLine(lines, n - 1, before[j]);
      }
      if lines[n - 1].Key? && |before| < 8 {
        var e := Entry(n - 1, lines[n - 1].key);
        assert keys == before + [e];
        assert lines[n - 1] == Key(lines[n - 1].key);
        assert FromLine(lines, n, e);
        assert e in keys;
      }
    }
  }

  /** A key file that was read is reported with the keys of its first eight key lines, each as the parser reads the
      characters of its line, in order. */
  lemma KeysAreReported(f: File, m: Mapping, r: Read, parser: KeyParser)
    requires Faithful(f, m, r, parser) && WasRead(f.status) && m.kind == AuthorizedKeys
    ensures ReportsKeys(Lines(r.data.text), parser, f.keys)
  {
    BytesAreSensitive(r.data);
    hide Sensitive, ControlFree, Classify, Lines, Classified, LineCountOk, NoBad, Remarked, WasRead, Expected, KeyLine,
         KeysOf;
    var raw := Lines(r.data.text);
    var lines := Classified(raw, AuthorizedKeys, parser);
    KeyLines(raw, parser);
    KeysOfIs(lines, |lines|);
    forall j | 0 <= j < |f.keys| ensures ReportsKey(raw, parser, f.keys[j]) {
      assert FromLine(lines, |lines|, f.keys[j]);
    }
  }
}
