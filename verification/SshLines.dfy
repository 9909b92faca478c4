/** How the lines of an OpenSSH file read, and what that means for their characters (internal/sshaudit/audit.go). */
module SshLines {
  import opened Core
  import opened Protocol
  import opened SshReport
  import opened Text

  const MAX_LINE := 8192

  // ---- How the observer splits text ----

  /** unicode.IsSpace. */
  predicate IsSpace(c: char) {
    '\t' <= c <= '\r' || c == ' ' || c == '\U{85}' || c == '\U{A0}' || c == '\U{1680}' || '\U{2000}' <= c <= '\U{200A}'
    || c == '\U{2028}' || c == '\U{2029}' || c == '\U{202F}' || c == '\U{205F}' || c == '\U{3000}'
  }

  function ContentSize(c: Content): nat {
    match c
    case Utf8(text) => ByteSize(text)
    case OtherBytes(bytes) => |bytes|
  }

  predicate Contains(s: string, part: string) {
    exists i {:trigger s[i..]} :: 0 <= i <= |s| - |part| && part <= s[i..]
  }

  predicate HasChar(s: string, c: char) {
    exists i :: 0 <= i < |s| && s[i] == c
  }

  /** bytes.Split at newlines: at least one line. */
  function Lines(s: string): (r: seq<string>)
    ensures |r| >= 1
  {
    if s == "" then [""]
    else
      var before := Lines(s[..|s| - 1]);
      if s[|s| - 1] == '\n' then before + [""] else before[|before| - 1 := before[|before| - 1] + [s[|s| - 1]]]
  }

  function TrimLeft(s: string): (r: string)
    ensures r != "" ==> !IsSpace(r[0])
  {
    if s != "" && IsSpace(s[0]) then TrimLeft(s[1..]) else s
  }

  function TrimRight(s: string): (r: string)
    ensures r != "" ==> s != "" && r[0] == s[0]
  {
    if s != "" && IsSpace(s[|s| - 1]) then TrimRight(s[..|s| - 1]) else s
  }

  /** strings.TrimSpace. */
  function Trim(s: string): (r: string)
    ensures r != "" ==> !IsSpace(r[0])
  {
    TrimRight(TrimLeft(s))
  }

  /** strings.Fields; `word` is the word being read. */
  function FieldsFrom(s: string, word: string): (r: seq<string>)
    ensures word != "" ==> |r| >= 1
    decreases |s|
  {
    if s == "" then if word == "" then [] else [word]
    else if IsSpace(s[0]) then (if word == "" then [] else [word]) + FieldsFrom(s[1..], "")
    else FieldsFrom(s[1..], word + [s[0]])
  }

  function Fields(s: string): (r: seq<string>)
    ensures s != "" && !IsSpace(s[0]) ==> |r| >= 1
  {
    FieldsFrom(s, "")
  }

  /** The lower-case Latin letter that a character maps to, if it maps to one: the Kelvin sign and the
      dotted capital I do as well as A to Z. */
  function LowerLetter(c: char): Option<char> {
    if 'a' <= c <= 'z' then Some(c)
    else if 'A' <= c <= 'Z' then Some((c as int + 32) as char)
    else if c == '\U{212A}' then Some('k')
    else if c == '\U{130}' then Some('i')
    else None
  }

  /** A directive name in lower case, or nothing if it holds anything but letters. */
  function LowerName(s: string): Option<string> {
    if s == "" then Some("")
    else
      match (LowerName(s[..|s| - 1]), LowerLetter(s[|s| - 1]))
      case (Some(rest), Some(c)) => Some(rest + [c])
      case _ => None
  }

  datatype Keyword = MatchBlock | IncludeFile | DynamicAuth | Supported(directive: Directive) | OtherKeyword

  function KeywordOf(name: string): Keyword {
    if name == "match" then MatchBlock
    else if name == "include" then IncludeFile
    else if name == "authorizedkeyscommand" || name == "authorizedprincipalscommand" || name == "authorizedkeysfile"
         || name == "authorizedprincipalsfile" || name == "trustedusercakeys" then DynamicAuth
    else if name == "permitrootlogin" then Supported(PermitRootLogin)
    else if name == "passwordauthentication" then Supported(PasswordAuthentication)
    else if name == "pubkeyauthentication" then Supported(PubkeyAuthentication)
    else if name == "kbdinteractiveauthentication" || name == "challengeresponseauthentication" then
      Supported(KbdInteractiveAuthentication)
    else if name == "permitemptypasswords" then Supported(PermitEmptyPasswords)
    else if name == "strictmodes" then Supported(StrictModes)
    else if name == "usepam" then Supported(UsePam)
    else OtherKeyword
  }

  // ---- How the observer reads one line ----

  /** What the SSH library finds in a key line. */
  datatype PublicKey = PublicKey(kind: string, fingerprint: Fingerprint, hasOptions: bool, certificate: bool)

  type KeyParser = string -> Option<PublicKey>

  predicate WellFormedKey(k: PublicKey) {
    k.kind != "" && CleanText(k.kind, 64) && k.fingerprint.Digest? && |k.fingerprint.bytes| == 32
  }

  ghost predicate KeysWellFormed(parser: KeyParser) {
    forall s: string :: parser(s).Some? ==> WellFormedKey(parser(s).value)
  }

  datatype Line =
    | Blank
    | Bad(finding: Finding)
    | Key(key: PublicKey)
    | Block
    | Include
    | Dynamic
    | Setting(name: Directive, value: string, single: bool)
    | NotObserved

  function ConfigLine(line: string): Line
    requires line != "" && !IsSpace(line[0])
  {
    var fields := Fields(line);
    match LowerName(fields[0])
    case None => Bad(InvalidLine)
    case Some(name) =>
      if |fields| < 2 then Bad(InvalidLine)
      else
        match KeywordOf(name)
        case MatchBlock => Block
        case IncludeFile => Include
        case DynamicAuth => Dynamic
        case Supported(d) => if DirectiveValue(d, fields[1]) then Setting(d, fields[1], |fields| == 2) else NotObserved
        case OtherKeyword => NotObserved
  }

  /** How one raw line reads, whatever came before it. */
  function Classify(raw: string, kind: FileKind, parser: KeyParser): (r: Line)
    ensures kind.SshdConfig? ==> !r.Key?
    ensures kind.AuthorizedKeys? ==> r.Blank? || r.Bad? || r.Key?
    ensures r.Setting? ==> DirectiveValue(r.name, r.value)
    ensures r.Bad? ==> r.finding.InvalidLine? || r.finding.LineLimit?
  {
    var text := if raw != "" && raw[|raw| - 1] == '\r' then raw[..|raw| - 1] else raw;
    if HasChar(text, '\r') then Bad(InvalidLine)
    else if ByteSize(text) > MAX_LINE then Bad(LineLimit)
    else
      var line := Trim(text);
      if line == "" || line[0] == '#' then Blank
      else if kind.AuthorizedKeys? then
        match parser(line) case None => Bad(InvalidLine) case Some(k) => Key(k)
      else ConfigLine(line)
  }

  // ---- Characters ----

  /** Only white space in [lo, hi). */
  predicate Blanks(s: string, lo: nat, hi: nat) {
    lo <= hi <= |s| && forall i :: lo <= i < hi ==> IsSpace(s[i])
  }

  /** At least one character and no white space in [lo, hi). */
  predicate Word(s: string, lo: nat, hi: nat) {
    lo < hi <= |s| && forall i :: lo <= i < hi ==> !IsSpace(s[i])
  }

  /** Positions where the first word of a line begins and ends, and where the second does. */
  datatype Cut = Cut(first: nat, gap: nat, second: nat, tail: nat)

  /** A line of at least two words. */
  predicate TwoWords(s: string, c: Cut) {
    && Blanks(s, 0, c.first) && Word(s, c.first, c.gap) && Blanks(s, c.gap, c.second) && c.gap < c.second
    && Word(s, c.second, c.tail) && (c.tail < |s| ==> IsSpace(s[c.tail]))
  }

  /** A line of one word. */
  predicate OneWord(s: string, lo: nat, hi: nat) {
    Blanks(s, 0, lo) && Word(s, lo, hi) && Blanks(s, hi, |s|)
  }

  /** A character in either case of a lower-case letter, or one of the two others that lower-case to it. */
  predicate Folds(c: char, letter: char) {
    || c == letter || c as int + 32 == letter as int
    || (letter == 'k' && c == '\U{212A}') || (letter == 'i' && c == '\U{130}')
  }

  /** A word in any case. */
  predicate Spells(word: string, name: string) {
    |word| == |name| && forall i :: 0 <= i < |word| ==> Folds(word[i], name[i])
  }

  predicate Letters(name: string) {
    forall i :: 0 <= i < |name| ==> 'a' <= name[i] <= 'z'
  }

  // ---- The names of the seven directives ----

  function NameOf(d: Directive): string {
    match d
    case PermitRootLogin => "permitrootlogin"
    case PasswordAuthentication => "passwordauthentication"
    case PubkeyAuthentication => "pubkeyauthentication"
    case KbdInteractiveAuthentication => "kbdinteractiveauthentication"
    case PermitEmptyPasswords => "permitemptypasswords"
    case StrictModes => "strictmodes"
    case UsePam => "usepam"
  }

  /** A word that names a directive; the old name of one of them is read as the new one. */
  predicate NamedBy(word: string, d: Directive) {
    Spells(word, NameOf(d)) || (d.KbdInteractiveAuthentication? && Spells(word, "challengeresponseauthentication"))
  }

  // ---- What a line says, from its characters ----

  /** The two words of a line. */
  function First(s: string, c: Cut): string
    requires TwoWords(s, c)
  {
    s[c.first..c.gap]
  }

  function Second(s: string, c: Cut): string
    requires TwoWords(s, c)
  {
    s[c.second..c.tail]
  }

  /** A line that names one thing and goes on. */
  ghost predicate Begins(s: string, name: string) {
    exists c: Cut :: TwoWords(s, c) && Spells(First(s, c), name)
  }

  /** A value that is reported for a directive. */
  predicate Allowed(d: Directive, value: string) {
    || value == "yes" || value == "no"
    || (d.PermitRootLogin?
         && (value == "prohibit-password" || value == "without-password" || value == "forced-commands-only"))
  }

  predicate GivesAt(s: string, c: Cut, d: Directive, value: string) {
    TwoWords(s, c) && NamedBy(First(s, c), d) && Second(s, c) == value && Allowed(d, value)
  }

  /** A line that gives a directive a literal value, perhaps followed by more words. */
  ghost predicate Gives(s: string, d: Directive, value: string) {
    exists c: Cut :: GivesAt(s, c, d, value)
  }

  /** A line that gives a directive exactly one literal value. */
  ghost predicate Sets(s: string, d: Directive, value: string) {
    exists c: Cut :: GivesAt(s, c, d, value) && Blanks(s, c.tail, |s|)
  }

  /** A line that sends key or certificate lookup elsewhere. */
  ghost predicate Delegates(s: string) {
    || Begins(s, "authorizedkeyscommand") || Begins(s, "authorizedprincipalscommand")
    || Begins(s, "authorizedkeysfile") || Begins(s, "authorizedprincipalsfile") || Begins(s, "trustedusercakeys")
  }

  /** Nothing but white space, or a comment. */
  ghost predicate Empty(s: string) {
    Blanks(s, 0, |s|) || exists i: nat :: i < |s| && Blanks(s, 0, i) && s[i] == '#'
  }

  /** No carriage return but one at the end, and at most 8192 bytes before it. */
  predicate Clean(s: string) {
    && (forall i :: 0 <= i < |s| - 1 ==> s[i] != '\r')
    && ByteSize(if s != "" && s[|s| - 1] == '\r' then s[..|s| - 1] else s) <= 8192
  }

  /** A clean line that cannot be read as a directive: it has one word only, or its first word is not made of letters. */
  ghost predicate Garbled(s: string) {
    || (exists lo: nat, hi: nat :: OneWord(s, lo, hi))
    || (exists c: Cut :: TwoWords(s, c) && forall name: string :: Letters(name) ==> !Spells(First(s, c), name))
  }

  // ---- Proofs about splitting ----

  lemma {:induction false} SkipBlanks(s: string, lo: nat, hi: nat)
    requires Blanks(s, lo, hi)
    ensures FieldsFrom(s[lo..], "") == FieldsFrom(s[hi..], "")
    decreases hi - lo
  {
    if lo < hi {
      assert s[lo..][1..] == s[lo + 1..];
      SkipBlanks(s, lo + 1, hi);
    }
  }

  lemma {:induction false} ReadWord(s: string, lo: nat, hi: nat, word: string)
    requires lo <= hi <= |s| && forall i :: lo <= i < hi ==> !IsSpace(s[i])
    ensures FieldsFrom(s[lo..], word) == FieldsFrom(s[hi..], word + s[lo..hi])
    decreases hi - lo
  {
    if lo < hi {
      assert s[lo..][1..] == s[lo + 1..];
      assert word + [s[lo]] + s[lo + 1..hi] == word + s[lo..hi];
      ReadWord(s, lo + 1, hi, word + [s[lo]]);
    } else {
      assert word + s[lo..hi] == word;
    }
  }

  lemma EndWord(s: string, hi: nat, word: string)
    requires hi <= |s| && word != "" && (hi < |s| ==> IsSpace(s[hi]))
    ensures FieldsFrom(s[hi..], word) == [word] + FieldsFrom(s[hi..], "")
  {
  }

  lemma OneField(s: string, lo: nat, hi: nat)
    requires Word(s, lo, hi) && (hi < |s| ==> IsSpace(s[hi]))
    ensures FieldsFrom(s[lo..], "") == [s[lo..hi]] + FieldsFrom(s[hi..], "")
  {
    ReadWord(s, lo, hi, "");
    assert "" + s[lo..hi] == s[lo..hi];
    EndWord(s, hi, s[lo..hi]);
  }

  lemma TwoFields(s: string, c: Cut)
    requires TwoWords(s, c)
    ensures FieldsFrom(s, "") == [First(s, c), Second(s, c)] + FieldsFrom(s[c.tail..], "")
  {
    assert s[0..] == s;
    SkipBlanks(s, 0, c.first);
    OneField(s, c.first, c.gap);
    SkipBlanks(s, c.gap, c.second);
    OneField(s, c.second, c.tail);
  }

  lemma {:induction false} NoFields(s: string, lo: nat)
    requires lo <= |s|
    ensures FieldsFrom(s[lo..], "") == [] <==> Blanks(s, lo, |s|)
    decreases |s| - lo
  {
    if lo < |s| {
      assert s[lo..][1..] == s[lo + 1..];
      NoFields(s, lo + 1);
    }
  }

  lemma {:induction false} EndBlank(s: string, word: string)
    requires s != "" && IsSpace(s[|s| - 1])
    ensures FieldsFrom(s, word) == FieldsFrom(s[..|s| - 1], word)
    decreases |s|
  {
    if |s| > 1 {
      assert s[..|s| - 1][1..] == s[1..][..|s| - 2];
      EndBlank(s[1..], if IsSpace(s[0]) then "" else word + [s[0]]);
    } else {
      assert s[1..] == "";
    }
  }

  lemma {:induction false} TrimmedFields(s: string)
    ensures Fields(TrimLeft(s)) == Fields(s)
    ensures Fields(TrimRight(s)) == Fields(s)
    decreases |s|
  {
    if s != "" && IsSpace(s[0]) { TrimmedFields(s[1..]); }
    if s != "" && IsSpace(s[|s| - 1]) {
      EndBlank(s, "");
      TrimmedFields(s[..|s| - 1]);
    }
  }

  /** Trimming starts at the first character that is no white space. */
  lemma {:induction false} TrimLeftIs(s: string, i: nat)
    requires Blanks(s, 0, i) && (i < |s| ==> !IsSpace(s[i]))
    ensures TrimLeft(s) == s[i..]
    decreases i
  {
    if i > 0 {
      assert s[1..][i - 1..] == s[i..];
      TrimLeftIs(s[1..], i - 1);
    }
  }

  lemma {:induction false} TrimRightEmpty(s: string)
    requires s == "" || !IsSpace(s[0])
    ensures TrimRight(s) == "" <==> s == ""
  {
    if s != "" && IsSpace(s[|s| - 1]) { TrimRightEmpty(s[..|s| - 1]); }
  }

  lemma {:induction false} NextWord(s: string, lo: nat) returns (i: nat)
    requires lo <= |s|
    ensures lo <= i && Blanks(s, lo, i) && (i < |s| ==> !IsSpace(s[i]))
    decreases |s| - lo
  {
    if lo < |s| && IsSpace(s[lo]) { i := NextWord(s, lo + 1); } else { i := lo; }
  }

  lemma {:induction false} WordEnd(s: string, lo: nat) returns (i: nat)
    requires lo < |s| && !IsSpace(s[lo])
    ensures Word(s, lo, i) && (i < |s| ==> IsSpace(s[i]))
    decreases |s| - lo
  {
    if lo + 1 < |s| && !IsSpace(s[lo + 1]) { i := WordEnd(s, lo + 1); } else { i := lo + 1; }
  }

  /** Every line is blank, has one word, or has at least two. */
  lemma CutOf(s: string) returns (c: Cut)
    ensures Blanks(s, 0, c.first) && (c.first < |s| ==> Word(s, c.first, c.gap))
    ensures c.first == |s| || OneWord(s, c.first, c.gap) || TwoWords(s, c)
  {
    var first := NextWord(s, 0);
    if first == |s| { return Cut(first, first, first, first); }
    var gap := WordEnd(s, first);
    var second := NextWord(s, gap);
    if second == |s| { return Cut(first, gap, second, second); }
    var tail := WordEnd(s, second);
    return Cut(first, gap, second, tail);
  }

  // ---- Proofs about names ----

  lemma FoldsIff(c: char)
    ensures forall l: char :: LowerLetter(c) == Some(l) <==> 'a' <= l <= 'z' && Folds(c, l)
  {
  }

  lemma {:induction false} LowerNameIff(word: string, name: string)
    ensures LowerName(word) == Some(name) <==> Spells(word, name) && Letters(name)
    decreases |word|
  {
    if word != "" {
      var n := |word| - 1;
      FoldsIff(word[n]);
      if |name| == n + 1 {
        LowerNameIff(word[..n], name[..n]);
        assert name == name[..n] + [name[n]];
        SpellsSnoc(word, name);
      } else if LowerName(word).Some? {
        LowerNameSize(word);
      }
    }
  }

  lemma SpellsSnoc(word: string, name: string)
    requires |word| == |name| > 0
    ensures var n := |word| - 1;
            Spells(word, name) && Letters(name) <==>
              Spells(word[..n], name[..n]) && Letters(name[..n]) && Folds(word[n], name[n]) && 'a' <= name[n] <= 'z'
  {
    hide Folds;
  }

  lemma {:induction false} LowerNameSize(word: string)
    ensures LowerName(word).Some? ==> |LowerName(word).value| == |word|
  {
    if word != "" { LowerNameSize(word[..|word| - 1]); }
  }

  /** A word spells at most one name. */
  lemma SpelledOnce(word: string, a: string, b: string)
    requires Letters(a) && Letters(b) && Spells(word, a) && Spells(word, b)
    ensures a == b
  {
    LowerNameIff(word, a);
    LowerNameIff(word, b);
  }

  // ---- What the observer reads is what the characters say ----

  /** A line has at most one cut, and then it is neither blank nor a single word. */
  lemma OnlyCut(s: string, c: Cut)
    requires TwoWords(s, c)
    ensures forall d: Cut :: TwoWords(s, d) ==> d == c
    ensures !Blanks(s, 0, |s|) && forall lo: nat, hi: nat :: !OneWord(s, lo, hi)
  {
    hide IsSpace;
    assert !IsSpace(s[c.first]) && !IsSpace(s[c.second]) && IsSpace(s[c.gap]);
    forall d: Cut | TwoWords(s, d) ensures d == c {
      assert !IsSpace(s[d.first]) && !IsSpace(s[d.second]) && IsSpace(s[d.gap]);
      assert d.first == c.first;
      assert d.gap == c.gap;
      assert d.second == c.second;
      assert d.tail == c.tail;
    }
    forall lo: nat, hi: nat ensures !OneWord(s, lo, hi) {
    }
  }

  /** A line of one word has no cut. */
  lemma NoCut(s: string)
    requires Blanks(s, 0, |s|) || exists lo: nat, hi: nat :: OneWord(s, lo, hi)
    ensures forall c: Cut :: !TwoWords(s, c)
  {
    forall c: Cut ensures !TwoWords(s, c) {
      if TwoWords(s, c) { OnlyCut(s, c); }
    }
  }

  /** Dropping a final carriage return and trimming changes neither the words nor where the first one starts. */
  lemma TrimmedLine(raw: string, first: nat)
    requires Blanks(raw, 0, first) && (first < |raw| ==> !IsSpace(raw[first]))
    ensures var text := if raw != "" && raw[|raw| - 1] == '\r' then raw[..|raw| - 1] else raw;
            && Fields(Trim(text)) == FieldsFrom(raw, "")
            && (Trim(text) == "" <==> first == |raw|)
            && (Trim(text) != "" ==> Trim(text)[0] == raw[first])
  {
    var text := if raw != "" && raw[|raw| - 1] == '\r' then raw[..|raw| - 1] else raw;
    if text != raw { EndBlank(raw, ""); }
    TrimmedFields(text);
    TrimmedFields(TrimLeft(text));
    var i := if first == |raw| then |text| else first;
    TrimLeftIs(text, i);
    TrimRightEmpty(TrimLeft(text));
  }

  lemma EmptyIff(raw: string, first: nat)
    requires Blanks(raw, 0, first) && (first < |raw| ==> !IsSpace(raw[first]))
    ensures Empty(raw) <==> first == |raw| || raw[first] == '#'
  {
    if i: nat :| i < |raw| && Blanks(raw, 0, i) && raw[i] == '#' {
      assert i == first;
    }
  }

  /** The keyword of a word, from its letters. */
  lemma KeywordIff(word: string, name: string)
    requires LowerName(word) == Some(name)
    ensures KeywordOf(name) == MatchBlock <==> Spells(word, "match")
    ensures KeywordOf(name) == IncludeFile <==> Spells(word, "include")
    ensures KeywordOf(name) == DynamicAuth <==>
              || Spells(word, "authorizedkeyscommand") || Spells(word, "authorizedprincipalscommand")
              || Spells(word, "authorizedkeysfile") || Spells(word, "authorizedprincipalsfile")
              || Spells(word, "trustedusercakeys")
    ensures forall d: Directive :: KeywordOf(name) == Supported(d) <==> NamedBy(word, d)
  {
    hide LowerName, Spells, Letters, KeywordOf;
    LiteralNames();
    KeywordOfIff(name);
    SpellsIff(word, name, "match");
    SpellsIff(word, name, "include");
    SpellsIff(word, name, "authorizedkeyscommand");
    SpellsIff(word, name, "authorizedprincipalscommand");
    SpellsIff(word, name, "authorizedkeysfile");
    SpellsIff(word, name, "authorizedprincipalsfile");
    SpellsIff(word, name, "trustedusercakeys");
    SpellsIff(word, name, "challengeresponseauthentication");
    hide NameOf;
    forall d: Directive ensures KeywordOf(name) == Supported(d) <==> NamedBy(word, d) {
      NameLetters(d);
      SpellsIff(word, name, NameOf(d));
    }
  }

  /** The fifteen names differ. */
  lemma KeywordOfIff(name: string)
    ensures KeywordOf(name) == MatchBlock <==> name == "match"
    ensures KeywordOf(name) == IncludeFile <==> name == "include"
    ensures KeywordOf(name) == DynamicAuth <==>
              || name == "authorizedkeyscommand" || name == "authorizedprincipalscommand"
              || name == "authorizedkeysfile" || name == "authorizedprincipalsfile" || name == "trustedusercakeys"
    ensures forall d: Directive ::
              KeywordOf(name) == Supported(d) <==>
                name == NameOf(d) || (d.KbdInteractiveAuthentication? && name == "challengeresponseauthentication")
  {
    KeywordNotSetting(name);
    hide KeywordOf, NameOf;
    forall d: Directive { KeywordIsSetting(name, d); }
  }

  lemma KeywordNotSetting(name: string)
    ensures KeywordOf(name) == MatchBlock <==> name == "match"
    ensures KeywordOf(name) == IncludeFile <==> name == "include"
    ensures KeywordOf(name) == DynamicAuth <==>
              || name == "authorizedkeyscommand" || name == "authorizedprincipalscommand"
              || name == "authorizedkeysfile" || name == "authorizedprincipalsfile" || name == "trustedusercakeys"
  {
  }

  lemma KeywordIsSetting(name: string, d: Directive)
    ensures KeywordOf(name) == Supported(d) <==>
              name == NameOf(d) || (d.KbdInteractiveAuthentication? && name == "challengeresponseauthentication")
  {
    hide KeywordOf, NameOf;
    SettingIsKeyword(d);
    if KeywordOf(name) == Supported(d) || (d.KbdInteractiveAuthentication? && name == "challengeresponseauthentication") {
      KeywordNames(name, d);
    }
  }

  lemma KeywordNames(name: string, d: Directive)
    requires KeywordOf(name) == Supported(d)
             || (d.KbdInteractiveAuthentication? && name == "challengeresponseauthentication")
    ensures name == NameOf(d) || (d.KbdInteractiveAuthentication? && name == "challengeresponseauthentication")
    ensures KeywordOf(name) == Supported(d)
  {
  }

  lemma SettingIsKeyword(d: Directive)
    ensures KeywordOf(NameOf(d)) == Supported(d)
  {
    NameSizes(d);
  }

  lemma NameSizes(d: Directive)
    ensures |NameOf(d)| == match d
                           case PermitRootLogin => 15
                           case PasswordAuthentication => 22
                           case PubkeyAuthentication => 20
                           case KbdInteractiveAuthentication => 28
                           case PermitEmptyPasswords => 20
                           case StrictModes => 11
                           case UsePam => 6
  {
  }

  lemma NameLetters(d: Directive)
    ensures Letters(NameOf(d))
  {
    if d.PermitRootLogin? || d.StrictModes? || d.UsePam? {
    } else if d.KbdInteractiveAuthentication? {
      hide NameOf;
      LongNameLetters();
    } else {
      hide NameOf;
      OtherNameLetters(d);
    }
  }

  lemma LongNameLetters()
    ensures Letters(NameOf(KbdInteractiveAuthentication))
  {
  }

  lemma OtherNameLetters(d: Directive)
    requires d.PasswordAuthentication? || d.PubkeyAuthentication? || d.PermitEmptyPasswords?
    ensures Letters(NameOf(d))
  {
  }

  lemma SpellsIff(word: string, name: string, other: string)
    requires LowerName(word) == Some(name) && Letters(other)
    ensures Spells(word, other) <==> name == other
  {
    LowerNameIff(word, name);
    LowerNameIff(word, other);
  }

  lemma LiteralNames()
    ensures Letters("match") && Letters("include") && Letters("authorizedkeyscommand")
            && Letters("authorizedprincipalscommand") && Letters("authorizedkeysfile")
            && Letters("authorizedprincipalsfile") && Letters("trustedusercakeys")
            && Letters("challengeresponseauthentication")
  {
  }

  /** A clean line that is not empty, by its cut. */
  lemma ConfigLineIff(raw: string, line: string, c: Cut)
    requires TwoWords(raw, c) && line != "" && !IsSpace(line[0]) && Fields(line) == FieldsFrom(raw, "")
    ensures var l := ConfigLine(line);
            && (l.Bad? <==> Garbled(raw)) && !l.Blank? && !l.Key?
            && (!l.Bad? ==>
                  && (l.Block? <==> Begins(raw, "match")) && (l.Include? <==> Begins(raw, "include"))
                  && (l.Dynamic? <==> Delegates(raw))
                  && (forall d: Directive, v: string ::
                        && (l.Setting? && l.name == d && l.value == v <==> Gives(raw, d, v))
                        && (l == Setting(d, v, true) <==> Sets(raw, d, v))))
  {
    hide FieldsFrom, LowerName, KeywordOf, Spells, NamedBy, TwoWords, OneWord, Word, IsSpace, Letters;
    OnlyCut(raw, c);
    TwoFields(raw, c);
    CutIsInside(raw, c);
    NoFields(raw, c.tail);
    var word := First(raw, c);
    assert Fields(line)[0] == word && Fields(line)[1] == Second(raw, c);
    assert |Fields(line)| == 2 <==> Blanks(raw, c.tail, |raw|);
    match LowerName(word)
    case None =>
      forall name: string | Letters(name) ensures !Spells(word, name) { LowerNameIff(word, name); }
    case Some(name) =>
      LowerNameIff(word, name);
      KeywordIff(word, name);
      forall other: string ensures Begins(raw, other) <==> Spells(word, other) {
        if Spells(word, other) { assert TwoWords(raw, c); }
      }
      forall d: Directive, v: string
        ensures Gives(raw, d, v) <==> GivesAt(raw, c, d, v)
        ensures Sets(raw, d, v) <==> GivesAt(raw, c, d, v) && Blanks(raw, c.tail, |raw|)
      {
      }
  }

  lemma CutIsInside(s: string, c: Cut)
    requires TwoWords(s, c)
    ensures c.tail <= |s|
  {
  }

  /** How every line of a configuration file reads, from its characters alone. */
  lemma ClassifyIff(raw: string, parser: KeyParser)
    ensures var l := Classify(raw, SshdConfig, parser);
            && (l.Bad? <==> !Clean(raw) || (!Empty(raw) && Garbled(raw)))
            && (!l.Bad? ==>
                  && !l.Key? && (l.Blank? <==> Empty(raw))
                  && (l.Block? <==> Begins(raw, "match")) && (l.Include? <==> Begins(raw, "include"))
                  && (l.Dynamic? <==> Delegates(raw))
                  && (forall d: Directive, v: string ::
                        && (l.Setting? && l.name == d && l.value == v <==> Gives(raw, d, v))
                        && (l == Setting(d, v, true) <==> Sets(raw, d, v))))
  {
    hide ConfigLine, Fields, Trim, IsSpace, ByteSize, Begins, Gives, Sets, Delegates, Garbled, Empty;
    var c := CutOf(raw);
    TrimmedLine(raw, c.first);
    EmptyIff(raw, c.first);
    CleanIff(raw);
    var text := if raw != "" && raw[|raw| - 1] == '\r' then raw[..|raw| - 1] else raw;
    var line := Trim(text);
    if Clean(raw) {
      if Empty(raw) {
        NothingInComments(raw, c);
      } else if TwoWords(raw, c) {
        ConfigLineIff(raw, line, c);
      } else {
        OneWordIsBad(raw, line, c);
      }
    }
  }

  lemma CleanIff(raw: string)
    ensures var text := if raw != "" && raw[|raw| - 1] == '\r' then raw[..|raw| - 1] else raw;
            Clean(raw) <==> !HasChar(text, '\r') && ByteSize(text) <= MAX_LINE
  {
    var text := if raw != "" && raw[|raw| - 1] == '\r' then raw[..|raw| - 1] else raw;
    if HasChar(text, '\r') {
      var i :| 0 <= i < |text| && text[i] == '\r';
      assert raw[i] == '\r';
    }
    forall i | 0 <= i < |raw| - 1 && raw[i] == '\r' ensures HasChar(text, '\r') { assert text[i] == '\r'; }
  }

  lemma OneWordIsBad(raw: string, line: string, c: Cut)
    requires OneWord(raw, c.first, c.gap) && line != "" && !IsSpace(line[0]) && Fields(line) == FieldsFrom(raw, "")
    ensures ConfigLine(line).Bad? && Garbled(raw)
  {
    hide LowerName, IsSpace, FieldsFrom;
    assert raw[0..] == raw;
    SkipBlanks(raw, 0, c.first);
    OneField(raw, c.first, c.gap);
    NoFields(raw, c.gap);
  }

  /** A blank line or a comment names nothing. */
  lemma NothingInComments(raw: string, c: Cut)
    requires Blanks(raw, 0, c.first) && (c.first == |raw| || raw[c.first] == '#')
    requires c.first == |raw| || OneWord(raw, c.first, c.gap) || TwoWords(raw, c)
    ensures !Begins(raw, "match") && !Begins(raw, "include") && !Delegates(raw)
    ensures forall d: Directive, v: string :: !Gives(raw, d, v) && !Sets(raw, d, v)
  {
    if TwoWords(raw, c) {
      hide NameOf, Spells, Letters;
      OnlyCut(raw, c);
      assert First(raw, c)[0] == '#';
      HashNamesNothing(First(raw, c));
      hide TwoWords, NamedBy;
    } else {
      NoCut(raw);
    }
  }

  lemma HashNamesNothing(word: string)
    requires word != "" && word[0] == '#'
    ensures !Spells(word, "match") && !Spells(word, "include") && !Spells(word, "authorizedkeyscommand")
            && !Spells(word, "authorizedprincipalscommand") && !Spells(word, "authorizedkeysfile")
            && !Spells(word, "authorizedprincipalsfile") && !Spells(word, "trustedusercakeys")
    ensures forall d: Directive :: !NamedBy(word, d)
  {
    hide Spells, Letters, NameOf;
    HashSpellsNothing(word);
    LiteralNames();
    forall d: Directive ensures !NamedBy(word, d) { NameLetters(d); }
  }

  lemma HashSpellsNothing(word: string)
    requires word != "" && word[0] == '#'
    ensures forall name: string :: Letters(name) ==> !Spells(word, name)
  {
    forall name: string | Letters(name) ensures !Spells(word, name) {
      if |name| == |word| { assert !Folds(word[0], name[0]); }
    }
  }

  /** The characters of a line without the white space around them. */
  predicate Body(s: string, lo: nat, hi: nat) {
    Blanks(s, 0, lo) && Blanks(s, hi, |s|) && lo < hi && !IsSpace(s[lo]) && !IsSpace(s[hi - 1])
  }

  lemma {:induction false} TrimRightIs(s: string, hi: nat)
    requires Blanks(s, hi, |s|) && (hi > 0 ==> !IsSpace(s[hi - 1]))
    ensures TrimRight(s) == s[..hi]
  {
    if hi < |s| {
      assert s[..|s| - 1][..hi] == s[..hi];
      TrimRightIs(s[..|s| - 1], hi);
    }
  }

  lemma TrimIs(s: string, lo: nat, hi: nat)
    requires Body(s, lo, hi)
    ensures Trim(s) == s[lo..hi]
  {
    TrimLeftIs(s, lo);
    TrimRightIs(s[lo..], hi - lo);
    assert s[lo..][..hi - lo] == s[lo..hi];
  }

  /** How every line of a key file reads: its characters without the white space around them are a key, or not. */
  lemma ClassifyKeyIff(raw: string, parser: KeyParser, lo: nat, hi: nat)
    ensures var l := Classify(raw, AuthorizedKeys, parser);
            && (Clean(raw) ==> (l.Blank? <==> Empty(raw)))
            && (!Clean(raw) ==> l.Bad?)
            && (Clean(raw) && !Empty(raw) && Body(raw, lo, hi) ==>
                  l == match parser(raw[lo..hi]) case None => Bad(InvalidLine) case Some(k) => Key(k))
  {
    hide Trim, IsSpace, ByteSize, Empty;
    var c := CutOf(raw);
    TrimmedLine(raw, c.first);
    EmptyIff(raw, c.first);
    CleanIff(raw);
    if Body(raw, lo, hi) {
      BodyIsKept(raw, lo, hi);
    }
  }

  lemma BodyIsKept(raw: string, lo: nat, hi: nat)
    requires Body(raw, lo, hi)
    ensures var text := if raw != "" && raw[|raw| - 1] == '\r' then raw[..|raw| - 1] else raw;
            Trim(text) == raw[lo..hi]
  {
    hide Trim;
    var text := if raw != "" && raw[|raw| - 1] == '\r' then raw[..|raw| - 1] else raw;
    assert hi <= |text|;
    assert text[lo..hi] == raw[lo..hi];
    TrimIs(text, lo, hi);
  }

  // ---- What a whole file says ----

  /** The lines put together again. */
  function Joined(lines: seq<string>): string {
    if |lines| == 0 then ""
    else if |lines| == 1 then lines[0]
    else Joined(lines[..|lines| - 1]) + "\n" + lines[|lines| - 1]
  }

  /** Splitting loses nothing and leaves no newline inside a line. */
  lemma {:induction false} LinesAreJoined(s: string)
    ensures Joined(Lines(s)) == s
    ensures forall k, i :: 0 <= k < |Lines(s)| && 0 <= i < |Lines(s)[k]| ==> Lines(s)[k][i] != '\n'
  {
    if s != "" {
      var n := |s| - 1;
      LinesAreJoined(s[..n]);
      var before := Lines(s[..n]);
      assert s == s[..n] + [s[n]];
      if s[n] == '\n' {
        assert Lines(s)[..|before|] == before;
      } else if |before| > 1 {
        assert Lines(s)[..|before| - 1] == before[..|before| - 1];
      }
    }
  }

  /** A line is the first before any Match that gives a directive exactly one literal value. */
  ghost predicate SetsFirst(raw: seq<string>, i: nat, d: Directive, value: string) {
    && i < |raw| && Sets(raw[i], d, value)
    && (forall j: nat :: j < i ==> !Begins(raw[j], "match"))
    && (forall j: nat, other: string :: j < i ==> !Sets(raw[j], d, other))
  }

  /** The reported directives are, in order, exactly the first settings of the file, with their lines and values. */
  ghost predicate Reports(raw: seq<string>, entries: seq<DirectiveEntry>) {
    && (forall k :: 0 <= k < |entries| ==>
          entries[k].line >= 1 && SetsFirst(raw, entries[k].line - 1, entries[k].name, entries[k].value))
    && (forall i: nat, d: Directive, v: string :: SetsFirst(raw, i, d, v) ==> DirectiveEntry(i + 1, d, v) in entries)
    && (forall j, k :: 0 <= j < k < |entries| ==> entries[j].line < entries[k].line)
  }
}
