/** The client configuration file of `loader.ts` as a whole: its way of reading lines is one of those the
    general results are about, and what they say about it.
*/
module ClientFile {
  import opened Wrappers
  import opened TextLines
  import opened ConfigItems
  import opened ConfigText
  import opened ClientConfig
  import ConfigSave
  import ConfigFormat
  import ConfigDamage

  // ----- what the editor sees of a line -----

  lemma {:induction false} TrimEndTwice(s: string)
    ensures TrimEnd(TrimEnd(s)) == TrimEnd(s)
  {}

  lemma DropCrTrim(s: string)
    ensures TrimEnd(DropCr(s)) == TrimEnd(s)
  {}

  lemma FirstOfTrimmed(s: string)
    requires TrimEnd(s) != []
    ensures TrimEnd(s)[0] == s[0]
    ensures DropCr(s) != [] && DropCr(s)[0] == s[0]
  {
    DropCrTrim(s);
  }

  /** What the editor sees of a line depends on the line without the space at its end. */
  lemma SeenTrimmed(name: string, a: string, b: string)
    requires TrimEnd(a) == TrimEnd(b)
    ensures SameMark(LookAt(name, a), LookAt(name, b))
  {
    if TrimEnd(a) != [] {
      FirstOfTrimmed(a);
      FirstOfTrimmed(b);
    }
  }

  lemma LookingIsSteady(name: string)
    ensures Steady(Looking(name))
  {
    var look := Looking(name);
    forall s ensures SameMark(look(DropCr(s)), look(s)) {
      DropCrTrim(s);
      SeenTrimmed(name, DropCr(s), s);
    }
    forall s ensures SameMark(look(TrimEnd(s)), look(s)) {
      TrimEndTwice(s);
      SeenTrimmed(name, TrimEnd(s), s);
    }
    EmptyLine();
  }

  lemma ClassifyIgnoresSpace()
    ensures IgnoresSpace(Classify)
  {
    hide Classify;
    forall s
      ensures Classify(DropCr(s)) == Classify(s)
    {
      if DropCr(s) != s {
        assert s == DropCr(s) + "\r";
        ClassifyTrailing(DropCr(s), "\r");
      }
    }
    forall s
      ensures Classify(TrimEnd(s)) == Classify(s)
    {
      var t := TrimEnd(s);
      assert s == t + s[|t|..];
      TrimEndSpace(s);
      ClassifyTrailing(t, s[|t|..]);
    }
    EmptyLine();
  }

  lemma LookIsFaithful(name: string, line: string)
    requires IsKey(name)
    ensures Faithful(name, LookAt(name, line))
  {
    if IsTopLevel(line) && Trim(line) == Header(name) {
      HeaderItem(line, name);
    }
    if Classify(line).Entry? {
      EntryIndent(line);
    }
  }

  lemma FieldLineIsNotTop(name: string, f: Field)
    ensures !LookAt(name, FieldLine(f)).top
  {
    assert FieldLine(f)[0] == ' ';
  }

  lemma HeaderLooks(name: string, key: string)
    requires IsKey(name) && IsKey(key)
    ensures LookAt(name, Header(key)) == Look(true, key == name, false, Entry(0, key, true, Null))
    ensures IsClosed(Header(key))
  {
    hide Classify, Trim, IsTopLevel;
    HeaderLine(key);
    assert IsKeyChar(Header(key)[0]);
    if Header(key) == Header(name) {
      assert key == Header(key)[..|key|] == Header(name)[..|name|] == name;
    }
  }

  lemma LookSays(name: string, line: string)
    ensures LookAt(name, line).item == Classify(line)
  {}

  /** The program's editor and parser are such a pair. */
  lemma LookingReads(name: string)
    requires IsKey(name)
    ensures Reads(name, Looking(name), Classify)
  {
    hide LookAt, Classify;
    var look := Looking(name);
    ClassifyIgnoresSpace();
    LookingIsSteady(name);
    forall s ensures look(s).item == Classify(s) {
      LookSays(name, s);
    }
    forall s ensures Faithful(name, look(s)) {
      LookIsFaithful(name, s);
    }
    HeaderLooks(name, name);
    forall f ensures !look(FieldLine(f)).top {
      FieldLineIsNotTop(name, f);
    }
  }

  // ----- the format -----

  lemma BlankLine(line: string)
    requires AllSpace(line)
    ensures Classify(line) == Blank
  {
    TrimBlank(StripComment(line));
  }

  lemma {:induction false} NoCommentUpTo(line: string, n: nat, i: nat)
    requires i <= n < |line| && AllSpace(line[..n]) && line[n] == '{'
    ensures CommentStart(line, i, None) > n
    decreases n - i
  {
    if i < n {
      assert IsSpace(line[..n][i]);
      NoCommentUpTo(line, n, i + 1);
    }
  }

  lemma BraceSurvives(w: string, n: nat)
    requires n < |w| && w[n] == '{'
    ensures n < |TrimEnd(w)|
  {}

  lemma TrimToBrace(w: string, n: nat)
    requires n < |w| && AllSpace(w[..n]) && w[n] == '{'
    ensures Trim(w) != [] && Trim(w)[0] == '{'
  {
    BraceSurvives(w, n);
    var e := TrimEnd(w);
    assert e[..n] == w[..n] && e[n] == w[n];
    ConfigFormat.TrimStartOf(e, n);
  }

  lemma NoKey(t: string)
    requires t != [] && t[0] == '{'
    ensures SplitKey(t) == None
  {}

  lemma BraceIsBad(line: string)
    requires ConfigFormat.Brace(line)
    ensures Classify(line) == Bad
  {
    var n := ConfigFormat.BracePosition(line);
    NoCommentUpTo(line, n, 0);
    var w := StripComment(line);
    assert w[..n] == line[..n];
    TrimToBrace(w, n);
    NoKey(Trim(w));
  }

  lemma ClassifyTellsFormat()
    ensures ConfigFormat.TellsFormat(Classify)
  {
    forall s | AllSpace(s) ensures Classify(s).Blank? {
      BlankLine(s);
    }
    forall s | ConfigFormat.Brace(s) ensures Classify(s).Bad? {
      BraceIsBad(s);
    }
  }

  /** The parser behind the format's choice; `json` is the library's parser. */
  method ParseClientConfig(raw: string, json: string -> Result<map<string, Value>, ParseError>)
    returns (r: Result<map<string, Value>, ParseError>)
    ensures r == if ConfigFormat.LooksLikeJson(raw) then json(raw) else Root(Parse(Classify, raw))
  {
    hide Classify, Parse, ConfigFormat.TellsFormat;
    if Trim(raw) == "" {
      TrimBlank(raw);
      TrimStartBlank(raw);
      ClassifyTellsFormat();
      ConfigFormat.BlankParses(Classify, raw);
      return Ok(map[]);
    }
    if TrimStart(raw) != [] && TrimStart(raw)[0] == '{' {
      return json(raw);
    }
    r := ParseSimpleYaml(raw);
  }

  // ----- fields -----

  ghost predicate IsField(f: Field) {
    IsKey(f.key) && IsValueText(f.text)
  }

  ghost predicate AreFields(fs: seq<Field>) {
    forall i :: 0 <= i < |fs| ==> IsField(fs[i])
  }

  lemma LineIsClosed(prefix: string, key: string, text: string)
    requires IsKey(key) && text != [] && !IsSpace(text[|text| - 1]) && IsLine(prefix) && IsLine(text)
    ensures IsClosed(prefix + (key + ":" + (" " + text)))
  {
    var line := prefix + (key + ":" + (" " + text));
    assert line[|line| - 1] == text[|text| - 1];
  }

  lemma FieldIsReadBack(f: Field)
    requires IsField(f)
    ensures IsReadBack(Classify, ParseScalar, f)
  {
    FieldReads(f);
    FieldText(f);
    LineIsClosed("  ", f.key, f.text);
  }

  lemma FieldsAreReadBack(fs: seq<Field>)
    requires AreFields(fs)
    ensures AreReadBack(Classify, ParseScalar, fs)
  {
    forall i | 0 <= i < |fs|
      ensures IsReadBack(Classify, ParseScalar, fs[i])
    {
      FieldIsReadBack(fs[i]);
    }
  }

  // ----- any section -----

  /** For every text that parses, the editor removes only lines the parser attributes to the section and
      leaves every other line in its own section, if and only if the text is tidy. */
  lemma EditsRightIff(raw: string, name: string)
    requires IsKey(name) && Parse(Classify, raw).Ok?
    ensures EditedRight(name, Looks(Looking(name), raw)) <==> Tidy(name, Looks(Looking(name), raw))
  {
    hide *;
    LookingReads(name);
    ConfigSave.EditsRightIff(Looking(name), Classify, raw, name);
  }

  /** If nothing is hidden, every other key keeps its value if and only if the text is tidy. */
  lemma OthersUntouchedIff(raw: string, name: string, fs: seq<Field>)
    requires IsKey(name) && AreFields(fs) && Parse(Classify, raw).Ok?
    requires ConfigSave.HidesNothing(name, MapLines(Classify, Lines(raw)))
    ensures ConfigSave.OthersAgree(Parse(Classify, raw), Parse(Classify, Save(Looking(name), raw, name, fs)), name)
       <==> Tidy(name, Looks(Looking(name), raw))
  {
    hide *;
    LookingReads(name);
    FieldsAreReadBack(fs);
    ConfigSave.OthersUntouchedIff(Looking(name), Classify, ParseScalar, raw, name, fs);
  }

  // ----- layouts -----

  /** A line that starts with no tab and is no comment in column 0. */
  ghost predicate IsPlainLayout(line: string) {
    (line != [] ==> line[0] != '\t') && (IsTopLevel(line) ==> !Classify(line).Blank?)
  }

  lemma PlainLineLooks(name: string, line: string)
    requires IsPlainLayout(line)
    ensures ConfigFormat.IsPlainLook(LookAt(name, line))
  {
    if !IsTopLevel(line) && Classify(line).Entry? {
      EntryIndent(line);
      TrimBlank(line);
      if AllSpace(line) {
        BlankLine(line);
      }
    }
  }

  /** A text without tab-led lines and column-0 comments is tidy. */
  lemma PlainLayoutIsTidy(name: string, raw: string)
    requires forall i :: 0 <= i < |Lines(raw)| ==> IsPlainLayout(Lines(raw)[i])
    ensures Tidy(name, Looks(Looking(name), raw))
  {
    var lines := Lines(raw);
    forall i | 0 <= i < |lines|
      ensures ConfigFormat.IsPlainLook(MapLines(Looking(name), lines)[i])
    {
      MapAt(Looking(name), lines, i);
      PlainLineLooks(name, lines[i]);
    }
    ConfigFormat.PlainIsTidy(name, MapLines(Looking(name), lines));
  }

  // ----- texts that are damaged -----

  /** A whole-line comment in column 0. */
  ghost predicate IsComment(line: string) {
    IsClosed(line) && line != [] && line[0] == '#'
  }

  lemma CommentLooks(name: string, line: string)
    requires IsKey(name) && IsComment(line)
    ensures ConfigDamage.IsCommentLine(Looking(name), line)
  {
    assert CommentStart(line, 0, None) == 0;
    TrimEndKeeps(line);
    assert Trim(line) == line;
    assert IsKeyChar(name[0]);
  }

  lemma OtherLooks(name: string, other: string)
    ensures Looking(name)(Header(other)) == LookAt(name, Header(other))
  {}

  function TabLine(f: Field): string {
    "\t" + (f.key + ":" + (" " + f.text))
  }

  lemma DropTab(t: string)
    ensures TrimStart("\t" + t) == TrimStart(t) && LeadingSpaces("\t" + t) == 0
  {
    assert ("\t" + t)[1..] == t;
  }

  lemma TabText(t: string)
    requires t != [] && !IsSpace(t[0]) && !IsSpace(t[|t| - 1])
    ensures Trim("\t" + t) == t
  {
    TrimEndKeeps("\t" + t);
    DropTab(t);
  }

  lemma TabHasNoComment(f: Field)
    requires IsField(f)
    ensures CommentStart(TabLine(f), 0, None) == |TabLine(f)|
  {
    var prefix := "\t" + f.key + ": ";
    forall j | 0 <= j < |prefix|
      ensures IsInert(prefix[j])
    {
      if 1 <= j < 1 + |f.key| {
        assert prefix[j] == f.key[j - 1] && IsKeyChar(f.key[j - 1]);
      }
    }
    assert TabLine(f) == prefix + f.text;
    CommentAfterPrefix(prefix, f.text, 0);
    CommentShift(prefix, f.text, 0, None);
  }

  lemma TabReads(f: Field)
    requires IsField(f)
    ensures Classify(TabLine(f)) == Entry(0, f.key, false, ParseScalar(f.text))
  {
    var t := f.key + ":" + (" " + f.text);
    TabHasNoComment(f);
    WholeLine(TabLine(f));
    KeyedText(f.key, f.text);
    TabText(t);
    DropTab(t);
    DropSpace(f.text);
  }

  /** A tab-led entry is a top-level entry to the parser, and not one to the editor. */
  lemma TabLooks(name: string, f: Field)
    requires IsField(f)
    ensures ConfigDamage.IsHiddenEntry(Looking(name), TabLine(f), f.key)
  {
    hide Classify;
    TabReads(f);
    LineIsClosed("\t", f.key, f.text);
    assert TabLine(f)[0] == '\t';
  }

  /** Saving a section whose header is followed by a column-0 comment and a field makes the file
      unreadable. */
  lemma CommentMakesUnreadable(name: string, comment: string, f: Field, fs: seq<Field>)
    requires IsKey(name) && IsComment(comment) && IsField(f) && AreFields(fs)
    ensures var raw := Join([Header(name), comment, FieldLine(f)]);
            Parse(Classify, raw).Ok? && Parse(Classify, Save(Looking(name), raw, name, fs)).Err?
  {
    hide *;
    LookingReads(name);
    CommentLooks(name, comment);
    FieldIsReadBack(f);
    FieldsAreReadBack(fs);
    ConfigDamage.CommentMakesUnreadable(Looking(name), Classify, ParseScalar, name, comment, f, fs);
  }

  /** Behind another section, it moves the field into that section. */
  lemma CommentMovesField(other: string, g: Field, name: string, comment: string, f: Field, fs: seq<Field>)
    requires IsKey(name) && IsKey(other) && other != name
    requires IsComment(comment) && IsField(f) && IsField(g) && AreFields(fs)
    ensures var raw := Join(ConfigDamage.Drifting(other, g, name, comment, f));
            && ConfigDamage.Holds(Parse(Classify, raw), other, map[g.key := ParseScalar(g.text)])
            && ConfigDamage.Holds(Parse(Classify, Save(Looking(name), raw, name, fs)), other,
                                  map[g.key := ParseScalar(g.text), f.key := ParseScalar(f.text)])
  {
    hide *;
    LookingReads(name);
    HeaderLooks(name, other);
    OtherLooks(name, other);
    CommentLooks(name, comment);
    FieldIsReadBack(f);
    FieldIsReadBack(g);
    FieldsAreReadBack(fs);
    ConfigDamage.CommentMovesField(Looking(name), Classify, ParseScalar, other, g, name, comment, f, fs);
  }

  /** Saving a section whose header is followed by a tab-led entry loses the top-level key that the
      parser reads there. */
  lemma TabLosesKey(name: string, f: Field, fs: seq<Field>)
    requires IsKey(name) && IsField(f) && AreFields(fs) && f.key != name
    ensures var raw := Join([Header(name), TabLine(f)]);
            var saved := Parse(Classify, Save(Looking(name), raw, name, fs));
            ConfigDamage.HasKey(Parse(Classify, raw), f.key) && saved.Ok? && !ConfigDamage.HasKey(saved, f.key)
  {
    hide *;
    LookingReads(name);
    TabLooks(name, f);
    FieldsAreReadBack(fs);
    ConfigDamage.HiddenEntryIsLost(Looking(name), Classify, ParseScalar, name, TabLine(f), f.key, fs);
  }
}
