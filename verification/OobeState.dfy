/** The first-run state that the client keeps in its configuration file (`saveCliOobeState` of
    `loader.ts`), and when it can be read back.
*/
module OobeState {
  import opened Wrappers
  import opened TextLines
  import opened ConfigItems
  import opened ConfigText
  import opened ClientConfig
  import opened ClientFile
  import Decimal
  import ConfigSave
  import ConfigResave
  import ConfigFormat
  import JsonText

  datatype Status = Satisfied | Skipped

  datatype OobeConfig = OobeConfig(revision: int, status: Status, checkedAt: Option<string>, skippedAt: Option<string>)

  const OOBE := "oobe"
  const REVISION := "revision"
  const STATUS := "status"
  const CHECKED_AT := "checked_at"
  const SKIPPED_AT := "skipped_at"

  function StatusText(status: Status): string {
    if status.Satisfied? then "satisfied" else "skipped"
  }

  function DateText(date: Option<string>): string {
    if date.None? then "null" else JsonText.Quote(date.value)
  }

  function Fields(state: OobeConfig): seq<Field> {
    [Field(REVISION, PrintInteger(state.revision)), Field(STATUS, StatusText(state.status)),
     Field(CHECKED_AT, DateText(state.checkedAt)), Field(SKIPPED_AT, DateText(state.skippedAt))]
  }

  function DateScalar(date: Option<string>): Scalar {
    if date.None? then Null else Str(date.value)
  }

  /** The state as a section of the parsed configuration. */
  function StateSection(state: OobeConfig): map<string, Scalar> {
    map[REVISION := Num(state.revision), STATUS := Str(StatusText(state.status)),
        CHECKED_AT := DateScalar(state.checkedAt), SKIPPED_AT := DateScalar(state.skippedAt)]
  }

  // ----- `saveCliOobeState` -----

  /** The file after saving the state. */
  function Saved(raw: string, state: OobeConfig): string {
    Save(Looking(OOBE), raw, OOBE, Fields(state))
  }

  lemma SavedParts(body: seq<string>, block: seq<string>)
    requires body != [] && block != []
    ensures SavedText(body, block) == (if Join(body) == "" then "" else Join(body) + "\n\n") + Join(block)
  {
    if Join(body) != "" {
      JoinAppend(body + [""], block);
      JoinAppend(body, [""]);
    }
  }

  lemma BlockText(lines: seq<string>)
    requires lines != []
    ensures Join(lines + [""]) == Join(lines) + "\n"
  {
    JoinAppend(lines, [""]);
  }

  lemma SectionIsBlock(name: string, fs: seq<Field>)
    ensures ([Header(name)] + FieldLines(fs)) + [""] == Block(name, fs)
  {}

  /** What is written, from the kept lines and the lines of the new section. */
  method Assemble(lines: seq<string>, section: seq<string>) returns (text: string)
    requires section != []
    ensures text == SavedText(Trimmed(lines), section + [""])
  {
    var kept := if lines == [] then "" else TrimEnd(Join(lines));
    text := (if kept != "" then kept + "\n\n" else "") + Join(section) + "\n";
    if lines != [] {
      TrimEndOfJoin(lines);
    }
    BlockText(section);
    SavedParts(Trimmed(lines), section + [""]);
  }

  method SaveCliOobeState(raw: string, state: OobeConfig) returns (text: string)
    ensures text == Saved(raw, state)
  {
    var lines := RemoveTopLevelSection(raw, OOBE);
    var section := [Header(OOBE)] + FieldLines(Fields(state));
    text := Assemble(lines, section);
    SectionIsBlock(OOBE, Fields(state));
  }

  // ----- the fields -----

  lemma PrintedInteger(n: int)
    ensures PrintInteger(n) != [] && IsInteger(PrintInteger(n)) && ReadInteger(PrintInteger(n)) == n
  {
    if n < 0 {
      Decimal.ReadPrint(-n);
      assert PrintInteger(n)[1..] == Decimal.Print(-n);
    } else {
      Decimal.ReadPrint(n);
      assert Decimal.IsDigit(Decimal.Print(n)[0]);
    }
  }

  lemma IntegerChars(t: string, i: nat)
    requires IsInteger(t) && i < |t|
    ensures t[i] == '-' || Decimal.IsDigit(t[i])
  {
    if t[0] == '-' && i > 0 {
      assert t[i] == t[1..][i - 1];
    }
  }

  /** No quote, no number sign, no space: such a text is a value as it stands. */
  ghost predicate IsBare(t: string) {
    t != [] && forall i :: 0 <= i < |t| ==> IsInert(t[i]) && !IsSpace(t[i])
  }

  lemma BareIsValue(t: string)
    requires IsBare(t)
    ensures IsValueText(t) && Trim(t) == t
  {
    NoHashNoComment(t, 0, None);
    TrimEndKeeps(t);
    assert t[0] in t;
  }

  lemma IntegerIsBare(t: string)
    requires IsInteger(t)
    ensures IsBare(t)
  {
    forall i | 0 <= i < |t|
      ensures IsInert(t[i]) && !IsSpace(t[i])
    {
      IntegerChars(t, i);
    }
  }

  lemma IntegerIsNoWord(t: string)
    requires IsInteger(t)
    ensures t != "" && t != "null" && t != "~" && t != "true" && t != "false"
  {
    IntegerChars(t, 0);
  }

  lemma IntegerReadsBack(n: int)
    ensures IsValueText(PrintInteger(n)) && ParseScalar(PrintInteger(n)) == Num(n)
    ensures n < 0 <==> PrintInteger(n)[0] == '-'
  {
    PrintedInteger(n);
    IntegerIsBare(PrintInteger(n));
    BareIsValue(PrintInteger(n));
    IntegerIsNoWord(PrintInteger(n));
  }

  lemma WordIsNoInteger(t: string)
    requires t != [] && t[0] == 's'
    ensures !IsInteger(t) && !Quoted(t, '"') && !Quoted(t, '\'')
    ensures t != "null" && t != "~" && t != "true" && t != "false"
  {}

  lemma StatusIsBare(status: Status)
    ensures IsBare(StatusText(status)) && StatusText(status)[0] == 's'
  {}

  /** A written status is one of the two words that validation accepts, and the right one. */
  lemma StatusReadsBack(status: Status)
    ensures StatusText(Satisfied) == "satisfied" && StatusText(Skipped) == "skipped"
    ensures IsValueText(StatusText(status)) && ParseScalar(StatusText(status)) == Str(StatusText(status))
  {
    StatusIsBare(status);
    BareIsValue(StatusText(status));
    WordIsNoInteger(StatusText(status));
  }

  lemma NullReadsBack()
    ensures IsValueText("null") && ParseScalar("null") == Null
  {
    assert IsBare("null");
    BareIsValue("null");
  }

  ghost predicate IsReadable(date: Option<string>) {
    date.Some? ==> !JsonText.HasSeparator(date.value)
  }

  ghost predicate NeedsNoEscape(date: Option<string>) {
    date.Some? ==> JsonText.AllPlain(date.value)
  }

  /** A date that is read back: no quote, backslash, control character or line separator. */
  ghost predicate IsPlainDate(date: Option<string>) {
    IsReadable(date) && NeedsNoEscape(date)
  }

  lemma DateReadsBackIff(date: Option<string>)
    ensures IsWhole(DateText(date)) && (HasTerminator(DateText(date)) <==> !IsReadable(date))
    ensures ParseScalar(DateText(date)) == DateScalar(date) <==> NeedsNoEscape(date)
  {
    if date.None? {
      NullReadsBack();
    } else {
      JsonText.QuoteIsWhole(date.value);
      JsonText.QuoteReadsBackIff(date.value);
    }
  }

  lemma NamesAreKeys()
    ensures IsKey(OOBE) && IsKey(REVISION) && IsKey(STATUS) && IsKey(CHECKED_AT) && IsKey(SKIPPED_AT)
  {}

  lemma TextIsWritable(key: string, text: string)
    requires IsKey(key) && IsWhole(text) && IsLine(text)
    ensures IsWritable(Field(key, text))
  {
    FieldText(Field(key, text));
    LineIsClosed("  ", key, text);
  }

  lemma DateIsLine(date: Option<string>)
    ensures IsLine(DateText(date))
  {
    if date.Some? {
      JsonText.EscapedIsGuarded(date.value);
    }
  }

  lemma DateIsWritable(key: string, date: Option<string>)
    requires IsKey(key)
    ensures IsWritable(Field(key, DateText(date)))
  {
    DateReadsBackIff(date);
    DateIsLine(date);
    TextIsWritable(key, DateText(date));
  }

  lemma AllFour(fs: seq<Field>)
    requires |fs| == 4 && IsWritable(fs[0]) && IsWritable(fs[1]) && IsWritable(fs[2]) && IsWritable(fs[3])
    ensures AreWritable(fs)
  {}

  /** Every state can be written. */
  lemma StateIsWritable(state: OobeConfig)
    ensures AreWritable(Fields(state))
  {
    NamesAreKeys();
    IntegerReadsBack(state.revision);
    TextIsWritable(REVISION, PrintInteger(state.revision));
    StatusReadsBack(state.status);
    TextIsWritable(STATUS, StatusText(state.status));
    DateIsWritable(CHECKED_AT, state.checkedAt);
    DateIsWritable(SKIPPED_AT, state.skippedAt);
    AllFour(Fields(state));
  }

  lemma DateIsField(key: string, date: Option<string>)
    requires IsKey(key) && IsReadable(date)
    ensures IsField(Field(key, DateText(date)))
  {
    DateReadsBackIff(date);
  }

  lemma StateIsReadable(state: OobeConfig)
    requires IsReadable(state.checkedAt) && IsReadable(state.skippedAt)
    ensures AreFields(Fields(state))
  {
    hide IsValueText, ParseScalar, PrintInteger, StatusText, DateText, IsKey;
    NamesAreKeys();
    IntegerReadsBack(state.revision);
    StatusReadsBack(state.status);
    DateIsField(CHECKED_AT, state.checkedAt);
    DateIsField(SKIPPED_AT, state.skippedAt);
  }

  lemma ReadField(parse: string -> Scalar, fs: seq<Field>, f: Field)
    ensures FieldMap(ConfigSave.Items(parse, fs + [f])) == FieldMap(ConfigSave.Items(parse, fs))[f.key := parse(f.text)]
  {
    assert (fs + [f])[..|fs|] == fs;
    var items := ConfigSave.Items(parse, fs + [f]);
    assert items[..|items| - 1] == ConfigSave.Items(parse, fs);
  }

  lemma FourFields(a: Field, b: Field, c: Field, d: Field)
    ensures [a, b, c, d] == [] + [a] + [b] + [c] + [d]
  {}

  lemma ReadFour(parse: string -> Scalar, a: Field, b: Field, c: Field, d: Field)
    ensures FieldMap(ConfigSave.Items(parse, [a, b, c, d]))
         == map[a.key := parse(a.text), b.key := parse(b.text), c.key := parse(c.text), d.key := parse(d.text)]
  {
    FourFields(a, b, c, d);
    ReadField(parse, [], a);
    ReadField(parse, [] + [a], b);
    ReadField(parse, [] + [a] + [b], c);
    ReadField(parse, [] + [a] + [b] + [c], d);
  }

  lemma FourAgreeIff(k: seq<string>, x: seq<Scalar>, y: seq<Scalar>)
    requires |k| == |x| == |y| == 4 && x[0] == y[0] && x[1] == y[1]
    requires k[2] != k[3]
    ensures map[k[0] := x[0], k[1] := x[1], k[2] := x[2], k[3] := x[3]]
         == map[k[0] := y[0], k[1] := y[1], k[2] := y[2], k[3] := y[3]]
       <==> x[2] == y[2] && x[3] == y[3]
  {
    var m, n := map[k[0] := x[0], k[1] := x[1], k[2] := x[2], k[3] := x[3]],
                map[k[0] := y[0], k[1] := y[1], k[2] := y[2], k[3] := y[3]];
    assert m[k[2]] == x[2] && n[k[2]] == y[2] && m[k[3]] == x[3] && n[k[3]] == y[3];
  }

  /** What the parser makes of the written fields. */
  lemma SectionRead(parse: string -> Scalar, state: OobeConfig)
    ensures FieldMap(ConfigSave.Items(parse, Fields(state)))
         == map[REVISION := parse(PrintInteger(state.revision)), STATUS := parse(StatusText(state.status)),
                CHECKED_AT := parse(DateText(state.checkedAt)), SKIPPED_AT := parse(DateText(state.skippedAt))]
  {
    var fs := Fields(state);
    ReadFour(parse, fs[0], fs[1], fs[2], fs[3]);
  }

  lemma DatesDiffer()
    ensures CHECKED_AT != SKIPPED_AT
  {
    assert CHECKED_AT[0] == 'c' && SKIPPED_AT[0] == 's';
  }

  lemma SectionAgreesIff(parse: string -> Scalar, state: OobeConfig)
    requires parse(PrintInteger(state.revision)) == Num(state.revision)
    requires parse(StatusText(state.status)) == Str(StatusText(state.status))
    ensures FieldMap(ConfigSave.Items(parse, Fields(state))) == StateSection(state)
       <==> parse(DateText(state.checkedAt)) == DateScalar(state.checkedAt)
            && parse(DateText(state.skippedAt)) == DateScalar(state.skippedAt)
  {
    SectionRead(parse, state);
    DatesDiffer();
    FourAgreeIff([REVISION, STATUS, CHECKED_AT, SKIPPED_AT],
                 [Num(state.revision), Str(StatusText(state.status)),
                  parse(DateText(state.checkedAt)), parse(DateText(state.skippedAt))],
                 [Num(state.revision), Str(StatusText(state.status)),
                  DateScalar(state.checkedAt), DateScalar(state.skippedAt)]);
  }

  /** What is read from the fields is the state exactly when no date needed an escape. */
  lemma StateReadIff(state: OobeConfig)
    ensures ConfigSave.FieldsRead(ParseScalar, Fields(state)) == Section(StateSection(state))
       <==> NeedsNoEscape(state.checkedAt) && NeedsNoEscape(state.skippedAt)
  {
    IntegerReadsBack(state.revision);
    StatusReadsBack(state.status);
    DateReadsBackIff(state.checkedAt);
    DateReadsBackIff(state.skippedAt);
    hide ParseScalar;
    SectionAgreesIff(ParseScalar, state);
  }

  lemma BadDate(key: string, date: Option<string>)
    requires IsKey(key) && !IsReadable(date)
    ensures Classify(FieldLine(Field(key, DateText(date)))).Bad?
  {
    DateReadsBackIff(date);
    FieldReads(Field(key, DateText(date)));
  }

  lemma DateFields(state: OobeConfig)
    ensures |Fields(state)| == 4
    ensures Fields(state)[2] == Field(CHECKED_AT, DateText(state.checkedAt))
    ensures Fields(state)[3] == Field(SKIPPED_AT, DateText(state.skippedAt))
  {}

  /** A date with a line separator in it makes the whole file unreadable. */
  lemma UnreadableState(raw: string, state: OobeConfig)
    requires !IsReadable(state.checkedAt) || !IsReadable(state.skippedAt)
    ensures Parse(Classify, Saved(raw, state)).Err?
  {
    hide Classify, Looking, Reads, IsReadable, DateText, Fields, IsKey;
    NamesAreKeys();
    LookingReads(OOBE);
    StateIsWritable(state);
    DateFields(state);
    if !IsReadable(state.checkedAt) {
      BadDate(CHECKED_AT, state.checkedAt);
      ConfigFormat.BadFieldFails(Looking(OOBE), Classify, raw, OOBE, Fields(state), 2);
    } else {
      BadDate(SKIPPED_AT, state.skippedAt);
      ConfigFormat.BadFieldFails(Looking(OOBE), Classify, raw, OOBE, Fields(state), 3);
    }
  }

  // ----- what is read back -----

  /** The file parses, with `oobe` replaced by the state and every other key as it was. */
  ghost predicate ReadsBack(raw: string, state: OobeConfig) {
    ConfigSave.Replaced(Parse(Classify, raw), Parse(Classify, Saved(raw, state)), OOBE, Section(StateSection(state)))
  }

  /** Saving into a file that parses never yields one that is taken for JSON. */
  lemma SavedStateIsNotJson(raw: string, state: OobeConfig)
    requires Parse(Classify, raw).Ok?
    ensures !ConfigFormat.LooksLikeJson(Saved(raw, state))
  {
    NamesAreKeys();
    LookingReads(OOBE);
    ClassifyTellsFormat();
    StateIsWritable(state);
    var fs := Fields(state);
    hide Classify, Looking, Reads, ConfigFormat.LooksLikeJson, ConfigFormat.TellsFormat;
    ConfigFormat.SavedIsNotJson(Looking(OOBE), Classify, raw, OOBE, fs);
  }

  /** Saving the state into a tidy file and reading it gives the old configuration with `oobe`
      replaced by the state, exactly when both dates are plain. */
  lemma TidyStateReadsBackIff(raw: string, state: OobeConfig)
    requires Tidy(OOBE, Looks(Looking(OOBE), raw)) && Parse(Classify, raw).Ok?
    ensures ReadsBack(raw, state) <==> IsPlainDate(state.checkedAt) && IsPlainDate(state.skippedAt)
  {
    hide Classify, Looking, Reads, Tidy, IsReadable, NeedsNoEscape, Fields, ConfigSave.FieldsRead, StateSection;
    if IsReadable(state.checkedAt) && IsReadable(state.skippedAt) {
      NamesAreKeys();
      LookingReads(OOBE);
      StateIsReadable(state);
      FieldsAreReadBack(Fields(state));
      ConfigSave.TidyReadsBackIff(Looking(OOBE), Classify, ParseScalar, raw, OOBE, Fields(state),
                                  Section(StateSection(state)));
      StateReadIff(state);
    } else {
      UnreadableState(raw, state);
    }
  }

  /** If the file writes no top-level key twice, and no field of `oobe` in another section too, it is read
      back with the state in it exactly when the file is tidy and both dates are plain. */
  lemma StateReadsBackIff(raw: string, state: OobeConfig)
    requires Parse(Classify, raw).Ok? && ConfigSave.HidesNothing(OOBE, MapLines(Classify, Lines(raw)))
    ensures ReadsBack(raw, state)
       <==> Tidy(OOBE, Looks(Looking(OOBE), raw)) && IsPlainDate(state.checkedAt) && IsPlainDate(state.skippedAt)
  {
    hide Classify, Looking, Reads, Tidy, IsReadable, NeedsNoEscape, Fields, ConfigSave.HidesNothing, StateSection;
    if Tidy(OOBE, Looks(Looking(OOBE), raw)) {
      TidyStateReadsBackIff(raw, state);
    } else if IsReadable(state.checkedAt) && IsReadable(state.skippedAt) {
      NamesAreKeys();
      LookingReads(OOBE);
      StateIsReadable(state);
      FieldsAreReadBack(Fields(state));
      ConfigSave.UntidyIsNotReadBack(Looking(OOBE), Classify, ParseScalar, raw, OOBE, Fields(state),
                                     Section(StateSection(state)));
    } else {
      UnreadableState(raw, state);
    }
  }

  // ----- saving again -----

  /** Saving another state gives the text that saving it at once would have given, and saving the same
      state again changes nothing, exactly when no line kept ends in a carriage return. */
  lemma SaveAgainIff(raw: string, first: OobeConfig, second: OobeConfig)
    ensures Saved(Saved(raw, first), second) == Saved(raw, second)
       <==> forall i :: 0 <= i < |Body(Looking(OOBE), raw)| ==> !ConfigResave.EndsInReturn(Body(Looking(OOBE), raw)[i])
  {
    hide Classify, Looking, Reads, Fields, ConfigResave.EndsInReturn;
    NamesAreKeys();
    LookingReads(OOBE);
    StateIsWritable(first);
    ConfigResave.LaterSaveWinsIff(Looking(OOBE), Classify, raw, OOBE, Fields(first), Fields(second));
  }

  lemma ReturnLines(first: string, second: string)
    requires first == "x\r\r" && second == "y"
    ensures IsLine(first) && IsLine(second)
    ensures ConfigResave.EndsInReturn(first) && ConfigResave.EndsInReturn(DropCr(first))
    ensures ConfigResave.IsTrimmed([DropCr(first), second])
  {
    assert DropCr(first) == "x\r";
  }

  lemma ShortLineIsNoHeader(name: string, line: string)
    requires |line| <= |name|
    ensures !IsHeader(Looking(name)(line))
  {}

  /** With `x`, two carriage returns, a newline and `y` in the file, say, saving the same state again
      changes it. */
  lemma SavingTwiceCanChange(state: OobeConfig, first: string, second: string)
    requires first == "x\r\r" && second == "y"
    ensures var raw := Join([first, second]); Saved(Saved(raw, state), state) != Saved(raw, state)
  {
    hide Classify, Looking, Reads, Fields, Join, IsLine, DropCr, IsHeader;
    hide ConfigResave.EndsInReturn, ConfigResave.IsTrimmed;
    NamesAreKeys();
    LookingReads(OOBE);
    StateIsWritable(state);
    ReturnLines(first, second);
    ShortLineIsNoHeader(OOBE, first);
    ShortLineIsNoHeader(OOBE, second);
    ConfigResave.SavingTwiceCanChange(Looking(OOBE), Classify, OOBE, Fields(state), first, second);
  }
}
