/** The client configuration file of `loader.ts`, line by line: what its small YAML parser and its section
    editor make of a line.
*/
module ClientConfig {
  import opened Wrappers
  import opened TextLines
  import opened ConfigItems
  import opened ConfigText
  import Decimal

  // ----- one line -----

  /** Where a comment starts in `line`, looking from position `i` with the given open quote. */
  function CommentStart(line: string, i: nat, quote: Option<char>): (r: nat)
    requires i <= |line|
    ensures i <= r <= |line|
    decreases |line| - i
  {
    if i == |line| then i
    else
      var q := QuoteAfter(line, i, quote);
      if line[i] == '#' && q.None? then i else CommentStart(line, i + 1, q)
  }

  /** The open quote after position `i`; a quote behind a backslash does not count. */
  function QuoteAfter(line: string, i: nat, quote: Option<char>): Option<char>
    requires i < |line|
  {
    if (line[i] == '"' || line[i] == '\'') && !(i > 0 && line[i - 1] == '\\') then
      if quote == Some(line[i]) then None else if quote.Some? then quote else Some(line[i])
    else quote
  }

  function StripComment(line: string): string {
    line[..CommentStart(line, 0, None)]
  }

  method StripYamlComment(line: string) returns (r: string)
    ensures r == StripComment(line)
  {
    var quote: Option<char> := None;
    var i := 0;
    while i < |line|
      invariant 0 <= i <= |line|
      invariant CommentStart(line, i, quote) == CommentStart(line, 0, None)
    {
      quote := QuoteAfter(line, i, quote);
      if line[i] == '#' && quote.None? {
        return line[..i];
      }
      i := i + 1;
    }
    return line;
  }

  function LeadingSpaces(s: string): nat {
    if s != [] && s[0] == ' ' then 1 + LeadingSpaces(s[1..]) else 0
  }

  predicate IsKeyChar(c: char) {
    'A' <= c <= 'Z' || 'a' <= c <= 'z' || '0' <= c <= '9' || c == '_' || c == '-'
  }

  ghost predicate IsKey(s: string) {
    s != [] && forall i :: 0 <= i < |s| ==> IsKeyChar(s[i])
  }

  function KeyLength(s: string): (n: nat)
    ensures n <= |s|
  {
    if s != [] && IsKeyChar(s[0]) then 1 + KeyLength(s[1..]) else 0
  }

  /** What the pattern's dot does not match. */
  predicate HasTerminator(s: string) {
    '\n' in s || '\r' in s || '\U{2028}' in s || '\U{2029}' in s
  }

  /** A key and what follows its colon. */
  function SplitKey(t: string): Option<(string, string)> {
    var k := KeyLength(t);
    if k == 0 || k == |t| || t[k] != ':' then None else Some((t[..k], t[k + 1..]))
  }

  function ReadValue(key: string, value: string, indent: nat): Item {
    if HasTerminator(value) then Bad else Entry(indent, key, value == "", ParseScalar(value))
  }

  /** How the parser reads what is left of a line after its comment is gone. */
  function ReadItem(w: string): Item {
    if Trim(w) == [] then Blank
    else
      var pair := SplitKey(Trim(w));
      if pair.None? then Bad else ReadValue(pair.value.0, TrimStart(pair.value.1), LeadingSpaces(w))
  }

  function Classify(line: string): Item {
    ReadItem(StripComment(line))
  }

  // ----- scalars -----

  predicate IsInteger(s: string) {
    if s != [] && s[0] == '-' then |s| > 1 && Decimal.AllDigits(s[1..]) else s != [] && Decimal.AllDigits(s)
  }

  function ReadInteger(s: string): int {
    if s != [] && s[0] == '-' then -(Decimal.Read(s[1..]) as int) else Decimal.Read(s)
  }

  function PrintInteger(n: int): string {
    if n < 0 then "-" + Decimal.Print(-n) else Decimal.Print(n)
  }

  predicate Quoted(s: string, q: char) {
    s != [] && s[0] == q && s[|s| - 1] == q
  }

  function ParseScalar(value: string): Scalar {
    var t := Trim(value);
    if t == "" || t == "null" || t == "~" then Null
    else if t == "true" then Bool(true)
    else if t == "false" then Bool(false)
    else if IsInteger(t) then Num(ReadInteger(t))
    else if Quoted(t, '"') || Quoted(t, '\'') then Str(if |t| == 1 then "" else t[1..|t| - 1])
    else Str(t)
  }

  /** A text and what is left of it when its quotes, if it has any, are taken off. */
  ghost predicate Unquotes(t: string, s: string) {
    || t == "\"" + s + "\"" || t == "'" + s + "'" || (s == "" && (t == "\"" || t == "'"))
    || (s == t && !Quoted(t, '"') && !Quoted(t, '\''))
  }

  lemma UnquotesIff(t: string, s: string)
    ensures Unquotes(t, s) <==>
            s == if Quoted(t, '"') || Quoted(t, '\'') then (if |t| == 1 then "" else t[1..|t| - 1]) else t
  {
    if (Quoted(t, '"') || Quoted(t, '\'')) && |t| > 1 {
      assert t == [t[0]] + t[1..|t| - 1] + [t[|t| - 1]];
      assert s == ("\"" + s + "\"")[1..|s| + 1] && s == ("'" + s + "'")[1..|s| + 1];
    }
  }

  /** Digits, perhaps behind a minus sign, and what they denote. */
  ghost predicate DenotesInteger(t: string, n: int) {
    exists digits: string ::
      digits != "" && Decimal.AllDigits(digits)
      && ((t == digits && n == Decimal.Read(digits)) || (t == "-" + digits && n == -(Decimal.Read(digits) as int)))
  }

  lemma DenotesIntegerIff(t: string, n: int)
    ensures DenotesInteger(t, n) <==> IsInteger(t) && ReadInteger(t) == n
  {
    if IsInteger(t) && t[0] == '-' {
      assert t == "-" + t[1..];
    }
    if digits: string :| digits != "" && Decimal.AllDigits(digits) && t == "-" + digits {
      assert t[1..] == digits;
    }
  }

  predicate IsWord(t: string) {
    t == "" || t == "null" || t == "~" || t == "true" || t == "false"
  }

  /** Which scalar a value stands for: null, a truth value, an integer if there are only digits but for a
      sign, and else a string, without its quotes. */
  lemma ScalarIff(value: string, n: int, s: string)
    ensures var t, x := Trim(value), ParseScalar(value);
            && (x == Null <==> t == "" || t == "null" || t == "~")
            && (x == Bool(true) <==> t == "true") && (x == Bool(false) <==> t == "false")
            && (x == Num(n) <==> DenotesInteger(t, n))
            && (x == Str(s) <==> !IsWord(t) && !IsInteger(t) && Unquotes(t, s))
  {
    hide Unquotes, DenotesInteger, IsInteger, ReadInteger, Quoted;
    var t := Trim(value);
    UnquotesIff(t, s);
    DenotesIntegerIff(t, n);
    if IsWord(t) {
      WordsAreNoIntegers(t);
    }
  }

  lemma WordsAreNoIntegers(t: string)
    requires IsWord(t)
    ensures !IsInteger(t)
  {
    if t != "" {
      assert !Decimal.IsDigit(t[0]);
    }
  }

  // ----- the whole text -----

  method ParseSimpleYaml(raw: string) returns (r: Result<map<string, Value>, ParseError>)
    ensures r == Root(Parse(Classify, raw))
  {
    r := ParseLines(Classify, Lines(raw));
  }

  predicate IsTopLevel(line: string) {
    Trim(line) != [] && line != [] && line[0] != ' ' && line[0] != '\t'
  }

  /** How a line looks to the editor of the section `name` and to the parser. */
  function LookAt(name: string, line: string): Look {
    Look(IsTopLevel(line), Trim(line) == Header(name), line != [] && line[0] == ' ', Classify(line))
  }

  function Looking(name: string): string -> Look {
    line => LookAt(name, line)
  }

  method Inspect(line: string, name: string) returns (top: bool, header: bool)
    ensures top == Looking(name)(line).top && header == Looking(name)(line).header
  {
    top := Trim(line) != [] && line[0] != ' ' && line[0] != '\t';
    header := Trim(line) == name + ":";
  }

  method RemoveTopLevelSection(raw: string, name: string) returns (kept: seq<string>)
    ensures kept == Kept(Looking(name), Lines(raw))
  {
    var lines := Lines(raw);
    kept := [];
    var skipping := false;
    for i := 0 to |lines|
      invariant skipping == Skipping(MapLines(Looking(name), lines[..i]))
      invariant kept == Kept(Looking(name), lines[..i])
    {
      KeptSnoc(Looking(name), lines, i);
      var isTopLevel, isHeader := Inspect(lines[i], name);
      if isTopLevel {
        skipping := isHeader;
      }
      if !skipping {
        kept := kept + [lines[i]];
      }
    }
    assert lines[..|lines|] == lines;
  }

  // ----- space at the end of a line does not matter -----

  lemma {:induction false} NoCommentInSpace(line: string, i: nat, quote: Option<char>)
    requires i <= |line| && AllSpace(line[i..])
    ensures CommentStart(line, i, quote) == |line|
    decreases |line| - i
  {
    if i < |line| {
      assert IsSpace(line[i..][0]);
      assert line[i + 1..] == line[i..][1..];
      NoCommentInSpace(line, i + 1, QuoteAfter(line, i, quote));
    }
  }

  lemma {:induction false} CommentBeforeSpace(line: string, w: string, i: nat, quote: Option<char>)
    requires AllSpace(w) && i <= |line|
    ensures CommentStart(line + w, i, quote)
         == if CommentStart(line, i, quote) < |line| then CommentStart(line, i, quote) else |line + w|
    decreases |line| - i
  {
    if i == |line| {
      assert (line + w)[i..] == w;
      NoCommentInSpace(line + w, i, quote);
    } else {
      assert QuoteAfter(line + w, i, quote) == QuoteAfter(line, i, quote);
      CommentBeforeSpace(line, w, i + 1, QuoteAfter(line, i, quote));
    }
  }

  lemma {:induction false} LeadingSpacesBefore(s: string, w: string)
    requires !AllSpace(s)
    ensures LeadingSpaces(s + w) == LeadingSpaces(s)
    decreases |s|
  {
    if s[0] == ' ' {
      LeadingSpacesBefore(s[1..], w);
      assert (s + w)[1..] == s[1..] + w;
    }
  }

  lemma ReadItemTrailing(s: string, w: string)
    requires AllSpace(w)
    ensures ReadItem(s + w) == ReadItem(s)
  {
    TrimEndUnique(s, w);
    TrimBlank(s);
    if !AllSpace(s) {
      LeadingSpacesBefore(s, w);
    }
  }

  /** Appending space to a line does not change how it is read. */
  lemma ClassifyTrailing(line: string, w: string)
    requires AllSpace(w)
    ensures Classify(line + w) == Classify(line)
  {
    CommentBeforeSpace(line, w, 0, None);
    var c := CommentStart(line, 0, None);
    if c < |line| {
      assert (line + w)[..c] == line[..c];
    } else {
      assert (line + w)[..|line + w|] == line + w && line[..c] == line;
      ReadItemTrailing(line, w);
    }
  }

  // ----- indentation -----

  lemma EntryIndent(line: string)
    requires Classify(line).Entry?
    ensures line != []
    ensures line[0] == ' ' ==> Classify(line).indent >= 1
    ensures line[0] != ' ' ==> Classify(line).indent == 0
  {
    var w := StripComment(line);
    TrimBlank(w);
    assert w != [] && w[0] == line[0];
  }

  // ----- the section header -----

  lemma {:induction false} NoHashNoComment(line: string, i: nat, quote: Option<char>)
    requires i <= |line| && forall j :: 0 <= j < |line| ==> line[j] != '#'
    ensures CommentStart(line, i, quote) == |line|
    decreases |line| - i
  {
    if i < |line| {
      NoHashNoComment(line, i + 1, QuoteAfter(line, i, quote));
    }
  }

  /** Every character of a text is space or belongs to its trimmed part. */
  lemma TrimmedChars(s: string, i: nat)
    requires i < |s|
    ensures IsSpace(s[i]) || s[i] in Trim(s)
  {
    var e := TrimEnd(s);
    TrimEndSpace(s);
    TrimStartSpace(e);
    if i < |e| {
      var t := TrimStart(e);
      var d := |e| - |t|;
      if i < d {
        assert e[..d][i] == e[i];
      } else {
        assert t[i - d] == e[i];
      }
    } else {
      assert s[|e|..][i - |e|] == s[i];
    }
  }

  lemma {:induction false} KeyLengthIs(t: string, n: nat)
    requires n <= |t| && (forall i :: 0 <= i < n ==> IsKeyChar(t[i])) && (n == |t| || !IsKeyChar(t[n]))
    ensures KeyLength(t) == n
    decreases n
  {
    if n > 0 {
      KeyLengthIs(t[1..], n - 1);
    }
  }

  lemma HeaderChars(name: string)
    requires IsKey(name)
    ensures forall c :: c in Header(name) ==> c != '#'
  {}

  lemma HeaderHasNoHash(line: string, name: string)
    requires IsKey(name) && Trim(line) == Header(name)
    ensures forall j :: 0 <= j < |line| ==> line[j] != '#'
  {
    HeaderChars(name);
    forall j | 0 <= j < |line|
      ensures line[j] != '#'
    {
      hide Trim;
      TrimmedChars(line, j);
    }
  }

  lemma KeyValue(key: string, value: string)
    requires IsKey(key)
    ensures SplitKey(key + ":" + value) == Some((key, value))
  {
    var t, k := key + ":" + value, |key|;
    assert t[k] == ':';
    assert t[..k] == key;
    assert t[k + 1..] == value;
    KeyLengthIs(t, k);
  }

  lemma WholeLine(line: string)
    requires CommentStart(line, 0, None) == |line|
    ensures StripComment(line) == line
  {}

  lemma EmptyValue(key: string)
    ensures ReadValue(key, TrimStart(""), 0) == Entry(0, key, true, Null)
  {
    hide IsSpace, IsInteger, ReadInteger, Quoted;
    assert TrimStart("") == "" && Trim("") == "";
  }

  /** A line the editor takes for the section's header is a header to the parser, too. */
  lemma HeaderItem(line: string, name: string)
    requires IsKey(name) && IsTopLevel(line) && Trim(line) == Header(name)
    ensures Classify(line) == Entry(0, name, true, Null)
  {
    hide ReadValue, SplitKey, Trim, CommentStart;
    HeaderHasNoHash(line, name);
    NoHashNoComment(line, 0, None);
    WholeLine(line);
    assert Header(name) == name + ":" + "";
    KeyValue(name, "");
    EmptyValue(name);
    assert LeadingSpaces(line) == 0;
  }

  // ----- where a comment starts -----

  /** A quote that no backslash precedes. */
  predicate Delimits(line: string, i: nat) {
    i < |line| && (line[i] == '"' || line[i] == '\'') && !(i > 0 && line[i - 1] == '\\')
  }

  /** The quotation that the quote at `o` opens is still open before position `i`. */
  ghost predicate StillOpen(line: string, o: nat, i: nat) {
    o < i <= |line| && forall k :: o < k < i && Delimits(line, k) ==> line[k] != line[o]
  }

  /** Position `i` lies outside every quotation: a quotation runs from a quote outside all others to the next
      quote of its kind. */
  ghost predicate Outside(line: string, i: nat)
    decreases i
  {
    forall o: nat :: o < i && Delimits(line, o) && Outside(line, o) ==> !StillOpen(line, o, i)
  }

  /** The quote that is open before position `i`. */
  function OpenAt(line: string, i: nat): Option<char>
    requires i <= |line|
  {
    if i == 0 then None else QuoteAfter(line, i - 1, OpenAt(line, i - 1))
  }

  ghost predicate OpenedBy(line: string, o: nat, i: nat) {
    o < i && Delimits(line, o) && Outside(line, o) && StillOpen(line, o, i)
  }

  lemma StillOpenNext(line: string, o: nat, i: nat)
    requires o < i < |line|
    ensures StillOpen(line, o, i + 1) <==> StillOpen(line, o, i) && !(Delimits(line, i) && line[i] == line[o])
  {}

  ghost predicate OpenIsNamed(line: string, i: nat) {
    i <= |line| && forall o: nat :: OpenedBy(line, o, i) ==> OpenAt(line, i) == Some(line[o])
  }

  lemma NextIsNamed(line: string, i: nat)
    requires i < |line| && OpenIsNamed(line, i) && (OpenAt(line, i).None? <==> Outside(line, i))
    ensures OpenIsNamed(line, i + 1)
  {
    hide Outside;
    forall o: nat | OpenedBy(line, o, i + 1)
      ensures OpenAt(line, i + 1) == Some(line[o])
    {
      if o < i {
        StillOpenNext(line, o, i);
        assert OpenedBy(line, o, i);
      }
    }
  }

  lemma OutsideIff(line: string, i: nat)
    ensures Outside(line, i) <==> forall o: nat :: !OpenedBy(line, o, i)
  {
    if Outside(line, i) {
      forall o: nat
        ensures !OpenedBy(line, o, i)
      {
        assert o < i && Delimits(line, o) && Outside(line, o) ==> !StillOpen(line, o, i);
      }
    } else {
      var o: nat :| o < i && Delimits(line, o) && Outside(line, o) && StillOpen(line, o, i);
      assert OpenedBy(line, o, i);
    }
  }

  lemma NextIsOpened(line: string, i: nat)
    requires i < |line| && OpenIsNamed(line, i) && (OpenAt(line, i).None? <==> Outside(line, i))
    requires OpenAt(line, i + 1).Some?
    ensures !Outside(line, i + 1)
  {
    hide Outside, StillOpen;
    OutsideIff(line, i + 1);
    if OpenAt(line, i).None? {
      JustOpened(line, i);
      assert OpenedBy(line, i, i + 1);
    } else {
      OutsideIff(line, i);
      var o: nat :| OpenedBy(line, o, i);
      StillOpenNext(line, o, i);
      assert OpenedBy(line, o, i + 1);
    }
  }

  lemma JustOpened(line: string, i: nat)
    requires i < |line|
    ensures StillOpen(line, i, i + 1)
  {}

  /** The quote that is open, if there is one, is that of the quotation the position lies in. */
  lemma {:induction false} OpenIsOpened(line: string, i: nat)
    requires i <= |line|
    ensures OpenAt(line, i).None? <==> Outside(line, i)
    ensures OpenIsNamed(line, i)
    decreases i
  {
    hide StillOpen;
    OutsideIff(line, i);
    if i > 0 {
      OpenIsOpened(line, i - 1);
      NextIsNamed(line, i - 1);
      if OpenAt(line, i).Some? {
        NextIsOpened(line, i - 1);
      }
    }
  }

  /** A line's comment starts at the first number sign outside every quotation. */
  lemma CommentStartsOutside(line: string)
    ensures var c := CommentStart(line, 0, None);
            && (c < |line| ==> line[c] == '#' && Outside(line, c))
            && forall j :: 0 <= j < c && line[j] == '#' ==> !Outside(line, j)
  {
    FirstOutside(line, 0);
  }

  lemma {:induction false} FirstOutside(line: string, i: nat)
    requires i <= |line|
    ensures var c := CommentStart(line, i, OpenAt(line, i));
            && (c < |line| ==> line[c] == '#' && Outside(line, c))
            && forall j :: i <= j < c && line[j] == '#' ==> !Outside(line, j)
    decreases |line| - i
  {
    hide Outside;
    if i < |line| {
      OpenIsOpened(line, i);
      assert line[i] == '#' ==> QuoteAfter(line, i, OpenAt(line, i)) == OpenAt(line, i);
      FirstOutside(line, i + 1);
    }
  }

  // ----- any line at all -----

  /** A line, its comment gone, written as a key and a value with space around them. */
  ghost predicate IsLaidOut(w: string, lead: string, key: string, gap: string, value: string, trail: string) {
    && w == lead + (key + ":" + (gap + value)) + trail
    && AllSpace(lead) && AllSpace(gap) && AllSpace(trail) && IsKey(key)
    && (value == "" ==> gap == "")
    && (value != "" ==> !IsSpace(value[0]) && !IsSpace(value[|value| - 1]))
  }

  lemma {:induction false} TrimStartUnique(w: string, s: string)
    requires AllSpace(w) && (s == [] || !IsSpace(s[0]))
    ensures TrimStart(w + s) == s
    decreases |w|
  {
    if w == [] {
      assert w + s == s;
    } else {
      assert (w + s)[1..] == w[1..] + s;
      TrimStartUnique(w[1..], s);
    }
  }

  lemma TrimIs(lead: string, core: string, trail: string)
    requires AllSpace(lead) && AllSpace(trail) && core != []
    requires !IsSpace(core[0]) && !IsSpace(core[|core| - 1])
    ensures Trim(lead + core + trail) == core
  {
    TrimEndUnique(lead + core, trail);
    TrimEndKeeps(lead + core);
    TrimStartUnique(lead, core);
  }

  lemma CoreEnds(key: string, gap: string, value: string)
    requires IsKey(key) && (value == "" ==> gap == "") && (value != "" ==> !IsSpace(value[|value| - 1]))
    ensures var core := key + ":" + (gap + value);
            core != [] && !IsSpace(core[0]) && !IsSpace(core[|core| - 1])
  {
    var core := key + ":" + (gap + value);
    KeyCharIsNoSpace(key[0]);
    assert core[0] == key[0];
    assert value == "" ==> core[|core| - 1] == ':';
    assert value != "" ==> core[|core| - 1] == value[|value| - 1];
  }

  /** A line laid out like that is read as its key and value, at the indentation of its first spaces. */
  lemma LaidOutReads(line: string, lead: string, key: string, gap: string, value: string, trail: string)
    requires IsLaidOut(StripComment(line), lead, key, gap, value, trail)
    ensures Classify(line) == if HasTerminator(value) then Bad
                              else Entry(LeadingSpaces(lead), key, value == "", ParseScalar(value))
  {
    hide ParseScalar, SplitKey, IsSpace, Trim, TrimStart, StripComment, HasTerminator, LeadingSpaces, AllSpace;
    var core := key + ":" + (gap + value);
    CoreEnds(key, gap, value);
    TrimIs(lead, core, trail);
    KeyValue(key, gap + value);
    TrimStartUnique(gap, value);
    LeadingSpacesOf(lead, core + trail);
    assert lead + core + trail == lead + (core + trail);
  }

  lemma {:induction false} LeadingSpacesOf(lead: string, rest: string)
    requires rest != [] && !IsSpace(rest[0])
    ensures LeadingSpaces(lead + rest) == LeadingSpaces(lead)
    decreases |lead|
  {
    if lead == [] {
      assert lead + rest == rest;
    } else {
      assert (lead + rest)[1..] == lead[1..] + rest;
      LeadingSpacesOf(lead[1..], rest);
    }
  }

  lemma TrimParts(w: string) returns (lead: string, trail: string)
    ensures w == lead + Trim(w) + trail && AllSpace(lead) && AllSpace(trail)
    ensures Trim(w) != "" ==> !IsSpace(Trim(w)[|Trim(w)| - 1])
  {
    hide IsSpace, AllSpace;
    var e, t := TrimEnd(w), Trim(w);
    TrimEndSpace(w);
    TrimStartSpace(e);
    lead, trail := e[..|e| - |t|], w[|e|..];
    assert e == lead + t && w == e + trail;
    assert t != "" ==> t[|t| - 1] == e[|e| - 1];
  }

  lemma NotAllSpace(s: string)
    requires s != "" && !IsSpace(s[|s| - 1])
    ensures !AllSpace(s)
  {}

  lemma NoText()
    ensures TrimStart("") == "" && AllSpace("")
  {}

  lemma ValueParts(rest: string) returns (gap: string, value: string)
    requires rest != "" ==> !IsSpace(rest[|rest| - 1])
    ensures rest == gap + value && value == TrimStart(rest) && AllSpace(gap) && (value == "" ==> gap == "")
    ensures value != "" ==> !IsSpace(value[0]) && !IsSpace(value[|value| - 1])
  {
    hide IsSpace, AllSpace, TrimStart;
    if rest == "" {
      gap, value := "", "";
      NoText();
    } else {
      gap, value := SpaceThenText(rest);
    }
  }

  lemma SpaceThenText(s: string) returns (space: string, text: string)
    requires s != "" && !IsSpace(s[|s| - 1])
    ensures s == space + text && text == TrimStart(s) && AllSpace(space)
    ensures text != "" && !IsSpace(text[0]) && !IsSpace(text[|text| - 1])
  {
    hide IsSpace, AllSpace;
    NotAllSpace(s);
    TrimStartBlank(s);
    TrimStartSpace(s);
    text := TrimStart(s);
    space := s[..|s| - |text|];
    assert text[|text| - 1] == s[|s| - 1];
  }

  lemma SplitKeyParts(t: string)
    requires SplitKey(t).Some?
    ensures var (key, rest) := SplitKey(t).value; IsKey(key) && t == key + ":" + rest
  {
    KeyLengthKeys(t);
  }

  /** Only lines laid out like that are entries. */
  lemma EntryIsLaidOut(line: string)
    returns (lead: string, key: string, gap: string, value: string, trail: string)
    requires Classify(line).Entry?
    ensures IsLaidOut(StripComment(line), lead, key, gap, value, trail) && !HasTerminator(value)
  {
    hide ParseScalar, SplitKey, IsSpace, Trim, TrimStart, StripComment, HasTerminator, LeadingSpaces, AllSpace, IsKey;
    var w := StripComment(line);
    var core := Trim(w);
    lead, trail := TrimParts(w);
    SplitKeyParts(core);
    var rest := SplitKey(core).value.1;
    key := SplitKey(core).value.0;
    assert rest != "" ==> rest[|rest| - 1] == core[|core| - 1];
    gap, value := ValueParts(rest);
  }

  lemma {:induction false} KeyLengthKeys(t: string)
    ensures forall i :: 0 <= i < KeyLength(t) ==> IsKeyChar(t[i])
  {
    if t != [] && IsKeyChar(t[0]) {
      KeyLengthKeys(t[1..]);
      assert forall i :: 0 < i <= KeyLength(t[1..]) ==> t[i] == t[1..][i - 1];
    }
  }

  /** Only lines of space, their comment gone, are blank. */
  lemma BlankIff(line: string)
    ensures Classify(line).Blank? <==> AllSpace(StripComment(line))
  {
    TrimBlank(StripComment(line));
  }

  // ----- the lines of the new section -----

  /** Nothing in the text opens a quote, escapes one or starts a comment. */
  predicate IsInert(c: char) {
    c != '"' && c != '\'' && c != '#' && c != '\\'
  }

  lemma {:induction false} CommentAfterPrefix(prefix: string, text: string, i: nat)
    requires i <= |prefix| && forall j :: 0 <= j < |prefix| ==> IsInert(prefix[j])
    ensures CommentStart(prefix + text, i, None) == CommentStart(prefix + text, |prefix|, None)
    decreases |prefix| - i
  {
    if i < |prefix| {
      assert (prefix + text)[i] == prefix[i];
      CommentAfterPrefix(prefix, text, i + 1);
    }
  }

  lemma QuoteShift(prefix: string, text: string, j: nat, quote: Option<char>)
    requires j < |text| && (prefix == [] || prefix[|prefix| - 1] != '\\')
    ensures QuoteAfter(prefix + text, |prefix| + j, quote) == QuoteAfter(text, j, quote)
  {
    var line := prefix + text;
    assert line[|prefix| + j] == text[j];
    assert j > 0 ==> line[|prefix| + j - 1] == text[j - 1];
    assert j == 0 && prefix != [] ==> line[|prefix| - 1] == prefix[|prefix| - 1];
  }

  lemma {:induction false} CommentShift(prefix: string, text: string, j: nat, quote: Option<char>)
    requires j <= |text| && (prefix == [] || prefix[|prefix| - 1] != '\\')
    ensures CommentStart(prefix + text, |prefix| + j, quote) == |prefix| + CommentStart(text, j, quote)
    decreases |text| - j
  {
    if j < |text| {
      hide QuoteAfter;
      QuoteShift(prefix, text, j, quote);
      assert (prefix + text)[|prefix| + j] == text[j];
      CommentShift(prefix, text, j + 1, QuoteAfter(text, j, quote));
    }
  }

  /** A value without a comment in it or space around it. */
  ghost predicate IsWhole(text: string) {
    text != [] && !IsSpace(text[0]) && !IsSpace(text[|text| - 1]) && CommentStart(text, 0, None) == |text|
  }

  /** A value that the parser reads back as it stands. */
  ghost predicate IsValueText(text: string) {
    IsWhole(text) && !HasTerminator(text)
  }

  lemma FieldPrefix(key: string)
    requires IsKey(key)
    ensures var prefix := "  " + key + ": ";
            prefix[|prefix| - 1] == ' ' && forall j :: 0 <= j < |prefix| ==> IsInert(prefix[j])
  {
    var prefix := "  " + key + ": ";
    forall j | 0 <= j < |prefix|
      ensures IsInert(prefix[j])
    {
      if 2 <= j < 2 + |key| {
        assert prefix[j] == key[j - 2] && IsKeyChar(key[j - 2]);
      }
    }
  }

  lemma FieldHasNoComment(f: Field)
    requires IsKey(f.key) && IsWhole(f.text)
    ensures CommentStart(FieldLine(f), 0, None) == |FieldLine(f)|
  {
    var prefix := "  " + f.key + ": ";
    FieldPrefix(f.key);
    CommentAfterPrefix(prefix, f.text, 0);
    CommentShift(prefix, f.text, 0, None);
  }

  lemma DropSpace(t: string)
    ensures TrimStart(" " + t) == TrimStart(t) && LeadingSpaces(" " + t) == 1 + LeadingSpaces(t)
  {
    assert (" " + t)[1..] == t;
  }

  /** A line written with two leading spaces. */
  lemma Indented(t: string)
    requires t != [] && !IsSpace(t[0]) && !IsSpace(t[|t| - 1])
    ensures Trim("  " + t) == t && LeadingSpaces("  " + t) == 2
  {
    var line := "  " + t;
    TrimEndKeeps(line);
    assert line == " " + (" " + t);
    DropSpace(" " + t);
    DropSpace(t);
  }

  lemma KeyCharIsNoSpace(c: char)
    requires IsKeyChar(c)
    ensures !IsSpace(c)
  {}

  lemma FieldText(f: Field)
    ensures FieldLine(f) == "  " + (f.key + ":" + (" " + f.text))
  {}

  lemma KeyedText(key: string, text: string)
    requires IsKey(key) && IsWhole(text)
    ensures var t := key + ":" + (" " + text);
            t != [] && !IsSpace(t[0]) && !IsSpace(t[|t| - 1]) && SplitKey(t) == Some((key, " " + text))
  {
    var t := key + ":" + (" " + text);
    assert t[0] == key[0] && IsKeyChar(key[0]);
    assert t[|t| - 1] == text[|text| - 1];
    KeyValue(key, " " + text);
  }

  /** A written field is read as a nested entry, from its key and its text. */
  lemma FieldReads(f: Field)
    requires IsKey(f.key) && IsWhole(f.text)
    ensures Classify(FieldLine(f)) == ReadValue(f.key, f.text, 2)
  {
    FieldHasNoComment(f);
    WholeLine(FieldLine(f));
    FieldText(f);
    KeyedText(f.key, f.text);
    Indented(f.key + ":" + (" " + f.text));
    DropSpace(f.text);
  }

  lemma HeaderLine(name: string)
    requires IsKey(name)
    ensures IsTopLevel(Header(name)) && Trim(Header(name)) == Header(name)
    ensures Classify(Header(name)) == Entry(0, name, true, Null)
  {
    KeyCharIsNoSpace(name[0]);
    TrimEndKeeps(Header(name));
    HeaderItem(Header(name), name);
  }

  lemma EmptyLine()
    ensures Classify("") == Blank && !IsTopLevel("")
  {}
}
