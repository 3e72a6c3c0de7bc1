/** The ANSI-aware line wrapper of `natives.ts`.

    A line is a sequence of tokens: graphemes with their display widths, SGR sequences (section
    8.3.117 of ECMA-48) given by their `;`-separated parameter fields, and other escapes.  The
    meaning of a token sequence is what a terminal shows: each grapheme with the style in force,
    and the untracked escapes in their places.
*/
module AnsiWrap {
  import opened Wrappers
  import Decimal

  datatype Token =
    | Grapheme(text: string, width: nat)
    | Sgr(fields: seq<string>)
    | OtherEscape(text: string)

  /** The tracked part of the terminal's rendition.  A colour is kept as the parameter fields of
      the sequence that sets it again. */
  datatype Style = Style(
    bold: bool, italic: bool, underline: bool, strikethrough: bool,
    fg: Option<seq<string>>, bg: Option<seq<string>>)

  const DEFAULT_STYLE := Style(false, false, false, false, None, None)

  // ----- parameter fields and codes -----

  function Codes(fields: seq<string>): (codes: seq<nat>)
    ensures |codes| == |fields|
  {
    seq(|fields|, i requires 0 <= i < |fields| => Decimal.Read(fields[i]))
  }

  function Fields(codes: seq<nat>): (fields: seq<string>)
    ensures |fields| == |codes|
  {
    seq(|codes|, i requires 0 <= i < |codes| => Decimal.Print(codes[i]))
  }

  lemma CodesOfFields(codes: seq<nat>)
    ensures Codes(Fields(codes)) == codes
  {
    forall i | 0 <= i < |codes|
      ensures Codes(Fields(codes))[i] == codes[i]
    {
      Decimal.ReadPrint(codes[i]);
    }
  }

  // ----- the effect of one SGR sequence -----

  predicate IsFgCode(code: nat) {
    30 <= code <= 37 || 90 <= code <= 97
  }

  predicate IsBgCode(code: nat) {
    40 <= code <= 47 || 100 <= code <= 107
  }

  /** Number of codes an extended colour at position `i` spans, or 0 if there is none. */
  function ExtendedColor(codes: seq<nat>, i: nat): (n: nat)
    requires i < |codes|
    ensures n > 0 ==> i + n <= |codes|
  {
    if i + 2 < |codes| && codes[i + 1] == 5 then 3
    else if i + 4 < |codes| && codes[i + 1] == 2 then 5
    else 0
  }

  /** A code other than 38 and 48. */
  function ApplyCode(st: Style, code: nat): Style {
    match code
    case 0 => DEFAULT_STYLE
    case 1 => st.(bold := true)
    case 3 => st.(italic := true)
    case 4 => st.(underline := true)
    case 9 => st.(strikethrough := true)
    case 22 => st.(bold := false)
    case 23 => st.(italic := false)
    case 24 => st.(underline := false)
    case 29 => st.(strikethrough := false)
    case 39 => st.(fg := None)
    case 49 => st.(bg := None)
    case _ => ApplyBasicColor(st, code)
  }

  function ApplyBasicColor(st: Style, code: nat): Style {
    if IsFgCode(code) then st.(fg := Some(Fields([code])))
    else if IsBgCode(code) then st.(bg := Some(Fields([code])))
    else st
  }

  function ApplyColor(st: Style, color: seq<nat>): Style
    requires color != []
  {
    if color[0] == 38 then st.(fg := Some(Fields(color))) else st.(bg := Some(Fields(color)))
  }

  /** The codes from position `i` on, applied left to right. */
  function ApplyCodes(st: Style, codes: seq<nat>, i: nat): Style
    requires i <= |codes|
    decreases |codes| - i
  {
    if i == |codes| then st
    else if codes[i] == 38 || codes[i] == 48 then
      var n := ExtendedColor(codes, i);
      if n > 0 then ApplyCodes(ApplyColor(st, codes[i..i + n]), codes, i + n)
      else ApplyCodes(st, codes, i + 1)
    else ApplyCodes(ApplyCode(st, codes[i]), codes, i + 1)
  }

  function ApplyToken(st: Style, t: Token): Style {
    if t.Sgr? then ApplyCodes(st, Codes(t.fields), 0) else st
  }

  // ----- the state prefix and its inverse -----

  function Flag(on: bool, code: nat): seq<Token> {
    if on then [Sgr(Fields([code]))] else []
  }

  function ColorToken(color: Option<seq<string>>): seq<Token> {
    if color.Some? then [Sgr(color.value)] else []
  }

  /** The sequences that re-create a style. */
  function StatePrefix(st: Style): seq<Token> {
    Flag(st.bold, 1) + Flag(st.italic, 3) + Flag(st.underline, 4) + Flag(st.strikethrough, 9)
    + ColorToken(st.fg) + ColorToken(st.bg)
  }

  /** A complete colour setting: a basic code, or an extended colour of exactly its length. */
  ghost predicate IsColor(codes: seq<nat>, extended: nat, basic: nat -> bool) {
    || (|codes| == 1 && codes[0] != 38 && codes[0] != 48 && basic(codes[0]))
    || (|codes| == 3 && codes[0] == extended && codes[1] == 5)
    || (|codes| == 5 && codes[0] == extended && codes[1] == 2)
  }

  ghost predicate CanonicalFg(fields: seq<string>) {
    fields == Fields(Codes(fields)) && IsColor(Codes(fields), 38, IsFgCode)
  }

  ghost predicate CanonicalBg(fields: seq<string>) {
    fields == Fields(Codes(fields)) && IsColor(Codes(fields), 48, IsBgCode)
  }

  /** The styles a run can reach: every colour is the canonical text of a complete colour. */
  ghost predicate Reachable(st: Style) {
    && (st.fg.Some? ==> CanonicalFg(st.fg.value))
    && (st.bg.Some? ==> CanonicalBg(st.bg.value))
  }

  lemma FgCanonical(codes: seq<nat>)
    requires IsColor(codes, 38, IsFgCode)
    ensures CanonicalFg(Fields(codes))
  {
    CodesOfFields(codes);
  }

  lemma BgCanonical(codes: seq<nat>)
    requires IsColor(codes, 48, IsBgCode)
    ensures CanonicalBg(Fields(codes))
  {
    CodesOfFields(codes);
  }

  lemma ApplyBasicColorReachable(st: Style, code: nat)
    requires Reachable(st)
    ensures Reachable(ApplyBasicColor(st, code))
  {
    if IsFgCode(code) {
      FgCanonical([code]);
    } else if IsBgCode(code) {
      BgCanonical([code]);
    }
  }

  lemma ApplyCodeReachable(st: Style, code: nat)
    requires Reachable(st)
    ensures Reachable(ApplyCode(st, code))
  {
    ApplyBasicColorReachable(st, code);
    ApplyCodeColors(st, code);
    ReachableByColors(st, ApplyCode(st, code));
  }

  lemma ApplyCodeColors(st: Style, code: nat)
    ensures var r := ApplyCode(st, code);
            r == ApplyBasicColor(st, code) || ((r.fg == None || r.fg == st.fg) && (r.bg == None || r.bg == st.bg))
  {}

  lemma ReachableByColors(st: Style, r: Style)
    requires Reachable(st)
    ensures (r.fg == None || r.fg == st.fg) && (r.bg == None || r.bg == st.bg) ==> Reachable(r)
  {}

  lemma ApplyColorReachable(st: Style, codes: seq<nat>, i: nat)
    requires Reachable(st)
    requires i < |codes| && (codes[i] == 38 || codes[i] == 48) && ExtendedColor(codes, i) > 0
    ensures Reachable(ApplyColor(st, codes[i..i + ExtendedColor(codes, i)]))
  {
    var color := codes[i..i + ExtendedColor(codes, i)];
    if codes[i] == 38 {
      FgCanonical(color);
    } else {
      BgCanonical(color);
    }
  }

  lemma {:induction false} ApplyCodesReachable(st: Style, codes: seq<nat>, i: nat)
    requires Reachable(st) && i <= |codes|
    ensures Reachable(ApplyCodes(st, codes, i))
    decreases |codes| - i
  {
    if i < |codes| {
      if codes[i] == 38 || codes[i] == 48 {
        var n := ExtendedColor(codes, i);
        if n > 0 {
          ApplyColorReachable(st, codes, i);
          ApplyCodesReachable(ApplyColor(st, codes[i..i + n]), codes, i + n);
        } else {
          ApplyCodesReachable(st, codes, i + 1);
        }
      } else {
        ApplyCodeReachable(st, codes[i]);
        ApplyCodesReachable(ApplyCode(st, codes[i]), codes, i + 1);
      }
    }
  }

  lemma ApplyTokenReachable(st: Style, t: Token)
    requires Reachable(st)
    ensures Reachable(ApplyToken(st, t))
  {
    if t.Sgr? {
      ApplyCodesReachable(st, Codes(t.fields), 0);
    }
  }

  /** One canonical colour sequence sets exactly that colour. */
  lemma ApplyFg(st: Style, fields: seq<string>)
    requires CanonicalFg(fields)
    ensures ApplyToken(st, Sgr(fields)) == st.(fg := Some(fields))
  {
    var codes := Codes(fields);
    if |codes| == 1 {
      assert codes == [codes[0]];
      assert ApplyCodes(st, codes, 0) == ApplyCodes(ApplyCode(st, codes[0]), codes, 1);
    } else {
      assert codes[0..|codes|] == codes;
      assert ApplyCodes(st, codes, 0) == ApplyCodes(ApplyColor(st, codes), codes, |codes|);
    }
  }

  lemma ApplyBg(st: Style, fields: seq<string>)
    requires CanonicalBg(fields)
    ensures ApplyToken(st, Sgr(fields)) == st.(bg := Some(fields))
  {
    var codes := Codes(fields);
    if |codes| == 1 {
      assert codes == [codes[0]];
      assert ApplyCodes(st, codes, 0) == ApplyCodes(ApplyCode(st, codes[0]), codes, 1);
    } else {
      assert codes[0..|codes|] == codes;
      assert ApplyCodes(st, codes, 0) == ApplyCodes(ApplyColor(st, codes), codes, |codes|);
    }
  }

  lemma ApplySingle(st: Style, code: nat)
    requires code != 38 && code != 48
    ensures ApplyToken(st, Sgr(Fields([code]))) == ApplyCode(st, code)
  {
    CodesOfFields([code]);
    assert ApplyCodes(st, [code], 0) == ApplyCodes(ApplyCode(st, code), [code], 1);
  }

  // ----- what a token sequence shows -----

  datatype Item = Glyph(grapheme: Token, style: Style) | Raw(escape: Token)

  /** The style in force after a token sequence. */
  function After(st: Style, tokens: seq<Token>): Style {
    if tokens == [] then st
    else ApplyToken(After(st, tokens[..|tokens| - 1]), tokens[|tokens| - 1])
  }

  function ShowToken(st: Style, t: Token): seq<Item> {
    match t
    case Grapheme(_, _) => [Glyph(t, st)]
    case Sgr(_) => []
    case OtherEscape(_) => [Raw(t)]
  }

  /** What a terminal in style `st` shows for a token sequence. */
  function Show(st: Style, tokens: seq<Token>): seq<Item> {
    if tokens == [] then []
    else
      var front := tokens[..|tokens| - 1];
      Show(st, front) + ShowToken(After(st, front), tokens[|tokens| - 1])
  }

  lemma Extend(st: Style, tokens: seq<Token>, t: Token)
    ensures After(st, tokens + [t]) == ApplyToken(After(st, tokens), t)
    ensures Show(st, tokens + [t]) == Show(st, tokens) + ShowToken(After(st, tokens), t)
  {
    assert (tokens + [t])[..|tokens|] == tokens;
  }

  lemma {:induction false} AfterAppend(st: Style, a: seq<Token>, b: seq<Token>)
    ensures After(st, a + b) == After(After(st, a), b)
    decreases |b|
  {
    if b == [] {
      assert a + b == a;
    } else {
      var front, t := b[..|b| - 1], b[|b| - 1];
      AfterAppend(st, a, front);
      assert (a + b)[..|a + b| - 1] == a + front;
    }
  }

  lemma {:induction false} ShowAppend(st: Style, a: seq<Token>, b: seq<Token>)
    ensures Show(st, a + b) == Show(st, a) + Show(After(st, a), b)
    decreases |b|
  {
    if b == [] {
      assert a + b == a;
    } else {
      var front, t := b[..|b| - 1], b[|b| - 1];
      ShowAppend(st, a, front);
      AfterAppend(st, a, front);
      assert (a + b)[..|a + b| - 1] == a + front;
      Associate(Show(st, a), Show(After(st, a), front), ShowToken(After(st, a + front), t));
    }
  }

  lemma Compose(st: Style, a: seq<Token>, b: seq<Token>)
    ensures After(st, a + b) == After(After(st, a), b)
    ensures Show(st, a + b) == Show(st, a) + Show(After(st, a), b)
  {
    AfterAppend(st, a, b);
    ShowAppend(st, a, b);
  }

  /** Applying an optional sequence at the end of a prefix: it shows nothing. */
  lemma AfterOne(st: Style, a: seq<Token>, t: Token)
    requires t.Sgr? && Show(st, a) == []
    ensures After(st, a + [t]) == ApplyToken(After(st, a), t)
    ensures Show(st, a + [t]) == []
  {
    Extend(st, a, t);
  }

  lemma AddFlag(a: seq<Token>, on: bool, code: nat)
    requires code != 38 && code != 48 && Show(DEFAULT_STYLE, a) == []
    ensures Show(DEFAULT_STYLE, a + Flag(on, code)) == []
    ensures After(DEFAULT_STYLE, a + Flag(on, code))
         == if on then ApplyCode(After(DEFAULT_STYLE, a), code) else After(DEFAULT_STYLE, a)
  {
    if on {
      AfterOne(DEFAULT_STYLE, a, Sgr(Fields([code])));
      ApplySingle(After(DEFAULT_STYLE, a), code);
    } else {
      assert a + Flag(on, code) == a;
    }
  }

  lemma AddFg(a: seq<Token>, color: Option<seq<string>>)
    requires Show(DEFAULT_STYLE, a) == [] && (color.Some? ==> CanonicalFg(color.value))
    requires After(DEFAULT_STYLE, a).fg == None
    ensures Show(DEFAULT_STYLE, a + ColorToken(color)) == []
    ensures After(DEFAULT_STYLE, a + ColorToken(color)) == After(DEFAULT_STYLE, a).(fg := color)
  {
    if color.Some? {
      AfterOne(DEFAULT_STYLE, a, Sgr(color.value));
      ApplyFg(After(DEFAULT_STYLE, a), color.value);
    } else {
      assert a + ColorToken(color) == a;
    }
  }

  lemma AddBg(a: seq<Token>, color: Option<seq<string>>)
    requires Show(DEFAULT_STYLE, a) == [] && (color.Some? ==> CanonicalBg(color.value))
    requires After(DEFAULT_STYLE, a).bg == None
    ensures Show(DEFAULT_STYLE, a + ColorToken(color)) == []
    ensures After(DEFAULT_STYLE, a + ColorToken(color)) == After(DEFAULT_STYLE, a).(bg := color)
  {
    if color.Some? {
      AfterOne(DEFAULT_STYLE, a, Sgr(color.value));
      ApplyBg(After(DEFAULT_STYLE, a), color.value);
    } else {
      assert a + ColorToken(color) == a;
    }
  }

  lemma FlagsPrefix(st: Style)
    ensures var p := Flag(st.bold, 1) + Flag(st.italic, 3) + Flag(st.underline, 4) + Flag(st.strikethrough, 9);
            Show(DEFAULT_STYLE, p) == [] && After(DEFAULT_STYLE, p) == st.(fg := None, bg := None)
  {
    AddFlag([], st.bold, 1);
    var p1 := Flag(st.bold, 1);
    assert [] + p1 == p1;
    AddFlag(p1, st.italic, 3);
    AddFlag(p1 + Flag(st.italic, 3), st.underline, 4);
    AddFlag(p1 + Flag(st.italic, 3) + Flag(st.underline, 4), st.strikethrough, 9);
  }

  /** Printing a reachable style and reading it back from the default gives the style, and the
      printed sequences show nothing. */
  lemma PrefixRoundTrip(st: Style)
    requires Reachable(st)
    ensures After(DEFAULT_STYLE, StatePrefix(st)) == st
    ensures Show(DEFAULT_STYLE, StatePrefix(st)) == []
  {
    var p := Flag(st.bold, 1) + Flag(st.italic, 3) + Flag(st.underline, 4) + Flag(st.strikethrough, 9);
    FlagsPrefix(st);
    AddFg(p, st.fg);
    AddBg(p + ColorToken(st.fg), st.bg);
  }

  /** The prefix is empty for the default style only. */
  lemma PrefixEmpty(st: Style)
    requires Reachable(st)
    ensures StatePrefix(st) == [] <==> st == DEFAULT_STYLE
  {
    if StatePrefix(st) == [] {
      PrefixRoundTrip(st);
    }
  }

  // ----- what the codes mean to each other -----

  /** What a setting is about. */
  datatype Attribute = Bold | Italic | Underline | Strikethrough | Foreground | Background | Everything | Nothing

  /** One setting, complete and alone: a code, or an extended colour. */
  predicate IsSetting(codes: seq<nat>) {
    || (|codes| == 1 && codes[0] != 38 && codes[0] != 48)
    || (IsExtended(codes) && |codes| == if codes[1] == 5 then 3 else 5)
  }

  /** The codes start with an extended colour. */
  predicate IsExtended(codes: seq<nat>) {
    && |codes| >= 3 && (codes[0] == 38 || codes[0] == 48)
    && (codes[1] == 5 || (codes[1] == 2 && |codes| >= 5))
  }

  function AttributeOf(codes: seq<nat>): Attribute
    requires codes != []
  {
    var c := codes[0];
    if c == 0 then Everything
    else if c == 1 || c == 22 then Bold
    else if c == 3 || c == 23 then Italic
    else if c == 4 || c == 24 then Underline
    else if c == 9 || c == 29 then Strikethrough
    else if 30 <= c <= 39 || 90 <= c <= 97 then Foreground
    else if 40 <= c <= 49 || 100 <= c <= 107 then Background
    else Nothing
  }

  predicate TurnsOff(codes: seq<nat>)
    requires codes != []
  {
    codes[0] in {22, 23, 24, 29, 39, 49}
  }

  function Setting(codes: seq<nat>): Token {
    Sgr(Fields(codes))
  }

  /** One attribute set to a value, or off. */
  function Put(st: Style, a: Attribute, value: Option<seq<string>>): Style {
    match a
    case Bold => st.(bold := value.Some?)
    case Italic => st.(italic := value.Some?)
    case Underline => st.(underline := value.Some?)
    case Strikethrough => st.(strikethrough := value.Some?)
    case Foreground => st.(fg := value)
    case Background => st.(bg := value)
    case Everything => DEFAULT_STYLE
    case Nothing => st
  }

  function ValueOf(codes: seq<nat>): Option<seq<string>>
    requires codes != []
  {
    if TurnsOff(codes) then None else Some(Fields(codes))
  }

  lemma CodePuts(st: Style, code: nat)
    requires code != 38 && code != 48
    ensures ApplyCode(st, code) == Put(st, AttributeOf([code]), ValueOf([code]))
  {}

  lemma SettingPuts(st: Style, codes: seq<nat>)
    requires IsSetting(codes)
    ensures ApplyToken(st, Setting(codes)) == Put(st, AttributeOf(codes), ValueOf(codes))
  {
    CodesOfFields(codes);
    if |codes| == 1 {
      assert codes == [codes[0]];
      hide ApplyCode, Put;
      ApplySingle(st, codes[0]);
      CodePuts(st, codes[0]);
    } else {
      assert codes[0..|codes|] == codes;
      assert ApplyCodes(st, codes, 0) == ApplyCodes(ApplyColor(st, codes), codes, |codes|);
    }
  }

  lemma AfterTwo(st: Style, a: seq<nat>, b: seq<nat>)
    requires IsSetting(a) && IsSetting(b)
    ensures After(st, [Setting(a)]) == Put(st, AttributeOf(a), ValueOf(a))
    ensures After(st, [Setting(a), Setting(b)])
         == Put(Put(st, AttributeOf(a), ValueOf(a)), AttributeOf(b), ValueOf(b))
  {
    var first := [Setting(a)];
    assert first[..0] == [] && [Setting(a), Setting(b)] == first + [Setting(b)];
    SettingPuts(st, a);
    Extend(st, first, Setting(b));
    SettingPuts(After(st, first), b);
  }

  lemma FieldsInjective(a: seq<nat>, b: seq<nat>)
    requires Fields(a) == Fields(b)
    ensures a == b
  {
    CodesOfFields(a);
    CodesOfFields(b);
  }

  /** Of two settings of one attribute the last wins: an on-code before its off-code leaves no trace, nor
      a colour before another of the same ground. */
  lemma LastSettingWins(st: Style, a: seq<nat>, b: seq<nat>)
    requires IsSetting(a) && IsSetting(b) && AttributeOf(a) == AttributeOf(b)
    ensures After(st, [Setting(a), Setting(b)]) == After(st, [Setting(b)])
  {
    AfterTwo(st, a, b);
    AfterTwo(st, b, b);
  }

  /** Settings of different attributes do not touch each other. */
  lemma SettingsCommute(st: Style, a: seq<nat>, b: seq<nat>)
    requires IsSetting(a) && IsSetting(b) && AttributeOf(a) != AttributeOf(b)
    requires AttributeOf(a) != Everything && AttributeOf(b) != Everything
    ensures After(st, [Setting(a), Setting(b)]) == After(st, [Setting(b), Setting(a)])
  {
    hide Put;
    AfterTwo(st, a, b);
    AfterTwo(st, b, a);
    PutsCommute(st, AttributeOf(a), AttributeOf(b), ValueOf(a), ValueOf(b));
  }

  lemma PutsCommute(st: Style, a: Attribute, b: Attribute, x: Option<seq<string>>, y: Option<seq<string>>)
    requires a != b && a != Everything && b != Everything
    ensures Put(Put(st, a, x), b, y) == Put(Put(st, b, y), a, x)
  {}

  ghost predicate IsTracked(codes: seq<nat>) {
    IsSetting(codes) && AttributeOf(codes) != Everything && AttributeOf(codes) != Nothing
  }

  /** From the default style an off-code, and nothing else, changes nothing. */
  lemma OffFromDefaultIff(a: seq<nat>)
    requires IsTracked(a)
    ensures After(DEFAULT_STYLE, [Setting(a)]) == DEFAULT_STYLE <==> TurnsOff(a)
  {
    AfterTwo(DEFAULT_STYLE, a, a);
  }

  lemma PutsDiffer(a: Attribute, b: Attribute, x: Option<seq<string>>, y: Option<seq<string>>)
    requires !a.Everything? && !a.Nothing? && !b.Everything? && !b.Nothing? && x.Some?
    requires Put(DEFAULT_STYLE, a, x) == Put(DEFAULT_STYLE, b, y)
    ensures a == b && y.Some? && (a.Foreground? || a.Background? ==> x == y)
  {}

  lemma OnCode(a: seq<nat>, b: seq<nat>)
    requires IsSetting(a) && IsSetting(b) && !TurnsOff(a) && !TurnsOff(b)
    requires AttributeOf(a) == AttributeOf(b)
    requires !AttributeOf(a).Everything? && !AttributeOf(a).Nothing?
    requires !AttributeOf(a).Foreground? && !AttributeOf(a).Background?
    ensures a == b
  {
    assert |a| == 1 && |b| == 1 && a[0] == b[0];
  }

  /** Two settings that turn something on give the same style only if they are the same. */
  lemma SettingsDiffer(a: seq<nat>, b: seq<nat>)
    requires IsTracked(a) && IsTracked(b) && !TurnsOff(a)
    ensures After(DEFAULT_STYLE, [Setting(a)]) == After(DEFAULT_STYLE, [Setting(b)]) <==> a == b
  {
    hide Put;
    AfterTwo(DEFAULT_STYLE, a, a);
    AfterTwo(DEFAULT_STYLE, b, b);
    if After(DEFAULT_STYLE, [Setting(a)]) == After(DEFAULT_STYLE, [Setting(b)]) {
      PutsDiffer(AttributeOf(a), AttributeOf(b), ValueOf(a), ValueOf(b));
      if AttributeOf(a).Foreground? || AttributeOf(a).Background? {
        FieldsInjective(a, b);
      } else {
        OnCode(a, b);
      }
    }
  }

  /** After code 0 everything shows as from the default style; a code that is not tracked changes
      nothing. */
  lemma ResetForgets(st: Style, rest: seq<Token>)
    ensures Show(st, [Setting([0])] + rest) == Show(DEFAULT_STYLE, rest)
    ensures After(st, [Setting([0])] + rest) == After(DEFAULT_STYLE, rest)
  {
    AfterTwo(st, [0], [0]);
    Extend(st, [], Setting([0]));
    assert [] + [Setting([0])] == [Setting([0])];
    Compose(st, [Setting([0])], rest);
  }

  lemma UntrackedCode(st: Style, codes: seq<nat>)
    requires IsSetting(codes) && AttributeOf(codes) == Nothing
    ensures After(st, [Setting(codes)]) == st
  {
    AfterTwo(st, codes, codes);
  }

  lemma {:induction false} CodesFrom(st: Style, codes: seq<nat>, i: nat)
    requires i <= |codes|
    ensures ApplyCodes(st, codes, i) == ApplyCodes(st, codes[i..], 0)
    decreases |codes| - i
  {
    if i < |codes| {
      var rest := codes[i..];
      if codes[i] == 38 || codes[i] == 48 {
        var n := ExtendedColor(codes, i);
        assert ExtendedColor(rest, 0) == n;
        var k := if n > 0 then n else 1;
        var st' := if n > 0 then ApplyColor(st, codes[i..i + n]) else st;
        assert n > 0 ==> rest[0..n] == codes[i..i + n];
        CodesFrom(st', codes, i + k);
        CodesFrom(st', rest, k);
        assert rest[k..] == codes[i + k..];
      } else {
        CodesFrom(ApplyCode(st, codes[i]), codes, i + 1);
        CodesFrom(ApplyCode(st, codes[i]), rest, 1);
        assert rest[1..] == codes[i + 1..];
      }
    }
  }

  /** One sequence with many codes is many sequences with one setting each, in order. */
  lemma OneByOne(st: Style, first: seq<nat>, rest: seq<nat>)
    requires IsSetting(first)
    ensures ApplyToken(st, Setting(first + rest)) == ApplyToken(ApplyToken(st, Setting(first)), Setting(rest))
  {
    var codes := first + rest;
    CodesOfFields(codes);
    CodesOfFields(first);
    CodesOfFields(rest);
    var n := |first|;
    assert codes[0..n] == first == first[0..n] && codes[n..] == rest;
    var st' := if n == 1 then ApplyCode(st, first[0]) else ApplyColor(st, first);
    assert ApplyCodes(st, codes, 0) == ApplyCodes(st', codes, n);
    CodesFrom(st', codes, n);
    assert ApplyCodes(st, first, 0) == ApplyCodes(st', first, n);
  }

  /** A colour introducer that no extended colour follows is passed over. */
  lemma BadColorIsPassedOver(st: Style, introducer: nat, rest: seq<nat>)
    requires (introducer == 38 || introducer == 48) && !IsExtended([introducer] + rest)
    ensures ApplyToken(st, Setting([introducer] + rest)) == ApplyToken(st, Setting(rest))
  {
    var codes := [introducer] + rest;
    CodesOfFields(codes);
    CodesOfFields(rest);
    CodesFrom(st, codes, 1);
    assert codes[1..] == rest;
  }

  // ----- the mutable rendition record -----

  class SgrState {
    var bold: bool
    var italic: bool
    var underline: bool
    var strikethrough: bool
    var fg: Option<seq<string>>
    var bg: Option<seq<string>>

    function View(): Style
      reads this
    {
      Style(bold, italic, underline, strikethrough, fg, bg)
    }

    constructor ()
      ensures View() == DEFAULT_STYLE
    {
      bold, italic, underline, strikethrough := false, false, false, false;
      fg, bg := None, None;
    }

    /** One code other than 38 and 48. */
    method UpdateCode(code: nat)
      modifies this
      ensures View() == ApplyCode(old(View()), code)
    {
      match code {
        case 0 =>
          bold, italic, underline, strikethrough := false, false, false, false;
          fg, bg := None, None;
        case 1 => bold := true;
        case 3 => italic := true;
        case 4 => underline := true;
        case 9 => strikethrough := true;
        case 22 => bold := false;
        case 23 => italic := false;
        case 24 => underline := false;
        case 29 => strikethrough := false;
        case 39 => fg := None;
        case 49 => bg := None;
        case _ =>
          if IsFgCode(code) {
            fg := Some(Fields([code]));
          } else if IsBgCode(code) {
            bg := Some(Fields([code]));
          }
      }
    }

    /** Reads the codes of one SGR sequence left to right, consuming extended colours whole. */
    method Update(token: Token)
      modifies this
      ensures View() == ApplyToken(old(View()), token)
    {
      if !token.Sgr? {
        return;
      }
      var codes := Codes(token.fields);
      var i := 0;
      while i < |codes|
        invariant 0 <= i <= |codes|
        invariant ApplyCodes(View(), codes, i) == ApplyCodes(old(View()), codes, 0)
      {
        if codes[i] == 38 || codes[i] == 48 {
          var n := ExtendedColor(codes, i);
          if n > 0 {
            if codes[i] == 38 {
              fg := Some(Fields(codes[i..i + n]));
            } else {
              bg := Some(Fields(codes[i..i + n]));
            }
            i := i + n;
          } else {
            i := i + 1;
          }
        } else {
          UpdateCode(codes[i]);
          i := i + 1;
        }
      }
    }
  }

  // ----- wrapping -----

  const SGR_RESET := Sgr(Fields([0]))

  function CloseChunk(chunk: seq<Token>, st: Style): seq<Token> {
    if StatePrefix(st) != [] then chunk + [SGR_RESET] else chunk
  }

  function TokenWidth(t: Token): nat {
    if t.Grapheme? then t.width else 0
  }

  function Width(tokens: seq<Token>): nat {
    if tokens == [] then 0 else Width(tokens[..|tokens| - 1]) + TokenWidth(tokens[|tokens| - 1])
  }

  /** Number of graphemes of positive width. */
  function Visible(tokens: seq<Token>): nat {
    if tokens == [] then 0
    else Visible(tokens[..|tokens| - 1]) + if TokenWidth(tokens[|tokens| - 1]) > 0 then 1 else 0
  }

  /** Width of the first grapheme, if there is one. */
  function FirstWidth(tokens: seq<Token>): Option<nat> {
    if tokens == [] then None
    else
      var front := FirstWidth(tokens[..|tokens| - 1]);
      if front.Some? then front
      else if tokens[|tokens| - 1].Grapheme? then Some(tokens[|tokens| - 1].width)
      else None
  }

  lemma Measure(tokens: seq<Token>, t: Token)
    ensures Width(tokens + [t]) == Width(tokens) + TokenWidth(t)
    ensures Visible(tokens + [t]) == Visible(tokens) + if TokenWidth(t) > 0 then 1 else 0
    ensures FirstWidth(tokens + [t])
         == if FirstWidth(tokens).Some? then FirstWidth(tokens) else if t.Grapheme? then Some(t.width) else None
  {
    assert (tokens + [t])[..|tokens|] == tokens;
  }

  lemma {:induction false} VisibleBound(tokens: seq<Token>)
    ensures Visible(tokens) <= Width(tokens)
  {
    if tokens != [] {
      VisibleBound(tokens[..|tokens| - 1]);
    }
  }

  ghost predicate OnlySgr(tokens: seq<Token>) {
    forall i :: 0 <= i < |tokens| ==> tokens[i].Sgr?
  }

  lemma {:induction false} NoGraphemes(tokens: seq<Token>)
    requires OnlySgr(tokens)
    ensures Width(tokens) == 0 && Visible(tokens) == 0 && FirstWidth(tokens) == None
  {
    if tokens != [] {
      NoGraphemes(tokens[..|tokens| - 1]);
    }
  }

  lemma OnlySgrAppend(a: seq<Token>, b: seq<Token>)
    requires OnlySgr(a) && OnlySgr(b)
    ensures OnlySgr(a + b)
  {}

  lemma PrefixIsSgr(st: Style)
    ensures OnlySgr(StatePrefix(st))
  {
    var a, b, c, d := Flag(st.bold, 1), Flag(st.italic, 3), Flag(st.underline, 4), Flag(st.strikethrough, 9);
    OnlySgrAppend(a, b);
    OnlySgrAppend(a + b, c);
    OnlySgrAppend(a + b + c, d);
    OnlySgrAppend(a + b + c + d, ColorToken(st.fg));
    OnlySgrAppend(a + b + c + d + ColorToken(st.fg), ColorToken(st.bg));
  }

  /** A chunk is within the width unless a single visible grapheme is too wide on its own. */
  ghost predicate Fits(chunk: seq<Token>, width: int) {
    Width(chunk) <= width || Visible(chunk) == 1
  }

  /** The next chunk's first grapheme would not have fitted into this one. */
  ghost predicate BreakForced(chunk: seq<Token>, next: seq<Token>, width: int) {
    && FirstWidth(next).Some?
    && Width(chunk) > 0 && Width(chunk) + FirstWidth(next).value > width
  }

  /** What the chunks show when each is drawn on its own, from the default style. */
  function ShowChunks(chunks: seq<seq<Token>>): seq<Item> {
    if chunks == [] then []
    else ShowChunks(chunks[..|chunks| - 1]) + Show(DEFAULT_STYLE, chunks[|chunks| - 1])
  }

  /** Closing a chunk resets the style and changes nothing that is shown or measured. */
  lemma Closed(chunk: seq<Token>)
    requires Reachable(After(DEFAULT_STYLE, chunk))
    ensures var c := CloseChunk(chunk, After(DEFAULT_STYLE, chunk));
            && After(DEFAULT_STYLE, c) == DEFAULT_STYLE
            && Show(DEFAULT_STYLE, c) == Show(DEFAULT_STYLE, chunk)
            && Width(c) == Width(chunk) && Visible(c) == Visible(chunk) && FirstWidth(c) == FirstWidth(chunk)
  {
    var st := After(DEFAULT_STYLE, chunk);
    PrefixEmpty(st);
    if StatePrefix(st) != [] {
      Extend(DEFAULT_STYLE, chunk, SGR_RESET);
      Measure(chunk, SGR_RESET);
      ApplySingle(st, 0);
    }
  }

  /** The meaning part of the loop invariant: the chunks and the current line show the prefix read
      so far, and the tracked state is the style in force at its end. */
  ghost predicate Means(prefix: seq<Token>, chunks: seq<seq<Token>>, current: seq<Token>, st: Style) {
    && Reachable(st)
    && After(DEFAULT_STYLE, current) == st == After(DEFAULT_STYLE, prefix)
    && ShowChunks(chunks) + Show(DEFAULT_STYLE, current) == Show(DEFAULT_STYLE, prefix)
    && forall j :: 0 <= j < |chunks| ==> After(DEFAULT_STYLE, chunks[j]) == DEFAULT_STYLE
  }

  lemma MeansAppend(prefix: seq<Token>, chunks: seq<seq<Token>>, current: seq<Token>, st: Style, t: Token)
    requires Means(prefix, chunks, current, st)
    ensures Means(prefix + [t], chunks, current + [t], ApplyToken(st, t))
  {
    hide ShowChunks, Show, ShowToken, ApplyToken, After, Reachable;
    ApplyTokenReachable(st, t);
    Extend(DEFAULT_STYLE, prefix, t);
    Extend(DEFAULT_STYLE, current, t);
    Associate(ShowChunks(chunks), Show(DEFAULT_STYLE, current), ShowToken(st, t));
  }

  lemma MeansBreak(prefix: seq<Token>, chunks: seq<seq<Token>>, current: seq<Token>, st: Style)
    requires Means(prefix, chunks, current, st)
    ensures Means(prefix, chunks + [CloseChunk(current, st)], StatePrefix(st), st)
  {
    Closed(current);
    PrefixRoundTrip(st);
    var chunks' := chunks + [CloseChunk(current, st)];
    assert chunks'[..|chunks|] == chunks;
    assert ShowChunks(chunks') + [] == ShowChunks(chunks');
  }

  /** The layout part of the loop invariant. */
  ghost predicate LaidOut(chunks: seq<seq<Token>>, current: seq<Token>, width: int) {
    && Fits(current, width)
    && (forall j :: 0 <= j < |chunks| ==> Fits(chunks[j], width))
    && (forall j :: 0 < j < |chunks| ==> BreakForced(chunks[j - 1], chunks[j], width))
    && (chunks != [] ==> BreakForced(chunks[|chunks| - 1], current, width))
  }

  lemma FitsAppend(current: seq<Token>, width: int, t: Token)
    requires Fits(current, width) && width >= 0
    requires t.Grapheme? ==> Width(current) == 0 || Width(current) + t.width <= width
    ensures Fits(current + [t], width)
  {
    Measure(current, t);
    VisibleBound(current);
  }

  lemma ForcedAppend(chunk: seq<Token>, current: seq<Token>, width: int, t: Token)
    requires BreakForced(chunk, current, width)
    ensures BreakForced(chunk, current + [t], width)
  {
    Measure(current, t);
  }

  lemma LayoutAppend(chunks: seq<seq<Token>>, current: seq<Token>, width: int, t: Token)
    requires LaidOut(chunks, current, width) && width >= 0
    requires t.Grapheme? ==> Width(current) == 0 || Width(current) + t.width <= width
    ensures LaidOut(chunks, current + [t], width)
  {
    FitsAppend(current, width, t);
    if chunks != [] {
      ForcedAppend(chunks[|chunks| - 1], current, width, t);
    }
  }

  lemma StatePrefixMeasures(st: Style)
    ensures Width(StatePrefix(st)) == 0 && Visible(StatePrefix(st)) == 0 && FirstWidth(StatePrefix(st)) == None
  {
    PrefixIsSgr(st);
    NoGraphemes(StatePrefix(st));
  }

  lemma LayoutNext(chunks: seq<seq<Token>>, current: seq<Token>, closed: seq<Token>, next: seq<Token>, width: int)
    requires LaidOut(chunks, current, width) && Fits(next, width) && BreakForced(closed, next, width)
    requires Width(closed) == Width(current) && Visible(closed) == Visible(current)
    requires FirstWidth(closed) == FirstWidth(current)
    ensures LaidOut(chunks + [closed], next, width)
  {}

  lemma LayoutBreak(chunks: seq<seq<Token>>, current: seq<Token>, st: Style, width: int, g: Token)
    requires LaidOut(chunks, current, width) && width >= 0
    requires g.Grapheme? && Width(current) > 0 && Width(current) + g.width > width
    requires Reachable(st) && st == After(DEFAULT_STYLE, current)
    ensures LaidOut(chunks + [CloseChunk(current, st)], StatePrefix(st) + [g], width)
  {
    Closed(current);
    StatePrefixMeasures(st);
    Measure(StatePrefix(st), g);
    LayoutNext(chunks, current, CloseChunk(current, st), StatePrefix(st) + [g], width);
  }

  /** The loop invariant: what is shown, how it is laid out, and how wide the current chunk is. */
  ghost predicate Wrapped(prefix: seq<Token>, chunks: seq<seq<Token>>, current: seq<Token>, st: Style,
                          width: int, w: nat) {
    Means(prefix, chunks, current, st) && LaidOut(chunks, current, width) && w == Width(current)
  }

  lemma BreakStep(prefix: seq<Token>, chunks: seq<seq<Token>>, current: seq<Token>, st: Style,
                  width: int, w: nat, t: Token)
    requires Wrapped(prefix, chunks, current, st, width, w) && width >= 0
    requires t.Grapheme? && w > 0 && w + t.width > width
    ensures Wrapped(prefix + [t], chunks + [CloseChunk(current, st)], StatePrefix(st) + [t], ApplyToken(st, t),
                    width, t.width)
  {
    MeansBreak(prefix, chunks, current, st);
    MeansAppend(prefix, chunks + [CloseChunk(current, st)], StatePrefix(st), st, t);
    LayoutBreak(chunks, current, st, width, t);
    StatePrefixMeasures(st);
    Measure(StatePrefix(st), t);
  }

  lemma AppendStep(prefix: seq<Token>, chunks: seq<seq<Token>>, current: seq<Token>, st: Style,
                   width: int, w: nat, t: Token)
    requires Wrapped(prefix, chunks, current, st, width, w) && width >= 0
    requires t.Grapheme? ==> w == 0 || w + t.width <= width
    ensures Wrapped(prefix + [t], chunks, current + [t], ApplyToken(st, t), width, w + TokenWidth(t))
  {
    MeansAppend(prefix, chunks, current, st, t);
    LayoutAppend(chunks, current, width, t);
    Measure(current, t);
  }

  ghost predicate WrappedTo(line: seq<Token>, i: nat, chunks: seq<seq<Token>>, current: seq<Token>, st: Style,
                            width: int, w: nat) {
    i <= |line| && Wrapped(line[..i], chunks, current, st, width, w)
  }

  lemma NextPrefix(line: seq<Token>, i: nat, chunks: seq<seq<Token>>, current: seq<Token>, st: Style,
                   width: int, w: nat)
    requires i < |line| && Wrapped(line[..i] + [line[i]], chunks, current, st, width, w)
    ensures WrappedTo(line, i + 1, chunks, current, st, width, w)
  {
    assert line[..i + 1] == line[..i] + [line[i]];
  }

  lemma BreakNext(line: seq<Token>, i: nat, chunks: seq<seq<Token>>, current: seq<Token>, st: Style, width: int, w: nat)
    requires WrappedTo(line, i, chunks, current, st, width, w) && width >= 0 && i < |line|
    requires line[i].Grapheme? && w > 0 && w + line[i].width > width
    ensures WrappedTo(line, i + 1, chunks + [CloseChunk(current, st)], StatePrefix(st) + [line[i]],
                      ApplyToken(st, line[i]), width, line[i].width)
  {
    BreakStep(line[..i], chunks, current, st, width, w, line[i]);
    NextPrefix(line, i, chunks + [CloseChunk(current, st)], StatePrefix(st) + [line[i]], ApplyToken(st, line[i]),
               width, line[i].width);
  }

  lemma AppendNext(line: seq<Token>, i: nat, chunks: seq<seq<Token>>, current: seq<Token>, st: Style,
                   width: int, w: nat)
    requires WrappedTo(line, i, chunks, current, st, width, w) && width >= 0 && i < |line|
    requires line[i].Grapheme? ==> w == 0 || w + line[i].width <= width
    ensures WrappedTo(line, i + 1, chunks, current + [line[i]], ApplyToken(st, line[i]), width, w + TokenWidth(line[i]))
  {
    AppendStep(line[..i], chunks, current, st, width, w, line[i]);
    NextPrefix(line, i, chunks, current + [line[i]], ApplyToken(st, line[i]), width, w + TokenWidth(line[i]));
  }

  lemma NothingWrapped(line: seq<Token>, width: int)
    requires width >= 0
    ensures WrappedTo(line, 0, [], [], DEFAULT_STYLE, width, 0)
  {
    assert line[..0] == [];
  }

  /** The loop over the tokens; the last chunk is still open. */
  method WrapTokens(line: seq<Token>, width: int) returns (chunks: seq<seq<Token>>, current: seq<Token>)
    requires width >= 0
    ensures exists st, w :: Wrapped(line, chunks, current, st, width, w)
  {
    chunks, current := [], [];
    var state := new SgrState();
    var currentWidth: nat := 0;
    NothingWrapped(line, width);
    for i := 0 to |line|
      invariant WrappedTo(line, i, chunks, current, state.View(), width, currentWidth)
    {
      var t := line[i];
      if t.Grapheme? && currentWidth > 0 && currentWidth + t.width > width {
        BreakNext(line, i, chunks, current, state.View(), width, currentWidth);
        chunks := chunks + [CloseChunk(current, state.View())];
        current := StatePrefix(state.View());
        currentWidth := 0;
      } else {
        AppendNext(line, i, chunks, current, state.View(), width, currentWidth);
      }
      current := current + [t];
      currentWidth := currentWidth + TokenWidth(t);
      state.Update(t);
    }
    assert line[..|line|] == line;
  }

  /** Wrapping one line.  Drawn chunk by chunk from the default style, the result shows what the
      line shows; every chunk but the last ends in the default style; a chunk exceeds the width
      only if it holds exactly one visible grapheme; and every break was forced. */
  method WrapAnsiLine(line: seq<Token>, width: int) returns (chunks: seq<seq<Token>>)
    requires width >= 0
    ensures WrapsLine(line, width, chunks)
    ensures forall j :: 0 <= j < |chunks| - 1 ==> After(DEFAULT_STYLE, chunks[j]) == DEFAULT_STYLE
    ensures After(DEFAULT_STYLE, chunks[|chunks| - 1]) == After(DEFAULT_STYLE, line)
  {
    var current;
    chunks, current := WrapTokens(line, width);
    ghost var st, w :| Wrapped(line, chunks, current, st, width, w);
    LastChunk(line, chunks, current, st, width, w);
    chunks := chunks + [current];
  }

  /** What becomes of one line: it shows the same, chunk by chunk within the width, and its chunks are
      broken only where they must be. */
  ghost predicate WrapsLine(line: seq<Token>, width: int, chunks: seq<seq<Token>>) {
    && chunks != []
    && ShowChunks(chunks) == Show(DEFAULT_STYLE, line)
    && (forall j :: 0 <= j < |chunks| ==> Fits(chunks[j], width))
    && (forall j :: 0 < j < |chunks| ==> BreakForced(chunks[j - 1], chunks[j], width))
  }

  lemma LastChunk(line: seq<Token>, chunks: seq<seq<Token>>, current: seq<Token>, st: Style, width: int, w: nat)
    requires Wrapped(line, chunks, current, st, width, w)
    ensures WrapsLine(line, width, chunks + [current])
    ensures forall j :: 0 <= j < |chunks + [current]| - 1 ==>
                      After(DEFAULT_STYLE, (chunks + [current])[j]) == DEFAULT_STYLE
    ensures After(DEFAULT_STYLE, current) == After(DEFAULT_STYLE, line)
  {
    ChunkSnoc(chunks, current);
  }

  // ----- drawing the chunks one after the other -----

  function Join(chunks: seq<seq<Token>>): seq<Token> {
    if chunks == [] then [] else Join(chunks[..|chunks| - 1]) + chunks[|chunks| - 1]
  }

  /** On one terminal that keeps its state from chunk to chunk, the wrapped line still shows the
      same items in the same styles, because every chunk leaves the default style behind. */
  lemma {:induction false} JoinedMeaning(chunks: seq<seq<Token>>)
    requires forall j :: 0 <= j < |chunks| - 1 ==> After(DEFAULT_STYLE, chunks[j]) == DEFAULT_STYLE
    ensures Show(DEFAULT_STYLE, Join(chunks)) == ShowChunks(chunks)
    ensures chunks != [] ==> After(DEFAULT_STYLE, Join(chunks)) == After(DEFAULT_STYLE, chunks[|chunks| - 1])
  {
    if chunks != [] {
      var front, last := chunks[..|chunks| - 1], chunks[|chunks| - 1];
      JoinedMeaning(front);
      assert front != [] ==> front[|front| - 1] == chunks[|chunks| - 2];
      Compose(DEFAULT_STYLE, Join(front), last);
    }
  }

  function Flatten(groups: seq<seq<seq<Token>>>): seq<seq<Token>> {
    if groups == [] then [] else Flatten(groups[..|groups| - 1]) + groups[|groups| - 1]
  }

  /** The first `n` groups wrap the first `n` lines, one each. */
  ghost predicate WrapsLines(lines: seq<seq<Token>>, n: nat, width: int, groups: seq<seq<seq<Token>>>) {
    n == |groups| <= |lines| && forall i :: 0 <= i < n ==> WrapsLine(lines[i], width, groups[i])
  }

  lemma WrapsNext(lines: seq<seq<Token>>, n: nat, width: int, groups: seq<seq<seq<Token>>>, chunks: seq<seq<Token>>)
    requires WrapsLines(lines, n, width, groups) && n < |lines| && WrapsLine(lines[n], width, chunks)
    ensures WrapsLines(lines, n + 1, width, groups + [chunks])
  {}

  /** Wrapping a text, every line on its own, to a width of at least one column: the chunks are the
      chunks of the lines, one group a line, and every group shows what its line shows. */
  method WrapTextWithAnsi(lines: seq<seq<Token>>, width: int)
    returns (result: seq<seq<Token>>, ghost groups: seq<seq<seq<Token>>>)
    ensures |groups| == |lines| && result == Flatten(groups)
    ensures forall i :: 0 <= i < |lines| ==> WrapsLine(lines[i], if width < 1 then 1 else width, groups[i])
    ensures ShowChunks(result) == ShowChunks(lines)
  {
    var maxWidth := if width < 1 then 1 else width;
    result, groups := [], [];
    for i := 0 to |lines|
      invariant WrapsLines(lines, i, maxWidth, groups) && result == Flatten(groups)
    {
      var chunks := WrapAnsiLine(lines[i], maxWidth);
      WrapsNext(lines, i, maxWidth, groups, chunks);
      FlattenSnoc(groups, chunks);
      result, groups := result + chunks, groups + [chunks];
    }
    FlattenShows(lines, maxWidth, groups);
  }

  lemma FlattenSnoc(groups: seq<seq<seq<Token>>>, chunks: seq<seq<Token>>)
    ensures Flatten(groups + [chunks]) == Flatten(groups) + chunks
  {
    assert (groups + [chunks])[..|groups|] == groups;
  }

  lemma {:induction false} FlattenShows(lines: seq<seq<Token>>, width: int, groups: seq<seq<seq<Token>>>)
    requires |groups| == |lines| && forall i :: 0 <= i < |lines| ==> WrapsLine(lines[i], width, groups[i])
    ensures ShowChunks(Flatten(groups)) == ShowChunks(lines)
  {
    if lines != [] {
      var n := |lines| - 1;
      FlattenShows(lines[..n], width, groups[..n]);
      AppendChunks(Flatten(groups[..n]), groups[n]);
      assert WrapsLine(lines[n], width, groups[n]);
    }
  }

  lemma ChunkSnoc(chunks: seq<seq<Token>>, c: seq<Token>)
    ensures ShowChunks(chunks + [c]) == ShowChunks(chunks) + Show(DEFAULT_STYLE, c)
  {
    assert (chunks + [c])[..|chunks|] == chunks;
  }

  lemma SplitLast(a: seq<seq<Token>>, b: seq<seq<Token>>)
    requires b != []
    ensures a + b == (a + b[..|b| - 1]) + [b[|b| - 1]]
  {}

  lemma {:induction false} AppendChunks(a: seq<seq<Token>>, b: seq<seq<Token>>)
    ensures ShowChunks(a + b) == ShowChunks(a) + ShowChunks(b)
    decreases |b|
  {
    if b == [] {
      assert a + b == a;
    } else {
      var front, c := b[..|b| - 1], b[|b| - 1];
      SplitLast(a, b);
      Associate(ShowChunks(a), ShowChunks(front), Show(DEFAULT_STYLE, c));
      calc {
        ShowChunks(a + b);
      == { ChunkSnoc(a + front, c); }
        ShowChunks(a + front) + Show(DEFAULT_STYLE, c);
      == { AppendChunks(a, front); }
        ShowChunks(a) + ShowChunks(front) + Show(DEFAULT_STYLE, c);
      == ShowChunks(a) + ShowChunks(b);
      }
    }
  }
}
