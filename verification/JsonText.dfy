/** Strings as `JSON.stringify` writes them, and what the client configuration's parser makes of them. */
module JsonText {
  import opened Wrappers
  import opened TextLines
  import opened ConfigItems
  import opened ConfigText
  import opened ClientConfig
  import Decimal

  function HexChar(n: nat): char
    requires n < 16
  {
    if n < 10 then Decimal.DigitChar(n) else ('a' as int + (n - 10)) as char
  }

  /** A character written as itself. */
  predicate IsPlain(c: char) {
    c >= ' ' && c != '"' && c != '\\'
  }

  /** What follows the backslash. */
  function AfterBackslash(c: char): (r: string)
    requires !IsPlain(c)
  {
    if c == '"' || c == '\\' then [c]
    else if c == '\U{0008}' then "b"
    else if c == '\t' then "t"
    else if c == '\n' then "n"
    else if c == '\U{000c}' then "f"
    else if c == '\r' then "r"
    else ['u', '0', '0', HexChar(c as int / 16), HexChar(c as int % 16)]
  }

  function Escape(c: char): string {
    if IsPlain(c) then [c] else ['\\'] + AfterBackslash(c)
  }

  function Escaped(s: string): string {
    if s == [] then [] else Escaped(s[..|s| - 1]) + Escape(s[|s| - 1])
  }

  function Quote(s: string): string {
    ['"'] + Escaped(s) + ['"']
  }

  ghost predicate AllPlain(s: string) {
    forall i :: 0 <= i < |s| ==> IsPlain(s[i])
  }

  // ----- the escaped text is the text exactly when nothing needs an escape -----

  lemma EscapeLength(c: char)
    ensures |Escape(c)| >= 1 && (|Escape(c)| == 1 <==> IsPlain(c))
  {}

  lemma {:induction false} EscapedLength(s: string)
    ensures |Escaped(s)| >= |s| && (|Escaped(s)| == |s| <==> AllPlain(s))
    ensures AllPlain(s) ==> Escaped(s) == s
  {
    if s != [] {
      EscapedLength(s[..|s| - 1]);
      EscapeLength(s[|s| - 1]);
    }
  }

  // ----- it is JSON -----

  function HexValue(c: char): Option<nat> {
    if '0' <= c <= '9' then Some(c as int - '0' as int)
    else if 'a' <= c <= 'f' then Some(c as int - 'a' as int + 10)
    else if 'A' <= c <= 'F' then Some(c as int - 'A' as int + 10)
    else None
  }

  /** The number that four hexadecimal digits stand for. */
  function CodeUnit(a: char, b: char, c: char, d: char): Option<nat> {
    if HexValue(a).Some? && HexValue(b).Some? && HexValue(c).Some? && HexValue(d).Some? then
      Some(4096 * HexValue(a).value + 256 * HexValue(b).value + 16 * HexValue(c).value + HexValue(d).value)
    else None
  }

  /** The character that a letter behind a backslash stands for. */
  function Unescape(c: char): Option<char> {
    match c
    case '"' => Some('"')
    case '\\' => Some('\\')
    case '/' => Some('/')
    case 'b' => Some('\U{0008}')
    case 'f' => Some('\U{000c}')
    case 'n' => Some('\n')
    case 'r' => Some('\r')
    case 't' => Some('\t')
    case _ => None
  }

  /** The first character of a JSON string's inside and how long it is written (section 7 of RFC 8259). */
  function ReadChar(e: string): Option<(char, nat)>
    requires e != ""
  {
    if e[0] != '\\' then (if e[0] < ' ' || e[0] == '"' then None else Some((e[0], 1)))
    else if |e| >= 6 && e[1] == 'u' then
      var code := CodeUnit(e[2], e[3], e[4], e[5]);
      if code.Some? && code.value < 0xD800 then Some((code.value as char, 6)) else None
    else if |e| >= 2 && Unescape(e[1]).Some? then Some((Unescape(e[1]).value, 2))
    else None
  }

  /** What a JSON reader makes of the inside of a string; code units from D800 on are not needed here. */
  function ReadJson(e: string): Option<string> {
    if e == "" then Some("")
    else
      var first := ReadChar(e);
      if first.None? || first.value.1 == 0 || first.value.1 > |e| then None
      else
        var rest := ReadJson(e[first.value.1..]);
        if rest.None? then None else Some([first.value.0] + rest.value)
  }

  lemma HexDigits(n: nat)
    requires n < 16
    ensures HexValue(HexChar(n)) == Some(n)
  {}

  lemma ControlReads(c: char, rest: string)
    requires c < ' ' && |AfterBackslash(c)| == 5
    ensures ReadChar(['\\'] + AfterBackslash(c) + rest) == Some((c, 6))
  {
    var n := c as int;
    HexDigits(n / 16);
    HexDigits(n % 16);
    assert n == 16 * (n / 16) + n % 16;
    var e := ['\\'] + AfterBackslash(c) + rest;
    assert e[1] == 'u' && e[2] == '0' && e[3] == '0' && e[4] == HexChar(n / 16) && e[5] == HexChar(n % 16);
    assert CodeUnit(e[2], e[3], e[4], e[5]) == Some(n);
  }

  lemma EscapeReads(c: char, rest: string)
    ensures ReadChar(Escape(c) + rest) == Some((c, |Escape(c)|))
  {
    if !IsPlain(c) {
      if |AfterBackslash(c)| == 5 {
        ControlReads(c, rest);
      } else {
        var e := Escape(c) + rest;
        assert e[0] == '\\' && e[1] == AfterBackslash(c)[0];
      }
    }
  }

  lemma {:induction false} EscapedAppend(a: string, b: string)
    ensures Escaped(a + b) == Escaped(a) + Escaped(b)
    decreases |b|
  {
    hide Escape;
    if b == [] {
      assert a + b == a;
    } else {
      EscapedAppend(a, b[..|b| - 1]);
      assert (a + b)[..|a + b| - 1] == a + b[..|b| - 1];
    }
  }

  /** A JSON reader gets back the string that was written. */
  lemma {:induction false} JsonRoundTrip(s: string)
    ensures ReadJson(Escaped(s)) == Some(s)
  {
    if s != "" {
      var c, rest := s[0], s[1..];
      assert s == [c] + rest;
      EscapedAppend([c], rest);
      assert [c][..0] == [];
      assert Escaped([c]) == Escape(c);
      EscapeLength(c);
      EscapeReads(c, Escaped(rest));
      assert Escaped(s)[|Escape(c)|..] == Escaped(rest);
      JsonRoundTrip(rest);
    }
  }

  // ----- a quoted text hides every number sign, and ends where it should -----

  /** Every quote is behind a backslash, and no character is a control character. */
  ghost predicate IsGuarded(s: string) {
    && (forall i :: 0 <= i < |s| && s[i] == '"' ==> i > 0 && s[i - 1] == '\\')
    && (forall i :: 0 <= i < |s| ==> s[i] >= ' ')
  }

  lemma EscapeIsGuarded(c: char)
    ensures IsGuarded(Escape(c))
  {}

  lemma {:induction false} EscapedIsGuarded(s: string)
    ensures IsGuarded(Escaped(s))
  {
    if s != [] {
      EscapedIsGuarded(s[..|s| - 1]);
      EscapeIsGuarded(s[|s| - 1]);
    }
  }

  lemma {:induction false} QuoteStaysOpen(e: string, i: nat)
    requires IsGuarded(e) && 1 <= i <= |e| + 1
    ensures CommentStart(['"'] + e + ['"'], i, Some('"')) == |e| + 2
    decreases |e| + 2 - i
  {
    var t := ['"'] + e + ['"'];
    if i <= |e| {
      assert t[i] == e[i - 1];
      assert i >= 2 ==> t[i - 1] == e[i - 2];
      assert QuoteAfter(t, i, Some('"')) == Some('"');
      QuoteStaysOpen(e, i + 1);
    } else {
      assert t[i] == '"';
      assert CommentStart(t, i + 1, QuoteAfter(t, i, Some('"'))) == |t|;
    }
  }

  lemma QuotedHasNoComment(e: string)
    requires IsGuarded(e)
    ensures CommentStart(['"'] + e + ['"'], 0, None) == |e| + 2
  {
    QuoteStaysOpen(e, 1);
  }

  // ----- line separators -----

  predicate IsSeparator(c: char) {
    c == '\U{2028}' || c == '\U{2029}'
  }

  ghost predicate HasSeparator(s: string) {
    exists i :: 0 <= i < |s| && IsSeparator(s[i])
  }

  lemma EscapeSeparator(c: char)
    ensures HasSeparator(Escape(c)) <==> IsSeparator(c)
  {
    if IsPlain(c) {
      assert Escape(c)[0] == c;
    } else {
      assert |AfterBackslash(c)| == 1 || |AfterBackslash(c)| == 5;
    }
  }

  lemma SeparatorAppend(a: string, b: string)
    ensures HasSeparator(a + b) <==> HasSeparator(a) || HasSeparator(b)
  {
    if HasSeparator(a) {
      var i :| 0 <= i < |a| && IsSeparator(a[i]);
      assert (a + b)[i] == a[i];
    }
    if HasSeparator(b) {
      var i :| 0 <= i < |b| && IsSeparator(b[i]);
      assert (a + b)[|a| + i] == b[i];
    }
  }

  lemma {:induction false} EscapedSeparator(s: string)
    ensures HasSeparator(Escaped(s)) <==> HasSeparator(s)
  {
    if s != [] {
      EscapedSeparator(s[..|s| - 1]);
      EscapeSeparator(s[|s| - 1]);
      SeparatorAppend(Escaped(s[..|s| - 1]), Escape(s[|s| - 1]));
      SeparatorAppend(s[..|s| - 1], [s[|s| - 1]]);
      assert s == s[..|s| - 1] + [s[|s| - 1]];
    }
  }

  lemma QuotedTerminator(e: string)
    requires IsGuarded(e)
    ensures HasTerminator(['"'] + e + ['"']) <==> HasSeparator(e)
  {
    var t := ['"'] + e + ['"'];
    if HasSeparator(e) {
      var i :| 0 <= i < |e| && IsSeparator(e[i]);
      assert t[i + 1] == e[i];
    }
  }

  // ----- reading a quoted text -----

  lemma QuoteIsNoSpace()
    ensures !IsSpace('"')
  {}

  lemma QuotedIsTrimmed(e: string)
    ensures Trim(['"'] + e + ['"']) == ['"'] + e + ['"']
  {
    var t := ['"'] + e + ['"'];
    QuoteIsNoSpace();
    TrimEndKeeps(t);
  }

  lemma QuotedScalar(e: string)
    ensures ParseScalar(['"'] + e + ['"']) == Str(e)
  {
    var t := ['"'] + e + ['"'];
    QuotedIsTrimmed(e);
    assert t[0] == '"' && t[|t| - 1] == '"';
    assert t[1..|t| - 1] == e;
  }

  /** A quoted text is read back as its escaped form, and as itself exactly when it is plain. */
  lemma QuoteReadsBackIff(s: string)
    ensures ParseScalar(Quote(s)) == Str(Escaped(s))
    ensures ParseScalar(Quote(s)) == Str(s) <==> AllPlain(s)
  {
    QuotedScalar(Escaped(s));
    EscapedLength(s);
  }

  /** It stands on a line as a value without a comment, but a line separator in it ends the pattern. */
  lemma QuoteIsWhole(s: string)
    ensures IsWhole(Quote(s))
    ensures HasTerminator(Quote(s)) <==> HasSeparator(s)
  {
    EscapedIsGuarded(s);
    QuotedHasNoComment(Escaped(s));
    EscapedSeparator(s);
    QuotedTerminator(Escaped(s));
    QuoteIsNoSpace();
    var t := Quote(s);
    assert t[0] == '"' && t[|t| - 1] == '"';
  }
}
