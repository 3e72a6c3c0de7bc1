/** Whitespace, trimming, and splitting a text into lines as JavaScript's `trim`, `trimEnd`,
    `split(/\r?\n/)` and `join("\n")` do.
*/
module TextLines {
  import opened Wrappers

  /** The characters that `trim` removes and `\s` matches. */
  predicate IsSpace(c: char) {
    || c == ' ' || c == '\t' || c == '\n' || c == '\r' || c == '\U{000b}' || c == '\U{000c}'
    || c == '\U{00a0}' || c == '\U{1680}' || '\U{2000}' <= c <= '\U{200a}'
    || c == '\U{2028}' || c == '\U{2029}' || c == '\U{202f}' || c == '\U{205f}' || c == '\U{3000}'
    || c == '\U{feff}'
  }

  ghost predicate AllSpace(s: string) {
    forall i :: 0 <= i < |s| ==> IsSpace(s[i])
  }

  function TrimEnd(s: string): (r: string)
    ensures r <= s
    ensures r != [] ==> !IsSpace(r[|r| - 1])
  {
    if s != [] && IsSpace(s[|s| - 1]) then TrimEnd(s[..|s| - 1]) else s
  }

  function TrimStart(s: string): (r: string)
    ensures |r| <= |s| && r == s[|s| - |r|..]
    ensures r != [] ==> !IsSpace(r[0])
  {
    if s != [] && IsSpace(s[0]) then TrimStart(s[1..]) else s
  }

  lemma {:induction false} TrimEndSpace(s: string)
    ensures AllSpace(s[|TrimEnd(s)|..])
  {
    if s != [] && IsSpace(s[|s| - 1]) {
      var front := s[..|s| - 1];
      TrimEndSpace(front);
      assert s[|TrimEnd(s)|..] == front[|TrimEnd(s)|..] + [s[|s| - 1]];
    }
  }

  lemma {:induction false} TrimStartSpace(s: string)
    ensures AllSpace(s[..|s| - |TrimStart(s)|])
  {
    if s != [] && IsSpace(s[0]) {
      TrimStartSpace(s[1..]);
      var n := |s| - |TrimStart(s)|;
      assert s[..n] == [s[0]] + s[1..][..n - 1];
    }
  }

  function Trim(s: string): string {
    TrimStart(TrimEnd(s))
  }

  /** Trimming at the end is the only way to write a text as a part without trailing space and space. */
  lemma {:induction false} TrimEndUnique(s: string, w: string)
    requires AllSpace(w)
    ensures TrimEnd(s + w) == TrimEnd(s)
    decreases |w|
  {
    if w == [] {
      assert s + w == s;
    } else {
      assert (s + w)[..|s + w| - 1] == s + w[..|w| - 1];
      TrimEndUnique(s, w[..|w| - 1]);
    }
  }

  lemma {:induction false} TrimEndBlank(s: string)
    ensures TrimEnd(s) == [] <==> AllSpace(s)
  {
    if AllSpace(s) {
      assert [] + s == s;
      TrimEndUnique([], s);
    }
    assert s[0..] == s;
    TrimEndSpace(s);
  }

  lemma {:induction false} TrimStartOfSpace(s: string)
    requires AllSpace(s)
    ensures TrimStart(s) == []
  {
    if s != [] {
      TrimStartOfSpace(s[1..]);
    }
  }

  lemma TrimStartBlank(s: string)
    ensures TrimStart(s) == [] <==> AllSpace(s)
  {
    if AllSpace(s) {
      TrimStartOfSpace(s);
    }
    assert s[..|s|] == s;
    TrimStartSpace(s);
  }

  lemma TrimBlank(s: string)
    ensures Trim(s) == [] <==> AllSpace(s)
    ensures Trim(s) == [] <==> TrimEnd(s) == []
  {
    TrimEndBlank(s);
    TrimStartBlank(TrimEnd(s));
  }

  /** A text that ends in a non-space is not touched at its end. */
  lemma TrimEndKeeps(s: string)
    requires s != [] && !IsSpace(s[|s| - 1])
    ensures TrimEnd(s) == s
  {}

  lemma TrimEndAppend(s: string, t: string)
    requires TrimEnd(t) != []
    ensures TrimEnd(s + t) == s + TrimEnd(t)
  {
    var r := TrimEnd(t);
    var w := t[|r|..];
    TrimEndSpace(t);
    assert t == r + w;
    Associate(s, r, w);
    TrimEndUnique(s + r, w);
    TrimEndKeeps(s + r);
  }

  // ----- lines -----

  function DropCr(line: string): string {
    if line != [] && line[|line| - 1] == '\r' then line[..|line| - 1] else line
  }

  /** `split(/\r?\n/)`: a carriage return directly before a newline belongs to the separator. */
  function Lines(text: string): (ls: seq<string>)
    ensures ls != []
  {
    if text == [] then [""]
    else
      var ls, c := Lines(text[..|text| - 1]), text[|text| - 1];
      var n := |ls| - 1;
      if c == '\n' then ls[..n] + [DropCr(ls[n]), ""] else ls[..n] + [ls[n] + [c]]
  }

  function Join(ls: seq<string>): string
    requires ls != []
  {
    if |ls| == 1 then ls[0] else Join(ls[..|ls| - 1]) + "\n" + ls[|ls| - 1]
  }

  predicate IsLine(s: string) {
    '\n' !in s
  }

  ghost predicate AreLines(ls: seq<string>) {
    forall i :: 0 <= i < |ls| ==> IsLine(ls[i])
  }

  lemma {:induction false} LinesAreLines(text: string)
    ensures AreLines(Lines(text))
  {
    if text != [] {
      LinesAreLines(text[..|text| - 1]);
    }
  }

  /** More text on the last line. */
  function Lengthen(ls: seq<string>, t: string): (r: seq<string>)
    requires ls != []
    ensures r != []
  {
    ls[..|ls| - 1] + [ls[|ls| - 1] + t]
  }

  lemma LinesChar(text: string, c: char)
    requires c != '\n'
    ensures Lines(text + [c]) == Lengthen(Lines(text), [c])
  {
    assert (text + [c])[..|text|] == text;
  }

  lemma LengthenTwice(ls: seq<string>, s: string, t: string)
    requires ls != []
    ensures Lengthen(Lengthen(ls, s), t) == Lengthen(ls, s + t)
  {
    var all := Lengthen(ls, s);
    assert all[..|all| - 1] == ls[..|ls| - 1];
    Associate(ls[|ls| - 1], s, t);
  }

  lemma LengthenNothing(ls: seq<string>)
    requires ls != []
    ensures Lengthen(ls, []) == ls
  {
    assert ls[|ls| - 1] + [] == ls[|ls| - 1];
  }

  lemma {:induction false} LinesExtend(text: string, t: string)
    requires IsLine(t)
    ensures Lines(text + t) == Lengthen(Lines(text), t)
    decreases |t|
  {
    if t == [] {
      assert text + t == text;
      LengthenNothing(Lines(text));
    } else {
      var front, c := t[..|t| - 1], t[|t| - 1];
      assert t == front + [c];
      LinesExtend(text, front);
      LinesChar(text + front, c);
      Associate(text, front, [c]);
      LengthenTwice(Lines(text), front, [c]);
    }
  }

  lemma LinesNewline(text: string)
    ensures var ls := Lines(text); Lines(text + "\n") == ls[..|ls| - 1] + [DropCr(ls[|ls| - 1]), ""]
  {
    assert (text + "\n")[..|text|] == text;
  }

  /** All lines but the last lose a carriage return at their end. */
  function Unreturned(ls: seq<string>): (r: seq<string>)
    ensures |r| == |ls|
  {
    if ls == [] then [] else Unreturned(ls[..|ls| - 1]) + [DropCr(ls[|ls| - 1])]
  }

  /** Splitting joined lines gives them back, up to carriage returns before the newlines. */
  lemma {:induction false} LinesOfJoin(ls: seq<string>)
    requires ls != [] && AreLines(ls)
    ensures Lines(Join(ls)) == Unreturned(ls[..|ls| - 1]) + [ls[|ls| - 1]]
  {
    var front, l := ls[..|ls| - 1], ls[|ls| - 1];
    if |ls| == 1 {
      assert Lines([]) == [""];
      LinesExtend([], l);
      assert [] + l == l && "" + l == l;
    } else {
      LinesOfJoin(front);
      LinesNewline(Join(front));
      LinesExtend(Join(front) + "\n", l);
      assert "" + l == l;
    }
  }

  /** Drops trailing blank lines and the space at the end of the last line that remains. */
  function TrimLines(ls: seq<string>): (r: seq<string>)
    requires ls != []
    ensures r != []
  {
    var front, l := ls[..|ls| - 1], TrimEnd(ls[|ls| - 1]);
    if l == "" && front != [] then TrimLines(front) else front + [l]
  }

  /** It is what trimming the joined text amounts to. */
  lemma {:induction false} TrimEndOfJoin(ls: seq<string>)
    requires ls != []
    ensures TrimEnd(Join(ls)) == Join(TrimLines(ls))
  {
    var front, l := ls[..|ls| - 1], ls[|ls| - 1];
    if |ls| > 1 {
      if TrimEnd(l) == "" {
        TrimEndOfJoin(front);
        TrimEndBlank(l);
        assert Join(ls) == Join(front) + ("\n" + l);
        TrimEndUnique(Join(front), "\n" + l);
      } else {
        TrimEndAppend(Join(front) + "\n", l);
        var r := front + [TrimEnd(l)];
        assert r[..|r| - 1] == front;
      }
    }
  }
}
