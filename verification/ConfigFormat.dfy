/** Which format a configuration text is in (`parseClientConfig` of `loader.ts`), for any way of reading
    a line: nothing, JSON, or lines of keys and values.
*/
module ConfigFormat {
  import opened Wrappers
  import opened TextLines
  import opened ConfigItems
  import opened ConfigText
  import ConfigSave

  // ----- a blank text -----

  ghost predicate AreBlank(ls: seq<string>) {
    forall i :: 0 <= i < |ls| ==> AllSpace(ls[i])
  }

  lemma {:induction false} LinesOfSpace(text: string)
    requires AllSpace(text)
    ensures AreBlank(Lines(text))
  {
    if text != [] {
      LinesOfSpace(text[..|text| - 1]);
    }
  }

  /** A line of space says nothing, and a line that starts with a brace is an error. */
  ghost predicate TellsFormat(read: string -> Item) {
    && (forall s :: AllSpace(s) ==> read(s).Blank?)
    && (forall s :: Brace(s) ==> read(s).Bad?)
  }

  lemma {:induction false} BlankSaysNothing(read: string -> Item, ls: seq<string>)
    requires AreBlank(ls) && TellsFormat(read)
    ensures Said(MapLines(read, ls)) == []
  {
    if ls != [] {
      BlankSaysNothing(read, ls[..|ls| - 1]);
    }
  }

  /** A blank text is an empty configuration to the line parser. */
  lemma BlankParses(read: string -> Item, raw: string)
    requires AllSpace(raw) && TellsFormat(read)
    ensures Parse(read, raw) == Ok(NOTHING)
  {
    LinesOfSpace(raw);
    BlankSaysNothing(read, Lines(raw));
    ParseBySaid(MapLines(read, Lines(raw)));
  }

  // ----- a text that looks like JSON -----

  predicate Brace(line: string) {
    TrimStart(line) != [] && TrimStart(line)[0] == '{'
  }

  ghost predicate FirstAt(first: string -> bool, before: string -> bool, ls: seq<string>, k: nat) {
    k < |ls| && first(ls[k]) && forall i :: 0 <= i < k ==> before(ls[i])
  }

  lemma FirstStays(first: string -> bool, before: string -> bool, ls: seq<string>, k: nat, last: seq<string>)
    requires FirstAt(first, before, ls, k) && last != [] && (first(ls[|ls| - 1]) ==> first(last[0]))
    ensures FirstAt(first, before, ls[..|ls| - 1] + last, k)
  {}

  /** The first line that is not blank starts with a brace. */
  ghost predicate BraceAt(ls: seq<string>, k: nat) {
    FirstAt(Brace, AllSpace, ls, k)
  }

  lemma {:induction false} TrimStartOf(s: string, n: nat)
    requires n < |s| && AllSpace(s[..n]) && !IsSpace(s[n])
    ensures TrimStart(s) == s[n..]
  {
    if n > 0 {
      assert IsSpace(s[..n][0]);
      assert s[1..][..n - 1] == s[..n][1..];
      TrimStartOf(s[1..], n - 1);
    }
  }

  /** A line that goes on as far as the brace has it, too. */
  lemma BraceKept(line: string, n: nat, other: string)
    requires n < |line| && n < |other| && AllSpace(line[..n]) && line[n] == '{' && other[..n + 1] == line[..n + 1]
    ensures Brace(other)
  {
    assert other[..n] == other[..n + 1][..n] && line[..n] == line[..n + 1][..n];
    assert other[n] == other[..n + 1][n] && line[n] == line[..n + 1][n];
    TrimStartOf(other, n);
  }

  lemma BracePosition(line: string) returns (n: nat)
    requires Brace(line)
    ensures n < |line| && AllSpace(line[..n]) && line[n] == '{'
  {
    n := |line| - |TrimStart(line)|;
    TrimStartSpace(line);
    assert TrimStart(line)[0] == line[n];
  }

  lemma BraceGrows(line: string, c: char)
    requires Brace(line)
    ensures Brace(line + [c])
  {
    var n := BracePosition(line);
    BraceKept(line, n, line + [c]);
  }

  lemma BraceWithoutReturn(line: string)
    requires Brace(line)
    ensures Brace(DropCr(line))
  {
    var n := BracePosition(line);
    assert |DropCr(line)| > n;
    BraceKept(line, n, DropCr(line));
  }

  lemma {:induction false} BraceAfterSpace(line: string)
    requires AllSpace(line)
    ensures Brace(line + "{")
  {
    if line != [] {
      assert (line + "{")[1..] == line[1..] + "{";
      BraceAfterSpace(line[1..]);
    }
  }

  /** What holds of a line that is read further, or loses a carriage return. */
  ghost predicate Persists(first: string -> bool) {
    && (forall l :: first(l) ==> first(DropCr(l)))
    && (forall l, c :: first(l) ==> first(l + [c]))
  }

  lemma BracePersists()
    ensures Persists(Brace)
  {
    forall l | Brace(l) ensures Brace(DropCr(l)) {
      BraceWithoutReturn(l);
    }
    forall l, c | Brace(l) ensures Brace(l + [c]) {
      BraceGrows(l, c);
    }
  }

  lemma FirstExtends(first: string -> bool, before: string -> bool, text: string, c: char, k: nat)
    requires FirstAt(first, before, Lines(text), k) && Persists(first)
    ensures FirstAt(first, before, Lines(text + [c]), k)
  {
    var ls := Lines(text);
    var l := ls[|ls| - 1];
    assert (text + [c])[..|text|] == text;
    assert first(l) ==> first(DropCr(l)) && first(l + [c]);
    if c == '\n' {
      FirstStays(first, before, ls, k, [DropCr(l), ""]);
    } else {
      FirstStays(first, before, ls, k, [l + [c]]);
    }
  }

  lemma {:induction false} FirstRemains(first: string -> bool, before: string -> bool, text: string, rest: string,
                                        k: nat)
    requires FirstAt(first, before, Lines(text), k) && Persists(first)
    ensures FirstAt(first, before, Lines(text + rest), k)
    decreases |rest|
  {
    if rest == [] {
      assert text + rest == text;
    } else {
      var front, c := rest[..|rest| - 1], rest[|rest| - 1];
      FirstRemains(first, before, text, front, k);
      FirstExtends(first, before, text + front, c, k);
      Associate(text, front, [c]);
      assert front + [c] == rest;
    }
  }

  lemma FirstIsLast(first: string -> bool, before: string -> bool, ls: seq<string>, last: string)
    requires ls != [] && first(last) && forall i :: 0 <= i < |ls| ==> before(ls[i])
    ensures FirstAt(first, before, ls[..|ls| - 1] + [last], |ls| - 1)
  {}

  lemma BraceStarts(w: string)
    requires AllSpace(w)
    ensures BraceAt(Lines(w + "{"), |Lines(w)| - 1)
  {
    var ls := Lines(w);
    LinesOfSpace(w);
    LinesExtend(w, "{");
    BraceAfterSpace(ls[|ls| - 1]);
    FirstIsLast(Brace, AllSpace, ls, ls[|ls| - 1] + "{");
  }

  lemma BraceFirst(w: string, rest: string) returns (k: nat)
    requires AllSpace(w)
    ensures BraceAt(Lines(w + "{" + rest), k)
  {
    k := |Lines(w)| - 1;
    BraceStarts(w);
    BracePersists();
    FirstRemains(Brace, AllSpace, w + "{", rest, k);
  }

  /** A text that is not blank and starts with a brace is read as JSON instead. */
  predicate LooksLikeJson(raw: string) {
    Brace(raw)
  }

  lemma JsonParts(raw: string) returns (w: string, rest: string)
    requires LooksLikeJson(raw)
    ensures AllSpace(w) && raw == w + "{" + rest
  {
    var t := TrimStart(raw);
    TrimStartSpace(raw);
    w, rest := raw[..|raw| - |t|], t[1..];
    assert t == "{" + rest;
  }

  // ----- such a text says something bad first -----

  ghost predicate BadFirst(items: seq<Item>) {
    items != [] && items[0].Bad?
  }

  lemma BadAfterBlank(read: string -> Item, ls: seq<string>, k: nat)
    requires k < |ls| && Said(MapLines(read, ls[..k])) == [] && read(ls[k]).Bad?
    ensures BadFirst(Said(MapLines(read, ls)))
  {
    MapSnoc(read, ls, k);
    SaidSnoc(MapLines(read, ls[..k]), read(ls[k]));
    assert ls == ls[..k + 1] + ls[k + 1..];
    MapAppend(read, ls[..k + 1], ls[k + 1..]);
    SaidAppend(MapLines(read, ls[..k + 1]), MapLines(read, ls[k + 1..]));
  }

  lemma JsonIsBad(read: string -> Item, raw: string)
    requires LooksLikeJson(raw) && TellsFormat(read)
    ensures BadFirst(Said(MapLines(read, Lines(raw))))
  {
    var w, rest := JsonParts(raw);
    var k := BraceFirst(w, rest);
    var ls := Lines(raw);
    BlankSaysNothing(read, ls[..k]);
    BadAfterBlank(read, ls, k);
  }

  lemma {:induction false} BadDoesNotParse(p: Parsed, items: seq<Item>, i: nat)
    requires i < |items| && items[i].Bad?
    ensures ParseFrom(p, items).None?
    decreases |items|
  {
    if i < |items| - 1 {
      BadDoesNotParse(p, items[..|items| - 1], i);
    }
  }

  lemma BadFirstFails(items: seq<Item>)
    requires BadFirst(Said(items))
    ensures ParseAll(items).Err?
  {
    ParseBySaid(items);
    BadDoesNotParse(NOTHING, Said(items), 0);
  }

  /** What the line parser accepts is never taken for JSON. */
  lemma ParsedIsNotJson(read: string -> Item, raw: string)
    requires Parse(read, raw).Ok? && TellsFormat(read)
    ensures !LooksLikeJson(raw)
  {
    if LooksLikeJson(raw) {
      JsonIsBad(read, raw);
      BadFirstFails(MapLines(read, Lines(raw)));
    }
  }

  // ----- a saved text -----

  lemma FirstSaid(read: string -> Item, first: string, rest: seq<string>)
    requires read(first).Entry?
    ensures !BadFirst(Said(MapLines(read, [first] + rest)))
  {
    MapAppend(read, [first], rest);
    MapOne(read, first);
    SaidAppend([read(first)], MapLines(read, rest));
    ConfigSave.SaidOne(read(first));
  }

  lemma {:induction false} NoBadSaid(items: seq<Item>)
    requires ParseAll(items).Ok?
    ensures forall i :: 0 <= i < |items| ==> !items[i].Bad?
  {
    if items != [] {
      var front, item := items[..|items| - 1], items[|items| - 1];
      NoBadSaid(front);
      assert items == front + [item];
      ParseSnoc(front, item);
    }
  }

  lemma {:induction false} KeptNoBad(looks: seq<Look>)
    requires forall i :: 0 <= i < |ItemsOf(looks)| ==> !ItemsOf(looks)[i].Bad?
    ensures forall i :: 0 <= i < |Said(KeptItems(looks))| ==> !Said(KeptItems(looks))[i].Bad?
  {
    if looks != [] {
      var front, look := looks[..|looks| - 1], looks[|looks| - 1];
      assert looks == front + [look];
      LookSnoc(front, look);
      var items := ItemsOf(looks);
      assert items[|items| - 1] == look.item;
      assert forall i :: 0 <= i < |ItemsOf(front)| ==> items[i] == ItemsOf(front)[i];
      KeptNoBad(front);
      SaidSnoc(KeptItems(front), look.item);
    }
  }

  lemma GoodStart(a: seq<Item>, b: seq<Item>)
    requires !BadFirst(a) && !BadFirst(b)
    ensures !BadFirst(a + b)
  {}

  /** Saving into a text that parses never yields a text that is taken for JSON. */
  lemma SavedIsNotJson(look: string -> Look, read: string -> Item, raw: string, name: string, fs: seq<Field>)
    requires Reads(name, look, read) && TellsFormat(read) && AreWritable(fs) && Parse(read, raw).Ok?
    ensures !LooksLikeJson(Save(look, raw, name, fs))
  {
    ConfigSave.LooksOf(look, read, name, raw);
    NoBadSaid(MapLines(read, Lines(raw)));
    KeptNoBad(Looks(look, raw));
    assert Faithful(name, look(Header(name)));
    FirstSaid(read, Header(name), FieldLines(fs) + [""]);
    ConfigSave.TextSays(look, read, raw, name, fs);
    GoodStart(Said(KeptItems(Looks(look, raw))), Said(MapLines(read, Block(name, fs))));
    if LooksLikeJson(Save(look, raw, name, fs)) {
      JsonIsBad(read, Save(look, raw, name, fs));
    }
  }

  lemma {:induction false} BadIsSaid(items: seq<Item>, i: nat) returns (j: nat)
    requires i < |items| && items[i].Bad?
    ensures j < |Said(items)| && Said(items)[j].Bad?
  {
    if i < |items| - 1 {
      j := BadIsSaid(items[..|items| - 1], i);
    } else {
      j := |Said(items)| - 1;
    }
  }

  lemma BadAtEndFails(items: seq<Item>, a: seq<Item>, b: seq<Item>, i: nat)
    requires Said(items) == a + Said(b) && i < |b| && b[i].Bad?
    ensures ParseAll(items).Err?
  {
    var j := BadIsSaid(b, i);
    assert (a + Said(b))[|a| + j] == Said(b)[j];
    BadDoesNotParse(NOTHING, Said(items), |a| + j);
    ParseBySaid(items);
  }

  lemma {:induction false} FieldLineAt(fs: seq<Field>, i: nat)
    requires i < |fs|
    ensures FieldLines(fs)[i] == FieldLine(fs[i])
  {
    if i < |fs| - 1 {
      FieldLineAt(fs[..|fs| - 1], i);
    }
  }

  /** A field that the parser cannot read makes the whole text unreadable. */
  lemma BadFieldFails(look: string -> Look, read: string -> Item, raw: string, name: string, fs: seq<Field>, i: nat)
    requires Reads(name, look, read) && AreWritable(fs) && i < |fs| && read(FieldLine(fs[i])).Bad?
    ensures Parse(read, Save(look, raw, name, fs)).Err?
  {
    var block := Block(name, fs);
    FieldLineAt(fs, i);
    MapAt(read, block, i + 1);
    ConfigSave.TextSays(look, read, raw, name, fs);
    BadAtEndFails(MapLines(read, Lines(Save(look, raw, name, fs))), Said(KeptItems(Looks(look, raw))),
                  MapLines(read, block), i + 1);
  }

  // ----- layouts the editor and the parser agree on -----

  /** How a line looks that starts with no tab and is no comment in column 0: below the top level only
      nested entries, and no comment at the top level. */
  ghost predicate IsPlainLook(look: Look) {
    (look.item.Entry? && !look.top ==> look.item.indent > 0) && (look.top ==> !look.item.Blank?)
  }

  /** Looks like these are tidy. */
  lemma {:induction false} PlainIsTidy(name: string, looks: seq<Look>)
    requires forall i :: 0 <= i < |looks| ==> IsPlainLook(looks[i])
    ensures Tidy(name, looks) && !Adrift(looks)
  {
    if looks != [] {
      PlainIsTidy(name, looks[..|looks| - 1]);
      assert IsPlainLook(looks[|looks| - 1]);
    }
  }
}
