/** A configuration text as lines, for any way of reading a line: parsing it line by line, the section
    editor, and the text with a section written behind what was kept.
*/
module ConfigText {
  import opened Wrappers
  import opened TextLines
  import opened ConfigItems

  // ----- reading lines one by one -----

  /** One thing about every line. */
  function MapLines<T>(f: string -> T, lines: seq<string>): (r: seq<T>)
    ensures |r| == |lines|
  {
    if lines == [] then [] else MapLines(f, lines[..|lines| - 1]) + [f(lines[|lines| - 1])]
  }

  lemma MapSnoc<T>(f: string -> T, lines: seq<string>, i: nat)
    requires i < |lines|
    ensures MapLines(f, lines[..i + 1]) == MapLines(f, lines[..i]) + [f(lines[i])]
  {
    assert lines[..i + 1][..i] == lines[..i];
  }

  lemma {:induction false} MapPrefix<T>(f: string -> T, lines: seq<string>, i: nat)
    requires i <= |lines|
    ensures MapLines(f, lines)[..i] == MapLines(f, lines[..i])
    decreases |lines|
  {
    if i == |lines| {
      assert lines[..i] == lines;
    } else {
      MapPrefix(f, lines[..|lines| - 1], i);
      assert lines[..|lines| - 1][..i] == lines[..i];
    }
  }

  lemma {:induction false} MapAppend<T>(f: string -> T, a: seq<string>, b: seq<string>)
    ensures MapLines(f, a + b) == MapLines(f, a) + MapLines(f, b)
    decreases |b|
  {
    if b == [] {
      assert a + b == a;
    } else {
      MapAppend(f, a, b[..|b| - 1]);
      assert (a + b)[..|a + b| - 1] == a + b[..|b| - 1];
    }
  }

  lemma MapOne<T>(f: string -> T, line: string)
    ensures MapLines(f, [line]) == [f(line)]
  {
    assert [line][..0] == [];
  }

  lemma MapLast<T>(f: string -> T, lines: seq<string>, line: string)
    ensures MapLines(f, lines + [line]) == MapLines(f, lines) + [f(line)]
  {
    MapAppend(f, lines, [line]);
    MapOne(f, line);
  }

  lemma {:induction false} MapAt<T>(f: string -> T, lines: seq<string>, i: nat)
    requires i < |lines|
    ensures MapLines(f, lines)[i] == f(lines[i])
  {
    if i < |lines| - 1 {
      MapAt(f, lines[..|lines| - 1], i);
    }
  }

  // ----- the parser -----

  /** What a text amounts to, when `read` reads a line. */
  function Parse(read: string -> Item, raw: string): Result<Parsed, ParseError> {
    ParseAll(MapLines(read, Lines(raw)))
  }

  lemma ParseLine(read: string -> Item, lines: seq<string>, i: nat, p: Parsed)
    requires i < |lines| && ParseAll(MapLines(read, lines[..i])) == Ok(p)
    ensures ParseAll(MapLines(read, lines[..i + 1])) == ParseItem(p, read(lines[i]), i + 1)
  {
    MapSnoc(read, lines, i);
    ParseSnoc(MapLines(read, lines[..i]), read(lines[i]));
  }

  lemma ParseStops(read: string -> Item, lines: seq<string>, i: nat)
    requires i <= |lines| && ParseAll(MapLines(read, lines[..i])).Err?
    ensures ParseAll(MapLines(read, lines)) == ParseAll(MapLines(read, lines[..i]))
  {
    MapPrefix(read, lines, i);
    ErrorStays(MapLines(read, lines), i);
  }

  function Root(r: Result<Parsed, ParseError>): Result<map<string, Value>, ParseError> {
    if r.Ok? then Ok(r.value.root) else Err(r.error)
  }

  /** The parser's loop over the lines. */
  method ParseLines(read: string -> Item, lines: seq<string>) returns (r: Result<map<string, Value>, ParseError>)
    ensures r == Root(ParseAll(MapLines(read, lines)))
  {
    var p := NOTHING;
    for i := 0 to |lines|
      invariant ParseAll(MapLines(read, lines[..i])) == Ok(p)
    {
      ParseLine(read, lines, i, p);
      var next := ParseItem(p, read(lines[i]), i + 1);
      if next.Err? {
        ParseStops(read, lines, i + 1);
        return Err(next.error);
      }
      p := next.value;
    }
    assert lines[..|lines|] == lines;
    return Ok(p.root);
  }

  // ----- the editor -----

  /** How the lines of a text look. */
  function Looks(look: string -> Look, raw: string): seq<Look> {
    MapLines(look, Lines(raw))
  }

  /** The lines the editor keeps, given how each line looks. */
  function Kept(look: string -> Look, lines: seq<string>): seq<string> {
    if lines == [] then []
    else if Skipping(MapLines(look, lines)) then Kept(look, lines[..|lines| - 1])
    else Kept(look, lines[..|lines| - 1]) + [lines[|lines| - 1]]
  }

  lemma KeptSnoc(look: string -> Look, lines: seq<string>, i: nat)
    requires i < |lines|
    ensures var skipping := Skipping(MapLines(look, lines[..i + 1]));
            && skipping == (if look(lines[i]).top then look(lines[i]).header else Skipping(MapLines(look, lines[..i])))
            && Kept(look, lines[..i + 1])
               == if skipping then Kept(look, lines[..i]) else Kept(look, lines[..i]) + [lines[i]]
  {
    assert lines[..i + 1][..i] == lines[..i];
    MapSnoc(look, lines, i);
  }

  /** What is left of the kept lines without trailing blank lines and space. */
  function Trimmed(kept: seq<string>): (b: seq<string>)
    ensures b != []
  {
    if kept == [] then [""] else TrimLines(kept)
  }

  /** The lines before the new section. */
  function Body(look: string -> Look, raw: string): (b: seq<string>)
    ensures b != []
  {
    Trimmed(Kept(look, Lines(raw)))
  }

  datatype Field = Field(key: string, text: string)

  function FieldLine(f: Field): string {
    "  " + f.key + ": " + f.text
  }

  function FieldLines(fs: seq<Field>): (r: seq<string>)
    ensures |r| == |fs|
  {
    if fs == [] then [] else FieldLines(fs[..|fs| - 1]) + [FieldLine(fs[|fs| - 1])]
  }

  function Header(name: string): string {
    name + ":"
  }

  /** The new section as lines, with the empty line that the final newline leaves. */
  function Block(name: string, fs: seq<Field>): seq<string> {
    [Header(name)] + (FieldLines(fs) + [""])
  }

  /** The lines of the saved text. */
  function SavedLines(body: seq<string>, block: seq<string>): (r: seq<string>)
    requires body != [] && block != []
    ensures r != []
  {
    if Join(body) == "" then block else body + [""] + block
  }

  function SavedText(body: seq<string>, block: seq<string>): string
    requires body != [] && block != []
  {
    Join(SavedLines(body, block))
  }

  /** The text with the section of that name replaced. */
  function Save(look: string -> Look, raw: string, name: string, fs: seq<Field>): string {
    SavedText(Body(look, raw), Block(name, fs))
  }

  lemma {:induction false} JoinIsEmpty(ls: seq<string>)
    requires ls != [] && Join(ls) == ""
    ensures ls == [""]
  {}

  lemma {:induction false} JoinAppend(a: seq<string>, b: seq<string>)
    requires a != [] && b != []
    ensures Join(a + b) == Join(a) + "\n" + Join(b)
    decreases |b|
  {
    assert (a + b)[..|a + b| - 1] == a + b[..|b| - 1];
    if |b| == 1 {
      assert a + b[..0] == a;
    } else {
      JoinAppend(a, b[..|b| - 1]);
    }
  }

  // ----- what a way of reading lines must do -----

  predicate IsHeader(look: Look) {
    look.top && look.header
  }

  ghost predicate SameMark(a: Look, b: Look) {
    a.top == b.top && IsHeader(a) == IsHeader(b)
  }

  /** The editor does not see space at the end of a line. */
  ghost predicate Steady(look: string -> Look) {
    && (forall s :: SameMark(look(DropCr(s)), look(s)))
    && (forall s :: SameMark(look(TrimEnd(s)), look(s)))
    && !look("").top
  }

  /** Reading does not see a carriage return, or any other space, at the end of a line. */
  ghost predicate IgnoresSpace(read: string -> Item) {
    && (forall s :: read(DropCr(s)) == read(s))
    && (forall s :: read(TrimEnd(s)) == read(s))
    && read("").Blank?
  }

  /** What every written line is: no newline inside, no space at its end. */
  ghost predicate IsClosed(line: string) {
    IsLine(line) && (line == [] || !IsSpace(line[|line| - 1]))
  }

  ghost predicate AreClosed(lines: seq<string>) {
    forall i :: 0 <= i < |lines| ==> IsClosed(lines[i])
  }

  /** The editor for the section `name` and the parser see a line alike, as far as they do: neither sees
      space at its end, what the editor takes for the header the parser takes for one, and a written
      section is one to both. */
  ghost predicate Reads(name: string, look: string -> Look, read: string -> Item) {
    && IgnoresSpace(read) && Steady(look)
    && (forall s :: look(s).item == read(s))
    && (forall s :: Faithful(name, look(s)))
    && IsHeader(look(Header(name))) && IsClosed(Header(name))
    && (forall f :: !look(FieldLine(f)).top)
  }

  /** A field that can be written, whether or not it can be read back. */
  ghost predicate IsWritable(f: Field) {
    IsClosed(FieldLine(f))
  }

  ghost predicate AreWritable(fs: seq<Field>) {
    forall i :: 0 <= i < |fs| ==> IsWritable(fs[i])
  }

  /** A field that is read back as the scalar that `parse` makes of its text. */
  ghost predicate IsReadBack(read: string -> Item, parse: string -> Scalar, f: Field) {
    IsWritable(f) && read(FieldLine(f)) == Entry(2, f.key, false, parse(f.text))
  }

  ghost predicate AreReadBack(read: string -> Item, parse: string -> Scalar, fs: seq<Field>) {
    forall i :: 0 <= i < |fs| ==> IsReadBack(read, parse, fs[i])
  }
}
