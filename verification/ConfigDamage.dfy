/** What saving a section does to texts on which the editor and the parser of `loader.ts` disagree, for
    any way of reading a line: a comment in column 0 inside the section, and a line that is an entry to
    the parser only.
*/
module ConfigDamage {
  import opened Wrappers
  import opened TextLines
  import opened ConfigItems
  import opened ConfigText
  import ConfigSave
  import ConfigResave

  lemma ClosedLines(ls: seq<string>)
    requires ls != [] && AreClosed(ls)
    ensures Lines(Join(ls)) == ls
  {
    forall i | 0 <= i < |ls|
      ensures IsLine(ls[i])
    {
      assert IsClosed(ls[i]);
    }
    LinesOfJoin(ls);
    ConfigResave.ClosedUnreturned(ls[..|ls| - 1]);
  }

  // ----- what the parser makes of the whole text and of the kept lines -----

  lemma CommentedKept(header: Look, comment: Look, field: Look)
    requires header.top && header.header && comment.top && !comment.header && !field.top
    ensures ItemsOf([] + [header] + [comment] + [field]) == [] + [header.item] + [comment.item] + [field.item]
    ensures KeptItems([] + [header] + [comment] + [field]) == [] + [comment.item] + [field.item]
  {
    LookSnoc([], header);
    LookSnoc([] + [header], comment);
    LookSnoc([] + [header] + [comment], field);
  }

  lemma CommentedParses(header: Item, field: Item)
    requires header.Entry? && header.indent == 0 && header.empty && field.Entry? && field.indent == 2
    ensures ParseAll([] + [header] + [Blank] + [field]).Ok?
    ensures ParseAll([] + [Blank] + [field]).Err?
  {
    ParseSnoc([], header);
    ParseSnoc([] + [header], Blank);
    ParseSnoc([] + [header] + [Blank], field);
    ParseSnoc([], Blank);
    ParseSnoc([] + [Blank], field);
  }

  function One(item: Item): map<string, Scalar>
    requires item.Entry?
  {
    map[item.key := item.scalar]
  }

  lemma OneSection(header: Item, field: Item)
    requires header.Entry? && header.indent == 0 && header.empty && field.Entry? && field.indent == 2
    ensures ParseAll([] + [header] + [field]) == Ok(Parsed(map[header.key := Section(One(field))], Some(header.key)))
  {
    ParseSnoc([], header);
    ParseSnoc([] + [header], field);
    FieldBehindHeader(NOTHING.root, header.key, field);
  }

  /** A header and a field of it, read into a configuration. */
  lemma FieldBehindHeader(root: map<string, Value>, name: string, field: Item)
    requires field.Entry? && field.indent == 2
    ensures Nest(Parsed(root[name := Section(map[])], Some(name)), field.key, field.scalar).root
         == root[name := Section(One(field))]
  {
    var empty: map<string, Scalar> := map[];
    assert empty[field.key := field.scalar] == One(field);
    Overwrite(root, name, Section(empty), Section(One(field)));
  }

  lemma FieldInSection(root: map<string, Value>, name: string, fields: map<string, Scalar>, field: Item)
    requires field.Entry? && field.indent == 2
    ensures Nest(Parsed(root[name := Section(fields)], Some(name)), field.key, field.scalar).root
         == root[name := Section(fields[field.key := field.scalar])]
  {
    Overwrite(root, name, Section(fields), Section(fields[field.key := field.scalar]));
  }

  lemma DriftedKept(first: Look, inner: Look, header: Look, comment: Look, field: Look)
    requires first.top && !first.header && !inner.top && header.top && header.header
    requires comment.top && !comment.header && !field.top
    ensures KeptItems([] + [first] + [inner] + [header] + [comment] + [field])
         == [] + [first.item] + [inner.item] + [comment.item] + [field.item]
    ensures ItemsOf([] + [first] + [inner] + [header] + [comment] + [field])
         == [] + [first.item] + [inner.item] + [header.item] + [comment.item] + [field.item]
  {
    LookSnoc([], first);
    LookSnoc([] + [first], inner);
    LookSnoc([] + [first] + [inner], header);
    LookSnoc([] + [first] + [inner] + [header], comment);
    LookSnoc([] + [first] + [inner] + [header] + [comment], field);
  }

  lemma DriftedParses(first: Item, inner: Item, header: Item, field: Item)
    requires first.Entry? && first.indent == 0 && first.empty && inner.Entry? && inner.indent == 2
    requires header.Entry? && header.indent == 0 && header.empty && field.Entry? && field.indent == 2
    requires first.key != header.key
    ensures ParseAll([] + [first] + [inner] + [header] + [Blank] + [field])
         == Ok(Parsed(map[first.key := Section(One(inner)), header.key := Section(One(field))], Some(header.key)))
    ensures ParseAll([] + [first] + [inner] + [Blank] + [field])
         == Ok(Parsed(map[first.key := Section(One(inner)[field.key := field.scalar])], Some(first.key)))
  {
    OneSection(first, inner);
    var items := [] + [first] + [inner];
    ParseSnoc(items, header);
    ParseSnoc(items + [header], Blank);
    ParseSnoc(items + [header] + [Blank], field);
    FieldBehindHeader(map[first.key := Section(One(inner))], header.key, field);
    ParseSnoc(items, Blank);
    ParseSnoc(items + [Blank], field);
    FieldInSection(map[], first.key, One(inner), field);
  }

  lemma TabbedItems(header: Look, tabbed: Look)
    requires header.top && header.header && !tabbed.top
    requires header.item.Entry? && header.item.indent == 0 && header.item.empty
    requires tabbed.item.Entry? && tabbed.item.indent == 0 && !tabbed.item.empty
    ensures ParseAll(ItemsOf([] + [header] + [tabbed])).Ok?
    ensures tabbed.item.key in ParseAll(ItemsOf([] + [header] + [tabbed])).value.root
    ensures KeptItems([] + [header] + [tabbed]) == []
  {
    LookSnoc([], header);
    LookSnoc([] + [header], tabbed);
    ParseSnoc([], header.item);
    ParseSnoc([] + [header.item], tabbed.item);
  }

  // ----- three texts -----

  lemma MapTwo<T>(f: string -> T, a: string, b: string)
    ensures MapLines(f, [a, b]) == [] + [f(a)] + [f(b)]
  {
    MapLast(f, [], a);
    MapLast(f, [] + [a], b);
    assert [] + [a] + [b] == [a, b];
  }

  lemma MapThree<T>(f: string -> T, a: string, b: string, c: string)
    ensures MapLines(f, [a, b, c]) == [] + [f(a)] + [f(b)] + [f(c)]
  {
    MapTwo(f, a, b);
    MapLast(f, [a, b], c);
    assert [a, b] + [c] == [a, b, c];
  }

  lemma MapFive<T>(f: string -> T, a: string, b: string, c: string, d: string, e: string)
    ensures MapLines(f, [a, b, c, d, e]) == [] + [f(a)] + [f(b)] + [f(c)] + [f(d)] + [f(e)]
  {
    MapThree(f, a, b, c);
    MapLast(f, [a, b, c], d);
    MapLast(f, [a, b, c] + [d], e);
    assert [a, b, c] + [d] + [e] == [a, b, c, d, e];
  }

  /** A whole line in column 0 that says nothing. */
  ghost predicate IsCommentLine(look: string -> Look, line: string) {
    IsClosed(line) && look(line).top && !look(line).header && look(line).item.Blank?
  }

  /** The header of another section. */
  ghost predicate IsOtherHeader(look: string -> Look, key: string) {
    && IsClosed(Header(key)) && look(Header(key)).top && !look(Header(key)).header
    && look(Header(key)).item == Entry(0, key, true, Null)
  }

  /** An entry to the parser, and no top-level line to the editor. */
  ghost predicate IsHiddenEntry(look: string -> Look, line: string, key: string) {
    && IsClosed(line) && !look(line).top
    && look(line).item.Entry? && look(line).item.indent == 0 && !look(line).item.empty && look(line).item.key == key
  }

  /** The section's header, a comment in column 0, and a field below it: saving the section into that
      text leaves the field without a section, and the saved text does not parse any more. */
  lemma CommentMakesUnreadable(look: string -> Look, read: string -> Item, parse: string -> Scalar,
                               name: string, comment: string, f: Field, fs: seq<Field>)
    requires Reads(name, look, read) && IsCommentLine(look, comment)
    requires IsReadBack(read, parse, f) && AreReadBack(read, parse, fs)
    ensures var raw := Join([Header(name), comment, FieldLine(f)]);
            Parse(read, raw).Ok? && Parse(read, Save(look, raw, name, fs)).Err?
  {
    var lines := [Header(name), comment, FieldLine(f)];
    ClosedLines(lines);
    MapThree(look, lines[0], lines[1], lines[2]);
    assert Faithful(name, look(Header(name)));
    assert look(FieldLine(f)).item == read(FieldLine(f));
    CommentedKept(look(lines[0]), look(lines[1]), look(lines[2]));
    CommentedParses(look(lines[0]).item, look(lines[2]).item);
    ConfigSave.LooksOf(look, read, name, Join(lines));
    ConfigSave.SavedMeans(look, read, parse, Join(lines), name, fs);
  }

  /** The parse holds a section with these fields. */
  ghost predicate Holds(r: Result<Parsed, ParseError>, key: string, fields: map<string, Scalar>) {
    r.Ok? && key in r.value.root && r.value.root[key] == Section(fields)
  }

  lemma OtherSection(kept: Result<Parsed, ParseError>, saved: Result<Parsed, ParseError>, name: string,
                     other: string, v: Value, fields: map<string, Scalar>)
    requires Holds(kept, other, fields) && other != name && ConfigSave.Replaced(kept, saved, name, v)
    ensures Holds(saved, other, fields)
  {}

  lemma DriftHolds(p: Result<Parsed, ParseError>, q: Result<Parsed, ParseError>, other: string, name: string,
                   g: string, x: Scalar, f: string, y: Scalar)
    requires other != name
    requires p == Ok(Parsed(map[other := Section(map[g := x]), name := Section(map[f := y])], Some(name)))
    requires q == Ok(Parsed(map[other := Section(map[g := x][f := y])], Some(other)))
    ensures Holds(p, other, map[g := x]) && Holds(q, other, map[g := x, f := y])
  {}

  /** Another section with one field, and then the section's header, a comment in column 0 and a field. */
  function Drifting(other: string, g: Field, name: string, comment: string, f: Field): seq<string> {
    [Header(other), FieldLine(g), Header(name), comment, FieldLine(f)]
  }

  lemma DriftingHolds(look: string -> Look, read: string -> Item, parse: string -> Scalar,
                      other: string, g: Field, name: string, comment: string, f: Field)
    requires Reads(name, look, read) && IsOtherHeader(look, other) && other != name && IsCommentLine(look, comment)
    requires IsReadBack(read, parse, f) && IsReadBack(read, parse, g)
    ensures var looks := MapLines(look, Drifting(other, g, name, comment, f));
            && Holds(ParseAll(ItemsOf(looks)), other, map[g.key := parse(g.text)])
            && Holds(ParseAll(KeptItems(looks)), other, map[g.key := parse(g.text), f.key := parse(f.text)])
  {
    var lines := Drifting(other, g, name, comment, f);
    MapFive(look, lines[0], lines[1], lines[2], lines[3], lines[4]);
    assert Faithful(name, look(Header(name)));
    assert look(FieldLine(f)).item == read(FieldLine(f)) && look(FieldLine(g)).item == read(FieldLine(g));
    DriftedKept(look(lines[0]), look(lines[1]), look(lines[2]), look(lines[3]), look(lines[4]));
    DriftedParses(look(lines[0]).item, look(lines[1]).item, look(lines[2]).item, look(lines[4]).item);
    var looks := MapLines(look, lines);
    DriftHolds(ParseAll(ItemsOf(looks)), ParseAll(KeptItems(looks)), other, name,
               g.key, parse(g.text), f.key, parse(f.text));
  }

  /** Saving the section into that text moves the field into the other section, silently. */
  lemma CommentMovesField(look: string -> Look, read: string -> Item, parse: string -> Scalar,
                          other: string, g: Field, name: string, comment: string, f: Field, fs: seq<Field>)
    requires Reads(name, look, read) && IsOtherHeader(look, other) && other != name && IsCommentLine(look, comment)
    requires IsReadBack(read, parse, f) && IsReadBack(read, parse, g) && AreReadBack(read, parse, fs)
    ensures var raw := Join(Drifting(other, g, name, comment, f));
            && Holds(Parse(read, raw), other, map[g.key := parse(g.text)])
            && Holds(Parse(read, Save(look, raw, name, fs)), other, map[g.key := parse(g.text), f.key := parse(f.text)])
  {
    var lines := Drifting(other, g, name, comment, f);
    var raw := Join(lines);
    ClosedLines(lines);
    DriftingHolds(look, read, parse, other, g, name, comment, f);
    ConfigSave.LooksOf(look, read, name, raw);
    ConfigSave.SavedMeans(look, read, parse, raw, name, fs);
    OtherSection(ParseAll(KeptItems(Looks(look, raw))), Parse(read, Save(look, raw, name, fs)), name, other,
                 ConfigSave.FieldsRead(parse, fs), map[g.key := parse(g.text), f.key := parse(f.text)]);
  }

  ghost predicate HasKey(r: Result<Parsed, ParseError>, key: string) {
    r.Ok? && key in r.value.root
  }

  /** The section's header and a line that is an entry to the parser only: saving the section into that
      text loses the top-level key that the parser reads there. */
  lemma HiddenEntryIsLost(look: string -> Look, read: string -> Item, parse: string -> Scalar,
                          name: string, line: string, key: string, fs: seq<Field>)
    requires Reads(name, look, read) && IsHiddenEntry(look, line, key) && key != name && AreReadBack(read, parse, fs)
    ensures var raw := Join([Header(name), line]); var saved := Parse(read, Save(look, raw, name, fs));
            HasKey(Parse(read, raw), key) && saved.Ok? && !HasKey(saved, key)
  {
    var raw := Join([Header(name), line]);
    ClosedLines([Header(name), line]);
    MapTwo(look, Header(name), line);
    assert Faithful(name, look(Header(name)));
    TabbedItems(look(Header(name)), look(line));
    ConfigSave.LooksOf(look, read, name, raw);
    ConfigSave.SavedMeans(look, read, parse, raw, name, fs);
  }
}
