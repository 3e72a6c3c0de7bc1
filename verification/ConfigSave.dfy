/** Saving a section of the configuration and reading the saved text back (`loader.ts`), for any way of
    reading a line.
*/
module ConfigSave {
  import opened Wrappers
  import opened TextLines
  import opened ConfigItems
  import opened ConfigText

  lemma SaidOne(item: Item)
    ensures Said([item]) == if item.Blank? then [] else [item]
  {
    assert [item][..0] == [];
  }

  lemma {:induction false} MapUnreturned(read: string -> Item, ls: seq<string>)
    requires IgnoresSpace(read)
    ensures MapLines(read, Unreturned(ls)) == MapLines(read, ls)
  {
    if ls != [] {
      MapUnreturned(read, ls[..|ls| - 1]);
      var r := Unreturned(ls);
      assert r[..|r| - 1] == Unreturned(ls[..|ls| - 1]);
    }
  }

  /** Lines written to a file are read as what they were. */
  lemma MapJoined(read: string -> Item, ls: seq<string>)
    requires IgnoresSpace(read) && ls != [] && AreLines(ls)
    ensures MapLines(read, Lines(Join(ls))) == MapLines(read, ls)
  {
    var front, l := ls[..|ls| - 1], ls[|ls| - 1];
    LinesOfJoin(ls);
    MapUnreturned(read, front);
    MapLast(read, Unreturned(front), l);
  }

  lemma {:induction false} SaidTrimmed(read: string -> Item, ls: seq<string>)
    requires IgnoresSpace(read) && ls != []
    ensures Said(MapLines(read, TrimLines(ls))) == Said(MapLines(read, ls))
  {
    var front, l := ls[..|ls| - 1], ls[|ls| - 1];
    assert read(TrimEnd(l)) == read(l);
    SaidSnoc(MapLines(read, front), read(l));
    if TrimEnd(l) == "" && front != [] {
      SaidTrimmed(read, front);
    } else {
      MapLast(read, front, TrimEnd(l));
    }
  }

  // ----- the kept lines -----

  lemma {:induction false} ItemsOfLooks(look: string -> Look, read: string -> Item, lines: seq<string>)
    requires forall s :: look(s).item == read(s)
    ensures ItemsOf(MapLines(look, lines)) == MapLines(read, lines)
  {
    if lines != [] {
      ItemsOfLooks(look, read, lines[..|lines| - 1]);
    }
  }

  lemma {:induction false} ItemsOfKept(look: string -> Look, read: string -> Item, lines: seq<string>)
    requires forall s :: look(s).item == read(s)
    ensures MapLines(read, Kept(look, lines)) == KeptItems(MapLines(look, lines))
  {
    if lines != [] {
      var front, l := lines[..|lines| - 1], lines[|lines| - 1];
      ItemsOfKept(look, read, front);
      if !Skipping(MapLines(look, lines)) {
        MapLast(read, Kept(look, front), l);
      } else {
        assert Kept(look, lines) == Kept(look, front);
      }
    }
  }

  /** The text before the new section says what the kept lines said. */
  lemma KeptSay(look: string -> Look, read: string -> Item, lines: seq<string>)
    requires IgnoresSpace(read) && forall s :: look(s).item == read(s)
    ensures Said(MapLines(read, Trimmed(Kept(look, lines)))) == Said(KeptItems(MapLines(look, lines)))
  {
    ItemsOfKept(look, read, lines);
    if Kept(look, lines) == [] {
      MapOne(read, "");
      SaidOne(read(""));
    } else {
      SaidTrimmed(read, Kept(look, lines));
    }
  }

  // ----- the new section -----

  /** What the fields are read as. */
  function Items(parse: string -> Scalar, fs: seq<Field>): seq<FieldItem> {
    if fs == [] then []
    else Items(parse, fs[..|fs| - 1]) + [FieldItem(fs[|fs| - 1].key, parse(fs[|fs| - 1].text))]
  }

  lemma EntriesSnoc(fs: seq<FieldItem>, f: FieldItem)
    ensures FieldEntries(fs + [f]) == FieldEntries(fs) + [Entry(2, f.key, false, f.scalar)]
  {
    assert (fs + [f])[..|fs|] == fs;
  }

  lemma {:induction false} FieldsSay(read: string -> Item, parse: string -> Scalar, fs: seq<Field>)
    requires AreReadBack(read, parse, fs)
    ensures Said(MapLines(read, FieldLines(fs))) == FieldEntries(Items(parse, fs))
  {
    if fs != [] {
      var front, f := fs[..|fs| - 1], fs[|fs| - 1];
      FieldsSay(read, parse, front);
      MapLast(read, FieldLines(front), FieldLine(f));
      assert IsReadBack(read, parse, f);
      SaidSnoc(MapLines(read, FieldLines(front)), read(FieldLine(f)));
      EntriesSnoc(Items(parse, front), FieldItem(f.key, parse(f.text)));
    }
  }

  lemma BlockSays(read: string -> Item, parse: string -> Scalar, name: string, fs: seq<Field>)
    requires read(Header(name)) == Entry(0, name, true, Null) && read("").Blank? && AreReadBack(read, parse, fs)
    ensures Said(MapLines(read, Block(name, fs))) == [Entry(0, name, true, Null)] + FieldEntries(Items(parse, fs))
  {
    var lines := FieldLines(fs);
    MapAppend(read, [Header(name)], lines + [""]);
    MapLast(read, lines, "");
    MapOne(read, Header(name));
    FieldsSay(read, parse, fs);
    SaidAppend([read(Header(name))], MapLines(read, lines) + [Blank]);
    SaidSnoc(MapLines(read, lines), Blank);
    SaidOne(read(Header(name)));
  }

  // ----- no line holds a newline -----

  lemma {:induction false} KeptAreLines(look: string -> Look, lines: seq<string>)
    requires AreLines(lines)
    ensures AreLines(Kept(look, lines))
  {
    if lines != [] {
      KeptAreLines(look, lines[..|lines| - 1]);
    }
  }

  lemma {:induction false} TrimmedAreLines(ls: seq<string>)
    requires ls != [] && AreLines(ls)
    ensures AreLines(TrimLines(ls))
  {
    if TrimEnd(ls[|ls| - 1]) == "" && |ls| > 1 {
      TrimmedAreLines(ls[..|ls| - 1]);
    }
  }

  lemma BodyAreLines(look: string -> Look, raw: string)
    ensures AreLines(Body(look, raw))
  {
    var kept := Kept(look, Lines(raw));
    LinesAreLines(raw);
    KeptAreLines(look, Lines(raw));
    if kept != [] {
      TrimmedAreLines(kept);
    }
  }

  lemma {:induction false} FieldLinesAreClosed(fs: seq<Field>)
    requires AreWritable(fs)
    ensures AreClosed(FieldLines(fs))
  {
    if fs != [] {
      FieldLinesAreClosed(fs[..|fs| - 1]);
      assert IsWritable(fs[|fs| - 1]);
    }
  }

  lemma BlockIsClosed(name: string, fs: seq<Field>)
    requires IsClosed(Header(name)) && AreWritable(fs)
    ensures AreClosed(Block(name, fs))
  {
    FieldLinesAreClosed(fs);
    assert IsClosed("");
  }

  lemma ReadBackIsWritable(read: string -> Item, parse: string -> Scalar, fs: seq<Field>)
    requires AreReadBack(read, parse, fs)
    ensures AreWritable(fs)
  {
    forall i | 0 <= i < |fs|
      ensures IsWritable(fs[i])
    {
      assert IsReadBack(read, parse, fs[i]);
    }
  }

  // ----- the saved text -----

  lemma SavedSays(read: string -> Item, body: seq<string>, block: seq<string>)
    requires body != [] && block != [] && read("").Blank?
    ensures Said(MapLines(read, SavedLines(body, block))) == Said(MapLines(read, body)) + Said(MapLines(read, block))
  {
    MapOne(read, "");
    SaidOne(read(""));
    if Join(body) == "" {
      JoinIsEmpty(body);
    } else {
      MapAppend(read, body + [""], block);
      MapAppend(read, body, [""]);
      SaidAppend(MapLines(read, body) + [read("")], MapLines(read, block));
      SaidAppend(MapLines(read, body), [read("")]);
    }
  }

  lemma SavedAreLines(body: seq<string>, block: seq<string>)
    requires body != [] && block != [] && AreLines(body) && AreClosed(block)
    ensures AreLines(SavedLines(body, block))
  {
    assert IsLine("");
    forall i | 0 <= i < |block|
      ensures IsLine(block[i])
    {
      assert IsClosed(block[i]);
    }
  }

  lemma JoinedSays(read: string -> Item, body: seq<string>, block: seq<string>)
    requires IgnoresSpace(read) && body != [] && block != [] && AreLines(body) && AreClosed(block)
    ensures Said(MapLines(read, Lines(SavedText(body, block))))
         == Said(MapLines(read, body)) + Said(MapLines(read, block))
  {
    SavedAreLines(body, block);
    MapJoined(read, SavedLines(body, block));
    SavedSays(read, body, block);
  }

  /** The saved text says what the kept lines say, and then the new section. */
  lemma TextSays(look: string -> Look, read: string -> Item, raw: string, name: string, fs: seq<Field>)
    requires Reads(name, look, read) && AreWritable(fs)
    ensures Said(MapLines(read, Lines(Save(look, raw, name, fs))))
         == Said(KeptItems(Looks(look, raw))) + Said(MapLines(read, Block(name, fs)))
  {
    BodyAreLines(look, raw);
    BlockIsClosed(name, fs);
    JoinedSays(read, Body(look, raw), Block(name, fs));
    KeptSay(look, read, Lines(raw));
  }

  lemma LooksOf(look: string -> Look, read: string -> Item, name: string, raw: string)
    requires Reads(name, look, read)
    ensures AllFaithful(name, Looks(look, raw)) && ItemsOf(Looks(look, raw)) == MapLines(read, Lines(raw))
  {
    ItemsOfLooks(look, read, Lines(raw));
    forall i | 0 <= i < |Looks(look, raw)|
      ensures Faithful(name, Looks(look, raw)[i])
    {
      MapAt(look, Lines(raw), i);
    }
  }

  /** For every text that parses, the editor removes only lines of the section and leaves every other
      line in its own section, if and only if the text is tidy. */
  lemma EditsRightIff(look: string -> Look, read: string -> Item, raw: string, name: string)
    requires Reads(name, look, read) && Parse(read, raw).Ok?
    ensures EditedRight(name, Looks(look, raw)) <==> Tidy(name, Looks(look, raw))
  {
    LooksOf(look, read, name, raw);
    EditedRightIff(name, Looks(look, raw));
  }

  lemma WrittenParses(kept: seq<Item>, name: string, saved: seq<Item>, fs: seq<FieldItem>)
    requires Said(saved) == Said(kept) + ([Entry(0, name, true, Null)] + FieldEntries(fs))
    ensures ParseAll(saved).Ok? <==> ParseAll(kept).Ok?
    ensures ParseAll(saved).Ok? ==>
              ParseAll(saved).value.root == ParseAll(kept).value.root[name := Section(FieldMap(fs))]
  {
    WrittenBehind(kept, name, fs);
    ParseBySaid(saved);
  }

  /** One parse is another with the section of that name replaced. */
  ghost predicate Replaced(p: Result<Parsed, ParseError>, q: Result<Parsed, ParseError>, name: string, v: Value) {
    p.Ok? && q.Ok? && q.value.root == p.value.root[name := v]
  }

  /** What the parser reads from the fields. */
  function FieldsRead(parse: string -> Scalar, fs: seq<Field>): Value {
    Section(FieldMap(Items(parse, fs)))
  }

  /** Parsing a saved text gives what the kept lines parse to, with the section written into it. */
  lemma SavedMeans(look: string -> Look, read: string -> Item, parse: string -> Scalar,
                   raw: string, name: string, fs: seq<Field>)
    requires Reads(name, look, read) && AreReadBack(read, parse, fs)
    ensures var kept, saved := ParseAll(KeptItems(Looks(look, raw))), Parse(read, Save(look, raw, name, fs));
            (saved.Ok? <==> kept.Ok?) && (saved.Ok? ==> Replaced(kept, saved, name, FieldsRead(parse, fs)))
  {
    ReadBackIsWritable(read, parse, fs);
    TextSays(look, read, raw, name, fs);
    assert Faithful(name, look(Header(name)));
    BlockSays(read, parse, name, fs);
    WrittenParses(KeptItems(Looks(look, raw)), name, MapLines(read, Lines(Save(look, raw, name, fs))),
                  Items(parse, fs));
  }

  /** The saved text of a tidy text that parses parses, with the section replaced and every other key as
      it was. */
  lemma SavedTextParses(look: string -> Look, read: string -> Item, parse: string -> Scalar,
                        raw: string, name: string, fs: seq<Field>)
    requires Reads(name, look, read) && AreReadBack(read, parse, fs)
    requires Tidy(name, Looks(look, raw)) && Parse(read, raw).Ok?
    ensures Replaced(Parse(read, raw), Parse(read, Save(look, raw, name, fs)), name, FieldsRead(parse, fs))
  {
    var looks := Looks(look, raw);
    SavedMeans(look, read, parse, raw, name, fs);
    LooksOf(look, read, name, raw);
    KeptParses(name, looks);
    AgreeBehind(name, Parse(read, raw).value, ParseAll(KeptItems(looks)).value, FieldsRead(parse, fs));
  }

  /** No top-level key is written twice, and no other section has a field of the same name as a field of
      this section; otherwise a loss may be hidden. */
  ghost predicate HidesNothing(name: string, items: seq<Item>) {
    DistinctTops(items) && OwnFields(name, items)
  }

  /** Both parse, and agree on every other key. */
  ghost predicate OthersAgree(p: Result<Parsed, ParseError>, q: Result<Parsed, ParseError>, name: string) {
    p.Ok? && q.Ok? && Agree(name, p.value, q.value)
  }

  /** If nothing is hidden, every other key keeps its value if and only if the text is tidy. */
  lemma OthersUntouchedIff(look: string -> Look, read: string -> Item, parse: string -> Scalar,
                           raw: string, name: string, fs: seq<Field>)
    requires Reads(name, look, read) && AreReadBack(read, parse, fs)
    requires Parse(read, raw).Ok? && HidesNothing(name, MapLines(read, Lines(raw)))
    ensures OthersAgree(Parse(read, raw), Parse(read, Save(look, raw, name, fs)), name)
       <==> Tidy(name, Looks(look, raw))
  {
    var looks := Looks(look, raw);
    SavedMeans(look, read, parse, raw, name, fs);
    LooksOf(look, read, name, raw);
    OthersKeptIff(name, looks);
    SameOthersIff(Parse(read, raw), ParseAll(KeptItems(looks)), Parse(read, Save(look, raw, name, fs)), name,
                  FieldsRead(parse, fs));
  }

  lemma SameOthersIff(p: Result<Parsed, ParseError>, kept: Result<Parsed, ParseError>,
                      saved: Result<Parsed, ParseError>, name: string, v: Value)
    requires (saved.Ok? <==> kept.Ok?) && (saved.Ok? ==> Replaced(kept, saved, name, v))
    ensures OthersAgree(p, saved, name) <==> OthersAgree(p, kept, name)
  {
    if saved.Ok? {
      SameOthers(name, kept.value, saved.value, v);
    }
  }

  lemma SameOthers(name: string, q: Parsed, r: Parsed, v: Value)
    requires r.root == q.root[name := v]
    ensures forall k :: k != name ==> (k in r.root <==> k in q.root) && (k in q.root ==> r.root[k] == q.root[k])
  {}

  // ----- what is read back -----

  lemma ReplacedIff(p: Result<Parsed, ParseError>, q: Result<Parsed, ParseError>, name: string, v: Value, w: Value)
    requires Replaced(p, q, name, v)
    ensures Replaced(p, q, name, w) <==> v == w
  {
    assert p.value.root[name := v][name] == v;
  }

  lemma ReplacedAgrees(p: Result<Parsed, ParseError>, q: Result<Parsed, ParseError>, name: string, v: Value)
    requires Replaced(p, q, name, v)
    ensures OthersAgree(p, q, name)
  {}

  /** A section is read back from a tidy text exactly if that is what the parser reads from the fields. */
  lemma TidyReadsBackIff(look: string -> Look, read: string -> Item, parse: string -> Scalar,
                         raw: string, name: string, fs: seq<Field>, v: Value)
    requires Reads(name, look, read) && AreReadBack(read, parse, fs)
    requires Tidy(name, Looks(look, raw)) && Parse(read, raw).Ok?
    ensures Replaced(Parse(read, raw), Parse(read, Save(look, raw, name, fs)), name, v) <==> FieldsRead(parse, fs) == v
  {
    SavedTextParses(look, read, parse, raw, name, fs);
    ReplacedIff(Parse(read, raw), Parse(read, Save(look, raw, name, fs)), name, FieldsRead(parse, fs), v);
  }

  /** If nothing is hidden, it is not read back from a text that is not tidy. */
  lemma UntidyIsNotReadBack(look: string -> Look, read: string -> Item, parse: string -> Scalar,
                            raw: string, name: string, fs: seq<Field>, v: Value)
    requires Reads(name, look, read) && AreReadBack(read, parse, fs)
    requires Parse(read, raw).Ok? && HidesNothing(name, MapLines(read, Lines(raw))) && !Tidy(name, Looks(look, raw))
    ensures !Replaced(Parse(read, raw), Parse(read, Save(look, raw, name, fs)), name, v)
  {
    OthersUntouchedIff(look, read, parse, raw, name, fs);
    if Replaced(Parse(read, raw), Parse(read, Save(look, raw, name, fs)), name, v) {
      ReplacedAgrees(Parse(read, raw), Parse(read, Save(look, raw, name, fs)), name, v);
    }
  }
}
