/** Saving a section of the configuration again (`loader.ts`), for any way of reading a line: the later
    save wins, unless a kept line ends in a carriage return.
*/
module ConfigResave {
  import opened Wrappers
  import opened TextLines
  import opened ConfigItems
  import opened ConfigText
  import ConfigSave

  // ----- no header is kept, and all else is -----

  ghost predicate NoHeaders(look: string -> Look, ls: seq<string>) {
    forall i :: 0 <= i < |ls| ==> !IsHeader(look(ls[i]))
  }

  ghost predicate NoTops(look: string -> Look, ls: seq<string>) {
    forall i :: 0 <= i < |ls| ==> !look(ls[i]).top
  }

  lemma {:induction false} KeptHasNoHeaders(look: string -> Look, lines: seq<string>)
    ensures NoHeaders(look, Kept(look, lines))
  {
    if lines != [] {
      KeptHasNoHeaders(look, lines[..|lines| - 1]);
    }
  }

  lemma {:induction false} TrimmedHasNoHeaders(look: string -> Look, ls: seq<string>)
    requires Steady(look) && ls != [] && NoHeaders(look, ls)
    ensures NoHeaders(look, TrimLines(ls))
  {
    var front, l := ls[..|ls| - 1], ls[|ls| - 1];
    assert NoHeaders(look, front);
    assert SameMark(look(TrimEnd(l)), look(l));
    if TrimEnd(l) == "" && front != [] {
      TrimmedHasNoHeaders(look, front);
    }
  }

  lemma {:induction false} UnreturnedHasNoHeaders(look: string -> Look, ls: seq<string>)
    requires Steady(look) && NoHeaders(look, ls)
    ensures NoHeaders(look, Unreturned(ls))
  {
    if ls != [] {
      var l := ls[|ls| - 1];
      assert SameMark(look(DropCr(l)), look(l));
      UnreturnedHasNoHeaders(look, ls[..|ls| - 1]);
    }
  }

  lemma {:induction false} AllKept(look: string -> Look, ls: seq<string>)
    requires NoHeaders(look, ls)
    ensures Kept(look, ls) == ls && !Skipping(MapLines(look, ls))
  {
    if ls != [] {
      AllKept(look, ls[..|ls| - 1]);
      var looks := MapLines(look, ls);
      assert looks[..|looks| - 1] == MapLines(look, ls[..|ls| - 1]);
      assert looks[|looks| - 1] == look(ls[|ls| - 1]);
      assert !IsHeader(look(ls[|ls| - 1]));
    }
  }

  /** A section behind lines without a header is removed whole. */
  lemma {:induction false} SectionRemoved(look: string -> Look, ls: seq<string>, header: string, rest: seq<string>)
    requires NoHeaders(look, ls) && IsHeader(look(header)) && NoTops(look, rest)
    ensures Kept(look, ls + [header] + rest) == ls && Skipping(MapLines(look, ls + [header] + rest))
    decreases |rest|
  {
    var all := ls + [header] + rest;
    var looks := MapLines(look, all);
    assert looks[|looks| - 1] == look(all[|all| - 1]);
    if rest == [] {
      assert all[..|all| - 1] == ls;
      AllKept(look, ls);
    } else {
      assert all[..|all| - 1] == ls + [header] + rest[..|rest| - 1];
      SectionRemoved(look, ls, header, rest[..|rest| - 1]);
    }
  }

  // ----- the lines of a saved text -----

  /** What the body of a saved text is: one empty line, or lines the last of which ends in a non-space. */
  ghost predicate IsTrimmed(ls: seq<string>) {
    ls != [] && (ls == [""] || (ls[|ls| - 1] != [] && !IsSpace(ls[|ls| - 1][|ls[|ls| - 1]| - 1])))
  }

  lemma {:induction false} TrimLinesIsTrimmed(ls: seq<string>)
    requires ls != []
    ensures IsTrimmed(TrimLines(ls))
  {
    if TrimEnd(ls[|ls| - 1]) == "" && |ls| > 1 {
      TrimLinesIsTrimmed(ls[..|ls| - 1]);
    }
  }

  lemma {:induction false} UnreturnedAppend(a: seq<string>, b: seq<string>)
    ensures Unreturned(a + b) == Unreturned(a) + Unreturned(b)
    decreases |b|
  {
    if b == [] {
      assert a + b == a;
    } else {
      UnreturnedAppend(a, b[..|b| - 1]);
      assert (a + b)[..|a + b| - 1] == a + b[..|b| - 1];
    }
  }

  lemma {:induction false} ClosedUnreturned(ls: seq<string>)
    requires AreClosed(ls)
    ensures Unreturned(ls) == ls
  {
    if ls != [] {
      ClosedUnreturned(ls[..|ls| - 1]);
      assert IsClosed(ls[|ls| - 1]);
    }
  }

  lemma UnreturnedIsTrimmed(ls: seq<string>)
    requires IsTrimmed(ls)
    ensures IsTrimmed(Unreturned(ls))
    ensures Join(ls) == "" <==> ls == [""]
    ensures Join(Unreturned(ls)) == "" <==> ls == [""]
  {
    assert Unreturned(ls)[|ls| - 1] == DropCr(ls[|ls| - 1]);
    assert Unreturned([""]) == [""] by {
      assert [""][..0] == [];
    }
  }

  lemma UnreturnedLast(ls: seq<string>)
    requires ls != [] && IsClosed(ls[|ls| - 1])
    ensures Unreturned(ls[..|ls| - 1]) + [ls[|ls| - 1]] == Unreturned(ls)
  {}

  lemma UnreturnedSaved(body: seq<string>, block: seq<string>)
    requires IsTrimmed(body) && block != [] && AreClosed(block)
    ensures Unreturned(SavedLines(body, block)) == SavedLines(Unreturned(body), block)
  {
    UnreturnedIsTrimmed(body);
    ClosedUnreturned(block);
    if body != [""] {
      UnreturnedAppend(body + [""], block);
      UnreturnedAppend(body, [""]);
      ClosedUnreturned([""]);
    }
  }

  /** Reading a saved text gives its lines, without carriage returns at their ends. */
  lemma LinesOfSaved(body: seq<string>, block: seq<string>)
    requires IsTrimmed(body) && AreLines(body) && block != [] && AreClosed(block)
    ensures Lines(SavedText(body, block)) == SavedLines(Unreturned(body), block)
  {
    var ls := SavedLines(body, block);
    ConfigSave.SavedAreLines(body, block);
    LinesOfJoin(ls);
    assert ls[|ls| - 1] == block[|block| - 1];
    UnreturnedLast(ls);
    UnreturnedSaved(body, block);
  }

  lemma TrimLinesKeeps(ls: seq<string>)
    requires IsTrimmed(ls)
    ensures TrimLines(ls) == ls
  {
    assert ls == ls[..|ls| - 1] + [ls[|ls| - 1]];
  }

  lemma TrimLinesDropsEmpty(ls: seq<string>)
    requires IsTrimmed(ls)
    ensures TrimLines(ls + [""]) == ls
  {
    assert (ls + [""])[..|ls|] == ls;
    TrimLinesKeeps(ls);
  }

  /** The editor, run on a saved text, finds the body again. */
  lemma BodyFound(look: string -> Look, body: seq<string>, header: string, rest: seq<string>)
    requires IsTrimmed(body) && NoHeaders(look, body) && !look("").top
    requires IsHeader(look(header)) && NoTops(look, rest)
    ensures Trimmed(Kept(look, SavedLines(body, [header] + rest))) == body
  {
    if Join(body) == "" {
      JoinIsEmpty(body);
      assert [] + [header] + rest == [header] + rest;
      SectionRemoved(look, [], header, rest);
    } else {
      assert body + [""] + ([header] + rest) == (body + [""]) + [header] + rest;
      SectionRemoved(look, body + [""], header, rest);
      TrimLinesDropsEmpty(body);
    }
  }

  lemma {:induction false} FieldsAreNotTop(look: string -> Look, fs: seq<Field>)
    requires forall f :: !look(FieldLine(f)).top
    ensures NoTops(look, FieldLines(fs))
  {
    if fs != [] {
      FieldsAreNotTop(look, fs[..|fs| - 1]);
    }
  }

  lemma NoTopsSnoc(look: string -> Look, ls: seq<string>, line: string)
    requires NoTops(look, ls) && !look(line).top
    ensures NoTops(look, ls + [line])
  {}

  lemma KeptBody(look: string -> Look, lines: seq<string>)
    requires Steady(look)
    ensures IsTrimmed(Trimmed(Kept(look, lines))) && NoHeaders(look, Trimmed(Kept(look, lines)))
  {
    var kept := Kept(look, lines);
    KeptHasNoHeaders(look, lines);
    if kept != [] {
      TrimLinesIsTrimmed(kept);
      TrimmedHasNoHeaders(look, kept);
    }
  }

  lemma FoundAgain(look: string -> Look, body: seq<string>, header: string, rest: seq<string>)
    requires Steady(look) && AreLines(body) && IsTrimmed(body) && NoHeaders(look, body)
    requires IsHeader(look(header)) && NoTops(look, rest) && AreClosed([header] + rest)
    ensures Trimmed(Kept(look, Lines(SavedText(body, [header] + rest)))) == Unreturned(body)
  {
    LinesOfSaved(body, [header] + rest);
    UnreturnedIsTrimmed(body);
    UnreturnedHasNoHeaders(look, body);
    BodyFound(look, Unreturned(body), header, rest);
  }

  /** The body of a saved text is the body it was saved with, one carriage return less per line. */
  lemma BodyOfSaved(look: string -> Look, read: string -> Item, raw: string, name: string, fs: seq<Field>)
    requires Reads(name, look, read) && AreWritable(fs)
    ensures Body(look, Save(look, raw, name, fs)) == Unreturned(Body(look, raw))
  {
    ConfigSave.BodyAreLines(look, raw);
    ConfigSave.BlockIsClosed(name, fs);
    KeptBody(look, Lines(raw));
    FieldsAreNotTop(look, fs);
    NoTopsSnoc(look, FieldLines(fs), "");
    FoundAgain(look, Body(look, raw), Header(name), FieldLines(fs) + [""]);
  }

  // ----- when nothing changes -----

  predicate EndsInReturn(line: string) {
    line != [] && line[|line| - 1] == '\r'
  }

  lemma {:induction false} UnreturnedSame(ls: seq<string>)
    ensures Unreturned(ls) == ls <==> forall i :: 0 <= i < |ls| ==> !EndsInReturn(ls[i])
  {
    if ls != [] {
      var front, l := ls[..|ls| - 1], ls[|ls| - 1];
      UnreturnedSame(front);
      assert Unreturned(ls) == Unreturned(front) + [DropCr(l)];
      assert ls == front + [l];
      assert DropCr(l) == l <==> !EndsInReturn(l);
      if Unreturned(ls) == ls {
        assert Unreturned(ls)[..|front|] == front;
        assert Unreturned(ls)[|front|] == l;
      }
    }
  }

  lemma {:induction false} ShorterJoin(ls: seq<string>)
    requires ls != []
    ensures |Join(Unreturned(ls))| <= |Join(ls)|
    ensures |Join(Unreturned(ls))| == |Join(ls)| ==> Unreturned(ls) == ls
  {
    var front, l := ls[..|ls| - 1], ls[|ls| - 1];
    var r := Unreturned(ls);
    assert r[..|r| - 1] == Unreturned(front) && r[|r| - 1] == DropCr(l);
    assert ls == front + [l];
    if front == [] {
      assert r == [DropCr(l)];
    } else {
      ShorterJoin(front);
    }
  }

  lemma SavedLength(body: seq<string>, block: seq<string>)
    requires body != [] && block != [] && Join(body) != ""
    ensures |SavedText(body, block)| == |Join(body)| + 2 + |Join(block)|
  {
    JoinAppend(body + [""], block);
    JoinAppend(body, [""]);
  }

  lemma SameTextIff(body: seq<string>, block: seq<string>)
    requires IsTrimmed(body) && block != []
    ensures SavedText(Unreturned(body), block) == SavedText(body, block) <==> Unreturned(body) == body
  {
    UnreturnedIsTrimmed(body);
    if body != [""] {
      SavedLength(body, block);
      SavedLength(Unreturned(body), block);
      ShorterJoin(body);
    }
  }

  /** Of two saves the later wins, as if the earlier had never been, exactly when no line kept before
      the section ends in a carriage return. */
  lemma LaterSaveWinsIff(look: string -> Look, read: string -> Item, raw: string, name: string,
                         fs: seq<Field>, gs: seq<Field>)
    requires Reads(name, look, read) && AreWritable(fs)
    ensures Save(look, Save(look, raw, name, fs), name, gs) == Save(look, raw, name, gs)
       <==> forall i :: 0 <= i < |Body(look, raw)| ==> !EndsInReturn(Body(look, raw)[i])
  {
    BodyOfSaved(look, read, raw, name, fs);
    KeptBody(look, Lines(raw));
    SameTextIff(Body(look, raw), Block(name, gs));
    UnreturnedSame(Body(look, raw));
  }

  lemma KeptByNoHeader(look: string -> Look, ls: seq<string>)
    requires NoHeaders(look, ls) && IsTrimmed(ls)
    ensures Trimmed(Kept(look, ls)) == ls
  {
    AllKept(look, ls);
    TrimLinesKeeps(ls);
  }

  lemma TwoLines(ls: seq<string>, read: seq<string>)
    requires |ls| == 2 && AreLines(ls) && read == [DropCr(ls[0]), ls[1]]
    ensures Lines(Join(ls)) == read
  {
    LinesOfJoin(ls);
    assert ls[..1] == [ls[0]];
    assert Unreturned([ls[0]]) == [DropCr(ls[0])] by {
      assert [ls[0]][..0] == [];
    }
  }

  /** A kept line that ends in two carriage returns before its newline loses one with every save. */
  lemma SavingTwiceCanChange(look: string -> Look, read: string -> Item, name: string, fs: seq<Field>,
                             first: string, second: string)
    requires Reads(name, look, read) && AreWritable(fs)
    requires IsLine(first) && IsLine(second) && EndsInReturn(first) && EndsInReturn(DropCr(first))
    requires !IsHeader(look(first)) && !IsHeader(look(second)) && IsTrimmed([DropCr(first), second])
    ensures var raw := Join([first, second]);
            Save(look, Save(look, raw, name, fs), name, fs) != Save(look, raw, name, fs)
  {
    var read' := [DropCr(first), second];
    TwoLines([first, second], read');
    assert SameMark(look(DropCr(first)), look(first));
    KeptByNoHeader(look, read');
    LaterSaveWinsIff(look, read, Join([first, second]), name, fs, fs);
    assert EndsInReturn(read'[0]);
  }
}
