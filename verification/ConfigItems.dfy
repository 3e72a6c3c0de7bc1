/** The client configuration parser of `loader.ts` above the level of characters: what a sequence of
    lines, once each has been read, amounts to, and what removing one section does to it.
*/
module ConfigItems {
  import opened Wrappers

  datatype Scalar = Null | Bool(b: bool) | Num(n: int) | Str(s: string)

  /** How the parser reads one line: as nothing, as an error, or as a key with a value, which may be
      empty. */
  datatype Item = Blank | Bad | Entry(indent: nat, key: string, empty: bool, scalar: Scalar)

  datatype Value = Leaf(scalar: Scalar) | Section(fields: map<string, Scalar>)

  /** The parser's state: what has been read, and the key of the open section. */
  datatype Parsed = Parsed(root: map<string, Value>, section: Option<string>)

  datatype ParseError = ExpectedKeyValue(line: nat) | TooDeep(line: nat)

  const NOTHING := Parsed(map[], None)

  function Nest(p: Parsed, key: string, value: Scalar): Parsed
    requires p.section.Some?
  {
    var name := p.section.value;
    var fields := if name in p.root && p.root[name].Section? then p.root[name].fields else map[];
    p.(root := p.root[name := Section(fields[key := value])])
  }

  /** The effect of one line. */
  function ParseItem(p: Parsed, item: Item, number: nat): Result<Parsed, ParseError> {
    match item
    case Blank => Ok(p)
    case Bad => Err(ExpectedKeyValue(number))
    case Entry(indent, key, empty, scalar) =>
      if indent == 0 && empty then Ok(Parsed(p.root[key := Section(map[])], Some(key)))
      else if indent == 0 then Ok(Parsed(p.root[key := Leaf(scalar)], None))
      else if indent == 2 && p.section.Some? then Ok(Nest(p, key, scalar))
      else Err(TooDeep(number))
  }

  function ParseAll(items: seq<Item>): Result<Parsed, ParseError> {
    if items == [] then Ok(NOTHING)
    else
      var before := ParseAll(items[..|items| - 1]);
      if before.Err? then before else ParseItem(before.value, items[|items| - 1], |items|)
  }

  /** The first error ends the parse. */
  lemma {:induction false} ErrorStays(items: seq<Item>, i: nat)
    requires i <= |items| && ParseAll(items[..i]).Err?
    ensures ParseAll(items) == ParseAll(items[..i])
    decreases |items|
  {
    if i == |items| {
      assert items[..i] == items;
    } else {
      assert items[..|items| - 1][..i] == items[..i];
      ErrorStays(items[..|items| - 1], i);
    }
  }

  // ----- blank lines and line numbers do not matter -----

  function Said(items: seq<Item>): seq<Item> {
    if items == [] then []
    else if items[|items| - 1].Blank? then Said(items[..|items| - 1])
    else Said(items[..|items| - 1]) + [items[|items| - 1]]
  }

  lemma SaidSnoc(items: seq<Item>, item: Item)
    ensures Said(items + [item]) == if item.Blank? then Said(items) else Said(items) + [item]
  {
    assert (items + [item])[..|items|] == items;
  }

  lemma {:induction false} SaidAppend(a: seq<Item>, b: seq<Item>)
    ensures Said(a + b) == Said(a) + Said(b)
    decreases |b|
  {
    if b == [] {
      assert a + b == a;
      assert Said(a) + [] == Said(a);
    } else {
      var front, item := b[..|b| - 1], b[|b| - 1];
      SaidAppend(a, front);
      assert a + b == (a + front) + [item];
      assert b == front + [item];
      SaidSnoc(a + front, item);
      SaidSnoc(front, item);
      Associate(Said(a), Said(front), [item]);
    }
  }

  function ParseFrom(p: Parsed, items: seq<Item>): Option<Parsed> {
    if items == [] then Some(p)
    else
      var before := ParseFrom(p, items[..|items| - 1]);
      if before.None? then None
      else
        var next := ParseItem(before.value, items[|items| - 1], 0);
        if next.Ok? then Some(next.value) else None
  }

  lemma NumberDoesNotMatter(p: Parsed, item: Item, m: nat, n: nat)
    ensures ParseItem(p, item, m).Ok? == ParseItem(p, item, n).Ok?
    ensures ParseItem(p, item, m).Ok? ==> ParseItem(p, item, m) == ParseItem(p, item, n)
  {}

  lemma FromSnoc(p: Parsed, items: seq<Item>, item: Item)
    ensures ParseFrom(p, items + [item])
         == if ParseFrom(p, items).None? || ParseItem(ParseFrom(p, items).value, item, 0).Err? then None
            else Some(ParseItem(ParseFrom(p, items).value, item, 0).value)
  {
    assert (items + [item])[..|items|] == items;
  }

  lemma ParseSnoc(items: seq<Item>, item: Item)
    ensures ParseAll(items + [item])
         == if ParseAll(items).Err? then ParseAll(items) else ParseItem(ParseAll(items).value, item, |items| + 1)
  {
    assert (items + [item])[..|items|] == items;
  }

  /** What a text means, whichever line an error is on. */
  function Meaning(items: seq<Item>): Option<Parsed> {
    if ParseAll(items).Ok? then Some(ParseAll(items).value) else None
  }

  lemma MeaningSnoc(items: seq<Item>, item: Item)
    requires ParseFrom(NOTHING, Said(items)) == Meaning(items)
    ensures ParseFrom(NOTHING, Said(items + [item])) == Meaning(items + [item])
  {
    SaidSnoc(items, item);
    ParseSnoc(items, item);
    if !item.Blank? {
      FromSnoc(NOTHING, Said(items), item);
      if ParseAll(items).Ok? {
        NumberDoesNotMatter(ParseAll(items).value, item, 0, |items| + 1);
      }
    }
  }

  /** What lines mean depends on what they say only. */
  lemma {:induction false} ParseBySaid(items: seq<Item>)
    ensures ParseFrom(NOTHING, Said(items)) == Meaning(items)
  {
    if items != [] {
      var front, item := items[..|items| - 1], items[|items| - 1];
      ParseBySaid(front);
      MeaningSnoc(front, item);
      assert items == front + [item];
    }
  }

  lemma {:induction false} ParseFromAppend(p: Parsed, a: seq<Item>, b: seq<Item>)
    ensures ParseFrom(p, a + b)
         == if ParseFrom(p, a).None? then None else ParseFrom(ParseFrom(p, a).value, b)
    decreases |b|
  {
    if b == [] {
      assert a + b == a;
    } else {
      var front, item := b[..|b| - 1], b[|b| - 1];
      ParseFromAppend(p, a, front);
      FromSnoc(p, a + front, item);
      assert a + b == (a + front) + [item];
      assert b == front + [item];
      if ParseFrom(p, a).Some? {
        FromSnoc(ParseFrom(p, a).value, front, item);
      }
    }
  }

  // ----- removing a section -----

  /** How editor and parser see a line: whether the editor takes it for a top-level line, whether it
      is the section's header, whether it starts with a space, and what the parser reads. */
  datatype Look = Look(top: bool, header: bool, spaceLed: bool, item: Item)

  /** Whether the editor is inside the section after these lines. */
  predicate Skipping(looks: seq<Look>) {
    looks != [] &&
    var look := looks[|looks| - 1];
    if look.top then look.header else Skipping(looks[..|looks| - 1])
  }

  /** The items of the lines the editor keeps. */
  function KeptItems(looks: seq<Look>): seq<Item> {
    if looks == [] then []
    else if Skipping(looks) then KeptItems(looks[..|looks| - 1])
    else KeptItems(looks[..|looks| - 1]) + [looks[|looks| - 1].item]
  }

  function ItemsOf(looks: seq<Look>): seq<Item> {
    if looks == [] then [] else ItemsOf(looks[..|looks| - 1]) + [looks[|looks| - 1].item]
  }

  /** What holds of every line: a header opens the section, and the indentation of an entry is zero
      exactly when the line does not start with a space. */
  ghost predicate Faithful(name: string, look: Look) {
    && (look.top && look.header ==> look.item == Entry(0, name, true, Null))
    && (look.top ==> !look.spaceLed)
    && (look.item.Entry? ==> (look.spaceLed <==> look.item.indent > 0))
  }

  // ----- which section a line belongs to -----

  predicate IsTopEntry(item: Item) {
    item.Entry? && item.indent == 0
  }

  /** The section that is open for the parser after an item. */
  function SectionAfter(open: Option<string>, item: Item): Option<string> {
    if item.Entry? && item.indent == 0 then (if item.empty then Some(item.key) else None) else open
  }

  function OpenSection(items: seq<Item>): Option<string> {
    if items == [] then None else SectionAfter(OpenSection(items[..|items| - 1]), items[|items| - 1])
  }

  /** The top-level key the parser attributes an entry to: its own, or that of the open section. */
  function Owner(open: Option<string>, item: Item): Option<string> {
    if item.Entry? && item.indent == 0 then Some(item.key) else if item.Entry? then open else None
  }

  /** What the editor should do to a line: remove it only if it belongs to the section, and leave it
      where it belongs if it is kept.  `open` and `keptOpen` are the sections open before the line in
      the whole text and among the kept lines. */
  ghost predicate RightLine(name: string, removed: bool, open: Option<string>, keptOpen: Option<string>, item: Item) {
    item.Entry? ==> if removed then Owner(open, item) == Some(name) else Owner(keptOpen, item) == Owner(open, item)
  }

  ghost predicate EditedRight(name: string, looks: seq<Look>) {
    looks == [] ||
    var front, look := looks[..|looks| - 1], looks[|looks| - 1];
    EditedRight(name, front)
    && RightLine(name, Skipping(looks), OpenSection(ItemsOf(front)), OpenSection(KeptItems(front)), look.item)
  }

  // ----- the layouts on which the editor does that -----

  /** A comment in column 0 has ended the section for the editor, and no top-level entry has ended it
      for the parser since. */
  predicate Adrift(looks: seq<Look>) {
    looks != [] &&
    var front, look := looks[..|looks| - 1], looks[|looks| - 1];
    if look.item.Entry? && look.item.indent == 0 then false
    else Adrift(front) || (look.top && look.item.Blank? && Skipping(front))
  }

  /** No line that starts in column 0 for the parser only is removed, and no nested entry is set
      adrift, unless it drifts into an earlier piece of the same section. */
  ghost predicate TidyLine(name: string, removed: bool, adrift: bool, keptOpen: Option<string>, look: Look) {
    look.item.Entry? ==>
      && (removed && !look.top && look.item.indent == 0 ==> look.item.key == name)
      && (!removed && adrift && look.item.indent > 0 ==> keptOpen == Some(name))
  }

  ghost predicate Tidy(name: string, looks: seq<Look>) {
    looks == [] ||
    var front, look := looks[..|looks| - 1], looks[|looks| - 1];
    Tidy(name, front) && TidyLine(name, Skipping(looks), Adrift(front), OpenSection(KeptItems(front)), look)
  }

  ghost predicate Agree(name: string, p: Parsed, q: Parsed) {
    forall k :: k != name ==> (k in p.root <==> k in q.root) && (k in p.root ==> p.root[k] == q.root[k])
  }

  /** The sections open for the parser in the whole text and among the kept lines, at one point. */
  ghost predicate InStep(name: string, away: bool, open: Option<string>, keptOpen: Option<string>) {
    if away then open.Some? ==> open == Some(name) else open == keptOpen
  }

  lemma OpenSnoc(items: seq<Item>, item: Item)
    ensures OpenSection(items + [item]) == SectionAfter(OpenSection(items), item)
  {
    assert (items + [item])[..|items|] == items;
  }

  lemma LookSnoc(looks: seq<Look>, look: Look)
    ensures ItemsOf(looks + [look]) == ItemsOf(looks) + [look.item]
    ensures Skipping(looks + [look]) == if look.top then look.header else Skipping(looks)
    ensures KeptItems(looks + [look])
         == if Skipping(looks + [look]) then KeptItems(looks) else KeptItems(looks) + [look.item]
    ensures Adrift(looks + [look])
         == (!IsTopEntry(look.item) && (Adrift(looks) || (look.top && look.item.Blank? && Skipping(looks))))
  {
    assert (looks + [look])[..|looks|] == looks;
  }

  lemma KeptOpen(looks: seq<Look>, look: Look)
    ensures OpenSection(ItemsOf(looks + [look])) == SectionAfter(OpenSection(ItemsOf(looks)), look.item)
    ensures OpenSection(KeptItems(looks + [look]))
         == if Skipping(looks + [look]) then OpenSection(KeptItems(looks))
            else SectionAfter(OpenSection(KeptItems(looks)), look.item)
  {
    LookSnoc(looks, look);
    OpenSnoc(ItemsOf(looks), look.item);
    OpenSnoc(KeptItems(looks), look.item);
  }

  /** The parser's own record of the open section is that one, and nested entries need one. */
  lemma {:induction false} ParsedSection(items: seq<Item>)
    requires ParseAll(items).Ok?
    ensures ParseAll(items).value.section == OpenSection(items)
  {
    if items != [] {
      var front, item := items[..|items| - 1], items[|items| - 1];
      ParsedSection(front);
      assert items == front + [item];
      ParseSnoc(front, item);
    }
  }

  lemma NestedNeedsSection(items: seq<Item>, item: Item)
    requires ParseAll(items + [item]).Ok? && item.Entry? && item.indent > 0
    ensures OpenSection(items).Some?
  {
    ParseSnoc(items, item);
    ParsedSection(items);
  }

  // ----- exactly those layouts -----

  /** One line: it is treated right exactly when it is tidy, and then the parsers stay in step. */
  lemma RightLineIff(name: string, skipping: bool, adrift: bool, open: Option<string>, keptOpen: Option<string>,
                     look: Look)
    requires Faithful(name, look) && InStep(name, skipping || adrift, open, keptOpen)
    requires !look.item.Bad? && (look.item.Entry? && look.item.indent > 0 ==> open.Some?)
    ensures var removed := if look.top then look.header else skipping;
            var right := RightLine(name, removed, open, keptOpen, look.item);
            && (right <==> TidyLine(name, removed, adrift, keptOpen, look))
            && (right ==>
                  InStep(name,
                         removed || (!IsTopEntry(look.item) && (adrift || (look.top && look.item.Blank? && skipping))),
                         SectionAfter(open, look.item),
                         if removed then keptOpen else SectionAfter(keptOpen, look.item)))
  {}

  ghost predicate AllFaithful(name: string, looks: seq<Look>) {
    forall i :: 0 <= i < |looks| ==> Faithful(name, looks[i])
  }

  /** The editor and the parser at the same point of a text. */
  ghost predicate StaysInStep(name: string, looks: seq<Look>) {
    InStep(name, Skipping(looks) || Adrift(looks), OpenSection(ItemsOf(looks)), OpenSection(KeptItems(looks)))
  }

  lemma StepIff(name: string, looks: seq<Look>, look: Look)
    requires Faithful(name, look) && StaysInStep(name, looks) && ParseAll(ItemsOf(looks + [look])).Ok?
    ensures var removed := Skipping(looks + [look]);
            var open, keptOpen := OpenSection(ItemsOf(looks)), OpenSection(KeptItems(looks));
            var right := RightLine(name, removed, open, keptOpen, look.item);
            && (right <==> TidyLine(name, removed, Adrift(looks), OpenSection(KeptItems(looks)), look))
            && (right ==> StaysInStep(name, looks + [look]))
  {
    LookSnoc(looks, look);
    KeptOpen(looks, look);
    ParseSnoc(ItemsOf(looks), look.item);
    if look.item.Entry? && look.item.indent > 0 {
      NestedNeedsSection(ItemsOf(looks), look.item);
    }
    RightLineIff(name, Skipping(looks), Adrift(looks), OpenSection(ItemsOf(looks)), OpenSection(KeptItems(looks)),
                 look);
  }

  lemma PrefixParses(looks: seq<Look>, look: Look)
    requires ParseAll(ItemsOf(looks + [look])).Ok?
    ensures ParseAll(ItemsOf(looks)).Ok?
  {
    LookSnoc(looks, look);
    ParseSnoc(ItemsOf(looks), look.item);
  }

  /** On every text that parses, the editor removes only lines of the section and leaves every other
      line in its own section if and only if the text is tidy. */
  lemma {:induction false} EditedRightIff(name: string, looks: seq<Look>)
    requires AllFaithful(name, looks) && ParseAll(ItemsOf(looks)).Ok?
    ensures EditedRight(name, looks) <==> Tidy(name, looks)
    ensures Tidy(name, looks) ==> StaysInStep(name, looks)
  {
    if looks != [] {
      var front, look := looks[..|looks| - 1], looks[|looks| - 1];
      assert looks == front + [look];
      PrefixParses(front, look);
      EditedRightIff(name, front);
      if Tidy(name, front) {
        StepIff(name, front, look);
      }
    }
  }

  // ----- what the kept lines say -----

  lemma AgreeStep(name: string, removed: bool, p: Parsed, q: Parsed, item: Item, m: nat, n: nat)
    requires Agree(name, p, q) && RightLine(name, removed, p.section, q.section, item) && ParseItem(p, item, m).Ok?
    ensures if removed then Agree(name, ParseItem(p, item, m).value, q)
            else ParseItem(q, item, n).Ok? && Agree(name, ParseItem(p, item, m).value, ParseItem(q, item, n).value)
  {}

  /** The kept lines parse, and give every other key the value it had. */
  ghost predicate OthersKept(name: string, items: seq<Item>, kept: seq<Item>) {
    var p, q := ParseAll(items), ParseAll(kept);
    p.Ok? && q.Ok? && Agree(name, p.value, q.value)
  }

  lemma KeptStep(name: string, removed: bool, items: seq<Item>, kept: seq<Item>, item: Item)
    requires OthersKept(name, items, kept) && ParseAll(items + [item]).Ok?
    requires RightLine(name, removed, OpenSection(items), OpenSection(kept), item)
    ensures OthersKept(name, items + [item], if removed then kept else kept + [item])
  {
    ParsedSection(items);
    ParsedSection(kept);
    ParseSnoc(items, item);
    ParseSnoc(kept, item);
    AgreeStep(name, removed, ParseAll(items).value, ParseAll(kept).value, item, |items| + 1, |kept| + 1);
  }

  /** The kept lines of a tidy text parse, and differ in the one section at most. */
  lemma {:induction false} KeptParses(name: string, looks: seq<Look>)
    requires AllFaithful(name, looks) && Tidy(name, looks) && ParseAll(ItemsOf(looks)).Ok?
    ensures OthersKept(name, ItemsOf(looks), KeptItems(looks))
  {
    if looks != [] {
      var front, look := looks[..|looks| - 1], looks[|looks| - 1];
      assert looks == front + [look];
      PrefixParses(front, look);
      KeptParses(name, front);
      EditedRightIff(name, front);
      StepIff(name, front, look);
      LookSnoc(front, look);
      KeptStep(name, Skipping(looks), ItemsOf(front), KeptItems(front), look.item);
    }
  }

  // ----- and nothing less, if no loss can be hidden -----

  function TopKeys(items: seq<Item>): set<string> {
    if items == [] then {}
    else
      var item := items[|items| - 1];
      TopKeys(items[..|items| - 1]) + if item.Entry? && item.indent == 0 then {item.key} else {}
  }

  /** No top-level key is written twice. */
  ghost predicate DistinctTops(items: seq<Item>) {
    items == [] ||
    var front, item := items[..|items| - 1], items[|items| - 1];
    DistinctTops(front) && (item.Entry? && item.indent == 0 ==> item.key !in TopKeys(front))
  }

  /** The nested entry an item adds: its section and its key. */
  function PairOf(open: Option<string>, item: Item): set<(string, string)> {
    if item.Entry? && item.indent > 0 && open.Some? then {(open.value, item.key)} else {}
  }

  /** The nested entries, each with the section it is attributed to. */
  function Pairs(items: seq<Item>): set<(string, string)> {
    if items == [] then {}
    else
      var front, item := items[..|items| - 1], items[|items| - 1];
      Pairs(front) + PairOf(OpenSection(front), item)
  }

  /** No other section has a field of the same name as a field of this section. */
  ghost predicate OwnFields(name: string, items: seq<Item>) {
    forall s, k :: (name, k) in Pairs(items) && (s, k) in Pairs(items) ==> s == name
  }

  lemma KeysSnoc(items: seq<Item>, item: Item)
    ensures TopKeys(items + [item]) == TopKeys(items) + if item.Entry? && item.indent == 0 then {item.key} else {}
    ensures DistinctTops(items + [item]) <==>
              DistinctTops(items) && (item.Entry? && item.indent == 0 ==> item.key !in TopKeys(items))
    ensures Pairs(items + [item]) == Pairs(items) + PairOf(OpenSection(items), item)
  {
    assert (items + [item])[..|items|] == items;
  }

  /** What a parse of distinct top-level keys holds: exactly these keys, and under each section exactly
      the entries attributed to it. */
  ghost predicate HoldsExactly(p: Parsed, tops: set<string>, pairs: set<(string, string)>) {
    && p.root.Keys == tops
    && forall s, k :: (s, k) in pairs <==> s in p.root && p.root[s].Section? && k in p.root[s].fields
  }

  lemma HoldsTop(p: Parsed, tops: set<string>, pairs: set<(string, string)>, item: Item, n: nat)
    requires HoldsExactly(p, tops, pairs) && item.Entry? && item.indent == 0 && item.key !in tops
    ensures ParseItem(p, item, n).Ok? && HoldsExactly(ParseItem(p, item, n).value, tops + {item.key}, pairs)
  {}

  lemma HoldsNested(p: Parsed, tops: set<string>, pairs: set<(string, string)>, item: Item, n: nat)
    requires HoldsExactly(p, tops, pairs) && item.Entry? && item.indent > 0 && ParseItem(p, item, n).Ok?
    requires p.section.Some? ==> p.section.value in p.root && p.root[p.section.value].Section?
    ensures p.section.Some?
    ensures HoldsExactly(ParseItem(p, item, n).value, tops, pairs + {(p.section.value, item.key)})
  {}

  /** The open section is a section of the parse. */
  lemma {:induction false} OpenIsThere(items: seq<Item>)
    requires ParseAll(items).Ok?
    ensures var p := ParseAll(items).value;
            p.section.Some? ==> p.section.value in p.root && p.root[p.section.value].Section?
  {
    if items != [] {
      var front, item := items[..|items| - 1], items[|items| - 1];
      assert items == front + [item];
      ParseSnoc(front, item);
      OpenIsThere(front);
    }
  }

  lemma {:induction false} ParseHolds(items: seq<Item>)
    requires ParseAll(items).Ok? && DistinctTops(items)
    ensures HoldsExactly(ParseAll(items).value, TopKeys(items), Pairs(items))
  {
    if items != [] {
      var front, item := items[..|items| - 1], items[|items| - 1];
      assert items == front + [item];
      ParseSnoc(front, item);
      KeysSnoc(front, item);
      ParseHolds(front);
      ParsedSection(front);
      var p := ParseAll(front).value;
      if item.Entry? && item.indent == 0 {
        HoldsTop(p, TopKeys(front), Pairs(front), item, |items|);
      } else if item.Entry? {
        OpenIsThere(front);
        HoldsNested(p, TopKeys(front), Pairs(front), item, |items|);
      }
    }
  }

  /** The kept lines write no other top-level keys, and none twice. */
  lemma {:induction false} KeptKeys(looks: seq<Look>)
    ensures TopKeys(KeptItems(looks)) <= TopKeys(ItemsOf(looks))
    ensures DistinctTops(ItemsOf(looks)) ==> DistinctTops(KeptItems(looks))
  {
    if looks != [] {
      var front, look := looks[..|looks| - 1], looks[|looks| - 1];
      assert looks == front + [look];
      LookSnoc(front, look);
      KeptKeys(front);
      KeysSnoc(ItemsOf(front), look.item);
      KeysSnoc(KeptItems(front), look.item);
    }
  }

  /** A key that is lost, or a field of the section that is now in another one. */
  ghost predicate Harmed(name: string, items: seq<Item>, kept: seq<Item>) {
    || (exists k :: k != name && k in TopKeys(items) && k !in TopKeys(kept))
    || (exists s, k :: s != name && (s, k) in Pairs(kept) && (name, k) in Pairs(items))
  }

  lemma HarmStays(name: string, items: seq<Item>, kept: seq<Item>, item: Item, removed: bool)
    requires Harmed(name, items, kept) && DistinctTops(items + [item])
    ensures Harmed(name, items + [item], if removed then kept else kept + [item])
  {
    KeysSnoc(items, item);
    KeysSnoc(kept, item);
    var kept' := if removed then kept else kept + [item];
    if k :| k != name && k in TopKeys(items) && k !in TopKeys(kept) {
      assert k in TopKeys(items + [item]) && k !in TopKeys(kept');
    } else {
      var s, k :| s != name && (s, k) in Pairs(kept) && (name, k) in Pairs(items);
      assert (s, k) in Pairs(kept') && (name, k) in Pairs(items + [item]);
    }
  }

  lemma HarmStarts(name: string, removed: bool, items: seq<Item>, kept: seq<Item>, item: Item)
    requires item.Entry? && DistinctTops(items + [item]) && TopKeys(kept) <= TopKeys(items)
    requires if removed then item.indent == 0 && item.key != name
             else item.indent > 0 && OpenSection(items) == Some(name) != OpenSection(kept)
    requires removed || ParseAll(kept + [item]).Ok?
    ensures Harmed(name, items + [item], if removed then kept else kept + [item])
  {
    KeysSnoc(items, item);
    KeysSnoc(kept, item);
    if removed {
      assert item.key in TopKeys(items + [item]) && item.key !in TopKeys(kept);
    } else {
      NestedNeedsSection(kept, item);
      assert (OpenSection(kept).value, item.key) in Pairs(kept + [item]) && (name, item.key) in Pairs(items + [item]);
    }
  }

  lemma FirstHarm(name: string, front: seq<Look>, look: Look)
    requires AllFaithful(name, front) && Faithful(name, look) && ParseAll(ItemsOf(front + [look])).Ok?
    requires DistinctTops(ItemsOf(front) + [look.item]) && ParseAll(KeptItems(front + [look])).Ok? && Tidy(name, front)
    requires !TidyLine(name, Skipping(front + [look]), Adrift(front), OpenSection(KeptItems(front)), look)
    ensures Harmed(name, ItemsOf(front + [look]), KeptItems(front + [look]))
  {
    LookSnoc(front, look);
    PrefixParses(front, look);
    KeptKeys(front);
    EditedRightIff(name, front);
    if look.item.indent > 0 {
      NestedNeedsSection(ItemsOf(front), look.item);
    }
    HarmStarts(name, Skipping(front + [look]), ItemsOf(front), KeptItems(front), look.item);
  }

  lemma HarmGoesOn(name: string, front: seq<Look>, look: Look)
    requires Harmed(name, ItemsOf(front), KeptItems(front)) && DistinctTops(ItemsOf(front) + [look.item])
    ensures Harmed(name, ItemsOf(front + [look]), KeptItems(front + [look]))
  {
    LookSnoc(front, look);
    HarmStays(name, ItemsOf(front), KeptItems(front), look.item, Skipping(front + [look]));
  }

  lemma FrontParses(front: seq<Look>, look: Look)
    requires ParseAll(ItemsOf(front + [look])).Ok? && ParseAll(KeptItems(front + [look])).Ok?
    requires DistinctTops(ItemsOf(front + [look]))
    ensures ParseAll(ItemsOf(front)).Ok? && ParseAll(KeptItems(front)).Ok?
    ensures DistinctTops(ItemsOf(front)) && DistinctTops(ItemsOf(front) + [look.item])
  {
    LookSnoc(front, look);
    PrefixParses(front, look);
    KeysSnoc(ItemsOf(front), look.item);
    ParseSnoc(KeptItems(front), look.item);
  }

  lemma FaithfulFront(name: string, front: seq<Look>, look: Look)
    requires AllFaithful(name, front + [look])
    ensures AllFaithful(name, front) && Faithful(name, look)
  {
    assert forall i :: 0 <= i < |front| ==> (front + [look])[i] == front[i];
    assert (front + [look])[|front|] == look;
  }

  lemma TidySnoc(name: string, front: seq<Look>, look: Look)
    ensures Tidy(name, front + [look]) <==>
              && Tidy(name, front)
              && TidyLine(name, Skipping(front + [look]), Adrift(front), OpenSection(KeptItems(front)), look)
  {
    assert (front + [look])[..|front|] == front;
  }

  lemma HarmNext(name: string, front: seq<Look>, look: Look)
    requires AllFaithful(name, front + [look]) && DistinctTops(ItemsOf(front + [look]))
    requires ParseAll(ItemsOf(front + [look])).Ok? && ParseAll(KeptItems(front + [look])).Ok?
    requires !Tidy(name, front + [look]) && (!Tidy(name, front) ==> Harmed(name, ItemsOf(front), KeptItems(front)))
    ensures Harmed(name, ItemsOf(front + [look]), KeptItems(front + [look]))
  {
    FrontParses(front, look);
    if Tidy(name, front) {
      FaithfulFront(name, front, look);
      TidySnoc(name, front, look);
      FirstHarm(name, front, look);
    } else {
      HarmGoesOn(name, front, look);
    }
  }

  /** A text that is not tidy loses a key, moves an entry, or does not parse any more. */
  lemma {:induction false} UntidyHarms(name: string, looks: seq<Look>)
    requires AllFaithful(name, looks) && ParseAll(ItemsOf(looks)).Ok? && DistinctTops(ItemsOf(looks))
    requires !Tidy(name, looks) && ParseAll(KeptItems(looks)).Ok?
    ensures Harmed(name, ItemsOf(looks), KeptItems(looks))
  {
    var front, look := looks[..|looks| - 1], looks[|looks| - 1];
    assert looks == front + [look];
    FrontParses(front, look);
    FaithfulFront(name, front, look);
    if !Tidy(name, front) {
      UntidyHarms(name, front);
    }
    HarmNext(name, front, look);
  }

  lemma HarmIsSeen(name: string, items: seq<Item>, kept: seq<Item>, p: Parsed, q: Parsed)
    requires Harmed(name, items, kept) && OwnFields(name, items)
    requires HoldsExactly(p, TopKeys(items), Pairs(items)) && HoldsExactly(q, TopKeys(kept), Pairs(kept))
    ensures !Agree(name, p, q)
  {
    if k :| k != name && k in TopKeys(items) && k !in TopKeys(kept) {
      assert k in p.root && k !in q.root;
    } else {
      var s, k :| s != name && (s, k) in Pairs(kept) && (name, k) in Pairs(items);
      assert s in q.root && q.root[s].Section? && k in q.root[s].fields;
      assert (s, k) !in Pairs(items);
    }
  }

  /** If no top-level key is written twice, and no other section has a field of the same name as one of
      this section, the kept lines give every other key its value if and only if the text is tidy. */
  lemma OthersKeptIff(name: string, looks: seq<Look>)
    requires AllFaithful(name, looks) && ParseAll(ItemsOf(looks)).Ok?
    requires DistinctTops(ItemsOf(looks)) && OwnFields(name, ItemsOf(looks))
    ensures OthersKept(name, ItemsOf(looks), KeptItems(looks)) <==> Tidy(name, looks)
  {
    var items, kept := ItemsOf(looks), KeptItems(looks);
    if Tidy(name, looks) {
      KeptParses(name, looks);
    } else if ParseAll(kept).Ok? {
      UntidyHarms(name, looks);
      KeptKeys(looks);
      ParseHolds(items);
      ParseHolds(kept);
      HarmIsSeen(name, items, kept, ParseAll(items).value, ParseAll(kept).value);
    }
  }

  // ----- writing a section -----

  datatype FieldItem = FieldItem(key: string, scalar: Scalar)

  function FieldEntries(fs: seq<FieldItem>): seq<Item> {
    if fs == [] then []
    else FieldEntries(fs[..|fs| - 1]) + [Entry(2, fs[|fs| - 1].key, false, fs[|fs| - 1].scalar)]
  }

  /** The fields as a mapping; a later field replaces an earlier one of the same key. */
  function FieldMap(fs: seq<FieldItem>): map<string, Scalar> {
    if fs == [] then map[] else FieldMap(fs[..|fs| - 1])[fs[|fs| - 1].key := fs[|fs| - 1].scalar]
  }

  /** Reading a header and its fields replaces the section of that name, and nothing else. */
  lemma {:induction false} SectionIsReplaced(p: Parsed, name: string, fs: seq<FieldItem>)
    ensures ParseFrom(p, [Entry(0, name, true, Null)] + FieldEntries(fs))
         == Some(Parsed(p.root[name := Section(FieldMap(fs))], Some(name)))
  {
    var header := Entry(0, name, true, Null);
    if fs == [] {
      assert [header] + FieldEntries(fs) == [header];
      assert [header][..0] == [];
    } else {
      var front := fs[..|fs| - 1];
      SectionIsReplaced(p, name, front);
      var all := [header] + FieldEntries(fs);
      assert all[..|all| - 1] == [header] + FieldEntries(front);
      Overwrite(p.root, name, Section(FieldMap(front)), Section(FieldMap(fs)));
    }
  }

  lemma Overwrite(root: map<string, Value>, name: string, a: Value, b: Value)
    ensures root[name := a][name := b] == root[name := b]
  {}

  /** Writing a section behind any lines replaces the section of that name, and nothing else. */
  lemma WrittenBehind(kept: seq<Item>, name: string, fs: seq<FieldItem>)
    ensures ParseFrom(NOTHING, Said(kept) + ([Entry(0, name, true, Null)] + FieldEntries(fs)))
         == if ParseAll(kept).Ok?
            then Some(Parsed(ParseAll(kept).value.root[name := Section(FieldMap(fs))], Some(name)))
            else None
  {
    ParseBySaid(kept);
    ParseFromAppend(NOTHING, Said(kept), [Entry(0, name, true, Null)] + FieldEntries(fs));
    if ParseAll(kept).Ok? {
      SectionIsReplaced(ParseAll(kept).value, name, fs);
    }
  }

  /** Writing the section changes no other key. */
  lemma AgreeBehind(name: string, p: Parsed, q: Parsed, v: Value)
    ensures Agree(name, p, q) <==> p.root[name := v] == q.root[name := v]
  {
    if p.root[name := v] == q.root[name := v] {
      forall k | k != name
        ensures (k in p.root <==> k in q.root) && (k in p.root ==> p.root[k] == q.root[k])
      {
        assert k in p.root <==> k in p.root[name := v];
        assert k in q.root <==> k in q.root[name := v];
        assert k in p.root ==> p.root[name := v][k] == p.root[k] && q.root[name := v][k] == q.root[k];
      }
    }
  }
}
