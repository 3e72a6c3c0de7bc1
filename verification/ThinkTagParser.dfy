/** The streaming `<think>` splitter of `think_tag_parser.py`.

    `Scan` is a one-shot reference splitter that reads the whole text at once, one character at a
    time, and knows nothing about buffers, `find` or partial suffixes.  The class `ThinkTagParser`
    is the incremental parser; `Feed` is proved to agree with `Scan`, and the lemmas at the end say
    that the way a text was cut into chunks is invisible, and that only the tags are lost.
*/
module ThinkTagParser {
  import opened Wrappers

  type TagText = s: string | s != [] witness "<"

  /** The pair of tags a parser looks for.  Nothing below depends on which two tags they are. */
  datatype Tags = Tags(open: TagText, close: TagText) {
    /** The tag awaited in a mode. */
    function Awaited(inside: bool): TagText {
      if inside then close else open
    }
  }

  const THINK_TAGS := Tags("<think>", "</think>")

  datatype Event = ThinkingDelta(content: string) | TextDelta(content: string)

  /** One emitted character and the kind of event that carried it. */
  datatype Labelled = Labelled(ch: char, thinking: bool)

  function Label(s: string, thinking: bool): seq<Labelled> {
    seq(|s|, i requires 0 <= i < |s| => Labelled(s[i], thinking))
  }

  /** The labelled characters of a list of events. */
  function Flatten(events: seq<Event>): seq<Labelled> {
    if events == [] then []
    else Flatten(events[..|events| - 1]) + LabelEvent(events[|events| - 1])
  }

  function LabelEvent(e: Event): seq<Labelled> {
    Label(e.content, e.ThinkingDelta?)
  }

  // ----- the reference splitter -----

  datatype Outcome = Outcome(out: seq<Labelled>, inside: bool, held: string)

  function Prepend(out: seq<Labelled>, o: Outcome): Outcome {
    o.(out := out + o.out)
  }

  function Scan(tags: Tags, inside: bool, s: string): Outcome
    decreases |s|
  {
    if tags.Awaited(inside) <= s then Scan(tags, !inside, s[|tags.Awaited(inside)|..])
    else if s <= tags.Awaited(inside) then Outcome([], inside, s)
    else Prepend([Labelled(s[0], inside)], Scan(tags, inside, s[1..]))
  }

  /** What the parser holds back is always a proper prefix of the tag it is waiting for. */
  lemma {:induction false} HeldIsPartialTag(tags: Tags, inside: bool, s: string)
    ensures var o := Scan(tags, inside, s); o.held < tags.Awaited(o.inside)
    decreases |s|
  {
    if tags.Awaited(inside) <= s {
      HeldIsPartialTag(tags, !inside, s[|tags.Awaited(inside)|..]);
    } else if !(s <= tags.Awaited(inside)) {
      HeldIsPartialTag(tags, inside, s[1..]);
    }
  }

  lemma PrependTwice(a: seq<Labelled>, b: seq<Labelled>, o: Outcome)
    ensures Prepend(a, Prepend(b, o)) == Prepend(a + b, o)
  {
    assert a + (b + o.out) == (a + b) + o.out;
  }

  lemma LabelSnoc(s: string, k: nat, thinking: bool)
    requires k < |s|
    ensures Label(s[..k + 1], thinking) == Label(s[..k], thinking) + [Labelled(s[k], thinking)]
  {}

  /** Neither the awaited tag nor a partial one starts at position `i`. */
  ghost predicate PlainAt(tags: Tags, inside: bool, s: string, i: nat)
    requires i <= |s|
  {
    !(tags.Awaited(inside) <= s[i..]) && !(s[i..] <= tags.Awaited(inside))
  }

  lemma ScanPlainStart(tags: Tags, inside: bool, s: string)
    requires !(tags.Awaited(inside) <= s) && !(s <= tags.Awaited(inside))
    ensures Scan(tags, inside, s) == Prepend([Labelled(s[0], inside)], Scan(tags, inside, s[1..]))
  {}

  /** Characters before which neither a tag nor a partial tag starts are emitted as they are. */
  lemma {:induction false} ScanPlain(tags: Tags, inside: bool, s: string, k: nat)
    requires k <= |s|
    requires forall i :: 0 <= i < k ==> PlainAt(tags, inside, s, i)
    ensures Scan(tags, inside, s) == Prepend(Label(s[..k], inside), Scan(tags, inside, s[k..]))
    decreases k
  {
    if k == 0 {
      assert s[0..] == s;
    } else {
      ScanPlain(tags, inside, s, k - 1);
      assert PlainAt(tags, inside, s, k - 1);
      ScanPlainStart(tags, inside, s[k - 1..]);
      assert s[k - 1..][1..] == s[k..];
      PrependTwice(Label(s[..k - 1], inside), [Labelled(s[k - 1], inside)], Scan(tags, inside, s[k..]));
      LabelSnoc(s, k - 1, inside);
    }
  }

  /** No complete tag starts before position `n`. */
  ghost predicate NoTagBefore(tag: string, s: string, n: nat) {
    n <= |s| && forall i :: 0 <= i < n ==> !(tag <= s[i..])
  }

  /** No suffix that starts before position `n` is a proper prefix of the tag. */
  ghost predicate NoPartialBefore(tag: string, s: string, n: nat) {
    n <= |s| && forall i :: 0 <= i < n && |s| - i < |tag| ==> s[i..] != tag[..|s| - i]
  }

  lemma PlainBeforeTag(tags: Tags, inside: bool, s: string, pos: nat, i: nat)
    requires pos <= |s| && tags.Awaited(inside) <= s[pos..] && NoTagBefore(tags.Awaited(inside), s, pos) && i < pos
    ensures PlainAt(tags, inside, s, i)
  {}

  /** Text up to the first complete tag is emitted, and the tag flips the mode. */
  lemma ScanToTag(tags: Tags, inside: bool, s: string, pos: nat)
    requires pos <= |s| && tags.Awaited(inside) <= s[pos..]
    requires NoTagBefore(tags.Awaited(inside), s, pos)
    ensures pos + |tags.Awaited(inside)| <= |s|
    ensures Scan(tags, inside, s)
         == Prepend(Label(s[..pos], inside), Scan(tags, !inside, s[pos + |tags.Awaited(inside)|..]))
  {
    forall i | 0 <= i < pos
      ensures PlainAt(tags, inside, s, i)
    {
      PlainBeforeTag(tags, inside, s, pos, i);
    }
    ScanPlain(tags, inside, s, pos);
    assert s[pos..][|tags.Awaited(inside)|..] == s[pos + |tags.Awaited(inside)|..];
  }

  /** The suffixes that are partial tags are among those `SplitAtPartial` tries. */
  lemma NoLongerPartial(tag: string, s: string, i: nat)
    requires i < |s| && !(tag <= s[i..])
    requires |s| - i < |tag| ==> s[i..] != tag[..|s| - i]
    ensures !(s[i..] <= tag)
  {
    assert tag[..|tag|] == tag;
  }

  /** Without a complete tag, everything up to the longest partial tag at the end is emitted. */
  lemma ScanToPartial(tags: Tags, inside: bool, s: string, k: nat)
    requires k <= |s| && s[k..] < tags.Awaited(inside)
    requires NoTagBefore(tags.Awaited(inside), s, |s|)
    requires NoPartialBefore(tags.Awaited(inside), s, k)
    ensures Scan(tags, inside, s) == Outcome(Label(s[..k], inside), inside, s[k..])
  {
    forall i | 0 <= i < k
      ensures PlainAt(tags, inside, s, i)
    {
      NoLongerPartial(tags.Awaited(inside), s, i);
    }
    ScanPlain(tags, inside, s, k);
    assert Label(s[..k], inside) + [] == Label(s[..k], inside);
  }

  // ----- the incremental parser -----

  /** First occurrence of `t` in `s`, or -1, as Python's `str.find` gives it. */
  method Find(s: string, t: string) returns (pos: int)
    requires t != []
    ensures -1 <= pos <= |s|
    ensures pos >= 0 ==> t <= s[pos..]
    ensures NoTagBefore(t, s, if pos < 0 then |s| else pos)
  {
    for i := 0 to |s|
      invariant forall j :: 0 <= j < i ==> !(t <= s[j..])
    {
      if t <= s[i..] {
        return i;
      }
    }
    return -1;
  }

  /** Splits off the longest suffix of `buf` that is a proper prefix of `tag`. */
  method SplitAtPartial(buf: string, tag: string) returns (safe: string, remaining: string)
    requires tag != []
    ensures safe + remaining == buf
    ensures remaining < tag
    ensures NoPartialBefore(tag, buf, |safe|)
  {
    var maxCheck := if |buf| < |tag| - 1 then |buf| else |tag| - 1;
    var length := maxCheck;
    while length > 0
      invariant 0 <= length <= maxCheck
      invariant forall i :: 0 <= i < |buf| - length && |buf| - i < |tag| ==> buf[i..] != tag[..|buf| - i]
    {
      if buf[|buf| - length..] == tag[..length] {
        return buf[..|buf| - length], buf[|buf| - length..];
      }
      length := length - 1;
    }
    return buf, "";
  }

  /** Appends a delta unless its text is empty. */
  function AddEvent(events: seq<Event>, thinking: bool, content: string): (r: seq<Event>)
    ensures (forall e :: e in events ==> e.content != []) ==> forall e :: e in r ==> e.content != []
  {
    if content == [] then events
    else events + [if thinking then ThinkingDelta(content) else TextDelta(content)]
  }

  lemma Emit(events: seq<Event>, thinking: bool, content: string, rest: Outcome)
    ensures Prepend(Flatten(AddEvent(events, thinking, content)), rest)
         == Prepend(Flatten(events), Prepend(Label(content, thinking), rest))
  {
    PrependTwice(Flatten(events), Label(content, thinking), rest);
    var r := AddEvent(events, thinking, content);
    if content == [] {
      assert Flatten(events) + Label(content, thinking) == Flatten(events);
    } else {
      assert r[..|r| - 1] == events;
    }
  }

  lemma HoldBack(tags: Tags, inside: bool, s: string, safe: string, remaining: string)
    requires safe + remaining == s && remaining < tags.Awaited(inside)
    requires NoTagBefore(tags.Awaited(inside), s, |s|)
    requires NoPartialBefore(tags.Awaited(inside), s, |safe|)
    ensures Scan(tags, inside, s) == Prepend(Label(safe, inside), Scan(tags, inside, remaining))
  {
    assert s[..|safe|] == safe && s[|safe|..] == remaining;
    ScanToPartial(tags, inside, s, |safe|);
    assert Label(safe, inside) + [] == Label(safe, inside);
  }

  /** One turn of the parser's loop: the text before the awaited tag and what follows the tag, or,
      without a tag, the text that is safe to emit and the partial tag to keep. */
  method NextCut(tags: Tags, inside: bool, s: string)
    returns (found: bool, content: string, rest: string)
    requires s != []
    ensures found ==> |rest| < |s|
    ensures !found ==> rest < tags.Awaited(inside)
    ensures Scan(tags, inside, s)
         == Prepend(Label(content, inside), Scan(tags, if found then !inside else inside, rest))
  {
    hide Scan, Prepend, Label, NoTagBefore, NoPartialBefore;
    var tag := tags.Awaited(inside);
    var pos := Find(s, tag);
    if pos == -1 {
      content, rest := SplitAtPartial(s, tag);
      HoldBack(tags, inside, s, content, rest);
      found := false;
    } else {
      ScanToTag(tags, inside, s, pos);
      found, content, rest := true, s[..pos], s[pos + |tag|..];
    }
  }

  /** The events emitted so far and the text still to be read account for the whole input. */
  ghost predicate Agrees(tags: Tags, inside: bool, s: string, events: seq<Event>, all: Outcome) {
    Prepend(Flatten(events), Scan(tags, inside, s)) == all
  }

  lemma NothingYet(all: Outcome)
    ensures Prepend(Flatten([]), all) == all
  {}

  lemma EmitCut(tags: Tags, inside: bool, s: string, events: seq<Event>,
                content: string, inside': bool, rest: string, all: Outcome)
    requires Agrees(tags, inside, s, events, all)
    requires Scan(tags, inside, s) == Prepend(Label(content, inside), Scan(tags, inside', rest))
    ensures Agrees(tags, inside', rest, AddEvent(events, inside, content), all)
  {
    Emit(events, inside, content, Scan(tags, inside', rest));
  }

  lemma AllEmitted(tags: Tags, inside: bool, s: string, events: seq<Event>, all: Outcome)
    requires Agrees(tags, inside, s, events, all)
    requires s < tags.Awaited(inside)
    ensures Outcome(Flatten(events), inside, s) == all
  {
    assert Scan(tags, inside, s) == Outcome([], inside, s);
    assert Flatten(events) + [] == Flatten(events);
  }

  class ThinkTagParser {
    const tags: Tags
    var insideThink: bool
    var buf: string

    ghost predicate Valid()
      reads this
    {
      buf < tags.Awaited(insideThink)
    }

    constructor ()
      ensures Valid() && !insideThink && buf == "" && tags == THINK_TAGS
    {
      tags := THINK_TAGS;
      insideThink, buf := false, "";
    }

    /** Feeding a chunk emits, holds back and switches exactly as the reference splitter does on
        the held buffer followed by the chunk; no event is empty. */
    method Feed(text: string) returns (events: seq<Event>)
      requires Valid()
      modifies this
      ensures Valid()
      ensures Outcome(Flatten(events), insideThink, buf) == Scan(tags, old(insideThink), old(buf) + text)
      ensures forall e :: e in events ==> e.content != []
    {
      buf := buf + text;
      ghost var all := Scan(tags, insideThink, buf);
      events := [];
      NothingYet(all);
      while buf != []
        invariant Agrees(tags, insideThink, buf, events, all)
        invariant forall e :: e in events ==> e.content != []
        decreases |buf|
      {
        var found, content, rest := NextCut(tags, insideThink, buf);
        EmitCut(tags, insideThink, buf, events, content, if found then !insideThink else insideThink, rest, all);
        events := AddEvent(events, insideThink, content);
        buf := rest;
        if !found {
          break;
        }
        insideThink := !insideThink;
      }
      AllEmitted(tags, insideThink, buf, events, all);
      HeldIsPartialTag(tags, old(insideThink), old(buf) + text);
    }

    /** Feeds the chunks one after the other. */
    method FeedAll(chunks: seq<string>) returns (events: seq<Event>)
      requires Valid()
      modifies this
      ensures Valid()
      ensures Outcome(Flatten(events), insideThink, buf) == Run(tags, old(insideThink), old(buf), chunks)
    {
      events := [];
      ghost var all := Run(tags, insideThink, buf, chunks);
      assert chunks[0..] == chunks;
      for i := 0 to |chunks|
        invariant Valid()
        invariant Prepend(Flatten(events), Run(tags, insideThink, buf, chunks[i..])) == all
      {
        RunOne(tags, insideThink, buf, chunks, i);
        ghost var o := Scan(tags, insideThink, buf + chunks[i]);
        var more := Feed(chunks[i]);
        PrependTwice(Flatten(events), o.out, Run(tags, o.inside, o.held, chunks[i + 1..]));
        FlattenAppend(events, more);
        events := events + more;
      }
      NothingLeft(tags, insideThink, buf, chunks, Flatten(events));
    }
  }

  // ----- chunk independence -----

  /** Feeding a list of chunks one after the other. */
  function Run(tags: Tags, inside: bool, held: string, chunks: seq<string>): Outcome
    decreases |chunks|
  {
    if chunks == [] then Outcome([], inside, held)
    else
      var o := Scan(tags, inside, held + chunks[0]);
      Prepend(o.out, Run(tags, o.inside, o.held, chunks[1..]))
  }

  lemma RunOne(tags: Tags, inside: bool, held: string, chunks: seq<string>, i: nat)
    requires i < |chunks|
    ensures var o := Scan(tags, inside, held + chunks[i]);
            Run(tags, inside, held, chunks[i..]) == Prepend(o.out, Run(tags, o.inside, o.held, chunks[i + 1..]))
  {
    assert chunks[i..][1..] == chunks[i + 1..];
  }

  lemma NothingLeft(tags: Tags, inside: bool, held: string, chunks: seq<string>, out: seq<Labelled>)
    ensures Prepend(out, Run(tags, inside, held, chunks[|chunks|..])) == Outcome(out, inside, held)
  {
    assert out + [] == out;
  }

  lemma {:induction false} FlattenAppend(a: seq<Event>, b: seq<Event>)
    ensures Flatten(a + b) == Flatten(a) + Flatten(b)
    decreases |b|
  {
    if b == [] {
      assert a + b == a;
    } else {
      FlattenAppend(a, b[..|b| - 1]);
      assert (a + b)[..|a + b| - 1] == a + b[..|b| - 1];
      Associate(Flatten(a), Flatten(b[..|b| - 1]), LabelEvent(b[|b| - 1]));
    }
  }

  function Concat(chunks: seq<string>): string {
    if chunks == [] then "" else chunks[0] + Concat(chunks[1..])
  }

  /** Appending text cannot turn a plain start into a tag or a partial tag. */
  lemma PlainStays(tag: string, s: string, t: string)
    requires !(tag <= s) && !(s <= tag)
    ensures !(tag <= s + t) && !(s + t <= tag)
  {
    if |s| < |tag| {
      var i :| 0 <= i < |s| && s[i] != tag[i];
      assert (s + t)[i] == s[i];
    } else {
      var i :| 0 <= i < |tag| && s[i] != tag[i];
      assert (s + t)[i] == s[i];
    }
  }

  ghost predicate Resumes(tags: Tags, inside: bool, s: string, t: string) {
    var o := Scan(tags, inside, s);
    Scan(tags, inside, s + t) == Prepend(o.out, Scan(tags, o.inside, o.held + t))
  }

  lemma ResumeAfterTag(tags: Tags, inside: bool, s: string, t: string)
    requires tags.Awaited(inside) <= s && Resumes(tags, !inside, s[|tags.Awaited(inside)|..], t)
    ensures Resumes(tags, inside, s, t)
  {
    var tag := tags.Awaited(inside);
    assert (s + t)[|tag|..] == s[|tag|..] + t;
    assert tag <= s + t;
  }

  lemma ResumeAfterPlain(tags: Tags, inside: bool, s: string, t: string)
    requires !(tags.Awaited(inside) <= s) && !(s <= tags.Awaited(inside)) && Resumes(tags, inside, s[1..], t)
    ensures Resumes(tags, inside, s, t)
  {
    PlainStays(tags.Awaited(inside), s, t);
    ScanPlainStart(tags, inside, s);
    ScanPlainStart(tags, inside, s + t);
    assert (s + t)[1..] == s[1..] + t;
    var o := Scan(tags, inside, s[1..]);
    PrependTwice([Labelled(s[0], inside)], o.out, Scan(tags, o.inside, o.held + t));
  }

  /** Stopping in the middle of a text and going on from the held buffer changes nothing. */
  lemma {:induction false} ScanResumes(tags: Tags, inside: bool, s: string, t: string)
    ensures Resumes(tags, inside, s, t)
    decreases |s|
  {
    var tag := tags.Awaited(inside);
    if tag <= s {
      ScanResumes(tags, !inside, s[|tag|..], t);
      ResumeAfterTag(tags, inside, s, t);
    } else if !(s <= tag) {
      ScanResumes(tags, inside, s[1..], t);
      ResumeAfterPlain(tags, inside, s, t);
    }
  }

  lemma ConcatOne(held: string, chunks: seq<string>)
    requires chunks != []
    ensures held + Concat(chunks) == (held + chunks[0]) + Concat(chunks[1..])
  {}

  lemma ScanChunk(tags: Tags, inside: bool, s: string, t: string, o: Outcome)
    requires Resumes(tags, inside, s, t) && o == Scan(tags, inside, s)
    ensures Scan(tags, inside, s + t) == Prepend(o.out, Scan(tags, o.inside, o.held + t))
  {}

  /** However a text is cut into chunks, feeding the chunks yields the labelled characters, the
      final mode and the held buffer of the one-shot splitter on the whole text. */
  lemma {:induction false} ChunkIndependence(tags: Tags, inside: bool, held: string, chunks: seq<string>)
    requires held < tags.Awaited(inside)
    ensures Run(tags, inside, held, chunks) == Scan(tags, inside, held + Concat(chunks))
    decreases |chunks|
  {
    if chunks == [] {
      assert held + Concat(chunks) == held;
    } else {
      var s, t := held + chunks[0], Concat(chunks[1..]);
      var o := Scan(tags, inside, s);
      HeldIsPartialTag(tags, inside, s);
      ChunkIndependence(tags, o.inside, o.held, chunks[1..]);
      ScanResumes(tags, inside, s, t);
      ScanChunk(tags, inside, s, t, o);
      ConcatOne(held, chunks);
    }
  }

  /** Two ways of cutting the same text cannot be told apart. */
  lemma CutsAgree(tags: Tags, a: seq<string>, b: seq<string>)
    requires Concat(a) == Concat(b)
    ensures Run(tags, false, "", a) == Run(tags, false, "", b)
  {
    ChunkIndependence(tags, false, "", a);
    ChunkIndependence(tags, false, "", b);
  }

  // ----- what the splitter means: pieces between alternating tags -----

  /** The text whose pieces, separated by alternating tags, are `pieces`. */
  function Render(tags: Tags, inside: bool, pieces: seq<string>): string
    requires pieces != []
    decreases |pieces|
  {
    if |pieces| == 1 then pieces[0]
    else pieces[0] + tags.Awaited(inside) + Render(tags, !inside, pieces[1..])
  }

  function LabelPieces(inside: bool, pieces: seq<string>): seq<Labelled>
    decreases |pieces|
  {
    if pieces == [] then []
    else Label(pieces[0], inside) + LabelPieces(!inside, pieces[1..])
  }

  /** The mode in which the last piece is read. */
  function ModeAfter(inside: bool, pieces: seq<string>): bool
    requires pieces != []
    decreases |pieces|
  {
    if |pieces| == 1 then inside else ModeAfter(!inside, pieces[1..])
  }

  /** The tag that ends `piece` is the first one met when reading `piece` followed by it. */
  ghost predicate EndsAtFirstTag(tags: Tags, inside: bool, piece: string) {
    forall i :: 0 <= i < |piece| ==> !(tags.Awaited(inside) <= (piece + tags.Awaited(inside))[i..])
  }

  ghost predicate Splittable(tags: Tags, inside: bool, pieces: seq<string>)
    decreases |pieces|
  {
    |pieces| <= 1 || (EndsAtFirstTag(tags, inside, pieces[0]) && Splittable(tags, !inside, pieces[1..]))
  }

  /** The pieces account for all of `s`: its tags, its labelled characters, its mode and what is held. */
  ghost predicate Accounts(tags: Tags, inside: bool, s: string, pieces: seq<string>) {
    && pieces != []
    && Render(tags, inside, pieces) + Scan(tags, inside, s).held == s
    && LabelPieces(inside, pieces) == Scan(tags, inside, s).out
    && ModeAfter(inside, pieces) == Scan(tags, inside, s).inside
  }

  lemma ScanTagStart(tags: Tags, inside: bool, s: string)
    requires tags.Awaited(inside) <= s
    ensures Scan(tags, inside, s) == Scan(tags, !inside, s[|tags.Awaited(inside)|..])
  {}

  lemma AccountsAfterTag(tags: Tags, inside: bool, s: string, rest: seq<string>)
    requires tags.Awaited(inside) <= s && Accounts(tags, !inside, s[|tags.Awaited(inside)|..], rest)
    ensures Accounts(tags, inside, s, [""] + rest)
  {
    var tag := tags.Awaited(inside);
    ScanTagStart(tags, inside, s);
    PushEmptyPiece(tags, inside, rest);
    Associate(tag, Render(tags, !inside, rest), Scan(tags, inside, s).held);
    assert s == tag + s[|tag|..];
  }

  lemma AccountsAfterPlain(tags: Tags, inside: bool, s: string, rest: seq<string>)
    requires !(tags.Awaited(inside) <= s) && !(s <= tags.Awaited(inside)) && Accounts(tags, inside, s[1..], rest)
    ensures Accounts(tags, inside, s, GrowPiece(s[0], rest))
  {
    ScanPlainStart(tags, inside, s);
    GrowFirstPiece(tags, inside, s[0], rest);
    Associate([s[0]], Render(tags, inside, rest), Scan(tags, inside, s).held);
    assert s == [s[0]] + s[1..];
  }

  /** Nothing but tags is lost: the input is the emitted pieces, separated by alternating tags,
      followed by the held buffer. */
  lemma {:induction false} Lossless(tags: Tags, inside: bool, s: string) returns (pieces: seq<string>)
    ensures Accounts(tags, inside, s, pieces)
    decreases |s|
  {
    var tag := tags.Awaited(inside);
    if tag <= s {
      var rest := Lossless(tags, !inside, s[|tag|..]);
      pieces := [""] + rest;
      AccountsAfterTag(tags, inside, s, rest);
    } else if s <= tag {
      pieces := [""];
    } else {
      var rest := Lossless(tags, inside, s[1..]);
      pieces := GrowPiece(s[0], rest);
      AccountsAfterPlain(tags, inside, s, rest);
    }
  }

  lemma PushEmptyPiece(tags: Tags, inside: bool, rest: seq<string>)
    requires rest != []
    ensures Render(tags, inside, [""] + rest) == tags.Awaited(inside) + Render(tags, !inside, rest)
    ensures LabelPieces(inside, [""] + rest) == LabelPieces(!inside, rest)
    ensures ModeAfter(inside, [""] + rest) == ModeAfter(!inside, rest)
  {
    assert ([""] + rest)[1..] == rest;
  }

  function GrowPiece(c: char, pieces: seq<string>): seq<string>
    requires pieces != []
  {
    [[c] + pieces[0]] + pieces[1..]
  }

  lemma GrowRender(tags: Tags, inside: bool, c: char, rest: seq<string>)
    requires rest != []
    ensures Render(tags, inside, GrowPiece(c, rest)) == [c] + Render(tags, inside, rest)
  {
    var grown := GrowPiece(c, rest);
    assert grown[1..] == rest[1..];
    if |rest| > 1 {
      Associate([c] + rest[0], tags.Awaited(inside), Render(tags, !inside, rest[1..]));
      Associate([c], rest[0], tags.Awaited(inside) + Render(tags, !inside, rest[1..]));
      Associate(rest[0], tags.Awaited(inside), Render(tags, !inside, rest[1..]));
    }
  }

  lemma GrowLabel(c: char, s: string, inside: bool)
    ensures Label([c] + s, inside) == [Labelled(c, inside)] + Label(s, inside)
  {}

  lemma GrowLabels(inside: bool, c: char, rest: seq<string>)
    requires rest != []
    ensures LabelPieces(inside, GrowPiece(c, rest)) == [Labelled(c, inside)] + LabelPieces(inside, rest)
  {
    var grown := GrowPiece(c, rest);
    assert grown[1..] == rest[1..];
    GrowLabel(c, rest[0], inside);
    assert ([Labelled(c, inside)] + Label(rest[0], inside)) + LabelPieces(!inside, rest[1..])
        == [Labelled(c, inside)] + (Label(rest[0], inside) + LabelPieces(!inside, rest[1..]));
  }

  lemma GrowFirstPiece(tags: Tags, inside: bool, c: char, rest: seq<string>)
    requires rest != []
    ensures Render(tags, inside, GrowPiece(c, rest)) == [c] + Render(tags, inside, rest)
    ensures LabelPieces(inside, GrowPiece(c, rest)) == [Labelled(c, inside)] + LabelPieces(inside, rest)
    ensures ModeAfter(inside, GrowPiece(c, rest)) == ModeAfter(inside, rest)
  {
    GrowRender(tags, inside, c, rest);
    GrowLabels(inside, c, rest);
    assert GrowPiece(c, rest)[1..] == rest[1..];
  }

  /** Reading what was rendered gives the pieces back: the splitter inverts `Render` whenever each
      tag ends its piece, up to what the last, open piece still holds back. */
  lemma {:induction false} RoundTrip(tags: Tags, inside: bool, pieces: seq<string>)
    requires pieces != [] && Splittable(tags, inside, pieces)
    ensures Scan(tags, inside, Render(tags, inside, pieces))
         == Prepend(LabelPieces(inside, pieces[..|pieces| - 1]),
                    Scan(tags, ModeAfter(inside, pieces), pieces[|pieces| - 1]))
    decreases |pieces|
  {
    var last := |pieces| - 1;
    if last > 0 {
      var rest := pieces[1..];
      RoundTrip(tags, !inside, rest);
      FirstPiece(tags, inside, pieces[0], Render(tags, !inside, rest));
      assert rest[..last - 1] == pieces[..last][1..];
      PrependTwice(Label(pieces[0], inside), LabelPieces(!inside, rest[..last - 1]),
                   Scan(tags, ModeAfter(inside, pieces), pieces[last]));
    }
  }

  lemma FirstPiece(tags: Tags, inside: bool, piece: string, rest: string)
    requires EndsAtFirstTag(tags, inside, piece)
    ensures Scan(tags, inside, piece + tags.Awaited(inside) + rest)
         == Prepend(Label(piece, inside), Scan(tags, !inside, rest))
  {
    var tag := tags.Awaited(inside);
    var text := piece + tag + rest;
    forall i | 0 <= i < |piece|
      ensures !(tag <= text[i..])
    {
      assert text[i..] == (piece + tag)[i..] + rest;
    }
    assert text[|piece|..] == tag + rest;
    assert text[|piece| + |tag|..] == rest;
    assert text[..|piece|] == piece;
    ScanToTag(tags, inside, text, |piece|);
  }
}
