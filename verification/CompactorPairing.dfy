/** What the whole cascade of `compactor.py` does to the pairing of tool calls and results. */
module CompactorPairing {
  import opened Conversation
  import opened Compaction
  import opened MicroCompaction
  import opened Compactor

  /** Every call has a result and every result has its call. */
  ghost predicate Paired(ms: seq<Message>) {
    CalledIds(ms) == ResolvedIds(ms)
  }

  // ----- cutting a history -----

  /** Some round, read-only or not, starts before the cutoff and ends behind it. */
  ghost predicate SplitsRound(ms: seq<Message>, cutoff: nat) {
    exists i: nat :: i < cutoff && i < |ms| && HasCalls(ms[i]) && cutoff < RoundEnd(ms, i)
  }

  lemma CalledFrom(ms: seq<Message>, cutoff: nat, id: string)
    requires cutoff <= |ms|
    ensures id in CalledIds(ms[cutoff..])
       <==> exists k :: cutoff <= k < |ms| && ms[k].role.Assistant? && id in CallIds(ms[k])
  {
    if id in CalledIds(ms[cutoff..]) {
      var m, b :| m in ms[cutoff..] && b in m.content && Calls(m, b) && b.id == id;
      var j :| 0 <= j < |ms[cutoff..]| && ms[cutoff..][j] == m;
      assert ms[cutoff + j] == m && id in CallIds(m);
    }
    if k :| cutoff <= k < |ms| && ms[k].role.Assistant? && id in CallIds(ms[k]) {
      var b :| b in ms[k].content && b.ToolUse? && b.id == id;
      assert ms[cutoff..][k - cutoff] == ms[k];
      assert Calls(ms[k], b);
    }
  }

  lemma ResolvedFrom(ms: seq<Message>, cutoff: nat, id: string)
    requires cutoff <= |ms|
    ensures id in ResolvedIds(ms[cutoff..])
       <==> exists k :: cutoff <= k < |ms| && ms[k].role.Tool? && id in ResultIds(ms[k])
  {
    if id in ResolvedIds(ms[cutoff..]) {
      var m, b :| m in ms[cutoff..] && b in m.content && Answers(m, b) && b.id == id;
      var j :| 0 <= j < |ms[cutoff..]| && ms[cutoff..][j] == m;
      assert ms[cutoff + j] == m && id in ResultIds(m);
    }
    if k :| cutoff <= k < |ms| && ms[k].role.Tool? && id in ResultIds(ms[k]) {
      var b :| b in ms[k].content && b.ToolResult? && b.id == id;
      assert ms[cutoff..][k - cutoff] == ms[k];
      assert Answers(ms[k], b);
    }
  }

  lemma CalledStays(ms: seq<Message>, cutoff: nat, id: string)
    requires WellFormed(ms) && cutoff <= |ms| && id in CalledIds(ms[cutoff..])
    ensures id in ResolvedIds(ms[cutoff..])
  {
    CalledFrom(ms, cutoff, id);
    ResolvedFrom(ms, cutoff, id);
    var i :| cutoff <= i < |ms| && ms[i].role.Assistant? && id in CallIds(ms[i]);
    IdHasCall(ms[i], id);
    var k := AnswerOf(ms, i, id);
  }

  lemma ResolvedStays(ms: seq<Message>, cutoff: nat, id: string)
    requires WellFormed(ms) && cutoff <= |ms| && !SplitsRound(ms, cutoff) && id in ResolvedIds(ms[cutoff..])
    ensures id in CalledIds(ms[cutoff..])
  {
    CalledFrom(ms, cutoff, id);
    ResolvedFrom(ms, cutoff, id);
    var k :| cutoff <= k < |ms| && ms[k].role.Tool? && id in ResultIds(ms[k]);
    var i := RoundOf(ms, k);
  }

  lemma CalledOnce(ms: seq<Message>, i: nat, cutoff: nat, id: string)
    requires WellFormed(ms) && i < cutoff <= |ms| && HasCalls(ms[i]) && id in CallIds(ms[i])
    ensures id !in CalledIds(ms[cutoff..])
  {
    CalledFrom(ms, cutoff, id);
    if k :| cutoff <= k < |ms| && ms[k].role.Assistant? && id in CallIds(ms[k]) {
      OnlyCall(ms, i, k, id);
    }
  }

  lemma CutRound(ms: seq<Message>, i: nat, cutoff: nat) returns (id: string)
    requires i < cutoff && i < |ms| && HasCalls(ms[i]) && cutoff < RoundEnd(ms, i) && AnswersOnly(ms, i)
    ensures id in ResultIds(ms[cutoff]) && id in CallIds(ms[i]) && ms[cutoff].role.Tool?
  {
    id :| id in ResultIds(ms[cutoff]);
  }

  lemma SplitBreaks(ms: seq<Message>, cutoff: nat) returns (id: string)
    requires WellFormed(ms) && SplitsRound(ms, cutoff)
    ensures cutoff <= |ms| && id in ResolvedIds(ms[cutoff..]) && id !in CalledIds(ms[cutoff..])
  {
    var i: nat :| i < cutoff && i < |ms| && HasCalls(ms[i]) && cutoff < RoundEnd(ms, i);
    id := CutRound(ms, i, cutoff);
    ResolvedFrom(ms, cutoff, id);
    CalledOnce(ms, i, cutoff, id);
  }

  /** The rest of a history of complete rounds is paired exactly if no round is cut through. */
  lemma SuffixPairedIff(ms: seq<Message>, cutoff: nat)
    requires WellFormed(ms) && cutoff <= |ms|
    ensures Paired(ms[cutoff..]) <==> !SplitsRound(ms, cutoff)
  {
    if SplitsRound(ms, cutoff) {
      var id := SplitBreaks(ms, cutoff);
    } else {
      forall id | id in CalledIds(ms[cutoff..])
        ensures id in ResolvedIds(ms[cutoff..])
      {
        CalledStays(ms, cutoff, id);
      }
      forall id | id in ResolvedIds(ms[cutoff..])
        ensures id in CalledIds(ms[cutoff..])
      {
        ResolvedStays(ms, cutoff, id);
      }
    }
  }

  lemma WellFormedIsPaired(ms: seq<Message>)
    requires WellFormed(ms)
    ensures Paired(ms)
  {
    SuffixPairedIff(ms, 0);
    assert ms[0..] == ms;
  }

  // ----- summarising -----

  lemma TextHasNoIds(front: seq<Message>, tail: seq<Message>)
    requires forall m, b :: m in front && b in m.content ==> b.Text?
    ensures CalledIds(front + tail) == CalledIds(tail) && ResolvedIds(front + tail) == ResolvedIds(tail)
  {
    forall id
      ensures id in CalledIds(front + tail) <==> id in CalledIds(tail)
    {
      if id in CalledIds(front + tail) {
        var m, b :| m in front + tail && b in m.content && Calls(m, b) && b.id == id;
        assert m in front ==> b.Text?;
        assert m in front || m in tail;
      }
      if id in CalledIds(tail) {
        var m, b :| m in tail && b in m.content && Calls(m, b) && b.id == id;
        assert m in front + tail;
      }
    }
    forall id
      ensures id in ResolvedIds(front + tail) <==> id in ResolvedIds(tail)
    {
      if id in ResolvedIds(front + tail) {
        var m, b :| m in front + tail && b in m.content && Answers(m, b) && b.id == id;
        assert m in front ==> b.Text?;
        assert m in front || m in tail;
      }
      if id in ResolvedIds(tail) {
        var m, b :| m in tail && b in m.content && Answers(m, b) && b.id == id;
        assert m in front + tail;
      }
    }
  }

  lemma SummaryIsText(u: Setup, summary: string, kept: seq<Message>)
    ensures CalledIds(PostCompact(u, summary, kept)) == CalledIds(kept)
    ensures ResolvedIds(PostCompact(u, summary, kept)) == ResolvedIds(kept)
  {
    TextHasNoIds([UserMessage(u.before + summary + u.after), AssistantText(u.ack)], kept);
  }

  lemma TailIsSuffix(ms: seq<Message>)
    ensures Tail(ms) == ms[Cutoff(ms, MIN_MESSAGES_TO_KEEP)..]
  {}

  /** A summarised history of complete rounds is paired exactly if no round is cut through by the
      protected tail. */
  lemma SummaryPairedIff(u: Setup, s: State, z: Summarizer)
    requires WellFormed(s.messages) && Replaces(s, z)
    ensures Paired(Summarized(u, s, z).messages) <==> !SplitsRound(s.messages, Cutoff(s.messages, MIN_MESSAGES_TO_KEEP))
  {
    TailSummaryPairedIff(u, s, z, s.messages);
  }

  /** What counts is the tail, which the layers before have not touched. */
  lemma TailSummaryPairedIff(u: Setup, s: State, z: Summarizer, ms: seq<Message>)
    requires WellFormed(ms) && Tail(ms) == Tail(s.messages) && Replaces(s, z)
    ensures Paired(Summarized(u, s, z).messages) <==> !SplitsRound(ms, Cutoff(ms, MIN_MESSAGES_TO_KEEP))
  {
    TailIsSuffix(ms);
    SuffixPairedIff(ms, Cutoff(ms, MIN_MESSAGES_TO_KEEP));
    SummaryIsText(u, FullSummary(z), Tail(s.messages));
  }

  // ----- snipping keeps the rounds -----

  /** The same roles, calls and result ids, message by message. */
  ghost predicate SameIds(a: seq<Message>, b: seq<Message>) {
    && |a| == |b|
    && forall i :: 0 <= i < |a| ==>
         && a[i].role == b[i].role && CallIds(a[i]) == CallIds(b[i]) && ResultIds(a[i]) == ResultIds(b[i])
         && HasCalls(a[i]) == HasCalls(b[i])
  }

  lemma SameContent(a: Message, b: Message)
    requires a.role == b.role && |a.content| == |b.content|
    requires forall j :: 0 <= j < |a.content| ==> SameKind(a.content[j], b.content[j])
    ensures forall x :: x in a.content && x.ToolUse? ==> x in b.content
    ensures ResultIds(a) <= ResultIds(b)
  {
    forall x | x in a.content && x.ToolUse?
      ensures x in b.content
    {
      var j :| 0 <= j < |a.content| && a.content[j] == x;
      assert b.content[j] == x;
    }
    forall id | id in ResultIds(a)
      ensures id in ResultIds(b)
    {
      var x :| x in a.content && x.ToolResult? && x.id == id;
      var j :| 0 <= j < |a.content| && a.content[j] == x;
      assert b.content[j].ToolResult? && b.content[j].id == id;
    }
  }

  lemma SameMessage(r: Rules, a: Message, b: Message)
    requires a.role == b.role && |a.content| == |b.content|
    requires forall j :: 0 <= j < |a.content| ==> SameKind(a.content[j], b.content[j])
    ensures CallIds(a) == CallIds(b) && ResultIds(a) == ResultIds(b) && HasCalls(a) == HasCalls(b)
    ensures ReadOnlyCall(r, a) == ReadOnlyCall(r, b)
  {
    SameContent(a, b);
    assert forall j :: 0 <= j < |b.content| ==> SameKind(b.content[j], a.content[j]);
    SameContent(b, a);
  }

  lemma ShapeKeepsIds(r: Rules, a: seq<Message>, b: seq<Message>)
    requires SameShape(a, b)
    ensures SameIds(a, b) && forall i :: 0 <= i < |a| ==> ReadOnlyCall(r, a[i]) == ReadOnlyCall(r, b[i])
  {
    forall i | 0 <= i < |a|
      ensures a[i].role == b[i].role && CallIds(a[i]) == CallIds(b[i]) && ResultIds(a[i]) == ResultIds(b[i])
      ensures HasCalls(a[i]) == HasCalls(b[i]) && ReadOnlyCall(r, a[i]) == ReadOnlyCall(r, b[i])
    {
      SameMessage(r, a[i], b[i]);
    }
  }

  lemma {:induction false} SameRoundEnd(a: seq<Message>, b: seq<Message>, i: nat)
    requires SameIds(a, b) && i < |a|
    ensures RoundEnd(a, i) == RoundEnd(b, i)
    decreases |a| - i
  {
    if i + 1 < |a| && a[i + 1].role.Tool? {
      SameRoundEnd(a, b, i + 1);
    }
  }

  lemma SameRounds(a: seq<Message>, b: seq<Message>)
    requires SameIds(a, b)
    ensures forall i :: 0 <= i < |a| ==> RoundEnd(a, i) == RoundEnd(b, i)
  {
    forall i | 0 <= i < |a|
      ensures RoundEnd(a, i) == RoundEnd(b, i)
    {
      SameRoundEnd(a, b, i);
    }
  }

  lemma SameInRound(a: seq<Message>, b: seq<Message>, i: nat, k: nat)
    requires SameIds(a, b) && InRound(a, i, k)
    ensures InRound(b, i, k)
  {
    SameRoundEnd(a, b, i);
  }

  lemma SameAnswersOnly(a: seq<Message>, b: seq<Message>, i: nat)
    requires SameIds(a, b) && i < |a| && AnswersOnly(a, i)
    ensures AnswersOnly(b, i)
  {
    SameRoundEnd(a, b, i);
  }

  lemma SameAnswersAll(a: seq<Message>, b: seq<Message>, i: nat)
    requires SameIds(a, b) && i < |a| && AnswersAll(a, i)
    ensures AnswersAll(b, i)
  {
    forall id | id in CallIds(b[i])
      ensures exists k: nat :: InRound(b, i, k) && id in ResultIds(b[k])
    {
      var k := AnswerOf(a, i, id);
      SameInRound(a, b, i, k);
    }
  }

  lemma SameRoundOf(a: seq<Message>, b: seq<Message>, k: nat)
    requires SameIds(a, b) && WellFormed(a) && k < |b| && b[k].role.Tool?
    ensures exists i: nat :: InRound(b, i, k)
  {
    var i := RoundOf(a, k);
    SameInRound(a, b, i, k);
  }

  lemma AnswersOf(a: seq<Message>, i: nat)
    requires WellFormed(a) && i < |a| && HasCalls(a[i])
    ensures AnswersOnly(a, i) && AnswersAll(a, i)
  {}

  lemma SameDisjoint(a: seq<Message>, b: seq<Message>, i: nat, j: nat)
    requires SameIds(a, b) && WellFormed(a) && i < j < |b| && HasCalls(b[i]) && HasCalls(b[j])
    ensures CallIds(b[i]) !! CallIds(b[j])
  {}

  lemma SameWellFormed(a: seq<Message>, b: seq<Message>)
    requires SameIds(a, b) && WellFormed(a)
    ensures WellFormed(b)
  {
    forall i | 0 <= i < |b| && HasCalls(b[i])
      ensures AnswersOnly(b, i) && AnswersAll(b, i)
    {
      AnswersOf(a, i);
      SameAnswersOnly(a, b, i);
      SameAnswersAll(a, b, i);
    }
    forall k | 0 <= k < |b| && b[k].role.Tool?
      ensures exists i: nat :: InRound(b, i, k)
    {
      SameRoundOf(a, b, k);
    }
    forall i, j | 0 <= i < j < |b| && HasCalls(b[i]) && HasCalls(b[j])
      ensures CallIds(b[i]) !! CallIds(b[j])
    {
      SameDisjoint(a, b, i, j);
    }
  }

  lemma SameStraddles(r: Rules, a: seq<Message>, b: seq<Message>, cutoff: nat)
    requires SameIds(a, b) && forall i :: 0 <= i < |a| ==> ReadOnlyCall(r, a[i]) == ReadOnlyCall(r, b[i])
    ensures Straddles(r, a, cutoff) <==> Straddles(r, b, cutoff)
  {
    SameRounds(a, b);
    if i: nat :| i < cutoff && i < |a| && ReadOnlyCall(r, a[i]) && cutoff < RoundEnd(a, i) {
      assert ReadOnlyCall(r, b[i]) && cutoff < RoundEnd(b, i);
    }
    if i: nat :| i < cutoff && i < |b| && ReadOnlyCall(r, b[i]) && cutoff < RoundEnd(b, i) {
      assert ReadOnlyCall(r, a[i]) && cutoff < RoundEnd(a, i);
    }
  }

  lemma SnippedRounds(r: Rules, s: State, s1: State, freed: nat, cutoff: nat)
    requires SnipLayer(r, s, s1, freed) && WellFormed(s.messages)
    ensures |s1.messages| == |s.messages| && WellFormed(s1.messages)
    ensures Straddles(r, s1.messages, cutoff) <==> Straddles(r, s.messages, cutoff)
  {
    var ms :| Snipped(r, s.messages, Cutoff(s.messages, MIN_MESSAGES_TO_KEEP), ms)
      && freed == TotalChars(r, s.messages) - TotalChars(r, ms)
      && s1 == if freed > 0 then s.(messages := ms, tokens := Minus(TokenCount(r, s), freed / 3)) else s;
    SnipShape(r, s.messages, Cutoff(s.messages, MIN_MESSAGES_TO_KEEP), ms);
    ShapeKeepsIds(r, s.messages, ms);
    SameWellFormed(s.messages, ms);
    SameStraddles(r, s.messages, ms, cutoff);
  }

  // ----- the whole cascade -----

  lemma MicroPairedIff(r: Rules, s: State, s2: State, freed: nat)
    requires MicroLayer(r, s, s2, freed) && WellFormed(s.messages)
    ensures Paired(s2.messages) <==> freed == 0 || !Straddles(r, s.messages, Cutoff(s.messages, MIN_MESSAGES_TO_KEEP))
  {
    var cutoff := Cutoff(s.messages, MIN_MESSAGES_TO_KEEP);
    var ms :| Compacted(s.messages, RemovedSet(r, s.messages, cutoff), ms)
      && freed == SumChars(r, s.messages, RemovedSet(r, s.messages, cutoff), |s.messages|)
      && s2 == if freed > 0 then s.(messages := ms, tokens := Minus(s.tokens, freed / 3)) else s;
    if freed == 0 {
      WellFormedIsPaired(s.messages);
    } else {
      PairingPreservedIff(r, s.messages, cutoff, ms);
    }
  }

  /** On a history of complete rounds the cascade leaves calls and results paired exactly if what it
      did last cuts through no round: layer 1 never does; layer 2 does if a read-only round straddles
      the protected tail; and a summary does if any round does. */
  lemma CascadePairedIff(u: Setup, z: Summarizer, s: State, s': State, s1: State, freed1: nat, s2: State, freed2: nat)
    requires Cascade(u, z, s, s', s1, freed1, s2, freed2) && WellFormed(s.messages)
    ensures var cutoff := Cutoff(s.messages, MIN_MESSAGES_TO_KEEP);
            Paired(s'.messages) <==>
              if Enough(u.window, s1, freed1) then true
              else if !Enough(u.window, s2, freed2) && Replaces(s2, z) then !SplitsRound(s.messages, cutoff)
              else freed2 == 0 || !Straddles(u.rules, s.messages, cutoff)
  {
    var cutoff := Cutoff(s.messages, MIN_MESSAGES_TO_KEEP);
    SnippedRounds(u.rules, s, s1, freed1, cutoff);
    if Enough(u.window, s1, freed1) {
      WellFormedIsPaired(s1.messages);
    } else {
      MicroPairedIff(u.rules, s1, s2, freed2);
      SnipKeepsTail(u.rules, s, s1, freed1);
      MicroKeepsTail(u.rules, s1, s2, freed2);
      if !Enough(u.window, s2, freed2) && Replaces(s2, z) {
        TailSummaryPairedIff(u, s2, z, s.messages);
      }
    }
  }

  /** In particular an automatic compaction keeps the pairing, whichever layers fire, if no round
      straddles the protected tail. */
  lemma AutoKeepsPairing(u: Setup, z: Summarizer, s: State, s': State)
    requires Auto(u, z, s, s') && WellFormed(s.messages)
    requires !SplitsRound(s.messages, Cutoff(s.messages, MIN_MESSAGES_TO_KEEP))
    ensures Paired(s'.messages)
  {
    if ShouldAutoCompact(TokenCount(u.rules, s), u.window, s.disabled) {
      var s1, freed1, s2, freed2 :| Cascade(u, z, s, s', s1, freed1, s2, freed2);
      CascadePairedIff(u, z, s, s', s1, freed1, s2, freed2);
    } else {
      WellFormedIsPaired(s.messages);
    }
  }

  // ----- two histories -----

  /** A search and its result, with three messages behind them. */
  function Searched(output: string, last: string): seq<Message> {
    [Message(Assistant, [ToolUse("a", "grep", "{}")]), ToolResultMessage("a", output, false, []),
     AssistantText("found"), UserMessage("thanks"), UserMessage(last)]
  }

  lemma SearchedRound(output: string, last: string)
    ensures var ms := Searched(output, last); HasCalls(ms[0]) && CallIds(ms[0]) == {"a"} && ResultIds(ms[1]) == {"a"}
    ensures var ms := Searched(output, last); RoundEnd(ms, 0) == 2 && InRound(ms, 0, 1)
  {
    var ms := Searched(output, last);
    assert ms[0].content[0].ToolUse? && ms[0].content[0] in ms[0].content;
    assert ms[1].content[0].ToolResult? && ms[1].content[0] in ms[1].content;
  }

  lemma SearchedIsWellFormed(output: string, last: string)
    ensures WellFormed(Searched(output, last))
  {
    var ms := Searched(output, last);
    SearchedRound(output, last);
    assert forall i :: 0 < i < |ms| ==> !HasCalls(ms[i]);
    assert forall i :: 0 <= i < |ms| && i != 1 ==> !ms[i].role.Tool?;
  }

  lemma SearchIsReadOnly(r: Rules, output: string, last: string)
    requires "grep" in r.readOnly
    ensures ReadOnlyCall(r, Searched(output, last)[0])
  {
    SearchedRound(output, last);
  }

  /** The protected tail of four cuts through this round: layer 2 removes the call and keeps the
      result. */
  lemma SearchStraddles(r: Rules, output: string, last: string, result: seq<Message>)
    requires "grep" in r.readOnly
    requires var ms := Searched(output, last);
             Compacted(ms, RemovedSet(r, ms, Cutoff(ms, MIN_MESSAGES_TO_KEEP)), result)
    ensures var ms := Searched(output, last); WellFormed(ms) && Straddles(r, ms, Cutoff(ms, MIN_MESSAGES_TO_KEEP))
    ensures !Paired(result)
  {
    var ms := Searched(output, last);
    SearchedRound(output, last);
    SearchIsReadOnly(r, output, last);
    SearchedIsWellFormed(output, last);
    PairingPreservedIff(r, ms, 1, result);
  }

  /** The same with one message more, so that the round lies before the protected tail. */
  function Finished(output: string, last: string): seq<Message> {
    Searched(output, "more") + [UserMessage(last)]
  }

  lemma ResultIsRemoved(r: Rules, output: string, last: string)
    requires "grep" in r.readOnly
    ensures 1 in RemovedSet(r, Finished(output, last), 2)
  {
    var ms := Finished(output, last);
    SearchedRound(output, "more");
    SearchIsReadOnly(r, output, "more");
    assert ms[0] == Searched(output, "more")[0] && ms[1] == Searched(output, "more")[1];
    assert "a" in ResultIds(ms[1]) * CallIds(ms[0]);
    assert RunFrom(ms, 0, 1);
  }

  lemma {:induction false} SumAtLeast(r: Rules, ms: seq<Message>, at: set<nat>, k: nat, n: nat)
    requires k < n <= |ms| && k in at
    ensures SumChars(r, ms, at, n) >= Chars(r, ms[k].content)
  {
    if k < n - 1 {
      SumAtLeast(r, ms, at, k, n - 1);
    }
  }

  ghost predicate IsShort(b: Block) {
    b.ToolResult? ==> |b.output| <= 100
  }

  lemma ShortMessageStays(r: Rules, names: map<string, string>, m: Message)
    requires forall b :: b in m.content ==> IsShort(b)
    ensures SnipMessage(r, names, m) == m
  {
    forall j | 0 <= j < |m.content|
      ensures SnipContent(r, names, m.content)[j] == m.content[j]
    {
      assert IsShort(m.content[j]);
    }
    assert SnipContent(r, names, m.content) == m.content;
  }

  lemma ShortStays(r: Rules, ms: seq<Message>, cutoff: nat, result: seq<Message>)
    requires Snipped(r, ms, cutoff, result) && forall m, b :: m in ms && b in m.content ==> IsShort(b)
    ensures result == ms
  {
    forall i | 0 <= i < |ms|
      ensures result[i] == ms[i]
    {
      assert ms[i] in ms;
      ShortMessageStays(r, ToolNames(ms), ms[i]);
    }
  }

  lemma NothingSnipped(r: Rules, s: State, s1: State, freed: nat)
    requires SnipLayer(r, s, s1, freed) && forall m, b :: m in s.messages && b in m.content ==> IsShort(b)
    ensures freed == 0 && s1 == s
  {
    var ms :| Snipped(r, s.messages, Cutoff(s.messages, MIN_MESSAGES_TO_KEEP), ms)
      && freed == TotalChars(r, s.messages) - TotalChars(r, ms)
      && s1 == if freed > 0 then s.(messages := ms, tokens := Minus(TokenCount(r, s), freed / 3)) else s;
    ShortStays(r, s.messages, Cutoff(s.messages, MIN_MESSAGES_TO_KEEP), ms);
  }

  lemma RoundIsFreed(r: Rules, output: string, last: string, s: State, s2: State, freed: nat)
    requires "grep" in r.readOnly && s.messages == Finished(output, last) && output != "" && MicroLayer(r, s, s2, freed)
    ensures freed > 0
  {
    ResultIsRemoved(r, output, last);
    SumAtLeast(r, s.messages, RemovedSet(r, s.messages, 2), 1, |s.messages|);
    var content := s.messages[1].content;
    assert content == [ToolResult("a", output, false, [])];
    assert content[..0] == [];
  }

  lemma LongText(r: Rules, ms: seq<Message>, last: string)
    requires ms != [] && ms[|ms| - 1] == UserMessage(last)
    ensures AllDumpChars(r, ms) >= |last|
  {
    var content := ms[|ms| - 1].content;
    assert content[..0] == [];
  }

  lemma LastStays(ms: seq<Message>, result: seq<Message>)
    requires ms != [] && Tail(result) == Tail(ms)
    ensures result != [] && result[|result| - 1] == ms[|ms| - 1]
  {
    assert Tail(ms)[|Tail(ms)| - 1] == ms[|ms| - 1];
    assert result != [] ==> Tail(result)[|Tail(result)| - 1] == result[|result| - 1];
  }

  /** With no count reported yet and nothing to snip, removing this one short round ends the cascade,
      although what is left is still estimated above the threshold. */
  lemma EstimateStopsTooEarly(u: Setup, z: Summarizer, output: string, last: string, s: State, s': State,
                              s1: State, freed1: nat, s2: State, freed2: nat)
    requires "grep" in u.rules.readOnly && u.window - AUTOCOMPACT_BUFFER_TOKENS > 0
    requires 0 < |output| <= 100 && |last| >= 3 * (u.window - AUTOCOMPACT_BUFFER_TOKENS)
    requires s == State(Finished(output, last), 0, false, 0) && Cascade(u, z, s, s', s1, freed1, s2, freed2)
    ensures ShouldAutoCompact(TokenCount(u.rules, s), u.window, s.disabled)
    ensures s' == s2 && s'.tokens == 0
    ensures ShouldAutoCompact(TokenCount(u.rules, s'), u.window, s'.disabled)
  {
    NothingSnipped(u.rules, s, s1, freed1);
    RoundIsFreed(u.rules, output, last, s, s2, freed2);
    StopAfterLayerTwo(u, s, s1, freed1, s2, freed2);
    LongText(u.rules, s.messages, last);
    MicroKeepsTail(u.rules, s1, s2, freed2);
    LastStays(s.messages, s2.messages);
    LongText(u.rules, s2.messages, last);
  }
}
