/** The three-layer cascade of `compactor.py`, with its circuit breaker. */
module Compactor {
  import opened Wrappers
  import opened Conversation
  import opened Compaction
  import opened MicroCompaction

  const AUTOCOMPACT_BUFFER_TOKENS := 13000
  const MIN_MESSAGES_TO_KEEP := 4
  const MAX_CONSECUTIVE_FAILURES := 3

  /** What a session's compaction works on: the history, the breaker and the tracked token count. */
  datatype State = State(messages: seq<Message>, failures: nat, disabled: bool, tokens: nat)

  /** What a compactor is set up with: the layers' rules, the context window, and the fixed wording
      around a summary and behind it. */
  datatype Setup = Setup(rules: Rules, window: int, before: string, after: string, ack: string)

  const READ_ONLY_TOOLS := {"file_read", "glob", "grep", "web_fetch", "web_search"}

  /** The wording and the tool sets the program uses. */
  function DefaultSetup(window: int, dump: Block -> nat): Setup {
    Setup(Rules(READ_ONLY_TOOLS, READ_ONLY_TOOLS, dump), window,
          "[Previous conversation summary]\n\n",
          "\n\n(The conversation above has been compressed. This is a summary of the earlier context.)",
          "Understood. I have the context from the previous conversation. Please continue.")
  }

  /** What the environment contributes to one summarisation: the model's stripped answer, or none if
      the call failed; the memory suffix; and whether the boundary could be persisted. */
  datatype Summarizer = Summarizer(answered: bool, summary: string, suffix: string, persisted: bool)

  function DumpChars(r: Rules, content: seq<Block>): nat {
    if content == [] then 0
    else
      var b := content[|content| - 1];
      DumpChars(r, content[..|content| - 1]) + if b.Text? then |b.text| else r.dump(b)
  }

  function AllDumpChars(r: Rules, ms: seq<Message>): nat {
    if ms == [] then 0 else AllDumpChars(r, ms[..|ms| - 1]) + DumpChars(r, ms[|ms| - 1].content)
  }

  /** Rough size of a history in tokens: characters divided by three. */
  method EstimateTokens(r: Rules, ms: seq<Message>) returns (tokens: nat)
    ensures tokens == AllDumpChars(r, ms) / 3
  {
    var total := 0;
    for i := 0 to |ms|
      invariant total == AllDumpChars(r, ms[..i])
    {
      assert ms[..i + 1][..i] == ms[..i];
      ghost var before := total;
      var content := ms[i].content;
      for j := 0 to |content|
        invariant total == before + DumpChars(r, content[..j])
      {
        assert content[..j + 1][..j] == content[..j];
        total := total + if content[j].Text? then |content[j].text| else r.dump(content[j]);
      }
      assert content[..|content|] == content;
    }
    assert ms[..|ms|] == ms;
    return total / 3;
  }

  predicate ShouldAutoCompact(tokens: int, window: int, disabled: bool) {
    !disabled && tokens >= window - AUTOCOMPACT_BUFFER_TOKENS
  }

  function Minus(a: nat, b: nat): nat {
    if a < b then 0 else a - b
  }

  /** The part of a history that compaction must not touch. */
  function Tail(ms: seq<Message>): seq<Message> {
    if |ms| <= MIN_MESSAGES_TO_KEEP then ms else ms[|ms| - MIN_MESSAGES_TO_KEEP..]
  }

  function PostCompact(u: Setup, summary: string, kept: seq<Message>): seq<Message> {
    [UserMessage(u.before + summary + u.after), AssistantText(u.ack)] + kept
  }

  function FullSummary(z: Summarizer): string {
    if z.suffix != "" then z.summary + "\n\n" + z.suffix else z.summary
  }

  // ----- layer 3 and the two manual entry points -----

  /** Summarising replaces everything before the tail.  It fails on a short history, on a failed or
      empty answer, and, after the replacement, when the boundary cannot be persisted. */
  predicate Replaces(s: State, z: Summarizer) {
    |s.messages| > MIN_MESSAGES_TO_KEEP && z.answered && z.summary != ""
  }

  predicate Succeeds(s: State, z: Summarizer) {
    Replaces(s, z) && z.persisted
  }

  function Summarized(u: Setup, s: State, z: Summarizer): State {
    if Replaces(s, z) then
      s.(messages := PostCompact(u, FullSummary(z), Tail(s.messages)), tokens := 0)
    else s
  }

  function CountFailure(s: State): State {
    s.(failures := s.failures + 1, disabled := s.disabled || s.failures + 1 >= MAX_CONSECUTIVE_FAILURES)
  }

  function FullLayer(u: Setup, s: State, z: Summarizer): State {
    if Succeeds(s, z) then Summarized(u, s, z).(failures := 0) else CountFailure(Summarized(u, s, z))
  }

  function Reactive(u: Setup, s: State, z: Summarizer): State {
    if |s.messages| < MIN_MESSAGES_TO_KEEP + 1 then s
    else if Succeeds(s, z) then Summarized(u, s, z).(failures := 0)
    else Summarized(u, s, z)
  }

  function Forced(u: Setup, s: State, z: Summarizer): State {
    if |s.messages| < MIN_MESSAGES_TO_KEEP + 1 then s else Summarized(u, s, z)
  }

  // ----- the cascade -----

  function TokenCount(r: Rules, s: State): nat {
    if s.tokens > 0 then s.tokens else AllDumpChars(r, s.messages) / 3
  }

  /** Layer 1 freed `freed` characters on the way from `s` to `s1`. */
  ghost predicate SnipLayer(r: Rules, s: State, s1: State, freed: nat) {
    exists ms :: Snipped(r, s.messages, Cutoff(s.messages, MIN_MESSAGES_TO_KEEP), ms)
      && freed == TotalChars(r, s.messages) - TotalChars(r, ms)
      && s1 == if freed > 0 then s.(messages := ms, tokens := Minus(TokenCount(r, s), freed / 3)) else s
  }

  /** Layer 2 freed `freed` characters on the way from `s` to `s2`. */
  ghost predicate MicroLayer(r: Rules, s: State, s2: State, freed: nat) {
    exists ms :: Compacted(s.messages, RemovedSet(r, s.messages, Cutoff(s.messages, MIN_MESSAGES_TO_KEEP)), ms)
      && freed == SumChars(r, s.messages, RemovedSet(r, s.messages, Cutoff(s.messages, MIN_MESSAGES_TO_KEEP)),
                           |s.messages|)
      && s2 == if freed > 0 then s.(messages := ms, tokens := Minus(s.tokens, freed / 3)) else s
  }

  /** A layer that freed something and brought the tracked count under the threshold ends the run. */
  predicate Enough(window: int, s: State, freed: nat) {
    freed > 0 && !ShouldAutoCompact(s.tokens, window, s.disabled)
  }

  /** One run of the cascade through the intermediate states `s1` and `s2`. */
  ghost predicate Cascade(u: Setup, z: Summarizer, s: State, s': State,
                          s1: State, freed1: nat, s2: State, freed2: nat) {
    && SnipLayer(u.rules, s, s1, freed1)
    && if Enough(u.window, s1, freed1) then s' == s1
       else
         && MicroLayer(u.rules, s1, s2, freed2)
         && s' == if Enough(u.window, s2, freed2) then s2 else FullLayer(u, s2, z)
  }

  ghost predicate Auto(u: Setup, z: Summarizer, s: State, s': State) {
    if !ShouldAutoCompact(TokenCount(u.rules, s), u.window, s.disabled) then s' == s
    else exists s1, freed1, s2, freed2 :: Cascade(u, z, s, s', s1, freed1, s2, freed2)
  }

  class Compactor {
    const setup: Setup
    var failures: nat
    var disabled: bool
    var tokens: nat

    constructor (setup: Setup)
      ensures this.setup == setup
      ensures failures == 0 && !disabled && tokens == 0
    {
      this.setup := setup;
      failures, disabled, tokens := 0, false, 0;
    }

    function View(c: Conversation): State
      reads this, c
    {
      State(c.messages, failures, disabled, tokens)
    }

    /** Summarise the old messages and replace them; `ok` is false when `_run` raises. */
    method Run(c: Conversation, z: Summarizer) returns (ok: bool)
      modifies c, this`tokens
      ensures View(c) == Summarized(setup, old(View(c)), z)
      ensures ok == Succeeds(old(View(c)), z)
    {
      var ms := c.messages;
      if |ms| <= MIN_MESSAGES_TO_KEEP || !z.answered || z.summary == "" {
        return false;
      }
      c.messages := PostCompact(setup, FullSummary(z), Tail(ms));
      tokens := 0;
      return z.persisted;
    }

    method SnipOld(c: Conversation, count: nat) returns (freed: nat)
      requires count == TokenCount(setup.rules, View(c))
      modifies c, this`tokens
      ensures SnipLayer(setup.rules, old(View(c)), View(c), freed)
    {
      var snipped;
      snipped, freed := SnipToolResults(setup.rules, c.messages, MIN_MESSAGES_TO_KEEP);
      if freed > 0 {
        c.messages := snipped;
        tokens := Minus(count, freed / 3);
      }
    }

    method RemoveReadOnlyRounds(c: Conversation) returns (freed: nat)
      modifies c, this`tokens
      ensures MicroLayer(setup.rules, old(View(c)), View(c), freed)
    {
      var compacted;
      compacted, freed := MicroCompact(setup.rules, c.messages, MIN_MESSAGES_TO_KEEP);
      if freed > 0 {
        c.messages := compacted;
        tokens := Minus(tokens, freed / 3);
      }
    }

    method Summarize(c: Conversation, z: Summarizer)
      modifies this, c
      ensures View(c) == FullLayer(setup, old(View(c)), z)
    {
      var ok := Run(c, z);
      if ok {
        failures := 0;
      } else {
        failures := failures + 1;
        if failures >= MAX_CONSECUTIVE_FAILURES {
          disabled := true;
        }
      }
    }

    method CompactIfNeeded(c: Conversation, z: Summarizer)
      modifies this, c
      ensures Auto(setup, z, old(View(c)), View(c))
    {
      var count := tokens;
      if tokens == 0 {
        count := EstimateTokens(setup.rules, c.messages);
      }
      if !ShouldAutoCompact(count, setup.window, disabled) {
        return;
      }
      ghost var s := View(c);
      var freed1 := SnipOld(c, count);
      ghost var s1 := View(c);
      if freed1 > 0 && !ShouldAutoCompact(tokens, setup.window, disabled) {
        assert Cascade(setup, z, s, s1, s1, freed1, s1, 0);
        return;
      }
      var freed2 := RemoveReadOnlyRounds(c);
      ghost var s2 := View(c);
      if freed2 > 0 && !ShouldAutoCompact(tokens, setup.window, disabled) {
        assert Cascade(setup, z, s, s2, s1, freed1, s2, freed2);
        return;
      }
      Summarize(c, z);
      assert Cascade(setup, z, s, View(c), s1, freed1, s2, freed2);
    }

    method ReactiveCompact(c: Conversation, z: Summarizer)
      modifies this, c
      ensures View(c) == Reactive(setup, old(View(c)), z)
    {
      if |c.messages| < MIN_MESSAGES_TO_KEEP + 1 {
        return;
      }
      var ok := Run(c, z);
      if ok {
        failures := 0;
      }
    }

    method ForceCompact(c: Conversation, z: Summarizer)
      modifies this, c
      ensures View(c) == Forced(setup, old(View(c)), z)
    {
      if |c.messages| < MIN_MESSAGES_TO_KEEP + 1 {
        return;
      }
      var _ := Run(c, z);
    }
  }

  // ----- what a summary leaves behind -----

  ghost predicate Contains(text: string, part: string) {
    exists before: string, after: string :: text == before + part + after
  }

  /** The summary stands, with its suffix, in a user message, which an assistant message acknowledges; the
      last four messages follow, and nothing else; the count starts anew. */
  ghost predicate ShowsSummary(u: Setup, s: State, z: Summarizer, r: State) {
    && |s.messages| > 4 && |r.messages| == 6 && r.tokens == 0
    && r.messages[0].role == User && |r.messages[0].content| == 1 && r.messages[0].content[0].Text?
    && Contains(r.messages[0].content[0].text, z.summary)
    && Contains(r.messages[0].content[0].text, z.suffix)
    && r.messages[1].role == Assistant && r.messages[1].content == [Text(u.ack)]
    && r.messages[2..] == s.messages[|s.messages| - 4..]
  }

  lemma SummarizedShows(u: Setup, s: State, z: Summarizer)
    requires |s.messages| > 4 && z.answered && z.summary != ""
    ensures ShowsSummary(u, s, z, Summarized(u, s, z))
  {
    var glue := if z.suffix == "" then "" else "\n\n";
    var text := u.before + FullSummary(z) + u.after;
    assert text == u.before + z.summary + (glue + z.suffix + u.after);
    assert text == (u.before + z.summary + glue) + z.suffix + u.after;
  }

  /** Whichever way the summary is asked for, it is shown exactly if the history has more than four messages
      and the model answers with something; otherwise the messages and the count stay. */
  lemma SummaryIsShown(u: Setup, s: State, z: Summarizer)
    ensures |s.messages| > 4 && z.answered && z.summary != "" ==>
              && ShowsSummary(u, s, z, Forced(u, s, z)) && ShowsSummary(u, s, z, Reactive(u, s, z))
              && ShowsSummary(u, s, z, FullLayer(u, s, z))
    ensures !(|s.messages| > 4 && z.answered && z.summary != "") ==>
              && Forced(u, s, z) == s && Reactive(u, s, z) == s
              && FullLayer(u, s, z).messages == s.messages && FullLayer(u, s, z).tokens == s.tokens
  {
    if |s.messages| > 4 && z.answered && z.summary != "" {
      SummarizedShows(u, s, z);
    }
  }

  lemma {:induction false} DumpAppend(r: Rules, a: seq<Block>, b: seq<Block>)
    ensures DumpChars(r, a + b) == DumpChars(r, a) + DumpChars(r, b)
    decreases |b|
  {
    if b == [] {
      assert a + b == a;
    } else {
      DumpAppend(r, a, b[..|b| - 1]);
      assert (a + b)[..|a + b| - 1] == a + b[..|b| - 1];
    }
  }

  lemma {:induction false} AllDumpAppend(r: Rules, a: seq<Message>, b: seq<Message>)
    ensures AllDumpChars(r, a + b) == AllDumpChars(r, a) + AllDumpChars(r, b)
    decreases |b|
  {
    if b == [] {
      assert a + b == a;
    } else {
      AllDumpAppend(r, a, b[..|b| - 1]);
      assert (a + b)[..|a + b| - 1] == a + b[..|b| - 1];
    }
  }

  /** The characters counted add up over histories and over the blocks of a message; a text counts its
      length, any other block that of its dump. */
  lemma CharactersAddUp(r: Rules, a: seq<Message>, b: seq<Message>, m: Message, more: Block)
    ensures AllDumpChars(r, []) == 0 && AllDumpChars(r, a + b) == AllDumpChars(r, a) + AllDumpChars(r, b)
    ensures AllDumpChars(r, [m.(content := m.content + [more])])
         == AllDumpChars(r, [m]) + if more.Text? then |more.text| else r.dump(more)
    ensures AllDumpChars(r, [m.(content := [])]) == 0
  {
    AllDumpAppend(r, a, b);
    DumpAppend(r, m.content, [more]);
    assert [more][..0] == [];
    var longer, empty := m.(content := m.content + [more]), m.(content := []);
    assert [m][..0] == [] && [longer][..0] == [] && [empty][..0] == [];
  }

  // ----- the tail over whole runs -----

  lemma SummaryKeepsTail(u: Setup, s: State, z: Summarizer)
    ensures Tail(Summarized(u, s, z).messages) == Tail(s.messages)
  {
    if Replaces(s, z) {
      SuffixIsTail([UserMessage(u.before + FullSummary(z) + u.after), AssistantText(u.ack)], s.messages);
    }
  }

  lemma SuffixIsTail(front: seq<Message>, ms: seq<Message>)
    requires |ms| > MIN_MESSAGES_TO_KEEP
    ensures Tail(front + Tail(ms)) == Tail(ms)
  {
    var out := front + Tail(ms);
    if |out| > MIN_MESSAGES_TO_KEEP {
      assert out[|out| - MIN_MESSAGES_TO_KEEP..] == Tail(ms);
    } else {
      assert front == [];
    }
  }

  lemma SnipKeepsTail(r: Rules, s: State, s1: State, freed: nat)
    requires SnipLayer(r, s, s1, freed)
    ensures Tail(s1.messages) == Tail(s.messages)
  {
    var ms :| Snipped(r, s.messages, Cutoff(s.messages, MIN_MESSAGES_TO_KEEP), ms)
      && freed == TotalChars(r, s.messages) - TotalChars(r, ms)
      && s1 == if freed > 0 then s.(messages := ms, tokens := Minus(TokenCount(r, s), freed / 3)) else s;
    SnipKeepsPairing(r, s.messages, Cutoff(s.messages, MIN_MESSAGES_TO_KEEP), ms);
    assert |s.messages| <= MIN_MESSAGES_TO_KEEP ==> ms == ms[0..] == s.messages[0..] == s.messages;
  }

  lemma CompactedKeepsTail(r: Rules, ms: seq<Message>, result: seq<Message>)
    requires Compacted(ms, RemovedSet(r, ms, Cutoff(ms, MIN_MESSAGES_TO_KEEP)), result)
    ensures Tail(result) == Tail(ms)
  {
    var cutoff := Cutoff(ms, MIN_MESSAGES_TO_KEEP);
    var at := RemovedSet(r, ms, cutoff);
    if |ms| > MIN_MESSAGES_TO_KEEP {
      var front := TailIsKept(ms, at, cutoff, result);
      SuffixIsTail(front, ms);
    } else {
      assert at == {};
    }
  }

  lemma MicroKeepsTail(r: Rules, s: State, s2: State, freed: nat)
    requires MicroLayer(r, s, s2, freed)
    ensures Tail(s2.messages) == Tail(s.messages)
  {
    var ms :| Compacted(s.messages, RemovedSet(r, s.messages, Cutoff(s.messages, MIN_MESSAGES_TO_KEEP)), ms)
      && freed == SumChars(r, s.messages, RemovedSet(r, s.messages, Cutoff(s.messages, MIN_MESSAGES_TO_KEEP)),
                           |s.messages|)
      && s2 == if freed > 0 then s.(messages := ms, tokens := Minus(s.tokens, freed / 3)) else s;
    CompactedKeepsTail(r, s.messages, ms);
  }

  /** Whichever layers fire or fail, the last four messages stay as they are. */
  lemma AutoKeepsTail(u: Setup, z: Summarizer, s: State, s': State)
    requires Auto(u, z, s, s')
    ensures Tail(s'.messages) == Tail(s.messages)
  {
    if ShouldAutoCompact(TokenCount(u.rules, s), u.window, s.disabled) {
      var s1, freed1, s2, freed2 :| Cascade(u, z, s, s', s1, freed1, s2, freed2);
      SnipKeepsTail(u.rules, s, s1, freed1);
      if !Enough(u.window, s1, freed1) {
        MicroKeepsTail(u.rules, s1, s2, freed2);
        SummaryKeepsTail(u, s2, z);
      }
    }
  }

  // ----- whole runs -----

  /** Everything that touches a session's history or its compaction.  The context window is resolved
      during the session, so an automatic compaction comes with the window of its time.  When the
      model has answered, the reply, if it has content, is appended and its token count, if positive,
      is recorded; user texts and tool results are appended at any time.  A query strips unanswered
      calls first, and a command clears the history. */
  datatype Event =
    | AutoCompact(window: int, z: Summarizer)
    | ReactiveCompact(z: Summarizer)
    | ForceCompact(z: Summarizer)
    | Answered(tokens: nat, reply: Option<Message>)
    | Appended(spoken: seq<Message>)
    | Stripped
    | Cleared

  ghost predicate Step(u: Setup, e: Event, s: State, s': State) {
    match e
    case AutoCompact(window, z) => Auto(u.(window := window), z, s, s')
    case ReactiveCompact(z) => s' == Reactive(u, s, z)
    case ForceCompact(z) => s' == Forced(u, s, z)
    case Answered(tokens, _) =>
      s' == s.(messages := s.messages + Spoken(e), tokens := if tokens > 0 then tokens else s.tokens)
    case Appended(spoken) => s' == s.(messages := s.messages + spoken)
    case Stripped => s' == s.(messages := Strip(s.messages))
    case Cleared => s' == s.(messages := [])
  }

  /** The messages an event adds to the conversation. */
  function Spoken(e: Event): seq<Message> {
    match e
    case Answered(_, reply) => if reply.Some? then [reply.value] else []
    case Appended(spoken) => spoken
    case _ => []
  }

  /** All that is said from event `i` up to event `j`. */
  function AllSpoken(events: seq<Event>, i: nat, j: nat): seq<Message>
    requires i <= j <= |events|
    decreases j
  {
    if i == j then [] else AllSpoken(events, i, j - 1) + Spoken(events[j - 1])
  }

  /** The events that take something out of the conversation on purpose. */
  predicate Rewrites(e: Event) {
    e.Stripped? || e.Cleared?
  }

  ghost predicate IsRun(u: Setup, events: seq<Event>, states: seq<State>) {
    && |states| == |events| + 1
    && forall k {:trigger events[k]} :: 0 <= k < |events| ==> Step(u, events[k], states[k], states[k + 1])
  }

  /** The breaker's invariant: at most three failures in a row, and three only when disabled. */
  ghost predicate BreakerOk(s: State) {
    && s.failures <= MAX_CONSECUTIVE_FAILURES
    && (s.failures == MAX_CONSECUTIVE_FAILURES ==> s.disabled)
  }

  predicate SameBreaker(s: State, s': State) {
    s'.failures == s.failures && s'.disabled == s.disabled
  }

  lemma SnipLeavesBreaker(r: Rules, s: State, s1: State, freed: nat)
    requires SnipLayer(r, s, s1, freed)
    ensures SameBreaker(s, s1)
  {}

  lemma MicroLeavesBreaker(r: Rules, s: State, s2: State, freed: nat)
    requires MicroLayer(r, s, s2, freed)
    ensures SameBreaker(s, s2)
  {}

  lemma FullKeepsBreaker(u: Setup, s: State, z: Summarizer)
    requires BreakerOk(s) && !s.disabled
    ensures BreakerOk(FullLayer(u, s, z))
  {}

  lemma LayersKeepBreaker(u: Setup, z: Summarizer, s: State, s': State)
    requires Auto(u, z, s, s') && BreakerOk(s)
    ensures BreakerOk(s') && (s.disabled ==> s' == s)
  {
    if ShouldAutoCompact(TokenCount(u.rules, s), u.window, s.disabled) {
      var s1, freed1, s2, freed2 :| Cascade(u, z, s, s', s1, freed1, s2, freed2);
      SnipLeavesBreaker(u.rules, s, s1, freed1);
      if !Enough(u.window, s1, freed1) {
        MicroLeavesBreaker(u.rules, s1, s2, freed2);
        FullKeepsBreaker(u, s2, z);
      }
    }
  }

  /** The tail depends on the tail and on what comes behind it. */
  lemma TailOfTail(a: seq<Message>, b: seq<Message>)
    ensures Tail(Tail(a) + b) == Tail(a + b)
  {
    if |a| > MIN_MESSAGES_TO_KEEP {
      assert a + b == a[..|a| - MIN_MESSAGES_TO_KEEP] + (Tail(a) + b);
    }
  }

  lemma TailAppend(a: seq<Message>, a': seq<Message>, b: seq<Message>)
    requires Tail(a) == Tail(a')
    ensures Tail(a + b) == Tail(a' + b)
  {
    TailOfTail(a, b);
    TailOfTail(a', b);
  }

  /** Every event keeps the breaker's invariant and never re-enables a disabled session; the last four
      messages are those of the history with what was spoken, whether compaction came in between or
      not; a disabled automatic compaction changes nothing at all; and the other events do what they say. */
  lemma EveryStep(u: Setup, e: Event, s: State, s': State)
    requires Step(u, e, s, s') && BreakerOk(s)
    ensures !Rewrites(e) ==> Tail(s'.messages) == Tail(s.messages + Spoken(e))
    ensures BreakerOk(s') && (s.disabled ==> s'.disabled)
    ensures s.disabled && e.AutoCompact? ==> s' == s
    ensures e.Stripped? ==> CalledIds(s'.messages) <= ResolvedIds(s'.messages)
    ensures e.Answered? ==> if e.tokens > 0 then forall r :: TokenCount(r, s') == e.tokens else s'.tokens == s.tokens
    ensures e.Answered? && e.reply.Some? ==> s'.messages == s.messages + [e.reply.value]
    ensures e.Cleared? ==> s'.messages == []
  {
    assert Spoken(e) == [] ==> s.messages + Spoken(e) == s.messages;
    match e {
      case AutoCompact(window, z) =>
        AutoKeepsTail(u.(window := window), z, s, s');
        LayersKeepBreaker(u.(window := window), z, s, s');
      case ReactiveCompact(z) => SummaryKeepsTail(u, s, z);
      case ForceCompact(z) => SummaryKeepsTail(u, s, z);
      case Stripped =>
        StripKeepsResults(s.messages);
        StripLeavesAnsweredCalls(s.messages);
      case _ =>
    }
  }

  /** The breaker over one piece of a run. */
  ghost predicate StaysOff(s: State, s': State) {
    BreakerOk(s') && (s.disabled ==> s'.disabled)
  }

  ghost predicate BreakerStep(s: State, e: Event, s': State) {
    BreakerOk(s) ==> StaysOff(s, s') && (e.AutoCompact? && s.disabled ==> s' == s)
  }

  lemma {:induction false} BreakerChain(events: seq<Event>, states: seq<State>, i: nat, j: nat)
    requires |states| == |events| + 1 && i <= j < |states| && BreakerOk(states[0])
    requires forall k {:trigger events[k]} :: 0 <= k < |events| ==> BreakerStep(states[k], events[k], states[k + 1])
    ensures BreakerOk(states[i]) && StaysOff(states[i], states[j])
    decreases j
  {
    if j > 0 {
      assert BreakerStep(states[j - 1], events[j - 1], states[j]);
      BreakerChain(events, states, if i < j then i else j - 1, j - 1);
    }
  }

  /** Over every run, whatever is said, stripped or cleared in between: failures stay within three,
      and once three failures have been reached automatic compaction is off for good, whatever
      succeeds later. */
  lemma EveryRun(u: Setup, events: seq<Event>, states: seq<State>, i: nat, j: nat)
    requires IsRun(u, events, states) && BreakerOk(states[0]) && i <= j < |states|
    ensures BreakerOk(states[i]) && BreakerOk(states[j])
    ensures states[i].disabled || states[i].failures == MAX_CONSECUTIVE_FAILURES ==> states[j].disabled
  {
    forall k | 0 <= k < |events|
      ensures BreakerStep(states[k], events[k], states[k + 1])
    {
      if BreakerOk(states[k]) {
        StepOf(u, events, states, k);
        EveryStep(u, events[k], states[k], states[k + 1]);
      }
    }
    BreakerChain(events, states, i, j);
  }

  lemma StepOf(u: Setup, events: seq<Event>, states: seq<State>, k: nat)
    requires IsRun(u, events, states) && k < |events|
    ensures Step(u, events[k], states[k], states[k + 1])
  {}

  // ----- when the breaker opens -----

  /** What one event means to the breaker. */
  datatype Verdict = Neutral | Success | Failure

  /** A summary of a history of this length comes about and is persisted. */
  predicate GoesThrough(ms: seq<Message>, z: Summarizer) {
    |ms| >= 5 && z.answered && |z.summary| > 0 && z.persisted
  }

  /** What a cascade that got as far as `s2` means to the breaker. */
  predicate Reached(window: int, z: Summarizer, s1: State, freed1: nat, s2: State, freed2: nat, v: Verdict) {
    v == if Enough(window, s1, freed1) || Enough(window, s2, freed2) then Neutral
         else if GoesThrough(s2.messages, z) then Success else Failure
  }

  /** An automatic compaction counts if it got past both free layers, a reactive one if it went through,
      and nothing else does. */
  ghost predicate Judged(u: Setup, e: Event, s: State, s': State, v: Verdict) {
    match e
    case AutoCompact(window, z) =>
      if !ShouldAutoCompact(TokenCount(u.rules, s), window, s.disabled) then v.Neutral?
      else exists s1, freed1, s2, freed2 ::
        Cascade(u.(window := window), z, s, s', s1, freed1, s2, freed2)
        && Reached(window, z, s1, freed1, s2, freed2, v)
    case ReactiveCompact(z) => v == if GoesThrough(s.messages, z) then Success else Neutral
    case _ => v.Neutral?
  }

  ghost predicate AllJudged(u: Setup, events: seq<Event>, states: seq<State>, verdicts: seq<Verdict>) {
    && |states| == |events| + 1 && |verdicts| == |events|
    && forall k {:trigger events[k]} :: 0 <= k < |events| ==>
         Judged(u, events[k], states[k], states[k + 1], verdicts[k])
  }

  /** Failures in a row, with no success between them, up to the end. */
  function Streak(verdicts: seq<Verdict>): nat {
    if verdicts == [] then 0
    else
      match verdicts[|verdicts| - 1]
      case Success => 0
      case Failure => Streak(verdicts[..|verdicts| - 1]) + 1
      case Neutral => Streak(verdicts[..|verdicts| - 1])
  }

  ghost predicate ThreeAt(verdicts: seq<Verdict>, i: nat) {
    i <= |verdicts| && Streak(verdicts[..i]) >= 3
  }

  ghost predicate ThreeInARow(verdicts: seq<Verdict>) {
    exists i: nat :: ThreeAt(verdicts, i)
  }

  /** Every step of a run has a verdict. */
  lemma Judge(u: Setup, e: Event, s: State, s': State) returns (v: Verdict)
    requires Step(u, e, s, s')
    ensures Judged(u, e, s, s', v)
  {
    v := Neutral;
    match e {
      case AutoCompact(window, z) =>
        if ShouldAutoCompact(TokenCount(u.rules, s), window, s.disabled) {
          var s1, freed1, s2, freed2 :| Cascade(u.(window := window), z, s, s', s1, freed1, s2, freed2);
          v := if Enough(window, s1, freed1) || Enough(window, s2, freed2) then Neutral
               else if GoesThrough(s2.messages, z) then Success else Failure;
        }
      case ReactiveCompact(z) => v := if GoesThrough(s.messages, z) then Success else Neutral;
      case _ =>
    }
  }

  lemma {:induction false} JudgeAll(u: Setup, events: seq<Event>, states: seq<State>) returns (verdicts: seq<Verdict>)
    requires IsRun(u, events, states)
    ensures AllJudged(u, events, states, verdicts)
  {
    hide Judged, Step;
    verdicts := [];
    for k := 0 to |events|
      invariant |verdicts| == k
      invariant forall i {:trigger events[i]} :: 0 <= i < k ==>
        Judged(u, events[i], states[i], states[i + 1], verdicts[i])
    {
      var v := Judge(u, events[k], states[k], states[k + 1]);
      verdicts := verdicts + [v];
    }
  }

  /** The breaker counts an event by its verdict. */
  ghost predicate Counts(s: State, v: Verdict, s': State) {
    && s'.failures == (match v case Success => 0 case Failure => s.failures + 1 case Neutral => s.failures)
    && (s'.disabled <==> s.disabled || s'.failures >= 3)
  }

  lemma FullCounts(u: Setup, s: State, z: Summarizer)
    requires !s.disabled && s.failures < 3
    ensures Counts(s, if GoesThrough(s.messages, z) then Success else Failure, FullLayer(u, s, z))
  {}

  lemma CascadeCounts(u: Setup, z: Summarizer, s: State, s': State,
                      s1: State, freed1: nat, s2: State, freed2: nat, v: Verdict)
    requires Cascade(u, z, s, s', s1, freed1, s2, freed2) && Reached(u.window, z, s1, freed1, s2, freed2, v)
    requires !s.disabled && s.failures < 3
    ensures Counts(s, v, s')
  {
    hide FullLayer;
    SnipLeavesBreaker(u.rules, s, s1, freed1);
    if !Enough(u.window, s1, freed1) {
      MicroLeavesBreaker(u.rules, s1, s2, freed2);
      FullCounts(u, s2, z);
    }
  }

  lemma AutoCounts(u: Setup, window: int, z: Summarizer, s: State, s': State, v: Verdict)
    requires Step(u, AutoCompact(window, z), s, s') && Judged(u, AutoCompact(window, z), s, s', v)
    requires s.disabled || s.failures < 3
    ensures Counts(s, v, s')
  {
    hide Cascade, Counts;
    if ShouldAutoCompact(TokenCount(u.rules, s), window, s.disabled) {
      var s1, freed1, s2, freed2 :| Cascade(u.(window := window), z, s, s', s1, freed1, s2, freed2)
                                    && Reached(window, z, s1, freed1, s2, freed2, v);
      CascadeCounts(u.(window := window), z, s, s', s1, freed1, s2, freed2, v);
    } else {
      SameCounts(s);
    }
  }

  lemma SameCounts(s: State)
    requires s.disabled || s.failures < 3
    ensures Counts(s, Neutral, s)
  {}

  lemma EveryStepCounts(u: Setup, e: Event, s: State, s': State, v: Verdict)
    requires Step(u, e, s, s') && Judged(u, e, s, s', v) && (s.disabled || s.failures < 3)
    ensures Counts(s, v, s')
  {
    match e {
      case AutoCompact(window, z) => AutoCounts(u, window, z, s, s', v);
      case _ =>
    }
  }

  lemma ThreeAtFront(verdicts: seq<Verdict>, i: nat)
    requires i < |verdicts|
    ensures ThreeAt(verdicts, i) <==> ThreeAt(verdicts[..|verdicts| - 1], i)
  {
    assert verdicts[..|verdicts| - 1][..i] == verdicts[..i];
  }

  lemma ThreeAtEnd(verdicts: seq<Verdict>)
    ensures ThreeAt(verdicts, |verdicts|) <==> Streak(verdicts) >= 3
    ensures forall i: nat :: i > |verdicts| ==> !ThreeAt(verdicts, i)
  {
    assert verdicts[..|verdicts|] == verdicts;
  }

  lemma ThreeSnoc(verdicts: seq<Verdict>)
    requires verdicts != []
    ensures ThreeInARow(verdicts) <==> ThreeInARow(verdicts[..|verdicts| - 1]) || Streak(verdicts) >= 3
  {
    hide ThreeAt, Streak;
    var front := verdicts[..|verdicts| - 1];
    ThreeAtEnd(verdicts);
    ThreeAtEnd(front);
    if i: nat :| ThreeAt(verdicts, i) && i < |verdicts| {
      ThreeAtFront(verdicts, i);
    }
    if i: nat :| ThreeAt(front, i) {
      ThreeAtFront(verdicts, i);
    }
  }

  /** Over every run of a new session the breaker is exact: its count is the number of automatic
      summaries that failed since one last succeeded, automatically or reactively; and automatic
      compaction is off if and only if that number has once been three. */
  lemma {:induction false} BreakerIsExact(u: Setup, events: seq<Event>, states: seq<State>, verdicts: seq<Verdict>)
    requires IsRun(u, events, states) && AllJudged(u, events, states, verdicts)
    requires states[0].failures == 0 && !states[0].disabled
    ensures states[|events|].failures == Streak(verdicts)
    ensures states[|events|].disabled <==> ThreeInARow(verdicts)
  {
    hide ThreeAt;
    var n := |events|;
    ThreeAtEnd(verdicts);
    if n == 0 {
      assert verdicts == [];
    } else {
      BreakerIsExact(u, events[..n - 1], states[..n], verdicts[..n - 1]);
      StepOf(u, events, states, n - 1);
      assert Judged(u, events[n - 1], states[n - 1], states[n], verdicts[n - 1]);
      ThreeSnoc(verdicts);
      ThreeAtEnd(verdicts[..n - 1]);
      EveryStepCounts(u, events[n - 1], states[n - 1], states[n], verdicts[n - 1]);
    }
  }

  /** One more event: what was said before and what the event says. */
  lemma TailNext(start: seq<Message>, said: seq<Message>, before: seq<Message>, more: seq<Message>, after: seq<Message>)
    requires Tail(before) == Tail(start + said) && Tail(after) == Tail(before + more)
    ensures Tail(after) == Tail(start + (said + more))
  {
    TailAppend(before, start + said, more);
    assert start + said + more == start + (said + more);
  }

  ghost predicate TailStep(s: State, e: Event, s': State) {
    Tail(s'.messages) == Tail(s.messages + Spoken(e))
  }

  lemma NothingSaid(events: seq<Event>, i: nat, s: State)
    requires i <= |events|
    ensures Tail(s.messages) == Tail(s.messages + AllSpoken(events, i, i))
  {
    assert s.messages + [] == s.messages;
  }

  lemma TailMore(events: seq<Event>, i: nat, j: nat, start: State, s: State, s': State)
    requires i < j <= |events| && Tail(s.messages) == Tail(start.messages + AllSpoken(events, i, j - 1))
    requires TailStep(s, events[j - 1], s')
    ensures Tail(s'.messages) == Tail(start.messages + AllSpoken(events, i, j))
  {
    TailNext(start.messages, AllSpoken(events, i, j - 1), s.messages, Spoken(events[j - 1]), s'.messages);
  }

  /** Every step from `i` up to `j` is as `p` says. */
  ghost predicate AllSteps(p: (State, Event, State) -> bool, events: seq<Event>, states: seq<State>, i: nat, j: nat)
    requires |states| == |events| + 1 && i <= j < |states|
    decreases j
  {
    i == j || (AllSteps(p, events, states, i, j - 1) && p(states[j - 1], events[j - 1], states[j]))
  }

  lemma {:induction false} StepByStep(p: (State, Event, State) -> bool, events: seq<Event>, states: seq<State>,
                                      i: nat, j: nat)
    requires |states| == |events| + 1 && i <= j < |states|
    requires forall k {:trigger events[k]} :: i <= k < j ==> p(states[k], events[k], states[k + 1])
    ensures AllSteps(p, events, states, i, j)
    decreases j
  {
    if i < j {
      StepByStep(p, events, states, i, j - 1);
      assert p(states[j - 1], events[j - 1], states[j - 1 + 1]);
    }
  }

  lemma {:induction false} TailChain(events: seq<Event>, states: seq<State>, i: nat, j: nat)
    requires |states| == |events| + 1 && i <= j < |states| && AllSteps(TailStep, events, states, i, j)
    ensures Tail(states[j].messages) == Tail(states[i].messages + AllSpoken(events, i, j))
    decreases j
  {
    if i == j {
      NothingSaid(events, i, states[i]);
    } else {
      TailChain(events, states, i, j - 1);
      TailMore(events, i, j, states[i], states[j - 1], states[j]);
    }
  }

  lemma OneTailStep(u: Setup, events: seq<Event>, states: seq<State>, k: nat)
    requires IsRun(u, events, states) && BreakerOk(states[0]) && k < |events| && !Rewrites(events[k])
    ensures TailStep(states[k], events[k], states[k + 1])
  {
    EveryRun(u, events, states, k, k);
    StepOf(u, events, states, k);
    EveryStep(u, events[k], states[k], states[k + 1]);
  }

  /** Over every run in which nothing is stripped or cleared, however often and whichever way it is
      compacted, the last four messages are those of the conversation as it would be had it never been
      compacted: the history at the start followed by all that was said since. */
  lemma EveryRunKeepsTail(u: Setup, events: seq<Event>, states: seq<State>, i: nat, j: nat)
    requires IsRun(u, events, states) && BreakerOk(states[0]) && i <= j < |states|
    requires forall k :: i <= k < j ==> !Rewrites(events[k])
    ensures Tail(states[j].messages) == Tail(states[i].messages + AllSpoken(events, i, j))
  {
    forall k | i <= k < j
      ensures TailStep(states[k], events[k], states[k + 1])
    {
      OneTailStep(u, events, states, k);
    }
    StepByStep(TailStep, events, states, i, j);
    TailChain(events, states, i, j);
  }

  // ----- when the second layer stops the cascade -----

  /** If the count was reported, or snipping freed something, the cascade stops after layer 2 exactly
      when what is left of the count is below the threshold.  Otherwise it stops whenever the
      threshold is positive, however large the history still is, because layer 2 then subtracts from
      a tracked count of zero. */
  lemma StopAfterLayerTwo(u: Setup, s: State, s1: State, freed1: nat, s2: State, freed2: nat)
    requires !s.disabled && SnipLayer(u.rules, s, s1, freed1) && MicroLayer(u.rules, s1, s2, freed2) && freed2 > 0
    ensures s.tokens > 0 || freed1 > 0 ==>
              (Enough(u.window, s2, freed2)
               <==> && 0 < u.window - AUTOCOMPACT_BUFFER_TOKENS
                    && TokenCount(u.rules, s) - freed1 / 3 - freed2 / 3 < u.window - AUTOCOMPACT_BUFFER_TOKENS)
    ensures s.tokens == 0 && freed1 == 0 ==>
              (Enough(u.window, s2, freed2) <==> 0 < u.window - AUTOCOMPACT_BUFFER_TOKENS)
  {
    if freed1 == 0 {
      assert s1 == s;
    } else {
      assert s1.tokens == Minus(TokenCount(u.rules, s), freed1 / 3);
    }
    assert s2.tokens == Minus(s1.tokens, freed2 / 3) && !s2.disabled;
  }
}
