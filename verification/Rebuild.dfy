/** Rebuilding a conversation from a transcript chain, as `rebuild.py` does, under the three policies
    for cancelled tool calls.
*/
module Rebuild {
  import opened Wrappers
  import opened Conversation

  datatype Policy = Acknowledge | Hide | Verbatim

  datatype SerialBlock =
    | TextBlock(text: string)
    | ToolUseBlock(id: string, name: string, arguments: string)
    | UnknownBlock(kind: string)

  datatype Entry =
    | UserEntry(content: string)
    | AssistantEntry(blocks: seq<SerialBlock>)
    | ToolCallEntry(id: string, output: string, isError: bool, synthetic: bool,
                    cancelPhase: Option<string>, timestamp: string, images: seq<string>)
    | CompactBoundaryEntry(summary: string)
    | SessionMetaEntry(key: string, value: string)

  // ----- replaying one entry -----

  ghost function HiddenIds(chain: seq<Entry>, policy: Policy): set<string> {
    set e | e in chain && e.ToolCallEntry? && e.synthetic && policy.Hide? :: e.id
  }

  function DecodeBlock(b: SerialBlock, hidden: set<string>): seq<Block> {
    match b
    case TextBlock(text) => [Text(text)]
    case ToolUseBlock(id, name, arguments) => if id in hidden then [] else [ToolUse(id, name, arguments)]
    case UnknownBlock(_) => []
  }

  function Decode(blocks: seq<SerialBlock>, hidden: set<string>): seq<Block> {
    if blocks == [] then []
    else Decode(blocks[..|blocks| - 1], hidden) + DecodeBlock(blocks[|blocks| - 1], hidden)
  }

  function CancelledOutput(e: Entry): string
    requires e.ToolCallEntry?
  {
    var phase := if e.cancelPhase.Some? && e.cancelPhase.value != "" then e.cancelPhase.value else "unknown";
    "<cancelled at " + e.timestamp + " in phase=" + phase + "> " + e.output
  }

  function ReplayToolCall(e: Entry, policy: Policy): seq<Message>
    requires e.ToolCallEntry?
  {
    if e.synthetic && policy.Hide? then []
    else if e.synthetic && policy.Verbatim? then
      [ToolResultMessage(e.id, CancelledOutput(e), e.isError, [])]
    else [ToolResultMessage(e.id, e.output, e.isError, e.images)]
  }

  function Replay(e: Entry, hidden: set<string>, policy: Policy): (ms: seq<Message>)
    ensures |ms| <= 1
  {
    match e
    case UserEntry(content) => [UserMessage(content)]
    case AssistantEntry(blocks) =>
      if Decode(blocks, hidden) == [] then [] else [Message(Assistant, Decode(blocks, hidden))]
    case ToolCallEntry(_, _, _, _, _, _, _) => ReplayToolCall(e, policy)
    case CompactBoundaryEntry(summary) => [UserMessage("[Previous conversation summary]\n" + summary)]
    case SessionMetaEntry(_, _) => []
  }

  function ReplayAll(chain: seq<Entry>, hidden: set<string>, policy: Policy): seq<Message> {
    if chain == [] then []
    else ReplayAll(chain[..|chain| - 1], hidden, policy) + Replay(chain[|chain| - 1], hidden, policy)
  }

  ghost function Rebuilt(chain: seq<Entry>, policy: Policy): seq<Message> {
    Strip(ReplayAll(chain, HiddenIds(chain, policy), policy))
  }

  // ----- the algorithm -----

  lemma HiddenSnoc(chain: seq<Entry>, e: Entry, policy: Policy)
    ensures HiddenIds(chain + [e], policy)
         == HiddenIds(chain, policy) + if e.ToolCallEntry? && e.synthetic && policy.Hide? then {e.id} else {}
  {
    var more := chain + [e];
    assert e in more;
    assert forall x :: x in chain ==> x in more;
  }

  method CollectHidden(chain: seq<Entry>, policy: Policy) returns (hidden: set<string>)
    ensures hidden == HiddenIds(chain, policy)
  {
    hidden := {};
    if policy.Hide? {
      for i := 0 to |chain|
        invariant hidden == HiddenIds(chain[..i], policy)
      {
        HiddenSnoc(chain[..i], chain[i], policy);
        assert chain[..i + 1] == chain[..i] + [chain[i]];
        if chain[i].ToolCallEntry? && chain[i].synthetic {
          hidden := hidden + {chain[i].id};
        }
      }
      assert chain[..|chain|] == chain;
    }
  }

  method DecodeBlocks(blocks: seq<SerialBlock>, hidden: set<string>) returns (content: seq<Block>)
    ensures content == Decode(blocks, hidden)
  {
    content := [];
    for i := 0 to |blocks|
      invariant content == Decode(blocks[..i], hidden)
    {
      assert blocks[..i + 1][..i] == blocks[..i];
      match blocks[i] {
        case TextBlock(text) => content := content + [Text(text)];
        case ToolUseBlock(id, name, arguments) =>
          if id !in hidden {
            content := content + [ToolUse(id, name, arguments)];
          }
        case UnknownBlock(_) =>
      }
    }
    assert blocks[..|blocks|] == blocks;
  }

  /** Replays the chain into a fresh conversation and strips what is left unanswered. */
  method RebuildConversation(chain: seq<Entry>, policy: Policy) returns (c: Conversation)
    ensures fresh(c) && c.messages == Rebuilt(chain, policy)
  {
    var hidden := CollectHidden(chain, policy);
    c := new Conversation();
    for i := 0 to |chain|
      invariant fresh(c)
      invariant c.messages == ReplayAll(chain[..i], hidden, policy)
    {
      assert chain[..i + 1][..i] == chain[..i];
      AppendEntry(c, chain[i], hidden, policy);
    }
    assert chain[..|chain|] == chain;
    var _ := c.StripOrphanedToolCalls();
  }

  method AppendEntry(c: Conversation, e: Entry, hidden: set<string>, policy: Policy)
    modifies c
    ensures c.messages == old(c.messages) + Replay(e, hidden, policy)
  {
    match e {
      case UserEntry(content) => c.Append(UserMessage(content));
      case AssistantEntry(blocks) =>
        var content := DecodeBlocks(blocks, hidden);
        if content != [] {
          c.Append(Message(Assistant, content));
        }
      case ToolCallEntry(id, output, isError, synthetic, cancelPhase, timestamp, images) =>
        if synthetic {
          if policy.Hide? {
            return;
          }
          if policy.Verbatim? {
            c.Append(ToolResultMessage(id, CancelledOutput(e), isError, []));
            return;
          }
        }
        c.Append(ToolResultMessage(id, output, isError, images));
      case CompactBoundaryEntry(summary) =>
        c.Append(UserMessage("[Previous conversation summary]\n" + summary));
      case SessionMetaEntry(_, _) =>
    }
  }

  // ----- which ids survive -----

  /** Ids of the tool entries that a policy replays as results. */
  ghost function AnsweredIds(chain: seq<Entry>, policy: Policy): set<string> {
    set e | e in chain && e.ToolCallEntry? && !(e.synthetic && policy.Hide?) :: e.id
  }

  /** Ids the chain's assistant entries ask for. */
  ghost function RequestedIds(chain: seq<Entry>): set<string> {
    set e, b | e in chain && e.AssistantEntry? && b in e.blocks && b.ToolUseBlock? :: b.id
  }

  lemma {:induction false} DecodedCalls(blocks: seq<SerialBlock>, hidden: set<string>, id: string)
    ensures (exists b :: b in Decode(blocks, hidden) && b.ToolUse? && b.id == id)
       <==> id !in hidden && exists s :: s in blocks && s.ToolUseBlock? && s.id == id
    ensures forall b :: b in Decode(blocks, hidden) ==> !b.ToolResult?
  {
    if blocks != [] {
      var front, last := blocks[..|blocks| - 1], blocks[|blocks| - 1];
      DecodedCalls(front, hidden, id);
      var one := DecodeBlock(last, hidden);
      assert blocks == front + [last];
      assert forall b :: b in Decode(blocks, hidden) <==> b in Decode(front, hidden) || b in one;
    }
  }

  /** One entry contributes the calls it asks for and the answer it holds. */
  lemma ReplayIds(e: Entry, hidden: set<string>, policy: Policy)
    ensures CalledIds(Replay(e, hidden, policy)) == RequestedIds([e]) - hidden
    ensures ResolvedIds(Replay(e, hidden, policy)) == AnsweredIds([e], policy)
  {
    var ms := Replay(e, hidden, policy);
    if e.AssistantEntry? {
      AssistantIds(e, hidden, policy);
    } else if e.ToolCallEntry? && ms != [] {
      var m := ms[0];
      assert m.content[0] in m.content && Answers(m, m.content[0]);
      assert e in [e];
    }
  }

  lemma AssistantIds(e: Entry, hidden: set<string>, policy: Policy)
    requires e.AssistantEntry?
    ensures CalledIds(Replay(e, hidden, policy)) == RequestedIds([e]) - hidden
    ensures ResolvedIds(Replay(e, hidden, policy)) == {}
  {
    var ms := Replay(e, hidden, policy);
    forall id | id in RequestedIds([e]) - hidden
      ensures id in CalledIds(ms)
    {
      DecodedCalls(e.blocks, hidden, id);
      var b :| b in Decode(e.blocks, hidden) && b.ToolUse? && b.id == id;
      assert Calls(ms[0], b);
    }
    forall id | id in CalledIds(ms)
      ensures id in RequestedIds([e]) - hidden
    {
      var m, b :| m in ms && b in m.content && Calls(m, b) && b.id == id;
      DecodedCalls(e.blocks, hidden, id);
      var s :| s in e.blocks && s.ToolUseBlock? && s.id == id;
      assert e in [e];
    }
  }

  lemma IdsAppend(a: seq<Message>, b: seq<Message>)
    ensures CalledIds(a + b) == CalledIds(a) + CalledIds(b)
    ensures ResolvedIds(a + b) == ResolvedIds(a) + ResolvedIds(b)
  {
    assert forall m :: m in a + b <==> m in a || m in b;
  }

  lemma ChainAppend(a: seq<Entry>, b: seq<Entry>, policy: Policy)
    ensures RequestedIds(a + b) == RequestedIds(a) + RequestedIds(b)
    ensures AnsweredIds(a + b, policy) == AnsweredIds(a, policy) + AnsweredIds(b, policy)
  {
    assert forall e :: e in a + b <==> e in a || e in b;
  }

  lemma {:induction false} ReplayAllIds(chain: seq<Entry>, hidden: set<string>, policy: Policy)
    ensures CalledIds(ReplayAll(chain, hidden, policy)) == RequestedIds(chain) - hidden
    ensures ResolvedIds(ReplayAll(chain, hidden, policy)) == AnsweredIds(chain, policy)
  {
    if chain != [] {
      var front, e := chain[..|chain| - 1], chain[|chain| - 1];
      ReplayAllIds(front, hidden, policy);
      ReplayIds(e, hidden, policy);
      IdsAppend(ReplayAll(front, hidden, policy), Replay(e, hidden, policy));
      ChainAppend(front, [e], policy);
      assert chain == front + [e];
    }
  }

  /** For every chain and policy the rebuilt conversation calls exactly the requested, unhidden ids
      that have an answer, answers exactly the replayed ids, and hence leaves no call unanswered. */
  lemma EveryCallIsAnswered(chain: seq<Entry>, policy: Policy)
    ensures var r := Rebuilt(chain, policy);
            && ResolvedIds(r) == AnsweredIds(chain, policy)
            && CalledIds(r) == (RequestedIds(chain) - HiddenIds(chain, policy)) * AnsweredIds(chain, policy)
            && CalledIds(r) <= ResolvedIds(r)
  {
    var all := ReplayAll(chain, HiddenIds(chain, policy), policy);
    ReplayAllIds(chain, HiddenIds(chain, policy), policy);
    StripKeepsResults(all);
    StripLeavesAnsweredCalls(all);
  }

  /** The other direction holds exactly when every replayed answer was asked for and not hidden. */
  lemma EveryAnswerWasCalledIff(chain: seq<Entry>, policy: Policy)
    ensures ResolvedIds(Rebuilt(chain, policy)) <= CalledIds(Rebuilt(chain, policy))
       <==> AnsweredIds(chain, policy) <= RequestedIds(chain) - HiddenIds(chain, policy)
  {
    EveryCallIsAnswered(chain, policy);
  }

  predicate Cancelled(e: Entry) {
    e.ToolCallEntry? && e.synthetic
  }

  predicate RanToEnd(e: Entry) {
    e.ToolCallEntry? && !e.synthetic
  }

  /** Hiding leaves no trace of a cancelled call exactly when no real result carries its id too. */
  lemma HidingLeavesNoTraceIff(chain: seq<Entry>)
    ensures HiddenIds(chain, Hide) !! (CalledIds(Rebuilt(chain, Hide)) + ResolvedIds(Rebuilt(chain, Hide)))
       <==> forall e, f :: e in chain && f in chain && Cancelled(e) && RanToEnd(f) ==> e.id != f.id
  {
    EveryCallIsAnswered(chain, Hide);
    var hidden, answered := HiddenIds(chain, Hide), AnsweredIds(chain, Hide);
    if hidden !! answered {
      forall e, f | e in chain && f in chain && Cancelled(e) && RanToEnd(f)
        ensures e.id != f.id
      {
        assert e.id in hidden && f.id in answered;
      }
    } else {
      var id :| id in hidden && id in answered;
      var e :| e in chain && Cancelled(e) && e.id == id;
      var f :| f in chain && RanToEnd(f) && f.id == id;
    }
  }

  /** With at most one tool entry per id, each asked for, both directions hold under every policy
      and hiding leaves no trace. */
  lemma WellFormedChainsAreLegal(chain: seq<Entry>, policy: Policy)
    requires forall e, f :: e in chain && f in chain && e.ToolCallEntry? && f.ToolCallEntry? && e.id == f.id ==> e == f
    requires forall e :: e in chain && e.ToolCallEntry? ==> e.id in RequestedIds(chain)
    ensures CalledIds(Rebuilt(chain, policy)) == ResolvedIds(Rebuilt(chain, policy))
    ensures policy.Hide? ==> HiddenIds(chain, Hide) !! ResolvedIds(Rebuilt(chain, policy))
  {
    EveryCallIsAnswered(chain, policy);
    forall id | id in AnsweredIds(chain, policy)
      ensures id in RequestedIds(chain) && id !in HiddenIds(chain, policy)
    {
      var e :| e in chain && e.ToolCallEntry? && !(e.synthetic && policy.Hide?) && e.id == id;
    }
  }

  /** The documentation speaks of ids whose only result is synthetic; the code hides every synthetic
      id, so a real result of the same id is left without its call. */
  lemma HideCanOrphanAResult()
    ensures var call := AssistantEntry([ToolUseBlock("a", "grep", "{}")]);
            var cancelled := ToolCallEntry("a", "", true, true, None, "", []);
            var ran := ToolCallEntry("a", "ok", false, false, None, "", []);
            var r := Rebuilt([call, cancelled, ran], Hide);
            "a" in ResolvedIds(r) && "a" !in CalledIds(r)
  {
    var call := AssistantEntry([ToolUseBlock("a", "grep", "{}")]);
    var cancelled := ToolCallEntry("a", "", true, true, None, "", []);
    var ran := ToolCallEntry("a", "ok", false, false, None, "", []);
    var chain := [call, cancelled, ran];
    hide Rebuilt;
    EveryCallIsAnswered(chain, Hide);
    assert cancelled in chain && ran in chain;
  }

  // ----- what is said -----

  function UtteredBy(b: SerialBlock, called: set<string>): seq<Placed> {
    match b
    case TextBlock(text) => [Placed(Assistant, Text(text))]
    case ToolUseBlock(id, name, arguments) =>
      if id in called then [Placed(Assistant, ToolUse(id, name, arguments))] else []
    case UnknownBlock(_) => []
  }

  /** What an assistant entry says: its texts, and those of its calls that are in `called`. */
  function Uttered(blocks: seq<SerialBlock>, called: set<string>): seq<Placed> {
    if blocks == [] then []
    else Uttered(blocks[..|blocks| - 1], called) + UtteredBy(blocks[|blocks| - 1], called)
  }

  /** What one entry says. */
  function Told(e: Entry, policy: Policy, called: set<string>): seq<Placed> {
    match e
    case UserEntry(content) => [Placed(User, Text(content))]
    case AssistantEntry(blocks) => Uttered(blocks, called)
    case ToolCallEntry(id, output, isError, synthetic, phase, timestamp, images) =>
      if !synthetic || policy.Acknowledge? then [Placed(Tool, ToolResult(id, output, isError, images))]
      else if policy.Hide? then []
      else
        var during := if phase.None? || phase.value == "" then "unknown" else phase.value;
        var text := "<cancelled at " + timestamp + " in phase=" + during + "> " + output;
        [Placed(Tool, ToolResult(id, text, isError, []))]
    case CompactBoundaryEntry(summary) => [Placed(User, Text("[Previous conversation summary]\n" + summary))]
    case SessionMetaEntry(_, _) => []
  }

  function AllTold(chain: seq<Entry>, policy: Policy, called: set<string>): seq<Placed> {
    if chain == [] then []
    else AllTold(chain[..|chain| - 1], policy, called) + Told(chain[|chain| - 1], policy, called)
  }

  lemma PlaceAppend(role: Role, a: seq<Block>, b: seq<Block>)
    ensures Place(role, a + b) == Place(role, a) + Place(role, b)
  {}

  lemma {:induction false} DecodedUtters(blocks: seq<SerialBlock>, hidden: set<string>, answered: set<string>)
    ensures Filtered(Place(Assistant, Decode(blocks, hidden)), answered) == Uttered(blocks, answered - hidden)
  {
    hide Filtered, Place, DecodeBlock, UtteredBy;
    if blocks == [] {
      OneFiltered(Assistant, [], answered);
    } else {
      var front, last := blocks[..|blocks| - 1], blocks[|blocks| - 1];
      DecodedUtters(front, hidden, answered);
      PlaceAppend(Assistant, Decode(front, hidden), DecodeBlock(last, hidden));
      FilteredConcat(Place(Assistant, Decode(front, hidden)), Place(Assistant, DecodeBlock(last, hidden)), answered);
      BlockUtters(last, hidden, answered);
    }
  }

  lemma BlockUtters(b: SerialBlock, hidden: set<string>, answered: set<string>)
    ensures Filtered(Place(Assistant, DecodeBlock(b, hidden)), answered) == UtteredBy(b, answered - hidden)
  {
    hide Filtered, Place;
    OneFiltered(Assistant, DecodeBlock(b, hidden), answered);
  }

  lemma OneFiltered(role: Role, content: seq<Block>, resolved: set<string>)
    requires |content| <= 1
    ensures Filtered(Place(role, content), resolved)
         == if content == [] || (role.Assistant? && content[0].ToolUse? && content[0].id !in resolved) then []
            else [Placed(role, content[0])]
  {
    if content != [] {
      assert Place(role, content) == [Placed(role, content[0])];
      assert [Placed(role, content[0])][..0] == [];
    }
  }

  lemma BlocksOfOne(m: Message)
    ensures Blocks([m]) == Place(m.role, m.content)
  {
    assert [m][..0] == [];
  }

  lemma ReplayTells(e: Entry, hidden: set<string>, policy: Policy, answered: set<string>)
    ensures Filtered(Blocks(Replay(e, hidden, policy)), answered) == Told(e, policy, answered - hidden)
  {
    hide Filtered, Place, Blocks, Decode, Uttered;
    var ms := Replay(e, hidden, policy);
    if ms == [] {
      NothingBlocked(answered);
    } else {
      BlocksOfOne(ms[0]);
      assert ms == [ms[0]];
    }
    if e.AssistantEntry? {
      DecodedUtters(e.blocks, hidden, answered);
      PlaceNothing(answered);
    } else if ms != [] {
      OneFiltered(ms[0].role, ms[0].content, answered);
    }
  }

  lemma NothingBlocked(answered: set<string>)
    ensures Filtered(Blocks([]), answered) == []
  {}

  lemma PlaceNothing(answered: set<string>)
    ensures Filtered(Place(Assistant, []), answered) == []
  {
    assert Place(Assistant, []) == [];
  }

  lemma {:induction false} ReplayAllTells(chain: seq<Entry>, hidden: set<string>, policy: Policy, answered: set<string>)
    ensures Filtered(Blocks(ReplayAll(chain, hidden, policy)), answered) == AllTold(chain, policy, answered - hidden)
  {
    if chain != [] {
      var front, e := chain[..|chain| - 1], chain[|chain| - 1];
      ReplayAllTells(front, hidden, policy, answered);
      ReplayTells(e, hidden, policy, answered);
      BlocksAppend(ReplayAll(front, hidden, policy), Replay(e, hidden, policy));
      FilteredConcat(Blocks(ReplayAll(front, hidden, policy)), Blocks(Replay(e, hidden, policy)), answered);
    }
  }

  /** The rebuilt conversation says all that the chain says, in order, role by role, and nothing else:
      every text, summary and unhidden result, and the calls that are answered and not hidden. */
  lemma RebuiltTellsAll(chain: seq<Entry>, policy: Policy)
    ensures Blocks(Rebuilt(chain, policy))
         == AllTold(chain, policy, AnsweredIds(chain, policy) - HiddenIds(chain, policy))
  {
    var all := ReplayAll(chain, HiddenIds(chain, policy), policy);
    ReplayAllIds(chain, HiddenIds(chain, policy), policy);
    StripIsExact(all);
    ReplayAllTells(chain, HiddenIds(chain, policy), policy, AnsweredIds(chain, policy));
  }

  ghost predicate NoneEmpty(ms: seq<Message>) {
    forall m :: m in ms ==> m.content != []
  }

  lemma {:induction false} ReplayedNoneEmpty(chain: seq<Entry>, hidden: set<string>, policy: Policy)
    ensures NoneEmpty(ReplayAll(chain, hidden, policy))
  {
    if chain != [] {
      ReplayedNoneEmpty(chain[..|chain| - 1], hidden, policy);
    }
  }

  lemma {:induction false} SweptNoneEmpty(ms: seq<Message>, resolved: set<string>)
    requires NoneEmpty(ms)
    ensures NoneEmpty(SweepAll(ms, resolved))
  {
    if ms != [] {
      assert ms[|ms| - 1] in ms;
      SweptNoneEmpty(ms[..|ms| - 1], resolved);
    }
  }

  /** No message of a rebuilt conversation is empty. */
  lemma RebuiltHasNoEmptyMessage(chain: seq<Entry>, policy: Policy)
    ensures forall m :: m in Rebuilt(chain, policy) ==> m.content != []
  {
    var all := ReplayAll(chain, HiddenIds(chain, policy), policy);
    ReplayedNoneEmpty(chain, HiddenIds(chain, policy), policy);
    SweptNoneEmpty(all, ResolvedIds(all));
  }

  // ----- order -----

  /** At every point of the history, what has been answered has been called. */
  ghost predicate AnswersFollowCalls(ms: seq<Message>) {
    ms == [] || (AnswersFollowCalls(ms[..|ms| - 1]) && ResolvedIds(ms) <= CalledIds(ms))
  }

  lemma FollowAppend(ms: seq<Message>, one: seq<Message>)
    requires |one| <= 1 && AnswersFollowCalls(ms) && ResolvedIds(ms + one) <= CalledIds(ms + one)
    ensures AnswersFollowCalls(ms + one)
  {
    if one == [] {
      assert ms + one == ms;
    } else {
      assert (ms + one)[..|ms|] == ms;
    }
  }

  lemma {:induction false} SweptAppend(ms: seq<Message>, one: seq<Message>, resolved: set<string>)
    requires |one| <= 1
    ensures SweepAll(ms + one, resolved) == SweepAll(ms, resolved) + SweepAll(one, resolved)
    ensures |SweepAll(one, resolved)| <= 1
  {
    if one == [] {
      assert ms + one == ms;
    } else {
      assert (ms + one)[..|ms|] == ms;
      assert one[..0] == [];
    }
  }

  /** Every prefix of the chain answers only what it has already asked for. */
  ghost predicate EntriesFollowRequests(chain: seq<Entry>, hidden: set<string>, policy: Policy) {
    chain == [] ||
    (EntriesFollowRequests(chain[..|chain| - 1], hidden, policy)
     && AnsweredIds(chain, policy) <= RequestedIds(chain) - hidden)
  }

  lemma {:induction false} SweptOrder(chain: seq<Entry>, hidden: set<string>, policy: Policy, resolved: set<string>)
    requires EntriesFollowRequests(chain, hidden, policy) && AnsweredIds(chain, policy) <= resolved
    ensures AnswersFollowCalls(SweepAll(ReplayAll(chain, hidden, policy), resolved))
  {
    if chain != [] {
      var front, e := chain[..|chain| - 1], chain[|chain| - 1];
      ChainAppend(front, [e], policy);
      assert chain == front + [e];
      SweptOrder(front, hidden, policy, resolved);
      var all := ReplayAll(chain, hidden, policy);
      SweptAppend(ReplayAll(front, hidden, policy), Replay(e, hidden, policy), resolved);
      ReplayAllIds(chain, hidden, policy);
      SweptCalls(all, resolved);
      NoNewAnswers(all, resolved);
      FollowAppend(SweepAll(ReplayAll(front, hidden, policy), resolved), SweepAll(Replay(e, hidden, policy), resolved));
    }
  }

  lemma {:induction false} UnsweptOrder(chain: seq<Entry>, hidden: set<string>, policy: Policy)
    requires EntriesFollowRequests(chain, hidden, policy)
    ensures AnswersFollowCalls(ReplayAll(chain, hidden, policy))
  {
    if chain != [] {
      var front, e := chain[..|chain| - 1], chain[|chain| - 1];
      UnsweptOrder(front, hidden, policy);
      ReplayAllIds(chain, hidden, policy);
      FollowAppend(ReplayAll(front, hidden, policy), Replay(e, hidden, policy));
    }
  }

  /** If every tool entry comes after the entry that asks for it, then in the rebuilt conversation
      every answer comes after its call. */
  lemma RebuiltOrder(chain: seq<Entry>, policy: Policy)
    requires EntriesFollowRequests(chain, HiddenIds(chain, policy), policy)
    ensures AnswersFollowCalls(Rebuilt(chain, policy))
  {
    var hidden := HiddenIds(chain, policy);
    var all := ReplayAll(chain, hidden, policy);
    ReplayAllIds(chain, hidden, policy);
    SweptOrder(chain, hidden, policy, ResolvedIds(all));
    UnsweptOrder(chain, hidden, policy);
  }
}
