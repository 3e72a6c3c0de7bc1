/** The conversation history of `conversation.py` and the sweep that removes unanswered tool calls. */
module Conversation {

  datatype Role = User | Assistant | Tool

  datatype Block =
    | Text(text: string)
    | Image(data: string)
    | ToolUse(id: string, name: string, arguments: string)
    | ToolResult(id: string, output: string, isError: bool, images: seq<string>)

  datatype Message = Message(role: Role, content: seq<Block>)

  function UserMessage(text: string): Message {
    Message(User, [Text(text)])
  }

  function AssistantText(text: string): Message {
    Message(Assistant, [Text(text)])
  }

  function ToolResultMessage(id: string, output: string, isError: bool, images: seq<string>): Message {
    Message(Tool, [ToolResult(id, output, isError, images)])
  }

  // ----- who calls and who answers -----

  predicate Answers(m: Message, b: Block) {
    m.role.Tool? && b.ToolResult?
  }

  predicate Calls(m: Message, b: Block) {
    m.role.Assistant? && b.ToolUse?
  }

  /** Ids answered by some result in a tool message. */
  ghost function ResolvedIds(ms: seq<Message>): set<string> {
    set m, b | m in ms && b in m.content && Answers(m, b) :: b.id
  }

  /** Ids called by some assistant message. */
  ghost function CalledIds(ms: seq<Message>): set<string> {
    set m, b | m in ms && b in m.content && Calls(m, b) :: b.id
  }

  // ----- the sweep, as a function -----

  function Orphaned(content: seq<Block>, resolved: set<string>): seq<Block> {
    if content == [] then []
    else
      var b := content[|content| - 1];
      Orphaned(content[..|content| - 1], resolved) + if b.ToolUse? && b.id !in resolved then [b] else []
  }

  function Kept(content: seq<Block>, resolved: set<string>): seq<Block> {
    if content == [] then []
    else
      var b := content[|content| - 1];
      Kept(content[..|content| - 1], resolved) + if b.ToolUse? && b.id !in resolved then [] else [b]
  }

  /** Every unanswered call, in order. */
  function OrphansOf(ms: seq<Message>, resolved: set<string>): seq<Block> {
    if ms == [] then []
    else
      var m := ms[|ms| - 1];
      OrphansOf(ms[..|ms| - 1], resolved) + if m.role.Assistant? then Orphaned(m.content, resolved) else []
  }

  ghost function Orphans(ms: seq<Message>): seq<Block> {
    OrphansOf(ms, ResolvedIds(ms))
  }

  /** The message without its unanswered calls, or nothing if that leaves an assistant or tool
      message empty. */
  function Sweep(m: Message, resolved: set<string>): seq<Message> {
    var content := if m.role.Assistant? then Kept(m.content, resolved) else m.content;
    if content == [] && !m.role.User? then [] else [m.(content := content)]
  }

  function SweepAll(ms: seq<Message>, resolved: set<string>): seq<Message> {
    if ms == [] then []
    else SweepAll(ms[..|ms| - 1], resolved) + Sweep(ms[|ms| - 1], resolved)
  }

  /** What stripping leaves: a clean history is not touched at all. */
  ghost function Strip(ms: seq<Message>): seq<Message> {
    if Orphans(ms) == [] then ms else SweepAll(ms, ResolvedIds(ms))
  }

  // ----- exactness -----

  datatype Placed = Placed(role: Role, block: Block)

  function Place(role: Role, content: seq<Block>): seq<Placed> {
    seq(|content|, i requires 0 <= i < |content| => Placed(role, content[i]))
  }

  /** All blocks of a history in order, each with the role that holds it. */
  function Blocks(ms: seq<Message>): seq<Placed> {
    if ms == [] then []
    else Blocks(ms[..|ms| - 1]) + Place(ms[|ms| - 1].role, ms[|ms| - 1].content)
  }

  predicate Survives(p: Placed, resolved: set<string>) {
    !(p.role.Assistant? && p.block.ToolUse? && p.block.id !in resolved)
  }

  function Filtered(ps: seq<Placed>, resolved: set<string>): seq<Placed> {
    if ps == [] then []
    else
      Filtered(ps[..|ps| - 1], resolved)
      + if Survives(ps[|ps| - 1], resolved) then [ps[|ps| - 1]] else []
  }

  lemma {:induction false} FilteredConcat(a: seq<Placed>, b: seq<Placed>, resolved: set<string>)
    ensures Filtered(a + b, resolved) == Filtered(a, resolved) + Filtered(b, resolved)
    decreases |b|
  {
    if b == [] {
      assert a + b == a;
    } else {
      FilteredConcat(a, b[..|b| - 1], resolved);
      assert (a + b)[..|a + b| - 1] == a + b[..|b| - 1];
    }
  }

  lemma {:induction false} KeptPlaced(content: seq<Block>, resolved: set<string>)
    ensures Place(Assistant, Kept(content, resolved)) == Filtered(Place(Assistant, content), resolved)
    ensures |Kept(content, resolved)| + |Orphaned(content, resolved)| == |content|
  {
    if content != [] {
      KeptPlaced(content[..|content| - 1], resolved);
      var ps := Place(Assistant, content);
      assert ps[..|ps| - 1] == Place(Assistant, content[..|content| - 1]);
    }
  }

  lemma {:induction false} OthersPlaced(role: Role, content: seq<Block>, resolved: set<string>)
    requires !role.Assistant?
    ensures Filtered(Place(role, content), resolved) == Place(role, content)
  {
    if content != [] {
      OthersPlaced(role, content[..|content| - 1], resolved);
      var ps := Place(role, content);
      assert ps[..|ps| - 1] == Place(role, content[..|content| - 1]);
    }
  }

  lemma BlocksAppend(ms: seq<Message>, one: seq<Message>)
    requires |one| <= 1
    ensures Blocks(ms + one) == Blocks(ms) + Blocks(one)
  {
    if one == [] {
      assert ms + one == ms;
    } else {
      assert (ms + one)[..|ms|] == ms;
      assert one[..0] == [];
    }
  }

  lemma SweepPlaced(m: Message, resolved: set<string>)
    ensures Blocks(Sweep(m, resolved)) == Filtered(Place(m.role, m.content), resolved)
    ensures |Blocks(Sweep(m, resolved))|
         == |m.content| - if m.role.Assistant? then |Orphaned(m.content, resolved)| else 0
  {
    if m.role.Assistant? {
      KeptPlaced(m.content, resolved);
    } else {
      OthersPlaced(m.role, m.content, resolved);
    }
    var one := Sweep(m, resolved);
    assert one != [] ==> one[..0] == [];
  }

  lemma {:induction false} SweepAllPlaced(ms: seq<Message>, resolved: set<string>)
    ensures Blocks(SweepAll(ms, resolved)) == Filtered(Blocks(ms), resolved)
    ensures |Blocks(ms)| - |Blocks(SweepAll(ms, resolved))| == |OrphansOf(ms, resolved)|
  {
    if ms != [] {
      var front, m := ms[..|ms| - 1], ms[|ms| - 1];
      SweepAllPlaced(front, resolved);
      SweepPlaced(m, resolved);
      BlocksAppend(SweepAll(front, resolved), Sweep(m, resolved));
      FilteredConcat(Blocks(front), Place(m.role, m.content), resolved);
    }
  }

  lemma {:induction false} NothingFiltered(ps: seq<Placed>, resolved: set<string>)
    requires |Filtered(ps, resolved)| == |ps|
    ensures Filtered(ps, resolved) == ps
  {
    if ps != [] {
      FilteredShorter(ps[..|ps| - 1], resolved);
      NothingFiltered(ps[..|ps| - 1], resolved);
    }
  }

  lemma {:induction false} FilteredShorter(ps: seq<Placed>, resolved: set<string>)
    ensures |Filtered(ps, resolved)| <= |ps|
  {
    if ps != [] {
      FilteredShorter(ps[..|ps| - 1], resolved);
    }
  }

  /** Stripping removes exactly the unanswered calls: every other block stays, in order and in its
      role, and the number of blocks lost is the number of orphans. */
  lemma StripIsExact(ms: seq<Message>)
    ensures Blocks(Strip(ms)) == Filtered(Blocks(ms), ResolvedIds(ms))
    ensures |Blocks(ms)| - |Blocks(Strip(ms))| == |Orphans(ms)|
  {
    SweepAllPlaced(ms, ResolvedIds(ms));
    if Orphans(ms) == [] {
      NothingFiltered(Blocks(ms), ResolvedIds(ms));
    }
  }

  // ----- a second call finds nothing -----

  lemma {:induction false} KeptMembers(content: seq<Block>, resolved: set<string>, b: Block)
    ensures b in Kept(content, resolved) <==> b in content && !(b.ToolUse? && b.id !in resolved)
  {
    if content != [] {
      KeptMembers(content[..|content| - 1], resolved, b);
      assert content == content[..|content| - 1] + [content[|content| - 1]];
    }
  }

  /** Blocks of swept messages, by role and membership. */
  lemma {:induction false} SweptMembers(ms: seq<Message>, resolved: set<string>, role: Role, b: Block)
    ensures (exists m :: m in SweepAll(ms, resolved) && m.role == role && b in m.content)
       <==> (exists m :: m in ms && m.role == role && b in m.content)
            && !(role.Assistant? && b.ToolUse? && b.id !in resolved)
  {
    if ms != [] {
      var front, last := ms[..|ms| - 1], ms[|ms| - 1];
      SweptMembers(front, resolved, role, b);
      KeptMembers(last.content, resolved, b);
      assert ms == front + [last];
      var one := Sweep(last, resolved);
      assert last.role == role && b in last.content && !(role.Assistant? && b.ToolUse? && b.id !in resolved)
          ==> one != [] && one[0].role == role && b in one[0].content;
      assert one != [] ==> one[0] in SweepAll(ms, resolved);
      assert forall m :: m in SweepAll(front, resolved) ==> m in SweepAll(ms, resolved);
      assert forall m :: m in SweepAll(ms, resolved) ==> m in SweepAll(front, resolved) || m in one;
    }
  }

  lemma AnswersStay(ms: seq<Message>, resolved: set<string>)
    ensures ResolvedIds(ms) <= ResolvedIds(SweepAll(ms, resolved))
  {
    forall id | id in ResolvedIds(ms)
      ensures id in ResolvedIds(SweepAll(ms, resolved))
    {
      var m, b :| m in ms && b in m.content && Answers(m, b) && b.id == id;
      SweptMembers(ms, resolved, Tool, b);
      var m' :| m' in SweepAll(ms, resolved) && m'.role == Tool && b in m'.content;
      assert Answers(m', b);
    }
  }

  lemma NoNewAnswers(ms: seq<Message>, resolved: set<string>)
    ensures ResolvedIds(SweepAll(ms, resolved)) <= ResolvedIds(ms)
  {
    forall id | id in ResolvedIds(SweepAll(ms, resolved))
      ensures id in ResolvedIds(ms)
    {
      var m, b :| m in SweepAll(ms, resolved) && b in m.content && Answers(m, b) && b.id == id;
      SweptMembers(ms, resolved, Tool, b);
    }
  }

  /** Stripping loses no answer. */
  lemma StripKeepsResults(ms: seq<Message>)
    ensures ResolvedIds(Strip(ms)) == ResolvedIds(ms)
  {
    AnswersStay(ms, ResolvedIds(ms));
    NoNewAnswers(ms, ResolvedIds(ms));
  }

  /** Stripping leaves exactly the answered calls. */
  lemma StripLeavesAnsweredCalls(ms: seq<Message>)
    ensures CalledIds(Strip(ms)) == CalledIds(ms) * ResolvedIds(ms)
  {
    var resolved := ResolvedIds(ms);
    if Orphans(ms) == [] {
      NoOrphansMeansAnswered(ms, resolved);
    } else {
      SweptCalls(ms, resolved);
    }
  }

  lemma SweptCalls(ms: seq<Message>, resolved: set<string>)
    ensures CalledIds(SweepAll(ms, resolved)) == CalledIds(ms) * resolved
  {
    var after := SweepAll(ms, resolved);
    forall id | id in CalledIds(ms) * resolved
      ensures id in CalledIds(after)
    {
      var m, b :| m in ms && b in m.content && Calls(m, b) && b.id == id;
      SweptMembers(ms, resolved, Assistant, b);
    }
    forall id | id in CalledIds(after)
      ensures id in CalledIds(ms) * resolved
    {
      var m, b :| m in after && b in m.content && Calls(m, b) && b.id == id;
      SweptMembers(ms, resolved, Assistant, b);
    }
  }

  lemma {:induction false} OrphanedMembers(content: seq<Block>, resolved: set<string>, b: Block)
    ensures b in Orphaned(content, resolved) <==> b in content && b.ToolUse? && b.id !in resolved
  {
    if content != [] {
      OrphanedMembers(content[..|content| - 1], resolved, b);
      assert content == content[..|content| - 1] + [content[|content| - 1]];
    }
  }

  lemma {:induction false} OrphanMembers(ms: seq<Message>, resolved: set<string>, b: Block)
    ensures b in OrphansOf(ms, resolved)
       <==> (exists m :: m in ms && m.role.Assistant? && b in m.content) && b.ToolUse? && b.id !in resolved
  {
    if ms != [] {
      OrphanMembers(ms[..|ms| - 1], resolved, b);
      OrphanedMembers(ms[|ms| - 1].content, resolved, b);
      assert ms == ms[..|ms| - 1] + [ms[|ms| - 1]];
    }
  }

  lemma NoOrphansMeansAnswered(ms: seq<Message>, resolved: set<string>)
    ensures OrphansOf(ms, resolved) == [] <==> CalledIds(ms) <= resolved
  {
    if OrphansOf(ms, resolved) == [] {
      forall id | id in CalledIds(ms)
        ensures id in resolved
      {
        var m, b :| m in ms && b in m.content && Calls(m, b) && b.id == id;
        OrphanMembers(ms, resolved, b);
      }
    } else {
      var b := OrphansOf(ms, resolved)[0];
      OrphanMembers(ms, resolved, b);
      var m :| m in ms && m.role.Assistant? && b in m.content;
      assert Calls(m, b);
      assert b.id in CalledIds(ms);
    }
  }

  /** After stripping, every call is answered; so a second call finds nothing and changes nothing. */
  lemma StripIsIdempotent(ms: seq<Message>)
    ensures CalledIds(Strip(ms)) <= ResolvedIds(Strip(ms))
    ensures Orphans(Strip(ms)) == [] && Strip(Strip(ms)) == Strip(ms)
  {
    StripKeepsResults(ms);
    StripLeavesAnsweredCalls(ms);
    NoOrphansMeansAnswered(Strip(ms), ResolvedIds(ms));
  }

  // ----- the two passes over the list -----

  /** The first pass looks at assistant messages only. */
  function SweepCalls(ms: seq<Message>, resolved: set<string>): seq<Message> {
    if ms == [] then []
    else
      var m := ms[|ms| - 1];
      SweepCalls(ms[..|ms| - 1], resolved) + if m.role.Assistant? then Sweep(m, resolved) else [m]
  }

  /** The second pass drops tool messages that hold nothing. */
  function DropEmptyTools(ms: seq<Message>): seq<Message> {
    if ms == [] then []
    else
      var m := ms[|ms| - 1];
      DropEmptyTools(ms[..|ms| - 1]) + if m.role.Tool? && m.content == [] then [] else [m]
  }

  lemma DropSnoc(ms: seq<Message>, one: seq<Message>)
    requires |one| <= 1
    ensures DropEmptyTools(ms + one) == DropEmptyTools(ms) + DropEmptyTools(one)
  {
    if one == [] {
      assert ms + one == ms;
    } else {
      assert (ms + one)[..|ms|] == ms;
      assert one[..0] == [];
    }
  }

  lemma {:induction false} TwoPasses(ms: seq<Message>, resolved: set<string>)
    ensures DropEmptyTools(SweepCalls(ms, resolved)) == SweepAll(ms, resolved)
  {
    if ms != [] {
      var front, m := ms[..|ms| - 1], ms[|ms| - 1];
      TwoPasses(front, resolved);
      var one := if m.role.Assistant? then Sweep(m, resolved) else [m];
      DropSnoc(SweepCalls(front, resolved), one);
      assert one != [] ==> one[..0] == [];
    }
  }

  lemma {:induction false} NoEmptyAssistants(ms: seq<Message>, resolved: set<string>)
    ensures Message(Assistant, []) !in SweepCalls(ms, resolved)
  {
    if ms != [] {
      NoEmptyAssistants(ms[..|ms| - 1], resolved);
    }
  }

  /** The comprehension that filters an assistant's blocks by the ids to strip. */
  function WithoutCalls(content: seq<Block>, ids: set<string>): seq<Block> {
    if content == [] then []
    else
      var b := content[|content| - 1];
      WithoutCalls(content[..|content| - 1], ids) + if b.ToolUse? && b.id in ids then [] else [b]
  }

  /** The comprehension that filters a tool message's blocks by the ids to strip. */
  function WithoutResults(content: seq<Block>, ids: set<string>): seq<Block> {
    if content == [] then []
    else
      var b := content[|content| - 1];
      WithoutResults(content[..|content| - 1], ids) + if b.ToolResult? && b.id in ids then [] else [b]
  }

  lemma {:induction false} WithoutCallsIsKept(content: seq<Block>, ids: set<string>, resolved: set<string>)
    requires forall b :: b in content && b.ToolUse? ==> (b.id in ids <==> b.id !in resolved)
    ensures WithoutCalls(content, ids) == Kept(content, resolved)
  {
    if content != [] {
      WithoutCallsIsKept(content[..|content| - 1], ids, resolved);
      assert content[|content| - 1] in content;
    }
  }

  lemma {:induction false} WithoutResultsIsAll(content: seq<Block>, ids: set<string>)
    requires forall b :: b in content && b.ToolResult? ==> b.id !in ids
    ensures WithoutResults(content, ids) == content
  {
    if content != [] {
      WithoutResultsIsAll(content[..|content| - 1], ids);
      assert content[|content| - 1] in content;
      assert content == content[..|content| - 1] + [content[|content| - 1]];
    }
  }

  /** The ids to strip separate the unanswered calls from everything that is answered. */
  ghost predicate Separates(ids: set<string>, ms: seq<Message>, resolved: set<string>) {
    && ids !! resolved
    && forall m, b :: m in ms && b in m.content && Calls(m, b) && b.id !in resolved ==> b.id in ids
  }

  lemma OrphanIdsSeparate(ms: seq<Message>, ids: set<string>)
    requires ids == set b | b in Orphans(ms) && b.ToolUse? :: b.id
    ensures Separates(ids, ms, ResolvedIds(ms))
  {
    var resolved := ResolvedIds(ms);
    forall m, b | m in ms && b in m.content && Calls(m, b) && b.id !in resolved
      ensures b.id in ids
    {
      OrphanMembers(ms, resolved, b);
    }
    forall id | id in ids
      ensures id !in resolved
    {
      var b :| b in Orphans(ms) && b.ToolUse? && b.id == id;
      OrphanMembers(ms, resolved, b);
    }
  }

  /** Python's `list.remove`: drops the first element equal to `m`. */
  method RemoveFirst(ms: seq<Message>, m: Message) returns (r: seq<Message>, ghost p: nat)
    requires m in ms
    ensures p < |ms| && ms[p] == m && m !in ms[..p]
    ensures r == ms[..p] + ms[p + 1..]
  {
    var i := 0;
    while ms[i] != m
      invariant 0 <= i < |ms|
      invariant m !in ms[..i] && m in ms[i..]
      decreases |ms| - i
    {
      i := i + 1;
    }
    return ms[..i] + ms[i + 1..], i;
  }

  lemma OneFirst(ms: seq<Message>, m: Message, p: nat, q: nat)
    requires p < |ms| && ms[p] == m && m !in ms[..p]
    requires q < |ms| && ms[q] == m && m !in ms[..q]
    ensures p == q
  {
    assert forall i :: 0 <= i < p ==> ms[..p][i] == ms[i];
    assert forall i :: 0 <= i < q ==> ms[..q][i] == ms[i];
  }

  /** Rewriting the message behind `done`, and removing it by equality if nothing of it is left. */
  method Rewrite(r: seq<Message>, ghost done: seq<Message>, p: nat, ghost rest: seq<Message>, m: Message)
    returns (r': seq<Message>)
    requires p == |done| && m.role.Assistant? && Message(Assistant, []) !in done
    requires |r| == |done| + 1 + |rest| && r[..p] == done && r[p + 1..] == rest
    ensures r' == done + (if m.content == [] then [] else [m]) + rest
  {
    r' := r[p := m];
    assert r' == done + [m] + rest;
    if m.content == [] {
      ghost var q;
      r', q := RemoveFirst(r', m);
      assert (done + [m] + rest)[..p] == done;
      OneFirst(done + [m] + rest, m, p, q);
    }
  }

  /** First pass: rewrites each assistant message where it now stands, and removes it by equality
      when nothing is left.  Removal by equality never hits an earlier message, because no earlier
      assistant message is empty. */
  method StripCalls(ms: seq<Message>, ids: set<string>, ghost resolved: set<string>) returns (r: seq<Message>)
    requires Separates(ids, ms, resolved)
    ensures r == SweepCalls(ms, resolved)
  {
    r := ms;
    var p := 0;
    for k := 0 to |ms|
      invariant p == |SweepCalls(ms[..k], resolved)|
      invariant r == SweepCalls(ms[..k], resolved) + ms[k..]
    {
      ghost var done := SweepCalls(ms[..k], resolved);
      SweepNext(ms, k, done, resolved);
      if !ms[k].role.Assistant? {
        p := p + 1;
        continue;
      }
      StripHere(ms, ms[k], ids, resolved);
      NoEmptyAssistants(ms[..k], resolved);
      var m := r[p].(content := WithoutCalls(r[p].content, ids));
      r := Rewrite(r, done, p, ms[k + 1..], m);
      if m.content != [] {
        p := p + 1;
      }
    }
    assert ms[..|ms|] == ms;
  }

  lemma SweepNext(ms: seq<Message>, k: nat, done: seq<Message>, resolved: set<string>)
    requires k < |ms| && done == SweepCalls(ms[..k], resolved)
    ensures SweepCalls(ms[..k + 1], resolved)
         == done + if ms[k].role.Assistant? then Sweep(ms[k], resolved) else [ms[k]]
    ensures done + ms[k..] == (done + [ms[k]]) + ms[k + 1..]
    ensures (done + ms[k..])[..|done|] == done && (done + ms[k..])[|done| + 1..] == ms[k + 1..]
  {
    assert ms[..k + 1][..k] == ms[..k];
    NextInPlace(done, ms, k);
  }

  lemma NextInPlace(done: seq<Message>, ms: seq<Message>, k: nat)
    requires k < |ms|
    ensures done + ms[k..] == (done + [ms[k]]) + ms[k + 1..]
    ensures (done + ms[k..])[..|done|] == done && (done + ms[k..])[|done| + 1..] == ms[k + 1..]
  {}

  lemma StripHere(ms: seq<Message>, m: Message, ids: set<string>, resolved: set<string>)
    requires Separates(ids, ms, resolved) && m in ms && m.role.Assistant?
    ensures WithoutCalls(m.content, ids) == Kept(m.content, resolved)
  {
    forall b | b in m.content && b.ToolUse?
      ensures b.id in ids <==> b.id !in resolved
    {
      assert Calls(m, b);
    }
    WithoutCallsIsKept(m.content, ids, resolved);
  }

  /** Second pass: drops a tool message when all it holds refers to stripped calls. */
  method StripResults(ms: seq<Message>, ids: set<string>) returns (surviving: seq<Message>)
    requires ids !! ResolvedIds(ms)
    ensures surviving == DropEmptyTools(ms)
  {
    surviving := [];
    for k := 0 to |ms|
      invariant surviving == DropEmptyTools(ms[..k])
    {
      var m := ms[k];
      assert ms[..k + 1][..k] == ms[..k];
      if !m.role.Tool? {
        surviving := surviving + [m];
        continue;
      }
      ResultsStay(ms, m, ids);
      var remaining := WithoutResults(m.content, ids);
      if remaining != [] {
        surviving := surviving + [m.(content := remaining)];
      }
    }
    assert ms[..|ms|] == ms;
  }

  lemma ResultsStay(ms: seq<Message>, m: Message, ids: set<string>)
    requires ids !! ResolvedIds(ms) && m in ms && m.role.Tool?
    ensures WithoutResults(m.content, ids) == m.content
  {
    forall b | b in m.content && b.ToolResult?
      ensures b.id !in ids
    {
      assert Answers(m, b);
      assert b.id in ResolvedIds(ms);
    }
    WithoutResultsIsAll(m.content, ids);
  }

  lemma {:induction false} SweepCallsKeepsTools(ms: seq<Message>, resolved: set<string>, m: Message)
    requires m.role.Tool?
    ensures m in SweepCalls(ms, resolved) <==> m in ms
  {
    if ms != [] {
      SweepCallsKeepsTools(ms[..|ms| - 1], resolved, m);
      assert ms == ms[..|ms| - 1] + [ms[|ms| - 1]];
    }
  }

  lemma SweepCallsKeepsResults(ms: seq<Message>, resolved: set<string>)
    ensures ResolvedIds(SweepCalls(ms, resolved)) <= ResolvedIds(ms)
  {
    forall id | id in ResolvedIds(SweepCalls(ms, resolved))
      ensures id in ResolvedIds(ms)
    {
      var m, b :| m in SweepCalls(ms, resolved) && b in m.content && Answers(m, b) && b.id == id;
      SweepCallsKeepsTools(ms, resolved, m);
    }
  }

  lemma ResolvedGrow(ms: seq<Message>, m: Message, j: nat)
    requires j < |m.content|
    ensures ResolvedIds(ms + [m.(content := m.content[..j + 1])])
         == ResolvedIds(ms + [m.(content := m.content[..j])])
            + if Answers(m, m.content[j]) then {m.content[j].id} else {}
  {
    var small, large := m.(content := m.content[..j]), m.(content := m.content[..j + 1]);
    assert large.content == small.content + [m.content[j]];
    var a, b := ms + [small], ms + [large];
    assert large in b && small in a;
    assert Answers(large, m.content[j]) <==> Answers(m, m.content[j]);
    forall id | id in ResolvedIds(a)
      ensures id in ResolvedIds(b)
    {
      var x, y :| x in a && y in x.content && Answers(x, y) && y.id == id;
      if x == small {
        assert y in large.content && Answers(large, y);
      } else {
        assert x in b;
      }
    }
    forall id | id in ResolvedIds(b)
      ensures id in ResolvedIds(a) || (Answers(m, m.content[j]) && id == m.content[j].id)
    {
      var x, y :| x in b && y in x.content && Answers(x, y) && y.id == id;
      if x == large {
        assert y in small.content ==> Answers(small, y);
      } else {
        assert x in a;
      }
    }
  }

  lemma ResolvedEmpty(ms: seq<Message>, role: Role)
    ensures ResolvedIds(ms + [Message(role, [])]) == ResolvedIds(ms)
  {
    var more := ms + [Message(role, [])];
    assert forall m :: m in more ==> m in ms || m.content == [];
    assert forall m :: m in ms ==> m in more;
  }

  class Conversation {
    var messages: seq<Message>

    constructor ()
      ensures messages == []
    {
      messages := [];
    }

    method Append(m: Message)
      modifies this
      ensures messages == old(messages) + [m]
    {
      messages := messages + [m];
    }

    /** Every id answered anywhere in the history. */
    method CollectResolved() returns (ids: set<string>)
      ensures ids == ResolvedIds(messages)
    {
      ids := {};
      for i := 0 to |messages|
        invariant ids == ResolvedIds(messages[..i])
      {
        var m := messages[i];
        ResolvedEmpty(messages[..i], m.role);
        assert m.(content := m.content[..0]) == Message(m.role, []);
        for j := 0 to |m.content|
          invariant ids == ResolvedIds(messages[..i] + [m.(content := m.content[..j])])
        {
          ResolvedGrow(messages[..i], m, j);
          if m.role.Tool? && m.content[j].ToolResult? {
            ids := ids + {m.content[j].id};
          }
        }
        assert m.(content := m.content[..|m.content|]) == m;
        assert messages[..i + 1] == messages[..i] + [m];
      }
      assert messages[..|messages|] == messages;
    }

    /** Every call without an answer anywhere in the history, in order. */
    method AllUnresolvedToolCalls() returns (orphans: seq<Block>)
      ensures orphans == Orphans(messages)
    {
      var resolved := CollectResolved();
      orphans := [];
      for i := 0 to |messages|
        invariant orphans == OrphansOf(messages[..i], resolved)
      {
        var m := messages[i];
        assert messages[..i + 1][..i] == messages[..i];
        if m.role.Assistant? {
          ghost var before := orphans;
          for j := 0 to |m.content|
            invariant orphans == before + Orphaned(m.content[..j], resolved)
          {
            assert m.content[..j + 1][..j] == m.content[..j];
            if m.content[j].ToolUse? && m.content[j].id !in resolved {
              orphans := orphans + [m.content[j]];
            }
          }
          assert m.content[..|m.content|] == m.content;
        }
      }
      assert messages[..|messages|] == messages;
    }

    /** Strips the unanswered calls and returns how many blocks that removed. */
    method StripOrphanedToolCalls() returns (removed: nat)
      modifies this
      ensures messages == Strip(old(messages))
      ensures removed == |Orphans(old(messages))|
    {
      var orphans := AllUnresolvedToolCalls();
      if orphans == [] {
        return 0;
      }
      var ids := set b | b in orphans && b.ToolUse? :: b.id;
      ghost var resolved := ResolvedIds(messages);
      OrphanIdsSeparate(messages, ids);
      SweepCallsKeepsResults(messages, resolved);
      TwoPasses(messages, resolved);
      var swept := StripCalls(messages, ids, resolved);
      messages := StripResults(swept, ids);
      return |orphans|;
    }
  }
}
