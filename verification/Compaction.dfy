/** The two cost-free layers of compaction in `compact.py`: truncating old tool results, and removing
    whole rounds of read-only tool calls.
*/
module Compaction {
  import opened Conversation
  import Decimal

  /** What the layers are parameterised by: the tool sets, and the length of the dump of a block
      that is neither text nor a tool result. */
  datatype Rules = Rules(snippable: set<string>, readOnly: set<string>, dump: Block -> nat)

  function BlockChars(r: Rules, b: Block): nat {
    match b
    case Text(text) => |text|
    case ToolResult(_, output, _, _) => |output|
    case _ => r.dump(b)
  }

  function Chars(r: Rules, content: seq<Block>): nat {
    if content == [] then 0
    else Chars(r, content[..|content| - 1]) + BlockChars(r, content[|content| - 1])
  }

  function TotalChars(r: Rules, ms: seq<Message>): nat {
    if ms == [] then 0 else TotalChars(r, ms[..|ms| - 1]) + Chars(r, ms[|ms| - 1].content)
  }

  // ----- layer 1: snip -----

  /** Which tool an id belongs to; a later call takes over an id. */
  function NamesIn(content: seq<Block>, names: map<string, string>): map<string, string> {
    if content == [] then names
    else
      var b := content[|content| - 1];
      var front := NamesIn(content[..|content| - 1], names);
      if b.ToolUse? then front[b.id := b.name] else front
  }

  function ToolNames(ms: seq<Message>): map<string, string> {
    if ms == [] then map[] else NamesIn(ms[|ms| - 1].content, ToolNames(ms[..|ms| - 1]))
  }

  method BuildToolNameIndex(ms: seq<Message>) returns (names: map<string, string>)
    ensures names == ToolNames(ms)
  {
    names := map[];
    for i := 0 to |ms|
      invariant names == ToolNames(ms[..i])
    {
      assert ms[..i + 1][..i] == ms[..i];
      ghost var before := names;
      var content := ms[i].content;
      for j := 0 to |content|
        invariant names == NamesIn(content[..j], before)
      {
        assert content[..j + 1][..j] == content[..j];
        if content[j].ToolUse? {
          names := names[content[j].id := content[j].name];
        }
      }
      assert content[..|content|] == content;
    }
    assert ms[..|ms|] == ms;
  }

  function Placeholder(n: nat): string {
    "[result truncated \U{2014} " + Decimal.Print(n) + " chars]"
  }

  /** A result of a snippable tool that is long and longer than its placeholder. */
  predicate Snippable(r: Rules, names: map<string, string>, b: Block) {
    && b.ToolResult? && b.id in names && names[b.id] in r.snippable
    && |b.output| > 100 && |b.output| > |Placeholder(|b.output|)|
  }

  function SnipBlock(r: Rules, names: map<string, string>, b: Block): Block {
    if Snippable(r, names, b) then ToolResult(b.id, Placeholder(|b.output|), b.isError, []) else b
  }

  function SnipContent(r: Rules, names: map<string, string>, content: seq<Block>): seq<Block> {
    seq(|content|, i requires 0 <= i < |content| => SnipBlock(r, names, content[i]))
  }

  function SnipMessage(r: Rules, names: map<string, string>, m: Message): Message {
    m.(content := SnipContent(r, names, m.content))
  }

  function SnipAt(r: Rules, names: map<string, string>, ms: seq<Message>, cutoff: nat, i: nat): Message
    requires i < |ms|
  {
    if i < cutoff then SnipMessage(r, names, ms[i]) else ms[i]
  }

  /** The first `cutoff` messages are snipped, the others are as they were. */
  ghost predicate Snipped(r: Rules, ms: seq<Message>, cutoff: nat, s: seq<Message>) {
    |s| == |ms| && forall i :: 0 <= i < |ms| ==> s[i] == SnipAt(r, ToolNames(ms), ms, cutoff, i)
  }

  function Cutoff(ms: seq<Message>, protectedTail: nat): (cutoff: nat)
    ensures cutoff <= |ms|
  {
    if |ms| <= protectedTail then 0 else |ms| - protectedTail
  }

  lemma CharsSnoc(r: Rules, content: seq<Block>, b: Block)
    ensures Chars(r, content + [b]) == Chars(r, content) + BlockChars(r, b)
  {
    assert (content + [b])[..|content|] == content;
  }

  lemma TotalSnoc(r: Rules, ms: seq<Message>, m: Message)
    ensures TotalChars(r, ms + [m]) == TotalChars(r, ms) + Chars(r, m.content)
  {
    assert (ms + [m])[..|ms|] == ms;
  }

  method TrySnip(r: Rules, names: map<string, string>, b: Block) returns (b': Block, freed: nat)
    ensures b' == SnipBlock(r, names, b) && freed == BlockChars(r, b) - BlockChars(r, b')
  {
    b', freed := b, 0;
    if b.ToolResult? && b.id in names && names[b.id] in r.snippable && |b.output| > 100 {
      var placeholder := Placeholder(|b.output|);
      if |b.output| - |placeholder| > 0 {
        freed := |b.output| - |placeholder|;
        b' := ToolResult(b.id, placeholder, b.isError, []);
      }
    }
  }

  lemma CharsFreed(r: Rules, content: seq<Block>, j: nat, done: seq<Block>, b: Block)
    requires j < |content|
    ensures Chars(r, content[..j + 1]) - Chars(r, done + [b])
         == Chars(r, content[..j]) - Chars(r, done) + (BlockChars(r, content[j]) - BlockChars(r, b))
  {
    CharsSnoc(r, done, b);
    CharsSnoc(r, content[..j], content[j]);
    assert content[..j + 1] == content[..j] + [content[j]];
  }

  method SnipOne(r: Rules, names: map<string, string>, m: Message) returns (m': Message, freed: nat)
    ensures m' == SnipMessage(r, names, m)
    ensures freed == Chars(r, m.content) - Chars(r, m'.content)
  {
    var content := [];
    freed := 0;
    for j := 0 to |m.content|
      invariant content == SnipContent(r, names, m.content[..j])
      invariant freed == Chars(r, m.content[..j]) - Chars(r, content)
    {
      var b', n := TrySnip(r, names, m.content[j]);
      CharsFreed(r, m.content, j, content, b');
      freed := freed + n;
      content := content + [b'];
    }
    assert m.content[..|m.content|] == m.content;
    m' := m.(content := content);
  }

  /** Layer 1 rewrites only messages before the protected tail, and reports exactly the characters
      it freed. */
  method SnipToolResults(r: Rules, ms: seq<Message>, protectedTail: nat) returns (result: seq<Message>, freed: nat)
    ensures Snipped(r, ms, Cutoff(ms, protectedTail), result)
    ensures freed == TotalChars(r, ms) - TotalChars(r, result)
  {
    if |ms| <= protectedTail {
      return ms, 0;
    }
    var names := BuildToolNameIndex(ms);
    var cutoff := |ms| - protectedTail;
    result, freed := SnipUpTo(r, names, ms, cutoff);
  }

  lemma TotalFreed(r: Rules, ms: seq<Message>, i: nat, done: seq<Message>, m: Message)
    requires i < |ms|
    ensures TotalChars(r, ms[..i + 1]) - TotalChars(r, done + [m])
         == TotalChars(r, ms[..i]) - TotalChars(r, done) + (Chars(r, ms[i].content) - Chars(r, m.content))
  {
    TotalSnoc(r, done, m);
    TotalSnoc(r, ms[..i], ms[i]);
    assert ms[..i + 1] == ms[..i] + [ms[i]];
  }

  method SnipUpTo(r: Rules, names: map<string, string>, ms: seq<Message>, cutoff: nat)
    returns (result: seq<Message>, freed: nat)
    ensures |result| == |ms| && forall k :: 0 <= k < |ms| ==> result[k] == SnipAt(r, names, ms, cutoff, k)
    ensures freed == TotalChars(r, ms) - TotalChars(r, result)
  {
    result, freed := [], 0;
    for i := 0 to |ms|
      invariant |result| == i && forall k :: 0 <= k < i ==> result[k] == SnipAt(r, names, ms, cutoff, k)
      invariant freed == TotalChars(r, ms[..i]) - TotalChars(r, result)
    {
      var m := ms[i];
      var n := 0;
      if i < cutoff {
        m, n := SnipOne(r, names, m);
      }
      TotalFreed(r, ms, i, result, m);
      freed := freed + n;
      result := result + [m];
    }
    assert ms[..|ms|] == ms;
  }

  predicate SameKind(a: Block, b: Block) {
    || a == b
    || (a.ToolResult? && b.ToolResult? && a.id == b.id)
  }

  /** Message by message and block by block, only the output of results differs. */
  ghost predicate SameShape(s: seq<Message>, ms: seq<Message>) {
    && |s| == |ms|
    && (forall i :: 0 <= i < |ms| ==> s[i].role == ms[i].role && |s[i].content| == |ms[i].content|)
    && (forall i, j :: 0 <= i < |ms| && 0 <= j < |ms[i].content| ==> SameKind(s[i].content[j], ms[i].content[j]))
  }

  lemma SnipShape(r: Rules, ms: seq<Message>, cutoff: nat, s: seq<Message>)
    requires Snipped(r, ms, cutoff, s)
    ensures SameShape(s, ms) && SameShape(ms, s)
  {}

  lemma SubIds(s: seq<Message>, ms: seq<Message>)
    requires SameShape(ms, s)
    ensures CalledIds(s) <= CalledIds(ms) && ResolvedIds(s) <= ResolvedIds(ms)
  {
    forall id | id in CalledIds(s)
      ensures id in CalledIds(ms)
    {
      var m, b :| m in s && b in m.content && Calls(m, b) && b.id == id;
      var i :| 0 <= i < |s| && s[i] == m;
      var j :| 0 <= j < |m.content| && m.content[j] == b;
      assert Calls(ms[i], ms[i].content[j]) && ms[i].content[j].id == id;
    }
    forall id | id in ResolvedIds(s)
      ensures id in ResolvedIds(ms)
    {
      var m, b :| m in s && b in m.content && Answers(m, b) && b.id == id;
      var i :| 0 <= i < |s| && s[i] == m;
      var j :| 0 <= j < |m.content| && m.content[j] == b;
      assert Answers(ms[i], ms[i].content[j]) && ms[i].content[j].id == id;
    }
  }

  /** Snipping keeps every role, every call and answer id, and the whole protected tail. */
  lemma SnipKeepsPairing(r: Rules, ms: seq<Message>, cutoff: nat, s: seq<Message>)
    requires cutoff <= |ms| && Snipped(r, ms, cutoff, s)
    ensures SameShape(s, ms) && s[cutoff..] == ms[cutoff..]
    ensures CalledIds(s) == CalledIds(ms) && ResolvedIds(s) == ResolvedIds(ms)
  {
    SnipShape(r, ms, cutoff, s);
    SubIds(s, ms);
    SubIds(ms, s);
  }

  // ----- exactly which results are snipped -----

  /** The last block in a row that calls under this id calls a tool of this name. */
  ghost predicate LastNamed(ps: seq<Placed>, id: string, name: string) {
    exists k :: 0 <= k < |ps| && NamedAt(ps, k, id) && ps[k].block.name == name
                && forall l :: k < l < |ps| ==> !NamedAt(ps, l, id)
  }

  predicate NamedAt(ps: seq<Placed>, k: nat, id: string)
    requires k < |ps|
  {
    ps[k].block.ToolUse? && ps[k].block.id == id
  }

  lemma LastNamedSnoc(ps: seq<Placed>, p: Placed, id: string, name: string)
    ensures LastNamed(ps + [p], id, name)
       <==> if p.block.ToolUse? && p.block.id == id then name == p.block.name else LastNamed(ps, id, name)
  {
    var more := ps + [p];
    assert forall k :: 0 <= k < |ps| ==> (NamedAt(more, k, id) <==> NamedAt(ps, k, id)) && more[k] == ps[k];
    assert NamedAt(more, |ps|, id) <==> p.block.ToolUse? && p.block.id == id;
    if k :| 0 <= k < |ps| && NamedAt(ps, k, id) && ps[k].block.name == name
            && forall l :: k < l < |ps| ==> !NamedAt(ps, l, id) {
      assert NamedAt(more, k, id);
    }
  }

  lemma {:induction false} NamesInAre(ps: seq<Placed>, role: Role, content: seq<Block>, names: map<string, string>,
                                      id: string, name: string)
    requires id in names && names[id] == name <==> LastNamed(ps, id, name)
    ensures var r := NamesIn(content, names);
            id in r && r[id] == name <==> LastNamed(ps + Place(role, content), id, name)
  {
    if content == [] {
      assert ps + Place(role, content) == ps;
    } else {
      var front, b := content[..|content| - 1], content[|content| - 1];
      NamesInAre(ps, role, front, names, id, name);
      assert ps + Place(role, content) == ps + Place(role, front) + [Placed(role, b)];
      LastNamedSnoc(ps + Place(role, front), Placed(role, b), id, name);
    }
  }

  /** An id belongs to the tool that was called under it last. */
  lemma {:induction false} NamesAreLast(ms: seq<Message>, id: string, name: string)
    ensures id in ToolNames(ms) && ToolNames(ms)[id] == name <==> LastNamed(Blocks(ms), id, name)
  {
    if ms != [] {
      var front, m := ms[..|ms| - 1], ms[|ms| - 1];
      NamesAreLast(front, id, name);
      NamesInAre(Blocks(front), m.role, m.content, ToolNames(front), id, name);
    }
  }

  lemma {:induction false} PrintIsShort(n: nat)
    ensures |Decimal.Print(n)| <= n / 10 + 1
  {
    if n >= 10 {
      PrintIsShort(n / 10);
    }
  }

  /** The placeholder is shorter than any output of more than 100 characters, and tells its length. */
  lemma PlaceholderTells(n: nat)
    ensures n > 100 ==> |Placeholder(n)| < n
    ensures var p := Placeholder(n);
            |p| > 27 && p[..20] == "[result truncated \U{2014} " && Decimal.Read(p[20..|p| - 7]) == n
  {
    PrintIsShort(n);
    Decimal.ReadPrint(n);
    var p, front := Placeholder(n), "[result truncated \U{2014} ";
    assert |front| == 20;
    assert p[..20] == front && p[20..|p| - 7] == Decimal.Print(n);
  }

  /** A block is changed if and only if it stands before the protected tail and is a result of more than 100
      characters of a tool that may be snipped; it then keeps its id and its error flag, has no images and
      tells in fewer characters how many there were. */
  lemma SnippedIff(r: Rules, ms: seq<Message>, cutoff: nat, s: seq<Message>, i: nat, j: nat)
    requires Snipped(r, ms, cutoff, s) && i < |ms| && j < |ms[i].content|
    ensures |s[i].content| == |ms[i].content| && s[i].role == ms[i].role
    ensures var b, b' := ms[i].content[j], s[i].content[j];
            && (b' != b <==>
                  && i < cutoff && b.ToolResult? && |b.output| > 100
                  && exists name :: name in r.snippable && LastNamed(Blocks(ms), b.id, name))
            && (b' != b ==>
                  && b'.ToolResult? && b'.id == b.id && b'.isError == b.isError && b'.images == []
                  && 27 < |b'.output| < |b.output| && Decimal.Read(b'.output[20..|b'.output| - 7]) == |b.output|)
  {
    hide Placeholder, LastNamed, Blocks, ToolNames;
    var b := ms[i].content[j];
    assert s[i] == SnipAt(r, ToolNames(ms), ms, cutoff, i);
    if b.ToolResult? {
      PlaceholderTells(|b.output|);
      forall name
        ensures b.id in ToolNames(ms) && ToolNames(ms)[b.id] == name <==> LastNamed(Blocks(ms), b.id, name)
      {
        NamesAreLast(ms, b.id, name);
      }
    }
  }
}
