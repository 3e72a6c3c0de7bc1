/** The session adapter of `agent-session-adapter.ts`: it turns a stream of session updates into
    messages and display events, live while a prompt runs, and again when a session is replayed.
*/
module SessionAdapter {
  import opened Wrappers

  datatype Boundary = NoBoundary | AgentStart | AgentEnd

  datatype Update =
    | UserChunk(text: string)
    | MessageChunk(text: string)
    | ThoughtChunk(text: string)
    | ToolCall(id: string, title: string, arguments: string)
    | ToolCallUpdate(id: string, title: string, status: string, boundary: Boundary)
    | Ambient(kind: string)

  datatype Block =
    | Text(text: string)
    | Thinking(text: string)
    | Call(id: string, name: string, arguments: string)

  datatype Message = User(text: string) | Assistant(content: seq<Block>, stopReason: string)

  /** What listeners are told.  A segment is a stretch of assistant output between tool calls. */
  datatype Event =
    | UserShown(text: string)
    | AgentBegin
    | AgentFinish
    | SegmentBegin
    | SegmentGrew(content: seq<Block>)
    | SegmentEnd(content: seq<Block>, stopReason: string)
    | ToolBegin(id: string, name: string, arguments: string)
    | ToolProgress(id: string, name: string, status: string)

  /** The adapter's transcript state.  While an assistant message is active it is the last message.
      `since` is the length of the event log when that message was created. */
  datatype State = State(
    messages: seq<Message>, active: bool, segment: Option<seq<Block>>,
    depth: nat, toolNames: map<string, string>, events: seq<Event>, since: nat)

  const FRESH := State([], false, None, 0, map[], [], 0)

  // ----- assistant content -----

  /** Text is merged into a last block of its own kind. */
  function AppendContent(content: seq<Block>, thinking: bool, text: string): (r: seq<Block>)
    ensures r != []
  {
    var n := |content|;
    if n > 0 && thinking && content[n - 1].Thinking? then content[..n - 1] + [Thinking(content[n - 1].text + text)]
    else if n > 0 && !thinking && content[n - 1].Text? then content[..n - 1] + [Text(content[n - 1].text + text)]
    else content + [if thinking then Thinking(text) else Text(text)]
  }

  function Content(s: State): seq<Block> {
    if s.active && s.messages != [] && s.messages[|s.messages| - 1].Assistant?
    then s.messages[|s.messages| - 1].content else []
  }

  function SetContent(ms: seq<Message>, content: seq<Block>): seq<Message>
    requires ms != []
  {
    ms[..|ms| - 1] + [Assistant(content, "")]
  }

  function EndSegment(s: State, stopReason: string): State {
    if s.segment.None? then s
    else s.(segment := None, events := s.events + [SegmentEnd(s.segment.value, stopReason)])
  }

  function Append(s: State, thinking: bool, text: string): State {
    if text == "" || !s.active || s.messages == [] then s
    else
      var began := if s.segment.None? then [SegmentBegin] else [];
      var segment := AppendContent(if s.segment.None? then [] else s.segment.value, thinking, text);
      s.(messages := SetContent(s.messages, AppendContent(Content(s), thinking, text)),
         segment := Some(segment),
         events := s.events + began + [SegmentGrew(segment)])
  }

  function StartTool(s: State, id: string, name: string, arguments: string): State {
    if id == "" then s
    else
      var named := s.(toolNames := s.toolNames[id := name]);
      var pushed := if s.active && s.messages != []
                    then named.(messages := SetContent(s.messages, Content(s) + [Call(id, name, arguments)]))
                    else named;
      var ended := EndSegment(pushed, "tool_use");
      ended.(events := ended.events + [ToolBegin(id, name, arguments)])
  }

  function UpdateTool(s: State, id: string, title: string, status: string): State {
    if id == "" then s
    else
      var name := if id in s.toolNames then s.toolNames[id] else title;
      s.(events := s.events + [ToolProgress(id, name, status)])
  }

  // ----- subagent brackets -----

  predicate IsBoundary(u: Update) {
    u.ToolCallUpdate? && !u.boundary.NoBoundary?
  }

  function DepthAfter(depth: nat, u: Update): nat {
    if !IsBoundary(u) then depth
    else if u.boundary.AgentStart? then depth + 1
    else if depth == 0 then 0 else depth - 1
  }

  /** Updates a subagent keeps to itself. */
  predicate IsPrivate(u: Update) {
    u.MessageChunk? || u.ThoughtChunk? || u.ToolCall? || u.ToolCallUpdate?
  }

  predicate IsErased(depth: nat, u: Update) {
    IsBoundary(u) || (depth > 0 && IsPrivate(u))
  }

  // ----- the two paths -----

  /** What both paths do with an update that concerns the active assistant message. */
  function Handle(s: State, u: Update): State {
    match u
    case MessageChunk(text) => Append(s, false, text)
    case ThoughtChunk(text) => Append(s, true, text)
    case ToolCall(id, title, arguments) => StartTool(s, id, title, arguments)
    case ToolCallUpdate(id, title, status, _) => UpdateTool(s, id, title, status)
    case _ => s
  }

  function Live(s: State, u: Update): State {
    if IsErased(s.depth, u) then s.(depth := DepthAfter(s.depth, u)) else Handle(s, u)
  }

  /** An update that makes the replay open an assistant message. */
  predicate NeedsAssistant(u: Update) {
    u.MessageChunk? || u.ThoughtChunk? || u.ToolCall?
  }

  function EnsureAssistant(s: State): State {
    if s.active then s
    else s.(messages := s.messages + [Assistant([], "")], active := true, since := |s.events|)
  }

  function Finish(s: State, stopReason: string): State {
    if !s.active || s.messages == [] then s
    else
      var stopped := s.(messages := s.messages[..|s.messages| - 1] + [Assistant(Content(s), stopReason)]);
      EndSegment(stopped, stopReason).(active := false)
  }

  function ReplayUser(s: State, text: string): State {
    var finished := Finish(s, "stop");
    if text == "" then finished
    else finished.(messages := finished.messages + [User(text)], events := finished.events + [UserShown(text)])
  }

  function HandleReplay(s: State, u: Update): State {
    match u
    case UserChunk(text) => ReplayUser(s, text)
    case _ => Handle(if NeedsAssistant(u) then EnsureAssistant(s) else s, u)
  }

  function Replay(s: State, u: Update): State {
    if IsErased(s.depth, u) then s.(depth := DepthAfter(s.depth, u)) else HandleReplay(s, u)
  }

  function LiveAll(s: State, us: seq<Update>): State {
    if us == [] then s else Live(LiveAll(s, us[..|us| - 1]), us[|us| - 1])
  }

  function ReplayAll(s: State, us: seq<Update>): State {
    if us == [] then s else Replay(ReplayAll(s, us[..|us| - 1]), us[|us| - 1])
  }

  // ----- turns -----

  datatype Outcome = Stopped(reason: string) | Failed

  datatype Turn = Turn(text: string, updates: seq<Update>, outcome: Outcome)

  function BeginPrompt(s: State, text: string): State {
    var events := s.events + [UserShown(text), AgentBegin];
    s.(messages := s.messages + [User(text), Assistant([], "")], active := true, segment := None,
       events := events, since := |events|)
  }

  /** A prompt that fails opens an empty segment if none is open, so that the error can be shown. */
  function EndPrompt(s: State, outcome: Outcome): State {
    var shown := if outcome.Failed? && s.segment.None?
                  then s.(segment := Some([]), events := s.events + [SegmentBegin]) else s;
    var finished := Finish(shown, if outcome.Failed? then "error" else outcome.reason);
    finished.(active := false, segment := None, events := finished.events + [AgentFinish])
  }

  function Prompt(s: State, t: Turn): State {
    EndPrompt(LiveAll(BeginPrompt(s, t.text), t.updates), t.outcome)
  }

  function Prompts(s: State, ts: seq<Turn>): State {
    if ts == [] then s else Prompt(Prompts(s, ts[..|ts| - 1]), ts[|ts| - 1])
  }

  /** The recorded stream of one turn: the user's text, then the updates. */
  function Recorded(t: Turn): seq<Update> {
    [UserChunk(t.text)] + t.updates
  }

  function ReplayTurns(s: State, ts: seq<Turn>): State {
    if ts == [] then s else ReplayAll(ReplayTurns(s, ts[..|ts| - 1]), Recorded(ts[|ts| - 1]))
  }

  /** The recorded stream of a whole history. */
  function Stream(ts: seq<Turn>): seq<Update> {
    if ts == [] then [] else Stream(ts[..|ts| - 1]) + Recorded(ts[|ts| - 1])
  }

  function LoadSession(ts: seq<Turn>): State {
    Finish(ReplayAll(FRESH, Stream(ts)), "stop")
  }

  // ----- erasing what subagents keep to themselves -----

  function DepthAll(depth: nat, us: seq<Update>): nat {
    if us == [] then depth else DepthAfter(DepthAll(depth, us[..|us| - 1]), us[|us| - 1])
  }

  /** The stream without brackets and without the private updates inside them. */
  function Erase(depth: nat, us: seq<Update>): seq<Update> {
    if us == [] then []
    else
      var front, u := us[..|us| - 1], us[|us| - 1];
      Erase(depth, front) + if IsErased(DepthAll(depth, front), u) then [] else [u]
  }

  lemma HandleIgnoresDepth(s: State, u: Update)
    ensures Handle(s, u).depth == s.depth
    ensures Handle(s.(depth := 0), u) == Handle(s, u).(depth := 0)
  {
    match u {
      case ToolCall(id, title, arguments) => StartToolIgnoresDepth(s, id, title, arguments);
      case _ =>
    }
  }

  lemma StartToolIgnoresDepth(s: State, id: string, name: string, arguments: string)
    ensures StartTool(s, id, name, arguments).depth == s.depth
    ensures StartTool(s.(depth := 0), id, name, arguments) == StartTool(s, id, name, arguments).(depth := 0)
  {}

  lemma HandleReplayIgnoresDepth(s: State, u: Update)
    ensures HandleReplay(s, u).depth == s.depth
    ensures HandleReplay(s.(depth := 0), u) == HandleReplay(s, u).(depth := 0)
  {
    if u.UserChunk? {
      FinishIgnoresDepth(s, "stop");
    } else {
      HandleIgnoresDepth(if NeedsAssistant(u) then EnsureAssistant(s) else s, u);
    }
  }

  lemma FinishIgnoresDepth(s: State, stopReason: string)
    ensures Finish(s, stopReason).depth == s.depth
    ensures Finish(s.(depth := 0), stopReason) == Finish(s, stopReason).(depth := 0)
  {}

  lemma LiveSnoc(s: State, us: seq<Update>, u: Update)
    ensures LiveAll(s, us + [u]) == Live(LiveAll(s, us), u)
  {
    assert (us + [u])[..|us|] == us;
  }

  lemma ReplaySnoc(s: State, us: seq<Update>, u: Update)
    ensures ReplayAll(s, us + [u]) == Replay(ReplayAll(s, us), u)
  {
    assert (us + [u])[..|us|] == us;
  }

  /** The live path sees exactly the erased stream. */
  lemma {:induction false} LiveSeesErased(s: State, us: seq<Update>)
    ensures LiveAll(s, us).depth == DepthAll(s.depth, us)
    ensures LiveAll(s, us).(depth := 0) == LiveAll(s.(depth := 0), Erase(s.depth, us))
  {
    if us != [] {
      var front, u := us[..|us| - 1], us[|us| - 1];
      LiveSeesErased(s, front);
      var before := LiveAll(s, front);
      if IsErased(before.depth, u) {
        assert Erase(s.depth, us) == Erase(s.depth, front);
      } else {
        HandleIgnoresDepth(before, u);
        LiveSnoc(s.(depth := 0), Erase(s.depth, front), u);
      }
    }
  }

  /** The replay sees exactly the erased stream. */
  lemma {:induction false} ReplaySeesErased(s: State, us: seq<Update>)
    ensures ReplayAll(s, us).depth == DepthAll(s.depth, us)
    ensures ReplayAll(s, us).(depth := 0) == ReplayAll(s.(depth := 0), Erase(s.depth, us))
  {
    if us != [] {
      var front, u := us[..|us| - 1], us[|us| - 1];
      ReplaySeesErased(s, front);
      var before := ReplayAll(s, front);
      if IsErased(before.depth, u) {
        assert Erase(s.depth, us) == Erase(s.depth, front);
      } else {
        HandleReplayIgnoresDepth(before, u);
        ReplaySnoc(s.(depth := 0), Erase(s.depth, front), u);
      }
    }
  }

  // ----- what an assistant message holds after a turn -----

  function RenderOne(content: seq<Block>, u: Update): seq<Block> {
    match u
    case MessageChunk(text) => if text == "" then content else AppendContent(content, false, text)
    case ThoughtChunk(text) => if text == "" then content else AppendContent(content, true, text)
    case ToolCall(id, title, arguments) => if id == "" then content else content + [Call(id, title, arguments)]
    case _ => content
  }

  /** The content a sequence of visible updates amounts to. */
  function Render(us: seq<Update>): seq<Block> {
    if us == [] then [] else RenderOne(Render(us[..|us| - 1]), us[|us| - 1])
  }

  // ----- what was said -----

  /** The smallest thing a message shows: a letter, spoken or thought, or a tool call. */
  datatype Mark = Letter(letter: char, thinking: bool) | Called(id: string, name: string, arguments: string)

  function Letters(text: string, thinking: bool): (marks: seq<Mark>)
    ensures |marks| == |text|
  {
    seq(|text|, i requires 0 <= i < |text| => Letter(text[i], thinking))
  }

  function ShownBy(b: Block): seq<Mark> {
    match b
    case Text(text) => Letters(text, false)
    case Thinking(text) => Letters(text, true)
    case Call(id, name, arguments) => [Called(id, name, arguments)]
  }

  /** What the blocks of a message show, in order. */
  function Shown(content: seq<Block>): seq<Mark> {
    if content == [] then [] else Shown(content[..|content| - 1]) + ShownBy(content[|content| - 1])
  }

  /** What one update says. */
  function Said(u: Update): seq<Mark> {
    match u
    case MessageChunk(text) => Letters(text, false)
    case ThoughtChunk(text) => Letters(text, true)
    case ToolCall(id, title, arguments) => if id == "" then [] else [Called(id, title, arguments)]
    case _ => []
  }

  /** What a stream that starts inside `depth` subagents says outside all of them. */
  function SaidOutside(depth: nat, us: seq<Update>): seq<Mark> {
    if us == [] then []
    else
      var front := us[..|us| - 1];
      SaidOutside(depth, front) + if DepthAll(depth, front) > 0 then [] else Said(us[|us| - 1])
  }

  predicate SameKind(a: Block, b: Block) {
    (a.Text? && b.Text?) || (a.Thinking? && b.Thinking?)
  }

  /** No text is empty, and no two neighbours are texts of one kind. */
  ghost predicate Compact(content: seq<Block>) {
    && (forall k :: 0 <= k < |content| ==> ShownBy(content[k]) != [])
    && (forall k :: 0 < k < |content| ==> !SameKind(content[k - 1], content[k]))
  }

  lemma ShownSnoc(content: seq<Block>, b: Block)
    ensures Shown(content + [b]) == Shown(content) + ShownBy(b)
  {
    assert (content + [b])[..|content|] == content;
  }

  lemma LettersAppend(a: string, b: string, thinking: bool)
    ensures Letters(a + b, thinking) == Letters(a, thinking) + Letters(b, thinking)
  {}

  function TextBlock(thinking: bool, text: string): Block {
    if thinking then Thinking(text) else Text(text)
  }

  lemma MergeShows(front: seq<Block>, thinking: bool, text: string, more: string)
    ensures Shown(front + [TextBlock(thinking, text + more)])
         == Shown(front + [TextBlock(thinking, text)]) + Letters(more, thinking)
  {
    ShownSnoc(front, TextBlock(thinking, text + more));
    ShownSnoc(front, TextBlock(thinking, text));
    LettersAppend(text, more, thinking);
    Associate(Shown(front), Letters(text, thinking), Letters(more, thinking));
  }

  lemma CompactSnoc(content: seq<Block>, b: Block)
    requires Compact(content) && ShownBy(b) != [] && (content != [] ==> !SameKind(content[|content| - 1], b))
    ensures Compact(content + [b])
  {}

  lemma CompactFront(content: seq<Block>)
    requires Compact(content) && content != []
    ensures Compact(content[..|content| - 1])
  {}

  /** Appending a chunk shows its letters behind what was shown, and keeps the blocks compact. */
  lemma AppendShows(content: seq<Block>, thinking: bool, text: string)
    ensures Shown(AppendContent(content, thinking, text)) == Shown(content) + Letters(text, thinking)
    ensures text != "" && Compact(content) ==> Compact(AppendContent(content, thinking, text))
  {
    hide Compact, Shown, Letters;
    if content != [] && SameKind(content[|content| - 1], TextBlock(thinking, text)) {
      var front, last := content[..|content| - 1], content[|content| - 1];
      assert content == front + [TextBlock(thinking, last.text)];
      MergeShows(front, thinking, last.text, text);
      assert AppendContent(content, thinking, text) == front + [TextBlock(thinking, last.text + text)];
      if text != "" && Compact(content) {
        CompactFront(content);
        MergedKind(content, front, TextBlock(thinking, last.text + text));
      }
    } else {
      ShownSnoc(content, TextBlock(thinking, text));
      assert AppendContent(content, thinking, text) == content + [TextBlock(thinking, text)];
      if text != "" && Compact(content) {
        assert |Letters(text, thinking)| == |text|;
        CompactSnoc(content, TextBlock(thinking, text));
      }
    }
  }

  lemma MergedKind(content: seq<Block>, front: seq<Block>, merged: Block)
    requires Compact(content) && content != [] && front == content[..|content| - 1]
    requires SameKind(content[|content| - 1], merged) && ShownBy(merged) != []
    ensures Compact(front + [merged])
  {
    assert front != [] ==> !SameKind(content[|content| - 2], content[|content| - 1]);
  }

  lemma RenderOneShows(content: seq<Block>, u: Update)
    ensures Shown(RenderOne(content, u)) == Shown(content) + Said(u)
    ensures Compact(content) ==> Compact(RenderOne(content, u))
  {
    hide Shown, Compact, AppendContent, Letters;
    NoLetters(false);
    NoLetters(true);
    match u {
      case MessageChunk(text) => AppendShows(content, false, text);
      case ThoughtChunk(text) => AppendShows(content, true, text);
      case ToolCall(id, title, arguments) => CallShows(content, id, title, arguments);
      case _ =>
    }
  }

  lemma CallShows(content: seq<Block>, id: string, name: string, arguments: string)
    ensures Shown(content + [Call(id, name, arguments)]) == Shown(content) + [Called(id, name, arguments)]
    ensures Compact(content) ==> Compact(content + [Call(id, name, arguments)])
  {
    ShownSnoc(content, Call(id, name, arguments));
  }

  lemma NoLetters(thinking: bool)
    ensures Letters("", thinking) == []
  {}

  /** The content of a message tells what a stream said, compactly. */
  ghost predicate Tells(content: seq<Block>, depth: nat, us: seq<Update>) {
    Compact(content) && Shown(content) == SaidOutside(depth, us)
  }

  /** The rendering of the visible updates tells what was said. */
  lemma {:induction false} RenderTells(depth: nat, us: seq<Update>)
    ensures Tells(Render(Erase(depth, us)), depth, us)
  {
    if us != [] {
      var front, u := us[..|us| - 1], us[|us| - 1];
      RenderTells(depth, front);
      if IsErased(DepthAll(depth, front), u) {
        assert Erase(depth, us) == Erase(depth, front);
      } else {
        RenderOneShows(Render(Erase(depth, front)), u);
        assert Erase(depth, us)[..|Erase(depth, front)|] == Erase(depth, front);
      }
    }
  }

  lemma ShownEnd(content: seq<Block>)
    requires content != [] && ShownBy(content[|content| - 1]) != []
    ensures var marks, last := Shown(content), ShownBy(content[|content| - 1]);
            |last| <= |marks| && marks[|marks| - 1] == last[|last| - 1]
  {
    hide ShownBy;
  }

  /** Two blocks of one kind that show the same marks are the same. */
  lemma ShownByInjective(x: Block, y: Block)
    requires ShownBy(x) == ShownBy(y) && ShownBy(x) != []
    ensures x == y
  {
    assert ShownBy(x)[0] == ShownBy(y)[0];
    if !x.Call? {
      assert forall i :: 0 <= i < |x.text| ==> ShownBy(x)[i].letter == x.text[i] && ShownBy(y)[i].letter == y.text[i];
      assert x.text == y.text;
    }
  }

  /** Marks of one text have one kind. */
  lemma MarksOfOneKind(x: Block, y: Block, i: nat, j: nat)
    requires i < |ShownBy(x)| && j < |ShownBy(y)| && ShownBy(x)[i] == ShownBy(y)[j]
    ensures SameKind(x, y) || (x.Call? && y.Call?)
  {}

  /** If a longer text ends in the marks of `x`, so does the block before `x`, of the same kind. */
  lemma ReachesBack(a: seq<Block>, x: Block, marks: seq<Mark>, y: Block)
    requires (a != [] ==> ShownBy(a[|a| - 1]) != []) && ShownBy(x) != []
    requires Shown(a) + ShownBy(x) == marks + ShownBy(y) && |ShownBy(x)| < |ShownBy(y)|
    ensures a != [] && SameKind(a[|a| - 1], x)
  {
    hide ShownBy, SameKind, Shown;
    var m, n := |ShownBy(x)|, |ShownBy(y)|;
    Overlap(Shown(a), ShownBy(x), marks, ShownBy(y));
    NothingShown();
    var before := a[|a| - 1];
    ShownEnd(a);
    MarksOfOneKind(x, y, m - 1, n - 1);
    MarksOfOneKind(before, y, |ShownBy(before)| - 1, n - m - 1);
    LongTexts(y);
    KindsMeet(x, y, before);
  }

  lemma NothingShown()
    ensures Shown([]) == []
  {}

  lemma KindsMeet(x: Block, y: Block, z: Block)
    requires SameKind(x, y) && SameKind(z, y)
    ensures SameKind(z, x)
  {}

  lemma Overlap(p: seq<Mark>, x: seq<Mark>, q: seq<Mark>, y: seq<Mark>)
    requires p + x == q + y && 0 < |x| < |y|
    ensures p != [] && p[|p| - 1] == y[|y| - |x| - 1] && x[|x| - 1] == y[|y| - 1]
  {
    var all := p + x;
    assert |p| == |q| + |y| - |x|;
    assert all[|all| - 1] == x[|x| - 1] && (q + y)[|all| - 1] == y[|y| - 1];
    assert all[|p| - 1] == p[|p| - 1] && (q + y)[|p| - 1] == y[|y| - |x| - 1];
  }

  lemma LongTexts(y: Block)
    requires |ShownBy(y)| > 1
    ensures !y.Call?
  {}

  lemma NotLonger(a: seq<Block>, x: Block, marks: seq<Mark>, y: Block)
    requires Compact(a + [x]) && Shown(a) + ShownBy(x) == marks + ShownBy(y)
    ensures |ShownBy(y)| <= |ShownBy(x)|
  {
    hide Shown, ShownBy;
    var more := a + [x];
    assert more[|a|] == x && forall k :: 0 <= k < |a| ==> more[k] == a[k];
    if |ShownBy(x)| < |ShownBy(y)| {
      ReachesBack(a, x, marks, y);
    }
  }

  lemma SplitEqually(a: seq<Mark>, x: seq<Mark>, b: seq<Mark>, y: seq<Mark>)
    requires a + x == b + y && |x| == |y|
    ensures a == b && x == y
  {
    assert a == (a + x)[..|a|] && b == (b + y)[..|a|];
    assert x == (a + x)[|a|..] && y == (b + y)[|a|..];
  }

  /** There is only one compact list of blocks that shows a given sequence of marks: what a message holds
      is determined by what was said. */
  lemma {:induction false} CompactIsUnique(a: seq<Block>, b: seq<Block>)
    requires Compact(a) && Compact(b) && Shown(a) == Shown(b)
    ensures a == b
  {
    hide Shown, ShownBy, Compact, SameKind;
    if a != [] && b != [] {
      var a', x, b', y := a[..|a| - 1], a[|a| - 1], b[..|b| - 1], b[|b| - 1];
      assert a == a' + [x] && b == b' + [y];
      ShownSnoc(a', x);
      ShownSnoc(b', y);
      CompactFront(a);
      CompactFront(b);
      NotLonger(a', x, Shown(b'), y);
      NotLonger(b', y, Shown(a'), x);
      SplitEqually(Shown(a'), ShownBy(x), Shown(b'), ShownBy(y));
      CompactEnd(a);
      ShownByInjective(x, y);
      CompactIsUnique(a', b');
    } else {
      NothingShownIff(a);
      NothingShownIff(b);
    }
  }

  lemma CompactEnd(content: seq<Block>)
    requires Compact(content) && content != []
    ensures ShownBy(content[|content| - 1]) != []
  {}

  lemma NothingShownIff(content: seq<Block>)
    requires Compact(content)
    ensures Shown(content) == [] <==> content == []
  {
    if content != [] {
      CompactEnd(content);
    }
  }

  // ----- how deep a stream is -----

  /** Subagents started less subagents ended. */
  function Net(us: seq<Update>): int {
    if us == [] then 0
    else
      var u := us[|us| - 1];
      Net(us[..|us| - 1])
      + if u.ToolCallUpdate? && u.boundary.AgentStart? then 1
        else if u.ToolCallUpdate? && u.boundary.AgentEnd? then -1 else 0
  }

  /** The depth is the greatest number of starts not made up for by ends, counted from any point of the
      stream, or from outside it: ends that nothing started are passed over. */
  lemma {:induction false} DepthIsUnclosed(depth: nat, us: seq<Update>)
    ensures depth + Net(us) <= DepthAll(depth, us)
    ensures forall i :: 0 <= i <= |us| ==> Net(us[i..]) <= DepthAll(depth, us)
    ensures DepthAll(depth, us) == depth + Net(us) || exists i :: 0 <= i <= |us| && DepthAll(depth, us) == Net(us[i..])
  {
    if us != [] {
      var n, front, u := |us|, us[..|us| - 1], us[|us| - 1];
      DepthIsUnclosed(depth, front);
      var step := DepthAll(depth, us) - DepthAll(depth, front);
      forall i | 0 <= i <= n - 1
        ensures Net(us[i..]) == Net(front[i..]) + Net([u])
      {
        assert us[i..][..n - 1 - i] == front[i..];
      }
      assert us[n..] == [];
      assert us[0..] == us && front[0..] == front;
      assert [u][..0] == [];
      if DepthAll(depth, us) == 0 {
        assert Net(us[n..]) == 0;
      } else if DepthAll(depth, front) != depth + Net(front) {
        var i :| 0 <= i <= n - 1 && DepthAll(depth, front) == Net(front[i..]);
        assert Net(us[i..]) == DepthAll(depth, us);
      }
    }
  }

  // ----- rendering -----

  /** An open assistant message with the given content, behind the given messages. */
  ghost predicate Open(s: State, before: seq<Message>, content: seq<Block>) {
    s.active && s.messages == before + [Assistant(content, "")]
  }

  lemma HandleOpen(s: State, before: seq<Message>, content: seq<Block>, u: Update)
    requires Open(s, before, content)
    ensures Open(Handle(s, u), before, RenderOne(content, u))
  {
    assert s.messages[..|s.messages| - 1] == before;
    assert Content(s) == content;
  }

  lemma {:induction false} LiveRenders(s: State, before: seq<Message>, us: seq<Update>)
    requires s.depth == 0 && Open(s, before, [])
    requires forall u :: u in us ==> !IsBoundary(u)
    ensures LiveAll(s, us).depth == 0
    ensures Open(LiveAll(s, us), before, Render(us))
  {
    if us != [] {
      var front, u := us[..|us| - 1], us[|us| - 1];
      LiveRenders(s, before, front);
      assert u in us;
      HandleIgnoresDepth(LiveAll(s, front), u);
      HandleOpen(LiveAll(s, front), before, Render(front), u);
    }
  }

  /** Some visible update makes the replay open an assistant message. */
  predicate Speaks(us: seq<Update>) {
    exists u :: u in us && NeedsAssistant(u)
  }

  lemma SpeaksSnoc(us: seq<Update>, u: Update)
    ensures Speaks(us + [u]) <==> Speaks(us) || NeedsAssistant(u)
  {
    var more := us + [u];
    assert forall x :: x in more <==> x in us || x == u;
  }

  lemma {:induction false} SilentRender(us: seq<Update>)
    requires !Speaks(us)
    ensures Render(us) == []
  {
    if us != [] {
      var front, u := us[..|us| - 1], us[|us| - 1];
      assert us == front + [u];
      SpeaksSnoc(front, u);
      SilentRender(front);
    }
  }

  /** After a user chunk and visible updates, the replay has an open message if the turn speaks. */
  ghost predicate Replayed(s: State, before: seq<Message>, us: seq<Update>) {
    if Speaks(us) then Open(s, before, Render(us)) else !s.active && s.messages == before
  }

  lemma ReplayedNext(s: State, before: seq<Message>, us: seq<Update>, u: Update)
    requires Replayed(s, before, us) && !u.UserChunk?
    ensures Replayed(HandleReplay(s, u), before, us + [u])
  {
    SpeaksSnoc(us, u);
    assert (us + [u])[..|us|] == us;
    if NeedsAssistant(u) {
      if !Speaks(us) {
        SilentRender(us);
      }
      HandleOpen(EnsureAssistant(s), before, Render(us), u);
    } else if Speaks(us) {
      HandleOpen(s, before, Render(us), u);
    }
  }

  lemma {:induction false} ReplayRenders(s: State, us: seq<Update>)
    requires s.depth == 0 && !s.active
    requires forall u :: u in us ==> !IsBoundary(u) && !u.UserChunk?
    ensures ReplayAll(s, us).depth == 0 && Replayed(ReplayAll(s, us), s.messages, us)
  {
    if us != [] {
      var front, u := us[..|us| - 1], us[|us| - 1];
      ReplayRenders(s, front);
      assert u in us && us == front + [u];
      HandleReplayIgnoresDepth(ReplayAll(s, front), u);
      ReplayedNext(ReplayAll(s, front), s.messages, front, u);
    }
  }

  // ----- replay equals live -----

  /** A message's role and content. */
  function Bare(m: Message): Message {
    if m.Assistant? then Assistant(m.content, "") else m
  }

  function Shape(ms: seq<Message>): seq<Message> {
    if ms == [] then [] else Shape(ms[..|ms| - 1]) + [Bare(ms[|ms| - 1])]
  }

  lemma {:induction false} ShapeAppend(a: seq<Message>, b: seq<Message>)
    ensures Shape(a + b) == Shape(a) + Shape(b)
    decreases |b|
  {
    if b == [] {
      assert a + b == a;
    } else {
      ShapeAppend(a, b[..|b| - 1]);
      assert (a + b)[..|a + b| - 1] == a + b[..|b| - 1];
    }
  }

  lemma ShapeOne(m: Message)
    ensures Shape([m]) == [Bare(m)]
  {
    assert [m][..0] == [];
  }

  lemma {:induction false} ErasedStream(depth: nat, us: seq<Update>)
    ensures forall u :: u in Erase(depth, us) ==> u in us && !IsBoundary(u)
  {
    if us != [] {
      ErasedStream(depth, us[..|us| - 1]);
    }
  }

  /** The depth at which a turn starts; brackets need not be closed within a turn. */
  function DepthTurns(ts: seq<Turn>): nat {
    if ts == [] then 0 else DepthAll(DepthTurns(ts[..|ts| - 1]), ts[|ts| - 1].updates)
  }

  function ReasonOf(outcome: Outcome): string {
    match outcome
    case Stopped(reason) => reason
    case Failed => "error"
  }

  lemma LivePrompt(s: State, t: Turn)
    ensures var r := Prompt(s, t);
            && !r.active && r.segment.None? && r.depth == DepthAll(s.depth, t.updates)
            && r.messages == s.messages + [User(t.text),
                                           Assistant(Render(Erase(s.depth, t.updates)), ReasonOf(t.outcome))]
            && Shape(r.messages) == Shape(s.messages) + [User(t.text), Assistant(Render(Erase(s.depth, t.updates)), "")]
  {
    var begun := BeginPrompt(s, t.text);
    var before := s.messages + [User(t.text)];
    assert begun.messages == before + [Assistant([], "")];
    var visible := Erase(s.depth, t.updates);
    LiveSeesErased(begun, t.updates);
    ErasedStream(s.depth, t.updates);
    LiveRenders(begun.(depth := 0), before, visible);
    PromptEnds(LiveAll(begun, t.updates), before, Render(visible), t.outcome);
    EndKeepsMessages(LiveAll(begun, t.updates), before, Render(visible), t.outcome, ReasonOf(t.outcome));
    ShapeAppend(s.messages, [User(t.text)]);
    ShapeOne(User(t.text));
  }

  lemma PromptEnds(s: State, before: seq<Message>, content: seq<Block>, outcome: Outcome)
    requires Open(s, before, content)
    ensures var r := EndPrompt(s, outcome);
            && !r.active && r.segment.None? && r.depth == s.depth
            && Shape(r.messages) == Shape(before) + [Assistant(content, "")]
  {
    var reason := if outcome.Failed? then "error" else outcome.reason;
    EndKeepsMessages(s, before, content, outcome, reason);
    ShapeAppend(before, [Assistant(content, reason)]);
    ShapeOne(Assistant(content, reason));
  }

  lemma EndKeepsMessages(s: State, before: seq<Message>, content: seq<Block>, outcome: Outcome, reason: string)
    requires Open(s, before, content) && reason == if outcome.Failed? then "error" else outcome.reason
    ensures EndPrompt(s, outcome).messages == before + [Assistant(content, reason)]
  {
    assert s.messages[..|s.messages| - 1] == before;
  }

  /** While an assistant message is active, it is the last message. */
  ghost predicate ActiveIsLast(s: State) {
    s.active ==> s.messages != [] && s.messages[|s.messages| - 1].Assistant?
  }

  lemma FinishKeepsShape(s: State)
    requires ActiveIsLast(s)
    ensures var r := Finish(s, "stop");
            !r.active && r.depth == s.depth && Shape(r.messages) == Shape(s.messages)
  {
    if s.active {
      var before, last := s.messages[..|s.messages| - 1], s.messages[|s.messages| - 1];
      assert s.messages == before + [last];
      ShapeAppend(before, [last]);
      ShapeAppend(before, [Assistant(last.content, "stop")]);
      ShapeOne(last);
      ShapeOne(Assistant(last.content, "stop"));
    }
  }

  function UserPart(text: string): seq<Message> {
    if text == "" then [] else [User(text)]
  }

  function AssistantPart(visible: seq<Update>): seq<Message> {
    if Speaks(visible) then [Assistant(Render(visible), "")] else []
  }

  function StoppedPart(visible: seq<Update>): seq<Message> {
    if Speaks(visible) then [Assistant(Render(visible), "stop")] else []
  }

  lemma ReplayedStops(s: State, before: seq<Message>, visible: seq<Update>)
    requires Replayed(s, before, visible)
    ensures Finish(s, "stop").messages == before + StoppedPart(visible)
  {
    if Speaks(visible) {
      assert s.messages[..|s.messages| - 1] == before;
    }
  }

  lemma ReplayUserShape(s: State, text: string)
    requires ActiveIsLast(s)
    ensures var r := ReplayUser(s, text);
            && !r.active && r.depth == s.depth && ActiveIsLast(r)
            && Shape(r.messages) == Shape(s.messages) + UserPart(text)
  {
    FinishKeepsShape(s);
    ShapeAppend(Finish(s, "stop").messages, [User(text)]);
    ShapeOne(User(text));
  }

  lemma {:induction false} ReplayAppend(s: State, a: seq<Update>, b: seq<Update>)
    ensures ReplayAll(s, a + b) == ReplayAll(ReplayAll(s, a), b)
    decreases |b|
  {
    hide Replay;
    if b == [] {
      assert a + b == a;
    } else {
      ReplayAppend(s, a, b[..|b| - 1]);
      assert a + b == (a + b[..|b| - 1]) + [b[|b| - 1]];
      ReplaySnoc(s, a + b[..|b| - 1], b[|b| - 1]);
    }
  }

  lemma {:induction false} ReplayByTurns(s: State, ts: seq<Turn>)
    ensures ReplayAll(s, Stream(ts)) == ReplayTurns(s, ts)
  {
    if ts != [] {
      ReplayByTurns(s, ts[..|ts| - 1]);
      ReplayAppend(s, Stream(ts[..|ts| - 1]), Recorded(ts[|ts| - 1]));
    }
  }

  lemma FirstUserChunk(s: State, text: string)
    ensures ReplayAll(s, [UserChunk(text)]) == ReplayUser(s, text)
  {
    assert [UserChunk(text)][..0] == [];
  }

  /** A turn is replayed by its user chunk and then its visible updates. */
  lemma TurnReplays(s: State, t: Turn)
    requires ActiveIsLast(s) && forall u :: u in t.updates ==> !u.UserChunk?
    ensures var r := ReplayAll(s, Recorded(t));
            && r.depth == DepthAll(s.depth, t.updates)
            && Replayed(r, ReplayUser(s, t.text).messages, Erase(s.depth, t.updates))
  {
    hide Replayed, ReplayUser, Shape;
    ReplayAppend(s, [UserChunk(t.text)], t.updates);
    FirstUserChunk(s, t.text);
    var s1 := ReplayUser(s, t.text);
    ReplayUserShape(s, t.text);
    ReplaySeesErased(s1, t.updates);
    ErasedStream(s.depth, t.updates);
    ReplayRenders(s1.(depth := 0), Erase(s.depth, t.updates));
    ReplayedAtDepth(ReplayAll(s1, t.updates), s1.messages, Erase(s.depth, t.updates));
  }

  lemma ReplayedAtDepth(s: State, before: seq<Message>, visible: seq<Update>)
    requires Replayed(s.(depth := 0), before, visible)
    ensures Replayed(s, before, visible)
  {}

  lemma UserMessages(s: State, text: string)
    ensures ReplayUser(s, text).messages == Finish(s, "stop").messages + UserPart(text)
  {}

  lemma ReplayTurn(s: State, t: Turn)
    requires ActiveIsLast(s) && forall u :: u in t.updates ==> !u.UserChunk?
    ensures var r := ReplayAll(s, Recorded(t));
            && ActiveIsLast(r) && r.depth == DepthAll(s.depth, t.updates)
            && Finish(r, "stop").messages
               == Finish(s, "stop").messages + UserPart(t.text) + StoppedPart(Erase(s.depth, t.updates))
            && Shape(r.messages) == Shape(s.messages) + UserPart(t.text) + AssistantPart(Erase(s.depth, t.updates))
  {
    hide Replayed, ReplayUser, Shape, Finish, ReplayAll, StoppedPart, AssistantPart, UserPart;
    TurnReplays(s, t);
    ReplayUserShape(s, t.text);
    UserMessages(s, t.text);
    var s1 := ReplayUser(s, t.text);
    ReplayedShape(ReplayAll(s, Recorded(t)), s1.messages, Erase(s.depth, t.updates));
    ReplayedStops(ReplayAll(s, Recorded(t)), s1.messages, Erase(s.depth, t.updates));
  }

  lemma ReplayedShape(s: State, before: seq<Message>, visible: seq<Update>)
    requires Replayed(s, before, visible)
    ensures ActiveIsLast(s) && Shape(s.messages) == Shape(before) + AssistantPart(visible)
  {
    if Speaks(visible) {
      ShapeAppend(before, [Assistant(Render(visible), "")]);
      ShapeOne(Assistant(Render(visible), ""));
    }
  }

  /** What the live prompts leave behind, read off the erased streams. */
  function LiveShape(ts: seq<Turn>): (r: seq<Message>)
    ensures |r| == 2 * |ts|
  {
    if ts == [] then []
    else
      var front, t := ts[..|ts| - 1], ts[|ts| - 1];
      LiveShape(front) + [User(t.text), Assistant(Render(Erase(DepthTurns(front), t.updates)), "")]
  }

  /** What replaying leaves behind, read off the erased streams. */
  function ReplayShape(ts: seq<Turn>): (r: seq<Message>)
    ensures |r| <= 2 * |ts|
  {
    if ts == [] then []
    else
      var front, t := ts[..|ts| - 1], ts[|ts| - 1];
      ReplayShape(front) + UserPart(t.text) + AssistantPart(Erase(DepthTurns(front), t.updates))
  }

  /** The messages give an account of the turns: each turn's text, then what was said in it outside
      subagents, in compact blocks, with the reason it stopped. */
  ghost predicate Recounts(ms: seq<Message>, ts: seq<Turn>) {
    if ts == [] then ms == []
    else
      var front, t, n := ts[..|ts| - 1], ts[|ts| - 1], |ms|;
      && n >= 2 && Recounts(ms[..n - 2], front) && ms[n - 2] == User(t.text)
      && ms[n - 1].Assistant? && Tells(ms[n - 1].content, DepthTurns(front), t.updates)
      && ms[n - 1].stopReason == ReasonOf(t.outcome)
  }

  /** The live path shows the erased streams, for any number of turns and any brackets. */
  lemma {:induction false} LiveTurns(ts: seq<Turn>)
    ensures var r := Prompts(FRESH, ts);
            && !r.active && r.depth == DepthTurns(ts)
            && Recounts(r.messages, ts) && Shape(r.messages) == LiveShape(ts)
  {
    if ts != [] {
      var front, t := ts[..|ts| - 1], ts[|ts| - 1];
      LiveTurns(front);
      LivePrompt(Prompts(FRESH, front), t);
      RenderTells(DepthTurns(front), t.updates);
      var ms := Prompts(FRESH, ts).messages;
      assert ms[..|ms| - 2] == Prompts(FRESH, front).messages;
    }
  }

  /** A user chunk only ever starts a turn. */
  ghost predicate NoUserChunks(ts: seq<Turn>) {
    forall t, u :: t in ts && u in t.updates ==> !u.UserChunk?
  }

  /** A message, thought or tool call comes outside all subagents. */
  predicate SpeaksOutside(depth: nat, us: seq<Update>) {
    exists i :: 0 <= i < |us| && NeedsAssistant(us[i]) && DepthAll(depth, us[..i]) == 0
  }

  lemma {:induction false} SpeaksVisibly(depth: nat, us: seq<Update>)
    ensures Speaks(Erase(depth, us)) <==> SpeaksOutside(depth, us)
  {
    if us != [] {
      var n, front, u := |us|, us[..|us| - 1], us[|us| - 1];
      SpeaksVisibly(depth, front);
      assert forall i :: 0 <= i < n - 1 ==> front[..i] == us[..i] && front[i] == us[i];
      assert SpeaksOutside(depth, us)
        <==> SpeaksOutside(depth, front) || (NeedsAssistant(u) && DepthAll(depth, front) == 0);
      if !IsErased(DepthAll(depth, front), u) {
        SpeaksSnoc(Erase(depth, front), u);
      } else {
        assert Erase(depth, us) == Erase(depth, front);
      }
    }
  }

  /** The messages of a replay give an account of the turns: each turn's text, unless it is empty, then
      what was said in it outside subagents, unless nothing was. */
  ghost predicate RecountsReplay(ms: seq<Message>, ts: seq<Turn>)
    decreases |ts|
  {
    if ts == [] then ms == []
    else
      var front, t, n := ts[..|ts| - 1], ts[|ts| - 1], |ms|;
      var spoken := if SpeaksOutside(DepthTurns(front), t.updates) then 1 else 0;
      var asked := if t.text != "" then 1 else 0;
      && n >= asked + spoken && RecountsReplay(ms[..n - asked - spoken], front)
      && (asked == 1 ==> ms[n - 1 - spoken] == User(t.text))
      && (spoken == 1 ==>
            && ms[n - 1].Assistant? && Tells(ms[n - 1].content, DepthTurns(front), t.updates)
            && ms[n - 1].stopReason == "stop")
  }

  lemma RecountsNext(before: seq<Message>, ts: seq<Turn>)
    requires ts != [] && RecountsReplay(before, ts[..|ts| - 1])
    ensures var t, depth := ts[|ts| - 1], DepthTurns(ts[..|ts| - 1]);
            RecountsReplay(before + UserPart(t.text) + StoppedPart(Erase(depth, t.updates)), ts)
  {
    hide Tells, SpeaksOutside, Speaks, Render, Erase;
    var front, t := ts[..|ts| - 1], ts[|ts| - 1];
    var depth := DepthTurns(front);
    RenderTells(depth, t.updates);
    SpeaksVisibly(depth, t.updates);
    var ms := before + UserPart(t.text) + StoppedPart(Erase(depth, t.updates));
    assert ms[..|before|] == before;
  }

  lemma {:induction false} ReplayedTurns(ts: seq<Turn>)
    requires NoUserChunks(ts)
    ensures var r := ReplayTurns(FRESH, ts);
            && ActiveIsLast(r) && r.depth == DepthTurns(ts)
            && RecountsReplay(Finish(r, "stop").messages, ts) && Shape(r.messages) == ReplayShape(ts)
  {
    if ts != [] {
      var front, t := ts[..|ts| - 1], ts[|ts| - 1];
      assert t in ts && forall x :: x in front ==> x in ts;
      ReplayedTurns(front);
      ReplayTurn(ReplayTurns(FRESH, front), t);
      assert Shape(ReplayTurns(FRESH, front).messages) == ReplayShape(front);
      RecountsNext(Finish(ReplayTurns(FRESH, front), "stop").messages, ts);
    }
  }

  /** Every turn has a user text and a visible message, thought or tool call. */
  ghost predicate EveryTurnShows(ts: seq<Turn>) {
    ts == [] ||
    var front, t := ts[..|ts| - 1], ts[|ts| - 1];
    EveryTurnShows(front) && t.text != "" && Speaks(Erase(DepthTurns(front), t.updates))
  }

  lemma ExtendedIff(a: seq<Message>, x: seq<Message>, b: seq<Message>, y: seq<Message>)
    requires |x| == 2 && |y| <= 2 && |b| <= |a| && (|b| == |a| ==> b == a) && (|y| == 2 ==> y == x)
    ensures a + x == b + y <==> |b| == |a| && |y| == 2
    ensures |b + y| == |a| + 2 <==> |b| == |a| && |y| == 2
  {
    if a + x == b + y {
      assert |a + x| == |b + y|;
    }
  }

  lemma TurnParts(text: string, visible: seq<Update>)
    ensures var y := UserPart(text) + AssistantPart(visible);
            && (|y| == 2 <==> text != "" && Speaks(visible))
            && (|y| == 2 ==> y == [User(text), Assistant(Render(visible), "")])
  {}

  lemma {:induction false} ShapesAgreeIff(ts: seq<Turn>)
    ensures LiveShape(ts) == ReplayShape(ts) <==> EveryTurnShows(ts)
    ensures |ReplayShape(ts)| == 2 * |ts| <==> EveryTurnShows(ts)
  {
    if ts != [] {
      var front, t := ts[..|ts| - 1], ts[|ts| - 1];
      ShapesAgreeIff(front);
      var visible := Erase(DepthTurns(front), t.updates);
      TurnParts(t.text, visible);
      Associate(ReplayShape(front), UserPart(t.text), AssistantPart(visible));
      ExtendedIff(LiveShape(front), [User(t.text), Assistant(Render(visible), "")],
                  ReplayShape(front), UserPart(t.text) + AssistantPart(visible));
    }
  }

  /** Replaying a recorded history rebuilds the roles and contents of the live prompts if and only if
      every turn has a non-empty user text and at least one message, thought or tool call outside
      subagent brackets.  The brackets need not be well nested, and prompts may have failed. */
  lemma ReplayEqualsLiveIff(ts: seq<Turn>)
    requires NoUserChunks(ts)
    ensures Shape(LoadSession(ts).messages) == Shape(Prompts(FRESH, ts).messages) <==> EveryTurnShows(ts)
  {
    LiveTurns(ts);
    ReplayedTurns(ts);
    ReplayByTurns(FRESH, ts);
    FinishKeepsShape(ReplayTurns(FRESH, ts));
    ShapesAgreeIff(ts);
  }

  /** A loaded session gives an account of its turns. */
  lemma LoadRecounts(ts: seq<Turn>)
    requires NoUserChunks(ts)
    ensures RecountsReplay(LoadSession(ts).messages, ts)
  {
    ReplayedTurns(ts);
    ReplayByTurns(FRESH, ts);
  }

  // ----- loading into an adapter that has been used -----

  /** The same but for what listeners were told before. */
  ghost predicate SameButLog(a: State, b: State) {
    a.(events := [], since := 0) == b.(events := [], since := 0)
  }

  lemma FinishIgnoresLog(a: State, b: State, stopReason: string)
    requires SameButLog(a, b)
    ensures SameButLog(Finish(a, stopReason), Finish(b, stopReason))
  {}

  lemma StartToolIgnoresLog(a: State, b: State, id: string, name: string, arguments: string)
    requires SameButLog(a, b)
    ensures SameButLog(StartTool(a, id, name, arguments), StartTool(b, id, name, arguments))
  {}

  lemma HandleIgnoresLog(a: State, b: State, u: Update)
    requires SameButLog(a, b)
    ensures SameButLog(Handle(a, u), Handle(b, u))
  {
    match u {
      case ToolCall(id, title, arguments) => StartToolIgnoresLog(a, b, id, title, arguments);
      case _ =>
    }
  }

  lemma HandleReplayIgnoresLog(a: State, b: State, u: Update)
    requires SameButLog(a, b)
    ensures SameButLog(HandleReplay(a, u), HandleReplay(b, u))
  {
    if u.UserChunk? {
      FinishIgnoresLog(a, b, "stop");
    } else if NeedsAssistant(u) {
      HandleIgnoresLog(EnsureAssistant(a), EnsureAssistant(b), u);
    } else {
      HandleIgnoresLog(a, b, u);
    }
  }

  lemma {:induction false} ReplayIgnoresLog(a: State, b: State, us: seq<Update>)
    requires SameButLog(a, b)
    ensures SameButLog(ReplayAll(a, us), ReplayAll(b, us))
  {
    if us != [] {
      var x, y, u := ReplayAll(a, us[..|us| - 1]), ReplayAll(b, us[..|us| - 1]), us[|us| - 1];
      ReplayIgnoresLog(a, b, us[..|us| - 1]);
      HandleReplayIgnoresLog(x, y, u);
    }
  }

  /** Loading a session into an adapter that has prompted before gives the same messages as loading it
      into a new one; so the equality with the live prompts holds there on the same condition. */
  lemma LoadEqualsLiveIff(ts: seq<Turn>, log: seq<Event>)
    requires NoUserChunks(ts)
    ensures var loaded := Finish(ReplayAll(FRESH.(events := log), Stream(ts)), "stop");
            Shape(loaded.messages) == Shape(Prompts(FRESH, ts).messages) <==> EveryTurnShows(ts)
  {
    ReplayIgnoresLog(FRESH.(events := log), FRESH, Stream(ts));
    FinishIgnoresLog(ReplayAll(FRESH.(events := log), Stream(ts)), ReplayAll(FRESH, Stream(ts)), "stop");
    ReplayEqualsLiveIff(ts);
  }

  // ----- segments -----

  /** What an event contributes to the content of the message it belongs to. */
  function PieceOf(e: Event): seq<Block> {
    match e
    case SegmentEnd(content, _) => content
    case ToolBegin(id, name, arguments) => [Call(id, name, arguments)]
    case _ => []
  }

  function Pieces(events: seq<Event>): seq<Block> {
    if events == [] then [] else Pieces(events[..|events| - 1]) + PieceOf(events[|events| - 1])
  }

  function SegmentContent(s: State): seq<Block> {
    if s.segment.None? then [] else s.segment.value
  }

  function PiecesSince(s: State): seq<Block> {
    if s.since <= |s.events| then Pieces(s.events[s.since..]) else []
  }

  /** The active message is exactly its finished segments with the tool calls between them, followed
      by the open segment; and a segment only ever ends at a tool call. */
  ghost predicate Segmented(s: State) {
    && ActiveIsLast(s)
    && (!s.active ==> s.segment.None?)
    && (s.active ==>
          && s.since <= |s.events|
          && Content(s) == PiecesSince(s) + SegmentContent(s)
          && (if s.segment.Some? then s.segment.value != []
              else var p := PiecesSince(s); p == [] || p[|p| - 1].Call?))
  }

  lemma MoreEvents(s: State, e: Event)
    requires s.since <= |s.events|
    ensures PiecesSince(s.(events := s.events + [e])) == PiecesSince(s) + PieceOf(e)
  {
    var old', new' := s.events[s.since..], (s.events + [e])[s.since..];
    assert new' == old' + [e];
    assert new'[..|new'| - 1] == old';
  }

  lemma AppendBehind(p: seq<Block>, segment: seq<Block>, thinking: bool, text: string)
    requires segment != [] || p == [] || p[|p| - 1].Call?
    ensures AppendContent(p + segment, thinking, text) == p + AppendContent(segment, thinking, text)
  {
    if segment != [] {
      assert (p + segment)[..|p + segment| - 1] == p + segment[..|segment| - 1];
    } else {
      assert p + segment == p;
    }
  }

  lemma AppendSegmented(s: State, thinking: bool, text: string)
    requires Segmented(s)
    ensures Segmented(Append(s, thinking, text))
  {
    hide Pieces;
    if text != "" && s.active {
      AppendBehind(PiecesSince(s), SegmentContent(s), thinking, text);
      var segment := AppendContent(SegmentContent(s), thinking, text);
      var begun := if s.segment.None? then s.(events := s.events + [SegmentBegin]) else s;
      MoreEvents(s, SegmentBegin);
      assert s.segment.Some? ==> s.events + [] == s.events;
      MoreEvents(begun, SegmentGrew(segment));
      assert Append(s, thinking, text).events == begun.events + [SegmentGrew(segment)];
      assert PiecesSince(Append(s, thinking, text)) == PiecesSince(s);
    }
  }

  lemma EndSegmentPieces(s: State, stopReason: string)
    requires s.since <= |s.events|
    ensures PiecesSince(EndSegment(s, stopReason)) == PiecesSince(s) + SegmentContent(s)
  {
    if s.segment.Some? {
      MoreEvents(s, SegmentEnd(s.segment.value, stopReason));
    }
  }

  lemma StartToolSegmented(s: State, id: string, name: string, arguments: string)
    requires Segmented(s)
    ensures Segmented(StartTool(s, id, name, arguments))
  {
    if id != "" && s.active {
      var ended := EndSegment(s, "tool_use");
      EndSegmentPieces(s, "tool_use");
      MoreEvents(ended, ToolBegin(id, name, arguments));
      var r := StartTool(s, id, name, arguments);
      assert r.events == ended.events + [ToolBegin(id, name, arguments)];
      assert PiecesSince(r) == PiecesSince(s) + SegmentContent(s) + [Call(id, name, arguments)];
    }
  }

  lemma UpdateToolSegmented(s: State, id: string, title: string, status: string)
    requires Segmented(s)
    ensures Segmented(UpdateTool(s, id, title, status))
  {
    hide Pieces;
    if id != "" && s.active {
      var e := ToolProgress(id, if id in s.toolNames then s.toolNames[id] else title, status);
      MoreEvents(s, e);
      assert PieceOf(e) == [];
      assert PiecesSince(UpdateTool(s, id, title, status)) == PiecesSince(s);
    }
  }

  lemma HandleSegmented(s: State, u: Update)
    requires Segmented(s)
    ensures Segmented(Handle(s, u))
  {
    hide Segmented, Append, StartTool, UpdateTool;
    match u {
      case MessageChunk(text) => AppendSegmented(s, false, text);
      case ThoughtChunk(text) => AppendSegmented(s, true, text);
      case ToolCall(id, title, arguments) => StartToolSegmented(s, id, title, arguments);
      case ToolCallUpdate(id, title, status, _) => UpdateToolSegmented(s, id, title, status);
      case _ =>
    }
  }

  lemma EnsureSegmented(s: State)
    requires Segmented(s)
    ensures Segmented(EnsureAssistant(s))
  {
    if !s.active {
      assert s.events[|s.events|..] == [];
    }
  }

  lemma FinishSegmented(s: State, stopReason: string)
    requires Segmented(s)
    ensures Segmented(Finish(s, stopReason)) && !Finish(s, stopReason).active
  {}

  lemma ReplaySegmented(s: State, u: Update)
    requires Segmented(s)
    ensures Segmented(Replay(s, u))
  {
    if !IsErased(s.depth, u) {
      if u.UserChunk? {
        FinishSegmented(s, "stop");
      } else {
        EnsureSegmented(s);
        HandleSegmented(if NeedsAssistant(u) then EnsureAssistant(s) else s, u);
      }
    }
  }

  lemma BeginSegmented(s: State, text: string)
    ensures Segmented(BeginPrompt(s, text))
  {
    var r := BeginPrompt(s, text);
    assert r.events[|r.events|..] == [];
  }

  lemma {:induction false} LiveAllSegmented(s: State, us: seq<Update>)
    requires Segmented(s)
    ensures Segmented(LiveAll(s, us))
  {
    if us != [] {
      LiveAllSegmented(s, us[..|us| - 1]);
      LiveSegmented(LiveAll(s, us[..|us| - 1]), us[|us| - 1]);
    }
  }

  lemma SegmentedAtDepth(s: State, depth: nat)
    requires Segmented(s)
    ensures Segmented(s.(depth := depth))
  {}

  lemma LiveSegmented(s: State, u: Update)
    requires Segmented(s)
    ensures Segmented(Live(s, u))
  {
    if IsErased(s.depth, u) {
      SegmentedAtDepth(s, DepthAfter(s.depth, u));
    } else {
      HandleSegmented(s, u);
    }
  }

  /** At every moment of a live prompt the active message is its segments and tool calls. */
  lemma LiveSegments(s: State, text: string, us: seq<Update>)
    ensures Segmented(LiveAll(BeginPrompt(s, text), us))
  {
    BeginSegmented(s, text);
    LiveAllSegmented(BeginPrompt(s, text), us);
  }

  /** At every moment of a replay, of any stream, the active message is its segments and tool calls. */
  lemma {:induction false} ReplaySegments(us: seq<Update>)
    ensures Segmented(ReplayAll(FRESH, us))
  {
    if us != [] {
      ReplaySegments(us[..|us| - 1]);
      ReplaySegmented(ReplayAll(FRESH, us[..|us| - 1]), us[|us| - 1]);
    }
  }

  // ----- what a listener learns -----

  /** All that a listener keeps: the open segment, whether a prompt runs, the tools' names, the user's
      texts, and whether everything heard so far made sense. */
  datatype Ear = Ear(open: Option<seq<Block>>, working: bool, names: map<string, string>,
                     users: seq<string>, sound: bool)

  function Listen(ear: Ear, e: Event): Ear {
    match e
    case UserShown(text) => ear.(users := ear.users + [text])
    case AgentBegin => ear.(working := true, sound := ear.sound && !ear.working)
    case AgentFinish => ear.(working := false, sound := ear.sound && ear.working)
    case SegmentBegin => ear.(open := Some([]), sound := ear.sound && ear.open.None?)
    case SegmentGrew(content) => ear.(open := Some(content), sound := ear.sound && ear.open.Some?)
    case SegmentEnd(content, _) => ear.(open := None, sound := ear.sound && ear.open == Some(content))
    case ToolBegin(id, name, _) => ear.(names := ear.names[id := name], sound := ear.sound && ear.open.None?)
    case ToolProgress(id, name, _) => ear.(sound := ear.sound && (id in ear.names ==> ear.names[id] == name))
  }

  function Hear(events: seq<Event>): Ear {
    if events == [] then Ear(None, false, map[], [], true)
    else Listen(Hear(events[..|events| - 1]), events[|events| - 1])
  }

  function Users(ms: seq<Message>): seq<string> {
    if ms == [] then []
    else Users(ms[..|ms| - 1]) + if ms[|ms| - 1].User? then [ms[|ms| - 1].text] else []
  }

  /** From what was emitted since the log had length `base` a listener knows the open segment, the tools'
      names and the user's texts, and nothing it heard was out of place. */
  ghost predicate Followed(s: State, base: nat, working: bool) {
    && ActiveIsLast(s) && base <= |s.events|
    && Hear(s.events[base..]) == Ear(s.segment, working, s.toolNames, Users(s.messages), true)
  }

  lemma Heard(events: seq<Event>, base: nat, e: Event)
    requires base <= |events|
    ensures Hear((events + [e])[base..]) == Listen(Hear(events[base..]), e)
  {
    var more := (events + [e])[base..];
    assert more[..|more| - 1] == events[base..];
  }

  lemma HeardTwo(events: seq<Event>, base: nat, e: Event, f: Event)
    requires base <= |events|
    ensures Hear((events + [e] + [f])[base..]) == Listen(Listen(Hear(events[base..]), e), f)
  {
    Heard(events, base, e);
    Heard(events + [e], base, f);
  }

  lemma UsersSnoc(ms: seq<Message>, m: Message)
    ensures Users(ms + [m]) == Users(ms) + if m.User? then [m.text] else []
  {
    assert (ms + [m])[..|ms|] == ms;
  }

  lemma UsersKept(s: State, content: seq<Block>, reason: string)
    requires s.active && ActiveIsLast(s)
    ensures Users(s.messages[..|s.messages| - 1] + [Assistant(content, reason)]) == Users(s.messages)
  {
    UsersSnoc(s.messages[..|s.messages| - 1], Assistant(content, reason));
  }

  lemma AppendFollowed(s: State, base: nat, working: bool, thinking: bool, text: string)
    requires Followed(s, base, working)
    ensures Followed(Append(s, thinking, text), base, working)
  {
    hide Hear, Users, AppendContent;
    if text != "" && s.active {
      UsersKept(s, AppendContent(Content(s), thinking, text), "");
      var grew := SegmentGrew(AppendContent(if s.segment.None? then [] else s.segment.value, thinking, text));
      if s.segment.None? {
        HeardTwo(s.events, base, SegmentBegin, grew);
      } else {
        Heard(s.events, base, grew);
        assert s.events + [] == s.events;
      }
    }
  }

  lemma StartToolFollowed(s: State, base: nat, working: bool, id: string, name: string, arguments: string)
    requires Followed(s, base, working)
    ensures Followed(StartTool(s, id, name, arguments), base, working)
  {
    hide Hear, Users;
    if id != "" {
      if s.active {
        UsersKept(s, Content(s) + [Call(id, name, arguments)], "");
      }
      var begin := ToolBegin(id, name, arguments);
      if s.segment.Some? {
        HeardTwo(s.events, base, SegmentEnd(s.segment.value, "tool_use"), begin);
      } else {
        Heard(s.events, base, begin);
      }
    }
  }

  lemma HandleFollowed(s: State, base: nat, working: bool, u: Update)
    requires Followed(s, base, working)
    ensures Followed(Handle(s, u), base, working)
  {
    hide Hear, Users;
    match u {
      case MessageChunk(text) => AppendFollowed(s, base, working, false, text);
      case ThoughtChunk(text) => AppendFollowed(s, base, working, true, text);
      case ToolCall(id, title, arguments) => StartToolFollowed(s, base, working, id, title, arguments);
      case ToolCallUpdate(id, title, status, _) =>
        Heard(s.events, base, ToolProgress(id, if id in s.toolNames then s.toolNames[id] else title, status));
      case _ =>
    }
  }

  lemma FinishFollowed(s: State, base: nat, working: bool, stopReason: string)
    requires Followed(s, base, working)
    ensures Followed(Finish(s, stopReason), base, working)
  {
    hide Hear, Users;
    if s.active {
      UsersKept(s, Content(s), stopReason);
      if s.segment.Some? {
        Heard(s.events, base, SegmentEnd(s.segment.value, stopReason));
      }
    }
  }

  lemma ReplayFollowed(s: State, base: nat, u: Update)
    requires Followed(s, base, false)
    ensures Followed(Replay(s, u), base, false)
  {
    hide Hear, Users;
    if !IsErased(s.depth, u) {
      if u.UserChunk? {
        FinishFollowed(s, base, false, "stop");
        var finished := Finish(s, "stop");
        Heard(finished.events, base, UserShown(u.text));
        UsersSnoc(finished.messages, User(u.text));
      } else {
        UsersSnoc(s.messages, Assistant([], ""));
        HandleFollowed(if NeedsAssistant(u) then EnsureAssistant(s) else s, base, false, u);
      }
    }
  }

  /** A listener that comes before a replay, whatever was emitted before, can follow it at every moment. */
  lemma {:induction false} ReplayIsFollowed(log: seq<Event>, us: seq<Update>)
    ensures Followed(ReplayAll(FRESH.(events := log), us), |log|, false)
  {
    if us == [] {
      assert log[|log|..] == [];
    } else {
      ReplayIsFollowed(log, us[..|us| - 1]);
      ReplayFollowed(ReplayAll(FRESH.(events := log), us[..|us| - 1]), |log|, us[|us| - 1]);
    }
  }

  lemma BeginFollowed(s: State, base: nat, text: string)
    requires Followed(s, base, false) && s.segment.None?
    ensures Followed(BeginPrompt(s, text), base, true)
  {
    hide Hear, Users;
    HeardTwo(s.events, base, UserShown(text), AgentBegin);
    assert s.events + [UserShown(text), AgentBegin] == s.events + [UserShown(text)] + [AgentBegin];
    UsersSnoc(s.messages, User(text));
    UsersSnoc(s.messages + [User(text)], Assistant([], ""));
    assert s.messages + [User(text), Assistant([], "")] == s.messages + [User(text)] + [Assistant([], "")];
  }

  lemma {:induction false} LiveFollowed(s: State, base: nat, us: seq<Update>)
    requires Followed(s, base, true) && s.active
    ensures Followed(LiveAll(s, us), base, true) && LiveAll(s, us).active
  {
    if us != [] {
      LiveFollowed(s, base, us[..|us| - 1]);
      HandleFollowed(LiveAll(s, us[..|us| - 1]), base, true, us[|us| - 1]);
    }
  }

  lemma EndFollowed(s: State, base: nat, outcome: Outcome)
    requires Followed(s, base, true) && s.active
    ensures Followed(EndPrompt(s, outcome), base, false) && EndPrompt(s, outcome).segment.None?
  {
    hide Hear, Users;
    Heard(s.events, base, SegmentBegin);
    var shown := if outcome.Failed? && s.segment.None?
                 then s.(segment := Some([]), events := s.events + [SegmentBegin]) else s;
    var finished := Finish(shown, ReasonOf(outcome));
    FinishFollowed(shown, base, true, ReasonOf(outcome));
    Heard(finished.events, base, AgentFinish);
  }

  /** A listener can follow any number of prompts, stopped or failed, at every moment. */
  lemma {:induction false} PromptsAreFollowed(ts: seq<Turn>, text: string, us: seq<Update>)
    ensures Followed(Prompts(FRESH, ts), 0, false) && Prompts(FRESH, ts).segment.None?
    ensures Followed(LiveAll(BeginPrompt(Prompts(FRESH, ts), text), us), 0, true)
  {
    if ts != [] {
      var front, t := ts[..|ts| - 1], ts[|ts| - 1];
      PromptsAreFollowed(front, t.text, t.updates);
      var s := Prompts(FRESH, front);
      BeginFollowed(s, 0, t.text);
      LiveFollowed(BeginPrompt(s, t.text), 0, t.updates);
      EndFollowed(LiveAll(BeginPrompt(s, t.text), t.updates), 0, t.outcome);
    }
    BeginFollowed(Prompts(FRESH, ts), 0, text);
    LiveFollowed(BeginPrompt(Prompts(FRESH, ts), text), 0, us);
  }

  // ----- what is reported of tools -----

  datatype Report = Report(id: string, status: string)

  /** The progress of tools that a row of events reports. */
  function Reports(events: seq<Event>): seq<Report> {
    if events == [] then []
    else
      var e := events[|events| - 1];
      Reports(events[..|events| - 1]) + if e.ToolProgress? then [Report(e.id, e.status)] else []
  }

  /** The progress that an update brings, inside `depth` subagents. */
  function ProgressOf(depth: nat, u: Update): seq<Report> {
    if depth == 0 && u.ToolCallUpdate? && u.boundary.NoBoundary? && u.id != "" then [Report(u.id, u.status)] else []
  }

  /** The progress that a stream brings outside subagents. */
  function Progress(depth: nat, us: seq<Update>): seq<Report> {
    if us == [] then []
    else Progress(depth, us[..|us| - 1]) + ProgressOf(DepthAll(depth, us[..|us| - 1]), us[|us| - 1])
  }

  lemma ReportsSnoc(events: seq<Event>, e: Event)
    ensures Reports(events + [e]) == Reports(events) + if e.ToolProgress? then [Report(e.id, e.status)] else []
  {
    assert (events + [e])[..|events|] == events;
  }

  lemma NoReports(events: seq<Event>, more: seq<Event>)
    requires |more| <= 2 && forall i :: 0 <= i < |more| ==> !more[i].ToolProgress?
    ensures Reports(events + more) == Reports(events)
  {
    if more == [] {
      assert events + more == events;
    } else if |more| == 1 {
      assert more == [more[0]];
      ReportsSnoc(events, more[0]);
    } else {
      assert events + more == events + [more[0]] + [more[1]];
      ReportsSnoc(events, more[0]);
      ReportsSnoc(events + [more[0]], more[1]);
    }
  }

  lemma AppendReports(s: State, thinking: bool, text: string)
    ensures Reports(Append(s, thinking, text).events) == Reports(s.events)
  {
    if text != "" && s.active && s.messages != [] {
      var began := if s.segment.None? then [SegmentBegin] else [];
      var segment := AppendContent(if s.segment.None? then [] else s.segment.value, thinking, text);
      assert s.events + began + [SegmentGrew(segment)] == s.events + (began + [SegmentGrew(segment)]);
      NoReports(s.events, began + [SegmentGrew(segment)]);
    }
  }

  lemma EndReports(s: State, stopReason: string)
    ensures Reports(EndSegment(s, stopReason).events) == Reports(s.events)
  {
    if s.segment.Some? {
      ReportsSnoc(s.events, SegmentEnd(s.segment.value, stopReason));
    }
  }

  lemma StartReports(s: State, id: string, name: string, arguments: string)
    ensures Reports(StartTool(s, id, name, arguments).events) == Reports(s.events)
  {
    hide Reports;
    EndReports(s, "tool_use");
    ReportsSnoc(EndSegment(s, "tool_use").events, ToolBegin(id, name, arguments));
    assert id != "" ==> StartTool(s, id, name, arguments).events
                        == EndSegment(s, "tool_use").events + [ToolBegin(id, name, arguments)];
  }

  lemma HandleReports(s: State, u: Update)
    ensures Reports(Handle(s, u).events)
         == Reports(s.events) + if u.ToolCallUpdate? && u.id != "" then [Report(u.id, u.status)] else []
  {
    hide Reports, Append, StartTool;
    match u {
      case MessageChunk(text) => AppendReports(s, false, text);
      case ThoughtChunk(text) => AppendReports(s, true, text);
      case ToolCall(id, title, arguments) => StartReports(s, id, title, arguments);
      case ToolCallUpdate(id, title, status, _) =>
        ReportsSnoc(s.events, ToolProgress(id, if id in s.toolNames then s.toolNames[id] else title, status));
      case _ =>
    }
  }

  lemma ReplayStepReports(s: State, u: Update)
    ensures Reports(HandleReplay(s, u).events)
         == Reports(s.events) + if u.ToolCallUpdate? && u.id != "" then [Report(u.id, u.status)] else []
  {
    hide Reports, Handle;
    if u.UserChunk? {
      EndReports(s, "stop");
      ReportsSnoc(Finish(s, "stop").events, UserShown(u.text));
    } else {
      HandleReports(if NeedsAssistant(u) then EnsureAssistant(s) else s, u);
    }
  }

  lemma StepReports(s: State, u: Update)
    ensures Reports(Live(s, u).events) == Reports(s.events) + ProgressOf(s.depth, u)
    ensures Reports(Replay(s, u).events) == Reports(s.events) + ProgressOf(s.depth, u)
  {
    hide Reports, Handle, HandleReplay;
    HandleReports(s, u);
    ReplayStepReports(s, u);
  }

  /** Every progress of a tool outside subagents is reported, in order, and no other. */
  lemma {:induction false} LiveReports(s: State, us: seq<Update>)
    ensures Reports(LiveAll(s, us).events) == Reports(s.events) + Progress(s.depth, us)
  {
    hide Reports, Live, ProgressOf, Erase;
    if us != [] {
      var front := us[..|us| - 1];
      LiveReports(s, front);
      LiveSeesErased(s, front);
      StepReports(LiveAll(s, front), us[|us| - 1]);
    }
  }

  lemma {:induction false} ReplayReports(s: State, us: seq<Update>)
    ensures Reports(ReplayAll(s, us).events) == Reports(s.events) + Progress(s.depth, us)
  {
    hide Reports, Replay, ProgressOf, Erase;
    if us != [] {
      var front := us[..|us| - 1];
      ReplayReports(s, front);
      ReplaySeesErased(s, front);
      StepReports(ReplayAll(s, front), us[|us| - 1]);
    }
  }

  // ----- the adapter object -----

  class AgentSessionAdapter {
    var messages: seq<Message>
    var active: bool
    var segment: Option<seq<Block>>
    var depth: nat
    var toolNames: map<string, string>
    var events: seq<Event>
    ghost var since: nat

    ghost function View(): State
      reads this
    {
      State(messages, active, segment, depth, toolNames, events, since)
    }

    constructor ()
      ensures View() == FRESH
    {
      messages, active, segment, depth, toolNames, events, since := [], false, None, 0, map[], [], 0;
    }

    method Emit(e: Event)
      modifies this`events
      ensures events == old(events) + [e]
    {
      events := events + [e];
    }

    method EndAssistantSegment(stopReason: string)
      modifies this`segment, this`events
      ensures View() == EndSegment(old(View()), stopReason)
    {
      if segment.None? {
        return;
      }
      Emit(SegmentEnd(segment.value, stopReason));
      segment := None;
    }

    method AppendAssistant(thinking: bool, text: string)
      requires ActiveIsLast(View())
      modifies this
      ensures View() == Append(old(View()), thinking, text)
    {
      if text == "" || !active {
        return;
      }
      var last := messages[|messages| - 1];
      messages := messages[..|messages| - 1] + [Assistant(AppendContent(last.content, thinking, text), "")];
      if segment.None? {
        segment := Some([]);
        Emit(SegmentBegin);
      }
      segment := Some(AppendContent(segment.value, thinking, text));
      Emit(SegmentGrew(segment.value));
    }

    method StartToolCall(id: string, name: string, arguments: string)
      requires ActiveIsLast(View())
      modifies this
      ensures View() == StartTool(old(View()), id, name, arguments)
    {
      if id == "" {
        return;
      }
      toolNames := toolNames[id := name];
      if active {
        var last := messages[|messages| - 1];
        messages := messages[..|messages| - 1] + [Assistant(last.content + [Call(id, name, arguments)], "")];
      }
      EndAssistantSegment("tool_use");
      Emit(ToolBegin(id, name, arguments));
    }

    method HandleVisible(u: Update)
      requires ActiveIsLast(View())
      modifies this
      ensures View() == Handle(old(View()), u)
    {
      match u {
        case MessageChunk(text) => AppendAssistant(false, text);
        case ThoughtChunk(text) => AppendAssistant(true, text);
        case ToolCall(id, title, arguments) => StartToolCall(id, title, arguments);
        case ToolCallUpdate(id, title, status, _) =>
          if id != "" {
            Emit(ToolProgress(id, if id in toolNames then toolNames[id] else title, status));
          }
        case _ =>
      }
    }

    /** Follows subagent brackets; true when the update is consumed by them. */
    method HandleSubagent(u: Update) returns (consumed: bool)
      modifies this`depth
      ensures consumed == IsErased(old(depth), u)
      ensures depth == DepthAfter(old(depth), u)
    {
      if u.ToolCallUpdate? && u.boundary.AgentStart? {
        depth := depth + 1;
        return true;
      }
      if u.ToolCallUpdate? && u.boundary.AgentEnd? {
        depth := if depth == 0 then 0 else depth - 1;
        return true;
      }
      return depth > 0 && IsPrivate(u);
    }

    method HandleUpdate(u: Update)
      requires ActiveIsLast(View())
      modifies this
      ensures View() == Live(old(View()), u)
    {
      var consumed := HandleSubagent(u);
      if !consumed {
        HandleVisible(u);
      }
    }

    method FinishAssistant(stopReason: string)
      requires ActiveIsLast(View())
      modifies this
      ensures View() == Finish(old(View()), stopReason)
    {
      if !active {
        return;
      }
      messages := messages[..|messages| - 1] + [Assistant(messages[|messages| - 1].content, stopReason)];
      EndAssistantSegment(stopReason);
      active := false;
    }

    method HandleReplayUpdate(u: Update)
      requires ActiveIsLast(View())
      modifies this
      ensures View() == Replay(old(View()), u)
    {
      var consumed := HandleSubagent(u);
      if consumed {
        return;
      }
      if u.UserChunk? {
        FinishAssistant("stop");
        if u.text != "" {
          messages := messages + [User(u.text)];
          Emit(UserShown(u.text));
        }
        return;
      }
      if NeedsAssistant(u) && !active {
        messages := messages + [Assistant([], "")];
        active, since := true, |events|;
      }
      HandleVisible(u);
    }

    /** One live prompt: the updates arrive while it runs, and it stops or fails. */
    method PromptFor(t: Turn)
      requires ActiveIsLast(View())
      modifies this
      ensures View() == Prompt(old(View()), t)
    {
      messages := messages + [User(t.text)];
      Emit(UserShown(t.text));
      messages := messages + [Assistant([], "")];
      active, segment := true, None;
      Emit(AgentBegin);
      since := |events|;
      assert View() == BeginPrompt(old(View()), t.text);
      RunUpdates(t.text, t.updates, old(View()));
      if t.outcome.Failed? && segment.None? {
        segment := Some([]);
        Emit(SegmentBegin);
      }
      FinishAssistant(if t.outcome.Failed? then "error" else t.outcome.reason);
      active, segment := false, None;
      Emit(AgentFinish);
    }

    method RunUpdates(ghost text: string, us: seq<Update>, ghost start: State)
      requires View() == BeginPrompt(start, text)
      modifies this
      ensures View() == LiveAll(old(View()), us) && ActiveIsLast(View())
    {
      LiveSegments(start, text, []);
      for i := 0 to |us|
        invariant View() == LiveAll(BeginPrompt(start, text), us[..i])
        invariant ActiveIsLast(View())
      {
        assert us[..i + 1][..i] == us[..i];
        LiveSegments(start, text, us[..i + 1]);
        HandleUpdate(us[i]);
      }
      assert us[..|us|] == us;
    }

    /** Replays a recorded stream from scratch. */
    method LoadStream(us: seq<Update>)
      modifies this
      ensures View() == Finish(ReplayAll(FRESH.(events := old(events)), us), "stop")
    {
      messages, active, segment, depth, toolNames, since := [], false, None, 0, map[], 0;
      ghost var start := View();
      for i := 0 to |us|
        invariant View() == ReplayAll(start, us[..i])
        invariant Segmented(View())
      {
        assert us[..i + 1][..i] == us[..i];
        ReplaySegmented(View(), us[i]);
        HandleReplayUpdate(us[i]);
      }
      assert us[..|us|] == us;
      FinishAssistant("stop");
    }
  }
}
