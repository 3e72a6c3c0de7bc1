/** Layer 2 of compaction in `compact.py`: removing whole rounds of read-only tool calls from the
    messages before the protected tail.
*/
module MicroCompaction {
  import opened Conversation
  import opened Compaction
  import Decimal

  function CallIds(m: Message): set<string> {
    set b | b in m.content && b.ToolUse? :: b.id
  }

  function ResultIds(m: Message): set<string> {
    set b | b in m.content && b.ToolResult? :: b.id
  }

  predicate HasCalls(m: Message) {
    m.role.Assistant? && exists b :: b in m.content && b.ToolUse?
  }

  /** An assistant message that calls tools, all of them read-only. */
  predicate ReadOnlyCall(r: Rules, m: Message) {
    HasCalls(m) && forall b :: b in m.content && b.ToolUse? ==> b.name in r.readOnly
  }

  /** A tool message with a result for one of the calls of `call`. */
  predicate Touches(m: Message, call: Message) {
    m.role.Tool? && ResultIds(m) * CallIds(call) != {}
  }

  // ----- what is removed, independently of the scan -----

  /** Every message after `i` up to `j` answers a call of message `i`. */
  ghost predicate RunFrom(ms: seq<Message>, i: nat, j: nat) {
    i <= j < |ms| && forall k :: i < k <= j ==> Touches(ms[k], ms[i])
  }

  /** Message `j` belongs to a read-only round that starts before `bound`. */
  ghost predicate RemovedBy(r: Rules, ms: seq<Message>, bound: nat, j: nat) {
    exists i :: 0 <= i < bound && i < |ms| && ReadOnlyCall(r, ms[i]) && RunFrom(ms, i, j)
  }

  /** The positions removed: those before the cutoff that belong to a read-only round. */
  ghost function RemovedSet(r: Rules, ms: seq<Message>, cutoff: nat): set<nat> {
    set j | 0 <= j < cutoff && RemovedBy(r, ms, cutoff, j)
  }

  /** Characters of the messages at the given positions, each counted once. */
  function SumChars(r: Rules, ms: seq<Message>, at: set<nat>, n: nat): nat
    requires n <= |ms|
  {
    if n == 0 then 0
    else SumChars(r, ms, at, n - 1) + if n - 1 in at then Chars(r, ms[n - 1].content) else 0
  }

  lemma {:induction false} SumAdd(r: Rules, ms: seq<Message>, at: set<nat>, k: nat, n: nat)
    requires n <= |ms| && k < |ms| && k !in at
    ensures SumChars(r, ms, at + {k}, n) == SumChars(r, ms, at, n) + if k < n then Chars(r, ms[k].content) else 0
  {
    if n > 0 {
      SumAdd(r, ms, at, k, n - 1);
    }
  }

  /** The messages from `lo` up to `hi` whose positions are not given. */
  function Kept(ms: seq<Message>, at: set<nat>, lo: nat, hi: nat): seq<Message>
    requires lo <= hi <= |ms|
    decreases hi
  {
    if lo == hi then []
    else Kept(ms, at, lo, hi - 1) + if hi - 1 in at then [] else [ms[hi - 1]]
  }

  function Marker(n: nat): seq<Message> {
    [UserMessage("[" + Decimal.Print(n) + " read-only tool messages removed]"),
     AssistantText("Understood, continuing.")]
  }

  ghost predicate IsFirst(at: set<nat>, f: nat) {
    f in at && forall j :: j in at ==> f <= j
  }

  /** The input without the given positions, with one marker pair where the first of them was. */
  ghost predicate Compacted(ms: seq<Message>, at: set<nat>, result: seq<Message>) {
    if at == {} then result == ms
    else exists f: nat :: IsFirst(at, f) && f < |ms|
                     && result == ms[..f] + Marker(|at|) + Kept(ms, at, f, |ms|)
  }

  // ----- the scan -----

  /** Marks one read-only round: its call and the run of results behind it. */
  method MarkRound(r: Rules, ms: seq<Message>, cutoff: nat, i: nat, at: set<nat>, freed: nat)
    returns (at': set<nat>, freed': nat)
    requires i < cutoff <= |ms|
    requires freed == SumChars(r, ms, at, |ms|)
    requires forall j :: j in at ==> j < i
    ensures forall j :: j in at' <==> j in at || (i <= j < cutoff && RunFrom(ms, i, j))
    ensures freed' == SumChars(r, ms, at', |ms|)
  {
    SumAdd(r, ms, at, i, |ms|);
    at' := at + {i};
    freed' := freed + Chars(r, ms[i].content);
    var j := i + 1;
    while j < cutoff && Touches(ms[j], ms[i])
      invariant i < j <= cutoff
      invariant forall k :: i < k < j ==> Touches(ms[k], ms[i])
      invariant forall k :: k in at' <==> k in at || i <= k < j
      invariant freed' == SumChars(r, ms, at', |ms|)
    {
      SumAdd(r, ms, at', j, |ms|);
      at' := at' + {j};
      freed' := freed' + Chars(r, ms[j].content);
      j := j + 1;
    }
  }

  /** A round ends before the next assistant message. */
  lemma RunsEndBefore(r: Rules, ms: seq<Message>, i: nat, j: nat)
    requires i < |ms| && ms[i].role.Assistant? && RemovedBy(r, ms, i, j)
    ensures j < i
  {}

  lemma RemovedNext(r: Rules, ms: seq<Message>, i: nat, j: nat)
    requires i < |ms|
    ensures RemovedBy(r, ms, i + 1, j)
       <==> RemovedBy(r, ms, i, j) || (ReadOnlyCall(r, ms[i]) && RunFrom(ms, i, j))
  {}

  method MarkRounds(r: Rules, ms: seq<Message>, cutoff: nat) returns (at: set<nat>, freed: nat)
    requires cutoff <= |ms|
    ensures at == RemovedSet(r, ms, cutoff)
    ensures freed == SumChars(r, ms, at, |ms|)
  {
    at, freed := {}, 0;
    SumEmpty(r, ms, |ms|);
    for i := 0 to cutoff
      invariant forall j :: j in at <==> 0 <= j < cutoff && RemovedBy(r, ms, i, j)
      invariant freed == SumChars(r, ms, at, |ms|)
    {
      forall j
        ensures j >= 0 ==> (RemovedBy(r, ms, i + 1, j)
                       <==> RemovedBy(r, ms, i, j) || (ReadOnlyCall(r, ms[i]) && RunFrom(ms, i, j)))
      {
        if j >= 0 {
          RemovedNext(r, ms, i, j);
        }
      }
      if ReadOnlyCall(r, ms[i]) {
        forall j | j in at
          ensures j < i
        {
          RunsEndBefore(r, ms, i, j);
        }
        at, freed := MarkRound(r, ms, cutoff, i, at, freed);
      }
    }
  }

  lemma {:induction false} SumEmpty(r: Rules, ms: seq<Message>, n: nat)
    requires n <= |ms|
    ensures SumChars(r, ms, {}, n) == 0
  {
    if n > 0 {
      SumEmpty(r, ms, n - 1);
    }
  }

  /** Copies the messages that stay, and puts the marker where the first removed one was. */
  method InsertMarker(ms: seq<Message>, at: set<nat>) returns (result: seq<Message>)
    requires at != {} && forall j :: j in at ==> j < |ms|
    ensures Compacted(ms, at, result)
  {
    result := [];
    var inserted := false;
    ghost var f := 0;
    for i := 0 to |ms|
      invariant !inserted ==> result == ms[..i] && forall j :: j in at ==> i <= j
      invariant inserted ==> IsFirst(at, f) && f < i && result == ms[..f] + Marker(|at|) + Kept(ms, at, f, i)
    {
      if i in at {
        if !inserted {
          result := result + Marker(|at|);
          inserted := true;
          f := i;
          assert Kept(ms, at, i, i) == [];
        }
        continue;
      }
      result := result + [ms[i]];
    }
    assert inserted by {
      var j :| j in at;
    }
  }

  /** Layer 2 removes exactly the read-only rounds before the protected tail, leaves one marker pair
      at the first removed position, and reports the characters of the removed messages, each
      counted once. */
  method MicroCompact(r: Rules, ms: seq<Message>, protectedTail: nat) returns (result: seq<Message>, freed: nat)
    ensures Compacted(ms, RemovedSet(r, ms, Cutoff(ms, protectedTail)), result)
    ensures freed == SumChars(r, ms, RemovedSet(r, ms, Cutoff(ms, protectedTail)), |ms|)
  {
    if |ms| <= protectedTail {
      assert RemovedSet(r, ms, 0) == {};
      SumEmpty(r, ms, |ms|);
      return ms, 0;
    }
    var at;
    at, freed := MarkRounds(r, ms, |ms| - protectedTail);
    if at == {} {
      SumEmpty(r, ms, |ms|);
      return ms, 0;
    }
    result := InsertMarker(ms, at);
  }

  // ----- the protected tail -----

  lemma {:induction false} KeptSplit(ms: seq<Message>, at: set<nat>, lo: nat, mid: nat, hi: nat)
    requires lo <= mid <= hi <= |ms| && forall j :: mid <= j < hi ==> j !in at
    ensures Kept(ms, at, lo, hi) == Kept(ms, at, lo, mid) + ms[mid..hi]
    decreases hi
  {
    if mid < hi {
      KeptSplit(ms, at, lo, mid, hi - 1);
      assert ms[mid..hi] == ms[mid..hi - 1] + [ms[hi - 1]];
    } else {
      assert ms[mid..hi] == [];
    }
  }

  /** Everything from the cutoff on is an unchanged suffix of the result. */
  lemma TailIsKept(ms: seq<Message>, at: set<nat>, cutoff: nat, result: seq<Message>) returns (front: seq<Message>)
    requires Compacted(ms, at, result) && cutoff <= |ms| && forall j :: j in at ==> j < cutoff
    ensures result == front + ms[cutoff..]
  {
    if at == {} {
      front := ms[..cutoff];
    } else {
      var f: nat :| IsFirst(at, f) && f < |ms| && result == ms[..f] + Marker(|at|) + Kept(ms, at, f, |ms|);
      KeptSplit(ms, at, f, cutoff, |ms|);
      front := ms[..f] + Marker(|at|) + Kept(ms, at, f, cutoff);
      assert ms[cutoff..|ms|] == ms[cutoff..];
      assert result == front + ms[cutoff..];
    }
  }

  // ----- pairing of calls and results -----

  lemma {:induction false} KeptMembers(ms: seq<Message>, at: set<nat>, lo: nat, hi: nat, m: Message)
    requires lo <= hi <= |ms|
    ensures m in Kept(ms, at, lo, hi) <==> exists k :: lo <= k < hi && k !in at && ms[k] == m
    decreases hi
  {
    if lo < hi {
      KeptMembers(ms, at, lo, hi - 1, m);
      var one := if hi - 1 in at then [] else [ms[hi - 1]];
      assert m in Kept(ms, at, lo, hi) <==> m in Kept(ms, at, lo, hi - 1) || m in one;
    }
  }

  /** The result holds the messages at the positions not removed, and otherwise the marker. */
  lemma ResultMembers(ms: seq<Message>, at: set<nat>, result: seq<Message>, m: Message)
    requires Compacted(ms, at, result)
    ensures (exists k :: 0 <= k < |ms| && k !in at && ms[k] == m) ==> m in result
    ensures m in result ==> (exists k :: 0 <= k < |ms| && k !in at && ms[k] == m) || m in Marker(|at|)
  {
    if at != {} {
      var f: nat :| IsFirst(at, f) && f < |ms| && result == ms[..f] + Marker(|at|) + Kept(ms, at, f, |ms|);
      KeptMembers(ms, at, f, |ms|, m);
      assert forall k :: 0 <= k < f ==> ms[..f][k] == ms[k];
      assert m in result <==> m in ms[..f] || m in Marker(|at|) || m in Kept(ms, at, f, |ms|);
    }
  }

  lemma MarkerHasNoIds(n: nat, m: Message, b: Block)
    requires m in Marker(n) && b in m.content
    ensures !Calls(m, b) && !Answers(m, b)
  {}

  /** The calls of the result are those at the positions that stay. */
  lemma CalledAt(ms: seq<Message>, at: set<nat>, result: seq<Message>, id: string)
    requires Compacted(ms, at, result)
    ensures id in CalledIds(result)
       <==> exists k :: 0 <= k < |ms| && k !in at && ms[k].role.Assistant? && id in CallIds(ms[k])
  {
    if id in CalledIds(result) {
      var m, b :| m in result && b in m.content && Calls(m, b) && b.id == id;
      ResultMembers(ms, at, result, m);
      if m in Marker(|at|) {
        MarkerHasNoIds(|at|, m, b);
      }
    }
    if exists k :: 0 <= k < |ms| && k !in at && ms[k].role.Assistant? && id in CallIds(ms[k]) {
      var k :| 0 <= k < |ms| && k !in at && ms[k].role.Assistant? && id in CallIds(ms[k]);
      ResultMembers(ms, at, result, ms[k]);
      var b :| b in ms[k].content && b.ToolUse? && b.id == id;
      assert Calls(ms[k], b);
    }
  }

  lemma ResolvedAt(ms: seq<Message>, at: set<nat>, result: seq<Message>, id: string)
    requires Compacted(ms, at, result)
    ensures id in ResolvedIds(result)
       <==> exists k :: 0 <= k < |ms| && k !in at && ms[k].role.Tool? && id in ResultIds(ms[k])
  {
    if id in ResolvedIds(result) {
      var m, b :| m in result && b in m.content && Answers(m, b) && b.id == id;
      ResultMembers(ms, at, result, m);
      if m in Marker(|at|) {
        MarkerHasNoIds(|at|, m, b);
      }
    }
    if exists k :: 0 <= k < |ms| && k !in at && ms[k].role.Tool? && id in ResultIds(ms[k]) {
      var k :| 0 <= k < |ms| && k !in at && ms[k].role.Tool? && id in ResultIds(ms[k]);
      ResultMembers(ms, at, result, ms[k]);
      var b :| b in ms[k].content && b.ToolResult? && b.id == id;
      assert Answers(ms[k], b);
    }
  }

  /** The first position after `i` that does not hold a tool message. */
  function RoundEnd(ms: seq<Message>, i: nat): (e: nat)
    requires i < |ms|
    ensures i < e <= |ms|
    ensures forall k :: i < k < e ==> ms[k].role.Tool?
    ensures e < |ms| ==> !ms[e].role.Tool?
    decreases |ms| - i
  {
    if i + 1 == |ms| || !ms[i + 1].role.Tool? then i + 1 else RoundEnd(ms, i + 1)
  }

  /** The tool messages behind a call answer nothing but that call. */
  ghost predicate AnswersOnly(ms: seq<Message>, i: nat)
    requires i < |ms|
  {
    forall k :: i < k < RoundEnd(ms, i) ==> ResultIds(ms[k]) != {} && ResultIds(ms[k]) <= CallIds(ms[i])
  }

  /** The tool messages behind a call answer all of it. */
  ghost predicate AnswersAll(ms: seq<Message>, i: nat)
    requires i < |ms|
  {
    forall id :: id in CallIds(ms[i]) ==> exists k: nat :: InRound(ms, i, k) && id in ResultIds(ms[k])
  }

  /** Tool message `k` belongs to the round that message `i` opens. */
  ghost predicate InRound(ms: seq<Message>, i: nat, k: nat) {
    i < k < |ms| && HasCalls(ms[i]) && k < RoundEnd(ms, i)
  }

  /** A history of complete rounds in which no id is called twice. */
  ghost predicate WellFormed(ms: seq<Message>) {
    && (forall i :: 0 <= i < |ms| && HasCalls(ms[i]) ==> AnswersOnly(ms, i) && AnswersAll(ms, i))
    && (forall k :: 0 <= k < |ms| && ms[k].role.Tool? ==> exists i: nat :: InRound(ms, i, k))
    && (forall i, j :: 0 <= i < j < |ms| && HasCalls(ms[i]) && HasCalls(ms[j]) ==> CallIds(ms[i]) !! CallIds(ms[j]))
  }

  /** Some read-only round starts before the cutoff and ends behind it. */
  ghost predicate Straddles(r: Rules, ms: seq<Message>, cutoff: nat) {
    exists i: nat :: i < cutoff && i < |ms| && ReadOnlyCall(r, ms[i]) && cutoff < RoundEnd(ms, i)
  }

  lemma OneRound(ms: seq<Message>, i: nat, j: nat, k: nat)
    requires InRound(ms, i, k) && InRound(ms, j, k)
    ensures i == j
  {}

  lemma RoundTouches(ms: seq<Message>, i: nat, k: nat)
    requires InRound(ms, i, k) && AnswersOnly(ms, i)
    ensures RunFrom(ms, i, k)
  {
    forall x | i < x <= k
      ensures Touches(ms[x], ms[i])
    {
      var id :| id in ResultIds(ms[x]);
      assert id in CallIds(ms[i]);
    }
  }

  lemma RunInRound(ms: seq<Message>, h: nat, k: nat)
    requires h < |ms| && HasCalls(ms[h]) && RunFrom(ms, h, k) && k < |ms| && ms[k].role.Tool?
    ensures InRound(ms, h, k)
  {}

  /** The results removed are those before the cutoff in read-only rounds. */
  lemma RemovedResults(r: Rules, ms: seq<Message>, cutoff: nat, i: nat, k: nat)
    requires InRound(ms, i, k) && AnswersOnly(ms, i)
    ensures k in RemovedSet(r, ms, cutoff) <==> k < cutoff && ReadOnlyCall(r, ms[i])
  {
    RoundTouches(ms, i, k);
    if k in RemovedSet(r, ms, cutoff) {
      var h: nat :| h < cutoff && h < |ms| && ReadOnlyCall(r, ms[h]) && RunFrom(ms, h, k);
      RunInRound(ms, h, k);
      OneRound(ms, i, h, k);
    }
  }

  /** The calls removed are the read-only ones before the cutoff. */
  lemma RemovedCalls(r: Rules, ms: seq<Message>, cutoff: nat, i: nat)
    requires i < |ms| && HasCalls(ms[i])
    ensures i in RemovedSet(r, ms, cutoff) <==> i < cutoff && ReadOnlyCall(r, ms[i])
  {
    if i < cutoff && ReadOnlyCall(r, ms[i]) {
      assert RunFrom(ms, i, i);
    }
  }

  lemma IdHasCall(m: Message, id: string)
    requires m.role.Assistant? && id in CallIds(m)
    ensures HasCalls(m)
  {}

  /** A call that stays keeps its results. */
  lemma ResultOfKeptCall(r: Rules, ms: seq<Message>, cutoff: nat, i: nat, k: nat)
    requires InRound(ms, i, k) && AnswersOnly(ms, i) && i !in RemovedSet(r, ms, cutoff)
    ensures k !in RemovedSet(r, ms, cutoff)
  {
    RemovedResults(r, ms, cutoff, i, k);
    RemovedCalls(r, ms, cutoff, i);
  }

  lemma AnswerOf(ms: seq<Message>, i: nat, id: string) returns (k: nat)
    requires i < |ms| && AnswersAll(ms, i) && id in CallIds(ms[i])
    ensures InRound(ms, i, k) && id in ResultIds(ms[k])
  {
    k :| InRound(ms, i, k) && id in ResultIds(ms[k]);
  }

  /** A result that stays keeps its call, unless its round straddles. */
  lemma CallOfKeptResult(r: Rules, ms: seq<Message>, cutoff: nat, i: nat, k: nat)
    requires InRound(ms, i, k) && AnswersOnly(ms, i) && k !in RemovedSet(r, ms, cutoff)
    requires !(i < cutoff && ReadOnlyCall(r, ms[i]) && cutoff < RoundEnd(ms, i))
    ensures i !in RemovedSet(r, ms, cutoff) && ResultIds(ms[k]) <= CallIds(ms[i])
  {
    RemovedResults(r, ms, cutoff, i, k);
    RemovedCalls(r, ms, cutoff, i);
  }

  lemma RoundOf(ms: seq<Message>, k: nat) returns (i: nat)
    requires WellFormed(ms) && k < |ms| && ms[k].role.Tool?
    ensures InRound(ms, i, k) && AnswersOnly(ms, i)
  {
    i :| InRound(ms, i, k);
  }

  lemma CalledThenResolved(r: Rules, ms: seq<Message>, cutoff: nat, result: seq<Message>, id: string)
    requires WellFormed(ms) && Compacted(ms, RemovedSet(r, ms, cutoff), result) && id in CalledIds(result)
    ensures id in ResolvedIds(result)
  {
    var at := RemovedSet(r, ms, cutoff);
    CalledAt(ms, at, result, id);
    ResolvedAt(ms, at, result, id);
    var i :| 0 <= i < |ms| && i !in at && ms[i].role.Assistant? && id in CallIds(ms[i]);
    IdHasCall(ms[i], id);
    var k := AnswerOf(ms, i, id);
    ResultOfKeptCall(r, ms, cutoff, i, k);
  }

  lemma ResolvedThenCalled(r: Rules, ms: seq<Message>, cutoff: nat, result: seq<Message>, id: string)
    requires WellFormed(ms) && Compacted(ms, RemovedSet(r, ms, cutoff), result) && id in ResolvedIds(result)
    requires !Straddles(r, ms, cutoff)
    ensures id in CalledIds(result)
  {
    var at := RemovedSet(r, ms, cutoff);
    CalledAt(ms, at, result, id);
    ResolvedAt(ms, at, result, id);
    var k :| 0 <= k < |ms| && k !in at && ms[k].role.Tool? && id in ResultIds(ms[k]);
    var i := RoundOf(ms, k);
    CallOfKeptResult(r, ms, cutoff, i, k);
  }

  /** A straddling round leaves a result behind the cutoff whose call is gone. */
  lemma StraddlingBreaks(r: Rules, ms: seq<Message>, cutoff: nat, result: seq<Message>) returns (id: string)
    requires WellFormed(ms) && Straddles(r, ms, cutoff)
    requires Compacted(ms, RemovedSet(r, ms, cutoff), result)
    ensures id in ResolvedIds(result) && id !in CalledIds(result)
  {
    var i: nat :| i < cutoff && i < |ms| && ReadOnlyCall(r, ms[i]) && cutoff < RoundEnd(ms, i);
    id :| id in ResultIds(ms[cutoff]);
    ResolvedAt(ms, RemovedSet(r, ms, cutoff), result, id);
    CallIsGone(r, ms, cutoff, i, result, id);
  }

  lemma CallIsGone(r: Rules, ms: seq<Message>, cutoff: nat, i: nat, result: seq<Message>, id: string)
    requires WellFormed(ms) && Compacted(ms, RemovedSet(r, ms, cutoff), result)
    requires i < cutoff && i < |ms| && ReadOnlyCall(r, ms[i]) && id in CallIds(ms[i])
    ensures id !in CalledIds(result)
  {
    var at := RemovedSet(r, ms, cutoff);
    CalledAt(ms, at, result, id);
    RemovedCalls(r, ms, cutoff, i);
    forall j | 0 <= j < |ms| && ms[j].role.Assistant? && id in CallIds(ms[j])
      ensures j in at
    {
      OnlyCall(ms, i, j, id);
    }
  }

  lemma OnlyCall(ms: seq<Message>, i: nat, j: nat, id: string)
    requires WellFormed(ms) && i < |ms| && j < |ms|
    requires HasCalls(ms[i]) && id in CallIds(ms[i]) && ms[j].role.Assistant? && id in CallIds(ms[j])
    ensures i == j
  {
    IdHasCall(ms[j], id);
  }

  /** On complete rounds, removing read-only rounds keeps calls and results paired, both ways, if and
      only if no read-only round straddles the protected tail. */
  lemma PairingPreservedIff(r: Rules, ms: seq<Message>, cutoff: nat, result: seq<Message>)
    requires WellFormed(ms) && Compacted(ms, RemovedSet(r, ms, cutoff), result)
    ensures CalledIds(result) == ResolvedIds(result) <==> !Straddles(r, ms, cutoff)
  {
    if Straddles(r, ms, cutoff) {
      var id := StraddlingBreaks(r, ms, cutoff, result);
    } else {
      forall id | id in CalledIds(result)
        ensures id in ResolvedIds(result)
      {
        CalledThenResolved(r, ms, cutoff, result, id);
      }
      forall id | id in ResolvedIds(result)
        ensures id in CalledIds(result)
      {
        ResolvedThenCalled(r, ms, cutoff, result, id);
      }
    }
  }
}
