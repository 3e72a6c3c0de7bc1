/** The tool-call concurrency planner of `concurrency.py`: a greedy, left-to-right partition of one
    turn's calls into groups that run in parallel.
*/
module ConcurrencyPlanner {
  import opened Wrappers

  datatype Hint = Serial | Keyed | Parallel

  datatype Slot = Slot(callId: string, hint: Hint, key: Option<string>, preApproved: bool)

  // ----- what a legal group is, independently of the algorithm -----

  /** A call that may share a group at all. */
  predicate Shareable(s: Slot) {
    s.preApproved && !s.hint.Serial?
  }

  /** Two calls that may run side by side: not two `KEYED` calls with one key. */
  predicate Compatible(a: Slot, b: Slot) {
    !(a.hint.Keyed? && b.hint.Keyed? && a.key.Some? && a.key == b.key)
  }

  /** A `KEYED` call without a key never joins others; it can only be joined. */
  predicate CanFollow(s: Slot) {
    s.hint.Keyed? ==> s.key.Some?
  }

  /** A group is a single call, or shareable, pairwise compatible calls of which only the first may
      lack its key. */
  ghost predicate Legal(g: seq<Slot>) {
    && g != []
    && (|g| > 1 ==> forall i :: 0 <= i < |g| ==> Shareable(g[i]))
    && (forall i, j :: 0 <= i < j < |g| ==> Compatible(g[i], g[j]))
    && (forall i :: 0 < i < |g| ==> CanFollow(g[i]))
  }

  function Concat(groups: seq<seq<Slot>>): seq<Slot> {
    if groups == [] then [] else groups[0] + Concat(groups[1..])
  }

  /** An order-preserving partition of `s` into legal groups. */
  ghost predicate IsPlan(groups: seq<seq<Slot>>, s: seq<Slot>) {
    Concat(groups) == s && forall g :: g in groups ==> Legal(g)
  }

  // ----- the accumulator -----

  class GroupBuilder {
    var slots: seq<Slot>
    var keyedKeys: set<string>

    /** The recorded keys are exactly the keys of the group's `KEYED` calls, and the group is legal
        and open to further calls. */
    ghost predicate Valid()
      reads this
    {
      && keyedKeys == KeysOf(slots)
      && (slots != [] ==> Legal(slots) && Shareable(slots[0]))
    }

    constructor ()
      ensures Valid() && slots == []
    {
      slots, keyedKeys := [], {};
    }

    /** A call is accepted exactly when the group stays legal and open with it. */
    method CanAccept(s: Slot) returns (r: bool)
      requires Valid()
      ensures r <==> Legal(slots + [s]) && Shareable(s) && CanFollow(s)
    {
      AcceptIff(slots, s);
      if !s.preApproved {
        return false;
      }
      if s.hint.Serial? {
        return false;
      }
      if s.hint.Keyed? {
        return s.key.Some? && s.key.value !in keyedKeys;
      }
      return true;
    }

    method Add(s: Slot)
      requires Valid() && Shareable(s) && Legal(slots + [s])
      modifies this
      ensures Valid() && slots == old(slots) + [s]
    {
      KeysOfAppend(slots, s);
      slots := slots + [s];
      if s.hint.Keyed? && s.key.Some? {
        keyedKeys := keyedKeys + {s.key.value};
      }
    }
  }

  ghost function KeysOf(slots: seq<Slot>): set<string> {
    set i | 0 <= i < |slots| && slots[i].hint.Keyed? && slots[i].key.Some? :: slots[i].key.value
  }

  lemma KeysOfAppend(slots: seq<Slot>, s: Slot)
    ensures KeysOf(slots + [s])
         == KeysOf(slots) + if s.hint.Keyed? && s.key.Some? then {s.key.value} else {}
  {
    var g := slots + [s];
    assert g[|slots|] == s;
    assert forall i :: 0 <= i < |slots| ==> g[i] == slots[i];
  }

  lemma AcceptIff(slots: seq<Slot>, s: Slot)
    requires slots != [] ==> Legal(slots) && Shareable(slots[0])
    ensures Legal(slots + [s]) && Shareable(s) && CanFollow(s)
       <==> Shareable(s) && (s.hint.Keyed? ==> s.key.Some? && s.key.value !in KeysOf(slots))
  {
    var g := slots + [s];
    if s.hint.Keyed? && s.key.Some? && s.key.value in KeysOf(slots) {
      var i :| 0 <= i < |slots| && slots[i].hint.Keyed? && slots[i].key.Some? && slots[i].key.value == s.key.value;
      assert g[i] == slots[i] && g[|slots|] == s;
    } else if Shareable(s) && CanFollow(s) {
      assert forall i :: 0 <= i < |slots| ==> g[i] == slots[i];
    }
  }

  // ----- the planner -----

  /** No group could have taken the first call of the next one. */
  ghost predicate Maximal(groups: seq<seq<Slot>>) {
    forall k :: 0 < k < |groups| ==> groups[k] != [] && !Legal(groups[k - 1] + [groups[k][0]])
  }

  function Pending(slots: seq<Slot>): seq<seq<Slot>> {
    if slots == [] then [] else [slots]
  }

  /** Nothing can be added to the last group. */
  ghost predicate LastIsClosed(groups: seq<seq<Slot>>) {
    groups != [] ==> |groups[|groups| - 1]| == 1 && !Shareable(groups[|groups| - 1][0])
  }

  lemma {:induction false} ConcatSnoc(groups: seq<seq<Slot>>, g: seq<Slot>)
    ensures Concat(groups + [g]) == Concat(groups) + g
  {
    if groups == [] {
      assert Concat([g]) == g + Concat([]);
    } else {
      ConcatSnoc(groups[1..], g);
      assert (groups + [g])[1..] == groups[1..] + [g];
      assert groups[0] + (Concat(groups[1..]) + g) == Concat(groups) + g;
    }
  }

  /** The planner's loop invariant: the finished groups and the open one plan the calls seen. */
  ghost predicate Planned(groups: seq<seq<Slot>>, open: seq<Slot>, seen: seq<Slot>) {
    && Concat(groups) + open == seen
    && (forall g :: g in groups ==> Legal(g))
    && Maximal(groups + Pending(open))
    && (open == [] ==> LastIsClosed(groups))
  }

  lemma Join(groups: seq<seq<Slot>>, open: seq<Slot>, seen: seq<Slot>, s: Slot)
    requires Planned(groups, open, seen)
    ensures Planned(groups, open + [s], seen + [s])
  {
    var before, after := groups + Pending(open), groups + Pending(open + [s]);
    forall k | 0 < k < |after|
      ensures after[k] != [] && !Legal(after[k - 1] + [after[k][0]])
    {
      assert after[k - 1] == groups[k - 1];
      if k < |groups| || open != [] {
        assert before[k] != [] && before[k][0] == after[k][0] && before[k - 1] == after[k - 1];
      } else {
        ClosedStays(after[k - 1], s);
      }
    }
  }

  lemma NothingPlanned()
    ensures Planned([], [], [])
  {
    assert Concat([]) == [];
  }

  lemma AloneIsLegal(s: Slot)
    ensures [] + [s] == [s] && Legal([s])
  {}

  lemma Start(groups: seq<seq<Slot>>, seen: seq<Slot>, s: Slot)
    requires Planned(groups, [], seen)
    ensures Planned(groups, [s], seen + [s])
  {
    AloneIsLegal(s);
    Join(groups, [], seen, s);
  }

  lemma Flush(groups: seq<seq<Slot>>, open: seq<Slot>, seen: seq<Slot>, s: Slot)
    requires Planned(groups, open, seen) && open != [] && Legal(open) && !Legal(open + [s])
    ensures Planned(groups + [open], [s], seen + [s])
    ensures Legal([s])
  {
    ConcatSnoc(groups, open);
    var before, after := groups + [open], groups + [open] + [[s]];
    forall k | 0 < k < |after|
      ensures after[k] != [] && !Legal(after[k - 1] + [after[k][0]])
    {
      assert after[k - 1] == before[k - 1];
      if k < |before| {
        assert after[k] == before[k];
      }
    }
    assert Pending([s]) == [[s]];
  }

  lemma Single(groups: seq<seq<Slot>>, seen: seq<Slot>, s: Slot)
    requires Planned(groups, [s], seen) && !Shareable(s)
    ensures Planned(groups + [[s]], [], seen)
  {
    ConcatSnoc(groups, [s]);
    assert Pending([s]) == [[s]];
    assert groups + [[s]] + Pending([]) == groups + [[s]];
  }

  lemma ClosedStays(g: seq<Slot>, x: Slot)
    requires |g| == 1 && !Shareable(g[0])
    ensures !Legal(g + [x])
  {
    assert (g + [x])[0] == g[0];
  }

  ghost predicate Sound(groups: seq<seq<Slot>>, open: seq<Slot>, slots: seq<Slot>, i: nat) {
    i <= |slots| && Planned(groups, open, slots[..i])
  }

  /** One call of the plan: it joins the open group, or the open group is flushed and the call starts
      a new one, which a call that may not share closes at once. */
  method Place(groups: seq<seq<Slot>>, current: GroupBuilder, slots: seq<Slot>, i: nat)
    returns (groups': seq<seq<Slot>>, current': GroupBuilder)
    requires current.Valid() && i < |slots| && Sound(groups, current.slots, slots, i)
    modifies current
    ensures current'.Valid() && (current' == current || fresh(current'))
    ensures Sound(groups', current'.slots, slots, i + 1)
  {
    var s := slots[i];
    ghost var seen := slots[..i];
    assert slots[..i + 1] == seen + [s];
    groups', current' := groups, current;
    var accepted := current.CanAccept(s);
    if accepted {
      Join(groups, current.slots, seen, s);
      current.Add(s);
      return;
    }
    if current.slots != [] {
      ExtensionNeedsSharing(current.slots, s);
      Flush(groups, current.slots, seen, s);
      groups' := groups + [current.slots];
      current' := new GroupBuilder();
    } else {
      Start(groups, seen, s);
    }
    if s.hint.Serial? || !s.preApproved {
      Single(groups', seen + [s], s);
      groups' := groups' + [[s]];
    } else {
      AloneIsLegal(s);
      current'.Add(s);
    }
  }

  method PlaceAll(slots: seq<Slot>) returns (groups: seq<seq<Slot>>, current: GroupBuilder)
    ensures fresh(current) && current.Valid() && Planned(groups, current.slots, slots)
  {
    groups := [];
    current := new GroupBuilder();
    NothingPlanned();
    for i := 0 to |slots|
      invariant fresh(current) && current.Valid()
      invariant Sound(groups, current.slots, slots, i)
    {
      groups, current := Place(groups, current, slots, i);
    }
    assert slots[..|slots|] == slots;
  }

  /** The groups partition the calls in order into legal groups, and no partition into legal groups
      has fewer. */
  method PlanExecutionGroups(slots: seq<Slot>) returns (groups: seq<seq<Slot>>)
    ensures IsPlan(groups, slots)
    ensures Maximal(groups)
    ensures forall other :: IsPlan(other, slots) ==> |groups| <= |other|
  {
    var current;
    groups, current := PlaceAll(slots);
    PlanComplete(groups, current.slots, slots);
    if current.slots != [] {
      groups := groups + [current.slots];
    }
    NoPlanIsShorter(groups, slots);
  }

  lemma PlanComplete(groups: seq<seq<Slot>>, open: seq<Slot>, slots: seq<Slot>)
    requires Planned(groups, open, slots) && (open != [] ==> Legal(open))
    ensures IsPlan(if open != [] then groups + [open] else groups, slots)
    ensures Maximal(if open != [] then groups + [open] else groups)
  {
    if open != [] {
      ConcatSnoc(groups, open);
    } else {
      assert groups + Pending([]) == groups;
    }
  }

  lemma NoPlanIsShorter(groups: seq<seq<Slot>>, slots: seq<Slot>)
    requires IsPlan(groups, slots) && Maximal(groups)
    ensures forall other :: IsPlan(other, slots) ==> |groups| <= |other|
  {
    forall other | IsPlan(other, slots)
      ensures |groups| <= |other|
    {
      MaximalIsOptimal(groups, other, slots);
    }
  }

  lemma ExtensionNeedsSharing(open: seq<Slot>, s: Slot)
    requires open != []
    ensures Legal(open + [s]) ==> Shareable(s) && CanFollow(s)
  {
    assert (open + [s])[|open|] == s;
  }

  // ----- optimality -----

  lemma LegalPart(g: seq<Slot>, i: nat, j: nat)
    requires Legal(g) && i < j <= |g|
    ensures Legal(g[i..j])
  {
    var h := g[i..j];
    assert forall k :: 0 <= k < |h| ==> h[k] == g[i + k];
  }

  /** Dropping the first `d` calls of a plan leaves a plan with no more groups. */
  lemma {:induction false} DropFront(groups: seq<seq<Slot>>, s: seq<Slot>, d: nat) returns (rest: seq<seq<Slot>>)
    requires IsPlan(groups, s) && d <= |s|
    ensures IsPlan(rest, s[d..]) && |rest| <= |groups|
    decreases |groups|
  {
    if groups == [] {
      rest := [];
    } else {
      var g := groups[0];
      if d < |g| {
        LegalPart(g, d, |g|);
        rest := [g[d..]] + groups[1..];
        assert rest[1..] == groups[1..];
        assert s[d..] == g[d..] + Concat(groups[1..]);
      } else {
        assert s[|g|..] == Concat(groups[1..]);
        rest := DropFront(groups[1..], s[|g|..], d - |g|);
        assert s[|g|..][d - |g|..] == s[d..];
      }
    }
  }

  /** The first group of a maximal plan is at least as long as that of any other plan. */
  lemma FirstIsLongest(greedy: seq<seq<Slot>>, other: seq<seq<Slot>>, s: seq<Slot>)
    requires IsPlan(greedy, s) && Maximal(greedy) && IsPlan(other, s)
    requires greedy != [] && other != []
    ensures |other[0]| <= |greedy[0]|
  {
    var g, o := greedy[0], other[0];
    if |o| > |g| {
      assert s == g + Concat(greedy[1..]);
      SecondStarts(greedy);
      assert o[0..|g| + 1] == s[..|g| + 1] == g + [greedy[1][0]];
      LegalPart(o, 0, |g| + 1);
    }
  }

  lemma SecondStarts(groups: seq<seq<Slot>>)
    requires groups != [] && Concat(groups[1..]) != [] && forall g :: g in groups ==> Legal(g)
    ensures |groups| > 1 && groups[1] != [] && Concat(groups[1..])[0] == groups[1][0]
  {
    assert groups[1..][0] == groups[1];
    assert groups[1] in groups;
  }

  lemma {:induction false} MaximalIsOptimal(greedy: seq<seq<Slot>>, other: seq<seq<Slot>>, s: seq<Slot>)
    requires IsPlan(greedy, s) && Maximal(greedy) && IsPlan(other, s)
    ensures |greedy| <= |other|
    decreases |greedy|
  {
    if greedy != [] {
      assert greedy[0] in greedy;
      var g := greedy[0];
      assert s != [];
      FirstIsLongest(greedy, other, s);
      var o := other[0];
      assert s[|o|..] == Concat(other[1..]);
      assert s[|g|..] == Concat(greedy[1..]);
      var rest := DropFront(other[1..], s[|o|..], |g| - |o|);
      assert s[|o|..][|g| - |o|..] == s[|g|..];
      MaximalTail(greedy);
      MaximalIsOptimal(greedy[1..], rest, s[|g|..]);
    }
  }

  lemma MaximalTail(groups: seq<seq<Slot>>)
    requires groups != [] && Maximal(groups)
    ensures Maximal(groups[1..])
  {
    var t := groups[1..];
    forall k | 0 < k < |t|
      ensures t[k] != [] && !Legal(t[k - 1] + [t[k][0]])
    {
      assert t[k] == groups[k + 1] && t[k - 1] == groups[k];
    }
  }

  /** What a plan promises the executor: within a group of two or more, every call is approved and
      not serial, and no two calls share a conflict key. */
  lemma GroupsAreSafe(groups: seq<seq<Slot>>, s: seq<Slot>, k: nat, i: nat, j: nat)
    requires IsPlan(groups, s) && k < |groups| && i < j < |groups[k]|
    ensures groups[k][i].preApproved && groups[k][j].preApproved
    ensures groups[k][i].hint != Serial && groups[k][j].hint != Serial
    ensures groups[k][i].hint.Keyed? && groups[k][j].hint.Keyed? ==> groups[k][i].key != groups[k][j].key
  {
    assert Legal(groups[k]);
    assert CanFollow(groups[k][j]) && Compatible(groups[k][i], groups[k][j]);
  }

  /** A group of one call is always legal; a larger one if and only if all its calls are approved and none
      is serial, every keyed call behind the first has a key, and no two keyed calls have one key. */
  lemma LegalIff(g: seq<Slot>)
    ensures |g| == 1 ==> Legal(g)
    ensures |g| > 1 ==>
              (Legal(g) <==>
               && (forall i :: 0 <= i < |g| ==> g[i].preApproved && g[i].hint != Serial)
               && (forall i :: 0 < i < |g| && g[i].hint == Keyed ==> g[i].key != None)
               && (forall i, j :: 0 <= i < j < |g| && g[i].hint == Keyed && g[j].hint == Keyed ==>
                     g[i].key != g[j].key))
  {}
}
