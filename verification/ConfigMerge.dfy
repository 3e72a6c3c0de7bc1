/** The layered configuration merge of `project.py`: user settings under project overrides under
    local overrides, with the security boundary on provider and daemon settings.
*/
module ConfigMerge {
  import opened Wrappers

  datatype Json =
    | Scalar(text: string)
    | List(items: seq<Json>)
    | Dict(fields: map<string, Json>)

  /** What a merge is set up with: the keys whose lists are joined, the keys project layers may not
      set, and the text by which list items are compared. */
  datatype Setup = Setup(unionKeys: set<string>, disallowed: set<string>, repr: Json -> string)

  function DefaultSetup(repr: Json -> string): Setup {
    Setup({"allow", "deny"}, {"provider", "daemon", "default_provider"}, repr)
  }

  type Layer = j: Json | j.Dict? witness Dict(map[])

  // ----- joining lists -----

  ghost function Reprs(u: Setup, items: seq<Json>): set<string> {
    set x | x in items :: u.repr(x)
  }

  /** The items of `base`, then those of `more` that are not represented yet. */
  ghost function Union(u: Setup, base: seq<Json>, more: seq<Json>): seq<Json> {
    if more == [] then base
    else
      var front, x := Union(u, base, more[..|more| - 1]), more[|more| - 1];
      if u.repr(x) in Reprs(u, front) then front else front + [x]
  }

  lemma ReprsAppend(u: Setup, items: seq<Json>, x: Json)
    ensures Reprs(u, items + [x]) == Reprs(u, items) + {u.repr(x)}
  {
    var more := items + [x];
    assert x in more;
    assert forall y :: y in items ==> y in more;
  }

  method CollectReprs(u: Setup, items: seq<Json>) returns (seen: set<string>)
    ensures seen == Reprs(u, items)
  {
    seen := {};
    for i := 0 to |items|
      invariant seen == Reprs(u, items[..i])
    {
      ReprsAppend(u, items[..i], items[i]);
      assert items[..i + 1] == items[..i] + [items[i]];
      seen := seen + {u.repr(items[i])};
    }
    assert items[..|items|] == items;
  }

  method JoinLists(u: Setup, base: seq<Json>, more: seq<Json>) returns (combined: seq<Json>)
    ensures combined == Union(u, base, more)
  {
    combined := base;
    var seen := CollectReprs(u, base);
    for i := 0 to |more|
      invariant combined == Union(u, base, more[..i])
      invariant seen == Reprs(u, combined)
    {
      assert more[..i + 1][..i] == more[..i];
      var r := u.repr(more[i]);
      if r !in seen {
        ReprsAppend(u, combined, more[i]);
        combined := combined + [more[i]];
        seen := seen + {r};
      }
    }
    assert more[..|more|] == more;
  }

  /** `at` says where in the higher layer's list the added items stand. */
  ghost predicate Picks(u: Setup, base: seq<Json>, more: seq<Json>, r: seq<Json>, at: seq<nat>) {
    && |r| == |base| + |at|
    && (forall i :: 0 <= i < |at| ==> at[i] < |more| && r[|base| + i] == more[at[i]])
    && (forall i, j :: 0 <= i < j < |at| ==> at[i] < at[j])
    && (forall i, q :: 0 <= i < |at| && 0 <= q < at[i] ==> u.repr(more[q]) != u.repr(r[|base| + i]))
  }

  /** A joined list starts with the lower layer's items in order; behind them stand, in order, items of
      the higher layer, each the first of its representation there; every item of both is represented;
      and no item is added whose representation stands before it. */
  ghost predicate IsJoin(u: Setup, base: seq<Json>, more: seq<Json>, r: seq<Json>) {
    && base <= r
    && Reprs(u, r) == Reprs(u, base) + Reprs(u, more)
    && (forall i, j :: 0 <= i < j < |r| && |base| <= j ==> u.repr(r[i]) != u.repr(r[j]))
    && exists at :: Picks(u, base, more, r, at)
  }

  lemma {:induction false} UnionPicks(u: Setup, base: seq<Json>, more: seq<Json>) returns (at: seq<nat>)
    ensures Picks(u, base, more, Union(u, base, more), at)
    ensures forall i :: 0 <= i < |more| ==> u.repr(more[i]) in Reprs(u, Union(u, base, more))
  {
    at := [];
    if more != [] {
      var front, x := more[..|more| - 1], more[|more| - 1];
      var before := Union(u, base, front);
      at := UnionPicks(u, base, front);
      assert more == front + [x];
      if u.repr(x) !in Reprs(u, before) {
        ReprsAppend(u, before, x);
        at := at + [|front|];
      }
    }
  }

  lemma {:induction false} UnionIsOrderedUnion(u: Setup, base: seq<Json>, more: seq<Json>)
    ensures IsJoin(u, base, more, Union(u, base, more))
  {
    UnionReprs(u, base, more);
    var at := UnionPicks(u, base, more);
  }

  lemma {:induction false} UnionReprs(u: Setup, base: seq<Json>, more: seq<Json>)
    ensures var r := Union(u, base, more);
            && base <= r
            && Reprs(u, r) == Reprs(u, base) + Reprs(u, more)
            && (forall i, j :: 0 <= i < j < |r| && |base| <= j ==> u.repr(r[i]) != u.repr(r[j]))
  {
    if more != [] {
      var front, x := more[..|more| - 1], more[|more| - 1];
      UnionReprs(u, base, front);
      assert more == front + [x];
      ReprsAppend(u, front, x);
      var before := Union(u, base, front);
      if u.repr(x) !in Reprs(u, before) {
        ReprsAppend(u, before, x);
        assert forall i :: 0 <= i < |before| ==> before[i] in before;
      }
    }
  }

  // ----- merging -----

  /** What happens to a key that both layers define, unless both values are dictionaries. */
  ghost function Override(u: Setup, key: string, base: Json, over: Json): Json {
    if key in u.unionKeys && base.List? && over.List? then List(Union(u, base.items, over.items)) else over
  }

  ghost function Merge(u: Setup, base: Layer, over: Layer): (r: Layer)
    ensures r.fields.Keys == base.fields.Keys + over.fields.Keys
    decreases over
  {
    Dict(map k | k in base.fields.Keys + over.fields.Keys ::
      if k !in over.fields then base.fields[k]
      else if k !in base.fields then over.fields[k]
      else if base.fields[k].Dict? && over.fields[k].Dict? then Merge(u, base.fields[k], over.fields[k])
      else Override(u, k, base.fields[k], over.fields[k]))
  }

  function Strip(u: Setup, layer: Layer): (r: Layer)
    ensures forall k :: k in r.fields <==> k in layer.fields && k !in u.disallowed
    ensures forall k :: k in r.fields ==> r.fields[k] == layer.fields[k]
  {
    Dict(layer.fields - u.disallowed)
  }

  ghost function MergeLayers(u: Setup, user: Layer, project: Layer, local: Layer): Layer {
    Merge(u, Merge(u, user, Strip(u, project)), Strip(u, local))
  }

  method StripDisallowed(u: Setup, layer: Layer) returns (r: Layer)
    ensures r == Strip(u, layer)
  {
    var fields := layer.fields;
    var keys := layer.fields.Keys;
    while keys != {}
      invariant keys <= layer.fields.Keys
      invariant fields == layer.fields - (u.disallowed * (layer.fields.Keys - keys))
      decreases keys
    {
      var k :| k in keys;
      if k in u.disallowed {
        fields := fields - {k};
      }
      keys := keys - {k};
    }
    r := Dict(fields);
  }

  /** Copies the lower layer and applies the higher layer key by key, in any order. */
  method DeepMerge(u: Setup, base: Layer, over: Layer) returns (r: Layer)
    ensures r == Merge(u, base, over)
    decreases over
  {
    var fields := base.fields;
    var keys := over.fields.Keys;
    while keys != {}
      invariant keys <= over.fields.Keys
      invariant fields.Keys == base.fields.Keys + (over.fields.Keys - keys)
      invariant forall k :: k in fields ==>
        fields[k] == if k in keys then base.fields[k] else Merge(u, base, over).fields[k]
      decreases keys
    {
      var k :| k in keys;
      var value := over.fields[k];
      if k in fields && fields[k].Dict? && value.Dict? {
        value := DeepMerge(u, fields[k], value);
      } else if k in u.unionKeys && k in fields && fields[k].List? && value.List? {
        var combined := JoinLists(u, fields[k].items, value.items);
        value := List(combined);
      }
      fields := fields[k := value];
      keys := keys - {k};
    }
    r := Dict(fields);
  }

  method MergeConfigs(u: Setup, user: Layer, project: Layer, local: Layer) returns (r: Layer)
    ensures r == MergeLayers(u, user, project, local)
  {
    var p := StripDisallowed(u, project);
    var l := StripDisallowed(u, local);
    var merged := DeepMerge(u, user, p);
    r := DeepMerge(u, merged, l);
  }

  // ----- the security boundary -----

  function Get(layer: Layer, key: string): Option<Json> {
    if key in layer.fields then Some(layer.fields[key]) else None
  }

  /** Whatever project and local layers hold, the protected settings are the user's. */
  lemma ProtectedKeysAreTheUsers(u: Setup, user: Layer, project: Layer, local: Layer, key: string)
    requires key in u.disallowed
    ensures Get(MergeLayers(u, user, project, local), key) == Get(user, key)
  {
    HighestLayerWins(u, user, Strip(u, project), key);
    HighestLayerWins(u, Merge(u, user, Strip(u, project)), Strip(u, local), key);
  }

  /** What a project or local layer may not set. */
  lemma ProviderAndDaemonAreTheUsers(repr: Json -> string, user: Layer, project: Layer, local: Layer)
    ensures var r := MergeLayers(DefaultSetup(repr), user, project, local);
            && Get(r, "provider") == Get(user, "provider") && Get(r, "daemon") == Get(user, "daemon")
            && Get(r, "default_provider") == Get(user, "default_provider")
  {
    ProtectedKeysAreTheUsers(DefaultSetup(repr), user, project, local, "provider");
    ProtectedKeysAreTheUsers(DefaultSetup(repr), user, project, local, "daemon");
    ProtectedKeysAreTheUsers(DefaultSetup(repr), user, project, local, "default_provider");
  }

  /** Without a condition on the layers: a key's merged value is that of the highest layer that has the
      key, unless two dictionaries or two union lists meet there. */
  lemma HighestLayerWins(u: Setup, base: Layer, over: Layer, key: string)
    ensures key !in over.fields ==> Get(Merge(u, base, over), key) == Get(base, key)
    ensures key in over.fields && !(key in base.fields && base.fields[key].Dict? && over.fields[key].Dict?)
            && !(key in base.fields && key in u.unionKeys && base.fields[key].List? && over.fields[key].List?)
            ==> Get(Merge(u, base, over), key) == Some(over.fields[key])
  {}

  // ----- precedence, path by path -----

  /** The value other than a dictionary that a path leads to. */
  function Leaf(j: Json, path: seq<string>): Option<Json> {
    if path == [] then (if j.Dict? then None else Some(j))
    else if j.Dict? && path[0] in j.fields then Leaf(j.fields[path[0]], path[1..])
    else None
  }

  /** The higher layer's value wins where it has one; only two lists under a union key join. */
  ghost predicate Wins(u: Setup, key: string, base: Option<Json>, over: Option<Json>, merged: Option<Json>) {
    if over.None? then merged == base
    else if base.Some? && base.value.List? && over.value.List? && key in u.unionKeys then
      merged.Some? && merged.value.List? && IsJoin(u, base.value.items, over.value.items, merged.value.items)
    else merged == over
  }

  ghost predicate PathFollowsPrecedence(u: Setup, base: Layer, over: Layer, path: seq<string>)
    requires path != []
  {
    Wins(u, path[|path| - 1], Leaf(base, path), Leaf(over, path), Leaf(Merge(u, base, over), path))
  }

  ghost predicate HasLeaf(j: Json) {
    exists path :: Leaf(j, path).Some?
  }

  /** No dictionary meets a value: the higher layer puts no dictionary over a value, and no value
      over a dictionary that holds one. */
  ghost predicate Compatible(base: Layer, over: Layer)
    decreases over
  {
    forall k :: k in base.fields && k in over.fields ==>
      var b, o := base.fields[k], over.fields[k];
      if b.Dict? && o.Dict? then Compatible(b, o)
      else !o.Dict? && (b.Dict? ==> !HasLeaf(b))
  }

  lemma MergedLeaf(u: Setup, base: Layer, over: Layer, path: seq<string>)
    requires path != []
    ensures var k, rest := path[0], path[1..];
            && (k !in over.fields ==> Leaf(Merge(u, base, over), path) == Leaf(base, path) && Leaf(over, path).None?)
            && (k in over.fields && k !in base.fields ==>
                  Leaf(Merge(u, base, over), path) == Leaf(over, path) && Leaf(base, path).None?)
            && (k in over.fields && k in base.fields ==>
                  Leaf(Merge(u, base, over), path)
                  == Leaf(if base.fields[k].Dict? && over.fields[k].Dict?
                          then Merge(u, base.fields[k], over.fields[k])
                          else Override(u, k, base.fields[k], over.fields[k]), rest))
  {}

  lemma {:induction false} CompatiblePaths(u: Setup, base: Layer, over: Layer, path: seq<string>)
    requires Compatible(base, over) && path != []
    ensures PathFollowsPrecedence(u, base, over, path)
    decreases |path|
  {
    var k, rest := path[0], path[1..];
    MergedLeaf(u, base, over, path);
    if k in base.fields && k in over.fields {
      var b, o := base.fields[k], over.fields[k];
      if b.Dict? && o.Dict? {
        if rest != [] {
          CompatiblePaths(u, b, o, rest);
        }
      } else if b.Dict? {
        assert Leaf(b, rest).None?;
      } else if b.List? && o.List? {
        assert Leaf(base, path) == Leaf(b, rest) && Leaf(over, path) == Leaf(o, rest);
        assert path[|path| - 1] == if rest == [] then k else rest[|rest| - 1];
        UnionIsOrderedUnion(u, b.items, o.items);
      }
    }
  }

  /** Where a dictionary meets a value, some path breaks the rule. */
  lemma {:induction false} ConflictBreaksAPath(u: Setup, base: Layer, over: Layer) returns (path: seq<string>)
    requires !Compatible(base, over)
    ensures path != [] && !PathFollowsPrecedence(u, base, over, path)
    decreases over
  {
    var k :| k in base.fields && k in over.fields
      && !(var b, o := base.fields[k], over.fields[k];
           if b.Dict? && o.Dict? then Compatible(b, o) else !o.Dict? && (b.Dict? ==> !HasLeaf(b)));
    var b, o := base.fields[k], over.fields[k];
    var rest: seq<string> := [];
    if b.Dict? && o.Dict? {
      rest := ConflictBreaksAPath(u, b, o);
    } else if b.Dict? {
      rest :| Leaf(b, rest).Some?;
    }
    path := [k] + rest;
    assert path[0] == k && path[1..] == rest;
    assert rest != [] ==> path[|path| - 1] == rest[|rest| - 1];
    assert Leaf(base, path) == Leaf(b, rest) && Leaf(over, path) == Leaf(o, rest);
    MergedLeaf(u, base, over, path);
  }

  /** Every path takes its value from the highest layer that defines it, with union lists joined, if
      and only if no dictionary meets a value. */
  lemma PrecedenceIff(u: Setup, base: Layer, over: Layer)
    ensures Compatible(base, over) <==> forall path :: path != [] ==> PathFollowsPrecedence(u, base, over, path)
  {
    if Compatible(base, over) {
      forall path | path != []
        ensures PathFollowsPrecedence(u, base, over, path)
      {
        CompatiblePaths(u, base, over, path);
      }
    } else {
      var path := ConflictBreaksAPath(u, base, over);
    }
  }

  /** Three layers: local over project over user. */
  lemma ThreeLayers(u: Setup, user: Layer, project: Layer, local: Layer, path: seq<string>)
    requires path != []
    requires Compatible(user, Strip(u, project)) && Compatible(Merge(u, user, Strip(u, project)), Strip(u, local))
    ensures var key := path[|path| - 1];
            exists below ::
              && Wins(u, key, Leaf(user, path), Leaf(Strip(u, project), path), below)
              && Wins(u, key, below, Leaf(Strip(u, local), path), Leaf(MergeLayers(u, user, project, local), path))
  {
    CompatiblePaths(u, user, Strip(u, project), path);
    CompatiblePaths(u, Merge(u, user, Strip(u, project)), Strip(u, local), path);
  }
}
