/** Merging user overrides into the default kubelet configuration: nested maps on the heap, merged in
    place, and what the merge means path by path. */
module DeepMerge {
  import opened Objects

  /** ---------- Configurations as values ---------- */

  /** A scalar, or any other value that is not a map, counts as a leaf. */
  datatype Tree = Leaf(text: string) | Branch(entries: map<string, Tree>)

  /** Overrides win; where both sides have a map, the maps are merged key by key. */
  function Merge(d: Tree, s: Tree): Tree
    decreases s
  {
    if d.Branch? && s.Branch? then
      Branch(map k | k in d.entries.Keys + s.entries.Keys ::
        if k !in s.entries then d.entries[k]
        else if k !in d.entries then s.entries[k]
        else Merge(d.entries[k], s.entries[k]))
    else s
  }

  /** What a configuration has at the end of a path. */
  function At(c: Tree, path: seq<string>): Option<Tree>
    decreases |path|
  {
    if path == [] then Some(c)
    else if c.Leaf? || path[0] !in c.entries then None
    else At(c.entries[path[0]], path[1..])
  }

  /** The path runs into a leaf of the configuration and on. */
  predicate Blocked(c: Tree, path: seq<string>) {
    exists n | 0 <= n < |path| :: At(c, path[..n]).Some? && At(c, path[..n]).value.Leaf?
  }

  /** What the merged configuration must have at a path: a leaf of the overrides wins and hides what lies
      below; a map of the overrides wins over a leaf and over nothing; over a map it gives a map with the
      keys of both; where the overrides have nothing, the default stays. */
  predicate MergedAt(d: Tree, s: Tree, path: seq<string>, merged: Option<Tree>) {
    if Blocked(s, path) then merged == None
    else
      match At(s, path)
      case None => merged == At(d, path)
      case Some(Leaf(text)) => merged == Some(Leaf(text))
      case Some(Branch(over)) =>
        match At(d, path)
        case Some(Branch(was)) =>
          merged.Some? && merged.value.Branch? && merged.value.entries.Keys == was.Keys + over.Keys
        case _ => merged == Some(Branch(over))
  }

  /** The same with the value of the merge in full. */
  predicate MergedValueAt(d: Tree, s: Tree, path: seq<string>, merged: Option<Tree>) {
    if Blocked(s, path) then merged == None
    else
      match At(s, path)
      case None => merged == At(d, path)
      case Some(over) =>
        if At(d, path).Some? then merged == Some(Merge(At(d, path).value, over)) else merged == Some(over)
  }

  lemma BlockedBelow(c: Tree, path: seq<string>)
    requires path != [] && c.Branch?
    ensures Blocked(c, path) <==> path[0] in c.entries && Blocked(c.entries[path[0]], path[1..])
  {
    if Blocked(c, path) {
      var n :| 0 <= n < |path| && At(c, path[..n]).Some? && At(c, path[..n]).value.Leaf?;
      assert path[..n][1..] == path[1..][..n - 1];
    }
    if path[0] in c.entries && Blocked(c.entries[path[0]], path[1..]) {
      var sub := c.entries[path[0]];
      var n :| 0 <= n < |path| - 1 && At(sub, path[1..][..n]).Some? && At(sub, path[1..][..n]).value.Leaf?;
      assert path[..n + 1][1..] == path[1..][..n];
      assert At(c, path[..n + 1]) == At(sub, path[1..][..n]);
    }
  }

  lemma {:induction false} BlockedIsNone(c: Tree, path: seq<string>)
    requires Blocked(c, path)
    ensures At(c, path) == None
    decreases |path|
  {
    if c.Branch? {
      BlockedBelow(c, path);
      BlockedIsNone(c.entries[path[0]], path[1..]);
    }
  }

  lemma LeafBlocks(c: Tree, path: seq<string>)
    requires c.Leaf? && path != []
    ensures Blocked(c, path)
  {
    assert At(c, path[..0]) == Some(c);
  }

  lemma {:induction false} MergeValueByPath(d: Tree, s: Tree, path: seq<string>)
    requires d.Branch?
    ensures MergedValueAt(d, s, path, At(Merge(d, s), path))
    decreases |path|
  {
    if path != [] {
      if s.Leaf? {
        LeafBlocks(s, path);
      } else {
        BlockedBelow(s, path);
        var key := path[0];
        if key in s.entries {
          var over := s.entries[key];
          if key in d.entries && d.entries[key].Branch? {
            MergeValueByPath(d.entries[key], over, path[1..]);
          } else {
            DefaultLeafLoses(d, s, key);
            if Blocked(over, path[1..]) { BlockedIsNone(over, path[1..]); }
            hide Blocked;
            assert At(Merge(d, s), path) == At(over, path[1..]) == At(s, path);
            if path[1..] == [] {
              assert At(s, path) == Some(over);
              assert At(d, path) == if key in d.entries then Some(d.entries[key]) else None;
            } else {
              assert At(d, path) == None;
            }
          }
        }
      }
    }
  }

  /** The merge of two maps is right at every path, and so at every leaf. */
  lemma MergeByPath(d: Tree, s: Tree, path: seq<string>)
    requires d.Branch?
    ensures MergedAt(d, s, path, At(Merge(d, s), path))
  {
    MergeValueByPath(d, s, path);
    hide Blocked, At;
  }

  /** As far as one look can tell, the two are the same: equal, or maps with the same keys. */
  predicate Alike(x: Option<Tree>, y: Option<Tree>) {
    x == y ||
    (x.Some? && y.Some? && x.value.Branch? && y.value.Branch? && x.value.entries.Keys == y.value.entries.Keys)
  }

  lemma {:induction false} AlikeEverywhereIsEqual(a: Tree, b: Tree)
    requires forall path :: Alike(At(a, path), At(b, path))
    ensures a == b
  {
    assert Alike(At(a, []), At(b, []));
    if a.Branch? && a != b {
      forall k | k in a.entries
        ensures a.entries[k] == b.entries[k]
      {
        forall path
          ensures Alike(At(a.entries[k], path), At(b.entries[k], path))
        {
          assert Alike(At(a, [k] + path), At(b, [k] + path));
          assert ([k] + path)[1..] == path;
        }
        AlikeEverywhereIsEqual(a.entries[k], b.entries[k]);
      }
    }
  }

  /** The specification by paths leaves no room: only the merge is right at every path. */
  lemma OnlyMergeIsRight(d: Tree, s: Tree, t: Tree)
    requires d.Branch? && forall path :: MergedAt(d, s, path, At(t, path))
    ensures t == Merge(d, s)
  {
    forall path
      ensures Alike(At(t, path), At(Merge(d, s), path))
    {
      assert MergedAt(d, s, path, At(t, path));
      MergeByPath(d, s, path);
      hide Blocked, At, Merge;
    }
    AlikeEverywhereIsEqual(t, Merge(d, s));
  }

  lemma DefaultLeafLoses(d: Tree, s: Tree, key: string)
    requires d.Branch? && s.Branch? && key in s.entries && (key in d.entries ==> d.entries[key].Leaf?)
    ensures key in Merge(d, s).entries && Merge(d, s).entries[key] == s.entries[key]
  {
  }

  /** Merging the same overrides again changes nothing. */
  lemma {:induction false} MergeIsIdempotent(d: Tree, s: Tree)
    ensures Merge(Merge(d, s), s) == Merge(d, s)
    decreases s
  {
    if s.Branch? {
      var once := Merge(d, s);
      forall k | k in s.entries
        ensures Merge(once.entries[k], s.entries[k]) == once.entries[k]
      {
        if d.Branch? && k in d.entries {
          MergeIsIdempotent(d.entries[k], s.entries[k]);
        } else {
          MergeWithItself(s.entries[k]);
        }
      }
    }
  }

  lemma {:induction false} MergeWithItself(s: Tree)
    ensures Merge(s, s) == s
  {
    if s.Branch? {
      forall k | k in s.entries
        ensures Merge(s.entries[k], s.entries[k]) == s.entries[k]
      {
        MergeWithItself(s.entries[k]);
      }
    }
  }

  /** Empty overrides leave the defaults as they are. */
  lemma NoOverrides(d: Tree)
    requires d.Branch?
    ensures Merge(d, Branch(map[])) == d
  {
  }

  /** ---------- Configurations on the heap ---------- */

  datatype Value = Scalar(text: string) | Nested(node: MapNode)

  /** One map of a configuration. `repr` holds the node itself and all nodes below it. */
  class MapNode {
    var entries: map<string, Value>
    ghost var repr: set<MapNode>

    /** The nodes below form a tree: no node is reached in two ways. */
    ghost predicate Valid()
      reads this, repr
      decreases repr
    {
      && this in repr
      && (forall k | k in entries && entries[k].Nested? ::
            var child := entries[k].node;
            child in repr && child.repr <= repr && this !in child.repr && child.Valid())
      && (forall k, l | k in entries && l in entries && k != l && entries[k].Nested? && entries[l].Nested? ::
            entries[k].node.repr !! entries[l].node.repr)
    }

    /** The value the map stands for. */
    ghost function Contents(): (c: Tree)
      requires Valid()
      reads this, repr
      ensures c.Branch? && c.entries.Keys == entries.Keys
      decreases repr
    {
      Branch(map k | k in entries :: match entries[k] case Scalar(t) => Leaf(t) case Nested(n) => n.Contents())
    }

    constructor (entries: map<string, string>)
      ensures Valid() && fresh(repr)
      ensures Contents() == Branch(map k | k in entries :: Leaf(entries[k]))
    {
      this.entries := map k | k in entries :: Scalar(entries[k]);
      repr := {this};
    }
  }

  /** The nodes a value consists of. */
  ghost function Below(v: Value): set<MapNode>
    reads if v.Nested? then {v.node} else {}
  {
    if v.Nested? then v.node.repr else {}
  }

  ghost predicate ValueOk(v: Value)
    reads if v.Nested? then {v.node} + v.node.repr else {}
  {
    v.Nested? ==> v.node in v.node.repr && v.node.Valid()
  }

  ghost function ValueOf(v: Value): Tree
    requires ValueOk(v)
    reads if v.Nested? then {v.node} + v.node.repr else {}
  {
    match v
    case Scalar(t) => Leaf(t)
    case Nested(n) => n.Contents()
  }

  /** What a value may consist of at most, and what it stands for. */
  datatype Part = Part(nodes: set<MapNode>, value: Tree)

  ghost predicate Holds(v: Value, p: Part)
    reads if v.Nested? then {v.node} + v.node.repr else {}
  {
    ValueOk(v) && Below(v) <= p.nodes && ValueOf(v) == p.value
  }

  /** The parts of a map, key by key. */
  ghost function Parts(node: MapNode): map<string, Part>
    requires node.Valid()
    reads node, node.repr
  {
    assert forall k | k in node.entries :: ValueOk(node.entries[k]) by {
      forall k | k in node.entries
        ensures ValueOk(node.entries[k])
      {
        assert node.entries[k].Nested? ==> node.entries[k].node.Valid();
      }
    }
    map k | k in node.entries :: Part(Below(node.entries[k]), ValueOf(node.entries[k]))
  }

  /** What the merge makes of two parts under one key. */
  ghost function Joined(was: map<string, Part>, over: map<string, Part>, key: string): Part
    requires key in was || key in over
  {
    if key !in over then was[key]
    else if key !in was then over[key]
    else Part(was[key].nodes + over[key].nodes, Merge(was[key].value, over[key].value))
  }

  /** The parts of the two maps lie apart from each other and from the maps themselves. */
  ghost predicate Apart(dst: MapNode, src: MapNode, was: map<string, Part>, over: map<string, Part>, below: set<MapNode>) {
    && (forall k | k in was :: was[k].nodes <= below && dst !in was[k].nodes)
    && (forall k | k in over :: over[k].nodes !! below && dst !in over[k].nodes && src !in over[k].nodes)
    && (forall k, l | k in was && l in was && k != l :: was[k].nodes !! was[l].nodes)
    && (forall k, l | k in over && l in over && k != l :: over[k].nodes !! over[l].nodes)
  }

  lemma PartsLieApart(dst: MapNode, src: MapNode)
    requires dst.Valid() && src.Valid() && dst.repr !! src.repr
    ensures Apart(dst, src, Parts(dst), Parts(src), dst.repr)
    ensures forall k | k in src.entries :: Parts(src)[k].nodes < src.repr
  {
    forall k | k in src.entries
      ensures Below(src.entries[k]) < src.repr
    {
      assert src !in Below(src.entries[k]);
    }
  }

  /** Every entry is within its part and stands for its value. */
  ghost predicate AllHold(values: map<string, Value>, parts: map<string, Part>)
    reads *
  {
    values.Keys == parts.Keys && forall k | k in values :: Holds(values[k], parts[k])
  }

  lemma PartsHold(node: MapNode)
    requires node.Valid()
    ensures AllHold(node.entries, Parts(node))
  {
  }

  lemma StaysWithin(v: Value, p: Part)
    requires Holds(v, p)
    ensures v.Nested? ==> v.node in p.nodes && v.node.repr <= p.nodes
  {
  }

  /** The entries reach no nodes but those of their parts. */
  ghost predicate Within(values: map<string, Value>, parts: map<string, Part>)
    reads *
  {
    forall k | k in values && k in parts && values[k].Nested? ::
      values[k].node in parts[k].nodes && values[k].node.repr <= parts[k].nodes
  }

  lemma HoldingIsWithin(values: map<string, Value>, parts: map<string, Part>)
    requires AllHold(values, parts)
    ensures Within(values, parts)
  {
    forall k | k in values
      ensures Holds(values[k], parts[k])
    {
    }
  }

  /** How the map should stand with the keys `todo` of the overrides still to come. */
  ghost function Goal(was: map<string, Part>, over: map<string, Part>, todo: set<string>): map<string, Part> {
    map k | k in was.Keys + (over.Keys - todo) :: if k in todo then was[k] else Joined(was, over, k)
  }

  lemma NothingMergedYet(was: map<string, Part>, over: map<string, Part>)
    ensures Goal(was, over, over.Keys) == was
  {
  }

  lemma AllButOne(values: map<string, Value>, was: map<string, Part>, over: map<string, Part>, todo: set<string>, key: string)
    requires AllHold(values, Goal(was, over, todo)) && key in todo && todo <= over.Keys
    ensures AllHold(values - {key}, Goal(was, over, todo) - {key})
    ensures key in values <==> key in was
    ensures key in was ==> Holds(values[key], was[key])
  {
    hide Holds;
  }

  lemma OthersLieApart(dst: MapNode, src: MapNode, was: map<string, Part>, over: map<string, Part>, all: set<MapNode>,
                       todo: set<string>, key: string)
    requires Apart(dst, src, was, over, all) && key in todo && todo <= over.Keys
    ensures var parts := Goal(was, over, todo) - {key};
            && (forall k | k in parts :: dst !in parts[k].nodes && (key in was ==> parts[k].nodes !! was[key].nodes))
            && (forall k | k in over :: dst !in over[k].nodes && (key in was ==> over[k].nodes !! was[key].nodes))
    ensures key in was ==> dst !in was[key].nodes && was[key].nodes <= all
  {
    hide Merge;
  }

  lemma OneMore(values: map<string, Value>, was: map<string, Part>, over: map<string, Part>, todo: set<string>, key: string)
    requires key in todo && todo <= over.Keys && key in values
    requires AllHold(values - {key}, Goal(was, over, todo) - {key}) && Holds(values[key], Joined(was, over, key))
    ensures AllHold(values, Goal(was, over, todo - {key}))
  {
    hide Holds, Joined;
    assert Goal(was, over, todo - {key}) == (Goal(was, over, todo) - {key})[key := Joined(was, over, key)];
    forall k | k in values && k != key
      ensures k in Goal(was, over, todo) && Holds(values[k], Goal(was, over, todo)[k])
    {
      assert k in values - {key};
    }
  }

  /** Merges `src` into `dst` in place, visiting the keys of `src` in any order. Subtrees of `src` that
      `dst` does not have are not copied: afterwards both maps share them. Yet `src` is not modified. */
  method DeepMerge(dst: MapNode, src: MapNode)
    requires dst.Valid() && src.Valid() && dst.repr !! src.repr
    modifies dst.repr
    ensures dst.Valid() && dst.repr <= old(dst.repr) + src.repr
    ensures dst.Contents() == Merge(old(dst.Contents()), old(src.Contents()))
    ensures src.Valid() && src.repr == old(src.repr) && src.Contents() == old(src.Contents())
    decreases src.repr, 1
  {
    hide Merge, Holds, Apart, AllHold, Goal, Result;
    ghost var was, over := Parts(dst), Parts(src);
    ghost var all := dst.repr;
    PartsLieApart(dst, src);
    PartsHold(dst);
    PartsHold(src);
    NothingMergedYet(was, over);
    ResultIsMerge(dst, src);
    hide Parts;
    var todo := src.entries.Keys;
    while todo != {}
      invariant todo <= over.Keys && dst.repr == all
      invariant AllHold(src.entries, over)
      invariant AllHold(dst.entries, Goal(was, over, todo))
      decreases |todo|
    {
      var key :| key in todo;
      MergeKey(dst, src, key, todo, was, over, all);
      todo := todo - {key};
    }
    Adopt(dst, src, was, over, all);
  }

  /** All keys are merged: the nodes taken over from `src` now belong to `dst` too. */
  ghost method Adopt(dst: MapNode, src: MapNode, was: map<string, Part>, over: map<string, Part>, all: set<MapNode>)
    requires dst in all && Apart(dst, src, was, over, all) && AllHold(dst.entries, Goal(was, over, {}))
    requires forall k | k in over :: over[k].nodes < src.repr
    modifies dst`repr
    ensures dst.Valid() && dst.repr == all + src.repr
    ensures dst.Contents() == Result(was, over)
  {
    hide Merge, Holds, Apart;
    var parts, reach := Goal(was, over, {}), all + src.repr;
    HoldingIsWithin(dst.entries, parts);
    GoalLiesApart(dst, src, was, over, all);
    dst.repr := reach;
    forall k | k in dst.entries
      ensures Holds(dst.entries[k], parts[k])
    {
      assert old(Holds(dst.entries[k], parts[k]));
    }
    PartsMakeValid(dst, parts);
    ResultOfGoal(was, over);
  }

  lemma GoalLiesApart(dst: MapNode, src: MapNode, was: map<string, Part>, over: map<string, Part>, all: set<MapNode>)
    requires Apart(dst, src, was, over, all)
    requires forall k | k in over :: over[k].nodes < src.repr
    ensures var parts := Goal(was, over, {});
            && (forall k | k in parts :: dst !in parts[k].nodes && parts[k].nodes <= all + src.repr)
            && (forall k, l | k in parts && l in parts && k != l :: parts[k].nodes !! parts[l].nodes)
  {
    hide Merge;
  }

  ghost function ResultOf(parts: map<string, Part>): Tree {
    Branch(map k | k in parts :: parts[k].value)
  }

  lemma PartsMakeValid(node: MapNode, parts: map<string, Part>)
    requires AllHold(node.entries, parts) && node in node.repr
    requires forall k | k in parts :: node !in parts[k].nodes && parts[k].nodes <= node.repr
    requires forall k, l | k in parts && l in parts && k != l :: parts[k].nodes !! parts[l].nodes
    ensures node.Valid() && node.Contents() == ResultOf(parts)
  {
    forall k | k in node.entries
      ensures Holds(node.entries[k], parts[k])
    {
    }
  }

  ghost function Result(was: map<string, Part>, over: map<string, Part>): Tree {
    Branch(map k | k in was.Keys + over.Keys :: Joined(was, over, k).value)
  }

  lemma ResultOfGoal(was: map<string, Part>, over: map<string, Part>)
    ensures ResultOf(Goal(was, over, {})) == Result(was, over)
  {
    hide Joined;
  }

  lemma ResultIsMerge(dst: MapNode, src: MapNode)
    requires dst.Valid() && src.Valid()
    ensures Result(Parts(dst), Parts(src)) == Merge(dst.Contents(), src.Contents())
  {
  }

  /** Merges what `src` has under one key. */
  method MergeKey(dst: MapNode, src: MapNode, key: string, ghost todo: set<string>, ghost was: map<string, Part>,
                  ghost over: map<string, Part>, ghost all: set<MapNode>)
    requires dst in all && dst.repr == all && src !in all && key in todo && todo <= over.Keys
    requires Apart(dst, src, was, over, all)
    requires forall k | k in over :: over[k].nodes < src.repr
    requires AllHold(src.entries, over) && AllHold(dst.entries, Goal(was, over, todo))
    modifies all
    ensures dst.repr == all
    ensures AllHold(src.entries, over) && AllHold(dst.entries, Goal(was, over, todo - {key}))
    decreases src.repr, 0
  {
    hide Merge, Holds, ValueOk, Below, ValueOf, Apart;
    var srcVal := src.entries[key];
    ghost var overrides, others := src.entries, dst.entries - {key};
    ghost var parts := Goal(was, over, todo) - {key};
    AllButOne(dst.entries, was, over, todo, key);
    HoldingIsWithin(src.entries, over);
    HoldingIsWithin(others, parts);
    OthersLieApart(dst, src, was, over, all, todo, key);
    hide Goal;
    if key !in dst.entries {
      dst.entries := dst.entries[key := srcVal];
    } else {
      var dstVal := dst.entries[key];
      if srcVal.Nested? && dstVal.Nested? {
        StaysWithin(dstVal, was[key]);
        MergeNested(dstVal.node, srcVal.node, was[key], over[key]);
      } else {
        OverrideWins(dstVal, srcVal, was[key], over[key]);
        dst.entries := dst.entries[key := srcVal];
      }
    }
    forall k | k in overrides
      ensures Holds(overrides[k], over[k])
    {
      assert old(Holds(overrides[k], over[k]));
    }
    forall k | k in others
      ensures Holds(others[k], parts[k])
    {
      assert old(Holds(others[k], parts[k]));
    }
    assert dst.entries - {key} == others;
    OneMore(dst.entries, was, over, todo, key);
  }

  lemma OverrideWins(dstVal: Value, srcVal: Value, was: Part, over: Part)
    requires Holds(dstVal, was) && Holds(srcVal, over) && !(dstVal.Nested? && srcVal.Nested?)
    ensures Holds(srcVal, Part(was.nodes + over.nodes, Merge(was.value, over.value)))
  {
  }

  /** Both sides have a map. */
  method MergeNested(dst: MapNode, src: MapNode, ghost was: Part, ghost over: Part)
    requires Holds(Nested(dst), was) && Holds(Nested(src), over) && was.nodes !! over.nodes
    modifies dst.repr
    ensures Holds(Nested(dst), Part(was.nodes + over.nodes, Merge(was.value, over.value)))
    ensures Holds(Nested(src), over)
    decreases src.repr, 2
  {
    hide Merge;
    DeepMerge(dst, src);
  }
}
