/** The delivery of user labels to the Nodes of a target cluster, with field ownership: what a
    delivery makes of a Node, and what it never touches, whoever else writes the Nodes meanwhile. */
module Delivery {
  import opened Objects
  import opened MachineDeployments
  import opened Text
  import opened NodeLabels

  const MANAGER := "nodelabel-controller"

  /** ---------- Nodes ---------- */

  /** A label with the field managers that own it. */
  datatype Label = Label(value: string, owners: set<string>)

  /** `fromMachine` and `fromClaim` are the annotations in which ClusterAPI and this controller list the
      keys they put on the Node. */
  datatype Node = Node(providerID: string, labels: map<string, Label>, fromMachine: string, fromClaim: string)

  const EMPTY_NODE := Node("", map[], "", "")

  /** `capiKeys` are the keys among the Machine's labels that ClusterAPI syncs to the Node. */
  datatype Machine = Machine(capiKeys: set<string>, providerID: string, nodeRef: Option<string>)

  type Nodes = map<string, Node>

  predicate Owned(node: Node, key: string) {
    key in node.labels && MANAGER in node.labels[key].owners
  }

  /** ---------- What the API server does ---------- */

  /** Somebody else owns a key and holds another value for it. */
  predicate Conflicts(node: Node, managed: Labels) {
    exists k | k in managed ::
      k in node.labels && node.labels[k].value != managed[k] && node.labels[k].owners - {MANAGER} != {}
  }

  function LabelAfterApply(node: Node, managed: Labels, key: string): Label
    requires key in managed || key in node.labels
  {
    var owners := if key in node.labels then node.labels[key].owners else {};
    if key in managed then Label(managed[key], owners + {MANAGER})
    else Label(node.labels[key].value, owners - {MANAGER})
  }

  /** A server-side apply of the managed labels: they get their values and this manager as owner; a label
      that only this manager owned and that is not managed any more goes. */
  function Applied(node: Node, managed: Labels): Node {
    node.(labels := map k | k in managed.Keys + node.labels.Keys &&
                            (k in managed || node.labels[k].owners != {MANAGER}) ::
                      LabelAfterApply(node, managed, k),
          fromClaim := Join(Sorted(managed.Keys), ','))
  }

  /** A merge patch with null for each key: the labels go, whoever owns them. */
  function Removed(node: Node, keys: set<string>): Node {
    node.(labels := node.labels - keys)
  }

  /** A call is carried out, rejected for cause (a conflict, a missing Node), refused without effect, or
      carried out while its reply is lost. */
  datatype Outcome = Done | Rejected | NoEffect | Lost

  /** A read finds what it looks for, finds it missing, or fails. */
  datatype Reading = Found | Missing | Broken

  datatype Event =
    | Apply(name: string, managed: Labels, outcome: Outcome)
    | Remove(name: string, keys: set<string>, outcome: Outcome)
    | Look(reading: Reading)
    // another writer creates, changes or deletes a Node
    | Other(name: string, node: Option<Node>)

  /** Others may do anything to a Node, except make this controller own what it did not own. */
  predicate Honest(nodes: Nodes, name: string, node: Node) {
    forall k | k in node.labels && Owned(node, k) :: name in nodes && Owned(nodes[name], k)
  }

  /** An apply to a Node that is not there creates it. */
  function Step(nodes: Nodes, e: Event): Nodes {
    match e
    case Apply(name, managed, o) =>
      var node := if name in nodes then nodes[name] else EMPTY_NODE;
      if o == Rejected || o == NoEffect || Conflicts(node, managed) then nodes else nodes[name := Applied(node, managed)]
    case Remove(name, keys, o) =>
      if o == Rejected || o == NoEffect || name !in nodes then nodes else nodes[name := Removed(nodes[name], keys)]
    case Look(_) => nodes
    case Other(name, node) =>
      if node.None? then nodes - {name}
      else if Honest(nodes, name, node.value) then nodes[name := node.value]
      else nodes
  }

  function Replay(nodes: Nodes, events: seq<Event>): Nodes {
    if events == [] then nodes else Step(Replay(nodes, events[..|events| - 1]), events[|events| - 1])
  }

  lemma {:induction false} ReplayJoins(nodes: Nodes, es: seq<Event>, fs: seq<Event>)
    ensures Replay(nodes, es + fs) == Replay(Replay(nodes, es), fs)
  {
    if fs == [] {
      assert es + fs == es;
    } else {
      var last := |fs| - 1;
      assert (es + fs)[..|es + fs| - 1] == es + fs[..last];
      ReplayJoins(nodes, es, fs[..last]);
    }
  }

  /** ---------- Floor safety ---------- */

  /** A write of this controller that keeps off the safety floor. */
  predicate Careful(e: Event) {
    match e
    case Apply(_, managed, _) => forall k | k in managed :: !OnNodeFloor(k)
    case Remove(_, keys, _) => forall k | k in keys :: !OnNodeFloor(k)
    case Look(_) => true
    case Other(_, _) => true
  }

  predicate AllCareful(events: seq<Event>) {
    forall e | e in events :: Careful(e)
  }

  /** This controller owns no label on the safety floor. */
  ghost predicate OwnsNoFloor(nodes: Nodes) {
    forall name, k | name in nodes && Owned(nodes[name], k) :: !OnNodeFloor(k)
  }

  /** Every label on the safety floor, with its owners, is the same on the two Nodes. */
  ghost predicate SameFloor(a: Node, b: Node) {
    forall k | OnNodeFloor(k) ::
      (k in a.labels <==> k in b.labels) && (k in a.labels ==> a.labels[k] == b.labels[k])
  }

  lemma CarefulStepKeepsFloor(nodes: Nodes, e: Event)
    requires OwnsNoFloor(nodes) && Careful(e)
    ensures OwnsNoFloor(Step(nodes, e))
    ensures !e.Other? ==> forall name | name in nodes :: name in Step(nodes, e) && SameFloor(nodes[name], Step(nodes, e)[name])
  {
    hide OnNodeFloor, Conflicts;
  }

  lemma {:induction false} CarefulRunKeepsFloor(nodes: Nodes, events: seq<Event>)
    requires OwnsNoFloor(nodes) && AllCareful(events)
    ensures OwnsNoFloor(Replay(nodes, events))
  {
    hide Step, OwnsNoFloor, Careful;
    if events != [] {
      CarefulRunKeepsFloor(nodes, events[..|events| - 1]);
      CarefulStepKeepsFloor(Replay(nodes, events[..|events| - 1]), events[|events| - 1]);
    }
  }

  lemma HistoryKeepsFloor(start: Nodes, before: seq<Event>, after: seq<Event>)
    requires before <= after && AllCareful(after[|before|..]) && OwnsNoFloor(Replay(start, before))
    ensures OwnsNoFloor(Replay(start, after))
  {
    hide Replay, AllCareful, OwnsNoFloor;
    assert before + after[|before|..] == after;
    ReplayJoins(start, before, after[|before|..]);
    CarefulRunKeepsFloor(Replay(start, before), after[|before|..]);
  }

  /** Floor safety: over any run of deliveries, each with whatever deny patterns are then in force, and
      with other writers and failures in between, this controller never comes to own a label on the
      safety floor, and none of its writes adds, changes or removes one, nor its owners. */
  lemma FloorSafety(nodes: Nodes, events: seq<Event>, n: nat, name: string)
    requires OwnsNoFloor(nodes) && AllCareful(events) && n < |events| && !events[n].Other?
    requires name in Replay(nodes, events[..n])
    ensures var at, next := Replay(nodes, events[..n]), Replay(nodes, events[..n + 1]);
            OwnsNoFloor(at) && name in next && SameFloor(at[name], next[name])
  {
    assert events[n] in events && forall e | e in events[..n] :: e in events;
    assert events[..n + 1][..n] == events[..n];
    CarefulRunKeepsFloor(nodes, events[..n]);
    CarefulStepKeepsFloor(Replay(nodes, events[..n]), events[n]);
    hide Step, OwnsNoFloor, SameFloor, Careful;
  }

  /** ---------- What one delivery makes of a Node ---------- */

  /** The desired labels without the keys that ClusterAPI owns on this Node. */
  function Managed(desired: Labels, machine: Machine, node: Node): Labels {
    map k | k in desired && k !in machine.capiKeys && (k == "" || k !in Split(node.fromMachine, ',')) :: desired[k]
  }

  /** The keys to take off: those the policy wants off that are neither managed nor synced from the
      Machine. A key that only the annotation claims for ClusterAPI is not spared. */
  function Foreign(policy: Policy, machine: Machine, node: Node, managed: Labels): set<string> {
    set k | k in node.labels && k !in managed && k !in machine.capiKeys && TakenOff(policy, k)
  }

  function Delivered(node: Node, machine: Machine, desired: Labels, policy: Policy, removeForeign: bool): Node {
    var managed := Managed(desired, machine, node);
    var applied := Applied(node, managed);
    if removeForeign then Removed(applied, Foreign(policy, machine, node, managed)) else applied
  }

  /** The desired labels are what the policy let through. */
  predicate Filtered(policy: Policy, desired: Labels) {
    forall k | k in desired :: !Refused(policy, k)
  }

  /** What becomes of one label. */
  lemma DeliveredLabel(node: Node, machine: Machine, desired: Labels, policy: Policy, k: string)
    requires Filtered(policy, desired)
    ensures var managed := Managed(desired, machine, node);
            var after := Delivered(node, machine, desired, policy, true);
            if k in managed then k in after.labels && after.labels[k].value == desired[k] && Owned(after, k) && !TakenOff(policy, k)
            else if TakenOff(policy, k) && k !in machine.capiKeys then k !in after.labels
            else if k in node.labels && node.labels[k].owners != {MANAGER} then
              k in after.labels && after.labels[k] == Label(node.labels[k].value, node.labels[k].owners - {MANAGER})
            else k !in after.labels
  {
    hide MatchesAny, Split;
  }

  /** Exactness: after a delivery that removes foreign keys, every managed key has its desired value and
      is owned; no key the policy wants off remains except those synced from the Machine; and every other
      label is as before, except that this controller no longer owns it and that it is gone if nobody
      else owned it. */
  lemma DeliveryIsExact(node: Node, machine: Machine, desired: Labels, policy: Policy)
    requires Filtered(policy, desired)
    ensures var managed := Managed(desired, machine, node);
            var after := Delivered(node, machine, desired, policy, true);
            && (forall k | k in managed :: k in after.labels && after.labels[k].value == desired[k] && Owned(after, k))
            && (forall k | k in after.labels && TakenOff(policy, k) :: k in machine.capiKeys)
            && (forall k | k !in managed && !(TakenOff(policy, k) && k !in machine.capiKeys) ::
                  && (k in after.labels <==> k in node.labels && node.labels[k].owners != {MANAGER})
                  && (k in after.labels ==> after.labels[k] == Label(node.labels[k].value, node.labels[k].owners - {MANAGER})))
  {
    forall k {
      DeliveredLabel(node, machine, desired, policy, k);
    }
    hide MatchesAny, Split, Delivered, Managed, TakenOff;
  }

  /** When a key that ClusterAPI's annotation lists survives a removing delivery: if and only if somebody
      other than this controller owns it (or nobody does) and, should the policy want it off, it is still
      among the keys synced from the Machine. The annotation alone keeps this controller from managing a
      key, not from removing it. */
  lemma AnnotatedKeySurvivesIff(node: Node, machine: Machine, desired: Labels, policy: Policy, key: string)
    requires Filtered(policy, desired) && key != "" && key in Split(node.fromMachine, ',') && key in node.labels
    ensures key !in Managed(desired, machine, node)
    ensures key in Delivered(node, machine, desired, policy, true).labels <==>
              node.labels[key].owners != {MANAGER} && (TakenOff(policy, key) ==> key in machine.capiKeys)
  {
    DeliveredLabel(node, machine, desired, policy, key);
    hide Split, MatchesAny, Delivered;
  }

  /** Managed and removed keys are disjoint, and neither is on the floor. */
  lemma ManagedAndForeignAreApart(node: Node, machine: Machine, desired: Labels, policy: Policy)
    requires policy.safety == NODE_SAFETY && Filtered(policy, desired)
    ensures var managed := Managed(desired, machine, node);
            var foreign := Foreign(policy, machine, node, managed);
            && managed.Keys !! foreign
            && (forall k | k in managed.Keys + foreign :: !OnNodeFloor(k))
  {
    hide MatchesAny, Split;
  }

  lemma AppliedTwice(node: Node, once: Node, managed: Labels)
    requires once.fromClaim == Applied(node, managed).fromClaim && once.labels.Items <= Applied(node, managed).labels.Items
    requires managed.Keys <= once.labels.Keys
    ensures Applied(once, managed) == once && !Conflicts(once, managed)
  {
    forall k | k in managed.Keys + once.labels.Keys
      ensures LabelAfterApply(once, managed, k) == once.labels[k]
      ensures k in managed || once.labels[k].owners != {MANAGER}
    {
      assert (k, once.labels[k]) in once.labels.Items;
      assert (k, once.labels[k]) in Applied(node, managed).labels.Items;
    }
    assert Applied(once, managed).labels == once.labels;
  }

  /** Idempotence: delivering the same again is never refused as a conflict and changes nothing. */
  lemma DeliveryIsIdempotent(node: Node, machine: Machine, desired: Labels, policy: Policy, removeForeign: bool)
    requires Filtered(policy, desired)
    ensures var once := Delivered(node, machine, desired, policy, removeForeign);
            && Delivered(once, machine, desired, policy, removeForeign) == once
            && !Conflicts(once, Managed(desired, machine, once))
  {
    hide MatchesAny, Split, LabelAfterApply, Conflicts;
    var once := Delivered(node, machine, desired, policy, removeForeign);
    var managed := Managed(desired, machine, node);
    assert Managed(desired, machine, once) == managed;
    AppliedTwice(node, once, managed);
    if removeForeign {
      assert Foreign(policy, machine, once, managed) == {};
    }
  }

  /** The annotation always records exactly the keys that were applied. */
  lemma AnnotationRecordsManaged(node: Node, machine: Machine, desired: Labels, policy: Policy, removeForeign: bool, key: string)
    requires forall k | k in desired :: k != "" && Free(k, ',')
    ensures key in Managed(desired, machine, node) <==>
              key != "" && key in Split(Delivered(node, machine, desired, policy, removeForeign).fromClaim, ',')
  {
    var keys := Sorted(Managed(desired, machine, node).Keys);
    if keys != [] {
      SplitJoin(keys, ',');
    }
  }

  /** ---------- The controller ---------- */

  /** Nobody else wrote a Node. */
  predicate Alone(events: seq<Event>) {
    forall e | e in events :: !e.Other?
  }

  /** This controller only read. */
  predicate Watching(events: seq<Event>) {
    forall e | e in events :: e.Other? || e.Look?
  }

  /** Every call of this controller succeeded. */
  predicate NoFailure(events: seq<Event>) {
    forall e | e in events ::
      (e.Apply? || e.Remove? ==> e.outcome == Done) && (e.Look? ==> e.reading == Found)
  }

  /** Nobody else wrote a Node, and no call failed but for cause. */
  predicate Undisturbed(events: seq<Event>) {
    Alone(events) && forall e | e in events ::
      (e.Apply? || e.Remove? ==> e.outcome != NoEffect && e.outcome != Lost) && (e.Look? ==> e.reading != Broken)
  }

  lemma OneEvent(a: seq<Event>, e: Event)
    ensures (a + [e])[|a|..] == [e]
    ensures NoFailure([e]) <==> (e.Apply? || e.Remove? ==> e.outcome == Done) && (e.Look? ==> e.reading == Found)
    ensures Undisturbed([e]) <==>
              !e.Other? && (e.Apply? || e.Remove? ==> e.outcome != NoEffect && e.outcome != Lost) && (e.Look? ==> e.reading != Broken)
    ensures Alone([e]) <==> !e.Other?
    ensures Watching([e]) <==> e.Other? || e.Look?
  {
    assert e in [e];
  }

  /** The Nodes of the target cluster. `events` is everything that was written since `start`. */
  class Target {
    var nodes: Nodes
    ghost var start: Nodes
    ghost var events: seq<Event>

    ghost predicate Valid()
      reads this
    {
      nodes == Replay(start, events)
    }

    /** The history only grows, and this controller kept off the safety floor. */
    twostate predicate Later()
      reads this
    {
      Valid() && start == old(start) && old(events) <= events && AllCareful(events[|old(events)|..])
    }

    constructor (nodes: Nodes)
      ensures Valid() && this.nodes == nodes && start == nodes && events == []
    {
      this.nodes, start, events := nodes, nodes, [];
    }

    method Happen(e: Event)
      requires Valid() && Careful(e)
      modifies this
      ensures Later() && nodes == Step(old(nodes), e) && events == old(events) + [e]
    {
      hide Step, Careful;
      ReplayJoins(start, events, [e]);
      assert [e][..0] == [];
      nodes := Step(nodes, e);
      events := events + [e];
    }

    /** Others write as often as they like. */
    method Interfere()
      requires Valid()
      modifies this
      ensures Later() && Watching(events[|old(events)|..]) && NoFailure(events[|old(events)|..])
      ensures Alone(events[|old(events)|..]) ==> nodes == old(nodes) && events == old(events)
    {
      hide Step;
      var n: nat :| true;
      for i := 0 to n
        invariant Later() && forall e | e in events[|old(events)|..] :: e.Other?
        invariant |events| == |old(events)| ==> nodes == old(nodes)
      {
        var name: string, node: Option<Node> := *, *;
        Happen(Other(name, node));
      }
      if |events| > |old(events)| {
        assert events[|old(events)|] in events[|old(events)|..];
      }
    }

    /** Server-side apply without force. A conflict is an error, and then nothing is written. */
    method ApplyLabels(name: string, managed: Labels) returns (ok: bool)
      requires Valid() && forall k | k in managed :: !OnNodeFloor(k)
      modifies this
      ensures Later() && (ok <==> NoFailure(events[|old(events)|..]))
      ensures |events| > |old(events)| && events[|events| - 1].Apply? && events[|events| - 1].managed == managed
      ensures Watching(events[|old(events)|..|events| - 1])
      ensures Alone(events[|old(events)|..]) && name in old(nodes) ==>
                && (ok ==> nodes == old(nodes)[name := Applied(old(nodes)[name], managed)])
                && (Undisturbed(events[|old(events)|..]) ==> (ok <==> !Conflicts(old(nodes)[name], managed)))
    {
      hide Applied, OnNodeFloor, Conflicts, Removed, Replay, Alone, Undisturbed, NoFailure;
      Interfere();
      ghost var before := events;
      var failing: Outcome := *;
      var clash := Conflicts(if name in nodes then nodes[name] else EMPTY_NODE, managed);
      var o := if failing == NoEffect then NoEffect else if clash then Rejected else if failing == Rejected then Done else failing;
      ok := o == Done;
      Happen(Apply(name, managed, o));
      OneEvent(before, Apply(name, managed, o));
      SplitEvents(old(events), before, events);
      assert events[|old(events)|..|events| - 1] == before[|old(events)|..];
    }

    method RemoveLabels(name: string, keys: set<string>) returns (ok: bool)
      requires Valid() && forall k | k in keys :: !OnNodeFloor(k)
      modifies this
      ensures Later() && (ok <==> NoFailure(events[|old(events)|..]))
      ensures forall e | e in events[|old(events)|..] :: !e.Apply?
      ensures Alone(events[|old(events)|..]) && name in old(nodes) ==>
                && (ok ==> nodes == old(nodes)[name := Removed(old(nodes)[name], keys)])
                && (Undisturbed(events[|old(events)|..]) ==> ok)
    {
      hide Removed, OnNodeFloor, Replay, Conflicts, Applied, Alone, Undisturbed, NoFailure;
      Interfere();
      ghost var before := events;
      var failing: Outcome := *;
      var o := if failing == NoEffect then NoEffect
               else if name !in nodes then Rejected
               else if failing == Rejected then Done
               else failing;
      ok := o == Done;
      Happen(Remove(name, keys, o));
      OneEvent(before, Remove(name, keys, o));
      SplitEvents(old(events), before, events);
      WatchingThen(before[|old(events)|..], Remove(name, keys, o));
      assert events[|old(events)|..] == before[|old(events)|..] + [Remove(name, keys, o)];
    }

    /** Reads one Node; the read may fail. */
    method Get(name: string) returns (node: Option<Node>)
      requires Valid()
      modifies this
      ensures Later() && Watching(events[|old(events)|..]) && |events| > |old(events)| && events[|events| - 1].Look?
      ensures node.Some? <==> NoFailure(events[|old(events)|..])
      ensures node.Some? ==> name in nodes && node.value == nodes[name]
      ensures Alone(events[|old(events)|..]) ==> nodes == old(nodes)
      ensures Undisturbed(events[|old(events)|..]) ==> (node.Some? <==> name in nodes)
    {
      hide Alone, Undisturbed, NoFailure, Watching, Replay;
      Interfere();
      ghost var before := events;
      var failing: bool := *;
      var reading := if failing then Broken else if name in nodes then Found else Missing;
      node := if reading == Found then Some(nodes[name]) else None;
      Happen(Look(reading));
      OneEvent(before, Look(reading));
      SplitEvents(old(events), before, events);
      NotFound(events[|old(events)|..]);
    }

    /** Lists the Nodes; the list may fail. */
    method List() returns (ok: bool)
      requires Valid()
      modifies this
      ensures Later() && Watching(events[|old(events)|..]) && |events| > |old(events)| && events[|events| - 1].Look?
      ensures ok <==> NoFailure(events[|old(events)|..])
      ensures Alone(events[|old(events)|..]) ==> nodes == old(nodes)
      ensures Undisturbed(events[|old(events)|..]) ==> ok
    {
      hide Alone, Undisturbed, NoFailure, Watching, Replay;
      Interfere();
      ghost var before := events;
      ok := *;
      Happen(Look(if ok then Found else Broken));
      OneEvent(before, Look(if ok then Found else Broken));
      SplitEvents(old(events), before, events);
      NotFound(events[|old(events)|..]);
    }
  }

  /** This controller wrote labels. */
  predicate Wrote(events: seq<Event>) {
    exists i | 0 <= i < |events| :: events[i].Apply?
  }

  /** After every apply of labels the Node was read back. */
  predicate ReadBack(events: seq<Event>) {
    forall i | 0 <= i < |events| && events[i].Apply? && events[i].managed != map[] ::
      exists j | i < j < |events| :: events[j].Look?
  }

  lemma ReadBackStays(a: seq<Event>, b: seq<Event>, c: seq<Event>)
    requires a <= b <= c
    ensures ReadBack(b[|a|..]) && ReadBack(c[|b|..]) ==> ReadBack(c[|a|..])
    ensures Wrote(b[|a|..]) || Wrote(c[|b|..]) ==> Wrote(c[|a|..])
  {
    var x, y, z := b[|a|..], c[|b|..], c[|a|..];
    assert z == x + y;
    if Wrote(x) {
      var i :| 0 <= i < |x| && x[i].Apply?;
      assert z[i].Apply?;
    }
    if Wrote(y) {
      var i :| 0 <= i < |y| && y[i].Apply?;
      assert z[|x| + i].Apply?;
    }
    if ReadBack(x) && ReadBack(y) {
      forall i | 0 <= i < |z| && z[i].Apply? && z[i].managed != map[]
        ensures exists j | i < j < |z| :: z[j].Look?
      {
        if i < |x| {
          var j :| i < j < |x| && x[j].Look?;
          assert z[j].Look?;
        } else {
          var j :| i - |x| < j < |y| && y[j].Look?;
          assert z[|x| + j].Look?;
        }
      }
    }
  }

  lemma WatchingThen(events: seq<Event>, e: Event)
    requires Watching(events)
    ensures !e.Apply? ==> forall f | f in events + [e] :: !f.Apply?
  {
  }

  /** An apply after nothing but reads is read back if a read follows, or if it applies nothing. */
  lemma AppliedThenRead(a: seq<Event>, b: seq<Event>, c: seq<Event>)
    requires a <= b <= c && |a| < |b| && b[|b| - 1].Apply? && Watching(b[|a|..|b| - 1])
    requires Watching(c[|b|..]) && (b[|b| - 1].managed == map[] || (|b| < |c| && c[|c| - 1].Look?))
    ensures Wrote(c[|a|..]) && ReadBack(c[|a|..])
  {
    var z, n := c[|a|..], |b| - 1 - |a|;
    assert z[n] == b[|b| - 1];
    forall i | 0 <= i < |z| && i != n
      ensures !z[i].Apply?
    {
      if i < n {
        assert z[i] in b[|a|..|b| - 1] by { assert z[i] == b[|a|..|b| - 1][i]; }
      } else {
        assert z[i] in c[|b|..] by { assert z[i] == c[|b|..][i - n - 1]; }
      }
    }
    assert b[|b| - 1].managed != map[] ==> z[|z| - 1] == c[|c| - 1];
  }

  lemma NoApply(events: seq<Event>)
    requires forall e | e in events :: !e.Apply?
    ensures ReadBack(events)
  {
    forall i | 0 <= i < |events|
      ensures !events[i].Apply?
    {
      assert events[i] in events;
    }
  }

  lemma NotFound(events: seq<Event>)
    ensures Undisturbed(events) ==> Alone(events)
  {
  }

  lemma SplitEvents(a: seq<Event>, b: seq<Event>, c: seq<Event>)
    requires a <= b <= c
    ensures Alone(c[|a|..]) <==> Alone(b[|a|..]) && Alone(c[|b|..])
    ensures AllCareful(c[|a|..]) <==> AllCareful(b[|a|..]) && AllCareful(c[|b|..])
    ensures Watching(c[|a|..]) <==> Watching(b[|a|..]) && Watching(c[|b|..])
    ensures NoFailure(c[|a|..]) <==> NoFailure(b[|a|..]) && NoFailure(c[|b|..])
    ensures Undisturbed(c[|a|..]) <==> Undisturbed(b[|a|..]) && Undisturbed(c[|b|..])
  {
    hide Careful;
    assert c[|a|..] == b[|a|..] + c[|b|..];
    assert forall e :: e in c[|a|..] <==> e in b[|a|..] || e in c[|b|..];
  }

  /** The Node that backs a Machine: one with its provider ID if there is one, else the named one. */
  predicate Backs(nodes: Nodes, machine: Machine, name: string) {
    && name in nodes
    && if machine.providerID != "" && (exists n | n in nodes :: nodes[n].providerID == machine.providerID)
       then nodes[name].providerID == machine.providerID
       else machine.nodeRef == Some(name)
  }

  /** Some Node backs the Machine. */
  predicate HasNode(nodes: Nodes, machine: Machine) {
    (machine.providerID != "" && exists n | n in nodes :: nodes[n].providerID == machine.providerID) ||
    (machine.nodeRef.Some? && machine.nodeRef.value in nodes)
  }

  lemma HasNodeIff(nodes: Nodes, machine: Machine)
    ensures HasNode(nodes, machine) <==> exists name :: Backs(nodes, machine, name)
  {
    if machine.nodeRef.Some? && machine.nodeRef.value in nodes &&
       !(machine.providerID != "" && exists n | n in nodes :: nodes[n].providerID == machine.providerID) {
      assert Backs(nodes, machine, machine.nodeRef.value);
    }
    if machine.providerID != "" && exists n | n in nodes :: nodes[n].providerID == machine.providerID {
      var n :| n in nodes && nodes[n].providerID == machine.providerID;
      assert Backs(nodes, machine, n);
    }
  }

  /** Searches the list for a provider ID, in whatever order it comes. */
  method FindByProviderID(nodes: Nodes, id: string) returns (name: Option<string>)
    ensures name.Some? ==> name.value in nodes && nodes[name.value].providerID == id
    ensures name.None? ==> forall n | n in nodes :: nodes[n].providerID != id
  {
    var rest := nodes.Keys;
    while rest != {}
      invariant rest <= nodes.Keys
      invariant forall n | n in nodes && n !in rest :: nodes[n].providerID != id
      decreases |rest|
    {
      var n :| n in rest;
      if nodes[n].providerID == id {
        return Some(n);
      }
      rest := rest - {n};
    }
    name := None;
  }

  /** This controller made a call. */
  predicate Acted(events: seq<Event>) {
    exists e | e in events :: !e.Other?
  }

  lemma LastIsIn(a: seq<Event>, b: seq<Event>, c: seq<Event>)
    requires a <= b <= c && |a| < |b| && !b[|b| - 1].Other?
    ensures Acted(c[|a|..])
  {
    assert c[|a|..][|b| - 1 - |a|] == b[|b| - 1];
  }

  /** Looks for a Node with the Machine's provider ID and falls back to its Node reference. It is found unless
      a call fails; a call that does not fail, but for cause, finds it if and only if it is there. */
  method FindNode(target: Target, machine: Machine) returns (name: string, node: Option<Node>)
    requires target.Valid() && machine.nodeRef.Some?
    modifies target
    ensures target.Later() && Watching(target.events[|old(target.events)|..]) && Acted(target.events[|old(target.events)|..])
    ensures node.Some? <==> NoFailure(target.events[|old(target.events)|..])
    ensures node.Some? ==> name in target.nodes && node.value == target.nodes[name]
    ensures Alone(target.events[|old(target.events)|..]) ==>
              && target.nodes == old(target.nodes)
              && (node.Some? ==> Backs(target.nodes, machine, name))
    ensures Undisturbed(target.events[|old(target.events)|..]) ==> (node.Some? <==> HasNode(target.nodes, machine))
  {
    hide Alone, Undisturbed, NoFailure, Watching, AllCareful, Replay, Acted;
    name := machine.nodeRef.value;
    ghost var start := target.events;
    var searched := machine.providerID != "";
    if searched {
      var ok := target.List();
      LastIsIn(start, target.events, target.events);
      NotFound(target.events[|start|..]);
      if !ok {
        return name, None;
      }
      var found := FindByProviderID(target.nodes, machine.providerID);
      if found.Some? {
        return found.value, Some(target.nodes[found.value]);
      }
    }
    ghost var listed := target.events;
    node := target.Get(name);
    LastIsIn(start, target.events, target.events);
    NotFound(target.events[|listed|..]);
    if searched {
      SplitEvents(start, listed, target.events);
    }
  }

  /** Drops the keys that ClusterAPI owns: those it syncs from the Machine and those its annotation on the
      Node lists. */
  method ExcludeCAPIOwned(desired: Labels, machine: Machine, node: Node) returns (managed: Labels)
    ensures managed == Managed(desired, machine, node)
  {
    if |desired| == 0 {
      return map[];
    }
    hide Split;
    var owned := machine.capiKeys;
    var listed := Split(node.fromMachine, ',');
    for i := 0 to |listed|
      invariant forall k :: k in owned <==> k in machine.capiKeys || (k != "" && k in listed[..i])
    {
      if listed[i] != "" {
        owned := owned + {listed[i]};
      }
    }
    managed := map[];
    var rest := desired.Keys;
    while rest != {}
      invariant rest <= desired.Keys
      invariant managed == map k | k in desired && k !in rest && k !in owned :: desired[k]
      decreases |rest|
    {
      var key :| key in rest;
      rest := rest - {key};
      if key in owned {
        continue;
      }
      managed := managed[key := desired[key]];
    }
  }

  /** Lists the keys on the Node that must be taken off. */
  method ForeignDenied(policy: Policy, machine: Machine, node: Node, managed: Labels) returns (foreign: set<string>)
    ensures foreign == Foreign(policy, machine, node, managed)
  {
    hide TakenOff;
    foreign := {};
    var rest := node.labels.Keys;
    while rest != {}
      invariant rest <= node.labels.Keys
      invariant foreign == set k | k in node.labels && k !in rest && k !in managed && k !in machine.capiKeys && TakenOff(policy, k)
      decreases |rest|
    {
      var key :| key in rest;
      rest := rest - {key};
      if key in managed || key in machine.capiKeys {
        continue;
      }
      var removable := Removable(policy, key);
      if removable {
        foreign := foreign + {key};
      }
    }
  }

  /** Applies the labels and reads the Node back. */
  method ApplyAndVerify(target: Target, name: string, managed: Labels) returns (ok: bool)
    requires target.Valid() && forall k | k in managed :: !OnNodeFloor(k)
    modifies target
    ensures target.Later() && (ok <==> NoFailure(target.events[|old(target.events)|..]))
    ensures ok ==> Wrote(target.events[|old(target.events)|..]) && ReadBack(target.events[|old(target.events)|..])
    ensures Alone(target.events[|old(target.events)|..]) && name in old(target.nodes) ==>
              && (ok ==> target.nodes == old(target.nodes)[name := Applied(old(target.nodes)[name], managed)])
              && (Undisturbed(target.events[|old(target.events)|..]) ==> (ok <==> !Conflicts(old(target.nodes)[name], managed)))
  {
    hide Applied, OnNodeFloor, Conflicts, Alone, Undisturbed, NoFailure, Watching, AllCareful, Replay, Wrote, ReadBack;
    ghost var start := target.events;
    ok := target.ApplyLabels(name, managed);
    NotFound(target.events[|start|..]);
    ghost var applied := target.events;
    NoCalls(applied);
    if !ok {
      return;
    }
    if |managed| == 0 {
      AppliedThenRead(start, applied, applied);
      return;
    }
    var node := target.Get(name);
    ok := node.Some?;
    SplitEvents(start, applied, target.events);
    NotFound(target.events[|applied|..]);
    NotFound(target.events[|start|..]);
    AppliedThenRead(start, applied, target.events);
  }

  /** What one delivery does, told by the Nodes before and after it and by the calls in between. It succeeds
      if and only if each of its calls does, and then, unless only observing, it has applied labels and read
      the Node back; calls that fail at most for cause succeed if and only if the
      Machine has a Node and, unless only observing, nothing conflicts; and a success that nobody disturbs
      leaves the Node as specified and the other Nodes as they were. */
  ghost predicate Attempted(before: Nodes, after: Nodes, calls: seq<Event>, machine: Machine, at: string, desired: Labels,
                            policy: Policy, observeOnly: bool, removeForeign: bool, ok: bool)
  {
    && (ok <==> NoFailure(calls)) && Acted(calls)
    && (if observeOnly then Watching(calls) else ok ==> Wrote(calls) && ReadBack(calls))
    && (ok && Alone(calls) ==>
          && at in before && Backs(before, machine, at)
          && after == if observeOnly then before
                      else before[at := Delivered(before[at], machine, desired, policy, removeForeign)])
    && (Undisturbed(calls) ==>
          if HasNode(before, machine) then
            && at in before && Backs(before, machine, at)
            && (ok <==> observeOnly || !Conflicts(before[at], Managed(desired, machine, before[at])))
          else !ok)
  }

  /** Delivers the labels to the Node of one Machine. Whatever goes wrong or interferes, nothing on the safety
      floor is written. */
  method Deliver(target: Target, machine: Machine, desired: Labels, policy: Policy, observeOnly: bool,
                 removeForeign: bool) returns (ok: bool, ghost at: string)
    requires target.Valid() && machine.nodeRef.Some?
    requires policy.safety == NODE_SAFETY && Filtered(policy, desired)
    modifies target
    ensures target.Later()
    ensures Attempted(old(target.nodes), target.nodes, target.events[|old(target.events)|..], machine, at, desired, policy,
                      observeOnly, removeForeign, ok)
  {
    hide Applied, Removed, Managed, Foreign, OnNodeFloor, Split, Backs, HasNode, Filtered, Conflicts;
    hide Alone, Undisturbed, NoFailure, Watching, AllCareful, Acted, Replay, Wrote, ReadBack;
    ghost var start := target.events;
    var name, node := FindNode(target, machine);
    at := name;
    NotFound(target.events[|start|..]);
    if node.None? {
      return false, at;
    }
    var managed := ExcludeCAPIOwned(desired, machine, node.value);
    var foreign := ForeignDenied(policy, machine, node.value, managed);
    if observeOnly {
      return true, at;
    }

    ManagedAndForeignAreApart(node.value, machine, desired, policy);
    ghost var found := target.events;
    WatchingReadsBack(found[|start|..]);
    ok := WriteNode(target, name, managed, if removeForeign then foreign else {});
    SplitEvents(start, found, target.events);
    ActedStays(start, found, target.events);
    ReadBackStays(start, found, target.events);
    NotFound(target.events[|start|..]);
    NothingRemoved(Applied(node.value, managed));
  }

  /** Applies the labels, reads the Node back, and takes the other keys off. */
  method WriteNode(target: Target, name: string, managed: Labels, foreign: set<string>) returns (ok: bool)
    requires target.Valid() && forall k | k in managed.Keys + foreign :: !OnNodeFloor(k)
    modifies target
    ensures target.Later() && (ok <==> NoFailure(target.events[|old(target.events)|..]))
    ensures ok ==> Wrote(target.events[|old(target.events)|..]) && ReadBack(target.events[|old(target.events)|..])
    ensures Alone(target.events[|old(target.events)|..]) && name in old(target.nodes) ==>
              && (ok ==> target.nodes == old(target.nodes)[name := Removed(Applied(old(target.nodes)[name], managed), foreign)])
              && (Undisturbed(target.events[|old(target.events)|..]) ==> (ok <==> !Conflicts(old(target.nodes)[name], managed)))
  {
    hide Applied, Removed, OnNodeFloor, Conflicts, Alone, Undisturbed, NoFailure, Watching, AllCareful, Replay, Wrote, ReadBack;
    ghost var start := target.events;
    ok := ApplyAndVerify(target, name, managed);
    NotFound(target.events[|start|..]);
    if !ok {
      return;
    }
    ghost var applied := target.events;
    ok := RemoveDenied(target, name, foreign);
    SplitEvents(start, applied, target.events);
    NoApply(target.events[|applied|..]);
    ReadBackStays(start, applied, target.events);
    NotFound(target.events[|start|..]);
    NotFound(target.events[|applied|..]);
  }

  /** Takes the keys off, if there are any. */
  method RemoveDenied(target: Target, name: string, keys: set<string>) returns (ok: bool)
    requires target.Valid() && forall k | k in keys :: !OnNodeFloor(k)
    modifies target
    ensures target.Later() && (ok <==> NoFailure(target.events[|old(target.events)|..]))
    ensures forall e | e in target.events[|old(target.events)|..] :: !e.Apply?
    ensures Alone(target.events[|old(target.events)|..]) && name in old(target.nodes) ==>
              && (ok ==> target.nodes == old(target.nodes)[name := Removed(old(target.nodes)[name], keys)])
              && (Undisturbed(target.events[|old(target.events)|..]) ==> ok)
  {
    hide Alone, Undisturbed, NoFailure, AllCareful, Watching, OnNodeFloor, Replay;
    if keys == {} {
      NoCalls(target.events);
      if name in target.nodes {
        NothingRemoved(target.nodes[name]);
        assert target.nodes == target.nodes[name := target.nodes[name]];
      }
      return true;
    }
    ok := target.RemoveLabels(name, keys);
  }

  lemma WatchingReadsBack(events: seq<Event>)
    requires Watching(events)
    ensures ReadBack(events)
  {
    NoApply(events);
  }

  lemma ActedStays(a: seq<Event>, b: seq<Event>, c: seq<Event>)
    requires a <= b <= c && Acted(b[|a|..])
    ensures Acted(c[|a|..])
  {
    assert c[|a|..] == b[|a|..] + c[|b|..];
  }

  lemma NothingRemoved(node: Node)
    ensures Removed(node, {}) == node
  {
  }

  /** ---------- A whole pass ---------- */

  /** The Machines that have a Node. */
  function WithNode(machines: seq<Machine>): seq<Machine> {
    if machines == [] then []
    else
      var last := machines[|machines| - 1];
      WithNode(machines[..|machines| - 1]) + (if last.nodeRef.Some? then [last] else [])
  }

  /** Exactly the Machines with a Node reference, each as often as it is listed. */
  lemma {:induction false} WithNodeIsFilter(machines: seq<Machine>, m: Machine)
    ensures multiset(WithNode(machines))[m] == if m.nodeRef.Some? then multiset(machines)[m] else 0
  {
    if machines != [] {
      var before, last := machines[..|machines| - 1], machines[|machines| - 1];
      WithNodeIsFilter(before, m);
      assert machines == before + [last];
    }
  }

  /** The Nodes after delivering to one Machine after the other; `names[i]` is the Node of the i-th. */
  function DeliverAll(nodes: Nodes, machines: seq<Machine>, names: seq<string>, desired: Labels, policy: Policy, removeForeign: bool): Nodes
    requires |machines| == |names|
  {
    if machines == [] then nodes
    else
      var last := |machines| - 1;
      var before := DeliverAll(nodes, machines[..last], names[..last], desired, policy, removeForeign);
      if names[last] !in before then before
      else before[names[last] := Delivered(before[names[last]], machines[last], desired, policy, removeForeign)]
  }

  lemma NoDelivery(nodes: Nodes, desired: Labels, policy: Policy, removeForeign: bool)
    ensures DeliverAll(nodes, [], [], desired, policy, removeForeign) == nodes
  {
  }

  lemma DeliverOneMore(nodes: Nodes, machines: seq<Machine>, names: seq<string>, machine: Machine, name: string,
                       desired: Labels, policy: Policy, removeForeign: bool)
    requires |machines| == |names|
    ensures var before := DeliverAll(nodes, machines, names, desired, policy, removeForeign);
            DeliverAll(nodes, machines + [machine], names + [name], desired, policy, removeForeign) ==
            if name !in before then before
            else before[name := Delivered(before[name], machine, desired, policy, removeForeign)]
  {
    hide Delivered;
    assert (machines + [machine])[..|machines|] == machines;
    assert (names + [name])[..|names|] == names;
  }

  predicate Distinct(names: seq<string>) {
    forall i, j | 0 <= i < j < |names| :: names[i] != names[j]
  }

  /** When the Machines have Nodes of their own, a pass gives every one of them its labels, exactly as a
      single delivery would, and leaves all other Nodes alone. */
  lemma {:induction false} DeliverAllIsExact(nodes: Nodes, machines: seq<Machine>, names: seq<string>, desired: Labels,
                                             policy: Policy, removeForeign: bool)
    requires |machines| == |names| && Distinct(names) && forall n | n in names :: n in nodes
    ensures var after := DeliverAll(nodes, machines, names, desired, policy, removeForeign);
            && after.Keys == nodes.Keys
            && (forall i | 0 <= i < |names| ::
                  after[names[i]] == Delivered(nodes[names[i]], machines[i], desired, policy, removeForeign))
            && (forall n | n in nodes && n !in names :: after[n] == nodes[n])
  {
    hide Delivered;
    if machines != [] {
      var last := |machines| - 1;
      var m, n := machines[last], names[last];
      assert names == names[..last] + [n] && machines == machines[..last] + [m];
      DeliverAllIsExact(nodes, machines[..last], names[..last], desired, policy, removeForeign);
      DeliverOneMore(nodes, machines[..last], names[..last], m, n, desired, policy, removeForeign);
      hide DeliverAll;
      assert n !in names[..last];
    }
  }

  /** A second pass over the same Machines changes nothing. */
  lemma {:induction false} SecondPassChangesNothing(nodes: Nodes, machines: seq<Machine>, names: seq<string>, desired: Labels,
                                                    policy: Policy, removeForeign: bool)
    requires |machines| == |names| && Distinct(names) && Filtered(policy, desired) && forall n | n in names :: n in nodes
    ensures var once := DeliverAll(nodes, machines, names, desired, policy, removeForeign);
            DeliverAll(once, machines, names, desired, policy, removeForeign) == once
  {
    var once := DeliverAll(nodes, machines, names, desired, policy, removeForeign);
    DeliverAllIsExact(nodes, machines, names, desired, policy, removeForeign);
    DeliverAllIsExact(once, machines, names, desired, policy, removeForeign);
    forall i | 0 <= i < |names|
      ensures Delivered(once[names[i]], machines[i], desired, policy, removeForeign) == once[names[i]]
    {
      DeliveryIsIdempotent(nodes[names[i]], machines[i], desired, policy, removeForeign);
      hide Delivered, Filtered;
    }
    hide Delivered, Filtered, DeliverAll;
  }

  /** One delivery of a pass: how long the history was when it began, the Node it went to, and its success. */
  datatype Try = Try(cut: nat, at: string, ok: bool)

  function Successes(tries: seq<Try>): nat {
    if tries == [] then 0
    else Successes(tries[..|tries| - 1]) + if tries[|tries| - 1].ok then 1 else 0
  }

  /** The history since `from` is one delivery after the other, one for each Machine. */
  ghost predicate Traced(start: Nodes, events: seq<Event>, from: nat, machines: seq<Machine>, tries: seq<Try>,
                         desired: Labels, policy: Policy, observeOnly: bool, removeForeign: bool)
    decreases |tries|
  {
    && |tries| == |machines|
    && if tries == [] then |events| == from
       else
         var last := |tries| - 1;
         var t := tries[last];
         && from <= t.cut <= |events|
         && Attempted(Replay(start, events[..t.cut]), Replay(start, events), events[t.cut..], machines[last], t.at,
                      desired, policy, observeOnly, removeForeign, t.ok)
         && Traced(start, events[..t.cut], from, machines[..last], tries[..last], desired, policy, observeOnly, removeForeign)
  }

  lemma TraceOneMore(start: Nodes, before: seq<Event>, after: seq<Event>, from: nat, machines: seq<Machine>, tries: seq<Try>,
                     machine: Machine, t: Try, desired: Labels, policy: Policy, observeOnly: bool, removeForeign: bool)
    requires from <= |before| == t.cut && before <= after
    ensures Traced(start, before, from, machines, tries, desired, policy, observeOnly, removeForeign) &&
            Attempted(Replay(start, before), Replay(start, after), after[|before|..], machine, t.at, desired, policy,
                      observeOnly, removeForeign, t.ok) ==>
              Traced(start, after, from, machines + [machine], tries + [t], desired, policy, observeOnly, removeForeign)
    ensures Successes(tries + [t]) == Successes(tries) + if t.ok then 1 else 0
  {
    hide Attempted, Replay;
    assert after[..t.cut] == before;
    assert (machines + [machine])[..|machines|] == machines && (tries + [t])[..|tries|] == tries;
  }

  lemma NothingTried(start: Nodes, events: seq<Event>, desired: Labels, policy: Policy, observeOnly: bool, removeForeign: bool)
    ensures Traced(start, events, |events|, [], [], desired, policy, observeOnly, removeForeign) && Successes([]) == 0
  {
  }

  /** One pass of the delivery controller for a deployment: filters its user labels with the node policy
      now in force and delivers them Machine by Machine; a failure for one does not stop the others: each
      Machine that has a Node gets its delivery (`tries`), and those that succeed are counted. Nothing on the
      safety floor is written in any case. All Machines are delivered to if and only if no call fails, and
      if that goes undisturbed, the Nodes are as the specification says. */
  method Reconcile(target: Target, md: Deployment, denyPatterns: seq<string>, compile: Compiler, machines: seq<Machine>,
                   observeOnly: bool, removeForeign: bool)
    returns (delivered: nat, total: nat, ghost policy: Policy, ghost tries: seq<Try>, ghost names: seq<string>)
    requires target.Valid()
    modifies target
    ensures target.Later()
    ensures observeOnly ==> Watching(target.events[|old(target.events)|..])
    ensures Stands(policy, NODE_SAFETY, denyPatterns, compile)
    ensures OwnsNoFloor(old(target.nodes)) ==> OwnsNoFloor(target.nodes)
    ensures total == |WithNode(machines)| && delivered == Successes(tries) <= total
    ensures Traced(target.start, target.events, |old(target.events)|, WithNode(machines), tries, Allowed(policy, UserLabels(md)),
                   policy, observeOnly, removeForeign)
    ensures delivered == total <==> NoFailure(target.events[|old(target.events)|..])
    ensures delivered == total && !observeOnly && Alone(target.events[|old(target.events)|..]) ==>
              && |names| == total
              && target.nodes == DeliverAll(old(target.nodes), WithNode(machines), names, Allowed(policy, UserLabels(md)), policy, removeForeign)
  {
    hide Delivered, Backs, Stands, Careful, AllCareful, Step, OnNodeFloor, DeliverAll, OwnsNoFloor, Traced, Successes, Replay;
    hide NoFailure, Alone, Undisturbed, Watching, Conflicts;
    var p := NewPolicy(NODE_SAFETY, denyPatterns, compile);
    policy := p;
    var user := FindUserLabels(md);
    var desired, refused := Filter(p, user);
    assert Filtered(policy, desired);
    hide Filtered, Allowed, UserLabels;

    delivered, total, names, tries := 0, 0, [], [];
    NoDelivery(target.nodes, desired, policy, removeForeign);
    NothingTried(target.start, target.events, desired, policy, observeOnly, removeForeign);
    NoCalls(target.events);
    for i := 0 to |machines|
      invariant target.Later() && total == |WithNode(machines[..i])| && delivered == Successes(tries) <= total && |names| == total
      invariant observeOnly ==> Watching(target.events[|old(target.events)|..])
      invariant Traced(target.start, target.events, |old(target.events)|, WithNode(machines[..i]), tries, desired,
                       policy, observeOnly, removeForeign)
      invariant delivered == total <==> NoFailure(target.events[|old(target.events)|..])
      invariant delivered == total && !observeOnly && Alone(target.events[|old(target.events)|..]) ==>
                  target.nodes == DeliverAll(old(target.nodes), WithNode(machines[..i]), names, desired, policy, removeForeign)
    {
      assert machines[..i + 1][..i] == machines[..i];
      ghost var soFar := WithNode(machines[..i]);
      if machines[i].nodeRef.None? {
        assert WithNode(machines[..i + 1]) == soFar;
        continue;
      }
      total := total + 1;
      ghost var before := target.events;
      var ok;
      ghost var name;
      ok, name := Deliver(target, machines[i], desired, p, observeOnly, removeForeign);
      DeliverOneMore(old(target.nodes), soFar, names, machines[i], name, desired, p, removeForeign);
      TraceOneMore(target.start, before, target.events, |old(target.events)|, soFar, tries, machines[i],
                   Try(|before|, name, ok), desired, p, observeOnly, removeForeign);
      names := names + [name];
      tries := tries + [Try(|before|, name, ok)];
      SplitEvents(old(target.events), before, target.events);
      assert WithNode(machines[..i + 1]) == soFar + [machines[i]];
      if !ok {
        continue;
      }
      delivered := delivered + 1;
    }
    assert machines[..|machines|] == machines;
    if OwnsNoFloor(old(target.nodes)) {
      HistoryKeepsFloor(target.start, old(target.events), target.events);
    }
  }

  lemma NoCalls(events: seq<Event>)
    ensures NoFailure(events[|events|..]) && Watching(events[|events|..]) && AllCareful(events[|events|..])
  {
  }

  /** ---------- From the claim to the Node ---------- */

  /** End to end: a label of a claim that sanitizing accepts and the node policy allows is on the Node of
      every Machine after a delivery from the claim's deployment, with the claim's value, unless
      ClusterAPI owns the key there; and no other key is managed. */
  lemma ClaimLabelsReachTheNode(spec: Spec, labels: Labels, claimPolicy: Policy, names: Names, md: Deployment,
                                nodePolicy: Policy, machine: Machine, node: Node, removeForeign: bool, key: string)
    requires claimPolicy.safety == CLAIM_RESERVED && nodePolicy.safety == NODE_SAFETY
    requires SameInPlace(md, Desired(spec, Allowed(claimPolicy, labels), names)) && md.selector == SelectorLabels(spec)
    ensures var desired := Allowed(nodePolicy, UserLabels(md));
            var after := Delivered(node, machine, desired, nodePolicy, removeForeign);
            && (key in Managed(desired, machine, node) <==>
                  && key in labels && !Refused(claimPolicy, key) && !Refused(nodePolicy, key)
                  && key !in machine.capiKeys && (key == "" || key !in Split(node.fromMachine, ',')))
            && (key in Managed(desired, machine, node) ==>
                  key in after.labels && after.labels[key].value == labels[key] && Owned(after, key))
  {
    RoundTrip(spec, labels, claimPolicy, names, md);
    hide MatchesAny, Split, UserLabels, SameInPlace;
  }
}
