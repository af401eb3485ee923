/** The orphan cleaner: what one clean-up deletes, exactly, and when that is safe. */
module Collector {
  import opened Objects
  import opened Ledger
  import MachineDeployments
  import opened Protocol
  import opened Safety
  import opened Tracking
  import opened Reconciler

  /** ---------- What a clean-up deletes ---------- */

  /** The labelled templates of both kinds with their creation times. */
  function LabelledTemplates(w: World): map<Ref, int> {
    Labelled(w, BMT) + Labelled(w, KCT)
  }

  /** The world after a clean-up that nobody disturbs and in which no call fails. */
  function Collected(w: World, grace: int): World {
    w.(templates := w.templates - Orphans(w, LabelledTemplates(w), grace))
  }

  /** Exactness: a template goes exactly if it is one of the two kinds, carries the claim label, is named
      in no claim's current pair or pending list, and is at least as old as the grace period. */
  lemma CollectedExactly(w: World, grace: int, r: Ref)
    requires r in w.templates
    ensures r !in Collected(w, grace).templates <==>
              && (r.kind == BMT || r.kind == KCT) && w.templates[r].labelled
              && (forall st | st in Statuses(w) :: r !in Referenced(st))
              && w.now - w.templates[r].born >= grace
    ensures r in Collected(w, grace).templates ==> Collected(w, grace).templates[r] == w.templates[r]
  {
  }

  /** A template the operator made: of one of the two kinds, with the claim label, and not from the future. */
  predicate WellMade(w: World, r: Ref) {
    r in w.templates ==>
      (r.kind == BMT || r.kind == KCT) && w.templates[r].labelled && w.templates[r].born <= w.now
  }

  lemma CallMakesWell(w: World, p: Pass, o: Outcome, r: Ref)
    requires WellMade(w, r)
    ensures WellMade(Serve(w, Next(p), o).world, r)
  {
    hide MachineDeployments.Desired, MachineDeployments.Merge;
  }

  lemma StepMakesWell(s: System, e: Event, r: Ref)
    requires WellMade(s.world, r) && !(e.Foreign? && e.ref == r)
    ensures WellMade(Step(s, e).world, r)
  {
    if e.Act? && s.pass.Some? {
      CallMakesWell(s.world, s.pass.value, e.outcome, r);
      hide WellMade, Serve, Next, Resume;
    }
    hide Labelled, Orphans, Own;
  }

  lemma {:induction false} RunMakesWell(s: System, events: seq<Event>, r: Ref)
    requires WellMade(s.world, r) && forall e | e in events :: !(e.Foreign? && e.ref == r)
    ensures WellMade(Run(s, events).world, r)
  {
    hide WellMade, Step;
    if events != [] {
      var last := |events| - 1;
      assert events[last] in events && forall e | e in events[..last] :: e in events;
      RunMakesWell(s, events[..last], r);
      StepMakesWell(Run(s, events[..last]), events[last], r);
    }
  }

  /** What is on record is what the cleaner finds named there. */
  lemma OffRecordIsUnreferenced(w: World, r: Ref)
    requires w.claim.Some? ==> ClaimOk(w.claim.value)
    requires OffRecord(w, r) && forall st | st in w.others :: r !in Referenced(st)
    ensures forall st | st in Statuses(w) :: r !in Referenced(st)
  {
    if w.claim.Some? {
      OnRecordIsReferenced(w.claim.value.status);
      hide LedgerOk, ShapeOk, Tracked, Referenced;
    }
  }

  /** A run in which nobody but the operator makes or rewrites the template leads from `s` to `at`. */
  ghost predicate LeadsWithout(s: System, at: System, r: Ref) {
    exists events: seq<Event> :: Run(s, events) == at && forall e | e in events :: !(e.Foreign? && e.ref == r)
  }

  /** Leak freedom, over all runs: whatever happened, crashes and failed deletes of a teardown included, a
      template that a pass created and that is not on record (any more), be the claim live or gone, is one
      the cleaner sees, and the first undisturbed clean-up past the grace period removes it. */
  lemma LeftoversAreCollected(s: System, at: System, wait: nat, grace: int, r: Ref)
    requires AtRest(s) && r !in s.world.templates && LeadsWithout(s, at, r)
    requires r in at.world.templates && OffRecord(at.world, r) && forall st | st in at.world.others :: r !in Referenced(st)
    ensures WellMade(at.world, r)
    ensures wait >= grace || at.world.now + wait - at.world.templates[r].born >= grace ==>
              r !in Collected(at.world.(now := at.world.now + wait), grace).templates
  {
    var events: seq<Event> :| Run(s, events) == at && forall e | e in events :: !(e.Foreign? && e.ref == r);
    hide Run, ClaimOk, OffRecord, AtRest, Collected, Statuses, WellMade;
    RunMakesWellFromNothing(s, events, r);
    RunKeepsClaimOk(s, events);
    OffRecordIsUnreferenced(at.world, r);
    if wait >= grace || at.world.now + wait - at.world.templates[r].born >= grace {
      UnreferencedGoes(at.world, wait, grace, r);
    }
  }

  lemma RunMakesWellFromNothing(s: System, events: seq<Event>, r: Ref)
    requires r !in s.world.templates && forall e | e in events :: !(e.Foreign? && e.ref == r)
    ensures WellMade(Run(s, events).world, r)
  {
    RunMakesWell(s, events, r);
    hide Run;
  }

  lemma UnreferencedGoes(w: World, wait: nat, grace: int, r: Ref)
    requires r in w.templates && WellMade(w, r) && forall st | st in Statuses(w) :: r !in Referenced(st)
    requires wait >= grace || w.now + wait - w.templates[r].born >= grace
    ensures r !in Collected(w.(now := w.now + wait), grace).templates
  {
    assert Statuses(w.(now := w.now + wait)) == Statuses(w);
    hide Collected, Statuses, Referenced;
    CollectedExactly(w.(now := w.now + wait), grace, r);
  }

  lemma RunKeepsClaimOk(s: System, events: seq<Event>)
    requires AtRest(s)
    ensures Run(s, events).world.claim.Some? ==> ClaimOk(Run(s, events).world.claim.value)
  {
    AtRestInv(s);
    RunKeepsInv(s, events);
    hide Run, StepOk, ClaimOk, UpToDate;
  }

  /** The exact condition for the safety of an undisturbed clean-up: it leaves every template in use alone
      if and only if each one that is labelled and past the grace period is named by some claim's status. */
  lemma CollectedSparesUsedIff(w: World, grace: int)
    ensures (forall r | r in Used(w) && r in w.templates :: r in Collected(w, grace).templates) <==>
            (forall r | r in Used(w) && r in w.templates && w.templates[r].labelled &&
                        w.now - w.templates[r].born >= grace ::
               exists st :: st in Statuses(w) && r in Referenced(st))
  {
    forall r | r in Used(w) && r in w.templates
      ensures r in Collected(w, grace).templates <==>
                !w.templates[r].labelled || w.now - w.templates[r].born < grace ||
                exists st :: st in Statuses(w) && r in Referenced(st)
    {
      CollectedExactly(w, grace, r);
    }
    hide Collected, Used, Statuses, Referenced;
  }

  /** ---------- The clean-up as it is written ---------- */

  function Elements(items: seq<Ref>): set<Ref> {
    set r | r in items
  }

  /** No list of the cleaner failed. */
  predicate AllListed(events: seq<Event>) {
    forall e | e in events :: e != ListFailed
  }

  /** Nobody else acted, no list failed and no delete failed. */
  predicate Undisturbed(events: seq<Event>) {
    AllListed(events) && forall e | e in events :: ByCleaner(e) && (e.Collect? ==> e.result == Done)
  }

  /** A delete was issued for the reference, whatever came of it. */
  predicate Tried(events: seq<Event>, r: Ref) {
    exists e | e in events :: e.Collect? && e.doomed == r
  }

  /** Everybody but the cleaner acts as often as they like, the operator included. */
  method Meanwhile(cluster: Cluster)
    requires cluster.Valid()
    modifies cluster
    ensures cluster.Later() && cluster.sys.cleaner == old(cluster.sys.cleaner)
    ensures Undisturbed(cluster.events[|old(cluster.events)|..]) ==>
              cluster.sys == old(cluster.sys) && cluster.events == old(cluster.events)
    ensures AllListed(cluster.events[|old(cluster.events)|..])
  {
    hide Run, Serve, Resume, StepWorld;
    var n: nat :| true;
    for i := 0 to n
      invariant cluster.Later() && cluster.sys.cleaner == old(cluster.sys.cleaner)
      invariant |cluster.events| > |old(cluster.events)| ==> !ByCleaner(cluster.events[|old(cluster.events)|])
      invariant cluster.events == old(cluster.events) ==> cluster.sys == old(cluster.sys)
      invariant AllListed(cluster.events[|old(cluster.events)|..])
    {
      var e: Event := *;
      if !ByCleaner(e) {
        ghost var before := cluster.events;
        cluster.Happen(e);
        OneEvent(before, e);
        SplitHistory(old(cluster.events), before, cluster.events);
      }
    }
    if |cluster.events| > |old(cluster.events)| {
      assert cluster.events[|old(cluster.events)|] in cluster.events[|old(cluster.events)|..];
    }
  }

  /** The names of both kinds that any of the statuses refers to. */
  method FindReferencedTemplates(statuses: seq<Status>) returns (bmtNames: set<string>, kctNames: set<string>)
    ensures forall name :: name in bmtNames <==> Ref(BMT, name) in ReferencedByAny(statuses)
    ensures forall name :: name in kctNames <==> Ref(KCT, name) in ReferencedByAny(statuses)
  {
    bmtNames, kctNames := {}, {};
    for i := 0 to |statuses|
      invariant forall name :: name in bmtNames <==> Ref(BMT, name) in ReferencedByAny(statuses[..i])
      invariant forall name :: name in kctNames <==> Ref(KCT, name) in ReferencedByAny(statuses[..i])
    {
      var st := statuses[i];
      var bmts, kcts := ReferencedNames(st);
      bmtNames, kctNames := bmtNames + bmts, kctNames + kcts;
      assert statuses[..i + 1] == statuses[..i] + [st];
    }
    assert statuses[..|statuses|] == statuses;
  }

  /** The names one status refers to. */
  method ReferencedNames(st: Status) returns (bmtNames: set<string>, kctNames: set<string>)
    ensures forall name :: name in bmtNames <==> Ref(BMT, name) in Referenced(st)
    ensures forall name :: name in kctNames <==> Ref(KCT, name) in Referenced(st)
  {
    bmtNames, kctNames := {}, {};
    if st.current.Some? {
      if st.current.value.bmt != "" {
        bmtNames := bmtNames + {st.current.value.bmt};
      }
      if st.current.value.kct != "" {
        kctNames := kctNames + {st.current.value.kct};
      }
    }
    ghost var bmts, kcts := bmtNames, kctNames;
    for i := 0 to |st.pending|
      invariant forall name :: name in bmtNames <==> name in bmts || Ref(BMT, name) in st.pending[..i]
      invariant forall name :: name in kctNames <==> name in kcts || Ref(KCT, name) in st.pending[..i]
    {
      var ref := st.pending[i];
      match ref.kind
      case BMT => bmtNames := bmtNames + {ref.name};
      case KCT => kctNames := kctNames + {ref.name};
      case OtherKind(_) =>
    }
  }

  predicate IsOrphan(name: string, born: int, referenced: set<string>, grace: int, now: int) {
    if name in referenced then false else now - born >= grace
  }

  /** The listed templates, in whatever order. */
  method Enumerate(seen: map<Ref, int>) returns (items: seq<Ref>)
    ensures NoDuplicates(items)
    ensures forall r :: r in items <==> r in seen
  {
    items := [];
    var rest := seen.Keys;
    while rest != {}
      invariant NoDuplicates(items) && rest <= seen.Keys
      invariant forall r :: r in items <==> r in seen.Keys - rest
      decreases |rest|
    {
      var r :| r in rest;
      assert r !in items;
      items := items + [r];
      rest := rest - {r};
    }
  }

  lemma SplitHistory(a: seq<Event>, b: seq<Event>, c: seq<Event>)
    requires a <= b <= c
    ensures Undisturbed(c[|a|..]) <==> Undisturbed(b[|a|..]) && Undisturbed(c[|b|..])
    ensures AllListed(c[|a|..]) <==> AllListed(b[|a|..]) && AllListed(c[|b|..])
  {
    assert c[|a|..] == b[|a|..] + c[|b|..];
    assert forall e :: e in c[|a|..] <==> e in b[|a|..] || e in c[|b|..];
  }

  lemma TriedStays(a: seq<Event>, b: seq<Event>, c: seq<Event>, r: Ref)
    requires a <= b <= c && (Tried(b[|a|..], r) || Tried(c[|b|..], r))
    ensures Tried(c[|a|..], r)
  {
    assert c[|a|..] == b[|a|..] + c[|b|..];
  }

  /** One delete of the cleaner; a failure is passed over. */
  method CollectOne(cluster: Cluster, r: Ref)
    requires cluster.Valid() && cluster.sys.cleaner.Cleaning? && r in cluster.sys.cleaner.doomed
    modifies cluster
    ensures cluster.Later() && cluster.sys.cleaner == Cleaning(old(cluster.sys.cleaner.doomed) - {r})
    ensures Tried(cluster.events[|old(cluster.events)|..], r) && AllListed(cluster.events[|old(cluster.events)|..])
    ensures Undisturbed(cluster.events[|old(cluster.events)|..]) ==>
              cluster.sys.world == old(cluster.sys.world).(templates := old(cluster.sys.world).templates - {r})
  {
    ghost var before := cluster.events;
    Meanwhile(cluster);
    ghost var between := cluster.events;
    var o: Outcome := *;
    cluster.Happen(Collect(r, o));
    SplitHistory(before, between, cluster.events);
    assert cluster.events[|between|..] == [Collect(r, o)];
    assert Collect(r, o) in cluster.events[|before|..] by {
      assert cluster.events[|before|..][|between| - |before|] == Collect(r, o);
    }
    assert Undisturbed(cluster.events[|between|..]) ==> o == Done by {
      assert Collect(r, o) in cluster.events[|between|..];
    }
    hide Run, Undisturbed, StepWorld, Tried;
  }

  /** Deletes the orphans of one list. */
  method CleanList(cluster: Cluster, items: seq<Ref>, seen: map<Ref, int>, referenced: set<string>, grace: int, now: int)
    requires cluster.Valid() && cluster.sys.cleaner.Cleaning? && NoDuplicates(items)
    requires forall r | r in items :: r in seen
    requires forall r | r in items ::
               r in cluster.sys.cleaner.doomed <==> IsOrphan(r.name, seen[r], referenced, grace, now)
    modifies cluster
    ensures cluster.Later()
    ensures var doomed := old(cluster.sys.cleaner.doomed);
            && cluster.sys.cleaner == Cleaning(doomed - Elements(items))
            && (Undisturbed(cluster.events[|old(cluster.events)|..]) ==>
                  cluster.sys.world == old(cluster.sys.world).(templates := old(cluster.sys.world).templates - (doomed * Elements(items))))
    ensures forall r | r in items && r in old(cluster.sys.cleaner.doomed) :: Tried(cluster.events[|old(cluster.events)|..], r)
    ensures AllListed(cluster.events[|old(cluster.events)|..])
  {
    ghost var doomed, w := cluster.sys.cleaner.doomed, cluster.sys.world;
    hide Run, StepWorld, Tried;
    for i := 0 to |items|
      invariant cluster.Later()
      invariant cluster.sys.cleaner == Cleaning(doomed - Elements(items[..i]))
      invariant Undisturbed(cluster.events[|old(cluster.events)|..]) ==>
                  cluster.sys.world == w.(templates := w.templates - (doomed * Elements(items[..i])))
      invariant forall r | r in items[..i] && r in doomed :: Tried(cluster.events[|old(cluster.events)|..], r)
      invariant AllListed(cluster.events[|old(cluster.events)|..])
    {
      ghost var before := cluster.events;
      var r := items[i];
      assert r in items && r !in items[..i];
      assert Elements(items[..i + 1]) == Elements(items[..i]) + {r};
      if !IsOrphan(r.name, seen[r], referenced, grace, now) {
        assert doomed - Elements(items[..i + 1]) == doomed - Elements(items[..i]);
        assert doomed * Elements(items[..i + 1]) == doomed * Elements(items[..i]);
        continue;
      }
      CollectOne(cluster, r);
      SplitHistory(old(cluster.events), before, cluster.events);
      forall t | t in items[..i + 1] && t in doomed
        ensures Tried(cluster.events[|old(cluster.events)|..], t)
      {
        TriedStays(old(cluster.events), before, cluster.events, t);
      }
      assert doomed - Elements(items[..i + 1]) == doomed - Elements(items[..i]) - {r};
      assert doomed * Elements(items[..i + 1]) == doomed * Elements(items[..i]) + {r};
    }
    assert items[..|items|] == items;
  }

  /** One list call of the cleaner. Whether it fails is for the server to say, and goes on record. */
  method Ask(cluster: Cluster, list: Event) returns (ok: bool)
    requires cluster.Valid() && (list.ListBMTs? || list.ListKCTs? || list.Mark?)
    modifies cluster
    ensures cluster.Later()
    ensures cluster.events == old(cluster.events) + [if ok then list else ListFailed]
    ensures cluster.sys == Step(old(cluster.sys), if ok then list else ListFailed)
  {
    ok := *;
    cluster.Happen(if ok then list else ListFailed);
  }

  lemma OneEvent(a: seq<Event>, e: Event)
    ensures (a + [e])[|a|..] == [e]
    ensures AllListed((a + [e])[|a|..]) <==> e != ListFailed
  {
    assert e in [e];
  }

  /** Lists the labelled templates of both kinds; `ok` unless a list failed. */
  method ListTemplates(cluster: Cluster) returns (ok: bool, seen: map<Ref, int>, bmts: seq<Ref>, kcts: seq<Ref>)
    requires cluster.Valid() && cluster.sys.cleaner.Resting?
    modifies cluster
    ensures cluster.Later()
    ensures ok <==> AllListed(cluster.events[|old(cluster.events)|..])
    ensures !ok ==> cluster.sys.cleaner.Resting?
    ensures ok ==>
              && cluster.sys.cleaner == HasAll(seen) && NoDuplicates(bmts) && NoDuplicates(kcts)
              && seen.Keys == Elements(bmts) + Elements(kcts)
              && (forall r | r in bmts :: r.kind == BMT) && (forall r | r in kcts :: r.kind == KCT)
    ensures Undisturbed(cluster.events[|old(cluster.events)|..]) ==>
              cluster.sys.world == old(cluster.sys.world) && seen == LabelledTemplates(cluster.sys.world)
  {
    hide Run, StepWorld, Orphans, Undisturbed, AllListed;
    seen, kcts := map[], [];
    var seenBMTs;
    ok, seenBMTs, bmts := ListOne(cluster, ListBMTs, BMT);
    AllListedIfUndisturbed(cluster.events[|old(cluster.events)|..]);
    if !ok {
      return;
    }
    ghost var half := cluster.events;
    var seenKCTs;
    ok, seenKCTs, kcts := ListOne(cluster, ListKCTs, KCT);
    SplitHistory(old(cluster.events), half, cluster.events);
    AllListedIfUndisturbed(cluster.events[|old(cluster.events)|..]);
    seen := seenBMTs + seenKCTs;
    hide Labelled;
  }

  /** Lists the labelled templates of one kind. */
  method ListOne(cluster: Cluster, list: Event, kind: Kind) returns (ok: bool, seen: map<Ref, int>, items: seq<Ref>)
    requires cluster.Valid()
    requires (list == ListBMTs && kind == BMT && cluster.sys.cleaner.Resting?) ||
             (list == ListKCTs && kind == KCT && cluster.sys.cleaner.HasBMTs?)
    modifies cluster
    ensures cluster.Later()
    ensures ok <==> AllListed(cluster.events[|old(cluster.events)|..])
    ensures !ok ==> cluster.sys.cleaner.Resting?
    ensures ok ==> cluster.sys.cleaner == if kind == BMT then HasBMTs(seen) else HasAll(old(cluster.sys.cleaner.seen) + seen)
    ensures NoDuplicates(items) && seen.Keys == Elements(items) && forall r | r in items :: r.kind == kind
    ensures Undisturbed(cluster.events[|old(cluster.events)|..]) ==>
              cluster.sys.world == old(cluster.sys.world) && seen == Labelled(cluster.sys.world, kind)
  {
    hide Run, StepWorld, Orphans, Undisturbed, AllListed;
    Meanwhile(cluster);
    ghost var before := cluster.events;
    seen := Labelled(cluster.sys.world, kind);
    items := Enumerate(seen);
    ok := Ask(cluster, list);
    OneEvent(before, if ok then list else ListFailed);
    SplitHistory(old(cluster.events), before, cluster.events);
  }

  /** Lists the claims and decides which of the listed templates are orphans. */
  method MarkOrphans(cluster: Cluster, seen: map<Ref, int>, grace: int)
    returns (ok: bool, bmtNames: set<string>, kctNames: set<string>, now: int)
    requires cluster.Valid() && cluster.sys.cleaner == HasAll(seen)
    modifies cluster
    ensures cluster.Later()
    ensures ok <==> AllListed(cluster.events[|old(cluster.events)|..])
    ensures !ok ==> cluster.sys.cleaner.Resting?
    ensures ok ==>
              && cluster.sys.cleaner.Cleaning?
              && |cluster.events| > |old(cluster.events)| && cluster.events[|cluster.events| - 1] == Mark(grace)
              && (forall r :: r in cluster.sys.cleaner.doomed <==>
                    r in seen && Orphan(r, seen[r], ReferencedByAny(Statuses(cluster.sys.world)), grace, now))
    ensures forall name :: name in bmtNames <==> Ref(BMT, name) in ReferencedByAny(Statuses(cluster.sys.world))
    ensures forall name :: name in kctNames <==> Ref(KCT, name) in ReferencedByAny(Statuses(cluster.sys.world))
    ensures Undisturbed(cluster.events[|old(cluster.events)|..]) ==>
              && cluster.sys.world == old(cluster.sys.world)
              && cluster.sys.cleaner == Cleaning(Orphans(cluster.sys.world, seen, grace))
  {
    hide Run, StepWorld, Labelled, Statuses, ReferencedByAny, Undisturbed, AllListed;
    Meanwhile(cluster);
    ghost var before := cluster.events;
    bmtNames, kctNames := FindReferencedTemplates(Statuses(cluster.sys.world));
    now := cluster.Now();
    ok := Ask(cluster, Mark(grace));
    OneEvent(before, if ok then Mark(grace) else ListFailed);
    SplitHistory(old(cluster.events), before, cluster.events);
    AllListedIfUndisturbed(cluster.events[|old(cluster.events)|..]);
  }

  /** Deletes the orphans of both lists, machine templates first. */
  method CleanBoth(cluster: Cluster, bmts: seq<Ref>, kcts: seq<Ref>, seen: map<Ref, int>,
                   bmtNames: set<string>, kctNames: set<string>, grace: int, now: int)
    requires cluster.Valid() && cluster.sys.cleaner.Cleaning? && NoDuplicates(bmts) && NoDuplicates(kcts)
    requires Elements(bmts) !! Elements(kcts) && cluster.sys.cleaner.doomed <= Elements(bmts) + Elements(kcts)
    requires forall r | r in bmts ::
               r in seen && (r in cluster.sys.cleaner.doomed <==> IsOrphan(r.name, seen[r], bmtNames, grace, now))
    requires forall r | r in kcts ::
               r in seen && (r in cluster.sys.cleaner.doomed <==> IsOrphan(r.name, seen[r], kctNames, grace, now))
    modifies cluster
    ensures cluster.Later()
    ensures Undisturbed(cluster.events[|old(cluster.events)|..]) ==>
              cluster.sys.world ==
              old(cluster.sys.world).(templates := old(cluster.sys.world).templates - old(cluster.sys.cleaner.doomed))
    ensures forall r | r in old(cluster.sys.cleaner.doomed) :: Tried(cluster.events[|old(cluster.events)|..], r)
    ensures AllListed(cluster.events[|old(cluster.events)|..])
  {
    hide Run, StepWorld, Undisturbed, Tried, AllListed;
    ghost var start, doomed, w := cluster.events, cluster.sys.cleaner.doomed, cluster.sys.world;
    CleanList(cluster, bmts, seen, bmtNames, grace, now);
    ghost var half := cluster.events;
    assert forall r | r in kcts :: r in Elements(kcts);
    CleanList(cluster, kcts, seen, kctNames, grace, now);
    SplitHistory(start, half, cluster.events);
    forall r | r in doomed
      ensures Tried(cluster.events[|start|..], r)
    {
      TriedStays(start, half, cluster.events, r);
    }
    assert w.templates - (doomed * Elements(bmts)) - ((doomed - Elements(bmts)) * Elements(kcts)) == w.templates - doomed;
  }

  /** One clean-up: lists the labelled templates of both kinds, then the claims, and deletes every listed
      template that no claim names and that is old enough. It runs through exactly unless a list fails; a
      failed delete does not end it: a delete is issued for everything it decided on when it had the claims
      (`marked` events into the history). Undisturbed, it removes exactly the orphans, in whatever order
      the lists come. */
  method CleanupOnce(cluster: Cluster, grace: int) returns (ran: bool, ghost marked: nat)
    requires cluster.Valid() && cluster.sys.cleaner.Resting?
    modifies cluster
    ensures cluster.Later() && cluster.sys.cleaner.Resting?
    ensures ran <==> AllListed(cluster.events[|old(cluster.events)|..])
    ensures Undisturbed(cluster.events[|old(cluster.events)|..]) ==>
              cluster.sys.world == Collected(old(cluster.sys.world), grace)
    ensures ran ==>
              && |old(cluster.events)| < marked <= |cluster.events| && cluster.events[marked - 1] == Mark(grace)
              && var at := Run(cluster.start, cluster.events[..marked]);
                 at.cleaner.Cleaning? && forall r | r in at.cleaner.doomed :: Tried(cluster.events[marked..], r)
  {
    hide Run, StepWorld, Orphans, LabelledTemplates, Undisturbed, ReferencedByAny, Statuses, Referenced, Tried, AllListed;
    ghost var start := cluster.events;
    marked := 0;
    var seen, bmts, kcts;
    ran, seen, bmts, kcts := ListTemplates(cluster);
    AllListedIfUndisturbed(cluster.events[|start|..]);
    if !ran {
      return;
    }
    ghost var listed := cluster.events;
    var bmtNames, kctNames, now;
    ran, bmtNames, kctNames, now := MarkOrphans(cluster, seen, grace);
    SplitHistory(start, listed, cluster.events);
    AllListedIfUndisturbed(cluster.events[|start|..]);
    if !ran {
      return;
    }
    ghost var decided, doomed := cluster.events, cluster.sys.cleaner.doomed;
    marked := |decided|;
    CleanBoth(cluster, bmts, kcts, seen, bmtNames, kctNames, grace, now);
    ghost var cleaned := cluster.events;
    cluster.Happen(Rest);
    OneEvent(cleaned, Rest);
    SplitHistory(start, decided, cluster.events);
    SplitHistory(decided, cleaned, cluster.events);
    assert cluster.events[..marked] == decided;
    forall r | r in doomed
      ensures Tried(cluster.events[marked..], r)
    {
      TriedStays(decided, cleaned, cluster.events, r);
    }
  }

  lemma AllListedIfUndisturbed(events: seq<Event>)
    ensures Undisturbed(events) ==> AllListed(events)
  {
  }
}
