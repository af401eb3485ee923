/** The claim's ledger of templates: the current pair and the list of retired names that await
    deletion, together with the other status fields that move with them. */
module Ledger {
  import opened Objects

  const DEFAULT_TIMEOUT := 1800

  /** ---------- What every persisted status satisfies ---------- */

  predicate LedgerOk(st: Status) {
    && (st.current.None? ==> st.pending == [])
    && NoDuplicates(st.pending)
    && (forall r | r in st.pending :: r.kind == BMT || r.kind == KCT)
    && (st.current.Some? ==> forall r | r in st.pending :: r !in st.current.value.Refs())
  }

  predicate ShapeOk(st: Status) {
    && (st.pending != [] <==> st.startedAt.Some?)
    && (st.phase == Ready ==> st.pending == [])
    && (st.phase == Updating || st.phase == Degraded ==> st.pending != [])
    && (st.phase == Degraded ==> st.timedOut == Yes)
    && (st.phase != Deleting ==> (st.ready == Yes <==> st.phase == Ready))
  }

  predicate StatusOk(st: Status) {
    LedgerOk(st) && ShapeOk(st)
  }

  const NEW_STATUS := Status(NoPhase, None, [], None, Unset, Unset)

  /** ---------- Retiring the old names ---------- */

  function Append(refs: seq<Ref>, ref: Ref): seq<Ref> {
    if ref in refs then refs else refs + [ref]
  }

  /** The references of a list that are not one of the two given names, in order. */
  function Without(refs: seq<Ref>, names: Names): seq<Ref> {
    if refs == [] then []
    else (if refs[0] in names.Refs() then [] else [refs[0]]) + Without(refs[1..], names)
  }

  /** The pass renders other names than the status records. */
  predicate HashChanged(st: Status, names: Names) {
    st.current.Some? && st.current.value != names
  }

  /** The pending list with the names of the current pair that the pass moves away from. */
  function Extended(st: Status, names: Names): seq<Ref>
    requires st.current.Some?
  {
    var was := st.current.value;
    var p1 := if was.bmt != names.bmt then Append(st.pending, Ref(BMT, was.bmt)) else st.pending;
    if was.kct != names.kct then Append(p1, Ref(KCT, was.kct)) else p1
  }

  /** The pending list once the pass has decided to move to `names`. */
  function Retired(st: Status, names: Names): seq<Ref> {
    if HashChanged(st, names) then Without(Extended(st, names), names) else st.pending
  }

  lemma {:induction false} WithoutContents(refs: seq<Ref>, names: Names)
    ensures forall r :: r in Without(refs, names) <==> r in refs && r !in names.Refs()
    ensures |Without(refs, names)| <= |refs|
  {
    if refs != [] {
      WithoutContents(refs[1..], names);
    }
  }

  lemma {:induction false} WithoutKeepsDistinct(refs: seq<Ref>, names: Names)
    requires NoDuplicates(refs)
    ensures NoDuplicates(Without(refs, names))
  {
    if refs != [] {
      WithoutKeepsDistinct(refs[1..], names);
      WithoutContents(refs[1..], names);
    }
  }

  lemma ExtendedContents(st: Status, names: Names)
    requires LedgerOk(st) && st.current.Some?
    ensures forall r :: r in Extended(st, names) <==>
                          r in st.pending || (r in st.current.value.Refs() && r !in names.Refs())
    ensures NoDuplicates(Extended(st, names))
  {
  }

  /** Conservation: moving to new names loses and invents nothing. What is tracked afterwards is what
      was tracked before plus the new pair, also when an earlier pair comes back. */
  lemma RetireConserves(st: Status, names: Names)
    requires LedgerOk(st) && HashChanged(st, names)
    ensures var next := st.(current := Some(names), pending := Retired(st, names));
            Tracked(next) == Tracked(st) + names.Refs()
  {
    ExtendedContents(st, names);
    WithoutContents(Extended(st, names), names);
    hide Extended, Without, LedgerOk;
  }

  /** Retiring keeps the ledger well formed and always leaves something to clean up. */
  lemma RetireKeepsLedger(st: Status, names: Names)
    requires LedgerOk(st) && HashChanged(st, names)
    ensures LedgerOk(st.(current := Some(names), pending := Retired(st, names)))
    ensures Retired(st, names) != []
  {
    ExtendedContents(st, names);
    WithoutContents(Extended(st, names), names);
    WithoutKeepsDistinct(Extended(st, names), names);
    var was := st.current.value;
    hide Extended, Without, NoDuplicates;
    assert (if was.bmt != names.bmt then Ref(BMT, was.bmt) else Ref(KCT, was.kct)) in Retired(st, names);
  }

  lemma {:induction false} WithoutSplits(a: seq<Ref>, b: seq<Ref>, names: Names)
    ensures Without(a + b, names) == Without(a, names) + Without(b, names)
  {
    if a == [] {
      assert a + b == b;
    } else {
      assert (a + b)[1..] == a[1..] + b;
      WithoutSplits(a[1..], b, names);
    }
  }

  /** What was pending already stays in front, in order; what is newly retired comes after it, the machine
      template before the bootstrap template. */
  lemma RetireKeepsOrder(st: Status, names: Names)
    requires LedgerOk(st) && HashChanged(st, names)
    ensures var was := st.current.value;
            Retired(st, names) == Without(st.pending, names)
                                  + (if was.bmt != names.bmt then [Ref(BMT, was.bmt)] else [])
                                  + (if was.kct != names.kct then [Ref(KCT, was.kct)] else [])
  {
    var was := st.current.value;
    var bmt := if was.bmt != names.bmt then [Ref(BMT, was.bmt)] else [];
    var kct := if was.kct != names.kct then [Ref(KCT, was.kct)] else [];
    assert Extended(st, names) == st.pending + bmt + kct;
    WithoutSplits(st.pending + bmt, kct, names);
    WithoutSplits(st.pending, bmt, names);
    assert Without(bmt, names) == bmt && Without(kct, names) == kct;
  }

  /** Adds a reference at the end unless it is listed already. */
  method AppendResourceRef(refs: seq<Ref>, kind: Kind, name: string) returns (result: seq<Ref>)
    ensures result == Append(refs, Ref(kind, name))
    ensures NoDuplicates(refs) ==> NoDuplicates(result)
  {
    for i := 0 to |refs|
      invariant Ref(kind, name) !in refs[..i]
    {
      if refs[i].kind == kind && refs[i].name == name {
        return refs;
      }
    }
    result := refs + [Ref(kind, name)];
  }

  /** Rebuilds the list without the two names that are in use again. */
  method DropCurrent(refs: seq<Ref>, names: Names) returns (filtered: seq<Ref>)
    ensures filtered == Without(refs, names)
  {
    filtered := [];
    for i := 0 to |refs|
      invariant filtered + Without(refs[i..], names) == Without(refs, names)
    {
      var ref := refs[i];
      assert refs[i..][1..] == refs[i + 1..];
      if (ref.kind == BMT && ref.name == names.bmt) || (ref.kind == KCT && ref.name == names.kct) {
        continue;
      }
      filtered := filtered + [ref];
    }
  }

  /** ---------- The statuses a pass can write ---------- */

  function ProvisioningStatus(st: Status): Status {
    st.(phase := Provisioning)
  }

  function FailedStatus(st: Status): Status {
    st.(phase := Failed, ready := No)
  }

  function PausedStatus(st: Status): Status {
    st.(phase := Paused, ready := No)
  }

  function DeletingStatus(st: Status): Status {
    st.(phase := Deleting)
  }

  function StartedStatus(st: Status, names: Names, now: int): Status {
    st.(phase := Updating, current := Some(names), pending := Retired(st, names), startedAt := Some(now),
        ready := No, timedOut := No)
  }

  function ReadyStatus(st: Status, names: Names): Status {
    st.(phase := Ready, current := Some(names), startedAt := None, ready := Yes)
  }

  predicate TimedOut(st: Status, timeout: Option<int>, now: int) {
    st.startedAt.Some? &&
    now - st.startedAt.value > (if timeout.Some? then timeout.value else DEFAULT_TIMEOUT)
  }

  function WaitingStatus(st: Status, names: Names, timeout: Option<int>, now: int): Status {
    var s := st.(current := Some(names));
    if !TimedOut(st, timeout, now) then s.(phase := Updating)
    else if st.phase == Degraded then s
    else s.(phase := Degraded, timedOut := Yes, ready := No)
  }

  function SweptStatus(st: Status, names: Names, kept: seq<Ref>): Status {
    if kept != [] then st.(current := Some(names), pending := kept)
    else st.(current := Some(names), pending := [], startedAt := None, phase := Ready, timedOut := No, ready := Yes)
  }

  /** Every status a pass over a live claim commits is well formed when the one it read was. */
  lemma CommitsKeepStatusOk(st: Status, names: Names, timeout: Option<int>, now: int)
    requires StatusOk(st) && st.phase != Deleting
    ensures StatusOk(FailedStatus(st)) && StatusOk(PausedStatus(st))
    ensures st.phase == NoPhase ==> StatusOk(ProvisioningStatus(st))
    ensures HashChanged(st, names) ==> StatusOk(StartedStatus(st, names, now))
    ensures !HashChanged(st, names) && st.pending == [] ==> StatusOk(ReadyStatus(st, names))
    ensures !HashChanged(st, names) && st.pending != [] ==> StatusOk(WaitingStatus(st, names, timeout, now))
  {
    if HashChanged(st, names) {
      RetireKeepsLedger(st, names);
    }
  }
}
