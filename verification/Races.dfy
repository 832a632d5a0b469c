/** What the conditions of the safety theorems are for: from any state of the protocol in which
    the calls can be made, the path on which the property fails once a condition is dropped. */
module Races {
  import opened Text
  import opened VolumeIds
  import opened Probe
  import opened Lvm
  import opened Provisioner
  import opened Kube
  import opened Ownership
  import opened Volumes
  import opened Servers
  import opened Gc
  import opened Protocol
  import opened Moves
  import SizeSafety

  lemma HostIsValid(c: Cluster, n: string)
    requires StoreInv(c) && n in c.hosts
    ensures Valid(c.hosts[n])
  {
    hide Valid, GoodPv, GoodOffer;
  }

  /** No node has the volume. */
  ghost predicate Lost(c: Cluster, id: VolumeId) {
    forall n :: n in c.hosts ==> id !in c.hosts[n].lvs
  }

  /** No node but `n` has it. */
  ghost predicate OnlyCopy(c: Cluster, n: string, id: VolumeId) {
    forall k :: k in c.hosts && k != n ==> id !in c.hosts[k].lvs
  }

  // ---------------------------------------------------------------- garbage collection

  /** A stage on another node than the owner on record has to move the record. */
  lemma OtherMismatch(c: Cluster, name: string, n: string, m: string)
    requires StoreInv(c) && name in c.pvs && RecordedOwner(c.pvs[name]) == Some(n)
    requires n in c.hosts && m in c.hosts && n != m
    ensures StageUpdate(c.pvs[name], m).Some? && StageRequest(c.pvs[name]).Some?
  {
    hide Valid, Parse, EqualFold, StageUpdate, Mismatch, StageRequest;
    assert GoodPv(c.hosts.Keys, name, c.pvs[name]);
    MismatchMeaning(c.pvs[name], m);
  }

  /** Another node claims: whenever `n` is the owner on record and the node of the latest
      successful stage, a stage elsewhere that moves the record and then fails is followed by a
      reconcile on `n` that removes the volume, the only copy if no other node had one. */
  lemma FailedHandover(c: Cluster, n: string, call: Call, name: string, after: Host)
    returns (cs: seq<Cluster>, ss: seq<Step>)
    requires StoreInv(c) && n in c.hosts && call.node in c.hosts && n != call.node && name in c.pvs && call !in c.stages
    requires Carries(c.pvs[name], call.handle) && RecordedOwner(c.pvs[name]) == Some(n)
    requires c.pvs[name].phase == Phase.Bound && !c.pvs[name].deleting
    requires call.handle in c.staged && c.staged[call.handle] == n
    requires Parse(call.handle).Some? && LvRemoved(c.hosts[n], Parse(call.handle).value, after) && Valid(after)
    ensures Path(cs, ss) && cs[0] == c && |ss| == 5
    ensures forall i :: 0 <= i < |ss| ==> !(ss[i].StageEnsure? && ss[i].r.Ok?)
    ensures var v, last := call.handle, cs[|ss|];
            && v in last.staged && last.staged[v] == n && n in last.hosts && Parse(v).value !in last.hosts[n].lvs
            && (OnlyCopy(c, n, Parse(v).value) ==> Lost(last, Parse(v).value))
  {
    hide Next, Valid, Parse, EqualFold, LvRemoved, AtMostDropped, StageUpdate, Mismatch, Ensured, UnderGc, StageRequest;
    hide StoreInv, Reconciles, EventFilter;
    var pv, v, m := c.pvs[name], call.handle, call.node;
    OtherMismatch(c, name, n, m);
    HostIsValid(c, m);
    NoMissedHandover(pv, n, m);
    var c1, c2 := TakesOver(c, call, name);
    var r := FailingEnsure(c.hosts[m], c.filter, StageRequest(pv).value, v);
    var c3 := Makes(c2, call, r, false, c.hosts[m]);
    assert c3.hosts == c.hosts;
    RemovedIsGone(c.hosts[n], Parse(v).value, after);
    var c4, c5 := Collects(c3, n, name, after);
    cs := [c, c1, c2, c3, c4, c5];
    ss := [StageGet(call), StagePatch(call, true), StageEnsure(call, r, false, c.hosts[m]),
           ReconcileCheck(n, name), GcDelete(Task(n, Reconciler, v), after)];
  }

  /** The claim falls between a check and its delete: whenever a node is scanning, another node
      owns the volume on record and a healthy copy is on the first, a stage there succeeds and
      then loses the volume. */
  lemma StageRacesScan(c: Cluster, call: Call, name: string, after: Host) returns (cs: seq<Cluster>, ss: seq<Step>)
    requires StoreInv(c) && call.node in c.hosts && name in c.pvs && call !in c.stages
    requires call.node in c.scans && !c.scans[call.node].deleting
    requires Carries(c.pvs[name], call.handle) && StageUpdate(c.pvs[name], call.node).Some?
    requires StageRequest(c.pvs[name]).Some?
    requires OnHand(c.hosts[call.node], StageRequest(c.pvs[name]).value, call.handle)
    requires Parse(call.handle).Some? && LvRemoved(c.hosts[call.node], Parse(call.handle).value, after) && Valid(after)
    ensures Path(cs, ss) && cs[0] == c && |ss| == 6
    ensures ss[3].StageEnsure? && ss[3].call == call && ss[3].r.Ok? && ss[3].mounted
    ensures var n, v, last := call.node, call.handle, cs[|ss|];
            && Lookup(last.pvs, v).Some? && RecordedOwner(Lookup(last.pvs, v).value) == Some(n)
            && v in last.staged && last.staged[v] == n && n in last.hosts && Parse(v).value !in last.hosts[n].lvs
  {
    hide Next, Valid, Parse, LvRemoved, AtMostDropped, StageUpdate, OnHand, Ensured, UnderGc, Orphaned, StageRequest;
    hide HostsInv, OffersInv, PvsInv, Lookup;
    var pv, n, v := c.pvs[name], call.node, call.handle;
    HostIsValid(c, n);
    OwnedElsewhere(c, n, name, v);
    var t := Task(n, Scanner(c.scans[n].id), v);
    var c1 := Flags(c, n, v);
    SameStore(c, c1);
    var c2, c3 := TakesOver(c1, call, name);
    HandoverMeaning(pv, n, n);
    StillFound(c, name, n, v);
    var r := FindingEnsure(c.hosts[n], c.filter, StageRequest(pv).value, v);
    var c4 := Makes(c3, call, r, true, c.hosts[n]);
    assert c4.hosts == c.hosts;
    RemovedIsGone(c.hosts[n], Parse(v).value, after);
    var c5, c6 := Deletes(c4, t, after);
    cs := [c, c1, c2, c3, c4, c5, c6];
    ss := [ScanCheck(n, v), StageGet(call), StagePatch(call, true), StageEnsure(call, r, true, c.hosts[n]),
           ScanSwitch(n), GcDelete(t, after)];
  }

  lemma SameStore(c: Cluster, c': Cluster)
    requires StoreInv(c) && c'.hosts == c.hosts && c'.pvs == c.pvs && c'.offers == c.offers && c'.used == c.used
    ensures StoreInv(c')
  {
    hide Valid, GoodPv, GoodOffer, GoodNames;
  }

  /** Moving the record does not move the handle. */
  lemma StillFound(c: Cluster, name: string, n: string, v: string)
    requires PvsInv(c) && name in c.pvs && Carries(c.pvs[name], v)
    ensures Lookup(c.pvs, v) == Some(c.pvs[name]) && Parse(v).Some? && Parse(v).value.lv == name
    ensures Lookup(c.pvs[name := SetOwner(c.pvs[name], n)], v) == Some(SetOwner(c.pvs[name], n))
  {
    hide Parse, StageRequest;
    assert GoodPv(c.hosts.Keys, name, c.pvs[name]);
    LookupStored(c, name);
    LookupUpdated(c.pvs, name, SetOwner(c.pvs[name], n), v);
  }

  /** The PV goes: whoever claimed the volume, a scan then removes it. */
  lemma GoneIsCollected(c: Cluster, n: string, name: string, after: Host) returns (cs: seq<Cluster>, ss: seq<Step>)
    requires StoreInv(c) && n in c.hosts && name in c.pvs && n !in c.scans && c.pvs[name].csi.Some?
    requires var v := c.pvs[name].csi.value.handle;
             Parse(v).Some? && LvRemoved(c.hosts[n], Parse(v).value, after) && Valid(after)
    ensures Path(cs, ss) && cs[0] == c && |ss| == 5
    ensures forall i :: 0 <= i < |ss| ==> !ss[i].StageGet? && !ss[i].StagePatch?
    ensures n in cs[|ss|].hosts && Parse(c.pvs[name].csi.value.handle).value !in cs[|ss|].hosts[n].lvs
  {
    hide Next, Valid, Parse, LvRemoved, AtMostDropped, Orphaned, StoreInv;
    var v := c.pvs[name].csi.value.handle;
    var c1 := Goes(c, name);
    NobodyCarries(c, name);
    var c2 := BeginsScan(c1, n);
    var c3 := Flags(c2, n, v);
    RemovedIsGone(c.hosts[n], Parse(v).value, after);
    var t := Task(n, Scanner(c.nextScan), v);
    var c4, c5 := Deletes(c3, t, after);
    cs := [c, c1, c2, c3, c4, c5];
    ss := [PvGone(name), ScanBegin(n), ScanCheck(n, v), ScanSwitch(n), GcDelete(t, after)];
  }

  lemma NobodyCarries(c: Cluster, name: string)
    requires StoreInv(c) && name in c.pvs && c.pvs[name].csi.Some?
    ensures forall n :: Orphaned(c.pvs - {name}, n, c.pvs[name].csi.value.handle)
  {
    hide Valid, Parse, StageRequest, Mismatch;
    assert GoodPv(c.hosts.Keys, name, c.pvs[name]);
    forall other | other in c.pvs && Carries(c.pvs[other], c.pvs[name].csi.value.handle)
      ensures other == name
    {
      assert GoodPv(c.hosts.Keys, other, c.pvs[other]);
    }
  }

  // ---------------------------------------------------------------- sizes

  /** A new size is ahead of the record, so the copy of whoever read the PV does not have it. */
  lemma NewSizeIsSent(pv: PersistentVolume, size: nat)
    requires StageRequest(pv).Some? && size > StageRequest(pv).value.capacity
    ensures Annotation(pv, ExpandedKey) != Some(PrintNat(size))
  {
    SizeSafety.AnnotationOnRecord(pv);
  }

  /** The PV of the handle after an expansion past its record was written. */
  lemma WrittenRecord(c: Cluster, v: string, name: string, copy: Option<string>, size: nat)
    requires name in c.pvs && Lookup(c.pvs, v) == Some(c.pvs[name]) && Parse(v).value.lv == name
    requires copy != Some(PrintNat(size))
    ensures Recorded(c, v, copy, size) == c.pvs[name := SetExpanded(c.pvs[name], size)]
    ensures Lookup(Recorded(c, v, copy, size), v) == Some(SetExpanded(c.pvs[name], size))
  {
    hide Parse, PrintNat;
    LookupUpdated(c.pvs, name, SetExpanded(c.pvs[name], size), v);
  }

  /** Recording a smaller size over a larger one loses the larger one. */
  lemma LaterPatchWins(pv: PersistentVolume, large: nat, small: nat)
    requires StageRequest(pv).Some? && StageRequest(pv).value.capacity <= small
    ensures StageRequest(SetExpanded(SetExpanded(pv, large), small)) == Some(StageRequest(pv).value.(capacity := small))
  {
    assert SetExpanded(SetExpanded(pv, large), small) == SetExpanded(pv, small) by {
      assert pv.annotations[ExpandedKey := PrintNat(large)][ExpandedKey := PrintNat(small)] ==
             pv.annotations[ExpandedKey := PrintNat(small)];
    }
    ExpandedRequest(pv, small);
  }

  /** Both expansions have read the PV and extended the volume, one after the other. */
  lemma BothExtend(c: Cluster, a: Call, b: Call, small: nat, mid: Host, large: nat, after: Host)
    returns (c1: Cluster, c2: Cluster, c3: Cluster, c4: Cluster)
    requires a != b && a.node == b.node && a.handle == b.handle && a.node in c.hosts && Parse(a.handle).Some?
    requires a !in c.growths && b !in c.growths && Lookup(c.pvs, a.handle).Some?
    requires Valid(c.hosts[a.node]) && Valid(mid) && Valid(after)
    requires Expanded(c.hosts[a.node], a.handle, small, Ok(small), mid)
    requires Expanded(mid, a.handle, large, Ok(large), after)
    ensures Next(c, GrowGet(a, true), c1) && Next(c1, GrowGet(b, true), c2)
    ensures Next(c2, GrowLv(a, small, Ok(small), mid), c3) && Next(c3, GrowLv(b, large, Ok(large), after), c4)
    ensures var copy := Annotation(Lookup(c.pvs, a.handle).value, ExpandedKey);
            && c4 == c.(hosts := c.hosts[a.node := after], growths := c4.growths)
            && a in c4.growths && c4.growths[a] == Extended(copy, small)
            && b in c4.growths && c4.growths[b] == Extended(copy, large)
    ensures SizeSafety.Calm(c, a.handle, a.node) ==>
              && !SizeSafety.Disorderly(c2, GrowLv(a, small, Ok(small), mid), a.handle)
              && SizeSafety.Disorderly(c3, GrowLv(b, large, Ok(large), after), a.handle)
  {
    hide SizeSafety.Disorderly, SizeSafety.Staging, SizeSafety.Extending;
    hide Next, Valid, Parse, Expanded, Annotation, Lookup;
    c1 := Looks(c, a, true);
    c2 := Looks(c1, b, true);
    c3 := Extends(c2, a, small, small, mid);
    c4 := Extends(c3, b, large, large, after);
    assert c4.hosts == c.hosts[a.node := after];
    LooksKeepsCalls(c, c1, a, c1.growths[a], a.handle);
    LooksKeepsCalls(c1, c2, b, c2.growths[b], a.handle);
    ExtendOrder(c2, a, small, small, mid);
    NowExtending(c3, a);
    ExtendOrder(c3, b, large, large, after);
  }

  /** Both patch, the smaller last. */
  lemma BothWrite(c: Cluster, a: Call, b: Call, name: string, small: nat, large: nat) returns (c1: Cluster, c2: Cluster)
    requires a != b && a.handle == b.handle && name in c.pvs && StageRequest(c.pvs[name]).Some?
    requires Lookup(c.pvs, a.handle) == Some(c.pvs[name]) && Parse(a.handle).value.lv == name
    requires StageRequest(c.pvs[name]).value.capacity < small < large
    requires a in c.growths && c.growths[a] == Extended(Annotation(c.pvs[name], ExpandedKey), small)
    requires b in c.growths && c.growths[b] == Extended(Annotation(c.pvs[name], ExpandedKey), large)
    ensures Next(c, GrowPatch(b, true), c1) && Next(c1, GrowPatch(a, true), c2)
    ensures SizeSafety.RecordOf(c1.pvs, a.handle) == Some(StageRequest(c.pvs[name]).value.(capacity := large))
    ensures SizeSafety.RecordOf(c2.pvs, a.handle) == Some(StageRequest(c.pvs[name]).value.(capacity := small))
  {
    hide Next, Parse, StageRequest, PrintNat, Recorded, Annotation, Lookup;
    var v, pv := a.handle, c.pvs[name];
    NewSizeIsSent(pv, small);
    NewSizeIsSent(pv, large);
    WrittenRecord(c, v, name, Annotation(pv, ExpandedKey), large);
    c1 := Writes(c, b);
    ExpandedRequest(pv, large);
    WrittenRecord(c1, v, name, Annotation(pv, ExpandedKey), small);
    c2 := Writes(c1, a);
    LaterPatchWins(pv, large, small);
  }

  // What breaks the order and what does not, step by step.

  lemma QuietStep(c: Cluster, s: Step, v: string)
    requires s.GrowGet? || s.GrowPatch? || s.StageEnsure? || s.HostEvent?
    ensures !SizeSafety.Disorderly(c, s, v)
  {
  }

  /** Reading a PV that another node owns claims nothing. */
  lemma QuietRead(c: Cluster, k: Call, v: string)
    requires Lookup(c.pvs, v).Some? && StageUpdate(Lookup(c.pvs, v).value, k.node).Some?
    ensures !SizeSafety.Disorderly(c, StageGet(k), v)
  {
    hide Lookup, StageUpdate;
  }

  /** Moving the record between an extend and its patch breaks the order. */
  lemma LateClaim(c: Cluster, k: Call)
    requires SizeSafety.Extending(c, k.handle)
    ensures SizeSafety.Disorderly(c, StagePatch(k, true), k.handle)
  {
  }

  /** So does reading it on the node that is on record. */
  lemma ClaimByReading(c: Cluster, k: Call)
    requires SizeSafety.Extending(c, k.handle) && Lookup(c.pvs, k.handle).Some?
    requires StageUpdate(Lookup(c.pvs, k.handle).value, k.node).None?
    ensures SizeSafety.Disorderly(c, StageGet(k), k.handle)
  {
  }

  /** An extend is in order exactly where the volume was last staged, with the PV read, no request
      in hand and no other extend to be recorded. */
  lemma ExtendOrder(c: Cluster, a: Call, required: int, size: int, after: Host)
    requires a in c.growths && c.growths[a].Looked?
    ensures SizeSafety.Disorderly(c, GrowLv(a, required, Ok(size), after), a.handle) <==>
            !(SizeSafety.Calm(c, a.handle, a.node) && c.growths[a].seen.Some?)
  {
  }

  /** A stage that reads and moves the record with no extend to be recorded keeps the order. */
  lemma ClaimFirst(c: Cluster, c1: Cluster, k: Call, v: string)
    requires c1.growths == c.growths && !SizeSafety.Extending(c, v)
    ensures !SizeSafety.Disorderly(c, StageGet(k), v) && !SizeSafety.Disorderly(c1, StagePatch(k, true), v)
  {
  }

  lemma BlindBreaks(c: Cluster, n: string, v: string)
    ensures SizeSafety.Disorderly(c, StageBlind(n, v), v)
  {
  }

  lemma LooksKeepsCalls(c: Cluster, c': Cluster, a: Call, g: Growth, v: string)
    requires c'.stages == c.stages && c'.growths == c.growths[a := g] && a !in c.growths && g.Looked?
    ensures SizeSafety.Staging(c', v) == SizeSafety.Staging(c, v)
    ensures SizeSafety.Extending(c', v) == SizeSafety.Extending(c, v)
  {
    if SizeSafety.Extending(c, v) {
      var k :| k in c.growths && k.handle == v && c.growths[k].Extended?;
      assert k in c'.growths;
    }
  }

  lemma SameCalls(c: Cluster, c': Cluster, v: string)
    requires c'.stages == c.stages && c'.growths == c.growths
    ensures SizeSafety.Staging(c', v) == SizeSafety.Staging(c, v)
    ensures SizeSafety.Extending(c', v) == SizeSafety.Extending(c, v)
  {
  }

  lemma NowExtending(c: Cluster, a: Call)
    requires a in c.growths && c.growths[a].Extended?
    ensures SizeSafety.Extending(c, a.handle)
  {
  }

  lemma NowStaging(c: Cluster, k: Call)
    requires k in c.stages && c.stages[k].Claimed?
    ensures SizeSafety.Staging(c, k.handle)
  {
  }

  /** Two expansions of one volume on its node overlap, and the smaller patches last: both sizes
      are reported and the record goes down to the smaller. */
  lemma OverlappingExpansions(c: Cluster, a: Call, b: Call, name: string, small: nat, mid: Host, large: nat,
                              after: Host)
    returns (cs: seq<Cluster>, ss: seq<Step>)
    requires StoreInv(c) && a != b && a.node == b.node && a.handle == b.handle && a.node in c.hosts
    requires a !in c.growths && b !in c.growths && name in c.pvs && Carries(c.pvs[name], a.handle)
    requires StageRequest(c.pvs[name]).Some? && StageRequest(c.pvs[name]).value.capacity < small < large
    requires Valid(c.hosts[a.node]) && Valid(mid) && Valid(after)
    requires Expanded(c.hosts[a.node], a.handle, small, Ok(small), mid)
    requires Expanded(mid, a.handle, large, Ok(large), after)
    ensures Path(cs, ss) && cs[0] == c && |ss| == 6
    ensures SizeSafety.Reports(cs[4], ss[4], a.handle, large)
    ensures SizeSafety.RecordOf(cs[5].pvs, a.handle).Some? && SizeSafety.RecordOf(cs[6].pvs, a.handle).Some?
    ensures SizeSafety.RecordOf(cs[5].pvs, a.handle).value.capacity == large
    ensures SizeSafety.RecordOf(cs[6].pvs, a.handle).value.capacity == small
    ensures SizeSafety.Calm(c, a.handle, a.node) ==> SizeSafety.BrokenOnlyAt(cs, ss, 3, a.handle)
  {
    hide SizeSafety.Disorderly, SizeSafety.Staging, SizeSafety.Extending;
    hide Next, Valid, Parse, Expanded, StageRequest, Annotation, Lookup;
    hide SizeSafety.RecordOf;
    assert GoodPv(c.hosts.Keys, name, c.pvs[name]);
    LookupStored(c, name);
    var c1, c2, c3, c4 := BothExtend(c, a, b, small, mid, large, after);
    var c5, c6 := BothWrite(c4, a, b, name, small, large);
    cs := [c, c1, c2, c3, c4, c5, c6];
    ss := [GrowGet(a, true), GrowGet(b, true), GrowLv(a, small, Ok(small), mid), GrowLv(b, large, Ok(large), after),
           GrowPatch(b, true), GrowPatch(a, true)];
    var v := a.handle;
    QuietStep(c, ss[0], v);
    QuietStep(c1, ss[1], v);
    QuietStep(c4, ss[4], v);
    QuietStep(c5, ss[5], v);
  }

  /** Step `i` reports `size`, and the stage of `k`, which is the last step, succeeds and leaves a
      smaller volume. */
  ghost predicate StagedTooSmall(cs: seq<Cluster>, ss: seq<Step>, i: nat, k: Call, size: int)
    requires |cs| == |ss| + 1
  {
    && i + 1 < |ss| && SizeSafety.Reports(cs[i], ss[i], k.handle, size)
    && ss[|ss| - 1].StageEnsure? && ss[|ss| - 1].call == k && ss[|ss| - 1].r.Ok?
    && k.node in cs[|ss|].hosts && Smaller(cs[|ss|].hosts[k.node], k.handle, size)
  }

  ghost predicate Smaller(h: Host, v: string, size: int) {
    Parse(v).Some? && Parse(v).value in h.lvs && h.lvs[Parse(v).value].size < size
  }

  /** The expansion records and reports its size, and the stage that has the old request in hand
      makes the volume. */
  lemma WritesThenMakes(c: Cluster, k: Call, a: Call, q: Request, size: nat, was: int, made: Host)
    returns (c1: Cluster, c2: Cluster)
    requires k.handle == a.handle && k.node in c.hosts && Valid(c.hosts[k.node]) && Valid(made) && was < size
    requires k in c.stages && c.stages[k] == Claimed(Some(q)) && Lookup(c.pvs, k.handle).Some?
    requires a in c.growths && c.growths[a].Extended? && c.growths[a].size == size
    requires Ensured(c.hosts[k.node], c.filter, k.handle, q.capacity, q.limit, Ok(was), made)
    ensures Next(c, GrowPatch(a, true), c1) && Next(c1, StageEnsure(k, Ok(was), true, made), c2)
    ensures SizeSafety.Reports(c, GrowPatch(a, true), k.handle, size)
    ensures k.node in c2.hosts && Smaller(c2.hosts[k.node], k.handle, size)
  {
    hide Next, Valid, Parse, Ensured, Lookup, Recorded;
    c1 := Writes(c, a);
    EnsuredMeaning(c.hosts[k.node], c.filter, k.handle, q.capacity, q.limit, Ok(was), made);
    c2 := Makes(c1, k, Ok(was), true, made);
  }

  /** A stage elsewhere has its request in hand before the volume is extended where it was last
      staged: the new size is reported, and then the stage makes the volume at the old size. */
  lemma StageRacesExpansion(c: Cluster, k: Call, a: Call, name: string, size: nat, grown: Host, was: int, made: Host)
    returns (cs: seq<Cluster>, ss: seq<Step>)
    requires StoreInv(c) && k.node != a.node && k.handle == a.handle && k.node in c.hosts && a.node in c.hosts
    requires k !in c.stages && a !in c.growths && name in c.pvs && Carries(c.pvs[name], a.handle)
    requires StageUpdate(c.pvs[name], k.node).Some? && StageRequest(c.pvs[name]).Some?
    requires Valid(c.hosts[a.node]) && Valid(c.hosts[k.node]) && Valid(grown) && Valid(made) && was < size
    requires Expanded(c.hosts[a.node], a.handle, size, Ok(size), grown)
    requires var q := StageRequest(c.pvs[name]).value;
             Ensured(c.hosts[k.node], c.filter, k.handle, q.capacity, q.limit, Ok(was), made)
    ensures Path(cs, ss) && cs[0] == c && |ss| == 6 && ss[1] == StagePatch(k, true) && ss[3].GrowLv?
    ensures StagedTooSmall(cs, ss, 4, k, size)
    ensures SizeSafety.Calm(c, a.handle, a.node) ==> SizeSafety.BrokenOnlyAt(cs, ss, 3, a.handle)
  {
    hide SizeSafety.Disorderly, SizeSafety.Staging, SizeSafety.Extending;
    hide Next, Valid, Parse, Expanded, StageRequest, Annotation, Ensured, StageUpdate, UnderGc, Smaller;
    hide SizeSafety.Reports;
    hide HostsInv, OffersInv, PvsInv, Lookup;
    var v, pv := a.handle, c.pvs[name];
    StillFound(c, name, k.node, v);
    var c1, c2 := TakesOver(c, k, name);
    var c3 := Looks(c2, a, true);
    var c4 := Extends(c3, a, size, size, grown);
    var c5, c6 := WritesThenMakes(c4, k, a, StageRequest(pv).value, size, was, made);
    cs := [c, c1, c2, c3, c4, c5, c6];
    ss := [StageGet(k), StagePatch(k, true), GrowGet(a, true), GrowLv(a, size, Ok(size), grown), GrowPatch(a, true),
           StageEnsure(k, Ok(was), true, made)];
    LooksKeepsCalls(c2, c3, a, c3.growths[a], v);
    NowStaging(c2, k);
    ExtendOrder(c3, a, size, size, grown);
    if !SizeSafety.Extending(c, v) { ClaimFirst(c, c1, k, v); }
    QuietStep(c2, ss[2], v);
    QuietStep(c4, ss[4], v);
    QuietStep(c5, ss[5], v);
  }

  /** The same when the stage gets its request in hand between the extend and the patch. */
  lemma StageRacesPatch(c: Cluster, k: Call, a: Call, name: string, size: nat, grown: Host, was: int, made: Host)
    returns (cs: seq<Cluster>, ss: seq<Step>)
    requires StoreInv(c) && k.node != a.node && k.handle == a.handle && k.node in c.hosts && a.node in c.hosts
    requires k !in c.stages && a !in c.growths && name in c.pvs && Carries(c.pvs[name], a.handle)
    requires StageUpdate(c.pvs[name], k.node).Some? && StageRequest(c.pvs[name]).Some?
    requires Valid(c.hosts[a.node]) && Valid(c.hosts[k.node]) && Valid(grown) && Valid(made) && was < size
    requires Expanded(c.hosts[a.node], a.handle, size, Ok(size), grown)
    requires var q := StageRequest(c.pvs[name]).value;
             Ensured(c.hosts[k.node], c.filter, k.handle, q.capacity, q.limit, Ok(was), made)
    ensures Path(cs, ss) && cs[0] == c && |ss| == 6 && ss[1].GrowLv? && ss[3] == StagePatch(k, true)
    ensures StagedTooSmall(cs, ss, 4, k, size)
    ensures SizeSafety.Calm(c, a.handle, a.node) ==> SizeSafety.BrokenOnlyAt(cs, ss, 3, a.handle)
  {
    hide SizeSafety.Disorderly, SizeSafety.Staging, SizeSafety.Extending;
    hide Next, Valid, Parse, Expanded, StageRequest, Annotation, Ensured, StageUpdate, UnderGc, Smaller;
    hide SizeSafety.Reports;
    hide HostsInv, OffersInv, PvsInv, Lookup;
    var v, pv := a.handle, c.pvs[name];
    StillFound(c, name, k.node, v);
    var c1 := Looks(c, a, true);
    var c2 := Extends(c1, a, size, size, grown);
    GrownStore(c, c2, a.node, grown);
    var c3, c4 := TakesOver(c2, k, name);
    var c5, c6 := WritesThenMakes(c4, k, a, StageRequest(pv).value, size, was, made);
    cs := [c, c1, c2, c3, c4, c5, c6];
    ss := [GrowGet(a, true), GrowLv(a, size, Ok(size), grown), StageGet(k), StagePatch(k, true), GrowPatch(a, true),
           StageEnsure(k, Ok(was), true, made)];
    LooksKeepsCalls(c, c1, a, c1.growths[a], v);
    ExtendOrder(c1, a, size, size, grown);
    QuietRead(c2, k, v);
    NowExtending(c3, a);
    LateClaim(c3, k);
    QuietStep(c, ss[0], v);
    QuietStep(c4, ss[4], v);
    QuietStep(c5, ss[5], v);
  }

  /** The same without a move of the record: a stage on the node itself reads the PV between the
      extend and the patch, and makes the volume anew because the node has lost it. */
  lemma ReadRacesPatch(c: Cluster, k: Call, a: Call, name: string, size: nat, grown: Host, lost: Host, was: int,
                       made: Host)
    returns (cs: seq<Cluster>, ss: seq<Step>)
    requires StoreInv(c) && k.node == a.node && k.handle == a.handle && a.node in c.hosts
    requires k !in c.stages && a !in c.growths && name in c.pvs && Carries(c.pvs[name], a.handle)
    requires StageUpdate(c.pvs[name], k.node).None? && StageRequest(c.pvs[name]).Some?
    requires Valid(c.hosts[a.node]) && Valid(grown) && Valid(lost) && Valid(made) && was < size && Decays(grown, lost)
    requires Expanded(c.hosts[a.node], a.handle, size, Ok(size), grown)
    requires var q := StageRequest(c.pvs[name]).value;
             Ensured(lost, c.filter, k.handle, q.capacity, q.limit, Ok(was), made)
    ensures Path(cs, ss) && cs[0] == c && |ss| == 6 && ss[1].GrowLv? && ss[2] == StageGet(k)
    ensures StagedTooSmall(cs, ss, 3, k, size)
    ensures SizeSafety.Calm(c, a.handle, a.node) ==> SizeSafety.BrokenOnlyAt(cs, ss, 2, a.handle)
  {
    hide Next, Valid, Parse, Expanded, StageRequest, Annotation, Ensured, StageUpdate, UnderGc, Smaller, Decays;
    hide SizeSafety.Disorderly, SizeSafety.Staging, SizeSafety.Extending, SizeSafety.Reports;
    hide HostsInv, OffersInv, PvsInv, Lookup;
    var v := a.handle;
    StillFound(c, name, k.node, v);
    var c1 := Looks(c, a, true);
    var c2 := Extends(c1, a, size, size, grown);
    var c3 := ReadsOwn(c2, k);
    var c4, c5, c6 := WritesLosesMakes(c3, k, a, StageRequest(c.pvs[name]).value, size, lost, was, made);
    cs := [c, c1, c2, c3, c4, c5, c6];
    ss := [GrowGet(a, true), GrowLv(a, size, Ok(size), grown), StageGet(k), GrowPatch(a, true),
           HostEvent(k.node, lost), StageEnsure(k, Ok(was), true, made)];
    LooksKeepsCalls(c, c1, a, c1.growths[a], v);
    ExtendOrder(c1, a, size, size, grown);
    NowExtending(c2, a);
    ClaimByReading(c2, k);
    QuietStep(c, ss[0], v);
    QuietStep(c3, ss[3], v);
    QuietStep(c4, ss[4], v);
    QuietStep(c5, ss[5], v);
  }

  /** The expansion reports, the node loses the volume, and the stage makes it as its request says. */
  lemma WritesLosesMakes(c: Cluster, k: Call, a: Call, q: Request, size: nat, lost: Host, was: int, made: Host)
    returns (c1: Cluster, c2: Cluster, c3: Cluster)
    requires k.handle == a.handle && k.node in c.hosts && Valid(lost) && Valid(made) && was < size
    requires k in c.stages && c.stages[k] == Claimed(Some(q)) && Lookup(c.pvs, k.handle).Some?
    requires a in c.growths && c.growths[a].Extended? && c.growths[a].size == size && Decays(c.hosts[k.node], lost)
    requires Ensured(lost, c.filter, k.handle, q.capacity, q.limit, Ok(was), made)
    ensures Next(c, GrowPatch(a, true), c1) && Next(c1, HostEvent(k.node, lost), c2)
    ensures Next(c2, StageEnsure(k, Ok(was), true, made), c3)
    ensures SizeSafety.Reports(c, GrowPatch(a, true), k.handle, size)
    ensures k.node in c3.hosts && Smaller(c3.hosts[k.node], k.handle, size)
  {
    hide Next, Valid, Parse, Ensured, Lookup, Recorded, Decays;
    c1 := Writes(c, a);
    c2 := Loses(c1, k.node, lost);
    EnsuredMeaning(lost, c.filter, k.handle, q.capacity, q.limit, Ok(was), made);
    c3 := Makes(c2, k, Ok(was), true, made);
  }

  lemma GrownStore(c: Cluster, c': Cluster, n: string, after: Host)
    requires StoreInv(c) && n in c.hosts && Valid(after) && c'.hosts == c.hosts[n := after]
    requires c'.pvs == c.pvs && c'.offers == c.offers && c'.used == c.used
    ensures StoreInv(c')
  {
    hide Valid, GoodPv, GoodOffer, GoodNames;
    assert c'.hosts.Keys == c.hosts.Keys;
  }

  // ---------------------------------------------------------------- sizes, one call after the other

  /** A stage takes the volume over and makes it. */
  lemma TakesAndMakes(c: Cluster, k: Call, name: string, was: int, made: Host, size: int)
    returns (c1: Cluster, c2: Cluster, c3: Cluster)
    requires StoreInv(c) && k.node in c.hosts && k !in c.stages && name in c.pvs && Carries(c.pvs[name], k.handle)
    requires StageUpdate(c.pvs[name], k.node).Some? && StageRequest(c.pvs[name]).Some?
    requires Valid(c.hosts[k.node]) && Valid(made) && was < size
    requires var q := StageRequest(c.pvs[name]).value;
             Ensured(c.hosts[k.node], c.filter, k.handle, q.capacity, q.limit, Ok(was), made)
    ensures Next(c, StageGet(k), c1) && Next(c1, StagePatch(k, true), c2)
    ensures Next(c2, StageEnsure(k, Ok(was), true, made), c3)
    ensures c1.growths == c.growths && k.node in c3.hosts && Smaller(c3.hosts[k.node], k.handle, size)
  {
    hide Next, Valid, Parse, StageRequest, Ensured, StageUpdate, UnderGc;
    hide StoreInv;
    var q := StageRequest(c.pvs[name]).value;
    c1, c2 := TakesOver(c, k, name);
    EnsuredMeaning(c.hosts[k.node], c.filter, k.handle, q.capacity, q.limit, Ok(was), made);
    c3 := Makes(c2, k, Ok(was), true, made);
  }

  /** An expansion that could not read the PV reports its size at once. */
  lemma GrowsUnread(c: Cluster, a: Call, size: int, grown: Host) returns (c1: Cluster, c2: Cluster)
    requires StoreInv(c) && a.node in c.hosts && a !in c.growths && Parse(a.handle).Some?
    requires Valid(c.hosts[a.node]) && Valid(grown) && Expanded(c.hosts[a.node], a.handle, size, Ok(size), grown)
    ensures Next(c, GrowGet(a, false), c1) && Next(c1, GrowLv(a, size, Ok(size), grown), c2)
    ensures c2 == c.(hosts := c.hosts[a.node := grown], reported := c2.reported) && StoreInv(c2)
    ensures SizeSafety.Reports(c1, GrowLv(a, size, Ok(size), grown), a.handle, size)
    ensures SizeSafety.Disorderly(c1, GrowLv(a, size, Ok(size), grown), a.handle)
  {
    hide Next, Valid, Parse, Expanded, StoreInv;
    c1 := Looks(c, a, false);
    c2 := ExtendsUnread(c1, a, size, Ok(size), grown);
    assert c2.growths == c.growths;
    GrownStore(c, c2, a.node, grown);
  }

  /** An expansion that could not read the PV reports a size that is on no record: the next stage
      elsewhere makes the volume at the old size. */
  lemma UnreadExpansion(c: Cluster, k: Call, a: Call, name: string, size: nat, grown: Host, was: int, made: Host)
    returns (cs: seq<Cluster>, ss: seq<Step>)
    requires StoreInv(c) && k.node != a.node && k.handle == a.handle && k.node in c.hosts && a.node in c.hosts
    requires k !in c.stages && a !in c.growths && name in c.pvs && Carries(c.pvs[name], a.handle)
    requires StageUpdate(c.pvs[name], k.node).Some? && StageRequest(c.pvs[name]).Some?
    requires Valid(c.hosts[a.node]) && Valid(c.hosts[k.node]) && Valid(grown) && Valid(made) && was < size
    requires Expanded(c.hosts[a.node], a.handle, size, Ok(size), grown)
    requires var q := StageRequest(c.pvs[name]).value;
             Ensured(c.hosts[k.node], c.filter, k.handle, q.capacity, q.limit, Ok(was), made)
    ensures Path(cs, ss) && cs[0] == c && |ss| == 5 && ss[0] == GrowGet(a, false) && ss[2] == StageGet(k)
    ensures StagedTooSmall(cs, ss, 1, k, size)
    ensures SizeSafety.Calm(c, a.handle, a.node) ==> SizeSafety.BrokenOnlyAt(cs, ss, 1, a.handle)
  {
    hide Next, Valid, Parse, Expanded, StageRequest, Ensured, StageUpdate, Smaller, Lookup;
    hide HostsInv, OffersInv, PvsInv;
    hide SizeSafety.Disorderly, SizeSafety.Staging, SizeSafety.Extending, SizeSafety.Reports;
    var v := a.handle;
    StillFound(c, name, k.node, v);
    var c1, c2 := GrowsUnread(c, a, size, grown);
    var c3, c4, c5 := TakesAndMakes(c2, k, name, was, made, size);
    cs := [c, c1, c2, c3, c4, c5];
    ss := [GrowGet(a, false), GrowLv(a, size, Ok(size), grown), StageGet(k), StagePatch(k, true),
           StageEnsure(k, Ok(was), true, made)];
    SameCalls(c, c2, v);
    if !SizeSafety.Extending(c2, v) { ClaimFirst(c2, c3, k, v); }
    QuietStep(c, ss[0], v);
    QuietStep(c4, ss[4], v);
  }

  /** One expansion from beginning to end. */
  lemma Grows(c: Cluster, a: Call, name: string, required: int, size: nat, after: Host)
    returns (c1: Cluster, c2: Cluster, c3: Cluster)
    requires StoreInv(c) && a.node in c.hosts && a !in c.growths && name in c.pvs && Carries(c.pvs[name], a.handle)
    requires Valid(c.hosts[a.node]) && Valid(after) && Expanded(c.hosts[a.node], a.handle, required, Ok(size), after)
    requires Annotation(c.pvs[name], ExpandedKey) != Some(PrintNat(size))
    ensures Next(c, GrowGet(a, true), c1) && Next(c1, GrowLv(a, required, Ok(size), after), c2)
    ensures Next(c2, GrowPatch(a, true), c3) && SizeSafety.Reports(c2, GrowPatch(a, true), a.handle, size)
    ensures c3 == c.(hosts := c.hosts[a.node := after], pvs := c.pvs[name := SetExpanded(c.pvs[name], size)],
                     reported := c3.reported)
    ensures Lookup(c3.pvs, a.handle) == Some(SetExpanded(c.pvs[name], size))
    ensures SizeSafety.Disorderly(c1, GrowLv(a, required, Ok(size), after), a.handle) <==>
              !SizeSafety.Calm(c, a.handle, a.node)
  {
    hide SizeSafety.Disorderly, SizeSafety.Staging, SizeSafety.Extending;
    hide Next, Valid, Parse, Expanded, StageRequest, Annotation, PrintNat, Recorded, Lookup;
    hide HostsInv, OffersInv, PvsInv;
    StillFound(c, name, "", a.handle);
    c1 := Looks(c, a, true);
    c2 := Extends(c1, a, required, size, after);
    WrittenRecord(c2, a.handle, name, Annotation(c.pvs[name], ExpandedKey), size);
    c3 := Writes(c2, a);
    assert c3.growths == c.growths;
    LooksKeepsCalls(c, c1, a, c1.growths[a], a.handle);
    ExtendOrder(c1, a, required, size, after);
  }

  /** What one expansion leaves is a store again. */
  lemma GrownPvs(c: Cluster, c': Cluster, n: string, after: Host, name: string, size: nat)
    requires StoreInv(c) && n in c.hosts && Valid(after) && name in c.pvs
    requires c'.hosts == c.hosts[n := after] && c'.pvs == c.pvs[name := SetExpanded(c.pvs[name], size)]
    requires c'.offers == c.offers && c'.used == c.used
    ensures StoreInv(c')
  {
    hide Valid, GoodPv, GoodOffer, GoodNames;
    assert c'.hosts.Keys == c.hosts.Keys;
    assert GoodPv(c.hosts.Keys, name, c.pvs[name]);
    StaysGood(c.hosts.Keys, name, c.pvs[name], "", size, Pending, false, []);
  }

  /** An expansion of the old copy on a node that is not the latest to have staged the volume
      takes the record down to the size of that copy. */
  lemma ExpansionElsewhere(c: Cluster, a: Call, b: Call, name: string, large: nat, grown: Host, small: nat)
    returns (cs: seq<Cluster>, ss: seq<Step>)
    requires StoreInv(c) && a.node != b.node && a.handle == b.handle && a.node in c.hosts && b.node in c.hosts
    requires a !in c.growths && b !in c.growths && name in c.pvs && Carries(c.pvs[name], a.handle)
    requires a.handle in c.staged && c.staged[a.handle] == a.node
    requires StageRequest(c.pvs[name]).Some? && StageRequest(c.pvs[name]).value.capacity <= small < large
    requires Valid(c.hosts[a.node]) && Valid(c.hosts[b.node]) && Valid(grown)
    requires Expanded(c.hosts[a.node], a.handle, large, Ok(large), grown)
    requires Expanded(c.hosts[b.node], b.handle, small, Ok(small), c.hosts[b.node])
    ensures Path(cs, ss) && cs[0] == c && |ss| == 6
    ensures SizeSafety.Reports(cs[2], ss[2], a.handle, large)
    ensures cs[3].staged == c.staged && ss[4].GrowLv? && ss[4].call == b
    ensures SizeSafety.RecordOf(cs[3].pvs, a.handle).Some? && SizeSafety.RecordOf(cs[6].pvs, a.handle).Some?
    ensures SizeSafety.RecordOf(cs[3].pvs, a.handle).value.capacity == large
    ensures SizeSafety.RecordOf(cs[6].pvs, a.handle).value.capacity == small
    ensures SizeSafety.Calm(c, a.handle, a.node) ==> SizeSafety.BrokenOnlyAt(cs, ss, 4, a.handle)
  {
    hide SizeSafety.Disorderly, SizeSafety.Staging, SizeSafety.Extending;
    hide Next, Valid, Parse, Expanded, StageRequest, Annotation, PrintNat, Lookup;
    hide HostsInv, OffersInv, PvsInv;
    hide SizeSafety.Reports;
    var pv := c.pvs[name];
    NewSizeIsSent(pv, large);
    var c1, c2, c3 := Grows(c, a, name, large, large, grown);
    GrownPvs(c, c3, a.node, grown, name, large);
    ExpandedRequest(pv, large);
    OtherSizeIsSent(pv, large, small);
    var c4, c5, c6 := Grows(c3, b, name, small, small, c.hosts[b.node]);
    LaterPatchWins(pv, large, small);
    cs := [c, c1, c2, c3, c4, c5, c6];
    ss := [GrowGet(a, true), GrowLv(a, large, Ok(large), grown), GrowPatch(a, true),
           GrowGet(b, true), GrowLv(b, small, Ok(small), c.hosts[b.node]), GrowPatch(b, true)];
    SameCalls(c, c3, a.handle);
    QuietStep(c, ss[0], a.handle);
    QuietStep(c2, ss[2], a.handle);
    QuietStep(c3, ss[3], a.handle);
    QuietStep(c5, ss[5], a.handle);
  }

  lemma OtherSizeIsSent(pv: PersistentVolume, large: nat, small: nat)
    requires large != small
    ensures Annotation(SetExpanded(pv, large), ExpandedKey) != Some(PrintNat(small))
  {
    ParsePrint(large);
    ParsePrint(small);
  }

  /** A stage that could not read its PV mounts the old copy it finds: it succeeds with a volume
      smaller than a size reported before. */
  lemma BlindStage(c: Cluster, a: Call, n: string, name: string, large: nat, grown: Host)
    returns (cs: seq<Cluster>, ss: seq<Step>)
    requires StoreInv(c) && a.node != n && a.node in c.hosts && n in c.hosts
    requires a !in c.growths && name in c.pvs && Carries(c.pvs[name], a.handle)
    requires a.handle in c.staged && c.staged[a.handle] == a.node
    requires StageRequest(c.pvs[name]).Some? && StageRequest(c.pvs[name]).value.capacity < large
    requires Valid(c.hosts[a.node]) && Valid(grown) && Smaller(c.hosts[n], a.handle, large)
    requires Expanded(c.hosts[a.node], a.handle, large, Ok(large), grown)
    ensures Path(cs, ss) && cs[0] == c && |ss| == 4
    ensures SizeSafety.Reports(cs[2], ss[2], a.handle, large) && ss[3] == StageBlind(n, a.handle)
    ensures a.handle in cs[4].staged && cs[4].staged[a.handle] == n && n in cs[4].hosts
    ensures Smaller(cs[4].hosts[n], a.handle, large)
    ensures SizeSafety.Calm(c, a.handle, a.node) ==> SizeSafety.BrokenOnlyAt(cs, ss, 3, a.handle)
  {
    hide SizeSafety.Disorderly, SizeSafety.Staging, SizeSafety.Extending;
    hide Next, Valid, Parse, Expanded, StageRequest, Annotation, PrintNat, Lookup, Smaller;
    hide HostsInv, OffersInv, PvsInv;
    hide SizeSafety.Reports;
    NewSizeIsSent(c.pvs[name], large);
    var c1, c2, c3 := Grows(c, a, name, large, large, grown);
    var c4 := StagesBlind(c3, n, a.handle);
    cs := [c, c1, c2, c3, c4];
    ss := [GrowGet(a, true), GrowLv(a, large, Ok(large), grown), GrowPatch(a, true), StageBlind(n, a.handle)];
    QuietStep(c, ss[0], a.handle);
    QuietStep(c2, ss[2], a.handle);
    BlindBreaks(c3, n, a.handle);
  }
}
