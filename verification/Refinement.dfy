/** The servers' and the reconciler's calls are runs of the protocol, so that what is proved of every run holds
    of them; and orphan scans converge from every state a run can reach. */
module Refinement {
  import opened Text
  import opened VolumeIds
  import opened Probe
  import opened Lvm
  import opened Provisioner
  import opened Kube
  import opened Ownership
  import opened Volumes
  import opened Servers
  import opened Gc
  import opened Protocol
  import opened Moves
  import Fleet

  // ---------------------------------------------------------------- create

  /** What CreateVolume states of a volume it made is the protocol's create step, and that volume,
      with its context, is what a PV can be made of. */
  lemma CreateIsStep(c: Cluster, node: string, vgParam: string, name: string, required: int, limit: nat,
                     params: Strings, floating: bool, v: Volume, after: Host) returns (c': Cluster)
    requires node in c.hosts && Valid(c.hosts[node]) && Valid(after) && name !in c.used && InitialNode !in params
    requires Parse(v.handle) == Some(VolumeId(GroupName(vgParam), name)) && 0 < v.capacity
    requires Ensured(c.hosts[node], c.filter, v.handle, CreateCapacity(required, limit), limit, Ok(v.capacity), after)
    requires var sized := params[CapacityKey := PrintNat(v.capacity)][LimitKey := PrintNat(limit)];
             v.context == if floating then sized[InitialNode := node] else sized
    ensures Next(c, CreateLv(node, vgParam, name, required, limit, params, floating, Ok(v.capacity), after), c')
    ensures c'.offers == c.offers + {Offer(node, v)} && c'.hosts == c.hosts[node := after] && c'.pvs == c.pvs
  {
    hide Valid, Ensured, Parse, PrintNat;
    PrintParse(v.handle);
    c' := c.(hosts := c.hosts[node := after], offers := c.offers + {Offer(node, v)});
  }

  // ---------------------------------------------------------------- stage

  /** The path does to the cluster what the stage of `call` did. */
  ghost predicate DoesStage(c: Cluster, call: Call, r: Result<()>, pvs: Pvs, after: Host,
                            cs: seq<Cluster>, ss: seq<Step>) {
    && Path(cs, ss) && cs[0] == c
    && var c' := cs[|ss|];
       && c'.pvs == pvs && c'.hosts == c.hosts[call.node := after] && c'.stages == c.stages
       && (r.Ok? ==> call.handle in c'.staged && c'.staged[call.handle] == call.node)
  }

  /** What EnsureVolume answered to the stage. */
  lemma EnsureAnswer(pv: PersistentVolume, h: Host, f: Filter, v: string, r: Result<()>, after: Host)
    returns (e: Result<int>)
    requires Valid(h) && StageRequest(pv).Some? && StageEnsured(pv, h, f, v, r, after)
    ensures var q := StageRequest(pv).value;
            Ensured(h, f, v, q.capacity, q.limit, e, after) && (e.Err? ==> r.Err?)
  {
    hide Valid, Ensured, CapacityAndLimit;
    var q := StageRequest(pv).value;
    e :| Ensured(h, f, v, q.capacity, q.limit, e, after) && (e.Err? ==> r.Err?);
  }

  lemma StageOwned(c: Cluster, call: Call, pv: PersistentVolume, r: Result<()>, after: Host)
    returns (cs: seq<Cluster>, ss: seq<Step>)
    requires call.node in c.hosts && Valid(c.hosts[call.node]) && Valid(after)
    requires Lookup(c.pvs, call.handle) == Some(pv) && call !in c.stages
    requires StageRequest(pv).Some? && StageUpdate(pv, call.node).None?
    requires StageEnsured(pv, c.hosts[call.node], c.filter, call.handle, r, after)
    ensures DoesStage(c, call, r, c.pvs, after, cs, ss)
  {
    hide Next, Valid, StageEnsured, StageRequest, StageUpdate, Lookup, Ensured, UnderGc;
    var c1 := ReadsOwn(c, call);
    var e := EnsureAnswer(pv, c.hosts[call.node], c.filter, call.handle, r, after);
    var c2 := Makes(c1, call, e, r.Ok?, after);
    assert c2.stages == c.stages;
    cs, ss := [c, c1, c2], [StageGet(call), StageEnsure(call, e, r.Ok?, after)];
  }

  lemma StageTaken(c: Cluster, call: Call, name: string, r: Result<()>, after: Host)
    returns (cs: seq<Cluster>, ss: seq<Step>)
    requires StoreInv(c) && call.node in c.hosts && Valid(c.hosts[call.node]) && Valid(after)
    requires name in c.pvs && Carries(c.pvs[name], call.handle) && call !in c.stages
    requires StageRequest(c.pvs[name]).Some? && StageUpdate(c.pvs[name], call.node).Some?
    requires StageEnsured(SetOwner(c.pvs[name], call.node), c.hosts[call.node], c.filter, call.handle, r, after)
    ensures DoesStage(c, call, r, c.pvs[name := SetOwner(c.pvs[name], call.node)], after, cs, ss)
  {
    hide Next, Valid, StageEnsured, StageRequest, StageUpdate, StoreInv, Ensured, UnderGc;
    var pv := c.pvs[name];
    OwnerKeepsRequest(pv, call.node);
    var c1, c2 := TakesOver(c, call, name);
    var e := EnsureAnswer(SetOwner(pv, call.node), c.hosts[call.node], c.filter, call.handle, r, after);
    var c3 := Makes(c2, call, e, r.Ok?, after);
    assert c3.stages == c.stages;
    cs := [c, c1, c2, c3];
    ss := [StageGet(call), StagePatch(call, true), StageEnsure(call, e, r.Ok?, after)];
  }

  /** Every undisturbed NodeStageVolume that reads its PV in webhook mode is a run of the
      protocol's stage steps, and a successful one makes its node the node of the latest
      successful stage. */
  lemma StageIsPath(c: Cluster, call: Call, r: Result<()>, pvs: Pvs, after: Host)
    returns (cs: seq<Cluster>, ss: seq<Step>)
    requires StoreInv(c) && call.node in c.hosts && Valid(c.hosts[call.node]) && Valid(after)
    requires Lookup(c.pvs, call.handle).Some? && call !in c.stages
    requires Staged(c.pvs, c.hosts[call.node], c.filter, call.node, true, call.handle, r, true, pvs, after)
    ensures DoesStage(c, call, r, pvs, after, cs, ss)
  {
    hide Next, Valid, Parse, StageEnsured, StageRequest, StageUpdate;
    var n := call.node;
    var name := Parse(call.handle).value.lv;
    var pv := c.pvs[name];
    assert GoodPv(c.hosts.Keys, name, pv);
    if StageUpdate(pv, n).None? {
      cs, ss := StageOwned(c, call, pv, r, after);
    } else if r.Err? && pvs == c.pvs && after == c.hosts[n] {
      var c1 := PatchFails(c, call);
      assert c.hosts[n := c.hosts[n]] == c.hosts;
      cs, ss := [c, c1, c], [StageGet(call), StagePatch(call, false)];
    } else {
      cs, ss := StageTaken(c, call, name, r, after);
    }
  }

  // ---------------------------------------------------------------- expand

  /** The path does to the cluster what the expansion of `call` did. */
  ghost predicate DoesExpand(c: Cluster, call: Call, r: Result<int>, pvs: Pvs, after: Host,
                             cs: seq<Cluster>, ss: seq<Step>) {
    && Path(cs, ss) && cs[0] == c
    && var c' := cs[|ss|];
       && c'.pvs == pvs && c'.hosts == c.hosts[call.node := after] && c'.growths == c.growths
       && (r.Ok? ==> call.handle in c'.reported && c'.reported[call.handle] >= r.value)
  }

  /** An expansion that fails to extend, or that goes on without the PV. */
  lemma ExpandUnrecorded(c: Cluster, call: Call, required: int, e: Result<int>, read: bool, after: Host)
    returns (cs: seq<Cluster>, ss: seq<Step>)
    requires call.node in c.hosts && Valid(c.hosts[call.node]) && Valid(after) && Parse(call.handle).Some?
    requires call !in c.growths && (read ==> Lookup(c.pvs, call.handle).Some?) && (e.Ok? ==> !read)
    requires Expanded(c.hosts[call.node], call.handle, required, e, after)
    ensures DoesExpand(c, call, e, c.pvs, after, cs, ss)
  {
    hide Next, Valid, Parse, Expanded, Lookup, Annotation;
    var c1 := Looks(c, call, read);
    var c2 := ExtendsUnread(c1, call, required, e, after);
    assert c2.growths == c.growths;
    cs, ss := [c, c1, c2], [GrowGet(call, read), GrowLv(call, required, e, after)];
  }

  /** An expansion whose patch goes through or fails. */
  lemma ExpandRecorded(c: Cluster, call: Call, required: int, size: nat, ok: bool, after: Host)
    returns (cs: seq<Cluster>, ss: seq<Step>)
    requires PvsInv(c) && call.node in c.hosts && Valid(c.hosts[call.node]) && Valid(after) && Parse(call.handle).Some?
    requires call !in c.growths && Lookup(c.pvs, call.handle).Some?
    requires Expanded(c.hosts[call.node], call.handle, required, Ok(size), after)
    ensures var name := Parse(call.handle).value.lv;
            name in c.pvs &&
            DoesExpand(c, call, if ok then Ok(size) else Err(Fault),
                       if ok then c.pvs[name := SetExpanded(c.pvs[name], size)] else c.pvs, after, cs, ss)
  {
    hide Next, Valid, Parse, Expanded, PrintNat, PvsInv, Recorded, Annotation;
    var c1 := Looks(c, call, true);
    var c2 := Extends(c1, call, required, size, after);
    assert c2.growths - {call} == c.growths;
    var c3: Cluster;
    if ok {
      c3 := Writes(c2, call);
      SentOrSame(c2, call.handle, size);
    } else {
      c3 := PatchLost(c2, call);
    }
    cs, ss := [c, c1, c2, c3], [GrowGet(call, true), GrowLv(call, required, Ok(size), after), GrowPatch(call, ok)];
  }

  lemma PatchLost(c: Cluster, call: Call) returns (c': Cluster)
    requires call in c.growths && c.growths[call].Extended? && c.growths[call].size >= 0
    ensures Next(c, GrowPatch(call, false), c') && c' == c.(growths := c.growths - {call})
  {
    hide Lookup;
    c' := c.(growths := c.growths - {call});
  }

  /** With nobody else at work an empty patch is one that would have changed nothing. */
  lemma SentOrSame(c: Cluster, v: string, size: nat)
    requires Lookup(c.pvs, v).Some?
    ensures var pv, name := Lookup(c.pvs, v).value, Parse(v).value.lv;
            Recorded(c, v, Annotation(pv, ExpandedKey), size) == c.pvs[name := SetExpanded(pv, size)]
  {
    hide Parse, PrintNat;
    var pv, name := Lookup(c.pvs, v).value, Parse(v).value.lv;
    if Annotation(pv, ExpandedKey) == Some(PrintNat(size)) {
      assert pv.annotations[ExpandedKey := PrintNat(size)] == pv.annotations;
      assert SetExpanded(pv, size) == pv;
    }
  }

  /** Every undisturbed NodeExpandVolume of a handle is a run of the protocol's expansion steps. */
  lemma ExpandIsPath(c: Cluster, call: Call, required: int, r: Result<int>, read: bool, pvs: Pvs, after: Host)
    returns (cs: seq<Cluster>, ss: seq<Step>)
    requires StoreInv(c) && call.node in c.hosts && Valid(c.hosts[call.node]) && Valid(after)
    requires Parse(call.handle).Some? && call !in c.growths && (read ==> Lookup(c.pvs, call.handle).Some?)
    requires Grown(c.pvs, c.hosts[call.node], call.handle, required, r, read, pvs, after)
    ensures DoesExpand(c, call, r, pvs, after, cs, ss)
  {
    hide Next, Valid, Parse, Expanded, DoesExpand, HostsInv, OffersInv, PvsInv;
    var h, v := c.hosts[call.node], call.handle;
    var e :| Expanded(h, v, required, e, after) && (r.Ok? ==> e == r) && (e.Err? ==> r.Err? && pvs == c.pvs);
    ExpandedMeaning(h, v, required, e, after);
    if e.Err? || !read {
      cs, ss := ExpandUnrecorded(c, call, required, e, read, after);
      WeakerAnswer(c, call, e, r, pvs, after, cs, ss);
    } else {
      SizePositive(h, v, required, e, after);
      cs, ss := ExpandRecorded(c, call, required, e.value, r.Ok?, after);
      WeakerAnswer(c, call, if r.Ok? then e else Err(Fault), r, pvs, after, cs, ss);
    }
  }

  lemma WeakerAnswer(c: Cluster, call: Call, e: Result<int>, r: Result<int>, pvs: Pvs, after: Host,
                     cs: seq<Cluster>, ss: seq<Step>)
    requires DoesExpand(c, call, e, pvs, after, cs, ss) && (r.Ok? ==> e == r)
    ensures DoesExpand(c, call, r, pvs, after, cs, ss)
  {
    hide Path;
  }

  lemma SizePositive(h: Host, v: string, required: int, e: Result<int>, after: Host)
    requires Valid(h) && Expanded(h, v, required, e, after) && e.Ok?
    ensures e.value > 0
  {
    hide Parse, ValidName, Fits;
    ExpandedMeaning(h, v, required, e, after);
  }

  // ---------------------------------------------------------------- failover reconcile

  /** What Gc.Reconcile may do to a node when it decides to clean up is a check followed by a delete. */
  lemma ReconcileIsPath(c: Cluster, node: string, name: string, after: Host) returns (cs: seq<Cluster>, ss: seq<Step>)
    requires node in c.hosts && name in c.pvs && Reconciles(c.pvs[name], node) == Clean && Valid(after)
    requires Parse(c.pvs[name].csi.value.handle).Some?
    requires AtMostDropped(c.hosts[node], Parse(c.pvs[name].csi.value.handle).value, after)
    requires Task(node, Reconciler, c.pvs[name].csi.value.handle) !in c.pending
    ensures Path(cs, ss) && cs[0] == c && cs[|ss|] == c.(hosts := c.hosts[node := after])
  {
    hide Valid, Parse, AtMostDropped, Mismatch;
    var t := Task(node, Reconciler, c.pvs[name].csi.value.handle);
    var c1, c2 := c.(pending := c.pending + {t}), c.(hosts := c.hosts[node := after]);
    assert c1.pending - {t} == c.pending;
    assert Next(c, ReconcileCheck(node, name), c1) && Next(c1, GcDelete(t, after), c2);
    cs, ss := [c, c1, c2], [ReconcileCheck(node, name), GcDelete(t, after)];
  }

  // ---------------------------------------------------------------- convergence

  /** From every reachable state, once the PVs stay as they are, one fault-free scan per node
      leaves each volume of a scanned group only where a PV of the driver carries its handle
      and the owner on record, if any, is that node; and a further scan changes no volume. */
  lemma ReachableConverges(cs: seq<Cluster>, ss: seq<Step>, i: nat, visits: seq<Fleet.Visit>, node: string, again: Host)
    requires IsRun(cs, ss) && i < |cs| && node in cs[i].hosts
    requires Fleet.ScanRun(cs[i].hosts, cs[i].pvs, visits)
    requires exists k :: 0 <= k < |visits| && visits[k].node == node
    ensures var last := Fleet.HostAt(cs[i].hosts, visits, |visits|, node);
            && Fleet.Settled(last, cs[i].pvs, node)
            && (Fleet.Swept(last, cs[i].pvs, node, again) ==> again.lvs == last.lvs)
  {
    hide Next, Parse, Valid, GoodPv;
    StoreHolds(cs, ss, i);
    HandlesUnique(cs[i]);
    Fleet.Converges(cs[i].hosts, cs[i].pvs, visits, node, again);
  }
}
