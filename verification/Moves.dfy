/** Single moves of the protocol, for building runs: each lemma gives the cluster that a call
    leads to from a cluster in which it can be made. */
module Moves {
  import opened Text
  import opened VolumeIds
  import opened Probe
  import opened Lvm
  import opened Provisioner
  import opened Kube
  import opened Ownership
  import opened Volumes
  import opened Servers
  import opened Gc
  import opened Protocol

  // ---------------------------------------------------------------- stages

  /** A stage on a node that is on record, or with no owner on record, claims at once. */
  lemma ReadsOwn(c: Cluster, call: Call) returns (c': Cluster)
    requires call.node in c.hosts && call !in c.stages && Lookup(c.pvs, call.handle).Some?
    requires StageUpdate(Lookup(c.pvs, call.handle).value, call.node).None?
    ensures Next(c, StageGet(call), c')
    ensures c' == c.(stages := c.stages[call := Claimed(StageRequest(Lookup(c.pvs, call.handle).value))],
                     claims := c.claims[call.handle := NewClaim(c, call.node, call.handle)])
  {
    hide Lookup, StageUpdate, StageRequest, UnderGc;
    c' := c.(stages := c.stages[call := Claimed(StageRequest(Lookup(c.pvs, call.handle).value))],
             claims := c.claims[call.handle := NewClaim(c, call.node, call.handle)]);
  }

  /** A stage on another node reads the PV and moves the record to its node. */
  lemma TakesOver(c: Cluster, call: Call, name: string) returns (c1: Cluster, c2: Cluster)
    requires StoreInv(c) && call.node in c.hosts && name in c.pvs && call !in c.stages
    requires Carries(c.pvs[name], call.handle) && StageUpdate(c.pvs[name], call.node).Some?
    ensures Next(c, StageGet(call), c1) && Next(c1, StagePatch(call, true), c2)
    ensures c1 == c.(stages := c.stages[call := Fetched])
    ensures c2 == c.(pvs := c.pvs[name := SetOwner(c.pvs[name], call.node)],
                     stages := c.stages[call := Claimed(StageRequest(c.pvs[name]))],
                     claims := c.claims[call.handle := NewClaim(c, call.node, call.handle)])
  {
    hide Valid, Parse, StageRequest, StageUpdate, UnderGc;
    var pv := c.pvs[name];
    assert GoodPv(c.hosts.Keys, name, pv);
    LookupStored(c, name);
    c1 := c.(stages := c.stages[call := Fetched]);
    assert c1.stages[call := Claimed(StageRequest(pv))] == c.stages[call := Claimed(StageRequest(pv))];
    SameTasks(c, c1, call.node, call.handle);
    c2 := c1.(pvs := c.pvs[name := SetOwner(pv, call.node)], stages := c.stages[call := Claimed(StageRequest(pv))],
              claims := c.claims[call.handle := NewClaim(c, call.node, call.handle)]);
  }

  lemma SameTasks(c: Cluster, c': Cluster, n: string, v: string)
    requires c'.pending == c.pending
    ensures UnderGc(c', n, v) == UnderGc(c, n, v)
  {
  }

  /** A stage whose patch fails changes nothing. */
  lemma PatchFails(c: Cluster, call: Call) returns (c1: Cluster)
    requires call.node in c.hosts && call !in c.stages && Lookup(c.pvs, call.handle).Some?
    requires StageUpdate(Lookup(c.pvs, call.handle).value, call.node).Some?
    ensures Next(c, StageGet(call), c1) && Next(c1, StagePatch(call, false), c)
  {
    hide Lookup, StageUpdate, StageRequest, UnderGc;
    c1 := c.(stages := c.stages[call := Fetched]);
    assert c1.stages - {call} == c.stages;
  }

  /** The stage makes its volume, or fails to, and mounts it or not. */
  lemma Makes(c: Cluster, call: Call, r: Result<int>, mounted: bool, after: Host) returns (c': Cluster)
    requires call in c.stages && c.stages[call].Claimed? && c.stages[call].want.Some?
    requires call.node in c.hosts && Valid(c.hosts[call.node]) && Valid(after)
    requires var q := c.stages[call].want.value;
             Ensured(c.hosts[call.node], c.filter, call.handle, q.capacity, q.limit, r, after)
    ensures Next(c, StageEnsure(call, r, mounted, after), c')
    ensures c' == c.(hosts := c.hosts[call.node := after], stages := c.stages - {call},
                     staged := if r.Ok? && mounted then c.staged[call.handle := call.node] else c.staged)
  {
    hide Valid, Ensured;
    c' := c.(hosts := c.hosts[call.node := after], stages := c.stages - {call},
             staged := if r.Ok? && mounted then c.staged[call.handle := call.node] else c.staged);
  }

  /** A stage that could not read the PV mounts what it finds. */
  lemma StagesBlind(c: Cluster, n: string, v: string) returns (c': Cluster)
    requires n in c.hosts
    ensures Next(c, StageBlind(n, v), c') && c' == c.(staged := c.staged[v := n])
  {
    c' := c.(staged := c.staged[v := n]);
  }

  /** EnsureVolume may fail on any request and leave everything as it was. */
  lemma FailingEnsure(h: Host, f: Filter, q: Request, v: string) returns (r: Result<int>)
    requires Valid(h)
    ensures r.Err? && Ensured(h, f, v, q.capacity, q.limit, r, h)
  {
    hide Valid, Parse, ValidName;
    if Parse(v).None? || BadRange(q.capacity, q.limit) { return Err(InvalidArgument); }
    return Err(Fault);
  }

  /** A healthy volume that meets the request. */
  ghost predicate OnHand(h: Host, q: Request, v: string) {
    && Parse(v).Some? && Parse(v).value in h.lvs && Parse(v).value in h.nodes && !BadRange(q.capacity, q.limit)
    && Existing(h.lvs[Parse(v).value].size, q.capacity, q.limit).Ok?
  }

  lemma FindingEnsure(h: Host, f: Filter, q: Request, v: string) returns (r: Result<int>)
    requires Valid(h) && OnHand(h, q, v)
    ensures r.Ok? && Ensured(h, f, v, q.capacity, q.limit, r, h)
  {
    hide Parse, ValidName;
    r := Existing(h.lvs[Parse(v).value].size, q.capacity, q.limit);
  }

  /** A node loses volumes or device files. */
  lemma Loses(c: Cluster, n: string, after: Host) returns (c': Cluster)
    requires n in c.hosts && Valid(after) && Decays(c.hosts[n], after)
    ensures Next(c, HostEvent(n, after), c') && c' == c.(hosts := c.hosts[n := after])
  {
    hide Valid, Decays;
    c' := c.(hosts := c.hosts[n := after]);
  }

  // ---------------------------------------------------------------- expansions

  lemma Looks(c: Cluster, call: Call, read: bool) returns (c': Cluster)
    requires call.node in c.hosts && call !in c.growths && (read ==> Lookup(c.pvs, call.handle).Some?)
    ensures Next(c, GrowGet(call, read), c')
    ensures var copy := if read then Some(Annotation(Lookup(c.pvs, call.handle).value, ExpandedKey)) else None;
            c' == c.(growths := c.growths[call := Looked(copy)])
  {
    hide Lookup, Annotation;
    var copy := if read then Some(Annotation(Lookup(c.pvs, call.handle).value, ExpandedKey)) else None;
    c' := c.(growths := c.growths[call := Looked(copy)]);
  }

  lemma Extends(c: Cluster, call: Call, required: int, size: int, after: Host) returns (c': Cluster)
    requires call in c.growths && c.growths[call].Looked? && c.growths[call].seen.Some?
    requires call.node in c.hosts && Valid(c.hosts[call.node]) && Valid(after) && Parse(call.handle).Some?
    requires Expanded(c.hosts[call.node], call.handle, required, Ok(size), after)
    ensures Next(c, GrowLv(call, required, Ok(size), after), c')
    ensures c' == c.(hosts := c.hosts[call.node := after],
                     growths := c.growths[call := Extended(c.growths[call].seen.value, size)])
  {
    hide Valid, Parse, Expanded;
    c' := c.(hosts := c.hosts[call.node := after],
             growths := c.growths[call := Extended(c.growths[call].seen.value, size)]);
  }

  /** The extend fails, or its size is reported at once for want of the PV. */
  lemma ExtendsUnread(c: Cluster, call: Call, required: int, e: Result<int>, after: Host) returns (c': Cluster)
    requires call in c.growths && c.growths[call].Looked? && (e.Ok? ==> c.growths[call].seen.None?)
    requires call.node in c.hosts && Valid(c.hosts[call.node]) && Valid(after) && Parse(call.handle).Some?
    requires Expanded(c.hosts[call.node], call.handle, required, e, after)
    ensures Next(c, GrowLv(call, required, e, after), c')
    ensures var v := call.handle;
            c' == c.(hosts := c.hosts[call.node := after], growths := c.growths - {call},
                     reported := if e.Ok? then c.reported[v := Larger(c.reported, v, e.value)] else c.reported)
  {
    hide Valid, Parse, Expanded;
    var v := call.handle;
    c' := c.(hosts := c.hosts[call.node := after], growths := c.growths - {call},
             reported := if e.Ok? then c.reported[v := Larger(c.reported, v, e.value)] else c.reported);
  }

  lemma Writes(c: Cluster, call: Call) returns (c': Cluster)
    requires call in c.growths && c.growths[call].Extended? && c.growths[call].size >= 0
    requires Lookup(c.pvs, call.handle).Some?
    ensures Next(c, GrowPatch(call, true), c')
    ensures var size := c.growths[call].size;
            c' == c.(pvs := Recorded(c, call.handle, c.growths[call].copy, size), growths := c.growths - {call},
                     reported := c.reported[call.handle := Larger(c.reported, call.handle, size)])
  {
    hide Lookup, Recorded;
    var size := c.growths[call].size;
    c' := c.(pvs := Recorded(c, call.handle, c.growths[call].copy, size), growths := c.growths - {call},
             reported := c.reported[call.handle := Larger(c.reported, call.handle, size)]);
  }

  // ---------------------------------------------------------------- collectors

  /** The failover reconciler on `n` sees the mismatch and removes the volume. */
  lemma Collects(c: Cluster, n: string, name: string, after: Host) returns (c1: Cluster, c2: Cluster)
    requires n in c.hosts && name in c.pvs && Reconciles(c.pvs[name], n) == Clean && Valid(after)
    requires var v := c.pvs[name].csi.value.handle;
             Parse(v).Some? && AtMostDropped(c.hosts[n], Parse(v).value, after)
    ensures var t := Task(n, Reconciler, c.pvs[name].csi.value.handle);
            Next(c, ReconcileCheck(n, name), c1) && Next(c1, GcDelete(t, after), c2)
    ensures c2 == c.(hosts := c.hosts[n := after], pending := c2.pending)
  {
    hide Valid, Parse, Mismatch, AtMostDropped;
    var t := Task(n, Reconciler, c.pvs[name].csi.value.handle);
    c1 := c.(pending := c.pending + {t});
    c2 := c1.(hosts := c.hosts[n := after], pending := c1.pending - {t});
  }

  lemma BeginsScan(c: Cluster, n: string) returns (c': Cluster)
    requires n in c.hosts && n !in c.scans
    ensures Next(c, ScanBegin(n), c')
    ensures c' == c.(scans := c.scans[n := Scan(c.nextScan, false)], nextScan := c.nextScan + 1)
  {
    c' := c.(scans := c.scans[n := Scan(c.nextScan, false)], nextScan := c.nextScan + 1);
  }

  /** The scan on `n` finds the volume orphaned. */
  lemma Flags(c: Cluster, n: string, v: string) returns (c': Cluster)
    requires n in c.hosts && n in c.scans && !c.scans[n].deleting && Orphaned(c.pvs, n, v)
    ensures Next(c, ScanCheck(n, v), c')
    ensures c' == c.(pending := c.pending + {Task(n, Scanner(c.scans[n].id), v)})
  {
    hide Orphaned;
    c' := c.(pending := c.pending + {Task(n, Scanner(c.scans[n].id), v)});
  }

  /** A volume whose PV is owned elsewhere is orphaned. */
  lemma OwnedElsewhere(c: Cluster, n: string, name: string, v: string)
    requires PvsInv(c) && name in c.pvs && Carries(c.pvs[name], v) && StageUpdate(c.pvs[name], n).Some?
    ensures Orphaned(c.pvs, n, v)
  {
    hide Parse, StageUpdate, StageRequest, Mismatch;
    LookupStored(c, name);
    HandlesUnique(c);
    MismatchMeaning(c.pvs[name], n);
  }

  /** The scan goes on to its deletes, and removes the volume. */
  lemma Deletes(c: Cluster, t: Task, after: Host) returns (c1: Cluster, c2: Cluster)
    requires t in c.pending && t.actor.Scanner? && t.node in c.hosts && Parse(t.handle).Some? && Valid(after)
    requires t.node in c.scans && c.scans[t.node] == Scan(t.actor.id, false)
    requires AtMostDropped(c.hosts[t.node], Parse(t.handle).value, after)
    ensures Next(c, ScanSwitch(t.node), c1) && Next(c1, GcDelete(t, after), c2)
    ensures c2 == c.(hosts := c.hosts[t.node := after], scans := c2.scans, pending := c.pending - {t})
  {
    hide Valid, Parse, AtMostDropped;
    c1 := c.(scans := c.scans[t.node := c.scans[t.node].(deleting := true)]);
    c2 := c1.(hosts := c.hosts[t.node := after], pending := c.pending - {t});
  }

  lemma Goes(c: Cluster, name: string) returns (c': Cluster)
    requires name in c.pvs && c.pvs[name].csi.Some?
    ensures Next(c, PvGone(name), c')
    ensures c' == c.(pvs := c.pvs - {name}, claims := c.claims - {c.pvs[name].csi.value.handle})
  {
    c' := c.(pvs := c.pvs - {name}, claims := c.claims - {c.pvs[name].csi.value.handle});
  }

  lemma RemovedIsGone(h: Host, id: VolumeId, h': Host)
    requires LvRemoved(h, id, h')
    ensures id !in h'.lvs && AtMostDropped(h, id, h')
  {
    RemovedIsDropped(h, id, h');
  }
}
