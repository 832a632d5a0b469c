/** The ownership, failover and garbage-collection protocol of a cluster in webhook mode.

    The state is the PV store, the LVM state of every node, and the calls in flight. Every
    actor steps it concurrently: a CreateVolume, a NodeStageVolume in its three phases (read
    the PV, patch the owner record, make the volume), a NodeExpandVolume in its three phases
    (read the PV, extend the volume, patch the size record), the failover reconciler and the
    orphan scanner with their checks and deletes apart, DeleteVolume on any node, and the
    environment. Any number of calls may overlap, on one node and volume too. History fields
    record what the properties speak about. */
module Protocol {
  import opened Text
  import opened VolumeIds
  import opened Probe
  import opened Lvm
  import opened Provisioner
  import opened Kube
  import opened Ownership
  import opened Volumes
  import opened Servers
  import opened Gc

  /** A CreateVolume answer that the provisioner may turn into a PV. */
  datatype Offer = Offer(node: string, volume: Volume)

  /** A call to a node server: where, for which volume, and which one of possibly many. */
  datatype Call = Call(node: string, handle: string, id: nat)

  /** A stage in flight: it still has to patch the owner record, or the record names its node
      and the volume is next, as the stage's copy of the PV asks for it. */
  datatype Stage = Fetched | Claimed(want: Option<Request>)

  /** An expansion in flight. It has tried to read the PV, and holds the expanded-capacity
      annotation of its copy if it could; then it has extended the volume, and the patch is
      next. */
  datatype Growth = Looked(seen: Option<Option<string>>) | Extended(copy: Option<string>, size: int)

  datatype Scan = Scan(id: nat, deleting: bool)

  datatype Actor = Scanner(id: nat) | Reconciler

  /** A volume that a collector on a node has decided to remove. */
  datatype Task = Task(node: string, actor: Actor, handle: string)

  /** The latest stage that found or put its node on record, and whether a removal of the
      volume on that node was already decided then. */
  datatype Claim = Claim(node: string, duringGc: bool)

  datatype Cluster = Cluster(
    filter: Filter,
    pvs: Pvs,
    hosts: Hosts,
    offers: set<Offer>,
    used: set<string>,                      // PV names are never reused
    stages: map<Call, Stage>,
    growths: map<Call, Growth>,
    scans: map<string, Scan>,
    nextScan: nat,
    pending: set<Task>,
    claims: map<string, Claim>,             // history, by handle
    staged: map<string, string>,            // history: node of the latest successful stage
    reported: map<string, int>)             // history: largest size reported

  datatype Step =
    | CreateLv(node: string, vgParam: string, name: string, required: int, limit: int, params: Strings,
               floating: bool, r: Result<int>, after: Host)
    | CreatePv(offer: Offer, pv: PersistentVolume)
    | StageGet(call: Call)
    | StagePatch(call: Call, ok: bool)
    | StageEnsure(call: Call, r: Result<int>, mounted: bool, after: Host)
    | StageBlind(node: string, handle: string)
    | StageAbort(call: Call)
    | GrowGet(call: Call, read: bool)
    | GrowLv(call: Call, required: int, r: Result<int>, after: Host)
    | GrowPatch(call: Call, ok: bool)
    | GrowAbort(call: Call)
    | ScanBegin(node: string)
    | ScanCheck(node: string, handle: string)
    | ScanSwitch(node: string)
    | ScanEnd(node: string)
    | ReconcileCheck(node: string, name: string)
    | GcDelete(task: Task, after: Host)
    | DeleteCall(node: string, handle: string, after: Host)
    | PvStatus(name: string, phase: Phase, deleting: bool, finalizers: seq<string>)
    | PvGone(name: string)
    | HostEvent(node: string, after: Host)

  // ---------------------------------------------------------------- steps

  /** The PV a handle belongs to: PVs are named after their logical volume. */
  function Lookup(pvs: Pvs, handle: string): Option<PersistentVolume> {
    match Parse(handle)
    case None => None
    case Some(id) => if id.lv in pvs && Carries(pvs[id.lv], handle) then Some(pvs[id.lv]) else None
  }

  predicate UnderGc(c: Cluster, node: string, handle: string) {
    exists t :: t in c.pending && t.node == node && t.handle == handle
  }

  function NewClaim(c: Cluster, node: string, handle: string): Claim {
    Claim(node, UnderGc(c, node, handle))
  }

  /** The volume context of a successful create: a floating volume names its first node. */
  function OfferContext(s: Step): Strings
    requires s.CreateLv? && s.r.Ok?
  {
    var sized := if s.r.value >= 0 && s.limit >= 0
                 then s.params[CapacityKey := PrintNat(s.r.value)][LimitKey := PrintNat(s.limit)] else s.params;
    if s.floating then sized[InitialNode := s.node] else sized
  }

  ghost predicate DoCreateLv(c: Cluster, s: Step, c': Cluster)
    requires s.CreateLv?
  {
    var id := VolumeId(GroupName(s.vgParam), s.name);
    && s.node in c.hosts && Valid(c.hosts[s.node]) && s.name !in c.used && InitialNode !in s.params
    && Ensured(c.hosts[s.node], c.filter, Print(id), CreateCapacity(s.required, s.limit), s.limit, s.r, s.after)
    && Valid(s.after)
    && c' == c.(hosts := c.hosts[s.node := s.after],
                offers := if s.r.Ok? then c.offers + {Offer(s.node, Volume(s.r.value, Print(id), OfferContext(s)))}
                          else c.offers)
  }

  ghost predicate DoCreatePv(c: Cluster, s: Step, c': Cluster)
    requires s.CreatePv?
  {
    var v := s.offer.volume;
    && s.offer in c.offers && Parse(v.handle).Some?
    && var name := Parse(v.handle).value.lv;
       && name !in c.used && s.pv.name == name
       && s.pv.csi == Some(Csi(DRIVER_NAME, v.handle, Some(v.context)))
       && SelectedNode !in s.pv.annotations && ExpandedKey !in s.pv.annotations
       && c' == c.(pvs := c.pvs[name := s.pv], used := c.used + {name}, reported := c.reported[v.handle := v.capacity])
  }

  ghost predicate DoStageGet(c: Cluster, s: Step, c': Cluster)
    requires s.StageGet?
  {
    && s.call.node in c.hosts && s.call !in c.stages && Lookup(c.pvs, s.call.handle).Some?
    && var pv := Lookup(c.pvs, s.call.handle).value;
       var owner := StageUpdate(pv, s.call.node).None?;
       c' == c.(stages := c.stages[s.call := if owner then Claimed(StageRequest(pv)) else Fetched],
                claims := if owner then c.claims[s.call.handle := NewClaim(c, s.call.node, s.call.handle)]
                          else c.claims)
  }

  ghost predicate DoStagePatch(c: Cluster, s: Step, c': Cluster)
    requires s.StagePatch?
  {
    var v := s.call.handle;
    && s.call in c.stages && c.stages[s.call].Fetched? && s.call.node in c.hosts
    && (s.ok ==> Lookup(c.pvs, v).Some?)
    && c' == c.(pvs := if s.ok then Patched(c, s.call.node, v) else c.pvs,
                stages := if s.ok then c.stages[s.call := Claimed(StageRequest(Lookup(c.pvs, v).value))]
                          else c.stages - {s.call},
                claims := if s.ok then c.claims[v := NewClaim(c, s.call.node, v)] else c.claims)
  }

  /** The PVs after a merge patch of the owner record; it leaves the recorded size as it is. */
  function Patched(c: Cluster, node: string, handle: string): Pvs
    requires Lookup(c.pvs, handle).Some?
  {
    c.pvs[Parse(handle).value.lv := SetOwner(Lookup(c.pvs, handle).value, node)]
  }

  ghost predicate DoStageEnsure(c: Cluster, s: Step, c': Cluster)
    requires s.StageEnsure?
  {
    var n := s.call.node;
    && s.call in c.stages && c.stages[s.call].Claimed? && n in c.hosts && Valid(c.hosts[n]) && Valid(s.after)
    && (match c.stages[s.call].want
        case None => s.r.Err? && s.after == c.hosts[n]
        case Some(q) => Ensured(c.hosts[n], c.filter, s.call.handle, q.capacity, q.limit, s.r, s.after))
    && c' == c.(hosts := c.hosts[n := s.after], stages := c.stages - {s.call},
                staged := if s.r.Ok? && s.mounted then c.staged[s.call.handle := n] else c.staged)
  }

  function Larger(m: map<string, int>, k: string, v: int): int {
    if k in m && m[k] > v then m[k] else v
  }

  /** A failed read is only logged, and the expansion goes on without the PV. */
  ghost predicate DoGrowGet(c: Cluster, s: Step, c': Cluster)
    requires s.GrowGet?
  {
    && s.call.node in c.hosts && s.call !in c.growths && (s.read ==> Lookup(c.pvs, s.call.handle).Some?)
    && var copy := if s.read then Some(Annotation(Lookup(c.pvs, s.call.handle).value, ExpandedKey)) else None;
       c' == c.(growths := c.growths[s.call := Looked(copy)])
  }

  /** The volume is extended and its size read again. Without the PV the size is reported at
      once. */
  ghost predicate DoGrowLv(c: Cluster, s: Step, c': Cluster)
    requires s.GrowLv?
  {
    var n, v := s.call.node, s.call.handle;
    && s.call in c.growths && c.growths[s.call].Looked? && n in c.hosts && Valid(c.hosts[n]) && Valid(s.after)
    && Parse(v).Some? && Expanded(c.hosts[n], v, s.required, s.r, s.after)
    && var copy := c.growths[s.call].seen;
       c' == c.(hosts := c.hosts[n := s.after],
                growths := if s.r.Ok? && copy.Some? then c.growths[s.call := Extended(copy.value, s.r.value)]
                           else c.growths - {s.call},
                reported := if s.r.Ok? && copy.None? then c.reported[v := Larger(c.reported, v, s.r.value)]
                            else c.reported)
  }

  /** The size is recorded and then reported. */
  ghost predicate DoGrowPatch(c: Cluster, s: Step, c': Cluster)
    requires s.GrowPatch?
  {
    var v := s.call.handle;
    && s.call in c.growths && c.growths[s.call].Extended? && c.growths[s.call].size >= 0
    && (s.ok ==> Lookup(c.pvs, v).Some?)
    && var size := c.growths[s.call].size;
       c' == c.(pvs := if s.ok then Recorded(c, v, c.growths[s.call].copy, size) else c.pvs,
                growths := c.growths - {s.call},
                reported := if s.ok then c.reported[v := Larger(c.reported, v, size)] else c.reported)
  }

  /** The PVs after a merge patch of the size record. The patch is the difference to the copy,
      so a size that the copy already had is not sent. */
  function Recorded(c: Cluster, handle: string, copy: Option<string>, size: nat): Pvs
    requires Lookup(c.pvs, handle).Some?
  {
    if copy == Some(PrintNat(size)) then c.pvs
    else c.pvs[Parse(handle).value.lv := SetExpanded(Lookup(c.pvs, handle).value, size)]
  }

  ghost predicate DoScan(c: Cluster, s: Step, c': Cluster)
    requires s.ScanBegin? || s.ScanCheck? || s.ScanSwitch? || s.ScanEnd?
  {
    match s
    case ScanBegin(n) =>
      && n in c.hosts && n !in c.scans
      && c' == c.(scans := c.scans[n := Scan(c.nextScan, false)], nextScan := c.nextScan + 1)
    case ScanCheck(n, v) =>
      && n in c.scans && !c.scans[n].deleting && n in c.hosts
      && c' == c.(pending := if Orphaned(c.pvs, n, v) then c.pending + {Task(n, Scanner(c.scans[n].id), v)}
                             else c.pending)
    case ScanSwitch(n) =>
      n in c.scans && !c.scans[n].deleting && c' == c.(scans := c.scans[n := c.scans[n].(deleting := true)])
    case ScanEnd(n) =>
      && n in c.scans && c.scans[n].deleting
      && c' == c.(scans := c.scans - {n},
                  pending := set t | t in c.pending && !(t.node == n && t.actor == Scanner(c.scans[n].id)))
  }

  ghost predicate DoGc(c: Cluster, s: Step, c': Cluster)
    requires s.ReconcileCheck? || s.GcDelete?
  {
    match s
    case ReconcileCheck(n, name) =>
      && n in c.hosts && name in c.pvs
      && c' == c.(pending := if Reconciles(c.pvs[name], n) == Clean
                             then c.pending + {Task(n, Reconciler, c.pvs[name].csi.value.handle)} else c.pending)
    case GcDelete(t, after) =>
      && t in c.pending && t.node in c.hosts && Parse(t.handle).Some? && Valid(after)
      && (t.actor.Scanner? ==> t.node in c.scans && c.scans[t.node] == Scan(t.actor.id, true))
      && AtMostDropped(c.hosts[t.node], Parse(t.handle).value, after)
      && c' == c.(hosts := c.hosts[t.node := after], pending := c.pending - {t})
  }

  ghost predicate DoPv(c: Cluster, s: Step, c': Cluster)
    requires s.PvStatus? || s.PvGone?
  {
    match s
    case PvStatus(name, phase, deleting, finalizers) =>
      && name in c.pvs
      && c' == c.(pvs := c.pvs[name := c.pvs[name].(phase := phase, deleting := deleting, finalizers := finalizers)])
    case PvGone(name) =>
      && name in c.pvs && c.pvs[name].csi.Some?
      && c' == c.(pvs := c.pvs - {name}, claims := c.claims - {c.pvs[name].csi.value.handle})
  }

  ghost predicate DoHost(c: Cluster, s: Step, c': Cluster)
    requires s.DeleteCall? || s.HostEvent?
  {
    && s.node in c.hosts && Valid(s.after)
    && (if s.DeleteCall? then Deleted(c.pvs, s.node, s.handle, c.hosts[s.node], s.after)
        else Decays(c.hosts[s.node], s.after))
    && c' == c.(hosts := c.hosts[s.node := s.after])
  }

  /** Volumes or device files are lost, mounts come and go. */
  ghost predicate Decays(h: Host, h': Host) {
    forall id :: id in h'.lvs ==> id in h.lvs && h'.lvs[id].size == h.lvs[id].size
  }

  ghost predicate DoRest(c: Cluster, s: Step, c': Cluster)
    requires s.StageBlind? || s.StageAbort? || s.GrowAbort?
  {
    match s
    case StageBlind(n, v) =>   // the PV could not be read, yet the mount succeeded
      n in c.hosts && c' == c.(staged := c.staged[v := n])
    case StageAbort(call) => c' == c.(stages := c.stages - {call})
    case GrowAbort(call) => c' == c.(growths := c.growths - {call})
  }

  ghost predicate Next(c: Cluster, s: Step, c': Cluster) {
    match s
    case CreateLv(_, _, _, _, _, _, _, _, _) => DoCreateLv(c, s, c')
    case CreatePv(_, _) => DoCreatePv(c, s, c')
    case StageGet(_) => DoStageGet(c, s, c')
    case StagePatch(_, _) => DoStagePatch(c, s, c')
    case StageEnsure(_, _, _, _) => DoStageEnsure(c, s, c')
    case GrowGet(_, _) => DoGrowGet(c, s, c')
    case GrowLv(_, _, _, _) => DoGrowLv(c, s, c')
    case GrowPatch(_, _) => DoGrowPatch(c, s, c')
    case ScanBegin(_) => DoScan(c, s, c')
    case ScanCheck(_, _) => DoScan(c, s, c')
    case ScanSwitch(_) => DoScan(c, s, c')
    case ScanEnd(_) => DoScan(c, s, c')
    case ReconcileCheck(_, _) => DoGc(c, s, c')
    case GcDelete(_, _) => DoGc(c, s, c')
    case PvStatus(_, _, _, _) => DoPv(c, s, c')
    case PvGone(_) => DoPv(c, s, c')
    case DeleteCall(_, _, _) => DoHost(c, s, c')
    case HostEvent(_, _) => DoHost(c, s, c')
    case _ => DoRest(c, s, c')
  }

  /** Node names are non-empty and differ in more than letter case. */
  ghost predicate GoodNames(nodes: set<string>) {
    "" !in nodes && forall a, b :: a in nodes && b in nodes && EqualFold(a, b) ==> a == b
  }

  /** Names without capitals, the only ones Kubernetes gives to nodes, are good names. */
  lemma LowerCaseNames(nodes: set<string>)
    requires "" !in nodes && forall n :: n in nodes ==> NoCapitals(n)
    ensures GoodNames(nodes)
  {
    forall a, b | a in nodes && b in nodes && EqualFold(a, b)
      ensures a == b
    {
      FoldWithoutCapitals(a, b);
    }
  }

  ghost predicate Init(c: Cluster) {
    && GoodNames(c.hosts.Keys) && (forall n :: n in c.hosts ==> Valid(c.hosts[n]))
    && c.pvs == map[] && c.offers == {} && c.used == {} && c.stages == map[] && c.growths == map[]
    && c.scans == map[] && c.pending == {} && c.claims == map[] && c.staged == map[] && c.reported == map[]
  }

  // ---------------------------------------------------------------- runs

  /** `cs[i + 1]` is the cluster after step `ss[i]`. */
  ghost predicate Path(cs: seq<Cluster>, ss: seq<Step>) {
    |cs| == |ss| + 1 && forall i :: 0 <= i < |ss| ==> At(cs, ss, i)
  }

  ghost predicate IsRun(cs: seq<Cluster>, ss: seq<Step>) {
    Path(cs, ss) && Init(cs[0])
  }

  ghost predicate At(cs: seq<Cluster>, ss: seq<Step>, i: nat)
    requires i < |ss| && |cs| == |ss| + 1
  {
    Next(cs[i], ss[i], cs[i + 1])
  }

  /** A run goes on with any path from where it is. */
  lemma Continues(cs: seq<Cluster>, ss: seq<Step>, more: seq<Cluster>, steps: seq<Step>)
    requires IsRun(cs, ss) && Path(more, steps) && more[0] == cs[|ss|]
    ensures IsRun(cs + more[1..], ss + steps)
    ensures forall i :: 0 <= i <= |steps| ==> (cs + more[1..])[|ss| + i] == more[i]
  {
    hide Next, Init;
    var all, every := cs + more[1..], ss + steps;
    forall i | 0 <= i < |every|
      ensures At(all, every, i)
    {
      if i < |ss| {
        assert At(cs, ss, i);
      } else {
        assert At(more, steps, i - |ss|);
        assert all[i + 1] == more[i - |ss| + 1];
      }
    }
  }

  // ---------------------------------------------------------------- what the store holds

  /** A PV of the driver: named after its volume, with a size on record, and every node it
      names as owner is a node of the cluster. */
  ghost predicate GoodPv(nodes: set<string>, name: string, pv: PersistentVolume) {
    && Ours(pv) && Parse(pv.csi.value.handle).Some? && Parse(pv.csi.value.handle).value.lv == name
    && StageRequest(pv).Some?
    && (Annotation(pv, SelectedNode).Some? ==> Annotation(pv, SelectedNode).value in nodes)
    && (Attribute(pv, InitialNode).Some? ==> Attribute(pv, InitialNode).value in nodes)
  }

  ghost predicate GoodOffer(nodes: set<string>, o: Offer) {
    var v := o.volume;
    && v.capacity >= 0
    && (exists limit :: Records(v.context, v.capacity, limit))
    && (InitialNode in v.context ==> v.context[InitialNode] in nodes)
  }

  predicate Records(context: Strings, capacity: nat, limit: nat) {
    && CapacityKey in context && context[CapacityKey] == PrintNat(capacity)
    && LimitKey in context && context[LimitKey] == PrintNat(limit)
  }

  ghost predicate HostsInv(c: Cluster) {
    GoodNames(c.hosts.Keys) && forall n :: n in c.hosts ==> Valid(c.hosts[n])
  }

  ghost predicate OffersInv(c: Cluster) {
    forall o :: o in c.offers ==> GoodOffer(c.hosts.Keys, o)
  }

  ghost predicate PvsInv(c: Cluster) {
    forall name :: name in c.pvs ==> name in c.used && GoodPv(c.hosts.Keys, name, c.pvs[name])
  }

  ghost predicate StoreInv(c: Cluster) {
    HostsInv(c) && OffersInv(c) && PvsInv(c)
  }

  /** What each kind of step leaves alone. */
  ghost predicate Frame(c: Cluster, s: Step, c': Cluster) {
    && c'.filter == c.filter && c'.hosts.Keys == c.hosts.Keys
    && (forall n :: n in c'.hosts ==> c'.hosts[n] == c.hosts[n] || Valid(c'.hosts[n]))
    && (c'.hosts == c.hosts || s.CreateLv? || s.StageEnsure? || s.GrowLv? || s.GcDelete? || s.DeleteCall? ||
        s.HostEvent?)
    && (c'.offers == c.offers || s.CreateLv?)
    && (c'.pvs == c.pvs || s.CreatePv? || s.StagePatch? || s.GrowPatch? || s.PvStatus? || s.PvGone?)
    && (c'.used == c.used || s.CreatePv?)
    && (c'.claims == c.claims || s.StageGet? || s.StagePatch? || s.PvGone?)
    && (c'.pending <= c.pending || s.ScanCheck? || s.ReconcileCheck?)
    && (c'.scans == c.scans || s.ScanBegin? || s.ScanSwitch? || s.ScanEnd?) && c.nextScan <= c'.nextScan
    && (s.StageGet? || s.StagePatch? || forall k :: k in c'.stages ==> k in c.stages && c'.stages[k] == c.stages[k])
    && (s.GrowGet? || s.GrowLv? || forall k :: k in c'.growths ==> k in c.growths && c'.growths[k] == c.growths[k])
    && (c'.staged == c.staged || s.StageEnsure? || s.StageBlind?)
    && (c'.reported == c.reported || s.CreatePv? || s.GrowLv? || s.GrowPatch?)
  }

  lemma FrameCreateLv(c: Cluster, s: Step, c': Cluster)
    requires s.CreateLv? && DoCreateLv(c, s, c')
    ensures Frame(c, s, c')
  {
    hide Valid, Ensured, Expanded, Parse, Deleted, AtMostDropped, Orphaned;
    hide Lookup, StageUpdate, StageRequest, Reconciles, UnderGc;
  }

  lemma FrameCreatePv(c: Cluster, s: Step, c': Cluster)
    requires s.CreatePv? && DoCreatePv(c, s, c')
    ensures Frame(c, s, c')
  {
    hide Valid, Ensured, Expanded, Parse, Deleted, AtMostDropped, Orphaned;
    hide Lookup, StageUpdate, StageRequest, Reconciles, UnderGc;
  }

  lemma FrameStageGet(c: Cluster, s: Step, c': Cluster)
    requires s.StageGet? && DoStageGet(c, s, c')
    ensures Frame(c, s, c')
  {
    hide Valid, Ensured, Expanded, Parse, Deleted, AtMostDropped, Orphaned;
    hide Lookup, StageUpdate, StageRequest, Reconciles, UnderGc;
  }

  lemma FrameStagePatch(c: Cluster, s: Step, c': Cluster)
    requires s.StagePatch? && DoStagePatch(c, s, c')
    ensures Frame(c, s, c')
  {
    hide Valid, Ensured, Expanded, Parse, Deleted, AtMostDropped, Orphaned;
    hide Lookup, StageUpdate, StageRequest, Reconciles, UnderGc;
  }

  lemma FrameStageEnsure(c: Cluster, s: Step, c': Cluster)
    requires s.StageEnsure? && DoStageEnsure(c, s, c')
    ensures Frame(c, s, c')
  {
    hide Valid, Ensured, Expanded, Parse, Deleted, AtMostDropped, Orphaned;
    hide Lookup, StageUpdate, StageRequest, Reconciles, UnderGc;
  }

  lemma FrameGrowGet(c: Cluster, s: Step, c': Cluster)
    requires s.GrowGet? && DoGrowGet(c, s, c')
    ensures Frame(c, s, c')
  {
    hide Valid, Ensured, Expanded, Parse, Deleted, AtMostDropped, Orphaned;
    hide Lookup, StageUpdate, StageRequest, Reconciles, UnderGc;
  }

  lemma FrameGrowLv(c: Cluster, s: Step, c': Cluster)
    requires s.GrowLv? && DoGrowLv(c, s, c')
    ensures Frame(c, s, c')
  {
    hide Valid, Ensured, Expanded, Parse, Deleted, AtMostDropped, Orphaned;
    hide Lookup, StageUpdate, StageRequest, Reconciles, UnderGc;
  }

  lemma FrameGrowPatch(c: Cluster, s: Step, c': Cluster)
    requires s.GrowPatch? && DoGrowPatch(c, s, c')
    ensures Frame(c, s, c')
  {
    hide Valid, Ensured, Expanded, Parse, Deleted, AtMostDropped, Orphaned;
    hide Lookup, StageUpdate, StageRequest, Reconciles, UnderGc;
  }

  lemma FrameScan(c: Cluster, s: Step, c': Cluster)
    requires (s.ScanBegin? || s.ScanCheck? || s.ScanSwitch? || s.ScanEnd?) && DoScan(c, s, c')
    ensures Frame(c, s, c')
  {
    hide Valid, Ensured, Expanded, Parse, Deleted, AtMostDropped, Orphaned;
    hide Lookup, StageUpdate, StageRequest, Reconciles, UnderGc;
  }

  lemma FrameGc(c: Cluster, s: Step, c': Cluster)
    requires (s.ReconcileCheck? || s.GcDelete?) && DoGc(c, s, c')
    ensures Frame(c, s, c')
  {
    hide Valid, Ensured, Expanded, Parse, Deleted, AtMostDropped, Orphaned;
    hide Lookup, StageUpdate, StageRequest, Reconciles, UnderGc;
  }

  lemma FramePv(c: Cluster, s: Step, c': Cluster)
    requires (s.PvStatus? || s.PvGone?) && DoPv(c, s, c')
    ensures Frame(c, s, c')
  {
    hide Valid, Ensured, Expanded, Parse, Deleted, AtMostDropped, Orphaned;
    hide Lookup, StageUpdate, StageRequest, Reconciles, UnderGc;
  }

  lemma FrameHost(c: Cluster, s: Step, c': Cluster)
    requires (s.DeleteCall? || s.HostEvent?) && DoHost(c, s, c')
    ensures Frame(c, s, c')
  {
    hide Valid, Deleted, Decays;
  }

  lemma FrameRest(c: Cluster, s: Step, c': Cluster)
    requires (s.StageBlind? || s.StageAbort? || s.GrowAbort?) && DoRest(c, s, c')
    ensures Frame(c, s, c')
  {
    hide Valid, Ensured, Expanded, Parse, Deleted, AtMostDropped, Orphaned;
    hide Lookup, StageUpdate, StageRequest, Reconciles, UnderGc;
  }

  lemma Frames(c: Cluster, s: Step, c': Cluster)
    requires Next(c, s, c')
    ensures Frame(c, s, c')
  {
    hide Frame, DoCreateLv, DoCreatePv, DoStageGet, DoStagePatch, DoStageEnsure, DoGrowGet, DoGrowLv, DoGrowPatch;
    hide DoScan, DoGc, DoPv, DoHost, DoRest;
    match s
    case CreateLv(_, _, _, _, _, _, _, _, _) => FrameCreateLv(c, s, c');
    case CreatePv(_, _) => FrameCreatePv(c, s, c');
    case StageGet(_) => FrameStageGet(c, s, c');
    case StagePatch(_, _) => FrameStagePatch(c, s, c');
    case StageEnsure(_, _, _, _) => FrameStageEnsure(c, s, c');
    case GrowGet(_, _) => FrameGrowGet(c, s, c');
    case GrowLv(_, _, _, _) => FrameGrowLv(c, s, c');
    case GrowPatch(_, _) => FrameGrowPatch(c, s, c');
    case ScanBegin(_) => FrameScan(c, s, c');
    case ScanCheck(_, _) => FrameScan(c, s, c');
    case ScanSwitch(_) => FrameScan(c, s, c');
    case ScanEnd(_) => FrameScan(c, s, c');
    case ReconcileCheck(_, _) => FrameGc(c, s, c');
    case GcDelete(_, _) => FrameGc(c, s, c');
    case PvStatus(_, _, _, _) => FramePv(c, s, c');
    case PvGone(_) => FramePv(c, s, c');
    case DeleteCall(_, _, _) => FrameHost(c, s, c');
    case HostEvent(_, _) => FrameHost(c, s, c');
    case _ => FrameRest(c, s, c');
  }

  lemma NewOffer(c: Cluster, s: Step, c': Cluster)
    requires s.CreateLv? && OffersInv(c) && DoCreateLv(c, s, c')
    ensures OffersInv(c')
  {
    hide Valid, Ensured, Parse;
    assert c'.hosts.Keys == c.hosts.Keys;
    if s.r.Ok? {
      var handle := Print(VolumeId(GroupName(s.vgParam), s.name));
      EnsuredMeaning(c.hosts[s.node], c.filter, handle, CreateCapacity(s.required, s.limit), s.limit, s.r, s.after);
      assert Records(OfferContext(s), s.r.value, s.limit);
    }
  }

  /** A new PV records the size that its create reported. */
  lemma NewPv(c: Cluster, s: Step, c': Cluster)
    requires s.CreatePv? && OffersInv(c) && DoCreatePv(c, s, c')
    ensures GoodPv(c.hosts.Keys, s.pv.name, s.pv)
    ensures StageRequest(s.pv).Some? && StageRequest(s.pv).value.capacity == s.offer.volume.capacity
  {
    hide Valid, Parse;
    var v := s.offer.volume;
    assert GoodOffer(c.hosts.Keys, s.offer);
    var limit :| Records(v.context, v.capacity, limit);
    CreatedRequest(v.context, v.capacity, limit, s.pv.annotations);
  }

  /** Owner changes, expansions and status updates leave a PV of the driver one. */
  lemma StaysGood(nodes: set<string>, name: string, pv: PersistentVolume, n: string, size: nat,
                  phase: Phase, deleting: bool, finalizers: seq<string>)
    requires GoodPv(nodes, name, pv)
    ensures n in nodes ==> GoodPv(nodes, name, SetOwner(pv, n))
    ensures GoodPv(nodes, name, SetExpanded(pv, size))
    ensures GoodPv(nodes, name, pv.(phase := phase, deleting := deleting, finalizers := finalizers))
  {
    hide Parse, PrintNat, ParseDigits;
  }

  lemma CreateKeepsGood(c: Cluster, s: Step, c': Cluster)
    requires s.CreatePv? && OffersInv(c) && PvsInv(c) && DoCreatePv(c, s, c')
    ensures PvsInv(c')
  {
    hide Parse, GoodPv, OffersInv, StageRequest;
    NewPv(c, s, c');
  }

  lemma PatchKeepsGood(c: Cluster, s: Step, c': Cluster)
    requires s.StagePatch? && PvsInv(c) && DoStagePatch(c, s, c')
    ensures PvsInv(c')
  {
    hide Valid, Parse, StageUpdate, UnderGc, GoodPv, StageRequest, NewClaim;
    if s.ok {
      var name := Parse(s.call.handle).value.lv;
      assert GoodPv(c.hosts.Keys, name, c.pvs[name]);
      StaysGood(c.hosts.Keys, name, c.pvs[name], s.call.node, 0, Pending, false, []);
    }
  }

  lemma GrowKeepsGood(c: Cluster, s: Step, c': Cluster)
    requires s.GrowPatch? && PvsInv(c) && DoGrowPatch(c, s, c')
    ensures PvsInv(c')
  {
    hide Valid, Parse, GoodPv, StageRequest, PrintNat;
    if c'.pvs != c.pvs {
      var name := Parse(s.call.handle).value.lv;
      assert GoodPv(c.hosts.Keys, name, c.pvs[name]);
      StaysGood(c.hosts.Keys, name, c.pvs[name], "", c.growths[s.call].size, Pending, false, []);
    }
  }

  lemma StatusKeepsGood(c: Cluster, s: Step, c': Cluster)
    requires (s.PvStatus? || s.PvGone?) && PvsInv(c) && DoPv(c, s, c')
    ensures PvsInv(c')
  {
    hide Valid, Parse, UnderGc, Deleted, GoodPv;
    if s.PvStatus? {
      assert GoodPv(c.hosts.Keys, s.name, c.pvs[s.name]);
      StaysGood(c.hosts.Keys, s.name, c.pvs[s.name], "", 0, s.phase, s.deleting, s.finalizers);
    }
  }

  lemma HostsStep(c: Cluster, s: Step, c': Cluster)
    requires HostsInv(c) && Frame(c, s, c')
    ensures HostsInv(c')
  {
    hide Valid, GoodNames;
  }

  lemma OffersStep(c: Cluster, s: Step, c': Cluster)
    requires OffersInv(c) && Frame(c, s, c') && Next(c, s, c')
    ensures OffersInv(c')
  {
    hide DoCreateLv, DoCreatePv, DoStageGet, DoStagePatch, DoStageEnsure, DoGrowGet, DoGrowLv, DoGrowPatch;
    hide DoScan, DoGc, DoPv, DoHost, DoRest, Valid, GoodOffer;
    if s.CreateLv? { NewOffer(c, s, c'); }
  }

  /** Every PV stays a PV of the driver, through owner changes, expansions and status updates. */
  lemma PvsStep(c: Cluster, s: Step, c': Cluster)
    requires OffersInv(c) && PvsInv(c) && Frame(c, s, c') && Next(c, s, c')
    ensures PvsInv(c')
  {
    hide DoCreateLv, DoCreatePv, DoStageGet, DoStagePatch, DoStageEnsure, DoGrowGet, DoGrowLv, DoGrowPatch;
    hide DoScan, DoGc, DoPv, DoHost, DoRest, Valid, GoodPv, OffersInv;
    match s
    case CreatePv(_, _) => CreateKeepsGood(c, s, c');
    case StagePatch(_, _) => PatchKeepsGood(c, s, c');
    case GrowPatch(_, _) => GrowKeepsGood(c, s, c');
    case PvStatus(_, _, _, _) => StatusKeepsGood(c, s, c');
    case PvGone(_) => StatusKeepsGood(c, s, c');
    case _ =>
  }

  lemma StoreStep(c: Cluster, s: Step, c': Cluster)
    requires StoreInv(c) && Next(c, s, c')
    ensures StoreInv(c')
  {
    hide Next, Frame, HostsInv, OffersInv, PvsInv;
    Frames(c, s, c');
    HostsStep(c, s, c');
    OffersStep(c, s, c');
    PvsStep(c, s, c');
  }

  lemma {:induction false} StoreHolds(cs: seq<Cluster>, ss: seq<Step>, i: nat)
    requires IsRun(cs, ss) && i < |cs|
    ensures StoreInv(cs[i])
  {
    hide Next, Valid, GoodNames, GoodPv, GoodOffer;
    if i > 0 {
      StoreHolds(cs, ss, i - 1);
      assert At(cs, ss, i - 1);
      StoreStep(cs[i - 1], ss[i - 1], cs[i]);
    }
  }

  lemma OwnerKeepsRequest(pv: PersistentVolume, n: string)
    ensures StageRequest(SetOwner(pv, n)) == StageRequest(pv)
  {
  }

  // ---------------------------------------------------------------- the PV of a handle

  /** Changing a PV without touching its source moves no handle to another PV. */
  lemma LookupUpdated(pvs: Pvs, name: string, pv: PersistentVolume, v: string)
    requires name in pvs && pv.csi == pvs[name].csi
    ensures Lookup(pvs[name := pv], v) ==
            if Lookup(pvs, v).Some? && Parse(v).value.lv == name then Some(pv) else Lookup(pvs, v)
  {
    hide Parse;
  }

  lemma LookupStored(c: Cluster, name: string)
    requires PvsInv(c) && name in c.pvs
    ensures Lookup(c.pvs, c.pvs[name].csi.value.handle) == Some(c.pvs[name])
  {
    hide Parse, StageRequest;
    assert GoodPv(c.hosts.Keys, name, c.pvs[name]);
  }

  /** At most one PV carries a handle: PVs are named after their volumes. */
  lemma HandlesUnique(c: Cluster)
    requires PvsInv(c)
    ensures UniqueHandles(c.pvs)
    ensures forall name, v :: name in c.pvs && Carries(c.pvs[name], v) ==> Lookup(c.pvs, v) == Some(c.pvs[name])
  {
    hide Parse, StageRequest, Annotation, Attribute;
    forall name, v | name in c.pvs && Carries(c.pvs[name], v)
      ensures Lookup(c.pvs, v) == Some(c.pvs[name])
    {
      LookupStored(c, name);
    }
  }

  // ---------------------------------------------------------------- owner agreement

  /** Owner agreement: in every reachable state the owner annotation, where there is one, is a
      node's non-empty name, and so stage, DeleteVolume, garbage collection and the webhook
      resolve the same owner although they treat an empty annotation differently. */
  lemma OwnersAgree(cs: seq<Cluster>, ss: seq<Step>, i: nat, name: string, node: string)
    requires IsRun(cs, ss) && i < |cs| && name in cs[i].pvs
    ensures var pv := cs[i].pvs[name];
            && pv.csi.Some?
            && (RecordedOwner(pv).Some? ==> RecordedOwner(pv).value in cs[i].hosts && RecordedOwner(pv).value != "")
            && WebhookOwner(pv) == RecordedOwner(pv)
            && DeleteOwner(pv) == (if RecordedOwner(pv).Some? then RecordedOwner(pv).value else "")
            && (node in cs[i].hosts ==>
                  (Mismatch(pv, node) <==> RecordedOwner(pv).Some? && RecordedOwner(pv).value != node) &&
                  (StageUpdate(pv, node).Some? <==> RecordedOwner(pv).Some? && RecordedOwner(pv).value != node))
  {
    hide Next, Valid, Parse, StageRequest, IsRun, EqualFold;
    StoreHolds(cs, ss, i);
    var pv := cs[i].pvs[name];
    assert GoodPv(cs[i].hosts.Keys, name, pv);
    LookupsAgree(pv);
    MismatchMeaning(pv, node);
    FoldReflexive(node);
  }

  lemma FoldReflexive(s: string)
    ensures EqualFold(s, s)
  {
  }
}
