/** A volume's size survives failover, over every run of the protocol in which its expansions
    keep out of each other's way and out of the way of stages. */
module SizeSafety {
  import opened Text
  import opened VolumeIds
  import opened Probe
  import opened Lvm
  import opened Provisioner
  import opened Kube
  import opened Ownership
  import opened Volumes
  import opened Servers
  import opened Gc
  import opened Protocol
  import GcSafety

  // ---------------------------------------------------------------- order

  /** A stage of the volume has its size request in hand. */
  predicate Staging(c: Cluster, v: string) {
    exists k :: k in c.stages && k.handle == v && c.stages[k].Claimed?
  }

  /** An expansion of the volume has extended it and not yet recorded the size. */
  predicate Extending(c: Cluster, v: string) {
    exists k :: k in c.growths && k.handle == v && c.growths[k].Extended?
  }

  /** The expansion read the PV, runs where the volume was last staged, and finds no stage with
      its request in hand and no other expansion between extend and patch. */
  predicate InOrder(c: Cluster, call: Call) {
    && call in c.growths && c.growths[call].Looked? && c.growths[call].seen.Some?
    && call.handle in c.staged && c.staged[call.handle] == call.node
    && !Staging(c, call.handle) && !Extending(c, call.handle)
  }

  /** The step breaks the order of the volume: an expansion out of order, a stage that claims it
      between an expansion's extend and its patch, or a stage that could not read the PV. */
  predicate Disorderly(c: Cluster, s: Step, v: string) {
    match s
    case GrowLv(call, _, r, _) => call.handle == v && r.Ok? && !InOrder(c, call)
    case StageGet(call) => Extending(c, v) && GcSafety.ClaimsFor(c, s, call.node, v)
    case StagePatch(call, _) => Extending(c, v) && GcSafety.ClaimsFor(c, s, call.node, v)
    case StageBlind(_, w) => w == v
    case _ => false
  }

  ghost predicate Orderly(cs: seq<Cluster>, ss: seq<Step>, j: nat, v: string)
    requires |cs| == |ss| + 1 && j <= |ss|
  {
    forall k :: 0 <= k < j ==> !Disorderly(cs[k], ss[k], v)
  }

  /** Step `d` is the only one that breaks the order of the volume. */
  ghost predicate BrokenOnlyAt(cs: seq<Cluster>, ss: seq<Step>, d: nat, v: string)
    requires |cs| == |ss| + 1
  {
    d < |ss| && forall k :: 0 <= k < |ss| ==> (Disorderly(cs[k], ss[k], v) <==> k == d)
  }

  /** The volume was last staged on `n`, no stage has its request in hand, and no expansion is
      between extend and patch. */
  predicate Calm(c: Cluster, v: string, n: string) {
    v in c.staged && c.staged[v] == n && !Staging(c, v) && !Extending(c, v)
  }

  // ---------------------------------------------------------------- invariant

  /** What a stage would ask for: the size on record, which is the larger of the create-time
      capacity and the expansion annotation, and the limit. */
  function RecordOf(pvs: Pvs, v: string): Option<Request> {
    if Lookup(pvs, v).Some? then StageRequest(Lookup(pvs, v).value) else None
  }

  predicate Known(c: Cluster, v: string) {
    Parse(v).Some? && Parse(v).value.lv in c.used
  }

  predicate Wants(s: Stage) {
    s.Claimed? && s.want.Some?
  }

  /** The annotation in an expansion's copy of the PV. */
  function CopyOf(g: Growth): Option<string> {
    match g
    case Looked(seen) => if seen.Some? then seen.value else None
    case Extended(copy, _) => copy
  }

  predicate Read(g: Growth) {
    g.Extended? || g.seen.Some?
  }

  /** Whoever has dealt with a volume dealt with a PV that exists or existed, and a stage in
      flight asks for every size reported. */
  ghost predicate Tracked(c: Cluster, v: string) {
    && (v in c.reported ==> Known(c, v))
    && (forall k :: k in c.stages && k.handle == v && Wants(c.stages[k]) && v in c.reported ==>
          c.stages[k].want.value.capacity >= c.reported[v])
    && (forall k :: k in c.stages && k.handle == v ==> Known(c, v))
    && (forall k :: k in c.growths && k.handle == v && Read(c.growths[k]) ==> Known(c, v))
    && (v in c.staged ==> Known(c, v) && c.staged[v] in c.hosts)
  }

  /** The record covers every size reported, a stage in flight asks for the size on record, and
      the volume where it was last staged is at least that large. */
  ghost predicate Sized(c: Cluster, v: string, q: Request) {
    && (v in c.reported ==> q.capacity >= c.reported[v])
    && (forall k :: k in c.stages && k.handle == v && c.stages[k].Claimed? ==> c.stages[k].want == Some(q))
    && HeldWhereStaged(c, v, q.capacity)
  }

  ghost predicate HeldWhereStaged(c: Cluster, v: string, size: int) {
    v in c.staged && c.staged[v] in c.hosts ==> Holds(c.hosts[c.staged[v]], v, size)
  }

  /** The node's copy of the volume, if it has one, is at least `size` large. */
  ghost predicate Holds(h: Host, v: string, size: int) {
    Parse(v).Some? && Parse(v).value in h.lvs ==> h.lvs[Parse(v).value].size >= size
  }

  /** No expansion's copy is ahead of the record, and the one between extend and patch, if there
      is one, is ahead of it by a size the volume has, while no stage asks for less. */
  ghost predicate Growing(c: Cluster, v: string, q: Request) {
    forall k :: k in c.growths && k.handle == v ==> GrowthOk(c, v, q, k)
  }

  ghost predicate GrowthOk(c: Cluster, v: string, q: Request, k: Call)
    requires k in c.growths
  {
    && NotAhead(CopyOf(c.growths[k]), q.capacity)
    && (c.growths[k].Extended? ==>
          && c.growths[k].size >= q.capacity && HeldWhereStaged(c, v, c.growths[k].size)
          && !Staging(c, v) && OnlyGrowth(c, v, k))
  }

  /** `k` is the one expansion of the volume between extend and patch. */
  ghost predicate OnlyGrowth(c: Cluster, v: string, k: Call) {
    forall l :: l in c.growths && l.handle == v && c.growths[l].Extended? ==> l == k
  }

  ghost predicate NotAhead(copy: Option<string>, record: nat) {
    forall size: nat :: copy == Some(PrintNat(size)) ==> size <= record
  }

  ghost predicate SizeOk(c: Cluster, v: string) {
    && Tracked(c, v)
    && (RecordOf(c.pvs, v).Some? ==>
          Sized(c, v, RecordOf(c.pvs, v).value) && Growing(c, v, RecordOf(c.pvs, v).value))
  }

  // ---------------------------------------------------------------- hosts

  /** The node's copy of the volume, if it still has one, is no smaller than it was. */
  ghost predicate NoSmaller(h: Host, v: string, h': Host) {
    Parse(v).Some? && Parse(v).value in h'.lvs ==>
      Parse(v).value in h.lvs && h'.lvs[Parse(v).value].size >= h.lvs[Parse(v).value].size
  }

  lemma SameId(v: string, w: string)
    ensures Parse(v).Some? && Parse(v) == Parse(w) ==> v == w
  {
    if Parse(v).Some? && Parse(v) == Parse(w) {
      PrintParse(v);
      PrintParse(w);
    }
  }

  /** Making volume `w` leaves every other as it is, and `w` itself at least as large as asked
      for or as it was. */
  lemma EnsureKeeps(h: Host, f: Filter, w: string, capacity: int, limit: int, r: Result<int>, h': Host, v: string)
    requires Valid(h) && Ensured(h, f, w, capacity, limit, r, h')
    ensures v != w ==> NoSmaller(h, v, h')
    ensures v == w ==> NoSmaller(h, v, h') || Holds(h', v, capacity)
    ensures r.Ok? && v == w ==>
              Parse(v).Some? && Parse(v).value in h'.lvs && h'.lvs[Parse(v).value].size >= capacity
  {
    hide Valid, Ensured, Parse;
    EnsuredMeaning(h, f, w, capacity, limit, r, h');
    SameId(v, w);
    if Parse(v).Some? && Parse(w).Some? && v != w {
      var id, j := Parse(w).value, Parse(v).value;
      if j in h'.lvs {
        assert j in h'.lvs - {id} && (h'.lvs - {id})[j] == (h.lvs - {id})[j];
      }
    }
  }

  lemma ExpandKeeps(h: Host, w: string, required: int, r: Result<int>, h': Host, v: string)
    requires Valid(h) && Expanded(h, w, required, r, h')
    ensures NoSmaller(h, v, h')
  {
    hide Valid, Expanded, Parse;
    ExpandedMeaning(h, w, required, r, h');
    SameId(v, w);
  }

  lemma DropKeeps(h: Host, id: VolumeId, h': Host, v: string)
    requires AtMostDropped(h, id, h')
    ensures NoSmaller(h, v, h')
  {
    hide Parse;
    if Parse(v).Some? && Parse(v).value in h'.lvs && Parse(v).value != id {
      var j := Parse(v).value;
      assert j in h'.lvs - {id} && (h'.lvs - {id})[j] == (h.lvs - {id})[j];
    }
  }

  // ---------------------------------------------------------------- steps on nodes

  lemma HeldKept(c: Cluster, c': Cluster, n: string, after: Host, v: string, size: int)
    requires n in c.hosts && c'.hosts == c.hosts[n := after] && HeldWhereStaged(c, v, size)
    requires v in c'.staged ==> v in c.staged && c'.staged[v] == c.staged[v]
    requires v in c'.staged && c'.staged[v] == n ==> NoSmaller(c.hosts[n], v, after)
    ensures HeldWhereStaged(c', v, size)
  {
    hide Parse;
  }

  lemma HeldSame(c: Cluster, c': Cluster, v: string)
    requires c'.hosts == c.hosts && c'.staged == c.staged
    ensures forall size :: HeldWhereStaged(c', v, size) <==> HeldWhereStaged(c, v, size)
  {
    hide Holds;
  }

  /** A step that changes one node without shrinking the volume, and otherwise at most drops
      calls in flight, keeps the sizes. */
  lemma HostChanged(c: Cluster, c': Cluster, n: string, after: Host, v: string)
    requires SizeOk(c, v) && n in c.hosts && c'.hosts == c.hosts[n := after]
    requires c'.pvs == c.pvs && c'.used == c.used && c'.reported == c.reported
    requires v in c'.staged ==> v in c.staged && c'.staged[v] == c.staged[v]
    requires forall k :: k in c'.stages ==> k in c.stages && c'.stages[k] == c.stages[k]
    requires forall k :: k in c'.growths ==> k in c.growths && c'.growths[k] == c.growths[k]
    requires v in c'.staged && c'.staged[v] == n ==> NoSmaller(c.hosts[n], v, after)
    ensures SizeOk(c', v)
  {
    hide RecordOf, Parse, NotAhead, HeldWhereStaged, NoSmaller, CopyOf;
    forall size | HeldWhereStaged(c, v, size)
      ensures HeldWhereStaged(c', v, size)
    {
      HeldKept(c, c', n, after, v, size);
    }
  }

  lemma CreateLvSized(c: Cluster, s: Step, c': Cluster, v: string)
    requires s.CreateLv? && DoCreateLv(c, s, c') && SizeOk(c, v)
    ensures SizeOk(c', v)
  {
    hide RecordOf, Parse, Ensured, Valid, Sized, Growing, NoSmaller, PrintNat;
    var id := VolumeId(GroupName(s.vgParam), s.name);
    if v in c.staged {
      ParsePrintId(id);
      EnsureKeeps(c.hosts[s.node], c.filter, Print(id), CreateCapacity(s.required, s.limit), s.limit, s.r, s.after, v);
    }
    HostChanged(c, c', s.node, s.after, v);
  }

  lemma GcSized(c: Cluster, s: Step, c': Cluster, v: string)
    requires s.GcDelete? && DoGc(c, s, c') && SizeOk(c, v)
    ensures SizeOk(c', v)
  {
    hide Parse, Valid, AtMostDropped, RecordOf, Sized, Growing, Tracked, NoSmaller;
    DropKeeps(c.hosts[s.task.node], Parse(s.task.handle).value, s.after, v);
    HostChanged(c, c', s.task.node, s.after, v);
  }

  lemma HostSized(c: Cluster, s: Step, c': Cluster, v: string)
    requires (s.DeleteCall? || s.HostEvent?) && DoHost(c, s, c') && SizeOk(c, v)
    ensures SizeOk(c', v)
  {
    hide Parse, Valid, AtMostDropped, MayDelete, SizeOk;
    if s.DeleteCall? && s.after != c.hosts[s.node] {
      DropKeeps(c.hosts[s.node], Parse(s.handle).value, s.after, v);
    }
    HostChanged(c, c', s.node, s.after, v);
  }

  lemma RestSized(c: Cluster, s: Step, c': Cluster, v: string)
    requires (s.StageBlind? || s.StageAbort? || s.GrowAbort?) && DoRest(c, s, c')
    requires SizeOk(c, v) && !Disorderly(c, s, v)
    ensures SizeOk(c', v)
  {
    hide Parse, SizeOk;
    if s.StageBlind? {
      assert c.hosts[s.node := c.hosts[s.node]] == c.hosts;
      HostChanged(c, c', s.node, c.hosts[s.node], v);
    } else {
      CallDropped(c, c', v);
    }
  }

  lemma CallDropped(c: Cluster, c': Cluster, v: string)
    requires SizeOk(c, v) && c' == c.(stages := c'.stages, growths := c'.growths)
    requires forall k :: k in c'.stages ==> k in c.stages && c'.stages[k] == c.stages[k]
    requires forall k :: k in c'.growths ==> k in c.growths && c'.growths[k] == c.growths[k]
    ensures SizeOk(c', v)
  {
    hide RecordOf, Parse, NotAhead, CopyOf, HeldWhereStaged;
    HeldSame(c, c', v);
  }

  // ---------------------------------------------------------------- steps on the PV

  /** A step that only changes PVs, and this one's record not at all. */
  lemma RecordSame(c: Cluster, c': Cluster, v: string)
    requires SizeOk(c, v) && c' == c.(pvs := c'.pvs, used := c'.used, reported := c'.reported, claims := c'.claims)
    requires RecordOf(c'.pvs, v) == RecordOf(c.pvs, v) || RecordOf(c'.pvs, v).None?
    requires c.used <= c'.used && (v in c'.reported ==> v in c.reported && c'.reported[v] == c.reported[v])
    ensures SizeOk(c', v)
  {
    hide RecordOf, Parse, NotAhead, CopyOf, HeldWhereStaged;
    HeldSame(c, c', v);
  }

  lemma CreatePvSized(c: Cluster, s: Step, c': Cluster, v: string)
    requires s.CreatePv? && DoCreatePv(c, s, c') && StoreInv(c) && SizeOk(c, v)
    ensures SizeOk(c', v)
  {
    hide Parse, StageRequest, Valid, GoodPv, GoodOffer, SizeOk;
    NewPv(c, s, c');
    if v == s.offer.volume.handle {
      NewlyKnown(c, c', v, s.offer.volume.capacity);
    } else {
      RecordSame(c, c', v);
    }
  }

  /** Nobody has dealt with a volume whose PV is new. */
  lemma NewlyKnown(c: Cluster, c': Cluster, v: string, capacity: nat)
    requires SizeOk(c, v) && !Known(c, v) && Known(c', v)
    requires c' == c.(pvs := c'.pvs, used := c'.used, reported := c.reported[v := capacity])
    requires RecordOf(c'.pvs, v).Some? && RecordOf(c'.pvs, v).value.capacity == capacity
    ensures SizeOk(c', v)
  {
    hide RecordOf, Parse, Known, Holds;
    forall k | k in c.growths && k.handle == v
      ensures CopyOf(c.growths[k]).None? && !c.growths[k].Extended?
    {
      assert !Read(c.growths[k]);
    }
  }

  lemma PvSized(c: Cluster, s: Step, c': Cluster, v: string)
    requires (s.PvStatus? || s.PvGone?) && DoPv(c, s, c') && SizeOk(c, v)
    ensures SizeOk(c', v)
  {
    hide Parse, SizeOk, PrintNat, ParseDigits;
    if s.PvStatus? {
      LookupUpdated(c.pvs, s.name, c'.pvs[s.name], v);
    }
    RecordSame(c, c', v);
  }

  // ---------------------------------------------------------------- stages

  /** A stage of `call` reads or claims, and leaves every record as it is. */
  lemma StageMoves(c: Cluster, c': Cluster, call: Call, g: Stage, v: string)
    requires SizeOk(c, v) && RecordOf(c'.pvs, v) == RecordOf(c.pvs, v)
    requires c' == c.(pvs := c'.pvs, stages := c.stages[call := g], claims := c'.claims)
    requires call.handle == v ==> Known(c, v)
    requires call.handle == v && g.Claimed? ==>
               RecordOf(c.pvs, v).Some? && g.want == RecordOf(c.pvs, v) && !Extending(c, v)
    ensures SizeOk(c', v)
  {
    hide RecordOf, Parse, NotAhead, CopyOf, HeldWhereStaged;
    HeldSame(c, c', v);
  }

  lemma StageGetSized(c: Cluster, s: Step, c': Cluster, v: string)
    requires s.StageGet? && DoStageGet(c, s, c') && StoreInv(c) && SizeOk(c, v) && !Disorderly(c, s, v)
    ensures SizeOk(c', v)
  {
    hide Parse, StageRequest, Valid, StageUpdate, UnderGc, SizeOk, Extending;
    var w := s.call.handle;
    assert GoodPv(c.hosts.Keys, Parse(w).value.lv, c.pvs[Parse(w).value.lv]);
    StageMoves(c, c', s.call, c'.stages[s.call], v);
  }

  lemma StagePatchSized(c: Cluster, s: Step, c': Cluster, v: string)
    requires s.StagePatch? && DoStagePatch(c, s, c') && StoreInv(c) && SizeOk(c, v) && !Disorderly(c, s, v)
    ensures SizeOk(c', v)
  {
    hide Parse, StageRequest, Valid, StageUpdate, UnderGc, SizeOk, Extending;
    if s.ok {
      var w := s.call.handle;
      var name := Parse(w).value.lv;
      assert GoodPv(c.hosts.Keys, name, c.pvs[name]);
      LookupUpdated(c.pvs, name, SetOwner(c.pvs[name], s.call.node), v);
      OwnerKeepsRequest(c.pvs[name], s.call.node);
      StageMoves(c, c', s.call, c'.stages[s.call], v);
    } else {
      CallDropped(c, c', v);
    }
  }

  /** With a stage that has its request in hand, no expansion is between extend and patch. */
  lemma StagingMeansNoGrowth(c: Cluster, v: string)
    requires SizeOk(c, v) && RecordOf(c.pvs, v).Some? && Staging(c, v)
    ensures !Extending(c, v)
  {
    hide RecordOf, NotAhead, CopyOf, HeldWhereStaged;
  }

  lemma StageEnsureSized(c: Cluster, s: Step, c': Cluster, v: string)
    requires s.StageEnsure? && DoStageEnsure(c, s, c') && SizeOk(c, v)
    ensures SizeOk(c', v)
  {
    hide Parse, Valid, Ensured, RecordOf, NoSmaller, SizeOk;
    var n, w, want := s.call.node, s.call.handle, c.stages[s.call].want;
    if want.Some? {
      EnsureKeeps(c.hosts[n], c.filter, w, want.value.capacity, want.value.limit, s.r, s.after, v);
    } else {
      SameHost(c.hosts[n], v);
    }
    if v != w {
      HostChanged(c, c', n, s.after, v);
    } else {
      StageMade(c, s, c');
    }
  }

  lemma SameHost(h: Host, v: string)
    ensures NoSmaller(h, v, h)
  {
  }

  /** The stage leaves its volume at least as large as the record. */
  lemma StageMade(c: Cluster, s: Step, c': Cluster)
    requires s.StageEnsure? && DoStageEnsure(c, s, c') && SizeOk(c, s.call.handle)
    requires var n, v, want := s.call.node, s.call.handle, c.stages[s.call].want;
             && (NoSmaller(c.hosts[n], v, s.after) || (want.Some? && Holds(s.after, v, want.value.capacity)))
             && (s.r.Ok? && want.Some? ==> Holds(s.after, v, want.value.capacity))
    ensures SizeOk(c', s.call.handle)
  {
    hide Parse, Valid, Ensured, RecordOf, NotAhead, CopyOf;
    var v := s.call.handle;
    assert Staging(c, v);
    if RecordOf(c.pvs, v).Some? {
      StagingMeansNoGrowth(c, v);
    }
  }

  // ---------------------------------------------------------------- expansions

  /** An expansion moves to phase `g`, which is not ahead of the record or is the only one that
      may be. */
  lemma GrowthMoves(c: Cluster, c': Cluster, call: Call, g: Growth, v: string)
    requires SizeOk(c, v) && c' == c.(growths := c.growths[call := g])
    requires call.handle == v && Read(g) ==> Known(c, v)
    requires call.handle == v && RecordOf(c.pvs, v).Some? ==> MayMove(c, v, RecordOf(c.pvs, v).value, g)
    ensures SizeOk(c', v)
  {
    hide RecordOf, Parse, MayMove, HeldWhereStaged, Growing;
    HeldSame(c, c', v);
    if RecordOf(c.pvs, v).Some? {
      MoveKeepsGrowing(c, c', call, g, v, RecordOf(c.pvs, v).value);
    }
  }

  ghost predicate MayMove(c: Cluster, v: string, q: Request, g: Growth) {
    && NotAhead(CopyOf(g), q.capacity)
    && (g.Extended? ==>
          g.size >= q.capacity && HeldWhereStaged(c, v, g.size) && !Staging(c, v) && !Extending(c, v))
  }

  lemma MoveKeepsGrowing(c: Cluster, c': Cluster, call: Call, g: Growth, v: string, q: Request)
    requires Growing(c, v, q) && c' == c.(growths := c.growths[call := g]) && (call.handle == v ==> MayMove(c, v, q, g))
    ensures Growing(c', v, q)
  {
    hide NotAhead, CopyOf, HeldWhereStaged;
    HeldSame(c, c', v);
    forall k | k in c'.growths && k.handle == v
      ensures GrowthOk(c', v, q, k)
    {
      if k != call { assert GrowthOk(c, v, q, k); }
      if g.Extended? && call.handle == v {
        assert forall l :: l in c.growths && l.handle == v ==> !c.growths[l].Extended?;
      } else if c'.growths[k].Extended? {
        assert OnlyGrowth(c, v, k);
      }
    }
  }

  /** A size in the annotation is on record. */
  lemma AnnotationOnRecord(pv: PersistentVolume)
    requires StageRequest(pv).Some?
    ensures NotAhead(Annotation(pv, ExpandedKey), StageRequest(pv).value.capacity)
  {
    forall size: nat | Annotation(pv, ExpandedKey) == Some(PrintNat(size))
      ensures size <= StageRequest(pv).value.capacity
    {
      ParsePrint(size);
    }
  }

  lemma GrowGetSized(c: Cluster, s: Step, c': Cluster, v: string)
    requires s.GrowGet? && DoGrowGet(c, s, c') && StoreInv(c) && SizeOk(c, v)
    ensures SizeOk(c', v)
  {
    hide Parse, StageRequest, Valid, SizeOk, NotAhead, Annotation;
    var w := s.call.handle;
    if s.read && v == w {
      var name := Parse(w).value.lv;
      assert GoodPv(c.hosts.Keys, name, c.pvs[name]);
      AnnotationOnRecord(c.pvs[name]);
    }
    if !s.read { NothingAhead(); }
    GrowthMoves(c, c', s.call, c'.growths[s.call], v);
  }

  lemma NothingAhead()
    ensures forall record :: NotAhead(None, record)
  {
  }

  lemma GrowLvSized(c: Cluster, s: Step, c': Cluster, v: string)
    requires s.GrowLv? && DoGrowLv(c, s, c') && SizeOk(c, v) && !Disorderly(c, s, v)
    ensures SizeOk(c', v)
  {
    hide Parse, Valid, Expanded, RecordOf, SizeOk, NoSmaller, InOrder;
    var n, w, seen := s.call.node, s.call.handle, c.growths[s.call].seen;
    var mid := c.(hosts := c.hosts[n := s.after]);
    ExpandKeeps(c.hosts[n], w, s.required, s.r, s.after, v);
    HostChanged(c, mid, n, s.after, v);
    if s.r.Err? {
      CallDropped(mid, c', v);
    } else if v != w {
      OtherGrown(mid, c', s.call, v);
    } else {
      GrownInOrder(c, s, c');
    }
  }

  /** The extend or the patch of another volume. */
  lemma OtherGrown(c: Cluster, c': Cluster, call: Call, v: string)
    requires SizeOk(c, v) && call.handle != v
    requires c' == c.(pvs := c'.pvs, growths := c'.growths, reported := c'.reported)
    requires RecordOf(c'.pvs, v) == RecordOf(c.pvs, v)
    requires forall k :: k in c'.growths && k != call ==> k in c.growths && c'.growths[k] == c.growths[k]
    requires v in c'.reported ==> v in c.reported && c'.reported[v] == c.reported[v]
    ensures SizeOk(c', v)
  {
    hide RecordOf, Parse, NotAhead, CopyOf, HeldWhereStaged;
    HeldSame(c, c', v);
  }

  /** An extend in order: the size found covers the record. */
  lemma GrownInOrder(c: Cluster, s: Step, c': Cluster)
    requires s.GrowLv? && DoGrowLv(c, s, c') && s.r.Ok? && SizeOk(c, s.call.handle) && InOrder(c, s.call)
    requires SizeOk(c.(hosts := c.hosts[s.call.node := s.after]), s.call.handle)
    ensures SizeOk(c', s.call.handle)
  {
    hide Parse, Valid, Expanded, RecordOf, NotAhead;
    var n, v := s.call.node, s.call.handle;
    var mid := c.(hosts := c.hosts[n := s.after]);
    ExpandedMeaning(c.hosts[n], v, s.required, s.r, s.after);
    GrowthMoves(mid, c', s.call, c'.growths[s.call], v);
  }

  lemma GrowPatchSized(c: Cluster, s: Step, c': Cluster, v: string)
    requires s.GrowPatch? && DoGrowPatch(c, s, c') && StoreInv(c) && SizeOk(c, v)
    ensures SizeOk(c', v)
  {
    hide Parse, Valid, StageRequest, SizeOk, PrintNat;
    var w := s.call.handle;
    if !s.ok {
      CallDropped(c, c', v);
    } else if v != w {
      var name := Parse(w).value.lv;
      LookupUpdated(c.pvs, name, SetExpanded(c.pvs[name], c.growths[s.call].size), v);
      OtherGrown(c, c', s.call, v);
    } else {
      PatchRecord(c, s, c');
      PatchInOrder(c, c', s.call);
    }
  }

  /** The record after the patch, whether or not anything was sent. */
  lemma PatchRecord(c: Cluster, s: Step, c': Cluster)
    requires s.GrowPatch? && s.ok && DoGrowPatch(c, s, c') && StoreInv(c) && SizeOk(c, s.call.handle)
    ensures var v, size := s.call.handle, c.growths[s.call].size;
            && RecordOf(c.pvs, v).Some? && size >= RecordOf(c.pvs, v).value.capacity
            && RecordOf(c'.pvs, v) == Some(RecordOf(c.pvs, v).value.(capacity := size))
  {
    hide Parse, Valid, StageRequest, PrintNat, HeldWhereStaged, Tracked, Sized;
    var v, size := s.call.handle, c.growths[s.call].size;
    var name := Parse(v).value.lv;
    var pv := c.pvs[name];
    assert GoodPv(c.hosts.Keys, name, pv);
    ExpandedRequest(pv, size);
    LookupUpdated(c.pvs, name, SetExpanded(pv, size), v);
    if c.growths[s.call].copy == Some(PrintNat(size)) {
      assert NotAhead(CopyOf(c.growths[s.call]), StageRequest(pv).value.capacity);
    }
  }

  lemma PatchInOrder(c: Cluster, c': Cluster, call: Call)
    requires SizeOk(c, call.handle) && call in c.growths && c.growths[call].Extended? && c.growths[call].size >= 0
    requires var v, size := call.handle, c.growths[call].size;
             && c' == c.(pvs := c'.pvs, growths := c.growths - {call},
                         reported := c.reported[v := Larger(c.reported, v, size)])
             && RecordOf(c.pvs, v).Some? && RecordOf(c'.pvs, v) == Some(RecordOf(c.pvs, v).value.(capacity := size))
             && size >= RecordOf(c.pvs, v).value.capacity
    ensures SizeOk(c', call.handle)
  {
    hide RecordOf, Parse, Holds, CopyOf, PrintNat;
    assert OnlyGrowth(c, call.handle, call);
  }

  lemma SizeStep(c: Cluster, s: Step, c': Cluster, v: string)
    requires StoreInv(c) && Next(c, s, c') && SizeOk(c, v) && !Disorderly(c, s, v)
    ensures SizeOk(c', v)
  {
    hide DoCreateLv, DoCreatePv, DoStageGet, DoStagePatch, DoStageEnsure, DoGrowGet, DoGrowLv, DoGrowPatch;
    hide DoScan, DoGc, DoPv, DoHost, DoRest, StoreInv, SizeOk, Disorderly;
    match s
    case CreateLv(_, _, _, _, _, _, _, _, _) => CreateLvSized(c, s, c', v);
    case CreatePv(_, _) => CreatePvSized(c, s, c', v);
    case StageGet(_) => StageGetSized(c, s, c', v);
    case StagePatch(_, _) => StagePatchSized(c, s, c', v);
    case StageEnsure(_, _, _, _) => StageEnsureSized(c, s, c', v);
    case GrowGet(_, _) => GrowGetSized(c, s, c', v);
    case GrowLv(_, _, _, _) => GrowLvSized(c, s, c', v);
    case GrowPatch(_, _) => GrowPatchSized(c, s, c', v);
    case PvStatus(_, _, _, _) => PvSized(c, s, c', v);
    case PvGone(_) => PvSized(c, s, c', v);
    case GcDelete(_, _) => GcSized(c, s, c', v);
    case StageBlind(_, _) => RestSized(c, s, c', v);
    case StageAbort(_) => RestSized(c, s, c', v);
    case GrowAbort(_) => RestSized(c, s, c', v);
    case DeleteCall(_, _, _) => HostSized(c, s, c', v);
    case HostEvent(_, _) => HostSized(c, s, c', v);
    case _ => CheckSized(c, s, c', v);
  }

  /** A step of a collector that removes nothing. */
  lemma CheckSized(c: Cluster, s: Step, c': Cluster, v: string)
    requires s.ScanBegin? || s.ScanCheck? || s.ScanSwitch? || s.ScanEnd? || s.ReconcileCheck?
    requires Next(c, s, c') && SizeOk(c, v)
    ensures SizeOk(c', v)
  {
    hide Next, SizeOk, Valid;
    Frames(c, s, c');
    NothingSized(c, c', v);
  }

  lemma NothingSized(c: Cluster, c': Cluster, v: string)
    requires SizeOk(c, v) && c'.hosts == c.hosts && c'.pvs == c.pvs && c'.used == c.used
    requires c'.staged == c.staged && c'.reported == c.reported
    requires forall k :: k in c'.stages ==> k in c.stages && c'.stages[k] == c.stages[k]
    requires forall k :: k in c'.growths ==> k in c.growths && c'.growths[k] == c.growths[k]
    ensures SizeOk(c', v)
  {
    hide RecordOf, Parse, NotAhead, CopyOf, HeldWhereStaged;
    HeldSame(c, c', v);
  }

  // ---------------------------------------------------------------- runs

  lemma {:induction false} SizesHold(cs: seq<Cluster>, ss: seq<Step>, i: nat, v: string)
    requires IsRun(cs, ss) && i < |cs| && Orderly(cs, ss, i, v)
    ensures SizeOk(cs[i], v)
  {
    hide Next, StoreInv, Disorderly, Sized, Growing;
    if i > 0 {
      SizesHold(cs, ss, i - 1, v);
      StoreHolds(cs, ss, i - 1);
      assert At(cs, ss, i - 1);
      SizeStep(cs[i - 1], ss[i - 1], cs[i], v);
    }
  }

  // ---------------------------------------------------------------- the record never shrinks

  /** One step: the record of a PV that stays does not shrink, and a PV once gone stays gone. */
  lemma RecordStep(c: Cluster, s: Step, c': Cluster, v: string)
    requires StoreInv(c) && Next(c, s, c') && SizeOk(c, v)
    ensures Known(c, v) ==> Known(c', v)
    ensures Known(c, v) && RecordOf(c'.pvs, v).Some? ==>
              RecordOf(c.pvs, v).Some? && RecordOf(c'.pvs, v).value.capacity >= RecordOf(c.pvs, v).value.capacity
  {
    hide DoCreateLv, DoCreatePv, DoStageGet, DoStagePatch, DoStageEnsure, DoGrowGet, DoGrowLv, DoGrowPatch;
    hide DoScan, DoGc, DoPv, DoHost, DoRest, StoreInv, RecordOf, Parse, SizeOk;
    Frames(c, s, c');
    match s
    case CreatePv(_, _) => RecordAtCreate(c, s, c', v);
    case StagePatch(_, _) => RecordAtPatch(c, s, c', v);
    case GrowPatch(_, _) => RecordAtGrowth(c, s, c', v);
    case PvStatus(_, _, _, _) => RecordAtStatus(c, s, c', v);
    case PvGone(_) => RecordAtStatus(c, s, c', v);
    case _ =>
  }

  lemma RecordAtCreate(c: Cluster, s: Step, c': Cluster, v: string)
    requires s.CreatePv? && DoCreatePv(c, s, c')
    ensures Known(c, v) ==> Known(c', v) && RecordOf(c'.pvs, v) == RecordOf(c.pvs, v)
  {
    hide Parse, StageRequest;
  }

  lemma RecordAtPatch(c: Cluster, s: Step, c': Cluster, v: string)
    requires s.StagePatch? && DoStagePatch(c, s, c')
    ensures RecordOf(c'.pvs, v) == RecordOf(c.pvs, v)
  {
    hide Parse, StageRequest, UnderGc;
    if s.ok {
      var name := Parse(s.call.handle).value.lv;
      LookupUpdated(c.pvs, name, SetOwner(c.pvs[name], s.call.node), v);
      OwnerKeepsRequest(c.pvs[name], s.call.node);
    }
  }

  lemma RecordAtGrowth(c: Cluster, s: Step, c': Cluster, v: string)
    requires s.GrowPatch? && DoGrowPatch(c, s, c') && StoreInv(c) && SizeOk(c, v)
    ensures RecordOf(c'.pvs, v).Some? ==>
              RecordOf(c.pvs, v).Some? && RecordOf(c'.pvs, v).value.capacity >= RecordOf(c.pvs, v).value.capacity
  {
    hide Parse, StageRequest, StoreInv, SizeOk, PrintNat;
    if s.ok && v == s.call.handle {
      PatchRecord(c, s, c');
    } else if s.ok {
      var name := Parse(s.call.handle).value.lv;
      LookupUpdated(c.pvs, name, SetExpanded(c.pvs[name], c.growths[s.call].size), v);
    }
  }

  lemma RecordAtStatus(c: Cluster, s: Step, c': Cluster, v: string)
    requires (s.PvStatus? || s.PvGone?) && DoPv(c, s, c')
    ensures RecordOf(c'.pvs, v).Some? ==> RecordOf(c'.pvs, v) == RecordOf(c.pvs, v)
  {
    hide Parse, PrintNat, ParseDigits;
    if s.PvStatus? {
      LookupUpdated(c.pvs, s.name, c'.pvs[s.name], v);
    } else {
      assert Lookup(c'.pvs, v).Some? ==> Lookup(c'.pvs, v) == Lookup(c.pvs, v);
    }
  }

  /** Over every orderly run the size on record never shrinks while the PV exists. */
  lemma {:induction false} RecordNeverShrinks(cs: seq<Cluster>, ss: seq<Step>, i: nat, j: nat, v: string)
    requires IsRun(cs, ss) && i <= j < |cs| && Orderly(cs, ss, j, v) && Known(cs[i], v)
    ensures Known(cs[j], v)
    ensures RecordOf(cs[j].pvs, v).Some? ==>
              && RecordOf(cs[i].pvs, v).Some?
              && RecordOf(cs[j].pvs, v).value.capacity >= RecordOf(cs[i].pvs, v).value.capacity
  {
    hide Next, StoreInv, RecordOf, Parse, Disorderly, SizeOk;
    if i < j {
      RecordNeverShrinks(cs, ss, i, j - 1, v);
      SizesHold(cs, ss, j - 1, v);
      StoreHolds(cs, ss, j - 1);
      assert At(cs, ss, j - 1);
      RecordStep(cs[j - 1], ss[j - 1], cs[j], v);
    }
  }

  /** An expansion's patch that is behind the record: its size is smaller, it is sent, since it is
      not the one in the expansion's copy, and the record is an expansion, not the size at create. */
  predicate Behind(c: Cluster, s: Step, v: string) {
    && s.GrowPatch? && s.ok && s.call.handle == v && s.call in c.growths && c.growths[s.call].Extended?
    && Lookup(c.pvs, v).Some? && RecordOf(c.pvs, v).Some? && CreatedSize(Lookup(c.pvs, v).value).Some?
    && var size, record := c.growths[s.call].size, RecordOf(c.pvs, v).value.capacity;
       0 <= size < record && CreatedSize(Lookup(c.pvs, v).value).value.capacity < record
       && c.growths[s.call].copy != Some(PrintNat(size))
  }

  lemma PatchShrinks(c: Cluster, s: Step, c': Cluster, v: string)
    requires s.GrowPatch? && DoGrowPatch(c, s, c') && RecordOf(c.pvs, v).Some?
    ensures RecordOf(c'.pvs, v).Some?
    ensures RecordOf(c'.pvs, v).value.capacity < RecordOf(c.pvs, v).value.capacity <==> Behind(c, s, v)
  {
    hide Parse, StageRequest, CreatedSize, PrintNat;
    if c'.pvs != c.pvs {
      var name, size := Parse(s.call.handle).value.lv, c.growths[s.call].size;
      if v == s.call.handle { AnyExpandedRequest(c.pvs[name], size); }
      LookupUpdated(c.pvs, name, SetExpanded(c.pvs[name], size), v);
      GcSafety.OneHandle(c.pvs, s.call.handle, v);
    } else if s.ok {
      SameRecord(c, s);
    }
  }

  /** A patch that changes nothing is not behind the record. */
  lemma SameRecord(c: Cluster, s: Step)
    requires s.GrowPatch? && s.ok && s.call in c.growths && c.growths[s.call].Extended? && c.growths[s.call].size >= 0
    requires var v := s.call.handle;
             Lookup(c.pvs, v).Some? && Recorded(c, v, c.growths[s.call].copy, c.growths[s.call].size) == c.pvs
    ensures !Behind(c, s, s.call.handle)
  {
    hide Parse, StageRequest, CreatedSize, PrintNat;
    var name, size := Parse(s.call.handle).value.lv, c.growths[s.call].size;
    if c.growths[s.call].copy != Some(PrintNat(size)) && RecordOf(c.pvs, s.call.handle).Some? {
      AnyExpandedRequest(c.pvs[name], size);
      assert c.pvs[name := SetExpanded(c.pvs[name], size)][name] == SetExpanded(c.pvs[name], size);
    }
  }

  /** Exactly when the record shrinks: in every run, orderly or not, the size on record goes down in
      a step if and only if that step is an expansion's patch that is behind it. */
  lemma ShrinksExactly(cs: seq<Cluster>, ss: seq<Step>, i: nat, v: string)
    requires IsRun(cs, ss) && i < |ss| && RecordOf(cs[i].pvs, v).Some? && RecordOf(cs[i + 1].pvs, v).Some?
    ensures RecordOf(cs[i + 1].pvs, v).value.capacity < RecordOf(cs[i].pvs, v).value.capacity
            <==> Behind(cs[i], ss[i], v)
  {
    hide DoCreateLv, DoCreatePv, DoStageGet, DoStagePatch, DoStageEnsure, DoGrowGet, DoGrowLv, DoGrowPatch;
    hide DoScan, DoGc, DoPv, DoHost, DoRest, StoreInv, RecordOf, Parse, Behind;
    var c, s, c' := cs[i], ss[i], cs[i + 1];
    StoreHolds(cs, ss, i);
    StoredIsKnown(c, v);
    assert At(cs, ss, i);
    Frames(c, s, c');
    if !s.GrowPatch? { NotBehind(c, s, v); }
    match s
    case CreatePv(_, _) => RecordAtCreate(c, s, c', v);
    case StagePatch(_, _) => RecordAtPatch(c, s, c', v);
    case GrowPatch(_, _) => PatchShrinks(c, s, c', v);
    case PvStatus(_, _, _, _) => RecordAtStatus(c, s, c', v);
    case PvGone(_) => RecordAtStatus(c, s, c', v);
    case _ =>
  }

  lemma NotBehind(c: Cluster, s: Step, v: string)
    requires !s.GrowPatch?
    ensures !Behind(c, s, v)
  {
  }

  lemma StoredIsKnown(c: Cluster, v: string)
    requires StoreInv(c) && RecordOf(c.pvs, v).Some?
    ensures Known(c, v)
  {
    hide Parse, StageRequest, Valid;
  }

  // ---------------------------------------------------------------- size survives failover

  /** In cluster `c` the step reports `size` as the size of volume `v`. */
  predicate Reports(c: Cluster, s: Step, v: string, size: int) {
    match s
    case CreatePv(o, _) => o.volume.handle == v && o.volume.capacity == size
    case GrowLv(call, _, r, _) =>
      call.handle == v && r == Ok(size) && call in c.growths && c.growths[call] == Looked(None)
    case GrowPatch(call, ok) =>
      call.handle == v && ok && call in c.growths && c.growths[call].Extended? && c.growths[call].size == size
    case _ => false
  }

  lemma ReportedStep(c: Cluster, s: Step, c': Cluster, v: string, size: int)
    requires Next(c, s, c') && Tracked(c, v)
    ensures v in c.reported ==> v in c'.reported && c'.reported[v] >= c.reported[v]
    ensures Reports(c, s, v, size) ==> v in c'.reported && c'.reported[v] >= size
  {
    hide DoCreateLv, DoCreatePv, DoStageGet, DoStagePatch, DoStageEnsure, DoGrowGet, DoGrowLv, DoGrowPatch;
    hide DoScan, DoGc, DoPv, DoHost, DoRest, Tracked, Valid;
    Frames(c, s, c');
    match s
    case CreatePv(_, _) => ReportedByCreate(c, s, c', v);
    case GrowLv(_, _, _, _) => ReportedByExtend(c, s, c', v);
    case GrowPatch(_, _) => ReportedByPatch(c, s, c', v);
    case _ =>
  }

  lemma ReportedByCreate(c: Cluster, s: Step, c': Cluster, v: string)
    requires s.CreatePv? && DoCreatePv(c, s, c') && Tracked(c, v)
    ensures v in c.reported ==> v in c'.reported && c'.reported[v] >= c.reported[v]
    ensures s.offer.volume.handle == v ==> v in c'.reported && c'.reported[v] == s.offer.volume.capacity
  {
    hide Parse;
  }

  lemma ReportedByExtend(c: Cluster, s: Step, c': Cluster, v: string)
    requires s.GrowLv? && DoGrowLv(c, s, c')
    ensures v in c.reported ==> v in c'.reported && c'.reported[v] >= c.reported[v]
    ensures s.call.handle == v && s.r.Ok? && c.growths[s.call].seen.None? ==>
              v in c'.reported && c'.reported[v] >= s.r.value
  {
    hide Parse, Valid, Expanded;
  }

  lemma ReportedByPatch(c: Cluster, s: Step, c': Cluster, v: string)
    requires s.GrowPatch? && DoGrowPatch(c, s, c')
    ensures v in c.reported ==> v in c'.reported && c'.reported[v] >= c.reported[v]
    ensures s.call.handle == v && s.ok ==> v in c'.reported && c'.reported[v] >= c.growths[s.call].size
  {
    hide Parse, Lookup, PrintNat;
  }

  lemma {:induction false} ReportedStays(cs: seq<Cluster>, ss: seq<Step>, i: nat, j: nat, v: string, size: int)
    requires IsRun(cs, ss) && i < j < |cs| && Orderly(cs, ss, j, v) && Reports(cs[i], ss[i], v, size)
    ensures v in cs[j].reported && cs[j].reported[v] >= size
  {
    hide Next, Reports, Disorderly, Tracked, Sized, Growing, RecordOf;
    SizesHold(cs, ss, j - 1, v);
    assert At(cs, ss, j - 1);
    ReportedStep(cs[j - 1], ss[j - 1], cs[j], v, size);
    if i < j - 1 {
      ReportedStays(cs, ss, i, j - 1, v, size);
    }
  }

  /** Size survives failover: in every orderly run, each stage that makes the volume, on whatever
      node, leaves it there at least as large as every size that CreateVolume or
      NodeExpandVolume reported before. */
  lemma SizeSurvivesFailover(cs: seq<Cluster>, ss: seq<Step>, i: nat, j: nat, v: string, size: int)
    requires IsRun(cs, ss) && i < j < |ss| && Orderly(cs, ss, j, v) && Reports(cs[i], ss[i], v, size)
    requires ss[j].StageEnsure? && ss[j].call.handle == v && ss[j].r.Ok?
    ensures Parse(v).Some? && ss[j].call.node in cs[j + 1].hosts
    ensures var h := cs[j + 1].hosts[ss[j].call.node];
            Parse(v).value in h.lvs && h.lvs[Parse(v).value].size >= size
  {
    hide DoCreateLv, DoCreatePv, DoStageGet, DoStagePatch, DoGrowGet, DoGrowLv, DoGrowPatch;
    hide DoScan, DoGc, DoPv, DoHost, DoRest, RecordOf, Parse, Valid, Ensured, Reports, Disorderly, NoSmaller;
    ReportedStays(cs, ss, i, j, v, size);
    SizesHold(cs, ss, j, v);
    assert At(cs, ss, j);
    var c, s := cs[j], ss[j];
    var q := c.stages[s.call].want.value;
    EnsureKeeps(c.hosts[s.call.node], c.filter, v, q.capacity, q.limit, s.r, s.after, v);
  }

  /** What a stage leaves, in every run, orderly or not: a successful one ends with the healthy
      volume it finds, which meets the request in hand, or with that request rounded up to the
      node's stripes. */
  lemma StageLeaves(cs: seq<Cluster>, ss: seq<Step>, j: nat, v: string)
    requires IsRun(cs, ss) && j < |ss| && ss[j].StageEnsure? && ss[j].call.handle == v && ss[j].r.Ok?
    ensures Parse(v).Some? && ss[j].call in cs[j].stages && Wants(cs[j].stages[ss[j].call])
    ensures ss[j].call.node in cs[j].hosts && ss[j].call.node in cs[j + 1].hosts
    ensures var id, q := Parse(v).value, cs[j].stages[ss[j].call].want.value;
            var h, h' := cs[j].hosts[ss[j].call.node], cs[j + 1].hosts[ss[j].call.node];
            && id in h'.lvs
            && (Healthy(h, id) ==> h'.lvs[id].size == h.lvs[id].size >= q.capacity)
            && (!Healthy(h, id) ==>
                  var k := Stripes(h, cs[j].filter, id.vg);
                  k > 0 && h'.lvs[id].size == Allocated(q.capacity, k) >= q.capacity)
  {
    hide DoCreateLv, DoCreatePv, DoStageGet, DoStagePatch, DoGrowGet, DoGrowLv, DoGrowPatch;
    hide DoScan, DoGc, DoPv, DoHost, DoRest, Parse, Valid, Ensured, Stripes, Allocated, Init;
    assert At(cs, ss, j);
    var c, s := cs[j], ss[j];
    var h, q := c.hosts[s.call.node], c.stages[s.call].want.value;
    EnsuredMeaning(h, c.filter, v, q.capacity, q.limit, s.r, s.after);
    EnsuredSize(h, c.filter, v, q.capacity, q.limit, s.r.value, s.after);
  }
}
