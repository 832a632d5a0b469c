/** Runs from the start, for any two nodes with one disk each and any volume name: the volume is
    created and staged on the first node, and from there every race of `Races` is run. */
module Scenarios {
  import opened Text
  import opened VolumeIds
  import opened Probe
  import opened Lvm
  import opened Provisioner
  import opened Kube
  import opened Ownership
  import opened Volumes
  import opened Servers
  import opened Gc
  import opened Protocol
  import opened Moves
  import Races
  import SizeSafety

  // ---------------------------------------------------------------- a node with one disk

  /** One disk, a group over all of it, and `used` of ten extents taken by the volume. */
  function Node(disk: string, id: VolumeId, used: nat): Host
    requires used <= 10
  {
    Host([Device(disk, "", "", ALIGNMENT + 10 * EXTENT)], map[disk := Lvm2], map[disk := id.vg],
         map[id.vg := Vg(true, [disk], [10 - used])],
         if used == 0 then map[] else map[id := Lv(used * EXTENT, used, false)],
         if used == 0 then {} else {id}, {id.vg})
  }

  predicate Names(disk: string, id: VolumeId) {
    disk != "" && ValidName(id.vg) && ValidName(id.lv)
  }

  lemma NodeValid(disk: string, id: VolumeId, used: nat)
    requires Names(disk, id) && used <= 10
    ensures Valid(Node(disk, id, used)) && Parse(Print(id)) == Some(id)
  {
    hide Parse;
    ValidIsPrintable(id);
    ParsePrintId(id);
    var h := Node(disk, id, used);
    assert ValidDisks(h.devices, h.signatures);
    assert ValidLabels(h.signatures, h.pvs);
    assert ValidMembers(h.pvs, h.vgs);
  }

  /** With one physical volume a size in whole extents is given exactly. */
  lemma WholeExtents(n: nat)
    requires n > 0
    ensures PerPv(n * EXTENT, 1) == n && Allocated(n * EXTENT, 1) == n * EXTENT
  {
    CeilDivLeast(n * EXTENT, EXTENT, n);
    CeilDivLeast(n * EXTENT, EXTENT, n - 1);
    MulMonotone(n, n - 1, EXTENT);
  }

  lemma MakesOne(disk: string, id: VolumeId, f: Filter)
    requires Names(disk, id)
    ensures Valid(Node(disk, id, 0)) && Valid(Node(disk, id, 1))
    ensures Ensured(Node(disk, id, 0), f, Print(id), EXTENT, 0, Ok(EXTENT), Node(disk, id, 1))
  {
    hide Valid, Parse, ValidName, PerPv, Allocated;
    NodeValid(disk, id, 0);
    NodeValid(disk, id, 1);
    WholeExtents(1);
    var h := Node(disk, id, 0);
    assert TakeExtents(h.vgs[id.vg], 1) == Vg(true, [disk], [9]);
    assert LvCreated(h, id, EXTENT) == Node(disk, id, 1);
    assert Plan(h, f, id, EXTENT) == Outcome(Ok(EXTENT), Node(disk, id, 1));
    assert NodesReconciled(Node(disk, id, 1), Node(disk, id, 1));
  }

  lemma GrowsByOne(disk: string, id: VolumeId, n: nat)
    requires Names(disk, id) && 0 < n < 10
    ensures Valid(Node(disk, id, n)) && Valid(Node(disk, id, n + 1))
    ensures Expanded(Node(disk, id, n), Print(id), (n + 1) * EXTENT, Ok((n + 1) * EXTENT), Node(disk, id, n + 1))
  {
    hide Valid, Parse, ValidName, PerPv, Allocated;
    NodeValid(disk, id, n);
    NodeValid(disk, id, n + 1);
    WholeExtents(n + 1);
    var h := Node(disk, id, n);
    assert TakeExtents(h.vgs[id.vg], 1) == Vg(true, [disk], [10 - n - 1]);
    assert LvExtended(h, id, (n + 1) * EXTENT) == Node(disk, id, n + 1);
  }

  lemma RemovesOne(disk: string, id: VolumeId)
    requires Names(disk, id)
    ensures Valid(Node(disk, id, 0)) && LvRemoved(Node(disk, id, 1), id, Node(disk, id, 0))
  {
    hide Valid, ValidName;
    NodeValid(disk, id, 0);
    var h := Node(disk, id, 1);
    assert GiveExtents(h.vgs[id.vg], 1) == Vg(true, [disk], [10]);
    assert h.lvs - {id} == map[];
    assert h.vgs[id.vg := Vg(true, [disk], [10])] == Node(disk, id, 0).vgs;
  }

  const MIB: int := 1024 * 1024

  /** Five MiB with a limit of five MiB on one disk: the volume gets eight, past its limit. */
  lemma PastLimit(disk: string, id: VolumeId, f: Filter)
    requires Names(disk, id)
    ensures Valid(Node(disk, id, 0))
    ensures Ensured(Node(disk, id, 0), f, Print(id), 5 * MIB, 5 * MIB, Ok(8 * MIB), Node(disk, id, 2))
  {
    hide Valid, Parse, ValidName;
    NodeValid(disk, id, 0);
    NodeValid(disk, id, 2);
    var h := Node(disk, id, 0);
    assert PerPv(5 * MIB, 1) == 2;
    assert TakeExtents(h.vgs[id.vg], 2) == Vg(true, [disk], [8]);
    assert LvCreated(h, id, 5 * MIB) == Node(disk, id, 2);
    assert Plan(h, f, id, 5 * MIB) == Outcome(Ok(8 * MIB), Node(disk, id, 2));
    assert NodesReconciled(Node(disk, id, 2), Node(disk, id, 2));
  }

  // ---------------------------------------------------------------- a staged volume

  /** Two nodes, the disk path both use, the volume, and the filter. */
  datatype Setup = Setup(n: string, m: string, disk: string, id: VolumeId, f: Filter)

  ghost predicate Fine(u: Setup) {
    Names(u.disk, u.id) && u.n != "" && u.m != "" && !EqualFold(u.n, u.m)
  }

  function Context(u: Setup): Strings {
    map[CapacityKey := PrintNat(EXTENT), LimitKey := PrintNat(0), InitialNode := u.n]
  }

  function PvOf(u: Setup): PersistentVolume {
    PersistentVolume(u.id.lv, map[], Some(Csi(DRIVER_NAME, Print(u.id), Some(Context(u)))), None,
                     Policy.Delete, Phase.Bound, false, [])
  }

  function Start(u: Setup): Cluster {
    Cluster(u.f, map[], map[u.n := Node(u.disk, u.id, 0), u.m := Node(u.disk, u.id, 0)], {}, {}, map[], map[], map[], 0,
            {}, map[], map[], map[])
  }

  /** The volume was created on `n`, has its PV, and was staged on `n`. */
  function Staged1(u: Setup): Cluster {
    Cluster(u.f, map[u.id.lv := PvOf(u)], map[u.n := Node(u.disk, u.id, 1), u.m := Node(u.disk, u.id, 0)],
            {Offer(u.n, Volume(EXTENT, Print(u.id), Context(u)))}, {u.id.lv}, map[], map[], map[], 0, {},
            map[Print(u.id) := Claim(u.n, false)], map[Print(u.id) := u.n], map[Print(u.id) := EXTENT])
  }

  lemma StartIsInit(u: Setup)
    requires Fine(u)
    ensures Init(Start(u))
  {
    hide Valid, EqualFold, ValidName;
    NodeValid(u.disk, u.id, 0);
    FoldSymmetric(u.n, u.m);
  }

  lemma FoldSymmetric(a: string, b: string)
    ensures EqualFold(a, b) == EqualFold(b, a)
  {
  }

  /** What the PV says: the volume is owned by `n`, and a stage asks for one extent. */
  lemma PvFacts(u: Setup)
    requires Fine(u)
    ensures RecordedOwner(PvOf(u)) == Some(u.n) && StageRequest(PvOf(u)) == Some(Request(EXTENT, 0))
    ensures StageUpdate(PvOf(u), u.n).None? && StageUpdate(PvOf(u), u.m).Some?
  {
    hide PrintNat, ParseDigits, EqualFold, ValidName;
    CreatedRequest(Context(u), EXTENT, 0, map[]);
    FoldReflexive(u.n);
  }

  lemma Creates(u: Setup) returns (s: Step, c1: Cluster)
    requires Fine(u)
    ensures s.CreateLv? && Next(Start(u), s, c1)
    ensures c1 == Start(u).(hosts := Start(u).hosts[u.n := Node(u.disk, u.id, 1)],
                            offers := {Offer(u.n, Volume(EXTENT, Print(u.id), Context(u)))})
  {
    hide Valid, Ensured, Parse, PrintNat, EqualFold;
    MakesOne(u.disk, u.id, u.f);
    s := CreateLv(u.n, u.id.vg, u.id.lv, EXTENT, 0, map[], true, Ok(EXTENT), Node(u.disk, u.id, 1));
    assert OfferContext(s) == Context(u);
    assert VolumeId(GroupName(u.id.vg), u.id.lv) == u.id;
    c1 := Start(u).(hosts := Start(u).hosts[u.n := Node(u.disk, u.id, 1)],
                    offers := {Offer(u.n, Volume(EXTENT, Print(u.id), Context(u)))});
  }

  lemma Provisions(u: Setup, c: Cluster) returns (s: Step, c1: Cluster)
    requires Fine(u) && Offer(u.n, Volume(EXTENT, Print(u.id), Context(u))) in c.offers && c.used == {}
    ensures s.CreatePv? && Next(c, s, c1)
    ensures c1 == c.(pvs := c.pvs[u.id.lv := PvOf(u)], used := {u.id.lv}, reported := c.reported[Print(u.id) := EXTENT])
  {
    hide Valid, Parse, PrintNat, EqualFold, ValidName;
    NodeValid(u.disk, u.id, 0);
    s := CreatePv(Offer(u.n, Volume(EXTENT, Print(u.id), Context(u))), PvOf(u));
    c1 := c.(pvs := c.pvs[u.id.lv := PvOf(u)], used := {u.id.lv}, reported := c.reported[Print(u.id) := EXTENT]);
  }

  /** The healthy volume on its node meets the PV's request. */
  lemma VolumeOnHand(u: Setup)
    requires Fine(u)
    ensures Valid(Node(u.disk, u.id, 1)) && OnHand(Node(u.disk, u.id, 1), Request(EXTENT, 0), Print(u.id))
  {
    hide Valid, Parse, EqualFold, ValidName;
    NodeValid(u.disk, u.id, 1);
  }

  lemma Stages(u: Setup, c: Cluster) returns (call: Call, r: Result<int>, c1: Cluster, c2: Cluster)
    requires Fine(u) && c.pvs == map[u.id.lv := PvOf(u)] && c.stages == map[] && c.pending == {}
    requires u.n in c.hosts && c.hosts[u.n] == Node(u.disk, u.id, 1) && c.claims == map[] && c.staged == map[]
    ensures Next(c, StageGet(call), c1) && Next(c1, StageEnsure(call, r, true, c.hosts[u.n]), c2) && r.Ok?
    ensures c2 == c.(claims := map[Print(u.id) := Claim(u.n, false)], staged := map[Print(u.id) := u.n])
    ensures c1.growths == c.growths
  {
    hide Next, Valid, Parse, PrintNat, EqualFold, ValidName, StageRequest, StageUpdate, OnHand, Ensured, Node;
    var v := Print(u.id);
    call := Call(u.n, v, 0);
    PvFacts(u);
    VolumeOnHand(u);
    FoundPv(u, c.pvs);
    assert !UnderGc(c, u.n, v);
    c1 := ReadsOwn(c, call);
    r := FindingEnsure(c.hosts[u.n], c.filter, Request(EXTENT, 0), v);
    c2 := Makes(c1, call, r, true, c.hosts[u.n]);
    assert c2.stages == map[] && c2.hosts == c.hosts;
  }

  lemma FoundPv(u: Setup, pvs: Pvs)
    requires Fine(u) && u.id.lv in pvs && pvs[u.id.lv].csi == PvOf(u).csi
    ensures Lookup(pvs, Print(u.id)) == Some(pvs[u.id.lv]) && Carries(pvs[u.id.lv], Print(u.id))
    ensures Parse(Print(u.id)) == Some(u.id)
  {
    hide Parse, EqualFold, ValidName, Valid;
    NodeValid(u.disk, u.id, 0);
  }

  lemma Distinct(u: Setup)
    requires Fine(u)
    ensures u.n != u.m
  {
    FoldReflexive(u.n);
  }

  /** The volume is created and staged. */
  lemma Begins(u: Setup) returns (cs: seq<Cluster>, ss: seq<Step>)
    requires Fine(u)
    ensures IsRun(cs, ss) && cs[|ss|] == Staged1(u) && StoreInv(Staged1(u))
    ensures SizeSafety.Orderly(cs, ss, |ss|, Print(u.id)) && SizeSafety.Calm(Staged1(u), Print(u.id), u.n)
  {
    hide Next, Init, StoreInv, Node, Names, EqualFold, PvOf, Context;
    hide SizeSafety.Disorderly;
    StartIsInit(u);
    var s1, c1 := Creates(u);
    var s2, c2 := Provisions(u, c1);
    var call, r, c3, c4 := Stages(u, c2);
    Distinct(u);
    assert c4.hosts == Staged1(u).hosts;
    cs := [Start(u), c1, c2, c3, c4];
    ss := [s1, s2, StageGet(call), StageEnsure(call, r, true, c2.hosts[u.n])];
    StoreHolds(cs, ss, 4);
    forall k | 0 <= k < 4
      ensures !SizeSafety.Disorderly(cs[k], ss[k], Print(u.id))
    {
      NoGrowth(cs[k], ss[k], Print(u.id));
    }
  }

  /** Without expansions nothing is out of order, unless a stage could not read its PV. */
  lemma NoGrowth(c: Cluster, s: Step, v: string)
    requires c.growths == map[] && !s.GrowLv? && !s.StageBlind?
    ensures !SizeSafety.Disorderly(c, s, v)
  {
  }

  /** An orderly run that goes on with a path which breaks the order once. */
  lemma BreaksOnce(cs: seq<Cluster>, ss: seq<Step>, more: seq<Cluster>, steps: seq<Step>, d: nat, v: string)
    requires IsRun(cs, ss) && Path(more, steps) && more[0] == cs[|ss|]
    requires SizeSafety.Orderly(cs, ss, |ss|, v) && SizeSafety.BrokenOnlyAt(more, steps, d, v)
    ensures SizeSafety.BrokenOnlyAt(cs + more[1..], ss + steps, |ss| + d, v)
  {
    hide Next, Init;
    hide SizeSafety.Disorderly;
    var all, every := cs + more[1..], ss + steps;
    forall k | 0 <= k < |every|
      ensures SizeSafety.Disorderly(all[k], every[k], v) <==> k == |ss| + d
    {
      if k >= |ss| {
        assert all[k] == more[k - |ss|] && every[k] == steps[k - |ss|];
      }
    }
  }

  // ---------------------------------------------------------------- the races, from the start

  /** A run to the loss of the only copy of a volume on the node of its latest successful stage,
      because a stage elsewhere moved the record and failed. */
  lemma HandoverRun(u: Setup) returns (cs: seq<Cluster>, ss: seq<Step>)
    requires Fine(u)
    ensures IsRun(cs, ss) && Races.Lost(cs[|ss|], u.id)
    ensures Print(u.id) in cs[|ss|].staged && cs[|ss|].staged[Print(u.id)] == u.n
  {
    hide Next, StoreInv, Valid, Parse, EqualFold, Node, LvRemoved, RecordedOwner, StageRequest, ValidName;
    var c, v := Staged1(u), Print(u.id);
    cs, ss := Begins(u);
    Distinct(u);
    PvFacts(u);
    FoundPv(u, c.pvs);
    RemovesOne(u.disk, u.id);
    var more, steps := Races.FailedHandover(c, u.n, Call(u.m, v, 0), u.id.lv, Node(u.disk, u.id, 0));
    EmptyNode(u);
    Continues(cs, ss, more, steps);
    cs, ss := cs + more[1..], ss + steps;
  }

  lemma EmptyNode(u: Setup)
    ensures u.id !in Node(u.disk, u.id, 0).lvs && u.id in Node(u.disk, u.id, 1).lvs
  {
  }

  /** A run to the loss of a volume on the node that has just staged it, because the stage fell
      between a scan's check and its delete. */
  lemma ScanRaceRun(u: Setup) returns (cs: seq<Cluster>, ss: seq<Step>)
    requires Fine(u)
    ensures IsRun(cs, ss) && Print(u.id) in cs[|ss|].staged && cs[|ss|].staged[Print(u.id)] == u.n
    ensures Lookup(cs[|ss|].pvs, Print(u.id)).Some?
    ensures RecordedOwner(Lookup(cs[|ss|].pvs, Print(u.id)).value) == Some(u.n)
    ensures u.n in cs[|ss|].hosts && u.id !in cs[|ss|].hosts[u.n].lvs
  {
    hide Next, StoreInv, Valid, Parse, EqualFold, Node, LvRemoved, RecordedOwner, StageRequest, ValidName;
    hide StageUpdate, OnHand, PvOf, Lookup;
    var v := Print(u.id);
    cs, ss := Begins(u);
    var more, steps := TakenByOther(u);
    Continues(cs, ss, more, steps);
    cs, ss := cs + more[1..], ss + steps;
    var c := more[|steps|];
    StoreHolds(cs, ss, |ss|);
    Distinct(u);
    TakenFacts(u);
    HandleOf(u);
    NodeValid(u.disk, u.id, 0);
    VolumeOnHand(u);
    RemovesOne(u.disk, u.id);
    var last, rest := Races.StageRacesScan(c, Call(u.n, v, 0), u.id.lv, Node(u.disk, u.id, 0));
    Continues(cs, ss, last, rest);
    cs, ss := cs + last[1..], ss + rest;
  }

  /** The other node claims the volume, and the first begins to scan. */
  lemma TakenByOther(u: Setup) returns (cs: seq<Cluster>, ss: seq<Step>)
    requires Fine(u) && StoreInv(Staged1(u))
    ensures Path(cs, ss) && cs[0] == Staged1(u)
    ensures var c := cs[|ss|];
            && u.id.lv in c.pvs && c.pvs[u.id.lv] == SetOwner(PvOf(u), u.m) && c.hosts == Staged1(u).hosts
            && u.n in c.scans && !c.scans[u.n].deleting && Call(u.n, Print(u.id), 0) !in c.stages
  {
    hide Next, StoreInv, Valid, Parse, EqualFold, Node, StageRequest, ValidName, StageUpdate, UnderGc, PvOf;
    var c, call := Staged1(u), Call(u.m, Print(u.id), 0);
    Distinct(u);
    PvFacts(u);
    HandleOf(u);
    FoundPv(u, c.pvs);
    var c1, c2 := TakesOver(c, call, u.id.lv);
    var c3 := BeginsScan(c2, u.n);
    cs, ss := [c, c1, c2, c3], [StageGet(call), StagePatch(call, true), ScanBegin(u.n)];
  }

  lemma HandleOf(u: Setup)
    ensures Carries(PvOf(u), Print(u.id)) && Carries(SetOwner(PvOf(u), u.m), Print(u.id))
  {
  }

  /** After the move the first node is a mismatch, and the size asked for is the same. */
  lemma TakenFacts(u: Setup)
    requires Fine(u)
    ensures StageUpdate(SetOwner(PvOf(u), u.m), u.n).Some?
    ensures StageRequest(SetOwner(PvOf(u), u.m)) == Some(Request(EXTENT, 0))
  {
    hide StageRequest, EqualFold, ValidName, StageUpdate, PvOf;
    PvFacts(u);
    OwnerKeepsRequest(PvOf(u), u.m);
    HandoverMeaning(PvOf(u), u.m, u.n);
    MismatchMeaning(SetOwner(PvOf(u), u.m), u.n);
    FoldSymmetric(u.n, u.m);
  }

  /** A run to the loss of a claimed volume because its PV is gone. */
  lemma GoneRun(u: Setup) returns (cs: seq<Cluster>, ss: seq<Step>)
    requires Fine(u)
    ensures IsRun(cs, ss) && u.n in cs[|ss|].hosts && u.id !in cs[|ss|].hosts[u.n].lvs
    ensures |ss| > 5 && Print(u.id) in cs[|ss| - 5].claims && cs[|ss| - 5].claims[Print(u.id)] == Claim(u.n, false)
  {
    hide Next, StoreInv, Valid, Parse, EqualFold, Node, LvRemoved, ValidName;
    cs, ss := Begins(u);
    Distinct(u);
    FoundPv(u, Staged1(u).pvs);
    RemovesOne(u.disk, u.id);
    var more, steps := Races.GoneIsCollected(Staged1(u), u.n, u.id.lv, Node(u.disk, u.id, 0));
    Continues(cs, ss, more, steps);
    StartsEmpty(cs, ss, u);
    assert (cs + more[1..])[|ss|] == more[0];
    cs, ss := cs + more[1..], ss + steps;
  }

  /** A run that reaches a staged volume takes steps. */
  lemma StartsEmpty(cs: seq<Cluster>, ss: seq<Step>, u: Setup)
    requires IsRun(cs, ss) && cs[|ss|] == Staged1(u)
    ensures |ss| > 0
  {
    hide Next, Valid;
  }

  /** A run in which three extents are reported and the record then goes down to two, because
      two expansions overlapped. */
  lemma OverlapRun(u: Setup) returns (cs: seq<Cluster>, ss: seq<Step>, d: nat)
    requires Fine(u)
    ensures IsRun(cs, ss) && |ss| > 2 && SizeSafety.Reports(cs[|ss| - 2], ss[|ss| - 2], Print(u.id), 3 * EXTENT)
    ensures SizeSafety.RecordOf(cs[|ss| - 1].pvs, Print(u.id)).Some?
    ensures SizeSafety.RecordOf(cs[|ss| - 1].pvs, Print(u.id)).value.capacity == 3 * EXTENT
    ensures SizeSafety.RecordOf(cs[|ss|].pvs, Print(u.id)).Some?
    ensures SizeSafety.RecordOf(cs[|ss|].pvs, Print(u.id)).value.capacity == 2 * EXTENT
    ensures SizeSafety.BrokenOnlyAt(cs, ss, d, Print(u.id))
  {
    hide SizeSafety.BrokenOnlyAt, SizeSafety.Calm, SizeSafety.Orderly;
    hide Next, StoreInv, Valid, Parse, EqualFold, Node, Expanded, ValidName, StageRequest;
    hide SizeSafety.RecordOf, SizeSafety.Reports;
    var c, v := Staged1(u), Print(u.id);
    cs, ss := Begins(u);
    PvFacts(u);
    FoundPv(u, c.pvs);
    Distinct(u);
    GrowsByOne(u.disk, u.id, 1);
    GrowsByOne(u.disk, u.id, 2);
    var more, steps := Races.OverlappingExpansions(c, Call(u.n, v, 0), Call(u.n, v, 1), u.id.lv, 2 * EXTENT,
                                                   Node(u.disk, u.id, 2), 3 * EXTENT, Node(u.disk, u.id, 3));
    Continues(cs, ss, more, steps);
    assert (ss + steps)[|ss| + 4] == steps[4];
    BreaksOnce(cs, ss, more, steps, 3, v);
    d := |ss| + 3;
    cs, ss := cs + more[1..], ss + steps;
  }

  /** Two extents are reported at step `i`, and the last step is a stage on `n` that makes the volume
      with less. */
  ghost predicate TooSmall(cs: seq<Cluster>, ss: seq<Step>, i: nat, u: Setup, n: string) {
    IsRun(cs, ss) && Races.StagedTooSmall(cs, ss, i, Call(n, Print(u.id), 0), 2 * EXTENT)
  }

  lemma EndsTooSmall(u: Setup, cs: seq<Cluster>, ss: seq<Step>, more: seq<Cluster>, steps: seq<Step>, i: nat, n: string)
    requires IsRun(cs, ss) && Path(more, steps) && more[0] == cs[|ss|]
    requires Races.StagedTooSmall(more, steps, i, Call(n, Print(u.id), 0), 2 * EXTENT)
    ensures TooSmall(cs + more[1..], ss + steps, |ss| + i, u, n)
  {
    hide Next, Init, Path;
    hide SizeSafety.Reports, Races.Smaller;
    Continues(cs, ss, more, steps);
    assert (ss + steps)[|ss| + i] == steps[i] && (ss + steps)[|ss| + |steps| - 1] == steps[|steps| - 1];
  }

  /** A run that ends so: the stage had its request in hand before the extend. */
  lemma StaleStageRun(u: Setup) returns (cs: seq<Cluster>, ss: seq<Step>, d: nat, i: nat)
    requires Fine(u)
    ensures TooSmall(cs, ss, i, u, u.m)
    ensures SizeSafety.BrokenOnlyAt(cs, ss, d, Print(u.id))
  {
    hide SizeSafety.BrokenOnlyAt, SizeSafety.Calm, SizeSafety.Orderly;
    hide Next, StoreInv, Valid, Parse, EqualFold, Node, Expanded, ValidName, StageRequest, Ensured, StageUpdate, PvOf;
    hide Races.StagedTooSmall;
    cs, ss := Begins(u);
    StaleFacts(u);
    var v := Print(u.id);
    var more, steps := Races.StageRacesExpansion(Staged1(u), Call(u.m, v, 0), Call(u.n, v, 0), u.id.lv, 2 * EXTENT,
                                                 Node(u.disk, u.id, 2), EXTENT, Node(u.disk, u.id, 1));
    EndsTooSmall(u, cs, ss, more, steps, 4, u.m);
    BreaksOnce(cs, ss, more, steps, 3, v);
    d := |ss| + 3;
    cs, ss, i := cs + more[1..], ss + steps, |ss| + 4;
  }

  /** Another one: the stage got its request in hand between the extend and the patch. */
  lemma StalePatchRun(u: Setup) returns (cs: seq<Cluster>, ss: seq<Step>, d: nat, i: nat)
    requires Fine(u)
    ensures TooSmall(cs, ss, i, u, u.m)
    ensures SizeSafety.BrokenOnlyAt(cs, ss, d, Print(u.id))
  {
    hide SizeSafety.BrokenOnlyAt, SizeSafety.Calm, SizeSafety.Orderly;
    hide Next, StoreInv, Valid, Parse, EqualFold, Node, Expanded, ValidName, StageRequest, Ensured, StageUpdate, PvOf;
    hide Races.StagedTooSmall;
    cs, ss := Begins(u);
    StaleFacts(u);
    var v := Print(u.id);
    var more, steps := Races.StageRacesPatch(Staged1(u), Call(u.m, v, 0), Call(u.n, v, 0), u.id.lv, 2 * EXTENT,
                                             Node(u.disk, u.id, 2), EXTENT, Node(u.disk, u.id, 1));
    EndsTooSmall(u, cs, ss, more, steps, 4, u.m);
    BreaksOnce(cs, ss, more, steps, 3, v);
    d := |ss| + 3;
    cs, ss, i := cs + more[1..], ss + steps, |ss| + 4;
  }

  /** Another one on the node itself: the stage read the PV between the extend and the patch, and the
      node then lost the volume. */
  lemma LostCopyRun(u: Setup) returns (cs: seq<Cluster>, ss: seq<Step>, d: nat, i: nat)
    requires Fine(u)
    ensures TooSmall(cs, ss, i, u, u.n)
    ensures SizeSafety.BrokenOnlyAt(cs, ss, d, Print(u.id))
  {
    hide SizeSafety.BrokenOnlyAt, SizeSafety.Calm, SizeSafety.Orderly;
    hide Next, StoreInv, Valid, Parse, EqualFold, Node, Expanded, ValidName, StageRequest, Ensured, StageUpdate, PvOf;
    hide Races.StagedTooSmall;
    cs, ss := Begins(u);
    StaleFacts(u);
    PvFacts(u);
    assert Decays(Node(u.disk, u.id, 2), Node(u.disk, u.id, 0)) by { EmptyHost(u); }
    var v := Print(u.id);
    var more, steps := Races.ReadRacesPatch(Staged1(u), Call(u.n, v, 0), Call(u.n, v, 0), u.id.lv, 2 * EXTENT,
                                            Node(u.disk, u.id, 2), Node(u.disk, u.id, 0), EXTENT,
                                            Node(u.disk, u.id, 1));
    EndsTooSmall(u, cs, ss, more, steps, 3, u.n);
    BreaksOnce(cs, ss, more, steps, 2, v);
    d := |ss| + 2;
    cs, ss, i := cs + more[1..], ss + steps, |ss| + 3;
  }

  lemma EmptyHost(u: Setup)
    ensures Node(u.disk, u.id, 0).lvs == map[]
  {
  }

  /** What these races need of the staged volume. */
  lemma StaleFacts(u: Setup)
    requires Fine(u)
    ensures u.n != u.m && Carries(PvOf(u), Print(u.id))
    ensures StageUpdate(PvOf(u), u.m).Some? && StageRequest(PvOf(u)) == Some(Request(EXTENT, 0))
    ensures Valid(Node(u.disk, u.id, 0)) && Valid(Node(u.disk, u.id, 1)) && Valid(Node(u.disk, u.id, 2))
    ensures Expanded(Node(u.disk, u.id, 1), Print(u.id), 2 * EXTENT, Ok(2 * EXTENT), Node(u.disk, u.id, 2))
    ensures Ensured(Node(u.disk, u.id, 0), u.f, Print(u.id), EXTENT, 0, Ok(EXTENT), Node(u.disk, u.id, 1))
  {
    hide Valid, Expanded, Ensured, Parse, EqualFold, StageRequest, StageUpdate, ValidName;
    PvFacts(u);
    HandleOf(u);
    Distinct(u);
    GrowsByOne(u.disk, u.id, 1);
    MakesOne(u.disk, u.id, u.f);
  }

  /** A third one, without any overlap: the expansion could not read the PV. */
  lemma UnreadRun(u: Setup) returns (cs: seq<Cluster>, ss: seq<Step>, d: nat, i: nat)
    requires Fine(u)
    ensures TooSmall(cs, ss, i, u, u.m)
    ensures SizeSafety.BrokenOnlyAt(cs, ss, d, Print(u.id))
  {
    hide SizeSafety.BrokenOnlyAt, SizeSafety.Calm, SizeSafety.Orderly;
    hide Next, StoreInv, Valid, Parse, EqualFold, Node, Expanded, ValidName, StageRequest, Ensured, StageUpdate, PvOf;
    hide Races.StagedTooSmall;
    cs, ss := Begins(u);
    StaleFacts(u);
    var v := Print(u.id);
    var more, steps := Races.UnreadExpansion(Staged1(u), Call(u.m, v, 0), Call(u.n, v, 0), u.id.lv, 2 * EXTENT,
                                             Node(u.disk, u.id, 2), EXTENT, Node(u.disk, u.id, 1));
    EndsTooSmall(u, cs, ss, more, steps, 1, u.m);
    BreaksOnce(cs, ss, more, steps, 1, v);
    d := |ss| + 1;
    cs, ss, i := cs + more[1..], ss + steps, |ss| + 1;
  }

  /** The volume has failed over: it was staged on `m`, and `n` still has its old copy. */
  ghost predicate Moved(u: Setup, c: Cluster) {
    && StoreInv(c) && c.hosts == map[u.n := Node(u.disk, u.id, 1), u.m := Node(u.disk, u.id, 1)]
    && u.id.lv in c.pvs && c.pvs[u.id.lv] == SetOwner(PvOf(u), u.m) && c.growths == map[]
    && Print(u.id) in c.staged && c.staged[Print(u.id)] == u.m
  }

  /** The stage on the other node takes the volume over and makes it. */
  lemma OtherStages(u: Setup) returns (cs: seq<Cluster>, ss: seq<Step>)
    requires Fine(u) && StoreInv(Staged1(u))
    ensures Path(cs, ss) && |ss| == 3 && cs[0] == Staged1(u) && SizeSafety.Orderly(cs, ss, 3, Print(u.id))
    ensures var c := cs[3];
            && c.hosts == map[u.n := Node(u.disk, u.id, 1), u.m := Node(u.disk, u.id, 1)]
            && u.id.lv in c.pvs && c.pvs[u.id.lv] == SetOwner(PvOf(u), u.m)
            && c.growths == map[] && c.stages == map[] && Print(u.id) in c.staged && c.staged[Print(u.id)] == u.m
  {
    hide Next, StoreInv, Valid, Parse, EqualFold, Node, Ensured, ValidName, StageRequest, StageUpdate, UnderGc, PvOf;
    hide SizeSafety.Disorderly;
    StaleFacts(u);
    var c, call := Staged1(u), Call(u.m, Print(u.id), 0);
    var c1, c2 := TakesOver(c, call, u.id.lv);
    var after := Node(u.disk, u.id, 1);
    var c3 := Makes(c2, call, Ok(EXTENT), true, after);
    assert c3.hosts == map[u.n := after, u.m := after] && c3.stages == map[];
    cs := [c, c1, c2, c3];
    ss := [StageGet(call), StagePatch(call, true), StageEnsure(call, Ok(EXTENT), true, after)];
    NoGrowth(c, ss[0], Print(u.id));
    NoGrowth(c1, ss[1], Print(u.id));
    NoGrowth(c2, ss[2], Print(u.id));
  }

  lemma FailsOver(u: Setup) returns (cs: seq<Cluster>, ss: seq<Step>)
    requires Fine(u)
    ensures IsRun(cs, ss) && Moved(u, cs[|ss|])
    ensures SizeSafety.Orderly(cs, ss, |ss|, Print(u.id)) && SizeSafety.Calm(cs[|ss|], Print(u.id), u.m)
  {
    hide Next, Init, StoreInv, EqualFold, Node, PvOf, At, Staged1, Names;
    hide SizeSafety.Orderly;
    cs, ss := Begins(u);
    var more, steps := OtherStages(u);
    Continues(cs, ss, more, steps);
    StaysOrderly(cs, ss, more, steps, Print(u.id));
    assert |steps| == 3 && (cs + more[1..])[|ss| + 3] == more[3];
    cs, ss := cs + more[1..], ss + steps;
    StoreHolds(cs, ss, |ss|);
  }

  lemma StaysOrderly(cs: seq<Cluster>, ss: seq<Step>, more: seq<Cluster>, steps: seq<Step>, v: string)
    requires IsRun(cs, ss) && Path(more, steps) && more[0] == cs[|ss|]
    requires SizeSafety.Orderly(cs, ss, |ss|, v) && SizeSafety.Orderly(more, steps, |steps|, v)
    ensures SizeSafety.Orderly(cs + more[1..], ss + steps, |ss + steps|, v)
  {
    hide Next, Init;
    hide SizeSafety.Disorderly;
    var all, every := cs + more[1..], ss + steps;
    forall k | 0 <= k < |every|
      ensures !SizeSafety.Disorderly(all[k], every[k], v)
    {
      if k >= |ss| {
        assert all[k] == more[k - |ss|] && every[k] == steps[k - |ss|];
      }
    }
  }

  /** What a volume that has failed over can do next. */
  lemma MovedFacts(u: Setup)
    requires Fine(u)
    ensures u.n != u.m && Carries(SetOwner(PvOf(u), u.m), Print(u.id))
    ensures StageRequest(SetOwner(PvOf(u), u.m)) == Some(Request(EXTENT, 0))
    ensures Valid(Node(u.disk, u.id, 1)) && Valid(Node(u.disk, u.id, 2))
    ensures Expanded(Node(u.disk, u.id, 1), Print(u.id), 2 * EXTENT, Ok(2 * EXTENT), Node(u.disk, u.id, 2))
    ensures Expanded(Node(u.disk, u.id, 1), Print(u.id), EXTENT, Ok(EXTENT), Node(u.disk, u.id, 1))
    ensures Races.Smaller(Node(u.disk, u.id, 1), Print(u.id), 2 * EXTENT)
  {
    hide Valid, Parse, EqualFold, StageRequest, ValidName, StageUpdate, PerPv, Allocated;
    StaleFacts(u);
    HandleOf(u);
    TakenFacts(u);
    NodeValid(u.disk, u.id, 1);
  }

  /** A run in which two extents are reported and the record then goes down to one, one call
      after the other: the second expansion ran on the node the volume had left. */
  lemma ElsewhereRun(u: Setup) returns (cs: seq<Cluster>, ss: seq<Step>, d: nat)
    requires Fine(u)
    ensures IsRun(cs, ss) && |ss| > 4 && SizeSafety.Reports(cs[|ss| - 4], ss[|ss| - 4], Print(u.id), 2 * EXTENT)
    ensures SizeSafety.RecordOf(cs[|ss| - 3].pvs, Print(u.id)).Some?
    ensures SizeSafety.RecordOf(cs[|ss| - 3].pvs, Print(u.id)).value.capacity == 2 * EXTENT
    ensures SizeSafety.RecordOf(cs[|ss|].pvs, Print(u.id)).Some?
    ensures SizeSafety.RecordOf(cs[|ss|].pvs, Print(u.id)).value.capacity == EXTENT
    ensures SizeSafety.BrokenOnlyAt(cs, ss, d, Print(u.id))
  {
    hide SizeSafety.BrokenOnlyAt, SizeSafety.Calm, SizeSafety.Orderly;
    hide Next, StoreInv, Valid, Parse, EqualFold, Node, Expanded, ValidName, StageRequest, PvOf;
    hide SizeSafety.RecordOf, SizeSafety.Reports, Races.Smaller;
    var v := Print(u.id);
    cs, ss := FailsOver(u);
    MovedFacts(u);
    var more, steps := Races.ExpansionElsewhere(cs[|ss|], Call(u.m, v, 0), Call(u.n, v, 0), u.id.lv, 2 * EXTENT,
                                                Node(u.disk, u.id, 2), EXTENT);
    Continues(cs, ss, more, steps);
    assert (ss + steps)[|ss| + 2] == steps[2];
    BreaksOnce(cs, ss, more, steps, 4, v);
    d := |ss| + 4;
    cs, ss := cs + more[1..], ss + steps;
  }

  /** A run in which two extents are reported and a stage that could not read the PV then succeeds
      with the old copy of one. */
  lemma BlindRun(u: Setup) returns (cs: seq<Cluster>, ss: seq<Step>, d: nat)
    requires Fine(u)
    ensures IsRun(cs, ss) && |ss| > 2 && SizeSafety.Reports(cs[|ss| - 2], ss[|ss| - 2], Print(u.id), 2 * EXTENT)
    ensures ss[|ss| - 1] == StageBlind(u.n, Print(u.id))
    ensures u.n in cs[|ss|].hosts && Races.Smaller(cs[|ss|].hosts[u.n], Print(u.id), 2 * EXTENT)
    ensures SizeSafety.BrokenOnlyAt(cs, ss, d, Print(u.id))
  {
    hide SizeSafety.BrokenOnlyAt, SizeSafety.Calm, SizeSafety.Orderly;
    hide Next, StoreInv, Valid, Parse, EqualFold, Node, Expanded, ValidName, StageRequest, PvOf;
    hide SizeSafety.Reports, Races.Smaller;
    var v := Print(u.id);
    cs, ss := FailsOver(u);
    MovedFacts(u);
    var more, steps := Races.BlindStage(cs[|ss|], Call(u.m, v, 0), u.n, u.id.lv, 2 * EXTENT, Node(u.disk, u.id, 2));
    Continues(cs, ss, more, steps);
    assert (ss + steps)[|ss| + 2] == steps[2] && (ss + steps)[|ss| + 3] == steps[3];
    BreaksOnce(cs, ss, more, steps, 3, v);
    d := |ss| + 3;
    cs, ss := cs + more[1..], ss + steps;
  }
}
