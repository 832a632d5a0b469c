/** The LVM state of one node and the lvm2 commands the driver runs on it.

    The commands are the environment: each is given as the contract the driver relies on
    (round up to extents, refuse when there is no space, refuse what is in use, refuse what
    exists). Any command may also fail with `Fault`, which stands for a failure whose cause
    is outside this model; a command that fails changes nothing. On a `reliable` node none
    does, and then every contract gives the one possible answer. */
module Lvm {
  import opened Text
  import opened VolumeIds
  import opened Probe

  datatype Error =
    | NotFound | AlreadyExists | InUse | ResourceExhausted | StaleDeviceNode | PvInVolumeGroup
    | InvalidInput | InvalidArgument | SizeMismatch | VolumeNotFound | OutOfRange | FailedPrecondition | Fault
    | Panic   // the process would crash

  datatype Result<+T> = Ok(value: T) | Err(error: Error)

  const EXTENT: int := 4 * 1024 * 1024
  const ALIGNMENT: int := 1024 * 1024

  // ---------------------------------------------------------------- state

  /** `free[i]` is the number of free extents on `pvs[i]`. */
  datatype Vg = Vg(tagged: bool, pvs: seq<string>, free: seq<nat>)

  /** `perPv` is the number of extents the volume takes on each physical volume. */
  datatype Lv = Lv(size: int, perPv: nat, inUse: bool)

  datatype Pv = Pv(name: string, vg: string)

  /** A listing of the physical volumes: all of them, each once. */
  ghost predicate ListsPvs(list: seq<Pv>, pvs: map<string, string>) {
    && (forall i, j :: 0 <= i < j < |list| ==> list[i].name != list[j].name)
    && (forall pv :: pv in list <==> pv.name in pvs && pvs[pv.name] == pv.vg)
  }

  datatype Host = Host(
    devices: seq<Device>,
    signatures: map<string, Signature>,
    pvs: map<string, string>,       // physical volume -> its volume group, "" when in none
    vgs: map<string, Vg>,
    lvs: map<VolumeId, Lv>,
    nodes: set<VolumeId>,           // device files /dev/<vg>/<lv>, stale ones included
    dirs: set<string>)              // directories /dev/<vg>

  type Hosts = map<string, Host>

  /** lvm2's rule for volume group and logical volume names. */
  predicate ValidName(s: string) {
    && s != "" && s != "." && s != ".." && s[0] != '-'
    && forall i :: 0 <= i < |s| ==> NameChar(s[i])
  }

  predicate NameChar(c: char) {
    'a' <= c <= 'z' || 'A' <= c <= 'Z' || '0' <= c <= '9' || c == '+' || c == '_' || c == '.' || c == '-'
  }

  lemma ValidIsPrintable(id: VolumeId)
    requires ValidName(id.vg) && ValidName(id.lv)
    ensures Printable(id) && '/' !in id.vg && '/' !in id.lv
  {
  }

  predicate DistinctPaths(devices: seq<Device>) {
    forall i, j :: 0 <= i < j < |devices| ==> devices[i].path != devices[j].path
  }

  /** What lvm2 itself keeps true. */
  ghost predicate Valid(h: Host) {
    && ValidDisks(h.devices, h.signatures)
    && ValidLabels(h.signatures, h.pvs)
    && ValidMembers(h.pvs, h.vgs)
    && (forall v :: v in h.vgs ==> ValidName(v) && ValidVg(h.vgs[v]))
    && (forall id :: id in h.lvs ==> ValidName(id.lv) && id.vg in h.vgs && 0 < h.lvs[id].size)
  }

  predicate ValidDisks(devices: seq<Device>, signatures: map<string, Signature>) {
    && DistinctPaths(devices)
    && forall d :: d in devices ==> d.path != "" && d.path in signatures
  }

  /** A device carries the LVM2 signature exactly when it is a physical volume. */
  predicate ValidLabels(signatures: map<string, Signature>, pvs: map<string, string>) {
    && (forall p :: p in signatures ==> (signatures[p] == Lvm2 <==> p in pvs))
    && (forall p :: p in pvs ==> p in signatures)
  }

  /** Physical volumes and groups agree on who is in what. */
  predicate ValidMembers(pvs: map<string, string>, vgs: map<string, Vg>) {
    && (forall p :: p in pvs && pvs[p] != "" ==> pvs[p] in vgs && p in vgs[pvs[p]].pvs)
    && (forall v, p :: v in vgs && p in vgs[v].pvs ==> p in pvs && pvs[p] == v)
  }

  predicate ValidVg(g: Vg) {
    |g.pvs| > 0 && |g.free| == |g.pvs|
  }

  // ---------------------------------------------------------------- extents

  function CeilDiv(n: int, d: int): int
    requires d > 0
  {
    (n + d - 1) / d
  }

  /** Extents taken on each of `stripes` physical volumes by a volume of `size` bytes. */
  function PerPv(size: int, stripes: int): (n: int)
    requires stripes > 0
  {
    CeilDiv(CeilDiv(size, EXTENT), stripes)
  }

  /** The size lvcreate and lvextend really give. */
  function Allocated(size: int, stripes: int): int
    requires stripes > 0
  {
    PerPv(size, stripes) * stripes * EXTENT
  }

  lemma CeilDivBounds(n: int, d: int)
    requires d > 0
    ensures CeilDiv(n, d) * d >= n
    ensures CeilDiv(n, d) * d < n + d
    ensures n >= 0 ==> CeilDiv(n, d) >= 0
    ensures n > 0 ==> CeilDiv(n, d) > 0
  {
    var q, r := (n + d - 1) / d, (n + d - 1) % d;
    assert n + d - 1 == q * d + r;
    QuotientSign(q, d);
  }

  lemma QuotientSign(q: int, d: int)
    requires d > 0
    ensures q * d > 0 ==> q > 0
    ensures q * d > -d ==> q >= 0
  {
    MulMonotone(q, 0, d);
    MulMonotone(q + 1, 0, d);
    assert (q + 1) * d == q * d + d;
  }

  lemma MulMonotone(a: int, b: int, d: int)
    requires d > 0
    ensures a <= b <==> a * d <= b * d
  {
    var e := b - a;
    assert e * d == b * d - a * d;
    assert e >= 0 <==> e * d >= 0;
  }

  /** CeilDiv is the least quotient that covers `n`. */
  lemma CeilDivLeast(n: int, d: int, q: int)
    requires d > 0
    ensures CeilDiv(n, d) <= q <==> n <= q * d
  {
    CeilDivBounds(n, d);
    var c := CeilDiv(n, d);
    if c <= q {
      assert c * d <= q * d;
    } else {
      assert (q + 1) * d <= c * d;
      assert (q + 1) * d == q * d + d;
    }
  }

  /** A volume is at least as large as asked for, and less than one stripe row larger. */
  lemma AllocatedCovers(size: int, stripes: int)
    requires stripes > 0 && size > 0
    ensures PerPv(size, stripes) > 0
    ensures size <= Allocated(size, stripes) < size + EXTENT * stripes
  {
    var e := CeilDiv(size, EXTENT);
    CeilDivBounds(size, EXTENT);
    CeilDivBounds(e, stripes);
    var rows := PerPv(size, stripes) * stripes;
    assert e <= rows <= e + stripes - 1;
    assert Allocated(size, stripes) == rows * EXTENT;
    assert (e + stripes - 1) * EXTENT == e * EXTENT + stripes * EXTENT - EXTENT;
  }

  /** A volume of `size` bytes over `stripes` disks gets the least multiple of `stripes` 4 MiB
      extents that covers it: whatever multiple covers the request covers the volume. */
  lemma AllocatedLeast(size: int, stripes: int, n: int)
    requires stripes > 0
    ensures Allocated(size, stripes) == PerPv(size, stripes) * stripes * 4194304
    ensures size <= n * stripes * 4194304 <==> Allocated(size, stripes) <= n * stripes * 4194304
  {
    CeilDivLeast(CeilDiv(size, EXTENT), stripes, n);
    CeilDivLeast(size, EXTENT, n * stripes);
    MulMonotone(PerPv(size, stripes), n, stripes);
    MulMonotone(PerPv(size, stripes) * stripes, n * stripes, EXTENT);
  }

  predicate Fits(g: Vg, n: int) {
    forall i :: 0 <= i < |g.free| ==> n <= g.free[i]
  }

  function TakeExtents(g: Vg, n: int): Vg
    requires Fits(g, n)
  {
    g.(free := seq(|g.free|, i requires 0 <= i < |g.free| => g.free[i] - n))
  }

  function GiveExtents(g: Vg, n: nat): Vg {
    g.(free := seq(|g.free|, i requires 0 <= i < |g.free| => g.free[i] + n))
  }

  // ---------------------------------------------------------------- command effects

  function SizeOf(devices: seq<Device>, path: string): int {
    if devices == [] then 0
    else if devices[0].path == path then devices[0].size
    else SizeOf(devices[1..], path)
  }

  function Max(a: int, b: int): int { if a < b then b else a }

  /** Extents lvm2 makes of a disk: the first MiB is reserved, the rest is cut in extents. */
  function UsableExtents(size: int): nat {
    Max(size - ALIGNMENT, 0) / EXTENT
  }

  /** The extents of a disk take up the largest multiple of 4 MiB that fits behind its first MiB. */
  lemma UsableMeaning(size: int, n: nat)
    ensures n <= UsableExtents(size) <==> n == 0 || n * 4194304 <= size - 1048576
  {
    var q := UsableExtents(size);
    MulMonotone(n, q, EXTENT);
    MulMonotone(q + 1, n, EXTENT);
  }

  function PvCreated(h: Host, path: string): Host {
    h.(pvs := h.pvs[path := ""], signatures := h.signatures[path := Lvm2])
  }

  function PvRemoved(h: Host, path: string): Host {
    h.(pvs := h.pvs - {path}, signatures := h.signatures[path := Blank])
  }

  /** vgcreate --yes: whatever device it is handed becomes a physical volume of the group. */
  function VgCreated(h: Host, name: string, paths: seq<string>): Host {
    h.(pvs := h.pvs + (map p | p in paths :: name),
       signatures := h.signatures + (map p | p in paths :: Lvm2),
       vgs := h.vgs[name := Vg(true, paths, seq(|paths|, i requires 0 <= i < |paths| =>
                                              UsableExtents(SizeOf(h.devices, paths[i]))))])
  }

  /** vgremove --yes: the group goes together with whatever volumes it holds. */
  function VgRemoved(h: Host, name: string): Host {
    h.(pvs := map p | p in h.pvs :: if h.pvs[p] == name then "" else h.pvs[p],
       vgs := h.vgs - {name},
       lvs := map id | id in h.lvs && id.vg != name :: h.lvs[id])
  }

  function LvCreated(h: Host, id: VolumeId, size: int): Host
    requires id.vg in h.vgs && ValidVg(h.vgs[id.vg]) && size > 0
    requires Fits(h.vgs[id.vg], PerPv(size, |h.vgs[id.vg].pvs|))
  {
    var g := h.vgs[id.vg];
    var k := |g.pvs|;
    AllocatedCovers(size, k);
    h.(lvs := h.lvs[id := Lv(Allocated(size, k), PerPv(size, k), false)],
       vgs := h.vgs[id.vg := TakeExtents(g, PerPv(size, k))],
       nodes := h.nodes + {id}, dirs := h.dirs + {id.vg})
  }

  function LvExtended(h: Host, id: VolumeId, size: int): Host
    requires id in h.lvs && id.vg in h.vgs && ValidVg(h.vgs[id.vg]) && size > h.lvs[id].size > 0
    requires Fits(h.vgs[id.vg], PerPv(size, |h.vgs[id.vg].pvs|) - h.lvs[id].perPv)
  {
    var g := h.vgs[id.vg];
    var k := |g.pvs|;
    AllocatedCovers(size, k);
    h.(lvs := h.lvs[id := h.lvs[id].(size := Allocated(size, k), perPv := PerPv(size, k))],
       vgs := h.vgs[id.vg := TakeExtents(g, PerPv(size, k) - h.lvs[id].perPv)])
  }

  /** lvremove gives the extents back. With udev disabled its device file, or the group's
      directory, may be left behind. */
  ghost predicate LvRemoved(h: Host, id: VolumeId, h': Host) {
    && id in h.lvs
    && h' == h.(lvs := h.lvs - {id},
                vgs := if id.vg in h.vgs then h.vgs[id.vg := GiveExtents(h.vgs[id.vg], h.lvs[id].perPv)] else h.vgs,
                nodes := h'.nodes, dirs := h'.dirs)
    && h.nodes - {id} <= h'.nodes <= h.nodes
    && h.dirs - {id.vg} <= h'.dirs <= h.dirs
  }

  /** Only device files and directories differ, and no file of a volume in metadata is gone. */
  ghost predicate NodesReconciled(h: Host, h': Host) {
    && h' == h.(nodes := h'.nodes, dirs := h'.dirs)
    && forall id :: id in h.lvs && id in h.nodes ==> id in h'.nodes
  }

  lemma ExtentsKeepMembers(h: Host, v: string, g: Vg)
    requires Valid(h) && v in h.vgs && g.pvs == h.vgs[v].pvs
    ensures ValidMembers(h.pvs, h.vgs[v := g])
  {
  }

  lemma LvCreatedValid(h: Host, id: VolumeId, size: int)
    requires Valid(h) && id.vg in h.vgs && size > 0 && ValidName(id.lv)
    requires Fits(h.vgs[id.vg], PerPv(size, |h.vgs[id.vg].pvs|))
    ensures Valid(LvCreated(h, id, size))
  {
    AllocatedCovers(size, |h.vgs[id.vg].pvs|);
    ExtentsKeepMembers(h, id.vg, LvCreated(h, id, size).vgs[id.vg]);
  }

  lemma LvExtendedValid(h: Host, id: VolumeId, size: int)
    requires Valid(h) && id in h.lvs && size > h.lvs[id].size
    requires Fits(h.vgs[id.vg], PerPv(size, |h.vgs[id.vg].pvs|) - h.lvs[id].perPv)
    ensures Valid(LvExtended(h, id, size))
  {
    AllocatedCovers(size, |h.vgs[id.vg].pvs|);
    ExtentsKeepMembers(h, id.vg, LvExtended(h, id, size).vgs[id.vg]);
  }

  lemma LvRemovedValid(h: Host, id: VolumeId, h': Host)
    requires Valid(h) && LvRemoved(h, id, h')
    ensures Valid(h')
  {
    ExtentsKeepMembers(h, id.vg, h'.vgs[id.vg]);
  }

  /** Disks of the node that are in no group. */
  predicate FreeDisks(h: Host, paths: seq<string>) {
    forall p :: p in paths ==> p in h.signatures && (p in h.pvs ==> h.pvs[p] == "")
  }

  lemma VgCreatedValid(h: Host, name: string, paths: seq<string>)
    requires Valid(h) && name !in h.vgs && ValidName(name) && |paths| > 0 && FreeDisks(h, paths)
    ensures Valid(VgCreated(h, name, paths))
  {
    var h' := VgCreated(h, name, paths);
    assert ValidLabels(h'.signatures, h'.pvs);
    NewGroupMembers(h.pvs, h.vgs, name, h'.vgs[name]);
  }

  lemma NewGroupMembers(pvs: map<string, string>, vgs: map<string, Vg>, name: string, g: Vg)
    requires ValidMembers(pvs, vgs) && name !in vgs && name != "" && "" !in vgs
    requires forall p :: p in g.pvs && p in pvs ==> pvs[p] == ""
    ensures ValidMembers(pvs + (map p | p in g.pvs :: name), vgs[name := g])
  {
  }

  /** Removing the volume just created gives every extent back. */
  lemma CreateThenRemove(h: Host, id: VolumeId, size: int, h': Host)
    requires Valid(h) && id.vg in h.vgs && id !in h.lvs && size > 0
    requires Fits(h.vgs[id.vg], PerPv(size, |h.vgs[id.vg].pvs|))
    requires LvRemoved(LvCreated(h, id, size), id, h')
    ensures h'.vgs == h.vgs && h'.lvs == h.lvs && h'.pvs == h.pvs && h'.signatures == h.signatures
  {
    AllocatedCovers(size, |h.vgs[id.vg].pvs|);
    assert h'.vgs[id.vg].free == h.vgs[id.vg].free;
    assert h'.lvs == h.lvs;
  }

  // ---------------------------------------------------------------- the command client

  predicate Corrupted(h: Host, id: VolumeId) {
    id in h.lvs && id !in h.nodes
  }

  /** There is room for a new volume over all physical volumes of its group. */
  predicate Creatable(h: Host, id: VolumeId, size: int, stripes: int) {
    && id.vg in h.vgs && ValidVg(h.vgs[id.vg]) && id !in h.lvs && size > 0 && stripes == |h.vgs[id.vg].pvs|
    && Fits(h.vgs[id.vg], PerPv(size, stripes))
  }

  /** There is room for the volume to grow to `size`. */
  predicate Extendable(h: Host, id: VolumeId, size: int) {
    && id in h.lvs && id.vg in h.vgs && ValidVg(h.vgs[id.vg]) && size > h.lvs[id].size > 0
    && Fits(h.vgs[id.vg], PerPv(size, |h.vgs[id.vg].pvs|) - h.lvs[id].perPv)
  }

  /** The lvm client of a node: every method is one command, or the client's own sequence of
      commands and file operations. */
  class Manager {
    var host: Host
    const reliable: bool     // no command fails for a reason outside this model

    constructor (h: Host, r: bool)
      ensures host == h && reliable == r
    {
      host, reliable := h, r;
    }

    method GetLogicalVolume(id: VolumeId) returns (r: Result<Lv>)
      ensures r == Err(Fault) ||
              r == if !ValidName(id.vg) || !ValidName(id.lv) then Err(InvalidInput)
                   else if id in host.lvs then Ok(host.lvs[id]) else Err(NotFound)
      ensures reliable ==> r != Err(Fault)
    {
      if !reliable { if * { return Err(Fault); } }
      if !ValidName(id.vg) || !ValidName(id.lv) { return Err(InvalidInput); }
      if id in host.lvs { return Ok(host.lvs[id]); }
      return Err(NotFound);
    }

    method GetVolumeGroup(name: string) returns (r: Result<Vg>)
      ensures r == Err(Fault) ||
              r == if !ValidName(name) then Err(InvalidInput)
                   else if name in host.vgs then Ok(host.vgs[name]) else Err(NotFound)
      ensures reliable ==> r != Err(Fault)
    {
      if !reliable { if * { return Err(Fault); } }
      if !ValidName(name) { return Err(InvalidInput); }
      if name in host.vgs { return Ok(host.vgs[name]); }
      return Err(NotFound);
    }

    /** The group a physical volume is in, "" for none. */
    method GetPhysicalVolume(path: string) returns (r: Result<string>)
      ensures r == Err(Fault) || r == if path in host.pvs then Ok(host.pvs[path]) else Err(NotFound)
      ensures reliable ==> r != Err(Fault)
    {
      if !reliable { if * { return Err(Fault); } }
      if path in host.pvs { return Ok(host.pvs[path]); }
      return Err(NotFound);
    }

    /** IsLogicalVolumeCorrupted: in metadata, but without its device file. */
    method IsLogicalVolumeCorrupted(id: VolumeId) returns (r: Result<bool>)
      ensures r == Err(Fault) ||
              r == if !ValidName(id.vg) || !ValidName(id.lv) then Err(InvalidInput) else Ok(Corrupted(host, id))
      ensures reliable ==> r != Err(Fault)
    {
      var lv := GetLogicalVolume(id);
      if lv.Err? {
        if lv.error == NotFound { return Ok(false); }
        return Err(lv.error);
      }
      if !reliable { if * { return Err(Fault); } }
      return Ok(id !in host.nodes);
    }

    /** CreatePhysicalVolume: refuses a device that carries a foreign signature. */
    method CreatePhysicalVolume(path: string) returns (r: Result<()>)
      modifies this
      ensures r.Ok? ==> path in old(host).signatures &&
                        host == match old(host).signatures[path]
                                case Blank => PvCreated(old(host), path)
                                case _ => old(host)
      ensures r.Ok? ==> old(host).signatures[path] != Foreign
      ensures r.Err? ==> host == old(host) && (r.error == Fault || r.error == InUse)
      ensures r == Err(InUse) ==> path in host.signatures && host.signatures[path] == Foreign
      ensures reliable && path in old(host).signatures ==> r != Err(Fault)
    {
      if path !in host.signatures { return Err(Fault); }
      if !reliable { if * { return Err(Fault); } }
      var formatted := host.signatures[path] != Blank;
      var isLvm := host.signatures[path] == Lvm2;
      if isLvm { return Ok(()); }
      if formatted { return Err(InUse); }
      if !reliable { if * { return Err(Fault); } }
      host := PvCreated(host, path);
      return Ok(());
    }

    method RemovePhysicalVolume(path: string) returns (r: Result<()>)
      modifies this
      ensures r.Ok? ==> path in old(host).pvs && old(host).pvs[path] == "" && host == PvRemoved(old(host), path)
      ensures r.Err? ==> host == old(host) && r.error in {Fault, NotFound, PvInVolumeGroup}
      ensures r == Err(NotFound) ==> path !in host.pvs
      ensures r == Err(PvInVolumeGroup) ==> path in host.pvs && host.pvs[path] != ""
      ensures reliable ==> r != Err(Fault)
    {
      if !reliable { if * { return Err(Fault); } }
      if path !in host.pvs { return Err(NotFound); }
      if host.pvs[path] != "" { return Err(PvInVolumeGroup); }
      host := PvRemoved(host, path);
      return Ok(());
    }

    method CreateVolumeGroup(name: string, paths: seq<string>) returns (r: Result<()>)
      requires Valid(host)
      modifies this
      ensures Valid(host)
      ensures r.Ok? ==> name !in old(host).vgs && ValidName(name) && paths != [] && FreeDisks(old(host), paths) &&
                        host == VgCreated(old(host), name, paths)
      ensures r.Err? ==> host == old(host)
      ensures r == Err(AlreadyExists) ==> name in host.vgs
      ensures r == Err(StaleDeviceNode) ==> name in host.dirs && name !in host.vgs
      ensures r == Err(NotFound) || r == Err(PvInVolumeGroup) ==> !FreeDisks(host, paths)
      ensures r == Err(InvalidInput) ==> !ValidName(name) || paths == []
      ensures r.Err? ==> r.error in {Fault, AlreadyExists, StaleDeviceNode, NotFound, PvInVolumeGroup, InvalidInput}
      ensures reliable ==> r != Err(Fault)
    {
      if !reliable { if * { return Err(Fault); } }
      if !ValidName(name) || paths == [] { return Err(InvalidInput); }
      if name in host.vgs { return Err(AlreadyExists); }
      if name in host.dirs { return Err(StaleDeviceNode); }
      if exists i :: 0 <= i < |paths| && paths[i] !in host.signatures { return Err(NotFound); }
      if exists i :: 0 <= i < |paths| && paths[i] in host.pvs && host.pvs[paths[i]] != "" {
        return Err(PvInVolumeGroup);
      }
      VgCreatedValid(host, name, paths);
      host := VgCreated(host, name, paths);
      return Ok(());
    }

    method RemoveVolumeGroup(name: string) returns (r: Result<()>)
      modifies this
      ensures r.Ok? ==> name in old(host).vgs &&
                        host == VgRemoved(old(host), name).(nodes := host.nodes, dirs := host.dirs)
      ensures r.Err? ==> host == old(host) && r.error in {Fault, NotFound, InUse}
      ensures r == Err(NotFound) ==> name !in host.vgs
      ensures r == Err(InUse) ==> exists id :: id in host.lvs && id.vg == name && host.lvs[id].inUse
      ensures reliable ==> r != Err(Fault)
    {
      if !reliable { if * { return Err(Fault); } }
      if name !in host.vgs { return Err(NotFound); }
      if exists id :: id in host.lvs && id.vg == name && host.lvs[id].inUse { return Err(InUse); }
      host := VgRemoved(host, name).(nodes := set id | id in host.nodes && id.vg != name);
      return Ok(());
    }

    /** CreateLogicalVolume: lvcreate over all physical volumes of the group, then a re-read
        of the volume. The re-read can fail after the volume has been made. */
    method CreateLogicalVolume(id: VolumeId, size: int, stripes: int) returns (r: Result<int>)
      requires Valid(host)
      modifies this
      ensures Valid(host)
      ensures r.Ok? ==> Creatable(old(host), id, size, stripes) && host == LvCreated(old(host), id, size) &&
                        r.value == Allocated(size, stripes)
      ensures r.Err? ==> host == old(host) ||
                         (r.error == Fault && Creatable(old(host), id, size, stripes) &&
                          host == LvCreated(old(host), id, size))
      ensures r == Err(ResourceExhausted) ==>
                id.vg in host.vgs && stripes > 0 && !Fits(host.vgs[id.vg], PerPv(size, stripes))
      ensures r == Err(AlreadyExists) ==> id in old(host).lvs
      ensures r == Err(NotFound) ==> id.vg !in host.vgs
      ensures r == Err(InvalidInput) ==> !ValidName(id.vg) || !ValidName(id.lv) || size <= 0 || stripes <= 0 ||
                                         (id.vg in host.vgs && stripes > |host.vgs[id.vg].pvs|)
      ensures r.Err? ==> r.error in {Fault, ResourceExhausted, AlreadyExists, NotFound, InvalidInput}
      ensures reliable && id.vg in host.vgs && stripes == |host.vgs[id.vg].pvs| ==> r != Err(Fault)
    {
      if !reliable { if * { return Err(Fault); } }
      if !ValidName(id.vg) || !ValidName(id.lv) || size <= 0 || stripes <= 0 { return Err(InvalidInput); }
      if id.vg !in host.vgs { return Err(NotFound); }
      if stripes > |host.vgs[id.vg].pvs| { return Err(InvalidInput); }
      if stripes < |host.vgs[id.vg].pvs| { return Err(Fault); }  // a layout outside this model
      if id in host.lvs { return Err(AlreadyExists); }
      if !Fits(host.vgs[id.vg], PerPv(size, stripes)) { return Err(ResourceExhausted); }
      LvCreatedValid(host, id, size);
      host := LvCreated(host, id, size);
      var lv := GetLogicalVolume(id);
      if lv.Err? { return Err(lv.error); }
      return Ok(lv.value.size);
    }

    /** RemoveLogicalVolume: the name must be `vg/lv`, and the volume not in use. */
    method RemoveLogicalVolume(id: VolumeId) returns (r: Result<()>)
      modifies this
      ensures r.Ok? ==> LvRemoved(old(host), id, host) && !old(host).lvs[id].inUse
      ensures r.Err? ==> host == old(host)
      ensures r == Err(NotFound) ==> id !in host.lvs
      ensures r == Err(InUse) ==> id in host.lvs && host.lvs[id].inUse
      ensures r == Err(InvalidInput) <==> '/' in id.vg || '/' in id.lv
      ensures r.Err? ==> r.error in {Fault, NotFound, InUse, InvalidInput}
      ensures reliable ==> r != Err(Fault)
    {
      if '/' in id.vg || '/' in id.lv { return Err(InvalidInput); }
      if !reliable { if * { return Err(Fault); } }
      if id !in host.lvs { return Err(NotFound); }
      if host.lvs[id].inUse { return Err(InUse); }
      var nodes, dirs := host.nodes - {id}, host.dirs;
      if * { nodes := host.nodes; }
      if * { dirs := dirs - {id.vg}; }
      host := host.(lvs := host.lvs - {id},
                    vgs := if id.vg in host.vgs
                           then host.vgs[id.vg := GiveExtents(host.vgs[id.vg], host.lvs[id].perPv)] else host.vgs,
                    nodes := nodes, dirs := dirs);
      return Ok(());
    }

    method ExtendLogicalVolume(id: VolumeId, size: int) returns (r: Result<()>)
      requires Valid(host)
      modifies this
      ensures Valid(host)
      ensures r.Ok? ==> Extendable(old(host), id, size) && host == LvExtended(old(host), id, size)
      ensures r.Err? ==> host == old(host) && r.error in {Fault, ResourceExhausted, NotFound, InvalidInput}
      ensures r == Err(ResourceExhausted) ==> id in host.lvs && size > host.lvs[id].size && !Extendable(host, id, size)
      ensures r == Err(NotFound) ==> id !in host.lvs
      ensures r == Err(InvalidInput) ==> id in host.lvs && size <= host.lvs[id].size
      ensures reliable ==> r != Err(Fault)
    {
      if !reliable { if * { return Err(Fault); } }
      if id !in host.lvs { return Err(NotFound); }
      if size <= host.lvs[id].size { return Err(InvalidInput); }
      var k := |host.vgs[id.vg].pvs|;
      if !Fits(host.vgs[id.vg], PerPv(size, k) - host.lvs[id].perPv) { return Err(ResourceExhausted); }
      LvExtendedValid(host, id, size);
      host := LvExtended(host, id, size);
      return Ok(());
    }

    /** vgmknodes over all groups: makes missing files of volumes in metadata, removes files
        of volumes that are not, touches nothing else. */
    method MakeDeviceNodes() returns (r: Result<()>)
      modifies this
      ensures NodesReconciled(old(host), host) && host.dirs == old(host).dirs
      ensures r.Err? ==> r.error == Fault && host == old(host)
      ensures reliable ==> r != Err(Fault)
    {
      if !reliable { if * { return Err(Fault); } }
      var stale :| stale <= host.nodes && stale !! host.lvs.Keys;
      var missing :| missing <= host.lvs.Keys;
      host := host.(nodes := host.nodes - stale + missing);
      return Ok(());
    }

    /** RemoveStaleDeviceMapperNodes: a no-op while the group is in metadata, otherwise the
        files under /dev/<vg> are removed one by one and then the directory. */
    method RemoveStaleDeviceMapperNodes(name: string) returns (r: Result<()>)
      requires Valid(host)
      modifies this
      ensures NodesReconciled(old(host), host)
      ensures name in old(host).vgs ==> host == old(host)
      ensures forall id :: id in old(host).nodes && id !in host.nodes ==> id !in host.lvs
      ensures r.Err? ==> r.error == Fault || (r.error == InvalidInput && !ValidName(name))
      ensures !ValidName(name) ==> r.Err? && host == old(host)
      ensures r.Ok? && name !in host.vgs && name in old(host).dirs ==> forall id :: id in host.nodes ==> id.vg != name
      ensures old(host).dirs - {name} <= host.dirs <= old(host).dirs
      ensures reliable ==> r != Err(Fault) && (r.Ok? && name !in host.vgs ==> name !in host.dirs)
    {
      if name == "" || '/' in name || name == "." || name == ".." { return Err(InvalidInput); }
      var vg := GetVolumeGroup(name);
      if vg.Err? && vg.error != NotFound { return Err(vg.error); }
      if vg.Ok? { return Ok(()); }
      var made := MakeDeviceNodes();
      if made.Err? { return Err(made.error); }
      if name !in host.dirs { return Ok(()); }
      if !reliable { if * { return Err(Fault); } }
      var entries := set id | id in host.nodes && id.vg == name;
      while entries != {}
        invariant host == old(host).(nodes := host.nodes, dirs := host.dirs) && host.dirs == old(host).dirs
        invariant forall id :: id in entries ==> id.vg == name
        invariant forall id :: id in host.nodes && id.vg == name ==> id in entries
        invariant forall id :: id in old(host).nodes && id !in host.nodes ==> id !in host.lvs
        decreases entries
      {
        var e :| e in entries;
        if !reliable { if * { return Err(Fault); } }
        host := host.(nodes := host.nodes - {e});
        entries := entries - {e};
      }
      var emptied := reliable;
      if * { emptied := true; }
      if emptied {
        host := host.(dirs := host.dirs - {name});
      }
      return Ok(());
    }

    /** The names of the volume groups, each once, in some order. */
    method ListVolumeGroups(taggedOnly: bool) returns (r: Result<seq<string>>)
      ensures r == Err(Fault) ||
              (r.Ok? && NoDuplicates(r.value) &&
               forall v :: v in r.value <==> v in host.vgs && (taggedOnly ==> host.vgs[v].tagged))
      ensures reliable ==> r != Err(Fault)
    {
      if !reliable { if * { return Err(Fault); } }
      var names := ListSet(set v | v in host.vgs && (taggedOnly ==> host.vgs[v].tagged));
      return Ok(names);
    }

    /** The physical volumes with the group each is in, each once, in some order. */
    method ListPhysicalVolumes() returns (r: Result<seq<Pv>>)
      ensures r == Err(Fault) || (r.Ok? && ListsPvs(r.value, host.pvs))
      ensures reliable ==> r != Err(Fault)
    {
      if !reliable { if * { return Err(Fault); } }
      var names := ListSet(host.pvs.Keys);
      var list: seq<Pv> := [];
      for i := 0 to |names|
        invariant |list| == i
        invariant forall k :: 0 <= k < i ==> names[k] in host.pvs && list[k] == Pv(names[k], host.pvs[names[k]])
      {
        assert names[i] in names;
        list := list + [Pv(names[i], host.pvs[names[i]])];
      }
      forall p | p in host.pvs
        ensures Pv(p, host.pvs[p]) in list
      {
        assert p in names;
        var i :| 0 <= i < |names| && names[i] == p;
        assert list[i] in list;
      }
      return Ok(list);
    }

    /** The logical volumes of one group, each once, in some order. */
    method ListLogicalVolumes(vg: string) returns (r: Result<seq<string>>)
      ensures r == Err(Fault) ||
              (r.Ok? && NoDuplicates(r.value) && forall lv :: lv in r.value <==> VolumeId(vg, lv) in host.lvs)
      ensures reliable ==> r != Err(Fault)
    {
      if !reliable { if * { return Err(Fault); } }
      var names := ListSet(set id | id in host.lvs && id.vg == vg :: id.lv);
      assert forall lv :: VolumeId(vg, lv) in host.lvs ==> VolumeId(vg, lv).lv in names;
      return Ok(names);
    }
  }

  lemma OneMore(r: seq<string>, x: string)
    requires NoDuplicates(r) && x !in r
    ensures NoDuplicates(r + [x])
  {
    forall i, j | 0 <= i < j < |r + [x]|
      ensures (r + [x])[i] != (r + [x])[j]
    {
      assert r[i] in r;
    }
  }

  /** Some enumeration of a set. */
  method ListSet(s: set<string>) returns (r: seq<string>)
    ensures NoDuplicates(r) && forall x :: x in r <==> x in s
  {
    r := [];
    var rest := s;
    while rest != {}
      invariant rest <= s && NoDuplicates(r) && forall x :: x in r <==> x in s - rest
      decreases rest
    {
      var x :| x in rest;
      OneMore(r, x);
      r := r + [x];
      rest := rest - {x};
    }
  }
}
