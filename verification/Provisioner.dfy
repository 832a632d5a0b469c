/** The LVM provisioner: physical volumes, the volume group, and the logical volume. */
module Provisioner {
  import opened Text
  import opened VolumeIds
  import opened Probe
  import opened Lvm

  // ---------------------------------------------------------------- labelling disks

  function AvailableOn(h: Host, f: Filter): seq<Device> {
    Available(h.devices, h.signatures, f)
  }

  function Paths(devices: seq<Device>): (r: seq<string>)
    ensures |r| == |devices| && forall i :: 0 <= i < |r| ==> r[i] == devices[i].path
  {
    seq(|devices|, i requires 0 <= i < |devices| => devices[i].path)
  }

  function PathSet(devices: seq<Device>): set<string> {
    set d | d in devices :: d.path
  }

  /** Make a disk a physical volume unless it already is one. */
  function Label(h: Host, path: string): Host {
    if path in h.pvs then h else PvCreated(h, path)
  }

  function LabelAll(h: Host, devices: seq<Device>): Host {
    if devices == [] then h
    else Label(LabelAll(h, devices[..|devices| - 1]), devices[|devices| - 1].path)
  }

  /** Labelling adds exactly the given disks as unassigned physical volumes. */
  ghost predicate LabelsOnly(h: Host, paths: set<string>, h': Host) {
    && h' == h.(pvs := h'.pvs, signatures := h'.signatures)
    && (forall p :: p in h'.pvs <==> p in h.pvs || p in paths)
    && (forall p :: p in h'.pvs ==> h'.pvs[p] == if p in h.pvs then h.pvs[p] else "")
    && h'.signatures.Keys == h.signatures.Keys
    && (forall p :: p in h.signatures ==>
          h'.signatures[p] == if p in paths then Lvm2 else h.signatures[p])
  }

  lemma {:induction false} LabelAllFacts(h: Host, devices: seq<Device>)
    requires Valid(h)
    requires forall d :: d in devices ==> d.path in h.signatures
    ensures LabelsOnly(h, PathSet(devices), LabelAll(h, devices))
    ensures Valid(LabelAll(h, devices))
  {
    if devices != [] {
      var n := |devices| - 1;
      LabelAllFacts(h, devices[..n]);
      var mid, last := LabelAll(h, devices[..n]), LabelAll(h, devices);
      assert devices == devices[..n] + [devices[n]];
      assert PathSet(devices) == PathSet(devices[..n]) + {devices[n].path};
      LabelStep(h, PathSet(devices[..n]), devices[n].path, mid, last);
      assert ValidLabels(last.signatures, last.pvs);
      if devices[n].path !in mid.pvs {
        UnassignedKeepsMembers(mid.pvs, mid.vgs, devices[n].path);
      }
    }
  }

  lemma LabelStep(h: Host, paths: set<string>, p: string, mid: Host, last: Host)
    requires LabelsOnly(h, paths, mid) && p in h.signatures && last == Label(mid, p)
    requires ValidLabels(mid.signatures, mid.pvs)
    ensures LabelsOnly(h, paths + {p}, last)
  {
  }

  lemma UnassignedKeepsMembers(pvs: map<string, string>, vgs: map<string, Vg>, p: string)
    requires ValidMembers(pvs, vgs) && p !in pvs
    ensures ValidMembers(pvs[p := ""], vgs)
  {
  }

  /** Not part of a group other than `vg`. */
  predicate FreeFor(h: Host, vg: string, d: Device) {
    d.path in h.pvs ==> h.pvs[d.path] == "" || h.pvs[d.path] == vg
  }

  function FreeAmong(h: Host, vg: string, devices: seq<Device>): (r: seq<Device>)
    ensures forall d :: d in r <==> d in devices && FreeFor(h, vg, d)
  {
    if devices == [] then []
    else
      var d, rest := devices[|devices| - 1], FreeAmong(h, vg, devices[..|devices| - 1]);
      if FreeFor(h, vg, d) then rest + [d] else rest
  }

  /** One more disk is kept if it is free for the group. */
  lemma FreeNext(h: Host, vg: string, devices: seq<Device>, i: nat)
    requires i < |devices|
    ensures Paths(FreeAmong(h, vg, devices[..i + 1])) ==
            Paths(FreeAmong(h, vg, devices[..i])) + if FreeFor(h, vg, devices[i]) then [devices[i].path] else []
  {
    var more := devices[..i + 1];
    assert more[..i] == devices[..i] && more[i] == devices[i];
  }

  /** One more disk is labelled if need be, and its group tells whether it is free. */
  lemma LabelNext(h: Host, vg: string, devices: seq<Device>, i: nat)
    requires Valid(h) && i < |devices| && forall d :: d in devices ==> d.path in h.signatures
    ensures var p, next := devices[i].path, LabelAll(h, devices[..i + 1]);
            && next == Label(LabelAll(h, devices[..i]), p) && Valid(next)
            && p in next.pvs && (next.pvs[p] == "" || next.pvs[p] == vg <==> FreeFor(h, vg, devices[i]))
  {
    hide Valid;
    var more := devices[..i + 1];
    assert more[..i] == devices[..i] && more[i] == devices[i];
    LabelAllFacts(h, more);
    assert devices[i].path in PathSet(more);
  }

  /** Labelling the disks before it leaves a scanned disk free of foreign signatures. */
  lemma StillTakeable(h: Host, f: Filter, i: nat)
    requires Valid(h) && i < |AvailableOn(h, f)|
    ensures var p, mid := AvailableOn(h, f)[i].path, LabelAll(h, AvailableOn(h, f)[..i]);
            p != "" && p in mid.signatures && mid.signatures[p] != Foreign
  {
    var all := AvailableOn(h, f);
    assert all[i] in all && all[i] in h.devices;
    assert forall d :: d in all[..i] ==> d in all;
    LabelAllFacts(h, all[..i]);
  }

  /** The disks a volume group of that name would be built from. */
  function Eligible(h: Host, f: Filter, vg: string): seq<Device> {
    FreeAmong(h, vg, AvailableOn(h, f))
  }

  lemma FreeSnoc(h: Host, vg: string, devices: seq<Device>, d: Device)
    ensures FreeAmong(h, vg, devices + [d]) ==
            FreeAmong(h, vg, devices) + if FreeFor(h, vg, d) then [d] else []
  {
    hide FreeFor;
    assert (devices + [d])[..|devices|] == devices;
  }

  lemma {:induction false} FreeConcat(h: Host, vg: string, a: seq<Device>, b: seq<Device>)
    ensures FreeAmong(h, vg, a + b) == FreeAmong(h, vg, a) + FreeAmong(h, vg, b)
  {
    hide FreeFor;
    if b == [] {
      assert a + b == a;
    } else {
      var front, last := b[..|b| - 1], b[|b| - 1];
      FreeConcat(h, vg, a, front);
      FreeSnoc(h, vg, a + front, last);
      assert a + b == a + front + [last];
    }
  }

  /** Of the scanned disks exactly those that are no physical volume, or one in no group or in
      this very group, are kept, each in its place. */
  lemma FreeSplit(h: Host, vg: string, a: seq<Device>, d: Device, b: seq<Device>)
    ensures FreeAmong(h, vg, a + [d] + b) ==
            FreeAmong(h, vg, a) +
            (if d.path !in h.pvs || h.pvs[d.path] == "" || h.pvs[d.path] == vg then [d] else []) +
            FreeAmong(h, vg, b)
  {
    assert FreeFor(h, vg, d) <==> d.path !in h.pvs || h.pvs[d.path] == "" || h.pvs[d.path] == vg;
    hide FreeFor, FreeAmong;
    FreeConcat(h, vg, a + [d], b);
    FreeSnoc(h, vg, a, d);
  }

  lemma EligibleFacts(h: Host, f: Filter, vg: string)
    requires Valid(h) && vg !in h.vgs
    ensures forall d :: d in AvailableOn(h, f) ==> d.path in h.signatures && h.signatures[d.path] != Foreign
    ensures forall d :: d in Eligible(h, f, vg) ==>
              Match(f, d) && d.path in h.signatures && h.signatures[d.path] != Foreign &&
              (d.path in h.pvs ==> h.pvs[d.path] == "")
  {
    forall d | d in Eligible(h, f, vg)
      ensures d.path in h.pvs ==> h.pvs[d.path] == ""
    {
      if d.path in h.pvs {
        var v := h.pvs[d.path];
        assert v == "" || v in h.vgs;
      }
    }
  }

  // ---------------------------------------------------------------- what a request leads to

  predicate BadRange(capacity: int, limit: int) {
    capacity <= 0 || limit < 0 || (limit > 0 && limit < capacity)
  }

  /** The answer for a healthy volume that is already there. */
  function Existing(size: int, capacity: int, limit: int): Result<int> {
    if size < capacity || (limit > 0 && size > limit) then Err(SizeMismatch) else Ok(size)
  }

  datatype Outcome = Outcome(result: Result<int>, host: Host)

  function Allocate(h: Host, id: VolumeId, capacity: int): Outcome
    requires id.vg in h.vgs && ValidVg(h.vgs[id.vg]) && capacity > 0
  {
    var k := |h.vgs[id.vg].pvs|;
    if Fits(h.vgs[id.vg], PerPv(capacity, k))
    then Outcome(Ok(Allocated(capacity, k)), LvCreated(h, id, capacity))
    else Outcome(Err(ResourceExhausted), h)
  }

  function Grouped(h: Host, f: Filter, vg: string): Host {
    VgCreated(LabelAll(h, AvailableOn(h, f)), vg, Paths(Eligible(h, f, vg)))
  }

  /** The outcome of creating a missing volume when no command faults. */
  function Plan(h: Host, f: Filter, id: VolumeId, capacity: int): Outcome
    requires Valid(h) && capacity > 0
  {
    if id.vg in h.vgs then Allocate(h, id, capacity)
    else if Eligible(h, f, id.vg) == [] then Outcome(Err(ResourceExhausted), LabelAll(h, AvailableOn(h, f)))
    else Allocate(Grouped(h, f, id.vg), id, capacity)
  }

  /** How far a creation that faulted can have got: some disks labelled, or the group made,
      or the volume made. */
  ghost predicate Partial(h: Host, f: Filter, id: VolumeId, capacity: int, h': Host)
    requires Valid(h) && capacity > 0
  {
    Started(h, f, id.vg, h') || NodesReconciled(Plan(h, f, id, capacity).host, h')
  }

  /** Some disks are labelled, or the group is made. */
  ghost predicate Started(h: Host, f: Filter, vg: string, h': Host) {
    || (exists k :: 0 <= k <= |AvailableOn(h, f)| && NodesReconciled(LabelAll(h, AvailableOn(h, f)[..k]), h'))
    || (vg !in h.vgs && Eligible(h, f, vg) != [] && NodesReconciled(Grouped(h, f, vg), h'))
  }

  lemma NothingStarted(h: Host, f: Filter, vg: string)
    ensures Started(h, f, vg, h)
  {
    var all := AvailableOn(h, f);
    assert all[..0] == [] && NodesReconciled(LabelAll(h, all[..0]), h);
  }

  ghost predicate Created(h: Host, f: Filter, id: VolumeId, capacity: int, r: Result<int>, h': Host)
    requires Valid(h) && capacity > 0
  {
    || (r == Plan(h, f, id, capacity).result && NodesReconciled(Plan(h, f, id, capacity).host, h'))
    || (r.Err? && r.error in {Fault, StaleDeviceNode} && Partial(h, f, id, capacity, h'))
  }

  /** The contract of EnsureVolume: exactly one answer for every request and state, or a fault. */
  ghost predicate Ensured(h: Host, f: Filter, s: string, capacity: int, limit: int, r: Result<int>, h': Host)
    requires Valid(h)
  {
    match Parse(s)
    case None => r == Err(InvalidArgument) && h' == h
    case Some(id) =>
      if BadRange(capacity, limit) then r == Err(InvalidArgument) && h' == h
      else if !ValidName(id.vg) || !ValidName(id.lv) then
        r.Err? && r.error in {InvalidInput, Fault} && h' == h
      else if id !in h.lvs then
        (r == Err(Fault) && h' == h) || Created(h, f, id, capacity, r, h')
      else if id in h.nodes then
        h' == h && (r == Err(Fault) || r == Existing(h.lvs[id].size, capacity, limit))
      else
        || (h' == h && r.Err? && (r.error == Fault || (r.error == InUse && h.lvs[id].inUse)))
        || (!h.lvs[id].inUse && exists mid :: Replaced(h, f, id, capacity, r, mid, h'))
  }

  ghost predicate Replaced(h: Host, f: Filter, id: VolumeId, capacity: int, r: Result<int>, mid: Host, h': Host)
    requires Valid(h) && capacity > 0
  {
    LvRemoved(h, id, mid) && Valid(mid) && Created(mid, f, id, capacity, r, h')
  }

  /** The errors of group provisioning and their causes. */
  predicate Refuses(h: Host, name: string, devices: seq<string>, e: Error) {
    match e
    case Fault => true
    case StaleDeviceNode => true
    case InvalidInput => !ValidName(name) || devices == []
    case NotFound => !FreeDisks(h, devices)
    case PvInVolumeGroup => !FreeDisks(h, devices)
    case _ => false
  }

  // ---------------------------------------------------------------- the driver

  class Driver {
    const mgr: Manager
    const filter: Filter

    constructor (m: Manager, f: Filter)
      ensures mgr == m && filter == f
    {
      mgr := m;
      filter := f;
    }

    /** ensurePhysicalVolume: the group the physical volume is in, "" for none. */
    method EnsurePhysicalVolume(path: string) returns (r: Result<string>)
      requires Valid(mgr.host)
      modifies mgr
      ensures r.Ok? ==> mgr.host == Label(old(mgr.host), path) && path in mgr.host.pvs && r.value == mgr.host.pvs[path]
      ensures r.Ok? ==> path in old(mgr.host).signatures && old(mgr.host).signatures[path] != Foreign
      ensures r.Err? ==> mgr.host == old(mgr.host) ||
                         (mgr.host == Label(old(mgr.host), path) && path in old(mgr.host).signatures &&
                          old(mgr.host).signatures[path] != Foreign)
      ensures r.Err? ==> r.error in {Fault, InUse, InvalidInput}
      ensures r == Err(InUse) ==> path in mgr.host.signatures && mgr.host.signatures[path] == Foreign
      ensures r == Err(InvalidInput) ==> path == ""
      ensures mgr.reliable && path in old(mgr.host).signatures ==> r != Err(Fault)
    {
      if path == "" { return Err(InvalidInput); }
      var pv := mgr.GetPhysicalVolume(path);
      if pv.Err? && pv.error != NotFound { return pv; }
      if pv.Ok? { return pv; }
      var created := mgr.CreatePhysicalVolume(path);
      if created.Err? && created.error != AlreadyExists { return Err(created.error); }
      r := mgr.GetPhysicalVolume(path);
    }

    /** EnsurePhysicalVolumes: the paths of the disks usable for the group. */
    method EnsurePhysicalVolumes(vg: string) returns (r: Result<seq<string>>)
      requires Valid(mgr.host)
      modifies mgr
      ensures r.Ok? ==> r.value == Paths(Eligible(old(mgr.host), filter, vg)) && r.value != [] &&
                        mgr.host == LabelAll(old(mgr.host), AvailableOn(old(mgr.host), filter))
      ensures r == Err(ResourceExhausted) ==>
                Eligible(old(mgr.host), filter, vg) == [] &&
                mgr.host == LabelAll(old(mgr.host), AvailableOn(old(mgr.host), filter))
      ensures r.Err? ==> r.error in {ResourceExhausted, Fault}
      ensures exists k :: 0 <= k <= |AvailableOn(old(mgr.host), filter)| &&
                mgr.host == LabelAll(old(mgr.host), AvailableOn(old(mgr.host), filter)[..k])
      ensures mgr.reliable ==> r != Err(Fault)
    {
      ghost var h := mgr.host;
      ghost var all := AvailableOn(h, filter);
      assert all[..0] == [] && LabelAll(h, all[..0]) == h;
      var scan := ScanAvailableDevices(mgr.host.devices, mgr.host.signatures, filter, mgr.reliable);
      if scan == NoDevices { return Err(ResourceExhausted); }
      if scan == ScanFault { return Err(Fault); }
      var devices := scan.devices;
      var pvs: seq<string> := [];
      for i := 0 to |devices|
        invariant devices == all && mgr.host == LabelAll(h, devices[..i])
        invariant Valid(mgr.host)
        invariant pvs == Paths(FreeAmong(h, vg, devices[..i]))
      {
        LabelNext(h, vg, devices, i);
        StillTakeable(h, filter, i);
        FreeNext(h, vg, devices, i);
        var pv := EnsurePhysicalVolume(devices[i].path);
        if pv.Err? { return Err(Fault); }
        if pv.value != "" && pv.value != vg { continue; }
        pvs := pvs + [devices[i].path];
      }
      assert all[..|all|] == all;
      if |pvs| == 0 { return Err(ResourceExhausted); }
      return Ok(pvs);
    }

    /** provisionVolumeGroup, run as the only flight for its name. */
    method ProvisionVolumeGroup(name: string, devices: seq<string>) returns (r: Result<Vg>)
      requires Valid(mgr.host)
      modifies mgr
      ensures Valid(mgr.host)
      ensures r.Ok? ==> name in mgr.host.vgs && r.value == mgr.host.vgs[name]
      ensures name in old(mgr.host).vgs ==> mgr.host == old(mgr.host)
      ensures name !in old(mgr.host).vgs ==>
                || (FreeDisks(old(mgr.host), devices) &&
                    NodesReconciled(VgCreated(old(mgr.host), name, devices), mgr.host))
                || (r.Err? && NodesReconciled(old(mgr.host), mgr.host))
      ensures r.Err? ==> Refuses(old(mgr.host), name, devices, r.error)
      ensures mgr.reliable ==> r.Ok? || r.error !in {Fault, StaleDeviceNode}
    {
      var vg := mgr.GetVolumeGroup(name);
      if vg.Err? && vg.error != NotFound { return vg; }
      if vg.Ok? { return vg; }
      var cleaned := mgr.RemoveStaleDeviceMapperNodes(name);
      if cleaned.Err? { return Err(cleaned.error); }
      var created := mgr.CreateVolumeGroup(name, devices);
      if created.Err? && created.error != AlreadyExists { return Err(created.error); }
      r := mgr.GetVolumeGroup(name);
    }

    /** EnsureVolumeGroup. */
    method EnsureVolumeGroup(name: string, devices: seq<string>) returns (r: Result<Vg>)
      requires Valid(mgr.host)
      modifies mgr
      ensures Valid(mgr.host)
      ensures r.Ok? ==> name in mgr.host.vgs && r.value == mgr.host.vgs[name]
      ensures name == "" ==> r == Err(InvalidArgument)
      ensures name != "" && devices == [] ==> r == Err(ResourceExhausted)
      ensures name == "" || devices == [] || name in old(mgr.host).vgs ==> mgr.host == old(mgr.host)
      ensures name !in old(mgr.host).vgs && devices != [] && name != "" ==>
                || (FreeDisks(old(mgr.host), devices) &&
                    NodesReconciled(VgCreated(old(mgr.host), name, devices), mgr.host))
                || (r.Err? && NodesReconciled(old(mgr.host), mgr.host))
      ensures r.Err? && name != "" && devices != [] ==> Refuses(old(mgr.host), name, devices, r.error)
      ensures mgr.reliable ==> r.Ok? || r.error !in {Fault, StaleDeviceNode}
    {
      if |name| == 0 { return Err(InvalidArgument); }
      if |devices| == 0 { return Err(ResourceExhausted); }
      r := ProvisionVolumeGroup(name, devices);
    }

    /** The part of EnsureVolume that runs once the volume group is known to be missing. */
    method CreateGroup(vg: string) returns (r: Result<Vg>)
      requires Valid(mgr.host) && ValidName(vg) && vg !in mgr.host.vgs
      modifies mgr
      ensures Valid(mgr.host)
      ensures r.Ok? ==> vg in mgr.host.vgs && r.value == mgr.host.vgs[vg] &&
                        Eligible(old(mgr.host), filter, vg) != [] &&
                        NodesReconciled(Grouped(old(mgr.host), filter, vg), mgr.host)
      ensures r == Err(ResourceExhausted) ==> Eligible(old(mgr.host), filter, vg) == [] &&
                                              mgr.host == LabelAll(old(mgr.host), AvailableOn(old(mgr.host), filter))
      ensures r.Err? ==> r.error in {ResourceExhausted, Fault, StaleDeviceNode} &&
                         Started(old(mgr.host), filter, vg, mgr.host)
      ensures mgr.reliable ==> r != Err(Fault) && r != Err(StaleDeviceNode)
    {
      assert vg != "";
      hide Valid, ValidName, Match, FreeAmong, LabelAll, FreeDisks, Refuses, AvailableOn, Eligible;
      ghost var h := mgr.host;
      ghost var all := AvailableOn(h, filter);
      var devices := EnsurePhysicalVolumes(vg);
      ghost var k :| 0 <= k <= |all| && mgr.host == LabelAll(h, all[..k]);
      LabelledHost(h, filter, k);
      if devices.Err? { return Err(devices.error); }
      EligiblePathsFree(h, filter, vg);
      r := EnsureVolumeGroup(vg, devices.value);
      GroupStarted(h, filter, vg, mgr.host);
      if r.Err? { OnlyOutside(LabelAll(h, all), vg, devices.value, r.error); }
    }

    /** The part of EnsureVolume that runs once the volume is known to be missing. */
    method CreateMissing(id: VolumeId, capacity: int) returns (r: Result<int>)
      requires Valid(mgr.host) && capacity > 0 && ValidName(id.vg) && ValidName(id.lv) && id !in mgr.host.lvs
      modifies mgr
      ensures Valid(mgr.host)
      ensures Created(old(mgr.host), filter, id, capacity, r, mgr.host)
      ensures mgr.reliable ==> r != Err(Fault) && r != Err(StaleDeviceNode)
    {
      hide ValidName, AvailableOn, Eligible, LabelAll, Grouped;
      ghost var h := mgr.host;
      var vg := mgr.GetVolumeGroup(id.vg);
      NothingStarted(h, filter, id.vg);
      if vg.Err? && vg.error != NotFound { return Err(vg.error); }
      if vg.Err? {
        vg := CreateGroup(id.vg);
        if vg.Err? { return Err(vg.error); }
        GroupedVolumes(h, filter, id.vg);
      }
      ghost var before := mgr.host;
      r := mgr.CreateLogicalVolume(id, capacity, |vg.value.pvs|);
      AllocateReconciled(if id.vg in h.vgs then h else Grouped(h, filter, id.vg), before, id, capacity);
    }

    /** EnsureVolume. */
    method EnsureVolume(s: string, capacity: int, limit: int) returns (r: Result<int>)
      requires Valid(mgr.host)
      modifies mgr
      ensures Valid(mgr.host)
      ensures Ensured(old(mgr.host), filter, s, capacity, limit, r, mgr.host)
      ensures mgr.reliable ==> r != Err(Fault) && r != Err(StaleDeviceNode)
    {
      var parsed := Parse(s);
      if parsed.None? { return Err(InvalidArgument); }
      var id := parsed.value;
      if BadRange(capacity, limit) { return Err(InvalidArgument); }
      var lv := mgr.GetLogicalVolume(id);
      if lv.Err? && lv.error != NotFound { return Err(lv.error); }
      if lv.Ok? {
        var corrupted := mgr.IsLogicalVolumeCorrupted(id);
        if corrupted.Err? { return Err(corrupted.error); }
        if !corrupted.value {
          var size := lv.value.size;
          if size < capacity || (limit > 0 && size > limit) { return Err(SizeMismatch); }
          return Ok(size);
        }
        ghost var h := mgr.host;
        ValidIsPrintable(id);
        var removed := mgr.RemoveLogicalVolume(id);
        if removed.Err? { return Err(removed.error); }
        LvRemovedValid(h, id, mgr.host);
        ghost var mid := mgr.host;
        r := CreateMissing(id, capacity);
        assert Replaced(h, filter, id, capacity, r, mid, mgr.host);
      } else {
        r := CreateMissing(id, capacity);
      }
    }
  }

  lemma EligiblePathsFree(h: Host, f: Filter, vg: string)
    requires Valid(h) && vg !in h.vgs
    ensures FreeDisks(LabelAll(h, AvailableOn(h, f)), Paths(Eligible(h, f, vg)))
  {
    EligibleFacts(h, f, vg);
    var all, l := AvailableOn(h, f), LabelAll(h, AvailableOn(h, f));
    LabelAllFacts(h, all);
    forall p | p in Paths(Eligible(h, f, vg))
      ensures p in l.signatures && p in l.pvs && l.pvs[p] == ""
    {
      var e := Eligible(h, f, vg);
      var i :| 0 <= i < |e| && Paths(e)[i] == p;
      assert e[i] in all && p in PathSet(all);
    }
  }

  /** Labelling some of the disks is a start, and leaves groups as they are. */
  lemma LabelledHost(h: Host, f: Filter, k: nat)
    requires Valid(h) && k <= |AvailableOn(h, f)|
    ensures var l := LabelAll(h, AvailableOn(h, f)[..k]);
            Valid(l) && l.vgs == h.vgs && forall vg :: Started(h, f, vg, l)
  {
    hide Valid, LabelAll, Eligible;
    var all := AvailableOn(h, f);
    forall d | d in all[..k]
      ensures d.path in h.signatures
    {
      assert d in all;
    }
    LabelAllFacts(h, all[..k]);
    assert NodesReconciled(LabelAll(h, all[..k]), LabelAll(h, all[..k]));
  }

  /** With all disks labelled, a group that was made or not is a start. */
  lemma GroupStarted(h: Host, f: Filter, vg: string, h': Host)
    requires vg !in h.vgs
    ensures NodesReconciled(LabelAll(h, AvailableOn(h, f)), h') ==> Started(h, f, vg, h')
    ensures NodesReconciled(Grouped(h, f, vg), h') && Eligible(h, f, vg) != [] ==> Started(h, f, vg, h')
  {
    hide LabelAll, Eligible, AvailableOn;
    var all := AvailableOn(h, f);
    assert all[..|all|] == all;
  }

  /** With a proper name and free disks only outside failures are left. */
  lemma OnlyOutside(h: Host, name: string, devices: seq<string>, e: Error)
    requires Refuses(h, name, devices, e) && ValidName(name) && devices != [] && FreeDisks(h, devices)
    ensures e in {Fault, StaleDeviceNode}
  {
  }

  /** Allocation does not depend on device files, and keeps them. */
  lemma AllocateReconciled(g: Host, h: Host, id: VolumeId, capacity: int)
    requires NodesReconciled(g, h) && id.vg in g.vgs && ValidVg(g.vgs[id.vg]) && capacity > 0
    ensures Allocate(h, id, capacity).result == Allocate(g, id, capacity).result
    ensures NodesReconciled(Allocate(g, id, capacity).host, Allocate(h, id, capacity).host)
  {
  }

  // ---------------------------------------------------------------- what the contract means

  /** A planned creation adds the one volume, healthy and large enough, or no volume at all. */
  lemma PlanVolumes(h: Host, f: Filter, id: VolumeId, capacity: int)
    requires Valid(h) && capacity > 0 && id !in h.lvs
    ensures var o := Plan(h, f, id, capacity);
            match o.result
            case Ok(size) => && id in o.host.lvs && o.host.lvs == h.lvs[id := o.host.lvs[id]]
                             && o.host.lvs[id].size == size >= capacity && id in o.host.nodes
            case Err(e) => o.host.lvs == h.lvs && e == ResourceExhausted
  {
    LabelledVolumes(h, AvailableOn(h, f));
    if id.vg in h.vgs {
      AllocatedCovers(capacity, |h.vgs[id.vg].pvs|);
    } else if Eligible(h, f, id.vg) != [] {
      AllocatedCovers(capacity, |Eligible(h, f, id.vg)|);
    }
  }

  lemma LabelledVolumes(h: Host, devices: seq<Device>)
    ensures LabelAll(h, devices) == h.(pvs := LabelAll(h, devices).pvs, signatures := LabelAll(h, devices).signatures)
  {
  }

  lemma GroupedVolumes(h: Host, f: Filter, vg: string)
    ensures Grouped(h, f, vg).lvs == h.lvs && vg in Grouped(h, f, vg).vgs
  {
    LabelledVolumes(h, AvailableOn(h, f));
  }

  /** Nothing but volume `id` is touched, and a volume made under that id is large enough. */
  ghost predicate OnlyVolume(h: Host, id: VolumeId, capacity: int, h': Host) {
    && h'.lvs - {id} == h.lvs - {id}
    && (id in h'.lvs ==> (id in h.lvs && h'.lvs[id] == h.lvs[id]) || h'.lvs[id].size >= capacity)
  }

  lemma CreatedVolumes(h: Host, f: Filter, id: VolumeId, capacity: int, r: Result<int>, h': Host)
    requires Valid(h) && capacity > 0 && id !in h.lvs && Created(h, f, id, capacity, r, h')
    ensures OnlyVolume(h, id, capacity, h')
    ensures r.Ok? ==> id in h'.lvs && id in h'.nodes && h'.lvs[id].size == r.value >= capacity
  {
    hide Valid, Plan, LabelAll, AvailableOn, Eligible;
    PlanVolumes(h, f, id, capacity);
    var made := Plan(h, f, id, capacity).host;
    if NodesReconciled(made, h') {
      assert h'.lvs == made.lvs;
    } else {
      var all := AvailableOn(h, f);
      LabelledVolumes(h, all);
      forall k | 0 <= k <= |all|
        ensures LabelAll(h, all[..k]).lvs == h.lvs
      {
        LabelledVolumes(h, all[..k]);
      }
      assert h'.lvs == h.lvs;
    }
  }

  /** Success means a healthy volume of the returned size, at least the capacity asked for;
      whatever the outcome, no other volume is touched. A corrupted volume is never returned:
      on success it has been replaced. */
  lemma EnsuredMeaning(h: Host, f: Filter, s: string, capacity: int, limit: int, r: Result<int>, h': Host)
    requires Valid(h) && Ensured(h, f, s, capacity, limit, r, h')
    ensures Parse(s).None? ==> h' == h && r.Err?
    ensures r.Ok? ==> !BadRange(capacity, limit)
    ensures Parse(s).Some? ==>
              var id := Parse(s).value;
              && OnlyVolume(h, id, capacity, h')
              && (r.Ok? ==> id in h'.lvs && id in h'.nodes && h'.lvs[id].size == r.value >= capacity > 0)
              && (r.Ok? && Corrupted(h, id) ==>
                    !h.lvs[id].inUse && exists mid :: Replaced(h, f, id, capacity, r, mid, h'))
  {
    hide Valid, Created, Parse, ValidName;
    if Parse(s).Some? && !BadRange(capacity, limit) {
      var id := Parse(s).value;
      if ValidName(id.vg) && ValidName(id.lv) {
        if id !in h.lvs {
          if Created(h, f, id, capacity, r, h') {
            CreatedVolumes(h, f, id, capacity, r, h');
          }
        } else if id !in h.nodes {
          if mid :| Replaced(h, f, id, capacity, r, mid, h') {
            CreatedVolumes(mid, f, id, capacity, r, h');
            assert mid.lvs - {id} == h.lvs - {id};
          }
        }
      }
    }
  }

  /** Repeating a successful call on the volume it left returns the same size and changes
      nothing exactly when there is no limit or the size is within it; past the limit (the
      size is not checked against it after rounding up) the repeat reports a size mismatch,
      and still changes nothing. */
  lemma RepeatedEnsure(h: Host, f: Filter, s: string, capacity: int, limit: int, size: int,
                       h': Host, r: Result<int>, h'': Host)
    requires Valid(h) && Valid(h')
    requires Ensured(h, f, s, capacity, limit, Ok(size), h')
    requires Ensured(h', f, s, capacity, limit, r, h'') && r != Err(Fault)
    ensures h'' == h'
    ensures r == Ok(size) <==> limit == 0 || size <= limit
    ensures r != Ok(size) <==> r == Err(SizeMismatch)
  {
    EnsuredMeaning(h, f, s, capacity, limit, Ok(size), h');
  }

  /** How many physical volumes a volume in the group is striped over. */
  function Stripes(h: Host, f: Filter, vg: string): nat {
    if vg in h.vgs then |h.vgs[vg].pvs| else |Eligible(h, f, vg)|
  }

  /** Allocating gives the capacity rounded up to whole stripe rows. */
  lemma PlannedSize(h: Host, f: Filter, id: VolumeId, capacity: int, size: int)
    requires Valid(h) && capacity > 0 && Plan(h, f, id, capacity).result == Ok(size)
    ensures Stripes(h, f, id.vg) > 0 && size == Allocated(capacity, Stripes(h, f, id.vg))
  {
    hide ValidName, LabelAll, AvailableOn, Eligible, PerPv;
    if id.vg !in h.vgs {
      LabelledVolumes(h, AvailableOn(h, f));
      assert Grouped(h, f, id.vg).vgs[id.vg].pvs == Paths(Eligible(h, f, id.vg));
    }
  }

  predicate Healthy(h: Host, id: VolumeId) {
    id in h.lvs && id in h.nodes
  }

  /** The size a successful call ends with is known before it: that of the healthy volume it finds,
      else the capacity rounded up to whole stripe rows. It is past the limit exactly when the
      volume has to be made and the rounded capacity is. */
  lemma EnsuredSize(h: Host, f: Filter, s: string, capacity: int, limit: int, size: int, h': Host)
    requires Valid(h) && Ensured(h, f, s, capacity, limit, Ok(size), h')
    ensures Parse(s).Some?
    ensures var id := Parse(s).value;
            && (Healthy(h, id) ==> size == h.lvs[id].size)
            && (!Healthy(h, id) ==> Stripes(h, f, id.vg) > 0 && size == Allocated(capacity, Stripes(h, f, id.vg)))
            && (limit > 0 && size > limit <==>
                  limit > 0 && !Healthy(h, id) && Allocated(capacity, Stripes(h, f, id.vg)) > limit)
  {
    hide Parse, ValidName, Plan, Partial, Eligible, Allocated, NodesReconciled;
    var id := Parse(s).value;
    if id !in h.lvs {
      PlannedSize(h, f, id, capacity, size);
    } else if id !in h.nodes {
      var mid :| Replaced(h, f, id, capacity, Ok(size), mid, h');
      PlannedSize(mid, f, id, capacity, size);
      assert Stripes(mid, f, id.vg) == Stripes(h, f, id.vg);
    }
  }
}
