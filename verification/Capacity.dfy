/** The capacity estimate, and why it agrees with what provisioning then does. */
module Capacity {
  import opened Text
  import opened VolumeIds
  import opened Probe
  import opened Lvm
  import opened Provisioner

  const MAX_INT64: int := 0x7FFF_FFFF_FFFF_FFFF

  function Sum(s: seq<nat>): nat {
    if s == [] then 0 else Sum(s[..|s| - 1]) + s[|s| - 1]
  }

  function FreeBytes(g: Vg): nat {
    EXTENT * Sum(g.free)
  }

  function UsableBytes(size: int): int {
    Max(size - ALIGNMENT, 0) / EXTENT * EXTENT
  }

  function Estimate(devices: seq<Device>): int {
    if devices == [] then 0
    else Estimate(devices[..|devices| - 1]) + UsableBytes(devices[|devices| - 1].size)
  }

  function TotalSize(devices: seq<Device>): int {
    if devices == [] then 0
    else TotalSize(devices[..|devices| - 1]) + devices[|devices| - 1].size
  }

  /** AvailableCapacity. */
  method AvailableCapacity(d: Driver, vg: string) returns (r: Result<int>)
    requires Valid(d.mgr.host)
    ensures r == Err(Fault) ||
            r == if !ValidName(vg) then Err(InvalidInput)
                 else if vg in d.mgr.host.vgs then Ok(FreeBytes(d.mgr.host.vgs[vg]))
                 else Ok(Estimate(Eligible(d.mgr.host, d.filter, vg)))
    ensures d.mgr.reliable ==> r != Err(Fault)
  {
    var found := d.mgr.GetVolumeGroup(vg);
    if found.Err? && found.error != NotFound { return Err(found.error); }
    if found.Ok? { return Ok(FreeBytes(found.value)); }
    var scan := ScanAvailableDevices(d.mgr.host.devices, d.mgr.host.signatures, d.filter, d.mgr.reliable);
    if scan == NoDevices { return Ok(0); }
    if scan == ScanFault { return Err(Fault); }
    var devices := scan.devices;
    var listed := d.mgr.ListPhysicalVolumes();
    if listed.Err? { return Err(listed.error); }
    var diskToPv := DiskToPv(listed.value);
    ListedMap(listed.value, d.mgr.host.pvs, diskToPv);
    var available := UsableSum(diskToPv, vg, devices);
    SameFree(d.mgr.host, diskToPv, vg, devices);
    return Ok(available);
  }

  method DiskToPv(pvs: seq<Pv>) returns (m: map<string, string>)
    requires forall i, j :: 0 <= i < j < |pvs| ==> pvs[i].name != pvs[j].name
    ensures forall p :: p in m <==> exists k :: 0 <= k < |pvs| && pvs[k].name == p
    ensures forall k :: 0 <= k < |pvs| ==> m[pvs[k].name] == pvs[k].vg
  {
    m := map[];
    for i := 0 to |pvs|
      invariant forall p :: p in m <==> exists k :: 0 <= k < i && pvs[k].name == p
      invariant forall k :: 0 <= k < i ==> m[pvs[k].name] == pvs[k].vg
    {
      m := m[pvs[i].name := pvs[i].vg];
    }
  }

  function Unallocated(pvs: map<string, string>, vg: string, devices: seq<Device>): seq<Device> {
    if devices == [] then []
    else
      var d, rest := devices[|devices| - 1], Unallocated(pvs, vg, devices[..|devices| - 1]);
      if d.path in pvs && pvs[d.path] != "" && pvs[d.path] != vg then rest else rest + [d]
  }

  lemma {:induction false} SameFree(h: Host, pvs: map<string, string>, vg: string, devices: seq<Device>)
    requires pvs == h.pvs
    ensures Unallocated(pvs, vg, devices) == FreeAmong(h, vg, devices)
  {
    if devices != [] {
      SameFree(h, pvs, vg, devices[..|devices| - 1]);
    }
  }

  /** The estimate's loop over the scanned disks. */
  method UsableSum(diskToPv: map<string, string>, vg: string, devices: seq<Device>) returns (available: int)
    ensures available == Estimate(Unallocated(diskToPv, vg, devices))
  {
    available := 0;
    for i := 0 to |devices|
      invariant available == Estimate(Unallocated(diskToPv, vg, devices[..i]))
    {
      assert devices[..i + 1][..i] == devices[..i];
      var path := devices[i].path;
      ghost var kept := Unallocated(diskToPv, vg, devices[..i]);
      if path in diskToPv && diskToPv[path] != "" && diskToPv[path] != vg { continue; }
      assert (kept + [devices[i]])[..|kept|] == kept;
      var usable := Max(devices[i].size - ALIGNMENT, 0);
      usable := usable / EXTENT * EXTENT;
      available := available + usable;
    }
    assert devices[..|devices|] == devices;
  }

  lemma ListedMap(list: seq<Pv>, pvs: map<string, string>, m: map<string, string>)
    requires ListsPvs(list, pvs)
    requires forall p :: p in m <==> exists k :: 0 <= k < |list| && list[k].name == p
    requires forall k :: 0 <= k < |list| ==> m[list[k].name] == list[k].vg
    ensures m == pvs
  {
    forall p | p in pvs
      ensures p in m && m[p] == pvs[p]
    {
      assert Pv(p, pvs[p]) in list;
    }
    forall p | p in m
      ensures p in pvs
    {
      var k :| 0 <= k < |list| && list[k].name == p;
      assert list[k] in list;
    }
  }

  // ---------------------------------------------------------------- agreement

  lemma {:induction false} SizeOfDevice(devices: seq<Device>, d: Device)
    requires DistinctPaths(devices) && d in devices
    ensures SizeOf(devices, d.path) == d.size
  {
    if devices[0] != d {
      var i :| 0 < i < |devices| && devices[i] == d;
      assert devices[1..][i - 1] == d;
      SizeOfDevice(devices[1..], d);
    }
  }

  function ExtentsOf(devices: seq<Device>): (r: seq<nat>)
    ensures |r| == |devices|
  {
    seq(|devices|, i requires 0 <= i < |devices| => UsableExtents(devices[i].size))
  }

  lemma {:induction false} EstimateIsExtents(devices: seq<Device>)
    ensures Estimate(devices) == EXTENT * Sum(ExtentsOf(devices))
  {
    if devices != [] {
      var n := |devices| - 1;
      EstimateIsExtents(devices[..n]);
      assert ExtentsOf(devices)[..n] == ExtentsOf(devices[..n]);
    }
  }

  lemma EligibleSizes(h: Host, f: Filter, vg: string)
    requires Valid(h)
    ensures var e := Eligible(h, f, vg);
            forall i :: 0 <= i < |e| ==> SizeOf(h.devices, Paths(e)[i]) == e[i].size
  {
    hide SizeOf, Match;
    var e := Eligible(h, f, vg);
    forall i | 0 <= i < |e|
      ensures SizeOf(h.devices, Paths(e)[i]) == e[i].size
    {
      assert e[i] in e;
      assert e[i] in AvailableOn(h, f) && e[i] in h.devices;
      SizeOfDevice(h.devices, e[i]);
    }
  }

  /** The new group's free extents are those of the eligible disks, in order. */
  lemma GroupedFree(h: Host, f: Filter, vg: string)
    requires Valid(h) && vg !in h.vgs
    ensures vg in Grouped(h, f, vg).vgs
    ensures Grouped(h, f, vg).vgs[vg] == Vg(true, Paths(Eligible(h, f, vg)), ExtentsOf(Eligible(h, f, vg)))
  {
    hide Valid, LabelAll, AvailableOn, Eligible, SizeOf, UsableExtents;
    var e := Eligible(h, f, vg);
    LabelledVolumes(h, AvailableOn(h, f));
    EligibleSizes(h, f, vg);
    assert Grouped(h, f, vg).vgs[vg].free == ExtentsOf(e);
  }

  /** With no group yet, the estimate is exactly the free space of the group that
      provisioning would make, from the same disks in the same order. */
  lemma EstimateIsGroupFree(h: Host, f: Filter, vg: string)
    requires Valid(h) && vg !in h.vgs
    ensures vg in Grouped(h, f, vg).vgs
    ensures Grouped(h, f, vg).vgs[vg].pvs == Paths(Eligible(h, f, vg))
    ensures Estimate(Eligible(h, f, vg)) == FreeBytes(Grouped(h, f, vg).vgs[vg])
  {
    GroupedFree(h, f, vg);
    EstimateIsExtents(Eligible(h, f, vg));
  }

  predicate AllEqual(s: seq<nat>) {
    forall i, j :: 0 <= i < j < |s| ==> s[i] == s[j]
  }

  lemma {:induction false} SumOfEqual(s: seq<nat>, n: nat)
    requires forall i :: 0 <= i < |s| ==> s[i] == n
    ensures Sum(s) == |s| * n
  {
    if s != [] {
      SumOfEqual(s[..|s| - 1], n);
      assert |s| * n == (|s| - 1) * n + n;
    }
  }

  lemma {:induction false} SumAtLeast(s: seq<nat>, n: nat)
    requires forall i :: 0 <= i < |s| ==> s[i] >= n
    ensures Sum(s) >= |s| * n
    ensures (exists i :: 0 <= i < |s| && s[i] > n) ==> Sum(s) > |s| * n
  {
    if s != [] {
      var front := s[..|s| - 1];
      SumAtLeast(front, n);
      assert |s| * n == (|s| - 1) * n + n;
      if i :| 0 <= i < |s| && s[i] > n {
        assert i < |front| ==> front[i] == s[i];
      }
    }
  }

  lemma {:induction false} Least(s: seq<nat>) returns (k: nat)
    requires s != []
    ensures k < |s| && forall i :: 0 <= i < |s| ==> s[k] <= s[i]
  {
    k := 0;
    if |s| > 1 {
      k := Least(s[..|s| - 1]);
      if s[|s| - 1] < s[k] { k := |s| - 1; }
    }
  }

  /** A request fits a striped group exactly when it needs no more rows than the smallest
      disk has. */
  lemma FitsSmallest(g: Vg, size: int, n: nat)
    requires ValidVg(g) && (exists i :: 0 <= i < |g.free| && g.free[i] == n)
    requires forall i :: 0 <= i < |g.free| ==> n <= g.free[i]
    ensures Fits(g, PerPv(size, |g.pvs|)) <==> size <= n * |g.pvs| * EXTENT
  {
    var k := |g.pvs|;
    CeilDivLeast(CeilDiv(size, EXTENT), k, n);
    CeilDivLeast(size, EXTENT, n * k);
  }

  lemma EqualDisksFit(g: Vg, size: int)
    requires ValidVg(g) && AllEqual(g.free) && size <= FreeBytes(g)
    ensures Fits(g, PerPv(size, |g.pvs|))
  {
    var n := g.free[0];
    SumOfEqual(g.free, n);
    FitsSmallest(g, size, n);
    assert EXTENT * (|g.pvs| * n) == n * |g.pvs| * EXTENT;
  }

  lemma UnequalDisksOverflow(g: Vg)
    requires ValidVg(g) && !AllEqual(g.free)
    ensures 0 < FreeBytes(g) && !Fits(g, PerPv(FreeBytes(g), |g.pvs|))
  {
    var k := Least(g.free);
    var n := g.free[k];
    SumAtLeast(g.free, n);
    FitsSmallest(g, FreeBytes(g), n);
    assert |g.pvs| * n == n * |g.pvs|;
    assert n * |g.pvs| < Sum(g.free);
  }

  lemma PlanWithoutGroup(h: Host, f: Filter, id: VolumeId, size: int)
    requires Valid(h) && id.vg !in h.vgs && Eligible(h, f, id.vg) != [] && size > 0
    requires id.vg in Grouped(h, f, id.vg).vgs
    ensures var g := Grouped(h, f, id.vg).vgs[id.vg];
            |g.pvs| > 0 && (Plan(h, f, id, size).result.Ok? <==> Fits(g, PerPv(size, |g.pvs|)))
  {
  }

  /** Every request up to the estimate can be provisioned, after rounding up to whole stripe
      rows, exactly when the eligible disks all have the same number of extents (one disk, or
      disks of equal usable size); with unequal disks the estimate itself does not fit. */
  lemma EstimateFits(h: Host, f: Filter, id: VolumeId)
    requires Valid(h) && id.vg !in h.vgs && Eligible(h, f, id.vg) != []
    ensures (forall size :: 0 < size <= Estimate(Eligible(h, f, id.vg)) ==> Plan(h, f, id, size).result.Ok?)
            <==> AllEqual(ExtentsOf(Eligible(h, f, id.vg)))
  {
    var e := Eligible(h, f, id.vg);
    GroupedFree(h, f, id.vg);
    EstimateIsExtents(e);
    var g := Grouped(h, f, id.vg).vgs[id.vg];
    assert Estimate(e) == FreeBytes(g);
    if AllEqual(ExtentsOf(e)) {
      forall size | 0 < size <= Estimate(e)
        ensures Plan(h, f, id, size).result.Ok?
      {
        EqualDisksFit(g, size);
        PlanWithoutGroup(h, f, id, size);
      }
    } else {
      UnequalDisksOverflow(g);
      PlanWithoutGroup(h, f, id, Estimate(e));
    }
  }

  /** Room for a volume of `capacity` bytes once every disk of its group has `back` more extents:
      no disk is short of its equal share, in 4 MiB extents. A group that is missing would be
      made of the eligible disks. */
  ghost predicate Room(h: Host, f: Filter, vg: string, capacity: int, back: int) {
    if vg in h.vgs then
      var g := h.vgs[vg];
      forall i :: 0 <= i < |g.free| ==> capacity <= (g.free[i] + back) * |g.pvs| * 4194304
    else
      var e := Eligible(h, f, vg);
      e != [] && forall i :: 0 <= i < |e| ==> capacity <= UsableExtents(e[i].size) * |e| * 4194304
  }

  /** A request fits a group exactly when it fits the equal share of every disk. */
  lemma FitsEach(g: Vg, capacity: int)
    requires ValidVg(g)
    ensures Fits(g, PerPv(capacity, |g.pvs|)) <==>
            forall i :: 0 <= i < |g.free| ==> capacity <= g.free[i] * |g.pvs| * 4194304
  {
    hide PerPv;
    var k := Least(g.free);
    FitsSmallest(g, capacity, g.free[k]);
    forall i | 0 <= i < |g.free|
      ensures g.free[k] * |g.pvs| * 4194304 <= g.free[i] * |g.pvs| * 4194304
    {
      MulMonotone(g.free[k], g.free[i], |g.pvs|);
    }
  }

  lemma PlanSucceeds(h: Host, f: Filter, id: VolumeId, capacity: int)
    requires Valid(h) && capacity > 0
    ensures Plan(h, f, id, capacity).result.Ok? <==> Room(h, f, id.vg, capacity, 0)
  {
    hide Eligible, PerPv, UsableExtents, ValidName, Grouped;
    if id.vg in h.vgs {
      FitsEach(h.vgs[id.vg], capacity);
    } else if Eligible(h, f, id.vg) != [] {
      GroupedFree(h, f, id.vg);
      PlanWithoutGroup(h, f, id, capacity);
      var e, g := Eligible(h, f, id.vg), Grouped(h, f, id.vg).vgs[id.vg];
      assert ValidVg(g) && forall i :: 0 <= i < |e| ==> g.free[i] == UsableExtents(e[i].size);
      FitsEach(g, capacity);
    }
  }

  /** Taking the corrupted volume away leaves room exactly if its extents, given back, make it. */
  lemma RoomAfterRemoval(h: Host, f: Filter, id: VolumeId, capacity: int, mid: Host)
    requires Valid(h) && LvRemoved(h, id, mid)
    ensures Room(mid, f, id.vg, capacity, 0) <==> Room(h, f, id.vg, capacity, h.lvs[id].perPv)
  {
    hide ValidDisks, ValidLabels, ValidMembers, ValidName;
    var g, g' := h.vgs[id.vg], mid.vgs[id.vg];
    assert forall i :: 0 <= i < |g.free| ==> g'.free[i] == g.free[i] + h.lvs[id].perPv;
    assert forall i :: 0 <= i < |g.free| ==>
             (g'.free[i] + 0) * |g.pvs| * 4194304 == (g.free[i] + h.lvs[id].perPv) * |g.pvs| * 4194304;
  }

  /** When EnsureVolume succeeds, if no command faults: the id and the range are good, and the volume
      is there, healthy and within the range, or it can be made, where a corrupted volume that is not
      in use makes room for its successor. */
  lemma EnsureSucceeds(h: Host, f: Filter, s: string, capacity: int, limit: int, r: Result<int>, h': Host)
    requires Valid(h) && Ensured(h, f, s, capacity, limit, r, h')
    requires r != Err(Fault) && r != Err(StaleDeviceNode)
    ensures r.Ok? <==>
              && Parse(s).Some? && 0 < capacity && (limit == 0 || capacity <= limit)
              && var id := Parse(s).value;
              && ValidName(id.vg) && ValidName(id.lv)
              && if Healthy(h, id) then h.lvs[id].size >= capacity && (limit == 0 || h.lvs[id].size <= limit)
                 else if id in h.lvs then !h.lvs[id].inUse && Room(h, f, id.vg, capacity, h.lvs[id].perPv)
                 else Room(h, f, id.vg, capacity, 0)
  {
    hide Parse, ValidName, Plan, Partial, Room, NodesReconciled;
    if Parse(s).Some? && !BadRange(capacity, limit) {
      var id := Parse(s).value;
      if ValidName(id.vg) && ValidName(id.lv) {
        if id !in h.lvs {
          PlanSucceeds(h, f, id, capacity);
        } else if id !in h.nodes && !h.lvs[id].inUse {
          var mid :| Replaced(h, f, id, capacity, r, mid, h');
          PlanSucceeds(mid, f, id, capacity);
          RoomAfterRemoval(h, f, id, capacity, mid);
        }
      }
    }
  }

  lemma {:induction false} EstimateBounded(devices: seq<Device>, k: nat)
    requires k <= |devices| && forall d :: d in devices ==> d.size >= 0
    ensures 0 <= Estimate(devices[..k]) <= TotalSize(devices[..k]) <= TotalSize(devices)
  {
    if devices == [] {
    } else if k < |devices| {
      var front := devices[..|devices| - 1];
      EstimateBounded(front, k);
      assert front[..k] == devices[..k];
    } else {
      var n := |devices| - 1;
      EstimateBounded(devices[..n], n);
      assert devices[..n][..n] == devices[..n] && devices[..k] == devices;
      UsableBounded(devices[n].size);
    }
  }

  lemma UsableBounded(size: int)
    requires size >= 0
    ensures 0 <= UsableBytes(size) <= size
  {
  }

  /** A disk counts with the largest multiple of 4 MiB that fits behind its first MiB, which is what
      the extents of a group made of it amount to. */
  lemma UsableLargest(size: int, n: nat)
    ensures UsableBytes(size) == UsableExtents(size) * 4194304
    ensures n * 4194304 <= UsableBytes(size) <==> n == 0 || n * 4194304 <= size - 1048576
  {
    UsableMeaning(size, n);
    MulMonotone(n, UsableExtents(size), EXTENT);
  }

  /** If the disks together stay below 2^63 the running sum of the estimate never leaves int64. */
  lemma SumInRange(devices: seq<Device>, k: nat)
    requires k <= |devices| && forall d :: d in devices ==> d.size >= 0
    requires TotalSize(devices) <= MAX_INT64
    ensures 0 <= Estimate(devices[..k]) <= MAX_INT64
    ensures Estimate(devices) <= TotalSize(devices)
  {
    EstimateBounded(devices, k);
    EstimateBounded(devices, |devices|);
    assert devices[..|devices|] == devices;
  }

  /** If they stay one stripe row below it, neither does the rounding of any request. */
  lemma RoundingInRange(size: int, stripes: int, total: int)
    requires stripes > 0 && 0 < size <= total && total + EXTENT * stripes <= MAX_INT64
    ensures size + EXTENT - 1 <= MAX_INT64
    ensures Allocated(size, stripes) <= MAX_INT64
  {
    AllocatedCovers(size, stripes);
  }
}
