/** Where the bytes of a volume group are: what AvailableCapacity reports for it and the sizes of
    its volumes add up to the same over every run of a node. */
module Accounting {
  import opened Text
  import opened VolumeIds
  import opened Probe
  import opened Lvm
  import opened Provisioner
  import opened Capacity
  import opened Volumes

  /** Every volume is as large as the extents it takes, the same number on each disk of its group. */
  ghost predicate Accounted(h: Host) {
    forall id :: id in h.lvs ==>
      id.vg in h.vgs && h.lvs[id].size == h.lvs[id].perPv * |h.vgs[id.vg].pvs| * EXTENT
  }

  /** What AvailableCapacity answers for a group of a proper name. */
  ghost function Reported(h: Host, f: Filter, vg: string): int {
    if vg in h.vgs then FreeBytes(h.vgs[vg]) else Estimate(Eligible(h, f, vg))
  }

  function SizeIn(h: Host, id: VolumeId): int {
    if id in h.lvs then h.lvs[id].size else 0
  }

  /** The capacity of the group changes by what the volume changes, the other way round; no other
      volume and no other group changes. */
  ghost predicate Conserves(h: Host, f: Filter, id: VolumeId, h': Host) {
    && Accounted(h')
    && Reported(h', f, id.vg) + SizeIn(h', id) == Reported(h, f, id.vg) + SizeIn(h, id)
    && h'.lvs - {id} == h.lvs - {id}
    && h.vgs.Keys <= h'.vgs.Keys && (forall v :: v in h.vgs && v != id.vg ==> h'.vgs[v] == h.vgs[v])
  }

  lemma ConservesTwice(a: Host, f: Filter, id: VolumeId, b: Host, c: Host)
    requires Conserves(a, f, id, b) && Conserves(b, f, id, c)
    ensures Conserves(a, f, id, c)
  {
    hide Accounted, Reported, SizeIn;
  }

  // ---------------------------------------------------------------- extents are bytes

  lemma {:induction false} SumShift(s: seq<nat>, t: seq<nat>, n: int)
    requires |t| == |s| && forall i :: 0 <= i < |s| ==> t[i] == s[i] + n
    ensures Sum(t) == Sum(s) + |s| * n
  {
    if s != [] {
      SumShift(s[..|s| - 1], t[..|s| - 1], n);
      assert |s| * n == (|s| - 1) * n + n;
    }
  }

  /** Giving `n` extents back on each disk, or taking -`n`, is that many bytes. */
  lemma FreeShift(g: Vg, g': Vg, n: int)
    requires |g.free| == |g.pvs| && |g'.free| == |g.free|
    requires forall i :: 0 <= i < |g.free| ==> g'.free[i] == g.free[i] + n
    ensures FreeBytes(g') == FreeBytes(g) + n * |g.pvs| * EXTENT
  {
    SumShift(g.free, g'.free, n);
    assert EXTENT * (|g.pvs| * n) == n * |g.pvs| * EXTENT;
  }

  /** One volume of the group grew, or appeared, by as many bytes as the group gave. */
  lemma Moved(h: Host, f: Filter, id: VolumeId, h': Host, n: int)
    requires Accounted(h) && id.vg in h.vgs && ValidVg(h.vgs[id.vg]) && id.vg in h'.vgs
    requires h'.lvs - {id} == h.lvs - {id} && h'.vgs == h.vgs[id.vg := h'.vgs[id.vg]]
    requires var g, g' := h.vgs[id.vg], h'.vgs[id.vg];
             g'.pvs == g.pvs && |g'.free| == |g.free| && forall i :: 0 <= i < |g.free| ==> g'.free[i] == g.free[i] - n
    requires id in h'.lvs ==> h'.lvs[id].size == h'.lvs[id].perPv * |h.vgs[id.vg].pvs| * EXTENT
    requires n == (if id in h'.lvs then h'.lvs[id].perPv else 0) - (if id in h.lvs then h.lvs[id].perPv else 0)
    ensures Conserves(h, f, id, h')
  {
    hide FreeBytes;
    var k := |h.vgs[id.vg].pvs|;
    FreeShift(h.vgs[id.vg], h'.vgs[id.vg], -n);
    Shares(if id in h'.lvs then h'.lvs[id].perPv else 0, if id in h.lvs then h.lvs[id].perPv else 0, k);
    forall j | j in h'.lvs && j != id
      ensures j.vg in h'.vgs && h'.lvs[j].size == h'.lvs[j].perPv * |h'.vgs[j.vg].pvs| * EXTENT
    {
      assert j in h'.lvs - {id};
      assert h'.lvs[j] == (h.lvs - {id})[j];
    }
  }

  lemma Shares(a: int, b: int, k: int)
    ensures -(a - b) * k * EXTENT + a * k * EXTENT == b * k * EXTENT
  {
    assert -(a - b) * k == b * k - a * k;
  }

  lemma AllocateConserves(h: Host, f: Filter, id: VolumeId, capacity: int)
    requires Accounted(h) && id.vg in h.vgs && ValidVg(h.vgs[id.vg]) && id !in h.lvs && capacity > 0
    ensures Conserves(h, f, id, Allocate(h, id, capacity).host)
  {
    hide PerPv, FreeBytes, Eligible;
    var k := |h.vgs[id.vg].pvs|;
    if Fits(h.vgs[id.vg], PerPv(capacity, k)) {
      AllocatedCovers(capacity, k);
      Moved(h, f, id, LvCreated(h, id, capacity), PerPv(capacity, k));
    }
  }

  lemma RemovalConserves(h: Host, f: Filter, id: VolumeId, h': Host)
    requires Valid(h) && Accounted(h) && AtMostDropped(h, id, h')
    ensures Conserves(h, f, id, h')
  {
    hide ValidName, ValidMembers, ValidLabels, ValidDisks, FreeBytes, Match, Sum;
    if id in h.lvs && id !in h'.lvs {
      assert h'.vgs == h.vgs[id.vg := h'.vgs[id.vg]];
      var n: int := h.lvs[id].perPv;
      Moved(h, f, id, h', -n);
    } else {
      assert h'.vgs == h.vgs;
      assert Eligible(h', f, id.vg) == Eligible(h, f, id.vg) by { FreeSame(h, id.vg, h', id.vg, AvailableOn(h, f)); }
      forall j | j in h'.lvs
        ensures j in h.lvs && h'.lvs[j].size == h.lvs[j].size && h'.lvs[j].perPv == h.lvs[j].perPv
      {
        if j != id { assert j in h'.lvs - {id} && h'.lvs[j] == (h.lvs - {id})[j]; }
      }
    }
  }

  // ---------------------------------------------------------------- labels are free

  lemma {:induction false} AvailableSame(devices: seq<Device>, sigs: map<string, Signature>,
                                         sigs': map<string, Signature>, f: Filter)
    requires forall d :: d in devices ==> (Usable(d, sigs', f) <==> Usable(d, sigs, f))
    ensures Available(devices, sigs', f) == Available(devices, sigs, f)
  {
    hide Usable;
    if devices != [] {
      AvailableSame(devices[..|devices| - 1], sigs, sigs', f);
    }
  }

  lemma {:induction false} FreeSame(h: Host, vg: string, h': Host, vg': string, devices: seq<Device>)
    requires forall d :: d in devices ==> (FreeFor(h', vg', d) <==> FreeFor(h, vg, d))
    ensures FreeAmong(h', vg', devices) == FreeAmong(h, vg, devices)
  {
    hide FreeFor;
    if devices != [] {
      FreeSame(h, vg, h', vg', devices[..|devices| - 1]);
    }
  }

  /** Labelling scanned disks changes neither volumes nor groups nor what a group could be made of. */
  lemma LabelConserves(h: Host, f: Filter, id: VolumeId, k: nat)
    requires Valid(h) && Accounted(h) && k <= |AvailableOn(h, f)|
    ensures Conserves(h, f, id, LabelAll(h, AvailableOn(h, f)[..k]))
  {
    hide Valid, LabelAll, Match, FreeAmong, FreeBytes, Estimate;
    var all := AvailableOn(h, f);
    var some, l := all[..k], LabelAll(h, all[..k]);
    forall d | d in some
      ensures d.path in h.signatures && h.signatures[d.path] != Foreign
    {
      assert d in all;
    }
    LabelAllFacts(h, some);
    forall d | d in h.devices
      ensures Usable(d, l.signatures, f) <==> Usable(d, h.signatures, f)
    {
    }
    AvailableSame(h.devices, h.signatures, l.signatures, f);
    FreeSame(h, id.vg, l, id.vg, all);
  }

  /** Making the group turns its estimated capacity into free bytes. */
  lemma GroupConserves(h: Host, f: Filter, id: VolumeId)
    requires Valid(h) && Accounted(h) && id.vg !in h.vgs && Eligible(h, f, id.vg) != []
    ensures Conserves(h, f, id, Grouped(h, f, id.vg))
  {
    hide Valid, LabelAll, AvailableOn, Eligible, FreeBytes, Estimate;
    LabelledVolumes(h, AvailableOn(h, f));
    EstimateIsGroupFree(h, f, id.vg);
  }

  lemma ReconciledConserves(h: Host, f: Filter, id: VolumeId, g: Host, h': Host)
    requires Conserves(h, f, id, g) && NodesReconciled(g, h')
    ensures Conserves(h, f, id, h')
  {
    hide FreeBytes, Estimate, Match;
    FreeSame(g, id.vg, h', id.vg, AvailableOn(g, f));
  }

  // ---------------------------------------------------------------- the operations

  lemma PlanConserves(h: Host, f: Filter, id: VolumeId, capacity: int)
    requires Valid(h) && Accounted(h) && id !in h.lvs && capacity > 0
    ensures Conserves(h, f, id, Plan(h, f, id, capacity).host)
  {
    hide Conserves, Accounted, LabelAll, AvailableOn, Eligible, Allocate, Grouped, ValidName;
    if id.vg in h.vgs {
      AllocateConserves(h, f, id, capacity);
    } else if Eligible(h, f, id.vg) == [] {
      var all := AvailableOn(h, f);
      assert all[..|all|] == all;
      LabelConserves(h, f, id, |all|);
    } else {
      GroupConserves(h, f, id);
      GroupedFree(h, f, id.vg);
      GroupedVolumes(h, f, id.vg);
      StillAccounted(h, f, id, Grouped(h, f, id.vg));
      AllocateConserves(Grouped(h, f, id.vg), f, id, capacity);
      ConservesTwice(h, f, id, Grouped(h, f, id.vg), Allocate(Grouped(h, f, id.vg), id, capacity).host);
    }
  }

  lemma StillAccounted(h: Host, f: Filter, id: VolumeId, h': Host)
    requires Conserves(h, f, id, h')
    ensures Accounted(h')
  {
  }

  lemma CreatedConserves(h: Host, f: Filter, id: VolumeId, capacity: int, r: Result<int>, h': Host)
    requires Valid(h) && Accounted(h) && id !in h.lvs && capacity > 0 && Created(h, f, id, capacity, r, h')
    ensures Conserves(h, f, id, h')
  {
    hide Valid, Conserves, Accounted, LabelAll, AvailableOn, Eligible, Plan, Grouped, NodesReconciled;
    var all, made := AvailableOn(h, f), Plan(h, f, id, capacity).host;
    if NodesReconciled(made, h') {
      PlanConserves(h, f, id, capacity);
      ReconciledConserves(h, f, id, made, h');
    } else if id.vg !in h.vgs && Eligible(h, f, id.vg) != [] && NodesReconciled(Grouped(h, f, id.vg), h') {
      GroupConserves(h, f, id);
      ReconciledConserves(h, f, id, Grouped(h, f, id.vg), h');
    } else {
      var k :| 0 <= k <= |all| && NodesReconciled(LabelAll(h, all[..k]), h');
      LabelConserves(h, f, id, k);
      ReconciledConserves(h, f, id, LabelAll(h, all[..k]), h');
    }
  }

  lemma NothingMoved(h: Host, f: Filter, id: VolumeId)
    requires Accounted(h)
    ensures Conserves(h, f, id, h)
  {
    hide Reported;
  }

  /** EnsureVolume, whatever it answers and however far it got: the capacity reported for the group
      drops by exactly the bytes the volume gains, also when it has to make the group first. */
  lemma EnsureConserves(h: Host, f: Filter, s: string, capacity: int, limit: int, r: Result<int>, h': Host)
    requires Valid(h) && Accounted(h) && Parse(s).Some? && Ensured(h, f, s, capacity, limit, r, h')
    ensures Conserves(h, f, Parse(s).value, h')
  {
    hide Valid, Parse, ValidName, Conserves, Accounted, Created, LvRemoved;
    var id := Parse(s).value;
    NothingMoved(h, f, id);
    if h' != h {
      if id !in h.lvs {
        CreatedConserves(h, f, id, capacity, r, h');
      } else {
        var mid :| Replaced(h, f, id, capacity, r, mid, h');
        RemovedIsDropped(h, id, mid);
        RemovalConserves(h, f, id, mid);
        StillAccounted(h, f, id, mid);
        assert id !in mid.lvs by { Removed(h, id, mid); }
        CreatedConserves(mid, f, id, capacity, r, h');
        ConservesTwice(h, f, id, mid, h');
      }
    }
  }

  lemma Removed(h: Host, id: VolumeId, h': Host)
    requires LvRemoved(h, id, h')
    ensures id !in h'.lvs
  {
  }

  /** NodeExpandVolume: what the volume gains its group gives. */
  lemma ExpandConserves(h: Host, f: Filter, s: string, required: int, r: Result<int>, h': Host)
    requires Valid(h) && Accounted(h) && Parse(s).Some? && Expanded(h, s, required, r, h')
    ensures Conserves(h, f, Parse(s).value, h')
  {
    hide Parse, ValidName, ValidMembers, ValidLabels, ValidDisks, Conserves, PerPv;
    var id := Parse(s).value;
    NothingMoved(h, f, id);
    if h' != h {
      AllocatedCovers(required, |h.vgs[id.vg].pvs|);
      Moved(h, f, id, h', PerPv(required, |h.vgs[id.vg].pvs|) - h.lvs[id].perPv);
    }
  }

  // ---------------------------------------------------------------- runs

  /** The calls that change the volumes of a node: provisioning, expanding, and removing, by a delete
      or by a collector. */
  datatype Step =
    | Ensure(handle: string, capacity: int, limit: int, r: Result<int>)
    | Expand(handle: string, required: int, r: Result<int>)
    | Drop(handle: string)

  ghost predicate Next(f: Filter, h: Host, s: Step, h': Host) {
    && Valid(h) && Valid(h')
    && match s
       case Ensure(handle, capacity, limit, r) => Ensured(h, f, handle, capacity, limit, r, h')
       case Expand(handle, required, r) => Expanded(h, handle, required, r, h')
       case Drop(handle) => if Parse(handle).Some? then AtMostDropped(h, Parse(handle).value, h') else h' == h
  }

  ghost predicate At(f: Filter, hs: seq<Host>, ss: seq<Step>, i: nat)
    requires |hs| == |ss| + 1 && i < |ss|
  {
    Next(f, hs[i], ss[i], hs[i + 1])
  }

  ghost predicate IsRun(f: Filter, hs: seq<Host>, ss: seq<Step>) {
    |hs| == |ss| + 1 && Accounted(hs[0]) && forall i :: 0 <= i < |ss| ==> At(f, hs, ss, i)
  }

  /** Until the group is made only its own volumes are provisioned, so that no other group takes the
      disks it would be made of. */
  ghost predicate Unrivalled(hs: seq<Host>, ss: seq<Step>, vg: string, i: nat)
    requires |hs| == |ss| + 1 && i <= |ss|
  {
    forall k :: 0 <= k < i ==>
      vg in hs[k].vgs || (Parse(ss[k].handle).Some? ==> Parse(ss[k].handle).value.vg == vg)
  }

  function Share(lvs: map<VolumeId, Lv>, vg: string, id: VolumeId): int {
    if id in lvs && id.vg == vg then lvs[id].size else 0
  }

  /** The bytes of the group's volumes. */
  ghost function Used(lvs: map<VolumeId, Lv>, vg: string): int
    decreases |lvs|
  {
    if lvs == map[] then 0
    else
      var id :| id in lvs;
      assert (lvs - {id}).Keys == lvs.Keys - {id};
      Share(lvs, vg, id) + Used(lvs - {id}, vg)
  }

  /** It does not matter which volume is counted first. */
  lemma {:induction false} UsedAny(lvs: map<VolumeId, Lv>, vg: string, id: VolumeId)
    ensures Used(lvs, vg) == Share(lvs, vg, id) + Used(lvs - {id}, vg)
    decreases |lvs|
  {
    if id !in lvs {
      assert lvs - {id} == lvs;
    } else {
      var k :| k in lvs && Used(lvs, vg) == Share(lvs, vg, k) + Used(lvs - {k}, vg);
      hide Used, Share;
      if k != id {
        WithoutBoth(lvs, vg, k, id);
        UsedAny(lvs - {k}, vg, id);
        UsedAny(lvs - {id}, vg, k);
      }
    }
  }

  lemma WithoutBoth(lvs: map<VolumeId, Lv>, vg: string, j: VolumeId, k: VolumeId)
    requires j in lvs && k in lvs && j != k
    ensures |lvs - {j}| < |lvs| && |lvs - {k}| < |lvs| && (lvs - {j}) - {k} == (lvs - {k}) - {j}
    ensures Share(lvs - {j}, vg, k) == Share(lvs, vg, k) && Share(lvs - {k}, vg, j) == Share(lvs, vg, j)
  {
    assert (lvs - {j}).Keys == lvs.Keys - {j} && (lvs - {k}).Keys == lvs.Keys - {k};
  }

  lemma StepConserves(f: Filter, h: Host, s: Step, h': Host)
    requires Next(f, h, s, h') && Accounted(h)
    ensures Parse(s.handle).Some? ==> Conserves(h, f, Parse(s.handle).value, h')
    ensures Parse(s.handle).None? ==> h' == h
  {
    hide Parse, Valid, Conserves, Accounted, Created, Replaced, LvExtended, AtMostDropped;
    if Parse(s.handle).Some? {
      match s
      case Ensure(handle, capacity, limit, r) => EnsureConserves(h, f, handle, capacity, limit, r, h');
      case Expand(handle, required, r) => ExpandConserves(h, f, handle, required, r, h');
      case Drop(handle) => RemovalConserves(h, f, Parse(handle).value, h');
    }
  }

  ghost function Total(h: Host, f: Filter, vg: string): int {
    Reported(h, f, vg) + Used(h.lvs, vg)
  }

  lemma ConservesTotal(h: Host, f: Filter, id: VolumeId, h': Host, vg: string)
    requires Conserves(h, f, id, h') && (vg in h.vgs || id.vg == vg)
    ensures Total(h', f, vg) == Total(h, f, vg)
  {
    hide Accounted, FreeBytes, Estimate, Eligible, Used;
    UsedAny(h.lvs, vg, id);
    UsedAny(h'.lvs, vg, id);
  }

  /** Over every run, whatever the calls answer, the capacity reported for a group and the sizes of its
      volumes add up to the same: no byte is lost, and none is given out twice. */
  lemma {:induction false} SpaceConserved(f: Filter, hs: seq<Host>, ss: seq<Step>, vg: string, i: nat)
    requires IsRun(f, hs, ss) && i <= |ss| && Unrivalled(hs, ss, vg, i)
    ensures Accounted(hs[i])
    ensures Reported(hs[i], f, vg) + Used(hs[i].lvs, vg) == Reported(hs[0], f, vg) + Used(hs[0].lvs, vg)
  {
    hide Next, Parse, Accounted, Reported, Used, Conserves;
    if i > 0 {
      SpaceConserved(f, hs, ss, vg, i - 1);
      assert At(f, hs, ss, i - 1);
      StepConserves(f, hs[i - 1], ss[i - 1], hs[i]);
      if Parse(ss[i - 1].handle).Some? {
        var id := Parse(ss[i - 1].handle).value;
        StillAccounted(hs[i - 1], f, id, hs[i]);
        ConservesTotal(hs[i - 1], f, id, hs[i], vg);
      }
    }
  }

  /** A disk that could be taken is free for every missing group alike. */
  lemma FreeForAny(h: Host, vg: string, d: Device)
    requires Valid(h) && vg !in h.vgs
    ensures FreeFor(h, vg, d) <==> d.path !in h.pvs || h.pvs[d.path] == ""
  {
  }

  /** A rival takes it all: the same capacity is reported for every missing group, and once one of
      them is made nothing is left for the others. */
  lemma RivalTakesAll(h: Host, f: Filter, vg: string, rival: string)
    requires Valid(h) && vg !in h.vgs && rival !in h.vgs && rival != vg && rival != "" && Eligible(h, f, rival) != []
    ensures Reported(h, f, vg) == Reported(h, f, rival)
    ensures Reported(Grouped(h, f, rival), f, vg) == 0
  {
    hide Valid, LabelAll, Match, FreeFor, FreeAmong;
    var all := AvailableOn(h, f);
    forall d | d in all
      ensures FreeFor(h, vg, d) <==> FreeFor(h, rival, d)
    {
      FreeForAny(h, vg, d);
      FreeForAny(h, rival, d);
    }
    FreeSame(h, rival, h, vg, all);
    var left := Eligible(Grouped(h, f, rival), f, vg);
    if left != [] {
      assert left[0] in left;
      NothingLeft(h, f, vg, rival, left[0]);
    }
    LabelledVolumes(h, all);
  }

  lemma NothingLeft(h: Host, f: Filter, vg: string, rival: string, d: Device)
    requires Valid(h) && vg !in h.vgs && rival !in h.vgs && rival != vg && rival != ""
    ensures d !in Eligible(Grouped(h, f, rival), f, vg)
  {
    hide LabelAll, Match, ValidName, ValidVg;
    var all, g := AvailableOn(h, f), Grouped(h, f, rival);
    LabelAllFacts(h, all);
    if d in Eligible(g, f, vg) {
      assert d in h.devices && Match(f, d);
      if d in all {
        FreeForAny(h, rival, d);
        if FreeFor(h, rival, d) { TakenPath(Eligible(h, f, rival), d); }
        FreeForAny(h, vg, d);
      } else {
        assert h.signatures[d.path] == Foreign;
        forall e | e in all
          ensures e.path != d.path
        {
          assert e in h.devices;
        }
      }
    }
  }

  lemma TakenPath(devices: seq<Device>, d: Device)
    requires d in devices
    ensures d.path in Paths(devices)
  {
    var i :| 0 <= i < |devices| && devices[i] == d;
    assert Paths(devices)[i] == d.path;
  }
}
