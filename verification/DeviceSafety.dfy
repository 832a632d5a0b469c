/** No device that carries a foreign signature is ever taken, over any run of the driver. */
module DeviceSafety {
  import opened Text
  import opened VolumeIds
  import opened Probe
  import opened Lvm
  import opened Provisioner
  import opened Shutdown

  predicate IsForeign(h: Host, p: string) {
    p in h.signatures && h.signatures[p] == Foreign
  }

  ghost predicate ForeignKept(h: Host, h': Host) {
    forall p :: IsForeign(h, p) ==> IsForeign(h', p)
  }

  lemma LabelKeepsForeign(h: Host, f: Filter, k: nat)
    requires Valid(h) && k <= |AvailableOn(h, f)|
    ensures ForeignKept(h, LabelAll(h, AvailableOn(h, f)[..k]))
  {
    var some := AvailableOn(h, f)[..k];
    forall d | d in some
      ensures d.path in h.signatures && h.signatures[d.path] != Foreign
    {
      assert d in AvailableOn(h, f);
    }
    LabelAllFacts(h, some);
  }

  lemma GroupKeepsForeign(h: Host, f: Filter, vg: string)
    requires Valid(h) && vg !in h.vgs
    ensures ForeignKept(h, Grouped(h, f, vg))
  {
    var all := AvailableOn(h, f);
    assert all[..|all|] == all;
    LabelKeepsForeign(h, f, |all|);
    EligibleFacts(h, f, vg);
  }

  lemma PlanKeepsForeign(h: Host, f: Filter, id: VolumeId, capacity: int)
    requires Valid(h) && capacity > 0
    ensures ForeignKept(h, Plan(h, f, id, capacity).host)
  {
    if id.vg !in h.vgs {
      var all := AvailableOn(h, f);
      assert all[..|all|] == all;
      LabelKeepsForeign(h, f, |all|);
      GroupKeepsForeign(h, f, id.vg);
    }
  }

  lemma ReconciledKeepsForeign(h: Host, g: Host, h': Host)
    requires ForeignKept(h, g) && NodesReconciled(g, h')
    ensures ForeignKept(h, h')
  {
  }

  lemma CreatedKeepsForeign(h: Host, f: Filter, id: VolumeId, capacity: int, r: Result<int>, h': Host)
    requires Valid(h) && capacity > 0 && Created(h, f, id, capacity, r, h')
    ensures ForeignKept(h, h')
  {
    var all, made := AvailableOn(h, f), Plan(h, f, id, capacity).host;
    if NodesReconciled(made, h') {
      PlanKeepsForeign(h, f, id, capacity);
      ReconciledKeepsForeign(h, made, h');
    } else if id.vg !in h.vgs && NodesReconciled(Grouped(h, f, id.vg), h') {
      GroupKeepsForeign(h, f, id.vg);
      ReconciledKeepsForeign(h, Grouped(h, f, id.vg), h');
    } else {
      var k :| 0 <= k <= |all| && NodesReconciled(LabelAll(h, all[..k]), h');
      LabelKeepsForeign(h, f, k);
      ReconciledKeepsForeign(h, LabelAll(h, all[..k]), h');
    }
  }

  lemma EnsuredKeepsForeign(h: Host, f: Filter, s: string, capacity: int, limit: int, r: Result<int>, h': Host)
    requires Valid(h) && Ensured(h, f, s, capacity, limit, r, h')
    ensures ForeignKept(h, h')
  {
    if h' != h {
      var id := Parse(s).value;
      if id !in h.lvs {
        CreatedKeepsForeign(h, f, id, capacity, r, h');
      } else {
        var mid :| Replaced(h, f, id, capacity, r, mid, h');
        CreatedKeepsForeign(mid, f, id, capacity, r, h');
      }
    }
  }

  /** A disk that matched the filter, was unformatted or LVM2, and was in no group. */
  ghost predicate Takeable(h: Host, f: Filter, p: string) {
    && p in h.signatures && h.signatures[p] != Foreign
    && (p in h.pvs ==> h.pvs[p] == "")
    && exists d :: d in h.devices && d.path == p && Match(f, d)
  }

  lemma EligibleTakeable(h: Host, f: Filter, vg: string, p: string)
    requires Valid(h) && vg !in h.vgs && p in Paths(Eligible(h, f, vg))
    ensures Takeable(h, f, p)
  {
    EligibleFacts(h, f, vg);
    var e := Eligible(h, f, vg);
    var i :| 0 <= i < |e| && Paths(e)[i] == p;
    assert e[i] in e && e[i] in AvailableOn(h, f) && e[i] in h.devices;
  }

  /** Groups keep their disks, and the only new one is built from the eligible disks. */
  ghost predicate GroupsBuilt(h: Host, f: Filter, vg: string, h': Host) {
    forall v :: v in h'.vgs ==>
      if v in h.vgs then h'.vgs[v].pvs == h.vgs[v].pvs else v == vg && h'.vgs[v].pvs == Paths(Eligible(h, f, vg))
  }

  lemma PlanBuilds(h: Host, f: Filter, id: VolumeId, capacity: int)
    requires Valid(h) && capacity > 0
    ensures GroupsBuilt(h, f, id.vg, Plan(h, f, id, capacity).host)
  {
    hide Valid, ValidName, LabelAll, AvailableOn, Eligible, PerPv, Allocated;
    LabelledVolumes(h, AvailableOn(h, f));
  }

  lemma StartBuilds(h: Host, f: Filter, vg: string, h': Host)
    requires Started(h, f, vg, h')
    ensures GroupsBuilt(h, f, vg, h')
  {
    hide LabelAll, AvailableOn, Eligible;
    var all := AvailableOn(h, f);
    LabelledVolumes(h, all);
    forall k | 0 <= k <= |all|
      ensures LabelAll(h, all[..k]).vgs == h.vgs
    {
      LabelledVolumes(h, all[..k]);
    }
  }

  lemma CreatedBuilds(h: Host, f: Filter, id: VolumeId, capacity: int, r: Result<int>, h': Host)
    requires Valid(h) && capacity > 0 && Created(h, f, id, capacity, r, h')
    ensures GroupsBuilt(h, f, id.vg, h')
  {
    hide Valid, Plan, Started, Eligible;
    PlanBuilds(h, f, id, capacity);
    if Started(h, f, id.vg, h') {
      StartBuilds(h, f, id.vg, h');
    }
  }

  lemma EnsuredBuilds(h: Host, f: Filter, s: string, capacity: int, limit: int, r: Result<int>, h': Host)
    requires Valid(h) && Ensured(h, f, s, capacity, limit, r, h') && Parse(s).Some?
    ensures GroupsBuilt(h, f, Parse(s).value.vg, h')
  {
    hide Created, Eligible, Parse, ValidName;
    if h' != h {
      var id := Parse(s).value;
      if id !in h.lvs {
        CreatedBuilds(h, f, id, capacity, r, h');
      } else {
        var mid :| Replaced(h, f, id, capacity, r, mid, h');
        CreatedBuilds(mid, f, id, capacity, r, h');
      }
    }
  }

  /** Whatever the outcome of a call, a group that is new after it is the requested one and is
      built only from disks that were takeable when they were checked; and no disk is added to
      a group that was there. */
  lemma NewGroupDevices(h: Host, f: Filter, s: string, capacity: int, limit: int, r: Result<int>, h': Host, v: string)
    requires Valid(h) && Ensured(h, f, s, capacity, limit, r, h') && v in h'.vgs
    ensures v in h.vgs ==> h'.vgs[v].pvs == h.vgs[v].pvs
    ensures v !in h.vgs ==>
              Parse(s).Some? && v == Parse(s).value.vg && forall p :: p in h'.vgs[v].pvs ==> Takeable(h, f, p)
  {
    hide Valid, Parse, Takeable, Eligible;
    if Parse(s).Some? {
      EnsuredBuilds(h, f, s, capacity, limit, r, h');
      if v !in h.vgs {
        forall p | p in h'.vgs[v].pvs
          ensures Takeable(h, f, p)
        {
          EligibleTakeable(h, f, v, p);
        }
      }
    }
  }

  // ---------------------------------------------------------------- runs

  datatype Kind = Provision(s: string, capacity: int, limit: int, r: Result<int>) | Remove(id: VolumeId) | Shut | Others

  /** One step of a node's life: a provisioning call, a volume removal, shutdown cleanup, or
      other programs writing or wiping signatures on disks that are not physical volumes. */
  ghost predicate Step(h: Host, f: Filter, k: Kind, h': Host) {
    && Valid(h) && Valid(h')
    && match k
       case Provision(s, capacity, limit, r) => Ensured(h, f, s, capacity, limit, r, h')
       case Remove(id) => LvRemoved(h, id, h')
       case Shut => OnlyShrinks(h, h')
       case Others => h' == h.(signatures := h'.signatures) && h'.signatures.Keys == h.signatures.Keys
  }

  ghost predicate IsRun(hs: seq<Host>, f: Filter, ks: seq<Kind>) {
    |hs| == |ks| + 1 && forall i :: 0 <= i < |ks| ==> StepAt(hs, f, ks, i)
  }

  ghost predicate StepAt(hs: seq<Host>, f: Filter, ks: seq<Kind>, i: nat)
    requires |hs| == |ks| + 1 && i < |ks|
  {
    Step(hs[i], f, ks[i], hs[i + 1])
  }

  lemma StepKeepsForeign(h: Host, f: Filter, k: Kind, h': Host)
    requires Step(h, f, k, h') && k != Others
    ensures ForeignKept(h, h')
    ensures forall p :: IsForeign(h, p) ==> p !in h'.pvs
  {
    match k
    case Provision(s, capacity, limit, r) => EnsuredKeepsForeign(h, f, s, capacity, limit, r, h');
    case Remove(id) =>
    case Shut =>
  }

  lemma {:induction false} LosesForeign(hs: seq<Host>, f: Filter, ks: seq<Kind>, i: nat, j: nat, p: string)
    returns (w: nat)
    requires IsRun(hs, f, ks) && i <= j <= |ks| && IsForeign(hs[i], p) && !IsForeign(hs[j], p)
    ensures i <= w < j && ks[w] == Others && IsForeign(hs[w], p) && !IsForeign(hs[w + 1], p)
    decreases j - i
  {
    hide Step;
    assert StepAt(hs, f, ks, i);
    if IsForeign(hs[i + 1], p) {
      w := LosesForeign(hs, f, ks, i + 1, j, p);
    } else {
      if ks[i] != Others {
        StepKeepsForeign(hs[i], f, ks[i], hs[i + 1]);
      }
      w := i;
    }
  }

  /** Over every run, a group that is new after a step was made by a provisioning call, from disks
      that matched the filter, were unformatted or LVM2, and were in no group before it. */
  lemma NewGroupInRun(hs: seq<Host>, f: Filter, ks: seq<Kind>, i: nat, v: string)
    requires IsRun(hs, f, ks) && i < |ks| && v !in hs[i].vgs && v in hs[i + 1].vgs
    ensures ks[i].Provision? && forall p :: p in hs[i + 1].vgs[v].pvs ==> Takeable(hs[i], f, p)
  {
    hide Valid, Ensured, Takeable;
    assert StepAt(hs, f, ks, i);
    match ks[i]
    case Provision(s, capacity, limit, r) => NewGroupDevices(hs[i], f, s, capacity, limit, r, hs[i + 1], v);
    case Remove(_) =>
    case Shut =>
    case Others =>
  }

  /** If a device was foreign at one point of a run and is a physical volume later on, then in
      between someone other than the driver wiped its signature. */
  lemma TakenOnlyAfterWipe(hs: seq<Host>, f: Filter, ks: seq<Kind>, i: nat, j: nat, p: string)
    returns (w: nat)
    requires IsRun(hs, f, ks) && i <= j <= |ks|
    requires IsForeign(hs[i], p) && p in hs[j].pvs && ValidLabels(hs[j].signatures, hs[j].pvs)
    ensures i <= w < j && ks[w] == Others && IsForeign(hs[w], p) && !IsForeign(hs[w + 1], p)
  {
    w := LosesForeign(hs, f, ks, i, j, p);
  }
}
