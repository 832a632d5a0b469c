/** Shutdown cleanup of volume groups and physical volumes. */
module Shutdown {
  import opened Text
  import opened VolumeIds
  import opened Probe
  import opened Lvm
  import opened Provisioner

  predicate HoldsVolume(h: Host, vg: string) {
    exists id :: id in h.lvs && id.vg == vg
  }

  /** Some volume group with the driver's tag holds a logical volume. */
  ghost predicate TaggedVolume(h: Host) {
    exists v :: v in h.vgs && h.vgs[v].tagged && HoldsVolume(h, v)
  }

  /** Every physical volume is in no group or in one with the driver's tag. */
  ghost predicate AllTagged(h: Host) {
    forall p :: p in h.pvs && h.pvs[p] in h.vgs ==> h.vgs[h.pvs[p]].tagged
  }

  /** What cleanup can do at most: drop groups and unassigned physical volumes. */
  ghost predicate OnlyShrinks(h: Host, h': Host) {
    && h'.lvs == h.lvs && h'.devices == h.devices
    && h'.vgs.Keys <= h.vgs.Keys && (forall v :: v in h'.vgs ==> h'.vgs[v] == h.vgs[v])
    && h'.pvs.Keys <= h.pvs.Keys
    && h'.signatures.Keys == h.signatures.Keys
    && (forall p :: p in h.signatures && p !in h.pvs ==> h'.signatures[p] == h.signatures[p])
  }

  /** The physical volumes of the given groups are in no group any more. */
  ghost predicate Freed(pvs: map<string, string>, vgs: set<string>, pvs': map<string, string>) {
    pvs'.Keys == pvs.Keys && forall p :: p in pvs ==> pvs'[p] == if pvs[p] in vgs then "" else pvs[p]
  }

  /** removeVolumeGroup: a group that is already gone is fine. vgremove takes the volumes of the
      group along, so no volume is lost only if it holds none. */
  method RemoveVolumeGroup(d: Driver, vg: string) returns (r: Result<()>)
    requires Valid(d.mgr.host)
    modifies d.mgr
    ensures Valid(d.mgr.host) && d.mgr.host.pvs.Keys == old(d.mgr.host).pvs.Keys
    ensures !HoldsVolume(old(d.mgr.host), vg) ==> OnlyShrinks(old(d.mgr.host), d.mgr.host)
    ensures forall v :: v in old(d.mgr.host).vgs && v != vg ==> v in d.mgr.host.vgs
    ensures forall id :: id in old(d.mgr.host).lvs && id.vg != vg ==>
              id in d.mgr.host.lvs && d.mgr.host.lvs[id] == old(d.mgr.host).lvs[id]
    ensures r.Ok? ==> vg !in d.mgr.host.vgs && Freed(old(d.mgr.host).pvs, {vg}, d.mgr.host.pvs)
    ensures r.Err? ==> d.mgr.host == old(d.mgr.host)
    ensures d.mgr.reliable && !HoldsVolume(old(d.mgr.host), vg) ==> r.Ok? || !ValidName(vg)
  {
    var found := d.mgr.GetVolumeGroup(vg);
    if found.Err? {
      if found.error == NotFound { return Ok(()); }
      return Err(found.error);
    }
    ghost var h := d.mgr.host;
    assert forall id :: id in h.lvs && id.vg == vg ==> HoldsVolume(h, vg);
    r := d.mgr.RemoveVolumeGroup(vg);
    if r.Ok? { GroupRemoved(h, vg, d.mgr.host); }
  }

  lemma GroupRemoved(h: Host, vg: string, h': Host)
    requires Valid(h) && vg in h.vgs && h' == VgRemoved(h, vg).(nodes := h'.nodes, dirs := h'.dirs)
    ensures Valid(h') && (!HoldsVolume(h, vg) ==> OnlyShrinks(h, h'))
  {
    assert !HoldsVolume(h, vg) ==> h'.lvs == h.lvs;
    assert ValidLabels(h'.signatures, h'.pvs);
    GroupGone(h.pvs, h.vgs, vg, h'.pvs);
  }

  lemma GroupGone(pvs: map<string, string>, vgs: map<string, Vg>, vg: string, pvs': map<string, string>)
    requires ValidMembers(pvs, vgs) && "" !in vgs
    requires pvs' == map p | p in pvs :: if pvs[p] == vg then "" else pvs[p]
    ensures ValidMembers(pvs', vgs - {vg})
  {
  }

  ghost predicate AllFree(pvs: map<string, string>, devices: seq<string>) {
    forall p :: p in devices && p in pvs ==> pvs[p] == ""
  }

  /** removePhysicalVolumes, over the physical volumes it lists itself. */
  method RemovePhysicalVolumes(d: Driver, devices: seq<string>) returns (r: Result<()>)
    requires Valid(d.mgr.host)
    modifies d.mgr
    ensures Valid(d.mgr.host) && OnlyShrinks(old(d.mgr.host), d.mgr.host) && d.mgr.host.vgs == old(d.mgr.host).vgs
    ensures r.Ok? ==> d.mgr.host.pvs.Keys == old(d.mgr.host).pvs.Keys - (set p | p in devices)
    ensures r.Ok? ==> AllFree(old(d.mgr.host).pvs, devices)
    ensures d.mgr.reliable && NoDuplicates(devices) && AllFree(old(d.mgr.host).pvs, devices) ==> r.Ok?
  {
    hide Valid, OnlyShrinks;
    NothingGone(d.mgr.host);
    var names := ListedNames(d);
    if names.Err? { return Err(names.error); }
    var present := names.value;
    ghost var done: set<string> := {};
    for i := 0 to |devices|
      invariant Valid(d.mgr.host) && OnlyShrinks(old(d.mgr.host), d.mgr.host) && d.mgr.host.vgs == old(d.mgr.host).vgs
      invariant d.mgr.host.pvs.Keys == old(d.mgr.host).pvs.Keys - done
      invariant forall p :: p in done <==> p in devices[..i]
      invariant forall p :: p in d.mgr.host.pvs ==> d.mgr.host.pvs[p] == old(d.mgr.host).pvs[p]
      invariant forall p :: p in done && p in old(d.mgr.host).pvs ==> old(d.mgr.host).pvs[p] == ""
    {
      assert devices[..i + 1] == devices[..i] + [devices[i]];
      assert NoDuplicates(devices) ==> devices[i] !in done;
      done := done + {devices[i]};
      if devices[i] in present {
        ghost var h := d.mgr.host;
        var removed := d.mgr.RemovePhysicalVolume(devices[i]);
        if removed.Err? { return Err(removed.error); }
        UnassignedRemoved(old(d.mgr.host), h, devices[i]);
      }
    }
    assert devices[..|devices|] == devices;
    assert done == set p | p in devices;
    return Ok(());
  }

  /** The names of all physical volumes. */
  method ListedNames(d: Driver) returns (r: Result<set<string>>)
    ensures r == Err(Fault) || r == Ok(d.mgr.host.pvs.Keys)
    ensures d.mgr.reliable ==> r.Ok?
  {
    var listed := d.mgr.ListPhysicalVolumes();
    if listed.Err? { return Err(listed.error); }
    var present := set pv | pv in listed.value :: pv.name;
    assert forall p :: p in d.mgr.host.pvs ==> Pv(p, d.mgr.host.pvs[p]) in listed.value;
    assert present == d.mgr.host.pvs.Keys;
    return Ok(present);
  }

  lemma UnassignedRemoved(first: Host, h: Host, p: string)
    requires Valid(h) && OnlyShrinks(first, h) && p in h.pvs && h.pvs[p] == ""
    ensures Valid(PvRemoved(h, p)) && OnlyShrinks(first, PvRemoved(h, p))
  {
    var h' := PvRemoved(h, p);
    assert ValidLabels(h'.signatures, h'.pvs);
    UnassignedGone(h.pvs, h.vgs, p);
  }

  lemma UnassignedGone(pvs: map<string, string>, vgs: map<string, Vg>, p: string)
    requires ValidMembers(pvs, vgs) && "" !in vgs && p in pvs && pvs[p] == ""
    ensures ValidMembers(pvs - {p}, vgs)
  {
  }

  function VolumeCount(h: Host, vg: string): nat {
    |set id | id in h.lvs && id.vg == vg|
  }

  lemma CountedVolumes(h: Host, vg: string)
    ensures VolumeCount(h, vg) > 0 <==> HoldsVolume(h, vg)
  {
    var ids := set id | id in h.lvs && id.vg == vg;
    if HoldsVolume(h, vg) {
      var id :| id in h.lvs && id.vg == vg;
      assert id in ids;
    } else {
      assert ids == {};
    }
  }

  /** The total number of volumes in the listed groups. */
  method CountVolumes(d: Driver, vgs: seq<string>) returns (total: nat)
    ensures total == 0 <==> forall v :: v in vgs ==> !HoldsVolume(d.mgr.host, v)
  {
    total := 0;
    for i := 0 to |vgs|
      invariant total == 0 <==> forall k :: 0 <= k < i ==> !HoldsVolume(d.mgr.host, vgs[k])
    {
      CountedVolumes(d.mgr.host, vgs[i]);
      total := total + VolumeCount(d.mgr.host, vgs[i]);
    }
  }

  method RemoveGroups(d: Driver, vgs: seq<string>) returns (r: Result<()>)
    requires Valid(d.mgr.host) && forall v :: v in vgs ==> !HoldsVolume(d.mgr.host, v)
    modifies d.mgr
    ensures Valid(d.mgr.host) && OnlyShrinks(old(d.mgr.host), d.mgr.host)
    ensures r.Ok? ==> forall v :: v in vgs ==> v !in d.mgr.host.vgs
    ensures r.Ok? ==> Freed(old(d.mgr.host).pvs, (set v | v in vgs), d.mgr.host.pvs)
    ensures forall v :: v in old(d.mgr.host).vgs && v !in vgs ==> v in d.mgr.host.vgs
    ensures d.mgr.reliable && (forall v :: v in vgs ==> ValidName(v)) ==> r.Ok?
  {
    hide Valid, ValidName, Freed, OnlyShrinks;
    NothingGone(d.mgr.host);
    ghost var gone: set<string> := {};
    for i := 0 to |vgs|
      invariant forall v :: v in gone <==> v in vgs[..i]
      invariant Freed(old(d.mgr.host).pvs, gone, d.mgr.host.pvs)
      invariant Valid(d.mgr.host) && OnlyShrinks(old(d.mgr.host), d.mgr.host)
      invariant forall k :: 0 <= k < i ==> vgs[k] !in d.mgr.host.vgs
      invariant forall v :: v in old(d.mgr.host).vgs && v !in vgs ==> v in d.mgr.host.vgs
    {
      assert vgs[i] in vgs;
      ghost var h := d.mgr.host;
      ShrunkHolds(old(d.mgr.host), h, vgs[i]);
      var removed := RemoveVolumeGroup(d, vgs[i]);
      ShrunkHolds(h, d.mgr.host, vgs[i]);
      ShrinksFurther(old(d.mgr.host), h, d.mgr.host);
      if removed.Err? { return Err(removed.error); }
      FreedFurther(old(d.mgr.host).pvs, gone, h.pvs, vgs[i], d.mgr.host.pvs);
      assert vgs[..i + 1] == vgs[..i] + [vgs[i]];
      gone := gone + {vgs[i]};
    }
    assert vgs[..|vgs|] == vgs && gone == set v | v in vgs;
    return Ok(());
  }

  lemma NothingGone(h: Host)
    ensures OnlyShrinks(h, h) && Freed(h.pvs, {}, h.pvs)
  {
  }

  lemma FreedFurther(a: map<string, string>, gone: set<string>, b: map<string, string>, vg: string,
                     c: map<string, string>)
    requires Freed(a, gone, b) && Freed(b, {vg}, c)
    ensures Freed(a, gone + {vg}, c)
  {
  }

  /** What a shrunk host still holds. */
  lemma ShrunkHolds(a: Host, b: Host, vg: string)
    requires OnlyShrinks(a, b)
    ensures HoldsVolume(b, vg) == HoldsVolume(a, vg) && b.vgs.Keys <= a.vgs.Keys && b.pvs.Keys <= a.pvs.Keys
  {
  }

  lemma ShrinksFurther(a: Host, b: Host, c: Host)
    requires OnlyShrinks(a, b) && OnlyShrinks(b, c)
    ensures OnlyShrinks(a, c)
  {
  }

  /** Cleanup. Whatever happens no logical volume is lost; while a tagged group holds a volume
      nothing is changed at all; and success without one leaves no tagged group and no
      physical volume. On a reliable node it fails exactly when there is no such volume and some
      physical volume is in a group without the driver's tag. */
  method Cleanup(d: Driver) returns (r: Result<()>)
    requires Valid(d.mgr.host)
    modifies d.mgr
    ensures Valid(d.mgr.host) && OnlyShrinks(old(d.mgr.host), d.mgr.host)
    ensures TaggedVolume(old(d.mgr.host)) ==> d.mgr.host == old(d.mgr.host)
    ensures forall v :: v in old(d.mgr.host).vgs && !old(d.mgr.host).vgs[v].tagged ==> v in d.mgr.host.vgs
    ensures r.Ok? && !TaggedVolume(old(d.mgr.host)) ==>
              d.mgr.host.pvs == map[] && forall v :: v in d.mgr.host.vgs ==> !d.mgr.host.vgs[v].tagged
    ensures d.mgr.reliable ==> (r.Ok? <==> TaggedVolume(old(d.mgr.host)) || AllTagged(old(d.mgr.host)))
  {
    ghost var h := d.mgr.host;
    var groups := d.mgr.ListVolumeGroups(true);
    if groups.Err? { return Err(groups.error); }
    var total := CountVolumes(d, groups.value);
    if total > 0 { return Ok(()); }
    var removed := RemoveGroups(d, groups.value);
    if removed.Err? { return Err(removed.error); }
    ghost var mid := d.mgr.host;
    assert forall v :: v in mid.vgs ==> !mid.vgs[v].tagged;
    var listed := d.mgr.ListPhysicalVolumes();
    if listed.Err? { return Err(listed.error); }
    var devices := seq(|listed.value|, i requires 0 <= i < |listed.value| => listed.value[i].name);
    AllListed(listed.value, mid.pvs, devices);
    FreedWhenTagged(h, groups.value, mid);
    r := RemovePhysicalVolumes(d, devices);
    ShrinksFurther(h, mid, d.mgr.host);
    if r.Ok? {
      assert d.mgr.host.pvs.Keys == {};
    }
  }

  lemma AllListed(list: seq<Pv>, pvs: map<string, string>, names: seq<string>)
    requires ListsPvs(list, pvs) && |names| == |list| && forall i :: 0 <= i < |list| ==> names[i] == list[i].name
    ensures NoDuplicates(names) && forall p :: p in pvs ==> p in names
  {
    forall p | p in pvs
      ensures p in names
    {
      assert Pv(p, pvs[p]) in list;
      var i :| 0 <= i < |list| && list[i] == Pv(p, pvs[p]);
      assert names[i] == p;
    }
  }

  /** Once the tagged groups are gone, the physical volumes are free exactly if all were tagged. */
  lemma FreedWhenTagged(h: Host, vgs: seq<string>, mid: Host)
    requires Valid(h) && Freed(h.pvs, (set v | v in vgs), mid.pvs)
    requires forall v :: v in vgs <==> v in h.vgs && h.vgs[v].tagged
    ensures AllTagged(h) <==> forall p :: p in mid.pvs ==> mid.pvs[p] == ""
  {
    forall p | p in h.pvs
      ensures mid.pvs[p] == "" <==> h.pvs[p] == "" || h.vgs[h.pvs[p]].tagged
    {
      assert h.pvs[p] == "" || h.pvs[p] in h.vgs;
    }
  }
}
