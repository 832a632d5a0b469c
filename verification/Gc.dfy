/** Garbage collection on a node: the event-driven failover reconciler and the periodic orphan
    scanner. */
module Gc {
  import opened Text
  import opened VolumeIds
  import opened Probe
  import opened Lvm
  import opened Provisioner
  import opened Kube
  import opened Ownership
  import opened Volumes
  import opened Servers

  // ---------------------------------------------------------------- removing a volume

  /** Names that can be part of a device path, as those of all volumes in metadata can. */
  predicate Plain(id: VolumeId) {
    '/' !in id.vg && '/' !in id.lv
  }

  /** Unmount, then remove: how both collectors dispose of a volume. A failed unmount is only
      logged, and then the removal meets a volume that may still be in use. */
  method Dispose(d: Driver, s: string) returns (r: Result<()>)
    requires Valid(d.mgr.host)
    modifies d.mgr
    ensures Valid(d.mgr.host)
    ensures Parse(s).None? ==> r == Err(InvalidInput) && d.mgr.host == old(d.mgr.host)
    ensures Parse(s).Some? ==> AtMostDropped(old(d.mgr.host), Parse(s).value, d.mgr.host)
    ensures Parse(s).Some? && r.Ok? ==> Parse(s).value !in d.mgr.host.lvs
    ensures r == Err(InUse) ==>
              Parse(s).Some? && Parse(s).value in d.mgr.host.lvs && d.mgr.host.lvs[Parse(s).value].inUse
    ensures r != Err(Panic)
    ensures d.mgr.reliable && Parse(s).Some? && Plain(Parse(s).value) ==> r.Ok?
  {
    ParsersAgree(s);
    var parsed := GcParse(s);
    if parsed.None? { return Err(InvalidInput); }
    var id := VolumeId(parsed.value.0, parsed.value.1);
    PrintParse(s);
    r := Remove(d, id);
  }

  method Remove(d: Driver, id: VolumeId) returns (r: Result<()>)
    requires Valid(d.mgr.host)
    modifies d.mgr
    ensures Valid(d.mgr.host) && AtMostDropped(old(d.mgr.host), id, d.mgr.host)
    ensures r.Ok? ==> id !in d.mgr.host.lvs
    ensures r == Err(InUse) ==> id in d.mgr.host.lvs && d.mgr.host.lvs[id].inUse
    ensures r != Err(Panic)
    ensures d.mgr.reliable && Plain(id) ==> r.Ok?
  {
    ghost var h := d.mgr.host;
    var unmounted := d.mgr.reliable;
    if * { unmounted := true; }
    if unmounted {
      SetUseValid(h, id, false);
      d.mgr.host := SetUse(d.mgr.host, id, false);
    }
    ghost var mid := d.mgr.host;
    var removed := d.mgr.RemoveLogicalVolume(id);
    if removed.Ok? {
      LvRemovedValid(mid, id, d.mgr.host);
      RemovedIsDropped(mid, id, d.mgr.host);
      DroppedTwice(h, id, mid, d.mgr.host);
    }
    if removed.Err? && removed.error == NotFound { return Ok(()); }
    return removed;
  }

  // ---------------------------------------------------------------- failover reconciler

  /** The update filter of the failover reconciler. A PV's source never changes. */
  predicate EventFilter(before: PersistentVolume, after: PersistentVolume, node: string)
    requires before.csi == after.csi
  {
    if Ours(after) then
      if SelectedNode !in after.annotations then false
      else
        var was := if SelectedNode in before.annotations then before.annotations[SelectedNode]
                   else if Attribute(before, InitialNode).Some? then Attribute(before, InitialNode).value
                   else "";
        var now := after.annotations[SelectedNode];
        was != now && was == node
    else false
  }

  datatype Decision = Crash | Skip | Clean

  /** What a reconcile decides. A PV without a CSI source makes the log line that reports the
      foreign driver dereference nil. */
  function Reconciles(pv: PersistentVolume, node: string): Decision {
    if pv.csi.None? then Crash
    else if pv.csi.value.driver != DRIVER_NAME then Skip
    else if pv.phase != Phase.Available && pv.phase != Phase.Bound then Skip
    else if pv.deleting then Skip
    else if Mismatch(pv, node) then Clean
    else Skip
  }

  /** A node cleans up after itself exactly when the PV is the driver's, Available or Bound and not
      being deleted, and the owner on record is another node. */
  lemma ReconcilesMeaning(pv: PersistentVolume, node: string)
    ensures Reconciles(pv, node) == Clean <==>
              && pv.csi.Some? && pv.csi.value.driver == "localdisk.csi.acstor.io"
              && (pv.phase == Phase.Available || pv.phase == Phase.Bound) && !pv.deleting
              && RecordedOwner(pv).Some? && !EqualFold(RecordedOwner(pv).value, node)
    ensures Reconciles(pv, node) == Crash <==> pv.csi.None?
  {
    hide EqualFold;
    MismatchMeaning(pv, node);
  }

  /** An update concerns a node exactly when the PV is the driver's and the update put a name other
      than the node's into the annotation, where the node was the owner on record. */
  lemma EventMeaning(before: PersistentVolume, after: PersistentVolume, node: string)
    requires before.csi == after.csi && node != ""
    ensures EventFilter(before, after, node) <==>
              && after.csi.Some? && after.csi.value.driver == "localdisk.csi.acstor.io"
              && RecordedOwner(before) == Some(node)
              && SelectedNode in after.annotations && after.annotations[SelectedNode] != node
  {
  }

  /** PVFailoverReconciler.Reconcile. */
  method Reconcile(d: Driver, api: Api, node: string, name: string) returns (r: Result<()>)
    requires Valid(d.mgr.host)
    modifies d.mgr
    ensures Valid(d.mgr.host)
    ensures name !in api.pvs || Reconciles(api.pvs[name], node) != Clean ==> d.mgr.host == old(d.mgr.host)
    ensures api.reliable && (name !in api.pvs || Reconciles(api.pvs[name], node) == Skip) ==> r == Ok(())
    ensures r == Err(Panic) ==> name in api.pvs && Reconciles(api.pvs[name], node) == Crash
    ensures api.reliable && name in api.pvs && Reconciles(api.pvs[name], node) == Crash ==> r == Err(Panic)
    ensures name in api.pvs && Reconciles(api.pvs[name], node) == Clean ==>
              var parsed := Parse(api.pvs[name].csi.value.handle);
              && (parsed.None? ==> d.mgr.host == old(d.mgr.host))
              && (parsed.Some? ==> AtMostDropped(old(d.mgr.host), parsed.value, d.mgr.host))
              && (parsed.Some? && r.Ok? ==> parsed.value !in d.mgr.host.lvs)
    ensures d.mgr.reliable && api.reliable && name in api.pvs && Reconciles(api.pvs[name], node) == Clean ==>
              var parsed := Parse(api.pvs[name].csi.value.handle);
              parsed.None? || Plain(parsed.value) ==> r.Ok?
  {
    var got := api.GetPv(name);
    if got.Err? {
      if got.error == NotFound { return Ok(()); }
      return Err(got.error);
    }
    var pv := got.value;
    if pv.csi.None? { return Err(Panic); }
    if pv.csi.value.driver != DRIVER_NAME { return Ok(()); }
    if pv.phase != Phase.Available && pv.phase != Phase.Bound { return Ok(()); }
    if pv.deleting { return Ok(()); }
    if Mismatch(pv, node) {
      var handle := pv.csi.value.handle;
      var path := Parse(handle);
      if path.None? { return Ok(()); }
      r := Dispose(d, handle);
      return;
    }
    return Ok(());
  }

  /** Every update by which a stage takes a volume away from its recorded owner passes that
      owner's filter, and then the reconcile of an Available or Bound PV that is not being
      deleted decides to clean up. */
  lemma NoMissedHandover(pv: PersistentVolume, owner: string, taker: string)
    requires Ours(pv) && RecordedOwner(pv) == Some(owner) && StageUpdate(pv, taker).Some?
    ensures EventFilter(pv, SetOwner(pv, taker), owner)
    ensures (pv.phase == Phase.Available || pv.phase == Phase.Bound) && !pv.deleting ==>
              Reconciles(SetOwner(pv, taker), owner) == Clean
  {
    MismatchMeaning(pv, taker);
    HandoverMeaning(pv, taker, owner);
  }

  /** An accepted event never crashes the reconciler, and it is a mismatch exactly when the new
      owner's name differs in more than letter case. */
  lemma AcceptedEvent(before: PersistentVolume, after: PersistentVolume, node: string)
    requires before.csi == after.csi && EventFilter(before, after, node)
    ensures Reconciles(after, node) != Crash
    ensures Mismatch(after, node) <==> !EqualFold(after.annotations[SelectedNode], node)
    ensures after.annotations[SelectedNode] != node
  {
    MismatchMeaning(after, node);
  }

  // ---------------------------------------------------------------- orphan scanner

  /** At most one of the driver's PVs carries a handle. */
  ghost predicate UniqueHandles(pvs: Pvs) {
    forall a, b :: a in pvs && b in pvs && Ours(pvs[a]) && Carries(pvs[b], pvs[a].csi.value.handle) ==> pvs[a] == pvs[b]
  }

  /** No PV of the driver carries the handle, or the one that does is owned elsewhere. */
  ghost predicate Orphaned(pvs: Pvs, node: string, handle: string) {
    forall n :: n in pvs && Carries(pvs[n], handle) ==> Mismatch(pvs[n], node)
  }

  /** shouldCleanupVolume. */
  method ShouldCleanup(api: Api, node: string, handle: string) returns (r: Result<bool>)
    requires UniqueHandles(api.pvs)
    ensures r == Err(Fault) || (r.Ok? && (r.value <==> Orphaned(api.pvs, node, handle)))
    ensures api.reliable ==> r.Ok?
  {
    var listed := api.ListByHandle(handle);
    if listed.Err? { return Err(listed.error); }
    var orphan := OrphanAmong(listed.value, node);
    ListingDecides(api.pvs, node, handle, listed.value);
    return Ok(orphan);
  }

  lemma ListingDecides(pvs: Pvs, node: string, handle: string, list: seq<PersistentVolume>)
    requires UniqueHandles(pvs)
    requires forall pv :: pv in list <==> exists n :: n in pvs && pvs[n] == pv && Carries(pv, handle)
    ensures list == [] ==> Orphaned(pvs, node, handle)
    ensures list != [] ==> Ours(list[0]) && (Orphaned(pvs, node, handle) <==> Mismatch(list[0], node))
  {
    forall n | n in pvs && Carries(pvs[n], handle)
      ensures list != [] && pvs[n] == list[0]
    {
      assert pvs[n] in list;
      assert list[0] in list;
    }
    if list != [] {
      assert list[0] in list;
    }
  }

  /** The first PV of the driver in the list decides; without one the volume is an orphan. */
  method OrphanAmong(list: seq<PersistentVolume>, node: string) returns (r: bool)
    ensures r <==> forall i :: 0 <= i < |list| && Ours(list[i]) && (forall k :: 0 <= k < i ==> !Ours(list[k])) ==>
                     Mismatch(list[i], node)
  {
    if |list| == 0 { return true; }
    for i := 0 to |list|
      invariant forall k :: 0 <= k < i ==> !Ours(list[k])
    {
      if !Ours(list[i]) { continue; }
      if Mismatch(list[i], node) { return true; }
      return false;
    }
    return true;
  }

  /** The groups a scan covers: the tagged ones, or the default group when none is tagged. */
  ghost predicate Scanned(h: Host, vg: string) {
    if exists v :: v in h.vgs && h.vgs[v].tagged then vg in h.vgs && h.vgs[vg].tagged
    else vg == DEFAULT_VOLUME_GROUP
  }

  ghost function Flagged(h: Host, pvs: Pvs, node: string): set<VolumeId> {
    set id | id in h.lvs && Scanned(h, id.vg) && Orphaned(pvs, node, Print(id))
  }

  /** What a scan leaves: groups and every volume it did not flag are as they were. */
  ghost predicate SweptAtMost(h: Host, pvs: Pvs, node: string, h': Host) {
    && h'.lvs.Keys <= h.lvs.Keys
    && (forall id :: id in h.lvs && id !in Flagged(h, pvs, node) ==> id in h'.lvs && h'.lvs[id] == h.lvs[id])
    && h'.vgs.Keys == h.vgs.Keys && (forall v :: v in h.vgs ==> h'.vgs[v].tagged == h.vgs[v].tagged)
  }

  /** Handle `s` names the flagged volume `id`. */
  ghost predicate Names(h: Host, pvs: Pvs, node: string, id: VolumeId, s: string) {
    id in h.lvs && Print(id) == s && Orphaned(pvs, node, s)
  }

  /** The collect phase over one group: the handles of its flagged volumes (`ids`, in order).
      Volumes whose check failed are counted in `skipped`. */
  method CollectGroup(d: Driver, api: Api, node: string, vg: string)
    returns (found: seq<string>, skipped: nat, ghost ids: seq<VolumeId>)
    requires UniqueHandles(api.pvs)
    ensures |ids| == |found|
    ensures forall i :: 0 <= i < |ids| ==> Names(d.mgr.host, api.pvs, node, ids[i], found[i]) && ids[i].vg == vg
    ensures skipped == 0 ==>
              forall id :: id in d.mgr.host.lvs && id.vg == vg && Orphaned(api.pvs, node, Print(id)) ==> id in ids
    ensures d.mgr.reliable && api.reliable ==> skipped == 0
  {
    found, skipped, ids := [], 0, [];
    var listed := d.mgr.ListLogicalVolumes(vg);
    if listed.Err? { return [], 1, []; }
    var names := listed.value;
    for i := 0 to |names|
      invariant d.mgr.reliable && api.reliable ==> skipped == 0
      invariant |ids| == |found|
      invariant forall k :: 0 <= k < |ids| ==> Names(d.mgr.host, api.pvs, node, ids[k], found[k]) && ids[k].vg == vg
      invariant skipped == 0 ==>
                  forall k :: 0 <= k < i && Orphaned(api.pvs, node, Print(VolumeId(vg, names[k]))) ==>
                    VolumeId(vg, names[k]) in ids
    {
      assert names[i] in names;
      var id := VolumeId(vg, names[i]);
      var handle := Print(id);
      var orphan := ShouldCleanup(api, node, handle);
      if orphan.Err? {
        skipped := skipped + 1;
      } else if orphan.value {
        found, ids := found + [handle], ids + [id];
      }
    }
    forall id | skipped == 0 && id in d.mgr.host.lvs && id.vg == vg && Orphaned(api.pvs, node, Print(id))
      ensures id in ids
    {
      assert VolumeId(vg, id.lv) == id && id.lv in names;
    }
  }

  /** The collect phase: the handles flagged in the given groups. */
  method Collect(d: Driver, api: Api, node: string, vgs: seq<string>)
    returns (found: seq<string>, skipped: nat, ghost ids: seq<VolumeId>)
    requires UniqueHandles(api.pvs)
    ensures |ids| == |found|
    ensures forall i :: 0 <= i < |ids| ==> Names(d.mgr.host, api.pvs, node, ids[i], found[i]) && ids[i].vg in vgs
    ensures skipped == 0 ==>
              forall id :: id in d.mgr.host.lvs && id.vg in vgs && Orphaned(api.pvs, node, Print(id)) ==> id in ids
    ensures d.mgr.reliable && api.reliable ==> skipped == 0
  {
    found, skipped, ids := [], 0, [];
    for i := 0 to |vgs|
      invariant d.mgr.reliable && api.reliable ==> skipped == 0
      invariant |ids| == |found|
      invariant forall k :: 0 <= k < |ids| ==> Names(d.mgr.host, api.pvs, node, ids[k], found[k]) && ids[k].vg in vgs
      invariant skipped == 0 ==>
                  forall id :: id in d.mgr.host.lvs && id.vg in vgs[..i] && Orphaned(api.pvs, node, Print(id)) ==>
                    id in ids
    {
      ghost var more: seq<VolumeId>;
      var some, bad;
      some, bad, more := CollectGroup(d, api, node, vgs[i]);
      assert vgs[i] in vgs && vgs[..i + 1] == vgs[..i] + [vgs[i]];
      found, skipped, ids := found + some, skipped + bad, ids + more;
    }
    assert vgs[..|vgs|] == vgs;
  }

  /** The delete phase, over the handles collected earlier (`ids` are the volumes they name). */
  method DeleteAll(d: Driver, handles: seq<string>, ghost ids: seq<VolumeId>) returns (cleaned: nat, failed: nat)
    requires Valid(d.mgr.host) && |ids| == |handles|
    requires forall i :: 0 <= i < |ids| ==> Parse(handles[i]) == Some(ids[i])
    modifies d.mgr
    ensures Valid(d.mgr.host) && DroppedAmong(old(d.mgr.host), ids, d.mgr.host)
    ensures cleaned + failed == |handles|
    ensures failed == 0 ==> forall i :: 0 <= i < |ids| ==> ids[i] !in d.mgr.host.lvs
    ensures d.mgr.reliable && (forall i :: 0 <= i < |ids| ==> Plain(ids[i])) ==> failed == 0
  {
    hide Valid;
    cleaned, failed := 0, 0;
    ghost var first := d.mgr.host;
    for i := 0 to |handles|
      invariant Valid(d.mgr.host) && cleaned + failed == i
      invariant DroppedAmong(first, ids, d.mgr.host)
      invariant failed == 0 ==> forall k :: 0 <= k < i ==> ids[k] !in d.mgr.host.lvs
      invariant d.mgr.reliable && (forall k :: 0 <= k < |ids| ==> Plain(ids[k])) ==> failed == 0
    {
      var r := DeleteOne(d, handles[i], first, ids, i);
      if r.Ok? {
        cleaned := cleaned + 1;
      } else {
        failed := failed + 1;
      }
    }
  }

  /** deleteOrphanedVolume. */
  method DeleteOne(d: Driver, s: string, ghost first: Host, ghost ids: seq<VolumeId>, ghost i: nat)
    returns (r: Result<()>)
    requires Valid(d.mgr.host) && DroppedAmong(first, ids, d.mgr.host)
    requires i < |ids| && Parse(s) == Some(ids[i])
    modifies d.mgr
    ensures Valid(d.mgr.host) && DroppedAmong(first, ids, d.mgr.host)
    ensures d.mgr.host.lvs.Keys <= old(d.mgr.host).lvs.Keys
    ensures r.Ok? ==> ids[i] !in d.mgr.host.lvs
    ensures d.mgr.reliable && Plain(ids[i]) ==> r.Ok?
  {
    ghost var h := d.mgr.host;
    r := Dispose(d, s);
    DropOneMore(first, ids, h, ids[i], d.mgr.host);
  }

  lemma VolumeNames(h: Host, id: VolumeId)
    requires Valid(h) && id in h.lvs
    ensures Printable(id) && Plain(id)
  {
    ValidIsPrintable(id);
  }

  /** Only volumes among `ids` are gone or changed, and every group keeps its tag. */
  ghost predicate DroppedAmong(h: Host, ids: seq<VolumeId>, h': Host) {
    && h'.lvs.Keys <= h.lvs.Keys
    && (forall id :: id in h.lvs && id !in ids ==> id in h'.lvs && h'.lvs[id] == h.lvs[id])
    && h'.vgs.Keys == h.vgs.Keys && (forall v :: v in h.vgs ==> h'.vgs[v].tagged == h.vgs[v].tagged)
  }

  lemma DropOneMore(first: Host, ids: seq<VolumeId>, h: Host, id: VolumeId, h': Host)
    requires DroppedAmong(first, ids, h) && id in ids && AtMostDropped(h, id, h')
    ensures DroppedAmong(first, ids, h')
  {
    forall j | j in first.lvs && j !in ids
      ensures j in h'.lvs && h'.lvs[j] == first.lvs[j]
    {
      assert j in h.lvs - {id};
      assert (h'.lvs - {id})[j] == (h.lvs - {id})[j];
    }
  }

  /** LVMOrphanScanner.Reconcile: collect first, then delete. `skipped` counts the groups and
      volumes whose listing or check failed, `failed` the volumes that could not be removed. */
  method Scan(d: Driver, api: Api, node: string) returns (r: Result<()>, cleaned: nat, failed: nat, skipped: nat)
    requires Valid(d.mgr.host) && UniqueHandles(api.pvs)
    modifies d.mgr
    ensures Valid(d.mgr.host)
    ensures SweptAtMost(old(d.mgr.host), api.pvs, node, d.mgr.host)
    ensures r.Err? ==> d.mgr.host == old(d.mgr.host)
    ensures r.Ok? && failed == 0 && skipped == 0 ==>
              forall id :: id in Flagged(old(d.mgr.host), api.pvs, node) ==> id !in d.mgr.host.lvs
    ensures r.Ok? && cleaned + failed > 0 ==> Flagged(old(d.mgr.host), api.pvs, node) != {}
    ensures d.mgr.reliable && api.reliable ==> r.Ok? && failed == 0 && skipped == 0
  {
    hide Valid, Orphaned, Plain;
    cleaned, failed, skipped := 0, 0, 0;
    ghost var h := d.mgr.host;
    var groups := d.mgr.ListVolumeGroups(true);
    if groups.Err? { return Err(groups.error), 0, 0, 0; }
    var vgs := groups.value;
    if |vgs| == 0 { vgs := [DEFAULT_VOLUME_GROUP]; }
    ScannedGroups(h, groups.value, vgs);
    ghost var ids: seq<VolumeId>;
    var found;
    found, skipped, ids := Collect(d, api, node, vgs);
    ParsedNames(h, api.pvs, node, found, ids);
    if |found| > 0 {
      cleaned, failed := DeleteAll(d, found, ids);
    }
    SweepMeaning(h, api.pvs, node, ids, d.mgr.host);
    return Ok(()), cleaned, failed, skipped;
  }

  lemma ScannedGroups(h: Host, tagged: seq<string>, vgs: seq<string>)
    requires forall v :: v in tagged <==> v in h.vgs && h.vgs[v].tagged
    requires vgs == if |tagged| == 0 then [DEFAULT_VOLUME_GROUP] else tagged
    ensures forall v :: v in vgs <==> Scanned(h, v)
  {
    if tagged != [] {
      assert tagged[0] in tagged;
    }
    assert forall v :: v in h.vgs && h.vgs[v].tagged ==> v in tagged;
  }

  lemma ParsedNames(h: Host, pvs: Pvs, node: string, found: seq<string>, ids: seq<VolumeId>)
    requires Valid(h) && |ids| == |found|
    requires forall i :: 0 <= i < |ids| ==> Names(h, pvs, node, ids[i], found[i])
    ensures forall i :: 0 <= i < |ids| ==> Parse(found[i]) == Some(ids[i]) && Plain(ids[i])
  {
    forall i | 0 <= i < |ids|
      ensures Parse(found[i]) == Some(ids[i]) && Plain(ids[i])
    {
      VolumeNames(h, ids[i]);
      ParsePrintId(ids[i]);
    }
  }

  lemma SweepMeaning(h: Host, pvs: Pvs, node: string, ids: seq<VolumeId>, h': Host)
    requires DroppedAmong(h, ids, h')
    requires forall i :: 0 <= i < |ids| ==>
               ids[i] in h.lvs && Scanned(h, ids[i].vg) && Orphaned(pvs, node, Print(ids[i]))
    ensures SweptAtMost(h, pvs, node, h')
    ensures ids != [] ==> Flagged(h, pvs, node) != {}
  {
    assert forall id :: id in ids ==> id in Flagged(h, pvs, node);
    if ids != [] {
      assert ids[0] in Flagged(h, pvs, node);
    }
  }
}
