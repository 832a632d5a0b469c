/** Creating, expanding and deleting one volume on a node. */
module Volumes {
  import opened Text
  import opened VolumeIds
  import opened Probe
  import opened Lvm
  import opened Provisioner
  import opened Kube
  import opened Ownership

  const DEFAULT_VOLUME_GROUP := "containerstorage"
  const GIB: int := 1024 * 1024 * 1024

  // ---------------------------------------------------------------- create

  datatype Volume = Volume(capacity: int, handle: string, context: Strings)

  function GroupName(param: string): string {
    if param == "" then DEFAULT_VOLUME_GROUP else param
  }

  /** The capacity a create request stands for. */
  function CreateCapacity(required: int, limit: int): int {
    var c := if required == 0 && limit > 0 then limit else required;
    if c == 0 then GIB else c
  }

  /** LVM.Create. Every id it returns parses back to exactly the group and volume it was made
      from, and the context records the size really allocated and the limit. */
  method Create(d: Driver, vgParam: string, name: string, required: int, limit: int, params: Strings)
    returns (r: Result<Volume>)
    requires Valid(d.mgr.host)
    modifies d.mgr
    ensures Valid(d.mgr.host)
    ensures name == "" ==> r == Err(InvalidInput) && d.mgr.host == old(d.mgr.host)
    ensures name != "" ==>
              var handle := (if vgParam == "" then "containerstorage" else vgParam) + "#" + name;
              var size := if r.Ok? then Ok(r.value.capacity) else Err(r.error);
              && (required != 0 ==> Ensured(old(d.mgr.host), d.filter, handle, required, limit, size, d.mgr.host))
              && (required == 0 && limit > 0 ==>
                    Ensured(old(d.mgr.host), d.filter, handle, limit, limit, size, d.mgr.host))
              && (required == 0 && limit <= 0 ==>
                    Ensured(old(d.mgr.host), d.filter, handle, 1073741824, limit, size, d.mgr.host))
    ensures r.Ok? ==>
              var id := VolumeId(GroupName(vgParam), name);
              && r.value.handle == Print(id) && Parse(r.value.handle) == Some(id)
              && 0 < CreateCapacity(required, limit) <= r.value.capacity && limit >= 0
              && r.value.context == params[CapacityKey := PrintNat(r.value.capacity)][LimitKey := PrintNat(limit)]
    ensures d.mgr.reliable ==> r != Err(Fault) && r != Err(StaleDeviceNode)
  {
    hide Valid, Ensured, Parse;
    var vg := vgParam;
    if vg == "" { vg := DEFAULT_VOLUME_GROUP; }
    var capacity := required;
    if capacity == 0 && limit > 0 { capacity := limit; }
    if capacity == 0 { capacity := GIB; }
    var made := Make(vg, name);
    if made.None? { return Err(InvalidInput); }
    var s := Print(made.value);
    assert s == vg + "#" + name;
    ghost var h := d.mgr.host;
    var size := d.EnsureVolume(s, capacity, limit);
    if size.Err? { return Err(size.error); }
    ParsePrintId(made.value);
    EnsuredMeaning(h, d.filter, s, capacity, limit, size, d.mgr.host);
    var context := params[CapacityKey := PrintNat(size.value)][LimitKey := PrintNat(limit)];
    return Ok(Volume(size.value, s, context));
  }

  /** The size of a volume that a create made: the required bytes, or the limit if none are required,
      or 1 GiB if neither is given, rounded up to whole stripe rows. */
  lemma FreshSize(h: Host, f: Filter, id: VolumeId, required: nat, limit: nat, size: int, h': Host)
    requires Valid(h) && id !in h.lvs && Printable(id)
    requires Ensured(h, f, Print(id), CreateCapacity(required, limit), limit, Ok(size), h')
    ensures var k := Stripes(h, f, id.vg);
            && k > 0
            && (required > 0 ==> size == Allocated(required, k))
            && (required == 0 && limit > 0 ==> size == Allocated(limit, k))
            && (required == 0 && limit == 0 ==> size == Allocated(1073741824, k))
  {
    hide Valid, Ensured, Allocated, Stripes;
    ParsePrintId(id);
    EnsuredSize(h, f, Print(id), CreateCapacity(required, limit), limit, size, h');
  }

  /** A stage is refused outright exactly when the size on record is zero or past the recorded
      limit, whatever is on the node: a volume that rounding up or an expansion took past its
      limit cannot be staged anywhere again. */
  lemma StageRefused(pv: PersistentVolume, h: Host, f: Filter, s: string, r: Result<int>, h': Host)
    requires Valid(h) && Parse(s).Some? && StageRequest(pv).Some?
    requires var q := StageRequest(pv).value;
             Ensured(h, f, s, q.capacity, q.limit, r, h')
    ensures var q := StageRequest(pv).value;
            r == Err(InvalidArgument) <==> q.capacity == 0 || (q.limit > 0 && q.capacity > q.limit)
  {
    hide Valid, Parse, ValidName, StageRequest, Plan, Partial;
    var id, q := Parse(s).value, StageRequest(pv).value;
    if !BadRange(q.capacity, q.limit) && ValidName(id.vg) && ValidName(id.lv) {
      if id !in h.lvs {
        if Created(h, f, id, q.capacity, r, h') { PlanVolumes(h, f, id, q.capacity); }
      } else if id !in h.nodes && !h.lvs[id].inUse {
        if mid :| Replaced(h, f, id, q.capacity, r, mid, h') { PlanVolumes(mid, f, id, q.capacity); }
      }
    }
  }

  /** A stage of a volume that was just created asks for the allocated size, and is refused on
      every node exactly when rounding the requested capacity up to the stripes of the node that
      made it went past the limit: CreateVolume succeeded, yet no stage ever can. */
  lemma StageAfterCreate(pv: PersistentVolume, capacity: int, limit: nat, size: nat, c: Host, c': Host,
                         h: Host, f: Filter, s: string, r: Result<int>, h': Host)
    requires Valid(c) && Parse(s).Some? && Parse(s).value !in c.lvs && Ensured(c, f, s, capacity, limit, Ok(size), c')
    requires pv.csi.Some? && pv.csi.value.attributes.Some? && ExpandedKey !in pv.annotations
    requires var a := pv.csi.value.attributes.value;
             CapacityKey in a && a[CapacityKey] == PrintNat(size) && LimitKey in a && a[LimitKey] == PrintNat(limit)
    requires Valid(h) && Ensured(h, f, s, size, limit, r, h')
    ensures StageRequest(pv) == Some(Request(size, limit)) && Stripes(c, f, Parse(s).value.vg) > 0
    ensures r == Err(InvalidArgument) <==> limit > 0 && Allocated(capacity, Stripes(c, f, Parse(s).value.vg)) > limit
  {
    hide Valid, Parse, Ensured, PrintNat, ParseDigits, Stripes, Allocated;
    CreatedRequest(pv.csi.value.attributes.value, size, limit, pv.annotations);
    EnsuredSize(c, f, s, capacity, limit, size, c');
    EnsuredMeaning(c, f, s, capacity, limit, Ok(size), c');
    StageRefused(pv, h, f, s, r, h');
  }

  /** NodeExpandVolume does not look at the limit: once a size past it is on record, every stage
      is refused. */
  lemma StageAfterExpand(pv: PersistentVolume, size: nat, h: Host, f: Filter, s: string, r: Result<int>, h': Host)
    requires StageRequest(pv).Some? && size >= StageRequest(pv).value.capacity && size > 0
    requires Valid(h) && Parse(s).Some? && Ensured(h, f, s, size, StageRequest(pv).value.limit, r, h')
    ensures StageRequest(SetExpanded(pv, size)) == Some(StageRequest(pv).value.(capacity := size))
    ensures r == Err(InvalidArgument) <==> StageRequest(pv).value.limit > 0 && size > StageRequest(pv).value.limit
  {
    hide Valid, Parse, Ensured, StageRequest;
    ExpandedRequest(pv, size);
    StageRefused(SetExpanded(pv, size), h, f, s, r, h');
  }

  // ---------------------------------------------------------------- expand

  /** The contract of NodeExpandVolume. */
  ghost predicate Expanded(h: Host, s: string, required: int, r: Result<int>, h': Host)
    requires Valid(h)
  {
    match Parse(s)
    case None => r == Err(InvalidArgument) && h' == h
    case Some(id) =>
      if !ValidName(id.vg) || !ValidName(id.lv) then r.Err? && r.error in {InvalidInput, Fault} && h' == h
      else if id !in h.lvs then r.Err? && r.error in {VolumeNotFound, Fault} && h' == h
      else if required == 0 then r.Err? && r.error in {OutOfRange, Fault} && h' == h
      else if required <= h.lvs[id].size then h' == h && (r == Err(Fault) || r == Ok(h.lvs[id].size))
      else
        var k := |h.vgs[id.vg].pvs|;
        if Fits(h.vgs[id.vg], PerPv(required, k) - h.lvs[id].perPv) then
          || (r == Ok(Allocated(required, k)) && h' == LvExtended(h, id, required))
          || (r == Err(Fault) && (h' == h || h' == LvExtended(h, id, required)))
        else r.Err? && r.error in {OutOfRange, Fault} && h' == h
  }

  method NodeExpandVolume(d: Driver, s: string, required: int) returns (r: Result<int>)
    requires Valid(d.mgr.host)
    modifies d.mgr
    ensures Valid(d.mgr.host)
    ensures Expanded(old(d.mgr.host), s, required, r, d.mgr.host)
    ensures d.mgr.reliable ==> r != Err(Fault)
  {
    var parsed := Parse(s);
    if parsed.None? { return Err(InvalidArgument); }
    var id := parsed.value;
    var lv := d.mgr.GetLogicalVolume(id);
    if lv.Err? {
      if lv.error != NotFound { return Err(lv.error); }
      return Err(VolumeNotFound);
    }
    if required == 0 { return Err(OutOfRange); }
    if required <= lv.value.size { return Ok(lv.value.size); }
    ghost var h := d.mgr.host;
    var extended := d.mgr.ExtendLogicalVolume(id, required);
    if extended.Err? {
      if extended.error == ResourceExhausted { return Err(OutOfRange); }
      return Err(extended.error);
    }
    LvExtendedValid(h, id, required);
    var again := d.mgr.GetLogicalVolume(id);
    if again.Err? { return Err(again.error); }
    return Ok(again.value.size);
  }

  /** A reported size is the volume's size, at least what was asked for and at least what it
      was; a volume never shrinks, and no other volume is touched. */
  lemma ExpandedMeaning(h: Host, s: string, required: int, r: Result<int>, h': Host)
    requires Valid(h) && Expanded(h, s, required, r, h')
    ensures Parse(s).None? ==> h' == h && r.Err?
    ensures Parse(s).Some? ==>
              var id := Parse(s).value;
              && h'.lvs.Keys == h.lvs.Keys
              && (forall j :: j in h.lvs && j != id ==> h'.lvs[j] == h.lvs[j])
              && (id in h.lvs ==> h'.lvs[id].size >= h.lvs[id].size)
              && (r.Ok? ==> id in h.lvs && h'.lvs[id].size == r.value >= required)
  {
    if Parse(s).Some? && Parse(s).value in h.lvs {
      var id := Parse(s).value;
      if required > h.lvs[id].size {
        AllocatedCovers(required, |h.vgs[id.vg].pvs|);
      }
    }
  }

  /** When an expansion succeeds, if no command faults: the volume is there, a size is asked for,
      and the volume has it already or every disk of its group has the extents it would add. */
  lemma ExpandSucceeds(h: Host, s: string, required: int, r: Result<int>, h': Host)
    requires Valid(h) && Expanded(h, s, required, r, h') && r != Err(Fault)
    ensures r.Ok? <==>
              && Parse(s).Some? && Parse(s).value in h.lvs && required != 0
              && var lv, g := h.lvs[Parse(s).value], h.vgs[Parse(s).value.vg];
              (required <= lv.size ||
               forall i :: 0 <= i < |g.free| ==> required <= (g.free[i] + lv.perPv) * |g.pvs| * 4194304)
  {
    hide Parse, ValidDisks, ValidLabels, ValidMembers, PerPv, Allocated, LvExtended;
    if Parse(s).Some? && Parse(s).value in h.lvs {
      var id := Parse(s).value;
      var lv, g := h.lvs[id], h.vgs[id.vg];
      assert ValidName(id.vg) && ValidName(id.lv);
      forall i | 0 <= i < |g.free|
        ensures PerPv(required, |g.pvs|) - lv.perPv <= g.free[i] <==>
                required <= (g.free[i] + lv.perPv) * |g.pvs| * 4194304
      {
        CoveredBy(required, |g.pvs|, g.free[i] + lv.perPv);
      }
    }
  }

  lemma CoveredBy(size: int, stripes: int, n: int)
    requires stripes > 0
    ensures PerPv(size, stripes) <= n <==> size <= n * stripes * 4194304
  {
    CeilDivLeast(CeilDiv(size, EXTENT), stripes, n);
    CeilDivLeast(size, EXTENT, n * stripes);
  }

  // ---------------------------------------------------------------- delete

  /** At most volume `id` is gone, its extents given back, or changed in use; disks, labels and
      everything else about the groups stay as they are. */
  ghost predicate AtMostDropped(h: Host, id: VolumeId, h': Host) {
    && h'.lvs - {id} == h.lvs - {id} && h'.lvs.Keys <= h.lvs.Keys
    && (id in h'.lvs ==> h'.lvs[id] == h.lvs[id].(inUse := h'.lvs[id].inUse))
    && h'.devices == h.devices && h'.signatures == h.signatures && h'.pvs == h.pvs
    && h'.vgs.Keys == h.vgs.Keys
    && (forall v :: v in h.vgs ==>
          h'.vgs[v] == if v == id.vg && id in h.lvs && id !in h'.lvs then GiveExtents(h.vgs[v], h.lvs[id].perPv)
                       else h.vgs[v])
  }

  lemma RemovedIsDropped(h: Host, id: VolumeId, h': Host)
    requires LvRemoved(h, id, h')
    ensures AtMostDropped(h, id, h')
  {
  }

  lemma NothingDropped(h: Host, id: VolumeId)
    ensures AtMostDropped(h, id, h)
  {
  }

  lemma DroppedTwice(a: Host, id: VolumeId, b: Host, c: Host)
    requires AtMostDropped(a, id, b) && AtMostDropped(b, id, c)
    ensures AtMostDropped(a, id, c)
  {
    assert c.lvs - {id} == b.lvs - {id} == a.lvs - {id};
  }

  /** Another program starts or stops using the volume. */
  function SetUse(h: Host, id: VolumeId, busy: bool): Host {
    if id in h.lvs then h.(lvs := h.lvs[id := h.lvs[id].(inUse := busy)]) else h
  }

  lemma SetUseValid(h: Host, id: VolumeId, busy: bool)
    requires Valid(h)
    ensures Valid(SetUse(h, id, busy)) && AtMostDropped(h, id, SetUse(h, id, busy))
    ensures var h' := SetUse(h, id, busy);
            h'.lvs.Keys == h.lvs.Keys && (id in h.lvs ==> h'.lvs[id].inUse == busy)
  {
    hide ValidDisks, ValidLabels, ValidMembers, ValidName, ValidVg;
    var h' := SetUse(h, id, busy);
    assert h'.lvs.Keys == h.lvs.Keys;
    assert h'.lvs - {id} == h.lvs - {id};
  }

  /** LVM.Delete: retried on every tick while the volume is in use. `busy[i]` says whether it
      is in use at tick `i`; the ticks running out is the timeout. */
  method Delete(d: Driver, s: string, busy: seq<bool>) returns (r: Result<()>)
    requires Valid(d.mgr.host)
    modifies d.mgr
    ensures Valid(d.mgr.host)
    ensures Parse(s).None? ==> r == Ok(()) && d.mgr.host == old(d.mgr.host)
    ensures Parse(s).Some? ==> AtMostDropped(old(d.mgr.host), Parse(s).value, d.mgr.host)
    ensures Parse(s).Some? && r.Ok? ==> Parse(s).value !in d.mgr.host.lvs
    ensures Parse(s).Some? && r.Err? ==> (Parse(s).value in d.mgr.host.lvs <==> Parse(s).value in old(d.mgr.host).lvs)
    ensures r == Err(InUse) ==> forall i :: 0 <= i < |busy| ==> busy[i]
    ensures r.Err? ==> r.error in {InUse, Fault, InvalidInput}
    ensures d.mgr.reliable && Parse(s).Some? ==>
              var id := Parse(s).value;
              r == if busy == [] then Err(InUse)
                   else if '/' in id.vg || '/' in id.lv then Err(InvalidInput)
                   else if id !in old(d.mgr.host).lvs || (exists i :: 0 <= i < |busy| && !busy[i]) then Ok(())
                   else Err(InUse)
  {
    var parsed := Parse(s);
    if parsed.None? { return Ok(()); }
    var id := parsed.value;
    r := RetryDelete(d, id, busy);
  }

  method RetryDelete(d: Driver, id: VolumeId, busy: seq<bool>) returns (r: Result<()>)
    requires Valid(d.mgr.host)
    modifies d.mgr
    ensures Valid(d.mgr.host) && AtMostDropped(old(d.mgr.host), id, d.mgr.host)
    ensures r.Ok? ==> id !in d.mgr.host.lvs
    ensures r.Err? ==> (id in d.mgr.host.lvs <==> id in old(d.mgr.host).lvs) && r.error in {InUse, Fault, InvalidInput}
    ensures r == Err(InUse) ==> forall i :: 0 <= i < |busy| ==> busy[i]
    ensures d.mgr.reliable ==>
              r == if busy == [] then Err(InUse)
                   else if '/' in id.vg || '/' in id.lv then Err(InvalidInput)
                   else if id !in old(d.mgr.host).lvs || (exists i :: 0 <= i < |busy| && !busy[i]) then Ok(())
                   else Err(InUse)
  {
    hide Valid, AtMostDropped;
    ghost var first := d.mgr.host;
    NothingDropped(first, id);
    for i := 0 to |busy|
      invariant Valid(d.mgr.host) && AtMostDropped(first, id, d.mgr.host)
      invariant id in d.mgr.host.lvs <==> id in first.lvs
      invariant forall k :: 0 <= k < i ==> busy[k]
      invariant d.mgr.reliable && i > 0 ==> id in first.lvs && '/' !in id.vg && '/' !in id.lv
    {
      ghost var h := d.mgr.host;
      var removed := DeleteTick(d, id, busy[i]);
      DroppedTwice(first, id, h, d.mgr.host);
      if removed.Ok? || removed.error == NotFound { return Ok(()); }
      if removed.error != InUse { return Err(removed.error); }
    }
    return Err(InUse);
  }

  /** One attempt of the retry loop. */
  method DeleteTick(d: Driver, id: VolumeId, busy: bool) returns (r: Result<()>)
    requires Valid(d.mgr.host)
    modifies d.mgr
    ensures Valid(d.mgr.host) && AtMostDropped(old(d.mgr.host), id, d.mgr.host)
    ensures r.Ok? || r.error == NotFound ==> id !in d.mgr.host.lvs
    ensures r.Err? ==> (id in d.mgr.host.lvs <==> id in old(d.mgr.host).lvs) &&
                       r.error in {InUse, Fault, InvalidInput, NotFound}
    ensures r == Err(InUse) ==> busy
    ensures d.mgr.reliable ==>
              var slash, there := '/' in id.vg || '/' in id.lv, id in old(d.mgr.host).lvs;
              && (r == Err(InvalidInput) <==> slash) && (r == Err(NotFound) <==> !slash && !there)
              && (r == Err(InUse) <==> !slash && there && busy) && (r.Ok? <==> !slash && there && !busy)
  {
    hide Valid, AtMostDropped, SetUse;
    ghost var h := d.mgr.host;
    SetUseValid(h, id, busy);
    d.mgr.host := SetUse(d.mgr.host, id, busy);
    ghost var mid := d.mgr.host;
    r := d.mgr.RemoveLogicalVolume(id);
    if r.Ok? {
      LvRemovedValid(mid, id, d.mgr.host);
      RemovedIsDropped(mid, id, d.mgr.host);
      DroppedTwice(h, id, mid, d.mgr.host);
    }
  }
}
