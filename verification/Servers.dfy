/** The CSI controller and node servers: each call reads and patches PVs in the API server and
    changes the LVM state of its own node. */
module Servers {
  import opened Text
  import opened VolumeIds
  import opened Probe
  import opened Lvm
  import opened Provisioner
  import opened Kube
  import opened Ownership
  import opened Volumes

  type Pvs = map<string, PersistentVolume>

  /** The field index: a PV of this driver with that volume handle. */
  predicate Carries(pv: PersistentVolume, handle: string) {
    Ours(pv) && pv.csi.value.handle == handle
  }

  /** The API server, as one client sees it. Any request can fail with a fault. */
  class Api {
    var pvs: Pvs
    var nodes: map<string, NodeObject>
    const reliable: bool     // no request fails for a reason outside this model

    constructor (p: Pvs, n: map<string, NodeObject>, r: bool)
      ensures pvs == p && nodes == n && reliable == r
    {
      pvs, nodes, reliable := p, n, r;
    }

    method GetPv(name: string) returns (r: Result<PersistentVolume>)
      ensures r == Err(Fault) || r == if name in pvs then Ok(pvs[name]) else Err(NotFound)
      ensures reliable ==> r != Err(Fault)
    {
      if !reliable { if * { return Err(Fault); } }
      if name in pvs { return Ok(pvs[name]); }
      return Err(NotFound);
    }

    method GetNode(name: string) returns (r: Result<NodeObject>)
      ensures r == Err(Fault) || r == if name in nodes then Ok(nodes[name]) else Err(NotFound)
      ensures reliable ==> r != Err(Fault)
    {
      if !reliable { if * { return Err(Fault); } }
      if name in nodes { return Ok(nodes[name]); }
      return Err(NotFound);
    }

    /** The driver's PVs that carry a volume handle, through the field index. */
    method ListByHandle(handle: string) returns (r: Result<seq<PersistentVolume>>)
      ensures r == Err(Fault) ||
              (r.Ok? && forall pv :: pv in r.value <==> exists n :: n in pvs && pvs[n] == pv && Carries(pv, handle))
      ensures reliable ==> r != Err(Fault)
    {
      if !reliable { if * { return Err(Fault); } }
      var list: seq<PersistentVolume> := [];
      var rest := pvs.Keys;
      while rest != {}
        invariant rest <= pvs.Keys
        invariant forall pv :: pv in list <==> exists n :: n in pvs && n !in rest && pvs[n] == pv && Carries(pv, handle)
        decreases rest
      {
        var n :| n in rest;
        if Carries(pvs[n], handle) { list := list + [pvs[n]]; }
        rest := rest - {n};
      }
      return Ok(list);
    }

    /** A merge patch that sets one annotation; the answer is the stored object. */
    method Annotate(name: string, k: Key, value: string) returns (r: Result<PersistentVolume>)
      modifies this`pvs
      ensures r.Ok? ==> name in old(pvs) &&
                        r.value == old(pvs)[name].(annotations := old(pvs)[name].annotations[k := value]) &&
                        pvs == old(pvs)[name := r.value]
      ensures r.Err? ==> pvs == old(pvs)
      ensures reliable ==> (r.Ok? <==> name in old(pvs))
    {
      if !reliable { if * { return Err(Fault); } }
      if name !in pvs { return Err(NotFound); }
      var pv := pvs[name].(annotations := pvs[name].annotations[k := value]);
      pvs := pvs[name := pv];
      return Ok(pv);
    }
  }

  // ---------------------------------------------------------------- CreateVolume

  datatype Provisioned = Provisioned(volume: Volume, topology: Option<string>)

  /** CreateVolume: affinity is removed only in webhook mode and when the claim is known. Then the
      volume is reachable from every node and its context names the creating node; otherwise it is
      pinned to that node. */
  method CreateVolume(d: Driver, node: string, webhook: bool, pvcName: string, pvcNamespace: string,
                      vgParam: string, name: string, required: int, limit: int, params: Strings)
    returns (r: Result<Provisioned>)
    requires Valid(d.mgr.host)
    modifies d.mgr
    ensures Valid(d.mgr.host)
    ensures required < 0 || limit < 0 || (limit > 0 && required > limit) ==>
              r == Err(InvalidArgument) && d.mgr.host == old(d.mgr.host)
    ensures r.Ok? ==>
              var v := r.value.volume;
              && Ensured(old(d.mgr.host), d.filter, v.handle, CreateCapacity(required, limit), limit, Ok(v.capacity),
                         d.mgr.host)
              && Parse(v.handle) == Some(VolumeId(GroupName(vgParam), name)) && 0 < v.capacity && 0 <= limit
              && var sized := params[CapacityKey := PrintNat(v.capacity)][LimitKey := PrintNat(limit)];
              if webhook && pvcName != "" && pvcNamespace != ""
              then r.value.topology == None && v.context == sized[InitialNode := node]
              else r.value.topology == Some(node) && v.context == sized
    ensures 0 <= required && 0 <= limit && (limit == 0 || required <= limit) ==>
              var handle := (if vgParam == "" then "containerstorage" else vgParam) + "#" + name;
              var capacity := if required > 0 then required else if limit > 0 then limit else 1073741824;
              var size := if r.Ok? then Ok(r.value.volume.capacity) else Err(r.error);
              if name == "" then r == Err(InvalidInput) && d.mgr.host == old(d.mgr.host)
              else Ensured(old(d.mgr.host), d.filter, handle, capacity, limit, size, d.mgr.host)
    ensures d.mgr.reliable ==> r != Err(Fault) && r != Err(StaleDeviceNode)
  {
    hide Valid, Ensured, Parse, PrintNat;
    if required < 0 || limit < 0 { return Err(InvalidArgument); }
    if limit > 0 && required > limit { return Err(InvalidArgument); }
    var made := Volumes.Create(d, vgParam, name, required, limit, params);
    if made.Err? { return Err(made.error); }
    var volume := made.value;
    if webhook {
      if pvcName == "" || pvcNamespace == "" { return Ok(Provisioned(volume, Some(node))); }
      volume := volume.(context := volume.context[InitialNode := node]);
      return Ok(Provisioned(volume, None));
    }
    return Ok(Provisioned(volume, Some(node)));
  }

  /** The required node affinity the external provisioner makes of a volume's topology. */
  function AffinityOf(topology: Option<string>): Option<seq<SelectorTerm>> {
    match topology
    case None => None
    case Some(node) =>
      Some([SelectorTerm([Requirement("topology.localdisk.csi.acstor.io/node", In, [node])], [])])
  }

  /** A PV made of a created volume is bound to a node exactly if the volume was pinned: then every
      node may act on a request to delete it, otherwise only its owner. */
  lemma PinnedTopology(pv: PersistentVolume, topology: Option<string>, node: string)
    requires pv.affinity == AffinityOf(topology)
    ensures HasHostnameTopology(pv) <==> topology.Some?
    ensures MayDelete(pv, node) <==>
              topology.Some? || node == "" || DeleteOwner(pv) == "" || EqualFold(DeleteOwner(pv), node)
  {
    if topology.Some? {
      assert NamesHost(pv.affinity.value[0].expressions[0]);
    }
  }

  // ---------------------------------------------------------------- DeleteVolume

  /** Whether this node may act on a delete request for the PV. */
  predicate MayDelete(pv: PersistentVolume, node: string) {
    HasHostnameTopology(pv) || node == "" || DeleteOwner(pv) == "" || EqualFold(DeleteOwner(pv), node)
  }

  /** What one node's DeleteVolume can do to its LVM state. */
  ghost predicate Deleted(pvs: Pvs, node: string, s: string, h: Host, h': Host) {
    h' == h ||
    (Parse(s).Some? &&
     var id := Parse(s).value;
     id.lv in pvs && MayDelete(pvs[id.lv], node) && AtMostDropped(h, id, h'))
  }

  /** DeleteVolume. `busy` is the retry schedule of the final removal. */
  method DeleteVolume(d: Driver, api: Api, node: string, s: string, busy: seq<bool>) returns (r: Result<()>)
    requires Valid(d.mgr.host)
    modifies d.mgr
    ensures Valid(d.mgr.host)
    ensures Deleted(api.pvs, node, s, old(d.mgr.host), d.mgr.host)
    ensures s == "" ==> r == Err(InvalidArgument)
    ensures s != "" && Parse(s).None? ==> r == Ok(())
    ensures Parse(s).Some? ==>
              var id := Parse(s).value;
              && (id.lv !in api.pvs ==> r == Ok(()) || r == Err(Fault))
              && (id.lv in api.pvs && !MayDelete(api.pvs[id.lv], node) ==>
                    r == Err(Fault) || r == Err(FailedPrecondition) ||
                    (r == Ok(()) && DeleteOwner(api.pvs[id.lv]) !in api.nodes))
              && (id.lv in api.pvs && MayDelete(api.pvs[id.lv], node) && r.Ok? ==>
                    id !in d.mgr.host.lvs ||
                    (DeleteOwner(api.pvs[id.lv]) !in api.nodes && d.mgr.host == old(d.mgr.host)))
    ensures d.mgr.reliable && api.reliable && Parse(s).Some? && Parse(s).value.lv !in api.pvs ==> r == Ok(())
    ensures d.mgr.reliable && api.reliable && Parse(s).Some? && Parse(s).value.lv in api.pvs ==>
              var id, host := Parse(s).value, old(d.mgr.host);
              var pv, owner := api.pvs[id.lv], DeleteOwner(api.pvs[id.lv]);
              if !HasHostnameTopology(pv) && node != "" && owner != "" && owner !in api.nodes then
                r == Ok(()) && d.mgr.host == host
              else if !HasHostnameTopology(pv) && node != "" && owner != "" && !EqualFold(owner, node) then
                r == Err(FailedPrecondition) && d.mgr.host == host
              else if busy != [] && ('/' in id.vg || '/' in id.lv) then r == Err(InvalidInput)
              else if busy != [] && (id !in host.lvs || exists i :: 0 <= i < |busy| && !busy[i]) then
                r == Ok(()) && id !in d.mgr.host.lvs
              else r == Err(InUse) && (id in host.lvs ==> id in d.mgr.host.lvs)
  {
    assert Parse("").None?;
    hide Valid, Parse, AtMostDropped, HasHostnameTopology, EqualFold, DeleteOwner;
    if s == "" { return Err(InvalidArgument); }
    var parsed := Parse(s);
    if parsed.None? { return Ok(()); }
    var got := api.GetPv(parsed.value.lv);
    if got.Err? {
      if got.error != NotFound { return Err(got.error); }
      return Ok(());
    }
    var pv := got.value;
    if !HasHostnameTopology(pv) {
      var selected := DeleteOwner(pv);
      if node != "" && selected != "" {
        var owner := api.GetNode(selected);
        if owner == Err(NotFound) { return Ok(()); }
        if !EqualFold(selected, node) { return Err(FailedPrecondition); }
      }
    }
    if !d.mgr.reliable { if * { return Err(Fault); } }  // the device could not be unmounted
    r := Volumes.Delete(d, s, busy);
  }

  // ---------------------------------------------------------------- NodeStageVolume

  /** The part of a stage that makes the volume exist, as the PV in hand asks for it. */
  ghost predicate StageEnsured(pv: PersistentVolume, h: Host, f: Filter, s: string, r: Result<()>, h': Host)
    requires Valid(h)
  {
    if pv.csi.None? || pv.csi.value.attributes.None? then h' == h
    else match StageRequest(pv)
      case None => r.Err? && h' == h
      case Some(q) => exists e :: Ensured(h, f, s, q.capacity, q.limit, e, h') && (e.Err? ==> r.Err?)
  }

  /** What one undisturbed NodeStageVolume does. */
  ghost predicate Staged(pvs: Pvs, h: Host, f: Filter, node: string, webhook: bool, s: string,
                         r: Result<()>, read: bool, pvs': Pvs, h': Host)
    requires Valid(h)
  {
    match Parse(s)
    case None => r.Err? && !read && pvs' == pvs && h' == h
    case Some(id) =>
      if !read then pvs' == pvs && h' == h
      else
        && id.lv in pvs
        && var update := if webhook then StageUpdate(pvs[id.lv], node) else None;
           || (update.Some? && r.Err? && pvs' == pvs && h' == h)
           || (pvs' == (if update.Some? then pvs[id.lv := SetOwner(pvs[id.lv], node)] else pvs) &&
               StageEnsured(pvs'[id.lv], h, f, s, r, h'))
  }

  /** What it does when nothing outside fails: a PV that exists is read, an owner that has to
      move is moved, and the stage succeeds exactly if the volume could be made. */
  ghost predicate StagedSurely(pvs: Pvs, h: Host, f: Filter, node: string, webhook: bool, s: string,
                               r: Result<()>, read: bool, pvs': Pvs, h': Host)
    requires Valid(h) && Parse(s).Some?
  {
    var name := Parse(s).value.lv;
    && (read <==> name in pvs)
    && (read && webhook && StageUpdate(pvs[name], node).Some? ==> pvs' == pvs[name := SetOwner(pvs[name], node)])
    && (read && StageRequest(pvs[name]).Some? ==>
          var q := StageRequest(pvs[name]).value;
          exists e :: Ensured(h, f, s, q.capacity, q.limit, e, h') && e != Err(Fault) && (r.Ok? <==> e.Ok?))
  }

  /** NodeStageVolume. `read` reports whether the PV could be read: if not, the call goes on
      without touching the owner record or the volume. */
  method NodeStageVolume(d: Driver, api: Api, node: string, webhook: bool, block: bool, s: string)
    returns (r: Result<()>, read: bool)
    requires Valid(d.mgr.host)
    modifies d.mgr, api`pvs
    ensures Valid(d.mgr.host)
    ensures Staged(old(api.pvs), old(d.mgr.host), d.filter, node, webhook, s, r, read, api.pvs, d.mgr.host)
    ensures Parse(s).Some? && block && !read ==> r == Ok(())
    ensures d.mgr.reliable && api.reliable && Parse(s).Some? ==>
              StagedSurely(old(api.pvs), old(d.mgr.host), d.filter, node, webhook, s, r, read, api.pvs, d.mgr.host)
  {
    hide Valid, Parse, Ensured, StageUpdate, ParseDigits;
    read := false;
    var made := false;
    var parsed := Parse(s);
    if parsed.None? { return Err(Fault), false; }
    var name := parsed.value.lv;
    var got := api.GetPv(name);
    if got.Ok? {
      read := true;
      var pv := got.value;
      if webhook {
        var update := StageUpdate(pv, node);
        MismatchMeaning(pv, node);
        if update.Some? {
          var patched := api.Annotate(name, SelectedNode, update.value);
          if patched.Err? { return Err(patched.error), true; }
          pv := patched.value;
        }
      }
      if pv.csi.Some? && pv.csi.value.attributes.Some? {
        var q := CapacityAndLimit(pv.csi.value.attributes.value, pv.annotations);
        if q.None? { return Err(Fault), true; }
        var ensured := d.EnsureVolume(s, q.value.capacity, q.value.limit);
        if ensured.Err? { return Err(ensured.error), true; }
        made := true;
      }
    }
    if block { return Ok(()), read; }
    if !d.mgr.reliable || !made { if * { return Err(Fault), read; } }  // format and mount failed
    return Ok(()), read;
  }

  /** The record goes first: whenever a stage in webhook mode has touched the node's LVM state,
      no mismatch is left on record for that node. */
  lemma RecordFirst(pvs: Pvs, h: Host, f: Filter, node: string, s: string, r: Result<()>, read: bool,
                    pvs': Pvs, h': Host)
    requires Valid(h) && Staged(pvs, h, f, node, true, s, r, read, pvs', h') && h' != h
    ensures Parse(s).Some? && Parse(s).value.lv in pvs' && !Mismatch(pvs'[Parse(s).value.lv], node)
  {
    var pv := pvs[Parse(s).value.lv];
    MismatchMeaning(pv, node);
    HandoverMeaning(pv, node, node);
  }

  // ---------------------------------------------------------------- NodeExpandVolume

  /** What one undisturbed NodeExpandVolume does. */
  ghost predicate Grown(pvs: Pvs, h: Host, s: string, required: int, r: Result<int>, read: bool, pvs': Pvs, h': Host)
    requires Valid(h)
  {
    && (exists e :: Expanded(h, s, required, e, h') && (r.Ok? ==> e == r) && (e.Err? ==> r == e && pvs' == pvs) &&
                    (e.Ok? && r.Err? ==> read && r == Err(Fault)))
    && (r.Err? || !read ==> pvs' == pvs)
    && (r.Ok? && read ==> (
          && Parse(s).Some? && Parse(s).value.lv in pvs && r.value >= 0
          && pvs' == pvs[Parse(s).value.lv := SetExpanded(pvs[Parse(s).value.lv], r.value)]))
  }

  method NodeExpand(d: Driver, api: Api, s: string, required: int) returns (r: Result<int>, read: bool)
    requires Valid(d.mgr.host)
    modifies d.mgr, api`pvs
    ensures Valid(d.mgr.host)
    ensures Parse(s).None? ==> r.Err? && api.pvs == old(api.pvs) && d.mgr.host == old(d.mgr.host)
    ensures Parse(s).Some? ==> Grown(old(api.pvs), old(d.mgr.host), s, required, r, read, api.pvs, d.mgr.host)
    ensures d.mgr.reliable && api.reliable && Parse(s).Some? ==>
              var name := Parse(s).value.lv;
              && Expanded(old(d.mgr.host), s, required, r, d.mgr.host) && r != Err(Fault)
              && (read <==> name in old(api.pvs))
              && (r.Ok? && name in old(api.pvs) && StageRequest(old(api.pvs)[name]).Some? ==>
                    var again := StageRequest(api.pvs[name]);
                    && again.Some? && again.value.limit == StageRequest(old(api.pvs)[name]).value.limit
                    && again.value.capacity >= r.value
                    && RecordedOwner(api.pvs[name]) == RecordedOwner(old(api.pvs)[name]))
  {
    hide Valid, Parse, Expanded, StageRequest, RecordedOwner, PrintNat;
    var parsed := Parse(s);
    if parsed.None? { return Err(InvalidArgument), false; }
    var name := parsed.value.lv;
    var got := api.GetPv(name);
    read := got.Ok?;
    ghost var h := d.mgr.host;
    var size := Volumes.NodeExpandVolume(d, s, required);
    assert Expanded(h, s, required, size, d.mgr.host);
    ExpandedMeaning(h, s, required, size, d.mgr.host);
    if size.Err? { return size, read; }
    if read {
      var patched := api.Annotate(name, ExpandedKey, PrintNat(size.value));
      if patched.Err? { return Err(Fault), read; }
      RecordedSize(got.value, size.value);
    }
    return size, read;
  }

  /** What a stage asks for once an expansion is on record. */
  lemma RecordedSize(pv: PersistentVolume, size: nat)
    ensures RecordedOwner(SetExpanded(pv, size)) == RecordedOwner(pv)
    ensures StageRequest(pv).Some? ==>
              var q := StageRequest(SetExpanded(pv, size));
              q.Some? && q.value.limit == StageRequest(pv).value.limit && q.value.capacity >= size
  {
    hide ParseDigits, PrintNat;
    if StageRequest(pv).Some? {
      AnyExpandedRequest(pv, size);
    }
  }
}
