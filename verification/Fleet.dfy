/** All nodes together: convergence of the orphan scans, and the broadcast delete. */
module Fleet {
  import opened Text
  import opened VolumeIds
  import opened Lvm
  import opened Kube
  import opened Ownership
  import opened Volumes
  import opened Servers
  import opened Gc

  // ---------------------------------------------------------------- convergence

  /** A scan in which nothing failed. */
  ghost predicate Swept(h: Host, pvs: Pvs, node: string, h': Host) {
    SweptAtMost(h, pvs, node, h') && forall id :: id in Flagged(h, pvs, node) ==> id !in h'.lvs
  }

  /** A PV of the driver carries the volume's handle, and the owner on record, if any, is this
      node. */
  ghost predicate Backed(pvs: Pvs, node: string, id: VolumeId) {
    exists n :: n in pvs && Carries(pvs[n], Print(id)) &&
      (RecordedOwner(pvs[n]).None? || EqualFold(RecordedOwner(pvs[n]).value, node))
  }

  /** Every volume in a scanned group is backed. */
  ghost predicate Settled(h: Host, pvs: Pvs, node: string) {
    forall id :: id in h.lvs && Scanned(h, id.vg) ==> Backed(pvs, node, id)
  }

  lemma NotOrphanedIsBacked(pvs: Pvs, node: string, id: VolumeId)
    ensures Orphaned(pvs, node, Print(id)) <== !Backed(pvs, node, id)
    ensures UniqueHandles(pvs) ==> (Orphaned(pvs, node, Print(id)) <==> !Backed(pvs, node, id))
  {
    forall n | n in pvs && Carries(pvs[n], Print(id))
      ensures Mismatch(pvs[n], node) <==>
              !(RecordedOwner(pvs[n]).None? || EqualFold(RecordedOwner(pvs[n]).value, node))
    {
      MismatchMeaning(pvs[n], node);
    }
  }

  lemma SweptKeepsScanned(h: Host, pvs: Pvs, node: string, h': Host, vg: string)
    requires SweptAtMost(h, pvs, node, h')
    ensures Scanned(h', vg) <==> Scanned(h, vg)
  {
    assert forall v :: v in h.vgs ==> h'.vgs[v].tagged == h.vgs[v].tagged;
    assert forall v :: v in h'.vgs ==> v in h.vgs;
  }

  /** One fault-free scan settles a node. */
  lemma SweptSettles(h: Host, pvs: Pvs, node: string, h': Host)
    requires Swept(h, pvs, node, h')
    ensures Settled(h', pvs, node)
  {
    forall id | id in h'.lvs && Scanned(h', id.vg)
      ensures Backed(pvs, node, id)
    {
      SweptKeepsScanned(h, pvs, node, h', id.vg);
      assert id in h.lvs && id !in Flagged(h, pvs, node);
      NotOrphanedIsBacked(pvs, node, id);
    }
  }

  /** A scan of a settled node flags nothing and leaves every volume as it is. */
  lemma SettledIsFixed(h: Host, pvs: Pvs, node: string, h': Host)
    requires Settled(h, pvs, node) && UniqueHandles(pvs) && SweptAtMost(h, pvs, node, h')
    ensures Flagged(h, pvs, node) == {} && h'.lvs == h.lvs && Settled(h', pvs, node)
  {
    forall id | id in h.lvs && Scanned(h, id.vg)
      ensures !Orphaned(pvs, node, Print(id))
    {
      assert Backed(pvs, node, id);
      NotOrphanedIsBacked(pvs, node, id);
    }
    forall id | id in h'.lvs && Scanned(h', id.vg)
      ensures Backed(pvs, node, id)
    {
      SweptKeepsScanned(h, pvs, node, h', id.vg);
    }
  }

  /** An operation on one node, and the LVM state it left there. */
  datatype Visit = Visit(node: string, after: Host)

  /** A node's state after the first `i` visits. */
  function HostAt(hosts: Hosts, visits: seq<Visit>, i: nat, node: string): Host
    requires i <= |visits| && node in hosts
  {
    if i == 0 then hosts[node]
    else if visits[i - 1].node == node then visits[i - 1].after
    else HostAt(hosts, visits, i - 1, node)
  }

  /** Scans in some order, on some nodes, with the PVs left alone. */
  ghost predicate ScanRun(hosts: Hosts, pvs: Pvs, visits: seq<Visit>) {
    forall i :: 0 <= i < |visits| ==> ScanAt(hosts, pvs, visits, i)
  }

  ghost predicate ScanAt(hosts: Hosts, pvs: Pvs, visits: seq<Visit>, i: nat)
    requires i < |visits|
  {
    var node := visits[i].node;
    node in hosts && Swept(HostAt(hosts, visits, i, node), pvs, node, visits[i].after)
  }

  /** Whatever the order of the scans, a node that was scanned at least once is settled from
      then on. */
  lemma {:induction false} ScannedStaysSettled(hosts: Hosts, pvs: Pvs, visits: seq<Visit>, i: nat, j: nat)
    requires UniqueHandles(pvs) && ScanRun(hosts, pvs, visits) && i < j <= |visits|
    ensures visits[i].node in hosts && Settled(HostAt(hosts, visits, j, visits[i].node), pvs, visits[i].node)
    decreases j
  {
    assert ScanAt(hosts, pvs, visits, j - 1);
    var node := visits[i].node;
    if j - 1 == i {
      SweptSettles(HostAt(hosts, visits, i, node), pvs, node, visits[i].after);
    } else {
      ScannedStaysSettled(hosts, pvs, visits, i, j - 1);
      if visits[j - 1].node == node {
        SettledIsFixed(HostAt(hosts, visits, j - 1, node), pvs, node, visits[j - 1].after);
      }
    }
  }

  /** Convergence: once every node has been scanned, each volume of a scanned group is kept
      only where it is backed, and any further scan changes no volume anywhere. */
  lemma Converges(hosts: Hosts, pvs: Pvs, visits: seq<Visit>, node: string, again: Host)
    requires UniqueHandles(pvs) && ScanRun(hosts, pvs, visits)
    requires node in hosts && exists i :: 0 <= i < |visits| && visits[i].node == node
    ensures Settled(HostAt(hosts, visits, |visits|, node), pvs, node)
    ensures Swept(HostAt(hosts, visits, |visits|, node), pvs, node, again) ==>
              again.lvs == HostAt(hosts, visits, |visits|, node).lvs
  {
    var i :| 0 <= i < |visits| && visits[i].node == node;
    ScannedStaysSettled(hosts, pvs, visits, i, |visits|);
    if Swept(HostAt(hosts, visits, |visits|, node), pvs, node, again) {
      SettledIsFixed(HostAt(hosts, visits, |visits|, node), pvs, node, again);
    }
  }

  /** Two settled nodes with different names both keep a volume only if nobody is on record as
      its owner. */
  lemma OneKeeper(pvs: Pvs, n: string, h: Host, m: string, k: Host, id: VolumeId)
    requires UniqueHandles(pvs) && Settled(h, pvs, n) && Settled(k, pvs, m) && !EqualFold(n, m)
    requires id in h.lvs && Scanned(h, id.vg) && id in k.lvs && Scanned(k, id.vg)
    ensures exists p :: p in pvs && Carries(pvs[p], Print(id)) && RecordedOwner(pvs[p]).None?
  {
    assert Backed(pvs, n, id) && Backed(pvs, m, id);
  }

  // ---------------------------------------------------------------- broadcast delete

  /** DeleteVolume calls for one handle; `gone[i]` when the PV had been removed by then. */
  ghost predicate DeleteRun(hosts: Hosts, pvs: Pvs, s: string, calls: seq<Visit>, gone: seq<bool>)
    requires Parse(s).Some?
  {
    |gone| == |calls| && forall i :: 0 <= i < |calls| ==> DeleteAt(hosts, pvs, s, calls, gone[i], i)
  }

  ghost predicate DeleteAt(hosts: Hosts, pvs: Pvs, s: string, calls: seq<Visit>, gone: bool, i: nat)
    requires Parse(s).Some? && i < |calls|
  {
    var node := calls[i].node;
    && node in hosts && node != ""
    && Deleted(if gone then pvs - {Parse(s).value.lv} else pvs, node, s, HostAt(hosts, calls, i, node), calls[i].after)
  }

  /** The same DeleteVolume on every node, in any order and with any number of retries, for a
      PV without hostname topology whose owner is on record: only a node of the owner's name
      changes, and there at most that volume goes. */
  lemma {:induction false} BroadcastDelete(hosts: Hosts, pvs: Pvs, s: string, calls: seq<Visit>, gone: seq<bool>,
                                           i: nat, node: string)
    requires Parse(s).Some? && Parse(s).value.lv in pvs && node in hosts && i <= |calls|
    requires !HasHostnameTopology(pvs[Parse(s).value.lv]) && DeleteOwner(pvs[Parse(s).value.lv]) != ""
    requires DeleteRun(hosts, pvs, s, calls, gone)
    ensures AtMostDropped(hosts[node], Parse(s).value, HostAt(hosts, calls, i, node))
    ensures !EqualFold(DeleteOwner(pvs[Parse(s).value.lv]), node) ==> HostAt(hosts, calls, i, node) == hosts[node]
  {
    if i > 0 {
      BroadcastDelete(hosts, pvs, s, calls, gone, i - 1, node);
      assert DeleteAt(hosts, pvs, s, calls, gone[i - 1], i - 1);
      if calls[i - 1].node == node && calls[i - 1].after != HostAt(hosts, calls, i - 1, node) {
        DroppedTwice(hosts[node], Parse(s).value, HostAt(hosts, calls, i - 1, node), calls[i - 1].after);
      }
    }
  }
}
