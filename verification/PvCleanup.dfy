/** The manager's PV cleanup controller: a two-phase delete of released PVs whose nodes are
    gone, and the cache transform it reads nodes through. */
module PvCleanup {
  import opened Text
  import opened Lvm
  import opened Kube
  import opened Servers

  const PROTECTION := "kubernetes.io/pv-protection"
  const PROVISIONER := "external-provisioner.volume.kubernetes.io/finalizer"
  const READY := "Ready"

  type Nodes = map<string, NodeObject>

  // ---------------------------------------------------------------- hostnames

  /** The PV lists the hostname: some topology requirement of some term has it. */
  ghost predicate Lists(pv: PersistentVolume, host: string) {
    pv.affinity.Some? &&
    exists i, j :: 0 <= i < |pv.affinity.value| && 0 <= j < |pv.affinity.value[i].expressions| &&
      NamesHost(pv.affinity.value[i].expressions[j]) && host in pv.affinity.value[i].expressions[j].values
  }

  /** The hostnames in the order of terms, requirements and values. */
  function TermHosts(es: seq<Requirement>): seq<string> {
    if es == [] then []
    else TermHosts(es[..|es| - 1]) + (if NamesHost(es[|es| - 1]) then es[|es| - 1].values else [])
  }

  function Hosts(terms: seq<SelectorTerm>): seq<string> {
    if terms == [] then [] else Hosts(terms[..|terms| - 1]) + TermHosts(terms[|terms| - 1].expressions)
  }

  function Hostnames(pv: PersistentVolume): seq<string> {
    if pv.affinity.None? then [] else Hosts(pv.affinity.value)
  }

  /** extractHostnamesFromPV. */
  method ExtractHostnames(pv: PersistentVolume) returns (hosts: seq<string>)
    ensures hosts == Hostnames(pv)
  {
    if pv.affinity.None? { return []; }
    var terms := pv.affinity.value;
    hosts := [];
    for i := 0 to |terms|
      invariant hosts == Hosts(terms[..i])
    {
      var es := terms[i].expressions;
      ghost var before := hosts;
      for j := 0 to |es|
        invariant hosts == before + TermHosts(es[..j])
      {
        assert es[..j + 1][..j] == es[..j];
        if es[j].key == TOPOLOGY_KEY && es[j].op == In {
          hosts := hosts + es[j].values;
        }
      }
      assert es[..|es|] == es && terms[..i + 1][..i] == terms[..i];
    }
    assert terms[..|terms|] == terms;
  }

  lemma {:induction false} TermHostsMeaning(es: seq<Requirement>, h: string)
    ensures h in TermHosts(es) <==> exists j :: 0 <= j < |es| && NamesHost(es[j]) && h in es[j].values
  {
    if es != [] {
      TermHostsMeaning(es[..|es| - 1], h);
    }
  }

  lemma {:induction false} HostsMeaning(terms: seq<SelectorTerm>, h: string)
    ensures h in Hosts(terms) <==> exists i :: 0 <= i < |terms| && h in TermHosts(terms[i].expressions)
  {
    if terms != [] {
      HostsMeaning(terms[..|terms| - 1], h);
    }
  }

  lemma {:induction false} TermHostsSplit(a: seq<Requirement>, r: Requirement, b: seq<Requirement>)
    ensures TermHosts(a + [r] + b) ==
            TermHosts(a) +
            (if r.key == "topology.localdisk.csi.acstor.io/node" && r.op == In then r.values else []) + TermHosts(b)
  {
    var all, n := a + [r] + b, |a| + |b|;
    if b == [] {
      assert all == a + [r] && all[..n] == a;
    } else {
      var front := b[..|b| - 1];
      TermHostsSplit(a, r, front);
      assert all[..n] == a + [r] + front && all[n] == b[|b| - 1];
    }
  }

  /** Each term adds the values of its topology requirements in its place. */
  lemma {:induction false} HostsSplit(a: seq<SelectorTerm>, t: SelectorTerm, b: seq<SelectorTerm>)
    ensures Hosts(a + [t] + b) == Hosts(a) + TermHosts(t.expressions) + Hosts(b)
  {
    hide TermHosts;
    var all, n := a + [t] + b, |a| + |b|;
    if b == [] {
      assert all == a + [t] && all[..n] == a;
    } else {
      var front := b[..|b| - 1];
      HostsSplit(a, t, front);
      assert all[..n] == a + [t] + front && all[n] == b[|b| - 1];
    }
  }

  /** The list holds exactly the hostnames the PV lists. */
  lemma HostnamesMeaning(pv: PersistentVolume)
    ensures forall h :: h in Hostnames(pv) <==> Lists(pv, h)
    ensures Hostnames(pv) != [] <==> exists h :: Lists(pv, h)
  {
    forall h
      ensures h in Hostnames(pv) <==> Lists(pv, h)
    {
      if pv.affinity.Some? {
        HostsMeaning(pv.affinity.value, h);
        forall i | 0 <= i < |pv.affinity.value|
          ensures h in TermHosts(pv.affinity.value[i].expressions) <==>
                  exists j :: 0 <= j < |pv.affinity.value[i].expressions| &&
                    NamesHost(pv.affinity.value[i].expressions[j]) && h in pv.affinity.value[i].expressions[j].values
        {
          TermHostsMeaning(pv.affinity.value[i].expressions, h);
        }
      }
    }
    if Hostnames(pv) != [] {
      assert Hostnames(pv)[0] in Hostnames(pv);
    }
  }

  // ---------------------------------------------------------------- readiness

  /** The condition at `i` is the first Ready condition. */
  predicate FirstReady(cs: seq<Condition>, i: int) {
    0 <= i < |cs| && cs[i].kind == READY && forall k :: 0 <= k < i ==> cs[k].kind != READY
  }

  lemma OneFirst(cs: seq<Condition>, i: int)
    requires FirstReady(cs, i)
    ensures forall j :: FirstReady(cs, j) ==> j == i
  {
  }

  ghost predicate IsReady(node: NodeObject) {
    exists i :: FirstReady(node.conditions, i) && node.conditions[i].status == Status.True
  }

  /** isNodeReady. */
  method NodeReady(node: NodeObject) returns (r: bool)
    ensures r <==> IsReady(node)
    ensures r <==>
              exists i :: 0 <= i < |node.conditions| && node.conditions[i].kind == "Ready" &&
                node.conditions[i].status == Status.True &&
                forall k :: 0 <= k < i ==> node.conditions[k].kind != "Ready"
  {
    for i := 0 to |node.conditions|
      invariant forall k :: 0 <= k < i ==> node.conditions[k].kind != READY
    {
      if node.conditions[i].kind == READY {
        assert FirstReady(node.conditions, i);
        OneFirst(node.conditions, i);
        return node.conditions[i].status == Status.True;
      }
    }
    return false;
  }

  /** A listed node is known, and it is Ready. */
  ghost predicate SomeReady(pv: PersistentVolume, view: Nodes) {
    exists h :: h in view && Lists(pv, h) && IsReady(view[h])
  }

  // ---------------------------------------------------------------- finalizers

  predicate Managed(f: string) {
    f == PROTECTION || f == PROVISIONER
  }

  /** RemoveFinalizer: every occurrence goes. */
  function Remove(fs: seq<string>, f: string): seq<string> {
    if fs == [] then [] else if fs[0] == f then Remove(fs[1..], f) else [fs[0]] + Remove(fs[1..], f)
  }

  /** All but the two managed finalizers, in their order. */
  function Others(fs: seq<string>): seq<string> {
    if fs == [] then [] else if Managed(fs[0]) then Others(fs[1..]) else [fs[0]] + Others(fs[1..])
  }

  lemma {:induction false} RemoveAbsent(fs: seq<string>, f: string)
    requires f !in fs
    ensures Remove(fs, f) == fs
  {
    if fs != [] {
      RemoveAbsent(fs[1..], f);
    }
  }

  /** Removing one after the other leaves exactly the others. */
  lemma {:induction false} RemoveBoth(fs: seq<string>)
    ensures Remove(Remove(fs, PROTECTION), PROVISIONER) == Others(fs)
  {
    if fs != [] {
      RemoveBoth(fs[1..]);
    }
  }

  /** No managed finalizer is left, and every other one is kept as often as it was there. */
  lemma {:induction false} OthersMeaning(fs: seq<string>)
    ensures forall f :: Managed(f) ==> f !in Others(fs)
    ensures forall f :: !Managed(f) ==> multiset(Others(fs))[f] == multiset(fs)[f]
  {
    if fs != [] {
      OthersMeaning(fs[1..]);
      assert fs == [fs[0]] + fs[1..];
    }
  }

  /** The order is kept, and what goes are the finalizers of Kubernetes' own protection and of the
      external provisioner. */
  lemma {:induction false} OthersSplit(a: seq<string>, f: string, b: seq<string>)
    ensures Others(a + [f] + b) ==
            Others(a) +
            (if f == "kubernetes.io/pv-protection" || f == "external-provisioner.volume.kubernetes.io/finalizer"
             then [] else [f]) +
            Others(b)
  {
    if a == [] {
      assert a + [f] + b == [f] + b;
    } else {
      OthersSplit(a[1..], f, b);
      assert (a + [f] + b)[1..] == a[1..] + [f] + b;
    }
  }

  method DropFinalizers(fs: seq<string>) returns (r: seq<string>)
    ensures r == Others(fs)
  {
    var drop: seq<string> := [];
    if PROTECTION in fs { drop := drop + [PROTECTION]; }
    if PROVISIONER in fs { drop := drop + [PROVISIONER]; }
    r := fs;
    for i := 0 to |drop|
      invariant i == 0 ==> r == fs
      invariant i == 1 ==> r == Remove(fs, drop[0])
      invariant i == 2 ==> r == Remove(Remove(fs, drop[0]), drop[1])
    {
      r := Remove(r, drop[i]);
    }
    RemoveBoth(fs);
    if PROTECTION !in fs { RemoveAbsent(fs, PROTECTION); }
    if PROVISIONER !in fs { RemoveKeepsAbsent(fs, PROTECTION, PROVISIONER); }
  }

  lemma {:induction false} RemoveKeepsAbsent(fs: seq<string>, f: string, g: string)
    requires g !in fs
    ensures Remove(Remove(fs, f), g) == Remove(fs, f)
  {
    if fs != [] {
      RemoveKeepsAbsent(fs[1..], f, g);
    }
  }

  // ---------------------------------------------------------------- the decision

  datatype Verdict = Skip | IssueDelete | DropBoth

  /** What the controller is for: a released PV of the driver with the Delete policy that still
      has a managed finalizer and lists nodes of which none is seen Ready. */
  ghost predicate Abandoned(pv: PersistentVolume, view: Nodes) {
    && Ours(pv) && pv.phase == Released && pv.policy == Policy.Delete
    && (exists f :: f in pv.finalizers && Managed(f))
    && (exists h :: Lists(pv, h)) && !SomeReady(pv, view)
  }

  ghost function Decide(pv: PersistentVolume, view: Nodes): Verdict {
    if !Abandoned(pv, view) then Skip else if !pv.deleting then IssueDelete else DropBoth
  }

  /** A deletion with no finalizer left takes the object away. */
  function Stored(pvs: Pvs, name: string, pv: PersistentVolume): Pvs {
    if pv.deleting && pv.finalizers == [] then pvs - {name} else pvs[name := pv]
  }

  ghost function Carried(pvs: Pvs, name: string, v: Verdict): Pvs
    requires name in pvs
  {
    match v
    case Skip => pvs
    case IssueDelete => Stored(pvs, name, pvs[name].(deleting := true))
    case DropBoth => Stored(pvs, name, pvs[name].(finalizers := Others(pvs[name].finalizers)))
  }

  /** The nodes the API server answers for. */
  ghost function View(nodes: Nodes, seen: set<string>): Nodes {
    map n | n in nodes && n in seen :: nodes[n]
  }

  // ---------------------------------------------------------------- the controller

  method DeletePv(api: Api, name: string) returns (r: Result<()>)
    requires name in api.pvs
    modifies api`pvs
    ensures r.Ok? ==> api.pvs == Stored(old(api.pvs), name, old(api.pvs)[name].(deleting := true))
    ensures r.Err? ==> api.pvs == old(api.pvs)
    ensures api.reliable ==> r.Ok?
  {
    if !api.reliable { if * { return Err(Fault); } }
    api.pvs := Stored(api.pvs, name, api.pvs[name].(deleting := true));
    return Ok(());
  }

  method PatchFinalizers(api: Api, name: string, fs: seq<string>) returns (r: Result<()>)
    requires name in api.pvs
    modifies api`pvs
    ensures r.Ok? ==> api.pvs == Stored(old(api.pvs), name, old(api.pvs)[name].(finalizers := fs))
    ensures r.Err? ==> api.pvs == old(api.pvs)
    ensures api.reliable ==> r.Ok?
  {
    if !api.reliable { if * { return Err(Fault); } }
    api.pvs := Stored(api.pvs, name, api.pvs[name].(finalizers := fs));
    return Ok(());
  }

  /** Reading a node: `readable` are the names for which the API server answers. */
  method ReadNode(api: Api, readable: set<string>, name: string) returns (r: Result<NodeObject>)
    ensures r == if name in View(api.nodes, readable) then Ok(api.nodes[name])
                 else if name in readable then Err(NotFound) else Err(Fault)
  {
    if name !in readable { return Err(Fault); }
    if name in api.nodes { return Ok(api.nodes[name]); }
    return Err(NotFound);
  }

  /** The loop over the hostnames. A node that cannot be read counts as unavailable. */
  method FindReady(api: Api, readable: set<string>, hosts: seq<string>) returns (found: bool)
    ensures found <==> exists h :: h in View(api.nodes, readable) && h in hosts && IsReady(View(api.nodes, readable)[h])
  {
    found := false;
    for i := 0 to |hosts|
      invariant !found
      invariant forall k :: 0 <= k < i && hosts[k] in View(api.nodes, readable) ==>
                  !IsReady(View(api.nodes, readable)[hosts[k]])
    {
      var node := ReadNode(api, readable, hosts[i]);
      if node.Ok? {
        var ready := NodeReady(node.value);
        if ready {
          assert hosts[i] in hosts && IsReady(View(api.nodes, readable)[hosts[i]]);
          return true;
        }
      }
    }
  }

  /** PVCleanupReconciler.Reconcile, while the API server answers for the `readable` nodes. A
      call without an error has done exactly what the decision on those says, a failed call
      nothing. */
  method Reconcile(api: Api, readable: set<string>, name: string) returns (r: Result<bool>)
    modifies api`pvs
    ensures r.Err? || name !in old(api.pvs) ==> api.pvs == old(api.pvs)
    ensures r.Ok? && name in old(api.pvs) ==>
              var verdict := Decide(old(api.pvs)[name], View(api.nodes, readable));
              api.pvs == Carried(old(api.pvs), name, verdict) && (r.value <==> verdict == IssueDelete)
    ensures api.reliable ==> r.Ok?
  {
    hide IsReady, Lists, Others;
    var got := api.GetPv(name);
    if got.Err? {
      if got.error == NotFound { return Ok(false); }
      return Err(got.error);
    }
    var pv := got.value;
    if pv.csi.None? || pv.csi.value.driver != DRIVER_NAME { return Ok(false); }
    if pv.phase != Released { return Ok(false); }
    if pv.policy != Policy.Delete { return Ok(false); }
    if PROTECTION !in pv.finalizers && PROVISIONER !in pv.finalizers { return Ok(false); }
    assert exists f :: f in pv.finalizers && Managed(f) by {
      assert Managed(PROTECTION) && Managed(PROVISIONER);
    }
    var hosts := ExtractHostnames(pv);
    HostnamesMeaning(pv);
    if |hosts| == 0 { return Ok(false); }
    var available := FindReady(api, readable, hosts);
    assert available <==> SomeReady(pv, View(api.nodes, readable));
    if available { return Ok(false); }
    if !pv.deleting {
      var deleted := DeletePv(api, name);
      if deleted.Err? { return Err(deleted.error); }
      return Ok(true);
    }
    var fs := DropFinalizers(pv.finalizers);
    var patched := PatchFinalizers(api, name, fs);
    if patched.Err? { return Err(patched.error); }
    return Ok(false);
  }

  // ---------------------------------------------------------------- the cache transform

  /** TrimNode keeps the identity of a node and its first Ready condition. */
  method TrimNode(node: NodeObject) returns (r: NodeObject)
    ensures Trims(node, r)
  {
    var ready: seq<Condition> := [];
    for i := 0 to |node.conditions|
      invariant ready == [] && forall k :: 0 <= k < i ==> node.conditions[k].kind != READY
    {
      if node.conditions[i].kind == READY {
        ready := [node.conditions[i]];
        OneFirst(node.conditions, i);
        break;
      }
    }
    r := NodeObject(node.typeMeta, node.name, node.namespace, node.uid, node.resourceVersion, ready, "");
  }

  ghost predicate Trims(node: NodeObject, r: NodeObject) {
    && r.typeMeta == node.typeMeta && r.name == node.name && r.namespace == node.namespace
    && r.uid == node.uid && r.resourceVersion == node.resourceVersion && r.payload == ""
    && (forall i :: FirstReady(node.conditions, i) ==> r.conditions == [node.conditions[i]])
    && ((forall i :: !FirstReady(node.conditions, i)) ==> r.conditions == [])
  }

  /** Trimming keeps the one bit the controller reads, however often Ready is repeated. */
  lemma TrimKeepsReady(node: NodeObject, r: NodeObject)
    requires Trims(node, r)
    ensures IsReady(r) <==> IsReady(node)
  {
    if IsReady(node) {
      var i :| FirstReady(node.conditions, i) && node.conditions[i].status == Status.True;
      assert FirstReady(r.conditions, 0);
    }
    if IsReady(r) {
      var j :| FirstReady(r.conditions, j) && r.conditions[j].status == Status.True;
      assert exists i :: FirstReady(node.conditions, i);
    }
  }

  /** Trimming twice is trimming once. */
  lemma TrimTwice(node: NodeObject, r: NodeObject, again: NodeObject)
    requires Trims(node, r) && Trims(r, again)
    ensures again == r
  {
    if i :| FirstReady(node.conditions, i) {
      assert FirstReady(r.conditions, 0);
    } else {
      assert r.conditions == [];
    }
  }

  /** Cleanup over trimmed nodes decides as over the full nodes, for every PV. */
  lemma TrimKeepsDecisions(pv: PersistentVolume, full: Nodes, trimmed: Nodes)
    requires full.Keys == trimmed.Keys && forall n :: n in full ==> Trims(full[n], trimmed[n])
    ensures Decide(pv, trimmed) == Decide(pv, full)
  {
    forall n | n in full
      ensures n in trimmed && (IsReady(trimmed[n]) <==> IsReady(full[n]))
    {
      TrimKeepsReady(full[n], trimmed[n]);
    }
    assert SomeReady(pv, trimmed) <==> SomeReady(pv, full);
  }

  // ---------------------------------------------------------------- runs

  datatype World = World(pvs: Pvs, nodes: Nodes)

  /** A reconcile that got through, one that failed, or anything else that happens to nodes and
      PVs, short of dropping a managed finalizer. */
  datatype Step = Reconciled(readable: set<string>) | Failed | Changed

  ghost predicate Next(w: World, name: string, s: Step, w': World) {
    match s
    case Reconciled(readable) =>
      && w'.nodes == w.nodes
      && w'.pvs == if name in w.pvs then Carried(w.pvs, name, Decide(w.pvs[name], View(w.nodes, readable))) else w.pvs
    case Failed => w' == w
    case Changed => forall f :: Managed(f) && Has(w, name, f) ==> Has(w', name, f)
  }

  predicate Has(w: World, name: string, f: string) {
    name in w.pvs && f in w.pvs[name].finalizers
  }

  ghost predicate At(ws: seq<World>, ss: seq<Step>, name: string, i: nat)
    requires |ws| == |ss| + 1 && i < |ss|
  {
    Next(ws[i], name, ss[i], ws[i + 1])
  }

  ghost predicate IsRun(ws: seq<World>, ss: seq<Step>, name: string) {
    |ws| == |ss| + 1 && forall i :: 0 <= i < |ss| ==> At(ws, ss, name, i)
  }

  /** The conditions under which a reconcile may drop the finalizers. */
  ghost predicate Drops(w: World, name: string, s: Step) {
    && s.Reconciled? && name in w.pvs && w.pvs[name].deleting && Abandoned(w.pvs[name], View(w.nodes, s.readable))
  }

  /** In every run, a managed finalizer that is gone was dropped by a reconcile that found the
      PV ours, Released, Delete-policy, already marked for deletion, with a hostname listed and
      no listed node seen Ready; before that step it was there, and after it it was not. */
  lemma {:induction false} DroppedOnlyWhenAbandoned(ws: seq<World>, ss: seq<Step>, name: string, i: nat, j: nat,
                                                    f: string)
    requires IsRun(ws, ss, name) && i <= j < |ws| && Managed(f) && Has(ws[i], name, f) && !Has(ws[j], name, f)
    ensures exists k :: i <= k < j && Drops(ws[k], name, ss[k]) && Has(ws[k], name, f) && !Has(ws[k + 1], name, f)
  {
    hide Abandoned, Managed, Others;
    if i < j {
      assert At(ws, ss, name, j - 1);
      if Has(ws[j - 1], name, f) {
        assert Drops(ws[j - 1], name, ss[j - 1]);
      } else {
        DroppedOnlyWhenAbandoned(ws, ss, name, i, j - 1, f);
      }
    }
  }

  lemma {:induction false} OthersOfOthers(fs: seq<string>)
    ensures Others(Others(fs)) == Others(fs)
  {
    if fs != [] {
      OthersOfOthers(fs[1..]);
    }
  }

  /** A reconcile keeps every other finalizer, in order; the PV goes away only when it was
      marked for deletion and no other finalizer was left. */
  lemma ReconcileKeepsOthers(w: World, name: string, s: Step, w': World)
    requires s.Reconciled? && Next(w, name, s, w') && name in w.pvs
    ensures name in w'.pvs ==> Others(w'.pvs[name].finalizers) == Others(w.pvs[name].finalizers)
    ensures name !in w'.pvs ==> w.pvs[name].deleting && Others(w.pvs[name].finalizers) == []
    ensures forall m :: m in w.pvs && m != name ==> m in w'.pvs && w'.pvs[m] == w.pvs[m]
  {
    OthersOfOthers(w.pvs[name].finalizers);
  }

  /** A reconcile that could read every node and found the PV abandoned. */
  lemma AbandonedStep(w: World, name: string, seen: set<string>, w': World)
    requires name in w.pvs && Abandoned(w.pvs[name], w.nodes) && w.nodes.Keys <= seen
    requires Next(w, name, Reconciled(seen), w')
    ensures !w.pvs[name].deleting ==> name in w'.pvs && w'.pvs[name] == w.pvs[name].(deleting := true)
    ensures w.pvs[name].deleting ==> forall f :: Managed(f) ==> !Has(w', name, f)
  {
    hide Managed, SomeReady, Lists, Others;
    assert View(w.nodes, seen) == w.nodes;
    OthersMeaning(w.pvs[name].finalizers);
  }

  lemma CleanStaysClean(w: World, name: string, seen: set<string>, w': World)
    requires Next(w, name, Reconciled(seen), w') && forall f :: Managed(f) ==> !Has(w, name, f)
    ensures forall f :: Managed(f) ==> !Has(w', name, f)
  {
    hide Managed, SomeReady, Lists;
    if name in w.pvs {
      assert forall f :: Managed(f) ==> f !in w.pvs[name].finalizers by {
        assert forall f :: f in w.pvs[name].finalizers ==> Has(w, name, f);
      }
    }
  }

  /** With the listed nodes staying unavailable and no failure, two reconciles finish the job,
      whether or not the deletion had been requested before. */
  lemma TwoReconcilesFinish(a: World, b: World, c: World, d: World, name: string, seen: set<string>, again: set<string>)
    requires name in a.pvs && Abandoned(a.pvs[name], a.nodes) && a.nodes.Keys <= seen
    requires Next(a, name, Reconciled(seen), b)
    requires c.pvs == b.pvs && c.nodes.Keys <= again && !SomeReady(a.pvs[name], c.nodes)
    requires Next(c, name, Reconciled(again), d)
    ensures forall f :: Managed(f) ==> !Has(d, name, f)
  {
    hide Next, Managed, Lists, SomeReady;
    AbandonedStep(a, name, seen, b);
    if a.pvs[name].deleting {
      forall f | Managed(f)
        ensures !Has(c, name, f)
      {
        assert !Has(b, name, f);
      }
      CleanStaysClean(c, name, again, d);
    } else {
      SameListing(a.pvs[name], b.pvs[name], c.nodes);
      AbandonedStep(c, name, again, d);
    }
  }

  lemma SameListing(pv: PersistentVolume, marked: PersistentVolume, view: Nodes)
    requires marked == pv.(deleting := true)
    ensures Abandoned(marked, view) <==> Abandoned(pv, view)
    ensures SomeReady(marked, view) <==> SomeReady(pv, view)
  {
    assert forall h :: Lists(marked, h) <==> Lists(pv, h);
  }
}
