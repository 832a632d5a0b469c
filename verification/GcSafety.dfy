/** Garbage collection never takes a volume from its owner: what holds over every run of the
    protocol, and exactly which node the collectors spare. */
module GcSafety {
  import opened Text
  import opened VolumeIds
  import opened Probe
  import opened Lvm
  import opened Provisioner
  import opened Kube
  import opened Ownership
  import opened Volumes
  import opened Servers
  import opened Gc
  import opened Protocol

  // ---------------------------------------------------------------- claims

  /** A claim stands until another claim or the end of the PV: the owner on record, if there is
      one, is the claiming node. */
  ghost predicate Stands(c: Cluster, v: string) {
    v in c.claims ==>
      && Lookup(c.pvs, v).Some?
      && var owner := RecordedOwner(Lookup(c.pvs, v).value);
         owner.Some? ==> owner.value == c.claims[v].node
  }

  ghost predicate ClaimInv(c: Cluster) {
    forall v :: Stands(c, v)
  }

  lemma GetStands(c: Cluster, s: Step, c': Cluster, v: string)
    requires s.StageGet? && DoStageGet(c, s, c') && StoreInv(c) && Stands(c, v)
    ensures Stands(c', v)
  {
    hide Valid, Parse, UnderGc, StageRequest, StageUpdate, EqualFold;
    if v == s.call.handle {
      var pv := Lookup(c.pvs, v).value;
      assert GoodPv(c.hosts.Keys, Parse(v).value.lv, pv);
      MismatchMeaning(pv, s.call.node);
    }
  }

  lemma PatchStands(c: Cluster, s: Step, c': Cluster, v: string)
    requires s.StagePatch? && DoStagePatch(c, s, c') && StoreInv(c) && Stands(c, v)
    ensures Stands(c', v)
  {
    hide Valid, Parse, UnderGc, StageRequest, StageUpdate, StoreInv;
    if s.ok {
      var n, w := s.call.node, s.call.handle;
      var name := Parse(w).value.lv;
      LookupUpdated(c.pvs, name, SetOwner(c.pvs[name], n), v);
      HandoverMeaning(c.pvs[name], n, n);
      OneHandle(c.pvs, w, v);
    }
  }

  lemma GrowStands(c: Cluster, s: Step, c': Cluster, v: string)
    requires s.GrowPatch? && DoGrowPatch(c, s, c') && Stands(c, v)
    ensures Stands(c', v)
  {
    hide Parse, StageRequest, PrintNat;
    if c'.pvs != c.pvs {
      var name := Parse(s.call.handle).value.lv;
      LookupUpdated(c.pvs, name, SetExpanded(c.pvs[name], c.growths[s.call].size), v);
    }
  }

  lemma CreateStands(c: Cluster, s: Step, c': Cluster, v: string)
    requires s.CreatePv? && DoCreatePv(c, s, c') && StoreInv(c) && Stands(c, v)
    ensures Stands(c', v)
  {
    hide Parse, GoodPv;
  }

  lemma PvStands(c: Cluster, s: Step, c': Cluster, v: string)
    requires (s.PvStatus? || s.PvGone?) && DoPv(c, s, c') && Stands(c, v)
    ensures Stands(c', v)
  {
    hide Parse;
    if s.PvStatus? {
      LookupUpdated(c.pvs, s.name, c'.pvs[s.name], v);
    }
  }

  /** Two handles that lead to one PV are the same. */
  lemma OneHandle(pvs: Pvs, v: string, w: string)
    ensures Lookup(pvs, v).Some? && Lookup(pvs, w).Some? && Parse(v).value.lv == Parse(w).value.lv ==> v == w
  {
    hide Parse;
  }

  lemma ClaimStep(c: Cluster, s: Step, c': Cluster)
    requires StoreInv(c) && ClaimInv(c) && Next(c, s, c')
    ensures ClaimInv(c')
  {
    hide DoCreateLv, DoCreatePv, DoStageGet, DoStagePatch, DoStageEnsure, DoGrowGet, DoGrowLv, DoGrowPatch;
    hide DoScan, DoGc, DoPv, DoHost, DoRest, Valid, StoreInv;
    Frames(c, s, c');
    forall v
      ensures Stands(c', v)
    {
      assert Stands(c, v);
      match s
      case CreatePv(_, _) => CreateStands(c, s, c', v);
      case StageGet(_) => GetStands(c, s, c', v);
      case StagePatch(_, _) => PatchStands(c, s, c', v);
      case GrowPatch(_, _) => GrowStands(c, s, c', v);
      case PvStatus(_, _, _, _) => PvStands(c, s, c', v);
      case PvGone(_) => PvStands(c, s, c', v);
      case _ =>
    }
  }

  // ---------------------------------------------------------------- decided removals

  /** A removal decided against the latest claimant was decided before that claim. */
  ghost predicate Late(c: Cluster, t: Task) {
    t in c.pending && t.handle in c.claims && c.claims[t.handle].node == t.node ==> c.claims[t.handle].duringGc
  }

  ghost predicate TaskInv(c: Cluster) {
    forall t :: Late(c, t)
  }

  /** While a claim stands, neither collector on the claiming node decides to remove the volume. */
  lemma OwnerPassesChecks(c: Cluster, n: string, v: string)
    requires Stands(c, v) && v in c.claims && c.claims[v].node == n
    ensures !Orphaned(c.pvs, n, v)
    ensures forall name :: name in c.pvs && Carries(c.pvs[name], v) && PvsInv(c) ==> Reconciles(c.pvs[name], n) != Clean
  {
    hide Parse, EqualFold, StageRequest;
    var pv := Lookup(c.pvs, v).value;
    MismatchMeaning(pv, n);
    FoldReflexive(n);
    assert Carries(c.pvs[Parse(v).value.lv], v);
    forall name | name in c.pvs && Carries(c.pvs[name], v) && PvsInv(c)
      ensures Reconciles(c.pvs[name], n) != Clean
    {
      LookupStored(c, name);
    }
  }

  /** What the collectors do, exactly: in every reachable state the orphan check on a node flags
      a claimed volume if and only if an owner is on record and that node is not the latest
      claimant, and the reconciler decides to remove it if and only if, moreover, the PV is
      Available or Bound and not being deleted. */
  lemma SparesOnlyClaimant(cs: seq<Cluster>, ss: seq<Step>, i: nat, n: string, v: string)
    requires IsRun(cs, ss) && i < |cs| && n in cs[i].hosts && v in cs[i].claims
    ensures Lookup(cs[i].pvs, v).Some?
    ensures var pv := Lookup(cs[i].pvs, v).value;
            var foreign := RecordedOwner(pv).Some? && cs[i].claims[v].node != n;
            && (Orphaned(cs[i].pvs, n, v) <==> foreign)
            && (Reconciles(pv, n) == Clean <==>
                  foreign && (pv.phase == Phase.Available || pv.phase == Phase.Bound) && !pv.deleting)
  {
    hide Next, Parse, EqualFold, StageRequest, Valid, TaskInv, Mismatch;
    ClaimsHold(cs, ss, i);
    var c := cs[i];
    assert Stands(c, v);
    var name := Parse(v).value.lv;
    assert GoodPv(c.hosts.Keys, name, c.pvs[name]);
    HandlesUnique(c);
    MismatchMeaning(c.pvs[name], n);
    FoldReflexive(n);
  }

  lemma CheckLate(c: Cluster, s: Step, c': Cluster, t: Task)
    requires s.ScanCheck? && DoScan(c, s, c') && Stands(c, t.handle) && Late(c, t)
    ensures Late(c', t)
  {
    hide Orphaned, Lookup, RecordedOwner;
    if t !in c.pending && t in c'.pending && t.handle in c.claims && c.claims[t.handle].node == t.node {
      OwnerPassesChecks(c, t.node, t.handle);
    }
  }

  lemma ReconcileLate(c: Cluster, s: Step, c': Cluster, t: Task)
    requires s.ReconcileCheck? && DoGc(c, s, c') && StoreInv(c) && Stands(c, t.handle) && Late(c, t)
    ensures Late(c', t)
  {
    hide Lookup, RecordedOwner, Parse, Valid, AtMostDropped, Mismatch;
    if t !in c.pending && t in c'.pending && t.handle in c.claims && c.claims[t.handle].node == t.node {
      OwnerPassesChecks(c, t.node, t.handle);
    }
  }

  lemma GetLate(c: Cluster, s: Step, c': Cluster, t: Task)
    requires s.StageGet? && DoStageGet(c, s, c') && Late(c, t)
    ensures Late(c', t)
  {
    hide Lookup, StageUpdate;
  }

  lemma PatchLate(c: Cluster, s: Step, c': Cluster, t: Task)
    requires s.StagePatch? && DoStagePatch(c, s, c') && Late(c, t)
    ensures Late(c', t)
  {
    hide Lookup, Parse;
  }

  lemma GoneLate(c: Cluster, s: Step, c': Cluster, t: Task)
    requires s.PvGone? && DoPv(c, s, c') && Late(c, t)
    ensures Late(c', t)
  {
    hide Valid;
  }

  lemma TaskStep(c: Cluster, s: Step, c': Cluster)
    requires StoreInv(c) && ClaimInv(c) && TaskInv(c) && Next(c, s, c')
    ensures TaskInv(c')
  {
    hide DoCreateLv, DoCreatePv, DoStageGet, DoStagePatch, DoStageEnsure, DoGrowGet, DoGrowLv, DoGrowPatch, DoScan;
    hide DoGc, DoPv, DoHost, DoRest, Valid, StoreInv, Stands;
    Frames(c, s, c');
    forall t
      ensures Late(c', t)
    {
      assert Late(c, t) && Stands(c, t.handle);
      match s
      case StageGet(_) => GetLate(c, s, c', t);
      case StagePatch(_, _) => PatchLate(c, s, c', t);
      case ScanCheck(_, _) => CheckLate(c, s, c', t);
      case ReconcileCheck(_, _) => ReconcileLate(c, s, c', t);
      case PvGone(_) => GoneLate(c, s, c', t);
      case _ =>
    }
  }

  /** Every reachable state keeps both invariants. */
  lemma {:induction false} ClaimsHold(cs: seq<Cluster>, ss: seq<Step>, i: nat)
    requires IsRun(cs, ss) && i < |cs|
    ensures StoreInv(cs[i]) && ClaimInv(cs[i]) && TaskInv(cs[i])
  {
    hide Next, StoreInv, Lookup;
    StoreHolds(cs, ss, i);
    if i > 0 {
      ClaimsHold(cs, ss, i - 1);
      assert At(cs, ss, i - 1);
      ClaimStep(cs[i - 1], ss[i - 1], cs[i]);
      TaskStep(cs[i - 1], ss[i - 1], cs[i]);
    }
  }

  // ---------------------------------------------------------------- the owner keeps its volume

  /** Step `s` is the moment a stage on `n` finds, or puts, its node on record. */
  predicate ClaimsFor(c: Cluster, s: Step, n: string, v: string) {
    || (s.StageGet? && s.call.node == n && s.call.handle == v && Lookup(c.pvs, v).Some? &&
        StageUpdate(Lookup(c.pvs, v).value, n).None?)
    || (s.StagePatch? && s.call.node == n && s.call.handle == v && s.ok)
  }

  /** Step `s` leaves the claim of `n` on `v` in place: the PV stays, and whoever claims the
      volume is `n` again. */
  ghost predicate Respects(c: Cluster, s: Step, n: string, v: string) {
    && (forall m :: ClaimsFor(c, s, m, v) ==> m == n)
    && (s.PvGone? && s.name in c.pvs ==> !Carries(c.pvs[s.name], v))
  }

  /** A claim is exactly what a claiming step records. */
  lemma ClaimRecorded(c: Cluster, s: Step, c': Cluster, n: string, v: string)
    requires Next(c, s, c') && ClaimsFor(c, s, n, v)
    ensures v in c'.claims && c'.claims[v] == NewClaim(c, n, v)
  {
    hide DoCreateLv, DoCreatePv, DoStageEnsure, DoGrowGet, DoGrowLv, DoGrowPatch, DoScan;
    hide DoGc, DoPv, DoHost, DoRest, Lookup, StageUpdate, UnderGc;
  }

  lemma ClaimKept(c: Cluster, s: Step, c': Cluster, n: string, v: string)
    requires Next(c, s, c') && StoreInv(c) && v in c.claims && c.claims[v] == Claim(n, false) && Respects(c, s, n, v)
    requires !UnderGc(c, n, v)
    ensures v in c'.claims && c'.claims[v] == Claim(n, false)
  {
    hide DoCreateLv, DoCreatePv, DoStageGet, DoStagePatch, DoStageEnsure, DoGrowGet, DoGrowLv, DoGrowPatch;
    hide DoScan, DoGc, DoPv, DoHost, DoRest, StoreInv, UnderGc;
    Frames(c, s, c');
    match s
    case StageGet(_) => OtherGet(c, s, c', v);
    case StagePatch(_, _) => OtherPatch(c, s, c', v);
    case PvGone(_) => OtherGone(c, s, c', v);
    case _ =>
  }

  lemma OtherGet(c: Cluster, s: Step, c': Cluster, v: string)
    requires s.StageGet? && DoStageGet(c, s, c') && v in c.claims
    ensures v in c'.claims && (c'.claims[v] == c.claims[v] ||
                               (ClaimsFor(c, s, s.call.node, v) && c'.claims[v] == NewClaim(c, s.call.node, v)))
  {
    hide Lookup, StageUpdate, UnderGc;
  }

  lemma OtherPatch(c: Cluster, s: Step, c': Cluster, v: string)
    requires s.StagePatch? && DoStagePatch(c, s, c') && v in c.claims
    ensures v in c'.claims && (c'.claims[v] == c.claims[v] ||
                               (ClaimsFor(c, s, s.call.node, v) && c'.claims[v] == NewClaim(c, s.call.node, v)))
  {
    hide Lookup, StageUpdate, UnderGc, Parse;
  }

  lemma OtherGone(c: Cluster, s: Step, c': Cluster, v: string)
    requires s.PvGone? && DoPv(c, s, c') && StoreInv(c) && v in c.claims
    requires s.name in c.pvs ==> !Carries(c.pvs[s.name], v)
    ensures v in c'.claims && c'.claims[v] == c.claims[v]
  {
    hide Parse, StageRequest, Valid;
    assert GoodPv(c.hosts.Keys, s.name, c.pvs[s.name]);
  }

  /** A claim that was made with no removal pending never has one pending against it. */
  lemma NotUnderGc(c: Cluster, n: string, v: string)
    requires TaskInv(c) && v in c.claims && c.claims[v] == Claim(n, false)
    ensures !UnderGc(c, n, v)
  {
    assert forall t :: t in c.pending ==> Late(c, t);
  }

  lemma {:induction false} ClaimPersists(cs: seq<Cluster>, ss: seq<Step>, i: nat, j: nat, n: string, v: string)
    requires IsRun(cs, ss) && i < j < |cs|
    requires ClaimsFor(cs[i], ss[i], n, v) && !UnderGc(cs[i], n, v)
    requires forall k :: i < k < j ==> Respects(cs[k], ss[k], n, v)
    ensures v in cs[j].claims && cs[j].claims[v] == Claim(n, false)
  {
    hide Next, ClaimsFor, UnderGc, StoreInv;
    assert At(cs, ss, j - 1);
    if j - 1 == i {
      ClaimRecorded(cs[i], ss[i], cs[j], n, v);
    } else {
      ClaimPersists(cs, ss, i, j - 1, n, v);
      ClaimsHold(cs, ss, j - 1);
      NotUnderGc(cs[j - 1], n, v);
      assert Respects(cs[j - 1], ss[j - 1], n, v);
      ClaimKept(cs[j - 1], ss[j - 1], cs[j], n, v);
    }
  }

  /** GC safety over every run: from the moment a stage on `n` has the volume on record there,
      with no removal of it already decided on `n`, neither the failover reconciler nor the
      orphan scanner on `n` removes it, as long as no other node claims it and the PV exists. */
  lemma OwnerKeepsVolume(cs: seq<Cluster>, ss: seq<Step>, i: nat, j: nat, n: string, v: string)
    requires IsRun(cs, ss) && i < j < |ss|
    requires ClaimsFor(cs[i], ss[i], n, v) && !UnderGc(cs[i], n, v)
    requires forall k :: i < k < j ==> Respects(cs[k], ss[k], n, v)
    ensures !UnderGc(cs[j], n, v)
    ensures !(ss[j].GcDelete? && ss[j].task.node == n && ss[j].task.handle == v)
  {
    hide DoCreateLv, DoCreatePv, DoStageGet, DoStagePatch, DoStageEnsure, DoGrowGet, DoGrowLv, DoGrowPatch;
    hide DoScan, DoPv, DoHost, DoRest, ClaimsFor, StoreInv, AtMostDropped;
    ClaimPersists(cs, ss, i, j, n, v);
    ClaimsHold(cs, ss, j);
    NotUnderGc(cs[j], n, v);
    assert At(cs, ss, j);
  }

  // ---------------------------------------------------------------- every delete was checked

  /** Step `i` is the failed ownership check behind task `t`. */
  ghost predicate CheckedAt(cs: seq<Cluster>, ss: seq<Step>, i: nat, t: Task)
    requires |cs| == |ss| + 1
  {
    i < |ss| && Checks(cs[i], ss[i], t)
  }

  ghost predicate Checks(c: Cluster, s: Step, t: Task) {
    match t.actor
    case Scanner(id) => && s == ScanCheck(t.node, t.handle) && Orphaned(c.pvs, t.node, t.handle)
                        && t.node in c.scans && c.scans[t.node] == Scan(id, false)
    case Reconciler => && s.ReconcileCheck? && s.node == t.node && s.name in c.pvs
                       && Reconciles(c.pvs[s.name], t.node) == Clean && Carries(c.pvs[s.name], t.handle)
  }

  lemma NewTaskChecked(c: Cluster, s: Step, c': Cluster, t: Task)
    requires Next(c, s, c') && t in c'.pending && t !in c.pending
    ensures Checks(c, s, t)
  {
    hide DoCreateLv, DoCreatePv, DoStageGet, DoStagePatch, DoStageEnsure, DoGrowGet, DoGrowLv, DoGrowPatch, DoPv;
    hide DoHost, DoRest, AtMostDropped, Valid, Orphaned, Mismatch, Parse;
    Frames(c, s, c');
  }

  lemma {:induction false} TaskChecked(cs: seq<Cluster>, ss: seq<Step>, j: nat, t: Task)
    requires IsRun(cs, ss) && j < |cs| && t in cs[j].pending
    ensures exists i :: 0 <= i < j && CheckedAt(cs, ss, i, t)
  {
    hide Next, Checks, StoreInv;
    if j > 0 {
      if t in cs[j - 1].pending {
        TaskChecked(cs, ss, j - 1, t);
      } else {
        assert At(cs, ss, j - 1);
        NewTaskChecked(cs[j - 1], ss[j - 1], cs[j], t);
        assert CheckedAt(cs, ss, j - 1, t);
      }
    }
  }

  // ---------------------------------------------------------------- one scan at a time

  ghost predicate ScanInv(c: Cluster) {
    forall n :: n in c.scans ==> c.scans[n].id < c.nextScan
  }

  /** A scan keeps its number until it ends, and numbers are not reused. */
  lemma ScanStep(c: Cluster, s: Step, c': Cluster)
    requires Next(c, s, c') && ScanInv(c)
    ensures ScanInv(c') && c.nextScan <= c'.nextScan
    ensures forall n :: n in c'.scans ==>
              (n in c.scans && c'.scans[n].id == c.scans[n].id) || c'.scans[n].id >= c.nextScan
  {
    hide DoCreateLv, DoCreatePv, DoStageGet, DoStagePatch, DoStageEnsure, DoGrowGet, DoGrowLv, DoGrowPatch;
    hide DoGc, DoPv, DoHost, DoRest, Valid, Orphaned;
    Frames(c, s, c');
  }

  lemma {:induction false} ScansHold(cs: seq<Cluster>, ss: seq<Step>, i: nat, j: nat)
    requires IsRun(cs, ss) && i <= j < |cs|
    ensures ScanInv(cs[j]) && cs[i].nextScan <= cs[j].nextScan
  {
    hide Next;
    if j > 0 {
      ScansHold(cs, ss, if i < j then i else j - 1, j - 1);
      assert At(cs, ss, j - 1);
      ScanStep(cs[j - 1], ss[j - 1], cs[j]);
    }
  }

  /** A scan that is under way at `i` and at `j` is under way all the time between. */
  lemma {:induction false} SameScan(cs: seq<Cluster>, ss: seq<Step>, i: nat, k: nat, j: nat, n: string, id: nat)
    requires IsRun(cs, ss) && i <= k <= j < |cs|
    requires n in cs[i].scans && cs[i].scans[n].id == id && n in cs[j].scans && cs[j].scans[n].id == id
    ensures n in cs[k].scans && cs[k].scans[n].id == id
    decreases j
  {
    hide Next;
    if k < j {
      ScansHold(cs, ss, i, j - 1);
      ScansHold(cs, ss, i, i);
      assert At(cs, ss, j - 1);
      ScanStep(cs[j - 1], ss[j - 1], cs[j]);
      SameScan(cs, ss, i, k, j - 1, n, id);
    }
  }

  /** Under any interleaving, every volume a scan deletes failed the ownership check earlier in
      that same scan, and every volume the failover reconciler deletes was a mismatch when it
      decided. */
  lemma DeleteWasChecked(cs: seq<Cluster>, ss: seq<Step>, j: nat)
    requires IsRun(cs, ss) && j < |ss| && ss[j].GcDelete?
    ensures var t := ss[j].task;
            exists i :: 0 <= i < j && CheckedAt(cs, ss, i, t) &&
              (t.actor.Scanner? ==>
                 forall k :: i <= k <= j ==> t.node in cs[k].scans && cs[k].scans[t.node].id == t.actor.id)
  {
    hide DoCreateLv, DoCreatePv, DoStageGet, DoStagePatch, DoStageEnsure, DoGrowGet, DoGrowLv, DoGrowPatch, DoScan;
    hide DoPv, DoHost, DoRest, AtMostDropped, Orphaned, Parse, Reconciles;
    var t := ss[j].task;
    assert At(cs, ss, j);
    TaskChecked(cs, ss, j, t);
    var i :| 0 <= i < j && CheckedAt(cs, ss, i, t);
    if t.actor.Scanner? {
      forall k | i <= k <= j
        ensures t.node in cs[k].scans && cs[k].scans[t.node].id == t.actor.id
      {
        SameScan(cs, ss, i, k, j, t.node, t.actor.id);
      }
    }
  }

  // ---------------------------------------------------------------- no missed handover

  /** In every run, each patch by which a stage on `m` takes a volume from owner `n` is an event
      that passes the filter on `n`, and on an Available or Bound PV that is not being deleted
      the reconcile that follows decides to remove the volume there. */
  lemma HandoverSeen(cs: seq<Cluster>, ss: seq<Step>, i: nat, n: string, m: string, v: string)
    requires IsRun(cs, ss) && i < |ss|
    requires ss[i].StagePatch? && ss[i].call.node == m && ss[i].call.handle == v && ss[i].ok
    requires Lookup(cs[i].pvs, v).Some? && RecordedOwner(Lookup(cs[i].pvs, v).value) == Some(n) && n != m
    ensures Lookup(cs[i + 1].pvs, v).Some?
    ensures var before, after := Lookup(cs[i].pvs, v).value, Lookup(cs[i + 1].pvs, v).value;
            && before.csi == after.csi && EventFilter(before, after, n)
            && ((after.phase == Phase.Available || after.phase == Phase.Bound) && !after.deleting ==>
                  Reconciles(after, n) == Clean)
  {
    hide DoCreateLv, DoCreatePv, DoStageGet, DoStageEnsure, DoGrowGet, DoGrowLv, DoGrowPatch;
    hide DoScan, DoGc, DoPv, DoHost, DoRest;
    hide Valid, Parse, StageRequest, UnderGc, EqualFold, Mismatch, StageUpdate, Reconciles, EventFilter;
    StoreHolds(cs, ss, i);
    assert At(cs, ss, i);
    var name := Parse(v).value.lv;
    var pv := cs[i].pvs[name];
    assert GoodPv(cs[i].hosts.Keys, name, pv);
    LookupUpdated(cs[i].pvs, name, SetOwner(pv, m), v);
    MismatchMeaning(pv, m);
    NoMissedHandover(pv, n, m);
  }

  // ---------------------------------------------------------------- stages that reach their volume

  /** A stage that made its volume had claimed it. */
  lemma {:induction false} StageWasClaimed(cs: seq<Cluster>, ss: seq<Step>, j: nat, call: Call)
    requires IsRun(cs, ss) && j < |cs| && HasClaimed(cs[j], call)
    ensures exists i :: 0 <= i < j && ClaimsFor(cs[i], ss[i], call.node, call.handle)
  {
    hide Next, ClaimsFor;
    if j > 0 {
      assert At(cs, ss, j - 1);
      if HasClaimed(cs[j - 1], call) {
        StageWasClaimed(cs, ss, j - 1, call);
      } else {
        NewlyClaimed(cs[j - 1], ss[j - 1], cs[j], call);
      }
    }
  }

  predicate HasClaimed(c: Cluster, call: Call) {
    call in c.stages && c.stages[call].Claimed?
  }

  lemma NewlyClaimed(c: Cluster, s: Step, c': Cluster, call: Call)
    requires Next(c, s, c') && HasClaimed(c', call) && !HasClaimed(c, call)
    ensures ClaimsFor(c, s, call.node, call.handle)
  {
    hide DoCreateLv, DoCreatePv, DoStageGet, DoStagePatch, DoStageEnsure, DoGrowGet, DoGrowLv, DoGrowPatch;
    hide DoScan, DoGc, DoPv, DoHost, DoRest, ClaimsFor, Valid;
    Frames(c, s, c');
    if s.StageGet? {
      NewlyRead(c, s, c', call);
    } else if s.StagePatch? {
      NewlyPatched(c, s, c', call);
    }
  }

  lemma NewlyRead(c: Cluster, s: Step, c': Cluster, call: Call)
    requires s.StageGet? && DoStageGet(c, s, c') && HasClaimed(c', call) && !HasClaimed(c, call)
    ensures ClaimsFor(c, s, call.node, call.handle)
  {
    hide Lookup, StageUpdate, UnderGc;
  }

  lemma NewlyPatched(c: Cluster, s: Step, c': Cluster, call: Call)
    requires s.StagePatch? && DoStagePatch(c, s, c') && HasClaimed(c', call) && !HasClaimed(c, call)
    ensures ClaimsFor(c, s, call.node, call.handle)
  {
    hide Lookup, StageUpdate, UnderGc, Parse;
  }
}
