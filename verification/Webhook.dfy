/** The webhook that pins pods to the owners of their volumes, and what its rewrite means for
    the scheduler. */
module Webhook {
  import opened Text
  import opened Lvm
  import opened Kube
  import opened Ownership
  import opened Servers

  datatype Mode = Availability | Durability

  /** A preferred scheduling term. */
  datatype Preference = Preference(weight: int, term: SelectorTerm)

  datatype NodeAffinity = NodeAffinity(required: Option<seq<SelectorTerm>>, preferred: seq<Preference>)

  /** `others`: pod affinity and anti-affinity. */
  datatype Affinity = Affinity(node: Option<NodeAffinity>, others: string)

  datatype Pod = Pod(affinity: Option<Affinity>, payload: string)

  datatype Response = Allowed | Errored | Patched(pod: Pod)

  // ---------------------------------------------------------------- the scheduler's view

  /** A node as selectors see it. */
  datatype Candidate = Candidate(labels: map<string, string>, fields: map<string, string>)

  predicate Meets(r: Requirement, attrs: map<string, string>) {
    match r.op
    case In => r.key in attrs && attrs[r.key] in r.values
    case NotIn => !(r.key in attrs && attrs[r.key] in r.values)
    case Exists => r.key in attrs
    case DoesNotExist => r.key !in attrs
    case Gt => Compares(r, attrs) && ParseDigits(attrs[r.key]).value > ParseDigits(r.values[0]).value
    case Lt => Compares(r, attrs) && ParseDigits(attrs[r.key]).value < ParseDigits(r.values[0]).value
  }

  predicate Compares(r: Requirement, attrs: map<string, string>) {
    r.key in attrs && |r.values| == 1 && ParseDigits(attrs[r.key]).Some? && ParseDigits(r.values[0]).Some?
  }

  /** All requirements of a term hold; an empty term matches nothing. */
  predicate Matches(t: SelectorTerm, n: Candidate) {
    && (t.expressions != [] || t.fields != [])
    && (forall r :: r in t.expressions ==> Meets(r, n.labels))
    && (forall r :: r in t.fields ==> Meets(r, n.fields))
  }

  function Required(pod: Pod): Option<seq<SelectorTerm>> {
    if pod.affinity.Some? && pod.affinity.value.node.Some? then pod.affinity.value.node.value.required else None
  }

  function RequiredTerms(pod: Pod): seq<SelectorTerm> {
    if Required(pod).Some? then Required(pod).value else []
  }

  function Preferred(pod: Pod): seq<Preference> {
    if pod.affinity.Some? && pod.affinity.value.node.Some? then pod.affinity.value.node.value.preferred else []
  }

  function OtherAffinity(pod: Pod): string {
    if pod.affinity.Some? then pod.affinity.value.others else ""
  }

  /** Some required term matches, or there is no required selector. */
  ghost predicate Feasible(pod: Pod, n: Candidate) {
    Required(pod).Some? ==> exists i :: 0 <= i < |Required(pod).value| && Matches(Required(pod).value[i], n)
  }

  // ---------------------------------------------------------------- the rewrite

  /** On one of the named hosts. */
  function OnHosts(names: seq<string>): SelectorTerm {
    SelectorTerm([Requirement(HOSTNAME_LABEL, In, names)], [])
  }

  /** patchPodWithNodeAffinity. */
  method PatchPod(pod: Pod, names: seq<string>, mode: Mode) returns (p: Pod)
    ensures p.payload == pod.payload && OtherAffinity(p) == OtherAffinity(pod)
    ensures mode == Durability ==>
              && Required(p) == Some(RequiredTerms(pod) + [OnHosts(names)])
              && Preferred(p) == Preferred(pod)
    ensures mode == Availability ==>
              && Required(p) == Required(pod)
              && Preferred(p) == Preferred(pod) + [Preference(100, OnHosts(names))]
  {
    p := pod;
    var requirement := Requirement(HOSTNAME_LABEL, In, names);
    if p.affinity.None? {
      p := p.(affinity := Some(Affinity(None, "")));
    }
    var affinity := p.affinity.value;
    if affinity.node.None? {
      affinity := affinity.(node := Some(NodeAffinity(None, [])));
    }
    var node := affinity.node.value;
    match mode {
      case Durability =>
        var term := SelectorTerm([requirement], []);
        if node.required.None? {
          node := node.(required := Some([term]));
          assert [] + [OnHosts(names)] == [term];
        } else {
          node := node.(required := Some(node.required.value + [term]));
        }
      case Availability =>
        node := node.(preferred := node.preferred + [Preference(100, SelectorTerm([requirement], []))]);
    }
    p := p.(affinity := Some(affinity.(node := Some(node))));
  }

  lemma OnHostsMeaning(names: seq<string>, n: Candidate)
    ensures Matches(OnHosts(names), n) <==> HOSTNAME_LABEL in n.labels && n.labels[HOSTNAME_LABEL] in names
  {
    var r := Requirement(HOSTNAME_LABEL, In, names);
    assert r in OnHosts(names).expressions;
  }

  /** Availability mode leaves the feasible nodes as they were. Durability mode makes them
      exactly the named hosts when the pod required nothing; otherwise it adds the named hosts
      to the alternatives the pod already allowed. */
  lemma RewriteMeaning(pod: Pod, p: Pod, names: seq<string>, mode: Mode, n: Candidate)
    requires mode == Availability ==> Required(p) == Required(pod)
    requires mode == Durability ==>
               Required(p) == Some(RequiredTerms(pod) + [OnHosts(names)])
    ensures mode == Availability ==> (Feasible(p, n) <==> Feasible(pod, n))
    ensures mode == Durability ==>
              (Feasible(p, n) <==>
                 (Required(pod).Some? && Feasible(pod, n)) ||
                 (HOSTNAME_LABEL in n.labels && n.labels[HOSTNAME_LABEL] in names))
  {
    OnHostsMeaning(names, n);
    if mode == Durability {
      var before := RequiredTerms(pod);
      var after := Required(p).value;
      assert after[|before|] == OnHosts(names);
      assert forall i :: 0 <= i < |before| ==> after[i] == before[i];
    }
  }

  // ---------------------------------------------------------------- looking up the volumes

  /** What one PV contributes: its owner and its mode, or the end of the matter. */
  datatype Answer = Answer(nodes: seq<string>, mode: Mode) | Unassigned

  function ModeOf(pv: PersistentVolume): Mode {
    if Attribute(pv, FailoverKey) == Some("durability") then Durability else Availability
  }

  predicate HasHandle(pv: PersistentVolume) {
    pv.csi.Some? && pv.csi.value.handle != ""
  }

  function Ask(pvs: Pvs, name: string): Answer {
    if name !in pvs || !HasHandle(pvs[name]) then Answer([], Availability)
    else match RecordedOwner(pvs[name])
      case None => Unassigned
      case Some(owner) => Answer([owner], ModeOf(pvs[name]))
  }

  /** getPvNodesAndFailoverMode; a fault stands for an API error other than NotFound. */
  method PvNodes(api: Api, name: string) returns (r: Result<Answer>)
    ensures r == Err(Fault) || r == Ok(Ask(api.pvs, name))
    ensures api.reliable ==> r.Ok?
  {
    var mode := Availability;
    var got := api.GetPv(name);
    if got.Err? {
      if got.error == NotFound { return Ok(Answer([], mode)); }
      return Err(got.error);
    }
    var pv := got.value;
    var names: seq<string> := [];
    if pv.csi.Some? && pv.csi.value.handle != "" {
      var stated := Attribute(pv, FailoverKey);
      if stated.Some? {
        if stated.value == "availability" {
          assert |stated.value| != |"durability"|;
          mode := Availability;
        } else if stated.value == "durability" {
          mode := Durability;
        }
      }
      LookupsAgree(pv);
      var owner := WebhookOwner(pv);
      if owner.None? { return Ok(Unassigned); }
      names := names + [owner.value];
      assert names == [owner.value];
    }
    return Ok(Answer(names, mode));
  }

  /** The owners of the volumes, in the order of the list. */
  function Owners(pvs: Pvs, names: seq<string>): seq<string> {
    if names == [] then []
    else
      var last := Ask(pvs, names[|names| - 1]);
      Owners(pvs, names[..|names| - 1]) + (if last.Answer? then last.nodes else [])
  }

  predicate AllAssigned(pvs: Pvs, names: seq<string>) {
    forall i :: 0 <= i < |names| ==> Ask(pvs, names[i]).Answer?
  }

  /** The mode used is that of the last volume in the list. */
  function LastMode(pvs: Pvs, names: seq<string>): Mode
    requires names != []
  {
    var last := Ask(pvs, names[|names| - 1]);
    if last.Answer? then last.mode else Availability
  }

  /** The hosts named to the scheduler are exactly the owners on record of the volumes. */
  lemma {:induction false} OwnersMeaning(pvs: Pvs, names: seq<string>, host: string)
    ensures host in Owners(pvs, names) <==>
            exists i :: 0 <= i < |names| && names[i] in pvs && HasHandle(pvs[names[i]]) &&
              RecordedOwner(pvs[names[i]]) == Some(host)
  {
    if names != [] {
      OwnersMeaning(pvs, names[..|names| - 1], host);
    }
  }

  /** Pinned: what the webhook must have done to the pod. */
  ghost predicate Pinned(pvs: Pvs, names: seq<string>, pod: Pod, p: Pod)
    requires names != []
  {
    && p.payload == pod.payload && OtherAffinity(p) == OtherAffinity(pod)
    && (match LastMode(pvs, names)
        case Durability => && Preferred(p) == Preferred(pod)
                           && Required(p) == Some(RequiredTerms(pod) +
                                                  [OnHosts(Owners(pvs, names))])
        case Availability => && Required(p) == Required(pod)
                             && Preferred(p) == Preferred(pod) + [Preference(100, OnHosts(Owners(pvs, names)))])
  }

  /** injectNodeAffinity. Without a fault the pod is let through unchanged when some volume has
      no owner on record or no volume names a node, and pinned otherwise. */
  method InjectNodeAffinity(api: Api, names: seq<string>, pod: Pod) returns (r: Response)
    requires names != []
    ensures r.Allowed? ==> !AllAssigned(api.pvs, names) || Owners(api.pvs, names) == []
    ensures r.Patched? ==> AllAssigned(api.pvs, names) && Owners(api.pvs, names) != [] &&
                           Pinned(api.pvs, names, pod, r.pod)
    ensures api.reliable ==> !r.Errored?
  {
    hide Ask;
    var hosts: seq<string> := [];
    var mode := Availability;
    for i := 0 to |names|
      invariant hosts == Owners(api.pvs, names[..i])
      invariant AllAssigned(api.pvs, names[..i])
      invariant i > 0 ==> mode == LastMode(api.pvs, names[..i])
    {
      var got := PvNodes(api, names[i]);
      if got.Err? { return Errored; }
      if got.value.Unassigned? { return Allowed; }
      assert names[..i + 1][..i] == names[..i];
      mode := got.value.mode;
      hosts := hosts + got.value.nodes;
    }
    assert names[..|names|] == names;
    if |hosts| == 0 { return Allowed; }
    var p := PatchPod(pod, hosts, mode);
    return Patched(p);
  }

  /** The PV with that name has the handle of a volume and an owner on record. */
  ghost predicate Owned(pvs: Pvs, name: string) {
    name in pvs && HasHandle(pvs[name]) && RecordedOwner(pvs[name]).Some?
  }

  /** The last volume in the list decides on the mode: durability exactly if its PV has an owner on
      record and says so. */
  lemma ModeMeaning(pvs: Pvs, names: seq<string>)
    requires names != []
    ensures LastMode(pvs, names) == Durability <==>
              var last := names[|names| - 1];
              Owned(pvs, last) && Attribute(pvs[last], FailoverKey) == Some("durability")
  {
  }

  /** A pod is let through unchanged exactly when a volume has no owner on record, or none has. */
  lemma LetThrough(pvs: Pvs, names: seq<string>)
    ensures !AllAssigned(pvs, names) || Owners(pvs, names) == [] <==>
              || (exists i :: 0 <= i < |names| && names[i] in pvs && HasHandle(pvs[names[i]]) &&
                   !Owned(pvs, names[i]))
              || (forall i :: 0 <= i < |names| ==> !Owned(pvs, names[i]))
  {
    if Owners(pvs, names) != [] {
      var host := Owners(pvs, names)[0];
      assert host in Owners(pvs, names);
      OwnersMeaning(pvs, names, host);
    }
    if i :| 0 <= i < |names| && Owned(pvs, names[i]) {
      OwnersMeaning(pvs, names, RecordedOwner(pvs[names[i]]).value);
    }
  }

  /** What a pinned pod can be scheduled on. If the last volume asks for availability, whatever
      the pod could be scheduled on before. If it asks for durability and the pod required
      nothing, exactly the nodes that own one of its volumes; if the pod had requirements, those
      nodes in addition to what it allowed. */
  lemma PinnedMeaning(pvs: Pvs, names: seq<string>, pod: Pod, p: Pod, n: Candidate)
    requires names != [] && Pinned(pvs, names, pod, p)
    ensures Feasible(p, n) <==>
              var last := names[|names| - 1];
              if Owned(pvs, last) && Attribute(pvs[last], FailoverKey) == Some("durability") then
                || (Required(pod).Some? && Feasible(pod, n))
                || ("kubernetes.io/hostname" in n.labels &&
                    exists i :: 0 <= i < |names| && Owned(pvs, names[i]) &&
                      RecordedOwner(pvs[names[i]]) == Some(n.labels["kubernetes.io/hostname"]))
              else Feasible(pod, n)
  {
    hide Matches;
    ModeMeaning(pvs, names);
    RewriteMeaning(pod, p, Owners(pvs, names), LastMode(pvs, names), n);
    if HOSTNAME_LABEL in n.labels {
      OwnersMeaning(pvs, names, n.labels[HOSTNAME_LABEL]);
    }
  }

  /** Durability does not win: whatever the other volumes ask for, a last volume whose PV is
      missing makes the webhook leave the feasible nodes alone. */
  lemma DurabilityLost(pvs: Pvs, names: seq<string>, missing: string, pod: Pod, p: Pod, n: Candidate)
    requires missing !in pvs && Pinned(pvs, names + [missing], pod, p)
    ensures Feasible(p, n) <==> Feasible(pod, n)
  {
    PinnedMeaning(pvs, names + [missing], pod, p, n);
  }
}
