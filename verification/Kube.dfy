/** The Kubernetes objects the driver reads and writes. */
module Kube {
  import opened Text

  const DRIVER_NAME := "localdisk.csi.acstor.io"
  const TOPOLOGY_KEY := "topology.localdisk.csi.acstor.io/node"
  const HOSTNAME_LABEL := "kubernetes.io/hostname"

  /** The annotation and volume-attribute keys the driver uses; all other keys are `OtherKey`. */
  datatype Key =
    | SelectedNode        // localdisk.csi.acstor.io/selected-node
    | InitialNode         // localdisk.csi.acstor.io/selected-initial-node
    | CapacityKey         // localdisk.csi.acstor.io/capacity
    | LimitKey            // localdisk.csi.acstor.io/limit
    | ExpandedKey         // localdisk.csi.acstor.io/expanded-capacity
    | FailoverKey         // localdisk.csi.acstor.io/failover-mode
    | OtherKey(name: string)

  type Strings = map<Key, string>

  datatype Operator = In | NotIn | Exists | DoesNotExist | Gt | Lt

  datatype Requirement = Requirement(key: string, op: Operator, values: seq<string>)

  datatype SelectorTerm = SelectorTerm(expressions: seq<Requirement>, fields: seq<Requirement>)

  datatype Csi = Csi(driver: string, handle: string, attributes: Option<Strings>)

  datatype Phase = Pending | Available | Bound | Released | Failed

  datatype Policy = Retain | Delete | Recycle

  datatype PersistentVolume = PersistentVolume(
    name: string,
    annotations: Strings,
    csi: Option<Csi>,
    affinity: Option<seq<SelectorTerm>>,   // spec.nodeAffinity.required
    policy: Policy,
    phase: Phase,
    deleting: bool,                        // the deletion timestamp is set
    finalizers: seq<string>)

  datatype Status = True | False | Unknown

  datatype Condition = Condition(kind: string, status: Status, reason: string)

  /** A node; `payload` stands for labels, annotations, addresses, images and the rest. */
  datatype NodeObject = NodeObject(typeMeta: string, name: string, namespace: string, uid: string,
                                   resourceVersion: string, conditions: seq<Condition>, payload: string)

  predicate Ours(pv: PersistentVolume) {
    pv.csi.Some? && pv.csi.value.driver == DRIVER_NAME
  }

  /** A volume attribute; a missing source or a nil map has none. */
  function Attribute(pv: PersistentVolume, k: Key): Option<string> {
    if pv.csi.Some? && pv.csi.value.attributes.Some? && k in pv.csi.value.attributes.value
    then Some(pv.csi.value.attributes.value[k]) else None
  }

  function Annotation(pv: PersistentVolume, k: Key): Option<string> {
    if k in pv.annotations then Some(pv.annotations[k]) else None
  }

  // ---------------------------------------------------------------- hostname topology

  predicate NamesHost(r: Requirement) {
    r.key == TOPOLOGY_KEY && r.op == In
  }

  /** pvHasHostnameTopology. */
  predicate HasHostnameTopology(pv: PersistentVolume) {
    pv.affinity.Some? &&
    exists i, j :: 0 <= i < |pv.affinity.value| && 0 <= j < |pv.affinity.value[i].expressions| &&
      NamesHost(pv.affinity.value[i].expressions[j])
  }
}

/** Who owns a volume: the four places that work it out from the PV. */
module Ownership {
  import opened Text
  import opened Kube

  /** The owner on record: the selected-node annotation if there is one, else the node that
      created the volume, if it was recorded. */
  function RecordedOwner(pv: PersistentVolume): Option<string> {
    if Annotation(pv, SelectedNode).Some? then Annotation(pv, SelectedNode)
    else Attribute(pv, InitialNode)
  }

  /** hasNodeAnnotationMismatch. */
  function Mismatch(pv: PersistentVolume, node: string): bool {
    if SelectedNode in pv.annotations then
      if !EqualFold(pv.annotations[SelectedNode], node) then true else false
    else if pv.csi.Some? && pv.csi.value.attributes.Some? then
      var attrs := pv.csi.value.attributes.value;
      if InitialNode in attrs then
        if !EqualFold(attrs[InitialNode], node) then true else false
      else false
    else false
  }

  /** The ownership part of NodeStageVolume: the new selected-node value, if one is needed. */
  function StageUpdate(pv: PersistentVolume, node: string): Option<string> {
    if SelectedNode !in pv.annotations then
      if pv.csi.Some? && pv.csi.value.attributes.Some? then
        var attrs := pv.csi.value.attributes.value;
        if InitialNode in attrs && !EqualFold(attrs[InitialNode], node) then Some(node) else None
      else None
    else if !EqualFold(pv.annotations[SelectedNode], node) then Some(node)
    else None
  }

  /** The node DeleteVolume compares itself with, "" for none. */
  function DeleteOwner(pv: PersistentVolume): string {
    var selected := if SelectedNode in pv.annotations then pv.annotations[SelectedNode] else "";
    if selected == "" && pv.csi.Some? && pv.csi.value.attributes.Some? then
      var attrs := pv.csi.value.attributes.value;
      if InitialNode in attrs then attrs[InitialNode] else ""
    else selected
  }

  /** The node the webhook pins pods to. */
  function WebhookOwner(pv: PersistentVolume): Option<string>
    requires pv.csi.Some?
  {
    if SelectedNode in pv.annotations then Some(pv.annotations[SelectedNode])
    else if pv.csi.value.attributes.Some? && InitialNode in pv.csi.value.attributes.value
    then Some(pv.csi.value.attributes.value[InitialNode])
    else None
  }

  function SetOwner(pv: PersistentVolume, node: string): PersistentVolume {
    pv.(annotations := pv.annotations[SelectedNode := node])
  }

  /** Garbage collection on a node sees a mismatch exactly when an owner is on record and it
      is another node, and that is exactly when a stage on that node would move the record. */
  lemma MismatchMeaning(pv: PersistentVolume, node: string)
    ensures Mismatch(pv, node) <==> RecordedOwner(pv).Some? && !EqualFold(RecordedOwner(pv).value, node)
    ensures StageUpdate(pv, node) == if Mismatch(pv, node) then Some(node) else None
  {
  }

  /** After a stage has moved the record, the new owner is no mismatch and every node of a
      different name is one. */
  lemma HandoverMeaning(pv: PersistentVolume, node: string, other: string)
    ensures RecordedOwner(SetOwner(pv, node)) == Some(node)
    ensures !Mismatch(SetOwner(pv, node), node)
    ensures Mismatch(SetOwner(pv, node), other) <==> !EqualFold(node, other)
  {
  }

  /** Node names without capitals are told apart by every character: staging the volume of node
      `n` on node `m` moves the record, and leaves `n` a mismatch, exactly when the names differ. */
  lemma DistinctNodes(pv: PersistentVolume, n: string, m: string)
    requires NoCapitals(n) && NoCapitals(m)
    ensures StageUpdate(SetOwner(pv, n), m) == if n == m then None else Some(m)
    ensures Mismatch(SetOwner(SetOwner(pv, n), m), n) <==> n != m
  {
    FoldWithoutCapitals(n, m);
    FoldWithoutCapitals(m, n);
  }

  /** DeleteVolume and the webhook resolve the owner on record, except that DeleteVolume looks
      past an empty annotation: the two differ exactly when the annotation is present and
      empty and an initial node with a name is recorded. */
  lemma LookupsAgree(pv: PersistentVolume)
    requires pv.csi.Some?
    ensures WebhookOwner(pv) == RecordedOwner(pv)
    ensures DeleteOwner(pv) == (if RecordedOwner(pv).Some? then RecordedOwner(pv).value else "")
            <==> !(Annotation(pv, SelectedNode) == Some("") && Attribute(pv, InitialNode).Some? &&
                   Attribute(pv, InitialNode).value != "")
  {
  }

  // ---------------------------------------------------------------- recorded sizes

  datatype Request = Request(capacity: nat, limit: nat)

  /** getCapacityAndLimit. */
  function CapacityAndLimit(attrs: Strings, annotations: Strings): Option<Request> {
    if CapacityKey !in attrs then None
    else
      var c := attrs[CapacityKey];
      var capacity := if |c| > 0 then ParseDigits(c) else Some(0);
      var limit := if LimitKey in attrs && |attrs[LimitKey]| > 0 then ParseDigits(attrs[LimitKey]) else Some(0);
      if capacity.None? || limit.None? then None
      else
        var expanded := if ExpandedKey in annotations && |annotations[ExpandedKey]| > 0
                        then ParseDigits(annotations[ExpandedKey]) else None;
        if expanded.Some? && expanded.value > capacity.value then Some(Request(expanded.value, limit.value))
        else Some(Request(capacity.value, limit.value))
  }

  /** What the records stand for. A capacity must be on record; an empty value stands for zero, any
      other must be a numeral; the larger of the capacity and a readable expansion counts. */
  lemma RequestMeaning(attrs: Strings, annotations: Strings)
    ensures CapacityAndLimit(attrs, annotations).Some? <==>
              CapacityKey in attrs && AllDigits(attrs[CapacityKey]) &&
              (LimitKey in attrs ==> AllDigits(attrs[LimitKey]))
    ensures CapacityAndLimit(attrs, annotations).Some? ==>
              var q, created := CapacityAndLimit(attrs, annotations).value, Numeral(attrs[CapacityKey]);
              && q.limit == (if LimitKey in attrs then Numeral(attrs[LimitKey]) else 0)
              && q.capacity == if ExpandedKey in annotations && AllDigits(annotations[ExpandedKey]) &&
                                  Numeral(annotations[ExpandedKey]) > created
                               then Numeral(annotations[ExpandedKey]) else created
  {
    hide ParseDigits;
    if CapacityKey in attrs { ParseMeaning(attrs[CapacityKey]); }
    if LimitKey in attrs { ParseMeaning(attrs[LimitKey]); }
    if ExpandedKey in annotations { ParseMeaning(annotations[ExpandedKey]); }
  }

  /** What a stage would ask for: none when the PV has no usable attributes. */
  function StageRequest(pv: PersistentVolume): Option<Request> {
    if pv.csi.Some? && pv.csi.value.attributes.Some?
    then CapacityAndLimit(pv.csi.value.attributes.value, pv.annotations) else None
  }

  function SetExpanded(pv: PersistentVolume, size: nat): PersistentVolume {
    pv.(annotations := pv.annotations[ExpandedKey := PrintNat(size)])
  }

  /** The size a PV was created with, as a stage reads it back. */
  lemma CreatedRequest(attrs: Strings, capacity: nat, limit: nat, annotations: Strings)
    requires ExpandedKey !in annotations
    requires CapacityKey in attrs && attrs[CapacityKey] == PrintNat(capacity)
    requires LimitKey in attrs && attrs[LimitKey] == PrintNat(limit)
    ensures CapacityAndLimit(attrs, annotations) == Some(Request(capacity, limit))
  {
    ParsePrint(capacity);
    ParsePrint(limit);
  }

  /** Recording an expansion to at least the size on record makes exactly that size the next
      one a stage asks for; the owner on record is not affected, nor the other way round. */
  lemma ExpandedRequest(pv: PersistentVolume, size: nat)
    requires StageRequest(pv).Some? && size >= StageRequest(pv).value.capacity
    ensures StageRequest(SetExpanded(pv, size)) == Some(StageRequest(pv).value.(capacity := size))
    ensures RecordedOwner(SetExpanded(pv, size)) == RecordedOwner(pv)
    ensures forall node :: StageRequest(SetOwner(pv, node)) == StageRequest(pv)
  {
    ParsePrint(size);
  }

  /** What a stage would ask for if no expansion were on record. */
  function CreatedSize(pv: PersistentVolume): Option<Request> {
    StageRequest(pv.(annotations := pv.annotations - {ExpandedKey}))
  }

  /** Recording any expansion: the next size asked for is the larger of it and the size at create,
      whatever expansion was on record before. */
  lemma AnyExpandedRequest(pv: PersistentVolume, size: nat)
    requires StageRequest(pv).Some?
    ensures CreatedSize(pv).Some? && CreatedSize(pv).value.capacity <= StageRequest(pv).value.capacity
    ensures var created := CreatedSize(pv).value;
            StageRequest(SetExpanded(pv, size)) ==
              Some(if size > created.capacity then created.(capacity := size) else created)
  {
    ParsePrint(size);
  }
}
