/** Block devices and the scan that selects the disks the driver may use. */
module Probe {
  import opened Text

  /** What blkid reports for a device. */
  datatype Signature = Blank | Lvm2 | Foreign

  datatype Device = Device(path: string, kind: string, model: string, size: int)

  datatype Filter = Filter(prefixes: seq<string>, models: set<string>, kinds: seq<string>)

  const DEFAULT_PREFIXES: seq<string> := ["/dev/nvme"]
  const DEFAULT_MODELS: seq<string> :=
    ["Microsoft NVMe Direct Disk", "Microsoft NVMe Direct Disk v2", "Amazon EC2 NVMe Instance Storage"]
  const DEFAULT_KINDS: seq<string> := ["disk"]

  // ---------------------------------------------------------------- merged lists

  function NoDuplicates(s: seq<string>): bool {
    forall i, j :: 0 <= i < j < |s| ==> s[i] != s[j]
  }

  /** The reference meaning of the merge: `out` holds the trimmed non-empty entries of `all`,
      each once, in the order of first occurrence. */
  ghost predicate IsMerge(all: seq<string>, out: seq<string>) {
    NoDuplicates(out) && SameEntries(all, out) && InFirstOrder(all, out)
  }

  ghost predicate SameEntries(all: seq<string>, out: seq<string>) {
    forall s :: s in out <==> exists i :: 0 <= i < |all| && Entry(all, i) == s && s != ""
  }

  ghost predicate InFirstOrder(all: seq<string>, out: seq<string>) {
    forall j, k :: 0 <= j < k < |out| ==> FirstIndex(all, out[j]) < FirstIndex(all, out[k])
  }

  function Entry(all: seq<string>, i: int): string
    requires 0 <= i < |all|
  {
    TrimSpace(all[i])
  }

  /** Where a trimmed entry first occurs, or the length when it does not. */
  function FirstIndex(all: seq<string>, s: string): (k: nat)
    ensures k <= |all|
    ensures k < |all| ==> Entry(all, k) == s
    ensures forall i :: 0 <= i < k ==> Entry(all, i) != s
  {
    if all == [] then 0
    else if Entry(all, 0) == s then 0
    else
      var k := FirstIndex(all[1..], s);
      assert forall i :: 0 < i < |all| ==> Entry(all, i) == Entry(all[1..], i - 1);
      k + 1
  }

  /** appendUnique. */
  method AppendUnique(base: seq<string>, addon: seq<string>) returns (out: seq<string>)
    ensures IsMerge(base + addon, out)
    ensures forall i :: 0 <= i < |out| ==> out[i] != "" && Trimmed(out[i])
  {
    var all := base + addon;
    var seen: set<string> := {};
    out := [];
    for i := 0 to |all|
      invariant forall s :: s in seen <==> s in out
      invariant IsMerge(all[..i], out)
      invariant forall k :: 0 <= k < |out| ==> out[k] != "" && Trimmed(out[k])
    {
      var s := TrimSpace(all[i]);
      TrimSpaceTrimmed(all[i]);
      ghost var before := out;
      if s != "" && s !in seen {
        seen := seen + {s};
        out := out + [s];
      }
      MergeStep(all, i, before, out);
    }
    assert all[..|all|] == all;
  }

  lemma FirstIndexPrefix(all: seq<string>, i: nat, s: string)
    requires i < |all|
    ensures FirstIndex(all[..i], s) < i ==> FirstIndex(all[..i + 1], s) == FirstIndex(all[..i], s)
    ensures FirstIndex(all[..i], s) == i && Entry(all, i) == s ==> FirstIndex(all[..i + 1], s) == i
  {
    hide FirstIndex, TrimSpace;
    var a, b := all[..i], all[..i + 1];
    assert forall k :: 0 <= k < i ==> Entry(a, k) == Entry(b, k) == Entry(all, k);
    assert Entry(b, i) == Entry(all, i);
  }

  lemma MergeStep(all: seq<string>, i: nat, before: seq<string>, after: seq<string>)
    requires i < |all| && IsMerge(all[..i], before)
    requires after == if Entry(all, i) != "" && Entry(all, i) !in before then before + [Entry(all, i)] else before
    ensures IsMerge(all[..i + 1], after)
  {
    hide SameEntries, InFirstOrder, Entry;
    EntriesStep(all, i, before, after);
    OrderStep(all, i, before, after);
  }

  lemma EntriesStep(all: seq<string>, i: nat, before: seq<string>, after: seq<string>)
    requires i < |all| && SameEntries(all[..i], before)
    requires after == if Entry(all, i) != "" && Entry(all, i) !in before then before + [Entry(all, i)] else before
    ensures SameEntries(all[..i + 1], after)
  {
    hide TrimSpace;
    var a, b := all[..i], all[..i + 1];
    forall s
      ensures s in after <==> exists k :: 0 <= k < |b| && Entry(b, k) == s && s != ""
    {
      if s in before {
        var k :| 0 <= k < |a| && Entry(a, k) == s && s != "";
        assert Entry(b, k) == s;
      } else if s in after {
        assert Entry(b, i) == s;
      }
      if k :| 0 <= k < |b| && Entry(b, k) == s && s != "" {
        if k < i { assert Entry(a, k) == s; }
      }
    }
  }

  /** An entry of the merge occurs before the end, and one that is not has no place yet. */
  lemma FirstIndexOf(all: seq<string>, out: seq<string>, s: string)
    requires SameEntries(all, out)
    ensures s in out ==> FirstIndex(all, s) < |all|
    ensures s !in out && s != "" ==> FirstIndex(all, s) == |all|
  {
    hide FirstIndex, Entry;
    if s in out {
      var x :| 0 <= x < |all| && Entry(all, x) == s && s != "";
    }
  }

  lemma OrderStep(all: seq<string>, i: nat, before: seq<string>, after: seq<string>)
    requires i < |all| && SameEntries(all[..i], before) && InFirstOrder(all[..i], before)
    requires after == if Entry(all, i) != "" && Entry(all, i) !in before then before + [Entry(all, i)] else before
    ensures InFirstOrder(all[..i + 1], after)
  {
    hide FirstIndex, Entry, SameEntries;
    forall j, k | 0 <= j < k < |after|
      ensures FirstIndex(all[..i + 1], after[j]) < FirstIndex(all[..i + 1], after[k])
    {
      assert after[j] in before;
      FirstIndexOf(all[..i], before, after[j]);
      FirstIndexOf(all[..i], before, after[k]);
      FirstIndexPrefix(all, i, after[j]);
      FirstIndexPrefix(all, i, after[k]);
      if k < |before| { assert before[k] in before; }
    }
  }

  // ---------------------------------------------------------------- the filter

  /** NewModelFilter. */
  function ModelSet(models: seq<string>): set<string> {
    set m | m in models :: ToLower(TrimSpace(m))
  }

  predicate AnyPrefix(prefixes: seq<string>, path: string) {
    exists i :: 0 <= i < |prefixes| && HasPrefix(path, prefixes[i])
  }

  predicate AnyKind(kinds: seq<string>, kind: string) {
    exists i :: 0 <= i < |kinds| && EqualFold(kind, kinds[i])
  }

  /** Filter.Match: path AND model AND type. */
  predicate Match(f: Filter, d: Device) {
    && AnyPrefix(f.prefixes, d.path)
    && ToLower(TrimSpace(d.model)) in f.models
    && AnyKind(f.kinds, d.kind)
  }

  /** NewEphemeralDiskFilter. */
  method NewEphemeralDiskFilter(prefixes: seq<string>, models: seq<string>, kinds: seq<string>) returns (f: Filter)
    ensures FilterOf(f, prefixes, models, kinds)
    ensures DEFAULT_PREFIXES <= f.prefixes && DEFAULT_KINDS <= f.kinds
  {
    var p := AppendUnique(DEFAULT_PREFIXES, prefixes);
    var m := AppendUnique(DEFAULT_MODELS, models);
    var k := AppendUnique(DEFAULT_KINDS, kinds);
    f := Filter(p, ModelSet(m), k);
    DefaultsFirst(DEFAULT_PREFIXES, prefixes, p);
    DefaultsFirst(DEFAULT_KINDS, kinds, k);
  }

  ghost predicate FilterOf(f: Filter, prefixes: seq<string>, models: seq<string>, kinds: seq<string>) {
    && IsMerge(DEFAULT_PREFIXES + prefixes, f.prefixes)
    && (exists m :: IsMerge(DEFAULT_MODELS + models, m) && f.models == ModelSet(m))
    && IsMerge(DEFAULT_KINDS + kinds, f.kinds)
  }

  /** Some entry of the list, trimmed and not empty, is the start of `path`. */
  ghost predicate StartsLike(path: string, list: seq<string>) {
    exists i :: 0 <= i < |list| && Entry(list, i) != "" && Entry(list, i) <= path
  }

  /** Some entry of the list, trimmed and not empty, is `name` up to case. */
  ghost predicate NamedIn(name: string, list: seq<string>) {
    exists i :: 0 <= i < |list| && Entry(list, i) != "" && |Entry(list, i)| == |name| &&
      forall k :: 0 <= k < |name| ==> SameUpToCase(name[k], Entry(list, i)[k])
  }

  /** Case folding against a merged list is case folding against its entries. */
  lemma MergedName(name: string, list: seq<string>, out: seq<string>)
    requires IsMerge(list, out)
    ensures NamedIn(name, list) <==> exists s :: s in out && EqualFold(name, s)
  {
    hide TrimSpace, EqualFold, SameUpToCase, InFirstOrder;
    if s :| s in out && EqualFold(name, s) {
      var i :| 0 <= i < |list| && Entry(list, i) == s && s != "";
      FoldMeaning(name, Entry(list, i));
    }
    if i :| 0 <= i < |list| && Entry(list, i) != "" && |Entry(list, i)| == |name| &&
            forall k :: 0 <= k < |name| ==> SameUpToCase(name[k], Entry(list, i)[k]) {
      FoldMeaning(name, Entry(list, i));
      assert Entry(list, i) in out;
    }
  }

  lemma MergedPrefix(path: string, list: seq<string>, out: seq<string>)
    requires IsMerge(list, out)
    ensures StartsLike(path, list) <==> exists s :: s in out && HasPrefix(path, s)
  {
    hide TrimSpace, InFirstOrder;
    if s :| s in out && HasPrefix(path, s) {
      var i :| 0 <= i < |list| && Entry(list, i) == s && s != "";
    }
    if i :| 0 <= i < |list| && Entry(list, i) != "" && Entry(list, i) <= path {
      assert Entry(list, i) in out;
    }
  }

  lemma MergedModels(model: string, list: seq<string>, out: seq<string>)
    requires IsMerge(list, out)
    ensures ToLower(model) in ModelSet(out) <==> exists s :: s in out && EqualFold(model, s)
  {
    hide TrimSpace, InFirstOrder;
    forall s | s in out
      ensures TrimSpace(s) == s
    {
      var i :| 0 <= i < |list| && Entry(list, i) == s && s != "";
      TrimSpaceTrimmed(list[i]);
      TrimmedIsFixed(s);
    }
  }

  /** What a device must be to match: its path starts like an entry of the defaults or the path
      list, its trimmed model is named in the defaults or the model list, and its type in the
      defaults or the type list. */
  lemma MatchMeaning(f: Filter, p: seq<string>, m: seq<string>, k: seq<string>, d: Device)
    requires FilterOf(f, p, m, k)
    ensures Match(f, d) <==>
              && StartsLike(d.path, ["/dev/nvme"] + p)
              && NamedIn(TrimSpace(d.model), ["Microsoft NVMe Direct Disk", "Microsoft NVMe Direct Disk v2",
                                              "Amazon EC2 NVMe Instance Storage"] + m)
              && NamedIn(d.kind, ["disk"] + k)
  {
    hide IsMerge, TrimSpace, EqualFold, HasPrefix, ModelSet, StartsLike, NamedIn;
    var merged :| IsMerge(DEFAULT_MODELS + m, merged) && f.models == ModelSet(merged);
    MergedPrefix(d.path, DEFAULT_PREFIXES + p, f.prefixes);
    MergedModels(TrimSpace(d.model), DEFAULT_MODELS + m, merged);
    MergedName(TrimSpace(d.model), DEFAULT_MODELS + m, merged);
    MergedName(d.kind, DEFAULT_KINDS + k, f.kinds);
  }

  /** Every entry of `small` is also an entry of `large`, up to trimming. */
  predicate Enlarges(small: seq<string>, large: seq<string>) {
    forall i :: 0 <= i < |small| ==> exists j :: 0 <= j < |large| && Entry(small, i) == Entry(large, j)
  }

  lemma MergeGrows(base: seq<string>, small: seq<string>, large: seq<string>, a: seq<string>, b: seq<string>)
    requires Enlarges(small, large) && IsMerge(base + small, a) && IsMerge(base + large, b)
    ensures forall s :: s in a ==> s in b
  {
    forall s | s in a
      ensures s in b
    {
      var i :| 0 <= i < |base + small| && Entry(base + small, i) == s && s != "";
      if i < |base| {
        assert Entry(base + large, i) == s;
      } else {
        assert Entry(small, i - |base|) == s;
        var j :| 0 <= j < |large| && Entry(small, i - |base|) == Entry(large, j);
        assert Entry(base + large, |base| + j) == s;
      }
    }
  }

  /** Enlarging the addon lists never deselects a device. */
  lemma FilterMonotone(f: Filter, g: Filter, p: seq<string>, m: seq<string>, k: seq<string>,
                       p': seq<string>, m': seq<string>, k': seq<string>, d: Device)
    requires FilterOf(f, p, m, k) && FilterOf(g, p', m', k')
    requires Enlarges(p, p') && Enlarges(m, m') && Enlarges(k, k')
    ensures Match(f, d) ==> Match(g, d)
  {
    MergeGrows(DEFAULT_PREFIXES, p, p', f.prefixes, g.prefixes);
    MergeGrows(DEFAULT_KINDS, k, k', f.kinds, g.kinds);
    var fm :| IsMerge(DEFAULT_MODELS + m, fm) && f.models == ModelSet(fm);
    var gm :| IsMerge(DEFAULT_MODELS + m', gm) && g.models == ModelSet(gm);
    MergeGrows(DEFAULT_MODELS, m, m', fm, gm);
    if Match(f, d) {
      var i :| 0 <= i < |f.prefixes| && HasPrefix(d.path, f.prefixes[i]);
      assert f.prefixes[i] in g.prefixes;
      var j :| 0 <= j < |f.kinds| && EqualFold(d.kind, f.kinds[j]);
      assert f.kinds[j] in g.kinds;
    }
  }

  /** The merged list starts with the defaults, in their order, whatever the addons are. */
  lemma DefaultsFirst(base: seq<string>, addon: seq<string>, out: seq<string>)
    requires IsMerge(base + addon, out)
    requires NoDuplicates(base) && forall i :: 0 <= i < |base| ==> base[i] != "" && Trimmed(base[i])
    ensures base <= out
  {
    var all := base + addon;
    forall i | 0 <= i < |base|
      ensures Entry(all, i) == base[i]
    {
      TrimmedIsFixed(base[i]);
    }
    forall i | 0 <= i < |base|
      ensures FirstIndex(all, base[i]) == i && base[i] in out
    {
      assert SameEntries(all, out);
      assert Entry(all, i) == base[i];
    }
    forall i | 0 <= i < |base|
      ensures i < |out| && out[i] == base[i]
    {
      DefaultInPlace(all, base, out, i);
    }
    if base != [] {
      DefaultInPlace(all, base, out, |base| - 1);
    }
  }

  /** First occurrences strictly increase along the merge, so each is at least its position. */
  lemma {:induction false} FirstIndexAtLeast(all: seq<string>, out: seq<string>, k: nat)
    requires IsMerge(all, out) && k < |out|
    ensures FirstIndex(all, out[k]) >= k
  {
    hide FirstIndex, SameEntries;
    if k > 0 {
      FirstIndexAtLeast(all, out, k - 1);
      assert FirstIndex(all, out[k - 1]) < FirstIndex(all, out[k]);
    }
  }

  lemma {:induction false} DefaultInPlace(all: seq<string>, base: seq<string>, out: seq<string>, i: nat)
    requires i < |base| && IsMerge(all, out)
    requires forall k :: 0 <= k < |base| ==> FirstIndex(all, base[k]) == k && base[k] in out
    ensures i < |out| && out[i] == base[i]
  {
    hide FirstIndex, SameEntries;
    assert base[i] in out;
    var j :| 0 <= j < |out| && out[j] == base[i];
    FirstIndexAtLeast(all, out, j);
    if i > 0 {
      DefaultInPlace(all, base, out, i - 1);
    }
  }

  // ---------------------------------------------------------------- the scan

  /** The devices a scan may return: matching, and unformatted or LVM2, in input order. */
  function Available(devices: seq<Device>, sigs: map<string, Signature>, f: Filter): (r: seq<Device>)
    ensures forall d :: d in r <==> d in devices && Usable(d, sigs, f)
    ensures |r| <= |devices|
  {
    if devices == [] then []
    else
      var d, rest := devices[|devices| - 1], Available(devices[..|devices| - 1], sigs, f);
      if Usable(d, sigs, f) then rest + [d] else rest
  }

  lemma AvailableNext(devices: seq<Device>, sigs: map<string, Signature>, f: Filter, i: nat)
    requires i < |devices|
    ensures Available(devices[..i + 1], sigs, f) ==
            Available(devices[..i], sigs, f) + if Usable(devices[i], sigs, f) then [devices[i]] else []
  {
    hide Usable;
    assert devices[..i + 1][..i] == devices[..i];
  }

  predicate Usable(d: Device, sigs: map<string, Signature>, f: Filter) {
    Match(f, d) && d.path in sigs && sigs[d.path] != Foreign
  }

  /** Every device is judged for itself and keeps its place: one in the middle is returned, in
      between what the two parts give, exactly if it matches and is blank or LVM2. */
  lemma {:induction false} AvailableSplit(a: seq<Device>, d: Device, b: seq<Device>, sigs: map<string, Signature>,
                                          f: Filter)
    ensures Available(a + [d] + b, sigs, f) ==
            Available(a, sigs, f) +
            (if Match(f, d) && d.path in sigs && sigs[d.path] in {Blank, Lvm2} then [d] else []) +
            Available(b, sigs, f)
  {
    hide Match;
    var all, n := a + [d] + b, |a| + |b|;
    if b == [] {
      assert all == a + [d] && all[..n] == a;
    } else {
      var front := b[..|b| - 1];
      AvailableSplit(a, d, front, sigs, f);
      assert all[..n] == a + [d] + front && all[n] == b[|b| - 1];
    }
  }

  datatype ScanResult = Found(devices: seq<Device>) | NoDevices | ScanFault

  /** ScanAvailableDevices. Probing a device that is absent, or any failing probe, is a fault. */
  method ScanAvailableDevices(devices: seq<Device>, sigs: map<string, Signature>, f: Filter, reliable: bool)
    returns (r: ScanResult)
    ensures r == ScanFault ||
            r == if Available(devices, sigs, f) == [] then NoDevices else Found(Available(devices, sigs, f))
    ensures r.Found? ==> forall d :: d in r.devices <==>
              d in devices && Match(f, d) && d.path in sigs && sigs[d.path] in {Blank, Lvm2}
    ensures (exists d :: d in devices && Match(f, d) && d.path !in sigs) ==> r == ScanFault
    ensures reliable && (forall d :: d in devices ==> d.path in sigs) ==> r != ScanFault
  {
    hide Match, Available;
    if !reliable { if * { return ScanFault; } }
    var found: seq<Device> := [];
    for i := 0 to |devices|
      invariant found == Available(devices[..i], sigs, f)
      invariant forall k :: 0 <= k < i && Match(f, devices[k]) ==> devices[k].path in sigs
    {
      var d := devices[i];
      AvailableNext(devices, sigs, f, i);
      if Match(f, d) {
        if d.path !in sigs {
          return ScanFault;
        }
        if !reliable { if * { return ScanFault; } }
        var formatted := sigs[d.path] != Blank;
        if !formatted {
          found := found + [d];
        } else {
          if !reliable { if * { return ScanFault; } }
          var lvm2 := sigs[d.path] == Lvm2;
          if lvm2 {
            found := found + [d];
          }
        }
      }
    }
    assert devices[..|devices|] == devices;
    if |found| == 0 {
      return NoDevices;
    }
    return Found(found);
  }
}
