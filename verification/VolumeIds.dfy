/** Volume ids `<volume-group>#<logical-volume>`: the driver's printer and parser, and the
    garbage collector's own parser. */
module VolumeIds {
  import opened Text

  datatype VolumeId = VolumeId(vg: string, lv: string)

  const SEPARATOR := '#'

  function Print(id: VolumeId): string {
    id.vg + [SEPARATOR] + id.lv
  }

  /** newVolumeId. */
  function Make(vg: string, lv: string): Option<VolumeId> {
    if |vg| == 0 then None
    else if |lv| == 0 then None
    else Some(VolumeId(vg, lv))
  }

  /** newIdFromString. */
  function Parse(s: string): Option<VolumeId> {
    var segments := Split(s, SEPARATOR);
    if |segments| != 2 then None
    else
      var vg := segments[0];
      if |vg| == 0 then None
      else
        var lv := segments[1];
        if |lv| == 0 then None else Some(VolumeId(vg, lv))
  }

  /** parseVolumeID, the garbage collector's copy. */
  function GcParse(s: string): Option<(string, string)> {
    var segments := Split(s, SEPARATOR);
    if |segments| != 2 then None
    else if |segments[0]| == 0 || |segments[1]| == 0 then None
    else Some((segments[0], segments[1]))
  }

  /** The ids that survive printing: both names non-empty and free of the separator. */
  predicate Printable(id: VolumeId) {
    id.vg != "" && id.lv != "" && SEPARATOR !in id.vg && SEPARATOR !in id.lv
  }

  /** Printing then parsing succeeds on exactly the printable ids, and then gives the id back;
      every other pair of names is rejected rather than misread. */
  lemma ParsePrintId(id: VolumeId)
    ensures Print(id) == id.vg + "#" + id.lv
    ensures Parse(Print(id)) == if Printable(id) then Some(id) else None
  {
    SplitAt(id.vg, SEPARATOR, id.lv);
    SplitOne(id.vg, SEPARATOR);
    SplitOne(id.lv, SEPARATOR);
  }

  /** Whatever parses is printable and prints back to the very same string. */
  lemma PrintParse(s: string)
    requires Parse(s).Some?
    ensures Print(Parse(s).value) == s && Printable(Parse(s).value)
  {
    SplitTwo(s, SEPARATOR);
  }

  /** Distinct printable ids never share a string. */
  lemma PrintInjective(a: VolumeId, b: VolumeId)
    requires Printable(a) && Printable(b) && Print(a) == Print(b)
    ensures a == b
  {
    ParsePrintId(a);
    ParsePrintId(b);
  }

  /** The two parsers accept the same strings and read the same names out of them: both
      accept exactly the printed forms of printable ids. */
  lemma ParsersAgree(s: string)
    ensures Parse(s).Some? <==> exists id :: Printable(id) && Print(id) == s
    ensures GcParse(s).Some? <==> exists id :: Printable(id) && Print(id) == s
    ensures forall id :: Printable(id) && Print(id) == s ==>
              Parse(s) == Some(id) && GcParse(s) == Some((id.vg, id.lv))
  {
    forall id | Printable(id) && Print(id) == s
      ensures Parse(s) == Some(id) && GcParse(s) == Some((id.vg, id.lv))
    {
      ParsePrintId(id);
    }
    if Parse(s).Some? || GcParse(s).Some? {
      PrintParse(s);
    }
  }
}
