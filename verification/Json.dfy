/** JSON documents and JSON Merge Patch, section 2 of RFC 7396. */
module Json {

  datatype Json = Null | Str(text: string) | Obj(fields: map<string, Json>)

  /** The value of member `k`, with an absent member read as null. */
  function Field(j: Json, k: string): Json {
    if j.Obj? && k in j.fields then j.fields[k] else Null
  }

  /** How a missing or null string member decodes into a Go string. */
  function Text(j: Json): string {
    if j.Str? then j.text else ""
  }

  /** The MergePatch function of RFC 7396. */
  function MergePatch(target: Json, patch: Json): Json
    decreases patch
  {
    if !patch.Obj? then patch else
      var kept := if target.Obj? then target.fields else map[];
      Obj(map k | k in kept.Keys + patch.fields.Keys && !(k in patch.fields && patch.fields[k].Null?) ::
            if k in patch.fields
            then MergePatch(if k in kept then kept[k] else Null, patch.fields[k])
            else kept[k])
  }

  /** Member by member reading of a merge: named members are merged, nulls removed, the rest kept. */
  lemma MergedField(target: Json, patch: Json, k: string)
    requires patch.Obj?
    ensures MergePatch(target, patch).Obj?
    ensures Field(MergePatch(target, patch), k) ==
            if k !in patch.fields then Field(target, k)
            else if patch.fields[k].Null? then Null
            else MergePatch(Field(target, k), patch.fields[k])
  {
  }
}
