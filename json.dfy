/** JSON documents as Python's `json` module hands them to the pipeline, and
    the one operation the pipeline performs on them itself: `dict.update`. */
module Json {

  /** A decoded JSON document. */
  datatype Value =
    | Null
    | Bool(b: bool)
    | Int(i: int)        // a Python int
    | Float(x: real)     // a finite Python float, as an exact real (rounding not modelled)
    | String(s: string)
    | Array(items: seq<Value>)
    | Object(fields: map<string, Value>)

  /** A Python dict with string keys: request bodies, headers and cookies. */
  type Dict = map<string, Value>

  /** `base.update(patch)`: a shallow merge in which the patch wins on every
      key the two share. */
  function Update(base: Dict, patch: Dict): (r: Dict)
    ensures r.Keys == base.Keys + patch.Keys
    ensures forall k | k in patch :: r[k] == patch[k]
    ensures forall k | k in base && k !in patch :: r[k] == base[k]
  {
    base + patch
  }

  /** Two updates in a row are one update with the merged patches. */
  lemma UpdateUpdate(base: Dict, p1: Dict, p2: Dict)
    ensures Update(Update(base, p1), p2) == Update(base, Update(p1, p2))
  {
  }
}
