/** Values that cross the wire between the prediction form and the prediction
    service: JSON documents, the JavaScript notion of truthiness the form's
    render conditions and `||` defaults rely on, and the eight feature names
    both ends agree on. */
module Wire {

  datatype Option<+T> = None | Some(value: T)

  /** A JSON value. Numbers are exact reals; NaN, infinities and -0 have no
      JSON text and do not occur here. */
  datatype Json =
    | JNull
    | JBool(b: bool)
    | JNum(n: real)
    | JStr(s: string)
    | JArr(items: seq<Json>)
    | JObj(members: map<string, Json>)

  /** JavaScript truthiness: null, false, 0 and "" are falsy; every array
      and every object is truthy. */
  predicate Truthy(j: Json) {
    match j
    case JNull => false
    case JBool(b) => b
    case JNum(n) => n != 0.0
    case JStr(s) => s != ""
    case JArr(_) => true
    case JObj(_) => true
  }

  /** Optional property access `j?.key`: absent on non-objects and on
      missing keys. */
  function Member(j: Json, key: string): Option<Json> {
    if j.JObj? && key in j.members then Some(j.members[key]) else None
  }

  /** The eight building-design parameters, in the order of the service's
      feature vector. */
  const FIELD_NAMES: seq<string> := [
    "relative_compactness", "surface_area", "wall_area", "roof_area",
    "overall_height", "orientation", "glazing_area", "glazing_area_distribution"
  ]

  /** No name is listed twice, so the i-th feature has a key of its own. */
  lemma FieldNamesDistinct(i: nat, j: nat)
    requires i < |FIELD_NAMES| && j < |FIELD_NAMES| && i != j
    ensures FIELD_NAMES[i] != FIELD_NAMES[j]
  {
  }
}
