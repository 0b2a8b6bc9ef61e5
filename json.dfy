/** JSON values as the OpenAPI document holds them, with the accessors and the
    `$ref` predicate used to state properties of the document.
    Objects are maps: key order is not part of a JSON object's meaning. */
module Json {

  datatype Option<+T> = None | Some(value: T)

  datatype Json =
    | JNull
    | JBool(b: bool)
    | JInt(i: int)
    | JStr(s: string)
    | JArr(items: seq<Json>)
    | JObj(fields: map<string, Json>)

  /** `j[key]`, when `j` is an object that holds `key`. */
  function Member(j: Json, key: string): Option<Json>
  {
    if j.JObj? && key in j.fields then Some(j.fields[key]) else None
  }

  /** The value reached from `j` by following the object keys in `path`.
      The ensures are only unfolding facts for short literal paths; they
      state nothing about the model. */
  function At(j: Json, path: seq<string>): (r: Option<Json>)
    ensures path == [] ==> r == Some(j)
    ensures |path| == 1 ==> r == Member(j, path[0])
    decreases |path|
  {
    if path == [] then Some(j)
    else match Member(j, path[0])
      case None => None
      case Some(child) => At(child, path[1..])
  }

  /** The prefix of every local reference to a schema of the document. */
  const SchemaRefPrefix: string := "#/components/schemas/"

  /** The `$ref` strings that name the schemas in `names`. */
  function RefTargets(names: set<string>): (targets: set<string>)
    ensures forall n :: n in names ==> SchemaRefPrefix + n in targets
  {
    set n | n in names :: SchemaRefPrefix + n
  }

  /** Every `$ref` string that occurs anywhere in `j` is one of `targets`. */
  predicate RefsWithin(j: Json, targets: set<string>)
  {
    match j
    case JArr(items) => forall i :: 0 <= i < |items| ==> RefsWithin(items[i], targets)
    case JObj(m) =>
      && ("$ref" in m && m["$ref"].JStr? ==> m["$ref"].s in targets)
      && forall k :: k in m ==> RefsWithin(m[k], targets)
    case _ => true
  }

  /** Allowing more targets never breaks closure. */
  lemma {:induction false} RefsWithinMonotonic(j: Json, targets: set<string>, more: set<string>)
    requires RefsWithin(j, targets) && targets <= more
    ensures RefsWithin(j, more)
  {
    match j
    case JArr(items) =>
      forall i | 0 <= i < |items| ensures RefsWithin(items[i], more) {
        RefsWithinMonotonic(items[i], targets, more);
      }
    case JObj(m) =>
      forall k | k in m ensures RefsWithin(m[k], more) {
        RefsWithinMonotonic(m[k], targets, more);
      }
    case _ =>
  }

  /** Setting one key of an object keeps its references within `targets`
      when the new value's references are. */
  lemma RefsWithinUpdate(m: map<string, Json>, key: string, v: Json, targets: set<string>)
    requires RefsWithin(JObj(m), targets) && RefsWithin(v, targets)
    requires key == "$ref" && v.JStr? ==> v.s in targets
    ensures RefsWithin(JObj(m[key := v]), targets)
  {
    var m' := m[key := v];
    forall k | k in m' ensures RefsWithin(m'[k], targets) {
      if k != key {
        assert m'[k] == m[k];
      }
    }
  }

  /** Merging two objects (right side wins) keeps references within `targets`
      when both sides' references are. */
  lemma RefsWithinUnion(a: map<string, Json>, b: map<string, Json>, targets: set<string>)
    requires RefsWithin(JObj(a), targets) && RefsWithin(JObj(b), targets)
    ensures RefsWithin(JObj(a + b), targets)
  {
    var u := a + b;
    forall k | k in u ensures RefsWithin(u[k], targets) {
      if k in b {
        assert u[k] == b[k];
      } else {
        assert u[k] == a[k];
      }
    }
  }
}
