/**
 * The decoded JSON values that `json.loads` hands to the collector, and
 * Python's subscript operator on them (`v[key]`, `v[0]`), including the
 * exception each subscript raises on the wrong shape of value.
 */
module Json {
  import opened Wrappers

  /** A decoded JSON document. Numbers are integers in this model. */
  datatype Json =
    | JNull
    | JBool(b: bool)
    | JNumber(n: int)
    | JString(s: string)
    | JArray(items: seq<Json>)
    | JObject(fields: map<string, Json>)

  /** One subscript: `v["name"]` or `v[i]`. */
  datatype Selector = Key(name: string) | Index(i: nat)

  /** The Python exception a failing subscript raises. */
  datatype Fault =
    | KeyError(missing: Selector)  // a dict without that key (a dict indexed by 0 included)
    | IndexError(index: nat)       // a list or string too short
    | TypeError                    // a value that cannot be subscripted that way

  /** Python's `v[sel]` on a decoded JSON value. */
  function Step(v: Json, sel: Selector): (r: Result<Json, Fault>)
    ensures sel.Key? && v.JObject? && sel.name in v.fields ==> r == Success(v.fields[sel.name])
    ensures sel.Key? && v.JObject? && sel.name !in v.fields ==> r == Failure(KeyError(sel))
    ensures sel.Key? && !v.JObject? ==> r == Failure(TypeError)
    ensures sel.Index? && v.JArray? ==>
      r == if sel.i < |v.items| then Success(v.items[sel.i]) else Failure(IndexError(sel.i))
    ensures sel.Index? && v.JString? ==>
      r == if sel.i < |v.s| then Success(JString([v.s[sel.i]])) else Failure(IndexError(sel.i))
    ensures sel.Index? && v.JObject? ==> r == Failure(KeyError(sel))
    ensures sel.Index? && !(v.JArray? || v.JString? || v.JObject?) ==> r == Failure(TypeError)
  {
    match sel
    case Key(name) =>
      (match v
       case JObject(fields) => if name in fields then Success(fields[name]) else Failure(KeyError(sel))
       case _ => Failure(TypeError))
    case Index(i) =>
      (match v
       case JArray(items) => if i < |items| then Success(items[i]) else Failure(IndexError(i))
       case JString(s) => if i < |s| then Success(JString([s[i]])) else Failure(IndexError(i))
       case JObject(_) => Failure(KeyError(sel))
       case _ => Failure(TypeError))
  }

  /** A chain of subscripts `v[p0][p1]...`, stopping at the first exception. */
  function Walk(v: Json, path: seq<Selector>): Result<Json, Fault>
    decreases |path|
  {
    if path == [] then Success(v)
    else
      match Step(v, path[0])
      case Failure(f) => Failure(f)
      case Success(w) => Walk(w, path[1..])
  }

  /** Walking a path in two pieces is walking it in one. */
  lemma {:induction false} WalkAppend(v: Json, p: seq<Selector>, q: seq<Selector>)
    ensures Walk(v, p + q) ==
      match Walk(v, p)
      case Failure(f) => Failure(f)
      case Success(w) => Walk(w, q)
    decreases |p|
  {
    if p == [] {
      assert p + q == q;
    } else {
      assert (p + q)[0] == p[0];
      assert (p + q)[1..] == p[1..] + q;
      match Step(v, p[0])
      case Failure(f) =>
      case Success(w) => WalkAppend(w, p[1..], q);
    }
  }
}
