/**
 * The ingest configuration document as the manager receives it: a decoded JSON
 * value. Python's chained subscripts (`doc["database"]["channel"]["name"]`,
 * `doc["ingest_job"]["extent"]["x"][0]`) are a `Path` of steps; a step that
 * Python would answer with KeyError, IndexError or TypeError yields `None`.
 */
module Json {
  import opened Wrappers

  datatype Json =
    | JNull
    | JBool(b: bool)
    | JInt(i: int)
    | JStr(s: string)
    | JArray(items: seq<Json>)
    | JObject(fields: map<string, Json>)

  /** One subscript: `v[k]` with a string key, or `v[n]` with an integer index. */
  datatype Step = Key(key: string) | Index(n: nat)

  type Path = seq<Step>

  /** One Python subscript on a decoded JSON value. */
  function Subscript(v: Json, step: Step): (r: Option<Json>)
    ensures step.Key? ==> (r.Some? <==> v.JObject? && step.key in v.fields)
    ensures step.Key? && r.Some? ==> r.value == v.fields[step.key]
    ensures v.JArray? && step.Index? ==> r == (if step.n < |v.items| then Some(v.items[step.n]) else None)
    ensures v.JStr? && step.Index? ==> r == (if step.n < |v.s| then Some(JStr([v.s[step.n]])) else None)
    ensures step.Index? && !v.JArray? && !v.JStr? ==> r.None?
  {
    match (v, step)
    // dict[key]: KeyError when the key is absent
    case (JObject(m), Key(k)) => if k in m then Some(m[k]) else None
    // list[n]: IndexError past the end
    case (JArray(xs), Index(n)) => if n < |xs| then Some(xs[n]) else None
    // str[n]: a one-character string
    case (JStr(s), Index(n)) => if n < |s| then Some(JStr([s[n]])) else None
    // a dict has no integer keys after JSON decoding; every other combination is a TypeError
    case _ => None
  }

  /** The value at `path` in `doc`, or `None` when some subscript along it raises. */
  function Lookup(doc: Json, path: Path): (r: Option<Json>)
    ensures |path| == 1 ==> r == Subscript(doc, path[0])
    decreases |path|
  {
    if path == [] then Some(doc)
    else match Subscript(doc, path[0])
      case None => None
      case Some(v) => Lookup(v, path[1..])
  }

  /**
   * A chained subscript is its two halves one after the other:
   * `doc[a][b]` fails when `doc[a]` does, and is `v[b]` when `doc[a]` is `v`.
   * A law of the model in its own right; no proof here depends on it.
   */
  lemma {:induction false} LookupConcat(doc: Json, p: Path, q: Path)
    ensures Lookup(doc, p + q) == (match Lookup(doc, p)
                                   case None => None
                                   case Some(v) => Lookup(v, q))
    decreases |p|
  {
    if p == [] {
      assert p + q == q;
    } else {
      assert (p + q)[0] == p[0];
      assert (p + q)[1..] == p[1..] + q;
      match Subscript(doc, p[0])
      case None =>
      case Some(v) => LookupConcat(v, p[1..], q);
    }
  }
}
