/**
 * The nested configuration document that all three scripts read with `json.load`:
 * objects keyed by strings whose leaves are strings, integers or lists.  Dotted
 * keys such as `feishu.app_id` name a path through the objects.
 */
module ConfigTree {
  import opened Wrappers

  datatype Json = Str(s: string) | Int(n: int) | Arr(items: seq<Json>) | Obj(fields: map<string, Json>)

  /** What opening and `json.load`-ing a configuration file gave. */
  datatype ConfigFile = Absent | Unparsable | Document(doc: Json)

  /** The process environment: variable names to values. */
  type Env = map<string, string>

  /** `{}` */
  const Empty: Json := Obj(map[])

  /** Python truthiness: `''`, `0`, `[]` and `{}` are false. */
  predicate Truthy(v: Json) {
    match v
    case Str(s) => s != ""
    case Int(n) => n != 0
    case Arr(items) => items != []
    case Obj(fields) => fields != map[]
  }

  /**
   * Descend along `keys`, as the lookup loops do with
   * `if isinstance(obj, dict) and k in obj: obj = obj[k]`:
   * None when a key is missing or a non-object is met on the way.
   */
  function Walk(v: Json, keys: seq<string>): Option<Json>
  {
    if keys == [] then Some(v)
    else if v.Obj? && keys[0] in v.fields then Walk(v.fields[keys[0]], keys[1..])
    else None
  }

  /** The two paths part ways: at some position both have a key and the keys differ. */
  predicate Diverge(a: seq<string>, b: seq<string>) {
    a != [] && b != [] && (a[0] != b[0] || Diverge(a[1..], b[1..]))
  }

  lemma {:induction false} DivergeSymmetric(a: seq<string>, b: seq<string>)
    requires Diverge(a, b)
    ensures Diverge(b, a)
  {
    if a[0] == b[0] {
      DivergeSymmetric(a[1..], b[1..]);
    }
  }

  /** Python raises a TypeError when it indexes or assigns into a non-dict. */
  datatype PathError = NotAnObject

  /** Every node that the path-creating assignment indexes into is an object. */
  predicate Writable(v: Json, keys: seq<string>)
    requires |keys| >= 1
  {
    v.Obj? && (|keys| > 1 && keys[0] in v.fields ==> Writable(v.fields[keys[0]], keys[1..]))
  }

  /** The objects that a path-creating assignment builds below a missing key. */
  function Nest(keys: seq<string>, x: Json): Json
  {
    if keys == [] then x else Obj(map[keys[0] := Nest(keys[1..], x)])
  }

  /**
   * The path-creating assignment of setup.py:
   * `for k in keys[:-1]: if k not in obj: obj[k] = {}; obj = obj[k]` then `obj[keys[-1]] = x`.
   * It fails exactly when it meets a non-object on the way.
   */
  function SetPath(v: Json, keys: seq<string>, x: Json): (r: Result<Json, PathError>)
    requires |keys| >= 1
    ensures r.Success? <==> Writable(v, keys)
    ensures r.Success? ==> r.value.Obj? && r.value.fields.Keys == v.fields.Keys + {keys[0]}
    decreases |keys|
  {
    if !v.Obj? then Failure(NotAnObject)
    else if |keys| == 1 then Success(Obj(v.fields[keys[0] := x]))
    else
      var child := if keys[0] in v.fields then v.fields[keys[0]] else Empty;
      match SetPath(child, keys[1..], x)
      case Success(c) => Success(Obj(v.fields[keys[0] := c]))
      case Failure(e) => Failure(e)
  }

  /** After a successful set, the path leads to the value that was set. */
  lemma {:induction false} SetThenWalk(v: Json, keys: seq<string>, x: Json)
    requires |keys| >= 1 && SetPath(v, keys, x).Success?
    ensures Walk(SetPath(v, keys, x).value, keys) == Some(x)
    decreases |keys|
  {
    if |keys| > 1 {
      var child := if keys[0] in v.fields then v.fields[keys[0]] else Empty;
      SetThenWalk(child, keys[1..], x);
    }
  }

  /** A set leaves every path that parts ways with the written one as it was. */
  lemma {:induction false} SetPathFrame(v: Json, keys: seq<string>, x: Json, p: seq<string>)
    requires |keys| >= 1 && SetPath(v, keys, x).Success?
    requires Diverge(keys, p)
    ensures Walk(SetPath(v, keys, x).value, p) == Walk(v, p)
    decreases |keys|
  {
    var w := SetPath(v, keys, x).value;
    if keys[0] == p[0] {
      var child := if keys[0] in v.fields then v.fields[keys[0]] else Empty;
      SetPathFrame(child, keys[1..], x, p[1..]);
      assert w.fields[p[0]] == SetPath(child, keys[1..], x).value;
    }
  }

  /** Below a missing key the set builds fresh objects that hold only the new path. */
  lemma {:induction false} SetPathCreates(v: Json, keys: seq<string>, x: Json)
    requires |keys| >= 1 && v.Obj? && keys[0] !in v.fields
    ensures SetPath(v, keys, x) == Success(Obj(v.fields[keys[0] := Nest(keys[1..], x)]))
    decreases |keys|
  {
    if |keys| > 1 {
      SetPathCreates(Empty, keys[1..], x);
    }
  }
}
