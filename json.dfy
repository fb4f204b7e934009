/** JSON values as the model sees them. Objects are finite maps, so the
    built-in structural equality `==` is insensitive to key order, as
    structural deep equality (lodash `isEqual`) is. */
module Json {
  import opened Base

  datatype Json =
    | JNull                          // also stands for `undefined`
    | JBool(b: bool)
    | JNum(n: real)
    | JStr(s: string)
    | JArr(elems: seq<Json>)
    | JObj(fields: map<string, Json>)

  /** The empty object `{}`. */
  const EmptyObject: Json := JObj(map[])

  /** JavaScript falsiness of a value (`NaN` is not representable). */
  predicate Falsy(j: Json) {
    j == JNull || j == JBool(false) || j == JNum(0.0) || j == JStr("")
  }

  /** JavaScript `a || b`: `a` unless it is falsy. */
  function Or(a: Json, b: Json): (r: Json)
    ensures !Falsy(a) ==> r == a
    ensures Falsy(a) ==> r == b
    ensures !Falsy(b) ==> !Falsy(r)
  {
    if Falsy(a) then b else a
  }

  /** A step into a JSON value: an object key or an array index. */
  datatype Step = Key(key: string) | Index(index: nat)

  /** The node reached by following `path` from `j`, if there is one. */
  function At(j: Json, path: seq<Step>): (r: Option<Json>)
    ensures path == [] ==> r == Some(j)
    decreases |path|
  {
    if path == [] then Some(j)
    else
      match path[0]
      case Key(k) =>
        if j.JObj? && k in j.fields then At(j.fields[k], path[1..]) else None
      case Index(i) =>
        if j.JArr? && i < |j.elems| then At(j.elems[i], path[1..]) else None
  }

  /** Following a concatenated path is following its parts in turn. */
  lemma {:induction false} AtConcat(j: Json, p: seq<Step>, q: seq<Step>)
    requires At(j, p).Some?
    ensures At(j, p + q) == At(At(j, p).value, q)
    decreases |p|
  {
    if p != [] {
      assert (p + q)[1..] == p[1..] + q;
      match p[0]
      case Key(k) => AtConcat(j.fields[k], p[1..], q);
      case Index(i) => AtConcat(j.elems[i], p[1..], q);
    } else {
      assert p + q == q;
    }
  }
}
