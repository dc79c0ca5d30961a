/** Values held by signals, wires and stores, and path navigation into a store's object graph. */
module Values {

  datatype Option<T> = None | Some(value: T)

  /** A JSON-like value. Arrays are nodes keyed by their decimal indices, as in JavaScript,
      so a store path is always a sequence of string keys. */
  datatype Value =
    | Undefined
    | Null
    | Bool(b: bool)
    | Num(n: int)
    | Str(s: string)
    | Node(fields: map<string, Value>)

  /** Navigation along a cursor path (the stand-in for `getValueUsingPath`): each key selects
      a field of a node; a missing key, or a key applied to a leaf, yields `Undefined`. */
  function Lookup(v: Value, path: seq<string>): Value
    decreases |path|
  {
    if path == [] then v
    else match v
      case Node(f) => if path[0] in f then Lookup(f[path[0]], path[1..]) else Undefined
      case _ => Undefined
  }

  /** Once navigation has fallen off the object graph it stays off. */
  lemma LookupUndefined(path: seq<string>)
    ensures Lookup(Undefined, path) == Undefined
  {
  }

  /** Navigating a concatenated path is navigating its two halves one after the other: a cursor
      extended by a key reads the child of what the shorter cursor reads. */
  lemma {:induction false} LookupAppend(v: Value, p: seq<string>, q: seq<string>)
    ensures Lookup(v, p + q) == Lookup(Lookup(v, p), q)
    decreases |p|
  {
    if p == [] {
      assert p + q == q;
    } else {
      assert (p + q)[0] == p[0];
      assert (p + q)[1..] == p[1..] + q;
      match v
      case Node(f) =>
        if p[0] in f {
          LookupAppend(f[p[0]], p[1..], q);
        } else {
          LookupUndefined(q);
        }
      case _ =>
        LookupUndefined(q);
    }
  }
}
