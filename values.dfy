/**
  The JavaScript values that the document store holds, documents as maps
  from field name to value, JavaScript truthiness and `||`, and the
  field-update semantics of the store's `updateDoc` (plain field writes and
  `arrayUnion`).
 */
module Values {

  datatype Option<T> = None | Some(value: T)

  /** A stored field value. `Null` also stands for `undefined`. */
  datatype Value =
    | Null
    | Bool(b: bool)
    | Num(n: int)
    | Str(s: string)
    | Time(t: nat)
    | Arr(items: seq<Value>)
    | Obj(fields: map<string, Value>)

  /** A document: its fields by name. Object spread `{...a, ...b}` is `a + b`. */
  type Doc = map<string, Value>

  /** JavaScript truthiness. */
  predicate Truthy(v: Value) {
    match v
    case Null => false
    case Bool(b) => b
    case Num(n) => n != 0
    case Str(s) => s != ""
    case _ => true
  }

  /** `a || b`: the left operand when it is truthy, else the right one. */
  function Or(a: Value, b: Value): (r: Value)
    ensures Truthy(a) ==> r == a
    ensures !Truthy(a) ==> r == b
    ensures Truthy(r) <==> Truthy(a) || Truthy(b)
  {
    if Truthy(a) then a else b
  }

  /** The first truthy value of `vs`, or `last` when there is none. */
  function FirstTruthy(vs: seq<Value>, last: Value): (r: Value)
    ensures r in vs || r == last
    ensures Truthy(last) ==> Truthy(r)
  {
    if vs == [] then last
    else if Truthy(vs[0]) then vs[0]
    else FirstTruthy(vs[1..], last)
  }

  /**
    `FirstTruthy` is truthy exactly when some candidate is; it is the
    earliest truthy candidate, and `last` when none is.
   */
  lemma {:induction false} FirstTruthyPicksFirst(vs: seq<Value>, last: Value)
    ensures Truthy(FirstTruthy(vs, last)) <==> Truthy(last) || exists i :: 0 <= i < |vs| && Truthy(vs[i])
    ensures forall i :: 0 <= i < |vs| && Truthy(vs[i]) && (forall j :: 0 <= j < i ==> !Truthy(vs[j])) ==>
              FirstTruthy(vs, last) == vs[i]
    ensures (forall i :: 0 <= i < |vs| ==> !Truthy(vs[i])) ==> FirstTruthy(vs, last) == last
  {
    if vs != [] {
      FirstTruthyPicksFirst(vs[1..], last);
      if !Truthy(vs[0]) {
        assert forall i :: 1 <= i < |vs| ==> vs[i] == vs[1..][i - 1];
      }
    }
  }

  /** `a || b` picks `a` when it is truthy, else `b`. */
  lemma OrFirst(a: Value, b: Value)
    ensures Or(a, b) == FirstTruthy([a], b)
  {
    assert [a][1..] == [];
  }

  /** `a || b || c` picks the first truthy of the three, else `c`. */
  lemma OrChain(a: Value, b: Value, c: Value)
    ensures Or(Or(a, b), c) == FirstTruthy([a, b], c)
  {
    assert [a, b][1..] == [b];
    assert FirstTruthy([b], c) == (if Truthy(b) then b else FirstTruthy([], c));
  }

  /** `a || b || c || d` picks the first truthy of the four, else `d`. */
  lemma OrChain4(a: Value, b: Value, c: Value, d: Value)
    ensures Or(Or(Or(a, b), c), d) == FirstTruthy([a, b, c], d)
  {
    assert [a, b, c][1..] == [b, c];
    OrChain(b, c, d);
  }

  /** `d.k`: the field's value, or `undefined` when the field is absent. */
  function Get(d: Doc, k: string): (v: Value)
    ensures k !in d ==> v == Null
    ensures k in d ==> v == d[k]
  {
    if k in d then d[k] else Null
  }

  /** `d.k || 0` for a numeric field. A field that is not a number reads as 0. */
  function NumOr0(d: Doc, k: string): (n: int)
    ensures k in d && d[k].Num? ==> n == d[k].n
    ensures !(k in d && d[k].Num?) ==> n == 0
  {
    match Get(d, k)
    case Num(x) => x
    case _ => 0
  }

  /**
    `{[key]: id, ...data}`: a document read back with its id added under
    `key`. The id is written first, so a stored field named `key` wins.
   */
  function WithKey(key: string, id: string, data: Doc): (r: Doc)
    ensures r.Keys == data.Keys + {key}
    ensures forall k :: k in data ==> r[k] == data[k]
    ensures key !in data ==> r[key] == Str(id)
  {
    map[key := Str(id)] + data
  }

  /** One field of an `updateDoc` call: a plain value, or `arrayUnion(item)`. */
  datatype Change = Put(v: Value) | Union(item: Value)

  /**
    `arrayUnion(item)` applied to a field's current value: the item is
    appended unless the array already holds it; a field that is not an array
    becomes the one-element array.
   */
  function ArrayUnion(current: Value, item: Value): (r: Value)
    ensures r.Arr? && item in r.items
    ensures current.Arr? ==> current.items <= r.items && |r.items| <= |current.items| + 1
    ensures current.Arr? && item in current.items ==> r == current
    ensures !current.Arr? ==> r == Arr([item])
  {
    match current
    case Arr(xs) => if item in xs then current else Arr(xs + [item])
    case _ => Arr([item])
  }

  function ApplyChange(current: Value, c: Change): Value {
    match c
    case Put(v) => v
    case Union(item) => ArrayUnion(current, item)
  }

  /**
    The document after `updateDoc(ref, patch)`: the patched fields take their
    new values, every other field is kept.
   */
  function Apply(d: Doc, patch: map<string, Change>): (r: Doc)
    ensures r.Keys == d.Keys + patch.Keys
    ensures forall k :: k in patch ==> r[k] == ApplyChange(Get(d, k), patch[k])
    ensures forall k :: k in d && k !in patch ==> r[k] == d[k]
  {
    map k | k in d.Keys + patch.Keys :: if k in patch then ApplyChange(Get(d, k), patch[k]) else d[k]
  }

  /** A patch made of plain field writes: `updateDoc(ref, data)`. */
  function Puts(data: Doc): (patch: map<string, Change>)
    ensures patch.Keys == data.Keys
    ensures forall k :: k in data ==> patch[k] == Put(data[k])
  {
    map k | k in data :: Put(data[k])
  }

  /** Writing plain fields is the same as spreading them over the document. */
  lemma ApplyPutsIsSpread(d: Doc, data: Doc)
    ensures Apply(d, Puts(data)) == d + data
  {
    var l, r := Apply(d, Puts(data)), d + data;
    assert l.Keys == r.Keys;
    forall k | k in l ensures l[k] == r[k] {
    }
  }
}
