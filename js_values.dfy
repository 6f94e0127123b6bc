/**
 * The JavaScript values that reach the decorators and the request bodies,
 * and JavaScript truthiness over them.
 */
module JsValues {

  /** Numbers are modelled as integers, so NaN (also falsey) does not arise. */
  datatype JsValue = Undefined | Null | Bool(b: bool) | Num(n: int) | Str(s: string)

  /** JavaScript's truthiness: `undefined`, `null`, `false`, `0` and `''` are falsey. */
  predicate Truthy(v: JsValue)
  {
    match v
    case Undefined => false
    case Null => false
    case Bool(b) => b
    case Num(n) => n != 0
    case Str(s) => s != ""
  }

  /** The truthy values of `vs`, in their original order. */
  function Compact(vs: seq<JsValue>): (r: seq<JsValue>)
    ensures |r| <= |vs|
    ensures forall i :: 0 <= i < |r| ==> Truthy(r[i])
  {
    if vs == [] then []
    else if Truthy(vs[0]) then [vs[0]] + Compact(vs[1..])
    else Compact(vs[1..])
  }

  /** Compact keeps exactly the truthy members of its input. */
  lemma {:induction false} CompactMembers(vs: seq<JsValue>)
    ensures forall v :: v in Compact(vs) <==> v in vs && Truthy(v)
  {
    if vs != [] {
      CompactMembers(vs[1..]);
      assert vs == [vs[0]] + vs[1..];
    }
  }

  /** Compact works element by element, so it keeps the order of what it keeps. */
  lemma {:induction false} CompactAppend(a: seq<JsValue>, b: seq<JsValue>)
    ensures Compact(a + b) == Compact(a) + Compact(b)
  {
    if a == [] {
      assert a + b == b;
    } else {
      assert (a + b)[0] == a[0];
      assert (a + b)[1..] == a[1..] + b;
      CompactAppend(a[1..], b);
    }
  }

  /** A truthy value is kept as is; a falsey one disappears. */
  lemma CompactSingle(v: JsValue)
    ensures Compact([v]) == if Truthy(v) then [v] else []
  {
    assert [v][1..] == [];
  }

  /** Nothing survives from a list of falsey values, and everything from a list of truthy ones. */
  lemma {:induction false} CompactAll(vs: seq<JsValue>)
    ensures (forall i :: 0 <= i < |vs| ==> Truthy(vs[i])) ==> Compact(vs) == vs
    ensures (forall i :: 0 <= i < |vs| ==> !Truthy(vs[i])) ==> Compact(vs) == []
  {
    if vs != [] {
      CompactAll(vs[1..]);
      assert forall i :: 1 <= i < |vs| ==> vs[1..][i - 1] == vs[i];
    }
  }
}
