/**
  Removing records by id, `list.filter(x => x.id !== id)`, as both the contact
  list and the scheduled-call list do it. `idOf` reads a record's id.
 */
module IdLists {

  /** Every record of `s` whose id is not `id`, in their original order. */
  function WithoutId<T>(s: seq<T>, idOf: T -> string, id: string): (r: seq<T>)
    ensures |r| <= |s|
    ensures forall i :: 0 <= i < |r| ==> idOf(r[i]) != id
    ensures forall i :: 0 <= i < |r| ==> r[i] in s
    ensures forall i :: 0 <= i < |s| && idOf(s[i]) != id ==> s[i] in r
  {
    if s == [] then []
    else
      var rest := WithoutId(s[1..], idOf, id);
      assert s == [s[0]] + s[1..];
      if idOf(s[0]) == id then rest else [s[0]] + rest
  }

  /** No record carries `id`. */
  predicate Absent<T>(s: seq<T>, idOf: T -> string, id: string)
  {
    forall i :: 0 <= i < |s| ==> idOf(s[i]) != id
  }

  /** Removing an id nobody carries changes nothing. */
  lemma {:induction false} WithoutAbsentId<T>(s: seq<T>, idOf: T -> string, id: string)
    requires Absent(s, idOf, id)
    ensures WithoutId(s, idOf, id) == s
  {
    if s != [] {
      WithoutAbsentId(s[1..], idOf, id);
      assert s == [s[0]] + s[1..];
    }
  }

  /** Removing the same id twice is removing it once. */
  lemma WithoutIdIdempotent<T>(s: seq<T>, idOf: T -> string, id: string)
    ensures WithoutId(WithoutId(s, idOf, id), idOf, id) == WithoutId(s, idOf, id)
  {
    WithoutAbsentId(WithoutId(s, idOf, id), idOf, id);
  }

  /**
    Removal works piecewise on a concatenation, so what survives keeps its
    relative order.
   */
  lemma {:induction false} WithoutIdConcat<T>(a: seq<T>, b: seq<T>, idOf: T -> string, id: string)
    ensures WithoutId(a + b, idOf, id) == WithoutId(a, idOf, id) + WithoutId(b, idOf, id)
  {
    if a == [] {
      assert a + b == b;
    } else {
      var ab := a + b;
      assert ab[0] == a[0] && ab[1..] == a[1..] + b;
      WithoutIdConcat(a[1..], b, idOf, id);
    }
  }

  /** The number of records carrying `id`. */
  function CountId<T>(s: seq<T>, idOf: T -> string, id: string): nat
  {
    if s == [] then 0 else (if idOf(s[0]) == id then 1 else 0) + CountId(s[1..], idOf, id)
  }

  /** Exactly the records carrying `id` are removed. */
  lemma {:induction false} WithoutIdLength<T>(s: seq<T>, idOf: T -> string, id: string)
    ensures |WithoutId(s, idOf, id)| == |s| - CountId(s, idOf, id)
  {
    if s != [] {
      WithoutIdLength(s[1..], idOf, id);
    }
  }
}
