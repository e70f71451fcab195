/**
 * The two list edits both screens apply to their state: replace-by-id
 * (`list.map(p => p.id === id ? updated : p)`) and remove-by-id
 * (`list.filter(p => p.id !== id)`). Records are generic; `key` reads a
 * record's id.
 */
module IdLists {

  /** Every element whose id is `id` becomes `x`; the others stay where they are. */
  function ReplaceById<T(==)>(s: seq<T>, key: T -> string, id: string, x: T): (r: seq<T>)
    ensures |r| == |s|
    ensures forall i :: 0 <= i < |s| ==> r[i] == (if key(s[i]) == id then x else s[i])
    ensures forall y :: y in r ==> y == x || (y in s && key(y) != id)
    ensures (exists y :: y in s && key(y) == id) ==> x in r
  {
    if s == [] then []
    else [if key(s[0]) == id then x else s[0]] + ReplaceById(s[1..], key, id, x)
  }

  /** The elements whose id is not `id`, in their original order. */
  function RemoveById<T(==)>(s: seq<T>, key: T -> string, id: string): (r: seq<T>)
    ensures |r| <= |s|
    ensures forall y :: y in r ==> y in s && key(y) != id
    ensures forall y :: y in s && key(y) != id ==> y in r
  {
    if s == [] then []
    else (if key(s[0]) == id then [] else [s[0]]) + RemoveById(s[1..], key, id)
  }

  /** The elements whose id is `id`: what RemoveById drops. */
  function SelectById<T(==)>(s: seq<T>, key: T -> string, id: string): (r: seq<T>)
    ensures forall y :: y in r ==> y in s && key(y) == id
    ensures forall y :: y in s && key(y) == id ==> y in r
  {
    if s == [] then []
    else (if key(s[0]) == id then [s[0]] else []) + SelectById(s[1..], key, id)
  }

  /** Removing an id that no element carries changes nothing. */
  lemma {:induction false} RemoveAbsentId<T>(s: seq<T>, key: T -> string, id: string)
    requires forall i :: 0 <= i < |s| ==> key(s[i]) != id
    ensures RemoveById(s, key, id) == s
  {
    if s != [] {
      RemoveAbsentId(s[1..], key, id);
      assert [s[0]] + s[1..] == s;
    }
  }

  /** Removal works element by element, so it keeps the relative order of what remains. */
  lemma {:induction false} RemoveByIdAppend<T>(a: seq<T>, b: seq<T>, key: T -> string, id: string)
    ensures RemoveById(a + b, key, id) == RemoveById(a, key, id) + RemoveById(b, key, id)
  {
    if a == [] {
      assert a + b == b;
    } else {
      assert (a + b)[0] == a[0];
      assert (a + b)[1..] == a[1..] + b;
      RemoveByIdAppend(a[1..], b, key, id);
    }
  }

  /** Removal splits the list: the kept and the dropped elements together are all of it. */
  lemma {:induction false} RemoveSelectLength<T>(s: seq<T>, key: T -> string, id: string)
    ensures |RemoveById(s, key, id)| + |SelectById(s, key, id)| == |s|
  {
    if s != [] {
      RemoveSelectLength(s[1..], key, id);
    }
  }
}
