/**
 * The two list searches the services perform through LINQ: `FirstOrDefault`/`First`
 * with an equality on an entity's key, and `RemoveAll`/`Where` with the negated
 * equality. `key` is the field compared (a named function such as `ProductKey`).
 */
module Lookup {

  import opened Wrappers

  /** The position of the first element whose key is `id`, or None when there is none. */
  function FirstIndex<T, K(==)>(s: seq<T>, key: T -> K, id: K): (r: Option<nat>)
    ensures r.Some? ==> r.value < |s| && key(s[r.value]) == id
    ensures r.Some? ==> forall j :: 0 <= j < r.value ==> key(s[j]) != id
    ensures r.None? <==> forall j :: 0 <= j < |s| ==> key(s[j]) != id
  {
    if |s| == 0 then None
    else if key(s[0]) == id then Some(0)
    else
      match FirstIndex(s[1..], key, id)
      case None => None
      case Some(k) => Some(k + 1)
  }

  /** Two lists with the same keys at the same positions answer every search alike. */
  lemma {:induction false} FirstIndexSameKeys<T, K>(s: seq<T>, t: seq<T>, key: T -> K, id: K)
    requires |s| == |t|
    requires forall j :: 0 <= j < |s| ==> key(s[j]) == key(t[j])
    ensures FirstIndex(s, key, id) == FirstIndex(t, key, id)
  {
    if |s| > 0 && key(s[0]) != id {
      FirstIndexSameKeys(s[1..], t[1..], key, id);
    }
  }

  /** True when no two elements share a key. */
  predicate DistinctKeys<T, K(==)>(s: seq<T>, key: T -> K)
  {
    forall i, j :: 0 <= i < j < |s| ==> key(s[i]) != key(s[j])
  }

  /** The elements whose key is not `id`, in their original order. */
  function RemoveAll<T(==,!new), K(==)>(s: seq<T>, key: T -> K, id: K): (r: seq<T>)
    ensures forall j :: 0 <= j < |r| ==> key(r[j]) != id
    ensures |r| <= |s|
    ensures |r| == |s| <==> FirstIndex(s, key, id).None?
  {
    if |s| == 0 then []
    else
      var rest := RemoveAll(s[1..], key, id);
      assert s == [s[0]] + s[1..];
      if key(s[0]) == id then rest else [s[0]] + rest
  }

  /** The survivors are exactly the elements without the key, each as often as before. */
  lemma {:induction false} RemoveAllContents<T(!new), K>(s: seq<T>, key: T -> K, id: K)
    ensures forall x :: multiset(RemoveAll(s, key, id))[x] == if key(x) == id then 0 else multiset(s)[x]
  {
    if |s| > 0 {
      RemoveAllContents(s[1..], key, id);
      assert s == [s[0]] + s[1..];
    }
  }

  /** Removal works piecewise, so the survivors keep their relative order. */
  lemma {:induction false} RemoveAllAppend<T(!new), K>(s: seq<T>, t: seq<T>, key: T -> K, id: K)
    ensures RemoveAll(s + t, key, id) == RemoveAll(s, key, id) + RemoveAll(t, key, id)
  {
    if |s| > 0 {
      assert (s + t)[1..] == s[1..] + t;
      RemoveAllAppend(s[1..], t, key, id);
    } else {
      assert s + t == t;
    }
  }

  /** Removing keeps keys distinct. */
  lemma {:induction false} RemoveAllKeepsDistinct<T(!new), K>(s: seq<T>, key: T -> K, id: K)
    requires DistinctKeys(s, key)
    ensures DistinctKeys(RemoveAll(s, key, id), key)
  {
    if |s| > 0 {
      RemoveAllKeepsDistinct(s[1..], key, id);
      RemoveAllContents(s[1..], key, id);
      var rest := RemoveAll(s[1..], key, id);
      if key(s[0]) != id {
        forall j | 0 <= j < |rest| ensures key(rest[j]) != key(s[0]) {
          assert rest[j] in multiset(rest);
          assert rest[j] in multiset(s[1..]);
          var i :| 0 <= i < |s[1..]| && s[1..][i] == rest[j];
          assert s[i + 1] == rest[j];
        }
      }
    }
  }

  /** When no element has the key, removal returns the list itself. */
  lemma {:induction false} RemoveAllNothing<T(!new), K>(s: seq<T>, key: T -> K, id: K)
    requires FirstIndex(s, key, id).None?
    ensures RemoveAll(s, key, id) == s
  {
    if |s| > 0 {
      assert FirstIndex(s[1..], key, id).None?;
      RemoveAllNothing(s[1..], key, id);
      assert s == [s[0]] + s[1..];
    }
  }
}
