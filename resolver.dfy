/** The Reference Resolver: the `find` that the activity and grade joins, the
    drop-downs and `handleEdit` use to turn a foreign key into the referenced
    row already held in memory. */
module Resolver {
  import opened Js

  /** Index `i` holds the first element of `list` whose key is `k`. */
  predicate IsFirstMatch<T>(list: seq<T>, key: T -> int, k: int, i: int)
  {
    0 <= i < |list| && key(list[i]) == k &&
    forall j :: 0 <= j < i ==> key(list[j]) != k
  }

  /** `list.find(x => x.key === k)`: the first element with that key, or
      `undefined` when there is none. */
  function Find<T>(list: seq<T>, key: T -> int, k: int): (r: Option<T>)
    ensures r.None? <==> forall i :: 0 <= i < |list| ==> key(list[i]) != k
    ensures r.Some? ==> exists i :: IsFirstMatch(list, key, k, i) && list[i] == r.value
  {
    if list == [] then None
    else if key(list[0]) == k then
      assert IsFirstMatch(list, key, k, 0);
      Some(list[0])
    else
      assert forall i :: IsFirstMatch(list[1..], key, k, i) ==> IsFirstMatch(list, key, k, i + 1);
      Find(list[1..], key, k)
  }

  /** Whatever the first match is, `find` returns exactly that element. */
  lemma FindIsFirstMatch<T>(list: seq<T>, key: T -> int, k: int, i: int)
    requires IsFirstMatch(list, key, k, i)
    ensures Find(list, key, k) == Some(list[i])
  {
  }

  /** In a list without duplicate keys, `find` returns the one element that
      carries the key. */
  lemma FindUniqueKey<T>(list: seq<T>, key: T -> int, i: int)
    requires 0 <= i < |list|
    requires forall a, b :: 0 <= a < b < |list| ==> key(list[a]) != key(list[b])
    ensures Find(list, key, key(list[i])) == Some(list[i])
  {
  }
}
