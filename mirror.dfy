/** The Local Mirror Store's reconciliations: the screens patch their
    in-memory list after a gateway call instead of fetching it again.
    Appending is `[...list, rec]`, written `list + [rec]` where it is used. */
module Mirror {

  /** No two elements of `list` share a key. */
  predicate UniqueKeys<T>(list: seq<T>, key: T -> int)
  {
    forall a, b :: 0 <= a < b < |list| ==> key(list[a]) != key(list[b])
  }

  /** `list.filter(x => x.key !== k)`. */
  function Remove<T>(list: seq<T>, key: T -> int, k: int): (r: seq<T>)
    ensures |r| <= |list|
    ensures forall i :: 0 <= i < |r| ==> key(r[i]) != k
    ensures forall i :: 0 <= i < |list| && key(list[i]) != k ==> list[i] in r
    ensures multiset(r) <= multiset(list)
  {
    if list == [] then []
    else
      var rest := Remove(list[1..], key, k);
      assert list == [list[0]] + list[1..];
      assert forall i :: 1 <= i < |list| ==> list[i] == list[1..][i - 1];
      if key(list[0]) != k then [list[0]] + rest else rest
  }

  /** Filtering distributes over concatenation: the kept elements stay in
      their original relative order. */
  lemma {:induction false} RemoveConcat<T>(a: seq<T>, b: seq<T>, key: T -> int, k: int)
    ensures Remove(a + b, key, k) == Remove(a, key, k) + Remove(b, key, k)
  {
    if a != [] {
      assert (a + b)[1..] == a[1..] + b;
      RemoveConcat(a[1..], b, key, k);
    } else {
      assert a + b == b;
    }
  }

  /** Removing a key nobody carries leaves the list as it was. */
  lemma {:induction false} RemoveAbsent<T>(list: seq<T>, key: T -> int, k: int)
    requires forall i :: 0 <= i < |list| ==> key(list[i]) != k
    ensures Remove(list, key, k) == list
  {
    if list != [] {
      RemoveAbsent(list[1..], key, k);
    }
  }

  /** Removing twice is removing once. */
  lemma RemoveIdempotent<T>(list: seq<T>, key: T -> int, k: int)
    ensures Remove(Remove(list, key, k), key, k) == Remove(list, key, k)
  {
    RemoveAbsent(Remove(list, key, k), key, k);
  }

  /** In a list without duplicate keys, removing a key that is present takes
      out exactly one element: the one at `i`. */
  lemma {:induction false} RemoveUniqueKey<T>(list: seq<T>, key: T -> int, i: int)
    requires 0 <= i < |list| && UniqueKeys(list, key)
    ensures Remove(list, key, key(list[i])) == list[..i] + list[i + 1..]
  {
    var k := key(list[i]);
    var pre, post := list[..i], list[i + 1..];
    assert list == pre + ([list[i]] + post);
    assert forall j :: 0 <= j < |pre| ==> key(pre[j]) != k by {
      forall j | 0 <= j < |pre| ensures key(pre[j]) != k {
        assert pre[j] == list[j];
      }
    }
    assert forall j :: 0 <= j < |post| ==> key(post[j]) != k by {
      forall j | 0 <= j < |post| ensures key(post[j]) != k {
        assert post[j] == list[i + 1 + j];
      }
    }
    RemoveConcat(pre, [list[i]] + post, key, k);
    RemoveConcat([list[i]], post, key, k);
    RemoveAbsent(pre, key, k);
    RemoveAbsent(post, key, k);
    assert Remove([list[i]], key, k) == [];
  }

  /** Removing keeps the keys unique. */
  lemma {:induction false} RemoveKeepsUnique<T>(list: seq<T>, key: T -> int, k: int)
    requires UniqueKeys(list, key)
    ensures UniqueKeys(Remove(list, key, k), key)
  {
    if list != [] {
      RemoveKeepsUnique(list[1..], key, k);
      var rest := Remove(list[1..], key, k);
      assert forall i :: 0 <= i < |rest| ==> key(rest[i]) != key(list[0]) by {
        forall i | 0 <= i < |rest|
          ensures key(rest[i]) != key(list[0])
        {
          assert rest[i] in multiset(list[1..]);
          var j :| 0 <= j < |list[1..]| && list[1..][j] == rest[i];
          assert list[j + 1] == rest[i];
        }
      }
    }
  }

  /** `list.map(x => x.key === k ? patch(x) : x)`. */
  function Replace<T>(list: seq<T>, key: T -> int, k: int, patch: T -> T): (r: seq<T>)
    ensures |r| == |list|
    ensures forall i :: 0 <= i < |list| ==>
              r[i] == if key(list[i]) == k then patch(list[i]) else list[i]
  {
    if list == [] then []
    else [if key(list[0]) == k then patch(list[0]) else list[0]] + Replace(list[1..], key, k, patch)
  }

  /** Replacing with a patch that keeps the key keeps the keys unique. */
  lemma ReplaceKeepsUnique<T>(list: seq<T>, key: T -> int, k: int, patch: T -> T)
    requires UniqueKeys(list, key)
    requires forall i :: 0 <= i < |list| ==> key(patch(list[i])) == key(list[i])
    ensures UniqueKeys(Replace(list, key, k, patch), key)
  {
  }

  /** Appending a record with a fresh key keeps the keys unique. */
  lemma AppendKeepsUnique<T>(list: seq<T>, key: T -> int, x: T)
    requires UniqueKeys(list, key)
    requires forall i :: 0 <= i < |list| ==> key(list[i]) != key(x)
    ensures UniqueKeys(list + [x], key)
  {
  }
}
