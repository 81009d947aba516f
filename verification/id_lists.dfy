/**
 * The three list transitions the client pages apply to their state lists,
 * each keyed by an id read off the element:
 *   `list.map(x => key(x) === k ? f(x) : x)`,
 *   `list.filter(x => key(x) !== k)`,
 *   `[...list, x]` (plain sequence append, written inline by the callers).
 * Ids are not unique in general (they come from the clock), so every
 * statement is about all the elements that carry the id.
 */
module IdLists {

  /** `list.map(x => key(x) === k ? f(x) : x)` */
  function MapWhere<T, K(==)>(s: seq<T>, key: T -> K, k: K, f: T -> T): (r: seq<T>)
    ensures |r| == |s|
    ensures forall i :: 0 <= i < |s| ==> r[i] == if key(s[i]) == k then f(s[i]) else s[i]
  {
    if s == [] then []
    else [if key(s[0]) == k then f(s[0]) else s[0]] + MapWhere(s[1..], key, k, f)
  }

  /** `list.filter(x => key(x) !== k)` */
  function RemoveWhere<T, K(==)>(s: seq<T>, key: T -> K, k: K): (r: seq<T>)
    ensures |r| <= |s|
    ensures forall i :: 0 <= i < |r| ==> r[i] in s && key(r[i]) != k
    ensures forall i :: 0 <= i < |s| && key(s[i]) != k ==> s[i] in r
  {
    if s == [] then []
    else (if key(s[0]) == k then [] else [s[0]]) + RemoveWhere(s[1..], key, k)
  }

  /** How many elements carry the id `k`. */
  function CountKey<T, K(==)>(s: seq<T>, key: T -> K, k: K): nat
  {
    if s == [] then 0 else (if key(s[0]) == k then 1 else 0) + CountKey(s[1..], key, k)
  }

  /** Updating an id nobody carries changes nothing. */
  lemma MapWhereAbsent<T, K>(s: seq<T>, key: T -> K, k: K, f: T -> T)
    requires forall i :: 0 <= i < |s| ==> key(s[i]) != k
    ensures MapWhere(s, key, k, f) == s
  {
  }

  /** The filter distributes over concatenation: it keeps the relative order of what it keeps. */
  lemma {:induction false} RemoveWhereConcat<T, K>(a: seq<T>, b: seq<T>, key: T -> K, k: K)
    ensures RemoveWhere(a + b, key, k) == RemoveWhere(a, key, k) + RemoveWhere(b, key, k)
  {
    if a == [] {
      assert a + b == b;
    } else {
      assert (a + b)[1..] == a[1..] + b;
      RemoveWhereConcat(a[1..], b, key, k);
    }
  }

  /** Exactly the elements carrying the id disappear. */
  lemma {:induction false} RemoveWhereCount<T, K>(s: seq<T>, key: T -> K, k: K)
    ensures |RemoveWhere(s, key, k)| == |s| - CountKey(s, key, k)
  {
    if s != [] {
      RemoveWhereCount(s[1..], key, k);
    }
  }

  /** Removing an id nobody carries leaves the list as it was. */
  lemma {:induction false} RemoveWhereAbsent<T, K>(s: seq<T>, key: T -> K, k: K)
    requires forall i :: 0 <= i < |s| ==> key(s[i]) != k
    ensures RemoveWhere(s, key, k) == s
  {
    if s != [] {
      assert s == [s[0]] + s[1..];
      RemoveWhereAbsent(s[1..], key, k);
    }
  }

  /** Removing the same id twice is the same as removing it once. */
  lemma RemoveWhereIdempotent<T, K>(s: seq<T>, key: T -> K, k: K)
    ensures RemoveWhere(RemoveWhere(s, key, k), key, k) == RemoveWhere(s, key, k)
  {
    var r := RemoveWhere(s, key, k);
    forall i | 0 <= i < |r| ensures key(r[i]) != k {
      assert r[i] in r;
    }
    RemoveWhereAbsent(r, key, k);
  }

  /**
   * Removing an id from a list that just had one element appended: the
   * element stays (at the end) exactly when it does not carry the id.
   */
  lemma RemoveWhereAppend<T, K>(s: seq<T>, x: T, key: T -> K, k: K)
    ensures RemoveWhere(s + [x], key, k)
         == RemoveWhere(s, key, k) + (if key(x) == k then [] else [x])
  {
    RemoveWhereConcat(s, [x], key, k);
    assert [x][1..] == [];
  }
}
