/** The array operations the list pages apply to their records, each keyed by
    a field: `filter` on a key (delete), `map` over the records with a given key
    (update) and `find`/`findIndex` (lookup). */
module Lists {
  import opened Wrappers

  /** `s.filter(x => key(x) !== k)`. */
  function RemoveKey<T(==), K(==)>(s: seq<T>, key: T -> K, k: K): (r: seq<T>)
    ensures |r| <= |s|
    ensures forall i :: 0 <= i < |r| ==> key(r[i]) != k
    ensures forall i :: 0 <= i < |r| ==> r[i] in s
    ensures forall i :: 0 <= i < |s| && key(s[i]) != k ==> s[i] in r
  {
    if s == [] then []
    else (if key(s[0]) == k then [] else [s[0]]) + RemoveKey(s[1..], key, k)
  }

  /** Filtering distributes over concatenation, so the kept records stay in
      their original order. */
  lemma {:induction false} RemoveKeyAppend<T, K>(a: seq<T>, b: seq<T>, key: T -> K, k: K)
    ensures RemoveKey(a + b, key, k) == RemoveKey(a, key, k) + RemoveKey(b, key, k)
  {
    if a == [] {
      assert a + b == b;
    } else {
      assert (a + b)[0] == a[0];
      assert (a + b)[1..] == a[1..] + b;
      RemoveKeyAppend(a[1..], b, key, k);
    }
  }

  /** A list with no record under the key is left exactly as it was. */
  lemma {:induction false} RemoveKeyAbsent<T, K>(s: seq<T>, key: T -> K, k: K)
    requires forall i :: 0 <= i < |s| ==> key(s[i]) != k
    ensures RemoveKey(s, key, k) == s
  {
    if s != [] {
      RemoveKeyAbsent(s[1..], key, k);
    }
  }

  /** Deleting twice under the same key is deleting once. */
  lemma RemoveKeyIdempotent<T, K>(s: seq<T>, key: T -> K, k: K)
    ensures RemoveKey(RemoveKey(s, key, k), key, k) == RemoveKey(s, key, k)
  {
    RemoveKeyAbsent(RemoveKey(s, key, k), key, k);
  }

  /** Deleting the one record with a key takes out exactly that record and
      leaves the others in their order. */
  lemma RemoveKeyUnique<T, K>(s: seq<T>, key: T -> K, i: nat)
    requires i < |s|
    requires forall j :: 0 <= j < |s| && j != i ==> key(s[j]) != key(s[i])
    ensures RemoveKey(s, key, key(s[i])) == s[..i] + s[i + 1..]
  {
    var k := key(s[i]);
    var before, after := s[..i], s[i + 1..];
    var rest := [s[i]] + after;
    assert s == before + rest;
    forall j | 0 <= j < |before| ensures key(before[j]) != k {
      assert before[j] == s[j];
    }
    forall j | 0 <= j < |after| ensures key(after[j]) != k {
      assert after[j] == s[i + 1 + j];
    }
    RemoveKeyAbsent(before, key, k);
    RemoveKeyAbsent(after, key, k);
    assert RemoveKey(rest, key, k) == after by {
      assert rest[0] == s[i] && rest[1..] == after;
      assert RemoveKey(rest, key, k) == [] + RemoveKey(after, key, k);
    }
    RemoveKeyAppend(before, rest, key, k);
  }

  /** `s.map(x => key(x) === k ? f(x) : x)`. */
  function UpdateKey<T, K(==)>(s: seq<T>, key: T -> K, k: K, f: T -> T): (r: seq<T>)
    ensures |r| == |s|
    ensures forall i :: 0 <= i < |s| ==> r[i] == if key(s[i]) == k then f(s[i]) else s[i]
  {
    if s == [] then []
    else [if key(s[0]) == k then f(s[0]) else s[0]] + UpdateKey(s[1..], key, k, f)
  }

  /** `s.findIndex(x => key(x) === k)`, with `None` for -1. */
  function FindIndex<T, K(==)>(s: seq<T>, key: T -> K, k: K): (r: Option<nat>)
    ensures r.Some? ==> r.value < |s| && key(s[r.value]) == k
    ensures r.Some? ==> forall i :: 0 <= i < r.value ==> key(s[i]) != k
    ensures r.None? ==> forall i :: 0 <= i < |s| ==> key(s[i]) != k
  {
    if s == [] then None
    else if key(s[0]) == k then Some(0)
    else match FindIndex(s[1..], key, k)
      case None => None
      case Some(i) => Some(i + 1)
  }

  /** `s.find(x => key(x) === k)`, with `None` for `undefined`. */
  function Find<T, K(==)>(s: seq<T>, key: T -> K, k: K): (r: Option<T>)
    ensures r.Some? <==> exists i :: 0 <= i < |s| && key(s[i]) == k
    ensures r.Some? ==>
      exists i :: 0 <= i < |s| && s[i] == r.value && key(s[i]) == k && forall j :: 0 <= j < i ==> key(s[j]) != k
  {
    match FindIndex(s, key, k)
    case None => None
    case Some(i) => Some(s[i])
  }

  /** When the key is unique in the list, lookup by the key of a listed record
      returns that record. */
  lemma FindUnique<T, K>(s: seq<T>, key: T -> K, i: nat)
    requires i < |s|
    requires forall j :: 0 <= j < |s| && j != i ==> key(s[j]) != key(s[i])
    ensures Find(s, key, key(s[i])) == Some(s[i])
  {
    var r := FindIndex(s, key, key(s[i]));
    assert r.Some? ==> r.value == i;
  }
}
