/** The document store's queries, written as functions over a container's
    documents: the first document matching a condition (a point read, or
    `resources[0]` of a query), and a `WHERE` filter. */
module Query {
  import opened Wrappers

  /** Index of the first document satisfying `p`, or `|s|` when none does. */
  function IndexWhere<T>(s: seq<T>, p: T -> bool): (i: nat)
    ensures i <= |s|
    ensures i < |s| ==> p(s[i])
    ensures forall j :: 0 <= j < i ==> !p(s[j])
  {
    if s == [] then 0
    else if p(s[0]) then 0
    else 1 + IndexWhere(s[1..], p)
  }

  /** The first document satisfying `p`, or None when there is none. */
  function First<T>(s: seq<T>, p: T -> bool): (r: Option<T>)
    ensures r.Some? <==> exists i :: 0 <= i < |s| && p(s[i])
    ensures r.Some? ==> r.value in s && p(r.value)
    ensures r.Some? ==> r.value == s[IndexWhere(s, p)]
  {
    var i := IndexWhere(s, p);
    if i < |s| then Some(s[i]) else None
  }

  /** The documents satisfying `p`, in store order. */
  function Filter<T(!new)>(s: seq<T>, p: T -> bool): (r: seq<T>)
    ensures |r| <= |s|
    ensures forall x :: x in r <==> x in s && p(x)
    ensures multiset(r) <= multiset(s)
  {
    if s == [] then []
    else
      assert s == [s[0]] + s[1..];
      if p(s[0]) then [s[0]] + Filter(s[1..], p) else Filter(s[1..], p)
  }

  /** Filtering a concatenation filters each part. */
  lemma {:induction false} FilterAppend<T(!new)>(a: seq<T>, b: seq<T>, p: T -> bool)
    ensures Filter(a + b, p) == Filter(a, p) + Filter(b, p)
  {
    if a == [] {
      assert a + b == b;
    } else {
      assert (a + b)[1..] == a[1..] + b;
      FilterAppend(a[1..], b, p);
    }
  }

  /** A filter whose condition is implied by a second one keeps at least what the second keeps. */
  lemma {:induction false} FilterWeaker<T(!new)>(s: seq<T>, p: T -> bool, q: T -> bool)
    requires forall x :: q(x) ==> p(x)
    ensures |Filter(s, q)| <= |Filter(s, p)|
  {
    if s != [] {
      FilterWeaker(s[1..], p, q);
    }
  }

  /** Documents of a container are identified by a key: (id, partition key value). */
  ghost predicate UniqueKeys<T, K>(s: seq<T>, key: T -> K)
  {
    forall i, j :: 0 <= i < j < |s| ==> key(s[i]) != key(s[j])
  }

  /** The condition "this document has key k". */
  function HasKey<T, K(==)>(key: T -> K, k: K): T -> bool
  {
    x => key(x) == k
  }

  /** A point read: the document with key `k`; a missing document, like a failed read, is None. */
  function Lookup<T, K(==)>(s: seq<T>, key: T -> K, k: K): (r: Option<T>)
    ensures r.Some? <==> exists i :: 0 <= i < |s| && key(s[i]) == k
    ensures r.Some? ==> r.value in s && key(r.value) == k
  {
    First(s, HasKey(key, k))
  }

  /** An upsert: the document with the same key is replaced in place, or the document is appended. */
  function Upsert<T, K(==)>(s: seq<T>, key: T -> K, x: T): (r: seq<T>)
  {
    var i := IndexWhere(s, HasKey(key, key(x)));
    if i < |s| then s[i := x] else s + [x]
  }

  /** After an upsert, a point read of the document's key returns the document. */
  lemma LookupUpsertSame<T, K>(s: seq<T>, key: T -> K, x: T)
    ensures Lookup(Upsert(s, key, x), key, key(x)) == Some(x)
  {
    var p := HasKey(key, key(x));
    var i := IndexWhere(s, p);
    var t := Upsert(s, key, x);
    var i' := IndexWhere(t, p);
    assert p(t[i]);
    assert forall j :: 0 <= j < i ==> t[j] == s[j];
  }

  /** An upsert leaves the point reads of every other key unchanged. */
  lemma LookupUpsertOther<T, K>(s: seq<T>, key: T -> K, x: T, k: K)
    requires k != key(x)
    ensures Lookup(Upsert(s, key, x), key, k) == Lookup(s, key, k)
  {
    var p := HasKey(key, k);
    var i := IndexWhere(s, HasKey(key, key(x)));
    var t := Upsert(s, key, x);
    assert forall j :: 0 <= j < |t| ==> (p(t[j]) <==> j < |s| && p(s[j]));
    var a, b := IndexWhere(s, p), IndexWhere(t, p);
  }

  /** Upserts keep keys unique, and an upsert of a new key appends. */
  lemma UpsertKeepsUniqueKeys<T, K>(s: seq<T>, key: T -> K, x: T)
    requires UniqueKeys(s, key)
    ensures UniqueKeys(Upsert(s, key, x), key)
    ensures Lookup(s, key, key(x)).None? ==> Upsert(s, key, x) == s + [x]
    ensures |Upsert(s, key, x)| == |s| + (if Lookup(s, key, key(x)).None? then 1 else 0)
  {
    var i := IndexWhere(s, HasKey(key, key(x)));
    if i == |s| {
      assert forall j :: 0 <= j < |s| ==> key(s[j]) != key(x);
    }
  }

  /** With unique keys, a point read finds the one stored document with that key. */
  lemma LookupFindsMember<T, K>(s: seq<T>, key: T -> K, x: T)
    requires UniqueKeys(s, key) && x in s
    ensures Lookup(s, key, key(x)) == Some(x)
  {
    var r := Lookup(s, key, key(x));
    var i :| 0 <= i < |s| && s[i] == x;
    var j :| 0 <= j < |s| && s[j] == r.value;
    assert i == j;
  }

  /** Replacing the document just appended under a new key replaces that last document. */
  lemma UpsertAfterAppend<T, K>(s: seq<T>, key: T -> K, x: T, y: T)
    requires Lookup(s, key, key(x)).None? && key(y) == key(x)
    ensures Upsert(s + [x], key, y) == s + [y]
  {
    var t := s + [x];
    assert forall j :: 0 <= j < |s| ==> key(t[j]) != key(x);
    assert HasKey(key, key(y))(t[|s|]);
  }
}
