/** A collection as the database holds it: a sequence of documents in natural
    (insertion) order, and the queries the controllers run on one. */
module Tables {

  import opened Js

  /** `findOne(filter)`: the position of the first document that matches. */
  function IndexWhere<T>(s: seq<T>, p: T -> bool): (r: Option<nat>)
    ensures r.Some? ==> r.value < |s| && p(s[r.value])
    ensures r.Some? ==> forall j :: 0 <= j < r.value ==> !p(s[j])
    ensures r.None? ==> forall j :: 0 <= j < |s| ==> !p(s[j])
  {
    if s == [] then None
    else if p(s[0]) then Some(0)
    else
      match IndexWhere(s[1..], p)
      case None => None
      case Some(k) => Some(k + 1)
  }

  /** `findOne({key: k})`, `findById(k)` when the key is `_id`. */
  function FindKey<T(!new), K(==)>(s: seq<T>, key: T -> K, k: K): (r: Option<nat>)
    ensures r.Some? ==> r.value < |s| && key(s[r.value]) == k
    ensures r.Some? ==> forall j :: 0 <= j < r.value ==> key(s[j]) != k
    ensures r.None? <==> forall x :: x in s ==> key(x) != k
  {
    IndexWhere(s, (x: T) => key(x) == k)
  }

  /** Some document has key `k`. */
  predicate Has<T(!new), K(==)>(s: seq<T>, key: T -> K, k: K)
  {
    FindKey(s, key, k).Some?
  }

  /** `findById(k)` returning the document itself, or nothing. */
  function Get<T(!new), K(==)>(s: seq<T>, key: T -> K, k: K): (r: Option<T>)
    ensures r.Some? ==> r.value in s && key(r.value) == k
    ensures r.None? <==> !Has(s, key, k)
  {
    match FindKey(s, key, k)
    case Some(i) => Some(s[i])
    case None => None
  }

  /** `find(filter)`: every matching document, in collection order. */
  function Filter<T(!new)>(s: seq<T>, p: T -> bool): (r: seq<T>)
    ensures |r| <= |s|
    ensures forall x :: x in r <==> x in s && p(x)
  {
    if s == [] then []
    else
      assert s == [s[0]] + s[1..];
      (if p(s[0]) then [s[0]] else []) + Filter(s[1..], p)
  }

  /** Filtering a collection that grew by one document filters the old part and then
      that document. */
  lemma {:induction false} FilterAppend<T(!new)>(s: seq<T>, x: T, p: T -> bool)
    ensures Filter(s + [x], p) == Filter(s, p) + (if p(x) then [x] else [])
  {
    var tail := if p(x) then [x] else [];
    if s == [] {
      assert s + [x] == [x];
      assert Filter([x], p) == tail + Filter([], p);
    } else {
      var head := if p(s[0]) then [s[0]] else [];
      var t := s + [x];
      assert t[0] == s[0];
      assert t[1..] == s[1..] + [x];
      assert Filter(t, p) == head + Filter(s[1..] + [x], p);
      FilterAppend(s[1..], x, p);
      assert Filter(s, p) == head + Filter(s[1..], p);
    }
  }

  /** `docs.map(f)`. */
  function MapSeq<T, U>(s: seq<T>, f: T -> U): (r: seq<U>)
    ensures |r| == |s|
    ensures forall i :: 0 <= i < |s| ==> r[i] == f(s[i])
  {
    seq(|s|, i requires 0 <= i < |s| => f(s[i]))
  }

  /** `countDocuments(filter)`. */
  function Count<T(!new)>(s: seq<T>, p: T -> bool): (n: nat)
    ensures n == |Filter(s, p)|
    ensures n <= |s|
    ensures n == 0 <==> forall x :: x in s ==> !p(x)
  {
    if s == [] then 0
    else (if p(s[0]) then 1 else 0) + Count(s[1..], p)
  }

  /** The collection with the document at position `i` deleted. */
  function RemoveAt<T>(s: seq<T>, i: nat): (r: seq<T>)
    requires i < |s|
    ensures |r| == |s| - 1
    ensures forall j :: 0 <= j < i ==> r[j] == s[j]
    ensures forall j :: i <= j < |r| ==> r[j] == s[j + 1]
    ensures multiset(r) == multiset(s) - multiset{s[i]}
  {
    assert s == s[..i] + [s[i]] + s[i + 1..];
    s[..i] + s[i + 1..]
  }

  /** `findByIdAndDelete(k)`: delete the first document with key `k`, if any. */
  function DeleteKey<T(!new), K(==)>(s: seq<T>, key: T -> K, k: K): (r: seq<T>)
    ensures !Has(s, key, k) ==> r == s
    ensures Has(s, key, k) ==> |r| == |s| - 1 && multiset(r) == multiset(s) - multiset{Get(s, key, k).value}
    ensures Distinct(s, key) ==> Distinct(r, key) && !Has(r, key, k)
  {
    match FindKey(s, key, k)
    case Some(i) =>
      RemoveKeepsDistinct(s, key, k, i);
      RemoveAt(s, i)
    case None => s
  }

  /** Deleting the document just appended, under a key no other document had, gives
      back the collection as it was: creation and deletion by id are inverse. */
  lemma DeleteAfterAppend<T(!new), K>(s: seq<T>, key: T -> K, x: T)
    requires FreshKey(s, key, key(x))
    ensures DeleteKey(s + [x], key, key(x)) == s
  {
    var t := s + [x];
    assert t[|s|] == x;
    assert FindKey(t, key, key(x)) == Some(|s|) by {
      forall j | 0 <= j < |s| ensures key(t[j]) != key(x) {
        assert t[j] in s;
      }
    }
    assert RemoveAt(t, |s|) == s;
  }

  /** No two documents share a key. */
  ghost predicate Distinct<T, K>(s: seq<T>, key: T -> K)
  {
    forall i, j :: 0 <= i < j < |s| ==> key(s[i]) != key(s[j])
  }

  /** No document has key `k`. */
  ghost predicate FreshKey<T, K>(s: seq<T>, key: T -> K, k: K)
  {
    forall x :: x in s ==> key(x) != k
  }

  lemma DistinctAppend<T, K>(s: seq<T>, key: T -> K, x: T)
    requires Distinct(s, key) && FreshKey(s, key, key(x))
    ensures Distinct(s + [x], key)
  {
    var t := s + [x];
    forall i, j | 0 <= i < j < |t| ensures key(t[i]) != key(t[j]) {
      if j == |s| {
        assert t[i] in s;
      }
    }
  }

  lemma DistinctRemoveAt<T, K>(s: seq<T>, key: T -> K, i: nat)
    requires i < |s| && Distinct(s, key)
    ensures Distinct(RemoveAt(s, i), key)
  {
    var t := RemoveAt(s, i);
    forall a, b | 0 <= a < b < |t| ensures key(t[a]) != key(t[b]) {
      var a' := if a < i then a else a + 1;
      var b' := if b < i then b else b + 1;
      assert t[a] == s[a'] && t[b] == s[b'];
    }
  }

  lemma DistinctUpdate<T, K>(s: seq<T>, key: T -> K, i: nat, x: T)
    requires i < |s| && Distinct(s, key) && key(x) == key(s[i])
    ensures Distinct(s[i := x], key)
  {
  }

  lemma RemoveKeepsDistinct<T(!new), K>(s: seq<T>, key: T -> K, k: K, i: nat)
    requires i < |s| && key(s[i]) == k
    ensures Distinct(s, key) ==> Distinct(RemoveAt(s, i), key)
    ensures Distinct(s, key) ==> forall x :: x in RemoveAt(s, i) ==> key(x) != k
  {
    if Distinct(s, key) {
      var r := RemoveAt(s, i);
      DistinctRemoveAt(s, key, i);
      forall x | x in r ensures key(x) != k {
        var j :| 0 <= j < |r| && r[j] == x;
        assert r[j] == s[if j < i then j else j + 1];
      }
    }
  }
}
