/** The check-then-act toggle that likes and subscriptions share: look a relation up by
    its composite key; if it is there delete it (`findOneAndDelete`), otherwise insert a
    new one (`save`). */
module Toggles {

  import opened Js
  import opened Tables

  /** One toggle: delete the first document with key `k` if there is one, otherwise
      append `added`, whose key is `k`. */
  function Toggle<T(!new), K(==)>(s: seq<T>, key: T -> K, k: K, added: T): (r: seq<T>)
    requires key(added) == k
    ensures !Has(s, key, k) ==> Has(r, key, k) && multiset(r) == multiset(s) + multiset{added}
    ensures Has(s, key, k) && Distinct(s, key) ==> !Has(r, key, k) && |r| == |s| - 1
    ensures forall y :: key(y) != k ==> multiset(r)[y] == multiset(s)[y]
    ensures Distinct(s, key) ==> Distinct(r, key)
  {
    match FindKey(s, key, k)
    case Some(i) =>
      RemoveKeepsDistinct(s, key, k, i);
      RemoveAt(s, i)
    case None =>
      assert (s + [added])[|s|] == added;
      AppendKeepsDistinct(s, key, added);
      s + [added]
  }

  lemma AppendKeepsDistinct<T(!new), K>(s: seq<T>, key: T -> K, added: T)
    requires forall x :: x in s ==> key(x) != key(added)
    ensures Distinct(s, key) ==> Distinct(s + [added], key)
  {
    if Distinct(s, key) {
      DistinctAppend(s, key, added);
    }
  }

  /** Toggling twice from "absent" gives back exactly the collection it started from. */
  lemma {:induction false} ToggleTwiceFromAbsent<T(!new), K>(s: seq<T>, key: T -> K, k: K, a: T, b: T)
    requires key(a) == k && key(b) == k
    requires !Has(s, key, k)
    ensures Toggle(Toggle(s, key, k, a), key, k, b) == s
  {
    var t := Toggle(s, key, k, a);
    assert t == s + [a];
    var i := FindKey(t, key, k);
    assert t[|s|] == a;
    assert i == Some(|s|) by {
      forall j | 0 <= j < |s| ensures key(t[j]) != k {
        assert t[j] in s;
      }
    }
    assert RemoveAt(t, |s|) == s;
  }

  /** Toggling twice, from either state, leaves the same composite keys present: the
      toggle is an involution on the set of keys. */
  lemma {:induction false} ToggleTwiceKeys<T(!new), K>(s: seq<T>, key: T -> K, k: K, a: T, b: T, k': K)
    requires key(a) == k && key(b) == k
    requires Distinct(s, key)
    ensures Has(Toggle(Toggle(s, key, k, a), key, k, b), key, k') <==> Has(s, key, k')
  {
    var t := Toggle(s, key, k, a);
    var u := Toggle(t, key, k, b);
    if k' != k {
      SameKeyPresence(s, t, key, k, k');
      SameKeyPresence(t, u, key, k, k');
    }
  }

  /** Two collections that agree on every document whose key is not `k` agree on the
      presence of every other key. */
  lemma SameKeyPresence<T(!new), K>(s: seq<T>, t: seq<T>, key: T -> K, k: K, k': K)
    requires k' != k
    requires forall y :: key(y) != k ==> multiset(t)[y] == multiset(s)[y]
    ensures Has(t, key, k') <==> Has(s, key, k')
  {
    if Has(s, key, k') {
      var i := FindKey(s, key, k').value;
      assert s[i] in multiset(s);
      assert s[i] in t;
    }
    if Has(t, key, k') {
      var i := FindKey(t, key, k').value;
      assert t[i] in multiset(t);
      assert t[i] in s;
    }
  }
}
