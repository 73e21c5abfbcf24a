/** Page windows: `.skip((page - 1) * limit).limit(limit)` on a query result. */
module Paging {

  import opened Js

  function Min(a: int, b: int): int
  {
    if a <= b then a else b
  }

  /** The `page` query parameter, 1 when absent. */
  function PageOrDefault(page: Option<nat>): (p: nat)
    ensures page.None? ==> p == 1
    ensures page.Some? ==> p == page.value
  {
    if page.Some? then page.value else 1
  }

  /** The `limit` query parameter, 10 when absent. */
  function LimitOrDefault(limit: Option<nat>): (l: nat)
    ensures limit.None? ==> l == 10
    ensures limit.Some? ==> l == limit.value
  {
    if limit.Some? then limit.value else 10
  }

  /** The skip a page asks for, `(page - 1) * limit`; negative for page 0. */
  function SkipOf(page: nat, limit: nat): (skip: int)
    ensures skip < 0 <==> page == 0 && limit > 0
    ensures page == 1 ==> skip == 0
  {
    (page - 1) * limit
  }

  /** The documents a query returns after skipping `skip` of them and keeping at most
      `limit`; as in MongoDB, a limit of 0 sets no limit. */
  function Window<T>(s: seq<T>, skip: nat, limit: nat): (r: seq<T>)
    ensures limit > 0 ==> |r| <= limit
    ensures skip + |r| <= |s| || r == []
    ensures forall i :: 0 <= i < |r| ==> skip + i < |s| && r[i] == s[skip + i]
    ensures skip + |r| == |s| || (limit > 0 && |r| == limit) || skip >= |s|
  {
    if skip >= |s| then []
    else if limit == 0 then s[skip..]
    else s[skip..Min(skip + limit, |s|)]
  }

  /** Pages 1 to n with a positive limit, read one after another. */
  function Pages<T>(s: seq<T>, limit: nat, n: nat): seq<T>
  {
    if n == 0 then [] else Pages(s, limit, n - 1) + Window(s, (n - 1) * limit, limit)
  }

  /** Successive pages neither skip nor repeat a document: pages 1 to n together are the
      first n * limit documents of the collection. */
  lemma {:induction false} PagesTile<T>(s: seq<T>, limit: nat, n: nat)
    requires limit > 0
    ensures Pages(s, limit, n) == s[..Min(n * limit, |s|)]
  {
    if n > 0 {
      PagesTile(s, limit, n - 1);
      var k: nat := (n - 1) * limit;
      TileStep(s, limit, k, Pages(s, limit, n - 1));
      MulStep(n, limit);
    }
  }

  /** The page after the first k documents continues them up to k + limit. */
  lemma TileStep<T>(s: seq<T>, limit: nat, k: nat, before: seq<T>)
    requires limit > 0 && before == s[..Min(k, |s|)]
    ensures before + Window(s, k, limit) == s[..Min(k + limit, |s|)]
  {
    if k < |s| {
      var e := Min(k + limit, |s|);
      assert s[..k] + s[k..e] == s[..e];
    }
  }

  lemma MulStep(n: nat, limit: nat)
    requires n > 0
    ensures n * limit == (n - 1) * limit + limit
  {
  }
}
