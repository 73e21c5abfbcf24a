/** `.sort({[sortBy]: "ascending"})` on videos: ascending by one field, in the order
    MongoDB compares values (numbers, then strings, then ObjectIds, then booleans;
    strings by their characters, ObjectIds by their bytes, false before true). */
module VideoSort {

  import opened Js
  import opened Text
  import opened Records

  /** The value of a field as the sort compares it. An ObjectId is held as its
      hexadecimal spelling, whose character order is its byte order. */
  datatype Key = Num(n: int) | Str(s: string) | Oid(hex: string) | Bool(b: bool)

  /** The place of a value's type in the comparison order across types. */
  function Rank(k: Key): nat
  {
    match k
    case Num(_) => 0
    case Str(_) => 1
    case Oid(_) => 2
    case Bool(_) => 3
  }

  /** Ascending order on keys: by type first, then within the type. */
  predicate KeyLe(a: Key, b: Key)
  {
    if Rank(a) != Rank(b) then Rank(a) < Rank(b)
    else match (a, b)
      case (Num(x), Num(y)) => x <= y
      case (Str(x), Str(y)) => LexLe(x, y)
      case (Oid(x), Oid(y)) => LexLe(x, y)
      case (Bool(x), Bool(y)) => !x || y
      case _ => false
  }

  lemma KeyLeTotal(a: Key, b: Key)
    ensures KeyLe(a, b) || KeyLe(b, a)
  {
    if a.Str? && b.Str? {
      LexLeTotal(a.s, b.s);
    } else if a.Oid? && b.Oid? {
      LexLeTotal(a.hex, b.hex);
    }
  }

  lemma KeyLeTransitive(a: Key, b: Key, c: Key)
    requires KeyLe(a, b) && KeyLe(b, c)
    ensures KeyLe(a, c)
  {
    if a.Str? && b.Str? && c.Str? {
      LexLeTransitive(a.s, b.s, c.s);
    } else if a.Oid? && b.Oid? && c.Oid? {
      LexLeTransitive(a.hex, b.hex, c.hex);
    }
  }

  /** The fields of a video document a listing can be sorted by. A `sortBy` naming
      none of them, or absent, compares every video as equal, which leaves the natural
      order. */
  datatype SortField =
    | ById | ByVideoFile | ByThumbnail | ByTitle | ByDescription
    | ByDuration | ByViews | ByPublished | ByOwner | Unsorted

  /** The field `{[sortBy]: ...}` names. */
  function FieldOf(sortBy: Option<string>): (f: SortField)
    ensures f == Unsorted <==>
      sortBy !in {Some("_id"), Some("videoFile"), Some("thumbnail"), Some("title"), Some("description"),
                  Some("duration"), Some("views"), Some("isPublished"), Some("owner")}
  {
    if sortBy == Some("_id") then ById
    else if sortBy == Some("videoFile") then ByVideoFile
    else if sortBy == Some("thumbnail") then ByThumbnail
    else if sortBy == Some("title") then ByTitle
    else if sortBy == Some("description") then ByDescription
    else if sortBy == Some("duration") then ByDuration
    else if sortBy == Some("views") then ByViews
    else if sortBy == Some("isPublished") then ByPublished
    else if sortBy == Some("owner") then ByOwner
    else Unsorted
  }

  /** The sort key of a video; every video has the same key when unsorted. */
  function KeyOf(v: Video, f: SortField): Key
  {
    match f
    case ById => Oid(v.id)
    case ByVideoFile => Str(v.videoFile)
    case ByThumbnail => Str(v.thumbnail)
    case ByTitle => Str(v.title)
    case ByDescription => Str(v.description)
    case ByDuration => Num(v.duration)
    case ByViews => Num(v.views)
    case ByPublished => Bool(v.isPublished)
    case ByOwner => Oid(v.owner)
    case Unsorted => Num(0)
  }

  predicate Le(a: Video, b: Video, f: SortField)
  {
    KeyLe(KeyOf(a, f), KeyOf(b, f))
  }

  /** Ascending by the field. */
  predicate Sorted(s: seq<Video>, f: SortField)
  {
    forall i, j :: 0 <= i < j < |s| ==> Le(s[i], s[j], f)
  }

  /** Insertion of one video before the first one it does not follow. */
  function Insert(x: Video, t: seq<Video>, f: SortField): seq<Video>
  {
    if t == [] || Le(x, t[0], f) then [x] + t
    else [t[0]] + Insert(x, t[1..], f)
  }

  /** The videos ascending by the field; videos with equal keys keep their relative
      collection order. */
  function SortVideos(s: seq<Video>, f: SortField): (r: seq<Video>)
    ensures Sorted(r, f)
    ensures multiset(r) == multiset(s)
  {
    if s == [] then []
    else
      var rest := SortVideos(s[1..], f);
      InsertSorted(s[0], rest, f);
      assert s == [s[0]] + s[1..];
      Insert(s[0], rest, f)
  }

  lemma {:induction false} InsertSorted(x: Video, t: seq<Video>, f: SortField)
    requires Sorted(t, f)
    ensures Sorted(Insert(x, t, f), f)
    ensures multiset(Insert(x, t, f)) == multiset(t) + multiset{x}
  {
    InsertPermutes(x, t, f);
    if t == [] {
    } else if Le(x, t[0], f) {
      forall y | y in t ensures Le(x, y, f) {
        var j :| 0 <= j < |t| && t[j] == y;
        if j > 0 {
          KeyLeTransitive(KeyOf(x, f), KeyOf(t[0], f), KeyOf(t[j], f));
        }
      }
      ConsSorted(x, t, f);
    } else {
      KeyLeTotal(KeyOf(x, f), KeyOf(t[0], f));
      TailSorted(t, f);
      var rest := Insert(x, t[1..], f);
      InsertSorted(x, t[1..], f);
      forall y | y in rest ensures Le(t[0], y, f) {
        assert y in multiset(rest);
        if y != x {
          assert y in multiset(t[1..]);
          var k :| 0 <= k < |t[1..]| && t[1..][k] == y;
          assert t[k + 1] == y;
        }
      }
      ConsSorted(t[0], rest, f);
    }
  }

  lemma {:induction false} InsertPermutes(x: Video, t: seq<Video>, f: SortField)
    ensures multiset(Insert(x, t, f)) == multiset(t) + multiset{x}
  {
    if t != [] && !Le(x, t[0], f) {
      InsertPermutes(x, t[1..], f);
      assert t == [t[0]] + t[1..];
    }
  }

  lemma TailSorted(t: seq<Video>, f: SortField)
    requires t != [] && Sorted(t, f)
    ensures Sorted(t[1..], f)
  {
    forall i, j | 0 <= i < j < |t[1..]| ensures Le(t[1..][i], t[1..][j], f) {
      assert t[1..][i] == t[i + 1] && t[1..][j] == t[j + 1];
    }
  }

  lemma ConsSorted(a: Video, rest: seq<Video>, f: SortField)
    requires Sorted(rest, f)
    requires forall y :: y in rest ==> Le(a, y, f)
    ensures Sorted([a] + rest, f)
  {
    var r := [a] + rest;
    forall i, j | 0 <= i < j < |r| ensures Le(r[i], r[j], f) {
      assert r[j] == rest[j - 1];
      if i == 0 {
        assert rest[j - 1] in rest;
      } else {
        assert r[i] == rest[i - 1];
      }
    }
  }

  /** Two videos the field puts in the opposite order come out swapped. */
  lemma {:induction false} SortSwapsTwo(a: Video, b: Video, f: SortField)
    requires !Le(a, b, f)
    ensures SortVideos([a, b], f) == [b, a]
  {
    assert [a, b][1..] == [b];
    assert SortVideos([b], f) == [b] by {
      assert [b][1..] == [];
    }
    KeyLeTotal(KeyOf(a, f), KeyOf(b, f));
    assert Insert(a, [b], f) == [b] + Insert(a, [], f);
  }

  /** Sorting by `thumbnail` orders two videos by their thumbnail URLs. */
  lemma SortByThumbnail(a: Video, b: Video)
    requires a.thumbnail == "b" && b.thumbnail == "a"
    ensures SortVideos([a, b], FieldOf(Some("thumbnail"))) == [b, a]
  {
    assert !LexLe("b", "a");
    SortSwapsTwo(a, b, ByThumbnail);
  }

  /** Unsorted leaves the collection exactly as it is. */
  lemma {:induction false} UnsortedKeepsOrder(s: seq<Video>)
    ensures SortVideos(s, Unsorted) == s
  {
    if s != [] {
      UnsortedKeepsOrder(s[1..]);
      assert SortVideos(s, Unsorted) == Insert(s[0], s[1..], Unsorted);
      assert s[1..] == [] || Le(s[0], s[1..][0], Unsorted);
      assert Insert(s[0], s[1..], Unsorted) == [s[0]] + s[1..];
      assert s == [s[0]] + s[1..];
    }
  }
}
