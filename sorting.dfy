/** Python's `sorted`: a stable sort under a total preorder, and the
    code-point order Python uses for `str`. */
module Sorting {
  import opened Common

  /** Python's `a <= b` on strings: code-point lexicographic order. */
  predicate LexLe(a: string, b: string)
  {
    a == [] || (b != [] && (a[0] < b[0] || (a[0] == b[0] && LexLe(a[1..], b[1..]))))
  }

  lemma {:induction false} LexLeTotal(a: string, b: string)
    ensures LexLe(a, b) || LexLe(b, a)
  {
    if a != [] && b != [] && a[0] == b[0] {
      LexLeTotal(a[1..], b[1..]);
    }
  }

  lemma {:induction false} LexLeTransitive(a: string, b: string, c: string)
    requires LexLe(a, b) && LexLe(b, c)
    ensures LexLe(a, c)
  {
    if a != [] && a[0] == b[0] && b[0] == c[0] {
      LexLeTransitive(a[1..], b[1..], c[1..]);
    }
  }

  lemma {:induction false} LexLeAntisymmetric(a: string, b: string)
    requires LexLe(a, b) && LexLe(b, a)
    ensures a == b
  {
    if a != [] {
      LexLeAntisymmetric(a[1..], b[1..]);
    }
  }

  ghost predicate TotalPreorder<T(!new)>(le: (T, T) -> bool)
  {
    && (forall a, b :: le(a, b) || le(b, a))
    && (forall a, b, c :: le(a, b) && le(b, c) ==> le(a, c))
  }

  predicate Sorted<T>(s: seq<T>, le: (T, T) -> bool)
  {
    forall i, j :: 0 <= i < j < |s| ==> le(s[i], s[j])
  }

  /** Puts `x` before the first element it is not after. */
  function Insert<T>(x: T, s: seq<T>, le: (T, T) -> bool): (r: seq<T>)
    ensures multiset(r) == multiset(s) + multiset{x}
  {
    if s == [] || le(x, s[0]) then [x] + s
    else
      assert s == [s[0]] + s[1..];
      [s[0]] + Insert(x, s[1..], le)
  }

  /** `sorted(s)` under `le` (insertion sort; equal elements keep their order). */
  function SortBy<T>(s: seq<T>, le: (T, T) -> bool): (r: seq<T>)
    ensures multiset(r) == multiset(s)
  {
    if s == [] then []
    else
      assert s == [s[0]] + s[1..];
      Insert(s[0], SortBy(s[1..], le), le)
  }

  lemma {:induction false} InsertSorted<T(!new)>(x: T, s: seq<T>, le: (T, T) -> bool)
    requires TotalPreorder(le) && Sorted(s, le)
    ensures Sorted(Insert(x, s, le), le)
  {
    if s == [] || le(x, s[0]) {
    } else {
      var rest := Insert(x, s[1..], le);
      InsertSorted(x, s[1..], le);
      forall k | 0 <= k < |rest| ensures le(s[0], rest[k]) {
        assert rest[k] in multiset(rest);
        assert rest[k] == x || rest[k] in multiset(s[1..]);
        if rest[k] != x {
          var j :| 0 <= j < |s[1..]| && s[1..][j] == rest[k];
          assert s[1 + j] == rest[k];
        }
      }
    }
  }

  /** The result of `SortBy` is in order and holds the same elements. */
  lemma {:induction false} SortSorted<T(!new)>(s: seq<T>, le: (T, T) -> bool)
    requires TotalPreorder(le)
    ensures Sorted(SortBy(s, le), le)
    ensures multiset(SortBy(s, le)) == multiset(s)
  {
    if s != [] {
      SortSorted(s[1..], le);
      InsertSorted(s[0], SortBy(s[1..], le), le);
    }
  }

  lemma LexLeIsTotalPreorder()
    ensures TotalPreorder(LexLe)
  {
    forall a, b ensures LexLe(a, b) || LexLe(b, a) { LexLeTotal(a, b); }
    forall a, b, c | LexLe(a, b) && LexLe(b, c) ensures LexLe(a, c) { LexLeTransitive(a, b, c); }
  }

  /** Listing entries compared by name, as `sorted(os.listdir(...))` does. */
  predicate NameLe(a: Entry, b: Entry)
  {
    LexLe(a.name, b.name)
  }

  /** `sorted(os.listdir(folder))`, each name with its kind. */
  function SortedListing(listing: seq<Entry>): seq<Entry>
  {
    SortBy(listing, NameLe)
  }

  /** A sorted listing holds the same entries, in name order. */
  lemma SortedListingShape(listing: seq<Entry>)
    ensures Sorted(SortedListing(listing), NameLe)
    ensures multiset(SortedListing(listing)) == multiset(listing)
    ensures forall e :: e in SortedListing(listing) <==> e in listing
  {
    LexLeIsTotalPreorder();
    assert TotalPreorder(NameLe) by {
      forall a: Entry, b: Entry ensures NameLe(a, b) || NameLe(b, a) { LexLeTotal(a.name, b.name); }
      forall a: Entry, b: Entry, c: Entry | NameLe(a, b) && NameLe(b, c) ensures NameLe(a, c) {
        LexLeTransitive(a.name, b.name, c.name);
      }
    }
    SortSorted(listing, NameLe);
    forall e ensures e in SortedListing(listing) <==> e in listing {
      assert e in SortedListing(listing) <==> e in multiset(SortedListing(listing));
    }
  }

  /** The names of the folders of a listing, in listing order. */
  function DirNames(listing: seq<Entry>): seq<string>
  {
    if listing == [] then []
    else
      var e := listing[|listing| - 1];
      DirNames(listing[..|listing| - 1]) + (if e.kind == Dir then [e.name] else [])
  }

  lemma {:induction false} DirNamesMembers(listing: seq<Entry>, name: string)
    ensures name in DirNames(listing) <==> Entry(name, Dir) in listing
  {
    if listing != [] {
      var n := |listing| - 1;
      DirNamesMembers(listing[..n], name);
      assert listing == listing[..n] + [listing[n]];
    }
  }

  /** What a comprehension over the sorted listing holds is the image of
      some kept entry of the listing. */
  lemma SortedMapIfMembers<U>(listing: seq<Entry>, keep: Entry -> bool, f: Entry -> U, y: U)
    ensures y in MapIf(SortedListing(listing), keep, f) <==> exists e :: e in listing && keep(e) && f(e) == y
  {
    var sorted := SortedListing(listing);
    SortedListingShape(listing);
    MapIfMembers(sorted, keep, f, y);
    if exists e :: e in listing && keep(e) && f(e) == y {
      var e :| e in listing && keep(e) && f(e) == y;
      var i :| 0 <= i < |sorted| && sorted[i] == e;
    }
  }
}
