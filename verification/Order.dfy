/** The orders in which listings are returned, and the stable sort that produces them. */
module Order {

  /** Document id and chunk ordinal. */
  datatype Key = Key(doc: string, ord: int)

  /** Strings compare by code point, a prefix first. */
  predicate TextLess(a: string, b: string) {
    if b == [] then false
    else if a == [] then true
    else if a[0] != b[0] then a[0] < b[0]
    else TextLess(a[1..], b[1..])
  }

  predicate KeyLess(a: Key, b: Key) {
    TextLess(a.doc, b.doc) || (a.doc == b.doc && a.ord < b.ord)
  }

  lemma {:induction false} TextOrder(a: string, b: string, c: string)
    ensures !TextLess(a, a)
    ensures a != b ==> TextLess(a, b) || TextLess(b, a)
    ensures TextLess(a, b) && TextLess(b, c) ==> TextLess(a, c)
  {
    if a != [] {
      TextOrder(a[1..], if b == [] then [] else b[1..], if c == [] then [] else c[1..]);
      if b != [] && a[0] == b[0] {
        assert a == [a[0]] + a[1..] && b == [b[0]] + b[1..];
      }
    }
  }

  /** A ranked key: its score and itself. Higher scores come first, ties go by key. */
  datatype Entry = Entry(score: real, key: Key)

  predicate Before(a: Entry, b: Entry) {
    a.score > b.score || (a.score == b.score && KeyLess(a.key, b.key))
  }

  lemma BeforeIsTotalOrder(a: Entry, b: Entry, c: Entry)
    ensures !Before(a, a)
    ensures a != b ==> Before(a, b) || Before(b, a)
    ensures Before(a, b) && Before(b, c) ==> Before(a, c)
  {
    TextOrder(a.key.doc, b.key.doc, c.key.doc);
    TextOrder(b.key.doc, c.key.doc, a.key.doc);
    TextOrder(c.key.doc, a.key.doc, b.key.doc);
  }

  /** Where two texts first differ decides, and a proper prefix comes first. */
  lemma {:induction false} TextLessExactly(a: string, b: string)
    ensures TextLess(a, b) <==>
              exists n | 0 <= n <= |a| && n < |b| ::
                a[..n] == b[..n] && (n == |a| || a[n] < b[n])
  {
    if a != [] && b != [] && a[0] == b[0] {
      TextLessExactly(a[1..], b[1..]);
      forall n | 0 <= n <= |a| && n < |b|
        ensures a[..n] == b[..n] && n > 0 <==> n > 0 && a[1..][..n - 1] == b[1..][..n - 1]
      {
        if n > 0 {
          assert a[..n] == [a[0]] + a[1..][..n - 1] && b[..n] == [b[0]] + b[1..][..n - 1];
        }
      }
      if exists n | 0 <= n <= |a| && n < |b| :: a[..n] == b[..n] && (n == |a| || a[n] < b[n]) {
        var n :| 0 <= n <= |a| && n < |b| && a[..n] == b[..n] && (n == |a| || a[n] < b[n]);
        assert n > 0;
        assert a[1..][..n - 1] == b[1..][..n - 1] && (n - 1 == |a[1..]| || a[1..][n - 1] < b[1..][n - 1]);
      }
      if TextLess(a, b) {
        var m :| 0 <= m <= |a[1..]| && m < |b[1..]| && a[1..][..m] == b[1..][..m]
                 && (m == |a[1..]| || a[1..][m] < b[1..][m]);
        assert a[..m + 1] == b[..m + 1] && (m + 1 == |a| || a[m + 1] < b[m + 1]);
      }
    } else if TextLess(a, b) {
      assert a[..0] == b[..0];
    }
  }

  /** A higher score comes first, then the lower document id, then the lower ordinal. */
  lemma BeforeExactly(a: Entry, b: Entry)
    ensures a.score > b.score ==> Before(a, b) && !Before(b, a)
    ensures a.score == b.score && a.key.doc == b.key.doc ==> (Before(a, b) <==> a.key.ord < b.key.ord)
    ensures a.score == b.score && a.key.doc != b.key.doc ==> (Before(a, b) <==> TextLess(a.key.doc, b.key.doc))
  {
    TextOrder(a.key.doc, a.key.doc, a.key.doc);
  }

  // ---------- sorting ----------

  /** A strict weak order: elements that neither precedes the other are alike. */
  ghost predicate Weak<T(!new)>(before: (T, T) -> bool) {
    && (forall a, b :: before(a, b) ==> !before(b, a))
    && forall a, b, c :: before(a, c) ==> before(a, b) || before(b, c)
  }

  predicate Sorted<T>(before: (T, T) -> bool, s: seq<T>) {
    forall i, j | 0 <= i < j < |s| :: !before(s[j], s[i])
  }

  /** x goes after the elements it does not precede. */
  function Insert<T>(before: (T, T) -> bool, s: seq<T>, x: T): (r: seq<T>)
    ensures |r| == |s| + 1 && multiset(r) == multiset(s) + multiset{x}
  {
    if s == [] || !before(x, s[|s| - 1]) then s + [x]
    else
      var n := |s| - 1;
      assert s == s[..n] + [s[n]];
      Insert(before, s[..n], x) + [s[n]]
  }

  /** The stable sort. */
  function Sort<T>(before: (T, T) -> bool, s: seq<T>): (r: seq<T>)
    ensures |r| == |s| && multiset(r) == multiset(s)
  {
    if s == [] then []
    else
      var n := |s| - 1;
      assert s == s[..n] + [s[n]];
      Insert(before, Sort(before, s[..n]), s[n])
  }

  lemma {:induction false} InsertSorts<T(!new)>(before: (T, T) -> bool, s: seq<T>, x: T)
    requires Weak(before) && Sorted(before, s)
    ensures Sorted(before, Insert(before, s, x))
  {
    if s != [] {
      var n := |s| - 1;
      if before(x, s[n]) {
        InsertSorts(before, s[..n], x);
        var r := Insert(before, s[..n], x);
        forall i | 0 <= i < |r| ensures !before(s[n], r[i]) {
          InsertMembers(before, s[..n], x, r[i]);
        }
      } else {
        forall i | 0 <= i < n ensures !before(x, s[i]) {
          assert !before(x, s[n]) && !before(s[n], s[i]);
        }
      }
    }
  }

  lemma InsertMembers<T>(before: (T, T) -> bool, s: seq<T>, x: T, y: T)
    ensures y in Insert(before, s, x) <==> y == x || y in s
  {
    assert y in Insert(before, s, x) <==> y in multiset(Insert(before, s, x));
  }

  lemma SortMembers<T>(before: (T, T) -> bool, s: seq<T>, y: T)
    ensures y in Sort(before, s) <==> y in s
  {
    assert y in Sort(before, s) <==> y in multiset(Sort(before, s));
  }

  lemma {:induction false} SortSorts<T(!new)>(before: (T, T) -> bool, s: seq<T>)
    requires Weak(before)
    ensures Sorted(before, Sort(before, s))
  {
    if s != [] {
      var n := |s| - 1;
      SortSorts(before, s[..n]);
      InsertSorts(before, Sort(before, s[..n]), s[n]);
    }
  }

  /** The elements that satisfy p, in order. */
  function Filter<T>(p: T -> bool, s: seq<T>): seq<T> {
    if s == [] then []
    else Filter(p, s[..|s| - 1]) + if p(s[|s| - 1]) then [s[|s| - 1]] else []
  }

  lemma FilterAppend<T>(p: T -> bool, s: seq<T>, x: T)
    ensures Filter(p, s + [x]) == Filter(p, s) + if p(x) then [x] else []
  {
    assert (s + [x])[..|s|] == s && (s + [x])[|s|] == x;
  }

  lemma {:induction false} InsertIsStable<T>(before: (T, T) -> bool, s: seq<T>, x: T, p: T -> bool)
    requires p(x) ==> forall i | 0 <= i < |s| && p(s[i]) :: !before(x, s[i])
    ensures Filter(p, Insert(before, s, x)) == Filter(p, s) + if p(x) then [x] else []
  {
    if s == [] || !before(x, s[|s| - 1]) {
      FilterAppend(p, s, x);
    } else {
      var n, start := |s| - 1, s[..|s| - 1];
      assert Insert(before, s, x) == Insert(before, start, x) + [s[n]];
      assert s == start + [s[n]];
      FilterAppend(p, start, s[n]);
      FilterAppend(p, Insert(before, start, x), s[n]);
      hide Filter, Insert;
      InsertIsStable(before, start, x, p);
    }
  }

  /** Stability: elements of one kind, none of which precedes another, keep their order. */
  lemma {:induction false} SortIsStable<T>(before: (T, T) -> bool, s: seq<T>, p: T -> bool)
    requires forall a, b | a in s && b in s && p(a) && p(b) :: !before(a, b)
    ensures Filter(p, Sort(before, s)) == Filter(p, s)
  {
    if s != [] {
      var n := |s| - 1;
      assert s == s[..n] + [s[n]];
      SortIsStable(before, s[..n], p);
      var r := Sort(before, s[..n]);
      forall i | 0 <= i < |r| ensures r[i] in s {
        SortMembers(before, s[..n], r[i]);
      }
      InsertIsStable(before, r, s[n], p);
    }
  }
}
