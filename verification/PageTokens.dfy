/** Counting the tokens of a slice from one encoding of the whole page. */
module PageTokens {
  import opened Text

  predicate Sorted(a: seq<int>) {
    forall i, j | 0 <= i < j < |a| :: a[i] <= a[j]
  }

  /** bisect_right: the first index whose element exceeds x, found by halving a[lo..hi]. */
  function BisectRight(a: seq<int>, x: int, lo: nat, hi: nat): (i: nat)
    requires lo <= hi <= |a|
    ensures lo <= i <= hi
    ensures Sorted(a) ==> (forall j | lo <= j < i :: a[j] <= x) && (forall j | i <= j < hi :: x < a[j])
    decreases hi - lo
  {
    if lo == hi then lo
    else
      var mid := (lo + hi) / 2;
      if x < a[mid] then BisectRight(a, x, lo, mid) else BisectRight(a, x, mid + 1, hi)
  }

  /** bisect_left: the first index whose element is not below x. */
  function BisectLeft(a: seq<int>, x: int, lo: nat, hi: nat): (i: nat)
    requires lo <= hi <= |a|
    ensures lo <= i <= hi
    ensures Sorted(a) ==> (forall j | lo <= j < i :: a[j] < x) && (forall j | i <= j < hi :: x <= a[j])
    decreases hi - lo
  {
    if lo == hi then lo
    else
      var mid := (lo + hi) / 2;
      if a[mid] < x then BisectLeft(a, x, mid + 1, hi) else BisectLeft(a, x, lo, mid)
  }

  function Starts(offsets: seq<Span>): (s: seq<int>)
    ensures |s| == |offsets|
  {
    seq(|offsets|, i requires 0 <= i < |offsets| => offsets[i].lo)
  }

  function Ends(offsets: seq<Span>): (s: seq<int>)
    ensures |s| == |offsets|
  {
    seq(|offsets|, i requires 0 <= i < |offsets| => offsets[i].hi)
  }

  /** Adjacent elements never decrease: the test the program makes pairwise. */
  predicate Pairwise(a: seq<int>) {
    forall i | 0 < i < |a| :: a[i - 1] <= a[i]
  }

  predicate Ordered(offsets: seq<Span>) {
    Pairwise(Starts(offsets)) && Pairwise(Ends(offsets))
  }

  lemma {:induction false} PairwiseIsSorted(a: seq<int>)
    requires Pairwise(a)
    ensures Sorted(a)
  {
    if a != [] {
      var n := |a| - 1;
      PairwiseIsSorted(a[..n]);
      forall i, j | 0 <= i < j < |a| ensures a[i] <= a[j] {
        assert i < n && a[..n][i] == a[i];
        if j == n {
          assert a[n - 1] <= a[n];
          if i < n - 1 {
            assert a[..n][i] <= a[..n][n - 1];
          }
        } else {
          assert a[..n][i] <= a[..n][j];
        }
      }
    }
  }

  /** How many elements of s satisfy p. */
  function Number<T>(p: T -> bool, s: seq<T>): nat {
    if s == [] then 0 else Number(p, s[..|s| - 1]) + if p(s[|s| - 1]) then 1 else 0
  }

  function Within(lo: int, hi: int): Span -> bool { (o: Span) => lo <= o.lo && o.hi <= hi }

  /** The token covers the slice and sticks out on both sides. */
  function Engulfs(lo: int, hi: int): Span -> bool { (o: Span) => o.lo < lo && hi < o.hi }

  /** The number of offsets of the page contained in the slice. */
  function Contained(offsets: seq<Span>, lo: int, hi: int): nat {
    Number(Within(lo, hi), offsets)
  }

  function Engulfing(offsets: seq<Span>, lo: int, hi: int): nat {
    Number(Engulfs(lo, hi), offsets)
  }

  lemma {:induction false} NumberOfPartition<T>(p: T -> bool, s: seq<T>, i: nat)
    requires i <= |s|
    requires forall j | 0 <= j < i :: p(s[j])
    requires forall j | i <= j < |s| :: !p(s[j])
    ensures Number(p, s) == i
  {
    if s != [] {
      var n := |s| - 1;
      NumberOfPartition(p, s[..n], if i <= n then i else n);
    }
  }

  function EndsBy(hi: int): Span -> bool { (o: Span) => o.hi <= hi }

  function StartsBefore(lo: int): Span -> bool { (o: Span) => o.lo < lo }

  lemma {:induction false} CountingIdentity(offsets: seq<Span>, lo: int, hi: int)
    ensures Number(EndsBy(hi), offsets) - Number(StartsBefore(lo), offsets)
         == Contained(offsets, lo, hi) - Engulfing(offsets, lo, hi)
  {
    if offsets != [] {
      CountingIdentity(offsets[..|offsets| - 1], lo, hi);
    }
  }

  /** The number the two binary searches yield. */
  function BisectDifference(offsets: seq<Span>, lo: int, hi: int): int {
    var starts, ends := Starts(offsets), Ends(offsets);
    BisectRight(ends, hi, 0, |ends|) - BisectLeft(starts, lo, 0, |starts|)
  }

  /** On ordered offsets the two searches count the contained tokens, less those that
      engulf the slice; so the fast count is the contained count exactly when no token
      sticks out on both sides. */
  lemma BisectCountsContained(offsets: seq<Span>, lo: int, hi: int)
    requires Ordered(offsets)
    ensures BisectDifference(offsets, lo, hi) == Contained(offsets, lo, hi) - Engulfing(offsets, lo, hi)
    ensures BisectDifference(offsets, lo, hi) == Contained(offsets, lo, hi)
       <==> forall o | o in offsets :: !(o.lo < lo && hi < o.hi)
  {
    var starts, ends := Starts(offsets), Ends(offsets);
    PairwiseIsSorted(starts);
    PairwiseIsSorted(ends);
    assert forall j | 0 <= j < |offsets| :: offsets[j].lo == starts[j] && offsets[j].hi == ends[j];
    NumberOfPartition(EndsBy(hi), offsets, BisectRight(ends, hi, 0, |ends|));
    NumberOfPartition(StartsBefore(lo), offsets, BisectLeft(starts, lo, 0, |starts|));
    CountingIdentity(offsets, lo, hi);
    NumberIsZero(Engulfs(lo, hi), offsets);
    assert forall o: Span :: Engulfs(lo, hi)(o) <==> o.lo < lo && hi < o.hi;
  }

  lemma {:induction false} NumberIsZero<T>(p: T -> bool, s: seq<T>)
    ensures Number(p, s) == 0 <==> forall x | x in s :: !p(x)
  {
    if s != [] {
      var n := |s| - 1;
      NumberIsZero(p, s[..n]);
      assert s == s[..n] + [s[n]];
    }
  }

  /** One page encoded once. */
  datatype Tokens = Tokens(text: string, offsets: seq<Span>) {
    predicate IsOrdered() { Ordered(offsets) }

    /** Whitespace-bounded slices are counted from the page offsets; a cut inside a word
        is tokenized on its own. */
    function Count(lex: Lexicon, lo: int, hi: int): int {
      if !CutLeft(lex, text, lo) || !CutRight(lex, text, hi) then |lex.encode(Slice(text, lo, hi))|
      else BisectDifference(offsets, lo, hi)
    }
  }

  function Encoded(lex: Lexicon, text: string): Tokens { Tokens(text, lex.encode(text)) }

  /** The counter of the kept reference: tokenize every candidate slice again. */
  function Retokenized(lex: Lexicon, text: string): (int, int) -> int {
    (lo, hi) => |lex.encode(Slice(text, lo, hi))|
  }

  /** The counter of the fast form. */
  function FromPage(lex: Lexicon, tokens: Tokens): (int, int) -> int {
    (lo, hi) => tokens.Count(lex, lo, hi)
  }

  /** Offsets lie inside the text and are not empty, as the tokenizer adapter ensures. */
  predicate Inside(offsets: seq<Span>, n: nat) {
    forall o | o in offsets :: 0 <= o.lo < o.hi <= n
  }

  /** The locality hypothesis of the equivalence tests: a whitespace-bounded slice encodes
      to as many tokens as the page has offsets inside it, and no page token engulfs it. */
  ghost predicate Local(lex: Lexicon, text: string) {
    forall lo, hi | 0 <= lo < hi <= |text| && Bounded(lex, text, lo, hi) ::
      && |lex.encode(text[lo..hi])| == Contained(lex.encode(text), lo, hi)
      && Engulfing(lex.encode(text), lo, hi) == 0
  }

  /** Under locality the fast counter and the retokenizing counter agree on every slice
      that is not whitespace-bounded, and on every nonempty one that is. */
  lemma CountersAgree(lex: Lexicon, text: string, lo: int, hi: int)
    requires Local(lex, text) && Ordered(lex.encode(text))
    requires Bounded(lex, text, lo, hi) ==> 0 <= lo < hi <= |text|
    ensures FromPage(lex, Encoded(lex, text))(lo, hi) == Retokenized(lex, text)(lo, hi)
  {
    if Bounded(lex, text, lo, hi) {
      BisectCountsContained(lex.encode(text), lo, hi);
      assert Slice(text, lo, hi) == text[lo..hi];
    }
  }
}
