/** What windows are built from. A word within the cap is one unit; a longer one contributes several,
    each of them a run of its tokens. */
module Units {
  import opened Text
  import opened PageTokens
  import opened Windows

  /** Pieces of an oversized word from its token first on; base is where the word starts. */
  function Split(lex: Lexicon, word: string, offsets: seq<Span>, base: int, cap: int, first: nat): seq<Span>
    requires first <= |offsets|
    decreases |offsets| - first
  {
    if first == |offsets| then []
    else
      var last := GrowEnd(offsets, Retokenized(lex, word), cap, first, first + 1);
      [Span(base + offsets[first].lo, base + offsets[last - 1].hi)] + Split(lex, word, offsets, base, cap, last)
  }

  function Pieces(lex: Lexicon, text: string, w: Span, cap: int): seq<Span> {
    var word := Slice(text, w.lo, w.hi);
    Split(lex, word, lex.encode(word), w.lo, cap, 0)
  }

  predicate Short(count: Counter, cap: int, w: Span) {
    w.hi - w.lo <= cap || count(w.lo, w.hi) <= cap
  }

  function UnitsFor(lex: Lexicon, text: string, count: Counter, cap: int, w: Span): seq<Span> {
    if Short(count, cap, w) then [w] else Pieces(lex, text, w, cap)
  }

  function UnitsOf(lex: Lexicon, text: string, count: Counter, cap: int, words: seq<Span>): seq<Span> {
    if words == [] then []
    else
      var n := |words| - 1;
      UnitsOf(lex, text, count, cap, words[..n]) + UnitsFor(lex, text, count, cap, words[n])
  }

  /** A property of the offsets of every word longer than the cap, and of its length. */
  ghost predicate OnLongWords(lex: Lexicon, text: string, cap: int, holds: (seq<Span>, int) -> bool) {
    forall w | IsWord(lex, text, w) && w.hi - w.lo > cap ::
      holds(lex.encode(text[w.lo..w.hi]), w.hi - w.lo)
  }

  /** Offsets lie inside the word. */
  function InsideWord(): (seq<Span>, int) -> bool {
    (o: seq<Span>, n: int) => 0 <= n && Inside(o, n)
  }

  /** Starts and ends never decrease. */
  function OrderedWord(): (seq<Span>, int) -> bool {
    (o: seq<Span>, n: int) => Ordered(o)
  }

  /** Tokens follow one another without overlapping. */
  function ChainedWord(): (seq<Span>, int) -> bool {
    (o: seq<Span>, n: int) => forall i | 0 < i < |o| :: o[i - 1].hi <= o[i].lo
  }

  /** Every token starts after the one before it starts. */
  function StrictWord(): (seq<Span>, int) -> bool {
    (o: seq<Span>, n: int) => forall i, j | 0 <= i < j < |o| :: o[i].lo < o[j].lo
  }

  /** Tokens leave no character of the word out. */
  function GaplessWord(): (seq<Span>, int) -> bool {
    (o: seq<Span>, n: int) =>
      |o| > 0 && o[0].lo == 0 && o[|o| - 1].hi == n && forall i | 0 < i < |o| :: o[i].lo <= o[i - 1].hi
  }

  // ---------- pieces of one word ----------

  predicate Lies(u: Span, w: Span) {
    w.lo <= u.lo < w.hi && w.lo < u.hi <= w.hi
  }

  lemma {:induction false} SplitLies(lex: Lexicon, word: string, offsets: seq<Span>, base: int, cap: int, first: nat)
    requires first <= |offsets| && Inside(offsets, |word|)
    ensures forall u | u in Split(lex, word, offsets, base, cap, first) :: Lies(u, Span(base, base + |word|))
    decreases |offsets| - first
  {
    if first < |offsets| {
      var last := GrowEnd(offsets, Retokenized(lex, word), cap, first, first + 1);
      SplitLies(lex, word, offsets, base, cap, last);
      assert offsets[first] in offsets && offsets[last - 1] in offsets;
    }
  }

  lemma UnitsForLie(lex: Lexicon, text: string, count: Counter, cap: int, w: Span)
    requires IsWord(lex, text, w) && OnLongWords(lex, text, cap, InsideWord())
    ensures forall u | u in UnitsFor(lex, text, count, cap, w) :: Lies(u, w)
  {
    if !Short(count, cap, w) {
      var word := text[w.lo..w.hi];
      assert InsideWord()(lex.encode(word), w.hi - w.lo);
      SplitLies(lex, word, lex.encode(word), w.lo, cap, 0);
    }
  }

  ghost predicate AllPairs(units: seq<Span>, rel: (Span, Span) -> bool) {
    forall i, j | 0 <= i < j < |units| :: rel(units[i], units[j])
  }

  /** Neither bound moves back. */
  function Follows(): (Span, Span) -> bool { (u: Span, v: Span) => u.lo <= v.lo && u.hi <= v.hi }

  /** The first ends before the second begins. */
  function Precedes(): (Span, Span) -> bool { (u: Span, v: Span) => u.hi <= v.lo }

  lemma AppendPairs(us: seq<Span>, vs: seq<Span>, rel: (Span, Span) -> bool)
    requires AllPairs(us, rel) && AllPairs(vs, rel)
    requires forall u, v | u in us && v in vs :: rel(u, v)
    ensures AllPairs(us + vs, rel)
  {
    var all := us + vs;
    forall i, j | 0 <= i < j < |all| ensures rel(all[i], all[j]) {
      if i < |us| <= j {
        assert all[i] in us && all[j] in vs;
      } else if i >= |us| {
        assert all[i] == vs[i - |us|] && all[j] == vs[j - |us|];
      }
    }
  }

  lemma OrderedAt(offsets: seq<Span>, i: nat, j: nat)
    requires Ordered(offsets) && i <= j < |offsets|
    ensures offsets[i].lo <= offsets[j].lo && offsets[i].hi <= offsets[j].hi
  {
    PairwiseIsSorted(Starts(offsets));
    PairwiseIsSorted(Ends(offsets));
    assert Starts(offsets)[i] == offsets[i].lo && Starts(offsets)[j] == offsets[j].lo;
    assert Ends(offsets)[i] == offsets[i].hi && Ends(offsets)[j] == offsets[j].hi;
  }

  lemma {:induction false} SplitFollows(lex: Lexicon, word: string, offsets: seq<Span>, base: int, cap: int, first: nat)
    requires first <= |offsets| && Ordered(offsets)
    ensures AllPairs(Split(lex, word, offsets, base, cap, first), Follows())
    ensures forall u | u in Split(lex, word, offsets, base, cap, first) ::
              first < |offsets| && base + offsets[first].lo <= u.lo && base + offsets[first].hi <= u.hi
    decreases |offsets| - first
  {
    hide Ordered, AllPairs;
    if first < |offsets| {
      var last := GrowEnd(offsets, Retokenized(lex, word), cap, first, first + 1);
      SplitFollows(lex, word, offsets, base, cap, last);
      OrderedAt(offsets, first, last - 1);
      if last < |offsets| {
        OrderedAt(offsets, last - 1, last);
      }
      var piece := Span(base + offsets[first].lo, base + offsets[last - 1].hi);
      OnePair(piece, Follows());
      AppendPairs([piece], Split(lex, word, offsets, base, cap, last), Follows());
    } else {
      NoPairs(Follows());
    }
  }

  /** The first starts before the second. */
  function StartsBefore(): (Span, Span) -> bool { (u: Span, v: Span) => u.lo < v.lo }

  lemma {:induction false} SplitStartsBefore(lex: Lexicon, word: string, offsets: seq<Span>, base: int, cap: int,
                                             first: nat)
    requires first <= |offsets| && StrictWord()(offsets, |word|) && Inside(offsets, |word|)
    ensures AllPairs(Split(lex, word, offsets, base, cap, first), StartsBefore())
    ensures forall u | u in Split(lex, word, offsets, base, cap, first) ::
              first < |offsets| && base + offsets[first].lo <= u.lo < u.hi
    decreases |offsets| - first
  {
    hide AllPairs, Inside, StrictWord;
    if first < |offsets| {
      var last := GrowEnd(offsets, Retokenized(lex, word), cap, first, first + 1);
      SplitStartsBefore(lex, word, offsets, base, cap, last);
      StrictPiece(offsets, |word|, first, last);
      var piece := Span(base + offsets[first].lo, base + offsets[last - 1].hi);
      OnePair(piece, StartsBefore());
      AppendPairs([piece], Split(lex, word, offsets, base, cap, last), StartsBefore());
    } else {
      NoPairs(StartsBefore());
    }
  }

  /** The first piece is nonempty and starts before whatever starts with a later token. */
  lemma StrictPiece(offsets: seq<Span>, n: nat, first: nat, last: nat)
    requires Inside(offsets, n) && StrictWord()(offsets, n) && first < last <= |offsets|
    ensures offsets[first].lo < offsets[last - 1].hi
    ensures last < |offsets| ==> offsets[first].lo < offsets[last].lo
  {
    assert offsets[last - 1] in offsets;
  }

  /** The first piece ends before whatever starts with a later token. */
  lemma ChainedPiece(offsets: seq<Span>, n: nat, first: nat, last: nat)
    requires Inside(offsets, n) && ChainedWord()(offsets, n) && first < last <= |offsets|
    ensures offsets[first].lo < offsets[last - 1].hi
    ensures last < |offsets| ==> offsets[last - 1].hi <= offsets[last].lo && offsets[first].lo <= offsets[last].lo
  {
    ChainReaches(offsets, n, first, last - 1);
    if last < |offsets| {
      ChainReaches(offsets, n, first, last);
    }
  }

  lemma {:induction false} SplitPrecedes(lex: Lexicon, word: string, offsets: seq<Span>, base: int, cap: int,
                                         first: nat)
    requires first <= |offsets| && Inside(offsets, |word|) && ChainedWord()(offsets, |word|)
    ensures AllPairs(Split(lex, word, offsets, base, cap, first), Precedes())
    ensures forall u | u in Split(lex, word, offsets, base, cap, first) ::
              first < |offsets| && base + offsets[first].lo <= u.lo < u.hi
    decreases |offsets| - first
  {
    hide ChainedWord, Inside, AllPairs;
    if first < |offsets| {
      var last := GrowEnd(offsets, Retokenized(lex, word), cap, first, first + 1);
      SplitPrecedes(lex, word, offsets, base, cap, last);
      ChainedPiece(offsets, |word|, first, last);
      var piece := Span(base + offsets[first].lo, base + offsets[last - 1].hi);
      OnePair(piece, Precedes());
      AppendPairs([piece], Split(lex, word, offsets, base, cap, last), Precedes());
    } else {
      NoPairs(Precedes());
    }
  }

  lemma OnePair(u: Span, rel: (Span, Span) -> bool)
    ensures AllPairs([u], rel)
  {
  }

  lemma NoPairs(rel: (Span, Span) -> bool)
    ensures AllPairs([], rel)
  {
  }

  lemma {:induction false} ChainReaches(offsets: seq<Span>, n: nat, i: nat, j: nat)
    requires Inside(offsets, n) && ChainedWord()(offsets, n) && i <= j < |offsets|
    ensures offsets[i].lo < offsets[j].hi && offsets[i].lo <= offsets[j].lo
    decreases j
  {
    assert offsets[j] in offsets;
    if i < j {
      ChainReaches(offsets, n, i, j - 1);
      assert offsets[j - 1].hi <= offsets[j].lo;
      assert offsets[j - 1] in offsets;
    }
  }

  predicate Holds(units: seq<Span>, p: int) {
    exists u | u in units :: u.lo <= p < u.hi
  }

  lemma {:induction false} SplitHolds(lex: Lexicon, word: string, offsets: seq<Span>, base: int, cap: int, first: nat,
                                      p: int)
    requires first < |offsets| && GaplessWord()(offsets, |word|)
    requires base + offsets[first].lo <= p < base + |word|
    ensures Holds(Split(lex, word, offsets, base, cap, first), p)
    decreases |offsets| - first
  {
    var last := GrowEnd(offsets, Retokenized(lex, word), cap, first, first + 1);
    var units := Split(lex, word, offsets, base, cap, first);
    var rest := Split(lex, word, offsets, base, cap, last);
    assert units == [Span(base + offsets[first].lo, base + offsets[last - 1].hi)] + rest;
    if p < base + offsets[last - 1].hi {
      assert units[0] in units;
    } else {
      assert last < |offsets|;
      assert offsets[last].lo <= offsets[last - 1].hi;
      SplitHolds(lex, word, offsets, base, cap, last, p);
      var u :| u in rest && u.lo <= p < u.hi;
      assert u in units;
    }
  }

  // ---------- units of a page ----------

  /** Units of different words: one lies wholly before the other. */
  predicate Apart(u: Span, v: Span) {
    u.hi <= v.lo && u.lo < v.lo && u.hi < v.hi && u.lo < v.hi
  }

  /** A relation that holds between units of different words and between the pieces of each
      word holds between all units, and units stay on the page. */
  lemma {:induction false} UnitsPairwise(lex: Lexicon, text: string, count: Counter, cap: int, words: seq<Span>,
                                         rel: (Span, Span) -> bool)
    requires InOrder(lex, text, words, 0) && OnLongWords(lex, text, cap, InsideWord())
    requires forall u, v | Apart(u, v) :: rel(u, v)
    requires forall w | w in words :: AllPairs(UnitsFor(lex, text, count, cap, w), rel)
    ensures AllPairs(UnitsOf(lex, text, count, cap, words), rel)
    ensures forall u | u in UnitsOf(lex, text, count, cap, words) ::
              words != [] && 0 <= u.lo < words[|words| - 1].hi && 0 < u.hi <= words[|words| - 1].hi
  {
    if words != [] {
      var n := |words| - 1;
      UnitsPairwise(lex, text, count, cap, words[..n], rel);
      UnitsForLie(lex, text, count, cap, words[n]);
      var before := UnitsOf(lex, text, count, cap, words[..n]);
      var group := UnitsFor(lex, text, count, cap, words[n]);
      forall u | u in before ensures u.hi <= words[n].lo && u.lo < words[n].lo {
        assert words[..n][n - 1] == words[n - 1];
      }
      forall u, v | u in before && v in group ensures rel(u, v) {
        assert Apart(u, v);
      }
      AppendPairs(before, group, rel);
    }
  }

  lemma WordsInOrder(lex: Lexicon, text: string)
    ensures InOrder(lex, text, Words(lex, text), 0)
  {
    WordsFromPartition(lex, text, 0);
  }

  function PageUnits(lex: Lexicon, text: string, count: Counter, cap: int): seq<Span> {
    UnitsOf(lex, text, count, cap, Words(lex, text))
  }

  /** A slice from one unit to another is nonempty if it is whitespace-bounded. */
  function Aims(lex: Lexicon, text: string): (Span, Span) -> bool {
    (u: Span, v: Span) => Bounded(lex, text, u.lo, v.hi) ==> u.lo < v.hi
  }

  lemma LyingAims(lex: Lexicon, text: string, w: Span, u: Span, v: Span)
    requires IsWord(lex, text, w) && Lies(u, w) && Lies(v, w)
    ensures Aims(lex, text)(u, v)
  {
    if w.lo < u.lo {
      assert !lex.isSpace(text[u.lo - 1]);
    }
  }

  lemma PageUnitsAim(lex: Lexicon, text: string, count: Counter, cap: int)
    requires OnLongWords(lex, text, cap, InsideWord())
    ensures var units := PageUnits(lex, text, count, cap);
            && (forall i, j | 0 <= i <= j < |units| :: Aims(lex, text)(units[i], units[j]))
            && forall u | u in units :: 0 <= u.lo < |text| && 0 < u.hi <= |text|
  {
    WordsInOrder(lex, text);
    var words := Words(lex, text);
    forall w | w in words ensures AllPairs(UnitsFor(lex, text, count, cap, w), Aims(lex, text)) {
      UnitsForLie(lex, text, count, cap, w);
      var group := UnitsFor(lex, text, count, cap, w);
      forall i, j | 0 <= i < j < |group| ensures Aims(lex, text)(group[i], group[j]) {
        assert group[i] in group && group[j] in group;
        LyingAims(lex, text, w, group[i], group[j]);
      }
    }
    UnitsPairwise(lex, text, count, cap, words, Aims(lex, text));
    var units := PageUnits(lex, text, count, cap);
    assert words != [] ==> words[|words| - 1] in words;
    forall i | 0 <= i < |units| ensures Aims(lex, text)(units[i], units[i]) {
      assert units[i] in units;
      var w := OwnerOf(lex, text, count, cap, words, units[i]);
      LyingAims(lex, text, w, units[i], units[i]);
    }
  }

  /** Every unit lies in a word. */
  lemma {:induction false} OwnerOf(lex: Lexicon, text: string, count: Counter, cap: int, words: seq<Span>, u: Span)
    returns (w: Span)
    requires InOrder(lex, text, words, 0) && OnLongWords(lex, text, cap, InsideWord())
    requires u in UnitsOf(lex, text, count, cap, words)
    ensures w in words && Lies(u, w) && u in UnitsFor(lex, text, count, cap, w)
  {
    var n := |words| - 1;
    if u in UnitsFor(lex, text, count, cap, words[n]) {
      UnitsForLie(lex, text, count, cap, words[n]);
      w := words[n];
    } else {
      w := OwnerOf(lex, text, count, cap, words[..n], u);
    }
  }

  lemma PageUnitsAscend(lex: Lexicon, text: string, count: Counter, cap: int)
    requires OnLongWords(lex, text, cap, InsideWord()) && OnLongWords(lex, text, cap, OrderedWord())
    ensures Ascending(PageUnits(lex, text, count, cap))
  {
    WordsInOrder(lex, text);
    forall w | w in Words(lex, text) ensures AllPairs(UnitsFor(lex, text, count, cap, w), Follows()) {
      if !Short(count, cap, w) {
        var word := text[w.lo..w.hi];
        assert OrderedWord()(lex.encode(word), w.hi - w.lo);
        SplitFollows(lex, word, lex.encode(word), w.lo, cap, 0);
      }
    }
    UnitsPairwise(lex, text, count, cap, Words(lex, text), Follows());
    var units := PageUnits(lex, text, count, cap);
    assert forall i, j | 0 <= i < j < |units| :: Follows()(units[i], units[j]);
  }

  /** Tokens that start in strictly increasing places give nonempty units on the page that do. */
  lemma PageUnitsStrict(lex: Lexicon, text: string, count: Counter, cap: int)
    requires OnLongWords(lex, text, cap, InsideWord()) && OnLongWords(lex, text, cap, StrictWord())
    ensures var units := PageUnits(lex, text, count, cap);
            StrictStarts(units) && forall i | 0 <= i < |units| :: 0 <= units[i].lo < units[i].hi <= |text|
  {
    WordsInOrder(lex, text);
    var words := Words(lex, text);
    forall w | w in words
      ensures AllPairs(UnitsFor(lex, text, count, cap, w), StartsBefore())
      ensures forall u | u in UnitsFor(lex, text, count, cap, w) :: u.lo < u.hi
    {
      if !Short(count, cap, w) {
        var word := text[w.lo..w.hi];
        assert StrictWord()(lex.encode(word), w.hi - w.lo) && InsideWord()(lex.encode(word), w.hi - w.lo);
        SplitStartsBefore(lex, word, lex.encode(word), w.lo, cap, 0);
      }
    }
    UnitsPairwise(lex, text, count, cap, words, StartsBefore());
    var units := PageUnits(lex, text, count, cap);
    assert forall i, j | 0 <= i < j < |units| :: StartsBefore()(units[i], units[j]);
    forall i | 0 <= i < |units| ensures 0 <= units[i].lo < units[i].hi <= |text| {
      assert units[i] in units;
      var w := OwnerOf(lex, text, count, cap, words, units[i]);
    }
  }

  lemma PageUnitsDisjoint(lex: Lexicon, text: string, count: Counter, cap: int)
    requires OnLongWords(lex, text, cap, InsideWord()) && OnLongWords(lex, text, cap, ChainedWord())
    ensures Disjoint(PageUnits(lex, text, count, cap), |text|)
  {
    WordsInOrder(lex, text);
    var words := Words(lex, text);
    forall w | w in words
      ensures AllPairs(UnitsFor(lex, text, count, cap, w), Precedes())
      ensures forall u | u in UnitsFor(lex, text, count, cap, w) :: u.lo < u.hi
    {
      if !Short(count, cap, w) {
        var word := text[w.lo..w.hi];
        assert InsideWord()(lex.encode(word), w.hi - w.lo) && ChainedWord()(lex.encode(word), w.hi - w.lo);
        SplitPrecedes(lex, word, lex.encode(word), w.lo, cap, 0);
      }
    }
    UnitsPairwise(lex, text, count, cap, words, Precedes());
    var units := PageUnits(lex, text, count, cap);
    assert forall i, j | 0 <= i < j < |units| :: Precedes()(units[i], units[j]);
    forall i | 0 <= i < |units| ensures 0 <= units[i].lo < units[i].hi <= |text| {
      assert units[i] in units;
      var w := OwnerOf(lex, text, count, cap, words, units[i]);
    }
  }

  lemma UnitsForHold(lex: Lexicon, text: string, count: Counter, cap: int, w: Span, p: int)
    requires IsWord(lex, text, w) && OnLongWords(lex, text, cap, GaplessWord()) && w.lo <= p < w.hi
    ensures Holds(UnitsFor(lex, text, count, cap, w), p)
  {
    if Short(count, cap, w) {
      assert w in UnitsFor(lex, text, count, cap, w);
    } else {
      var word := text[w.lo..w.hi];
      assert GaplessWord()(lex.encode(word), w.hi - w.lo);
      SplitHolds(lex, word, lex.encode(word), w.lo, cap, 0, p);
    }
  }

  lemma HoldsAppend(units: seq<Span>, more: seq<Span>, p: int)
    requires Holds(units, p) || Holds(more, p)
    ensures Holds(units + more, p)
  {
    var u :| (u in units || u in more) && u.lo <= p < u.hi;
    assert u in units + more;
  }

  /** Every character of a word lies in a unit. */
  lemma {:induction false} UnitsHold(lex: Lexicon, text: string, count: Counter, cap: int, words: seq<Span>,
                                     w: Span, p: int)
    requires InOrder(lex, text, words, 0) && OnLongWords(lex, text, cap, GaplessWord())
    requires w in words && w.lo <= p < w.hi
    ensures Holds(UnitsOf(lex, text, count, cap, words), p)
  {
    hide IsWord, UnitsFor, OnLongWords;
    var n := |words| - 1;
    if w == words[n] {
      UnitsForHold(lex, text, count, cap, w, p);
    } else {
      UnitsHold(lex, text, count, cap, words[..n], w, p);
    }
    HoldsAppend(UnitsOf(lex, text, count, cap, words[..n]), UnitsFor(lex, text, count, cap, words[n]), p);
  }
}
