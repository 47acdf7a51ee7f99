/** The tokenizer of the tests, one token per word, meets every hypothesis of the equivalence;
    so the hypotheses can be met, on every text. */
module WordTokenizer {
  import opened Text
  import opened PageTokens
  import opened Windows
  import opened Units
  import opened Chunker

  /** The tokenizer encodes a text as its words. */
  ghost predicate OneTokenPerWord(lex: Lexicon) {
    forall text :: lex.encode(text) == Words(lex, text)
  }

  function Shift(words: seq<Span>, offset: int): seq<Span> {
    seq(|words|, i requires 0 <= i < |words| => Span(words[i].lo + offset, words[i].hi + offset))
  }

  lemma ShiftWord(w: Span, rest: seq<Span>, offset: int)
    ensures Shift([w] + rest, offset) == [Span(w.lo + offset, w.hi + offset)] + Shift(rest, offset)
  {
  }

  lemma {:induction false} RunEndShifts(lex: Lexicon, text: string, lo: nat, hi: nat, j: nat)
    requires lo + j <= hi <= |text| && CutRight(lex, text, hi)
    ensures RunEnd(lex, text, lo + j) == lo + RunEnd(lex, text[lo..hi], j)
    decreases hi - j
  {
    if lo + j < hi {
      assert text[lo..hi][j] == text[lo + j];
      if !lex.isSpace(text[lo + j]) {
        RunEndShifts(lex, text, lo, hi, j + 1);
      }
    }
  }

  /** The words from lo on: first those of the slice, moved into place, then those from hi on. */
  lemma {:induction false} WordsOfSlice(lex: Lexicon, text: string, lo: nat, hi: nat, j: nat)
    requires lo + j <= hi <= |text| && CutRight(lex, text, hi)
    ensures WordsFrom(lex, text, lo + j) == Shift(WordsFrom(lex, text[lo..hi], j), lo) + WordsFrom(lex, text, hi)
    decreases hi - j
  {
    hide RunEnd;
    var slice := text[lo..hi];
    if lo + j < hi {
      assert slice[j] == text[lo + j];
      if lex.isSpace(text[lo + j]) {
        WordsOfSlice(lex, text, lo, hi, j + 1);
      } else {
        RunEndShifts(lex, text, lo, hi, j);
        var k := RunEnd(lex, slice, j);
        WordsOfSlice(lex, text, lo, hi, k);
        ShiftWord(Span(j, k), WordsFrom(lex, slice, k), lo);
      }
    }
  }

  /** A cut at lo separates the words before it from those after it. */
  lemma {:induction false} WordsBefore(lex: Lexicon, text: string, i: nat, lo: nat) returns (before: seq<Span>)
    requires i <= lo <= |text| && CutLeft(lex, text, lo)
    ensures WordsFrom(lex, text, i) == before + WordsFrom(lex, text, lo)
    ensures forall w | w in before :: w.lo < w.hi <= lo
    decreases lo - i
  {
    if i == lo {
      before := [];
    } else if lex.isSpace(text[i]) {
      before := WordsBefore(lex, text, i + 1, lo);
    } else {
      var j := RunEnd(lex, text, i);
      assert j <= lo by {
        assert lex.isSpace(text[lo - 1]);
      }
      var rest := WordsBefore(lex, text, j, lo);
      before := [Span(i, j)] + rest;
    }
  }

  lemma {:induction false} NumberAdds<T>(p: T -> bool, s: seq<T>, t: seq<T>)
    ensures Number(p, s + t) == Number(p, s) + Number(p, t)
  {
    if t == [] {
      assert s + t == s;
    } else {
      var n := |t| - 1;
      assert (s + t)[..|s + t| - 1] == s + t[..n];
      NumberAdds(p, s, t[..n]);
    }
  }

  lemma CountThree(p: Span -> bool, a: seq<Span>, b: seq<Span>, c: seq<Span>)
    requires (forall w | w in a :: !p(w)) && (forall w | w in c :: !p(w))
    requires (forall w | w in b :: p(w)) || (forall w | w in b :: !p(w))
    ensures Number(p, a + b + c) == if b != [] && p(b[0]) then |b| else 0
  {
    NumberAdds(p, a + b, c);
    NumberAdds(p, a, b);
    NumberOfPartition(p, a, 0);
    NumberOfPartition(p, c, 0);
    assert b == [] || b[0] in b;
    NumberOfPartition(p, b, if b != [] && p(b[0]) then |b| else 0);
  }

  /** The words of a text around a whitespace-bounded slice: those before it, those of the slice
      in their place, and those after it. */
  lemma WordsAround(lex: Lexicon, text: string, lo: nat, hi: nat) returns (a: seq<Span>, b: seq<Span>, c: seq<Span>)
    requires lo < hi <= |text| && Bounded(lex, text, lo, hi)
    ensures Words(lex, text) == a + b + c && |b| == |Words(lex, text[lo..hi])|
    ensures forall w | w in a :: w.lo < w.hi <= lo
    ensures forall w | w in b :: lo <= w.lo < w.hi <= hi
    ensures forall w | w in c :: hi <= w.lo < w.hi
  {
    hide RunEnd, WordsFrom, IsWord;
    var slice := text[lo..hi];
    a := WordsBefore(lex, text, 0, lo);
    WordsOfSlice(lex, text, lo, hi, 0);
    b, c := Shift(Words(lex, slice), lo), WordsFrom(lex, text, hi);
    WordsInside(lex, slice, lo);
    WordsAfter(lex, text, hi);
  }

  lemma WordsInside(lex: Lexicon, slice: string, lo: int)
    ensures forall w | w in Shift(Words(lex, slice), lo) :: lo <= w.lo < w.hi <= lo + |slice|
  {
    WordsFromPartition(lex, slice, 0);
    var words := Words(lex, slice);
    forall w | w in Shift(words, lo) ensures lo <= w.lo < w.hi <= lo + |slice| {
      var i :| 0 <= i < |words| && Shift(words, lo)[i] == w;
      assert words[i] in words;
    }
  }

  lemma WordsAfter(lex: Lexicon, text: string, hi: nat)
    requires hi <= |text| && CutRight(lex, text, hi)
    ensures forall w | w in WordsFrom(lex, text, hi) :: hi <= w.lo < w.hi
  {
    WordsFromPartition(lex, text, hi);
  }

  lemma WordTokensAreLocal(lex: Lexicon, text: string, lo: nat, hi: nat)
    requires OneTokenPerWord(lex) && lo < hi <= |text| && Bounded(lex, text, lo, hi)
    ensures |lex.encode(text[lo..hi])| == Contained(lex.encode(text), lo, hi)
    ensures Engulfing(lex.encode(text), lo, hi) == 0
  {
    hide Number, RunEnd, WordsFrom, Words, Bounded;
    var a, b, c := WordsAround(lex, text, lo, hi);
    CountThree(Within(lo, hi), a, b, c);
    CountThree(Engulfs(lo, hi), a, b, c);
    assert b == [] || b[0] in b;
  }

  /** The hypotheses hold for this tokenizer on every text and cap, so there the fast form and
      the reference agree without any condition. */
  lemma WordTokenizerIsFaithful(lex: Lexicon, page: Page, limits: Limits, startOrd: int)
    requires OneTokenPerWord(lex)
    ensures Faithful(lex, page.text, limits.cap)
    ensures ChunkedPage(lex, page, limits, startOrd) == Reference(lex, page, limits, startOrd)
  {
    var text := page.text;
    forall lo, hi | 0 <= lo < hi <= |text| && Bounded(lex, text, lo, hi)
      ensures |lex.encode(text[lo..hi])| == Contained(lex.encode(text), lo, hi)
      ensures Engulfing(lex.encode(text), lo, hi) == 0
    {
      WordTokensAreLocal(lex, text, lo, hi);
    }
    forall w | IsWord(lex, text, w) && w.hi - w.lo > limits.cap
      ensures InsideWord()(lex.encode(text[w.lo..w.hi]), w.hi - w.lo)
    {
      WordsFromPartition(lex, text[w.lo..w.hi], 0);
    }
    FastEqualsReference(lex, page, limits, startOrd);
  }

  /** There is such a tokenizer. */
  lemma WordTokenizerExists(base: Lexicon)
    ensures OneTokenPerWord(Lexicon(text => Words(base, text), base.isSpace, base.category))
  {
    var lex := Lexicon(text => Words(base, text), base.isSpace, base.category);
    forall text ensures lex.encode(text) == Words(lex, text) {
      SameWords(base, lex, text, 0);
    }
  }

  lemma {:induction false} SameWords(a: Lexicon, b: Lexicon, text: string, i: nat)
    requires a.isSpace == b.isSpace && i <= |text|
    ensures WordsFrom(a, text, i) == WordsFrom(b, text, i)
    decreases |text| - i
  {
    if i < |text| {
      if a.isSpace(text[i]) {
        SameWords(a, b, text, i + 1);
      } else {
        SameRunEnd(a, b, text, i);
        SameWords(a, b, text, RunEnd(a, text, i));
      }
    }
  }

  lemma {:induction false} SameRunEnd(a: Lexicon, b: Lexicon, text: string, i: nat)
    requires a.isSpace == b.isSpace && i <= |text|
    ensures RunEnd(a, text, i) == RunEnd(b, text, i)
    decreases |text| - i
  {
    if i < |text| && !a.isSpace(text[i]) {
      SameRunEnd(a, b, text, i + 1);
    }
  }
}
