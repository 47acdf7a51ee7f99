/** Page text: half-open spans, slices as the program takes them, and whole words.

    Unicode tables are outside the model: a lexicon supplies the tokenizer, the
    whitespace test and the general category of a character as arbitrary functions. */
module Text {

  /** A half-open character range. */
  datatype Span = Span(lo: int, hi: int)

  /** What the program imports rather than computes. */
  datatype Lexicon = Lexicon(
    encode: string -> seq<Span>,
    isSpace: char -> bool,
    category: char -> string)

  function Clamp(i: int, n: nat): (j: nat)
    ensures j <= n
    ensures 0 <= i <= n ==> j == i
  {
    if i < 0 then if n + i < 0 then 0 else n + i
    else if i > n then n else i
  }

  /** The slice s[lo:hi] of the source language, total on all bounds. */
  function Slice(s: string, lo: int, hi: int): (r: string)
    ensures 0 <= lo <= hi <= |s| ==> r == s[lo..hi]
  {
    var a, b := Clamp(lo, |s|), Clamp(hi, |s|);
    if a < b then s[a..b] else ""
  }

  /** No word continues to the left of lo. */
  predicate CutLeft(lex: Lexicon, text: string, lo: int) {
    0 < lo <= |text| ==> lex.isSpace(text[lo - 1])
  }

  /** No word continues to the right of hi. */
  predicate CutRight(lex: Lexicon, text: string, hi: int) {
    0 <= hi < |text| ==> lex.isSpace(text[hi])
  }

  /** A whitespace-bounded slice. */
  predicate Bounded(lex: Lexicon, text: string, lo: int, hi: int) {
    CutLeft(lex, text, lo) && CutRight(lex, text, hi)
  }

  /** A maximal nonempty run of characters that are not whitespace. */
  predicate IsWord(lex: Lexicon, text: string, w: Span) {
    && 0 <= w.lo < w.hi <= |text|
    && Bounded(lex, text, w.lo, w.hi)
    && forall p | w.lo <= p < w.hi :: !lex.isSpace(text[p])
  }

  function RunEnd(lex: Lexicon, text: string, i: nat): (j: nat)
    requires i <= |text|
    ensures i <= j <= |text|
    ensures forall p | i <= p < j :: !lex.isSpace(text[p])
    ensures CutRight(lex, text, j)
    ensures i < |text| && !lex.isSpace(text[i]) ==> i < j
    decreases |text| - i
  {
    if i == |text| || lex.isSpace(text[i]) then i else RunEnd(lex, text, i + 1)
  }

  /** The matches of \S+ from position i on. */
  function WordsFrom(lex: Lexicon, text: string, i: nat): seq<Span>
    requires i <= |text|
    decreases |text| - i
  {
    if i == |text| then []
    else if lex.isSpace(text[i]) then WordsFrom(lex, text, i + 1)
    else
      var j := RunEnd(lex, text, i);
      [Span(i, j)] + WordsFrom(lex, text, j)
  }

  function Words(lex: Lexicon, text: string): seq<Span> {
    WordsFrom(lex, text, 0)
  }

  predicate InSomeWord(words: seq<Span>, p: int) {
    exists w | w in words :: w.lo <= p < w.hi
  }

  /** Words of the text that start at i or later, from left to right. */
  predicate InOrder(lex: Lexicon, text: string, words: seq<Span>, i: int) {
    && (forall w | w in words :: IsWord(lex, text, w) && i <= w.lo)
    && forall k, m | 0 <= k < m < |words| :: words[k].hi <= words[m].lo
  }

  /** Every character from i on that is not whitespace lies in a listed word. */
  predicate Complete(lex: Lexicon, text: string, words: seq<Span>, i: int) {
    forall p | i <= p < |text| && 0 <= p && !lex.isSpace(text[p]) :: InSomeWord(words, p)
  }

  lemma ConsWord(lex: Lexicon, text: string, w: Span, rest: seq<Span>)
    requires IsWord(lex, text, w) && InOrder(lex, text, rest, w.hi) && Complete(lex, text, rest, w.hi)
    ensures InOrder(lex, text, [w] + rest, w.lo) && Complete(lex, text, [w] + rest, w.lo)
  {
    var words := [w] + rest;
    forall k, m | 0 <= k < m < |words| ensures words[k].hi <= words[m].lo {
      assert words[m] == rest[m - 1] && words[m] in rest;
    }
    forall p | w.lo <= p < |text| && !lex.isSpace(text[p]) ensures InSomeWord(words, p) {
      if p < w.hi {
        assert w in words;
      } else {
        assert InSomeWord(rest, p);
        var v :| v in rest && v.lo <= p < v.hi;
        assert v in words;
      }
    }
  }

  /** The list holds exactly the words from i on: all of them, each once, in order. */
  lemma {:induction false} WordsFromPartition(lex: Lexicon, text: string, i: nat)
    requires i <= |text| && (CutLeft(lex, text, i) || CutRight(lex, text, i))
    ensures InOrder(lex, text, WordsFrom(lex, text, i), i) && Complete(lex, text, WordsFrom(lex, text, i), i)
    decreases |text| - i
  {
    if i < |text| {
      if lex.isSpace(text[i]) {
        WordsFromPartition(lex, text, i + 1);
      } else {
        var j := RunEnd(lex, text, i);
        WordsFromPartition(lex, text, j);
        ConsWord(lex, text, Span(i, j), WordsFrom(lex, text, j));
      }
    }
  }
}
