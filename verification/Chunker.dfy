/** The page chunker, its kept reference, and what they promise. */
module Chunker {
  import opened Text
  import opened PageTokens
  import opened Windows
  import opened Units

  const UNSAFE_CATEGORIES := {"Cc", "Cf", "Cs", "Co", "Zl", "Zp"}

  /** The page has a character that a tokenizer may drop or rewrite, so that page offsets would not be
      safe to count with. */
  predicate RequiresReference(lex: Lexicon, text: string) {
    exists i | 0 <= i < |text| :: text[i] !in "\t\n\r" && lex.category(text[i]) in UNSAFE_CATEGORIES
  }

  /** The result of re-tokenizing every candidate slice. */
  function Reference(lex: Lexicon, page: Page, limits: Limits, startOrd: int): Chunking {
    var count := Retokenized(lex, page.text);
    ChunkUnits(page, startOrd, PageUnits(lex, page.text, count, limits.cap), count, limits)
  }

  /** The result of counting from one encoding of the page. */
  function Fast(lex: Lexicon, page: Page, limits: Limits, startOrd: int): Chunking {
    var count := FromPage(lex, Encoded(lex, page.text));
    ChunkUnits(page, startOrd, PageUnits(lex, page.text, count, limits.cap), count, limits)
  }

  predicate Guarded(lex: Lexicon, text: string) {
    RequiresReference(lex, text) || !Ordered(lex.encode(text))
  }

  function ChunkedPage(lex: Lexicon, page: Page, limits: Limits, startOrd: int): Chunking {
    if Guarded(lex, page.text) then Reference(lex, page, limits, startOrd) else Fast(lex, page, limits, startOrd)
  }

  // ---------- the program ----------

  lemma SplitStep(lex: Lexicon, word: string, offsets: seq<Span>, base: int, cap: int, first: nat, done: seq<Span>)
    requires first < |offsets|
    ensures var last := GrowEnd(offsets, Retokenized(lex, word), cap, first, first + 1);
            done + Split(lex, word, offsets, base, cap, first)
              == done + [Span(base + offsets[first].lo, base + offsets[last - 1].hi)]
                 + Split(lex, word, offsets, base, cap, last)
  {
  }

  lemma SplitDone(lex: Lexicon, word: string, offsets: seq<Span>, base: int, cap: int)
    ensures Split(lex, word, offsets, base, cap, |offsets|) == []
  {
  }

  method SplitWord(lex: Lexicon, text: string, w: Span, cap: int) returns (units: seq<Span>)
    ensures units == Pieces(lex, text, w, cap)
  {
    hide Slice, Split;
    var word := Slice(text, w.lo, w.hi);
    var offsets := lex.encode(word);
    ghost var counter := Retokenized(lex, word);
    units := [];
    var first := 0;
    while first < |offsets|
      invariant first <= |offsets|
      invariant units + Split(lex, word, offsets, w.lo, cap, first) == Pieces(lex, text, w, cap)
    {
      ghost var end := GrowEnd(offsets, counter, cap, first, first + 1);
      var last := first + 1;
      while last < |offsets|
        invariant first < last <= |offsets|
        invariant GrowEnd(offsets, counter, cap, first, last) == end
      {
        var piece := Slice(word, offsets[first].lo, offsets[last].hi);
        if |lex.encode(piece)| > cap {
          break;
        }
        last := last + 1;
      }
      SplitStep(lex, word, offsets, w.lo, cap, first, units);
      units := units + [Span(w.lo + offsets[first].lo, w.lo + offsets[last - 1].hi)];
      first := last;
    }
    SplitDone(lex, word, offsets, w.lo, cap);
  }

  method FindUnits(lex: Lexicon, tokens: Tokens, cap: int) returns (units: seq<Span>)
    ensures units == PageUnits(lex, tokens.text, FromPage(lex, tokens), cap)
  {
    hide Slice, Pieces, BisectDifference;
    units := [];
    var words := Words(lex, tokens.text);
    for i := 0 to |words|
      invariant units == UnitsOf(lex, tokens.text, FromPage(lex, tokens), cap, words[..i])
    {
      var w := words[i];
      assert words[..i + 1][..i] == words[..i];
      if w.hi - w.lo <= cap || tokens.Count(lex, w.lo, w.hi) <= cap {
        units := units + [w];
      } else {
        var pieces := SplitWord(lex, tokens.text, w, cap);
        units := units + pieces;
      }
    }
    assert words[..|words|] == words;
  }

  method GrowWindow(lex: Lexicon, units: seq<Span>, tokens: Tokens, first: nat, cap: int)
    returns (last: nat, count: int)
    requires first < |units|
    ensures last == GrowEnd(units, FromPage(lex, tokens), cap, first, first)
    ensures last > first ==> count == FromPage(lex, tokens)(units[first].lo, units[last - 1].hi)
  {
    last, count := first, 0;
    var start := units[first].lo;
    while last < |units|
      invariant first <= last <= |units|
      invariant GrowEnd(units, FromPage(lex, tokens), cap, first, last)
             == GrowEnd(units, FromPage(lex, tokens), cap, first, first)
      invariant last > first ==> count == FromPage(lex, tokens)(start, units[last - 1].hi)
    {
      var size := tokens.Count(lex, start, units[last].hi);
      if size > cap {
        break;
      }
      last, count := last + 1, size;
    }
  }

  method FindOverlapStart(lex: Lexicon, units: seq<Span>, tokens: Tokens, first: nat, last: nat, budget: int)
    returns (next: nat)
    requires first < last <= |units|
    ensures next == OverlapStart(units, FromPage(lex, tokens), budget, first, last, last)
  {
    next := last;
    var end := units[last - 1].hi;
    while next > first + 1
      invariant first < next <= last
      invariant OverlapStart(units, FromPage(lex, tokens), budget, first, last, next)
             == OverlapStart(units, FromPage(lex, tokens), budget, first, last, last)
    {
      if tokens.Count(lex, units[next - 1].lo, end) > budget {
        break;
      }
      next := next - 1;
    }
  }

  /** chunk_page. The last clause is what the fast form is for: under the hypotheses it
      returns what the kept reference returns. */
  method ChunkPage(lex: Lexicon, page: Page, limits: Limits, startOrd: int) returns (r: Chunking)
    ensures r == ChunkedPage(lex, page, limits, startOrd)
    ensures Faithful(lex, page.text, limits.cap) ==> r == Reference(lex, page, limits, startOrd)
  {
    hide Slice, PageUnits, Faithful, Reference, FromPage, GrowEnd, OverlapStart, RequiresReference, Ordered;
    if Faithful(lex, page.text, limits.cap) {
      FastEqualsReference(lex, page, limits, startOrd);
    }
    if RequiresReference(lex, page.text) {
      r := ReferenceChunkPage(lex, page, limits, startOrd);
      return;
    }
    var tokens := Encoded(lex, page.text);
    if !tokens.IsOrdered() {
      r := ReferenceChunkPage(lex, page, limits, startOrd);
      return;
    }
    var units := FindUnits(lex, tokens, limits.cap);
    ghost var counter := FromPage(lex, tokens);
    ghost var goal := Fast(lex, page, limits, startOrd);
    var chunks := [];
    var first := 0;
    while first < |units|
      invariant first < |units| || (units == [] && chunks == [])
      invariant first < |units| ==>
          ChunksFrom(page, startOrd, units, counter, limits, first, chunks) == goal
      decreases |units| - first
    {
      var last, count := GrowWindow(lex, units, tokens, first, limits.cap);
      var start := units[first].lo;
      if last == first {
        return TooSmall(page.number);
      }
      var end := units[last - 1].hi;
      if chunks == [] || end > chunks[|chunks| - 1].charEnd {
        chunks := chunks + [Chunk(Slice(page.text, start, end), page.language, page.number,
                                  startOrd + |chunks|, start, end, count)];
      }
      if last == |units| {
        break;
      }
      first := FindOverlapStart(lex, units, tokens, first, last, limits.overlap);
    }
    return Ok(chunks);
  }

  /** The units of the kept reference, which tokenizes a word only if it is longer than the
      cap and splits it by the same nested loops. */
  method ReferenceUnits(lex: Lexicon, text: string, cap: int) returns (units: seq<Span>)
    ensures units == PageUnits(lex, text, Retokenized(lex, text), cap)
  {
    hide Slice, Pieces;
    units := [];
    var words := Words(lex, text);
    for i := 0 to |words|
      invariant units == UnitsOf(lex, text, Retokenized(lex, text), cap, words[..i])
    {
      var w := words[i];
      assert words[..i + 1][..i] == words[..i];
      var offsets := if w.hi - w.lo > cap then lex.encode(Slice(text, w.lo, w.hi)) else [];
      if w.hi - w.lo <= cap || |offsets| <= cap {
        units := units + [w];
      } else {
        var pieces := SplitWord(lex, text, w, cap);
        units := units + pieces;
      }
    }
    assert words[..|words|] == words;
  }

  /** One round of the window loop. */
  lemma RoundStep(page: Page, startOrd: int, units: seq<Span>, count: Counter, limits: Limits,
                  first: nat, chunks: seq<Chunk>)
    requires first < |units|
    ensures var last := GrowEnd(units, count, limits.cap, first, first);
            ChunksFrom(page, startOrd, units, count, limits, first, chunks) ==
            if last == first then TooSmall(page.number)
            else
              var chunks' := Round(page, startOrd, units, count, first, last, chunks);
              if last == |units| then Ok(chunks')
              else ChunksFrom(page, startOrd, units, count, limits,
                              OverlapStart(units, count, limits.overlap, first, last, last), chunks')
  {
  }

  method ReferenceChunkPage(lex: Lexicon, page: Page, limits: Limits, startOrd: int) returns (r: Chunking)
    ensures r == Reference(lex, page, limits, startOrd)
  {
    hide Slice, PageUnits, ChunksFrom;
    var units := ReferenceUnits(lex, page.text, limits.cap);
    ghost var counter := Retokenized(lex, page.text);
    ghost var goal := Reference(lex, page, limits, startOrd);
    var chunks := [];
    var first := 0;
    while first < |units|
      invariant first < |units| || (units == [] && chunks == [])
      invariant first < |units| ==>
          ChunksFrom(page, startOrd, units, counter, limits, first, chunks) == goal
      decreases |units| - first
    {
      ghost var grown := GrowEnd(units, counter, limits.cap, first, first);
      var last, count := first, 0;
      var start := units[first].lo;
      while last < |units|
        invariant first <= last <= |units|
        invariant GrowEnd(units, counter, limits.cap, first, last) == grown
        invariant last > first ==> count == counter(start, units[last - 1].hi)
      {
        var size := |lex.encode(Slice(page.text, start, units[last].hi))|;
        if size > limits.cap {
          break;
        }
        last, count := last + 1, size;
      }
      assert last == grown;
      RoundStep(page, startOrd, units, counter, limits, first, chunks);
      if last == first {
        return TooSmall(page.number);
      }
      var end := units[last - 1].hi;
      if chunks == [] || end > chunks[|chunks| - 1].charEnd {
        chunks := chunks + [Chunk(Slice(page.text, start, end), page.language, page.number,
                                  startOrd + |chunks|, start, end, count)];
      }
      if last == |units| {
        break;
      }
      ghost var back := OverlapStart(units, counter, limits.overlap, first, last, last);
      var next := last;
      while next > first + 1
        invariant first < next <= last
        invariant OverlapStart(units, counter, limits.overlap, first, last, next) == back
      {
        var overlap := Slice(page.text, units[next - 1].lo, end);
        if |lex.encode(overlap)| > limits.overlap {
          break;
        }
        next := next - 1;
      }
      first := next;
    }
    return Ok(chunks);
  }

  // ---------- the fast form refines the reference ----------

  /** What the equivalence asks of a tokenizer on a page that passes both guards. */
  ghost predicate Faithful(lex: Lexicon, text: string, cap: int) {
    Guarded(lex, text) || (Local(lex, text) && OnLongWords(lex, text, cap, InsideWord()))
  }

  lemma {:induction false} SameUnits(lex: Lexicon, text: string, cap: int, words: seq<Span>)
    requires Local(lex, text) && Ordered(lex.encode(text)) && InOrder(lex, text, words, 0)
    ensures UnitsOf(lex, text, FromPage(lex, Encoded(lex, text)), cap, words)
         == UnitsOf(lex, text, Retokenized(lex, text), cap, words)
  {
    hide FromPage, Retokenized, Pieces, Local;
    if words != [] {
      var n := |words| - 1;
      SameUnits(lex, text, cap, words[..n]);
      assert words[n] in words;
      CountersAgree(lex, text, words[n].lo, words[n].hi);
    }
  }

  /** The refinement: both forms return the same chunks, or both fail on the same page. */
  lemma FastEqualsReference(lex: Lexicon, page: Page, limits: Limits, startOrd: int)
    requires Faithful(lex, page.text, limits.cap)
    ensures ChunkedPage(lex, page, limits, startOrd) == Reference(lex, page, limits, startOrd)
  {
    if !Guarded(lex, page.text) {
      var c, d := FromPage(lex, Encoded(lex, page.text)), Retokenized(lex, page.text);
      WordsInOrder(lex, page.text);
      SameUnits(lex, page.text, limits.cap, Words(lex, page.text));
      var units := PageUnits(lex, page.text, d, limits.cap);
      PageUnitsAim(lex, page.text, d, limits.cap);
      forall i, j | 0 <= i <= j < |units| ensures c(units[i].lo, units[j].hi) == d(units[i].lo, units[j].hi) {
        assert units[i] in units && units[j] in units;
        assert Aims(lex, page.text)(units[i], units[j]);
        CountersAgree(lex, page.text, units[i].lo, units[j].hi);
      }
      if units != [] {
        SameChunks(page, startOrd, units, c, d, limits, 0, []);
      }
    }
  }

  /** A control, format, surrogate or private character or a line or paragraph separator, other than
      tab, line feed and carriage return. */
  predicate Unsafe(lex: Lexicon, c: char) {
    c != '\t' && c != '\n' && c != '\r' && lex.category(c) in {"Cc", "Cf", "Cs", "Co", "Zl", "Zp"}
  }

  predicate RunsBackwards(o: seq<Span>) {
    exists i | 0 < i < |o| :: o[i].lo < o[i - 1].lo || o[i].hi < o[i - 1].hi
  }

  lemma OrderedExactly(o: seq<Span>)
    ensures Ordered(o) <==> !RunsBackwards(o)
  {
    if RunsBackwards(o) {
      var i :| 0 < i < |o| && (o[i].lo < o[i - 1].lo || o[i].hi < o[i - 1].hi);
      if Ordered(o) {
        OrderedAt(o, i - 1, i);
      }
    }
  }

  /** A page with an unsafe character, or with token bounds that run backwards, is chunked by the
      reference, whatever the tokenizer; every other page is chunked from one encoding. */
  lemma GuardsExactly(lex: Lexicon, page: Page, limits: Limits, startOrd: int)
    ensures ChunkedPage(lex, page, limits, startOrd) ==
              if (exists i | 0 <= i < |page.text| :: Unsafe(lex, page.text[i])) || RunsBackwards(lex.encode(page.text))
              then Reference(lex, page, limits, startOrd) else Fast(lex, page, limits, startOrd)
  {
    hide Reference, Fast, Ordered, RunsBackwards;
    OrderedExactly(lex.encode(page.text));
    assert forall c :: Unsafe(lex, c) <==> c !in "\t\n\r" && lex.category(c) in UNSAFE_CATEGORIES;
  }

  // ---------- what both forms promise ----------

  /** The counter the page is chunked with. */
  function CounterOf(lex: Lexicon, text: string): Counter {
    if Guarded(lex, text) then Retokenized(lex, text) else FromPage(lex, Encoded(lex, text))
  }

  lemma ChunkedWithCounter(lex: Lexicon, page: Page, limits: Limits, startOrd: int)
    ensures var count := CounterOf(lex, page.text);
            ChunkedPage(lex, page, limits, startOrd)
            == ChunkUnits(page, startOrd, PageUnits(lex, page.text, count, limits.cap), count, limits)
  {
  }

  /** Nothing is lost: every character that is not whitespace lies in an emitted chunk, when
      the tokens of an oversized word are ordered and leave no character of it out. The
      tokenizer need not be local. */
  lemma EveryCharacterIsCovered(lex: Lexicon, page: Page, limits: Limits, startOrd: int, p: int)
    requires OnLongWords(lex, page.text, limits.cap, InsideWord())
    requires OnLongWords(lex, page.text, limits.cap, OrderedWord())
    requires OnLongWords(lex, page.text, limits.cap, GaplessWord())
    requires ChunkedPage(lex, page, limits, startOrd).Ok?
    requires 0 <= p < |page.text| && !lex.isSpace(page.text[p])
    ensures exists c | c in ChunkedPage(lex, page, limits, startOrd).chunks :: c.charStart <= p < c.charEnd
  {
    hide CounterOf, ChunkedPage, OnLongWords, UnitsOf, ChunksFrom, Ascending;
    ChunkedWithCounter(lex, page, limits, startOrd);
    var count := CounterOf(lex, page.text);
    var units := PageUnits(lex, page.text, count, limits.cap);
    WordsInOrder(lex, page.text);
    WordsFromPartition(lex, page.text, 0);
    var words := Words(lex, page.text);
    assert InSomeWord(words, p);
    var w :| w in words && w.lo <= p < w.hi;
    UnitsHold(lex, page.text, count, limits.cap, words, w, p);
    var u :| u in units && u.lo <= p < u.hi;
    PageUnitsAscend(lex, page.text, count, limits.cap);
    ChunksCoverUnits(page, startOrd, units, count, limits, 0, 0, []);
    assert Covers(ChunkedPage(lex, page, limits, startOrd).chunks, u);
  }

  /** For every tokenizer, local or not, whose tokens of an oversized word start in strictly
      increasing places: consecutive ordinals, exact texts, counts within the cap, and starts and
      ends that strictly increase, so that no chunk contains another. */
  lemma {:induction false} ChunksAreWellShaped(lex: Lexicon, page: Page, limits: Limits, startOrd: int)
    requires OnLongWords(lex, page.text, limits.cap, InsideWord())
    requires OnLongWords(lex, page.text, limits.cap, StrictWord())
    ensures var r := ChunkedPage(lex, page, limits, startOrd);
            r.Ok? ==>
              && WellShaped(page, startOrd, CounterOf(lex, page.text), limits.cap, r.chunks)
              && forall c | c in r.chunks ::
                   0 <= c.charStart < c.charEnd <= |page.text| && c.text == page.text[c.charStart..c.charEnd]
  {
    hide CounterOf, ChunkedPage, OnLongWords, ChunksFrom;
    ChunkedWithCounter(lex, page, limits, startOrd);
    var count := CounterOf(lex, page.text);
    var units := PageUnits(lex, page.text, count, limits.cap);
    PageUnitsStrict(lex, page.text, count, limits.cap);
    if units != [] {
      ChunksShaped(page, startOrd, units, count, limits, 0, []);
      ChunksOnPage(page, startOrd, units, count, limits, |page.text|, 0, []);
    }
  }

  /** Under locality and a monotone count, moreover: the token counts are what encoding the
      chunks again gives, and consecutive chunks share at most the overlap budget, even across
      windows that were skipped. */
  lemma {:induction false} CountsAndOverlapsReencode(lex: Lexicon, page: Page, limits: Limits, startOrd: int)
    requires Faithful(lex, page.text, limits.cap)
    requires OnLongWords(lex, page.text, limits.cap, InsideWord())
    requires OnLongWords(lex, page.text, limits.cap, ChainedWord())
    requires Monotone(Retokenized(lex, page.text), |page.text|) && limits.overlap <= limits.cap
    ensures var r := ChunkedPage(lex, page, limits, startOrd);
            r.Ok? ==>
              && (forall c | c in r.chunks :: c.tokenCount == |lex.encode(c.text)| <= limits.cap)
              && OverlapsWithin(Retokenized(lex, page.text), limits.overlap, r.chunks)
  {
    hide ChunkedPage, OnLongWords, ChunksFrom, Faithful, Monotone, Retokenized;
    FastEqualsReference(lex, page, limits, startOrd);
    var count := Retokenized(lex, page.text);
    var units := PageUnits(lex, page.text, count, limits.cap);
    PageUnitsDisjoint(lex, page.text, count, limits.cap);
    if units != [] {
      ChunksShaped(page, startOrd, units, count, limits, 0, []);
      ChunksOverlapWithin(page, startOrd, units, count, limits, |page.text|, 0, 0, []);
    }
    var r := ChunkedPage(lex, page, limits, startOrd);
    if r.Ok? {
      forall c | c in r.chunks ensures c.tokenCount == |lex.encode(c.text)| <= limits.cap {
        var i :| 0 <= i < |r.chunks| && r.chunks[i] == c;
        RetokenizedIs(lex, page.text, c.charStart, c.charEnd);
      }
    }
  }

  lemma RetokenizedIs(lex: Lexicon, text: string, lo: int, hi: int)
    ensures Retokenized(lex, text)(lo, hi) == |lex.encode(Slice(text, lo, hi))|
  {
  }

  /** The exact condition of failure: some unit, retokenized alone, exceeds the cap. */
  lemma {:induction false} FailsExactlyWhenAUnitIsTooLarge(lex: Lexicon, page: Page, limits: Limits, startOrd: int)
    requires Faithful(lex, page.text, limits.cap)
    requires OnLongWords(lex, page.text, limits.cap, InsideWord())
    requires OnLongWords(lex, page.text, limits.cap, ChainedWord())
    requires Monotone(Retokenized(lex, page.text), |page.text|)
    ensures ChunkedPage(lex, page, limits, startOrd) == TooSmall(page.number)
       <==> exists u | u in PageUnits(lex, page.text, Retokenized(lex, page.text), limits.cap) ::
              !Fits(Retokenized(lex, page.text), limits.cap, u)
  {
    FastEqualsReference(lex, page, limits, startOrd);
    var count := Retokenized(lex, page.text);
    var units := PageUnits(lex, page.text, count, limits.cap);
    PageUnitsDisjoint(lex, page.text, count, limits.cap);
    if units != [] {
      FailsExactlyOnOversizedUnit(page, startOrd, units, count, limits, |page.text|, 0, []);
      FailureNamesThePage(page, startOrd, units, count, limits, 0, []);
    }
  }

  lemma {:induction false} FailureNamesThePage(page: Page, startOrd: int, units: seq<Span>, count: Counter,
                                               limits: Limits, first: nat, chunks: seq<Chunk>)
    requires first < |units|
    ensures var r := ChunksFrom(page, startOrd, units, count, limits, first, chunks);
            r.TooSmall? ==> r.page == page.number
    decreases |units| - first
  {
    var last := GrowEnd(units, count, limits.cap, first, first);
    if first < last < |units| {
      FailureNamesThePage(page, startOrd, units, count, limits,
                          OverlapStart(units, count, limits.overlap, first, last, last),
                          Round(page, startOrd, units, count, first, last, chunks));
    }
  }

  /** Ordinals are consecutive for every tokenizer, with no hypothesis. */
  lemma OrdinalsAreConsecutive(lex: Lexicon, page: Page, limits: Limits, startOrd: int)
    ensures var r := ChunkedPage(lex, page, limits, startOrd);
            r.Ok? ==> Numbered(startOrd, r.chunks)
  {
    var fast, slow := FromPage(lex, Encoded(lex, page.text)), Retokenized(lex, page.text);
    if PageUnits(lex, page.text, fast, limits.cap) != [] {
      ChunksNumbered(page, startOrd, PageUnits(lex, page.text, fast, limits.cap), fast, limits, 0, []);
    }
    if PageUnits(lex, page.text, slow, limits.cap) != [] {
      ChunksNumbered(page, startOrd, PageUnits(lex, page.text, slow, limits.cap), slow, limits, 0, []);
    }
  }
}
