/** Chunking told without its loops: which windows there are, which of them become chunks, and where
    a long word is cut. Every tokenizer and every counter is allowed. */
module Traces {
  import opened Text
  import opened PageTokens
  import opened Windows
  import opened Units
  import opened Chunker

  /** The units from first up to last, exclusive. */
  datatype Window = Window(first: nat, last: nat)

  /** The longest run of units from first that fits the cap, every shorter one fitting too. */
  predicate Longest(units: seq<Span>, count: Counter, cap: int, w: Window) {
    && w.first < w.last <= |units|
    && (forall j | w.first <= j < w.last :: count(units[w.first].lo, units[j].hi) <= cap)
    && (w.last < |units| ==> count(units[w.first].lo, units[w.last].hi) > cap)
  }

  /** The next window starts where as many units of this one are repeated as fit the overlap, but not
      its first. */
  predicate Repeats(units: seq<Span>, count: Counter, overlap: int, w: Window, next: nat)
    requires w.first < w.last < |units|
  {
    var end := units[w.last - 1].hi;
    && w.first < next <= w.last
    && (forall j | next <= j < w.last :: count(units[j].lo, end) <= overlap)
    && (next > w.first + 1 ==> count(units[next - 1].lo, end) > overlap)
  }

  /** All windows, from the first unit to the last one. */
  predicate Traced(units: seq<Span>, count: Counter, limits: Limits, ws: seq<Window>) {
    && ws != [] && ws[0].first == 0 && ws[|ws| - 1].last == |units|
    && Linked(units, count, limits, ws)
  }

  predicate Linked(units: seq<Span>, count: Counter, limits: Limits, ws: seq<Window>) {
    && (forall i | 0 <= i < |ws| :: Longest(units, count, limits.cap, ws[i]))
    && forall i | 0 <= i < |ws| - 1 ::
         ws[i].last < |units| && Repeats(units, count, limits.overlap, ws[i], ws[i + 1].first)
  }

  function EndOf(units: seq<Span>, w: Window): int
    requires 0 < w.last <= |units|
  {
    units[w.last - 1].hi
  }

  predicate Within(units: seq<Span>, ws: seq<Window>) {
    forall w | w in ws :: w.first < w.last <= |units|
  }

  /** Window i ends past every window before it. */
  predicate Extends(units: seq<Span>, ws: seq<Window>, i: nat)
    requires i < |ws| && Within(units, ws)
  {
    forall j | 0 <= j < i :: EndOf(units, ws[j]) < EndOf(units, ws[i])
  }

  /** The chunk is cut by the window. */
  predicate CutBy(page: Page, ord: int, units: seq<Span>, count: Counter, w: Window, c: Chunk)
    requires w.first < w.last <= |units|
  {
    && c.charStart == units[w.first].lo && c.charEnd == units[w.last - 1].hi
    && c.text == Slice(page.text, c.charStart, c.charEnd) && c.tokenCount == count(c.charStart, c.charEnd)
    && c.page == page.number && c.language == page.language && c.ord == ord
  }

  /** The chunks are cut by exactly the windows that extend what is covered, in order. */
  ghost predicate Emits(page: Page, startOrd: int, units: seq<Span>, count: Counter, ws: seq<Window>,
                        chunks: seq<Chunk>, picks: seq<nat>)
    requires Within(units, ws)
  {
    && |picks| == |chunks|
    && (forall k, m | 0 <= k < m < |picks| :: picks[k] < picks[m])
    && (forall i: nat :: i in picks <==> i < |ws| && Extends(units, ws, i))
    && (forall k | 0 <= k < |chunks| ::
         picks[k] in picks && CutBy(page, startOrd + k, units, count, ws[picks[k]], chunks[k]))
  }

  /** The windows so far are linked, the next one starts at first, and the last chunk ends where the
      furthest of them does. */
  ghost predicate SoFar(page: Page, startOrd: int, units: seq<Span>, count: Counter, limits: Limits, first: nat,
                        chunks: seq<Chunk>, ws: seq<Window>, picks: seq<nat>)
  {
    && Linked(units, count, limits, ws)
    && (forall i | 0 <= i < |ws| :: ws[i].first < ws[i].last <= |units|)
    && Within(units, ws)
    && Emits(page, startOrd, units, count, ws, chunks, picks)
    && (if ws == [] then first == 0 && chunks == []
        else
          && ws[0].first == 0 && ws[|ws| - 1].last < |units| && chunks != []
          && Repeats(units, count, limits.overlap, ws[|ws| - 1], first)
          && forall i | 0 <= i < |ws| :: EndOf(units, ws[i]) <= chunks[|chunks| - 1].charEnd)
  }

  /** One more window. */
  lemma NextWindow(page: Page, startOrd: int, units: seq<Span>, count: Counter, limits: Limits, first: nat,
                   chunks: seq<Chunk>, ws: seq<Window>, picks: seq<nat>, last: nat) returns (picks': seq<nat>)
    requires first < |units| && SoFar(page, startOrd, units, count, limits, first, chunks, ws, picks)
    requires Longest(units, count, limits.cap, Window(first, last))
    ensures var ws', chunks' := ws + [Window(first, last)], Round(page, startOrd, units, count, first, last, chunks);
            && Linked(units, count, limits, ws') && ws'[0].first == 0
            && Within(units, ws')
            && Emits(page, startOrd, units, count, ws', chunks', picks') && chunks' != []
            && forall i | 0 <= i < |ws'| :: EndOf(units, ws'[i]) <= chunks'[|chunks'| - 1].charEnd
  {
    hide Longest, Repeats, Emits, CutBy;
    var w := Window(first, last);
    LongestBounds(units, count, limits.cap, w);
    if chunks == [] || EndOf(units, w) > chunks[|chunks| - 1].charEnd {
      picks' := picks + [|ws|];
      EmitsMore(page, startOrd, units, count, ws, chunks, picks, w);
    } else {
      picks' := picks;
      EmitsNoMore(page, startOrd, units, count, ws, chunks, picks, w);
    }
  }

  /** The windows before the last one extend what they extended without it. */
  lemma SameExtends(units: seq<Span>, ws: seq<Window>, w: Window, i: nat)
    requires Within(units, ws + [w]) && i < |ws|
    ensures Within(units, ws)
    ensures Extends(units, ws + [w], i) <==> Extends(units, ws, i)
  {
    forall v | v in ws ensures v in ws + [w] {
    }
    assert forall j | 0 <= j <= i :: (ws + [w])[j] == ws[j];
  }

  lemma EmitsMore(page: Page, startOrd: int, units: seq<Span>, count: Counter, ws: seq<Window>, chunks: seq<Chunk>,
                  picks: seq<nat>, w: Window)
    requires Within(units, ws + [w]) && Within(units, ws)
    requires Emits(page, startOrd, units, count, ws, chunks, picks)
    requires chunks == [] ==> ws == []
    requires chunks != [] ==> forall i | 0 <= i < |ws| :: EndOf(units, ws[i]) <= chunks[|chunks| - 1].charEnd
    requires chunks == [] || EndOf(units, w) > chunks[|chunks| - 1].charEnd
    ensures var chunks' := Round(page, startOrd, units, count, w.first, w.last, chunks);
            && chunks' == chunks + [chunks'[|chunks|]] && chunks'[|chunks|].charEnd == EndOf(units, w)
            && Emits(page, startOrd, units, count, ws + [w], chunks', picks + [|ws|])
  {
    hide Extends;
    var chunks' := Round(page, startOrd, units, count, w.first, w.last, chunks);
    var picks' := picks + [|ws|];
    assert w in ws + [w] && (ws + [w])[|ws|] == w;
    forall i: nat ensures i in picks' <==> i < |ws + [w]| && Extends(units, ws + [w], i) {
      if i < |ws| {
        SameExtends(units, ws, w, i);
      } else if i == |ws| {
        LastExtends(units, ws, w);
        assert picks'[|picks|] == i;
      }
    }
    forall k | 0 <= k < |picks| ensures picks[k] < |ws| {
      assert picks[k] in picks;
    }
    forall k | 0 <= k < |chunks'|
      ensures picks'[k] in picks' && CutBy(page, startOrd + k, units, count, (ws + [w])[picks'[k]], chunks'[k])
    {
      assert picks'[k] in picks';
    }
  }

  lemma LastExtends(units: seq<Span>, ws: seq<Window>, w: Window)
    requires Within(units, ws + [w]) && Within(units, ws)
    requires forall i | 0 <= i < |ws| :: EndOf(units, ws[i]) < EndOf(units, w)
    ensures Extends(units, ws + [w], |ws|)
  {
  }

  lemma EmitsNoMore(page: Page, startOrd: int, units: seq<Span>, count: Counter, ws: seq<Window>, chunks: seq<Chunk>,
                    picks: seq<nat>, w: Window)
    requires Within(units, ws + [w]) && Within(units, ws)
    requires Emits(page, startOrd, units, count, ws, chunks, picks)
    requires chunks != [] && EndOf(units, w) <= chunks[|chunks| - 1].charEnd
    ensures Emits(page, startOrd, units, count, ws + [w], chunks, picks)
  {
    hide Extends, CutBy;
    forall i: nat ensures i in picks <==> i < |ws + [w]| && Extends(units, ws + [w], i) {
      if i < |ws| {
        SameExtends(units, ws, w, i);
      } else if i == |ws| {
        StaysBehind(page, startOrd, units, count, ws, chunks, picks, w);
      }
    }
    forall k | 0 <= k < |picks| ensures picks[k] < |ws| {
      assert picks[k] in picks;
    }
  }

  lemma LongestBounds(units: seq<Span>, count: Counter, cap: int, w: Window)
    requires Longest(units, count, cap, w)
    ensures w.first < w.last <= |units|
  {
  }

  /** A window that ends no later than the last chunk does not extend what is covered. */
  lemma StaysBehind(page: Page, startOrd: int, units: seq<Span>, count: Counter, ws: seq<Window>, chunks: seq<Chunk>,
                    picks: seq<nat>, w: Window)
    requires Within(units, ws + [w])
    requires Emits(page, startOrd, units, count, ws, chunks, picks)
    requires chunks != [] && EndOf(units, w) <= chunks[|chunks| - 1].charEnd
    ensures !Extends(units, ws + [w], |ws|)
  {
    var n := |chunks| - 1;
    assert picks[n] in picks;
    assert (ws + [w])[picks[n]] == ws[picks[n]];
  }

  lemma {:induction false} TraceFrom(page: Page, startOrd: int, units: seq<Span>, count: Counter, limits: Limits,
                                     first: nat, chunks: seq<Chunk>, ws: seq<Window>, picks: seq<nat>)
    returns (all: seq<Window>, chosen: seq<nat>)
    requires first < |units| && SoFar(page, startOrd, units, count, limits, first, chunks, ws, picks)
    ensures var r := ChunksFrom(page, startOrd, units, count, limits, first, chunks);
            r.Ok? ==>
              && Traced(units, count, limits, all) && Within(units, all)
              && Emits(page, startOrd, units, count, all, r.chunks, chosen)
    decreases |units| - first
  {
    hide Emits, Linked, Longest, Repeats, Round, Within;
    all, chosen := ws, picks;
    var last := GrowEnd(units, count, limits.cap, first, first);
    if first < last {
      GrownIsLongest(units, count, limits.cap, first);
      all := ws + [Window(first, last)];
      chosen := NextWindow(page, startOrd, units, count, limits, first, chunks, ws, picks, last);
      if last < |units| {
        var next := OverlapStart(units, count, limits.overlap, first, last, last);
        BackedUpRepeats(units, count, limits.overlap, first, last);
        WithinAt(units, all);
        all, chosen := TraceFrom(page, startOrd, units, count, limits, next,
                                 Round(page, startOrd, units, count, first, last, chunks), all, chosen);
      }
    }
  }

  lemma GrownIsLongest(units: seq<Span>, count: Counter, cap: int, first: nat)
    requires first < |units| && first < GrowEnd(units, count, cap, first, first)
    ensures Longest(units, count, cap, Window(first, GrowEnd(units, count, cap, first, first)))
  {
    GrowEndIsMaximal(units, count, cap, first, first);
  }

  lemma BackedUpRepeats(units: seq<Span>, count: Counter, overlap: int, first: nat, last: nat)
    requires first < last < |units|
    ensures Repeats(units, count, overlap, Window(first, last), OverlapStart(units, count, overlap, first, last, last))
  {
    OverlapStartIsMinimal(units, count, overlap, first, last, last);
  }

  lemma WithinAt(units: seq<Span>, ws: seq<Window>)
    requires Within(units, ws)
    ensures forall i | 0 <= i < |ws| :: ws[i].first < ws[i].last <= |units|
  {
    assert forall i | 0 <= i < |ws| :: ws[i] in ws;
  }

  lemma NothingSoFar(page: Page, startOrd: int, units: seq<Span>, count: Counter, limits: Limits)
    ensures SoFar(page, startOrd, units, count, limits, 0, [], [], [])
  {
  }

  /** Chunking told without its loops, for every tokenizer: there is a list of windows, each the
      longest that fits the cap, each next one repeating the longest tail that fits the overlap, from
      the first unit to the last; and the chunks are cut by exactly those windows that end past all
      before them, in order. */
  lemma ChunksFollowWindows(lex: Lexicon, page: Page, limits: Limits, startOrd: int)
    returns (ws: seq<Window>, picks: seq<nat>)
    ensures var count := CounterOf(lex, page.text);
            var units := PageUnits(lex, page.text, count, limits.cap);
            var r := ChunkedPage(lex, page, limits, startOrd);
            && (units == [] ==> r == Ok([]))
            && (units != [] && r.Ok? ==>
                  && Traced(units, count, limits, ws) && Within(units, ws)
                  && Emits(page, startOrd, units, count, ws, r.chunks, picks))
  {
    hide CounterOf, ChunkedPage, SoFar, Emits, Traced, PageUnits;
    ws, picks := [], [];
    ChunkedWithCounter(lex, page, limits, startOrd);
    var count := CounterOf(lex, page.text);
    var units := PageUnits(lex, page.text, count, limits.cap);
    if units != [] {
      NothingSoFar(page, startOrd, units, count, limits);
      ws, picks := TraceFrom(page, startOrd, units, count, limits, 0, [], [], []);
    }
  }

  // ---------- where words are cut ----------

  /** The piece from token first up to last, exclusive: after its first token come as many more as
      still encode within the cap. */
  predicate CutAt(lex: Lexicon, word: string, offsets: seq<Span>, base: int, cap: int, first: nat, last: nat, u: Span)
    requires last <= |offsets|
  {
    && first < last && u == Span(base + offsets[first].lo, base + offsets[last - 1].hi)
    && (forall j | first < j < last :: |lex.encode(Slice(word, offsets[first].lo, offsets[j].hi))| <= cap)
    && (last < |offsets| ==> |lex.encode(Slice(word, offsets[first].lo, offsets[last].hi))| > cap)
  }

  /** The pieces of an oversized word lie between consecutive cuts, from the first token to the last. */
  predicate CutsWord(lex: Lexicon, word: string, offsets: seq<Span>, base: int, cap: int, from: nat, cuts: seq<nat>,
                     pieces: seq<Span>)
  {
    && |cuts| == |pieces| + 1 && cuts[0] == from && cuts[|pieces|] == |offsets|
    && (forall i | 0 <= i < |cuts| :: cuts[i] <= |offsets|)
    && forall i | 0 <= i < |pieces| :: CutAt(lex, word, offsets, base, cap, cuts[i], cuts[i + 1], pieces[i])
  }

  lemma FirstCut(lex: Lexicon, word: string, offsets: seq<Span>, base: int, cap: int, first: nat)
    requires first < |offsets|
    ensures var last := GrowEnd(offsets, Retokenized(lex, word), cap, first, first + 1);
            CutAt(lex, word, offsets, base, cap, first, last,
                  Span(base + offsets[first].lo, base + offsets[last - 1].hi))
  {
    GrowEndIsMaximal(offsets, Retokenized(lex, word), cap, first, first + 1);
  }

  lemma CutsOn(lex: Lexicon, word: string, offsets: seq<Span>, base: int, cap: int, first: nat, last: nat,
               cuts: seq<nat>, u: Span, pieces: seq<Span>)
    requires first <= |offsets| && last <= |offsets| && CutAt(lex, word, offsets, base, cap, first, last, u)
    requires CutsWord(lex, word, offsets, base, cap, last, cuts, pieces)
    ensures CutsWord(lex, word, offsets, base, cap, first, [first] + cuts, [u] + pieces)
  {
    hide CutAt;
  }

  lemma {:induction false} SplitCuts(lex: Lexicon, word: string, offsets: seq<Span>, base: int, cap: int, first: nat)
    returns (cuts: seq<nat>)
    requires first <= |offsets|
    ensures CutsWord(lex, word, offsets, base, cap, first, cuts, Split(lex, word, offsets, base, cap, first))
    decreases |offsets| - first
  {
    hide CutAt;
    if first == |offsets| {
      cuts := [first];
    } else {
      hide CutsWord;
      var last := GrowEnd(offsets, Retokenized(lex, word), cap, first, first + 1);
      FirstCut(lex, word, offsets, base, cap, first);
      var rest := SplitCuts(lex, word, offsets, base, cap, last);
      cuts := [first] + rest;
      CutsOn(lex, word, offsets, base, cap, first, last, rest,
             Span(base + offsets[first].lo, base + offsets[last - 1].hi),
             Split(lex, word, offsets, base, cap, last));
    }
  }

  /** Which units a word gives: itself, if it is no longer than the cap or counts within it; its
      pieces, cut between its tokens, otherwise. Words are handled in order. */
  lemma WordUnits(lex: Lexicon, text: string, count: Counter, cap: int, w: Span) returns (cuts: seq<nat>)
    requires IsWord(lex, text, w)
    ensures w.hi - w.lo <= cap || count(w.lo, w.hi) <= cap ==> UnitsFor(lex, text, count, cap, w) == [w]
    ensures w.hi - w.lo > cap && count(w.lo, w.hi) > cap ==>
              CutsWord(lex, text[w.lo..w.hi], lex.encode(text[w.lo..w.hi]), w.lo, cap, 0, cuts,
                       UnitsFor(lex, text, count, cap, w))
  {
    cuts := SplitCuts(lex, text[w.lo..w.hi], lex.encode(text[w.lo..w.hi]), w.lo, cap, 0);
    assert Slice(text, w.lo, w.hi) == text[w.lo..w.hi];
  }

  /** The units of a page are those of its words, in order. */
  function Concat(lists: seq<seq<Span>>): seq<Span> {
    if lists == [] then [] else Concat(lists[..|lists| - 1]) + lists[|lists| - 1]
  }

  lemma {:induction false} UnitsAreOfWords(lex: Lexicon, text: string, count: Counter, cap: int, words: seq<Span>)
    ensures UnitsOf(lex, text, count, cap, words)
         == Concat(seq(|words|, i requires 0 <= i < |words| => UnitsFor(lex, text, count, cap, words[i])))
  {
    var lists := seq(|words|, i requires 0 <= i < |words| => UnitsFor(lex, text, count, cap, words[i]));
    if words != [] {
      var n := |words| - 1;
      UnitsAreOfWords(lex, text, count, cap, words[..n]);
      assert lists[..n] == seq(n, i requires 0 <= i < n => UnitsFor(lex, text, count, cap, words[..n][i]));
    }
  }
}
