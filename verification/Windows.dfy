/** Overlapping windows over a list of units, for an arbitrary counter of slices.

    The fast chunker and its kept reference are the same windowing with two counters;
    the theorems here are about the windowing and hold for both. */
module Windows {
  import opened Text

  type Counter = (int, int) -> int

  datatype Page = Page(number: int, text: string, language: string)

  datatype Chunk = Chunk(text: string, language: string, page: int, ord: int,
                         charStart: int, charEnd: int, tokenCount: int)

  /** Ok(chunks), or the error raised when a unit alone exceeds the cap. */
  datatype Chunking = Ok(chunks: seq<Chunk>) | TooSmall(page: int)

  datatype Limits = Limits(cap: int, overlap: int)

  /** The end of the longest run of units from first that fits the cap, given that the
      run up to last fits. */
  function GrowEnd(units: seq<Span>, count: Counter, cap: int, first: nat, last: nat): (end: nat)
    requires first < |units| && last <= |units|
    ensures last <= end <= |units|
    decreases |units| - last
  {
    if last < |units| && count(units[first].lo, units[last].hi) <= cap
    then GrowEnd(units, count, cap, first, last + 1)
    else last
  }

  /** Where the next window starts: back from next while the repeated tail fits the budget,
      but always past first. */
  function OverlapStart(units: seq<Span>, count: Counter, budget: int, first: nat, last: nat, next: nat): (r: nat)
    requires first < next <= last <= |units|
    ensures first < r <= next
    decreases next
  {
    if next > first + 1 && count(units[next - 1].lo, units[last - 1].hi) <= budget
    then OverlapStart(units, count, budget, first, last, next - 1)
    else next
  }

  /** The window is the longest that fits: all of it counts within the cap, one more unit
      does not. */
  lemma {:induction false} GrowEndIsMaximal(units: seq<Span>, count: Counter, cap: int, first: nat, last: nat)
    requires first < |units| && last <= |units|
    ensures var end := GrowEnd(units, count, cap, first, last);
            && (forall j | last <= j < end :: count(units[first].lo, units[j].hi) <= cap)
            && (end < |units| ==> count(units[first].lo, units[end].hi) > cap)
    decreases |units| - last
  {
    if last < |units| && count(units[first].lo, units[last].hi) <= cap {
      GrowEndIsMaximal(units, count, cap, first, last + 1);
    }
  }

  /** The repeated tail is the longest that fits the budget and starts past first. */
  lemma {:induction false} OverlapStartIsMinimal(units: seq<Span>, count: Counter, budget: int,
                                                 first: nat, last: nat, next: nat)
    requires first < next <= last <= |units|
    ensures var r := OverlapStart(units, count, budget, first, last, next);
            && (forall j | r <= j < next :: count(units[j].lo, units[last - 1].hi) <= budget)
            && (r > first + 1 ==> count(units[r - 1].lo, units[last - 1].hi) > budget)
    decreases next
  {
    if next > first + 1 && count(units[next - 1].lo, units[last - 1].hi) <= budget {
      OverlapStartIsMinimal(units, count, budget, first, last, next - 1);
    }
  }

  function ChunkOf(page: Page, startOrd: int, n: nat, lo: int, hi: int, tokens: int): Chunk {
    Chunk(Slice(page.text, lo, hi), page.language, page.number, startOrd + n, lo, hi, tokens)
  }

  /** Append the window unless it ends no later than the last chunk. */
  function Emit(page: Page, startOrd: int, chunks: seq<Chunk>, lo: int, hi: int, tokens: int): seq<Chunk> {
    if chunks == [] || hi > chunks[|chunks| - 1].charEnd
    then chunks + [ChunkOf(page, startOrd, |chunks|, lo, hi, tokens)]
    else chunks
  }

  /** One round of the window loop, first < last. */
  function Round(page: Page, startOrd: int, units: seq<Span>, count: Counter,
                 first: nat, last: nat, chunks: seq<Chunk>): seq<Chunk>
    requires first < last <= |units|
  {
    var lo, hi := units[first].lo, units[last - 1].hi;
    Emit(page, startOrd, chunks, lo, hi, count(lo, hi))
  }

  /** The window loop from unit first on, with the chunks emitted so far. It ends because
      every window starts past the one before. */
  function ChunksFrom(page: Page, startOrd: int, units: seq<Span>, count: Counter, limits: Limits,
                      first: nat, chunks: seq<Chunk>): Chunking
    requires first < |units|
    decreases |units| - first
  {
    var last := GrowEnd(units, count, limits.cap, first, first);
    if last == first then TooSmall(page.number)
    else
      var chunks' := Round(page, startOrd, units, count, first, last, chunks);
      if last == |units| then Ok(chunks')
      else
        ChunksFrom(page, startOrd, units, count, limits,
                   OverlapStart(units, count, limits.overlap, first, last, last), chunks')
  }

  function ChunkUnits(page: Page, startOrd: int, units: seq<Span>, count: Counter, limits: Limits): Chunking {
    if units == [] then Ok([]) else ChunksFrom(page, startOrd, units, count, limits, 0, [])
  }

  // ---------- two counters that agree where it matters ----------

  ghost predicate AgreeOn(units: seq<Span>, c: Counter, d: Counter) {
    forall i, j | 0 <= i <= j < |units| :: c(units[i].lo, units[j].hi) == d(units[i].lo, units[j].hi)
  }

  lemma {:induction false} SameGrowEnd(units: seq<Span>, c: Counter, d: Counter, cap: int, first: nat, last: nat)
    requires first <= last <= |units| && first < |units| && AgreeOn(units, c, d)
    ensures GrowEnd(units, c, cap, first, last) == GrowEnd(units, d, cap, first, last)
    decreases |units| - last
  {
    if last < |units| && c(units[first].lo, units[last].hi) <= cap {
      SameGrowEnd(units, c, d, cap, first, last + 1);
    }
  }

  lemma {:induction false} SameOverlapStart(units: seq<Span>, c: Counter, d: Counter, budget: int,
                                            first: nat, last: nat, next: nat)
    requires first < next <= last <= |units| && AgreeOn(units, c, d)
    ensures OverlapStart(units, c, budget, first, last, next) == OverlapStart(units, d, budget, first, last, next)
    decreases next
  {
    assert c(units[next - 1].lo, units[last - 1].hi) == d(units[next - 1].lo, units[last - 1].hi);
    if next > first + 1 && c(units[next - 1].lo, units[last - 1].hi) <= budget {
      SameOverlapStart(units, c, d, budget, first, last, next - 1);
    }
  }

  /** Windowing depends on the counter only through slices that run from the start of a
      unit to the end of the same or a later unit. */
  lemma {:induction false} SameChunks(page: Page, startOrd: int, units: seq<Span>, c: Counter, d: Counter,
                                      limits: Limits, first: nat, chunks: seq<Chunk>)
    requires first < |units| && AgreeOn(units, c, d)
    ensures ChunksFrom(page, startOrd, units, c, limits, first, chunks)
         == ChunksFrom(page, startOrd, units, d, limits, first, chunks)
    decreases |units| - first
  {
    SameGrowEnd(units, c, d, limits.cap, first, first);
    var last := GrowEnd(units, c, limits.cap, first, first);
    if first < last < |units| {
      SameOverlapStart(units, c, d, limits.overlap, first, last, last);
      SameChunks(page, startOrd, units, c, d, limits,
                 OverlapStart(units, c, limits.overlap, first, last, last),
                 Round(page, startOrd, units, c, first, last, chunks));
    }
  }

  // ---------- coverage ----------

  predicate Covers(chunks: seq<Chunk>, u: Span) {
    exists c | c in chunks :: c.charStart <= u.lo && u.hi <= c.charEnd
  }

  /** Bounds of units never move back. */
  predicate Ascending(units: seq<Span>) {
    forall i, j | 0 <= i < j < |units| :: units[i].lo <= units[j].lo && units[i].hi <= units[j].hi
  }

  /** The emitted chunks so far cover the units before reached, and no later window can
      start to the left of the last chunk. */
  predicate CoveredUpTo(units: seq<Span>, chunks: seq<Chunk>, first: nat, reached: nat) {
    && first <= reached <= |units|
    && (first < |units| && chunks != [] ==> chunks[|chunks| - 1].charStart <= units[first].lo)
    && forall i | 0 <= i < reached :: Covers(chunks, units[i])
  }

  lemma RoundCovers(page: Page, startOrd: int, units: seq<Span>, count: Counter,
                    first: nat, last: nat, reached: nat, chunks: seq<Chunk>)
    requires Ascending(units) && first < last <= |units| && CoveredUpTo(units, chunks, first, reached)
    ensures var chunks' := Round(page, startOrd, units, count, first, last, chunks);
            && chunks' != [] && chunks'[|chunks'| - 1].charStart <= units[first].lo
            && forall i | 0 <= i < reached || first <= i < last :: Covers(chunks', units[i])
  {
    var chunks' := Round(page, startOrd, units, count, first, last, chunks);
    var newest := chunks'[|chunks'| - 1];
    assert forall c | c in chunks :: c in chunks';
    forall i | first <= i < last ensures Covers(chunks', units[i]) {
      assert newest.charStart <= units[first].lo <= units[i].lo;
      assert units[i].hi <= units[last - 1].hi <= newest.charEnd;
    }
    forall i | 0 <= i < reached ensures Covers(chunks', units[i]) {
      assert Covers(chunks, units[i]);
      var c :| c in chunks && c.charStart <= units[i].lo && units[i].hi <= c.charEnd;
      assert c in chunks';
    }
  }

  /** Every unit lies in an emitted chunk, although windows that end no later than the
      last chunk are skipped. */
  lemma {:induction false} ChunksCoverUnits(page: Page, startOrd: int, units: seq<Span>, count: Counter,
                                            limits: Limits, first: nat, reached: nat, chunks: seq<Chunk>)
    requires first < |units| && Ascending(units) && CoveredUpTo(units, chunks, first, reached)
    ensures var r := ChunksFrom(page, startOrd, units, count, limits, first, chunks);
            r.Ok? ==> forall u | u in units :: Covers(r.chunks, u)
    decreases |units| - first
  {
    var last := GrowEnd(units, count, limits.cap, first, first);
    if first < last {
      RoundCovers(page, startOrd, units, count, first, last, reached, chunks);
      if last < |units| {
        var next := OverlapStart(units, count, limits.overlap, first, last, last);
        ChunksCoverUnits(page, startOrd, units, count, limits, next, last,
                         Round(page, startOrd, units, count, first, last, chunks));
      }
    }
  }

  // ---------- ordinals ----------

  predicate Numbered(startOrd: int, chunks: seq<Chunk>) {
    forall i | 0 <= i < |chunks| :: chunks[i].ord == startOrd + i
  }

  /** Skipped windows leave no gap in the ordinals. */
  lemma {:induction false} ChunksNumbered(page: Page, startOrd: int, units: seq<Span>, count: Counter,
                                          limits: Limits, first: nat, chunks: seq<Chunk>)
    requires first < |units| && Numbered(startOrd, chunks)
    ensures var r := ChunksFrom(page, startOrd, units, count, limits, first, chunks);
            r.Ok? ==> Numbered(startOrd, r.chunks)
    decreases |units| - first
  {
    var last := GrowEnd(units, count, limits.cap, first, first);
    if first < last < |units| {
      ChunksNumbered(page, startOrd, units, count, limits,
                     OverlapStart(units, count, limits.overlap, first, last, last),
                     Round(page, startOrd, units, count, first, last, chunks));
    }
  }

  // ---------- shape ----------

  /** The page's number and language, consecutive ordinals, texts cut from the page, counted within
      the cap, and starts and ends that strictly increase, so that no chunk contains another. */
  predicate WellShaped(page: Page, startOrd: int, count: Counter, cap: int, chunks: seq<Chunk>) {
    && (forall i | 0 <= i < |chunks| ::
         && chunks[i].page == page.number && chunks[i].language == page.language && chunks[i].ord == startOrd + i
         && chunks[i].text == Slice(page.text, chunks[i].charStart, chunks[i].charEnd)
         && chunks[i].tokenCount == count(chunks[i].charStart, chunks[i].charEnd) <= cap)
    && forall i, j | 0 <= i < j < |chunks| ::
         chunks[i].charStart < chunks[j].charStart && chunks[i].charEnd < chunks[j].charEnd
  }

  predicate StrictStarts(units: seq<Span>) {
    forall i, j | 0 <= i < j < |units| :: units[i].lo < units[j].lo
  }

  /** The last chunk starts before the unit at which the next window begins. */
  predicate StartsAfter(units: seq<Span>, first: nat, chunks: seq<Chunk>)
    requires first < |units|
  {
    chunks != [] ==> chunks[|chunks| - 1].charStart < units[first].lo
  }

  lemma RoundShaped(page: Page, startOrd: int, units: seq<Span>, count: Counter, cap: int,
                    first: nat, last: nat, chunks: seq<Chunk>)
    requires first < last <= |units| && count(units[first].lo, units[last - 1].hi) <= cap
    requires WellShaped(page, startOrd, count, cap, chunks) && StartsAfter(units, first, chunks)
    ensures WellShaped(page, startOrd, count, cap, Round(page, startOrd, units, count, first, last, chunks))
  {
    var chunks' := Round(page, startOrd, units, count, first, last, chunks);
    var n := |chunks|;
    forall i, j | 0 <= i < j < |chunks'|
      ensures chunks'[i].charStart < chunks'[j].charStart && chunks'[i].charEnd < chunks'[j].charEnd
    {
      if j == n && i < n - 1 {
        assert chunks[i].charStart < chunks[n - 1].charStart && chunks[i].charEnd < chunks[n - 1].charEnd;
      }
    }
  }

  lemma {:induction false} ChunksShaped(page: Page, startOrd: int, units: seq<Span>, count: Counter,
                                        limits: Limits, first: nat, chunks: seq<Chunk>)
    requires first < |units| && StrictStarts(units)
    requires WellShaped(page, startOrd, count, limits.cap, chunks) && StartsAfter(units, first, chunks)
    ensures var r := ChunksFrom(page, startOrd, units, count, limits, first, chunks);
            r.Ok? ==> WellShaped(page, startOrd, count, limits.cap, r.chunks)
    decreases |units| - first
  {
    var last := GrowEnd(units, count, limits.cap, first, first);
    GrowEndIsMaximal(units, count, limits.cap, first, first);
    if first < last {
      RoundShaped(page, startOrd, units, count, limits.cap, first, last, chunks);
      if last < |units| {
        var next := OverlapStart(units, count, limits.overlap, first, last, last);
        ChunksShaped(page, startOrd, units, count, limits, next,
                     Round(page, startOrd, units, count, first, last, chunks));
      }
    }
  }

  /** Nonempty stretches of a text of length n. */
  predicate OnPage(chunks: seq<Chunk>, n: nat) {
    forall c | c in chunks :: 0 <= c.charStart < c.charEnd <= n
  }

  lemma {:induction false} ChunksOnPage(page: Page, startOrd: int, units: seq<Span>, count: Counter, limits: Limits,
                                        n: nat, first: nat, chunks: seq<Chunk>)
    requires first < |units| && StrictStarts(units)
    requires forall i | 0 <= i < |units| :: 0 <= units[i].lo < units[i].hi <= n
    requires OnPage(chunks, n)
    ensures var r := ChunksFrom(page, startOrd, units, count, limits, first, chunks);
            r.Ok? ==> OnPage(r.chunks, n)
    decreases |units| - first
  {
    var last := GrowEnd(units, count, limits.cap, first, first);
    if first < last {
      assert units[first].lo <= units[last - 1].lo;
      if last < |units| {
        ChunksOnPage(page, startOrd, units, count, limits, n,
                     OverlapStart(units, count, limits.overlap, first, last, last),
                     Round(page, startOrd, units, count, first, last, chunks));
      }
    }
  }

  // ---------- overlap ----------

  /** A longer slice of a text of length n never counts fewer tokens. */
  ghost predicate Monotone(count: Counter, n: nat) {
    forall a, b, c, d | 0 <= a <= b <= c <= d <= n :: count(b, c) <= count(a, d)
  }

  /** Nonempty units in a text of length n, each ending before the next begins. */
  predicate Disjoint(units: seq<Span>, n: nat) {
    && (forall i | 0 <= i < |units| :: 0 <= units[i].lo < units[i].hi <= n)
    && forall i, j | 0 <= i < j < |units| :: units[i].hi <= units[j].lo
  }

  /** The stretch two chunks share, if any, stays within the budget. */
  predicate SharesAtMost(count: Counter, budget: int, c: Chunk, d: Chunk) {
    d.charStart < c.charEnd ==> count(d.charStart, c.charEnd) <= budget
  }

  predicate OverlapsWithin(count: Counter, budget: int, chunks: seq<Chunk>) {
    forall i | 0 < i < |chunks| :: SharesAtMost(count, budget, chunks[i - 1], chunks[i])
  }

  /** The last chunk ends with unit reached - 1, and what a window from first would repeat
      of it fits the budget. */
  predicate TailFits(units: seq<Span>, count: Counter, budget: int, first: nat, reached: nat, chunks: seq<Chunk>) {
    && first <= reached <= |units|
    && (if chunks == [] then reached == 0 else reached > 0 && chunks[|chunks| - 1].charEnd == units[reached - 1].hi)
    && (first < reached ==> count(units[first].lo, units[reached - 1].hi) <= budget)
  }

  /** A window never ends before the last emitted chunk does. */
  lemma WindowReaches(units: seq<Span>, count: Counter, limits: Limits, n: nat, first: nat, reached: nat,
                      chunks: seq<Chunk>)
    requires first < |units| && Disjoint(units, n) && Monotone(count, n) && limits.overlap <= limits.cap
    requires TailFits(units, count, limits.overlap, first, reached, chunks)
    ensures reached <= GrowEnd(units, count, limits.cap, first, first)
  {
    GrowEndIsMaximal(units, count, limits.cap, first, first);
    forall j | first <= j < reached ensures count(units[first].lo, units[j].hi) <= limits.cap {
      assert count(units[first].lo, units[j].hi) <= count(units[first].lo, units[reached - 1].hi);
    }
  }

  /** One round: a window that ends with or after the last chunk is within the budget of it. */
  lemma RoundOverlaps(page: Page, startOrd: int, units: seq<Span>, count: Counter, budget: int, n: nat,
                      first: nat, last: nat, reached: nat, chunks: seq<Chunk>)
    requires first < last <= |units| && reached <= last && Disjoint(units, n)
    requires TailFits(units, count, budget, first, reached, chunks) && OverlapsWithin(count, budget, chunks)
    ensures var chunks' := Round(page, startOrd, units, count, first, last, chunks);
            && OverlapsWithin(count, budget, chunks')
            && chunks' != [] && chunks'[|chunks'| - 1].charEnd == units[last - 1].hi
  {
    if first >= reached > 0 {
      assert units[reached - 1].hi <= units[first].lo;
    }
    assert 0 < reached < last ==> units[reached - 1].hi <= units[last - 1].lo < units[last - 1].hi;
  }

  /** Consecutive emitted chunks share at most the overlap budget. */
  lemma {:induction false} ChunksOverlapWithin(page: Page, startOrd: int, units: seq<Span>, count: Counter,
                                               limits: Limits, n: nat, first: nat, reached: nat, chunks: seq<Chunk>)
    requires first < |units| && Disjoint(units, n) && Monotone(count, n) && limits.overlap <= limits.cap
    requires TailFits(units, count, limits.overlap, first, reached, chunks)
    requires OverlapsWithin(count, limits.overlap, chunks)
    ensures var r := ChunksFrom(page, startOrd, units, count, limits, first, chunks);
            r.Ok? ==> OverlapsWithin(count, limits.overlap, r.chunks)
    decreases |units| - first
  {
    hide Disjoint, Monotone, OverlapsWithin, Round;
    WindowReaches(units, count, limits, n, first, reached, chunks);
    var last := GrowEnd(units, count, limits.cap, first, first);
    if first < last {
      RoundOverlaps(page, startOrd, units, count, limits.overlap, n, first, last, reached, chunks);
      if last < |units| {
        var next := OverlapStart(units, count, limits.overlap, first, last, last);
        OverlapStartIsMinimal(units, count, limits.overlap, first, last, last);
        ChunksOverlapWithin(page, startOrd, units, count, limits, n, next, last,
                            Round(page, startOrd, units, count, first, last, chunks));
      }
    }
  }

  // ---------- failure ----------

  predicate Fits(count: Counter, cap: int, u: Span) { count(u.lo, u.hi) <= cap }

  /** Chunking fails exactly when some unit alone exceeds the cap. */
  lemma {:induction false} FailsExactlyOnOversizedUnit(page: Page, startOrd: int, units: seq<Span>, count: Counter,
                                                       limits: Limits, n: nat, first: nat, chunks: seq<Chunk>)
    requires first < |units| && Disjoint(units, n) && Monotone(count, n)
    ensures var r := ChunksFrom(page, startOrd, units, count, limits, first, chunks);
            r.TooSmall? <==> exists k :: first <= k < |units| && !Fits(count, limits.cap, units[k])
    decreases |units| - first
  {
    var last := GrowEnd(units, count, limits.cap, first, first);
    GrowEndIsMaximal(units, count, limits.cap, first, first);
    forall k | first <= k < last ensures Fits(count, limits.cap, units[k]) {
      assert count(units[k].lo, units[k].hi) <= count(units[first].lo, units[k].hi);
    }
    if last == first {
      assert !Fits(count, limits.cap, units[first]);
    } else if last < |units| {
      var next := OverlapStart(units, count, limits.overlap, first, last, last);
      FailsExactlyOnOversizedUnit(page, startOrd, units, count, limits, n, next,
                                  Round(page, startOrd, units, count, first, last, chunks));
    }
  }
}
