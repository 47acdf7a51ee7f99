/** Structure analysis of a whole document: language by page, entities from the first part of the
    text, chunks from all of it. */
module Analysis {
  import opened Order
  import opened Sums
  import opened Text
  import opened Windows
  import opened Units
  import opened Chunker

  // ---------- entities ----------

  datatype Entity = Entity(text: string, kind: string, page: int, charStart: int, charEnd: int, count: int)

  /** What makes two mentions the same: normalized spelling and label (kind here). */
  datatype Name = Name(spelling: string, kind: string)

  /** The normalization of spellings is an arbitrary function. */
  type Speller = string -> string

  function NameOf(spell: Speller, e: Entity): Name { Name(spell(e.text), e.kind) }

  /** In reading order: by page, then offset. */
  function Reading(): (Entity, Entity) -> bool {
    (a: Entity, b: Entity) => a.page < b.page || (a.page == b.page && a.charStart < b.charStart)
  }

  /** The position of the first mention; the length of the list if there is none. */
  function FirstAt(spell: Speller, es: seq<Entity>, name: Name): (i: nat)
    ensures i <= |es|
  {
    if es == [] then 0
    else
      var n := |es| - 1;
      var i := FirstAt(spell, es[..n], name);
      if i < n then i else if NameOf(spell, es[n]) == name then n else |es|
  }

  lemma {:induction false} FirstAtIsFirst(spell: Speller, es: seq<Entity>, name: Name)
    ensures var i := FirstAt(spell, es, name);
            && (i < |es| ==> NameOf(spell, es[i]) == name)
            && forall j | 0 <= j < i :: NameOf(spell, es[j]) != name
  {
    if es != [] {
      FirstAtIsFirst(spell, es[..|es| - 1], name);
    }
  }

  /** What a mention adds to the count of a name. */
  function Counting(spell: Speller, name: Name): Entity -> int {
    (e: Entity) => if NameOf(spell, e) == name then e.count else 0
  }

  function Counts(): Entity -> int { (e: Entity) => e.count }

  lemma {:induction false} SumInsert<T>(f: T -> int, before: (T, T) -> bool, s: seq<T>, x: T)
    ensures Sum(f, Insert(before, s, x)) == Sum(f, s) + f(x)
  {
    SumAppend(f, s, x);
    if s != [] && before(x, s[|s| - 1]) {
      var n := |s| - 1;
      SumInsert(f, before, s[..n], x);
      SumAppend(f, Insert(before, s[..n], x), s[n]);
    }
  }

  lemma {:induction false} SumSort<T>(f: T -> int, before: (T, T) -> bool, s: seq<T>)
    ensures Sum(f, Sort(before, s)) == Sum(f, s)
  {
    if s != [] {
      var n := |s| - 1;
      SumSort(f, before, s[..n]);
      SumInsert(f, before, Sort(before, s[..n]), s[n]);
    }
  }

  /** The entry of a name: its first mention, with the sum of the counts. */
  predicate EntryRight(spell: Speller, es: seq<Entity>, unique: map<Name, Entity>, name: Name) {
    && name in unique && FirstAt(spell, es, name) < |es|
    && unique[name] == es[FirstAt(spell, es, name)].(count := Sum(Counting(spell, name), es))
  }

  predicate ByFirstMention(spell: Speller, es: seq<Entity>, names: seq<Name>) {
    forall i, j | 0 <= i < j < |names| :: FirstAt(spell, es, names[i]) < FirstAt(spell, es, names[j])
  }

  /** The dict after some mentions, its keys in insertion order: one entry for each name met, in
      the order of first mentions. */
  predicate Groups(spell: Speller, es: seq<Entity>, names: seq<Name>, unique: map<Name, Entity>) {
    && ByFirstMention(spell, es, names)
    && (forall name | name in names :: EntryRight(spell, es, unique, name))
    && (forall name | name in unique :: name in names)
    && (forall e | e in es :: NameOf(spell, e) in unique)
  }

  lemma OneMoreMention(spell: Speller, es: seq<Entity>, e: Entity, name: Name)
    ensures FirstAt(spell, es + [e], name) ==
              if FirstAt(spell, es, name) < |es| then FirstAt(spell, es, name)
              else if NameOf(spell, e) == name then |es| else |es| + 1
    ensures Sum(Counting(spell, name), es + [e])
         == Sum(Counting(spell, name), es) + if NameOf(spell, e) == name then e.count else 0
  {
    assert (es + [e])[..|es|] == es;
  }

  lemma {:induction false} NotMentioned(spell: Speller, es: seq<Entity>, name: Name)
    requires forall e | e in es :: NameOf(spell, e) != name
    ensures FirstAt(spell, es, name) == |es| && Sum(Counting(spell, name), es) == 0
  {
    if es != [] {
      var n := |es| - 1;
      NotMentioned(spell, es[..n], name);
      assert es[n] in es;
    }
  }

  /** A mention of another name leaves an entry right. */
  lemma EntryStays(spell: Speller, es: seq<Entity>, e: Entity, unique: map<Name, Entity>, x: Entity, name: Name)
    requires EntryRight(spell, es, unique, name) && NameOf(spell, e) != name
    ensures EntryRight(spell, es + [e], unique[NameOf(spell, e) := x], name)
    ensures FirstAt(spell, es + [e], name) == FirstAt(spell, es, name) < |es|
  {
    hide FirstAt, Sum, Counting;
    OneMoreMention(spell, es, e, name);
  }

  /** The first mention of a name. */
  lemma {:induction false} EntryStarts(spell: Speller, es: seq<Entity>, e: Entity, unique: map<Name, Entity>)
    requires forall x | x in es :: NameOf(spell, x) != NameOf(spell, e)
    ensures EntryRight(spell, es + [e], unique[NameOf(spell, e) := e], NameOf(spell, e))
    ensures FirstAt(spell, es + [e], NameOf(spell, e)) == |es|
  {
    hide FirstAt, Sum, Counting;
    NotMentioned(spell, es, NameOf(spell, e));
    OneMoreMention(spell, es, e, NameOf(spell, e));
  }

  /** One more mention of a name. */
  lemma EntryGrows(spell: Speller, es: seq<Entity>, e: Entity, unique: map<Name, Entity>)
    requires EntryRight(spell, es, unique, NameOf(spell, e))
    ensures var name := NameOf(spell, e);
            && EntryRight(spell, es + [e], unique[name := unique[name].(count := unique[name].count + e.count)], name)
            && FirstAt(spell, es + [e], name) == FirstAt(spell, es, name)
  {
    hide FirstAt, Sum, Counting;
    OneMoreMention(spell, es, e, NameOf(spell, e));
  }

  lemma MentionedNames(spell: Speller, es: seq<Entity>, e: Entity, unique: map<Name, Entity>, x: Entity)
    requires forall y | y in es :: NameOf(spell, y) in unique
    ensures forall y | y in es + [e] :: NameOf(spell, y) in unique[NameOf(spell, e) := x]
  {
  }

  lemma NewName(spell: Speller, es: seq<Entity>, e: Entity, names: seq<Name>, unique: map<Name, Entity>)
    requires Groups(spell, es, names, unique) && NameOf(spell, e) !in unique
    ensures Groups(spell, es + [e], names + [NameOf(spell, e)], unique[NameOf(spell, e) := e])
  {
    hide FirstAt, EntryRight, NameOf;
    var name := NameOf(spell, e);
    EntryStarts(spell, es, e, unique);
    forall other | other in names
      ensures EntryRight(spell, es + [e], unique[name := e], other)
      ensures FirstAt(spell, es + [e], other) == FirstAt(spell, es, other) < |es|
    {
      EntryKnown(spell, es, unique, other);
      EntryStays(spell, es, e, unique, e, other);
    }
    forall i | 0 <= i < |names| ensures FirstAt(spell, es + [e], names[i]) == FirstAt(spell, es, names[i]) < |es| {
      assert names[i] in names;
    }
    MentionedNames(spell, es, e, unique, e);
  }

  lemma {:induction false} EntryKnown(spell: Speller, es: seq<Entity>, unique: map<Name, Entity>, name: Name)
    requires EntryRight(spell, es, unique, name)
    ensures name in unique && FirstAt(spell, es, name) < |es|
    ensures NameOf(spell, unique[name]) == name
  {
    FirstAtIsFirst(spell, es, name);
  }

  lemma {:induction false} KnownName(spell: Speller, es: seq<Entity>, e: Entity, names: seq<Name>,
                                     unique: map<Name, Entity>)
    requires Groups(spell, es, names, unique) && NameOf(spell, e) in unique
    ensures var name := NameOf(spell, e);
            Groups(spell, es + [e], names, unique[name := unique[name].(count := unique[name].count + e.count)])
  {
    hide FirstAt, EntryRight, NameOf;
    var name := NameOf(spell, e);
    var x := unique[name].(count := unique[name].count + e.count);
    EntryGrows(spell, es, e, unique);
    forall other | other in names
      ensures EntryRight(spell, es + [e], unique[name := x], other)
      ensures FirstAt(spell, es + [e], other) == FirstAt(spell, es, other)
    {
      if other != name {
        EntryStays(spell, es, e, unique, x, other);
      }
    }
    forall i | 0 <= i < |names| ensures FirstAt(spell, es + [e], names[i]) == FirstAt(spell, es, names[i]) {
      assert names[i] in names;
    }
    MentionedNames(spell, es, e, unique, x);
  }

  function Values(names: seq<Name>, unique: map<Name, Entity>): (es: seq<Entity>)
    requires forall name | name in names :: name in unique
    ensures |es| == |names|
  {
    seq(|names|, i requires 0 <= i < |names| => assert names[i] in names; unique[names[i]])
  }

  /** What deduplication promises for the mentions es in reading order: one entity for each name,
      in the order of first mentions, each the first mention with the counts of all summed. */
  ghost predicate IsDeduplication(spell: Speller, es: seq<Entity>, r: seq<Entity>) {
    && (forall i | 0 <= i < |r| ::
         var name := NameOf(spell, r[i]);
         FirstAt(spell, es, name) < |es|
         && r[i] == es[FirstAt(spell, es, name)].(count := Sum(Counting(spell, name), es)))
    && (forall i, j | 0 <= i < j < |r| ::
         FirstAt(spell, es, NameOf(spell, r[i])) < FirstAt(spell, es, NameOf(spell, r[j])))
    && forall e | e in es :: exists i :: 0 <= i < |r| && NameOf(spell, r[i]) == NameOf(spell, e)
  }

  lemma {:induction false} ValuesDeduplicate(spell: Speller, es: seq<Entity>, names: seq<Name>,
                                             unique: map<Name, Entity>)
    requires Groups(spell, es, names, unique)
    ensures (forall name | name in names :: name in unique) && IsDeduplication(spell, es, Values(names, unique))
  {
    hide FirstAt, Sum, Counting, NameOf;
    var r := Values(names, unique);
    forall i | 0 <= i < |r| ensures NameOf(spell, r[i]) == names[i] && EntryRight(spell, es, unique, names[i]) {
      assert names[i] in names;
      EntryKnown(spell, es, unique, names[i]);
    }
    forall e | e in es ensures exists i :: 0 <= i < |r| && NameOf(spell, r[i]) == NameOf(spell, e) {
      var i :| 0 <= i < |names| && names[i] == NameOf(spell, e);
      assert NameOf(spell, r[i]) == NameOf(spell, e);
    }
  }

  predicate Distinct(names: seq<Name>) { forall i, j | 0 <= i < j < |names| :: names[i] != names[j] }

  lemma TotalStarts(names: seq<Name>, unique: map<Name, Entity>, name: Name, e: Entity)
    requires (forall n | n in names :: n in unique) && name !in unique
    ensures Sum(Counts(), Values(names + [name], unique[name := e])) == Sum(Counts(), Values(names, unique)) + e.count
  {
    hide Sum;
    assert Values(names + [name], unique[name := e]) == Values(names, unique) + [e] by {
      forall i | 0 <= i < |names| ensures names[i] in unique {
        assert names[i] in names;
      }
    }
    SumAppend(Counts(), Values(names, unique), e);
  }

  lemma TotalGrows(names: seq<Name>, unique: map<Name, Entity>, name: Name, e: Entity)
    requires (forall n | n in names :: n in unique) && Distinct(names) && name in names
    ensures var grown := unique[name := unique[name].(count := unique[name].count + e.count)];
            Sum(Counts(), Values(names, grown)) == Sum(Counts(), Values(names, unique)) + e.count
  {
    hide Sum;
    var i :| 0 <= i < |names| && names[i] == name;
    var grown := unique[name := unique[name].(count := unique[name].count + e.count)];
    assert Values(names, grown) == Values(names, unique)[i := grown[name]];
    SumUpdate(Counts(), Values(names, unique), i, grown[name]);
  }

  lemma GroupedNames(spell: Speller, es: seq<Entity>, names: seq<Name>, unique: map<Name, Entity>)
    requires Groups(spell, es, names, unique)
    ensures Distinct(names) && forall name :: name in names <==> name in unique
  {
    hide FirstAt, Sum, Counting;
  }

  lemma ReadingIsWeak()
    ensures Weak(Reading())
  {
  }

  /** The mentions are deduplicated by page, then offset. */
  lemma ReadingOrder(entities: seq<Entity>, i: nat, j: nat)
    requires i < j < |entities|
    ensures var es := Sort(Reading(), entities);
            es[i].page < es[j].page || (es[i].page == es[j].page && es[i].charStart <= es[j].charStart)
  {
    ReadingIsWeak();
    SortSorts(Reading(), entities);
  }

  /** Mentions with the same spelling and label. */
  predicate SameThing(spell: Speller, d: Entity, e: Entity) {
    spell(d.text) == spell(e.text) && d.kind == e.kind
  }

  function CountsLike(spell: Speller, d: Entity): Entity -> int {
    (e: Entity) => if SameThing(spell, d, e) then e.count else 0
  }

  /** Deduplication in figures: no two results are the same thing, every mention is the same thing as
      some result, and a result is its first mention with the counts of all mentions of it. */
  lemma DeduplicationInFigures(spell: Speller, es: seq<Entity>, r: seq<Entity>, i: nat) returns (m: nat)
    requires IsDeduplication(spell, es, r) && i < |r|
    ensures forall j | 0 <= j < |r| && j != i :: !SameThing(spell, r[i], r[j])
    ensures forall e | e in es :: exists j :: 0 <= j < |r| && SameThing(spell, r[j], e)
    ensures m < |es| && r[i] == es[m].(count := r[i].count) && r[i].count == Sum(CountsLike(spell, r[i]), es)
    ensures forall j | 0 <= j < m :: !SameThing(spell, r[i], es[j])
  {
    hide FirstAt, Sum;
    var name := NameOf(spell, r[i]);
    m := FirstAt(spell, es, name);
    FirstAtIsFirst(spell, es, name);
    SumEqual(Counting(spell, name), es, CountsLike(spell, r[i]), es);
    forall j | 0 <= j < |r| && j != i ensures !SameThing(spell, r[i], r[j]) {
      assert NameOf(spell, r[i]) == NameOf(spell, r[j]) <==> SameThing(spell, r[i], r[j]);
      if i < j {
        assert FirstAt(spell, es, NameOf(spell, r[i])) < FirstAt(spell, es, NameOf(spell, r[j]));
      } else {
        assert FirstAt(spell, es, NameOf(spell, r[j])) < FirstAt(spell, es, NameOf(spell, r[i]));
      }
    }
    forall e | e in es ensures exists j :: 0 <= j < |r| && SameThing(spell, r[j], e) {
      var j :| 0 <= j < |r| && NameOf(spell, r[j]) == NameOf(spell, e);
      assert SameThing(spell, r[j], e);
    }
  }

  /** deduplicate: the first mention of each name in reading order, with the counts of all its
      mentions; no mention is lost from the total. */
  method Deduplicate(spell: Speller, entities: seq<Entity>) returns (r: seq<Entity>)
    ensures IsDeduplication(spell, Sort(Reading(), entities), r)
    ensures Sum(Counts(), r) == Sum(Counts(), entities)
  {
    hide IsDeduplication, Sum, Sort, Groups, Values;
    var es := Sort(Reading(), entities);
    var names: seq<Name>, unique: map<Name, Entity> := [], map[];
    NothingGrouped(spell, es);
    for i := 0 to |es|
      invariant Groups(spell, es[..i], names, unique) && forall name | name in names :: name in unique
      invariant Sum(Counts(), Values(names, unique)) == Sum(Counts(), es[..i])
    {
      var e := es[i];
      var name := NameOf(spell, e);
      assert es[..i + 1] == es[..i] + [e];
      GroupedNames(spell, es[..i], names, unique);
      SumAppend(Counts(), es[..i], e);
      if name in unique {
        TotalGrows(names, unique, name, e);
        KnownName(spell, es[..i], e, names, unique);
        unique := unique[name := unique[name].(count := unique[name].count + e.count)];
      } else {
        TotalStarts(names, unique, name, e);
        NewName(spell, es[..i], e, names, unique);
        names, unique := names + [name], unique[name := e];
      }
    }
    assert es[..|es|] == es;
    r := Values(names, unique);
    ValuesDeduplicate(spell, es, names, unique);
    SumSort(Counts(), Reading(), entities);
  }

  lemma NothingGrouped(spell: Speller, es: seq<Entity>)
    ensures Groups(spell, es[..0], [], map[]) && Sum(Counts(), Values([], map[])) == Sum(Counts(), es[..0])
  {
  }

  // ---------- chunks of a document ----------

  /** The chunks of the pages in turn, each page numbered on from the chunks before it. */
  function DocumentChunks(lex: Lexicon, pages: seq<Page>, limits: Limits): Chunking {
    if pages == [] then Ok([])
    else
      var before := DocumentChunks(lex, pages[..|pages| - 1], limits);
      if before.TooSmall? then before
      else
        var more := ChunkedPage(lex, pages[|pages| - 1], limits, |before.chunks|);
        if more.TooSmall? then more else Ok(before.chunks + more.chunks)
  }

  /** Ordinals run through the whole document without a gap. */
  lemma {:induction false} DocumentOrdinals(lex: Lexicon, pages: seq<Page>, limits: Limits)
    ensures var r := DocumentChunks(lex, pages, limits);
            r.Ok? ==> Numbered(0, r.chunks)
  {
    if pages != [] {
      var n := |pages| - 1;
      DocumentOrdinals(lex, pages[..n], limits);
      var before := DocumentChunks(lex, pages[..n], limits);
      if before.Ok? {
        OrdinalsAreConsecutive(lex, pages[n], limits, |before.chunks|);
      }
    }
  }

  /** A failed prefix fails the document. */
  lemma {:induction false} FailureStays(lex: Lexicon, pages: seq<Page>, limits: Limits, i: nat)
    requires i <= |pages| && DocumentChunks(lex, pages[..i], limits).TooSmall?
    ensures DocumentChunks(lex, pages, limits) == DocumentChunks(lex, pages[..i], limits)
  {
    hide ChunkedPage;
    if i < |pages| {
      var n := |pages| - 1;
      assert pages[..n][..i] == pages[..i];
      FailureStays(lex, pages[..n], limits, i);
    } else {
      assert pages[..i] == pages;
    }
  }

  // ---------- what entity recognition reads ----------

  function Joined(texts: seq<string>): string {
    if texts == [] then "" else Joined(texts[..|texts| - 1]) + texts[|texts| - 1]
  }

  function PageTexts(pages: seq<Page>): seq<string> {
    seq(|pages|, i requires 0 <= i < |pages| => pages[i].text)
  }

  function Prefix(s: string, n: nat): string { if |s| <= n then s else s[..n] }

  /** What entity recognition has read after the pages before. */
  predicate HasRead(texts: seq<string>, pages: seq<Page>, max: nat) {
    Joined(texts) == Prefix(Joined(PageTexts(pages)), max) && "" !in texts
  }

  /** One more page: its text up to what remains, unless that is empty. */
  lemma ReadsOn(texts: seq<string>, pages: seq<Page>, page: Page, max: nat)
    requires HasRead(texts, pages, max)
    ensures |Joined(texts)| <= max
    ensures var text := Prefix(page.text, max - |Joined(texts)|);
            var texts' := if text == "" then texts else texts + [text];
            HasRead(texts', pages + [page], max) && |Joined(texts')| == |Joined(texts)| + |text|
  {
    hide Joined, PageTexts, Prefix;
    PrefixOn(Joined(PageTexts(pages)), page.text, max);
    JoinedPages(pages, page);
    JoinedOn(texts, Prefix(page.text, max - |Joined(texts)|));
  }

  lemma JoinedOn(texts: seq<string>, text: string)
    ensures Joined(texts + [text]) == Joined(texts) + text
  {
    assert (texts + [text])[..|texts|] == texts;
  }

  lemma JoinedPages(pages: seq<Page>, page: Page)
    ensures Joined(PageTexts(pages + [page])) == Joined(PageTexts(pages)) + page.text
  {
    assert PageTexts(pages + [page]) == PageTexts(pages) + [page.text];
    JoinedOn(PageTexts(pages), page.text);
  }

  lemma PrefixOn(read: string, more: string, max: nat)
    ensures |Prefix(read, max)| <= max
    ensures Prefix(read + more, max) == Prefix(read, max) + Prefix(more, max - |Prefix(read, max)|)
  {
  }

  // ---------- the analysis ----------

  datatype Guess = Guess(language: string, confidence: real)

  /** The libraries: language detection, entity recognition, spelling; all arbitrary. */
  datatype Tools = Tools(detect: string -> Guess, recognize: Page -> seq<Entity>, spell: Speller)

  datatype Settings = Settings(limits: Limits, sampleChars: nat, minConfidence: real, nerMaxChars: nat)

  /** The page with the detected language, or "und" if the detector is not confident. */
  function Labelled(tools: Tools, settings: Settings, page: Page): Page {
    var guess := tools.detect(Prefix(page.text, settings.sampleChars));
    page.(language := if guess.confidence >= settings.minConfidence then guess.language else "und")
  }

  /** A page keeps its number and text, and gets the guessed language exactly when the guess from its
      first sampleChars characters is confident enough. */
  lemma LabelledExactly(tools: Tools, settings: Settings, page: Page)
    ensures var sample := if |page.text| <= settings.sampleChars then page.text else page.text[..settings.sampleChars];
            var p := Labelled(tools, settings, page);
            && p.number == page.number && p.text == page.text
            && (tools.detect(sample).confidence >= settings.minConfidence ==>
                  p.language == tools.detect(sample).language)
            && (tools.detect(sample).confidence < settings.minConfidence ==> p.language == "und")
  {
  }

  function AllLabelled(tools: Tools, settings: Settings, pages: seq<Page>): (r: seq<Page>)
    ensures |r| == |pages|
  {
    seq(|pages|, i requires 0 <= i < |pages| => Labelled(tools, settings, pages[i]))
  }

  lemma LabelledPages(tools: Tools, settings: Settings, pages: seq<Page>)
    ensures forall i | 0 <= i < |pages| :: AllLabelled(tools, settings, pages)[i] == Labelled(tools, settings, pages[i])
  {
  }

  function Recognized(tools: Tools, read: seq<Page>): seq<Entity> {
    if read == [] then [] else Recognized(tools, read[..|read| - 1]) + tools.recognize(read[|read| - 1])
  }

  /** One more page: entity recognition reads what remains of it, unless that is empty. */
  lemma ReadsPage(tools: Tools, read: seq<Page>, pages: seq<Page>, page: Page, max: nat)
    requires HasRead(PageTexts(read), pages, max)
    ensures |Joined(PageTexts(read))| <= max
    ensures var text := Prefix(page.text, max - |Joined(PageTexts(read))|);
            var part := page.(text := text);
            var read' := if text == "" then read else read + [part];
            && HasRead(PageTexts(read'), pages + [page], max)
            && |Joined(PageTexts(read'))| == |Joined(PageTexts(read))| + |text|
            && Recognized(tools, read') == Recognized(tools, read) + if text == "" then [] else tools.recognize(part)
  {
    hide HasRead, Joined, Prefix;
    ReadsOn(PageTexts(read), pages, page, max);
    var text := Prefix(page.text, max - |Joined(PageTexts(read))|);
    var part := page.(text := text);
    assert PageTexts(read + [part]) == PageTexts(read) + [text];
    assert (read + [part])[..|read|] == read;
  }

  datatype Analysis = Analysis(pages: seq<Page>, chunks: seq<Chunk>, entities: seq<Entity>)

  datatype Outcome = Done(analysis: Analysis) | Failed(page: int)

  /** analyze: every page gets its language and is chunked in turn; what entity recognition reads
      is exactly the first nerMaxChars characters of the document, never in empty pieces; its
      entities are deduplicated. The only failure is that of a page that cannot be chunked. */
  method Analyze(lex: Lexicon, tools: Tools, pages: seq<Page>, settings: Settings)
    returns (r: Outcome, read: seq<Page>)
    ensures HasRead(PageTexts(read), AllLabelled(tools, settings, pages), settings.nerMaxChars) || r.Failed?
    ensures var labelled := AllLabelled(tools, settings, pages);
            match r
            case Failed(page) => DocumentChunks(lex, labelled, settings.limits) == TooSmall(page)
            case Done(a) =>
              && a.pages == labelled && Ok(a.chunks) == DocumentChunks(lex, labelled, settings.limits)
              && IsDeduplication(tools.spell, Sort(Reading(), Recognized(tools, read)), a.entities)
              && Sum(Counts(), a.entities) == Sum(Counts(), Recognized(tools, read))
  {
    hide ChunkedPage, Reference, HasRead, DocumentChunks, Joined, IsDeduplication, Sum, Sort, Recognized, Labelled,
         PageTexts, Faithful, AllLabelled, Prefix;
    var labelled, chunks, entities, remaining := [], [], [], settings.nerMaxChars;
    read := [];
    ghost var all := AllLabelled(tools, settings, pages);
    LabelledPages(tools, settings, pages);
    NothingRead(lex, tools, all, settings);
    for i := 0 to |pages|
      invariant labelled == all[..i] && DocumentChunks(lex, all[..i], settings.limits) == Ok(chunks)
      invariant HasRead(PageTexts(read), all[..i], settings.nerMaxChars)
      invariant remaining == settings.nerMaxChars - |Joined(PageTexts(read))|
      invariant entities == Recognized(tools, read)
    {
      var page := Labelled(tools, settings, pages[i]);
      assert page == all[i] && all[..i + 1] == all[..i] + [page];
      labelled := labelled + [page];
      ReadsPage(tools, read, all[..i], page, settings.nerMaxChars);
      var text := Prefix(page.text, remaining);
      if text != "" {
        var part := page.(text := text);
        read, entities := read + [part], entities + tools.recognize(part);
      }
      remaining := remaining - |text|;
      ChunksOn(lex, all[..i], page, settings.limits);
      var more := ChunkPage(lex, page, settings.limits, |chunks|);
      if more.TooSmall? {
        FailureStays(lex, all, settings.limits, i + 1);
        return Failed(more.page), read;
      }
      chunks := chunks + more.chunks;
    }
    assert all[..|pages|] == all;
    var unique := Deduplicate(tools.spell, entities);
    r := Done(Analysis(labelled, chunks, unique));
  }

  lemma NothingRead(lex: Lexicon, tools: Tools, pages: seq<Page>, settings: Settings)
    ensures DocumentChunks(lex, pages[..0], settings.limits) == Ok([])
    ensures HasRead(PageTexts([]), pages[..0], settings.nerMaxChars) && |Joined(PageTexts([]))| == 0
    ensures Recognized(tools, []) == []
  {
  }

  lemma {:induction false} ChunksOn(lex: Lexicon, pages: seq<Page>, page: Page, limits: Limits)
    requires DocumentChunks(lex, pages, limits).Ok?
    ensures var before := DocumentChunks(lex, pages, limits).chunks;
            var more := ChunkedPage(lex, page, limits, |before|);
            DocumentChunks(lex, pages + [page], limits) == if more.TooSmall? then more else Ok(before + more.chunks)
  {
    hide ChunkedPage;
    assert (pages + [page])[..|pages|] == pages;
  }
}
