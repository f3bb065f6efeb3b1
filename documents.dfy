/**
 * The splitter on flat documents: item elements that do not nest, separated
 * by gaps of anything but item tags. For such a document with K items and
 * a chunk size n of at least 1, the run creates ceil(K / n) chunk files;
 * chunk j holds the synthetic root start tag, then the copied events of
 * items j * n .. min((j + 1) * n, K) - 1 in input order, then the root end
 * tag only if the chunk is full. A chunk size of 0 aborts at the end of the
 * first item.
 */
module Documents {
  import opened Wrappers
  import opened Events
  import opened Nesting
  import opened Chunker
  import opened ChunkerFacts

  /** An event that is neither an item tag nor the end of the input nor a reader error. */
  predicate Plain(tag: string, e: Event)
  {
    match e
    case Start(name, _) => name != tag
    case End(name) => name != tag
    case Eof => false
    case Error(_) => false
    case _ => true
  }

  predicate AllPlain(tag: string, events: seq<Event>)
  {
    forall i :: 0 <= i < |events| ==> Plain(tag, events[i])
  }

  /** One item element: the attributes of its start tag and the events between its tags. */
  datatype Item = Item(attributes: string, body: seq<Event>)

  /** A flat document: `gaps[k]` comes before item k, and the last gap after the last item. */
  datatype Document = Document(gaps: seq<seq<Event>>, items: seq<Item>)

  ghost predicate WellFormed(tag: string, d: Document)
  {
    |d.gaps| == |d.items| + 1
    && (forall k :: 0 <= k < |d.gaps| ==> AllPlain(tag, d.gaps[k]))
    && (forall k :: 0 <= k < |d.items| ==> AllPlain(tag, d.items[k].body))
  }

  function ItemEvents(tag: string, it: Item): seq<Event>
  {
    [Start(tag, it.attributes)] + it.body + [End(tag)]
  }

  /** The events of the first `m` gaps and items. */
  function Prefix(tag: string, d: Document, m: nat): seq<Event>
    requires m < |d.gaps| && m <= |d.items|
  {
    if m == 0 then [] else Prefix(tag, d, m - 1) + d.gaps[m - 1] + ItemEvents(tag, d.items[m - 1])
  }

  /** The events the reader returns for the whole document. */
  function Stream(tag: string, d: Document): seq<Event>
    requires |d.gaps| == |d.items| + 1
  {
    Prefix(tag, d, |d.items|) + d.gaps[|d.items|] + [Eof]
  }

  /** What a chunk receives for one item: its tags and the copied events between them. */
  function ItemOut(tag: string, it: Item): seq<Event>
  {
    [Start(tag, it.attributes)] + Forwarded(it.body) + [End(tag)]
  }

  /** What a chunk receives for the items with indices in [lo, hi), in order. */
  function Outs(tag: string, items: seq<Item>, lo: int, hi: int): seq<Event>
    requires hi <= |items|
    decreases hi - lo
  {
    if hi <= lo || hi <= 0 then [] else Outs(tag, items, lo, hi - 1) + ItemOut(tag, items[hi - 1])
  }

  function Min(a: int, b: int): int
  {
    if a <= b then a else b
  }

  /**
   * Chunk `j` once the first `m` items are placed, for a chunk size `n`: the
   * root start tag, items j * n .. min(j * n + n, m) - 1, and the root end
   * tag if and only if that is a whole chunk's worth.
   */
  function ExpectedChunk(root: string, tag: string, items: seq<Item>, n: int, j: int, m: int): seq<Event>
    requires m <= |items|
  {
    var lo := j * n;
    var hi := Min(lo + n, m);
    [Start(root, [])] + Outs(tag, items, lo, hi) + (if hi - lo == n then [End(root)] else [])
  }

  /** Outside an item, plain events are dropped and change nothing. */
  lemma {:induction false} GapDropped(cfg: Config, s: State, gap: seq<Event>)
    requires AllPlain(cfg.parent, gap) && !s.insideItem
    ensures Exec(cfg, s, gap) == Continue(s)
    decreases |gap|
  {
    if gap != [] {
      assert Plain(cfg.parent, gap[0]);
      GapDropped(cfg, s, gap[1..]);
    }
  }

  /** Inside an item, one plain event is copied to the chunk the writer is on if it is of a copied kind. */
  lemma PlainStepInside(cfg: Config, s: State, e: Event)
    requires Plain(cfg.parent, e) && s.insideItem && s.writer.Some? && s.writer.value in s.files
    ensures var id := s.writer.value;
      Step(cfg, s, e) == Continue(s.(files := s.files[id := s.files[id] + Forwarded([e])]))
  {
    assert [e][1..] == [];
    var id := s.writer.value;
    if Copied(e) {
      assert Forwarded([e]) == [e] + [] == [e];
      assert Step(cfg, s, e) == Write(s, e);
    } else {
      assert Forwarded([e]) == [] + [];
      assert s.files[id] + [] == s.files[id];
      assert s.files[id := s.files[id]] == s.files;
    }
  }

  /** Inside an item, plain events are copied, in order, to the chunk the writer is on. */
  lemma {:induction false} BodyForwarded(cfg: Config, s: State, body: seq<Event>)
    requires AllPlain(cfg.parent, body) && s.insideItem && s.writer.Some? && s.writer.value in s.files
    ensures var id := s.writer.value;
      Exec(cfg, s, body) == Continue(s.(files := s.files[id := s.files[id] + Forwarded(body)]))
    decreases |body|
  {
    var id := s.writer.value;
    if body == [] {
      assert s.files[id] + [] == s.files[id];
      assert s.files[id := s.files[id]] == s.files;
    } else {
      var e := body[0];
      assert Plain(cfg.parent, e);
      var t := s.(files := s.files[id := s.files[id] + Forwarded([e])]);
      PlainStepInside(cfg, s, e);
      ExecFirst(cfg, s, body, t);
      BodyForwarded(cfg, t, body[1..]);
      assert [e] + body[1..] == body;
      ForwardedAppend([e], body[1..]);
      assert s.files[id] + Forwarded([e]) + Forwarded(body[1..]) == s.files[id] + Forwarded(body);
      assert t.files[id := t.files[id] + Forwarded(body[1..])] == s.files[id := s.files[id] + Forwarded(body)];
    }
  }

  /** In the middle of a chunk, the writer is on that chunk's file. */
  predicate WriterOnChunk(s: State)
  {
    s.counters.itemChunkId != 0 ==> s.writer == Some(s.counters.chunkId) && s.counters.chunkId in s.files
  }

  /** The invariant puts the writer on the current chunk in the middle of one. */
  lemma LayoutWriter(cfg: Config, s: State)
    requires Layout(cfg, s)
    ensures WriterOnChunk(s)
  {
  }

  /**
   * An item start tag: the counters advance, and the
   * tag goes to chunk `chunkId`, which is created afresh, holding only the
   * root start tag, when the chunk position is 0.
   */
  lemma ItemStartStep(cfg: Config, s: State, attributes: string)
    requires WriterOnChunk(s)
    ensures
      var c := s.counters;
      var before := if c.itemChunkId == 0 then [Start(cfg.root, [])] else s.files[c.chunkId];
      Step(cfg, s, Start(cfg.parent, attributes)) ==
        Continue(State(Advance(c, cfg.itemsPerChunk), true,
                       s.files[c.chunkId := before + [Start(cfg.parent, attributes)]], Some(c.chunkId)))
  {
    var c := s.counters;
    var e := Start(cfg.parent, attributes);
    if c.itemChunkId == 0 {
      var ready := OpenChunk(cfg, s);
      assert ready.files[c.chunkId := [Start(cfg.root, [])] + [e]] == s.files[c.chunkId := [Start(cfg.root, [])] + [e]];
    }
  }

  /**
   * An item end tag with a non-zero chunk size: the tag goes to the chunk
   * the writer is on, followed by the root end tag when the chunk position
   * is a multiple of the chunk size.
   */
  lemma ItemEndStep(cfg: Config, s: State)
    requires cfg.itemsPerChunk != 0 && s.writer.Some? && s.writer.value in s.files
    ensures
      var id := s.writer.value;
      var close := if Rem(s.counters.itemChunkId, cfg.itemsPerChunk) == 0 then [End(cfg.root)] else [];
      Step(cfg, s, End(cfg.parent)) ==
        Continue(s.(insideItem := false, files := s.files[id := s.files[id] + [End(cfg.parent)] + close]))
  {
    var id := s.writer.value;
    var t := s.(files := s.files[id := s.files[id] + [End(cfg.parent)]]);
    assert Write(s, End(cfg.parent)) == Continue(t);
    if Rem(s.counters.itemChunkId, cfg.itemsPerChunk) == 0 {
      assert t.files[id := t.files[id] + [End(cfg.root)]] == s.files[id := s.files[id] + [End(cfg.parent)] + [End(cfg.root)]];
    } else {
      assert s.files[id] + [End(cfg.parent)] + [] == s.files[id] + [End(cfg.parent)];
    }
  }

  /** A run that goes on after its first event continues from the state that event leaves. */
  lemma ExecFirst(cfg: Config, s: State, events: seq<Event>, next: State)
    requires events != [] && Step(cfg, s, events[0]) == Continue(next)
    ensures Exec(cfg, s, events) == Exec(cfg, next, events[1..])
  {
  }

  /** The body of an item and its end tag, with a non-zero chunk size. */
  lemma BodyThenEnd(cfg: Config, s: State, body: seq<Event>)
    requires cfg.itemsPerChunk != 0 && AllPlain(cfg.parent, body)
    requires s.insideItem && s.writer.Some? && s.writer.value in s.files
    ensures
      var id := s.writer.value;
      var close := if Rem(s.counters.itemChunkId, cfg.itemsPerChunk) == 0 then [End(cfg.root)] else [];
      Exec(cfg, s, body + [End(cfg.parent)]) ==
        Continue(s.(insideItem := false, files := s.files[id := s.files[id] + Forwarded(body) + [End(cfg.parent)] + close]))
  {
    var id := s.writer.value;
    BodyForwarded(cfg, s, body);
    var t := s.(files := s.files[id := s.files[id] + Forwarded(body)]);
    ItemEndStep(cfg, t);
    ExecAppend(cfg, s, body, [End(cfg.parent)]);
  }

  /** The state right after an item's start tag (see `ItemStartStep`). */
  function Opened(cfg: Config, s: State, st: Event): State
    requires WriterOnChunk(s)
  {
    var c := s.counters;
    var before := if c.itemChunkId == 0 then [Start(cfg.root, [])] else s.files[c.chunkId];
    State(Advance(c, cfg.itemsPerChunk), true, s.files[c.chunkId := before + [st]], Some(c.chunkId))
  }

  lemma Regroup(a: seq<Event>, b: seq<Event>, c: seq<Event>, d: seq<Event>, e: seq<Event>)
    ensures a + b + c + d + e == a + (b + c + d) + e
  {
  }

  /** An item's events: its start tag, then its body and end tag. */
  lemma ItemStartThenRest(cfg: Config, s: State, it: Item)
    requires WriterOnChunk(s) && !s.insideItem
    ensures Exec(cfg, s, ItemEvents(cfg.parent, it))
         == Exec(cfg, Opened(cfg, s, Start(cfg.parent, it.attributes)), it.body + [End(cfg.parent)])
  {
    var events := ItemEvents(cfg.parent, it);
    ItemStartStep(cfg, s, it.attributes);
    assert events[0] == Start(cfg.parent, it.attributes) && events[1..] == it.body + [End(cfg.parent)];
    ExecFirst(cfg, s, events, Opened(cfg, s, Start(cfg.parent, it.attributes)));
  }

  /**
   * One item element, from between items, with a non-zero chunk size: the
   * counters advance once; the chunk `chunkId` (created afresh when the
   * chunk position is 0) receives the item's copied events, followed by the
   * root end tag when the advanced position is a multiple of the size.
   */
  lemma ItemRun(cfg: Config, s: State, it: Item)
    requires cfg.itemsPerChunk != 0 && WriterOnChunk(s) && !s.insideItem
    requires AllPlain(cfg.parent, it.body)
    ensures
      var c := s.counters;
      var next := Advance(c, cfg.itemsPerChunk);
      var before := if c.itemChunkId == 0 then [Start(cfg.root, [])] else s.files[c.chunkId];
      var close := if Rem(next.itemChunkId, cfg.itemsPerChunk) == 0 then [End(cfg.root)] else [];
      Exec(cfg, s, ItemEvents(cfg.parent, it)) ==
        Continue(State(next, false, s.files[c.chunkId := before + ItemOut(cfg.parent, it) + close], Some(c.chunkId)))
  {
    var tag, root, n := cfg.parent, cfg.root, cfg.itemsPerChunk;
    var c := s.counters;
    var before := if c.itemChunkId == 0 then [Start(root, [])] else s.files[c.chunkId];
    var st := Start(tag, it.attributes);
    var s1 := Opened(cfg, s, st);
    var close := if Rem(s1.counters.itemChunkId, n) == 0 then [End(root)] else [];
    ItemStartThenRest(cfg, s, it);
    BodyThenEnd(cfg, s1, it.body);
    assert s1.files[c.chunkId] == before + [st];
    var out := before + [st] + Forwarded(it.body) + [End(tag)] + close;
    Regroup(before, [st], Forwarded(it.body), [End(tag)], close);
    assert s1.files[c.chunkId := out] == s.files[c.chunkId := out];
  }

  /**
   * The loop's state after the first `m` items of a document whose chunk
   * size is at least 1: not inside an item, `m` items counted, and every
   * chunk file as `ExpectedChunk` describes it.
   */
  ghost predicate AfterItems(cfg: Config, items: seq<Item>, m: nat, s: State)
    requires m <= |items|
  {
    Layout(cfg, s) && !s.insideItem && s.counters.itemId == m
    && forall j :: j in s.files ==> s.files[j] == ExpectedChunk(cfg.root, cfg.parent, items, cfg.itemsPerChunk, j, m)
  }

  lemma MulMonotone(a: int, b: int, n: int)
    requires a <= b && n >= 0
    ensures a * n <= b * n
  {
    assert b * n - a * n == (b - a) * n;
  }

  /** The chunk that item `m` goes to, before and after it is placed. */
  lemma ChunkGrows(root: string, tag: string, items: seq<Item>, n: int, c: int, r: int, m: nat)
    requires n >= 1 && c >= 0 && 0 <= r < n && m == c * n + r && m < |items|
    ensures ExpectedChunk(root, tag, items, n, c, m + 1) ==
      (if r == 0 then [Start(root, [])] else ExpectedChunk(root, tag, items, n, c, m))
      + ItemOut(tag, items[m]) + (if r + 1 == n then [End(root)] else [])
  {
    var lo := c * n;
    assert m == lo + r;
    var close: seq<Event> := if r + 1 == n then [End(root)] else [];
    assert ExpectedChunk(root, tag, items, n, c, m + 1)
        == [Start(root, [])] + Outs(tag, items, lo, m + 1) + close;
    ChunkAfterItem(root, tag, items, n, lo, m);
    if r == 0 {
      assert Outs(tag, items, lo, m) == [];
    } else {
      ChunkBeforeItem(root, tag, items, n, c, m);
    }
  }

  /** Chunk `lo / n` after item `m`, which it holds. */
  lemma ChunkAfterItem(root: string, tag: string, items: seq<Item>, n: int, lo: int, m: nat)
    requires n >= 1 && lo <= m < lo + n && m < |items|
    ensures
      var chunk := [Start(root, [])] + Outs(tag, items, lo, m + 1) + (if m + 1 - lo == n then [End(root)] else []);
      chunk == [Start(root, [])] + Outs(tag, items, lo, m) + ItemOut(tag, items[m]) + (if m + 1 - lo == n then [End(root)] else [])
  {
  }

  /** Chunk `c` before item `m`, which falls inside it but not first, is not yet closed. */
  lemma ChunkBeforeItem(root: string, tag: string, items: seq<Item>, n: int, c: int, m: nat)
    requires n >= 1 && c * n < m < c * n + n && m < |items|
    ensures ExpectedChunk(root, tag, items, n, c, m) == [Start(root, [])] + Outs(tag, items, c * n, m)
  {
  }

  /** A chunk before the current one is full and no longer changes. */
  lemma EarlierChunkFixed(root: string, tag: string, items: seq<Item>, n: int, j: int, c: int, m: nat)
    requires n >= 1 && 0 <= j < c && c * n <= m < |items|
    ensures j * n + n <= m
    ensures ExpectedChunk(root, tag, items, n, j, m) == [Start(root, [])] + Outs(tag, items, j * n, j * n + n) + [End(root)]
    ensures ExpectedChunk(root, tag, items, n, j, m + 1) == ExpectedChunk(root, tag, items, n, j, m)
  {
    var lo := j * n;
    assert lo + n <= m by {
      MulMonotone(j + 1, c, n);
      MulDistributes(j + 1, 1, n);
    }
    var whole := [Start(root, [])] + Outs(tag, items, lo, lo + n) + [End(root)];
    assert ExpectedChunk(root, tag, items, n, j, m) == whole;
    assert ExpectedChunk(root, tag, items, n, j, m + 1) == whole;
  }

  /** The root end tag closes item `m`'s chunk exactly when the item fills it. */
  lemma CloseWhenFull(c: Counters, n: int)
    requires n >= 1 && CountersValid(c, n)
    ensures (Rem(Advance(c, n).itemChunkId, n) == 0) == (c.itemChunkId + 1 == n)
  {
    if c.itemChunkId + 1 != n {
      DivModOf(c.itemChunkId + 1, n, 0, c.itemChunkId + 1);
    }
  }

  /** The chunk files once item `m` has been placed into the chunk of `s`'s counters. */
  lemma PlacedFiles(cfg: Config, items: seq<Item>, m: nat, s: State)
    requires cfg.itemsPerChunk >= 1 && m < |items| && AfterItems(cfg, items, m, s)
    ensures
      var n, c := cfg.itemsPerChunk, s.counters;
      var before := if c.itemChunkId == 0 then [Start(cfg.root, [])] else s.files[c.chunkId];
      var close := if Rem(Advance(c, n).itemChunkId, n) == 0 then [End(cfg.root)] else [];
      var files := s.files[c.chunkId := before + ItemOut(cfg.parent, items[m]) + close];
      forall j :: j in files ==> files[j] == ExpectedChunk(cfg.root, cfg.parent, items, n, j, m + 1)
  {
    var tag, root, n := cfg.parent, cfg.root, cfg.itemsPerChunk;
    var c, r := s.counters.chunkId, s.counters.itemChunkId;
    CloseWhenFull(s.counters, n);
    ChunkGrows(root, tag, items, n, c, r, m);
    forall j | j in s.files && j != c
      ensures s.files[j] == ExpectedChunk(root, tag, items, n, j, m + 1)
    {
      assert j < c;
      EarlierChunkFixed(root, tag, items, n, j, c, m);
    }
  }

  /** Item `m`'s own events take the state after `m` items to the state after `m + 1`. */
  lemma ItemAfterItems(cfg: Config, items: seq<Item>, m: nat, s: State)
    requires cfg.itemsPerChunk >= 1 && m < |items| && AfterItems(cfg, items, m, s)
    requires AllPlain(cfg.parent, items[m].body)
    ensures Exec(cfg, s, ItemEvents(cfg.parent, items[m])).Continue?
    ensures AfterItems(cfg, items, m + 1, Exec(cfg, s, ItemEvents(cfg.parent, items[m])).state)
  {
    LayoutWriter(cfg, s);
    ItemRun(cfg, s, items[m]);
    AdvanceKeepsCountersValid(s.counters, cfg.itemsPerChunk);
    ExecKeepsLayout(cfg, s, ItemEvents(cfg.parent, items[m]));
    PlacedFiles(cfg, items, m, s);
  }

  /** Placing item `m` takes the state after `m` items to the state after `m + 1`. */
  lemma OneMoreItem(cfg: Config, items: seq<Item>, m: nat, s: State, gap: seq<Event>)
    requires cfg.itemsPerChunk >= 1 && m < |items| && AfterItems(cfg, items, m, s)
    requires AllPlain(cfg.parent, gap) && AllPlain(cfg.parent, items[m].body)
    ensures Exec(cfg, s, gap + ItemEvents(cfg.parent, items[m])).Continue?
    ensures AfterItems(cfg, items, m + 1, Exec(cfg, s, gap + ItemEvents(cfg.parent, items[m])).state)
  {
    ExecAppend(cfg, s, gap, ItemEvents(cfg.parent, items[m]));
    GapDropped(cfg, s, gap);
    ItemAfterItems(cfg, items, m, s);
  }

  /** After the first `m` gaps and items the state is as `AfterItems` says. */
  lemma {:induction false} PrefixRun(cfg: Config, d: Document, m: nat)
    requires cfg.itemsPerChunk >= 1 && WellFormed(cfg.parent, d) && m <= |d.items|
    ensures Exec(cfg, Initial, Prefix(cfg.parent, d, m)).Continue?
    ensures AfterItems(cfg, d.items, m, Exec(cfg, Initial, Prefix(cfg.parent, d, m)).state)
  {
    var tag := cfg.parent;
    if m == 0 {
      InitialLayout(cfg);
    } else {
      PrefixRun(cfg, d, m - 1);
      var p := Prefix(tag, d, m - 1);
      var rest := d.gaps[m - 1] + ItemEvents(tag, d.items[m - 1]);
      assert Prefix(tag, d, m) == p + rest;
      ExecAppend(cfg, Initial, p, rest);
      OneMoreItem(cfg, d.items, m - 1, Exec(cfg, Initial, p).state, d.gaps[m - 1]);
    }
  }

  /**
   * The chunks of a flat document with K items and a chunk size n >= 1: the
   * run completes with chunk files 0 .. ceil(K / n) - 1, chunk j holding the
   * root start tag, the copied events of items j * n .. min((j + 1) * n, K) - 1
   * in input order, and the root end tag only when it holds n items, so
   * that a trailing partial chunk is left without one.
   */
  lemma ChunksOfDocument(nesting: string, n: int, d: Document)
    requires Separator in nesting && n >= 1
    requires WellFormed(ParentFromNesting(nesting), d)
    ensures
      var root, tag := RootFromNesting(nesting).value, ParentFromNesting(nesting);
      var out := Chunking(Stream(tag, d), n, nesting);
      out.status == Completed
      && (forall j :: j in out.files <==> 0 <= j < CeilDiv(|d.items|, n))
      && (forall j :: j in out.files ==> out.files[j] == ExpectedChunk(root, tag, d.items, n, j, |d.items|))
  {
    var root, tag := RootFromNesting(nesting).value, ParentFromNesting(nesting);
    var cfg := Config(root, tag, n);
    var s := Exec(cfg, Initial, Prefix(tag, d, |d.items|)).state;
    StreamRun(cfg, d);
    ChunkingRuns(Stream(tag, d), n, nesting);
    ChunksOpenedIsCeiling(s.counters, n);
  }

  /** The whole stream completes, in the state the items leave. */
  lemma StreamRun(cfg: Config, d: Document)
    requires cfg.itemsPerChunk >= 1 && WellFormed(cfg.parent, d)
    ensures
      var s := Exec(cfg, Initial, Prefix(cfg.parent, d, |d.items|)).state;
      Exec(cfg, Initial, Stream(cfg.parent, d)) == Stop(Completed, s) && AfterItems(cfg, d.items, |d.items|, s)
  {
    var tag, k := cfg.parent, |d.items|;
    PrefixRun(cfg, d, k);
    var p := Prefix(tag, d, k);
    var s := Exec(cfg, Initial, p).state;
    ExecAppend(cfg, Initial, p, d.gaps[k] + [Eof]);
    ExecAppend(cfg, s, d.gaps[k], [Eof]);
    GapDropped(cfg, s, d.gaps[k]);
    assert p + d.gaps[k] + [Eof] == p + (d.gaps[k] + [Eof]);
    assert Exec(cfg, s, [Eof]) == Stop(Completed, s);
  }

  /** A document without items produces no chunk file at all. */
  lemma NoItemsNoChunks(nesting: string, n: int, d: Document)
    requires Separator in nesting
    requires WellFormed(ParentFromNesting(nesting), d) && d.items == []
    ensures Chunking(Stream(ParentFromNesting(nesting), d), n, nesting) == Outcome(Completed, map[])
  {
    var tag := ParentFromNesting(nesting);
    var cfg := Config(RootFromNesting(nesting).value, tag, n);
    var gap := d.gaps[0];
    assert Stream(tag, d) == gap + [Eof] by {
      assert Prefix(tag, d, 0) == [];
      assert [] + gap == gap;
    }
    ChunkingRuns(Stream(tag, d), n, nesting);
    ExecAppend(cfg, Initial, gap, [Eof]);
    GapDropped(cfg, Initial, gap);
  }

  /** The events of fewer gaps and items begin the events of more. */
  lemma {:induction false} PrefixGrows(tag: string, d: Document, m: nat, m': nat)
    requires m <= m' < |d.gaps| && m' <= |d.items|
    ensures Prefix(tag, d, m) <= Prefix(tag, d, m')
    decreases m' - m
  {
    if m < m' {
      PrefixGrows(tag, d, m, m' - 1);
    }
  }

  /** The first item with a chunk size of 0 opens chunk 0, fills it, and aborts at its end tag. */
  lemma ZeroChunkFirstItem(cfg: Config, it: Item)
    requires cfg.itemsPerChunk == 0 && AllPlain(cfg.parent, it.body)
    ensures
      var p := Exec(cfg, Initial, ItemEvents(cfg.parent, it));
      p.Stop? && p.status == Panicked(RemainderByZero)
      && p.state.files == map[0 := [Start(cfg.root, [])] + ItemOut(cfg.parent, it)]
  {
    var root, tag := cfg.root, cfg.parent;
    var st, en := Start(tag, it.attributes), End(tag);
    var s1 := Opened(cfg, Initial, st);
    ItemStartThenRest(cfg, Initial, it);
    assert s1.counters == Counters(0, 1, 1) && s1.insideItem && s1.writer == Some(0);
    assert s1.files == map[0 := [Start(root, []), st]] by {
      assert [Start(root, [])] + [st] == [Start(root, []), st];
      assert s1.files == Initial.files[0 := [Start(root, [])] + [st]];
    }
    BodyForwarded(cfg, s1, it.body);
    var s2 := s1.(files := s1.files[0 := s1.files[0] + Forwarded(it.body)]);
    ExecAppend(cfg, s1, it.body, [en]);
    var t := s2.(files := s2.files[0 := s2.files[0] + [en]]);
    assert Exec(cfg, s2, [en]) == Stop(Panicked(RemainderByZero), t) by {
      assert Step(cfg, s2, en) == Stop(Panicked(RemainderByZero), t);
    }
    assert t.files == map[0 := [Start(root, [])] + ItemOut(tag, it)] by {
      assert t.files[0] == [Start(root, [])] + ItemOut(tag, it) by {
        Regroup([Start(root, [])], [st], Forwarded(it.body), [en], []);
      }
      assert t.files.Keys == {0};
    }
  }

  /**
   * With a chunk size of 0 the remainder at the end of the first item
   * divides by zero: the run aborts, leaving chunk file 0 with the root
   * start tag and the first item.
   */
  lemma ZeroChunkSizeAborts(nesting: string, d: Document)
    requires Separator in nesting
    requires WellFormed(ParentFromNesting(nesting), d) && |d.items| >= 1
    ensures
      var root, tag := RootFromNesting(nesting).value, ParentFromNesting(nesting);
      Chunking(Stream(tag, d), 0, nesting)
        == Outcome(Panicked(RemainderByZero), map[0 := [Start(root, [])] + ItemOut(tag, d.items[0])])
  {
    var root, tag := RootFromNesting(nesting).value, ParentFromNesting(nesting);
    ChunkingRuns(Stream(tag, d), 0, nesting);
    ZeroChunkStream(Config(root, tag, 0), d);
  }

  /** The run on the whole stream stops where the first item stops it. */
  lemma ZeroChunkStream(cfg: Config, d: Document)
    requires cfg.itemsPerChunk == 0 && WellFormed(cfg.parent, d) && |d.items| >= 1
    ensures Finish(Exec(cfg, Initial, Stream(cfg.parent, d)))
         == Outcome(Panicked(RemainderByZero), map[0 := [Start(cfg.root, [])] + ItemOut(cfg.parent, d.items[0])])
  {
    var first := Prefix(cfg.parent, d, 1);
    var whole := Stream(cfg.parent, d);
    ZeroChunkFirstGapAndItem(cfg, d);
    assert whole == first + whole[|first|..] by {
      PrefixGrows(cfg.parent, d, 1, |d.items|);
    }
    ExecAppend(cfg, Initial, first, whole[|first|..]);
  }

  /** The first gap is dropped and the first item aborts the run, with a chunk size of 0. */
  lemma ZeroChunkFirstGapAndItem(cfg: Config, d: Document)
    requires cfg.itemsPerChunk == 0 && WellFormed(cfg.parent, d) && |d.items| >= 1
    ensures
      var p := Exec(cfg, Initial, Prefix(cfg.parent, d, 1));
      p.Stop? && p.status == Panicked(RemainderByZero)
      && p.state.files == map[0 := [Start(cfg.root, [])] + ItemOut(cfg.parent, d.items[0])]
  {
    var tag, it := cfg.parent, d.items[0];
    assert Prefix(tag, d, 1) == d.gaps[0] + ItemEvents(tag, it) by {
      assert Prefix(tag, d, 0) == [];
      assert [] + d.gaps[0] == d.gaps[0];
    }
    ExecAppend(cfg, Initial, d.gaps[0], ItemEvents(tag, it));
    GapDropped(cfg, Initial, d.gaps[0]);
    ZeroChunkFirstItem(cfg, it);
  }
}
