/**
 * What the event loop guarantees on every stream of events, well formed or
 * not: the counter invariant of the rollover rule, chunk files numbered
 * 0, 1, 2, ... without gaps, each created once and only ever appended to,
 * each beginning with the synthetic root start tag, and as many of them as
 * the item count divided by the chunk size, rounded up.
 */
module ChunkerFacts {
  import opened Wrappers
  import opened Events
  import opened Chunker

  /**
   * The counters between two items: `itemChunkId` is the position in the
   * current chunk and `itemId` the number of items so far. With a chunk size
   * of 1 or more the position stays below the size; with any other size the
   * rollover never fires, so every item falls into chunk 0.
   */
  ghost predicate CountersValid(c: Counters, n: int)
  {
    c.chunkId >= 0 && c.itemChunkId >= 0 && c.itemId >= 0
    && (n >= 1 ==> c.itemChunkId < n && c.itemId == c.chunkId * n + c.itemChunkId)
    && (n <= 0 ==> c.chunkId == 0 && c.itemChunkId == c.itemId)
  }

  /** How many chunk files the counters imply have been created. */
  function ChunksOpened(c: Counters): int
  {
    c.chunkId + (if c.itemChunkId == 0 then 0 else 1)
  }

  /** `x / n` rounded up, for a positive `n`. */
  function CeilDiv(x: nat, n: int): nat
    requires n >= 1
  {
    (x + n - 1) / n
  }

  /** The number of item start tags in `events`. */
  function ItemStarts(parent: string, events: seq<Event>): nat
  {
    if events == [] then 0
    else (if events[0].Start? && events[0].name == parent then 1 else 0) + ItemStarts(parent, events[1..])
  }

  /** Every file in `before` is still there in `after`, with `before`'s contents as a prefix. */
  ghost predicate Grows(before: map<int, seq<Event>>, after: map<int, seq<Event>>)
  {
    forall j :: j in before ==> j in after && before[j] <= after[j]
  }

  /**
   * The invariant of the loop's state: valid counters; the files are
   * exactly chunks 0 .. ChunksOpened - 1; the writer is on the last of
   * them, or on the placeholder before the first item; every file starts
   * with the synthetic root start tag.
   */
  ghost predicate Layout(cfg: Config, s: State)
  {
    CountersValid(s.counters, cfg.itemsPerChunk)
    && (s.counters.itemId > 0 <==> ChunksOpened(s.counters) > 0)
    && (s.insideItem ==> s.counters.itemId > 0)
    && (forall j :: j in s.files <==> 0 <= j < ChunksOpened(s.counters))
    && s.writer == (if ChunksOpened(s.counters) == 0 then None else Some(ChunksOpened(s.counters) - 1))
    && (forall j :: j in s.files ==> |s.files[j]| > 0 && s.files[j][0] == Start(cfg.root, []))
  }

  /** `q` and `r` are the quotient and remainder of `x` by `n`. */
  lemma DivModOf(x: int, n: int, q: int, r: int)
    requires n >= 1 && 0 <= r < n && x == q * n + r
    ensures x / n == q && x % n == r
  {
    var q', r' := x / n, x % n;
    assert x == q' * n + r';
    MulDistributes(q, q', n);
    if q > q' {
      MulAtLeast(q - q', n);
    } else if q < q' {
      MulAtLeast(q' - q, n);
    }
  }

  lemma MulDistributes(a: int, b: int, n: int)
    ensures (a - b) * n == a * n - b * n
  {
  }

  lemma MulAtLeast(d: int, n: int)
    requires d >= 1 && n >= 1
    ensures d * n >= n
  {
    assert d * n == (d - 1) * n + n;
  }

  /** The rollover rule keeps the counters valid and counts one more item. */
  lemma AdvanceKeepsCountersValid(c: Counters, n: int)
    requires CountersValid(c, n)
    ensures CountersValid(Advance(c, n), n)
    ensures Advance(c, n).itemId == c.itemId + 1
    ensures ChunksOpened(Advance(c, n)) == ChunksOpened(c) + (if c.itemChunkId == 0 then 1 else 0)
  {
    if n >= 1 && c.itemChunkId + 1 == n {
      assert (c.chunkId + 1) * n == c.chunkId * n + n;
    }
  }

  /** The counters after `k` item starts, from the initial ones. */
  function AdvanceTimes(n: int, k: nat): Counters
  {
    if k == 0 then Counters(0, 0, 0) else Advance(AdvanceTimes(n, k - 1), n)
  }

  /**
   * After `k` items and a chunk size `n` of at least 1, item `k` (counting
   * from 0) goes to chunk `k / n` at position `k % n`; with any other size
   * all items go to chunk 0.
   */
  lemma {:induction false} CountersAfterItems(n: int, k: nat)
    ensures AdvanceTimes(n, k) == if n >= 1 then Counters(k / n, k, k % n) else Counters(0, k, k)
  {
    if k > 0 {
      CountersAfterItems(n, k - 1);
      if n >= 1 {
        NextDivMod(k, n);
        assert AdvanceTimes(n, k) == Advance(Counters((k - 1) / n, k - 1, (k - 1) % n), n);
      }
    }
  }

  /** How the quotient and remainder by `n` move from `k - 1` to `k`. */
  lemma NextDivMod(k: int, n: int)
    requires n >= 1 && k >= 1
    ensures var q, r := (k - 1) / n, (k - 1) % n;
      if r + 1 == n then k / n == q + 1 && k % n == 0 else k / n == q && k % n == r + 1
  {
    var q, r := (k - 1) / n, (k - 1) % n;
    if r + 1 == n {
      assert (q + 1) * n == q * n + n;
      DivModOf(k, n, q + 1, 0);
    } else {
      DivModOf(k, n, q, r + 1);
    }
  }

  /** The number of chunk files is the number of items divided by the chunk size, rounded up. */
  lemma ChunksOpenedIsCeiling(c: Counters, n: int)
    requires n >= 1 && CountersValid(c, n)
    ensures ChunksOpened(c) == CeilDiv(c.itemId, n)
  {
    if c.itemChunkId == 0 {
      DivModOf(c.itemId + n - 1, n, c.chunkId, n - 1);
    } else {
      DivModOf(c.itemId + n - 1, n, c.chunkId + 1, c.itemChunkId - 1);
    }
  }

  lemma InitialLayout(cfg: Config)
    ensures Layout(cfg, Initial)
  {
  }

  /**
   * A write keeps the invariant and appends to one file; it fails only on
   * the placeholder, that is before the first item, when no file exists.
   */
  lemma WriteKeepsLayout(cfg: Config, s: State, e: Event)
    requires Layout(cfg, s)
    ensures Layout(cfg, Write(s, e).state)
    ensures Grows(s.files, Write(s, e).state.files)
    ensures Write(s, e).state.counters == s.counters && Write(s, e).state.insideItem == s.insideItem
    ensures Write(s, e).Stop? ==>
              Write(s, e) == Stop(Panicked(WriteFailed), s) && s.counters.itemId == 0 && s.files == map[]
  {
    if s.writer.None? {
      assert ChunksOpened(s.counters) == 0;
      assert forall j :: j !in s.files;
      assert s.files.Keys == {};
    }
  }

  /** At chunk position 0 the next chunk file is created and the writer moves onto it. */
  lemma ReadyOpensChunk(cfg: Config, s: State)
    requires Layout(cfg, s) && s.counters.itemChunkId == 0
    ensures Layout(cfg, Ready(cfg, s)) && Grows(s.files, Ready(cfg, s).files) && Ready(cfg, s).writer.Some?
    ensures s.counters.chunkId !in s.files
    ensures Ready(cfg, s).files == s.files[s.counters.chunkId := [Start(cfg.root, [])]]
    ensures Ready(cfg, s).writer == Some(s.counters.chunkId)
  {
    var c := s.counters;
    var t := Ready(cfg, s);
    assert c.chunkId !in s.files by {
      assert ChunksOpened(c) == c.chunkId;
    }
    assert t.files == s.files[c.chunkId := [Start(cfg.root, [])]] && t.writer == Some(c.chunkId);
    assert Layout(cfg, t) by {
      AdvanceKeepsCountersValid(c, cfg.itemsPerChunk);
      assert ChunksOpened(t.counters) == c.chunkId + 1;
      assert forall j :: j in t.files <==> 0 <= j < c.chunkId + 1;
      assert forall j :: j in t.files ==> |t.files[j]| > 0 && t.files[j][0] == Start(cfg.root, []);
    }
  }

  /** In the middle of a chunk the files and the writer stay as they are. */
  lemma ReadyInChunk(cfg: Config, s: State)
    requires Layout(cfg, s) && s.counters.itemChunkId != 0
    ensures Layout(cfg, Ready(cfg, s)) && Grows(s.files, Ready(cfg, s).files) && Ready(cfg, s).writer.Some?
    ensures Ready(cfg, s).files == s.files && Ready(cfg, s).writer == s.writer
  {
    var c := s.counters;
    var t := Ready(cfg, s);
    AdvanceKeepsCountersValid(c, cfg.itemsPerChunk);
    assert ChunksOpened(t.counters) == ChunksOpened(c);
    assert t.files == s.files && t.writer == s.writer;
  }

  /** An item start tag keeps the invariant, opening a fresh file when the chunk position is 0. */
  lemma ItemStartKeepsLayout(cfg: Config, s: State, e: Event)
    requires Layout(cfg, s) && e.Start? && e.name == cfg.parent
    ensures Step(cfg, s, e).Continue?
    ensures Layout(cfg, Step(cfg, s, e).state)
    ensures Grows(s.files, Step(cfg, s, e).state.files)
    ensures ChunksOpened(Step(cfg, s, e).state.counters)
         == ChunksOpened(s.counters) + (if s.counters.itemChunkId == 0 then 1 else 0)
  {
    AdvanceKeepsCountersValid(s.counters, cfg.itemsPerChunk);
    if s.counters.itemChunkId == 0 {
      ReadyOpensChunk(cfg, s);
    } else {
      ReadyInChunk(cfg, s);
    }
    WriteKeepsLayout(cfg, Ready(cfg, s), e);
    assert Step(cfg, s, e) == Write(Ready(cfg, s), e);
  }

  /** An item end tag keeps the invariant; it fails to write only before the first item. */
  lemma ItemEndKeepsLayout(cfg: Config, s: State, e: Event)
    requires Layout(cfg, s) && e.End? && e.name == cfg.parent
    ensures Layout(cfg, Step(cfg, s, e).state)
    ensures Grows(s.files, Step(cfg, s, e).state.files)
    ensures Step(cfg, s, e).Stop? && Step(cfg, s, e).status == Panicked(WriteFailed) ==>
              s.counters.itemId == 0 && s.files == map[]
  {
    WriteKeepsLayout(cfg, s, e);
    match Write(s, e) {
      case Continue(t) =>
        if cfg.itemsPerChunk != 0 && Rem(t.counters.itemChunkId, cfg.itemsPerChunk) == 0 {
          WriteKeepsLayout(cfg, t, End(cfg.root));
          var u := Write(t, End(cfg.root)).state;
          assert Step(cfg, s, e) == Continue(u.(insideItem := false));
          GrowsTransitive(s.files, t.files, u.files);
        }
      case Stop(_, _) =>
    }
  }

  lemma GrowsTransitive(a: map<int, seq<Event>>, b: map<int, seq<Event>>, c: map<int, seq<Event>>)
    requires Grows(a, b) && Grows(b, c)
    ensures Grows(a, c)
  {
  }

  /**
   * One event keeps the invariant, and files only grow. A write fails only
   * for an item end tag seen before any item start, and then nothing at all
   * has been written.
   */
  lemma StepKeepsLayout(cfg: Config, s: State, e: Event)
    requires Layout(cfg, s)
    ensures Layout(cfg, Step(cfg, s, e).state)
    ensures Grows(s.files, Step(cfg, s, e).state.files)
    ensures Step(cfg, s, e).Stop? && Step(cfg, s, e).status == Panicked(WriteFailed) ==>
              e == End(cfg.parent) && s.counters.itemId == 0 && s.files == map[]
  {
    match e {
      case Start(name, _) =>
        if name == cfg.parent {
          ItemStartKeepsLayout(cfg, s, e);
        } else {
          WriteKeepsLayout(cfg, s, e);
        }
      case End(name) =>
        if name == cfg.parent {
          ItemEndKeepsLayout(cfg, s, e);
        } else {
          WriteKeepsLayout(cfg, s, e);
        }
      case Text(_) =>
        WriteKeepsLayout(cfg, s, e);
      case _ =>
    }
  }

  /** A whole stream keeps the invariant, and files only grow. */
  lemma {:induction false} ExecKeepsLayout(cfg: Config, s: State, events: seq<Event>)
    requires Layout(cfg, s)
    ensures Layout(cfg, Exec(cfg, s, events).state)
    ensures Grows(s.files, Exec(cfg, s, events).state.files)
    decreases |events|
  {
    if events != [] {
      StepKeepsLayout(cfg, s, events[0]);
      match Step(cfg, s, events[0]) {
        case Continue(next) =>
          ExecKeepsLayout(cfg, next, events[1..]);
        case Stop(_, _) =>
      }
    }
  }

  /** Running over `a + b` is running over `a` and then, unless it stopped, over `b`. */
  lemma {:induction false} ExecAppend(cfg: Config, s: State, a: seq<Event>, b: seq<Event>)
    ensures Exec(cfg, s, a + b) ==
      match Exec(cfg, s, a)
      case Continue(t) => Exec(cfg, t, b)
      case Stop(status, t) => Stop(status, t)
    decreases |a|
  {
    if a == [] {
      assert a + b == b;
    } else {
      assert (a + b)[0] == a[0] && (a + b)[1..] == a[1..] + b;
      match Step(cfg, s, a[0]) {
        case Continue(next) => ExecAppend(cfg, next, a[1..], b);
        case Stop(_, _) =>
      }
    }
  }

  /** A run that does not stop counts every item start tag it reads. */
  lemma {:induction false} ExecCountsItems(cfg: Config, s: State, events: seq<Event>)
    requires Exec(cfg, s, events).Continue?
    ensures Exec(cfg, s, events).state.counters.itemId == s.counters.itemId + ItemStarts(cfg.parent, events)
    decreases |events|
  {
    if events != [] {
      match Step(cfg, s, events[0]) {
        case Continue(next) =>
          ExecCountsItems(cfg, next, events[1..]);
          assert next.counters.itemId == s.counters.itemId + ItemStarts(cfg.parent, [events[0]]);
        case Stop(_, _) =>
      }
    }
  }

  /**
   * Before the first item start nothing is written and no file is created:
   * everything outside items is dropped, and the state stays the initial one
   * (a run may still stop there, on a reader error or on a stray item end).
   */
  lemma {:induction false} NothingBeforeFirstItem(cfg: Config, events: seq<Event>)
    requires forall i :: 0 <= i < |events| ==> !(events[i].Start? && events[i].name == cfg.parent)
    ensures Exec(cfg, Initial, events).state == Initial
    decreases |events|
  {
    if events != [] {
      match Step(cfg, Initial, events[0]) {
        case Continue(next) =>
          assert next == Initial;
          NothingBeforeFirstItem(cfg, events[1..]);
        case Stop(_, _) =>
      }
    }
  }

  /** The events the reader delivers before the first end-of-input event. */
  function UpToEof(events: seq<Event>): seq<Event>
  {
    if events == [] || events[0] == Eof then [] else [events[0]] + UpToEof(events[1..])
  }

  /**
   * A run that completes reads the events up to the end of input without
   * stopping, and leaves the files that reading them produces.
   */
  lemma {:induction false} CompletedRunReadsUpToEof(cfg: Config, s: State, events: seq<Event>)
    requires Finish(Exec(cfg, s, events)).status == Completed
    ensures Exec(cfg, s, UpToEof(events)).Continue?
    ensures Finish(Exec(cfg, s, events)).files == Exec(cfg, s, UpToEof(events)).state.files
    decreases |events|
  {
    if events != [] && events[0] != Eof {
      var e := events[0];
      assert ([e] + UpToEof(events[1..]))[0] == e && ([e] + UpToEof(events[1..]))[1..] == UpToEof(events[1..]);
      match Step(cfg, s, e) {
        case Continue(next) =>
          CompletedRunReadsUpToEof(cfg, next, events[1..]);
        case Stop(_, _) =>
          assert false;
      }
    }
  }

  /**
   * A run on any event stream that completes, with a chunk size of 1 or
   * more, leaves chunk files 0 .. ceil(K / n) - 1 for the K item start tags
   * read before the end of input, each beginning with the synthetic root
   * start tag.
   */
  lemma ChunkFilesOfAnyStream(cfg: Config, events: seq<Event>)
    requires cfg.itemsPerChunk >= 1
    requires Finish(Exec(cfg, Initial, events)).status == Completed
    ensures var files := Finish(Exec(cfg, Initial, events)).files;
      (forall j :: j in files <==> 0 <= j < CeilDiv(ItemStarts(cfg.parent, UpToEof(events)), cfg.itemsPerChunk))
      && (forall j :: j in files ==> |files[j]| > 0 && files[j][0] == Start(cfg.root, []))
  {
    var read := UpToEof(events);
    CompletedRunReadsUpToEof(cfg, Initial, events);
    InitialLayout(cfg);
    ExecKeepsLayout(cfg, Initial, read);
    ExecCountsItems(cfg, Initial, read);
    var s := Exec(cfg, Initial, read).state;
    ChunksOpenedIsCeiling(s.counters, cfg.itemsPerChunk);
  }

  /**
   * With a chunk size of 0 or less the rollover never fires: every run,
   * however it ends, writes into chunk file 0 alone, and a run that
   * completes has created it exactly when it read an item before the end of
   * input.
   */
  lemma SingleChunkWhenSizeNotPositive(cfg: Config, events: seq<Event>)
    requires cfg.itemsPerChunk <= 0
    ensures forall j :: j in Finish(Exec(cfg, Initial, events)).files ==> j == 0
    ensures Finish(Exec(cfg, Initial, events)).status == Completed ==>
      (0 in Finish(Exec(cfg, Initial, events)).files <==> ItemStarts(cfg.parent, UpToEof(events)) > 0)
  {
    InitialLayout(cfg);
    ExecKeepsLayout(cfg, Initial, events);
    if Finish(Exec(cfg, Initial, events)).status == Completed {
      var read := UpToEof(events);
      CompletedRunReadsUpToEof(cfg, Initial, events);
      ExecKeepsLayout(cfg, Initial, read);
      ExecCountsItems(cfg, Initial, read);
    }
  }
}
