# xmltool chunker, modelled in Dafny

xmltool splits a large XML feed into chunk files. The `--nesting` argument
(for example `/rss/item`) names two elements:

- the synthetic root element that wraps every chunk: segment 1 of the path
  split at `/`;
- the repeated item element: the last segment.

`--count` sets the chunk size N. The program reads the input one XML event
at a time and counts item start tags. Whenever an item starts while the
position inside the current chunk is 0, it creates the next chunk file and
writes the root start tag into it. Every item start tag and every item end
tag is written to the open chunk; the start tag sets the inside-item flag
and the end tag clears it. Other start tags, end tags and text are copied
only while that flag is set. After an item's end tag it writes the root end
tag when Rust's remainder of the chunk position by N is 0.

The project has six modules:

- `Wrappers` holds `Option`.
- `Nesting` models splitting the nesting path and the two names taken from
  it.
- `Events` models the reader's events and the events the loop copies.
- `Chunker` models the event loop. `Step` and `Exec` are the loop body and
  the whole run as functions of the loop state. `Chunking` is the whole
  program run on a stream. `EmitWriteEventForEachReadEvent` is the loop
  written imperatively over the source's own local variables; it is proved
  to compute `Chunking`.
- `ChunkerFacts` holds the loop invariant `Layout` and the counter
  arithmetic. `Layout` covers the counters, which chunk files exist, where
  the writer points, and that every file starts with the root tag.
- `Documents` proves what a run produces on a flat document. Such a
  document is a list of item elements separated by gaps of other events.

Chunk files are a map from chunk id to the sequence of events written to
that file. The program's file name for chunk `k` is `/tmp/feed.xml.k`.

What the code does, and so what the model does:

- Events are re-serialised. Only start tags, end tags and text inside items
  reach a chunk. Everything outside items is dropped, and so are
  self-closing tags, comments, CDATA and processing instructions inside
  items. The root start tag is written bare, without attributes. The
  original document's header and footer are not kept.
- The root name is segment 1 of the split, so `rss/item` gives root `item`.
  A nesting without `/` aborts the program.
- Items are not matched by depth. In a nested item, the inner end tag
  clears the inside-item flag, so the outer item's remaining text and
  tags are dropped, while its end tag is still written, followed by another
  root end tag when the remainder is 0.
- An item end tag before any item start tag is written to the `/dev/null`
  placeholder, which is open for reading only, so the program aborts.
- A count of 0 makes the remainder at the first item end divide by zero,
  so the program aborts after writing the first item.
- A trailing chunk with fewer than N items never gets its root end tag.
- A negative count never rolls over, so every item goes to chunk 0. The
  remainder by a negative N is 0 whenever the position is a multiple of
  |N|, so chunk 0 gets a root end tag after every |N|-th item.

## Model

| member | source | states |
|---|---|---|
| Nesting.Split | src/main.rs:35-41 | The parts contain no separator, join back to the input, and there is exactly one part when the input has no separator |
| Nesting.SplitUnique | src/main.rs:35-41 | Any separator-free list of parts that joins to the input is the split, so the split is the unique cut at the separators |
| Nesting.RootFromNesting | src/main.rs:35-37 | None (the `unwrap` panic) exactly when the nesting has no `/`; otherwise a segment without `/` that follows the first `/` and runs to the next `/` or to the end |
| Nesting.ParentFromNesting | src/main.rs:39-41 | Never fails; the result has no `/`, is a suffix of the nesting, and is either the whole nesting or preceded by `/` |
| Events.ForwardedExactly | src/main.rs:90-102 | The copy keeps every start, end and text event of its input and nothing else, and is no longer than the input |
| Events.ForwardedAppend | src/main.rs:90-102 | Copying works event by event: the copy of a + b is the copy of a followed by the copy of b |
| Chunker.Rem | src/main.rs:108 | Rust's `%`: its absolute value is below the divisor's; it agrees with the Euclidean remainder for a non-negative dividend and is at most 0 for a negative one |
| Chunker.ReadLoop | src/main.rs:47-126 | The imperative loop over the source's local variables returns exactly the outcome of running `Step` over the events, with the same panics and files |
| Chunker.EmitWriteEventForEachReadEvent | src/main.rs:43-45 | Taking the two names from the nesting and then running the loop returns exactly `Chunking`, including the abort on a nesting without a root |
| ChunkerFacts.AdvanceKeepsCountersValid | src/main.rs:77-84 | The rollover keeps item_id = chunk_id * N + item_chunk_id with 0 <= item_chunk_id < N (chunk_id stays 0 for N <= 0), counts one more item, and opens a new chunk exactly when the position was 0 |
| ChunkerFacts.CountersAfterItems | src/main.rs:77-84 | After k item starts the counters are (k / N, k, k % N) for N >= 1, and (0, k, k) otherwise |
| ChunkerFacts.ChunksOpenedIsCeiling | src/main.rs:70-84 | The number of chunks opened equals ceil(item_id / N) |
| ChunkerFacts.WriteKeepsLayout | src/main.rs:51-52 | A write keeps the invariant and only appends; it fails only on the read-only `/dev/null` placeholder, before any chunk exists |
| ChunkerFacts.ReadyOpensChunk | src/main.rs:70-85 | At chunk position 0 an item start creates chunk file chunk_id, which did not exist before, holding only the root tag, and moves the writer onto it; the other files stay as they are and the invariant holds |
| ChunkerFacts.ReadyInChunk | src/main.rs:77-85 | In the middle of a chunk an item start leaves the files and the writer exactly as they are, keeping the invariant |
| ChunkerFacts.ItemStartKeepsLayout | src/main.rs:67-88 | An item start tag never fails, keeps the invariant, only appends, and raises the number of chunks opened by one at chunk position 0 and by none otherwise |
| ChunkerFacts.ItemEndKeepsLayout | src/main.rs:104-112 | An item end tag keeps the invariant; its write fails only when no item has started yet |
| ChunkerFacts.StepKeepsLayout | src/main.rs:61-123 | Every event keeps the invariant, and files only grow; a write failure happens only on an item end tag before any item, with nothing written |
| ChunkerFacts.ExecKeepsLayout | src/main.rs:61-125 | A whole run keeps the invariant, and every file it started with keeps its contents as a prefix |
| ChunkerFacts.ExecAppend | src/main.rs:61-125 | Running over a + b is running over a and then, unless it stopped, over b |
| ChunkerFacts.ExecCountsItems | src/main.rs:67-88 | A run that does not stop counts every item start tag it reads |
| ChunkerFacts.NothingBeforeFirstItem | src/main.rs:51-58 | Before the first item start tag the loop state stays the initial one: no file and no output |
| ChunkerFacts.CompletedRunReadsUpToEof | src/main.rs:61-66 | A run that completes reads every event before the first end of input without stopping, and its files are the ones those events produce |
| ChunkerFacts.ChunkFilesOfAnyStream | src/main.rs:61-84 | For N >= 1, a run on any stream that completes leaves exactly chunk files 0 .. ceil(K / N) - 1 for the K item starts read before the end of input, each starting with the root tag |
| ChunkerFacts.SingleChunkWhenSizeNotPositive | src/main.rs:61-84 | For N <= 0 every run, however it ends, writes chunk file 0 only; a completed run has it exactly when an item started before the end of input |
| Documents.GapDropped | src/main.rs:90-102 | Outside an item, non-item events change nothing |
| Documents.BodyForwarded | src/main.rs:90-102 | Inside an item, non-item events are appended in order, filtered by `Forwarded`, to the chunk the writer is on |
| Documents.PlainStepInside | src/main.rs:90-102 | Inside an item one non-item event is appended to the open chunk if it is a start tag, end tag or text, and changes nothing otherwise |
| Documents.ItemStartStep | src/main.rs:67-88 | An item start tag, inside an item or not, advances the counters, sets the inside-item flag, and goes into chunk chunk_id, which is created afresh with the root tag at chunk position 0 |
| Documents.ItemEndStep | src/main.rs:104-112 | An item end tag is written, followed by the root end tag exactly when the remainder of the position by N is 0 |
| Documents.ItemRun | src/main.rs:67-112 | One whole item puts its copied events into chunk chunk_id, closed by the root end tag exactly when the advanced position is a multiple of N |
| Documents.CloseWhenFull | src/main.rs:77-110 | The root end tag follows an item exactly when that item fills its chunk |
| Documents.ChunkGrows | src/main.rs:70-110 | The expected chunk after item m is the chunk before it, or a fresh root tag at position 0, followed by the item and by the root end tag when the chunk is full |
| Documents.EarlierChunkFixed | src/main.rs:77-80 | A chunk before the current one ends before item m, holds the root tag, its N items and the root end tag, and does not change when item m is placed |
| Documents.OneMoreItem | src/main.rs:61-125 | A gap and an item take the state after m items to the state after m + 1 items |
| Documents.PrefixRun | src/main.rs:61-125 | After the first m gaps and items, the files are exactly the expected chunks for m items |
| Documents.ChunksOfDocument | src/main.rs:43-126 | For N >= 1 a flat document with K items completes with chunk files 0 .. ceil(K / N) - 1. Chunk j holds the root tag, then items jN .. min(jN + N, K) - 1 in order, then the root end tag only if the chunk is full |
| Documents.NoItemsNoChunks | src/main.rs:51-66 | For any N, a document without items completes and creates no chunk file |
| Documents.ZeroChunkFirstItem | src/main.rs:70-110 | With N = 0 the first item opens chunk 0, is copied into it, and aborts at its end tag |
| Documents.ZeroChunkSizeAborts | src/main.rs:108 | With N = 0 a flat document with at least one item aborts with a division by zero, leaving chunk 0 with the root tag and the first item |

## Left out

- Command-line parsing (`clap`), `main` and `process::exit` are not modelled. The model takes the nesting and the count as parameters.
- Reading the input file and tokenising it are not modelled, and neither is `trim_text`. A document is the sequence of events the XML reader returns. Running out of events counts as the end of input.
- Serialising events back to bytes is not modelled. Chunk files are sequences of events keyed by chunk id, not byte files named `/tmp/feed.xml.<id>`.
- The UTF-8 check on element names (`from_utf8(..).unwrap()`) is not modelled: names are already strings.
- The `println!` progress line when a chunk opens is not modelled.
- `i32` overflow of the counters is not captured: they are unbounded integers, and overflow would need more than 2^31 items.
- Failures to create or write a real chunk file (`File::create(..).unwrap()`, `write_event(..).unwrap()` on `/tmp/feed.xml.<id>`) are not modelled: such writes always succeed. Only the write to the read-only `/dev/null` placeholder fails.
- The reader's error value is not captured. A reader error is modelled as a panic that records only the buffer position.
- Documents.ChunksOfDocument: covers flat documents only. Nested item elements, and streams that end inside an item, are covered only by the general invariant in `ChunkerFacts`.
