/**
 * The splitter's event loop (src/main.rs:43-126): it reads XML events one at
 * a time, counts item elements, opens a new chunk file whenever an item
 * starts a fresh chunk, and copies the events of each item into the chunk
 * that is open, wrapped in a synthetic root element.
 *
 * `Step` and `Exec` state what one event and a whole stream do to the
 * loop's variables; `ReadLoop` is the loop itself, proved to compute
 * exactly `Exec`, and `EmitWriteEventForEachReadEvent` adds the names taken
 * from the nesting, proved to compute exactly `Chunking`.
 */
module Chunker {
  import opened Wrappers
  import opened Events
  import opened Nesting

  /** The loop's counters (src/main.rs:55-57). */
  datatype Counters = Counters(chunkId: int, itemId: int, itemChunkId: int)

  /**
   * The counter update on every item start: the position within the chunk
   * rolls over to 0, moving on to the next chunk, when it would reach the
   * chunk size; the item count always grows.
   */
  function Advance(c: Counters, itemsPerChunk: int): Counters
  {
    if c.itemChunkId + 1 == itemsPerChunk then Counters(c.chunkId + 1, c.itemId + 1, 0)
    else Counters(c.chunkId, c.itemId + 1, c.itemChunkId + 1)
  }

  function Abs(x: int): nat
  {
    if x < 0 then -x else x
  }

  /**
   * Rust's `%` on integers: the remainder of the division that truncates
   * toward zero, so that it carries the sign of the dividend.
   */
  function Rem(a: int, b: int): (r: int)
    requires b != 0
    ensures Abs(r) < Abs(b)
    ensures a >= 0 ==> r == a % Abs(b)
    ensures a < 0 ==> r <= 0
  {
    if a >= 0 then a % Abs(b) else -((-a) % Abs(b))
  }

  /** The two names taken from the nesting, and the chunk size. */
  datatype Config = Config(root: string, parent: string, itemsPerChunk: int)

  /** Why a run aborts (each is a panic in the program). */
  datatype Panic =
    | MissingRoot           // the nesting has no segment at index 1
    | ReaderError(position: nat)
    | WriteFailed           // a write through the read-only placeholder writer
    | RemainderByZero       // `% items_per_chunk` with a chunk size of 0

  datatype Status = Completed | Panicked(reason: Panic)

  /**
   * The loop's state between two events. `files` holds every chunk file
   * created so far, by chunk id. `writer` is the chunk the writer appends
   * to; `None` is the initial placeholder writer on `/dev/null`, which is
   * opened read-only, so that every write through it fails.
   */
  datatype State = State(counters: Counters, insideItem: bool, files: map<int, seq<Event>>, writer: Option<int>)

  const Initial: State := State(Counters(0, 0, 0), false, map[], None)

  /** Either the loop goes on in a new state or it has stopped, leaving `state` on disk. */
  datatype Progress = Continue(state: State) | Stop(status: Status, state: State)

  /** How a run ends and the chunk files it leaves behind. */
  datatype Outcome = Outcome(status: Status, files: map<int, seq<Event>>)

  function Contents(files: map<int, seq<Event>>, id: int): seq<Event>
  {
    if id in files then files[id] else []
  }

  /** Appends `e` to the chunk the writer is on; fails on the placeholder. */
  function Write(s: State, e: Event): Progress
  {
    match s.writer
    case None => Stop(Panicked(WriteFailed), s)
    case Some(id) => Continue(s.(files := s.files[id := Contents(s.files, id) + [e]]))
  }

  /**
   * Creates (or truncates) the file of the current chunk id, points the
   * writer at it and writes the synthetic root start tag into it.
   */
  function OpenChunk(cfg: Config, s: State): State
  {
    var id := s.counters.chunkId;
    s.(files := s.files[id := [Start(cfg.root, [])]], writer := Some(id))
  }

  /**
   * The state an item start tag is written in: a new chunk opened at chunk
   * position 0, the counters advanced, inside the item.
   */
  function Ready(cfg: Config, s: State): State
  {
    var ready := if s.counters.itemChunkId == 0 then OpenChunk(cfg, s) else s;
    ready.(counters := Advance(ready.counters, cfg.itemsPerChunk), insideItem := true)
  }

  /** What the loop body does with one event. */
  function Step(cfg: Config, s: State, e: Event): Progress
  {
    match e
    case Error(position) => Stop(Panicked(ReaderError(position)), s)
    case Eof => Stop(Completed, s)
    case Start(name, _) =>
      if name == cfg.parent then
        Write(Ready(cfg, s), e)
      else if s.insideItem then Write(s, e)
      else Continue(s)
    case Text(_) =>
      if s.insideItem then Write(s, e) else Continue(s)
    case End(name) =>
      if name == cfg.parent then
        match Write(s, e)
        case Stop(status, t) => Stop(status, t)
        case Continue(t) =>
          if cfg.itemsPerChunk == 0 then Stop(Panicked(RemainderByZero), t)
          else if Rem(t.counters.itemChunkId, cfg.itemsPerChunk) == 0 then
            match Write(t, End(cfg.root))
            case Stop(status, u) => Stop(status, u)
            case Continue(u) => Continue(u.(insideItem := false))
          else Continue(t.(insideItem := false))
      else if s.insideItem then Write(s, e)
      else Continue(s)
    case _ => Continue(s)
  }

  /**
   * Runs the loop over `events` from `s`. Running out of events is the end
   * of the input: a reader reports `Eof` there.
   */
  function Exec(cfg: Config, s: State, events: seq<Event>): Progress
    decreases |events|
  {
    if events == [] then Continue(s)
    else
      match Step(cfg, s, events[0])
      case Continue(next) => Exec(cfg, next, events[1..])
      case Stop(status, t) => Stop(status, t)
  }

  function Finish(p: Progress): Outcome
  {
    match p
    case Continue(s) => Outcome(Completed, s.files)
    case Stop(status, s) => Outcome(status, s.files)
  }

  /** The whole run on the events of a document, a chunk size and a nesting. */
  function Chunking(events: seq<Event>, maxItems: int, nesting: string): Outcome
  {
    match RootFromNesting(nesting)
    case None => Outcome(Panicked(MissingRoot), map[])
    case Some(root) => Finish(Exec(Config(root, ParentFromNesting(nesting), maxItems), Initial, events))
  }

  /** With a root in the nesting, the program is the loop run from the initial state. */
  lemma ChunkingRuns(events: seq<Event>, maxItems: int, nesting: string)
    requires Separator in nesting
    ensures Chunking(events, maxItems, nesting)
         == Finish(Exec(Config(RootFromNesting(nesting).value, ParentFromNesting(nesting), maxItems), Initial, events))
  {
  }

  /** The run from position `i` is the step on `events[i]` followed by the run from `i + 1`. */
  lemma ExecAt(cfg: Config, s: State, events: seq<Event>, i: nat)
    requires i < |events|
    ensures Exec(cfg, s, events[i..]) ==
      match Step(cfg, s, events[i])
      case Continue(next) => Exec(cfg, next, events[i + 1..])
      case Stop(status, t) => Stop(status, t)
  {
    assert events[i..][0] == events[i] && events[i..][1..] == events[i + 1..];
  }

  /** An item start tag is written in the state `Ready` makes. */
  lemma ItemStartIsWrite(cfg: Config, s: State, e: Event)
    requires e.Start? && e.name == cfg.parent
    ensures Step(cfg, s, e) == Write(Ready(cfg, s), e)
    ensures Ready(cfg, s).counters == Advance(s.counters, cfg.itemsPerChunk) && Ready(cfg, s).insideItem
    ensures s.counters.itemChunkId == 0 ==>
      Ready(cfg, s).files == s.files[s.counters.chunkId := [Start(cfg.root, [])]] && Ready(cfg, s).writer == Some(s.counters.chunkId)
    ensures s.counters.itemChunkId != 0 ==> Ready(cfg, s).files == s.files && Ready(cfg, s).writer == s.writer
  {
  }

  /**
   * The program's entry point for one document: the two names come from the
   * nesting, and a nesting without a root aborts before anything is read.
   */
  method EmitWriteEventForEachReadEvent(events: seq<Event>, maxItems: int, nesting: string)
    returns (out: Outcome)
    ensures out == Chunking(events, maxItems, nesting)
  {
    var rootFound := RootFromNesting(nesting);
    if rootFound.None? {
      return Outcome(Panicked(MissingRoot), map[]);
    }
    var root := rootFound.value;
    var parent := ParentFromNesting(nesting);
    out := ReadLoop(events, root, parent, maxItems);
  }

  /** The event loop of the program, on local variables as the source has them. */
  method ReadLoop(events: seq<Event>, root: string, parent: string, maxItems: int)
    returns (out: Outcome)
    ensures out == Finish(Exec(Config(root, parent, maxItems), Initial, events))
  {
    ghost var cfg := Config(root, parent, maxItems);
    var files: map<int, seq<Event>> := map[];
    var writer: Option<int> := None;

    var itemsPerChunk := maxItems;
    var chunkId, itemId, itemChunkId := 0, 0, 0;
    var insideItem := false;

    var i := 0;
    while i < |events|
      invariant 0 <= i <= |events|
      invariant Exec(cfg, State(Counters(chunkId, itemId, itemChunkId), insideItem, files, writer), events[i..])
             == Exec(cfg, Initial, events)
    {
      var e := events[i];
      ghost var before := State(Counters(chunkId, itemId, itemChunkId), insideItem, files, writer);
      ExecAt(cfg, before, events, i);
      match e {
        case Error(position) =>
          return Outcome(Panicked(ReaderError(position)), files);
        case Eof =>
          break;
        case Start(name, _) =>
          if name == parent {
            ItemStartIsWrite(cfg, before, e);
            if itemChunkId == 0 {
              files := files[chunkId := [Start(root, [])]];
              writer := Some(chunkId);
            }
            if itemChunkId + 1 == itemsPerChunk {
              chunkId := chunkId + 1;
              itemChunkId := 0;
            } else {
              itemChunkId := itemChunkId + 1;
            }
            itemId := itemId + 1;
            insideItem := true;
            if writer.None? {
              return Outcome(Panicked(WriteFailed), files);
            }
            files := files[writer.value := Contents(files, writer.value) + [e]];
          } else if insideItem {
            if writer.None? {
              return Outcome(Panicked(WriteFailed), files);
            }
            files := files[writer.value := Contents(files, writer.value) + [e]];
          }
        case Text(_) =>
          if insideItem {
            if writer.None? {
              return Outcome(Panicked(WriteFailed), files);
            }
            files := files[writer.value := Contents(files, writer.value) + [e]];
          }
        case End(name) =>
          if name == parent {
            if writer.None? {
              return Outcome(Panicked(WriteFailed), files);
            }
            files := files[writer.value := Contents(files, writer.value) + [e]];
            if itemsPerChunk == 0 {
              return Outcome(Panicked(RemainderByZero), files);
            }
            if Rem(itemChunkId, itemsPerChunk) == 0 {
              files := files[writer.value := Contents(files, writer.value) + [End(root)]];
            }
            insideItem := false;
          } else if insideItem {
            if writer.None? {
              return Outcome(Panicked(WriteFailed), files);
            }
            files := files[writer.value := Contents(files, writer.value) + [e]];
          }
        case _ =>
      }
      assert Step(cfg, before, e) == Continue(State(Counters(chunkId, itemId, itemChunkId), insideItem, files, writer));
      i := i + 1;
    }
    return Outcome(Completed, files);
  }
}
