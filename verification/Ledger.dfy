/**
 The part of a state that orders the reads and their chunks: what each machine
 knows about the issued reads, and which buffers hold chunks in between.
 */
module Ledger {
  import opened Config
  import opened Messages
  import opened Options
  import opened System
  import opened Stream
  import Writer
  import Reader

  /** `claims` are the buffers that hold a posted and not yet consumed chunk, oldest
      first; `backlog` are the records the writer has not started. */
  datatype Ledger = Ledger(
    issued: seq<Read>,
    queue: seq<WorkRecord>, phase: Reader.Phase,
    backlog: seq<WorkRecord>, handle: Writer.Handle, rec: WorkRecord,
    claims: seq<int>)

  function ReaderRecord(r: Read): WorkRecord { WorkRecord(r.dst, r.bytes, 0, r.cb) }
  function WriterRecord(r: Read): WorkRecord { WorkRecord(r.src, r.bytes, 0, None) }

  /** Reads whose record has left the read queue, and reads the writer has started. */
  function Popped(l: Ledger): int { |l.issued| - |l.queue| }
  function Started(l: Ledger): int { |l.issued| - |l.backlog| }

  /** The front record has been read to its end but not popped yet. */
  predicate FrontDone(l: Ledger) {
    l.phase.Noted? && l.phase.last
  }

  ghost predicate ReaderBooks(cfg: Config, l: Ledger)
    requires cfg.Valid()
  {
    && |l.queue| <= |l.issued|
    && (forall i :: 1 <= i < |l.queue| ==> l.queue[i] == ReaderRecord(l.issued[Popped(l) + i]))
    && (l.queue != [] ==>
          && l.queue[0].(offset := 0) == ReaderRecord(l.issued[Popped(l)])
          && l.queue[0].offset <= l.queue[0].bytes
          && (if FrontDone(l) then l.queue[0].offset == l.queue[0].bytes
              else Aligned(cfg, l.queue[0].bytes, l.queue[0].offset)))
    && (l.phase.Noted? ==> l.queue != [] && (l.phase.last <==> l.queue[0].offset == l.queue[0].bytes))
    && (l.phase.Got? ==> l.queue != [] && l.phase.rec == l.queue[0])
    && (l.phase.Gathered? ==> l.queue != [] && l.phase.rec == l.queue[0])
  }

  ghost predicate WriterBooks(cfg: Config, l: Ledger)
    requires cfg.Valid()
  {
    && |l.backlog| <= |l.issued|
    && (forall i :: 0 <= i < |l.backlog| ==> l.backlog[i] == WriterRecord(l.issued[Started(l) + i]))
    && (l.handle != Writer.InitWriteHandle ==>
          && Started(l) >= 1
          && l.rec.(offset := 0) == WriterRecord(l.issued[Started(l) - 1])
          && l.rec.offset <= l.rec.bytes
          && Aligned(cfg, l.rec.bytes, l.rec.offset))
  }

  /** The chunks the reader still expects, by its own records alone. */
  ghost function Expected(cfg: Config, l: Ledger): seq<Chunk>
    requires cfg.Valid() && ReaderBooks(cfg, l)
  {
    if FrontDone(l) then Chunks(cfg, l.issued, Popped(l) + 1, 0)
    else if l.queue == [] then []
    else Chunks(cfg, l.issued, Popped(l), l.queue[0].offset)
  }

  /** The chunks the writer still has to post, by its own records alone. */
  ghost function ToPost(cfg: Config, l: Ledger): seq<Chunk>
    requires cfg.Valid() && WriterBooks(cfg, l)
  {
    if l.handle == Writer.InitWriteHandle then Chunks(cfg, l.issued, Started(l), 0)
    else Chunks(cfg, l.issued, Started(l) - 1, l.rec.offset)
  }

  /** Chunk accounting: what the reader expects is in a buffer, still to be posted,
      or will never come because its read was not servable. */
  ghost predicate Balanced(cfg: Config, l: Ledger)
    requires cfg.Valid() && ReaderBooks(cfg, l) && WriterBooks(cfg, l)
  {
    |Expected(cfg, l)| == |l.claims| + |Served(cfg, ToPost(cfg, l))| + Bad(cfg, l.issued)
  }

  ghost predicate Sound(cfg: Config, l: Ledger) {
    && cfg.Valid()
    && (forall i :: 0 <= i < |l.issued| ==> l.issued[i].bytes < U64)
    && ReaderBooks(cfg, l)
    && WriterBooks(cfg, l)
    && Balanced(cfg, l)
  }

  // ---------------------------------------------------------------- what steps do to it

  function Issue(l: Ledger, x: Read): Ledger {
    l.(issued := l.issued + [x], queue := l.queue + [ReaderRecord(x)], backlog := l.backlog + [WriterRecord(x)])
  }

  function Take(l: Ledger): Ledger
    requires l.backlog != []
  {
    l.(backlog := l.backlog[1..], rec := l.backlog[0], handle := Writer.RequestBuffer)
  }

  function Post(cfg: Config, l: Ledger, buf: int): Ledger
    requires cfg.Valid() && l.rec.offset <= l.rec.bytes
  {
    var t := Writer.NextLen(cfg, l.rec);
    l.(rec := l.rec.(offset := l.rec.offset + t),
       handle := if l.rec.offset + t < l.rec.bytes then Writer.RequestBuffer else Writer.InitWriteHandle,
       claims := l.claims + if cfg.SgeCount(t) >= 1 then [buf] else [])
  }

  function Note(cfg: Config, l: Ledger): Ledger
    requires cfg.Valid() && l.phase.Gathered? && l.queue != [] && l.claims != []
    requires l.queue[0].offset <= l.queue[0].bytes
  {
    var next := l.queue[0].offset + Reader.NextLen(cfg, l.queue[0]);
    l.(queue := l.queue[0 := l.queue[0].(offset := next)],
       phase := Reader.Noted(l.phase.buf, !(next < l.queue[0].bytes)),
       claims := l.claims[1..])
  }

  function Pop(l: Ledger): Ledger
    requires FrontDone(l) && l.queue != []
  {
    l.(queue := l.queue[1..], phase := Reader.Sending(l.phase.buf, true))
  }

  // ---------------------------------------------------------------- and that it stays sound

  lemma IssueReaderBooks(cfg: Config, l: Ledger, x: Read)
    requires cfg.Valid() && ReaderBooks(cfg, l)
    ensures ReaderBooks(cfg, Issue(l, x)) && Popped(Issue(l, x)) == Popped(l)
    ensures l.queue != [] ==> Issue(l, x).queue[0] == l.queue[0]
  {
    if l.queue != [] {
      assert Issue(l, x).queue[0] == l.queue[0];
    }
  }

  lemma IssueExpected(cfg: Config, l: Ledger, x: Read)
    requires cfg.Valid() && ReaderBooks(cfg, l)
    ensures ReaderBooks(cfg, Issue(l, x))
    ensures Expected(cfg, Issue(l, x)) == Expected(cfg, l) + Chunks(cfg, l.issued + [x], |l.issued|, 0)
  {
    IssueReaderBooks(cfg, l, x);
    if FrontDone(l) {
      ChunksAppend(cfg, l.issued, x, Popped(l) + 1, 0);
    } else if l.queue == [] {
      assert Popped(l) == |l.issued|;
    } else {
      ChunksAppend(cfg, l.issued, x, Popped(l), l.queue[0].offset);
    }
  }

  lemma IssueToPost(cfg: Config, l: Ledger, x: Read)
    requires cfg.Valid() && WriterBooks(cfg, l)
    ensures WriterBooks(cfg, Issue(l, x))
    ensures ToPost(cfg, Issue(l, x)) == ToPost(cfg, l) + Chunks(cfg, l.issued + [x], |l.issued|, 0)
  {
    IssueWriterBooks(cfg, l, x);
    if l.handle == Writer.InitWriteHandle {
      ChunksAppend(cfg, l.issued, x, Started(l), 0);
    } else {
      ChunksAppend(cfg, l.issued, x, Started(l) - 1, l.rec.offset);
    }
  }

  lemma IssueWriterBooks(cfg: Config, l: Ledger, x: Read)
    requires cfg.Valid() && WriterBooks(cfg, l)
    ensures WriterBooks(cfg, Issue(l, x)) && Started(Issue(l, x)) == Started(l)
  {
  }

  lemma IssueBad(cfg: Config, issued: seq<Read>, x: Read)
    requires cfg.Valid()
    ensures Bad(cfg, issued + [x]) == Bad(cfg, issued) + if cfg.Servable(x.bytes) then 0 else 1
  {
    assert (issued + [x])[..|issued|] == issued;
  }

  lemma IssueSound(cfg: Config, l: Ledger, x: Read)
    requires Sound(cfg, l) && x.bytes < U64
    ensures Sound(cfg, Issue(l, x))
  {
    IssueExpected(cfg, l, x);
    IssueToPost(cfg, l, x);
    IssueBad(cfg, l.issued, x);
    var tail := Chunks(cfg, l.issued + [x], |l.issued|, 0);
    ServedAppend(cfg, ToPost(cfg, l), tail);
    ServedOfLastRead(cfg, l.issued + [x], 0);
  }

  lemma ReaderUnchanged(cfg: Config, l: Ledger, r: Ledger)
    requires cfg.Valid() && ReaderBooks(cfg, l)
    requires r.issued == l.issued && r.queue == l.queue && r.phase == l.phase
    ensures ReaderBooks(cfg, r) && Expected(cfg, r) == Expected(cfg, l)
  {
  }

  lemma WriterUnchanged(cfg: Config, l: Ledger, r: Ledger)
    requires cfg.Valid() && WriterBooks(cfg, l)
    requires r.issued == l.issued && r.backlog == l.backlog && r.handle == l.handle && r.rec == l.rec
    ensures WriterBooks(cfg, r) && ToPost(cfg, r) == ToPost(cfg, l)
  {
  }

  lemma SameStreams(cfg: Config, l: Ledger, r: Ledger)
    requires Sound(cfg, l) && r.issued == l.issued && r.claims == l.claims
    requires ReaderBooks(cfg, r) && Expected(cfg, r) == Expected(cfg, l)
    requires WriterBooks(cfg, r) && ToPost(cfg, r) == ToPost(cfg, l)
    ensures Sound(cfg, r)
  {
  }

  lemma TakeKeepsToPost(cfg: Config, l: Ledger)
    requires cfg.Valid() && WriterBooks(cfg, l)
    requires l.handle == Writer.InitWriteHandle && l.backlog != []
    ensures WriterBooks(cfg, Take(l)) && ToPost(cfg, Take(l)) == ToPost(cfg, l)
  {
    assert l.backlog[0] == WriterRecord(l.issued[Started(l)]);
    assert Started(Take(l)) == Started(l) + 1;
  }

  lemma TakeSound(cfg: Config, l: Ledger)
    requires Sound(cfg, l) && l.handle == Writer.InitWriteHandle && l.backlog != []
    ensures Sound(cfg, Take(l))
  {
    TakeKeepsToPost(cfg, l);
    ReaderUnchanged(cfg, l, Take(l));
    SameStreams(cfg, l, Take(l));
  }

  /** The writer posts the first chunk of its stream and keeps the rest. */
  lemma PostsFirst(cfg: Config, l: Ledger, buf: int)
    requires cfg.Valid() && WriterBooks(cfg, l) && l.handle == Writer.DoCurWrite
    ensures WriterBooks(cfg, Post(cfg, l, buf))
    ensures ToPost(cfg, l) ==
            [Chunk(Started(l) - 1, l.rec.offset, Writer.NextLen(cfg, l.rec))] + ToPost(cfg, Post(cfg, l, buf))
  {
    var t := Writer.NextLen(cfg, l.rec);
    assert l.issued[Started(l) - 1].bytes == l.rec.bytes;
    if l.rec.offset + t < l.rec.bytes {
      NextAligned(cfg, l.rec.bytes, l.rec.offset);
    }
  }

  lemma PostSound(cfg: Config, l: Ledger, buf: int)
    requires Sound(cfg, l) && l.handle == Writer.DoCurWrite
    ensures Sound(cfg, Post(cfg, l, buf))
  {
    PostsFirst(cfg, l, buf);
    ReaderUnchanged(cfg, l, Post(cfg, l, buf));
    PostedIsClaimed(cfg, l, Post(cfg, l, buf), Chunk(Started(l) - 1, l.rec.offset, Writer.NextLen(cfg, l.rec)), buf);
  }

  /** The first chunk of the writer's stream becomes a claimed buffer, or is lost. */
  lemma PostedIsClaimed(cfg: Config, l: Ledger, r: Ledger, c: Chunk, buf: int)
    requires Sound(cfg, l) && r.issued == l.issued
    requires r.claims == l.claims + if cfg.SgeCount(c.len) >= 1 then [buf] else []
    requires ReaderBooks(cfg, r) && Expected(cfg, r) == Expected(cfg, l)
    requires WriterBooks(cfg, r) && ToPost(cfg, l) == [c] + ToPost(cfg, r) && ChunkOk(cfg, l.issued, c)
    ensures Sound(cfg, r)
  {
    ServedAppend(cfg, [c], ToPost(cfg, r));
    ServedOne(cfg, c);
  }

  /** Storing the offset consumes the reader's first expected chunk. */
  lemma NoteConsumes(cfg: Config, l: Ledger)
    requires cfg.Valid() && ReaderBooks(cfg, l) && l.phase.Gathered? && l.claims != []
    ensures ReaderBooks(cfg, Note(cfg, l))
    ensures Expected(cfg, l) ==
            [Chunk(Popped(l), l.queue[0].offset, Reader.NextLen(cfg, l.queue[0]))] + Expected(cfg, Note(cfg, l))
  {
    var rec := l.queue[0];
    var t := Reader.NextLen(cfg, rec);
    assert l.issued[Popped(l)].bytes == rec.bytes;
    if rec.offset + t < rec.bytes {
      NextAligned(cfg, rec.bytes, rec.offset);
    }
  }

  lemma NoteSound(cfg: Config, l: Ledger)
    requires Sound(cfg, l) && l.phase.Gathered? && l.claims != []
    ensures Sound(cfg, Note(cfg, l))
  {
    NoteConsumes(cfg, l);
    WriterUnchanged(cfg, l, Note(cfg, l));
    DropFront(cfg, l, Note(cfg, l));
  }

  lemma DropFront(cfg: Config, l: Ledger, r: Ledger)
    requires Sound(cfg, l) && r.issued == l.issued && l.claims != [] && r.claims == l.claims[1..]
    requires ReaderBooks(cfg, r) && |Expected(cfg, l)| >= 1 && Expected(cfg, r) == Expected(cfg, l)[1..]
    requires WriterBooks(cfg, r) && ToPost(cfg, r) == ToPost(cfg, l)
    ensures Sound(cfg, r)
  {
  }

  lemma PopKeepsExpected(cfg: Config, l: Ledger)
    requires cfg.Valid() && ReaderBooks(cfg, l) && FrontDone(l)
    ensures ReaderBooks(cfg, Pop(l)) && Expected(cfg, Pop(l)) == Expected(cfg, l)
  {
    var r := Pop(l);
    assert Popped(r) == Popped(l) + 1;
    if r.queue != [] {
      assert r.queue[0] == l.queue[1] == ReaderRecord(l.issued[Popped(l) + 1]);
    } else {
      assert Chunks(cfg, l.issued, |l.issued|, 0) == [];
    }
  }

  lemma PopSound(cfg: Config, l: Ledger)
    requires Sound(cfg, l) && FrontDone(l)
    ensures Sound(cfg, Pop(l))
  {
    PopKeepsExpected(cfg, l);
    WriterUnchanged(cfg, l, Pop(l));
    SameStreams(cfg, l, Pop(l));
  }

  lemma PhaseKeepsExpected(cfg: Config, l: Ledger, phase: Reader.Phase)
    requires cfg.Valid() && ReaderBooks(cfg, l) && !FrontDone(l) && !phase.Noted?
    requires phase.Got? || phase.Gathered? ==> l.queue != [] && phase.rec == l.queue[0]
    ensures ReaderBooks(cfg, l.(phase := phase)) && Expected(cfg, l.(phase := phase)) == Expected(cfg, l)
  {
  }

  /** Changes of phase that leave the front record where it is. */
  lemma PhaseSound(cfg: Config, l: Ledger, phase: Reader.Phase)
    requires Sound(cfg, l) && !FrontDone(l) && !phase.Noted?
    requires phase.Got? || phase.Gathered? ==> l.queue != [] && phase.rec == l.queue[0]
    ensures Sound(cfg, l.(phase := phase))
  {
    PhaseKeepsExpected(cfg, l, phase);
    WriterUnchanged(cfg, l, l.(phase := phase));
    SameStreams(cfg, l, l.(phase := phase));
  }

  lemma HandleKeepsToPost(cfg: Config, l: Ledger)
    requires cfg.Valid() && WriterBooks(cfg, l) && l.handle == Writer.RequestBuffer
    ensures var r := l.(handle := Writer.DoCurWrite);
            WriterBooks(cfg, r) && ToPost(cfg, r) == ToPost(cfg, l)
  {
  }

  lemma HandleSound(cfg: Config, l: Ledger)
    requires Sound(cfg, l) && l.handle == Writer.RequestBuffer
    ensures Sound(cfg, l.(handle := Writer.DoCurWrite))
  {
    HandleKeepsToPost(cfg, l);
    ReaderUnchanged(cfg, l, l.(handle := Writer.DoCurWrite));
    SameStreams(cfg, l, l.(handle := Writer.DoCurWrite));
  }

  lemma ExpectedOk(cfg: Config, l: Ledger)
    requires cfg.Valid() && ReaderBooks(cfg, l)
    ensures forall i :: 0 <= i < |Expected(cfg, l)| ==>
              ChunkOk(cfg, l.issued, Expected(cfg, l)[i]) && Expected(cfg, l)[i].read >= Popped(l)
  {
    if FrontDone(l) {
      ChunksOk(cfg, l.issued, Popped(l) + 1, 0);
    } else if l.queue != [] {
      ChunksOk(cfg, l.issued, Popped(l), l.queue[0].offset);
    }
  }

  // ---------------------------------------------------------------- where the streams stand

  /** The read and offset at which each machine stands. */
  function ReaderAt(l: Ledger): (int, nat) {
    if FrontDone(l) then (Popped(l) + 1, 0)
    else (Popped(l), if l.queue == [] then 0 else l.queue[0].offset)
  }

  function WriterAt(l: Ledger): (int, nat) {
    if l.handle == Writer.InitWriteHandle then (Started(l), 0) else (Started(l) - 1, l.rec.offset)
  }

  lemma ReaderStart(cfg: Config, l: Ledger)
    requires cfg.Valid() && ReaderBooks(cfg, l)
    ensures var (q, pos) := ReaderAt(l);
            q >= 0 && IsStart(cfg, l.issued, q, pos) && Expected(cfg, l) == Chunks(cfg, l.issued, q, pos)
  {
    Small(0, cfg.bufferBytes);
  }

  lemma WriterStart(cfg: Config, l: Ledger)
    requires cfg.Valid() && WriterBooks(cfg, l)
    ensures var (r, off) := WriterAt(l);
            r >= 0 && IsStart(cfg, l.issued, r, off) && ToPost(cfg, l) == Chunks(cfg, l.issued, r, off)
  {
    Small(0, cfg.bufferBytes);
  }

  lemma ExpectedIsTail(cfg: Config, l: Ledger)
    requires cfg.Valid() && ReaderBooks(cfg, l)
    ensures IsTail(Expected(cfg, l), All(cfg, l.issued))
  {
    ReaderStart(cfg, l);
    StartIsTail(cfg, l.issued, ReaderAt(l).0, ReaderAt(l).1);
  }

  lemma ToPostIsTail(cfg: Config, l: Ledger)
    requires cfg.Valid() && WriterBooks(cfg, l)
    ensures IsTail(ToPost(cfg, l), All(cfg, l.issued))
  {
    WriterStart(cfg, l);
    StartIsTail(cfg, l.issued, WriterAt(l).0, WriterAt(l).1);
  }

  /** Chunks the reader has copied out, and chunks the writer has dealt with. */
  ghost function Consumed(cfg: Config, l: Ledger): int
    requires cfg.Valid() && ReaderBooks(cfg, l)
  {
    |All(cfg, l.issued)| - |Expected(cfg, l)|
  }

  ghost function Dealt(cfg: Config, l: Ledger): int
    requires cfg.Valid() && WriterBooks(cfg, l)
  {
    |All(cfg, l.issued)| - |ToPost(cfg, l)|
  }

  /** The served chunks beyond the first `Consumed` ones: those that will arrive. */
  ghost function Incoming(cfg: Config, l: Ledger): seq<Chunk>
    requires cfg.Valid() && ReaderBooks(cfg, l)
  {
    var g := Served(cfg, All(cfg, l.issued));
    if 0 <= Consumed(cfg, l) <= |g| then g[Consumed(cfg, l)..] else []
  }

  /** Stream agreement, whatever was asked for: the chunks the reader expects are the
      whole stream without the first `Consumed` ones; the served chunks without the first
      `Consumed` ones are those in the claimed buffers and those the writer still has to
      serve; and the writer is ahead of the reader. */
  lemma StreamsStand(cfg: Config, l: Ledger)
    requires Sound(cfg, l)
    ensures 0 <= Consumed(cfg, l) <= Dealt(cfg, l) <= |All(cfg, l.issued)|
    ensures Expected(cfg, l) == All(cfg, l.issued)[Consumed(cfg, l)..]
    ensures ToPost(cfg, l) == All(cfg, l.issued)[Dealt(cfg, l)..]
    ensures Consumed(cfg, l) + |l.claims| <= |Served(cfg, All(cfg, l.issued))|
    ensures Incoming(cfg, l) == Served(cfg, All(cfg, l.issued))[Consumed(cfg, l)..]
    ensures |l.claims| <= |Incoming(cfg, l)| && Incoming(cfg, l)[|l.claims|..] == Served(cfg, ToPost(cfg, l))
  {
    ServedCount(cfg, l.issued);
    ExpectedIsTail(cfg, l);
    ToPostIsTail(cfg, l);
    TailServed(cfg, ToPost(cfg, l), All(cfg, l.issued));
    ServedAtMost(cfg, ToPost(cfg, l));
  }

  /** The writer is never on a read before the one the reader reads next, so it never
      touches the source of a read that has been popped. */
  lemma WriterIsNotBehind(cfg: Config, l: Ledger)
    requires Sound(cfg, l)
    ensures ReaderAt(l).0 <= WriterAt(l).0
  {
    StreamsStand(cfg, l);
    ReaderStart(cfg, l);
    WriterStart(cfg, l);
    if WriterAt(l).0 < ReaderAt(l).0 {
      LaterIsTail(cfg, l.issued, WriterAt(l).0, WriterAt(l).1, ReaderAt(l).0, ReaderAt(l).1);
    }
  }

  lemma WriterOwes(cfg: Config, l: Ledger)
    requires cfg.Valid() && WriterBooks(cfg, l) && l.handle != Writer.InitWriteHandle
    ensures |ToPost(cfg, l)| >= 1
    ensures ToPost(cfg, l)[0] == Chunk(Started(l) - 1, l.rec.offset, Writer.NextLen(cfg, l.rec))
  {
  }

  /** The chunk the writer posts next, if it gets an entry, is the first one that will
      arrive after those in the claimed buffers. */
  lemma NextArrives(cfg: Config, l: Ledger)
    requires Sound(cfg, l) && l.handle != Writer.InitWriteHandle
    requires cfg.SgeCount(Writer.NextLen(cfg, l.rec)) >= 1
    ensures |l.claims| < |Incoming(cfg, l)|
    ensures Incoming(cfg, l)[|l.claims|] == Chunk(Started(l) - 1, l.rec.offset, Writer.NextLen(cfg, l.rec))
  {
    StreamsStand(cfg, l);
    WriterOwes(cfg, l);
    assert Incoming(cfg, l)[|l.claims|] == Incoming(cfg, l)[|l.claims|..][0];
  }

  lemma IssueIncoming(cfg: Config, l: Ledger, x: Read)
    requires Sound(cfg, l)
    ensures ReaderBooks(cfg, Issue(l, x))
    ensures Consumed(cfg, Issue(l, x)) == Consumed(cfg, l)
    ensures Incoming(cfg, Issue(l, x))
         == Incoming(cfg, l) + Served(cfg, Chunks(cfg, l.issued + [x], |l.issued|, 0))
  {
    IssueExpected(cfg, l, x);
    ChunksAppend(cfg, l.issued, x, 0, 0);
    var tail := Chunks(cfg, l.issued + [x], |l.issued|, 0);
    ServedAppend(cfg, All(cfg, l.issued), tail);
    StreamsStand(cfg, l);
    DropAppend(Served(cfg, All(cfg, l.issued)), Served(cfg, tail), Consumed(cfg, l));
  }

  lemma DropAppend(g: seq<Chunk>, tail: seq<Chunk>, n: nat)
    requires n <= |g|
    ensures (g + tail)[n..] == g[n..] + tail
  {
  }

  lemma NoteIncoming(cfg: Config, l: Ledger)
    requires Sound(cfg, l) && l.phase.Gathered? && l.claims != []
    ensures ReaderBooks(cfg, Note(cfg, l)) && Consumed(cfg, Note(cfg, l)) == Consumed(cfg, l) + 1
    ensures |Incoming(cfg, l)| >= 1 && Incoming(cfg, Note(cfg, l)) == Incoming(cfg, l)[1..]
  {
    NoteConsumes(cfg, l);
    StreamsStand(cfg, l);
  }

  /** The chunk the reader copies out next is the one its buffer carries if and only if
      no read up to the front one is without entries; otherwise the buffer carries a later
      one. */
  lemma FrontMatchesIffServable(cfg: Config, l: Ledger)
    requires Sound(cfg, l) && l.queue != [] && !FrontDone(l) && Incoming(cfg, l) != []
    ensures |Expected(cfg, l)| >= 1
    ensures var front, come := Expected(cfg, l)[0], Incoming(cfg, l)[0];
            && front == Chunk(Popped(l), l.queue[0].offset, Reader.NextLen(cfg, l.queue[0]))
            && (front == come <==> AllServable(cfg, l.issued[..Popped(l) + 1]))
            && (front != come ==> Before(front, come))
  {
    StreamsStand(cfg, l);
    FrontExpected(cfg, l);
    FirstOfDrop(All(cfg, l.issued), Consumed(cfg, l));
    FirstOfDrop(Served(cfg, All(cfg, l.issued)), Consumed(cfg, l));
    MatchesIffServable(cfg, l.issued, Consumed(cfg, l));
  }

  lemma FrontExpected(cfg: Config, l: Ledger)
    requires cfg.Valid() && ReaderBooks(cfg, l) && l.queue != [] && !FrontDone(l)
    ensures |Expected(cfg, l)| >= 1
    ensures Expected(cfg, l)[0] == Chunk(Popped(l), l.queue[0].offset, Reader.NextLen(cfg, l.queue[0]))
  {
    assert l.issued[Popped(l)].bytes == l.queue[0].bytes;
  }

  lemma FirstOfDrop(cs: seq<Chunk>, n: nat)
    requires n <= |cs|
    ensures n < |cs| <==> cs[n..] != []
    ensures n < |cs| ==> cs[n..][0] == cs[n]
  {
  }
}
