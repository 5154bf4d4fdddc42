/** Reader and writer, each from its own record and the configuration, compute the same
    pieces in the same order. */
module Lockstep {
  import opened Config
  import opened System
  import opened Stream
  import opened Ledger
  import opened Books
  import opened Invariant
  import opened Ownership
  import opened Theorems
  import Writer
  import Reader

  /** One chunk as a machine computes it: read, offset, length, entries, and whether it
      is the last one of its read. */
  datatype Piece = Piece(read: int, offset: nat, len: nat, entries: int, last: bool)

  /** What a step posts: the writer leaves the record on its last piece. */
  ghost function PostedBy(cfg: Config, s: State, l: Label): seq<Piece> {
    if l.WriterStep? && Writer.WellFormed(cfg, s.src, s.ws) && s.ws.handle == Writer.DoCurWrite
       && !Writer.Throws(cfg, s.ws) then
      var t := Writer.NextLen(cfg, s.ws.rec);
      [Piece(Started(View(s)) - 1, s.ws.rec.offset, t, cfg.SgeCount(t),
             Writer.StepWrite(cfg, s.src, s.ws).0.handle == Writer.InitWriteHandle)]
    else []
  }

  /** What a step notes: `is_last` as SyncRead decides it. */
  ghost function NotedBy(cfg: Config, s: State, l: Label): seq<Piece> {
    if l.NoteStep? && Reader.WellFormed(cfg, s.rs) && s.rs.phase.Gathered? then
      var t := Reader.NextLen(cfg, s.rs.phase.rec);
      [Piece(CalledBack(s), s.rs.phase.rec.offset, t, cfg.SgeCount(t), Reader.StepNote(cfg, s.rs).phase.last)]
    else []
  }

  ghost function Posted(cfg: Config, states: seq<State>, labels: seq<Label>, i: nat): seq<Piece>
    requires i <= |labels| < |states|
  {
    if i == 0 then [] else Posted(cfg, states, labels, i - 1) + PostedBy(cfg, states[i - 1], labels[i - 1])
  }

  ghost function Noted(cfg: Config, states: seq<State>, labels: seq<Label>, i: nat): seq<Piece>
    requires i <= |labels| < |states|
  {
    if i == 0 then [] else Noted(cfg, states, labels, i - 1) + NotedBy(cfg, states[i - 1], labels[i - 1])
  }

  // ---------------------------------------------------------------- pieces of the stream

  function PieceOf(cfg: Config, issued: seq<Read>, c: Chunk): Piece
    requires cfg.Valid()
  {
    Piece(c.read, c.offset, c.len, cfg.SgeCount(c.len),
          !(0 <= c.read < |issued| && c.offset + c.len < issued[c.read].bytes))
  }

  function Pieces(cfg: Config, issued: seq<Read>, cs: seq<Chunk>): (r: seq<Piece>)
    requires cfg.Valid()
    ensures |r| == |cs| && forall i :: 0 <= i < |r| ==> r[i] == PieceOf(cfg, issued, cs[i])
  {
    seq(|cs|, i requires 0 <= i < |cs| => PieceOf(cfg, issued, cs[i]))
  }

  /** The first `n` pieces of all reads. */
  ghost function FirstPieces(cfg: Config, issued: seq<Read>, n: int): seq<Piece>
    requires cfg.Valid()
  {
    if 0 <= n <= |All(cfg, issued)| then Pieces(cfg, issued, All(cfg, issued)[..n]) else []
  }

  lemma FirstGrow(cfg: Config, issued: seq<Read>, x: Read, n: int)
    requires cfg.Valid() && 0 <= n <= |All(cfg, issued)|
    ensures FirstPieces(cfg, issued + [x], n) == FirstPieces(cfg, issued, n)
  {
    ChunksAppend(cfg, issued, x, 0, 0);
    Small(0, cfg.bufferBytes);
    ChunksOk(cfg, issued, 0, 0);
    var a, b := All(cfg, issued), All(cfg, issued + [x]);
    forall i | 0 <= i < n
      ensures PieceOf(cfg, issued + [x], b[i]) == PieceOf(cfg, issued, a[i])
    {
      assert b[i] == a[i] && ChunkOk(cfg, issued, a[i]);
    }
  }

  lemma FirstSnoc(cfg: Config, issued: seq<Read>, n: int)
    requires cfg.Valid() && 0 <= n < |All(cfg, issued)|
    ensures FirstPieces(cfg, issued, n + 1) == FirstPieces(cfg, issued, n) + [PieceOf(cfg, issued, All(cfg, issued)[n])]
  {
  }

  lemma FirstPrefix(cfg: Config, issued: seq<Read>, n: int, w: int)
    requires cfg.Valid() && 0 <= n <= w <= |All(cfg, issued)|
    ensures FirstPieces(cfg, issued, n) <= FirstPieces(cfg, issued, w)
  {
  }

  // ---------------------------------------------------------------- on the ledger

  ghost predicate PostedTo(cfg: Config, l: Ledger, posted: seq<Piece>) {
    cfg.Valid() && WriterBooks(cfg, l) && posted == FirstPieces(cfg, l.issued, Dealt(cfg, l))
  }

  ghost predicate NotedTo(cfg: Config, l: Ledger, noted: seq<Piece>) {
    cfg.Valid() && ReaderBooks(cfg, l) && noted == FirstPieces(cfg, l.issued, Consumed(cfg, l))
  }

  lemma IssuePostedTo(cfg: Config, l: Ledger, x: Read, posted: seq<Piece>)
    requires PostedTo(cfg, l, posted)
    ensures PostedTo(cfg, Issue(l, x), posted)
  {
    IssueToPost(cfg, l, x);
    ToPostIsTail(cfg, l);
    ChunksAppend(cfg, l.issued, x, 0, 0);
    FirstGrow(cfg, l.issued, x, Dealt(cfg, l));
  }

  lemma IssueNotedTo(cfg: Config, l: Ledger, x: Read, noted: seq<Piece>)
    requires NotedTo(cfg, l, noted)
    ensures NotedTo(cfg, Issue(l, x), noted)
  {
    IssueExpected(cfg, l, x);
    ExpectedIsTail(cfg, l);
    ChunksAppend(cfg, l.issued, x, 0, 0);
    FirstGrow(cfg, l.issued, x, Consumed(cfg, l));
  }

  lemma SamePostedTo(cfg: Config, l: Ledger, r: Ledger, posted: seq<Piece>)
    requires PostedTo(cfg, l, posted) && r.issued == l.issued
    requires WriterBooks(cfg, r) && ToPost(cfg, r) == ToPost(cfg, l)
    ensures PostedTo(cfg, r, posted)
  {
  }

  lemma SameNotedTo(cfg: Config, l: Ledger, r: Ledger, noted: seq<Piece>)
    requires NotedTo(cfg, l, noted) && r.issued == l.issued
    requires ReaderBooks(cfg, r) && Expected(cfg, r) == Expected(cfg, l)
    ensures NotedTo(cfg, r, noted)
  {
  }

  function WriterPiece(cfg: Config, l: Ledger): Piece
    requires cfg.Valid() && l.rec.offset <= l.rec.bytes
  {
    var t := Writer.NextLen(cfg, l.rec);
    Piece(Started(l) - 1, l.rec.offset, t, cfg.SgeCount(t), !(l.rec.offset + t < l.rec.bytes))
  }

  function ReaderPiece(cfg: Config, l: Ledger): Piece
    requires cfg.Valid() && l.queue != [] && l.queue[0].offset <= l.queue[0].bytes
  {
    var t := Reader.NextLen(cfg, l.queue[0]);
    Piece(Popped(l), l.queue[0].offset, t, cfg.SgeCount(t), !(l.queue[0].offset + t < l.queue[0].bytes))
  }

  /** A post deals with the next piece of the stream. */
  lemma PostPostedTo(cfg: Config, l: Ledger, buf: int, posted: seq<Piece>)
    requires PostedTo(cfg, l, posted) && l.handle == Writer.DoCurWrite
    ensures PostedTo(cfg, Post(cfg, l, buf), posted + [WriterPiece(cfg, l)])
  {
    PostsFirst(cfg, l, buf);
    ToPostIsTail(cfg, l);
    FirstOfDrop(All(cfg, l.issued), Dealt(cfg, l));
    FirstSnoc(cfg, l.issued, Dealt(cfg, l));
    assert l.issued[Started(l) - 1].bytes == l.rec.bytes;
  }

  /** A stored offset consumes the next piece of the stream. */
  lemma NoteNotedTo(cfg: Config, l: Ledger, noted: seq<Piece>)
    requires NotedTo(cfg, l, noted) && l.phase.Gathered? && l.claims != []
    ensures NotedTo(cfg, Note(cfg, l), noted + [ReaderPiece(cfg, l)])
  {
    NoteConsumes(cfg, l);
    ExpectedIsTail(cfg, l);
    FirstOfDrop(All(cfg, l.issued), Consumed(cfg, l));
    FirstSnoc(cfg, l.issued, Consumed(cfg, l));
    assert l.issued[Popped(l)].bytes == l.queue[0].bytes;
  }

  // ---------------------------------------------------------------- one step

  lemma PostedByIs(cfg: Config, s: State)
    requires Writer.WellFormed(cfg, s.src, s.ws) && s.ws.handle == Writer.DoCurWrite && !Writer.Throws(cfg, s.ws)
    ensures PostedBy(cfg, s, WriterStep) == [WriterPiece(cfg, View(s))]
  {
  }

  lemma NotedByIs(cfg: Config, s: State)
    requires Reader.WellFormed(cfg, s.rs) && s.rs.phase.Gathered?
    ensures NotedBy(cfg, s, NoteStep) == [ReaderPiece(cfg, View(s))]
  {
  }

  lemma WriteUpTo(cfg: Config, s: State, posted: seq<Piece>)
    requires Sane(cfg, s) && PostedTo(cfg, View(s), posted) && s.ws.handle == Writer.DoCurWrite
    requires !Writer.Throws(cfg, s.ws)
    ensures PostedTo(cfg, View(DoWriterStep(cfg, s)), posted + PostedBy(cfg, s, WriterStep))
    ensures SameReading(View(s), View(DoWriterStep(cfg, s)))
  {
    PostedByIs(cfg, s);
    StepWriteView(cfg, s);
    SameView(s.(ws := Writer.StepWrite(cfg, s.src, s.ws).0), DoWriterStep(cfg, s));
    PostPostedTo(cfg, View(s), s.ws.buf, posted);
  }

  predicate SameReading(l: Ledger, r: Ledger) {
    r.issued == l.issued && r.queue == l.queue && r.phase == l.phase
  }

  predicate SameWriting(l: Ledger, r: Ledger) {
    r.issued == l.issued && r.backlog == l.backlog && r.handle == l.handle && r.rec == l.rec
  }

  lemma ReadingUpTo(cfg: Config, l: Ledger, r: Ledger, noted: seq<Piece>)
    requires NotedTo(cfg, l, noted) && SameReading(l, r)
    ensures NotedTo(cfg, r, noted)
  {
    ReaderUnchanged(cfg, l, r);
    SameNotedTo(cfg, l, r, noted);
  }

  lemma WritingUpTo(cfg: Config, l: Ledger, r: Ledger, posted: seq<Piece>)
    requires PostedTo(cfg, l, posted) && SameWriting(l, r)
    ensures PostedTo(cfg, r, posted)
  {
    WriterUnchanged(cfg, l, r);
    SamePostedTo(cfg, l, r, posted);
  }

  lemma InitUpTo(cfg: Config, s: State, posted: seq<Piece>)
    requires Sane(cfg, s) && PostedTo(cfg, View(s), posted) && s.ws.handle == Writer.InitWriteHandle
    ensures PostedTo(cfg, View(DoWriterStep(cfg, s)), posted) && SameReading(View(s), View(DoWriterStep(cfg, s)))
  {
    StepInitView(s);
    SameView(s.(ws := Writer.StepInit(s.ws).0), DoWriterStep(cfg, s));
    if Writer.Fifo(s.ws) != [] {
      TakeKeepsToPost(cfg, View(s));
      SamePostedTo(cfg, View(s), Take(View(s)), posted);
    }
  }

  lemma RequestUpTo(cfg: Config, s: State, posted: seq<Piece>)
    requires Sane(cfg, s) && PostedTo(cfg, View(s), posted) && s.ws.handle == Writer.RequestBuffer
    ensures PostedTo(cfg, View(DoWriterStep(cfg, s)), posted) && SameReading(View(s), View(DoWriterStep(cfg, s)))
  {
    StepRequestView(s);
    SameView(s.(ws := Writer.StepRequest(s.ws).0), DoWriterStep(cfg, s));
    HandleKeepsToPost(cfg, View(s));
    SamePostedTo(cfg, View(s), View(s).(handle := Writer.DoCurWrite), posted);
  }

  lemma WriterUpTo(cfg: Config, s: State, posted: seq<Piece>, noted: seq<Piece>)
    requires Sane(cfg, s) && PostedTo(cfg, View(s), posted) && NotedTo(cfg, View(s), noted) && !Writer.Throws(cfg, s.ws)
    ensures PostedTo(cfg, View(DoWriterStep(cfg, s)), posted + PostedBy(cfg, s, WriterStep))
    ensures NotedTo(cfg, View(DoWriterStep(cfg, s)), noted)
  {
    assert posted + [] == posted;
    match s.ws.handle {
      case InitWriteHandle => InitUpTo(cfg, s, posted);
      case RequestBuffer => RequestUpTo(cfg, s, posted);
      case DoCurWrite => WriteUpTo(cfg, s, posted);
    }
    ReadingUpTo(cfg, View(s), View(DoWriterStep(cfg, s)), noted);
  }

  lemma NoteUpTo(cfg: Config, s: State, posted: seq<Piece>, noted: seq<Piece>)
    requires Sane(cfg, s) && PostedTo(cfg, View(s), posted) && NotedTo(cfg, View(s), noted) && s.rs.phase.Gathered?
    ensures PostedTo(cfg, View(Next(cfg, s, NoteStep)), posted)
    ensures NotedTo(cfg, View(Next(cfg, s, NoteStep)), noted + NotedBy(cfg, s, NoteStep))
  {
    NotedByIs(cfg, s);
    NoteView(cfg, s);
    NoteNotedTo(cfg, View(s), noted);
    WritingUpTo(cfg, View(s), Note(cfg, View(s)), posted);
  }

  lemma IssueUpTo(cfg: Config, s: State, l: Label, posted: seq<Piece>, noted: seq<Piece>)
    requires Sane(cfg, s) && PostedTo(cfg, View(s), posted) && NotedTo(cfg, View(s), noted)
    requires Enabled(cfg, s, l) && l.DoRead?
    ensures PostedTo(cfg, View(Next(cfg, s, l)), posted) && NotedTo(cfg, View(Next(cfg, s, l)), noted)
  {
    DoReadView(cfg, s, l.srcAddr, l.dstAddr, l.bytes, l.cb);
    var x := Next(cfg, s, l).issued[|s.issued|];
    IssuePostedTo(cfg, View(s), x, posted);
    IssueNotedTo(cfg, View(s), x, noted);
  }

  /** The reader's own steps other than NoteStep. */
  lemma ReaderUpTo(cfg: Config, s: State, l: Label, posted: seq<Piece>, noted: seq<Piece>)
    requires Sane(cfg, s) && PostedTo(cfg, View(s), posted) && NotedTo(cfg, View(s), noted) && Enabled(cfg, s, l)
    requires l.Poll? || l.GatherStep? || l.PopStep? || l.FreeStep?
    ensures PostedTo(cfg, View(Next(cfg, s, l)), posted) && NotedTo(cfg, View(Next(cfg, s, l)), noted)
  {
    match l {
      case Poll => PollUpTo(cfg, s, posted, noted);
      case GatherStep =>
        GatherView(cfg, s);
        PhaseUpTo(cfg, View(s), Reader.Gathered(s.rs.phase.buf, s.rs.phase.rec), posted, noted);
      case PopStep =>
        PopView(cfg, s);
        PopUpTo(cfg, View(s), posted, noted);
      case FreeStep =>
        FreeView(s);
        PhaseUpTo(cfg, View(s), Reader.Idle, posted, noted);
    }
  }

  lemma PollUpTo(cfg: Config, s: State, posted: seq<Piece>, noted: seq<Piece>)
    requires Sane(cfg, s) && PostedTo(cfg, View(s), posted) && NotedTo(cfg, View(s), noted) && Enabled(cfg, s, Poll)
    ensures PostedTo(cfg, View(DoPoll(cfg, s)), posted) && NotedTo(cfg, View(DoPoll(cfg, s)), noted)
  {
    PollView(cfg, s);
    if s.cq[0] != INT_MAX {
      PhaseUpTo(cfg, View(s), Reader.Got(s.cq[0], s.rs.queue[0]), posted, noted);
    }
  }

  lemma PhaseUpTo(cfg: Config, l: Ledger, phase: Reader.Phase, posted: seq<Piece>, noted: seq<Piece>)
    requires PostedTo(cfg, l, posted) && NotedTo(cfg, l, noted) && !FrontDone(l) && !phase.Noted?
    requires phase.Got? || phase.Gathered? ==> l.queue != [] && phase.rec == l.queue[0]
    ensures PostedTo(cfg, l.(phase := phase), posted) && NotedTo(cfg, l.(phase := phase), noted)
  {
    PhaseKeepsExpected(cfg, l, phase);
    SameNotedTo(cfg, l, l.(phase := phase), noted);
    WritingUpTo(cfg, l, l.(phase := phase), posted);
  }

  lemma PopUpTo(cfg: Config, l: Ledger, posted: seq<Piece>, noted: seq<Piece>)
    requires PostedTo(cfg, l, posted) && NotedTo(cfg, l, noted) && FrontDone(l)
    ensures PostedTo(cfg, Pop(l), posted) && NotedTo(cfg, Pop(l), noted)
  {
    PopKeepsExpected(cfg, l);
    SameNotedTo(cfg, l, Pop(l), noted);
    WritingUpTo(cfg, l, Pop(l), posted);
  }

  lemma QuietUpTo(cfg: Config, s: State, l: Label, posted: seq<Piece>, noted: seq<Piece>)
    requires Sane(cfg, s) && PostedTo(cfg, View(s), posted) && NotedTo(cfg, View(s), noted)
    requires Enabled(cfg, s, l) && InOrder(s, l)
    requires (ByApplication(l) && !l.DoRead?) || l.CallReadDone? || l.Throw? || l.WriterRecv? || l.Land?
             || l.LandStray?
    ensures PostedTo(cfg, View(Next(cfg, s, l)), posted) && NotedTo(cfg, View(Next(cfg, s, l)), noted)
  {
    match l {
      case WriterRecv => WriterRecvView(s);
      case Land => LandView(cfg, s);
      case LandStray => StrayView(cfg, s);
      case _ => QuietView(cfg, s, l);
    }
  }

  ghost predicate Moved(cfg: Config, s: State, l: Label, r: State, posted: seq<Piece>, noted: seq<Piece>) {
    && PostedTo(cfg, View(r), posted + PostedBy(cfg, s, l))
    && NotedTo(cfg, View(r), noted + NotedBy(cfg, s, l))
  }

  lemma StepMoves(cfg: Config, s: State, l: Label, posted: seq<Piece>, noted: seq<Piece>)
    requires Sane(cfg, s) && PostedTo(cfg, View(s), posted) && NotedTo(cfg, View(s), noted)
    requires Enabled(cfg, s, l) && InOrder(s, l) && (l.WriterStep? || l.NoteStep?)
    ensures Moved(cfg, s, l, Next(cfg, s, l), posted, noted)
  {
    assert posted + [] == posted && noted + [] == noted;
    if l.WriterStep? {
      WriterUpTo(cfg, s, posted, noted);
    } else {
      NoteUpTo(cfg, s, posted, noted);
    }
  }

  lemma StepStays(cfg: Config, s: State, l: Label, posted: seq<Piece>, noted: seq<Piece>)
    requires Sane(cfg, s) && PostedTo(cfg, View(s), posted) && NotedTo(cfg, View(s), noted)
    requires Enabled(cfg, s, l) && InOrder(s, l) && !l.WriterStep? && !l.NoteStep?
    ensures PostedTo(cfg, View(Next(cfg, s, l)), posted) && NotedTo(cfg, View(Next(cfg, s, l)), noted)
  {
    if l.DoRead? {
      IssueUpTo(cfg, s, l, posted, noted);
    } else if l.Poll? || l.GatherStep? || l.PopStep? || l.FreeStep? {
      ReaderUpTo(cfg, s, l, posted, noted);
    } else {
      QuietUpTo(cfg, s, l, posted, noted);
    }
  }

  lemma StepUpTo(cfg: Config, s: State, l: Label, posted: seq<Piece>, noted: seq<Piece>)
    requires Sane(cfg, s) && PostedTo(cfg, View(s), posted) && NotedTo(cfg, View(s), noted)
    requires Enabled(cfg, s, l) && InOrder(s, l)
    ensures Moved(cfg, s, l, Next(cfg, s, l), posted, noted)
  {
    if l.WriterStep? || l.NoteStep? {
      StepMoves(cfg, s, l, posted, noted);
    } else {
      StepStays(cfg, s, l, posted, noted);
      assert posted + [] == posted && noted + [] == noted;
    }
  }

  // ---------------------------------------------------------------- runs

  ghost predicate UpTo(cfg: Config, states: seq<State>, labels: seq<Label>, i: int)
    requires 0 <= i <= |labels| < |states|
  {
    && PostedTo(cfg, View(states[i]), Posted(cfg, states, labels, i))
    && NotedTo(cfg, View(states[i]), Noted(cfg, states, labels, i))
  }

  lemma RunStepUpTo(cfg: Config, states: seq<State>, labels: seq<Label>, i: nat)
    requires IsRun(cfg, states, labels) && i < |labels| && UpTo(cfg, states, labels, i)
    ensures UpTo(cfg, states, labels, i + 1)
  {
    StepUpTo(cfg, states[i], labels[i], Posted(cfg, states, labels, i), Noted(cfg, states, labels, i));
  }

  lemma StartUpTo(cfg: Config, s: State)
    requires InitialState(cfg, s)
    ensures PostedTo(cfg, View(s), []) && NotedTo(cfg, View(s), [])
  {
    InitialIsKept(cfg, s);
    assert s.rs.sent + s.unsent == [];
    assert View(s).backlog == [] && View(s).issued == [];
  }

  lemma RunUpTo(cfg: Config, states: seq<State>, labels: seq<Label>, i: nat)
    requires IsRun(cfg, states, labels) && i <= |labels|
    ensures UpTo(cfg, states, labels, i)
  {
    StartUpTo(cfg, states[0]);
    forall k | 0 <= k < |labels| && UpTo(cfg, states, labels, k)
      ensures UpTo(cfg, states, labels, k + 1)
    {
      RunStepUpTo(cfg, states, labels, k);
    }
    StaysUpTo(cfg, states, labels, i);
  }

  lemma {:induction false} StaysUpTo(cfg: Config, states: seq<State>, labels: seq<Label>, i: nat)
    requires i <= |labels| < |states| && UpTo(cfg, states, labels, 0)
    requires forall k :: 0 <= k < |labels| && UpTo(cfg, states, labels, k) ==> UpTo(cfg, states, labels, k + 1)
    ensures UpTo(cfg, states, labels, i)
  {
    if i > 0 {
      StaysUpTo(cfg, states, labels, i - 1);
      assert UpTo(cfg, states, labels, i - 1 + 1);
    }
  }

  /** Lockstep in every run: the pieces the reader has noted - which read, which offset,
      how long, in how many entries, and whether it is the last - are, in order, the first
      of the pieces the writer has posted, with `is_last` exactly on the pieces on which
      the writer left the record. */
  lemma NotedIsPrefixOfPosted(cfg: Config, states: seq<State>, labels: seq<Label>, i: nat)
    requires IsRun(cfg, states, labels) && i <= |labels|
    ensures Noted(cfg, states, labels, i) <= Posted(cfg, states, labels, i)
  {
    RunUpTo(cfg, states, labels, i);
    RunKept(cfg, states, labels, i);
    Ahead(cfg, View(states[i]), Posted(cfg, states, labels, i), Noted(cfg, states, labels, i));
  }

  lemma Ahead(cfg: Config, l: Ledger, posted: seq<Piece>, noted: seq<Piece>)
    requires Sound(cfg, l) && PostedTo(cfg, l, posted) && NotedTo(cfg, l, noted)
    ensures noted <= posted
  {
    StreamsStand(cfg, l);
    FirstPrefix(cfg, l.issued, Consumed(cfg, l), Dealt(cfg, l));
  }
}
