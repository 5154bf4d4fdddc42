/** Every read completes: no state is stuck with work left, and every step forward
    lowers a number. */
module Liveness {
  import opened Config
  import opened Messages
  import opened System
  import opened Stream
  import opened Ledger
  import opened Books
  import opened Invariant
  import opened Ownership
  import opened Integrity
  import Writer
  import Reader

  /** The steps of the system itself; the others are the application's choice. */
  predicate Driven(l: Label) {
    !(l.DoRead? || l.DstStore? || l.SrcStore? || l.RegisterReadDoneCb?)
  }

  /** Only the application can move. */
  ghost predicate Quiet(cfg: Config, s: State) {
    forall l :: Driven(l) ==> !Enabled(cfg, s, l)
  }

  // ---------------------------------------------------------------- progress

  /** A completion that carries a buffer id always finds a record in the read queue,
      so `front()` is never taken of an empty queue. */
  lemma TaggedFindsRecord(cfg: Config, s: State)
    requires Sound(cfg, View(s)) && s.rs.phase.Idle? && s.cq != [] && s.cq[0] != INT_MAX
    ensures s.rs.queue != []
  {
    TagsHave(Flying(s.cq, s.ws.wire), 0);
    assert s.cq[0] in Claims(s);
    assert |Claims(s)| >= 1;
    assert Balanced(cfg, View(s));
  }

  lemma QuietWriter(cfg: Config, s: State)
    requires Quiet(cfg, s) && DoneCallbacksInOrder(s) && NoLostWakeup(s) && |s.registered| >= |s.issued|
    requires s.thrown.None?
    ensures s.unsent == [] && s.rs.sent == []
    ensures !s.running && !s.finishing && Writer.Stuck(s.ws)
  {
    assert s.unsent != [] ==> Enabled(cfg, s, SendRequest(s.unsent[0]));
    assert !Enabled(cfg, s, WriterStep) && !Enabled(cfg, s, Throw);
    assert !Enabled(cfg, s, CallReadDone);
    assert !Enabled(cfg, s, WriterRecv);
  }

  lemma QuietReader(cfg: Config, s: State)
    requires cfg.recvRequests >= 1 && Quiet(cfg, s) && ReceivesConserved(cfg, s)
    requires s.rs.phase.Idle? && s.cq != [] && s.cq[0] != INT_MAX ==> s.rs.queue != []
    ensures s.ws.wire == [] && s.cq == [] && s.rs.phase.Idle?
  {
    assert !Enabled(cfg, s, GatherStep) && !Enabled(cfg, s, NoteStep);
    assert !Enabled(cfg, s, PopStep) && !Enabled(cfg, s, FreeStep);
    assert s.rs.phase.Idle?;
    assert !Enabled(cfg, s, Poll);
    assert !Enabled(cfg, s, Land);
  }

  /** In a quiet state of two living processes nothing is in motion. */
  lemma QuietIsStill(cfg: Config, s: State)
    requires Kept(cfg, s) && Quiet(cfg, s) && |s.registered| >= |s.issued| && s.thrown.None?
    ensures s.unsent == [] && s.rs.sent == [] && s.ws.wire == [] && s.cq == [] && s.rs.phase.Idle?
    ensures !s.running && !s.finishing && Writer.Stuck(s.ws)
  {
    QuietWriter(cfg, s);
    if s.rs.phase.Idle? && s.cq != [] && s.cq[0] != INT_MAX {
      TaggedFindsRecord(cfg, s);
    }
    QuietReader(cfg, s);
  }

  lemma StillHasNoClaims(s: State)
    requires s.ws.wire == [] && s.cq == [] && s.rs.phase.Idle?
    ensures Claims(s) == []
  {
    assert Flying(s.cq, s.ws.wire) == [];
  }

  lemma StuckWithoutWork(cfg: Config, s: State)
    requires cfg.Valid() && Lent(cfg, s) && Writer.Stuck(s.ws) && Bad(cfg, s.issued[..Written(s)]) < cfg.bufferNum
    requires s.ws.wire == [] && s.cq == [] && s.rs.phase.Idle? && s.rs.sent == []
    ensures s.ws.handle == Writer.InitWriteHandle && s.ws.cur == [] && s.ws.pend == []
  {
    assert Flying(s.cq, s.ws.wire) == [];
    assert s.ws.handle == Writer.RequestBuffer && s.ws.idle == [] ==> Places(s) == multiset{};
  }

  /** Where two living processes come to rest, whatever was asked for, as long as a buffer is left:
      every chunk that gets an entry has been copied out, and as many chunks as there are
      unservable reads are still expected and never come. */
  lemma QuietIsDrained(cfg: Config, s: State)
    requires Core(cfg, s) && Quiet(cfg, s) && |s.registered| >= |s.issued| && s.thrown.None?
    requires Bad(cfg, s.issued[..Written(s)]) < cfg.bufferNum
    ensures ReaderBooks(cfg, View(s)) && Consumed(cfg, View(s)) == |Served(cfg, All(cfg, s.issued))|
    ensures |Expected(cfg, View(s))| == Bad(cfg, s.issued)
    ensures s.ws.handle == Writer.InitWriteHandle && Written(s) == |s.issued| && s.rs.phase.Idle? && s.rs.sent == []
  {
    QuietIsStill(cfg, s);
    StuckWithoutWork(cfg, s);
    NothingOwed(cfg, s);
  }

  lemma NothingOwed(cfg: Config, s: State)
    requires Sound(cfg, View(s)) && s.rs.phase.Idle? && s.ws.wire == [] && s.cq == []
    requires s.ws.handle == Writer.InitWriteHandle && s.ws.cur == [] && s.ws.pend == []
    requires s.rs.sent == [] && s.unsent == []
    ensures Consumed(cfg, View(s)) == |Served(cfg, All(cfg, s.issued))|
    ensures |Expected(cfg, View(s))| == Bad(cfg, s.issued)
    ensures Written(s) == |s.issued|
  {
    StillHasNoClaims(s);
    assert s.rs.sent + s.unsent == [];
    assert View(s).backlog == [];
    assert ToPost(cfg, View(s)) == [];
    ServedCount(cfg, s.issued);
  }

  /** Every read ends: with servable reads and enough read-done callbacks registered,
      the system only comes to rest when every read has been called back on both sides
      and every buffer is idle again. */
  lemma QuietIsComplete(cfg: Config, s: State)
    requires Core(cfg, s) && Quiet(cfg, s) && |s.registered| >= |s.issued| && AllServable(cfg, s.issued)
    ensures s.rs.queue == []
    ensures s.rs.fired == CallbacksOf(s.issued)
    ensures |s.readDone| == |s.issued| && s.readDone <= s.registered
    ensures multiset(s.ws.idle) == multiset(Ids(cfg.bufferNum))
  {
    ServableNeverThrows(cfg, s);
    QuietIsStill(cfg, s);
    NoneBad(cfg, s);
    QuietIsDrained(cfg, s);
    NothingExpected(cfg, s);
    EverybodyCalled(s);
    EveryBufferIdle(cfg, s);
  }

  lemma ServableNeverThrows(cfg: Config, s: State)
    requires Sane(cfg, s) && WriterBooks(cfg, View(s)) && AllServable(cfg, s.issued)
    ensures !Writer.Throws(cfg, s.ws) && s.thrown.None?
  {
    if Writer.Throws(cfg, s.ws) {
      ThrowsOnEmpty(cfg, s);
    }
  }

  lemma NoneBad(cfg: Config, s: State)
    requires cfg.Valid() && Lent(cfg, s) && AllServable(cfg, s.issued)
    ensures Bad(cfg, s.issued) == 0 && Bad(cfg, s.issued[..Written(s)]) == 0
  {
    BadIsZero(cfg, s.issued);
    BadIsZero(cfg, s.issued[..Written(s)]);
  }

  lemma EverybodyCalled(s: State)
    requires ReadCallbacksInOrder(s) && DoneCallbacksInOrder(s)
    requires s.rs.queue == [] && !s.finishing && s.rs.sent == [] && s.rs.phase.Idle?
    ensures s.rs.fired == CallbacksOf(s.issued)
    ensures |s.readDone| == |s.issued| && s.readDone <= s.registered
  {
    assert s.issued[..|s.issued|] == s.issued;
  }

  lemma EveryBufferIdle(cfg: Config, s: State)
    requires cfg.Valid() && Owned(cfg, s) && Lent(cfg, s) && AllServable(cfg, s.issued)
    requires s.rs.sent == [] && s.ws.wire == [] && s.cq == [] && s.rs.phase.Idle?
    requires s.ws.handle == Writer.InitWriteHandle
    ensures multiset(s.ws.idle) == multiset(Ids(cfg.bufferNum))
  {
    AllThereIffNoneLost(cfg, s);
    assert Flying(s.cq, s.ws.wire) == [];
    assert Places(s) == multiset(s.ws.idle);
  }

  lemma NothingExpected(cfg: Config, s: State)
    requires Sound(cfg, View(s)) && s.rs.phase.Idle? && Expected(cfg, View(s)) == []
    ensures s.rs.queue == []
  {
    if s.rs.queue != [] {
      FrontExpected(cfg, View(s));
    }
  }

  /** Whatever was asked for: if every read has been called back, every read was
      servable. */
  lemma CompleteOnlyIfServable(cfg: Config, s: State)
    requires Sound(cfg, View(s)) && s.rs.queue == []
    ensures AllServable(cfg, s.issued)
  {
    assert Expected(cfg, View(s)) == [];
    BadIsZero(cfg, s.issued);
  }

  // ---------------------------------------------------------------- the measure

  function Bit(b: bool): nat { if b then 1 else 0 }

  function PhaseWeight(p: Reader.Phase): nat {
    match p
    case Idle => 0
    case Got(_, _) => 8
    case Gathered(_, _) => 7
    case Noted(_, _) => 6
    case Sending(_, _) => 5
  }

  function WireWeight(s: State): nat {
    2 * |s.ws.wire| + |s.cq| + 8 * |Tags(Flying(s.cq, s.ws.wire))| + PhaseWeight(s.rs.phase)
  }

  function QueueWeight(s: State): nat {
    4 * |s.unsent| + 3 * |s.rs.sent| + |Writer.Fifo(s.ws)|
    + Bit(s.running) + Bit(s.finishing) + Bit(s.ws.handle != Writer.DoCurWrite)
  }

  /** The exception still possible, and the writes it leaves behind. */
  function StrayWeight(cfg: Config, s: State): nat
    requires cfg.Valid()
  {
    match s.thrown
    case None => 2 * Blocks(cfg) + 1
    case Some(n) => 2 * n
  }

  /** More than all the steps a chunk can cause. */
  function ChunkWeight(cfg: Config): nat
    requires cfg.Valid()
  {
    2 * cfg.sgeNum + 14
  }

  function Times(a: nat, b: nat): nat { a * b }

  lemma TimesNext(a: nat, b: nat)
    ensures Times(a + 1, b) == Times(a, b) + b
  {
  }

  /** What is left to do, over both machines and both wires. */
  ghost function Measure(cfg: Config, s: State): nat
    requires cfg.Valid() && WriterBooks(cfg, View(s))
  {
    Times(|ToPost(cfg, View(s))|, ChunkWeight(cfg)) + WireWeight(s) + QueueWeight(s) + StrayWeight(cfg, s)
  }

  lemma SameToPost(cfg: Config, s: State, r: State)
    requires cfg.Valid() && WriterBooks(cfg, View(s))
    requires r.issued == s.issued && Backlog(r) == Backlog(s) && r.ws.handle == s.ws.handle && r.ws.rec == s.ws.rec
    requires WireWeight(r) + QueueWeight(r) + StrayWeight(cfg, r) < WireWeight(s) + QueueWeight(s) + StrayWeight(cfg, s)
    ensures WriterBooks(cfg, View(r)) && Measure(cfg, r) < Measure(cfg, s)
  {
    WriterUnchanged(cfg, View(s), View(r));
  }

  lemma SendLowers(cfg: Config, s: State)
    requires Sane(cfg, s) && WriterBooks(cfg, View(s)) && s.unsent != []
    ensures var r := Next(cfg, s, SendRequest(s.unsent[0]));
            WriterBooks(cfg, View(r)) && Measure(cfg, r) < Measure(cfg, s)
  {
    QuietView(cfg, s, SendRequest(s.unsent[0]));
    SameToPost(cfg, s, Next(cfg, s, SendRequest(s.unsent[0])));
  }

  lemma RecvLowers(cfg: Config, s: State)
    requires cfg.Valid() && WriterBooks(cfg, View(s)) && s.rs.sent != [] && !s.running && !s.finishing
    ensures WriterBooks(cfg, View(DoWriterRecv(s))) && Measure(cfg, DoWriterRecv(s)) < Measure(cfg, s)
  {
    WriterRecvView(s);
    SameToPost(cfg, s, DoWriterRecv(s));
  }

  lemma InitWeights(cfg: Config, s: State)
    requires Sane(cfg, s) && s.running && s.ws.handle == Writer.InitWriteHandle
    ensures var r := DoWriterStep(cfg, s);
            WireWeight(r) == WireWeight(s) && QueueWeight(r) < QueueWeight(s)
  {
    if Writer.Fifo(s.ws) != [] {
      assert |Writer.Fifo(DoWriterStep(cfg, s).ws)| == |Writer.Fifo(s.ws)| - 1;
    }
  }

  lemma InitLowers(cfg: Config, s: State)
    requires Sane(cfg, s) && WriterBooks(cfg, View(s)) && s.running && s.ws.handle == Writer.InitWriteHandle
    ensures var r := DoWriterStep(cfg, s);
            WriterBooks(cfg, View(r)) && Measure(cfg, r) < Measure(cfg, s)
  {
    StepInitView(s);
    InitWeights(cfg, s);
    if Writer.Fifo(s.ws) == [] {
      SameToPost(cfg, s, DoWriterStep(cfg, s));
    } else {
      TakeKeepsToPost(cfg, View(s));
    }
  }

  lemma RequestLowers(cfg: Config, s: State)
    requires Sane(cfg, s) && WriterBooks(cfg, View(s)) && s.running && s.ws.handle == Writer.RequestBuffer
    ensures var r := DoWriterStep(cfg, s);
            WriterBooks(cfg, View(r)) && Measure(cfg, r) < Measure(cfg, s)
  {
    var r := DoWriterStep(cfg, s);
    StepRequestView(s);
    if s.ws.idle == [] {
      SameToPost(cfg, s, r);
    } else {
      HandleKeepsToPost(cfg, View(s));
      assert WireWeight(r) == WireWeight(s);
    }
  }

  lemma WriteLowers(cfg: Config, s: State)
    requires Sane(cfg, s) && WriterBooks(cfg, View(s)) && s.running && s.ws.handle == Writer.DoCurWrite
    requires !Writer.Throws(cfg, s.ws)
    ensures var r := DoWriterStep(cfg, s);
            WriterBooks(cfg, View(r)) && Measure(cfg, r) < Measure(cfg, s)
  {
    var r := DoWriterStep(cfg, s);
    var count := cfg.SgeCount(Writer.NextLen(cfg, s.ws.rec));
    StepWriteView(cfg, s);
    PostsFirst(cfg, View(s), s.ws.buf);
    LoopMovesCopied(cfg, Writer.NextLen(cfg, s.ws.rec), if count < 0 then 0 else count);
    WriteWeights(cfg, s);
    TimesNext(|ToPost(cfg, View(r))|, ChunkWeight(cfg));
  }

  lemma WriteWeights(cfg: Config, s: State)
    requires Sane(cfg, s) && s.ws.handle == Writer.DoCurWrite && !Writer.Throws(cfg, s.ws)
    requires cfg.SgeCount(Writer.NextLen(cfg, s.ws.rec)) <= cfg.sgeNum
    ensures var r := DoWriterStep(cfg, s);
            && WireWeight(r) <= WireWeight(s) + 2 * cfg.sgeNum + 8
            && QueueWeight(r) <= QueueWeight(s) + 2
  {
    var r := DoWriterStep(cfg, s);
    var count := cfg.SgeCount(Writer.NextLen(cfg, s.ws.rec));
    var imms := Imms(Writes(s.ws.buf, count));
    assert Flying(r.cq, r.ws.wire) == Flying(s.cq, s.ws.wire) + imms;
    TagsAppend(Flying(s.cq, s.ws.wire), imms);
    TagsOfWrites(s.ws.buf, count);
  }

  lemma LandLowers(cfg: Config, s: State)
    requires Sane(cfg, s) && WriterBooks(cfg, View(s)) && s.ws.wire != []
    ensures WriterBooks(cfg, View(DoLand(cfg, s))) && Measure(cfg, DoLand(cfg, s)) < Measure(cfg, s)
  {
    var r := DoLand(cfg, s);
    LandView(cfg, s);
    assert Flying(r.cq, r.ws.wire) == Flying(s.cq, s.ws.wire);
    SameToPost(cfg, s, r);
  }

  lemma ThrowLowers(cfg: Config, s: State)
    requires Sane(cfg, s) && WriterBooks(cfg, View(s)) && Enabled(cfg, s, Throw)
    ensures var r := Next(cfg, s, Throw);
            WriterBooks(cfg, View(r)) && Measure(cfg, r) < Measure(cfg, s)
  {
    QuietView(cfg, s, Throw);
    SameToPost(cfg, s, Next(cfg, s, Throw));
  }

  lemma StrayLowers(cfg: Config, s: State)
    requires Sane(cfg, s) && WriterBooks(cfg, View(s)) && Stray(s)
    ensures WriterBooks(cfg, View(DoLandStray(cfg, s))) && Measure(cfg, DoLandStray(cfg, s)) < Measure(cfg, s)
  {
    StrayTags(s.cq, s.ws.wire);
    StrayView(cfg, s);
    SameToPost(cfg, s, DoLandStray(cfg, s));
  }

  lemma PollWeights(cfg: Config, s: State)
    requires Sane(cfg, s) && Enabled(cfg, s, Poll)
    ensures WireWeight(DoPoll(cfg, s)) < WireWeight(s) && QueueWeight(DoPoll(cfg, s)) == QueueWeight(s)
  {
    PollMoves(s.cq, s.ws.wire);
  }

  lemma PollLowers(cfg: Config, s: State)
    requires Sane(cfg, s) && WriterBooks(cfg, View(s)) && Enabled(cfg, s, Poll)
    ensures WriterBooks(cfg, View(DoPoll(cfg, s))) && Measure(cfg, DoPoll(cfg, s)) < Measure(cfg, s)
  {
    PollView(cfg, s);
    PollWeights(cfg, s);
    SameToPost(cfg, s, DoPoll(cfg, s));
  }

  lemma ReaderLowers(cfg: Config, s: State, l: Label)
    requires Sane(cfg, s) && WriterBooks(cfg, View(s)) && Enabled(cfg, s, l)
    requires l.GatherStep? || l.NoteStep? || l.PopStep? || l.FreeStep?
    ensures var r := Next(cfg, s, l);
            WriterBooks(cfg, View(r)) && Measure(cfg, r) < Measure(cfg, s)
  {
    var r := Next(cfg, s, l);
    if l.FreeStep? {
      FreeView(s);
    }
    SameToPost(cfg, s, r);
  }

  /** Every step of the system lowers the measure, so between two actions of the
      application only that many steps can happen. */
  lemma DrivenLowers(cfg: Config, s: State, l: Label)
    requires Kept(cfg, s) && Enabled(cfg, s, l) && InOrder(s, l) && Driven(l)
    ensures WriterBooks(cfg, View(Next(cfg, s, l)))
    ensures Measure(cfg, Next(cfg, s, l)) < Measure(cfg, s)
  {
    match l {
      case SendRequest(_) => SendLowers(cfg, s);
      case WriterRecv => RecvLowers(cfg, s);
      case WriterStep =>
        match s.ws.handle {
          case InitWriteHandle => InitLowers(cfg, s);
          case RequestBuffer => RequestLowers(cfg, s);
          case DoCurWrite => WriteLowers(cfg, s);
        }
      case CallReadDone =>
        QuietView(cfg, s, l);
        SameToPost(cfg, s, Next(cfg, s, l));
      case Throw => ThrowLowers(cfg, s);
      case Land => LandLowers(cfg, s);
      case LandStray => StrayLowers(cfg, s);
      case Poll => PollLowers(cfg, s);
      case _ => ReaderLowers(cfg, s, l);
    }
  }
}
