/**
 What holds in every run, whatever sizes the application asks for: memory safety,
 the ledger, receive-request conservation, no lost wake-up, callbacks in order and
 sources unchanged until released.
 */
module Invariant {
  import opened Config
  import opened Messages
  import opened System
  import opened Ledger
  import opened Books
  import opened Sanity
  import Writer
  import Reader

  /** Receive requests: posted, completed but not polled, or with the poller. */
  predicate ReceivesConserved(cfg: Config, s: State) {
    && s.posted >= 0
    && s.posted + |s.cq| + (if s.rs.phase.Idle? then 0 else 1) == cfg.recvRequests
  }

  /** A writer outside its loop has nothing it could do. */
  predicate NoLostWakeup(s: State) {
    !s.running ==> Writer.Stuck(s.ws)
  }

  /** The callbacks of a list of reads, in order; a read may have none. */
  function CallbacksOf(issued: seq<Read>): seq<nat> {
    if issued == [] then []
    else
      CallbacksOf(issued[..|issued| - 1])
      + match issued[|issued| - 1].cb
        case None => []
        case Some(c) => [c]
  }

  predicate ReadCallbacksInOrder(s: State) {
    && |s.rs.queue| <= |s.issued|
    && s.rs.fired == CallbacksOf(s.issued[..|s.issued| - |s.rs.queue|])
  }

  /** Read-done callbacks are called in registration order, one for each popped read
      whose last FreeBufferPair has been handled. */
  predicate DoneCallbacksInOrder(s: State) {
    && s.registered == s.readDone + s.cbs
    && |s.readDone| + (if s.finishing then 1 else 0) + LastFrees(s.rs.sent)
       + (if s.rs.phase.Sending? && s.rs.phase.last then 1 else 0) == |s.issued| - |s.rs.queue|
  }

  ghost predicate ReadsInMemory(s: State) {
    forall i :: 0 <= i < |s.issued| ==>
      && |s.issued[i].data| == |s.issued[i].before| == s.issued[i].bytes < U64
      && s.issued[i].src + s.issued[i].bytes <= |s.src|
      && s.issued[i].dst + s.issued[i].bytes <= |s.rs.dst|
  }

  /** Until its read-done callback is called, a source region is as it was when the
      read was issued. */
  ghost predicate SourcesKept(s: State)
    requires ReadsInMemory(s)
  {
    forall i, p :: |s.readDone| <= i < |s.issued| && 0 <= p < s.issued[i].bytes ==>
      s.src[s.issued[i].src + p] == s.issued[i].data[p]
  }

  ghost predicate Kept(cfg: Config, s: State) {
    && Sane(cfg, s)
    && Sound(cfg, View(s))
    && ReceivesConserved(cfg, s)
    && NoLostWakeup(s)
    && ReadCallbacksInOrder(s)
    && DoneCallbacksInOrder(s)
    && ReadsInMemory(s)
    && SourcesKept(s)
  }

  lemma InitialIsKept(cfg: Config, s: State)
    requires InitialState(cfg, s)
    ensures Kept(cfg, s)
  {
    InitialIsSane(cfg, s);
    assert s.rs.sent + s.unsent == [];
    assert Flying(s.cq, s.ws.wire) == [];
  }

  lemma WriterStepSound(cfg: Config, s: State)
    requires Sane(cfg, s) && Sound(cfg, View(s)) && s.running && !Writer.Throws(cfg, s.ws)
    ensures Sound(cfg, View(DoWriterStep(cfg, s)))
  {
    match s.ws.handle {
      case InitWriteHandle =>
        StepInitView(s);
        if Writer.Fifo(s.ws) != [] {
          TakeSound(cfg, View(s));
        }
      case RequestBuffer =>
        StepRequestView(s);
        if s.ws.idle != [] {
          HandleSound(cfg, View(s));
        }
      case DoCurWrite =>
        StepWriteView(cfg, s);
        PostSound(cfg, View(s), s.ws.buf);
    }
  }

  lemma ReaderStepSound(cfg: Config, s: State, l: Label)
    requires Sane(cfg, s) && Sound(cfg, View(s)) && Enabled(cfg, s, l)
    requires l.Poll? || l.GatherStep? || l.NoteStep? || l.PopStep? || l.FreeStep?
    ensures Sound(cfg, View(Next(cfg, s, l)))
  {
    match l {
      case Poll =>
        PollView(cfg, s);
        if s.cq[0] != INT_MAX {
          PhaseSound(cfg, View(s), Reader.Got(s.cq[0], s.rs.queue[0]));
        }
      case GatherStep =>
        GatherView(cfg, s);
        PhaseSound(cfg, View(s), Reader.Gathered(s.rs.phase.buf, s.rs.phase.rec));
      case _ => ReaderEndSound(cfg, s, l);
    }
  }

  lemma ReaderEndSound(cfg: Config, s: State, l: Label)
    requires Sane(cfg, s) && Sound(cfg, View(s)) && Enabled(cfg, s, l)
    requires l.NoteStep? || l.PopStep? || l.FreeStep?
    ensures Sound(cfg, View(Next(cfg, s, l)))
  {
    match l {
      case NoteStep =>
        NoteView(cfg, s);
        NoteSound(cfg, View(s));
      case PopStep =>
        PopView(cfg, s);
        PopSound(cfg, View(s));
      case FreeStep =>
        FreeView(s);
        PhaseSound(cfg, View(s), Reader.Idle);
    }
  }

  lemma StepSound(cfg: Config, s: State, l: Label)
    requires Sane(cfg, s) && Sound(cfg, View(s)) && Enabled(cfg, s, l) && InOrder(s, l)
    ensures Sound(cfg, View(Next(cfg, s, l)))
  {
    match l {
      case DoRead(a, d, n, cb) =>
        DoReadView(cfg, s, a, d, n, cb);
        IssueSound(cfg, View(s), Next(cfg, s, l).issued[|s.issued|]);
      case SendRequest(_) => QuietView(cfg, s, l);
      case DstStore(_, _) => QuietView(cfg, s, l);
      case SrcStore(_, _) => QuietView(cfg, s, l);
      case RegisterReadDoneCb(_) => QuietView(cfg, s, l);
      case CallReadDone => QuietView(cfg, s, l);
      case Throw => QuietView(cfg, s, l);
      case WriterRecv => WriterRecvView(s);
      case WriterStep => WriterStepSound(cfg, s);
      case Land => LandView(cfg, s);
      case LandStray => StrayView(cfg, s);
      case _ => ReaderStepSound(cfg, s, l);
    }
  }

  lemma StepConservesReceives(cfg: Config, s: State, l: Label)
    requires Sane(cfg, s) && Enabled(cfg, s, l) && ReceivesConserved(cfg, s)
    ensures ReceivesConserved(cfg, Next(cfg, s, l))
  {
  }

  /** AsyncWrite wakes the writer only when the pending queue was empty, and that is
      enough: a stuck writer with a non-empty pending queue waits for a buffer. */
  lemma StepKeepsWakeup(cfg: Config, s: State, l: Label)
    requires Sane(cfg, s) && Enabled(cfg, s, l) && NoLostWakeup(s)
    ensures NoLostWakeup(Next(cfg, s, l))
  {
  }

  lemma PopCallsNext(cfg: Config, s: State)
    requires Reader.WellFormed(cfg, s.rs) && s.rs.phase.Noted? && s.rs.phase.last
    requires cfg.Valid() && ReaderBooks(cfg, View(s)) && ReadCallbacksInOrder(s)
    ensures ReadCallbacksInOrder(s.(rs := Reader.StepPop(cfg, s.rs)))
  {
    var k := |s.issued| - |s.rs.queue|;
    assert s.issued[..k + 1][..k] == s.issued[..k];
    assert View(s).queue[0].(offset := 0) == ReaderRecord(s.issued[k]);
  }

  lemma StepKeepsReadCallbacks(cfg: Config, s: State, l: Label)
    requires Sane(cfg, s) && Enabled(cfg, s, l) && ReaderBooks(cfg, View(s)) && ReadCallbacksInOrder(s)
    ensures ReadCallbacksInOrder(Next(cfg, s, l))
  {
    if l.PopStep? {
      PopCallsNext(cfg, s);
    } else {
      NobodyCalled(cfg, s, l);
    }
  }

  lemma NobodyCalled(cfg: Config, s: State, l: Label)
    requires Sane(cfg, s) && Enabled(cfg, s, l) && ReadCallbacksInOrder(s) && !l.PopStep?
    ensures ReadCallbacksInOrder(Next(cfg, s, l))
  {
    var r := Next(cfg, s, l);
    var k := |s.issued| - |s.rs.queue|;
    assert r.rs.fired == s.rs.fired;
    assert |r.issued| - |r.rs.queue| == k;
    assert r.issued[..k] == s.issued[..k];
  }

  lemma StepKeepsDoneCallbacks(cfg: Config, s: State, l: Label)
    requires Sane(cfg, s) && Enabled(cfg, s, l) && DoneCallbacksInOrder(s)
    ensures DoneCallbacksInOrder(Next(cfg, s, l))
  {
    if l.SendRequest? {
      LastFreesAppend(s.rs.sent, l.msg);
    } else if l.FreeStep? {
      LastFreesAppend(s.rs.sent, FreeBufferPair(s.rs.phase.buf, s.rs.phase.last));
    }
  }

  lemma StepKeepsReads(cfg: Config, s: State, l: Label)
    requires Sane(cfg, s) && Enabled(cfg, s, l) && ReadsInMemory(s)
    ensures ReadsInMemory(Next(cfg, s, l))
  {
  }

  lemma StepKeepsSources(cfg: Config, s: State, l: Label)
    requires Sane(cfg, s) && Enabled(cfg, s, l) && ReadsInMemory(s) && SourcesKept(s)
    requires ReadsInMemory(Next(cfg, s, l))
    ensures SourcesKept(Next(cfg, s, l))
  {
    if l.SrcStore? {
      StoreKeepsSources(cfg, s, l);
    } else if l.DoRead? {
      assert Next(cfg, s, l).src == s.src;
    } else {
      assert Next(cfg, s, l).src == s.src && Next(cfg, s, l).issued == s.issued;
    }
  }

  lemma StoreKeepsSources(cfg: Config, s: State, l: Label)
    requires Sane(cfg, s) && Enabled(cfg, s, l) && ReadsInMemory(s) && SourcesKept(s)
    requires l.SrcStore? && ReadsInMemory(Next(cfg, s, l))
    ensures SourcesKept(Next(cfg, s, l))
  {
    var r := Next(cfg, s, l);
    forall i, p | |r.readDone| <= i < |r.issued| && 0 <= p < r.issued[i].bytes
      ensures r.src[r.issued[i].src + p] == r.issued[i].data[p]
    {
      assert Outside(l.addr, s.issued[i].src, s.issued[i].bytes);
    }
  }

  /** The first part of the invariant of every run, whatever is asked for and in whatever
      order the two machines and the network move. */
  lemma EveryStepKept(cfg: Config, s: State, l: Label)
    requires Kept(cfg, s) && Enabled(cfg, s, l) && InOrder(s, l)
    ensures Kept(cfg, Next(cfg, s, l))
  {
    EveryStepIsSane(cfg, s, l);
    StepSound(cfg, s, l);
    StepConservesReceives(cfg, s, l);
    StepKeepsWakeup(cfg, s, l);
    StepKeepsReadCallbacks(cfg, s, l);
    StepKeepsDoneCallbacks(cfg, s, l);
    StepKeepsReads(cfg, s, l);
    StepKeepsSources(cfg, s, l);
  }
}
