/**
 Runs in which several threads post their requests in any order.  A read is delivered as
 long as its own request and those before it are posted in order: what overtakes what
 behind it does not matter.
 */
module AnyOrder {
  import opened Config
  import opened Messages
  import opened System
  import opened Stream
  import opened Ledger
  import opened Books
  import opened Invariant
  import opened Ownership
  import opened Delivery
  import opened Integrity
  import opened Completion
  import opened Theorems
  import opened Cuts
  import Continuations
  import Sanity
  import Writer
  import Reader

  // ---------------------------------------------------------------- what no order can break

  lemma {:induction false} RequestsConcat(a: seq<CtrlMsg>, b: seq<CtrlMsg>)
    ensures Requests(a + b) == Requests(a) + Requests(b)
  {
    if a == [] {
      assert a + b == b;
    } else {
      RequestsConcat(a[1..], b);
      assert (a + b)[1..] == a[1..] + b;
      assert RequestOf(a[0]) + (Requests(a[1..]) + Requests(b)) == (RequestOf(a[0]) + Requests(a[1..])) + Requests(b);
    }
  }

  lemma {:induction false} RequestsOfAll(ms: seq<CtrlMsg>)
    requires forall i :: 0 <= i < |ms| ==> ms[i].PleaseWrite?
    ensures |Requests(ms)| == |ms|
  {
    if ms != [] {
      RequestsOfAll(ms[1..]);
    }
  }

  /** Records of requests that have been posted and not yet started. */
  function Asked(s: State): seq<WorkRecord> {
    Writer.Fifo(s.ws) + Requests(s.rs.sent)
  }

  lemma BacklogIs(cfg: Config, s: State)
    requires Sane(cfg, s)
    ensures Backlog(s) == Asked(s) + Requests(s.unsent) && |Requests(s.unsent)| == |s.unsent|
  {
    RequestsConcat(s.rs.sent, s.unsent);
    RequestsOfAll(s.unsent);
    assert Writer.Fifo(s.ws) + (Requests(s.rs.sent) + Requests(s.unsent)) == Asked(s) + Requests(s.unsent);
  }

  /** Posting a request out of turn leaves the order of those posted before. */
  lemma SendView(cfg: Config, s: State, l: Label)
    requires Sane(cfg, s) && Enabled(cfg, s, l) && l.SendRequest?
    ensures var r := Next(cfg, s, l);
            && View(r) == View(s).(backlog := Backlog(r))
            && |Backlog(r)| == |Backlog(s)| && Asked(s) <= Backlog(r) && Asked(s) <= Backlog(s)
  {
    var r := Next(cfg, s, l);
    Sanity.EveryStepIsSane(cfg, s, l);
    BacklogIs(cfg, s);
    BacklogIs(cfg, r);
    RequestsAppend(s.rs.sent, l.msg);
    assert Asked(r) == Asked(s) + RequestOf(l.msg);
  }

  predicate ByReader(l: Label) {
    l.Poll? || l.GatherStep? || l.NoteStep? || l.PopStep? || l.FreeStep?
  }

  lemma SameReading(cfg: Config, s: State, l: Label)
    requires Sane(cfg, s) && Enabled(cfg, s, l) && !ByReader(l) && !l.DoRead?
    ensures Next(cfg, s, l).issued == s.issued
    ensures Next(cfg, s, l).rs.queue == s.rs.queue && Next(cfg, s, l).rs.phase == s.rs.phase
  {
  }

  lemma StepReaderBooks(cfg: Config, s: State, l: Label)
    requires Sane(cfg, s) && ReaderBooks(cfg, View(s)) && Enabled(cfg, s, l)
    ensures ReaderBooks(cfg, View(Next(cfg, s, l)))
  {
    if l.DoRead? {
      DoReadView(cfg, s, l.srcAddr, l.dstAddr, l.bytes, l.cb);
      IssueReaderBooks(cfg, View(s), Next(cfg, s, l).issued[|s.issued|]);
    } else if ByReader(l) {
      ReaderStepBooks(cfg, s, l);
    } else {
      SameReading(cfg, s, l);
      ReaderUnchanged(cfg, View(s), View(Next(cfg, s, l)));
    }
  }

  lemma ReaderStepBooks(cfg: Config, s: State, l: Label)
    requires Sane(cfg, s) && ReaderBooks(cfg, View(s)) && Enabled(cfg, s, l) && ByReader(l)
    ensures ReaderBooks(cfg, View(Next(cfg, s, l)))
  {
    match l {
      case Poll =>
        PollView(cfg, s);
        if s.cq[0] != INT_MAX {
          PhaseKeepsExpected(cfg, View(s), Reader.Got(s.cq[0], s.rs.queue[0]));
        }
      case GatherStep =>
        GatherView(cfg, s);
        PhaseKeepsExpected(cfg, View(s), Reader.Gathered(s.rs.phase.buf, s.rs.phase.rec));
      case NoteStep =>
        NoteView(cfg, s);
        NoteConsumes(cfg, View(s));
      case PopStep =>
        PopView(cfg, s);
        PopKeepsExpected(cfg, View(s));
      case FreeStep =>
        FreeView(s);
        PhaseKeepsExpected(cfg, View(s), Reader.Idle);
    }
  }

  lemma StepBacklog(cfg: Config, s: State, l: Label)
    requires Sane(cfg, s) && Enabled(cfg, s, l) && |Backlog(s)| <= |s.issued|
    ensures |Backlog(Next(cfg, s, l))| <= |Next(cfg, s, l).issued|
  {
    match l {
      case DoRead(a, d, n, cb) => DoReadView(cfg, s, a, d, n, cb);
      case SendRequest(_) => SendView(cfg, s, l);
      case WriterRecv => WriterRecvView(s);
      case WriterStep => WriterBacklog(cfg, s);
      case FreeStep => FreeView(s);
      case _ => SameBacklog(cfg, s, l);
    }
  }

  lemma WriterBacklog(cfg: Config, s: State)
    requires Sane(cfg, s) && !Writer.Throws(cfg, s.ws)
    ensures |Backlog(DoWriterStep(cfg, s))| <= |Backlog(s)|
  {
    match s.ws.handle {
      case InitWriteHandle =>
        StepInitView(s);
        SameView(s.(ws := Writer.StepInit(s.ws).0), DoWriterStep(cfg, s));
      case RequestBuffer =>
      case DoCurWrite => WriteMovesView(cfg, s);
    }
  }

  lemma SameBacklog(cfg: Config, s: State, l: Label)
    requires Sane(cfg, s) && Enabled(cfg, s, l)
    requires !l.DoRead? && !l.SendRequest? && !l.WriterRecv? && !l.WriterStep? && !l.FreeStep?
    ensures Backlog(Next(cfg, s, l)) == Backlog(s)
  {
    var r := Next(cfg, s, l);
    assert r.rs.sent == s.rs.sent && r.unsent == s.unsent && Writer.Fifo(r.ws) == Writer.Fifo(s.ws);
  }

  /** What holds in whatever order requests are posted. */
  ghost predicate AnyKept(cfg: Config, s: State) {
    && Sane(cfg, s)
    && ReaderBooks(cfg, View(s)) && |Backlog(s)| <= |s.issued|
    && Owned(cfg, s) && Wired(s.ws.wire)
    && ReadCallbacksInOrder(s) && DoneCallbacksInOrder(s)
    && ReadsInMemory(s) && SourcesKept(s)
  }

  lemma InitialIsAnyKept(cfg: Config, s: State)
    requires InitialState(cfg, s)
    ensures AnyKept(cfg, s)
  {
    InitialIsCore(cfg, s);
    assert s.rs.sent + s.unsent == [];
  }

  lemma StepAnyKept(cfg: Config, s: State, l: Label)
    requires AnyKept(cfg, s) && Enabled(cfg, s, l)
    ensures AnyKept(cfg, Next(cfg, s, l))
  {
    Sanity.EveryStepIsSane(cfg, s, l);
    StepReaderBooks(cfg, s, l);
    StepBacklog(cfg, s, l);
    StepOwned(cfg, s, l);
    StepWired(cfg, s, l);
    StepKeepsReadCallbacks(cfg, s, l);
    StepKeepsDoneCallbacks(cfg, s, l);
    StepKeepsReads(cfg, s, l);
    StepKeepsSources(cfg, s, l);
  }

  // ---------------------------------------------------------------- the first k reads

  ghost predicate CutSound(cfg: Config, l: Ledger, k: nat, c: nat) {
    Counted(l, k, c) && Sound(cfg, Cut(l, k, c))
  }

  /** The buffers claimed by the first `k` reads carry the chunks of these. */
  ghost predicate CutCarried(cfg: Config, s: State, k: nat, c: nat)
    requires CutSound(cfg, View(s), k, c)
  {
    AllCarried(cfg, First(s.issued, k), s.ws.send, s.rs.recv, s.ws.wire, Incoming(cfg, Cut(View(s), k, c)),
               Claims(s)[..c])
  }

  /** Destinations of the first `k` reads. */
  ghost predicate CutDests(cfg: Config, s: State, k: nat)
    requires Reader.WellFormed(cfg, s.rs)
  {
    DestsHold(cfg, First(s.issued, k), Served(cfg, All(cfg, First(s.issued, k))), s.rs.dst, CalledBack(s),
              Progress(cfg, s.rs))
  }

  /** A step that moves only the writer's side of the ledger, or neither. */
  lemma CarriedStays(cfg: Config, s: State, r: State, k: nat, c: nat)
    requires CutSound(cfg, View(s), k, c) && CutSound(cfg, View(r), k, c) && CutCarried(cfg, s, k, c)
    requires r.issued == s.issued && r.ws.send == s.ws.send && r.rs.recv == s.rs.recv && r.ws.wire == s.ws.wire
    requires Claims(r) == Claims(s) && Expected(cfg, Cut(View(r), k, c)) == Expected(cfg, Cut(View(s), k, c))
    ensures CutCarried(cfg, r, k, c)
  {
  }

  ghost predicate Follows(cfg: Config, r: State, k: nat, c: nat) {
    CutSound(cfg, View(r), k, c) && CutCarried(cfg, r, k, c)
  }

  lemma SameCut(cfg: Config, s: State, r: State, k: nat, c: nat)
    requires Follows(cfg, s, k, c) && Counted(View(r), k, c) && Cut(View(r), k, c) == Cut(View(s), k, c)
    requires r.issued == s.issued && r.ws.send == s.ws.send && r.rs.recv == s.rs.recv && r.ws.wire == s.ws.wire
    requires Claims(r) == Claims(s)
    ensures Follows(cfg, r, k, c)
  {
    CarriedStays(cfg, s, r, k, c);
  }

  /** Requests of the first `k` reads are posted in order. */
  predicate AgreesUpTo(s: State, l: Label, k: nat) {
    l.SendRequest? && |s.issued| - |s.unsent| < k ==> InOrder(s, l)
  }

  /** Only the first of the records not started matter. */
  lemma CutBacklog(l: Ledger, asked: seq<WorkRecord>, backlog: seq<WorkRecord>, k: nat, c: nat)
    requires Counted(l, k, c) && asked <= l.backlog && asked <= backlog && |backlog| == |l.backlog|
    requires k - Started(l) <= |asked|
    ensures Counted(l.(backlog := backlog), k, c) && Cut(l.(backlog := backlog), k, c) == Cut(l, k, c)
  {
    assert First(backlog, k - Started(l)) == First(l.backlog, k - Started(l));
  }

  lemma PostedSoFar(cfg: Config, s: State)
    requires Sane(cfg, s)
    ensures |Asked(s)| == |s.issued| - |s.unsent| - Started(View(s))
  {
    BacklogIs(cfg, s);
  }

  lemma SendCut(cfg: Config, s: State, l: Label, k: nat, c: nat)
    requires Sane(cfg, s) && Counted(View(s), k, c) && Enabled(cfg, s, l) && l.SendRequest? && AgreesUpTo(s, l, k)
    ensures var r := Next(cfg, s, l);
            Counted(View(r), k, c) && Cut(View(r), k, c) == Cut(View(s), k, c) && Claims(r) == Claims(s)
  {
    SendView(cfg, s, l);
    if InOrder(s, l) {
      QuietView(cfg, s, l);
    } else {
      PostedSoFar(cfg, s);
      CutBacklog(View(s), Asked(s), Backlog(Next(cfg, s, l)), k, c);
    }
  }

  lemma SendFollows(cfg: Config, s: State, l: Label, k: nat, c: nat)
    requires Sane(cfg, s) && Follows(cfg, s, k, c) && Enabled(cfg, s, l) && l.SendRequest? && AgreesUpTo(s, l, k)
    ensures Follows(cfg, Next(cfg, s, l), k, c)
  {
    SendCut(cfg, s, l, k, c);
    SameCut(cfg, s, Next(cfg, s, l), k, c);
  }

  lemma QuietFollows(cfg: Config, s: State, l: Label, k: nat, c: nat)
    requires Sane(cfg, s) && Follows(cfg, s, k, c) && Enabled(cfg, s, l)
    requires l.DstStore? || l.SrcStore? || l.RegisterReadDoneCb? || l.CallReadDone? || l.Throw? || l.WriterRecv?
    ensures Follows(cfg, Next(cfg, s, l), k, c)
  {
    if l.WriterRecv? {
      WriterRecvView(s);
    } else {
      QuietView(cfg, s, l);
    }
    SameCut(cfg, s, Next(cfg, s, l), k, c);
  }

  lemma DoReadFollows(cfg: Config, s: State, l: Label, k: nat, c: nat)
    requires Sane(cfg, s) && Follows(cfg, s, k, c) && Enabled(cfg, s, l) && l.DoRead?
    ensures Follows(cfg, Next(cfg, s, l), k, c)
  {
    var r := Next(cfg, s, l);
    var x := r.issued[|s.issued|];
    DoReadView(cfg, s, l.srcAddr, l.dstAddr, l.bytes, l.cb);
    CutIssue(View(s), x, k, c);
    if |s.issued| < k {
      IssueSound(cfg, Cut(View(s), k, c), x);
      IssueIncoming(cfg, Cut(View(s), k, c), x);
      IssueAllCarried(cfg, s.issued, x, s.ws.send, s.rs.recv, s.ws.wire, Incoming(cfg, Cut(View(s), k, c)),
                      Served(cfg, Chunks(cfg, s.issued + [x], |s.issued|, 0)), Claims(s)[..c]);
    } else {
      assert First(r.issued, k) == First(s.issued, k);
    }
  }

  // ---------------------------------------------------------------- the writer

  lemma InitFollows(cfg: Config, s: State, k: nat, c: nat)
    requires Sane(cfg, s) && Follows(cfg, s, k, c) && s.ws.handle == Writer.InitWriteHandle
    ensures Follows(cfg, DoWriterStep(cfg, s), k, c)
  {
    var l, r := View(s), DoWriterStep(cfg, s);
    StepInitView(s);
    SameView(s.(ws := Writer.StepInit(s.ws).0), r);
    if Writer.Fifo(s.ws) != [] {
      CutTake(l, k, c);
      if Started(l) < k {
        TakeSound(cfg, Cut(l, k, c));
        ReaderUnchanged(cfg, Cut(l, k, c), Take(Cut(l, k, c)));
      }
    }
    CarriedStays(cfg, s, r, k, c);
  }

  lemma RequestFollows(cfg: Config, s: State, k: nat, c: nat)
    requires Sane(cfg, s) && Follows(cfg, s, k, c) && s.ws.handle == Writer.RequestBuffer
    ensures Follows(cfg, DoWriterStep(cfg, s), k, c)
  {
    var l, r := View(s), DoWriterStep(cfg, s);
    StepRequestView(s);
    SameView(s.(ws := Writer.StepRequest(s.ws).0), r);
    if s.ws.idle != [] {
      CutHandle(l, k, c);
      if !Past(l, k) {
        HandleSound(cfg, Cut(l, k, c));
        ReaderUnchanged(cfg, Cut(l, k, c), Cut(l, k, c).(handle := Writer.DoCurWrite));
      }
    }
    CarriedStays(cfg, s, r, k, c);
  }

  /** Writing to a buffer nobody claims. */
  lemma OthersCarried(cfg: Config, issued: seq<Read>, send: seq<seq<Byte>>, recv: seq<seq<Byte>>, wire: seq<RdmaWrite>,
                      cs: seq<Chunk>, claims: seq<int>, b: int, buffer: seq<Byte>, more: seq<RdmaWrite>)
    requires cfg.Valid() && AllCarried(cfg, issued, send, recv, wire, cs, claims)
    requires 0 <= b < |send| && b !in claims
    ensures AllCarried(cfg, issued, send[b := buffer], recv, wire + more, cs, claims)
  {
    var send' := send[b := buffer];
    forall i | 0 <= i < |claims|
      ensures CarriedAt(cfg, issued, send', recv, wire + more, cs[i], claims[i])
    {
      assert CarriedAt(cfg, issued, send, recv, wire, cs[i], claims[i]);
      assert claims[i] in claims;
      CarriesGrows(cfg, issued, send[claims[i]], recv[claims[i]], wire, more, claims[i], cs[i]);
    }
  }

  /** The writer serves a read behind the first `k`. */
  lemma LaterWriteFollows(cfg: Config, s: State, k: nat, c: nat)
    requires Sane(cfg, s) && Owned(cfg, s) && Follows(cfg, s, k, c)
    requires s.ws.handle == Writer.DoCurWrite && !Writer.Throws(cfg, s.ws) && Past(View(s), k)
    ensures Follows(cfg, DoWriterStep(cfg, s), k, c)
  {
    var l, r := View(s), DoWriterStep(cfg, s);
    WriteMovesView(cfg, s);
    CutPost(cfg, l, s.ws.buf, k, c);
    HeldIsNotClaimed(cfg, s);
    assert Claims(r)[..c] == Claims(s)[..c];
    OthersCarried(cfg, First(s.issued, k), s.ws.send, s.rs.recv, s.ws.wire, Incoming(cfg, Cut(l, k, c)), Claims(s)[..c],
                  s.ws.buf, r.ws.send[s.ws.buf], Writes(s.ws.buf, cfg.SgeCount(Writer.NextLen(cfg, s.ws.rec))));
  }

  /** The writer's record, while it serves one of the first `k` reads. */
  lemma CutRecord(cfg: Config, l: Ledger, k: nat, c: nat)
    requires CutSound(cfg, l, k, c) && l.handle != Writer.InitWriteHandle && !Past(l, k)
    ensures 0 <= Popped(l) <= Started(l) - 1 < |First(l.issued, k)|
    ensures l.rec.(offset := 0) == WriterRecord(First(l.issued, k)[Started(l) - 1])
  {
    CutCounts(l, k, c);
    WriterIsNotBehind(cfg, Cut(l, k, c));
  }

  /** What the writer copies is the chunk its own record stands at. */
  lemma CutSource(cfg: Config, s: State, k: nat, n: nat)
    requires Sane(cfg, s) && ReadsInMemory(s) && SourcesKept(s) && s.ws.handle == Writer.DoCurWrite
    requires |s.readDone| <= n < |First(s.issued, k)| && s.ws.rec.(offset := 0) == WriterRecord(First(s.issued, k)[n])
    ensures var t := Chunk(n, s.ws.rec.offset, Writer.NextLen(cfg, s.ws.rec));
            && Fits(cfg, First(s.issued, k), s.ws.send[s.ws.buf], s.rs.recv[s.ws.buf], t)
            && Payload(cfg, First(s.issued, k), Writer.ChunkBytes(cfg, s.src, s.ws.rec), t)
  {
    var rd := First(s.issued, k)[n];
    assert s.issued[n] == rd;
    assert forall p :: 0 <= p < rd.bytes ==> s.src[rd.src + p] == rd.data[p];
    WritePayload(cfg, s.src, s.ws.rec, rd);
  }

  /** The ledger after the writer has served a chunk of the first `k` reads. */
  lemma CutPosted(cfg: Config, l: Ledger, buf: int, k: nat, c: nat)
    requires CutSound(cfg, l, k, c) && l.handle == Writer.DoCurWrite && !Past(l, k) && l.rec.offset <= l.rec.bytes
    ensures var r := Post(cfg, l, buf);
            && CutSound(cfg, r, k, |r.claims|)
            && Expected(cfg, Cut(r, k, |r.claims|)) == Expected(cfg, Cut(l, k, c))
  {
    var r := Post(cfg, l, buf);
    var d := |r.claims|;
    CutPost(cfg, l, buf, k, c);
    PostSound(cfg, Cut(l, k, c), buf);
    if r.handle == Writer.InitWriteHandle {
      AnyRecord(cfg, Post(cfg, Cut(l, k, c), buf), Cut(r, k, d).rec);
    }
    ReaderUnchanged(cfg, Cut(l, k, c), Cut(r, k, d));
  }

  /** The writer's chunk is the next to arrive for the first `k` reads. */
  lemma CutArrives(cfg: Config, l: Ledger, k: nat, c: nat)
    requires CutSound(cfg, l, k, c) && l.handle == Writer.DoCurWrite && !Past(l, k) && l.rec.offset <= l.rec.bytes
    requires cfg.SgeCount(Writer.NextLen(cfg, l.rec)) >= 1
    ensures |l.claims| < |Incoming(cfg, Cut(l, k, c))|
    ensures Incoming(cfg, Cut(l, k, c))[|l.claims|] == Chunk(Started(l) - 1, l.rec.offset, Writer.NextLen(cfg, l.rec))
  {
    CutCounts(l, k, c);
    NextArrives(cfg, Cut(l, k, c));
  }

  lemma NotCalledDone(s: State)
    requires DoneCallbacksInOrder(s)
    ensures |s.readDone| <= CalledBack(s)
  {
  }

  /** The writer serves one of the first `k` reads. */
  lemma WriteFollows(cfg: Config, s: State, k: nat, c: nat) returns (d: nat)
    requires AnyKept(cfg, s) && Follows(cfg, s, k, c)
    requires s.ws.handle == Writer.DoCurWrite && !Writer.Throws(cfg, s.ws) && !Past(View(s), k)
    ensures Follows(cfg, DoWriterStep(cfg, s), k, d)
  {
    var l, r := View(s), DoWriterStep(cfg, s);
    d := |Claims(r)|;
    WriteMovesView(cfg, s);
    CutPosted(cfg, l, s.ws.buf, k, c);
    if cfg.SgeCount(Writer.NextLen(cfg, s.ws.rec)) >= 1 {
      ServedFollows(cfg, s, k, c);
    } else {
      EmptyFollows(cfg, s, k, c);
    }
  }

  /** A chunk without entries changes no buffer. */
  lemma EmptyFollows(cfg: Config, s: State, k: nat, c: nat)
    requires Sane(cfg, s) && Follows(cfg, s, k, c)
    requires s.ws.handle == Writer.DoCurWrite && !Writer.Throws(cfg, s.ws) && !Past(View(s), k)
    requires cfg.SgeCount(Writer.NextLen(cfg, s.ws.rec)) < 1
    requires var r := DoWriterStep(cfg, s);
             && View(r) == Post(cfg, View(s), s.ws.buf) && CutSound(cfg, View(r), k, |Claims(r)|)
             && Expected(cfg, Cut(View(r), k, |Claims(r)|)) == Expected(cfg, Cut(View(s), k, c))
    ensures Follows(cfg, DoWriterStep(cfg, s), k, |Claims(DoWriterStep(cfg, s))|)
  {
    EmptyWrite(cfg, s.src, s.ws);
    var r := DoWriterStep(cfg, s);
    assert Claims(r)[..|Claims(r)|] == Claims(s)[..c];
  }

  lemma IncomingStays(cfg: Config, l: Ledger, r: Ledger)
    requires cfg.Valid() && ReaderBooks(cfg, l) && ReaderBooks(cfg, r)
    requires r.issued == l.issued && Expected(cfg, r) == Expected(cfg, l)
    ensures Incoming(cfg, r) == Incoming(cfg, l)
  {
  }

  lemma CarriedFollows(cfg: Config, r: State, k: nat, d: nat, issued: seq<Read>, cs: seq<Chunk>, claims: seq<int>)
    requires CutSound(cfg, View(r), k, d) && issued == First(r.issued, k) && claims == Claims(r)[..d]
    requires cs == Incoming(cfg, Cut(View(r), k, d))
    requires AllCarried(cfg, issued, r.ws.send, r.rs.recv, r.ws.wire, cs, claims)
    ensures Follows(cfg, r, k, d)
  {
  }

  /** Chunk `t` posted from buffer `b`, as seen by the first `k` reads. */
  lemma PostedFollows(cfg: Config, s: State, r: State, k: nat, c: nat, b: int, bytes: seq<Byte>, t: Chunk)
    requires Follows(cfg, s, k, c) && c == |Claims(s)| && CutSound(cfg, View(r), k, |Claims(r)|)
    requires Expected(cfg, Cut(View(r), k, |Claims(r)|)) == Expected(cfg, Cut(View(s), k, c))
    requires r.issued == s.issued && r.rs == s.rs && Claims(r) == Claims(s) + [b] && b !in Claims(s)
    requires 0 <= b < |s.ws.send| && b < |s.rs.recv| && Fits(cfg, First(s.issued, k), s.ws.send[b], s.rs.recv[b], t)
    requires Payload(cfg, First(s.issued, k), bytes, t)
    requires r.ws.send == s.ws.send[b := Overlay(s.ws.send[b], 0, bytes)]
    requires r.ws.wire == s.ws.wire + Writes(b, cfg.SgeCount(t.len))
    requires c < |Incoming(cfg, Cut(View(s), k, c))| && Incoming(cfg, Cut(View(s), k, c))[c] == t
    ensures Follows(cfg, r, k, |Claims(r)|)
  {
    var issued, cs := First(s.issued, k), Incoming(cfg, Cut(View(s), k, c));
    assert Claims(s)[..c] == Claims(s) && Claims(r)[..|Claims(r)|] == Claims(s) + [b];
    WriteAllCarried(cfg, issued, s.ws.send, s.rs.recv, s.ws.wire, cs, Claims(s), b, bytes);
    IncomingStays(cfg, Cut(View(s), k, c), Cut(View(r), k, |Claims(r)|));
    CarriedFollows(cfg, r, k, |Claims(r)|, issued, cs, Claims(s) + [b]);
  }

  /** The read the writer is on, one of the first `k` and not called done. */
  lemma WriterStands(cfg: Config, l: Ledger, done: nat, k: nat, c: nat) returns (n: nat)
    requires CutSound(cfg, l, k, c) && l.handle != Writer.InitWriteHandle && !Past(l, k) && done <= Popped(l)
    ensures n == Started(l) - 1 && done <= n < |First(l.issued, k)|
    ensures l.rec.(offset := 0) == WriterRecord(First(l.issued, k)[n])
  {
    CutRecord(cfg, l, k, c);
    n := Started(l) - 1;
  }

  /** The chunk the writer is at is theirs, its bytes are at hand, and it arrives next. */
  lemma ServedReady(cfg: Config, s: State, k: nat, c: nat) returns (t: Chunk)
    requires Sane(cfg, s) && ReadsInMemory(s) && SourcesKept(s) && |s.readDone| <= CalledBack(s)
    requires CutSound(cfg, View(s), k, c) && s.ws.handle == Writer.DoCurWrite && !Past(View(s), k)
    requires cfg.SgeCount(Writer.NextLen(cfg, s.ws.rec)) >= 1
    ensures t.len == Writer.NextLen(cfg, s.ws.rec)
    ensures Fits(cfg, First(s.issued, k), s.ws.send[s.ws.buf], s.rs.recv[s.ws.buf], t)
    ensures Payload(cfg, First(s.issued, k), Writer.ChunkBytes(cfg, s.src, s.ws.rec), t)
    ensures c == |Claims(s)| < |Incoming(cfg, Cut(View(s), k, c))| && Incoming(cfg, Cut(View(s), k, c))[c] == t
  {
    var n := WriterStands(cfg, View(s), |s.readDone|, k, c);
    t := Chunk(n, s.ws.rec.offset, Writer.NextLen(cfg, s.ws.rec));
    CutArrives(cfg, View(s), k, c);
    CutSource(cfg, s, k, n);
  }

  lemma WrittenState(cfg: Config, s: State)
    requires Sane(cfg, s) && s.ws.handle == Writer.DoCurWrite && !Writer.Throws(cfg, s.ws)
    ensures var r := DoWriterStep(cfg, s);
            && r.issued == s.issued && r.rs == s.rs
            && r.ws.send == s.ws.send[s.ws.buf := Overlay(s.ws.send[s.ws.buf], 0,
                                                          Writer.ChunkBytes(cfg, s.src, s.ws.rec))]
            && r.ws.wire == s.ws.wire + Writes(s.ws.buf, cfg.SgeCount(Writer.NextLen(cfg, s.ws.rec)))
  {
  }

  lemma ServedFollows(cfg: Config, s: State, k: nat, c: nat)
    requires AnyKept(cfg, s) && Follows(cfg, s, k, c)
    requires s.ws.handle == Writer.DoCurWrite && !Writer.Throws(cfg, s.ws) && !Past(View(s), k)
    requires cfg.SgeCount(Writer.NextLen(cfg, s.ws.rec)) >= 1
    requires var r := DoWriterStep(cfg, s);
             && View(r) == Post(cfg, View(s), s.ws.buf) && CutSound(cfg, View(r), k, |Claims(r)|)
             && Expected(cfg, Cut(View(r), k, |Claims(r)|)) == Expected(cfg, Cut(View(s), k, c))
    ensures Follows(cfg, DoWriterStep(cfg, s), k, |Claims(DoWriterStep(cfg, s))|)
  {
    NotCalledDone(s);
    var t := ServedReady(cfg, s, k, c);
    WrittenState(cfg, s);
    HeldIsNotClaimed(cfg, s);
    PostedFollows(cfg, s, DoWriterStep(cfg, s), k, c, s.ws.buf, Writer.ChunkBytes(cfg, s.src, s.ws.rec), t);
  }

  // ---------------------------------------------------------------- the network

  lemma LandFollows(cfg: Config, s: State, k: nat, c: nat)
    requires Sane(cfg, s) && Follows(cfg, s, k, c) && s.ws.wire != []
    ensures Follows(cfg, DoLand(cfg, s), k, c)
  {
    LandView(cfg, s);
    assert WriteOk(cfg, s.ws.wire[0]);
    LandAllCarried(cfg, First(s.issued, k), s.ws.send, s.rs.recv, s.ws.wire, Incoming(cfg, Cut(View(s), k, c)),
                   Claims(s)[..c]);
  }

  lemma UnclaimedFollows(cfg: Config, s: State, r: State, k: nat, c: nat, b: int)
    requires Follows(cfg, s, k, c) && View(r) == View(s) && r.ws == s.ws && |r.rs.recv| == |s.rs.recv|
    requires b !in Claims(s) && forall x :: 0 <= x < |s.rs.recv| && x != b ==> r.rs.recv[x] == s.rs.recv[x]
    ensures Follows(cfg, r, k, c)
  {
    UnclaimedCarried(cfg, First(s.issued, k), s.ws.send, s.rs.recv, r.rs.recv, s.ws.wire,
                     Incoming(cfg, Cut(View(s), k, c)), Claims(s)[..c]);
  }

  lemma StrayFollows(cfg: Config, s: State, k: nat, c: nat)
    requires Sane(cfg, s) && Owned(cfg, s) && Follows(cfg, s, k, c) && Stray(s)
    ensures Follows(cfg, DoLandStray(cfg, s), k, c)
  {
    StrayView(cfg, s);
    HeldIsNotClaimed(cfg, s);
    StrayBuffers(cfg, s);
    UnclaimedFollows(cfg, s, DoLandStray(cfg, s), k, c, s.ws.buf);
  }

  // ---------------------------------------------------------------- the reader

  lemma PhaseFollows(cfg: Config, s: State, r: State, phase: Reader.Phase, k: nat, c: nat)
    requires Follows(cfg, s, k, c) && View(r) == View(s).(phase := phase)
    requires !FrontDone(View(s)) && !phase.Noted?
    requires phase.Got? || phase.Gathered? ==> s.rs.queue != [] && phase.rec == s.rs.queue[0]
    requires r.ws.send == s.ws.send && r.rs.recv == s.rs.recv && r.ws.wire == s.ws.wire
    ensures Follows(cfg, r, k, c)
  {
    var l := View(s);
    CutPhase(l, phase, k, c);
    CutCounts(l, k, c);
    PhaseSound(cfg, Cut(l, k, c), phase);
    PhaseKeepsExpected(cfg, Cut(l, k, c), phase);
    CarriedStays(cfg, s, r, k, c);
  }

  lemma PopFollows(cfg: Config, s: State, k: nat, c: nat)
    requires Sane(cfg, s) && Follows(cfg, s, k, c) && s.rs.phase.Noted? && s.rs.phase.last && CalledBack(s) + 1 < k
    ensures Follows(cfg, s.(rs := Reader.StepPop(cfg, s.rs)), k, c)
  {
    var l, r := View(s), s.(rs := Reader.StepPop(cfg, s.rs));
    PopView(cfg, s);
    CutPop(l, k, c);
    PopSound(cfg, Cut(l, k, c));
    PopKeepsExpected(cfg, Cut(l, k, c));
    CarriedStays(cfg, s, r, k, c);
  }

  lemma NoteFollows(cfg: Config, s: State, k: nat, c: nat)
    requires Sane(cfg, s) && Follows(cfg, s, k, c) && s.rs.phase.Gathered? && AllServable(cfg, First(s.issued, k))
    ensures c >= 1 && Follows(cfg, s.(rs := Reader.StepNote(cfg, s.rs)), k, c - 1)
  {
    var l, r := View(s), s.(rs := Reader.StepNote(cfg, s.rs));
    HandClaimed(cfg, s, k, c);
    NoteView(cfg, s);
    CutNote(cfg, l, k, c);
    NoteSound(cfg, Cut(l, k, c));
    NoteIncoming(cfg, Cut(l, k, c));
    NoteAllCarried(cfg, First(s.issued, k), s.ws.send, s.rs.recv, s.ws.wire, Incoming(cfg, Cut(l, k, c)),
                   Claims(s)[..c]);
    assert Claims(s)[..c][1..] == Claims(r)[..c - 1];
  }

  lemma HandClaimed(cfg: Config, s: State, k: nat, c: nat)
    requires Reader.WellFormed(cfg, s.rs) && CutSound(cfg, View(s), k, c) && AllServable(cfg, First(s.issued, k))
    requires s.rs.phase.Got? || s.rs.phase.Gathered?
    ensures c >= 1 && Claims(s) != [] && Claims(s)[0] == s.rs.phase.buf
  {
    FrontIsClaimed(cfg, View(s), k, c);
  }

  lemma PollFollows(cfg: Config, s: State, k: nat, c: nat)
    requires Sane(cfg, s) && Follows(cfg, s, k, c) && Enabled(cfg, s, Poll)
    ensures Follows(cfg, DoPoll(cfg, s), k, c)
  {
    PollView(cfg, s);
    if s.cq[0] == INT_MAX {
      SameCut(cfg, s, DoPoll(cfg, s), k, c);
    } else {
      PhaseFollows(cfg, s, DoPoll(cfg, s), Reader.Got(s.cq[0], s.rs.queue[0]), k, c);
    }
  }

  lemma GatherFollows(cfg: Config, s: State, k: nat, c: nat)
    requires Sane(cfg, s) && Follows(cfg, s, k, c) && s.rs.phase.Got?
    ensures Follows(cfg, s.(rs := Reader.StepGather(cfg, s.rs)), k, c)
  {
    GatherView(cfg, s);
    PhaseFollows(cfg, s, s.(rs := Reader.StepGather(cfg, s.rs)), Reader.Gathered(s.rs.phase.buf, s.rs.phase.rec), k, c);
  }

  lemma FreeFollows(cfg: Config, s: State, k: nat, c: nat)
    requires Sane(cfg, s) && Follows(cfg, s, k, c) && (s.rs.phase.Sending? || (s.rs.phase.Noted? && !s.rs.phase.last))
    ensures Follows(cfg, s.(rs := Reader.StepFree(s.rs), posted := s.posted + 1), k, c)
  {
    FreeView(s);
    PhaseFollows(cfg, s, s.(rs := Reader.StepFree(s.rs), posted := s.posted + 1), Reader.Idle, k, c);
  }

  lemma ReaderFollows(cfg: Config, s: State, l: Label, k: nat, c: nat)
    requires Sane(cfg, s) && Follows(cfg, s, k, c) && Enabled(cfg, s, l) && ByReader(l) && !l.NoteStep?
    requires l.PopStep? ==> CalledBack(s) + 1 < k
    ensures Follows(cfg, Next(cfg, s, l), k, c)
  {
    match l {
      case Poll => PollFollows(cfg, s, k, c);
      case GatherStep => GatherFollows(cfg, s, k, c);
      case PopStep => PopFollows(cfg, s, k, c);
      case FreeStep => FreeFollows(cfg, s, k, c);
    }
  }

  lemma WriterFollows(cfg: Config, s: State, k: nat, c: nat) returns (d: nat)
    requires AnyKept(cfg, s) && Follows(cfg, s, k, c) && !Writer.Throws(cfg, s.ws)
    ensures Follows(cfg, DoWriterStep(cfg, s), k, d)
  {
    d := c;
    match s.ws.handle {
      case InitWriteHandle => InitFollows(cfg, s, k, c);
      case RequestBuffer => RequestFollows(cfg, s, k, c);
      case DoCurWrite =>
        if Past(View(s), k) {
          LaterWriteFollows(cfg, s, k, c);
        } else {
          d := WriteFollows(cfg, s, k, c);
        }
    }
  }

  lemma OtherFollows(cfg: Config, s: State, l: Label, k: nat, c: nat)
    requires Sane(cfg, s) && Owned(cfg, s) && Follows(cfg, s, k, c) && Enabled(cfg, s, l) && AgreesUpTo(s, l, k)
    requires !ByReader(l) && !l.WriterStep?
    ensures Follows(cfg, Next(cfg, s, l), k, c)
  {
    match l {
      case DoRead(_, _, _, _) => DoReadFollows(cfg, s, l, k, c);
      case SendRequest(_) => SendFollows(cfg, s, l, k, c);
      case Land => LandFollows(cfg, s, k, c);
      case LandStray => StrayFollows(cfg, s, k, c);
      case _ => QuietFollows(cfg, s, l, k, c);
    }
  }

  lemma UnmovedFollows(cfg: Config, s: State, l: Label, k: nat, c: nat)
    requires Sane(cfg, s) && Owned(cfg, s) && Follows(cfg, s, k, c) && Enabled(cfg, s, l) && AgreesUpTo(s, l, k)
    requires !l.WriterStep? && !l.NoteStep? && (l.PopStep? ==> CalledBack(s) + 1 < k)
    ensures Follows(cfg, Next(cfg, s, l), k, c)
  {
    if ByReader(l) {
      ReaderFollows(cfg, s, l, k, c);
    } else {
      OtherFollows(cfg, s, l, k, c);
    }
  }

  /** With some number of buffers claimed. */
  ghost predicate CarriesFirst(cfg: Config, r: State, k: nat) {
    exists c: nat :: Follows(cfg, r, k, c)
  }

  lemma NoteKeeps(cfg: Config, s: State, k: nat)
    requires Sane(cfg, s) && CarriesFirst(cfg, s, k) && AllServable(cfg, First(s.issued, k)) && s.rs.phase.Gathered?
    ensures CarriesFirst(cfg, Next(cfg, s, NoteStep), k)
  {
    var c: nat :| Follows(cfg, s, k, c);
    NoteFollows(cfg, s, k, c);
    assert Follows(cfg, Next(cfg, s, NoteStep), k, c - 1);
  }

  lemma WriterKeeps(cfg: Config, s: State, k: nat)
    requires AnyKept(cfg, s) && CarriesFirst(cfg, s, k) && Enabled(cfg, s, WriterStep)
    ensures CarriesFirst(cfg, Next(cfg, s, WriterStep), k)
  {
    var c: nat :| Follows(cfg, s, k, c);
    var d := WriterFollows(cfg, s, k, c);
    assert Follows(cfg, Next(cfg, s, WriterStep), k, d);
  }

  lemma OthersKeep(cfg: Config, s: State, l: Label, k: nat)
    requires Sane(cfg, s) && Owned(cfg, s) && CarriesFirst(cfg, s, k) && Enabled(cfg, s, l) && AgreesUpTo(s, l, k)
    requires !l.WriterStep? && !l.NoteStep? && (l.PopStep? ==> CalledBack(s) + 1 < k)
    ensures CarriesFirst(cfg, Next(cfg, s, l), k)
  {
    var c: nat :| Follows(cfg, s, k, c);
    UnmovedFollows(cfg, s, l, k, c);
    assert Follows(cfg, Next(cfg, s, l), k, c);
  }

  lemma StepCarries(cfg: Config, s: State, l: Label, k: nat)
    requires AnyKept(cfg, s) && CarriesFirst(cfg, s, k) && AllServable(cfg, First(s.issued, k))
    requires Enabled(cfg, s, l) && AgreesUpTo(s, l, k) && (l.PopStep? ==> CalledBack(s) + 1 < k)
    ensures CarriesFirst(cfg, Next(cfg, s, l), k)
  {
    if l.NoteStep? {
      NoteKeeps(cfg, s, k);
    } else if l.WriterStep? {
      WriterKeeps(cfg, s, k);
    } else {
      OthersKeep(cfg, s, l, k);
    }
  }

  // ---------------------------------------------------------------- destinations

  lemma CutDoRead(cfg: Config, s: State, l: Label, k: nat)
    requires Sane(cfg, s) && CutDests(cfg, s, k) && CalledBack(s) < k && Enabled(cfg, s, l) && l.DoRead?
    requires Reader.WellFormed(cfg, Next(cfg, s, l).rs)
    ensures CutDests(cfg, Next(cfg, s, l), k)
  {
    var r := Next(cfg, s, l);
    var x := r.issued[|s.issued|];
    DoReadProgress(cfg, s.rs, WorkRecord(l.dstAddr, l.bytes, 0, l.cb));
    if |s.issued| < k {
      assert First(s.issued, k) == s.issued && First(r.issued, k) == s.issued + [x];
      ServedGrows(cfg, s.issued, x);
      IssueDests(cfg, s.issued, Served(cfg, All(cfg, s.issued)), Served(cfg, All(cfg, s.issued + [x])), s.rs.dst,
                 CalledBack(s), Progress(cfg, s.rs), x);
    } else {
      assert First(r.issued, k) == First(s.issued, k);
    }
  }

  lemma CutStore(cfg: Config, s: State, l: Label, k: nat)
    requires Sane(cfg, s) && CutDests(cfg, s, k) && Enabled(cfg, s, l) && l.DstStore?
    ensures Reader.WellFormed(cfg, Next(cfg, s, l).rs) && CutDests(cfg, Next(cfg, s, l), k)
  {
    var issued := First(s.issued, k);
    StoreDests(cfg, issued, Served(cfg, All(cfg, issued)), s.rs.dst, CalledBack(s), Progress(cfg, s.rs), l.addr, l.val);
  }

  /** The buffer in hand holds the chunk the front record stands at. */
  lemma CutInHand(cfg: Config, s: State, k: nat, c: nat)
    requires Sane(cfg, s) && Owned(cfg, s) && Wired(s.ws.wire) && Follows(cfg, s, k, c)
    requires s.rs.phase.Got? && AllServable(cfg, First(s.issued, k))
    ensures var g, n := Served(cfg, All(cfg, First(s.issued, k))), Consumed(cfg, Cut(View(s), k, c));
            && 0 <= n < |g| && Delivered(cfg, First(s.issued, k), s.rs.recv[s.rs.phase.buf], g[n])
  {
    var l := Cut(View(s), k, c);
    var issued := First(s.issued, k);
    var g, n := Served(cfg, All(cfg, issued)), Consumed(cfg, l);
    HandClaimed(cfg, s, k, c);
    StreamsStand(cfg, l);
    FirstOfDrop(g, n);
    assert Claims(s)[..c][0] == s.rs.phase.buf;
    assert CarriedAt(cfg, issued, s.ws.send, s.rs.recv, s.ws.wire, g[n], s.rs.phase.buf);
    NotOnWire(cfg, s, s.rs.phase.buf);
    LandedIsDelivered(cfg, issued, s.ws.send, s.rs.recv, s.ws.wire, s.rs.phase.buf, g[n]);
  }

  lemma CutStands(cfg: Config, l: Ledger, k: nat, c: nat)
    requires CutSound(cfg, l, k, c) && l.phase.Got?
    ensures l.queue != [] && RecordAt(cfg, l.queue[0], First(l.issued, k), Popped(l), Consumed(cfg, Cut(l, k, c)))
  {
    var cut := Cut(l, k, c);
    CutCounts(l, k, c);
    ConsumedAt(cfg, cut);
    assert cut.queue[0].(offset := 0) == ReaderRecord(cut.issued[Popped(cut)]);
  }

  lemma ReaderGathersAt(cfg: Config, v: Reader.ReadSide, issued: seq<Read>, g: seq<Chunk>, at: int, n: int)
    requires Reader.WellFormed(cfg, v) && v.phase.Got? && RecordAt(cfg, v.queue[0], issued, at, n)
    requires DestsHold(cfg, issued, g, v.dst, at, Progress(cfg, v))
    requires 0 <= n < |g| && Delivered(cfg, issued, v.recv[v.phase.buf], g[n])
    ensures var r := Reader.StepGather(cfg, v);
            && Reader.WellFormed(cfg, r) && |r.queue| == |v.queue|
            && DestsHold(cfg, issued, g, r.dst, at, Progress(cfg, r))
  {
    GatherProgress(cfg, v);
    RecordGathers(cfg, v.dst, v.queue[0], v.recv[v.phase.buf], issued, g, at, n);
  }

  lemma CutGather(cfg: Config, s: State, k: nat, c: nat)
    requires Sane(cfg, s) && Owned(cfg, s) && Wired(s.ws.wire) && Follows(cfg, s, k, c) && CutDests(cfg, s, k)
    requires s.rs.phase.Got? && AllServable(cfg, First(s.issued, k))
    ensures var rs := Reader.StepGather(cfg, s.rs);
            Reader.WellFormed(cfg, rs) && CutDests(cfg, s.(rs := rs), k)
  {
    CutInHand(cfg, s, k, c);
    CutStands(cfg, View(s), k, c);
    ReaderGathersAt(cfg, s.rs, First(s.issued, k), Served(cfg, All(cfg, First(s.issued, k))), CalledBack(s),
                    Consumed(cfg, Cut(View(s), k, c)));
  }

  lemma CutPopped(cfg: Config, s: State, k: nat)
    requires Sane(cfg, s) && ReaderBooks(cfg, View(s)) && CutDests(cfg, s, k) && CalledBack(s) + 1 < k
    requires s.rs.phase.Noted? && s.rs.phase.last
    ensures var rs := Reader.StepPop(cfg, s.rs);
            Reader.WellFormed(cfg, rs) && CutDests(cfg, s.(rs := rs), k)
  {
    var rs := Reader.StepPop(cfg, s.rs);
    if rs.queue != [] {
      assert rs.queue[0] == View(s).queue[1];
    }
    assert Progress(cfg, rs) == 0;
    PopDests(cfg, First(s.issued, k), Served(cfg, All(cfg, First(s.issued, k))), s.rs.dst, CalledBack(s),
             Progress(cfg, s.rs));
  }

  lemma CutStaysPut(cfg: Config, s: State, l: Label, k: nat)
    requires Sane(cfg, s) && CutDests(cfg, s, k) && Enabled(cfg, s, l)
    requires !l.DoRead? && !l.DstStore? && !l.GatherStep? && !l.PopStep?
    requires Reader.WellFormed(cfg, Next(cfg, s, l).rs)
    ensures CutDests(cfg, Next(cfg, s, l), k)
  {
    StaysPut(cfg, s, l);
  }

  lemma StepDests(cfg: Config, s: State, l: Label, k: nat)
    requires Sane(cfg, s) && ReaderBooks(cfg, View(s)) && Owned(cfg, s) && Wired(s.ws.wire)
    requires CarriesFirst(cfg, s, k) && CutDests(cfg, s, k) && AllServable(cfg, First(s.issued, k))
    requires Enabled(cfg, s, l) && (l.PopStep? ==> CalledBack(s) + 1 < k)
    requires Reader.WellFormed(cfg, Next(cfg, s, l).rs)
    ensures CutDests(cfg, Next(cfg, s, l), k)
  {
    if l.GatherStep? {
      var c: nat :| Follows(cfg, s, k, c);
      CutGather(cfg, s, k, c);
    } else {
      UngatheredDests(cfg, s, l, k);
    }
  }

  lemma UngatheredDests(cfg: Config, s: State, l: Label, k: nat)
    requires Sane(cfg, s) && ReaderBooks(cfg, View(s)) && CutDests(cfg, s, k) && CalledBack(s) < k
    requires Enabled(cfg, s, l) && !l.GatherStep? && (l.PopStep? ==> CalledBack(s) + 1 < k)
    requires Reader.WellFormed(cfg, Next(cfg, s, l).rs)
    ensures CutDests(cfg, Next(cfg, s, l), k)
  {
    match l {
      case DoRead(_, _, _, _) => CutDoRead(cfg, s, l, k);
      case DstStore(_, _) => CutStore(cfg, s, l, k);
      case PopStep => CutPopped(cfg, s, k);
      case _ => CutStaysPut(cfg, s, l, k);
    }
  }

  // ---------------------------------------------------------------- runs

  /** What holds of the first `k` reads until the last of them is called back. */
  ghost predicate FirstKept(cfg: Config, s: State, k: nat) {
    && AnyKept(cfg, s)
    && (CalledBack(s) < k && AllServable(cfg, First(s.issued, k)) ==> CarriesFirst(cfg, s, k) && CutDests(cfg, s, k))
  }

  /** Before the first read the ledger is empty. */
  lemma EmptyCut(cfg: Config, l: Ledger, k: nat)
    requires Sound(cfg, l) && k > 0 && l.issued == [] && l.claims == [] && l.handle == Writer.InitWriteHandle
    ensures CutSound(cfg, l, k, 0)
  {
    assert l.claims[..0] == l.claims;
    assert Cut(l, k, 0) == l;
  }

  lemma InitialEmpty(cfg: Config, s: State)
    requires InitialState(cfg, s)
    ensures Core(cfg, s) && View(s).issued == [] && View(s).claims == [] && s.ws.handle == Writer.InitWriteHandle
  {
    InitialIsCore(cfg, s);
    assert s.rs.sent + s.unsent == [] && Flying(s.cq, s.ws.wire) == [];
  }

  lemma NothingClaimed(cfg: Config, s: State, k: nat)
    requires CutSound(cfg, View(s), k, 0)
    ensures CarriesFirst(cfg, s, k)
  {
    assert Claims(s)[..0] == [];
    assert Follows(cfg, s, k, 0);
  }

  lemma AllDests(cfg: Config, s: State, k: nat)
    requires Reader.WellFormed(cfg, s.rs) && Destinations(cfg, s) && |s.issued| <= k
    ensures CutDests(cfg, s, k)
  {
    assert First(s.issued, k) == s.issued;
  }

  lemma InitialCut(cfg: Config, s: State, k: nat)
    requires Core(cfg, s) && View(s).issued == [] && View(s).claims == [] && s.ws.handle == Writer.InitWriteHandle
    requires k > 0
    ensures CarriesFirst(cfg, s, k) && CutDests(cfg, s, k)
  {
    EmptyCut(cfg, View(s), k);
    NothingClaimed(cfg, s, k);
    AllDests(cfg, s, k);
  }

  lemma InitialFirst(cfg: Config, s: State, k: nat)
    requires InitialState(cfg, s)
    ensures FirstKept(cfg, s, k)
  {
    InitialIsAnyKept(cfg, s);
    InitialEmpty(cfg, s);
    if k > 0 {
      InitialCut(cfg, s, k);
    }
  }

  lemma FirstServable(cfg: Config, issued: seq<Read>, more: seq<Read>, k: nat)
    requires cfg.Valid() && issued <= more && AllServable(cfg, First(more, k))
    ensures AllServable(cfg, First(issued, k))
  {
    assert forall i :: 0 <= i < |First(issued, k)| ==> First(issued, k)[i] == First(more, k)[i];
  }

  lemma StepFirst(cfg: Config, s: State, l: Label, k: nat)
    requires FirstKept(cfg, s, k) && Enabled(cfg, s, l) && AgreesUpTo(s, l, k)
    ensures FirstKept(cfg, Next(cfg, s, l), k)
  {
    var r := Next(cfg, s, l);
    StepAnyKept(cfg, s, l);
    Continuations.StepCalls(cfg, s, l);
    IssuedGrows(cfg, s, l);
    if CalledBack(r) < k && AllServable(cfg, First(r.issued, k)) {
      FirstServable(cfg, s.issued, r.issued, k);
      StepCarries(cfg, s, l, k);
      StepDests(cfg, s, l, k);
    }
  }

  ghost predicate OrderedUpTo(states: seq<State>, labels: seq<Label>, k: nat, i: int) {
    i <= |labels| < |states| && forall j :: 0 <= j < i ==> AgreesUpTo(states[j], labels[j], k)
  }

  lemma {:induction false} RunFirst(cfg: Config, states: seq<State>, labels: seq<Label>, i: nat, k: nat)
    requires IsRunInAnyOrder(cfg, states, labels) && i <= |labels| && OrderedUpTo(states, labels, k, i)
    ensures FirstKept(cfg, states[i], k)
  {
    if i == 0 {
      InitialFirst(cfg, states[0], k);
    } else {
      RunFirst(cfg, states, labels, i - 1, k);
      assert AgreesUpTo(states[i - 1], labels[i - 1], k);
      StepFirst(cfg, states[i - 1], labels[i - 1], k);
    }
  }

  lemma FirstIs(cfg: Config, issued: seq<Read>, k: nat)
    requires cfg.Valid() && k < |issued| && AllServable(cfg, First(issued, k + 1))
    ensures First(issued, k + 1)[k] == issued[k] && AllServable(cfg, First(issued, k + 1)[..k + 1])
  {
    assert First(issued, k + 1)[..k + 1] == First(issued, k + 1);
  }

  lemma DestsArrived(cfg: Config, s: State, k: nat)
    requires cfg.Valid() && Reader.WellFormed(cfg, s.rs) && CutDests(cfg, s, k + 1) && CalledBack(s) == k < |s.issued|
    requires Progress(cfg, s.rs) == s.issued[k].bytes && AllServable(cfg, First(s.issued, k + 1))
    ensures DestinationIs(cfg, s.rs.dst, s.issued[k])
  {
    FirstIs(cfg, s.issued, k);
    FilledIsWanted(cfg, First(s.issued, k + 1), k, s.rs.dst);
    WantedIsDestination(cfg, s.rs.dst, s.issued[k]);
  }

  lemma PopFirst(cfg: Config, s: State, k: nat)
    requires FirstKept(cfg, s, k + 1) && Enabled(cfg, s, PopStep) && CalledBack(s) == k
    requires AllServable(cfg, First(s.issued, k + 1))
    ensures k < |s.issued| && DestinationIs(cfg, s.rs.dst, s.issued[k])
    ensures s.rs.queue != [] && s.rs.queue[0].cb == s.issued[k].cb
  {
    FrontIsDone(cfg, s);
    DestsArrived(cfg, s, k);
  }

  /** Integrity of read `k` in every run in which the requests of reads 0 to k are posted in
      order, whatever overtakes what behind them: if reads 0 to k are servable, the callback
      of read k is called over its own bytes. */
  lemma DeliveredWhateverFollows(cfg: Config, states: seq<State>, labels: seq<Label>, i: nat)
    requires IsRunInAnyOrder(cfg, states, labels) && i < |labels| && labels[i].PopStep?
    requires CalledBack(states[i]) >= 0 && OrderedUpTo(states, labels, CalledBack(states[i]) + 1, i)
    requires cfg.Valid() && AllServable(cfg, First(states[i].issued, CalledBack(states[i]) + 1))
    ensures var k := CalledBack(states[i]);
            && 0 <= k < |states[i].issued|
            && (exists j :: 0 <= j < i && Issued(states, labels, j, k, states[i].issued[k]))
            && Reader.Fires(states[i].rs.fired, states[i + 1].rs.fired, states[i].issued[k].cb)
            && states[i + 1].rs.dst == states[i].rs.dst
            && DestinationIs(cfg, states[i].rs.dst, states[i].issued[k])
  {
    var s := states[i];
    RunFirst(cfg, states, labels, i, CalledBack(s) + 1);
    PopFirst(cfg, s, CalledBack(s));
    EveryReadWasIssued(cfg, states, labels, i, CalledBack(s));
    PopCalls(cfg, s);
  }
}
