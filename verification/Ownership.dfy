/** Who holds each buffer id, and what the wire says about it. */
module Ownership {
  import opened Config
  import opened Messages
  import opened System
  import opened Stream
  import opened Ledger
  import opened Books
  import Writer
  import Reader

  function Ids(n: nat): (r: seq<int>)
    ensures |r| == n && forall i :: 0 <= i < n ==> r[i] == i
  {
    seq(n, i => i)
  }

  lemma {:induction false} IdsOnce(n: nat, b: int)
    ensures multiset(Ids(n))[b] == if 0 <= b < n then 1 else 0
  {
    if n > 0 {
      IdsOnce(n - 1, b);
      assert Ids(n) == Ids(n - 1) + [n - 1];
    }
  }

  /** The buffer requested and not yet written. */
  function Held(ws: Writer.WriteSide): seq<int> {
    if ws.handle == Writer.DoCurWrite then [ws.buf] else []
  }

  /** The buffer the reader's poller is working on. */
  function Reading(p: Reader.Phase): seq<int> {
    if p.Idle? then [] else [p.buf]
  }

  function Union(idle: seq<int>, held: seq<int>, reading: seq<int>, flying: seq<int>, frees: seq<int>): multiset<int> {
    multiset(idle) + multiset(held) + multiset(reading) + multiset(flying) + multiset(frees)
  }

  // The five moves of a buffer id.

  lemma IdleToHeld(idle: seq<int>, held: seq<int>, reading: seq<int>, flying: seq<int>, frees: seq<int>, x: seq<int>)
    ensures Union(idle, x + held, reading, flying, frees) == Union(x + idle, held, reading, flying, frees)
  {
  }

  lemma HeldToFlying(idle: seq<int>, held: seq<int>, reading: seq<int>, flying: seq<int>, frees: seq<int>, x: seq<int>)
    ensures Union(idle, held, reading, flying + x, frees) == Union(idle, x + held, reading, flying, frees)
  {
  }

  lemma FlyingToReading(idle: seq<int>, held: seq<int>, reading: seq<int>, flying: seq<int>, frees: seq<int>,
                        x: seq<int>)
    ensures Union(idle, held, x + reading, flying, frees) == Union(idle, held, reading, x + flying, frees)
  {
  }

  lemma ReadingToFrees(idle: seq<int>, held: seq<int>, reading: seq<int>, flying: seq<int>, frees: seq<int>,
                       x: seq<int>)
    ensures Union(idle, held, reading, flying, frees + x) == Union(idle, held, x + reading, flying, frees)
  {
  }

  lemma FreesToIdle(idle: seq<int>, held: seq<int>, reading: seq<int>, flying: seq<int>, frees: seq<int>, x: seq<int>)
    ensures Union(idle + x, held, reading, flying, frees) == Union(idle, held, reading, flying, x + frees)
  {
  }

  /** Every place a buffer id can be: idle, held by the writer, with the reader, on the
      wire or landed but unread, on its way back. */
  function Places(s: State): multiset<int> {
    Union(s.ws.idle, Held(s.ws), Reading(s.rs.phase), Tags(Flying(s.cq, s.ws.wire)), Frees(s.rs.sent))
  }

  /** Each of the ids 0..N-1 is in at most one place, and no other id is anywhere. */
  ghost predicate Owned(cfg: Config, s: State)
    requires cfg.Valid()
  {
    Places(s) <= multiset(Ids(cfg.bufferNum))
  }

  lemma AtMostOnce(cfg: Config, s: State, b: int)
    requires cfg.Valid() && Owned(cfg, s)
    ensures multiset(s.ws.idle)[b] + multiset(Held(s.ws))[b] + multiset(Reading(s.rs.phase))[b]
            + multiset(Tags(Flying(s.cq, s.ws.wire)))[b] + multiset(Frees(s.rs.sent))[b]
         <= if 0 <= b < cfg.bufferNum then 1 else 0
  {
    IdsOnce(cfg.bufferNum, b);
    assert Places(s)[b] <= multiset(Ids(cfg.bufferNum))[b];
  }

  /** The buffer a step loses: the one held for a chunk that gets no entry. */
  function LostBy(cfg: Config, s: State, l: Label): multiset<int>
    requires Writer.WellFormed(cfg, s.src, s.ws)
  {
    if l.WriterStep? && s.ws.handle == Writer.DoCurWrite && cfg.SgeCount(Writer.NextLen(cfg, s.ws.rec)) < 1
    then multiset{s.ws.buf} else multiset{}
  }

  lemma FreeArrives(sent: seq<CtrlMsg>)
    requires sent != []
    ensures Frees(sent) == FreeOf(sent[0]) + Frees(sent[1..])
  {
  }

  lemma RecvMoves(s: State, reading: seq<int>, flying: seq<int>, frees: seq<int>)
    requires s.rs.sent != []
    ensures Union(DoWriterRecv(s).ws.idle, Held(DoWriterRecv(s).ws), reading, flying, frees)
         == Union(s.ws.idle, Held(s.ws), reading, flying, FreeOf(s.rs.sent[0]) + frees)
  {
    FreesToIdle(s.ws.idle, Held(s.ws), reading, flying, frees, FreeOf(s.rs.sent[0]));
    assert DoWriterRecv(s).ws.idle == s.ws.idle + FreeOf(s.rs.sent[0]);
  }

  lemma WriterRecvPlaces(s: State)
    requires s.rs.sent != []
    ensures Places(DoWriterRecv(s)) == Places(s)
  {
    FreeArrives(s.rs.sent);
    RecvMoves(s, Reading(s.rs.phase), Tags(Flying(s.cq, s.ws.wire)), Frees(s.rs.sent[1..]));
  }

  lemma StepInitPlaces(s: State, r: State)
    requires s.ws.handle == Writer.InitWriteHandle && r.ws == Writer.StepInit(s.ws).0 && r.rs == s.rs && r.cq == s.cq
    ensures Places(r) == Places(s)
  {
    assert r.ws.idle == s.ws.idle && Held(r.ws) == Held(s.ws) && r.ws.wire == s.ws.wire;
  }

  lemma RequestMoves(ws: Writer.WriteSide, reading: seq<int>, flying: seq<int>, frees: seq<int>)
    requires ws.handle == Writer.RequestBuffer
    ensures var r := Writer.StepRequest(ws).0;
            Union(r.idle, Held(r), reading, flying, frees) == Union(ws.idle, Held(ws), reading, flying, frees)
  {
    if ws.idle != [] {
      assert ws.idle == [ws.idle[0]] + ws.idle[1..];
      IdleToHeld(ws.idle[1..], [], reading, flying, frees, [ws.idle[0]]);
      assert [ws.idle[0]] + [] == [ws.idle[0]];
    }
  }

  lemma StepRequestPlaces(s: State, r: State)
    requires s.ws.handle == Writer.RequestBuffer && r.ws == Writer.StepRequest(s.ws).0 && r.rs == s.rs && r.cq == s.cq
    ensures Places(r) == Places(s)
  {
    RequestMoves(s.ws, Reading(s.rs.phase), Tags(Flying(s.cq, s.ws.wire)), Frees(s.rs.sent));
  }

  lemma StepWritePlaces(cfg: Config, s: State, r: State)
    requires Writer.WellFormed(cfg, s.src, s.ws) && s.ws.handle == Writer.DoCurWrite && !Writer.Throws(cfg, s.ws)
    requires r.ws == Writer.StepWrite(cfg, s.src, s.ws).0 && r.rs == s.rs && r.cq == s.cq
    ensures Places(r) + LostBy(cfg, s, WriterStep) == Places(s)
  {
    PostedTags(cfg, s.src, s.ws, s.cq);
    WriteLetsGo(cfg, s.src, s.ws);
    if cfg.SgeCount(Writer.NextLen(cfg, s.ws.rec)) < 1 {
      LetGo(s.ws, r.ws, s.cq, s.rs, true);
    } else {
      LetGo(s.ws, r.ws, s.cq, s.rs, false);
    }
  }

  lemma WriteLetsGo(cfg: Config, src: seq<Byte>, ws: Writer.WriteSide)
    requires Writer.WellFormed(cfg, src, ws) && ws.handle == Writer.DoCurWrite && !Writer.Throws(cfg, ws)
    ensures var r := Writer.StepWrite(cfg, src, ws).0;
            r.handle != Writer.DoCurWrite && r.idle == ws.idle
  {
  }

  lemma LetGo(ws: Writer.WriteSide, r: Writer.WriteSide, cq: seq<int>, rs: Reader.ReadSide, lost: bool)
    requires ws.handle == Writer.DoCurWrite && r.handle != Writer.DoCurWrite && r.idle == ws.idle
    requires Tags(Flying(cq, r.wire)) == Tags(Flying(cq, ws.wire)) + if lost then [] else [ws.buf]
    ensures Union(r.idle, Held(r), Reading(rs.phase), Tags(Flying(cq, r.wire)), Frees(rs.sent))
            + (if lost then multiset{ws.buf} else multiset{})
         == Union(ws.idle, Held(ws), Reading(rs.phase), Tags(Flying(cq, ws.wire)), Frees(rs.sent))
  {
    HeldMoves(ws.idle, ws.buf, Reading(rs.phase), Tags(Flying(cq, ws.wire)), Frees(rs.sent));
  }

  lemma HeldMoves(idle: seq<int>, b: int, reading: seq<int>, flying: seq<int>, frees: seq<int>)
    ensures Union(idle, [], reading, flying + [b], frees) == Union(idle, [b], reading, flying, frees)
    ensures Union(idle, [], reading, flying + [], frees) + multiset{b} == Union(idle, [b], reading, flying, frees)
  {
    HeldToFlying(idle, [], reading, flying, frees, [b]);
    assert [b] + [] == [b] && flying + [] == flying;
  }

  lemma WriterStepPlaces(cfg: Config, s: State)
    requires Sane(cfg, s) && !Writer.Throws(cfg, s.ws)
    ensures Places(DoWriterStep(cfg, s)) + LostBy(cfg, s, WriterStep) == Places(s)
  {
    match s.ws.handle {
      case InitWriteHandle => StepInitPlaces(s, DoWriterStep(cfg, s));
      case RequestBuffer => StepRequestPlaces(s, DoWriterStep(cfg, s));
      case DoCurWrite => StepWritePlaces(cfg, s, DoWriterStep(cfg, s));
    }
  }

  lemma SamePlaces(s: State, r: State)
    requires r.ws == s.ws && r.cq == s.cq
    requires Reading(r.rs.phase) == Reading(s.rs.phase) && Frees(r.rs.sent) == Frees(s.rs.sent)
    ensures Places(r) == Places(s)
  {
  }

  lemma LandPlaces(cfg: Config, s: State)
    requires Sane(cfg, s) && s.ws.wire != []
    ensures Places(DoLand(cfg, s)) == Places(s)
  {
    var r := DoLand(cfg, s);
    assert Flying(r.cq, r.ws.wire) == Flying(s.cq, s.ws.wire);
  }

  lemma StrayPlaces(cfg: Config, s: State)
    requires Sane(cfg, s) && Stray(s)
    ensures Places(DoLandStray(cfg, s)) == Places(s)
  {
    StrayTags(s.cq, s.ws.wire);
  }

  lemma PollMoves(cq: seq<int>, wire: seq<RdmaWrite>)
    requires cq != []
    ensures Tags(Flying(cq, wire)) == TagOf(cq[0]) + Tags(Flying(cq[1..], wire))
  {
    var flying := Flying(cq, wire);
    assert flying[0] == cq[0] && flying[1..] == Flying(cq[1..], wire);
  }

  lemma PollPlaces(cfg: Config, s: State)
    requires Sane(cfg, s) && Enabled(cfg, s, Poll)
    ensures Places(DoPoll(cfg, s)) == Places(s)
  {
    PollMoves(s.cq, s.ws.wire);
    var r := DoPoll(cfg, s);
    assert Reading(r.rs.phase) == TagOf(s.cq[0]) + Reading(s.rs.phase);
    FlyingToReading(s.ws.idle, Held(s.ws), Reading(s.rs.phase), Tags(Flying(r.cq, s.ws.wire)), Frees(s.rs.sent),
                    TagOf(s.cq[0]));
  }

  lemma FreePlaces(s: State)
    requires s.rs.phase.Sending? || (s.rs.phase.Noted? && !s.rs.phase.last)
    ensures Places(s.(rs := Reader.StepFree(s.rs), posted := s.posted + 1)) == Places(s)
  {
    var m := FreeBufferPair(s.rs.phase.buf, s.rs.phase.last);
    FreesAppend(s.rs.sent, m);
    ReadingToFrees(s.ws.idle, Held(s.ws), [], Tags(Flying(s.cq, s.ws.wire)), Frees(s.rs.sent), FreeOf(m));
    assert Reading(s.rs.phase) == FreeOf(m) + [];
  }

  lemma QuietFrees(cfg: Config, s: State, l: Label)
    requires Sane(cfg, s) && Enabled(cfg, s, l)
    requires ByApplication(l) || l.CallReadDone? || l.Throw? || l.GatherStep? || l.NoteStep? || l.PopStep?
    ensures var r := Next(cfg, s, l);
            && r.ws == s.ws && r.cq == s.cq
            && Reading(r.rs.phase) == Reading(s.rs.phase) && Frees(r.rs.sent) == Frees(s.rs.sent)
  {
    if l.SendRequest? {
      FreesAppend(s.rs.sent, l.msg);
    } else {
      assert Next(cfg, s, l).rs.sent == s.rs.sent;
    }
  }

  /** Whatever happens, and in whatever order, an id moves from one place to another, or
      is lost with a chunk that gets no entry; it is never doubled, and once lost never
      comes back. */
  lemma StepPlaces(cfg: Config, s: State, l: Label)
    requires Sane(cfg, s) && Enabled(cfg, s, l)
    ensures Places(Next(cfg, s, l)) + LostBy(cfg, s, l) == Places(s)
    ensures Places(Next(cfg, s, l)) <= Places(s)
  {
    match l {
      case WriterRecv => WriterRecvPlaces(s);
      case WriterStep => WriterStepPlaces(cfg, s);
      case Land => LandPlaces(cfg, s);
      case LandStray => StrayPlaces(cfg, s);
      case Poll => PollPlaces(cfg, s);
      case FreeStep => FreePlaces(s);
      case _ =>
        QuietFrees(cfg, s, l);
        SamePlaces(s, Next(cfg, s, l));
    }
  }

  lemma StepOwned(cfg: Config, s: State, l: Label)
    requires Sane(cfg, s) && Owned(cfg, s) && Enabled(cfg, s, l)
    ensures Owned(cfg, Next(cfg, s, l))
  {
    StepPlaces(cfg, s, l);
  }

  // ---------------------------------------------------------------- lost buffers

  /** Reads the writer has written to their end. */
  function Written(s: State): int {
    WriterAt(View(s)).0
  }

  /** The ids that are in no place are as many as the unservable reads the writer has
      written. */
  ghost predicate Lent(cfg: Config, s: State)
    requires cfg.Valid()
  {
    Missing(cfg, s.issued, Written(s), |Places(s)|)
  }

  ghost predicate Missing(cfg: Config, issued: seq<Read>, written: int, there: nat)
    requires cfg.Valid()
  {
    0 <= written <= |issued| && there + Bad(cfg, issued[..written]) == cfg.bufferNum
  }

  lemma SameMissing(cfg: Config, issued: seq<Read>, more: seq<Read>, written: int, there: nat)
    requires cfg.Valid() && Missing(cfg, issued, written, there) && issued <= more
    ensures Missing(cfg, more, written, there)
  {
    assert more[..written] == issued[..written];
  }

  lemma WriterStays(cfg: Config, s: State, l: Label)
    requires Sane(cfg, s) && Enabled(cfg, s, l) && InOrder(s, l) && !l.WriterStep? && !l.DoRead?
    ensures Next(cfg, s, l).issued == s.issued && Written(Next(cfg, s, l)) == Written(s)
  {
    match l {
      case WriterRecv => WriterRecvView(s);
      case Land => LandView(cfg, s);
      case LandStray => StrayView(cfg, s);
      case Poll => PollView(cfg, s);
      case FreeStep => FreeView(s);
      case GatherStep =>
      case NoteStep =>
      case PopStep =>
      case _ => QuietView(cfg, s, l);
    }
  }

  /** A chunk gets no entry exactly if its read is unservable, and then the writer is
      done with the read. */
  lemma LosesIffUnservable(cfg: Config, l: Ledger)
    requires cfg.Valid() && WriterBooks(cfg, l) && l.handle == Writer.DoCurWrite
    ensures var t := Writer.NextLen(cfg, l.rec);
            && 0 <= Started(l) - 1 < |l.issued|
            && (cfg.SgeCount(t) < 1 <==> !cfg.Servable(l.issued[Started(l) - 1].bytes))
            && (cfg.SgeCount(t) < 1 ==> l.rec.offset + t >= l.rec.bytes)
  {
    var t := Writer.NextLen(cfg, l.rec);
    assert l.issued[Started(l) - 1].bytes == l.rec.bytes;
    if t >= 1 {
      SgeCountOfChunk(cfg, t);
    }
  }

  /** An exception comes of an empty read: the one the writer is on. */
  lemma ThrowsOnEmpty(cfg: Config, s: State)
    requires Sane(cfg, s) && WriterBooks(cfg, View(s)) && Writer.Throws(cfg, s.ws)
    ensures cfg.SgeCount(0) < 0
    ensures 0 <= Written(s) < |s.issued| && s.issued[Written(s)].bytes == 0
  {
    FewEntriesMeansEmpty(cfg, Writer.NextLen(cfg, s.ws.rec));
    LosesIffUnservable(cfg, View(s));
  }

  lemma BadNext(cfg: Config, issued: seq<Read>, w: nat)
    requires cfg.Valid() && w < |issued|
    ensures Bad(cfg, issued[..w + 1]) == Bad(cfg, issued[..w]) + if cfg.Servable(issued[w].bytes) then 0 else 1
  {
    assert issued[..w + 1][..w] == issued[..w];
  }

  /** What a write step does to the number of reads written and of buffers lost. */
  lemma WriterMoves(cfg: Config, s: State)
    requires Sane(cfg, s) && WriterBooks(cfg, View(s)) && !Writer.Throws(cfg, s.ws)
    ensures var r := DoWriterStep(cfg, s);
            && r.issued == s.issued && 0 <= Written(s) <= Written(r) <= |s.issued|
            && Bad(cfg, s.issued[..Written(r)]) == Bad(cfg, s.issued[..Written(s)]) + |LostBy(cfg, s, WriterStep)|
  {
    match s.ws.handle {
      case InitWriteHandle => InitMoves(s, DoWriterStep(cfg, s));
      case RequestBuffer => RequestKeepsWritten(s, DoWriterStep(cfg, s));
      case DoCurWrite =>
        WriteMovesView(cfg, s);
        PostMoves(cfg, View(s), s.ws.buf);
    }
  }

  lemma RequestKeepsWritten(s: State, r: State)
    requires s.ws.handle == Writer.RequestBuffer && r == s.(ws := Writer.StepRequest(s.ws).0, running := r.running)
    ensures Written(r) == Written(s)
  {
    StepRequestView(s);
    SameView(s.(ws := Writer.StepRequest(s.ws).0), r);
  }

  lemma WriteMovesView(cfg: Config, s: State)
    requires Sane(cfg, s) && !Writer.Throws(cfg, s.ws) && s.ws.handle == Writer.DoCurWrite
    ensures View(DoWriterStep(cfg, s)) == Post(cfg, View(s), s.ws.buf)
    ensures |LostBy(cfg, s, WriterStep)| == if cfg.SgeCount(Writer.NextLen(cfg, s.ws.rec)) < 1 then 1 else 0
  {
    StepWriteView(cfg, s);
    SameView(s.(ws := Writer.StepWrite(cfg, s.src, s.ws).0), DoWriterStep(cfg, s));
  }

  lemma SameView(s: State, r: State)
    requires r.issued == s.issued && r.rs == s.rs && r.ws == s.ws && r.cq == s.cq && r.unsent == s.unsent
    ensures View(r) == View(s)
  {
  }

  lemma InitMoves(s: State, r: State)
    requires s.ws.handle == Writer.InitWriteHandle && r == s.(ws := Writer.StepInit(s.ws).0, running := r.running)
    ensures Written(r) == Written(s)
  {
    StepInitView(s);
    SameView(s.(ws := Writer.StepInit(s.ws).0), r);
  }

  lemma PostMoves(cfg: Config, l: Ledger, buf: int)
    requires cfg.Valid() && WriterBooks(cfg, l) && l.handle == Writer.DoCurWrite
    ensures var w, v := WriterAt(l).0, WriterAt(Post(cfg, l, buf)).0;
            && 0 <= w <= v <= |l.issued|
            && Bad(cfg, l.issued[..v]) == Bad(cfg, l.issued[..w])
                                          + if cfg.SgeCount(Writer.NextLen(cfg, l.rec)) < 1 then 1 else 0
  {
    LosesIffUnservable(cfg, l);
    PostAt(cfg, l, buf);
    BadNext(cfg, l.issued, WriterAt(l).0);
  }

  lemma PostAt(cfg: Config, l: Ledger, buf: int)
    requires cfg.Valid() && WriterBooks(cfg, l) && l.handle == Writer.DoCurWrite
    ensures 0 <= WriterAt(l).0 == Started(l) - 1 < |l.issued|
    ensures WriterAt(Post(cfg, l, buf)).0
         == WriterAt(l).0 + if l.rec.offset + Writer.NextLen(cfg, l.rec) < l.rec.bytes then 0 else 1
  {
  }

  lemma WriterStepLent(cfg: Config, s: State)
    requires Sane(cfg, s) && WriterBooks(cfg, View(s)) && Lent(cfg, s) && !Writer.Throws(cfg, s.ws)
    ensures Lent(cfg, DoWriterStep(cfg, s))
  {
    WriterStepPlaces(cfg, s);
    WriterMoves(cfg, s);
    var r := DoWriterStep(cfg, s);
    assert |Places(r) + LostBy(cfg, s, WriterStep)| == |Places(r)| + |LostBy(cfg, s, WriterStep)|;
  }

  lemma StepLent(cfg: Config, s: State, l: Label)
    requires Sane(cfg, s) && WriterBooks(cfg, View(s)) && Lent(cfg, s) && Enabled(cfg, s, l) && InOrder(s, l)
    ensures Lent(cfg, Next(cfg, s, l))
  {
    if l.WriterStep? {
      WriterStepLent(cfg, s);
    } else if l.DoRead? {
      DoReadLent(cfg, s, l);
    } else {
      StepPlaces(cfg, s, l);
      WriterStays(cfg, s, l);
      SameLent(cfg, s, Next(cfg, s, l));
    }
  }

  lemma SameLent(cfg: Config, s: State, r: State)
    requires cfg.Valid() && Lent(cfg, s)
    requires Places(r) == Places(s) && Written(r) == Written(s) && s.issued <= r.issued
    ensures Lent(cfg, r)
  {
    SameMissing(cfg, s.issued, r.issued, Written(s), |Places(s)|);
  }

  lemma DoReadLent(cfg: Config, s: State, l: Label)
    requires Sane(cfg, s) && Lent(cfg, s) && Enabled(cfg, s, l) && l.DoRead?
    ensures Lent(cfg, Next(cfg, s, l))
  {
    StepPlaces(cfg, s, l);
    DoReadView(cfg, s, l.srcAddr, l.dstAddr, l.bytes, l.cb);
    SameLent(cfg, s, Next(cfg, s, l));
  }

  /** All ids are somewhere exactly if none was lost. */
  lemma AllThereIffNoneLost(cfg: Config, s: State)
    requires cfg.Valid() && Owned(cfg, s) && Lent(cfg, s)
    ensures Places(s) == multiset(Ids(cfg.bufferNum)) <==> AllServable(cfg, s.issued[..Written(s)])
  {
    BadIsZero(cfg, s.issued[..Written(s)]);
    assert |multiset(Ids(cfg.bufferNum))| == cfg.bufferNum;
    var rest := multiset(Ids(cfg.bufferNum)) - Places(s);
    assert multiset(Ids(cfg.bufferNum)) == Places(s) + rest;
  }

  // ---------------------------------------------------------------- the wire

  /** The writes of a buffer are followed, on the wire, by the one that names it, and
      after that one there are no more. */
  ghost predicate Wired(wire: seq<RdmaWrite>) {
    && (forall x :: 0 <= x < |wire| && wire[x].imm == INT_MAX ==> NamedLater(wire, x))
    && (forall x, y :: 0 <= x < y < |wire| && wire[x].imm != INT_MAX ==> wire[y].buf != wire[x].buf)
  }

  ghost predicate NamedLater(wire: seq<RdmaWrite>, x: int)
    requires 0 <= x < |wire|
  {
    exists y :: x < y < |wire| && wire[y].imm != INT_MAX && wire[y].buf == wire[x].buf
  }

  ghost predicate Mentions(wire: seq<RdmaWrite>, b: int) {
    exists x :: 0 <= x < |wire| && wire[x].buf == b
  }

  lemma {:induction false} TagsHave(imms: seq<int>, x: nat)
    requires x < |imms| && imms[x] != INT_MAX
    ensures imms[x] in Tags(imms)
  {
    if x > 0 {
      TagsHave(imms[1..], x - 1);
    }
  }

  /** Every buffer with a write on the wire is claimed there. */
  lemma MentionedIsTagged(cfg: Config, wire: seq<RdmaWrite>, b: int)
    requires Wired(wire) && Mentions(wire, b)
    requires forall i :: 0 <= i < |wire| ==> WriteOk(cfg, wire[i])
    ensures multiset(Tags(Imms(wire)))[b] >= 1
  {
    var x :| 0 <= x < |wire| && wire[x].buf == b;
    if wire[x].imm == INT_MAX {
      assert NamedLater(wire, x);
      var y :| x < y < |wire| && wire[y].imm != INT_MAX && wire[y].buf == wire[x].buf;
      TagsHave(Imms(wire), y);
    } else {
      TagsHave(Imms(wire), x);
    }
    assert b in Tags(Imms(wire));
  }

  /** Mutual exclusion: a buffer that is idle, held by the writer, landed and named in
      the completion queue, being read, or on its way back has no write on the wire. */
  lemma NotOnWire(cfg: Config, s: State, b: int)
    requires Sane(cfg, s) && Owned(cfg, s) && Wired(s.ws.wire)
    requires b in s.ws.idle || b in Held(s.ws) || b in Reading(s.rs.phase) || b in Tags(s.cq) || b in Frees(s.rs.sent)
    ensures !Mentions(s.ws.wire, b)
  {
    AtMostOnce(cfg, s, b);
    TagsAppend(s.cq, Imms(s.ws.wire));
    if Mentions(s.ws.wire, b) {
      MentionedIsTagged(cfg, s.ws.wire, b);
    }
  }

  lemma LandWired(wire: seq<RdmaWrite>)
    requires wire != [] && Wired(wire)
    ensures Wired(wire[1..])
  {
    var rest := wire[1..];
    forall x | 0 <= x < |rest| && rest[x].imm == INT_MAX
      ensures NamedLater(rest, x)
    {
      assert wire[x + 1] == rest[x];
      assert NamedLater(wire, x + 1);
      var y :| x + 1 < y < |wire| && wire[y].imm != INT_MAX && wire[y].buf == wire[x + 1].buf;
      assert rest[y - 1] == wire[y];
    }
  }

  lemma PostWired(wire: seq<RdmaWrite>, b: int, count: int)
    requires Wired(wire) && !Mentions(wire, b) && b != INT_MAX
    ensures Wired(wire + Writes(b, count))
  {
    var ws := Writes(b, count);
    var all := wire + ws;
    forall x | 0 <= x < |all| && all[x].imm == INT_MAX
      ensures NamedLater(all, x)
    {
      if x < |wire| {
        assert NamedLater(wire, x);
        var y :| x < y < |wire| && wire[y].imm != INT_MAX && wire[y].buf == wire[x].buf;
        assert all[y] == wire[y];
      } else {
        assert all[x] == ws[x - |wire|];
        assert all[|all| - 1] == ws[count - 1];
      }
    }
    assert forall x :: |wire| <= x < |all| ==> all[x] == ws[x - |wire|];
    forall x, y | 0 <= x < y < |all| && all[x].imm != INT_MAX
      ensures all[y].buf != all[x].buf
    {
      if x < |wire| {
        assert wire[x].buf != b;
      }
    }
  }

  lemma StepWired(cfg: Config, s: State, l: Label)
    requires Sane(cfg, s) && Owned(cfg, s) && Wired(s.ws.wire) && Enabled(cfg, s, l)
    ensures Wired(Next(cfg, s, l).ws.wire)
  {
    if l.Land? {
      LandWired(s.ws.wire);
    } else if l.WriterStep? && s.ws.handle == Writer.DoCurWrite {
      WriteWired(cfg, s);
    } else {
      SameWire(cfg, s, l);
    }
  }

  lemma WriteWired(cfg: Config, s: State)
    requires Sane(cfg, s) && Owned(cfg, s) && Wired(s.ws.wire) && s.ws.handle == Writer.DoCurWrite
    requires !Writer.Throws(cfg, s.ws)
    ensures Wired(DoWriterStep(cfg, s).ws.wire)
  {
    NotOnWire(cfg, s, s.ws.buf);
    PostWired(s.ws.wire, s.ws.buf, cfg.SgeCount(Writer.NextLen(cfg, s.ws.rec)));
  }

  lemma SameWire(cfg: Config, s: State, l: Label)
    requires Sane(cfg, s) && Enabled(cfg, s, l)
    requires !l.Land? && !(l.WriterStep? && s.ws.handle == Writer.DoCurWrite)
    ensures Next(cfg, s, l).ws.wire == s.ws.wire
  {
  }
}
