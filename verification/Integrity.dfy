/**
 End-to-end integrity, in every run.  The claimed buffers carry the chunks that get an
 entry, in order; no buffer is overwritten before it is read; and the destination of the
 front read holds what has arrived for it.
 */
module Integrity {
  import opened Config
  import opened Messages
  import opened Options
  import opened System
  import opened Stream
  import opened Ledger
  import opened Books
  import opened Invariant
  import opened Ownership
  import opened Delivery
  import Writer
  import Reader

  ghost predicate CarriedAt(cfg: Config, issued: seq<Read>, send: seq<seq<Byte>>, recv: seq<seq<Byte>>,
                        wire: seq<RdmaWrite>, c: Chunk, b: int)
    requires cfg.Valid()
  {
    && 0 <= b < |send| && b < |recv|
    && Fits(cfg, issued, send[b], recv[b], c)
    && Carries(cfg, issued, send[b], recv[b], wire, b, c)
  }

  /** Claimed buffer i carries chunk i. */
  ghost predicate AllCarried(cfg: Config, issued: seq<Read>, send: seq<seq<Byte>>, recv: seq<seq<Byte>>,
                        wire: seq<RdmaWrite>, cs: seq<Chunk>, claims: seq<int>)
    requires cfg.Valid()
  {
    && |claims| <= |cs|
    && forall i :: 0 <= i < |claims| ==> CarriedAt(cfg, issued, send, recv, wire, cs[i], claims[i])
  }

  ghost predicate Carried(cfg: Config, s: State)
    requires cfg.Valid() && ReaderBooks(cfg, View(s))
  {
    AllCarried(cfg, s.issued, s.ws.send, s.rs.recv, s.ws.wire, Incoming(cfg, View(s)), Claims(s))
  }

  /** How far the front read has been copied out. */
  function Progress(cfg: Config, v: Reader.ReadSide): nat
    requires Reader.WellFormed(cfg, v)
  {
    if v.queue == [] then 0
    else if v.phase.Gathered? then v.queue[0].offset + Reader.NextLen(cfg, v.queue[0])
    else v.queue[0].offset
  }

  /** Outstanding reads, those from number `k` on, have disjoint destinations; the front
      one is filled up to its progress, the others are untouched. */
  ghost predicate DestsHold(cfg: Config, issued: seq<Read>, g: seq<Chunk>, dst: seq<Byte>, k: int, done: nat)
    requires cfg.Valid()
  {
    && 0 <= k <= |issued|
    && (forall i, j :: k <= i < j < |issued| ==>
          Disjoint(issued[i].dst, issued[i].bytes, issued[j].dst, issued[j].bytes))
    && (k < |issued| ==> Filled(cfg, issued, g, Slot(cfg, issued, k), dst, issued[k], done))
    && (forall i :: k < i < |issued| ==> Untouched(dst, issued[i]))
  }

  ghost predicate Destinations(cfg: Config, s: State)
    requires Reader.WellFormed(cfg, s.rs)
  {
    DestsHold(cfg, s.issued, Served(cfg, All(cfg, s.issued)), s.rs.dst, CalledBack(s), Progress(cfg, s.rs))
  }

  /** The global invariant of every run. */
  ghost predicate Core(cfg: Config, s: State) {
    && Kept(cfg, s)
    && Owned(cfg, s)
    && Lent(cfg, s)
    && Wired(s.ws.wire)
    && Carried(cfg, s)
    && Destinations(cfg, s)
  }

  lemma InitialIsCore(cfg: Config, s: State)
    requires InitialState(cfg, s)
    ensures Core(cfg, s)
  {
    InitialIsKept(cfg, s);
    assert s.ws.idle == Ids(cfg.bufferNum);
    assert Flying(s.cq, s.ws.wire) == [];
  }

  // ---------------------------------------------------------------- buffers

  /** The bytes the writer copies are those of the read at the record's offset. */
  lemma WritePayload(cfg: Config, src: seq<Byte>, rec: WorkRecord, r: Read)
    requires cfg.Valid() && Writer.RecordOk(src, rec) && rec.(offset := 0) == WriterRecord(r)
    requires |r.data| == r.bytes
    requires forall p :: 0 <= p < r.bytes ==> src[r.src + p] == r.data[p]
    ensures var bytes := Writer.ChunkBytes(cfg, src, rec);
            forall p :: 0 <= p < |bytes| ==> bytes[p] == r.data[rec.offset + p]
  {
    var bytes := Writer.ChunkBytes(cfg, src, rec);
    forall p | 0 <= p < |bytes|
      ensures bytes[p] == r.data[rec.offset + p]
    {
      assert bytes[p] == src[r.src + (rec.offset + p)];
    }
  }

  lemma HeldIsNotClaimed(cfg: Config, s: State)
    requires Sane(cfg, s) && Owned(cfg, s) && s.ws.handle == Writer.DoCurWrite
    ensures s.ws.buf !in Claims(s)
  {
    AtMostOnce(cfg, s, s.ws.buf);
    assert multiset(Held(s.ws))[s.ws.buf] == 1;
    assert forall x :: x in InHand(s.rs.phase) ==> x in Reading(s.rs.phase);
  }

  lemma WriteAllCarried(cfg: Config, issued: seq<Read>, send: seq<seq<Byte>>, recv: seq<seq<Byte>>,
                        wire: seq<RdmaWrite>,
                        cs: seq<Chunk>, claims: seq<int>, b: int, bytes: seq<Byte>)
    requires cfg.Valid() && AllCarried(cfg, issued, send, recv, wire, cs, claims) && |claims| < |cs|
    requires 0 <= b < |send| && b < |recv| && b !in claims
    requires Fits(cfg, issued, send[b], recv[b], cs[|claims|])
    requires Payload(cfg, issued, bytes, cs[|claims|])
    ensures AllCarried(cfg, issued, send[b := Overlay(send[b], 0, bytes)], recv,
                       wire + Writes(b, cfg.SgeCount(cs[|claims|].len)), cs, claims + [b])
  {
    var c := cs[|claims|];
    var send' := send[b := Overlay(send[b], 0, bytes)];
    var ws := Writes(b, cfg.SgeCount(c.len));
    forall i | 0 <= i < |claims + [b]|
      ensures CarriedAt(cfg, issued, send', recv, wire + ws, cs[i], (claims + [b])[i])
    {
      if i < |claims| {
        assert CarriedAt(cfg, issued, send, recv, wire, cs[i], claims[i]);
        assert claims[i] in claims;
        CarriesGrows(cfg, issued, send[claims[i]], recv[claims[i]], wire, ws, claims[i], cs[i]);
      } else {
        PostCarries(cfg, issued, c, send[b], recv[b], wire, b, bytes);
      }
    }
  }

  lemma LandAllCarried(cfg: Config, issued: seq<Read>, send: seq<seq<Byte>>, recv: seq<seq<Byte>>, wire: seq<RdmaWrite>,
                       cs: seq<Chunk>, claims: seq<int>)
    requires cfg.Valid() && AllCarried(cfg, issued, send, recv, wire, cs, claims)
    requires wire != [] && WriteOk(cfg, wire[0]) && |send| == |recv| == cfg.bufferNum
    requires |send[wire[0].buf]| == |recv[wire[0].buf]| == cfg.bufferBytes
    ensures var w := wire[0];
            AllCarried(cfg, issued, send, recv[w.buf := LandBlock(cfg, recv[w.buf], send[w.buf], w.sge)], wire[1..],
                       cs, claims)
  {
    var w := wire[0];
    var recv' := recv[w.buf := LandBlock(cfg, recv[w.buf], send[w.buf], w.sge)];
    forall i | 0 <= i < |claims|
      ensures CarriedAt(cfg, issued, send, recv', wire[1..], cs[i], claims[i])
    {
      assert CarriedAt(cfg, issued, send, recv, wire, cs[i], claims[i]);
      LandCarries(cfg, issued, send[claims[i]], recv[claims[i]], wire, claims[i], cs[i]);
    }
  }

  lemma NoteAllCarried(cfg: Config, issued: seq<Read>, send: seq<seq<Byte>>, recv: seq<seq<Byte>>, wire: seq<RdmaWrite>,
                       cs: seq<Chunk>, claims: seq<int>)
    requires cfg.Valid() && AllCarried(cfg, issued, send, recv, wire, cs, claims) && claims != []
    ensures AllCarried(cfg, issued, send, recv, wire, cs[1..], claims[1..])
  {
    forall i | 0 <= i < |claims[1..]|
      ensures CarriedAt(cfg, issued, send, recv, wire, cs[1..][i], claims[1..][i])
    {
      assert CarriedAt(cfg, issued, send, recv, wire, cs[i + 1], claims[i + 1]);
    }
  }

  lemma IssueAllCarried(cfg: Config, issued: seq<Read>, x: Read, send: seq<seq<Byte>>, recv: seq<seq<Byte>>,
                        wire: seq<RdmaWrite>,
                        cs: seq<Chunk>, tail: seq<Chunk>, claims: seq<int>)
    requires cfg.Valid() && AllCarried(cfg, issued, send, recv, wire, cs, claims)
    ensures AllCarried(cfg, issued + [x], send, recv, wire, cs + tail, claims)
  {
    forall i | 0 <= i < |claims|
      ensures CarriedAt(cfg, issued + [x], send, recv, wire, (cs + tail)[i], claims[i])
    {
      assert CarriedAt(cfg, issued, send, recv, wire, cs[i], claims[i]);
      var c := cs[i];
      var b := claims[i];
      forall p | 0 <= p < cfg.Copied(c.len)
        ensures ByteCarried(cfg, issued + [x], send[b], recv[b], wire, b, c, p)
      {
        assert ByteCarried(cfg, issued, send[b], recv[b], wire, b, c, p);
      }
    }
  }

  // ---------------------------------------------------------------- steps on buffers

  lemma SameCarried(cfg: Config, s: State, r: State)
    requires cfg.Valid() && ReaderBooks(cfg, View(s)) && ReaderBooks(cfg, View(r)) && Carried(cfg, s)
    requires r.issued == s.issued && r.ws.send == s.ws.send && r.rs.recv == s.rs.recv && r.ws.wire == s.ws.wire
    requires Expected(cfg, View(r)) == Expected(cfg, View(s)) && Claims(r) == Claims(s)
    ensures Carried(cfg, r)
  {
  }

  lemma DoReadCarried(cfg: Config, s: State, a: nat, d: nat, n: nat, cb: Option<nat>)
    requires Sound(cfg, View(s)) && Carried(cfg, s)
    requires a + n <= |s.src| && d + n <= |s.rs.dst|
    ensures ReaderBooks(cfg, View(DoDoRead(s, a, d, n, cb))) && Carried(cfg, DoDoRead(s, a, d, n, cb))
  {
    var r := DoDoRead(s, a, d, n, cb);
    var x := r.issued[|s.issued|];
    DoReadView(cfg, s, a, d, n, cb);
    IssueIncoming(cfg, View(s), x);
    IssueAllCarried(cfg, s.issued, x, s.ws.send, s.rs.recv, s.ws.wire, Incoming(cfg, View(s)),
                    Served(cfg, Chunks(cfg, s.issued + [x], |s.issued|, 0)), Claims(s));
  }

  lemma WriterQuietCarried(cfg: Config, s: State)
    requires Sane(cfg, s) && Sound(cfg, View(s)) && Carried(cfg, s) && s.ws.handle != Writer.DoCurWrite
    ensures ReaderBooks(cfg, View(DoWriterStep(cfg, s))) && Carried(cfg, DoWriterStep(cfg, s))
  {
    var r := DoWriterStep(cfg, s);
    if s.ws.handle == Writer.InitWriteHandle {
      StepInitView(s);
    } else {
      StepRequestView(s);
    }
    ReaderUnchanged(cfg, View(s), View(r));
    SameCarried(cfg, s, r);
  }

  /** What makes the next chunk safe to write: its read has not been called done, so its
      source is unchanged. */
  lemma SourceIsKept(cfg: Config, s: State)
    requires Sound(cfg, View(s)) && DoneCallbacksInOrder(s) && s.ws.handle != Writer.InitWriteHandle
    ensures |s.readDone| < Started(View(s))
  {
    WriterIsNotBehind(cfg, View(s));
  }

  lemma WriteCarried(cfg: Config, s: State)
    requires Kept(cfg, s) && Owned(cfg, s) && Carried(cfg, s) && !Writer.Throws(cfg, s.ws)
    requires s.ws.handle == Writer.DoCurWrite
    ensures ReaderBooks(cfg, View(DoWriterStep(cfg, s))) && Carried(cfg, DoWriterStep(cfg, s))
  {
    SourceIsKept(cfg, s);
    if cfg.SgeCount(Writer.NextLen(cfg, s.ws.rec)) >= 1 {
      NextArrives(cfg, View(s));
      ArrivesCarried(cfg, s, Chunk(Started(View(s)) - 1, s.ws.rec.offset, Writer.NextLen(cfg, s.ws.rec)));
    } else {
      EmptyCarried(cfg, s);
    }
  }

  /** A chunk that gets no entry changes no buffer and posts nothing. */
  lemma EmptyWrite(cfg: Config, src: seq<Byte>, ws: Writer.WriteSide)
    requires Writer.WellFormed(cfg, src, ws) && ws.handle == Writer.DoCurWrite && !Writer.Throws(cfg, ws)
    requires cfg.SgeCount(Writer.NextLen(cfg, ws.rec)) < 1
    ensures Writer.StepWrite(cfg, src, ws).0.send == ws.send && Writer.StepWrite(cfg, src, ws).0.wire == ws.wire
  {
    var t := Writer.NextLen(cfg, ws.rec);
    if t >= 1 {
      SgeCountOfChunk(cfg, t);
    } else {
      assert Writer.ChunkBytes(cfg, src, ws.rec) == [];
      assert Overlay(ws.send[ws.buf], 0, []) == ws.send[ws.buf];
    }
  }

  lemma EmptyCarried(cfg: Config, s: State)
    requires Sane(cfg, s) && ReaderBooks(cfg, View(s)) && Carried(cfg, s) && s.ws.handle == Writer.DoCurWrite
    requires !Writer.Throws(cfg, s.ws)
    requires cfg.SgeCount(Writer.NextLen(cfg, s.ws.rec)) < 1
    ensures ReaderBooks(cfg, View(DoWriterStep(cfg, s))) && Carried(cfg, DoWriterStep(cfg, s))
  {
    EmptyWrite(cfg, s.src, s.ws);
    StepWriteView(cfg, s);
    SameView(s.(ws := Writer.StepWrite(cfg, s.src, s.ws).0), DoWriterStep(cfg, s));
    ReaderUnchanged(cfg, View(s), Post(cfg, View(s), s.ws.buf));
    SameCarried(cfg, s, DoWriterStep(cfg, s));
  }

  lemma ArrivesCarried(cfg: Config, s: State, c: Chunk)
    requires Sane(cfg, s) && ReaderBooks(cfg, View(s)) && WriterBooks(cfg, View(s)) && Owned(cfg, s) && Carried(cfg, s)
    requires !Writer.Throws(cfg, s.ws)
    requires ReadsInMemory(s) && SourcesKept(s) && |s.readDone| < Started(View(s))
    requires s.ws.handle == Writer.DoCurWrite
    requires c == Chunk(Started(View(s)) - 1, s.ws.rec.offset, Writer.NextLen(cfg, s.ws.rec))
    requires |Claims(s)| < |Incoming(cfg, View(s))| && Incoming(cfg, View(s))[|Claims(s)|] == c
    requires cfg.SgeCount(Writer.NextLen(cfg, s.ws.rec)) >= 1
    ensures ReaderBooks(cfg, View(DoWriterStep(cfg, s))) && Carried(cfg, DoWriterStep(cfg, s))
  {
    WriteSource(cfg, s, c);
    HeldIsNotClaimed(cfg, s);
    WriteKeepsCarried(cfg, s, c);
  }

  /** The part of chunk `c` that its entries can hold. */
  ghost predicate Payload(cfg: Config, issued: seq<Read>, bytes: seq<Byte>, c: Chunk)
    requires cfg.Valid()
  {
    && |bytes| == cfg.Copied(c.len)
    && 0 <= c.read < |issued| && c.offset + |bytes| <= |issued[c.read].data|
    && forall p :: 0 <= p < |bytes| ==> bytes[p] == issued[c.read].data[c.offset + p]
  }

  lemma WriteKeepsCarried(cfg: Config, s: State, c: Chunk)
    requires Sane(cfg, s) && ReaderBooks(cfg, View(s)) && Carried(cfg, s) && !Writer.Throws(cfg, s.ws)
    requires s.ws.handle == Writer.DoCurWrite && s.ws.buf !in Claims(s)
    requires cfg.SgeCount(Writer.NextLen(cfg, s.ws.rec)) >= 1
    requires |Claims(s)| < |Incoming(cfg, View(s))| && Incoming(cfg, View(s))[|Claims(s)|] == c
    requires c.len == Writer.NextLen(cfg, s.ws.rec)
    requires Fits(cfg, s.issued, s.ws.send[s.ws.buf], s.rs.recv[s.ws.buf], c)
    requires Payload(cfg, s.issued, Writer.ChunkBytes(cfg, s.src, s.ws.rec), c)
    ensures ReaderBooks(cfg, View(DoWriterStep(cfg, s))) && Carried(cfg, DoWriterStep(cfg, s))
  {
    var l := View(s);
    StepWriteView(cfg, s);
    ReaderUnchanged(cfg, l, Post(cfg, l, s.ws.buf));
    WriteAllCarried(cfg, s.issued, s.ws.send, s.rs.recv, s.ws.wire, Incoming(cfg, l), l.claims, s.ws.buf,
                    Writer.ChunkBytes(cfg, s.src, s.ws.rec));
  }

  lemma WriteSource(cfg: Config, s: State, c: Chunk)
    requires Sane(cfg, s) && WriterBooks(cfg, View(s)) && ReadsInMemory(s) && SourcesKept(s)
    requires s.ws.handle == Writer.DoCurWrite && |s.readDone| < Started(View(s))
    requires c == Chunk(Started(View(s)) - 1, s.ws.rec.offset, Writer.NextLen(cfg, s.ws.rec))
    ensures Fits(cfg, s.issued, s.ws.send[s.ws.buf], s.rs.recv[s.ws.buf], c)
    ensures Payload(cfg, s.issued, Writer.ChunkBytes(cfg, s.src, s.ws.rec), c)
  {
    var rd := s.issued[c.read];
    assert View(s).rec.(offset := 0) == WriterRecord(rd);
    assert forall p :: 0 <= p < rd.bytes ==> s.src[rd.src + p] == rd.data[p];
    WritePayload(cfg, s.src, s.ws.rec, rd);
  }

  lemma LandCarried(cfg: Config, s: State)
    requires Sane(cfg, s) && ReaderBooks(cfg, View(s)) && Carried(cfg, s) && s.ws.wire != []
    ensures ReaderBooks(cfg, View(DoLand(cfg, s))) && Carried(cfg, DoLand(cfg, s))
  {
    LandView(cfg, s);
    assert WriteOk(cfg, s.ws.wire[0]);
    LandAllCarried(cfg, s.issued, s.ws.send, s.rs.recv, s.ws.wire, Incoming(cfg, View(s)), Claims(s));
  }

  /** The untagged writes of a loop that threw go to a buffer nobody claims. */
  lemma StrayCarried(cfg: Config, s: State)
    requires Sane(cfg, s) && Owned(cfg, s) && ReaderBooks(cfg, View(s)) && Carried(cfg, s)
    requires Stray(s)
    ensures ReaderBooks(cfg, View(DoLandStray(cfg, s))) && Carried(cfg, DoLandStray(cfg, s))
  {
    StrayView(cfg, s);
    HeldIsNotClaimed(cfg, s);
    StrayBuffers(cfg, s);
    UnclaimedCarried(cfg, s.issued, s.ws.send, s.rs.recv, DoLandStray(cfg, s).rs.recv, s.ws.wire,
                     Incoming(cfg, View(s)), Claims(s));
  }

  lemma StrayBuffers(cfg: Config, s: State)
    requires Sane(cfg, s) && Stray(s)
    ensures var r := DoLandStray(cfg, s);
            && r.issued == s.issued && r.ws == s.ws && |r.rs.recv| == |s.rs.recv|
            && forall b :: 0 <= b < |s.rs.recv| && b != s.ws.buf ==> r.rs.recv[b] == s.rs.recv[b]
  {
  }

  /** Only the contents of the claimed receive buffers matter. */
  lemma UnclaimedCarried(cfg: Config, issued: seq<Read>, send: seq<seq<Byte>>, recv: seq<seq<Byte>>,
                         later: seq<seq<Byte>>, wire: seq<RdmaWrite>, cs: seq<Chunk>, claims: seq<int>)
    requires cfg.Valid() && AllCarried(cfg, issued, send, recv, wire, cs, claims) && |later| == |recv|
    requires forall b :: 0 <= b < |recv| && b in claims ==> later[b] == recv[b]
    ensures AllCarried(cfg, issued, send, later, wire, cs, claims)
  {
    forall i | 0 <= i < |claims|
      ensures CarriedAt(cfg, issued, send, later, wire, cs[i], claims[i])
    {
      assert CarriedAt(cfg, issued, send, recv, wire, cs[i], claims[i]);
      assert claims[i] in claims;
    }
  }

  lemma NoteCarried(cfg: Config, s: State)
    requires Sane(cfg, s) && Sound(cfg, View(s)) && Carried(cfg, s) && s.rs.phase.Gathered?
    ensures var r := s.(rs := Reader.StepNote(cfg, s.rs));
            ReaderBooks(cfg, View(r)) && Carried(cfg, r)
  {
    NoteView(cfg, s);
    NoteIncoming(cfg, View(s));
    NoteAllCarried(cfg, s.issued, s.ws.send, s.rs.recv, s.ws.wire, Incoming(cfg, View(s)), Claims(s));
  }

  lemma PollCarried(cfg: Config, s: State)
    requires Sane(cfg, s) && ReaderBooks(cfg, View(s)) && Carried(cfg, s) && Enabled(cfg, s, Poll)
    ensures ReaderBooks(cfg, View(DoPoll(cfg, s))) && Carried(cfg, DoPoll(cfg, s))
  {
    PollView(cfg, s);
    if s.cq[0] != INT_MAX {
      PhaseKeepsExpected(cfg, View(s), Reader.Got(s.cq[0], s.rs.queue[0]));
    }
    SameCarried(cfg, s, DoPoll(cfg, s));
  }

  lemma GatherCarried(cfg: Config, s: State)
    requires Reader.WellFormed(cfg, s.rs) && ReaderBooks(cfg, View(s)) && Carried(cfg, s) && s.rs.phase.Got?
    ensures var r := s.(rs := Reader.StepGather(cfg, s.rs));
            ReaderBooks(cfg, View(r)) && Carried(cfg, r)
  {
    var r := s.(rs := Reader.StepGather(cfg, s.rs));
    PhaseKeepsExpected(cfg, View(s), Reader.Gathered(s.rs.phase.buf, s.rs.phase.rec));
    GatherView(cfg, s);
    SameCarried(cfg, s, r);
  }

  lemma PopCarried(cfg: Config, s: State)
    requires Reader.WellFormed(cfg, s.rs) && ReaderBooks(cfg, View(s)) && Carried(cfg, s)
    requires s.rs.phase.Noted? && s.rs.phase.last
    ensures var r := s.(rs := Reader.StepPop(cfg, s.rs));
            ReaderBooks(cfg, View(r)) && Carried(cfg, r)
  {
    var r := s.(rs := Reader.StepPop(cfg, s.rs));
    PopKeepsExpected(cfg, View(s));
    PopView(cfg, s);
    SameCarried(cfg, s, r);
  }

  lemma FreeCarried(cfg: Config, s: State)
    requires cfg.Valid() && ReaderBooks(cfg, View(s)) && Carried(cfg, s)
    requires s.rs.phase.Sending? || (s.rs.phase.Noted? && !s.rs.phase.last)
    ensures var r := s.(rs := Reader.StepFree(s.rs), posted := s.posted + 1);
            ReaderBooks(cfg, View(r)) && Carried(cfg, r)
  {
    var r := s.(rs := Reader.StepFree(s.rs), posted := s.posted + 1);
    FreeView(s);
    PhaseKeepsExpected(cfg, View(s), Reader.Idle);
    SameCarried(cfg, s, r);
  }

  lemma QuietCarried(cfg: Config, s: State, l: Label)
    requires Sane(cfg, s) && ReaderBooks(cfg, View(s)) && Carried(cfg, s) && Enabled(cfg, s, l)
    requires (ByApplication(l) && !l.DoRead?) || l.CallReadDone? || l.Throw? || l.WriterRecv?
    requires InOrder(s, l)
    ensures ReaderBooks(cfg, View(Next(cfg, s, l))) && Carried(cfg, Next(cfg, s, l))
  {
    if l.WriterRecv? {
      WriterRecvView(s);
    } else {
      QuietView(cfg, s, l);
    }
    SameCarried(cfg, s, Next(cfg, s, l));
  }

  lemma StepCarried(cfg: Config, s: State, l: Label)
    requires Kept(cfg, s) && Owned(cfg, s) && Carried(cfg, s) && Enabled(cfg, s, l) && InOrder(s, l)
    ensures ReaderBooks(cfg, View(Next(cfg, s, l))) && Carried(cfg, Next(cfg, s, l))
  {
    match l {
      case DoRead(a, d, n, cb) => DoReadCarried(cfg, s, a, d, n, cb);
      case WriterStep =>
        if s.ws.handle == Writer.DoCurWrite {
          WriteCarried(cfg, s);
        } else {
          WriterQuietCarried(cfg, s);
        }
      case Land => LandCarried(cfg, s);
      case LandStray => StrayCarried(cfg, s);
      case Poll => PollCarried(cfg, s);
      case GatherStep => GatherCarried(cfg, s);
      case NoteStep => NoteCarried(cfg, s);
      case PopStep => PopCarried(cfg, s);
      case FreeStep => FreeCarried(cfg, s);
      case _ => QuietCarried(cfg, s, l);
    }
  }
}
