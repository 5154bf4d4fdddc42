/** How the steps of the two machines act on the ledger of reads and chunks. */
module Books {
  import opened Config
  import opened Messages
  import opened Options
  import opened System
  import opened Ledger
  import Writer
  import Reader

  // ---------------------------------------------------------------- message lists

  function RequestOf(m: CtrlMsg): seq<WorkRecord> {
    match m
    case PleaseWrite(a, n) => [WorkRecord(a, n, 0, None)]
    case FreeBufferPair(_, _) => []
  }

  function Requests(ms: seq<CtrlMsg>): seq<WorkRecord> {
    if ms == [] then [] else RequestOf(ms[0]) + Requests(ms[1..])
  }

  lemma {:induction false} RequestsAppend(ms: seq<CtrlMsg>, m: CtrlMsg)
    ensures Requests(ms + [m]) == Requests(ms) + RequestOf(m)
  {
    if ms != [] {
      RequestsAppend(ms[1..], m);
      assert (ms + [m])[1..] == ms[1..] + [m];
    }
  }

  /** A message that carries no record may sit anywhere in the list. */
  lemma {:induction false} RequestsSkip(a: seq<CtrlMsg>, m: CtrlMsg, b: seq<CtrlMsg>)
    requires m.FreeBufferPair?
    ensures Requests(a + [m] + b) == Requests(a + b)
  {
    if a == [] {
      assert ([m] + b)[1..] == b;
      assert a + [m] + b == [m] + b && a + b == b;
    } else {
      RequestsSkip(a[1..], m, b);
      assert (a + [m] + b)[1..] == a[1..] + [m] + b;
      assert (a + b)[1..] == a[1..] + b;
    }
  }

  function FreeOf(m: CtrlMsg): seq<int> {
    if m.FreeBufferPair? then [m.buf] else []
  }

  /** Buffer ids on their way back to the writer. */
  function Frees(ms: seq<CtrlMsg>): seq<int> {
    if ms == [] then [] else FreeOf(ms[0]) + Frees(ms[1..])
  }

  lemma {:induction false} FreesAppend(ms: seq<CtrlMsg>, m: CtrlMsg)
    ensures Frees(ms + [m]) == Frees(ms) + FreeOf(m)
  {
    if ms != [] {
      FreesAppend(ms[1..], m);
      assert (ms + [m])[1..] == ms[1..] + [m];
    }
  }

  function LastOf(m: CtrlMsg): nat {
    if m.FreeBufferPair? && m.last then 1 else 0
  }

  /** Last pieces on their way back to the writer. */
  function LastFrees(ms: seq<CtrlMsg>): nat {
    if ms == [] then 0 else LastOf(ms[0]) + LastFrees(ms[1..])
  }

  lemma {:induction false} LastFreesAppend(ms: seq<CtrlMsg>, m: CtrlMsg)
    ensures LastFrees(ms + [m]) == LastFrees(ms) + LastOf(m)
  {
    if ms != [] {
      LastFreesAppend(ms[1..], m);
      assert (ms + [m])[1..] == ms[1..] + [m];
    }
  }

  // ---------------------------------------------------------------- immediates

  function TagOf(imm: int): seq<int> {
    if imm == INT_MAX then [] else [imm]
  }

  /** The buffer ids among a list of immediates. */
  function Tags(imms: seq<int>): seq<int> {
    if imms == [] then [] else TagOf(imms[0]) + Tags(imms[1..])
  }

  lemma {:induction false} TagsAppend(a: seq<int>, b: seq<int>)
    ensures Tags(a + b) == Tags(a) + Tags(b)
  {
    if a == [] {
      assert a + b == b;
    } else {
      TagsAppend(a[1..], b);
      assert (a + b)[1..] == a[1..] + b;
      assert TagOf(a[0]) + (Tags(a[1..]) + Tags(b)) == (TagOf(a[0]) + Tags(a[1..])) + Tags(b);
    }
  }

  function Imms(ws: seq<RdmaWrite>): (r: seq<int>)
    ensures |r| == |ws| && forall i :: 0 <= i < |r| ==> r[i] == ws[i].imm
  {
    seq(|ws|, i requires 0 <= i < |ws| => ws[i].imm)
  }

  lemma {:induction false} TagsOfUntagged(imms: seq<int>)
    requires forall i :: 0 <= i < |imms| ==> imms[i] == INT_MAX
    ensures Tags(imms) == []
  {
    if imms != [] {
      TagsOfUntagged(imms[1..]);
    }
  }

  /** A posted chunk is tagged exactly once, on its last write. */
  lemma TagsOfWrites(buf: int, count: int)
    requires buf != INT_MAX
    ensures Tags(Imms(Writes(buf, count))) == if count >= 1 then [buf] else []
  {
    var imms := Imms(Writes(buf, count));
    if count >= 1 {
      assert imms == imms[..count - 1] + [buf];
      TagsOfUntagged(imms[..count - 1]);
      TagsAppend(imms[..count - 1], [buf]);
      assert [buf][1..] == [];
    }
  }

  // ---------------------------------------------------------------- the ledger of a state

  /** Immediates landed but not polled, then those still on the wire. */
  function Flying(cq: seq<int>, wire: seq<RdmaWrite>): seq<int> {
    cq + Imms(wire)
  }

  /** The buffer whose chunk the poller is copying out. */
  function InHand(p: Reader.Phase): seq<int> {
    if p.Got? || p.Gathered? then [p.buf] else []
  }

  function Claims(s: State): seq<int> {
    InHand(s.rs.phase) + Tags(Flying(s.cq, s.ws.wire))
  }

  /** Records the writer has not started, in the order it will serve them. */
  function Backlog(s: State): seq<WorkRecord> {
    Writer.Fifo(s.ws) + Requests(s.rs.sent + s.unsent)
  }

  function View(s: State): Ledger {
    Ledger(s.issued, s.rs.queue, s.rs.phase, Backlog(s), s.ws.handle, s.ws.rec, Claims(s))
  }

  // ---------------------------------------------------------------- steps

  lemma DoReadView(cfg: Config, s: State, a: nat, d: nat, n: nat, cb: Option<nat>)
    requires a + n <= |s.src| && d + n <= |s.rs.dst|
    ensures var r := DoDoRead(s, a, d, n, cb);
            View(r) == Issue(View(s), r.issued[|s.issued|])
  {
    var msg := PleaseWrite(a, n);
    var r := DoDoRead(s, a, d, n, cb);
    RequestsAppend(s.rs.sent + s.unsent, msg);
    assert r.rs.sent + r.unsent == (s.rs.sent + s.unsent) + [msg];
    assert Writer.Fifo(s.ws) + (Requests(s.rs.sent + s.unsent) + RequestOf(msg)) == Backlog(s) + RequestOf(msg);
  }

  lemma QuietView(cfg: Config, s: State, l: Label)
    requires Sane(cfg, s) && Enabled(cfg, s, l)
    requires (ByApplication(l) && !l.DoRead?) || l.CallReadDone? || l.Throw?
    requires InOrder(s, l)
    ensures View(Next(cfg, s, l)) == View(s)
  {
    var r := Next(cfg, s, l);
    assert r.rs.sent + r.unsent == s.rs.sent + s.unsent;
  }

  lemma RequestsFirst(ms: seq<CtrlMsg>, more: seq<CtrlMsg>)
    requires ms != []
    ensures Requests(ms + more) == RequestOf(ms[0]) + Requests(ms[1..] + more)
  {
    assert (ms + more)[1..] == ms[1..] + more;
  }

  lemma WriterRecvView(s: State)
    requires s.rs.sent != []
    ensures View(DoWriterRecv(s)) == View(s)
  {
    var r := DoWriterRecv(s);
    var m := s.rs.sent[0];
    RequestsFirst(s.rs.sent, s.unsent);
    var rest := Requests(s.rs.sent[1..] + s.unsent);
    assert Writer.Fifo(r.ws) == Writer.Fifo(s.ws) + RequestOf(m);
    assert Writer.Fifo(s.ws) + (RequestOf(m) + rest) == Writer.Fifo(r.ws) + rest;
  }

  lemma StepInitView(s: State)
    requires s.ws.handle == Writer.InitWriteHandle
    ensures var r := s.(ws := Writer.StepInit(s.ws).0);
            View(r) == if Writer.Fifo(s.ws) == [] then View(s) else Take(View(s))
  {
    var r := s.(ws := Writer.StepInit(s.ws).0);
    var fifo := Writer.Fifo(s.ws);
    if fifo != [] {
      assert Writer.Fifo(r.ws) == fifo[1..] && r.ws.rec == fifo[0];
      assert Backlog(s)[0] == fifo[0];
      assert Backlog(s)[1..] == fifo[1..] + Requests(s.rs.sent + s.unsent);
    }
  }

  lemma StepRequestView(s: State)
    requires s.ws.handle == Writer.RequestBuffer
    ensures var r := s.(ws := Writer.StepRequest(s.ws).0);
            View(r) == if s.ws.idle == [] then View(s) else View(s).(handle := Writer.DoCurWrite)
  {
  }

  lemma PostedTags(cfg: Config, src: seq<Byte>, ws: Writer.WriteSide, cq: seq<int>)
    requires Writer.WellFormed(cfg, src, ws) && ws.handle == Writer.DoCurWrite && !Writer.Throws(cfg, ws)
    ensures var r := Writer.StepWrite(cfg, src, ws).0;
            Tags(Flying(cq, r.wire)) == Tags(Flying(cq, ws.wire))
                                        + if cfg.SgeCount(Writer.NextLen(cfg, ws.rec)) >= 1 then [ws.buf] else []
  {
    var r := Writer.StepWrite(cfg, src, ws).0;
    var flying := Flying(cq, ws.wire);
    var imms := Imms(Writes(ws.buf, cfg.SgeCount(Writer.NextLen(cfg, ws.rec))));
    assert Flying(cq, r.wire) == flying + imms;
    TagsAppend(flying, imms);
    TagsOfWrites(ws.buf, cfg.SgeCount(Writer.NextLen(cfg, ws.rec)));
  }

  lemma StepWriteView(cfg: Config, s: State)
    requires Writer.WellFormed(cfg, s.src, s.ws) && s.ws.handle == Writer.DoCurWrite && !Writer.Throws(cfg, s.ws)
    ensures var r := s.(ws := Writer.StepWrite(cfg, s.src, s.ws).0);
            View(r) == Post(cfg, View(s), s.ws.buf)
  {
    PostedTags(cfg, s.src, s.ws, s.cq);
    WriteQueues(cfg, s.src, s.ws);
    ClaimsGrow(s, s.(ws := Writer.StepWrite(cfg, s.src, s.ws).0),
               if cfg.SgeCount(Writer.NextLen(cfg, s.ws.rec)) >= 1 then [s.ws.buf] else []);
  }

  lemma WriteQueues(cfg: Config, src: seq<Byte>, ws: Writer.WriteSide)
    requires Writer.WellFormed(cfg, src, ws) && ws.handle == Writer.DoCurWrite && !Writer.Throws(cfg, ws)
    ensures var r := Writer.StepWrite(cfg, src, ws).0;
            var t := Writer.NextLen(cfg, ws.rec);
            && Writer.Fifo(r) == Writer.Fifo(ws)
            && r.rec == ws.rec.(offset := ws.rec.offset + t)
            && r.handle == if ws.rec.offset + t < ws.rec.bytes then Writer.RequestBuffer else Writer.InitWriteHandle
  {
  }

  lemma ClaimsGrow(s: State, r: State, claim: seq<int>)
    requires r == s.(ws := r.ws) && Tags(Flying(s.cq, r.ws.wire)) == Tags(Flying(s.cq, s.ws.wire)) + claim
    requires Writer.Fifo(r.ws) == Writer.Fifo(s.ws)
    ensures View(r) == View(s).(handle := r.ws.handle, rec := r.ws.rec, claims := Claims(s) + claim)
  {
    assert InHand(s.rs.phase) + (Tags(Flying(s.cq, s.ws.wire)) + claim) == Claims(s) + claim;
  }

  lemma LandView(cfg: Config, s: State)
    requires Sane(cfg, s) && s.ws.wire != []
    ensures View(DoLand(cfg, s)) == View(s)
  {
    var r := DoLand(cfg, s);
    assert Flying(r.cq, r.ws.wire) == Flying(s.cq, s.ws.wire);
  }

  /** An untagged completion names no buffer. */
  lemma StrayTags(cq: seq<int>, wire: seq<RdmaWrite>)
    requires wire == []
    ensures Tags(Flying(cq + [INT_MAX], wire)) == Tags(Flying(cq, wire))
  {
    TagsAppend(cq, [INT_MAX]);
    assert Flying(cq, wire) == cq && Flying(cq + [INT_MAX], wire) == cq + [INT_MAX];
    assert Tags([INT_MAX]) == [];
  }

  lemma StrayView(cfg: Config, s: State)
    requires Sane(cfg, s) && Stray(s)
    ensures View(DoLandStray(cfg, s)) == View(s)
  {
    StrayTags(s.cq, s.ws.wire);
  }

  lemma PollView(cfg: Config, s: State)
    requires Sane(cfg, s) && Enabled(cfg, s, Poll)
    requires s.cq != [] && (s.cq[0] == INT_MAX || s.rs.queue != [])
    ensures View(DoPoll(cfg, s)) == if s.cq[0] == INT_MAX then View(s)
                                    else View(s).(phase := Reader.Got(s.cq[0], s.rs.queue[0]))
  {
    var r := DoPoll(cfg, s);
    var flying := Flying(s.cq, s.ws.wire);
    assert flying[0] == s.cq[0] && flying[1..] == Flying(r.cq, r.ws.wire);
  }

  lemma GatherView(cfg: Config, s: State)
    requires Reader.WellFormed(cfg, s.rs) && s.rs.phase.Got?
    ensures View(s.(rs := Reader.StepGather(cfg, s.rs)))
         == View(s).(phase := Reader.Gathered(s.rs.phase.buf, s.rs.phase.rec))
  {
  }

  lemma PopView(cfg: Config, s: State)
    requires Reader.WellFormed(cfg, s.rs) && s.rs.phase.Noted? && s.rs.phase.last
    ensures View(s.(rs := Reader.StepPop(cfg, s.rs))) == Pop(View(s))
  {
  }

  lemma NoteView(cfg: Config, s: State)
    requires Reader.WellFormed(cfg, s.rs) && s.rs.phase.Gathered?
    ensures Claims(s) != []
    ensures View(s.(rs := Reader.StepNote(cfg, s.rs))) == Note(cfg, View(s))
  {
    var r := s.(rs := Reader.StepNote(cfg, s.rs));
    assert Claims(s)[1..] == Claims(r);
  }

  lemma FreeView(s: State)
    requires s.rs.phase.Sending? || (s.rs.phase.Noted? && !s.rs.phase.last)
    ensures View(s.(rs := Reader.StepFree(s.rs), posted := s.posted + 1)) == View(s).(phase := Reader.Idle)
  {
    RequestsSkip(s.rs.sent, FreeBufferPair(s.rs.phase.buf, s.rs.phase.last), s.unsent);
  }
}
