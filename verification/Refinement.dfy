/** The objects of WriteHelper and QueuePair take the steps of the system. */
module Refinement {
  import opened Config
  import opened Messages
  import opened Options
  import opened System
  import Sanity
  import WriteHelper
  import Writer
  import Reader

  /** Where the write loop of the write helper leads: to its end, or to a call that
      throws. */
  function LoopEnd(cfg: Config, s: State): State
    requires Sane(cfg, s)
  {
    var ws := Writer.RunLoop(cfg, s.src, s.ws);
    s.(ws := ws, running := Writer.Throws(cfg, ws))
  }

  /** The write loop of the write helper is a number of WriterSteps, and where it throws
      the next step is Throw. */
  lemma {:induction false} LoopIsSteps(cfg: Config, s: State)
    requires Sane(cfg, s) && s.running && s.thrown.None?
    ensures exists n: nat :: Steps(cfg, s, n) == LoopEnd(cfg, s)
    ensures LoopEnd(cfg, s).running ==> Enabled(cfg, LoopEnd(cfg, s), Throw)
    decreases |s.ws.idle|, if s.ws.handle == Writer.DoCurWrite then 1 else 0, |s.ws.cur| + |s.ws.pend|
  {
    if Writer.Throws(cfg, s.ws) {
      assert Steps(cfg, s, 0) == s;
    } else {
      Sanity.WriterStepIsSane(cfg, s);
      var r := DoWriterStep(cfg, s);
      if r.running {
        LoopIsSteps(cfg, r);
        var n: nat :| Steps(cfg, r, n) == LoopEnd(cfg, r);
        assert Steps(cfg, s, n + 1) == LoopEnd(cfg, s);
      } else {
        assert Steps(cfg, r, 0) == r;
        assert Steps(cfg, s, 1) == LoopEnd(cfg, s);
      }
    }
  }

  /** `n` WriterSteps in a row, as long as the loop goes on. */
  ghost function Steps(cfg: Config, s: State, n: nat): State
    requires Sane(cfg, s)
    decreases n
  {
    if n == 0 || !s.running || Writer.Throws(cfg, s.ws) then s
    else (Sanity.WriterStepIsSane(cfg, s); Steps(cfg, DoWriterStep(cfg, s), n - 1))
  }

  /** The labels in a row lead from s to r, each step being enabled when its turn comes. */
  ghost predicate Leads(cfg: Config, s: State, labels: seq<Label>, r: State)
    decreases |labels|
  {
    if labels == [] then r == s
    else Sane(cfg, s) && Enabled(cfg, s, labels[0]) && Leads(cfg, Next(cfg, s, labels[0]), labels[1..], r)
  }

  lemma LeadsFirst(cfg: Config, s: State, l: Label, rest: seq<Label>, r: State)
    requires Sane(cfg, s) && Enabled(cfg, s, l) && Leads(cfg, Next(cfg, s, l), rest, r)
    ensures Leads(cfg, s, [l] + rest, r)
  {
    assert ([l] + rest)[1..] == rest;
  }

  lemma EndIsSteps(cfg: Config, s: State)
    requires Sane(cfg, s) && s.rs.phase.Noted?
    ensures var rs := if s.rs.phase.last then Reader.StepPop(cfg, s.rs) else s.rs;
            Leads(cfg, s, (if s.rs.phase.last then [PopStep] else []) + [FreeStep],
                  s.(rs := Reader.StepFree(rs), posted := s.posted + 1))
  {
    var rs := if s.rs.phase.last then Reader.StepPop(cfg, s.rs) else s.rs;
    var r := s.(rs := Reader.StepFree(rs), posted := s.posted + 1);
    var mid := s.(rs := rs);
    if s.rs.phase.last {
      Sanity.EveryStepIsSane(cfg, s, PopStep);
      LeadsFirst(cfg, mid, FreeStep, [], r);
      LeadsFirst(cfg, s, PopStep, [FreeStep] + [], r);
      assert [PopStep] + ([FreeStep] + []) == [PopStep] + [FreeStep];
    } else {
      LeadsFirst(cfg, s, FreeStep, [], r);
      assert [] + [FreeStep] == [FreeStep] + [];
    }
  }

  function Noted(cfg: Config, v: Reader.ReadSide, b: int): Reader.ReadSide
    requires Reader.WellFormed(cfg, v) && v.phase.Idle? && v.queue != [] && 0 <= b < cfg.bufferNum
  {
    Reader.StepNote(cfg, Reader.StepGather(cfg, Reader.StepGet(cfg, v, b)))
  }

  lemma StartIsSteps(cfg: Config, s: State, end: seq<Label>, r: State)
    requires Sane(cfg, s) && Enabled(cfg, s, Poll) && s.cq[0] != INT_MAX
    requires Leads(cfg, s.(cq := s.cq[1..], rs := Noted(cfg, s.rs, s.cq[0])), end, r)
    ensures Leads(cfg, s, [Poll] + ([GatherStep] + ([NoteStep] + end)), r)
  {
    var a := Next(cfg, s, Poll);
    Sanity.EveryStepIsSane(cfg, s, Poll);
    var b := Next(cfg, a, GatherStep);
    Sanity.EveryStepIsSane(cfg, a, GatherStep);
    LeadsFirst(cfg, b, NoteStep, end, r);
    LeadsFirst(cfg, a, GatherStep, [NoteStep] + end, r);
    LeadsFirst(cfg, s, Poll, [GatherStep] + ([NoteStep] + end), r);
  }

  /** SyncRead of the queue pair object, undisturbed, is these steps of the system. */
  lemma SyncReadIsSteps(cfg: Config, s: State)
    requires Sane(cfg, s) && Enabled(cfg, s, Poll) && s.cq[0] != INT_MAX
    ensures var front := s.rs.queue[0];
            var last := !(front.offset + Reader.NextLen(cfg, front) < front.bytes);
            Leads(cfg, s, [Poll] + ([GatherStep] + ([NoteStep] + ((if last then [PopStep] else []) + [FreeStep]))),
                  s.(cq := s.cq[1..], rs := Reader.Synced(cfg, s.rs, s.cq[0]), posted := s.posted + 1))
  {
    var c := s.(cq := s.cq[1..], rs := Noted(cfg, s.rs, s.cq[0]));
    NotedIsSane(cfg, s);
    EndIsSteps(cfg, c);
    StartIsSteps(cfg, s, (if c.rs.phase.last then [PopStep] else []) + [FreeStep],
                 s.(cq := s.cq[1..], rs := Reader.Synced(cfg, s.rs, s.cq[0]), posted := s.posted + 1));
  }

  lemma NotedIsSane(cfg: Config, s: State)
    requires Sane(cfg, s) && Enabled(cfg, s, Poll) && s.cq[0] != INT_MAX
    ensures Sane(cfg, s.(cq := s.cq[1..], rs := Noted(cfg, s.rs, s.cq[0])))
  {
    var a := Next(cfg, s, Poll);
    Sanity.EveryStepIsSane(cfg, s, Poll);
    Sanity.EveryStepIsSane(cfg, a, GatherStep);
    Sanity.EveryStepIsSane(cfg, Next(cfg, a, GatherStep), NoteStep);
  }

  /** RecvDone of the queue pair object, up to the read-done callback: taking the message
      pushes the record or the buffer as the object does, and if the object then runs its
      write loop, so does the system, to where the object's contract says. */
  lemma RecvDoneIsSteps(cfg: Config, s: State)
    requires Sane(cfg, s) && Enabled(cfg, s, WriterRecv)
    ensures var m, t := s.rs.sent[0], Next(cfg, s, WriterRecv);
            && t == s.(rs := s.rs.(sent := s.rs.sent[1..]), finishing := m.FreeBufferPair? && m.last,
                       running := m.FreeBufferPair? || s.ws.pend == [],
                       ws := match m case PleaseWrite(a, n) => Writer.PushRecord(s.ws, WorkRecord(a, n, 0, None))
                                     case FreeBufferPair(b, _) => Writer.PushIdle(s.ws, b))
            && Sane(cfg, t)
            && (t.running ==>
                  && (exists n: nat :: Steps(cfg, t, n) == LoopEnd(cfg, t))
                  && (LoopEnd(cfg, t).running ==> Enabled(cfg, LoopEnd(cfg, t), Throw)))
  {
    Sanity.EveryStepIsSane(cfg, s, WriterRecv);
    var t := Next(cfg, s, WriterRecv);
    if t.running {
      LoopIsSteps(cfg, t);
    }
  }

  /** DealWorkRecord of the queue pair object, when no earlier request is unsent, is a
      DoRead and a SendRequest. */
  lemma DealWorkRecordIsSteps(cfg: Config, s: State, l: Label)
    requires Sane(cfg, s) && l.DoRead? && Enabled(cfg, s, l) && s.unsent == []
    ensures var r := Next(cfg, s, l);
            Leads(cfg, s, [l] + [SendRequest(PleaseWrite(l.srcAddr, l.bytes))],
                  s.(issued := r.issued, rs := Reader.Dealt(s.rs, WorkRecord(l.dstAddr, l.bytes, 0, l.cb), l.srcAddr)))
  {
    var a := Next(cfg, s, l);
    var r := Next(cfg, s, l).(rs := Reader.Dealt(s.rs, WorkRecord(l.dstAddr, l.bytes, 0, l.cb), l.srcAddr),
                                   unsent := []);
    Sanity.EveryStepIsSane(cfg, s, l);
    var post := SendRequest(PleaseWrite(l.srcAddr, l.bytes));
    LeadsFirst(cfg, a, post, [], r);
    assert [post] + [] == [post];
    LeadsFirst(cfg, s, l, [post], r);
    assert r == s.(issued := a.issued, rs := r.rs);
  }

  /** What a loop posted before it threw and has not landed yet. */
  function StraysLeft(cfg: Config, s: State): seq<RdmaWrite>
    requires Sane(cfg, s) && s.thrown.Some?
  {
    Strays(s.ws.buf, Blocks(cfg))[Blocks(cfg) - s.thrown.value..]
  }

  /** Throw posts what the object has posted when it throws ... */
  lemma ThrowIsThrown(cfg: Config, s: State)
    requires Sane(cfg, s) && Enabled(cfg, s, Throw)
    ensures var t := Next(cfg, s, Throw);
            && Sane(cfg, t) && t.thrown.Some?
            && t.ws.wire + StraysLeft(cfg, t) == WriteHelper.Thrown(cfg, s.ws).wire
  {
    Sanity.EveryStepIsSane(cfg, s, Throw);
  }

  /** ... and it lands write by write, in order. */
  lemma StraysLandInOrder(cfg: Config, s: State)
    requires Sane(cfg, s) && Stray(s)
    ensures var r := DoLandStray(cfg, s);
            && Sane(cfg, r) && r.thrown.Some? && StraysLeft(cfg, s) != []
            && StraysLeft(cfg, r) == StraysLeft(cfg, s)[1..]
            && r.cq == s.cq + [StraysLeft(cfg, s)[0].imm]
  {
    Sanity.LandStrayIsSane(cfg, s);
  }
}
