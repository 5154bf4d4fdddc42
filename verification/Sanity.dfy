/** Memory safety of every step. */
module Sanity {
  import opened Config
  import opened System
  import Writer
  import Reader

  lemma InitialIsSane(cfg: Config, s: State)
    requires InitialState(cfg, s)
    ensures Sane(cfg, s)
  {
  }

  lemma WriterStepIsSane(cfg: Config, s: State)
    requires Sane(cfg, s) && !Writer.Throws(cfg, s.ws)
    ensures Sane(cfg, DoWriterStep(cfg, s))
  {
    Writer.StepKeepsWellFormed(cfg, s.src, s.ws);
    if s.ws.handle == Writer.DoCurWrite {
      var t := Writer.NextLen(cfg, s.ws.rec);
      var count := cfg.SgeCount(t);
      LoopMovesCopied(cfg, t, if count < 0 then 0 else count);
    }
  }

  lemma ApplicationIsSane(cfg: Config, s: State, l: Label)
    requires Sane(cfg, s) && Enabled(cfg, s, l) && ByApplication(l)
    ensures Sane(cfg, Next(cfg, s, l))
  {
  }

  lemma WriterRecvIsSane(cfg: Config, s: State)
    requires Sane(cfg, s) && s.rs.sent != [] && !s.running
    ensures Sane(cfg, DoWriterRecv(s))
  {
    assert MsgOk(cfg, s.src, s.rs.sent[0]);
  }

  lemma LandIsSane(cfg: Config, s: State)
    requires Sane(cfg, s) && s.ws.wire != []
    ensures Sane(cfg, DoLand(cfg, s))
  {
    assert WriteOk(cfg, s.ws.wire[0]);
  }

  lemma LandStrayIsSane(cfg: Config, s: State)
    requires Sane(cfg, s) && s.thrown.Some? && s.thrown.value > 0
    ensures Sane(cfg, DoLandStray(cfg, s))
  {
  }

  lemma ThrowIsSane(cfg: Config, s: State)
    requires Sane(cfg, s) && Enabled(cfg, s, Throw)
    ensures Sane(cfg, Next(cfg, s, Throw))
  {
  }

  lemma ReaderIsSane(cfg: Config, s: State, l: Label)
    requires Sane(cfg, s) && Enabled(cfg, s, l)
    requires l.Poll? || l.GatherStep? || l.NoteStep? || l.PopStep? || l.FreeStep?
    ensures Sane(cfg, Next(cfg, s, l))
  {
    if !l.Poll? {
      Reader.StepsKeepWellFormed(cfg, s.rs);
    }
  }

  /** No step, in any order, reaches a state in which an address, a block index or a
      buffer id is out of range. */
  lemma EveryStepIsSane(cfg: Config, s: State, l: Label)
    requires Sane(cfg, s) && Enabled(cfg, s, l)
    ensures Sane(cfg, Next(cfg, s, l))
  {
    match l {
      case WriterRecv => WriterRecvIsSane(cfg, s);
      case WriterStep => WriterStepIsSane(cfg, s);
      case Land => LandIsSane(cfg, s);
      case CallReadDone =>
      case Throw => ThrowIsSane(cfg, s);
      case LandStray => LandStrayIsSane(cfg, s);
      case _ =>
        if ByApplication(l) {
          ApplicationIsSane(cfg, s, l);
        } else {
          ReaderIsSane(cfg, s, l);
        }
    }
  }
}
