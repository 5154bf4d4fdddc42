/** The order in which send buffers are handed out. */
module Handout {
  import opened Config
  import opened Messages
  import opened System
  import opened Ownership
  import Writer

  /** The buffer the writer holds after the step and did not hold before. */
  function TakenBy(s: State, l: Label, r: State): seq<int> {
    if l.WriterStep? && s.ws.handle == Writer.RequestBuffer && r.ws.handle == Writer.DoCurWrite then [r.ws.buf] else []
  }

  /** The buffer whose FreeBufferPair the step handles. */
  function FreedBy(s: State, l: Label): seq<int> {
    if l.WriterRecv? && s.rs.sent != [] && s.rs.sent[0].FreeBufferPair? then [s.rs.sent[0].buf] else []
  }

  /** Buffers taken, in order, up to state `i`. */
  function Taken(states: seq<State>, labels: seq<Label>, i: nat): seq<int>
    requires i <= |labels| < |states|
  {
    if i == 0 then [] else Taken(states, labels, i - 1) + TakenBy(states[i - 1], labels[i - 1], states[i])
  }

  /** Buffers whose FreeBufferPair has been handled, in order, up to state `i`. */
  function Freed(states: seq<State>, labels: seq<Label>, i: nat): seq<int>
    requires i <= |labels| < |states|
  {
    if i == 0 then [] else Freed(states, labels, i - 1) + FreedBy(states[i - 1], labels[i - 1])
  }

  lemma WriterHandsOut(cfg: Config, s: State)
    requires Sane(cfg, s) && Enabled(cfg, s, WriterStep)
    ensures TakenBy(s, WriterStep, Next(cfg, s, WriterStep)) + Next(cfg, s, WriterStep).ws.idle == s.ws.idle
  {
  }

  lemma RecvHandsOut(cfg: Config, s: State)
    requires Sane(cfg, s) && Enabled(cfg, s, WriterRecv)
    ensures Next(cfg, s, WriterRecv).ws.idle == s.ws.idle + FreedBy(s, WriterRecv)
  {
    assert s.ws.idle + [] == s.ws.idle;
  }

  lemma OtherHandsOut(cfg: Config, s: State, l: Label)
    requires Sane(cfg, s) && Enabled(cfg, s, l) && !l.WriterStep? && !l.WriterRecv?
    ensures Next(cfg, s, l).ws.idle == s.ws.idle
  {
  }

  /** The idle queue is first in, first out. */
  lemma StepHandsOut(cfg: Config, s: State, l: Label)
    requires Sane(cfg, s) && Enabled(cfg, s, l)
    ensures TakenBy(s, l, Next(cfg, s, l)) + Next(cfg, s, l).ws.idle == s.ws.idle + FreedBy(s, l)
  {
    match l {
      case WriterStep =>
        WriterHandsOut(cfg, s);
        assert s.ws.idle + [] == s.ws.idle;
      case WriterRecv => RecvHandsOut(cfg, s);
      case _ =>
        OtherHandsOut(cfg, s, l);
        assert [] + s.ws.idle == s.ws.idle + [];
    }
  }

  ghost predicate HandedOut(cfg: Config, states: seq<State>, labels: seq<Label>, i: int)
    requires 0 <= i <= |labels| < |states| && 0 <= cfg.bufferNum
  {
    Taken(states, labels, i) + states[i].ws.idle == Ids(cfg.bufferNum) + Freed(states, labels, i)
  }

  lemma Shift(taken: seq<int>, idle: seq<int>, ids: seq<int>, freed: seq<int>, t: seq<int>, later: seq<int>,
              f: seq<int>)
    requires taken + idle == ids + freed && t + later == idle + f
    ensures (taken + t) + later == ids + (freed + f)
  {
    assert (taken + t) + later == taken + (t + later);
    assert taken + (idle + f) == (taken + idle) + f;
  }

  lemma RunStepHandsOut(cfg: Config, states: seq<State>, labels: seq<Label>, i: nat)
    requires IsRunInAnyOrder(cfg, states, labels) && i < |labels| && HandedOut(cfg, states, labels, i)
    ensures HandedOut(cfg, states, labels, i + 1)
  {
    StepHandsOut(cfg, states[i], labels[i]);
    Shift(Taken(states, labels, i), states[i].ws.idle, Ids(cfg.bufferNum), Freed(states, labels, i),
          TakenBy(states[i], labels[i], states[i + 1]), states[i + 1].ws.idle, FreedBy(states[i], labels[i]));
  }

  /** Buffers are handed out in the order in which they became idle, in every run: those
      taken, followed by those still idle, are 0, 1, ..., N - 1 followed by those whose
      FreeBufferPair has been handled, in order. */
  lemma {:induction false} BuffersGoRound(cfg: Config, states: seq<State>, labels: seq<Label>, i: nat)
    requires IsRunInAnyOrder(cfg, states, labels) && i <= |labels|
    ensures cfg.Valid() && HandedOut(cfg, states, labels, i)
  {
    if i == 0 {
      assert states[0].ws.idle == Ids(cfg.bufferNum);
    } else {
      BuffersGoRound(cfg, states, labels, i - 1);
      RunStepHandsOut(cfg, states, labels, i - 1);
    }
  }
}
