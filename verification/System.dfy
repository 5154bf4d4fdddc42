/**
 The read protocol between two machines as a transition system: the application
 and the poller thread on each side, and the two in-order wires between them.

 The steps of the poller threads are the functions the classes of WriteHelper and
 QueuePair are proved against.
 */
module System {
  import opened Config
  import opened Messages
  import opened Options
  import Writer
  import Reader

  /** A read as the application issued it, with the contents of source and
      destination at that moment.  No step looks at this record. */
  datatype Read = Read(src: nat, dst: nat, bytes: nat, cb: Option<nat>, data: seq<Byte>, before: seq<Byte>)

  datatype State = State(
    // writing machine: memory, write side, inside the write loop?, read-done callback due?
    src: seq<Byte>, ws: Writer.WriteSide, running: bool, finishing: bool,
    // set once its process has ended with an exception: blocks posted before, not landed yet
    thrown: Option<nat>,
    // read-done callbacks: waiting, ever registered, called
    cbs: seq<nat>, registered: seq<nat>, readDone: seq<nat>,
    // reading machine: read side, requests queued but not yet posted, completions of
    // landed writes not yet polled, receive requests posted
    rs: Reader.ReadSide, unsent: seq<CtrlMsg>, cq: seq<int>, posted: int,
    // every read issued so far
    issued: seq<Read>)

  datatype Label =
    // application
    | DoRead(srcAddr: nat, dstAddr: nat, bytes: nat, cb: Option<nat>)
    | SendRequest(msg: CtrlMsg)
    | DstStore(addr: nat, val: Byte)
    | SrcStore(addr: nat, val: Byte)
    | RegisterReadDoneCb(c: nat)
    // poller thread of the writing machine
    | WriterRecv | WriterStep | CallReadDone | Throw
    // the network
    | Land | LandStray
    // poller thread of the reading machine
    | Poll | GatherStep | NoteStep | PopStep | FreeStep

  predicate ByApplication(l: Label) {
    l.DoRead? || l.SendRequest? || l.DstStore? || l.SrcStore? || l.RegisterReadDoneCb?
  }

  predicate Disjoint(a: int, n: int, b: int, m: int) {
    n == 0 || m == 0 || a + n <= b || b + m <= a
  }

  /** Reads whose callback has not been called yet are the last |queue| ones. */
  function CalledBack(s: State): int {
    |s.issued| - |s.rs.queue|
  }

  predicate MsgOk(cfg: Config, src: seq<Byte>, m: CtrlMsg) {
    match m
    case PleaseWrite(a, n) => a + n <= |src| && n < U64
    case FreeBufferPair(b, _) => 0 <= b < cfg.bufferNum
  }

  predicate WriteOk(cfg: Config, w: RdmaWrite) {
    0 <= w.buf < cfg.bufferNum && w.sge < cfg.sgeNum && (w.imm == INT_MAX || w.imm == w.buf)
  }

  /** Memory safety: every address, block and buffer id in any message, queue or
      register is in range, so no step can touch memory it does not own.  A process that
      has ended did so in the posting loop of a chunk with a negative count. */
  ghost predicate Sane(cfg: Config, s: State) {
    && Writer.WellFormed(cfg, s.src, s.ws)
    && Reader.WellFormed(cfg, s.rs)
    && (forall i :: 0 <= i < |s.ws.wire| ==> WriteOk(cfg, s.ws.wire[i]))
    && (forall i :: 0 <= i < |s.cq| ==> s.cq[i] == INT_MAX || 0 <= s.cq[i] < cfg.bufferNum)
    && (forall i :: 0 <= i < |s.rs.sent| ==> MsgOk(cfg, s.src, s.rs.sent[i]))
    && (forall i :: 0 <= i < |s.unsent| ==> s.unsent[i].PleaseWrite? && MsgOk(cfg, s.src, s.unsent[i]))
    && (s.thrown.Some? ==> s.running && Writer.Throws(cfg, s.ws) && s.thrown.value <= Blocks(cfg))
  }

  /** A list without the first occurrence of one of its elements. */
  function Without(ms: seq<CtrlMsg>, m: CtrlMsg): (r: seq<CtrlMsg>)
    ensures forall i :: 0 <= i < |r| ==> r[i] in ms
    ensures m in ms ==> |r| == |ms| - 1
  {
    if ms == [] then []
    else if ms[0] == m then ms[1..]
    else [ms[0]] + Without(ms[1..], m)
  }

  /** The region of an issued read that the application may not touch yet. */
  predicate Outside(addr: int, at: int, n: int) {
    addr < at || at + n <= addr
  }

  /** The next write to land is one that a loop posted before it threw. */
  predicate Stray(s: State) {
    s.thrown.Some? && s.thrown.value > 0 && s.ws.wire == []
  }

  predicate Enabled(cfg: Config, s: State, l: Label) {
    match l
    case DoRead(a, d, n, _) =>
      // both regions exist, and no outstanding read has a destination byte in common
      && a + n <= |s.src| && d + n <= |s.rs.dst| && n < U64
      && forall i :: 0 <= i < |s.issued| && CalledBack(s) <= i ==> Disjoint(s.issued[i].dst, s.issued[i].bytes, d, n)
    case SendRequest(m) => m in s.unsent
    case DstStore(a, _) =>
      && a < |s.rs.dst|
      && forall i :: 0 <= i < |s.issued| && CalledBack(s) <= i ==> Outside(a, s.issued[i].dst, s.issued[i].bytes)
    case SrcStore(a, _) =>
      // a source region is free again once its read-done callback has been called
      && s.thrown.None? && a < |s.src|
      && forall i :: |s.readDone| <= i < |s.issued| ==> Outside(a, s.issued[i].src, s.issued[i].bytes)
    case RegisterReadDoneCb(_) => s.thrown.None?
    case WriterRecv => !s.running && !s.finishing && s.rs.sent != []
    case WriterStep => s.running && !Writer.Throws(cfg, s.ws)
    case CallReadDone => !s.running && s.finishing && s.cbs != []
    case Throw => s.running && s.thrown.None? && Writer.Throws(cfg, s.ws)
    case Land => s.ws.wire != [] && s.posted > 0
    case LandStray => Stray(s) && s.posted > 0
    case Poll => s.rs.phase.Idle? && s.cq != [] && (s.cq[0] == INT_MAX || s.rs.queue != [])
    case GatherStep => s.rs.phase.Got?
    case NoteStep => s.rs.phase.Gathered?
    case PopStep => s.rs.phase.Noted? && s.rs.phase.last
    case FreeStep => s.rs.phase.Sending? || (s.rs.phase.Noted? && !s.rs.phase.last)
  }

  /** A landed RDMA write: one whole block of the send buffer, stale tail included. */
  function LandBlock(cfg: Config, recv: seq<Byte>, send: seq<Byte>, sge: nat): seq<Byte>
    requires cfg.Valid() && sge < cfg.sgeNum && |recv| == |send| == cfg.bufferBytes
  {
    EntryInside(cfg, sge);
    var s := cfg.SgeBytes();
    Overlay(recv, sge * s, send[sge * s..sge * s + s])
  }

  function DoDoRead(s: State, a: nat, d: nat, n: nat, cb: Option<nat>): State
    requires a + n <= |s.src| && d + n <= |s.rs.dst|
  {
    s.(issued := s.issued + [Read(a, d, n, cb, s.src[a..a + n], s.rs.dst[d..d + n])],
       rs := s.rs.(queue := s.rs.queue + [WorkRecord(d, n, 0, cb)]),
       unsent := s.unsent + [PleaseWrite(a, n)])
  }

  function DoWriterRecv(s: State): State
    requires s.rs.sent != []
  {
    var s1 := s.(rs := s.rs.(sent := s.rs.sent[1..]));
    match s.rs.sent[0]
    case PleaseWrite(a, n) =>
      s1.(ws := Writer.PushRecord(s.ws, WorkRecord(a, n, 0, None)), running := s.ws.pend == [])
    case FreeBufferPair(b, last) =>
      s1.(ws := Writer.PushIdle(s.ws, b), running := true, finishing := last)
  }

  function DoWriterStep(cfg: Config, s: State): State
    requires Sane(cfg, s) && !Writer.Throws(cfg, s.ws)
  {
    var (next, go) := Writer.Step(cfg, s.src, s.ws);
    s.(ws := next, running := go)
  }

  function DoLand(cfg: Config, s: State): State
    requires Sane(cfg, s) && s.ws.wire != []
  {
    var w := s.ws.wire[0];
    s.(ws := s.ws.(wire := s.ws.wire[1..]),
       rs := s.rs.(recv := s.rs.recv[w.buf := LandBlock(cfg, s.rs.recv[w.buf], s.ws.send[w.buf], w.sge)]),
       cq := s.cq + [w.imm],
       posted := s.posted - 1)
  }

  /** One of the untagged writes posted by a loop that then threw: a block, whole but for
      the last one, of the buffer the writer still held. */
  function DoLandStray(cfg: Config, s: State): State
    requires Sane(cfg, s) && s.thrown.Some? && s.thrown.value > 0
  {
    var i, b := Blocks(cfg) - s.thrown.value, s.ws.buf;
    BlockInside(cfg, i);
    var at := i * cfg.SgeBytes();
    var block := s.ws.send[b][at..Min(at + cfg.SgeBytes(), cfg.bufferBytes)];
    s.(rs := s.rs.(recv := s.rs.recv[b := Overlay(s.rs.recv[b], at, block)]),
       thrown := Some(s.thrown.value - 1), cq := s.cq + [INT_MAX], posted := s.posted - 1)
  }

  function DoPoll(cfg: Config, s: State): State
    requires Sane(cfg, s) && Enabled(cfg, s, Poll)
  {
    if s.cq[0] == INT_MAX then s.(cq := s.cq[1..], posted := s.posted + 1)
    else s.(cq := s.cq[1..], rs := Reader.StepGet(cfg, s.rs, s.cq[0]))
  }

  function Next(cfg: Config, s: State, l: Label): (r: State)
    requires Sane(cfg, s) && Enabled(cfg, s, l)
  {
    match l
    case DoRead(a, d, n, cb) => DoDoRead(s, a, d, n, cb)
    case SendRequest(m) => s.(rs := s.rs.(sent := s.rs.sent + [m]), unsent := Without(s.unsent, m))
    case DstStore(a, v) => s.(rs := s.rs.(dst := s.rs.dst[a := v]))
    case SrcStore(a, v) => s.(src := s.src[a := v])
    case RegisterReadDoneCb(c) => s.(cbs := s.cbs + [c], registered := s.registered + [c])
    case WriterRecv => DoWriterRecv(s)
    case WriterStep => DoWriterStep(cfg, s)
    case CallReadDone => s.(cbs := s.cbs[1..], readDone := s.readDone + [s.cbs[0]], finishing := false)
    case Throw => s.(thrown := Some(Blocks(cfg)))
    case Land => DoLand(cfg, s)
    case LandStray => DoLandStray(cfg, s)
    case Poll => DoPoll(cfg, s)
    case GatherStep => s.(rs := Reader.StepGather(cfg, s.rs))
    case NoteStep => s.(rs := Reader.StepNote(cfg, s.rs))
    case PopStep => s.(rs := Reader.StepPop(cfg, s.rs))
    case FreeStep => s.(rs := Reader.StepFree(s.rs), posted := s.posted + 1)
  }

  /** Both machines after set-up, with arbitrary memory and arbitrary buffer contents. */
  ghost predicate InitialState(cfg: Config, s: State) {
    && cfg.Valid()
    && |s.ws.send| == |s.rs.recv| == cfg.bufferNum
    && (forall i :: 0 <= i < cfg.bufferNum ==> |s.ws.send[i]| == |s.rs.recv[i]| == cfg.bufferBytes)
    && s == State(s.src, Writer.Initial(cfg, s.ws.send), false, false, None, [], [], [],
                  Reader.ReadSide([], s.rs.dst, s.rs.recv, [], [], Reader.Idle), [], [], cfg.recvRequests, [])
  }

  /** The states visited and the labels of the steps between them.  Several threads may
      post their requests in any order. */
  ghost predicate IsRunInAnyOrder(cfg: Config, states: seq<State>, labels: seq<Label>) {
    && |states| == |labels| + 1
    && InitialState(cfg, states[0])
    && forall i :: 0 <= i < |labels| ==>
         && Sane(cfg, states[i])
         && Enabled(cfg, states[i], labels[i])
         && states[i + 1] == Next(cfg, states[i], labels[i])
  }

  /** A request is posted when it is the oldest one queued. */
  predicate InOrder(s: State, l: Label) {
    l.SendRequest? ==> s.unsent != [] && l.msg == s.unsent[0]
  }

  /** A run: requests are posted in the order in which they were queued. */
  ghost predicate IsRun(cfg: Config, states: seq<State>, labels: seq<Label>) {
    && |states| == |labels| + 1
    && InitialState(cfg, states[0])
    && forall i :: 0 <= i < |labels| ==>
         && Sane(cfg, states[i])
         && Enabled(cfg, states[i], labels[i])
         && InOrder(states[i], labels[i])
         && states[i + 1] == Next(cfg, states[i], labels[i])
  }
}
