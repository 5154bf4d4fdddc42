/** The read side: SyncRead cut into the steps between which other threads of the
    reading machine can run. */
module Reader {
  import opened Config
  import opened Messages
  import opened Options

  /** Where the poller thread is inside RDMARecvDone / SyncRead:
      front record fetched; bytes copied; offset stored; front record popped and its
      callback called (or not the last piece), FreeBufferPair about to be posted. */
  datatype Phase =
    | Idle
    | Got(buf: int, rec: WorkRecord)
    | Gathered(buf: int, rec: WorkRecord)
    | Noted(buf: int, last: bool)
    | Sending(buf: int, last: bool)

  /** `read_queue_`, the destination memory, the receive buffers, the control messages
      posted to the peer, and the read callbacks called so far. */
  datatype ReadSide = ReadSide(
    queue: seq<WorkRecord>, dst: seq<Byte>, recv: seq<seq<Byte>>,
    sent: seq<CtrlMsg>, fired: seq<nat>, phase: Phase)

  predicate RecordOk(dst: seq<Byte>, r: WorkRecord) {
    r.offset <= r.bytes < U64 && r.addr + r.bytes <= |dst|
  }

  ghost predicate WellFormed(cfg: Config, v: ReadSide) {
    && cfg.Valid()
    && |v.recv| == cfg.bufferNum
    && (forall i :: 0 <= i < |v.recv| ==> |v.recv[i]| == cfg.bufferBytes)
    && (forall i :: 0 <= i < |v.queue| ==> RecordOk(v.dst, v.queue[i]))
    && match v.phase
       case Idle => true
       case Got(b, r) => 0 <= b < cfg.bufferNum && v.queue != [] && r == v.queue[0]
       case Gathered(b, r) => 0 <= b < cfg.bufferNum && v.queue != [] && r == v.queue[0]
       case Noted(b, _) => 0 <= b < cfg.bufferNum && v.queue != []
       case Sending(b, _) => 0 <= b < cfg.bufferNum
  }

  /** GetWorkRecord, for a completion that carries a buffer id. */
  function StepGet(cfg: Config, v: ReadSide, buf: int): ReadSide
    requires WellFormed(cfg, v) && v.phase.Idle? && v.queue != []
  {
    v.(phase := Got(buf, v.queue[0]))
  }

  /** What the reader computes from its own record: the bytes of this chunk. */
  function NextLen(cfg: Config, r: WorkRecord): nat
    requires cfg.Valid() && r.offset <= r.bytes
  {
    cfg.Transfer(r.bytes, r.offset)
  }

  function Gather(cfg: Config, dst: seq<Byte>, r: WorkRecord, buffer: seq<Byte>): seq<Byte>
    requires cfg.Valid() && RecordOk(dst, r) && |buffer| == cfg.bufferBytes
  {
    Overlay(dst, r.addr + r.offset, buffer[..cfg.Copied(NextLen(cfg, r))])
  }

  function StepGather(cfg: Config, v: ReadSide): ReadSide
    requires WellFormed(cfg, v) && v.phase.Got?
  {
    v.(dst := Gather(cfg, v.dst, v.phase.rec, v.recv[v.phase.buf]),
       phase := Gathered(v.phase.buf, v.phase.rec))
  }

  /** SetWorkRecordOffset and the last-piece decision. */
  function StepNote(cfg: Config, v: ReadSide): ReadSide
    requires WellFormed(cfg, v) && v.phase.Gathered?
  {
    var r := v.phase.rec;
    var next := r.offset + NextLen(cfg, r);
    v.(queue := v.queue[0 := v.queue[0].(offset := next)],
       phase := Noted(v.phase.buf, !(next < r.bytes)))
  }

  /** A callback, if there is one, has been called once, after all earlier ones. */
  ghost predicate Fires(before: seq<nat>, after: seq<nat>, cb: Option<nat>) {
    match cb
    case None => after == before
    case Some(c) => after == before + [c]
  }

  function Called(fired: seq<nat>, cb: Option<nat>): (r: seq<nat>)
    ensures Fires(fired, r, cb)
  {
    match cb case None => fired case Some(c) => fired + [c]
  }

  /** The last-piece branch of PostSendRequest: pop the record, call its callback. */
  function StepPop(cfg: Config, v: ReadSide): ReadSide
    requires WellFormed(cfg, v) && v.phase.Noted? && v.phase.last
  {
    v.(queue := v.queue[1..], fired := Called(v.fired, v.queue[0].cb), phase := Sending(v.phase.buf, true))
  }

  /** Posting FreeBufferPair. */
  function StepFree(v: ReadSide): ReadSide
    requires v.phase.Sending? || (v.phase.Noted? && !v.phase.last)
  {
    v.(sent := v.sent + [FreeBufferPair(v.phase.buf, v.phase.last)], phase := Idle)
  }

  lemma StepsKeepWellFormed(cfg: Config, v: ReadSide)
    requires WellFormed(cfg, v)
    ensures v.phase.Got? ==> WellFormed(cfg, StepGather(cfg, v))
    ensures v.phase.Gathered? ==> WellFormed(cfg, StepNote(cfg, v))
    ensures v.phase.Noted? && v.phase.last ==> WellFormed(cfg, StepPop(cfg, v))
    ensures v.phase.Sending? || (v.phase.Noted? && !v.phase.last) ==> WellFormed(cfg, StepFree(v))
  {
  }

  /** The five steps in a row, with nothing in between. */
  function Synced(cfg: Config, v: ReadSide, buf: int): (r: ReadSide)
    requires WellFormed(cfg, v) && v.phase.Idle? && v.queue != [] && 0 <= buf < cfg.bufferNum
    ensures WellFormed(cfg, r) && r.phase.Idle?
  {
    var a := StepGather(cfg, StepGet(cfg, v, buf));
    var b := StepNote(cfg, a);
    StepFree(if b.phase.last then StepPop(cfg, b) else b)
  }

  /** What they come to: the chunk copied, the offset stored, and on the last piece the
      record popped and its callback called; the buffer goes back either way. */
  lemma SyncedIs(cfg: Config, v: ReadSide, buf: int, queue: seq<WorkRecord>, fired: seq<nat>)
    requires WellFormed(cfg, v) && v.phase.Idle? && v.queue != [] && 0 <= buf < cfg.bufferNum
    requires var r := v.queue[0];
             var next := r.offset + NextLen(cfg, r);
             if next < r.bytes then queue == v.queue[0 := r.(offset := next)] && fired == v.fired
             else queue == v.queue[1..] && Fires(v.fired, fired, r.cb)
    ensures var r := v.queue[0];
            var last := !(r.offset + NextLen(cfg, r) < r.bytes);
            Synced(cfg, v, buf) == ReadSide(queue, Gather(cfg, v.dst, r, v.recv[buf]), v.recv,
                                            v.sent + [FreeBufferPair(buf, last)], fired, Idle)
  {
  }

  /** DealWorkRecord: queue the record, then ask the peer to write. */
  function Dealt(v: ReadSide, r: WorkRecord, src: nat): ReadSide {
    v.(queue := v.queue + [r], sent := v.sent + [PleaseWrite(src, r.bytes)])
  }
}
