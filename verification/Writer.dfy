/** The write side: the three-state machine behind `cur_write_handle_`. */
module Writer {
  import opened Config
  import opened Messages
  import opened Options

  datatype Handle = InitWriteHandle | RequestBuffer | DoCurWrite

  /** The fields of IBVerbsWriteHelper, the contents of the registered send buffers
      and the writes posted on the queue pair and not yet landed at the peer. */
  datatype WriteSide = WriteSide(
    cur: seq<WorkRecord>, pend: seq<WorkRecord>, idle: seq<int>,
    rec: WorkRecord, buf: int, handle: Handle,
    send: seq<seq<Byte>>, wire: seq<RdmaWrite>)

  function Initial(cfg: Config, send: seq<seq<Byte>>): WriteSide
    requires cfg.Valid()
  {
    WriteSide([], [], seq(cfg.bufferNum, i => i), WorkRecord(0, 0, 0, None), 0, InitWriteHandle, send, [])
  }

  predicate RecordOk(src: seq<Byte>, r: WorkRecord) {
    r.offset <= r.bytes < U64 && r.addr + r.bytes <= |src|
  }

  /** Memory safety of the write side: every record lies in source memory, every
      buffer id names a send buffer. */
  ghost predicate WellFormed(cfg: Config, src: seq<Byte>, v: WriteSide) {
    && cfg.Valid()
    && |v.send| == cfg.bufferNum
    && (forall i :: 0 <= i < |v.send| ==> |v.send[i]| == cfg.bufferBytes)
    && (forall i :: 0 <= i < |v.idle| ==> 0 <= v.idle[i] < cfg.bufferNum)
    && (forall i :: 0 <= i < |v.cur| ==> RecordOk(src, v.cur[i]))
    && (forall i :: 0 <= i < |v.pend| ==> RecordOk(src, v.pend[i]))
    && (v.handle != InitWriteHandle ==> RecordOk(src, v.rec))
    && (v.handle == DoCurWrite ==> 0 <= v.buf < cfg.bufferNum)
  }

  /** Bytes of the chunk the current record would transfer next. */
  function NextLen(cfg: Config, r: WorkRecord): nat
    requires cfg.Valid() && r.offset <= r.bytes
  {
    cfg.Transfer(r.bytes, r.offset)
  }

  /** The part of the chunk that the copy loop places into the send buffer. */
  function ChunkBytes(cfg: Config, src: seq<Byte>, r: WorkRecord): seq<Byte>
    requires cfg.Valid() && RecordOk(src, r)
  {
    var c := cfg.Copied(NextLen(cfg, r));
    src[r.addr + r.offset..r.addr + r.offset + c]
  }

  /** A negative entry count: the posting loop takes it for a bound near 2^64, runs out
      of blocks and throws, which ends the process. */
  predicate Throws(cfg: Config, v: WriteSide) {
    cfg.Valid() && v.handle == DoCurWrite && v.rec.offset <= v.rec.bytes && cfg.SgeCount(NextLen(cfg, v.rec)) < 0
  }

  function StepInit(v: WriteSide): (WriteSide, bool) {
    var q := if v.cur == [] then v.pend else v.cur;
    var p := if v.cur == [] then v.cur else v.pend;
    if q == [] then (v.(cur := q, pend := p), false)
    else (v.(cur := q[1..], pend := p, rec := q[0], handle := RequestBuffer), true)
  }

  function StepRequest(v: WriteSide): (WriteSide, bool) {
    if v.idle == [] then (v, false)
    else (v.(buf := v.idle[0], idle := v.idle[1..], handle := DoCurWrite), true)
  }

  /** The chunk copied and the offset moved past it, with nothing posted yet. */
  function Copy(cfg: Config, src: seq<Byte>, v: WriteSide): WriteSide
    requires WellFormed(cfg, src, v) && v.handle == DoCurWrite
  {
    v.(send := v.send[v.buf := Overlay(v.send[v.buf], 0, ChunkBytes(cfg, src, v.rec))],
       rec := v.rec.(offset := v.rec.offset + NextLen(cfg, v.rec)))
  }

  function StepWrite(cfg: Config, src: seq<Byte>, v: WriteSide): (WriteSide, bool)
    requires WellFormed(cfg, src, v) && v.handle == DoCurWrite && !Throws(cfg, v)
  {
    var t := NextLen(cfg, v.rec);
    var next := v.rec.offset + t;
    (v.(send := v.send[v.buf := Overlay(v.send[v.buf], 0, ChunkBytes(cfg, src, v.rec))],
        wire := v.wire + Writes(v.buf, cfg.SgeCount(t)),
        rec := v.rec.(offset := next),
        handle := if next < v.rec.bytes then RequestBuffer else InitWriteHandle),
     true)
  }

  /** One call through `cur_write_handle_` that returns: the new state and whether to go
      on. */
  function Step(cfg: Config, src: seq<Byte>, v: WriteSide): (WriteSide, bool)
    requires WellFormed(cfg, src, v) && !Throws(cfg, v)
  {
    match v.handle
    case InitWriteHandle => StepInit(v)
    case RequestBuffer => StepRequest(v)
    case DoCurWrite => StepWrite(cfg, src, v)
  }

  lemma StepKeepsWellFormed(cfg: Config, src: seq<Byte>, v: WriteSide)
    requires WellFormed(cfg, src, v) && !Throws(cfg, v)
    ensures WellFormed(cfg, src, Step(cfg, src, v).0)
  {
  }

  /** Nothing can be done until a message arrives: no record, or no buffer for the
      current one. */
  predicate Stuck(v: WriteSide) {
    || (v.handle == InitWriteHandle && v.cur == [] && v.pend == [])
    || (v.handle == RequestBuffer && v.idle == [])
  }

  /** WriteUntilQueueEmptyOrNoBuffer.  It ends from every well-formed state, stuck or where
      the next call throws. */
  function RunLoop(cfg: Config, src: seq<Byte>, v: WriteSide): (r: WriteSide)
    requires WellFormed(cfg, src, v)
    ensures WellFormed(cfg, src, r) && (Stuck(r) || Throws(cfg, r))
    decreases |v.idle|, if v.handle == DoCurWrite then 1 else 0, |v.cur| + |v.pend|
  {
    if Throws(cfg, v) then v
    else
      StepKeepsWellFormed(cfg, src, v);
      var (next, go) := Step(cfg, src, v);
      if go then RunLoop(cfg, src, next) else next
  }

  function PushRecord(v: WriteSide, r: WorkRecord): WriteSide {
    v.(pend := v.pend + [r])
  }

  function PushIdle(v: WriteSide, buf: int): WriteSide {
    v.(idle := v.idle + [buf])
  }

  /** The order in which records will be served. */
  function Fifo(v: WriteSide): seq<WorkRecord> {
    v.cur + v.pend
  }

  /** The two swapped queues are one FIFO: a push appends to it, and each handle
      either leaves it alone or takes its first element as the current record. */
  lemma QueuesAreOneFifo(cfg: Config, src: seq<Byte>, v: WriteSide, r: WorkRecord)
    requires WellFormed(cfg, src, v)
    ensures Fifo(PushRecord(v, r)) == Fifo(v) + [r]
    ensures !Throws(cfg, v) ==>
            var next := Step(cfg, src, v).0;
            if v.handle == InitWriteHandle && Fifo(v) != [] then
              Fifo(next) == Fifo(v)[1..] && next.rec == Fifo(v)[0]
            else Fifo(next) == Fifo(v)
  {
  }

  /** Notifying only when the pending queue was empty is enough: a stuck writer that
      is not notified is still stuck. */
  lemma SkippedNotifyIsHarmless(v: WriteSide, r: WorkRecord)
    requires Stuck(v) && v.pend != []
    ensures Stuck(PushRecord(v, r)) && v.handle == RequestBuffer
  {
  }
}
