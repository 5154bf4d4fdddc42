/** IBVerbsWriteHelper as an object, proved against the write-side functions. */
module WriteHelper {
  import opened Config
  import opened Messages
  import opened Options
  import opened MemDesc
  import opened Writer

  class IBVerbsWriteHelper {
    const cfg: Config
    const mem: array<Byte>
    const sendDesc: seq<IBVerbsMemDesc>

    var pendingRecordQueue: seq<WorkRecord>
    var curRecordQueue: seq<WorkRecord>
    var idleBufferQueue: seq<int>
    var curRecord: WorkRecord
    var bufferId: int
    var curWriteHandle: Handle
    /** What has been posted on the queue pair. */
    var posted: seq<RdmaWrite>

    ghost function Buffers(): set<array<Byte>> {
      set d | d in sendDesc :: d.mem
    }

    ghost predicate Layout() {
      && cfg.Valid()
      && |sendDesc| == cfg.bufferNum
      && (forall i :: 0 <= i < |sendDesc| ==>
            && sendDesc[i].mem.Length == cfg.bufferBytes
            && sendDesc[i].mem != mem
            && IsTiling(sendDesc[i].sgeVec, cfg.bufferBytes, cfg.SgeBytes()))
      && (forall i, j :: 0 <= i < j < |sendDesc| ==> sendDesc[i].mem != sendDesc[j].mem)
    }

    ghost function Contents(): (c: seq<seq<Byte>>)
      reads Buffers()
      ensures |c| == |sendDesc|
      ensures forall i :: 0 <= i < |c| ==> c[i] == sendDesc[i].mem[..]
    {
      seq(|sendDesc|, i requires 0 <= i < |sendDesc| reads Buffers() => sendDesc[i].mem[..])
    }

    ghost function View(): WriteSide
      reads this, Buffers()
    {
      WriteSide(curRecordQueue, pendingRecordQueue, idleBufferQueue, curRecord, bufferId, curWriteHandle,
                Contents(), posted)
    }

    ghost predicate Valid()
      reads this, mem, Buffers()
    {
      Layout() && WellFormed(cfg, mem[..], View())
    }

    constructor (cfg: Config, mem: array<Byte>, sendDesc: seq<IBVerbsMemDesc>)
      requires cfg.Valid()
      requires |sendDesc| == cfg.bufferNum
      requires forall i :: 0 <= i < |sendDesc| ==>
                 && sendDesc[i].mem.Length == cfg.bufferBytes
                 && sendDesc[i].mem != mem
                 && IsTiling(sendDesc[i].sgeVec, cfg.bufferBytes, cfg.SgeBytes())
      requires forall i, j :: 0 <= i < j < |sendDesc| ==> sendDesc[i].mem != sendDesc[j].mem
      ensures this.cfg == cfg && this.mem == mem && this.sendDesc == sendDesc
      ensures Valid()
      ensures View() == Initial(cfg, View().send) && Stuck(View())
      ensures |View().send| == |sendDesc|
      ensures forall i :: 0 <= i < |sendDesc| ==> View().send[i] == old(sendDesc[i].mem[..])
    {
      this.cfg := cfg;
      this.mem := mem;
      this.sendDesc := sendDesc;
      curRecordQueue := [];
      pendingRecordQueue := [];
      var idle := [];
      for i := 0 to cfg.bufferNum
        invariant idle == seq(i, k => k)
      {
        idle := idle + [i];
      }
      idleBufferQueue := idle;
      curRecord := WorkRecord(0, 0, 0, None);
      bufferId := 0;
      curWriteHandle := Handle.InitWriteHandle;
      posted := [];
    }

    method InitWriteHandle() returns (go: bool)
      requires Valid() && curWriteHandle == Handle.InitWriteHandle
      modifies this
      ensures Valid()
      ensures (View(), go) == Step(cfg, mem[..], old(View()))
    {
      if curRecordQueue == [] {
        curRecordQueue, pendingRecordQueue := pendingRecordQueue, curRecordQueue;
        if curRecordQueue == [] {
          return false;
        }
      }
      curRecord := curRecordQueue[0];
      curRecordQueue := curRecordQueue[1..];
      curWriteHandle := Handle.RequestBuffer;
      assert Contents() == old(Contents());
      return true;
    }

    /** The buffer that has been idle for longest. */
    method RequestBuffer() returns (go: bool)
      requires Valid() && curWriteHandle == Handle.RequestBuffer
      modifies this
      ensures Valid() && go == (old(idleBufferQueue) != [])
      ensures go ==> bufferId == old(idleBufferQueue)[0] && idleBufferQueue == old(idleBufferQueue)[1..]
      ensures (View(), go) == Step(cfg, mem[..], old(View()))
    {
      if idleBufferQueue == [] {
        return false;
      }
      bufferId := idleBufferQueue[0];
      idleBufferQueue := idleBufferQueue[1..];
      curWriteHandle := Handle.DoCurWrite;
      assert Contents() == old(Contents());
      return true;
    }

    /** One turn of the copy loop: the next `temp` bytes go to the start of block `i`. */
    method CopyEntry(desc: IBVerbsMemDesc, i: nat, srcAddr: nat, record: nat, temp: nat, ghost was: seq<Byte>,
                     ghost src: seq<Byte>)
      requires i < |desc.sgeVec| && desc.mem != mem && src == mem[..]
      requires srcAddr + record + temp <= mem.Length
      requires |was| == desc.mem.Length
      requires record + temp <= |was| && desc.sgeVec[i].addr + temp <= |was|
      requires temp > 0 ==> desc.sgeVec[i].addr == record
      requires desc.mem[..] == FrontFilled(was, src, srcAddr, record)
      modifies desc.mem
      ensures desc.mem[..] == FrontFilled(was, src, srcAddr, record + temp)
    {
      var sge := desc.sgeVec[i];
      OverlayChunk(was, src, srcAddr, record, temp, sge.addr);
      Memcpy(desc.mem, sge.addr, mem, srcAddr + record, temp);
    }

    /** The copy loop: chunk bytes spread over the buffer's blocks. */
    method Scatter(desc: IBVerbsMemDesc, srcAddr: nat, t: nat, count: int)
      requires cfg.Valid() && t <= cfg.bufferBytes && count == cfg.SgeCount(t)
      requires desc.mem != mem && desc.mem.Length == cfg.bufferBytes
      requires IsTiling(desc.sgeVec, cfg.bufferBytes, cfg.SgeBytes())
      requires srcAddr + t <= mem.Length
      modifies desc.mem
      ensures desc.mem[..] == Overlay(old(desc.mem[..]), 0, mem[srcAddr..srcAddr + cfg.Copied(t)])
    {
      var s := cfg.SgeBytes();
      var n := if count < 0 then 0 else count;
      assert n <= cfg.sgeNum by { LoopMovesCopied(cfg, t, n); }
      var record := 0;
      ghost var was, src := desc.mem[..], mem[..];
      assert was == FrontFilled(was, src, srcAddr, 0);
      for i := 0 to n
        invariant 0 <= record == Min(t, i * s)
        invariant desc.mem[..] == FrontFilled(was, src, srcAddr, record)
      {
        EntryTurn(cfg, desc.sgeVec, t, i);
        var temp := Min(s, t - record);
        CopyEntry(desc, i, srcAddr, record, temp, was, src);
        record := record + temp;
      }
      LoopMovesCopied(cfg, t, n);
    }

    /** The copy loop of DoCurWrite, for the current record and buffer. */
    method FillBuffer(t: nat, count: int)
      requires Valid() && curWriteHandle == Handle.DoCurWrite
      requires t == NextLen(cfg, curRecord) && count == cfg.SgeCount(t)
      modifies this`curRecord, Buffers()
      ensures mem[..] == old(mem[..])
      ensures View() == Copy(cfg, mem[..], old(View()))
    {
      ghost var was := View();
      Scatter(sendDesc[bufferId], curRecord.addr + curRecord.offset, t, count);
      curRecord := curRecord.(offset := curRecord.offset + t);
      assert Contents() == Copy(cfg, mem[..], was).send;
    }

    /** The posting loop counts in `size_t`, so a negative count is a bound near 2^64; it
        throws when it asks for a block that does not exist. */
    method PostWriteRequest(desc: IBVerbsMemDesc, buf: int, count: int) returns (thrown: bool)
      requires -INT_MAX - 1 <= count <= INT_MAX && |desc.sgeVec| <= INT_MAX
      modifies this`posted
      ensures thrown == !(0 <= count <= |desc.sgeVec|)
      ensures posted == old(posted) + if thrown then Strays(buf, |desc.sgeVec|) else Writes(buf, count)
    {
      var bound := if count < 0 then U64 + count else count;
      var i := 0;
      while i < bound
        invariant 0 <= i <= bound && i <= |desc.sgeVec|
        invariant posted == old(posted) + Posted(buf, count, i)
      {
        if i >= |desc.sgeVec| {
          assert Posted(buf, count, i) == Strays(buf, i);
          return true;
        }
        posted := posted + [RdmaWrite(buf, i, if i == count - 1 then buf else INT_MAX)];
        i := i + 1;
      }
      assert Posted(buf, count, i) == Writes(buf, count);
      return false;
    }

    /** The current chunk's writes. */
    method PostChunk(t: nat, count: int) returns (thrown: bool)
      requires Layout() && 0 <= bufferId < cfg.bufferNum && t <= cfg.bufferBytes && count == cfg.SgeCount(t)
      modifies this`posted
      ensures thrown == (count < 0)
      ensures View() == old(View()).(wire := old(posted) + if thrown then Strays(bufferId, Blocks(cfg))
                                                           else Writes(bufferId, count))
    {
      EntryBlocks(cfg, sendDesc[bufferId].sgeVec, t);
      thrown := PostWriteRequest(sendDesc[bufferId], bufferId, count);
      assert Contents() == old(Contents());
    }

    /** When the posting loop throws, record and handle are as before, since the chunk is
        empty; the exception passes through to the poller thread. */
    method DoCurWrite() returns (go: bool, thrown: bool)
      requires Valid() && curWriteHandle == Handle.DoCurWrite
      modifies this, Buffers()
      ensures Valid()
      ensures thrown == Throws(cfg, old(View()))
      ensures if thrown then View() == Thrown(cfg, old(View()))
              else (View(), go) == Step(cfg, mem[..], old(View()))
    {
      ghost var was, src := View(), mem[..];
      var bytes := curRecord.bytes;
      var offset := curRecord.offset;
      var t := Min(bytes - offset, cfg.bufferBytes);
      var count := cfg.SgeCount(t);
      FillBuffer(t, count);
      thrown := PostChunk(t, count);
      go := true;
      if thrown {
        EmptyChunk(cfg, src, was);
        return;
      }
      if curRecord.offset < bytes {
        curWriteHandle := Handle.RequestBuffer;
      } else {
        curWriteHandle := Handle.InitWriteHandle;
      }
      assert View() == StepWrite(cfg, src, was).0;
      StepKeepsWellFormed(cfg, src, was);
    }

    method WriteUntilQueueEmptyOrNoBuffer() returns (thrown: bool)
      requires Valid()
      modifies this, Buffers()
      ensures Valid()
      ensures View() == Ran(cfg, mem[..], old(View()))
      ensures thrown == Throws(cfg, View()) && (!thrown ==> Stuck(View()))
    {
      var go := true;
      thrown := false;
      while go
        invariant Valid()
        invariant !thrown && go ==> RunLoop(cfg, mem[..], View()) == RunLoop(cfg, mem[..], old(View()))
        invariant !thrown && !go ==> View() == RunLoop(cfg, mem[..], old(View())) && Stuck(View())
        invariant thrown ==> !go && View() == Ran(cfg, mem[..], old(View())) && Throws(cfg, View())
        decreases go, |idleBufferQueue|, curWriteHandle == Handle.DoCurWrite, |curRecordQueue| + |pendingRecordQueue|
      {
        match curWriteHandle {
          case InitWriteHandle => go := InitWriteHandle();
          case RequestBuffer => go := RequestBuffer();
          case DoCurWrite =>
            go, thrown := DoCurWrite();
            if thrown {
              go := false;
            }
        }
      }
    }

    /** After every call that returns, the writer is stuck again, although the loop is
        entered only when the pending queue was empty. */
    method AsyncWrite(record: WorkRecord) returns (thrown: bool)
      requires Valid() && RecordOk(mem[..], record)
      modifies this, Buffers()
      ensures Valid()
      ensures View() == if old(View()).pend == []
                        then Ran(cfg, mem[..], PushRecord(old(View()), record))
                        else PushRecord(old(View()), record)
      ensures thrown == (old(View()).pend == [] && Throws(cfg, View()))
      ensures old(Stuck(View())) && !thrown ==> Stuck(View())
    {
      var needSendReminder := pendingRecordQueue == [];
      pendingRecordQueue := pendingRecordQueue + [record];
      thrown := false;
      if needSendReminder {
        thrown := WriteUntilQueueEmptyOrNoBuffer();
      }
    }

    method FreeBuffer(buffer: int) returns (thrown: bool)
      requires Valid() && 0 <= buffer < cfg.bufferNum
      modifies this, Buffers()
      ensures Valid()
      ensures View() == Ran(cfg, mem[..], PushIdle(old(View()), buffer))
      ensures thrown == Throws(cfg, View()) && (!thrown ==> Stuck(View()))
    {
      idleBufferQueue := idleBufferQueue + [buffer];
      thrown := WriteUntilQueueEmptyOrNoBuffer();
    }
  }

  /** The first `i` writes of a posting loop. */
  function Posted(buf: int, count: int, i: nat): (ws: seq<RdmaWrite>)
    ensures |ws| == i && forall k :: 0 <= k < i ==> ws[k] == RdmaWrite(buf, k, if k == count - 1 then buf else INT_MAX)
  {
    seq(i, (k: nat) => RdmaWrite(buf, k, if k == count - 1 then buf else INT_MAX))
  }

  /** The write side as an uncaught exception of the posting loop leaves it. */
  function Thrown(cfg: Config, v: WriteSide): WriteSide
    requires cfg.Valid()
  {
    v.(wire := v.wire + Strays(v.buf, Blocks(cfg)))
  }

  /** The write loop, up to and including a call that throws. */
  function Ran(cfg: Config, src: seq<Byte>, v: WriteSide): WriteSide
    requires WellFormed(cfg, src, v)
  {
    var r := RunLoop(cfg, src, v);
    if Throws(cfg, r) then Thrown(cfg, r) else r
  }

  /** The blocks of a registered buffer are no fewer than the entries in use. */
  lemma EntryBlocks(cfg: Config, v: seq<Sge>, t: nat)
    requires cfg.Valid() && t <= cfg.bufferBytes && IsTiling(v, cfg.bufferBytes, cfg.SgeBytes())
    ensures |v| == Blocks(cfg) <= INT_MAX
    ensures -INT_MAX - 1 <= cfg.SgeCount(t) <= |v|
  {
    TilingLength(v, cfg.bufferBytes, cfg.SgeBytes());
    SgeCountRange(cfg, t);
    SgeNumBlocks(cfg);
  }

  /** A chunk with a negative count is empty: nothing is copied and no offset moves. */
  lemma EmptyChunk(cfg: Config, src: seq<Byte>, v: WriteSide)
    requires WellFormed(cfg, src, v) && Throws(cfg, v)
    ensures Copy(cfg, src, v) == v
  {
    FewEntriesMeansEmpty(cfg, NextLen(cfg, v.rec));
    assert ChunkBytes(cfg, src, v.rec) == [];
    assert Overlay(v.send[v.buf], 0, []) == v.send[v.buf];
  }

  /** One turn of either copy loop: entry `i` starts where the bytes copied so far end,
      and has room for the next ones. */
  lemma EntryTurn(cfg: Config, v: seq<Sge>, t: nat, i: nat)
    requires cfg.Valid() && i < cfg.sgeNum && t <= cfg.bufferBytes && IsTiling(v, cfg.bufferBytes, cfg.SgeBytes())
    ensures i < |v|
    ensures var s, record := cfg.SgeBytes(), Min(t, i * cfg.SgeBytes());
            var temp := Min(s, t - record);
            && 0 <= record && 0 <= temp && record + temp == Min(t, (i + 1) * s) <= t
            && v[i].addr + temp <= cfg.bufferBytes
            && (temp > 0 ==> v[i].addr == record)
  {
    EntriesAreFullBlocks(cfg, v, i);
    EntryInside(cfg, i);
    NextRecord(t, i, cfg.SgeBytes());
  }

  lemma NextRecord(t: nat, i: nat, s: nat)
    ensures 0 <= Min(t, i * s) && Min(t, (i + 1) * s) == Min(t, i * s) + Min(s, t - Min(t, i * s))
  {
    assert (i + 1) * s == i * s + s;
    MulMono(0, i, s);
  }

  /** A buffer with `n` bytes from address `a` of `src` at its front. */
  function FrontFilled(was: seq<Byte>, src: seq<Byte>, a: nat, n: nat): seq<Byte>
    requires a + n <= |src| && n <= |was|
  {
    Overlay(was, 0, src[a..a + n])
  }

  lemma OverlayChunk(was: seq<Byte>, src: seq<Byte>, a: nat, done: nat, more: nat, at: nat)
    requires a + done + more <= |src| && done + more <= |was|
    requires at + more <= |was| && (more > 0 ==> at == done)
    ensures Overlay(FrontFilled(was, src, a, done), at, src[a + done..a + done + more])
         == FrontFilled(was, src, a, done + more)
  {
    OverlayTwice(was, 0, src[a..a + done], src[a + done..a + done + more]);
    assert src[a..a + done] + src[a + done..a + done + more] == src[a..a + done + more];
  }
}
