/** IBVerbsQP as an object: the read queue and SyncRead on one side, the message
    handlers that drive the write helper on the other. */
module QueuePair {
  import opened Config
  import opened Messages
  import opened Options
  import opened MemDesc
  import opened Reader
  import Writer
  import opened WriteHelper

  class IBVerbsQP {
    const cfg: Config
    const mem: array<Byte>
    const recvDesc: seq<IBVerbsMemDesc>
    const helper: IBVerbsWriteHelper

    var readQueue: seq<WorkRecord>
    /** Messages posted to the peer with PostSendRequest. */
    var sent: seq<CtrlMsg>
    /** Read callbacks called, in order. */
    var fired: seq<nat>
    /** Registered read-done callbacks not yet called, and those called. */
    var readDoneCbs: seq<nat>
    var readDone: seq<nat>

    ghost function Buffers(): set<array<Byte>> {
      set d | d in recvDesc :: d.mem
    }

    ghost predicate Layout() {
      && cfg.Valid()
      && |recvDesc| == cfg.bufferNum
      && (forall i :: 0 <= i < |recvDesc| ==>
            && recvDesc[i].mem.Length == cfg.bufferBytes
            && recvDesc[i].mem != mem
            && IsTiling(recvDesc[i].sgeVec, cfg.bufferBytes, cfg.SgeBytes()))
    }

    ghost function Contents(): (c: seq<seq<Byte>>)
      reads Buffers()
      ensures |c| == |recvDesc|
      ensures forall i :: 0 <= i < |c| ==> c[i] == recvDesc[i].mem[..]
    {
      seq(|recvDesc|, i requires 0 <= i < |recvDesc| reads Buffers() => recvDesc[i].mem[..])
    }

    ghost function View(): ReadSide
      reads this, mem, Buffers()
    {
      ReadSide(readQueue, mem[..], Contents(), sent, fired, Idle)
    }

    ghost predicate Valid()
      reads this, mem, Buffers()
    {
      Layout() && WellFormed(cfg, View())
    }

    method GetWorkRecord() returns (r: WorkRecord)
      requires readQueue != []
      ensures r == readQueue[0]
    {
      r := readQueue[0];
    }

    method SetWorkRecordOffset(offset: nat)
      requires readQueue != []
      modifies this`readQueue
      ensures readQueue == old(readQueue)[0 := old(readQueue)[0].(offset := offset)]
    {
      readQueue := readQueue[0 := readQueue[0].(offset := offset)];
    }

    /** One turn of the gather loop: the first `temp` bytes of block `i`. */
    method CopyEntry(desc: IBVerbsMemDesc, i: nat, dstAddr: nat, record: nat, temp: nat, ghost was: seq<Byte>)
      requires i < |desc.sgeVec| && desc.mem != mem
      requires record + temp <= desc.mem.Length && desc.sgeVec[i].addr + temp <= desc.mem.Length
      requires |was| == mem.Length && dstAddr + record + temp <= |was|
      requires temp > 0 ==> desc.sgeVec[i].addr == record
      requires mem[..] == Overlay(was, dstAddr, desc.mem[..record])
      modifies mem
      ensures mem[..] == Overlay(was, dstAddr, desc.mem[..record + temp])
    {
      var sge := desc.sgeVec[i];
      ghost var from := desc.mem[..];
      OverlayTwice(was, dstAddr, from[..record], from[sge.addr..sge.addr + temp]);
      assert from[..record] + from[sge.addr..sge.addr + temp] == from[..record + temp];
      Memcpy(mem, dstAddr + record, desc.mem, sge.addr, temp);
    }

    /** The copy loop of SyncRead. */
    method GatherInto(desc: IBVerbsMemDesc, dstAddr: nat, t: nat, count: int)
      requires cfg.Valid() && t <= cfg.bufferBytes && count == cfg.SgeCount(t)
      requires desc.mem != mem && desc.mem.Length == cfg.bufferBytes
      requires IsTiling(desc.sgeVec, cfg.bufferBytes, cfg.SgeBytes())
      requires dstAddr + t <= mem.Length
      modifies mem
      ensures mem[..] == Overlay(old(mem[..]), dstAddr, desc.mem[..cfg.Copied(t)])
    {
      var s := cfg.SgeBytes();
      var n := if count < 0 then 0 else count;
      LoopMovesCopied(cfg, t, n);
      var record := 0;
      ghost var was := mem[..];
      assert was == Overlay(was, dstAddr, desc.mem[..0]);
      for i := 0 to n
        invariant 0 <= record == Min(t, i * s)
        invariant mem[..] == Overlay(was, dstAddr, desc.mem[..record])
      {
        EntryTurn(cfg, desc.sgeVec, t, i);
        var temp := Min(s, t - record);
        CopyEntry(desc, i, dstAddr, record, temp, was);
        record := record + temp;
      }
    }

    /** PostSendRequest for the two protocol messages; the last piece pops the read
        queue and calls the record's callback before the message is posted. */
    method PostSendRequest(msg: CtrlMsg)
      requires msg.FreeBufferPair? && msg.last ==> readQueue != []
      modifies this`readQueue, this`sent, this`fired
      ensures sent == old(sent) + [msg]
      ensures if msg.FreeBufferPair? && msg.last then
                && readQueue == old(readQueue)[1..]
                && match old(readQueue)[0].cb
                   case None => fired == old(fired)
                   case Some(c) => fired == old(fired) + [c]
              else readQueue == old(readQueue) && fired == old(fired)
    {
      if msg.FreeBufferPair? && msg.last {
        var record := readQueue[0];
        readQueue := readQueue[1..];
        match record.cb {
          case None =>
          case Some(c) => fired := fired + [c];
        }
      }
      sent := sent + [msg];
    }

    /** SyncRead, down to the FreeBufferPair it posts. */
    method SyncRead(buf: int)
      requires Valid() && readQueue != [] && 0 <= buf < cfg.bufferNum
      modifies this`readQueue, this`sent, this`fired, mem
      ensures Valid()
      ensures View() == Synced(cfg, old(View()), buf)
    {
      ghost var was := View();
      var curMsg := GetWorkRecord();
      var offset := curMsg.offset;
      var bytes := curMsg.bytes;
      var t := Min(bytes - offset, cfg.bufferBytes);
      var count := cfg.SgeCount(t);
      GatherInto(recvDesc[buf], curMsg.addr + offset, t, count);
      assert Contents() == was.recv;
      ghost var dst := mem[..];
      assert dst == Gather(cfg, was.dst, was.queue[0], was.recv[buf]);
      SetWorkRecordOffset(offset + t);
      var isLast := if offset + t < bytes then false else true;
      PostSendRequest(FreeBufferPair(buf, isLast));
      SyncedIs(cfg, was, buf, readQueue, fired);
      assert mem[..] == dst && Contents() == was.recv;
    }

    /** RDMARecvDone: an untagged immediate means more entries of the chunk follow. */
    method RDMARecvDone(imm: int)
      requires Valid()
      requires imm != INT_MAX ==> readQueue != [] && 0 <= imm < cfg.bufferNum
      modifies this`readQueue, this`sent, this`fired, mem
      ensures Valid()
      ensures View() == if imm == INT_MAX then old(View()) else Synced(cfg, old(View()), imm)
    {
      if imm != INT_MAX {
        SyncRead(imm);
      }
    }

    method DealWorkRecord(record: WorkRecord, srcAddr: nat)
      requires Valid() && RecordOk(mem[..], record)
      modifies this`readQueue, this`sent, this`fired
      ensures Valid()
      ensures View() == Dealt(old(View()), record, srcAddr)
    {
      readQueue := readQueue + [record];
      PostSendRequest(PleaseWrite(srcAddr, record.bytes));
      assert Contents() == old(Contents());
    }

    method RegisterReadDoneCb(cb: nat)
      modifies this`readDoneCbs
      ensures readDoneCbs == old(readDoneCbs) + [cb]
    {
      readDoneCbs := readDoneCbs + [cb];
    }

    /** RecvDone for the two protocol messages: the write helper is driven first, and a
        last piece then calls the oldest registered read-done callback, unless the write
        helper has thrown. */
    method RecvDone(msg: CtrlMsg) returns (thrown: bool)
      requires helper.Valid()
      requires msg.PleaseWrite? ==> msg.src + msg.bytes <= helper.mem.Length && msg.bytes < U64
      requires msg.FreeBufferPair? ==> 0 <= msg.buf < helper.cfg.bufferNum
      requires msg.FreeBufferPair? && msg.last ==> readDoneCbs != []
      modifies this`readDoneCbs, this`readDone, helper, helper.Buffers()
      ensures helper.Valid()
      ensures old(Writer.Stuck(helper.View())) ==> thrown == Writer.Throws(helper.cfg, helper.View())
      ensures old(Writer.Stuck(helper.View())) && !thrown ==> Writer.Stuck(helper.View())
      ensures match msg
              case PleaseWrite(src, bytes) =>
                var pushed := Writer.PushRecord(old(helper.View()), WorkRecord(src, bytes, 0, None));
                helper.View() == if old(helper.View()).pend == []
                                 then Ran(helper.cfg, helper.mem[..], pushed) else pushed
              case FreeBufferPair(buf, _) =>
                helper.View() == Ran(helper.cfg, helper.mem[..], Writer.PushIdle(old(helper.View()), buf))
      ensures if msg.FreeBufferPair? && msg.last && !thrown then
                readDone == old(readDone) + [old(readDoneCbs)[0]] && readDoneCbs == old(readDoneCbs)[1..]
              else readDone == old(readDone) && readDoneCbs == old(readDoneCbs)
    {
      match msg {
        case PleaseWrite(src, bytes) =>
          thrown := helper.AsyncWrite(WorkRecord(src, bytes, 0, None));
        case FreeBufferPair(buf, last) =>
          thrown := helper.FreeBuffer(buf);
          if last && !thrown {
            var cb := readDoneCbs[0];
            readDoneCbs := readDoneCbs[1..];
            readDone := readDone + [cb];
          }
      }
    }

    constructor (cfg: Config, mem: array<Byte>, recvDesc: seq<IBVerbsMemDesc>, helper: IBVerbsWriteHelper)
      requires cfg.Valid()
      requires |recvDesc| == cfg.bufferNum
      requires forall i :: 0 <= i < |recvDesc| ==>
                 && recvDesc[i].mem.Length == cfg.bufferBytes
                 && recvDesc[i].mem != mem
                 && IsTiling(recvDesc[i].sgeVec, cfg.bufferBytes, cfg.SgeBytes())
      ensures Valid()
      ensures View() == ReadSide([], mem[..], Contents(), [], [], Idle)
      ensures readDoneCbs == [] && readDone == []
      ensures this.cfg == cfg && this.mem == mem && this.recvDesc == recvDesc && this.helper == helper
      ensures forall i :: 0 <= i < |recvDesc| ==> View().recv[i] == old(recvDesc[i].mem[..])
    {
      this.cfg := cfg;
      this.mem := mem;
      this.recvDesc := recvDesc;
      this.helper := helper;
      readQueue, sent, fired, readDoneCbs, readDone := [], [], [], [], [];
    }
  }
}
