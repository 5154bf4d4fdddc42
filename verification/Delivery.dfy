/** What is in the buffers: from the scattered source bytes to the gathered destination. */
module Delivery {
  import opened Config
  import opened Messages
  import opened System
  import opened Stream
  import opened Ownership

  /** Some write of block `j` of buffer `b` has not landed yet. */
  ghost predicate Pending(wire: seq<RdmaWrite>, b: int, j: int) {
    exists x :: 0 <= x < |wire| && wire[x].buf == b && wire[x].sge == j
  }

  /** The buffers and the chunk have the sizes the protocol gives them. */
  ghost predicate Fits(cfg: Config, issued: seq<Read>, send: seq<Byte>, recv: seq<Byte>, c: Chunk)
    requires cfg.Valid()
  {
    && |send| == |recv| == cfg.bufferBytes
    && 0 <= c.read < |issued|
    && c.len <= cfg.bufferBytes && c.offset + c.len <= |issued[c.read].data|
  }

  /** Byte `p` of a chunk is in the send buffer, and either in the receive buffer too
      or in a block still on the wire. */
  ghost predicate ByteCarried(cfg: Config, issued: seq<Read>, send: seq<Byte>, recv: seq<Byte>, wire: seq<RdmaWrite>,
                        b: int, c: Chunk, p: nat)
    requires cfg.Valid() && Fits(cfg, issued, send, recv, c) && p < c.len
  {
    var v := issued[c.read].data[c.offset + p];
    && send[p] == v
    && (recv[p] == v || Pending(wire, b, p / cfg.SgeBytes()))
  }

  ghost predicate Carries(cfg: Config, issued: seq<Read>, send: seq<Byte>, recv: seq<Byte>, wire: seq<RdmaWrite>,
                        b: int, c: Chunk)
    requires cfg.Valid() && Fits(cfg, issued, send, recv, c)
  {
    forall p :: 0 <= p < cfg.Copied(c.len) ==> ByteCarried(cfg, issued, send, recv, wire, b, c, p)
  }

  lemma BlockOf(cfg: Config, p: nat)
    requires cfg.Valid()
    ensures p / cfg.SgeBytes() * cfg.SgeBytes() <= p < p / cfg.SgeBytes() * cfg.SgeBytes() + cfg.SgeBytes()
    ensures p / cfg.SgeBytes() >= 0
  {
    DivBounds(p, cfg.SgeBytes());
  }

  /** The entries posted for a chunk reach every byte that was copied. */
  lemma EntriesReach(cfg: Config, t: nat, p: nat)
    requires cfg.Valid() && t <= cfg.bufferBytes && p < cfg.Copied(t)
    ensures 0 <= p / cfg.SgeBytes() < cfg.SgeCount(t)
  {
    var s := cfg.SgeBytes();
    DivBounds(p, s);
    SgeCountOfChunk(cfg, t);
    DivMono(p, t - 1, s);
    if p / s >= cfg.sgeNum {
      MulMono(cfg.sgeNum, p / s, s);
    }
  }

  lemma PostedPending(cfg: Config, t: nat, p: nat, wire: seq<RdmaWrite>, b: int)
    requires cfg.Valid() && t <= cfg.bufferBytes && p < cfg.Copied(t)
    ensures Pending(wire + Writes(b, cfg.SgeCount(t)), b, p / cfg.SgeBytes())
  {
    var ws := Writes(b, cfg.SgeCount(t));
    EntriesReach(cfg, t, p);
    var j := p / cfg.SgeBytes();
    assert (wire + ws)[|wire| + j] == ws[j];
  }

  /** Posting a chunk: every copied byte is in the send buffer and on the wire. */
  lemma PostCarries(cfg: Config, issued: seq<Read>, c: Chunk, send: seq<Byte>, recv: seq<Byte>, wire: seq<RdmaWrite>,
                    b: int, bytes: seq<Byte>)
    requires cfg.Valid() && Fits(cfg, issued, send, recv, c)
    requires |bytes| == cfg.Copied(c.len)
    requires forall p :: 0 <= p < |bytes| ==> bytes[p] == issued[c.read].data[c.offset + p]
    ensures Carries(cfg, issued, Overlay(send, 0, bytes), recv, wire + Writes(b, cfg.SgeCount(c.len)), b, c)
  {
    forall p | 0 <= p < cfg.Copied(c.len)
      ensures ByteCarried(cfg, issued, Overlay(send, 0, bytes), recv, wire + Writes(b, cfg.SgeCount(c.len)), b, c, p)
    {
      PostedPending(cfg, c.len, p, wire, b);
    }
  }

  lemma PendingGrows(wire: seq<RdmaWrite>, more: seq<RdmaWrite>, b: int, j: int)
    requires Pending(wire, b, j)
    ensures Pending(wire + more, b, j)
  {
    var x :| 0 <= x < |wire| && wire[x].buf == b && wire[x].sge == j;
    assert (wire + more)[x] == wire[x];
  }

  lemma CarriesGrows(cfg: Config, issued: seq<Read>, send: seq<Byte>, recv: seq<Byte>, wire: seq<RdmaWrite>,
                     more: seq<RdmaWrite>, b: int, c: Chunk)
    requires cfg.Valid() && Fits(cfg, issued, send, recv, c)
    requires Carries(cfg, issued, send, recv, wire, b, c)
    ensures Carries(cfg, issued, send, recv, wire + more, b, c)
  {
    forall p | 0 <= p < cfg.Copied(c.len)
      ensures ByteCarried(cfg, issued, send, recv, wire + more, b, c, p)
    {
      assert ByteCarried(cfg, issued, send, recv, wire, b, c, p);
      if Pending(wire, b, p / cfg.SgeBytes()) {
        PendingGrows(wire, more, b, p / cfg.SgeBytes());
      }
    }
  }

  lemma PendingAfterLand(wire: seq<RdmaWrite>, b: int, j: int)
    requires wire != [] && Pending(wire, b, j) && (wire[0].buf != b || wire[0].sge != j)
    ensures Pending(wire[1..], b, j)
  {
    var x :| 0 <= x < |wire| && wire[x].buf == b && wire[x].sge == j;
    assert wire[1..][x - 1] == wire[x];
  }

  lemma LandByte(cfg: Config, issued: seq<Read>, send: seq<Byte>, recv: seq<Byte>, wire: seq<RdmaWrite>, b: int,
                 c: Chunk, p: nat)
    requires cfg.Valid() && Fits(cfg, issued, send, recv, c) && p < c.len
    requires wire != [] && wire[0].sge < cfg.sgeNum
    requires ByteCarried(cfg, issued, send, recv, wire, b, c, p)
    ensures ByteCarried(cfg, issued, send, if wire[0].buf == b then LandBlock(cfg, recv, send, wire[0].sge) else recv,
                        wire[1..], b, c, p)
  {
    EntryInside(cfg, wire[0].sge);
    BlockOf(cfg, p);
    if Pending(wire, b, p / cfg.SgeBytes()) && (wire[0].buf != b || wire[0].sge != p / cfg.SgeBytes()) {
      PendingAfterLand(wire, b, p / cfg.SgeBytes());
    }
  }

  /** A landed block delivers its bytes; the bytes of other blocks are still either
      delivered or pending. */
  lemma LandCarries(cfg: Config, issued: seq<Read>, send: seq<Byte>, recv: seq<Byte>, wire: seq<RdmaWrite>, b: int,
                    c: Chunk)
    requires cfg.Valid() && Fits(cfg, issued, send, recv, c)
    requires wire != [] && wire[0].sge < cfg.sgeNum
    requires Carries(cfg, issued, send, recv, wire, b, c)
    ensures Carries(cfg, issued, send, if wire[0].buf == b then LandBlock(cfg, recv, send, wire[0].sge) else recv,
                    wire[1..], b, c)
  {
    var landed := if wire[0].buf == b then LandBlock(cfg, recv, send, wire[0].sge) else recv;
    forall p | 0 <= p < cfg.Copied(c.len)
      ensures ByteCarried(cfg, issued, send, landed, wire[1..], b, c, p)
    {
      assert ByteCarried(cfg, issued, send, recv, wire, b, c, p);
      LandByte(cfg, issued, send, recv, wire, b, c, p);
    }
  }

  /** Once no write of the buffer is on the wire, the receive buffer holds the chunk. */
  lemma LandedCarries(cfg: Config, issued: seq<Read>, send: seq<Byte>, recv: seq<Byte>, wire: seq<RdmaWrite>, b: int,
                      c: Chunk)
    requires cfg.Valid() && Fits(cfg, issued, send, recv, c)
    requires Carries(cfg, issued, send, recv, wire, b, c) && !Mentions(wire, b)
    ensures forall p :: 0 <= p < cfg.Copied(c.len) ==> recv[p] == issued[c.read].data[c.offset + p]
  {
    forall p | 0 <= p < cfg.Copied(c.len)
      ensures recv[p] == issued[c.read].data[c.offset + p]
    {
      assert ByteCarried(cfg, issued, send, recv, wire, b, c, p);
    }
  }

  // ---------------------------------------------------------------- destinations

  /** A byte of a read reaches its destination when it lies within the entries of its
      chunk; beyond them the copy loops of both sides skip it. */
  predicate Covered(cfg: Config, p: int)
    requires cfg.Valid()
  {
    p % cfg.bufferBytes < cfg.sgeNum * cfg.SgeBytes()
  }

  predicate InData(issued: seq<Read>, c: Chunk) {
    0 <= c.read < |issued| && c.offset + c.len <= |issued[c.read].data|
  }

  /** The bytes of chunk `c` are in the buffer. */
  ghost predicate Delivered(cfg: Config, issued: seq<Read>, buffer: seq<Byte>, c: Chunk)
    requires cfg.Valid()
  {
    && InData(issued, c) && |buffer| == cfg.bufferBytes
    && forall q :: 0 <= q < cfg.Copied(c.len) && q < |buffer| ==> buffer[q] == issued[c.read].data[c.offset + q]
  }

  /** What byte `p` of read `k` holds once the first `done` bytes have been processed.
      `g` are the served chunks and `slot` the position in the stream of the first chunk
      of the read: the chunk at position m of the stream is filled from `g[m]`. */
  ghost predicate FilledAt(cfg: Config, issued: seq<Read>, g: seq<Chunk>, slot: int, dst: seq<Byte>, r: Read, p: nat,
                           done: nat)
    requires cfg.Valid() && Sized(r, dst) && p < r.bytes
  {
    var v := dst[r.dst + p];
    if p >= done || !Covered(cfg, p) then v == r.before[p]
    else
      var m := slot + p / cfg.bufferBytes;
      var q := p % cfg.bufferBytes;
      && 0 <= m < |g| && InData(issued, g[m])
      && (q < cfg.Copied(g[m].len) ==> v == issued[g[m].read].data[g[m].offset + q])
  }

  predicate Sized(r: Read, dst: seq<Byte>) {
    |r.data| == |r.before| == r.bytes && r.dst + r.bytes <= |dst|
  }

  ghost predicate Filled(cfg: Config, issued: seq<Read>, g: seq<Chunk>, slot: int, dst: seq<Byte>, r: Read, done: nat)
    requires cfg.Valid()
  {
    && Sized(r, dst)
    && forall p :: 0 <= p < r.bytes ==> FilledAt(cfg, issued, g, slot, dst, r, p, done)
  }

  /** The destination of a read of which nothing has been processed. */
  ghost predicate Untouched(dst: seq<Byte>, r: Read) {
    && Sized(r, dst)
    && forall p :: 0 <= p < r.bytes ==> dst[r.dst + p] == r.before[p]
  }

  /** The exact condition on sizes, which a caller can evaluate: every byte of a read
      is transferred if and only if SgeNum divides the buffer size or the read fits in
      the entries of one chunk. */
  predicate SizesFit(cfg: Config, bytes: nat)
    requires cfg.Valid()
  {
    cfg.bufferBytes % cfg.sgeNum == 0 || bytes <= cfg.sgeNum * cfg.SgeBytes()
  }

  lemma SizesFitIsExact(cfg: Config, bytes: nat)
    requires cfg.Valid()
    ensures SizesFit(cfg, bytes) <==> forall p :: 0 <= p < bytes ==> Covered(cfg, p)
  {
    var span := cfg.sgeNum * cfg.SgeBytes();
    SgeSpan(cfg);
    assert cfg.bufferBytes == span + cfg.bufferBytes % cfg.sgeNum;
    if bytes > span && cfg.bufferBytes % cfg.sgeNum != 0 {
      Small(span, cfg.bufferBytes);
      assert !Covered(cfg, span);
    }
    forall p | 0 <= p < bytes && SizesFit(cfg, bytes)
      ensures Covered(cfg, p)
    {
      if bytes <= span {
        Small(p, cfg.bufferBytes);
      }
    }
  }

  /** A configuration that is accepted and loses data: buffers of 4 MiB, the default, with
      three entries; the last byte of a 4 MiB read is lost. */
  lemma ThreeEntriesLoseTheLastByte()
    ensures var cfg := Config(4 * 1024 * 1024, 3, 2, 1);
            cfg.Valid() && !Covered(cfg, 4 * 1024 * 1024 - 1) && !SizesFit(cfg, 4 * 1024 * 1024)
  {
  }

  /** Gathering a buffer that carries served chunk `g[m]` fills the chunk at position m. */
  lemma GatherFills(cfg: Config, issued: seq<Read>, g: seq<Chunk>, slot: int, dst: seq<Byte>, r: Read, off: nat,
                    buffer: seq<Byte>)
    requires cfg.Valid() && |buffer| == cfg.bufferBytes && off % cfg.bufferBytes == 0 && off <= r.bytes
    requires 0 <= slot + off / cfg.bufferBytes < |g|
    requires Delivered(cfg, issued, buffer, g[slot + off / cfg.bufferBytes])
    requires Filled(cfg, issued, g, slot, dst, r, off)
    ensures var t := cfg.Transfer(r.bytes, off);
            && r.dst + off + |buffer[..cfg.Copied(t)]| <= |dst|
            && Filled(cfg, issued, g, slot, Overlay(dst, r.dst + off, buffer[..cfg.Copied(t)]), r, off + t)
  {
    var t := cfg.Transfer(r.bytes, off);
    var dst' := Overlay(dst, r.dst + off, buffer[..cfg.Copied(t)]);
    var next := off + t;
    forall p | 0 <= p < r.bytes
      ensures FilledAt(cfg, issued, g, slot, dst', r, p, next)
    {
      assert FilledAt(cfg, issued, g, slot, dst, r, p, off);
      if off <= p < off + t {
        InChunk(cfg, off, p);
        assert Covered(cfg, p) <==> p - off < cfg.Copied(t);
      }
    }
  }

  lemma InChunk(cfg: Config, off: nat, p: nat)
    requires cfg.Valid() && off % cfg.bufferBytes == 0 && off <= p < off + cfg.bufferBytes
    ensures p % cfg.bufferBytes == p - off && p / cfg.bufferBytes == off / cfg.bufferBytes
  {
    DivBounds(off, cfg.bufferBytes);
    DivUnique(p, cfg.bufferBytes, off / cfg.bufferBytes);
  }

  /** New reads change nothing about those already there. */
  lemma FilledGrows(cfg: Config, issued: seq<Read>, more: seq<Read>, g: seq<Chunk>, h: seq<Chunk>, slot: int,
                    dst: seq<Byte>, r: Read, done: nat)
    requires cfg.Valid() && issued <= more && g <= h && Filled(cfg, issued, g, slot, dst, r, done)
    ensures Filled(cfg, more, h, slot, dst, r, done)
  {
    forall p | 0 <= p < r.bytes
      ensures FilledAt(cfg, more, h, slot, dst, r, p, done)
    {
      assert FilledAt(cfg, issued, g, slot, dst, r, p, done);
    }
  }

  lemma StartsUntouched(cfg: Config, issued: seq<Read>, g: seq<Chunk>, slot: int, dst: seq<Byte>, r: Read)
    requires cfg.Valid()
    ensures Untouched(dst, r) <==> Filled(cfg, issued, g, slot, dst, r, 0)
  {
    if Sized(r, dst) {
      forall p | 0 <= p < r.bytes
        ensures FilledAt(cfg, issued, g, slot, dst, r, p, 0) <==> dst[r.dst + p] == r.before[p]
      {
      }
    }
  }

  /** Writing inside one region leaves a disjoint destination alone. */
  lemma OverlayElsewhere(dst: seq<Byte>, at: nat, data: seq<Byte>, r: Read, n: nat, base: nat)
    requires at + |data| <= |dst|
    requires base <= at && at + |data| <= base + n && Disjoint(base, n, r.dst, r.bytes)
    requires Untouched(dst, r)
    ensures Untouched(Overlay(dst, at, data), r)
  {
  }

  // ---------------------------------------------------------------- what a finished read holds

  /** The destination byte `p` of a read that got its own chunks. */
  function Want(cfg: Config, r: Read, p: int): Byte
    requires cfg.Valid() && 0 <= p < |r.data| == |r.before|
  {
    if Covered(cfg, p) then r.data[p] else r.before[p]
  }

  lemma OwnByte(cfg: Config, issued: seq<Read>, k: nat, p: nat)
    requires cfg.Valid() && k < |issued| && p < issued[k].bytes
    requires AllServable(cfg, issued[..k + 1])
    ensures var m := Slot(cfg, issued, k) + p / cfg.bufferBytes;
            var off := p - p % cfg.bufferBytes;
            && 0 <= off && 0 <= m < |Served(cfg, All(cfg, issued))|
            && Served(cfg, All(cfg, issued))[m] == Chunk(k, off, cfg.Transfer(issued[k].bytes, off))
  {
    var b := cfg.bufferBytes;
    var off := p - p % b;
    DivBounds(p, b);
    DivUnique(off, b, p / b);
    ChunkAt(cfg, issued, k, off);
    PrefixServed(cfg, issued, Slot(cfg, issued, k) + p / b);
  }

  // ---------------------------------------------------------------- one write lands

  /** A landed write brings one block of its own buffer, byte for byte, and nothing else. */
  lemma LandMovesOneBlock(cfg: Config, s: State, b: nat, p: nat)
    requires Sane(cfg, s) && s.ws.wire != [] && b < cfg.bufferNum && p < cfg.bufferBytes
    ensures var w, r, size := s.ws.wire[0], DoLand(cfg, s), cfg.SgeBytes();
            && r.ws.wire == s.ws.wire[1..] && r.cq == s.cq + [w.imm]
            && |r.rs.recv| == cfg.bufferNum && |r.rs.recv[b]| == cfg.bufferBytes
            && r.rs.recv[b][p] == if b == w.buf && w.sge * size <= p < w.sge * size + size
                                  then s.ws.send[b][p] else s.rs.recv[b][p]
  {
    assert WriteOk(cfg, s.ws.wire[0]);
    EntryInside(cfg, s.ws.wire[0].sge);
  }

  /** So does each of the writes that a loop posted before it threw; the last block may be
      shorter. */
  lemma StrayMovesOneBlock(cfg: Config, s: State, b: nat, p: nat)
    requires Sane(cfg, s) && Stray(s) && b < cfg.bufferNum && p < cfg.bufferBytes
    ensures var r, size, i := DoLandStray(cfg, s), cfg.SgeBytes(), Blocks(cfg) - s.thrown.value;
            && r.ws == s.ws && r.cq == s.cq + [INT_MAX]
            && |r.rs.recv| == cfg.bufferNum && |r.rs.recv[b]| == cfg.bufferBytes
            && r.rs.recv[b][p] == if b == s.ws.buf && i * size <= p < i * size + size
                                  then s.ws.send[b][p] else s.rs.recv[b][p]
  {
    BlockInside(cfg, Blocks(cfg) - s.thrown.value);
  }

  /** If every read up to this one is servable, each byte got its own. */
  lemma FilledIsWanted(cfg: Config, issued: seq<Read>, k: nat, dst: seq<Byte>)
    requires cfg.Valid() && k < |issued| && AllServable(cfg, issued[..k + 1])
    requires Filled(cfg, issued, Served(cfg, All(cfg, issued)), Slot(cfg, issued, k), dst, issued[k], issued[k].bytes)
    ensures Sized(issued[k], dst)
    ensures forall p :: 0 <= p < issued[k].bytes ==> dst[issued[k].dst + p] == Want(cfg, issued[k], p)
  {
    var r := issued[k];
    forall p | 0 <= p < r.bytes
      ensures dst[r.dst + p] == Want(cfg, r, p)
    {
      OwnByte(cfg, issued, k, p);
      assert FilledAt(cfg, issued, Served(cfg, All(cfg, issued)), Slot(cfg, issued, k), dst, r, p, r.bytes);
      DivBounds(p, cfg.bufferBytes);
    }
  }
}
