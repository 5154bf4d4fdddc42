/** Records, wire messages and memory, as values shared by both endpoints. */
module Messages {
  import opened Config
  import opened Options

  /** `begin_addr`, `bytes`, `offset`, `cb` of a WorkRecord. */
  datatype WorkRecord = WorkRecord(addr: nat, bytes: nat, offset: nat, cb: Option<nat>)

  /** Control messages from the reader to the writer. */
  datatype CtrlMsg =
    | PleaseWrite(src: nat, bytes: nat)
    | FreeBufferPair(buf: int, last: bool)

  /** One RDMA write with immediate: block `sge` of send buffer `buf` goes to block
      `sge` of the peer's receive buffer `buf`.  Only the immediate is seen by the
      peer's poller. */
  datatype RdmaWrite = RdmaWrite(buf: int, sge: nat, imm: int)

  /** The writes posted for one chunk; the last one carries the buffer id.  A negative
      count is never posted like this: see `Strays`. */
  function Writes(buf: int, count: int): (ws: seq<RdmaWrite>)
    ensures |ws| == if count < 0 then 0 else count
    ensures forall i :: 0 <= i < |ws| ==>
              ws[i] == RdmaWrite(buf, i, if i == count - 1 then buf else INT_MAX)
  {
    seq(if count < 0 then 0 else count,
        (i: nat) => RdmaWrite(buf, i, if i == count - 1 then buf else INT_MAX))
  }

  /** What a posting loop that does not end by itself has posted when it runs out of
      blocks: one untagged write for every block. */
  function Strays(buf: int, blocks: nat): (ws: seq<RdmaWrite>)
    ensures |ws| == blocks && forall i :: 0 <= i < |ws| ==> ws[i] == RdmaWrite(buf, i, INT_MAX)
  {
    seq(blocks, (i: nat) => RdmaWrite(buf, i, INT_MAX))
  }

  /** `m` with `data` written at address `at`. */
  function Overlay(m: seq<Byte>, at: nat, data: seq<Byte>): (r: seq<Byte>)
    requires at + |data| <= |m|
    ensures |r| == |m|
    ensures forall p :: 0 <= p < |m| ==>
              r[p] == if at <= p < at + |data| then data[p - at] else m[p]
  {
    m[..at] + data + m[at + |data|..]
  }

  /** Two consecutive overlays are one. */
  lemma OverlayTwice(m: seq<Byte>, at: nat, a: seq<Byte>, b: seq<Byte>)
    requires at + |a| + |b| <= |m|
    ensures Overlay(Overlay(m, at, a), at + |a|, b) == Overlay(m, at, a + b)
  {
  }

  /** memcpy between two different regions. */
  method Memcpy(dst: array<Byte>, d: nat, src: array<Byte>, s: nat, n: nat)
    requires dst != src
    requires d + n <= dst.Length && s + n <= src.Length
    modifies dst
    ensures dst[..] == Overlay(old(dst[..]), d, src[s..s + n])
  {
    ghost var was := dst[..];
    for i := 0 to n
      invariant forall p :: 0 <= p < dst.Length ==>
                  dst[p] == if d <= p < d + i then src[s + p - d] else was[p]
    {
      dst[d + i] := src[s + i];
    }
    assert dst[..] == Overlay(was, d, src[s..s + n]);
  }
}
