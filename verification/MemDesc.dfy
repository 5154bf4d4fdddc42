/** Registered memory: a region tiled into scatter/gather blocks. */
module MemDesc {
  import opened Config

  /** An `ibv_sge`, with its address relative to the start of the region. */
  datatype Sge = Sge(addr: nat, length: nat)

  /** What a tiling of `size` bytes into blocks of at most `block` bytes must be. */
  ghost predicate IsTiling(sges: seq<Sge>, size: nat, block: nat) {
    && (forall i :: 0 <= i < |sges| ==> 1 <= sges[i].length <= block)
    && (forall i :: 0 <= i < |sges| - 1 ==> sges[i].length == block)
    && (forall i :: 0 <= i < |sges| ==> sges[i].addr == i * block)
    && (if |sges| == 0 then size == 0
        else sges[|sges| - 1].addr + sges[|sges| - 1].length == size)
  }

  class IBVerbsMemDesc {
    const mem: array<Byte>
    const sgeVec: seq<Sge>

    /** The final CHECKs of the source (byte_size == 0, block_num == sge_vec_.size())
        are the last two facts of the contract. */
    constructor (mem: array<Byte>, block: nat)
      requires mem.Length >= 1 && block >= 1
      ensures this.mem == mem
      ensures IsTiling(sgeVec, mem.Length, block)
      ensures |sgeVec| == BlockNum(mem.Length, block)
    {
      var byteSize := mem.Length;
      var ptr := 0;
      var sges: seq<Sge> := [];
      while byteSize > 0
        invariant 0 <= byteSize && ptr + byteSize == mem.Length
        invariant IsTiling(sges, ptr, block)
        invariant byteSize > 0 ==> ptr == |sges| * block
        invariant (|sges| - 1) * block < mem.Length
        invariant byteSize == 0 ==> |sges| >= 1
      {
        var curSize := Min(byteSize, block);
        sges := sges + [Sge(ptr, curSize)];
        ptr := ptr + curSize;
        byteSize := byteSize - curSize;
      }
      TilingLength(sges, mem.Length, block);
      this.mem := mem;
      this.sgeVec := sges;
    }
  }

  /** A tiling is fixed by the sizes alone: one block per started `block` bytes. */
  lemma TilingLength(sges: seq<Sge>, size: nat, block: nat)
    requires block >= 1 && size >= 1 && IsTiling(sges, size, block)
    ensures |sges| == BlockNum(size, block)
  {
    var n := |sges|;
    assert sges[n - 1].addr == (n - 1) * block;
    DivUnique(size - 1, block, n - 1);
  }

  /** Block `i` holds byte `p` exactly when i == p / block. */
  lemma BlockHolds(sges: seq<Sge>, size: nat, block: nat, p: nat, i: nat)
    requires block >= 1 && IsTiling(sges, size, block) && p < size && i < |sges|
    ensures sges[i].addr <= p < sges[i].addr + sges[i].length <==> i == p / block
  {
    var q := p / block;
    DivBounds(p, block);
    assert sges[i].addr == i * block && sges[i].length <= block;
    if i < q {
      MulMono(i + 1, q, block);
    } else if i > q {
      MulMono(q + 1, i, block);
    }
  }

  /** Every byte of the region lies in exactly one block, so the blocks cover the
      region without overlap. */
  lemma TilingCovers(sges: seq<Sge>, size: nat, block: nat, p: nat)
    requires block >= 1 && IsTiling(sges, size, block) && p < size
    ensures p / block < |sges|
    ensures forall i :: 0 <= i < |sges| ==>
              (sges[i].addr <= p < sges[i].addr + sges[i].length <==> i == p / block)
  {
    DivBounds(p, block);
    var n := |sges|;
    assert sges[n - 1].addr == (n - 1) * block;
    if p / block >= n {
      MulMono(n, p / block, block);
    }
    forall i | 0 <= i < n
      ensures sges[i].addr <= p < sges[i].addr + sges[i].length <==> i == p / block
    {
      BlockHolds(sges, size, block, p, i);
    }
  }

  /** The first SgeNum blocks of a registered buffer exist and are full blocks, so
      the `.at(i)` of the copy loops is always in range. */
  lemma EntriesAreFullBlocks(cfg: Config, sges: seq<Sge>, i: nat)
    requires cfg.Valid() && IsTiling(sges, cfg.bufferBytes, cfg.SgeBytes()) && i < cfg.sgeNum
    ensures i < |sges| && sges[i] == Sge(i * cfg.SgeBytes(), cfg.SgeBytes())
  {
    var s := cfg.SgeBytes();
    SgeSpan(cfg);
    MulMono(i + 1, cfg.sgeNum, s);
    assert i * s + s <= cfg.bufferBytes;
    MulMono(0, i, s);
    TilingCovers(sges, cfg.bufferBytes, s, i * s);
    DivUnique(i * s, s, i);
  }
}
