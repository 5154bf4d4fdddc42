/**
 The configured sizes, and the arithmetic that reader and writer each do on
 their own for every chunk.  `size_t` subtraction wraps at 2^64 and the entry
 count is narrowed to a signed 32-bit integer; both are written out.
 */
module Config {

  newtype Byte = x: int | 0 <= x < 256

  const U64: int := 0x1_0000_0000_0000_0000
  const U32: int := 0x1_0000_0000
  const INT_MAX: int := 0x7FFF_FFFF

  function Min(a: int, b: int): int {
    if a <= b then a else b
  }

  /** `bufferBytes` is PerRegisterBufferMBytes() * 1024 * 1024, `sgeNum` is SgeNum(),
      `bufferNum` is RegisterBufferNum(), `recvRequests` is the number of receive
      requests a queue pair keeps posted. */
  datatype Config = Config(bufferBytes: int, sgeNum: int, bufferNum: int, recvRequests: int) {

    function SgeBytes(): int
      requires sgeNum != 0
    {
      bufferBytes / sgeNum
    }

    /** What the source needs to run at all: no division by zero, ids below the
        untagged immediate, and a block count that fits the 32-bit entry count. */
    predicate Valid() {
      && 1 <= bufferBytes < U64
      && 1 <= sgeNum
      && 1 <= SgeBytes()
      && BlockNum(bufferBytes, SgeBytes()) <= INT_MAX
      && 1 <= bufferNum <= INT_MAX
      && 1 <= recvRequests
    }

    /** Bytes one chunk moves: what is left of the record, at most one buffer. */
    function Transfer(bytes: nat, offset: nat): (t: nat)
      requires offset <= bytes && 0 <= bufferBytes
      ensures t <= bytes - offset && t <= bufferBytes
    {
      Min(bytes - offset, bufferBytes)
    }

    /** Scatter/gather entries used for a chunk of `t` bytes, with the source's wrap-around. */
    function SgeCount(t: nat): int
      requires Valid()
    {
      Min(sgeNum, ToInt32(((t - 1) % U64 / SgeBytes() + 1) % U64))
    }

    /** Bytes of a `t`-byte chunk that the entries can hold. */
    function Copied(t: nat): (c: nat)
      requires Valid()
      ensures c <= t
    {
      SgeSpan(this);
      Min(t, sgeNum * SgeBytes())
    }

    /** A read the protocol can serve: its chunks get at least one entry.  A
        caller can evaluate this before issuing the read. */
    predicate Servable(bytes: nat)
      requires Valid()
    {
      bytes > 0 || SgeCount(0) >= 1
    }
  }

  function BlockNum(size: int, block: int): int
    requires block != 0
  {
    (size - 1) / block + 1
  }

  /** Blocks of a registered buffer. */
  function Blocks(cfg: Config): nat
    requires cfg.Valid()
  {
    BlockNum(cfg.bufferBytes, cfg.SgeBytes())
  }

  function ToInt32(x: nat): int {
    var low := x % U32;
    if low <= INT_MAX then low else low - U32
  }

  lemma MulMono(a: int, b: int, c: int)
    requires a <= b && 0 <= c
    ensures a * c <= b * c
  {
  }

  lemma DivBounds(a: int, b: int)
    requires 0 <= a && 0 < b
    ensures a / b * b <= a < a / b * b + b
    ensures 0 <= a / b
  {
    assert a == a / b * b + a % b;
  }

  lemma DivUnique(a: int, b: int, q: int)
    requires 0 < b && q * b <= a < q * b + b
    ensures a / b == q && a % b == a - q * b
  {
    assert a == a / b * b + a % b;
    if a / b < q {
      MulMono(a / b + 1, q, b);
    } else if a / b > q {
      MulMono(q + 1, a / b, b);
    }
  }

  lemma DivMono(a: int, b: int, c: int)
    requires 0 <= a <= b && 0 < c
    ensures a / c <= b / c
  {
    DivBounds(a, c);
    DivBounds(b, c);
    if a / c > b / c {
      MulMono(b / c + 1, a / c, c);
    }
  }

  lemma Small(a: int, m: int)
    requires 0 <= a < m
    ensures a % m == a
  {
  }

  /** The entries in use always lie inside the buffer. */
  lemma SgeSpan(cfg: Config)
    requires cfg.Valid()
    ensures 1 <= cfg.sgeNum * cfg.SgeBytes() <= cfg.bufferBytes
  {
    DivBounds(cfg.bufferBytes, cfg.sgeNum);
    MulMono(1, cfg.sgeNum, cfg.SgeBytes());
  }

  /** For a chunk that has bytes the entry count is the ceiling of t / SgeBytes,
      capped by SgeNum; the narrowing never bites. */
  lemma SgeCountOfChunk(cfg: Config, t: nat)
    requires cfg.Valid() && 1 <= t <= cfg.bufferBytes
    ensures cfg.SgeCount(t) == Min(cfg.sgeNum, BlockNum(t, cfg.SgeBytes())) >= 1
  {
    var s := cfg.SgeBytes();
    DivMono(t - 1, cfg.bufferBytes - 1, s);
    DivBounds(t - 1, s);
    Small(t - 1, U64);
    var raw := (t - 1) / s + 1;
    assert 1 <= raw <= INT_MAX;
    Small(raw, U64);
    Small(raw, U32);
    assert ToInt32(raw) == raw;
  }

  lemma StartedBlocks(t: nat, s: int)
    requires 1 <= t && 1 <= s
    ensures BlockNum(t, s) * s >= t
  {
    DivBounds(t - 1, s);
  }

  /** Entry `i` lies inside the entries, and these inside the buffer. */
  lemma EntryInside(cfg: Config, i: nat)
    requires cfg.Valid() && i < cfg.sgeNum
    ensures 0 <= i * cfg.SgeBytes() <= i * cfg.SgeBytes() + cfg.SgeBytes()
    ensures i * cfg.SgeBytes() + cfg.SgeBytes() <= cfg.sgeNum * cfg.SgeBytes() <= cfg.bufferBytes
  {
    SgeSpan(cfg);
    MulMono(i + 1, cfg.sgeNum, cfg.SgeBytes());
    MulMono(0, i, cfg.SgeBytes());
  }

  /** A block starts inside the buffer. */
  lemma BlockInside(cfg: Config, i: nat)
    requires cfg.Valid() && i < Blocks(cfg)
    ensures 0 <= i * cfg.SgeBytes() < cfg.bufferBytes
  {
    DivBounds(cfg.bufferBytes - 1, cfg.SgeBytes());
    MulMono(i, Blocks(cfg) - 1, cfg.SgeBytes());
    MulMono(0, i, cfg.SgeBytes());
  }

  /** The copy loop stops after SgeCount entries of SgeBytes each, and that moves
      exactly `Copied` bytes, whichever of the two caps applies. */
  lemma LoopMovesCopied(cfg: Config, t: nat, count: nat)
    requires cfg.Valid() && t <= cfg.bufferBytes
    requires count == if cfg.SgeCount(t) < 0 then 0 else cfg.SgeCount(t)
    ensures Min(t, count * cfg.SgeBytes()) == cfg.Copied(t)
    ensures count <= cfg.sgeNum
  {
    SgeSpan(cfg);
    var s := cfg.SgeBytes();
    MulMono(0, count, s);
    if t >= 1 {
      SgeCountOfChunk(cfg, t);
      if count < cfg.sgeNum {
        MulMono(count, cfg.sgeNum, s);
        StartedBlocks(t, s);
      }
    }
  }

  lemma SgeCountRange(cfg: Config, t: nat)
    requires cfg.Valid()
    ensures -INT_MAX - 1 <= cfg.SgeCount(t) <= Min(cfg.sgeNum, INT_MAX)
  {
  }

  lemma SgeNumBlocks(cfg: Config)
    requires cfg.Valid()
    ensures cfg.sgeNum <= Blocks(cfg) <= INT_MAX
  {
    var s := cfg.SgeBytes();
    SgeSpan(cfg);
    assert (cfg.sgeNum - 1) * s == cfg.sgeNum * s - s;
    DivUnique(cfg.sgeNum * s - 1, s, cfg.sgeNum - 1);
    DivMono(cfg.sgeNum * s - 1, cfg.bufferBytes - 1, s);
  }

  /** Only an empty chunk can get no entry, or a negative number of them. */
  lemma FewEntriesMeansEmpty(cfg: Config, t: nat)
    requires cfg.Valid() && t <= cfg.bufferBytes && cfg.SgeCount(t) < 1
    ensures t == 0
  {
    if t >= 1 {
      SgeCountOfChunk(cfg, t);
    }
  }

  /** Where the size of an entry divides 2^32 a zero-byte read gets no entry at all. */
  lemma ZeroByteReadNotServable(cfg: Config, k: int)
    requires cfg.Valid() && cfg.SgeBytes() * k == U32
    ensures cfg.SgeCount(0) == 0 && !cfg.Servable(0)
  {
    var s := cfg.SgeBytes();
    assert k > 0 by {
      if k <= 0 { MulMono(k, 0, s); }
    }
    var q := k * U32 - 1;
    assert q * s == (s * k) * U32 - s;
    DivUnique(U64 - 1, s, q);
    assert k <= U32 by {
      MulMono(1, s, k);
    }
    assert (q + 1) % U64 == (k * U32) % U64;
    assert (k * U32) % U32 == 0;
    if k == U32 {
    } else {
      assert (k * U32) % U64 == k * U32 by {
        MulMono(k, U32 - 1, U32);
        DivUnique(k * U32, U64, 0);
      }
    }
  }

  /** The default sizes, one entry of 4 MiB, are of this kind. */
  lemma ZeroByteReadByDefault()
    ensures Config(4 * 1024 * 1024, 1, 2, 1).Valid() && Config(4 * 1024 * 1024, 1, 2, 1).SgeCount(0) == 0
  {
    ZeroByteReadNotServable(Config(4 * 1024 * 1024, 1, 2, 1), 1024);
  }

  /** With buffers of 4 MiB and three entries a zero-byte read does get entries. */
  lemma ZeroByteReadServable()
    ensures Config(4 * 1024 * 1024, 3, 2, 1).Valid() && Config(4 * 1024 * 1024, 3, 2, 1).SgeCount(0) == 3
    ensures Config(4 * 1024 * 1024, 3, 2, 1).Servable(0)
  {
    var cfg := Config(4 * 1024 * 1024, 3, 2, 1);
    assert cfg.SgeBytes() == 1398101;
    DivUnique(U64 - 1, 1398101, 13194142679040);
    DivUnique(13194142679041, U64, 0);
    DivUnique(13194142679041, U32, 3072);
    assert ToInt32(13194142679041) == 3145729;
  }

  /** With buffers of 1 MiB and 40 entries the count of a zero-byte read is negative. */
  lemma ZeroByteReadNegative()
    ensures Config(1024 * 1024, 40, 2, 1).Valid() && Config(1024 * 1024, 40, 2, 1).SgeCount(0) == -2147319805
  {
    var cfg := Config(1024 * 1024, 40, 2, 1);
    assert cfg.SgeBytes() == 26214;
    DivUnique(U64 - 1, 26214, 703698179358722);
    DivUnique(703698179358723, U64, 0);
    DivUnique(703698179358723, U32, 163842);
    assert ToInt32(703698179358723) == -2147319805;
  }
}
