/** The stream of chunks that a list of reads is cut into. */
module Stream {
  import opened Config
  import opened System

  datatype Chunk = Chunk(read: int, offset: nat, len: nat)

  /** Chunks from offset `off` of read `r` to the end of the last read, each at most
      one buffer long; an empty read still has one, empty, chunk. */
  function Chunks(cfg: Config, issued: seq<Read>, r: nat, off: nat): seq<Chunk>
    requires cfg.Valid()
    requires r < |issued| ==> off <= issued[r].bytes
    decreases |issued| - r, if r < |issued| then issued[r].bytes - off else 0
  {
    if r >= |issued| then []
    else
      var t := cfg.Transfer(issued[r].bytes, off);
      [Chunk(r, off, t)]
      + if off + t < issued[r].bytes then Chunks(cfg, issued, r, off + t)
        else Chunks(cfg, issued, r + 1, 0)
  }

  /** The place of a chunk inside its read. */
  predicate Aligned(cfg: Config, bytes: nat, off: nat)
    requires cfg.Valid()
  {
    off % cfg.bufferBytes == 0 && (off < bytes || off == 0)
  }

  ghost predicate ChunkOk(cfg: Config, issued: seq<Read>, c: Chunk)
    requires cfg.Valid()
  {
    && 0 <= c.read < |issued|
    && c.offset <= issued[c.read].bytes
    && c.len == cfg.Transfer(issued[c.read].bytes, c.offset)
    && Aligned(cfg, issued[c.read].bytes, c.offset)
  }

  lemma NextAligned(cfg: Config, bytes: nat, off: nat)
    requires cfg.Valid() && off <= bytes && Aligned(cfg, bytes, off)
    requires off + cfg.Transfer(bytes, off) < bytes
    ensures cfg.Transfer(bytes, off) == cfg.bufferBytes
    ensures Aligned(cfg, bytes, off + cfg.Transfer(bytes, off))
  {
    var b := cfg.bufferBytes;
    var q := off / b;
    DivBounds(off, b);
    assert (q + 1) * b == off + b;
    DivUnique(off + b, b, q + 1);
  }

  lemma {:induction false} ChunksOk(cfg: Config, issued: seq<Read>, r: nat, off: nat)
    requires cfg.Valid()
    requires r < |issued| ==> off <= issued[r].bytes && Aligned(cfg, issued[r].bytes, off)
    ensures forall i :: 0 <= i < |Chunks(cfg, issued, r, off)| ==>
              ChunkOk(cfg, issued, Chunks(cfg, issued, r, off)[i]) && r <= Chunks(cfg, issued, r, off)[i].read
    ensures r < |issued| ==> |Chunks(cfg, issued, r, off)| >= 1
    decreases |issued| - r, if r < |issued| then issued[r].bytes - off else 0
  {
    if r < |issued| {
      var t := cfg.Transfer(issued[r].bytes, off);
      if off + t < issued[r].bytes {
        NextAligned(cfg, issued[r].bytes, off);
        ChunksOk(cfg, issued, r, off + t);
      } else {
        ChunksOk(cfg, issued, r + 1, 0);
      }
    }
  }

  /** A new read appends its chunks and changes none. */
  lemma ChunksAppend(cfg: Config, issued: seq<Read>, x: Read, r: nat, off: nat)
    requires cfg.Valid()
    requires r <= |issued|
    requires if r < |issued| then off <= issued[r].bytes else off == 0
    ensures Chunks(cfg, issued + [x], r, off)
         == Chunks(cfg, issued, r, off) + Chunks(cfg, issued + [x], |issued|, 0)
  {
    ChunksOfLonger(cfg, issued, issued + [x], r, off, Chunks(cfg, issued + [x], |issued|, 0));
  }

  lemma {:induction false} ChunksOfLonger(cfg: Config, issued: seq<Read>, all: seq<Read>, r: nat, off: nat,
                                          tail: seq<Chunk>)
    requires cfg.Valid() && issued <= all && r <= |issued| && tail == Chunks(cfg, all, |issued|, 0)
    requires if r < |issued| then off <= issued[r].bytes else off == 0
    ensures Chunks(cfg, all, r, off) == Chunks(cfg, issued, r, off) + tail
    decreases |issued| - r, if r < |issued| then issued[r].bytes - off else 0
  {
    if r < |issued| {
      var next := off + cfg.Transfer(issued[r].bytes, off);
      if next < issued[r].bytes {
        ChunksOfLonger(cfg, issued, all, r, next, tail);
        AppendInside(cfg, issued, all, r, off, next, tail);
      } else {
        ChunksOfLonger(cfg, issued, all, r + 1, 0, tail);
        AppendLast(cfg, issued, all, r, off, tail);
      }
    }
  }

  lemma ChunksInside(cfg: Config, issued: seq<Read>, r: nat, off: nat, next: nat)
    requires cfg.Valid() && r < |issued| && off <= issued[r].bytes
    requires next == off + cfg.Transfer(issued[r].bytes, off) < issued[r].bytes
    ensures Chunks(cfg, issued, r, off) == [Chunk(r, off, next - off)] + Chunks(cfg, issued, r, next)
  {
  }

  lemma ChunksLast(cfg: Config, issued: seq<Read>, r: nat, off: nat)
    requires cfg.Valid() && r < |issued| && off <= issued[r].bytes
    requires off + cfg.Transfer(issued[r].bytes, off) >= issued[r].bytes
    ensures Chunks(cfg, issued, r, off) == [Chunk(r, off, issued[r].bytes - off)] + Chunks(cfg, issued, r + 1, 0)
  {
  }

  lemma AppendInside(cfg: Config, issued: seq<Read>, all: seq<Read>, r: nat, off: nat, next: nat, tail: seq<Chunk>)
    requires cfg.Valid() && r < |issued| <= |all| && issued[r] == all[r] && off <= issued[r].bytes
    requires next == off + cfg.Transfer(issued[r].bytes, off) < issued[r].bytes
    requires Chunks(cfg, all, r, next) == Chunks(cfg, issued, r, next) + tail
    ensures Chunks(cfg, all, r, off) == Chunks(cfg, issued, r, off) + tail
  {
    ChunksInside(cfg, issued, r, off, next);
    ChunksInside(cfg, all, r, off, next);
    Prepend(Chunk(r, off, next - off), Chunks(cfg, issued, r, next), Chunks(cfg, issued, r, off),
            Chunks(cfg, all, r, next), Chunks(cfg, all, r, off), tail);
  }

  lemma AppendLast(cfg: Config, issued: seq<Read>, all: seq<Read>, r: nat, off: nat, tail: seq<Chunk>)
    requires cfg.Valid() && r < |issued| <= |all| && issued[r] == all[r] && off <= issued[r].bytes
    requires off + cfg.Transfer(issued[r].bytes, off) >= issued[r].bytes
    requires Chunks(cfg, all, r + 1, 0) == Chunks(cfg, issued, r + 1, 0) + tail
    ensures Chunks(cfg, all, r, off) == Chunks(cfg, issued, r, off) + tail
  {
    ChunksLast(cfg, issued, r, off);
    ChunksLast(cfg, all, r, off);
    Prepend(Chunk(r, off, issued[r].bytes - off), Chunks(cfg, issued, r + 1, 0), Chunks(cfg, issued, r, off),
            Chunks(cfg, all, r + 1, 0), Chunks(cfg, all, r, off), tail);
  }

  lemma Prepend(c: Chunk, a: seq<Chunk>, ca: seq<Chunk>, b: seq<Chunk>, cb: seq<Chunk>, tail: seq<Chunk>)
    requires ca == [c] + a && cb == [c] + b && b == a + tail
    ensures cb == ca + tail
  {
  }

  lemma Regroup(c: seq<Chunk>, a: seq<Chunk>, b: seq<Chunk>)
    ensures c + (a + b) == (c + a) + b
  {
  }

  /** The chunks for which the writer posts a tagged write, in order. */
  function Served(cfg: Config, cs: seq<Chunk>): seq<Chunk>
    requires cfg.Valid()
  {
    if cs == [] then []
    else IfServed(cfg, cs[0]) + Served(cfg, cs[1..])
  }

  function IfServed(cfg: Config, c: Chunk): seq<Chunk>
    requires cfg.Valid()
  {
    if cfg.SgeCount(c.len) >= 1 then [c] else []
  }

  lemma {:induction false} ServedAppend(cfg: Config, a: seq<Chunk>, b: seq<Chunk>)
    requires cfg.Valid()
    ensures Served(cfg, a + b) == Served(cfg, a) + Served(cfg, b)
  {
    if a == [] {
      assert a + b == b;
    } else {
      ServedAppend(cfg, a[1..], b);
      assert (a + b)[1..] == a[1..] + b;
      Regroup(IfServed(cfg, a[0]), Served(cfg, a[1..]), Served(cfg, b));
    }
  }

  lemma ServedOne(cfg: Config, c: Chunk)
    requires cfg.Valid()
    ensures Served(cfg, [c]) == if cfg.SgeCount(c.len) >= 1 then [c] else []
  {
    assert [c][1..] == [];
  }

  lemma {:induction false} ServedAtMost(cfg: Config, cs: seq<Chunk>)
    requires cfg.Valid()
    ensures |Served(cfg, cs)| <= |cs|
  {
    if cs != [] {
      ServedAtMost(cfg, cs[1..]);
    }
  }

  /** Reads whose single chunk gets no entry. */
  function Bad(cfg: Config, issued: seq<Read>): nat
    requires cfg.Valid()
  {
    if issued == [] then 0
    else Bad(cfg, issued[..|issued| - 1])
         + if cfg.Servable(issued[|issued| - 1].bytes) then 0 else 1
  }

  predicate AllServable(cfg: Config, issued: seq<Read>)
    requires cfg.Valid()
  {
    forall i :: 0 <= i < |issued| ==> cfg.Servable(issued[i].bytes)
  }

  lemma {:induction false} BadIsZero(cfg: Config, issued: seq<Read>)
    requires cfg.Valid()
    ensures Bad(cfg, issued) == 0 <==> AllServable(cfg, issued)
  {
    if issued != [] {
      var n := |issued| - 1;
      BadIsZero(cfg, issued[..n]);
      if AllServable(cfg, issued[..n]) && cfg.Servable(issued[n].bytes) {
        forall i | 0 <= i < |issued| ensures cfg.Servable(issued[i].bytes) {
          if i < n { assert cfg.Servable(issued[..n][i].bytes); }
        }
      }
      if AllServable(cfg, issued) {
        forall i | 0 <= i < n ensures cfg.Servable(issued[..n][i].bytes) {
          assert cfg.Servable(issued[i].bytes);
        }
      }
    }
  }

  /** All chunks of a servable read are served; an unservable read has exactly one, which
      is not. */
  lemma {:induction false} ServedOfLastRead(cfg: Config, issued: seq<Read>, off: nat)
    requires cfg.Valid() && issued != []
    requires off <= issued[|issued| - 1].bytes < U64 && (off == issued[|issued| - 1].bytes ==> off == 0)
    ensures var r := |issued| - 1;
            var cs := Chunks(cfg, issued, r, off);
            |cs| == |Served(cfg, cs)| + if cfg.Servable(issued[r].bytes) then 0 else 1
    decreases issued[|issued| - 1].bytes - off
  {
    var r := |issued| - 1;
    var t := cfg.Transfer(issued[r].bytes, off);
    var cs := Chunks(cfg, issued, r, off);
    if t >= 1 {
      SgeCountOfChunk(cfg, t);
    }
    if off + t < issued[r].bytes {
      ServedOfLastRead(cfg, issued, off + t);
      assert cs[1..] == Chunks(cfg, issued, r, off + t);
    } else {
      assert Chunks(cfg, issued, r + 1, 0) == [];
      assert cs == [Chunk(r, off, t)];
      assert cs[1..] == [];
    }
  }

  lemma ChunkServed(cfg: Config, issued: seq<Read>, c: Chunk)
    requires cfg.Valid() && ChunkOk(cfg, issued, c) && cfg.Servable(issued[c.read].bytes)
    ensures cfg.SgeCount(c.len) >= 1
  {
    if c.len >= 1 {
      SgeCountOfChunk(cfg, c.len);
    }
  }

  // ---------------------------------------------------------------- the whole stream

  /** Every chunk of every read, in order. */
  function All(cfg: Config, issued: seq<Read>): seq<Chunk>
    requires cfg.Valid()
  {
    Chunks(cfg, issued, 0, 0)
  }

  predicate IsTail(a: seq<Chunk>, b: seq<Chunk>) {
    |a| <= |b| && b[|b| - |a|..] == a
  }

  /** A chunk start: an aligned offset of a read, or the end of the last read. */
  predicate IsStart(cfg: Config, issued: seq<Read>, r: nat, off: nat)
    requires cfg.Valid()
  {
    r <= |issued| && if r < |issued| then Aligned(cfg, issued[r].bytes, off) else off == 0
  }

  predicate NotAfter(r: nat, off: nat, q: nat, pos: nat) {
    r < q || (r == q && off <= pos)
  }

  lemma AlignedStep(cfg: Config, bytes: nat, off: nat, pos: nat)
    requires cfg.Valid() && Aligned(cfg, bytes, off) && Aligned(cfg, bytes, pos) && off < pos
    ensures cfg.Transfer(bytes, off) == cfg.bufferBytes && off + cfg.bufferBytes <= pos
  {
    var b := cfg.bufferBytes;
    DivBounds(off, b);
    DivBounds(pos, b);
    if pos / b <= off / b {
      MulMono(pos / b, off / b, b);
    }
    MulMono(off / b + 1, pos / b, b);
  }

  function NextStart(cfg: Config, issued: seq<Read>, r: nat, off: nat): (nat, nat)
    requires cfg.Valid() && r < |issued| && off <= issued[r].bytes
  {
    var t := cfg.Transfer(issued[r].bytes, off);
    if off + t < issued[r].bytes then (r, off + t) else (r + 1, 0)
  }

  lemma ChunksStep(cfg: Config, issued: seq<Read>, r: nat, off: nat)
    requires cfg.Valid() && r < |issued| && off <= issued[r].bytes
    ensures var (q, pos) := NextStart(cfg, issued, r, off);
            && (q < |issued| ==> pos <= issued[q].bytes)
            && Chunks(cfg, issued, r, off)
            == [Chunk(r, off, cfg.Transfer(issued[r].bytes, off))] + Chunks(cfg, issued, q, pos)
  {
  }

  lemma NextIsStart(cfg: Config, issued: seq<Read>, r: nat, off: nat, q: nat, pos: nat)
    requires cfg.Valid() && IsStart(cfg, issued, r, off) && IsStart(cfg, issued, q, pos) && NotAfter(r, off, q, pos)
    requires r != q || off != pos
    ensures r < |issued| && off <= issued[r].bytes
    ensures var (u, v) := NextStart(cfg, issued, r, off);
            && IsStart(cfg, issued, u, v) && NotAfter(u, v, q, pos)
            && (u == r ==> off < v)
  {
    if r == q {
      AlignedStep(cfg, issued[r].bytes, off, pos);
    }
    if off + cfg.Transfer(issued[r].bytes, off) < issued[r].bytes {
      NextAligned(cfg, issued[r].bytes, off);
    }
    Small(0, cfg.bufferBytes);
  }

  /** The chunks from a later start are a tail of the chunks from an earlier one, and a
      proper tail if the starts differ. */
  lemma {:induction false} LaterIsTail(cfg: Config, issued: seq<Read>, r: nat, off: nat, q: nat, pos: nat)
    requires cfg.Valid() && IsStart(cfg, issued, r, off) && IsStart(cfg, issued, q, pos) && NotAfter(r, off, q, pos)
    ensures IsTail(Chunks(cfg, issued, q, pos), Chunks(cfg, issued, r, off))
    ensures (r == q && off == pos) || |Chunks(cfg, issued, q, pos)| < |Chunks(cfg, issued, r, off)|
    decreases |issued| - r, if r < |issued| then issued[r].bytes - off else 0
  {
    if r != q || off != pos {
      NextIsStart(cfg, issued, r, off, q, pos);
      ChunksStep(cfg, issued, r, off);
      var (u, v) := NextStart(cfg, issued, r, off);
      LaterIsTail(cfg, issued, u, v, q, pos);
      TailOfRest(Chunk(r, off, cfg.Transfer(issued[r].bytes, off)), Chunks(cfg, issued, u, v),
                 Chunks(cfg, issued, q, pos));
    }
  }

  lemma TailOfRest(c: Chunk, rest: seq<Chunk>, a: seq<Chunk>)
    requires IsTail(a, rest)
    ensures IsTail(a, [c] + rest)
  {
  }

  lemma TailServed(cfg: Config, a: seq<Chunk>, b: seq<Chunk>)
    requires cfg.Valid() && IsTail(a, b)
    ensures IsTail(Served(cfg, a), Served(cfg, b))
    ensures |a| - |Served(cfg, a)| <= |b| - |Served(cfg, b)|
  {
    var front := b[..|b| - |a|];
    assert b == front + a;
    ServedAppend(cfg, front, a);
    ServedAtMost(cfg, front);
  }

  /** Chunks that are not served are as many as the reads that cannot be served. */
  lemma {:induction false} ServedCount(cfg: Config, issued: seq<Read>)
    requires cfg.Valid() && forall i :: 0 <= i < |issued| ==> issued[i].bytes < U64
    ensures |All(cfg, issued)| == |Served(cfg, All(cfg, issued))| + Bad(cfg, issued)
  {
    if issued != [] {
      var n := |issued| - 1;
      var before := issued[..n];
      assert before + [issued[n]] == issued;
      ServedCount(cfg, before);
      ChunksAppend(cfg, before, issued[n], 0, 0);
      ServedAppend(cfg, All(cfg, before), Chunks(cfg, issued, n, 0));
      ServedOfLastRead(cfg, issued, 0);
    }
  }

  /** Position in the stream of the first chunk of read `k`. */
  function Slot(cfg: Config, issued: seq<Read>, k: nat): int
    requires cfg.Valid() && k <= |issued|
  {
    |All(cfg, issued)| - |Chunks(cfg, issued, k, 0)|
  }

  lemma SlotStable(cfg: Config, issued: seq<Read>, x: Read, k: nat)
    requires cfg.Valid() && k <= |issued|
    ensures Slot(cfg, issued + [x], k) == Slot(cfg, issued, k)
  {
    ChunksAppend(cfg, issued, x, 0, 0);
    ChunksAppend(cfg, issued, x, k, 0);
  }

  /** Within a read, chunks are counted by dividing the offset. */
  lemma {:induction false} CountAt(cfg: Config, issued: seq<Read>, k: nat, off: nat)
    requires cfg.Valid() && k < |issued| && Aligned(cfg, issued[k].bytes, off)
    ensures |Chunks(cfg, issued, k, 0)| == |Chunks(cfg, issued, k, off)| + off / cfg.bufferBytes
    decreases off
  {
    var b := cfg.bufferBytes;
    if off > 0 {
      BlockBefore(off, b);
      CountAt(cfg, issued, k, off - b);
      assert cfg.Transfer(issued[k].bytes, off - b) == b;
    } else {
      Small(0, b);
    }
  }

  lemma BlockBefore(off: nat, b: nat)
    requires b > 0 && off > 0 && off % b == 0
    ensures off >= b && (off - b) % b == 0 && off / b == (off - b) / b + 1
  {
    DivBounds(off, b);
    if off < b {
      Small(off, b);
    } else {
      DivUnique(off - b, b, off / b - 1);
    }
  }

  // ---------------------------------------------------------------- order

  predicate Before(a: Chunk, b: Chunk) {
    a.read < b.read || (a.read == b.read && a.offset < b.offset)
  }

  lemma {:induction false} ChunksFrom(cfg: Config, issued: seq<Read>, r: nat, off: nat)
    requires cfg.Valid() && (r < |issued| ==> off <= issued[r].bytes)
    ensures forall i :: 0 <= i < |Chunks(cfg, issued, r, off)| ==>
              var c := Chunks(cfg, issued, r, off)[i]; r < c.read || (r == c.read && off <= c.offset)
    decreases |issued| - r, if r < |issued| then issued[r].bytes - off else 0
  {
    if r < |issued| {
      var t := cfg.Transfer(issued[r].bytes, off);
      if off + t < issued[r].bytes {
        ChunksFrom(cfg, issued, r, off + t);
      } else {
        ChunksFrom(cfg, issued, r + 1, 0);
      }
    }
  }

  ghost predicate Increasing(cs: seq<Chunk>) {
    forall i, j :: 0 <= i < j < |cs| ==> Before(cs[i], cs[j])
  }

  lemma {:induction false} ChunksIncrease(cfg: Config, issued: seq<Read>, r: nat, off: nat)
    requires cfg.Valid() && (r < |issued| ==> off <= issued[r].bytes)
    ensures Increasing(Chunks(cfg, issued, r, off))
    decreases |issued| - r, if r < |issued| then issued[r].bytes - off else 0
  {
    if r < |issued| {
      var t := cfg.Transfer(issued[r].bytes, off);
      if off + t < issued[r].bytes {
        ChunksIncrease(cfg, issued, r, off + t);
        ChunksFrom(cfg, issued, r, off + t);
        HeadIncreases(Chunk(r, off, t), Chunks(cfg, issued, r, off + t));
      } else {
        ChunksIncrease(cfg, issued, r + 1, 0);
        ChunksFrom(cfg, issued, r + 1, 0);
        HeadIncreases(Chunk(r, off, t), Chunks(cfg, issued, r + 1, 0));
      }
    }
  }

  lemma HeadIncreases(c: Chunk, rest: seq<Chunk>)
    requires Increasing(rest) && forall i :: 0 <= i < |rest| ==> Before(c, rest[i])
    ensures Increasing([c] + rest)
  {
  }

  /** The m-th served chunk stands at position m or later. */
  lemma {:induction false} ServedStandsLater(cfg: Config, cs: seq<Chunk>, m: nat) returns (at: nat)
    requires cfg.Valid() && m < |Served(cfg, cs)|
    ensures m <= at < |cs| && cs[at] == Served(cfg, cs)[m] && cfg.SgeCount(cs[at].len) >= 1
  {
    if cfg.SgeCount(cs[0].len) >= 1 {
      if m == 0 {
        return 0;
      }
      at := ServedStandsLater(cfg, cs[1..], m - 1);
      at := at + 1;
    } else {
      at := ServedStandsLater(cfg, cs[1..], m);
      at := at + 1;
    }
  }

  /** Up to the first chunk that is not served, the served chunks are the chunks. */
  lemma {:induction false} ServedIsSame(cfg: Config, cs: seq<Chunk>, m: nat)
    requires cfg.Valid() && m < |cs| && forall x :: 0 <= x <= m ==> cfg.SgeCount(cs[x].len) >= 1
    ensures m < |Served(cfg, cs)| && Served(cfg, cs)[m] == cs[m]
  {
    if m > 0 {
      ServedIsSame(cfg, cs[1..], m - 1);
    }
  }

  /** From there on, each served chunk stands before its place in the stream. */
  lemma {:induction false} ServedIsLater(cfg: Config, cs: seq<Chunk>, m: nat, x: nat)
    requires cfg.Valid() && Increasing(cs) && x <= m < |Served(cfg, cs)| && x < |cs| && cfg.SgeCount(cs[x].len) < 1
    ensures m < |cs| && Before(cs[m], Served(cfg, cs)[m])
  {
    if x == 0 {
      var at := ServedStandsLater(cfg, cs[1..], m);
      assert cs[at + 1] == Served(cfg, cs)[m];
    } else if cfg.SgeCount(cs[0].len) >= 1 {
      ServedIsLater(cfg, cs[1..], m - 1, x - 1);
    } else {
      ServedIsLater(cfg, cs, m, 0);
    }
  }

  /** Chunk `n` of the stream is the n-th served one if and only if every read up to its
      own is servable; otherwise the n-th served one is later. */
  lemma MatchesIffServable(cfg: Config, issued: seq<Read>, n: nat)
    requires cfg.Valid() && n < |Served(cfg, All(cfg, issued))|
    ensures n < |All(cfg, issued)|
    ensures var c, g := All(cfg, issued)[n], Served(cfg, All(cfg, issued))[n];
            && 0 <= c.read < |issued|
            && (c == g <==> AllServable(cfg, issued[..c.read + 1]))
            && (c != g ==> Before(c, g))
  {
    var all := All(cfg, issued);
    ServedAtMost(cfg, all);
    Small(0, cfg.bufferBytes);
    ChunksOk(cfg, issued, 0, 0);
    ChunksIncrease(cfg, issued, 0, 0);
    var k := all[n].read;
    if AllServable(cfg, issued[..k + 1]) {
      PrefixServed(cfg, issued, n);
    } else {
      var j :| 0 <= j < k + 1 && !cfg.Servable(issued[j].bytes);
      var x := UnservableStands(cfg, issued, j);
      NotBehind(all, n, x);
      ServedIsLater(cfg, all, n, x);
    }
  }

  /** The other way round: a position whose read, like every one before it, is servable. */
  lemma PrefixServed(cfg: Config, issued: seq<Read>, n: nat)
    requires cfg.Valid() && n < |All(cfg, issued)|
    requires 0 <= All(cfg, issued)[n].read < |issued| && AllServable(cfg, issued[..All(cfg, issued)[n].read + 1])
    ensures n < |Served(cfg, All(cfg, issued))| && Served(cfg, All(cfg, issued))[n] == All(cfg, issued)[n]
  {
    var all := All(cfg, issued);
    var k := all[n].read;
    Small(0, cfg.bufferBytes);
    ChunksOk(cfg, issued, 0, 0);
    ChunksIncrease(cfg, issued, 0, 0);
    forall x: nat | x <= n ensures cfg.SgeCount(all[x].len) >= 1 {
      assert x < n ==> Before(all[x], all[n]);
      assert ChunkOk(cfg, issued, all[x]);
      assert cfg.Servable(issued[..k + 1][all[x].read].bytes);
      ChunkServed(cfg, issued, all[x]);
    }
    ServedIsSame(cfg, all, n);
  }

  /** The chunk at an aligned offset of read `k`. */
  lemma ChunkAt(cfg: Config, issued: seq<Read>, k: nat, off: nat)
    requires cfg.Valid() && k < |issued| && Aligned(cfg, issued[k].bytes, off)
    ensures var m := Slot(cfg, issued, k) + off / cfg.bufferBytes;
            0 <= m < |All(cfg, issued)| && All(cfg, issued)[m] == Chunk(k, off, cfg.Transfer(issued[k].bytes, off))
  {
    CountAt(cfg, issued, k, off);
    StartIsTail(cfg, issued, k, off);
    ChunksStep(cfg, issued, k, off);
    var a, all := Chunks(cfg, issued, k, off), All(cfg, issued);
    assert all[|all| - |a|..][0] == all[|all| - |a|];
  }

  lemma StartIsTail(cfg: Config, issued: seq<Read>, q: nat, pos: nat)
    requires cfg.Valid() && IsStart(cfg, issued, q, pos)
    ensures IsTail(Chunks(cfg, issued, q, pos), All(cfg, issued))
  {
    Small(0, cfg.bufferBytes);
    LaterIsTail(cfg, issued, 0, 0, q, pos);
  }

  lemma NotBehind(cs: seq<Chunk>, n: nat, x: nat)
    requires Increasing(cs) && n < |cs| && x < |cs| && !Before(cs[n], cs[x])
    ensures x <= n
  {
  }

  /** Where the chunk of an unservable read stands. */
  lemma UnservableStands(cfg: Config, issued: seq<Read>, j: nat) returns (x: nat)
    requires cfg.Valid() && j < |issued| && !cfg.Servable(issued[j].bytes)
    ensures x < |All(cfg, issued)| && All(cfg, issued)[x] == Chunk(j, 0, 0) && cfg.SgeCount(0) < 1
  {
    Small(0, cfg.bufferBytes);
    LaterIsTail(cfg, issued, 0, 0, j, 0);
    x := Slot(cfg, issued, j);
    assert Chunks(cfg, issued, j, 0)[0] == Chunk(j, 0, 0);
    assert All(cfg, issued)[x..][0] == All(cfg, issued)[x];
  }
}
