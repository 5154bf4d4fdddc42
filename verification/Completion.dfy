/** The destinations: what arrives where, in every run. */
module Completion {
  import opened Config
  import opened Messages
  import opened System
  import opened Stream
  import opened Ledger
  import opened Books
  import opened Invariant
  import opened Ownership
  import opened Delivery
  import opened Integrity
  import Reader

  // ---------------------------------------------------------------- new reads and stores

  lemma IssueDests(cfg: Config, issued: seq<Read>, g: seq<Chunk>, h: seq<Chunk>, dst: seq<Byte>, k: int, done: nat,
                   x: Read)
    requires cfg.Valid() && DestsHold(cfg, issued, g, dst, k, done) && g <= h && (k == |issued| ==> done == 0)
    requires Sized(x, dst) && x.before == dst[x.dst..x.dst + x.bytes]
    requires forall i :: k <= i < |issued| ==> Disjoint(issued[i].dst, issued[i].bytes, x.dst, x.bytes)
    ensures DestsHold(cfg, issued + [x], h, dst, k, done)
  {
    var all := issued + [x];
    assert Untouched(dst, x);
    if k < |issued| {
      SlotStable(cfg, issued, x, k);
      FilledGrows(cfg, issued, all, g, h, Slot(cfg, issued, k), dst, issued[k], done);
    } else {
      StartsUntouched(cfg, all, h, Slot(cfg, all, k), dst, x);
    }
    forall i | k < i < |all|
      ensures Untouched(dst, all[i])
    {
      if i < |issued| {
        assert Untouched(dst, issued[i]);
      }
    }
  }

  lemma DoReadProgress(cfg: Config, v: Reader.ReadSide, w: WorkRecord)
    requires Reader.WellFormed(cfg, v) && w.offset == 0 && Reader.RecordOk(v.dst, w)
    ensures Reader.WellFormed(cfg, v.(queue := v.queue + [w]))
    ensures Progress(cfg, v.(queue := v.queue + [w])) == Progress(cfg, v)
  {
    if v.queue != [] {
      assert (v.queue + [w])[0] == v.queue[0];
    }
  }

  lemma DoReadDestinations(cfg: Config, s: State, l: Label)
    requires Sane(cfg, s) && Destinations(cfg, s)
    requires Enabled(cfg, s, l) && l.DoRead?
    ensures Reader.WellFormed(cfg, Next(cfg, s, l).rs) && Destinations(cfg, Next(cfg, s, l))
  {
    var x := Next(cfg, s, l).issued[|s.issued|];
    DoReadProgress(cfg, s.rs, WorkRecord(l.dstAddr, l.bytes, 0, l.cb));
    ServedGrows(cfg, s.issued, x);
    IssueDests(cfg, s.issued, Served(cfg, All(cfg, s.issued)), Served(cfg, All(cfg, s.issued + [x])), s.rs.dst,
               CalledBack(s), Progress(cfg, s.rs), x);
  }

  lemma ServedGrows(cfg: Config, issued: seq<Read>, x: Read)
    requires cfg.Valid()
    ensures Served(cfg, All(cfg, issued)) <= Served(cfg, All(cfg, issued + [x]))
  {
    ChunksAppend(cfg, issued, x, 0, 0);
    ServedAppend(cfg, All(cfg, issued), Chunks(cfg, issued + [x], |issued|, 0));
  }

  lemma StoreElsewhere(cfg: Config, issued: seq<Read>, g: seq<Chunk>, slot: int, dst: seq<Byte>, r: Read,
                       done: nat, a: nat, v: Byte)
    requires cfg.Valid() && a < |dst| && Outside(a, r.dst, r.bytes)
    ensures Filled(cfg, issued, g, slot, dst, r, done) ==> Filled(cfg, issued, g, slot, dst[a := v], r, done)
    ensures Untouched(dst, r) ==> Untouched(dst[a := v], r)
  {
    if Filled(cfg, issued, g, slot, dst, r, done) {
      var later := dst[a := v];
      forall p | 0 <= p < r.bytes
        ensures FilledAt(cfg, issued, g, slot, later, r, p, done)
      {
        assert FilledAt(cfg, issued, g, slot, dst, r, p, done);
      }
    }
  }

  lemma StoreDests(cfg: Config, issued: seq<Read>, g: seq<Chunk>, dst: seq<Byte>, k: int, done: nat, a: nat, v: Byte)
    requires cfg.Valid() && DestsHold(cfg, issued, g, dst, k, done) && a < |dst|
    requires forall i :: k <= i < |issued| ==> Outside(a, issued[i].dst, issued[i].bytes)
    ensures DestsHold(cfg, issued, g, dst[a := v], k, done)
  {
    forall i | k <= i < |issued|
      ensures i == k ==> Filled(cfg, issued, g, Slot(cfg, issued, k), dst[a := v], issued[k], done)
      ensures i > k ==> Untouched(dst[a := v], issued[i])
    {
      StoreElsewhere(cfg, issued, g, Slot(cfg, issued, k), dst, issued[i], done, a, v);
    }
  }

  lemma DstStoreDestinations(cfg: Config, s: State, l: Label)
    requires Sane(cfg, s) && Destinations(cfg, s)
    requires Enabled(cfg, s, l) && l.DstStore?
    ensures Reader.WellFormed(cfg, Next(cfg, s, l).rs) && Destinations(cfg, Next(cfg, s, l))
  {
    StoreDests(cfg, s.issued, Served(cfg, All(cfg, s.issued)), s.rs.dst, CalledBack(s), Progress(cfg, s.rs),
               l.addr, l.val);
  }

  // ---------------------------------------------------------------- the chunk in hand

  /** The reader stands where its front record says. */
  lemma ConsumedAt(cfg: Config, l: Ledger)
    requires cfg.Valid() && ReaderBooks(cfg, l) && l.queue != [] && !FrontDone(l)
    ensures 0 <= Popped(l) < |l.issued|
    ensures Consumed(cfg, l) == Slot(cfg, l.issued, Popped(l)) + l.queue[0].offset / cfg.bufferBytes
  {
    assert l.issued[Popped(l)].bytes == l.queue[0].bytes;
    CountAt(cfg, l.issued, Popped(l), l.queue[0].offset);
  }

  /** The poller's buffer carries the served chunk whose number is the stream position of
      the chunk the front record stands at. */
  lemma InHandIsCarried(cfg: Config, s: State)
    requires Sane(cfg, s) && Sound(cfg, View(s)) && Carried(cfg, s) && s.rs.phase.Got?
    ensures var g, n := Served(cfg, All(cfg, s.issued)), Consumed(cfg, View(s));
            && 0 <= n < |g| && Incoming(cfg, View(s)) != [] && Incoming(cfg, View(s))[0] == g[n]
            && CarriedAt(cfg, s.issued, s.ws.send, s.rs.recv, s.ws.wire, g[n], s.rs.phase.buf)
  {
    StreamsStand(cfg, View(s));
    assert Claims(s)[0] == s.rs.phase.buf;
    FirstOfDrop(Served(cfg, All(cfg, s.issued)), Consumed(cfg, View(s)));
  }

  lemma LandedIsDelivered(cfg: Config, issued: seq<Read>, send: seq<seq<Byte>>, recv: seq<seq<Byte>>,
                          wire: seq<RdmaWrite>,
                          b: int, c: Chunk)
    requires cfg.Valid() && CarriedAt(cfg, issued, send, recv, wire, c, b)
    requires !Mentions(wire, b) && |recv[b]| == cfg.bufferBytes
    ensures Delivered(cfg, issued, recv[b], c)
  {
    LandedCarries(cfg, issued, send[b], recv[b], wire, b, c);
  }

  /** ... and all its bytes are in the receive buffer. */
  lemma InHandIsLanded(cfg: Config, s: State)
    requires Sane(cfg, s) && Sound(cfg, View(s)) && Carried(cfg, s) && s.rs.phase.Got?
    requires Owned(cfg, s) && Wired(s.ws.wire)
    ensures var g, n := Served(cfg, All(cfg, s.issued)), Consumed(cfg, View(s));
            0 <= n < |g| && Delivered(cfg, s.issued, s.rs.recv[s.rs.phase.buf], g[n])
  {
    InHandIsCarried(cfg, s);
    NotOnWire(cfg, s, s.rs.phase.buf);
    LandedIsDelivered(cfg, s.issued, s.ws.send, s.rs.recv, s.ws.wire, s.rs.phase.buf,
                      Served(cfg, All(cfg, s.issued))[Consumed(cfg, View(s))]);
  }

  // ---------------------------------------------------------------- gathering

  /** One gathered chunk: the front destination grows, the others stay. */
  lemma GatherDests(cfg: Config, issued: seq<Read>, g: seq<Chunk>, dst: seq<Byte>, k: nat, off: nat, buffer: seq<Byte>)
    requires cfg.Valid() && k < |issued| && |buffer| == cfg.bufferBytes
    requires off % cfg.bufferBytes == 0 && off <= issued[k].bytes
    requires 0 <= Slot(cfg, issued, k) + off / cfg.bufferBytes < |g|
    requires Delivered(cfg, issued, buffer, g[Slot(cfg, issued, k) + off / cfg.bufferBytes])
    requires DestsHold(cfg, issued, g, dst, k, off)
    ensures var t := cfg.Transfer(issued[k].bytes, off);
            && issued[k].dst + off + |buffer[..cfg.Copied(t)]| <= |dst|
            && DestsHold(cfg, issued, g, Overlay(dst, issued[k].dst + off, buffer[..cfg.Copied(t)]), k, off + t)
  {
    var t := cfg.Transfer(issued[k].bytes, off);
    var data := buffer[..cfg.Copied(t)];
    GatherFills(cfg, issued, g, Slot(cfg, issued, k), dst, issued[k], off, buffer);
    forall i | k < i < |issued|
      ensures Untouched(Overlay(dst, issued[k].dst + off, data), issued[i])
    {
      OverlayElsewhere(dst, issued[k].dst + off, data, issued[i], issued[k].bytes, issued[k].dst);
    }
  }

  lemma FrontIsIssued(cfg: Config, s: State)
    requires cfg.Valid() && ReaderBooks(cfg, View(s)) && s.rs.queue != []
    ensures 0 <= CalledBack(s) < |s.issued|
    ensures s.rs.queue[0].addr == s.issued[CalledBack(s)].dst && s.rs.queue[0].bytes == s.issued[CalledBack(s)].bytes
    ensures !FrontDone(View(s)) ==> s.rs.queue[0].offset % cfg.bufferBytes == 0
  {
    assert View(s).queue[0].(offset := 0) == ReaderRecord(s.issued[CalledBack(s)]);
  }

  lemma GatherProgress(cfg: Config, v: Reader.ReadSide)
    requires Reader.WellFormed(cfg, v) && v.phase.Got?
    ensures var r := Reader.StepGather(cfg, v);
            && Reader.WellFormed(cfg, r) && |r.queue| == |v.queue|
            && Progress(cfg, r) == v.queue[0].offset + Reader.NextLen(cfg, v.queue[0])
            && Progress(cfg, v) == v.queue[0].offset
            && r.dst == Reader.Gather(cfg, v.dst, v.queue[0], v.recv[v.phase.buf])
  {
    Reader.StepsKeepWellFormed(cfg, v);
  }

  /** Record `rec` is that of read `k`, at the chunk at position `n` of the stream. */
  ghost predicate RecordAt(cfg: Config, rec: WorkRecord, issued: seq<Read>, k: int, n: int)
    requires cfg.Valid()
  {
    && 0 <= k < |issued|
    && rec.addr == issued[k].dst && rec.bytes == issued[k].bytes
    && rec.offset % cfg.bufferBytes == 0 && rec.offset <= rec.bytes
    && n == Slot(cfg, issued, k) + rec.offset / cfg.bufferBytes
  }

  ghost predicate StandsAt(cfg: Config, v: Reader.ReadSide, issued: seq<Read>, n: int)
    requires Reader.WellFormed(cfg, v) && v.queue != []
  {
    RecordAt(cfg, v.queue[0], issued, |issued| - |v.queue|, n)
  }

  lemma FrontStands(cfg: Config, s: State)
    requires Reader.WellFormed(cfg, s.rs) && ReaderBooks(cfg, View(s)) && s.rs.phase.Got?
    ensures StandsAt(cfg, s.rs, s.issued, Consumed(cfg, View(s)))
  {
    FrontIsIssued(cfg, s);
    ConsumedAt(cfg, View(s));
  }

  lemma ReaderGathers(cfg: Config, v: Reader.ReadSide, issued: seq<Read>, g: seq<Chunk>, n: int)
    requires Reader.WellFormed(cfg, v) && v.phase.Got? && StandsAt(cfg, v, issued, n)
    requires DestsHold(cfg, issued, g, v.dst, |issued| - |v.queue|, Progress(cfg, v))
    requires 0 <= n < |g| && Delivered(cfg, issued, v.recv[v.phase.buf], g[n])
    ensures var r := Reader.StepGather(cfg, v);
            Reader.WellFormed(cfg, r) && DestsHold(cfg, issued, g, r.dst, |issued| - |r.queue|, Progress(cfg, r))
  {
    GatherProgress(cfg, v);
    RecordGathers(cfg, v.dst, v.queue[0], v.recv[v.phase.buf], issued, g, |issued| - |v.queue|, n);
  }

  lemma RecordGathers(cfg: Config, dst: seq<Byte>, rec: WorkRecord, buffer: seq<Byte>, issued: seq<Read>, g: seq<Chunk>,
                      k: int, n: int)
    requires cfg.Valid() && Reader.RecordOk(dst, rec) && |buffer| == cfg.bufferBytes
    requires RecordAt(cfg, rec, issued, k, n) && DestsHold(cfg, issued, g, dst, k, rec.offset)
    requires 0 <= n < |g| && Delivered(cfg, issued, buffer, g[n])
    ensures DestsHold(cfg, issued, g, Reader.Gather(cfg, dst, rec, buffer), k, rec.offset + Reader.NextLen(cfg, rec))
  {
    GatherDests(cfg, issued, g, dst, k, rec.offset, buffer);
  }

  lemma GatherDestinations(cfg: Config, s: State, n: int)
    requires Reader.WellFormed(cfg, s.rs) && Destinations(cfg, s)
    requires s.rs.phase.Got? && StandsAt(cfg, s.rs, s.issued, n)
    requires 0 <= n < |Served(cfg, All(cfg, s.issued))|
    requires Delivered(cfg, s.issued, s.rs.recv[s.rs.phase.buf], Served(cfg, All(cfg, s.issued))[n])
    ensures var rs := Reader.StepGather(cfg, s.rs);
            Reader.WellFormed(cfg, rs) && Destinations(cfg, s.(rs := rs))
  {
    ReaderGathers(cfg, s.rs, s.issued, Served(cfg, All(cfg, s.issued)), n);
  }

  lemma PopDests(cfg: Config, issued: seq<Read>, g: seq<Chunk>, dst: seq<Byte>, k: int, done: nat)
    requires cfg.Valid() && DestsHold(cfg, issued, g, dst, k, done) && k < |issued|
    ensures DestsHold(cfg, issued, g, dst, k + 1, 0)
  {
    if k + 1 < |issued| {
      StartsUntouched(cfg, issued, g, Slot(cfg, issued, k + 1), dst, issued[k + 1]);
    }
  }

  lemma PopDestinations(cfg: Config, s: State)
    requires Sane(cfg, s) && ReaderBooks(cfg, View(s)) && Destinations(cfg, s)
    requires s.rs.phase.Noted? && s.rs.phase.last
    ensures var rs := Reader.StepPop(cfg, s.rs);
            Reader.WellFormed(cfg, rs) && Destinations(cfg, s.(rs := rs))
  {
    var rs := Reader.StepPop(cfg, s.rs);
    if rs.queue != [] {
      assert rs.queue[0] == View(s).queue[1];
    }
    assert Progress(cfg, rs) == 0;
    PopDests(cfg, s.issued, Served(cfg, All(cfg, s.issued)), s.rs.dst, CalledBack(s), Progress(cfg, s.rs));
  }

  // ---------------------------------------------------------------- every step

  lemma OtherDestinations(cfg: Config, s: State, l: Label)
    requires Sane(cfg, s) && Destinations(cfg, s) && Enabled(cfg, s, l)
    requires !l.DoRead? && !l.DstStore? && !l.GatherStep? && !l.PopStep?
    requires Reader.WellFormed(cfg, Next(cfg, s, l).rs)
    ensures Destinations(cfg, Next(cfg, s, l))
  {
    StaysPut(cfg, s, l);
    var r := Next(cfg, s, l);
    assert DestsHold(cfg, r.issued, Served(cfg, All(cfg, r.issued)), r.rs.dst, CalledBack(r), Progress(cfg, r.rs));
  }

  lemma StaysPut(cfg: Config, s: State, l: Label)
    requires Sane(cfg, s) && Enabled(cfg, s, l)
    requires !l.DoRead? && !l.DstStore? && !l.GatherStep? && !l.PopStep?
    requires Reader.WellFormed(cfg, Next(cfg, s, l).rs)
    ensures var r := Next(cfg, s, l);
            && r.rs.dst == s.rs.dst && r.issued == s.issued && CalledBack(r) == CalledBack(s)
            && Progress(cfg, r.rs) == Progress(cfg, s.rs)
  {
  }

  lemma GatherStepDestinations(cfg: Config, s: State)
    requires Sane(cfg, s) && Sound(cfg, View(s)) && Carried(cfg, s) && Destinations(cfg, s) && s.rs.phase.Got?
    requires Owned(cfg, s) && Wired(s.ws.wire)
    ensures var rs := Reader.StepGather(cfg, s.rs);
            Reader.WellFormed(cfg, rs) && Destinations(cfg, s.(rs := rs))
  {
    InHandIsLanded(cfg, s);
    FrontStands(cfg, s);
    GatherDestinations(cfg, s, Consumed(cfg, View(s)));
  }

  lemma StepDestinations(cfg: Config, s: State, l: Label)
    requires Sane(cfg, s) && Sound(cfg, View(s)) && Carried(cfg, s) && Destinations(cfg, s)
    requires Owned(cfg, s) && Wired(s.ws.wire) && Enabled(cfg, s, l)
    requires Reader.WellFormed(cfg, Next(cfg, s, l).rs)
    ensures Destinations(cfg, Next(cfg, s, l))
  {
    match l {
      case DoRead(_, _, _, _) => DoReadDestinations(cfg, s, l);
      case DstStore(_, _) => DstStoreDestinations(cfg, s, l);
      case GatherStep => GatherStepDestinations(cfg, s);
      case PopStep => PopDestinations(cfg, s);
      case _ => OtherDestinations(cfg, s, l);
    }
  }

  lemma StepBuffers(cfg: Config, s: State, l: Label)
    requires Core(cfg, s) && Enabled(cfg, s, l) && InOrder(s, l)
    ensures Owned(cfg, Next(cfg, s, l)) && Lent(cfg, Next(cfg, s, l)) && Wired(Next(cfg, s, l).ws.wire)
    ensures ReaderBooks(cfg, View(Next(cfg, s, l))) && Carried(cfg, Next(cfg, s, l))
  {
    StepOwned(cfg, s, l);
    StepLent(cfg, s, l);
    StepWired(cfg, s, l);
    StepCarried(cfg, s, l);
  }

  /** The global invariant is kept by every step. */
  lemma EveryStepCore(cfg: Config, s: State, l: Label)
    requires Core(cfg, s) && Enabled(cfg, s, l) && InOrder(s, l)
    ensures Core(cfg, Next(cfg, s, l))
  {
    EveryStepKept(cfg, s, l);
    StepBuffers(cfg, s, l);
    StepDestinations(cfg, s, l);
  }
}
