/** The results about whole runs of the read protocol. */
module Theorems {
  import opened Config
  import opened Options
  import opened System
  import opened Stream
  import opened Ledger
  import opened Books
  import opened Invariant
  import opened Ownership
  import opened Delivery
  import opened Integrity
  import opened Completion
  import opened Liveness
  import Writer
  import Reader

  ghost predicate ServableRun(cfg: Config, labels: seq<Label>)
    requires cfg.Valid()
  {
    forall i :: 0 <= i < |labels| && labels[i].DoRead? ==> cfg.Servable(labels[i].bytes)
  }

  lemma RunSane(cfg: Config, states: seq<State>, labels: seq<Label>)
    requires IsRun(cfg, states, labels)
    ensures Sane(cfg, states[|labels|])
  {
    RunKept(cfg, states, labels, |labels|);
  }

  /** Any enabled step can be taken at the end of a run: memory safety never blocks it. */
  lemma RunExtends(cfg: Config, states: seq<State>, labels: seq<Label>, l: Label)
    requires IsRun(cfg, states, labels) && Enabled(cfg, states[|labels|], l) && InOrder(states[|labels|], l)
    ensures Sane(cfg, states[|labels|])
    ensures IsRun(cfg, states + [Next(cfg, states[|labels|], l)], labels + [l])
  {
    RunSane(cfg, states, labels);
    var longer := states + [Next(cfg, states[|labels|], l)];
    assert longer[0] == states[0];
    forall i | 0 <= i < |labels + [l]|
      ensures Sane(cfg, longer[i]) && Enabled(cfg, longer[i], (labels + [l])[i])
      ensures InOrder(longer[i], (labels + [l])[i])
      ensures longer[i + 1] == Next(cfg, longer[i], (labels + [l])[i])
    {
      if i < |labels| {
        assert longer[i] == states[i] && longer[i + 1] == states[i + 1] && (labels + [l])[i] == labels[i];
      }
    }
  }

  lemma {:induction false} RunKept(cfg: Config, states: seq<State>, labels: seq<Label>, i: nat)
    requires IsRun(cfg, states, labels) && i <= |labels|
    ensures Kept(cfg, states[i])
  {
    if i == 0 {
      InitialIsKept(cfg, states[0]);
    } else {
      RunKept(cfg, states, labels, i - 1);
      EveryStepKept(cfg, states[i - 1], labels[i - 1]);
    }
  }

  lemma {:induction false} RunCore(cfg: Config, states: seq<State>, labels: seq<Label>, i: nat)
    requires IsRun(cfg, states, labels) && i <= |labels|
    ensures Core(cfg, states[i])
  {
    if i == 0 {
      InitialIsCore(cfg, states[0]);
    } else {
      RunCore(cfg, states, labels, i - 1);
      EveryStepCore(cfg, states[i - 1], labels[i - 1]);
    }
  }

  /** The read recorded as number `k` is the one a DoRead step issued, with the memory
      contents of both machines at that step. */
  ghost predicate Issued(states: seq<State>, labels: seq<Label>, j: int, k: int, r: Read)
    requires |states| == |labels| + 1 && 0 <= j < |labels|
  {
    && labels[j].DoRead?
    && |states[j].issued| == k
    && labels[j].srcAddr + labels[j].bytes <= |states[j].src|
    && labels[j].dstAddr + labels[j].bytes <= |states[j].rs.dst|
    && r == Read(labels[j].srcAddr, labels[j].dstAddr, labels[j].bytes, labels[j].cb,
                 states[j].src[labels[j].srcAddr..labels[j].srcAddr + labels[j].bytes],
                 states[j].rs.dst[labels[j].dstAddr..labels[j].dstAddr + labels[j].bytes])
  }

  lemma RunIsRun(cfg: Config, states: seq<State>, labels: seq<Label>)
    requires IsRun(cfg, states, labels)
    ensures IsRunInAnyOrder(cfg, states, labels)
  {
  }

  lemma {:induction false} EveryReadWasIssued(cfg: Config, states: seq<State>, labels: seq<Label>, i: nat, k: nat)
    requires IsRunInAnyOrder(cfg, states, labels) && i <= |labels| && k < |states[i].issued|
    ensures exists j :: 0 <= j < i && Issued(states, labels, j, k, states[i].issued[k])
  {
    if i > 0 {
      var s := states[i - 1];
      IssuedGrows(cfg, s, labels[i - 1]);
      if k < |s.issued| {
        EveryReadWasIssued(cfg, states, labels, i - 1, k);
      } else {
        assert Issued(states, labels, i - 1, k, states[i].issued[k]);
      }
    }
  }

  lemma IssuedGrows(cfg: Config, s: State, l: Label)
    requires Sane(cfg, s) && Enabled(cfg, s, l)
    ensures s.issued <= Next(cfg, s, l).issued
    ensures if l.DoRead? then |Next(cfg, s, l).issued| == |s.issued| + 1 else Next(cfg, s, l).issued == s.issued
  {
  }

  // ---------------------------------------------------------------- integrity

  /** What the destination of read `k` holds when its callback is called, in every run:
      the bytes of the served chunks whose numbers are the stream positions of its own. */
  ghost predicate Arrived(cfg: Config, issued: seq<Read>, dst: seq<Byte>, k: int)
    requires cfg.Valid()
  {
    && 0 <= k < |issued|
    && Filled(cfg, issued, Served(cfg, All(cfg, issued)), Slot(cfg, issued, k), dst, issued[k], issued[k].bytes)
  }

  /** The destination holds what it should. */
  ghost predicate DestinationIs(cfg: Config, dst: seq<Byte>, r: Read)
    requires cfg.Valid()
  {
    && Sized(r, dst)
    && (forall p :: 0 <= p < r.bytes ==> dst[r.dst + p] == Want(cfg, r, p))
    && (SizesFit(cfg, r.bytes) ==> dst[r.dst..r.dst + r.bytes] == r.data)
    && (!SizesFit(cfg, r.bytes) ==> exists p :: 0 <= p < r.bytes && !Covered(cfg, p) && dst[r.dst + p] == r.before[p])
  }

  /** No covered byte of read `k` came from its own place: each came from a later one. */
  ghost predicate FromElsewhere(cfg: Config, issued: seq<Read>, k: int)
    requires cfg.Valid() && 0 <= k < |issued|
  {
    forall p: nat :: p < issued[k].bytes ==> PlaceIsLater(cfg, issued, k, p)
  }

  ghost predicate PlaceIsLater(cfg: Config, issued: seq<Read>, k: nat, p: nat)
    requires cfg.Valid() && k < |issued| && p < issued[k].bytes
  {
    var m := Slot(cfg, issued, k) + p / cfg.bufferBytes;
    0 <= m < |Served(cfg, All(cfg, issued))| ==>
      var g := Served(cfg, All(cfg, issued))[m];
      k < g.read || (k == g.read && p - p % cfg.bufferBytes < g.offset)
  }

  /** The application may do anything that leaves outstanding reads alone: issue any read
      between existing regions whose destination is free, store anywhere else, and register
      callbacks; and its stores do what they say. */
  lemma ApplicationIsFree(cfg: Config, s: State, a: nat, d: nat, n: nat, v: Byte, cb: Option<nat>, c: nat)
    requires Sane(cfg, s) && a + n <= |s.src| && d + n <= |s.rs.dst| && n < U64
    requires forall i :: 0 <= i < |s.issued| && CalledBack(s) <= i ==>
               Disjoint(s.issued[i].dst, s.issued[i].bytes, d, n)
    ensures Enabled(cfg, s, DoRead(a, d, n, cb))
    ensures d < |s.rs.dst| && (forall i :: 0 <= i < |s.issued| && CalledBack(s) <= i ==>
                                 Outside(d, s.issued[i].dst, s.issued[i].bytes)) ==>
              && Enabled(cfg, s, DstStore(d, v))
              && Next(cfg, s, DstStore(d, v)) == s.(rs := s.rs.(dst := s.rs.dst[d := v]))
    ensures a < |s.src| && s.thrown.None? && (forall i :: |s.readDone| <= i < |s.issued| ==>
                                                Outside(a, s.issued[i].src, s.issued[i].bytes)) ==>
              && Enabled(cfg, s, SrcStore(a, v))
              && Next(cfg, s, SrcStore(a, v)) == s.(src := s.src[a := v])
    ensures s.thrown.None? ==>
              && Enabled(cfg, s, RegisterReadDoneCb(c))
              && Next(cfg, s, RegisterReadDoneCb(c)).registered == s.registered + [c]
  {
  }

  /** What the destination of read `k` holds when its callback is called: what has arrived
      for it, which is its own bytes if every read up to it is servable, and otherwise
      bytes of later chunks. */
  ghost predicate Delivers(cfg: Config, issued: seq<Read>, dst: seq<Byte>, k: int)
    requires cfg.Valid() && 0 <= k < |issued|
  {
    && Arrived(cfg, issued, dst, k)
    && if AllServable(cfg, issued[..k + 1]) then DestinationIs(cfg, dst, issued[k]) else FromElsewhere(cfg, issued, k)
  }

  lemma UnservableShifts(cfg: Config, issued: seq<Read>, k: nat)
    requires cfg.Valid() && k < |issued| && !AllServable(cfg, issued[..k + 1])
    ensures FromElsewhere(cfg, issued, k)
  {
    forall p: nat | p < issued[k].bytes
      ensures PlaceIsLater(cfg, issued, k, p)
    {
      var b := cfg.bufferBytes;
      DivBounds(p, b);
      DivUnique(p - p % b, b, p / b);
      ChunkAt(cfg, issued, k, p - p % b);
      var m := Slot(cfg, issued, k) + p / b;
      if m < |Served(cfg, All(cfg, issued))| {
        MatchesIffServable(cfg, issued, m);
      }
    }
  }

  /** At a pop the front record is that of the oldest read not called back, copied out to
      its end. */
  lemma FrontIsDone(cfg: Config, s: State)
    requires cfg.Valid() && Reader.WellFormed(cfg, s.rs) && ReaderBooks(cfg, View(s))
    requires s.rs.phase.Noted? && s.rs.phase.last
    ensures 0 <= CalledBack(s) < |s.issued| && s.rs.queue != []
    ensures s.rs.queue[0].cb == s.issued[CalledBack(s)].cb
    ensures Progress(cfg, s.rs) == s.issued[CalledBack(s)].bytes
  {
    assert View(s).queue[0].(offset := 0) == ReaderRecord(s.issued[CalledBack(s)]);
  }

  lemma PopDelivers(cfg: Config, s: State)
    requires cfg.Valid() && Reader.WellFormed(cfg, s.rs) && ReaderBooks(cfg, View(s)) && Destinations(cfg, s)
    requires s.rs.phase.Noted? && s.rs.phase.last
    ensures Arrived(cfg, s.issued, s.rs.dst, CalledBack(s))
    ensures s.rs.queue != [] && s.rs.queue[0].cb == s.issued[CalledBack(s)].cb
  {
    FrontIsDone(cfg, s);
  }

  lemma PopCalls(cfg: Config, s: State)
    requires Sane(cfg, s) && Enabled(cfg, s, PopStep)
    ensures s.rs.queue != []
    ensures Reader.Fires(s.rs.fired, Next(cfg, s, PopStep).rs.fired, s.rs.queue[0].cb)
    ensures Next(cfg, s, PopStep).rs.dst == s.rs.dst
  {
  }

  lemma WantedIsDestination(cfg: Config, dst: seq<Byte>, r: Read)
    requires cfg.Valid() && Sized(r, dst)
    requires forall p :: 0 <= p < r.bytes ==> dst[r.dst + p] == Want(cfg, r, p)
    ensures DestinationIs(cfg, dst, r)
  {
    SizesFitIsExact(cfg, r.bytes);
    if SizesFit(cfg, r.bytes) {
      forall p | 0 <= p < r.bytes
        ensures dst[r.dst..r.dst + r.bytes][p] == r.data[p]
      {
        assert Covered(cfg, p);
        assert dst[r.dst + p] == Want(cfg, r, p);
      }
    } else {
      var p :| 0 <= p < r.bytes && !Covered(cfg, p);
      assert dst[r.dst + p] == Want(cfg, r, p);
    }
  }

  /** End-to-end integrity, in every run.  When the callback of read `k` is called, its
      destination holds what has arrived for it.  If every read up to it is servable that
      is, byte for byte, the source as it was when the read was issued - all of it if the
      sizes fit, and otherwise in exactly the covered bytes - whatever is issued after it.
      If not, the callback is called over bytes of later chunks. */
  lemma ReadCallbackMeansDelivered(cfg: Config, states: seq<State>, labels: seq<Label>, i: nat)
    requires IsRun(cfg, states, labels) && i < |labels| && labels[i].PopStep?
    ensures var k := CalledBack(states[i]);
            && 0 <= k < |states[i].issued|
            && (exists j :: 0 <= j < i && Issued(states, labels, j, k, states[i].issued[k]))
            && Reader.Fires(states[i].rs.fired, states[i + 1].rs.fired, states[i].issued[k].cb)
            && states[i + 1].rs.dst == states[i].rs.dst
            && Delivers(cfg, states[i].issued, states[i].rs.dst, k)
  {
    RunPop(cfg, states, labels, i);
    RunIsRun(cfg, states, labels);
    EveryReadWasIssued(cfg, states, labels, i, CalledBack(states[i]));
    ArrivedIs(cfg, states[i].issued, states[i].rs.dst, CalledBack(states[i]));
  }

  lemma ArrivedIs(cfg: Config, issued: seq<Read>, dst: seq<Byte>, k: nat)
    requires cfg.Valid() && k < |issued| && Arrived(cfg, issued, dst, k)
    ensures Delivers(cfg, issued, dst, k)
  {
    if AllServable(cfg, issued[..k + 1]) {
      FilledIsWanted(cfg, issued, k, dst);
      WantedIsDestination(cfg, dst, issued[k]);
    } else {
      UnservableShifts(cfg, issued, k);
    }
  }

  lemma RunPop(cfg: Config, states: seq<State>, labels: seq<Label>, i: nat)
    requires IsRun(cfg, states, labels) && i < |labels| && labels[i].PopStep?
    ensures Arrived(cfg, states[i].issued, states[i].rs.dst, CalledBack(states[i]))
    ensures Reader.Fires(states[i].rs.fired, states[i + 1].rs.fired, states[i].issued[CalledBack(states[i])].cb)
    ensures states[i + 1].rs.dst == states[i].rs.dst
  {
    RunCore(cfg, states, labels, i);
    PopCalls(cfg, states[i]);
    PopDelivers(cfg, states[i]);
  }

  /** No byte outside the destination of the read being served is ever written by the
      protocol. */
  lemma NothingElseIsWritten(cfg: Config, s: State, l: Label, a: nat)
    requires Sane(cfg, s) && ReaderBooks(cfg, View(s)) && Enabled(cfg, s, l) && !l.DstStore? && a < |s.rs.dst|
    ensures |Next(cfg, s, l).rs.dst| == |s.rs.dst|
    ensures || Next(cfg, s, l).rs.dst[a] == s.rs.dst[a]
            || (l.GatherStep? && 0 <= CalledBack(s) < |s.issued|
                && s.issued[CalledBack(s)].dst <= a < s.issued[CalledBack(s)].dst + s.issued[CalledBack(s)].bytes)
  {
    if l.GatherStep? {
      assert View(s).queue[0].(offset := 0) == ReaderRecord(s.issued[CalledBack(s)]);
    } else {
      assert Next(cfg, s, l).rs.dst == s.rs.dst;
    }
  }

  // ---------------------------------------------------------------- buffers

  /** In every state of every run each buffer id is in at most one place, and all of them
      are in exactly one if and only if the writer has written no unservable read. */
  lemma EveryBufferInOnePlace(cfg: Config, states: seq<State>, labels: seq<Label>, i: nat)
    requires IsRun(cfg, states, labels) && i <= |labels|
    ensures var s := states[i];
            && cfg.Valid() && 0 <= Written(s) <= |s.issued|
            && (forall b: int :: Places(s)[b] <= if 0 <= b < cfg.bufferNum then 1 else 0)
            && ((forall b: int :: 0 <= b < cfg.bufferNum ==> Places(s)[b] == 1) <==>
                AllServable(cfg, s.issued[..Written(s)]))
            && |Places(s)| == cfg.bufferNum - Bad(cfg, s.issued[..Written(s)])
  {
    RunCore(cfg, states, labels, i);
    PlacesOnce(cfg, states[i]);
  }

  lemma PlacesOnce(cfg: Config, s: State)
    requires cfg.Valid() && Owned(cfg, s) && Lent(cfg, s)
    ensures forall b: int :: Places(s)[b] <= if 0 <= b < cfg.bufferNum then 1 else 0
    ensures (forall b: int :: 0 <= b < cfg.bufferNum ==> Places(s)[b] == 1) <==>
            AllServable(cfg, s.issued[..Written(s)])
  {
    OnceEach(Places(s), cfg.bufferNum);
    AllThereIffNoneLost(cfg, s);
  }

  lemma OnceEach(places: multiset<int>, n: nat)
    requires places <= multiset(Ids(n))
    ensures forall b: int :: places[b] <= if 0 <= b < n then 1 else 0
    ensures (forall b: int :: 0 <= b < n ==> places[b] == 1) <==> places == multiset(Ids(n))
  {
    var ids := multiset(Ids(n));
    forall b: int
      ensures ids[b] == if 0 <= b < n then 1 else 0
    {
      IdsOnce(n, b);
    }
    if forall b: int :: 0 <= b < n ==> places[b] == 1 {
      assert forall b: int :: places[b] == ids[b];
      assert places == ids;
    }
  }

  /** A buffer that is nowhere never comes back. */
  lemma LostBufferStaysLost(cfg: Config, states: seq<State>, labels: seq<Label>, i: nat, j: nat, b: int)
    requires IsRun(cfg, states, labels) && i <= j <= |labels| && Places(states[i])[b] == 0
    ensures Places(states[j])[b] == 0
  {
    var there := PlacesOf(states, b);
    forall k | i <= k < j
      ensures there[k + 1] <= there[k]
    {
      RunPlaces(cfg, states, labels, k);
    }
    NeverRises(there, i, j);
  }

  ghost function PlacesOf(states: seq<State>, b: int): (there: seq<nat>)
    ensures |there| == |states| && forall k :: 0 <= k < |states| ==> there[k] == Places(states[k])[b]
  {
    seq(|states|, k requires 0 <= k < |states| => Places(states[k])[b])
  }

  lemma {:induction false} NeverRises(there: seq<nat>, i: nat, j: nat)
    requires i <= j < |there| && forall k :: i <= k < j ==> there[k + 1] <= there[k]
    ensures there[j] <= there[i]
  {
    if i < j {
      NeverRises(there, i, j - 1);
      assert there[j - 1 + 1] <= there[j - 1];
    }
  }

  lemma RunPlaces(cfg: Config, states: seq<State>, labels: seq<Label>, i: nat)
    requires IsRun(cfg, states, labels) && i < |labels|
    ensures Places(states[i + 1]) <= Places(states[i])
  {
    StepPlaces(cfg, states[i], labels[i]);
  }

  /** In every run, a landed buffer the reader has not finished with is not overwritten,
      and neither is the send buffer behind it, by any step of either machine or of the
      network. */
  lemma UnreadBufferIsSafe(cfg: Config, states: seq<State>, labels: seq<Label>, i: nat, b: int)
    requires IsRun(cfg, states, labels) && i < |labels|
    requires 0 <= b < cfg.bufferNum && (b in Tags(states[i].cq) || b in Reading(states[i].rs.phase))
    ensures var s, r := states[i], states[i + 1];
            && |r.rs.recv| == |s.rs.recv| == |r.ws.send| == |s.ws.send| == cfg.bufferNum
            && r.rs.recv[b] == s.rs.recv[b] && r.ws.send[b] == s.ws.send[b]
  {
    RunCore(cfg, states, labels, i);
    UnreadIsSafe(cfg, states[i], labels[i], b);
  }

  lemma UnreadIsSafe(cfg: Config, s: State, l: Label, b: int)
    requires Sane(cfg, s) && Owned(cfg, s) && Wired(s.ws.wire) && Enabled(cfg, s, l)
    requires 0 <= b < cfg.bufferNum && (b in Tags(s.cq) || b in Reading(s.rs.phase))
    ensures var r := Next(cfg, s, l);
            |r.rs.recv| == |r.ws.send| == cfg.bufferNum && r.rs.recv[b] == s.rs.recv[b] && r.ws.send[b] == s.ws.send[b]
  {
    NotOnWire(cfg, s, b);
    UnreadIsNotHeld(cfg, s, b);
    OnlyTheHolderWrites(cfg, s, l, b);
  }

  lemma UnreadIsNotHeld(cfg: Config, s: State, b: int)
    requires cfg.Valid() && Owned(cfg, s) && (b in Tags(s.cq) || b in Reading(s.rs.phase))
    ensures b !in Held(s.ws)
  {
    AtMostOnce(cfg, s, b);
    TagsAppend(s.cq, Imms(s.ws.wire));
  }

  lemma OnlyTheHolderWrites(cfg: Config, s: State, l: Label, b: int)
    requires Sane(cfg, s) && Enabled(cfg, s, l) && 0 <= b < cfg.bufferNum
    ensures var r := Next(cfg, s, l);
            && |r.rs.recv| == |r.ws.send| == cfg.bufferNum
            && (b !in Held(s.ws) ==> r.ws.send[b] == s.ws.send[b])
            && (!Mentions(s.ws.wire, b) && b !in Held(s.ws) ==> r.rs.recv[b] == s.rs.recv[b])
  {
    var r := Next(cfg, s, l);
    if l.Land? {
      assert s.ws.wire[0].buf != b ==> r.rs.recv[b] == s.rs.recv[b];
    } else if l.LandStray? {
      assert s.ws.buf in Held(s.ws);
    } else if l.WriterStep? && s.ws.handle == Writer.DoCurWrite {
      assert s.ws.buf in Held(s.ws);
    } else {
      assert r.rs.recv == s.rs.recv && r.ws.send == s.ws.send;
    }
  }

  /** In every run, a buffer on the wire keeps its source bytes until they have landed. */
  lemma SendBufferIsSafe(cfg: Config, states: seq<State>, labels: seq<Label>, i: nat, b: int)
    requires IsRun(cfg, states, labels) && i < |labels|
    requires 0 <= b < cfg.bufferNum && Mentions(states[i].ws.wire, b)
    ensures |states[i + 1].ws.send| == |states[i].ws.send| == cfg.bufferNum
    ensures states[i + 1].ws.send[b] == states[i].ws.send[b]
  {
    RunCore(cfg, states, labels, i);
    SendIsSafe(cfg, states[i], labels[i], b);
  }

  lemma SendIsSafe(cfg: Config, s: State, l: Label, b: int)
    requires Sane(cfg, s) && Owned(cfg, s) && Wired(s.ws.wire) && Enabled(cfg, s, l)
    requires 0 <= b < cfg.bufferNum && Mentions(s.ws.wire, b)
    ensures |Next(cfg, s, l).ws.send| == cfg.bufferNum && Next(cfg, s, l).ws.send[b] == s.ws.send[b]
  {
    if b in Held(s.ws) {
      NotOnWire(cfg, s, b);
    }
    OnlyTheHolderWrites(cfg, s, l, b);
  }

  // ---------------------------------------------------------------- order

  /** Stream agreement in every state of every run.  `n` chunks have been copied out and
      `w` dealt with by the writer: the reader expects the stream from n on, the writer
      owes it from w on, and the claimed buffers carry, in order, the served chunks from
      number n on; those after them are the ones the writer will still serve. */
  lemma StreamsAgree(cfg: Config, states: seq<State>, labels: seq<Label>, i: nat)
    requires IsRun(cfg, states, labels) && i <= |labels|
    ensures Synchronised(cfg, states[i])
  {
    RunCore(cfg, states, labels, i);
    StreamsStand(cfg, View(states[i]));
  }

  ghost predicate Synchronised(cfg: Config, s: State) {
    && Sound(cfg, View(s))
    && var all, g := All(cfg, s.issued), Served(cfg, All(cfg, s.issued));
       var n, w, c := Consumed(cfg, View(s)), Dealt(cfg, View(s)), |Claims(s)|;
       && 0 <= n <= w <= |all| && n + c <= |g|
       && Expected(cfg, View(s)) == all[n..]
       && ToPost(cfg, View(s)) == all[w..]
       && AllCarried(cfg, s.issued, s.ws.send, s.rs.recv, s.ws.wire, g[n..], Claims(s))
       && Served(cfg, ToPost(cfg, View(s))) == g[n..][c..]
  }

  /** The poller's buffer holds the bytes of a chunk, and this is the one the front record
      stands at - same read, offset and length - if and only if every read up to the front
      one is servable; otherwise it is a later one. */
  ghost predicate InStep(cfg: Config, s: State)
    requires s.rs.phase.Got?
  {
    && Reader.WellFormed(cfg, s.rs) && ReaderBooks(cfg, View(s)) && s.rs.queue != []
    && 0 <= CalledBack(s) < |s.issued| && Incoming(cfg, View(s)) != []
    && var front := Chunk(CalledBack(s), s.rs.queue[0].offset, Reader.NextLen(cfg, s.rs.queue[0]));
       var come := Incoming(cfg, View(s))[0];
       && Delivered(cfg, s.issued, s.rs.recv[s.rs.phase.buf], come)
       && (front == come <==> AllServable(cfg, s.issued[..CalledBack(s) + 1]))
       && (front != come ==> Before(front, come))
  }

  /** Lockstep on the reading side, exactly, in every run. */
  lemma ReaderIsInStep(cfg: Config, states: seq<State>, labels: seq<Label>, i: nat)
    requires IsRun(cfg, states, labels) && i <= |labels| && states[i].rs.phase.Got?
    ensures InStep(cfg, states[i])
  {
    RunCore(cfg, states, labels, i);
    HandInStep(cfg, states[i]);
  }

  lemma HandInStep(cfg: Config, s: State)
    requires Sane(cfg, s) && Sound(cfg, View(s)) && Carried(cfg, s) && s.rs.phase.Got?
    requires Owned(cfg, s) && Wired(s.ws.wire)
    ensures InStep(cfg, s)
  {
    InHandIsCarried(cfg, s);
    InHandIsLanded(cfg, s);
    FrontMatches(cfg, View(s));
  }

  lemma FrontMatches(cfg: Config, l: Ledger)
    requires Sound(cfg, l) && l.phase.Got? && Incoming(cfg, l) != []
    ensures 0 <= Popped(l) < |l.issued| && l.queue != []
    ensures var front := Chunk(Popped(l), l.queue[0].offset, Reader.NextLen(cfg, l.queue[0]));
            && (front == Incoming(cfg, l)[0] <==> AllServable(cfg, l.issued[..Popped(l) + 1]))
            && (front != Incoming(cfg, l)[0] ==> Before(front, Incoming(cfg, l)[0]))
  {
    FrontMatchesIffServable(cfg, l);
  }

  /** Callbacks, in every run: read callbacks are those of the first reads in issue
      order, each once; read-done callbacks are called in registration order, never
      more than there are finished reads. */
  lemma CallbacksAreInOrder(cfg: Config, states: seq<State>, labels: seq<Label>, i: nat)
    requires IsRun(cfg, states, labels) && i <= |labels|
    ensures var s := states[i];
            && 0 <= CalledBack(s) <= |s.issued|
            && s.rs.fired == CallbacksOf(s.issued[..CalledBack(s)])
            && s.readDone <= s.registered
            && |s.readDone| <= CalledBack(s)
  {
    RunKept(cfg, states, labels, i);
    KeptCallbacks(states[i]);
  }

  lemma KeptCallbacks(s: State)
    requires ReadCallbacksInOrder(s) && DoneCallbacksInOrder(s)
    ensures 0 <= CalledBack(s) <= |s.issued| && s.rs.fired == CallbacksOf(s.issued[..CalledBack(s)])
    ensures s.readDone <= s.registered && |s.readDone| <= CalledBack(s)
  {
  }

  /** Reads below number `k` that have a callback. */
  function WithCallback(issued: seq<Read>, k: nat): nat
    requires k <= |issued|
  {
    if k == 0 then 0 else WithCallback(issued, k - 1) + if issued[k - 1].cb.Some? then 1 else 0
  }

  lemma {:induction false} NthOfCallbacks(issued: seq<Read>, n: nat)
    requires n <= |issued|
    ensures |CallbacksOf(issued[..n])| == WithCallback(issued, n)
    ensures forall k :: 0 <= k < n && issued[k].cb.Some? ==>
              && WithCallback(issued, k) < WithCallback(issued, n)
              && CallbacksOf(issued[..n])[WithCallback(issued, k)] == issued[k].cb.value
  {
    if n > 0 {
      NthOfCallbacks(issued, n - 1);
      assert issued[..n][..n - 1] == issued[..n - 1];
    }
  }

  /** The n-th call of a read callback, in every run, is that of the n-th popped read that
      has one: as many calls as popped reads with a callback, each at its place. */
  lemma EveryCallbackIsCalled(cfg: Config, states: seq<State>, labels: seq<Label>, i: nat)
    requires IsRun(cfg, states, labels) && i <= |labels|
    ensures var s := states[i];
            && 0 <= CalledBack(s) <= |s.issued|
            && |s.rs.fired| == WithCallback(s.issued, CalledBack(s))
            && forall k :: 0 <= k < CalledBack(s) && s.issued[k].cb.Some? ==>
                 && WithCallback(s.issued, k) < |s.rs.fired|
                 && s.rs.fired[WithCallback(s.issued, k)] == s.issued[k].cb.value
  {
    CallbacksAreInOrder(cfg, states, labels, i);
    NthOfCallbacks(states[i].issued, CalledBack(states[i]));
  }

  /** No lost wake-up, in every run: a writer outside its loop has no record to serve or
      no buffer to serve it with, although a new record wakes it only when the pending
      queue was empty.  Receive requests are neither lost nor made. */
  lemma WriterIsNeverForgotten(cfg: Config, states: seq<State>, labels: seq<Label>, i: nat)
    requires IsRun(cfg, states, labels) && i <= |labels|
    ensures var s := states[i];
            && (!s.running ==>
                  || (s.ws.handle == Writer.InitWriteHandle && Writer.Fifo(s.ws) == [])
                  || (s.ws.handle == Writer.RequestBuffer && s.ws.idle == []))
            && 0 <= s.posted <= cfg.recvRequests
            && s.posted + |s.cq| + (if s.rs.phase.Idle? then 0 else 1) == cfg.recvRequests
  {
    RunKept(cfg, states, labels, i);
  }

  /** The read-done callback, in every run: once it has been called for read `k`, no chunk
      of that read is expected, in a buffer, or still to be posted, and the writer is past
      it for good: the source region may be used again. */
  lemma SourceMayBeReused(cfg: Config, states: seq<State>, labels: seq<Label>, i: nat, k: nat)
    requires IsRun(cfg, states, labels) && i <= |labels| && k < |states[i].readDone|
    ensures Sound(cfg, View(states[i])) && k < CalledBack(states[i])
    ensures PastRead(cfg, View(states[i]), k)
  {
    RunKept(cfg, states, labels, i);
    KeptCallbacks(states[i]);
    BothPast(cfg, View(states[i]), k);
  }

  ghost predicate PastRead(cfg: Config, l: Ledger, k: int)
    requires Sound(cfg, l)
  {
    && k < ReaderAt(l).0 <= WriterAt(l).0
    && (forall i :: 0 <= i < |Expected(cfg, l)| ==> k < Expected(cfg, l)[i].read)
    && (forall i :: 0 <= i < |Incoming(cfg, l)| ==> k < Incoming(cfg, l)[i].read)
    && (forall i :: 0 <= i < |ToPost(cfg, l)| ==> k < ToPost(cfg, l)[i].read)
  }

  lemma BothPast(cfg: Config, l: Ledger, k: nat)
    requires Sound(cfg, l) && k < Popped(l)
    ensures PastRead(cfg, l, k)
  {
    WriterIsNotBehind(cfg, l);
    StreamsStand(cfg, l);
    ExpectedOk(cfg, l);
    TailsPast(cfg, All(cfg, l.issued), Consumed(cfg, l), Dealt(cfg, l), k);
  }

  /** If everything from position `n` on is past read `k`, so is everything later, and
      every served chunk from number `n` on. */
  lemma TailsPast(cfg: Config, all: seq<Chunk>, n: nat, w: nat, k: nat)
    requires cfg.Valid() && n <= w <= |all| && n <= |Served(cfg, all)|
    requires forall i :: 0 <= i < |all[n..]| ==> k < all[n..][i].read
    ensures forall i :: 0 <= i < |all[w..]| ==> k < all[w..][i].read
    ensures forall i :: 0 <= i < |Served(cfg, all)[n..]| ==> k < Served(cfg, all)[n..][i].read
  {
    forall x: nat | n <= x < |all|
      ensures k < all[x].read
    {
      assert all[x] == all[n..][x - n];
    }
    forall i: nat | i < |Served(cfg, all)[n..]|
      ensures k < Served(cfg, all)[n..][i].read
    {
      var at := ServedStandsLater(cfg, all, n + i);
    }
  }

  // ---------------------------------------------------------------- completion

  /** The reads issued up to state `i` are those of the DoRead labels before it. */
  lemma IssuedInRun(cfg: Config, states: seq<State>, labels: seq<Label>, i: nat)
    requires IsRun(cfg, states, labels) && i <= |labels|
    ensures cfg.Valid()
    ensures AllServable(cfg, states[i].issued) <==> ServableRun(cfg, labels[..i])
  {
    RunIssueSteps(cfg, states, labels);
    IssuedBy(cfg, states, labels, i);
  }

  ghost predicate IssueStep(cfg: Config, states: seq<State>, labels: seq<Label>, k: int)
    requires cfg.Valid() && |states| == |labels| + 1 && 0 <= k < |labels|
  {
    AllServable(cfg, states[k + 1].issued) <==>
    AllServable(cfg, states[k].issued) && (labels[k].DoRead? ==> cfg.Servable(labels[k].bytes))
  }

  lemma RunIssueSteps(cfg: Config, states: seq<State>, labels: seq<Label>)
    requires IsRun(cfg, states, labels)
    ensures cfg.Valid() && states[0].issued == []
    ensures forall k :: 0 <= k < |labels| ==> IssueStep(cfg, states, labels, k)
  {
    forall k | 0 <= k < |labels|
      ensures IssueStep(cfg, states, labels, k)
    {
      RunIssues(cfg, states, labels, k);
    }
  }

  lemma {:induction false} IssuedBy(cfg: Config, states: seq<State>, labels: seq<Label>, i: nat)
    requires cfg.Valid() && |states| == |labels| + 1 && i <= |labels| && states[0].issued == []
    requires forall k :: 0 <= k < |labels| ==> IssueStep(cfg, states, labels, k)
    ensures AllServable(cfg, states[i].issued) <==> ServableRun(cfg, labels[..i])
  {
    if i > 0 {
      IssuedBy(cfg, states, labels, i - 1);
      assert IssueStep(cfg, states, labels, i - 1);
      assert labels[..i] == labels[..i - 1] + [labels[i - 1]];
      ServableRunSnoc(cfg, labels[..i - 1], labels[i - 1]);
    }
  }

  lemma ServableRunSnoc(cfg: Config, labels: seq<Label>, l: Label)
    requires cfg.Valid()
    ensures ServableRun(cfg, labels + [l]) <==> ServableRun(cfg, labels) && (l.DoRead? ==> cfg.Servable(l.bytes))
  {
    assert (labels + [l])[|labels|] == l;
    assert forall i :: 0 <= i < |labels| ==> (labels + [l])[i] == labels[i];
  }

  lemma RunIssues(cfg: Config, states: seq<State>, labels: seq<Label>, i: nat)
    requires IsRun(cfg, states, labels) && i < |labels|
    ensures cfg.Valid()
    ensures AllServable(cfg, states[i + 1].issued) <==>
            AllServable(cfg, states[i].issued) && (labels[i].DoRead? ==> cfg.Servable(labels[i].bytes))
  {
    StepIssues(cfg, states[i], labels[i]);
  }

  lemma StepIssues(cfg: Config, s: State, l: Label)
    requires Sane(cfg, s) && Enabled(cfg, s, l)
    ensures AllServable(cfg, Next(cfg, s, l).issued) <==>
            AllServable(cfg, s.issued) && (l.DoRead? ==> cfg.Servable(l.bytes))
  {
    var r := Next(cfg, s, l);
    IssuedGrows(cfg, s, l);
    if l.DoRead? {
      assert r.issued == s.issued + [r.issued[|s.issued|]];
      ServableSnoc(cfg, s.issued, r.issued[|s.issued|]);
    }
  }

  lemma ServableSnoc(cfg: Config, issued: seq<Read>, x: Read)
    requires cfg.Valid()
    ensures AllServable(cfg, issued + [x]) <==> AllServable(cfg, issued) && cfg.Servable(x.bytes)
  {
    assert (issued + [x])[|issued|] == x;
    assert forall i :: 0 <= i < |issued| ==> (issued + [x])[i] == issued[i];
  }

  /** The exact condition for completion.  When the system has come to rest, with a
      read-done callback registered for every read, all reads have been called back if
      and only if every read issued was servable: not empty, or given an entry by the
      wrapped and narrowed count. */
  lemma RestIsCompletionIffServable(cfg: Config, states: seq<State>, labels: seq<Label>)
    requires IsRun(cfg, states, labels)
    requires Quiet(cfg, states[|labels|]) && |states[|labels|].registered| >= |states[|labels|].issued|
    ensures states[|labels|].rs.queue == [] <==> ServableRun(cfg, labels)
    ensures ServableRun(cfg, labels) ==>
              var s := states[|labels|];
              && s.rs.fired == CallbacksOf(s.issued)
              && |s.readDone| == |s.issued|
              && multiset(s.ws.idle) == multiset(Ids(cfg.bufferNum))
  {
    var s := states[|labels|];
    RunKept(cfg, states, labels, |labels|);
    IssuedInRun(cfg, states, labels, |labels|);
    assert labels[..|labels|] == labels;
    if ServableRun(cfg, labels) {
      RunCore(cfg, states, labels, |labels|);
      QuietIsComplete(cfg, s);
    } else if s.rs.queue == [] {
      CompleteOnlyIfServable(cfg, s);
    }
  }

  /** And the system does come to rest: after state `i` it can take at most as many
      steps of its own as the measure says. */
  lemma RestIsReached(cfg: Config, states: seq<State>, labels: seq<Label>, i: nat, j: nat)
    requires IsRun(cfg, states, labels) && i <= j <= |labels|
    requires forall k :: i <= k < j ==> Driven(labels[k])
    ensures WriterBooks(cfg, View(states[i])) && WriterBooks(cfg, View(states[j]))
    ensures j - i + Measure(cfg, states[j]) <= Measure(cfg, states[i])
  {
    var left := seq(|states|, k requires 0 <= k < |states| => Left(cfg, states[k]));
    forall k | i <= k < j
      ensures left[k + 1] < left[k]
    {
      RunStepLowers(cfg, states, labels, k);
    }
    Falls(left, i, j);
    RunBooks(cfg, states, labels, i);
    RunBooks(cfg, states, labels, j);
  }

  ghost function Left(cfg: Config, s: State): nat {
    if cfg.Valid() && WriterBooks(cfg, View(s)) then Measure(cfg, s) else 0
  }

  lemma {:induction false} Falls(left: seq<nat>, i: nat, j: nat)
    requires i <= j < |left| && forall k :: i <= k < j ==> left[k + 1] < left[k]
    ensures j - i + left[j] <= left[i]
  {
    if i < j {
      Falls(left, i, j - 1);
      assert left[j - 1 + 1] < left[j - 1];
    }
  }

  lemma RunBooks(cfg: Config, states: seq<State>, labels: seq<Label>, i: nat)
    requires IsRun(cfg, states, labels) && i <= |labels|
    ensures cfg.Valid() && WriterBooks(cfg, View(states[i]))
  {
    RunKept(cfg, states, labels, i);
  }

  lemma RunStepLowers(cfg: Config, states: seq<State>, labels: seq<Label>, i: nat)
    requires IsRun(cfg, states, labels) && i < |labels| && Driven(labels[i])
    ensures cfg.Valid() && WriterBooks(cfg, View(states[i])) && WriterBooks(cfg, View(states[i + 1]))
    ensures Measure(cfg, states[i + 1]) < Measure(cfg, states[i])
  {
    RunKept(cfg, states, labels, i);
    DrivenLowers(cfg, states[i], labels[i]);
  }

  /** Some step of the system that keeps requests in order. */
  lemma SomeStep(cfg: Config, s: State) returns (l: Label)
    requires !Quiet(cfg, s)
    ensures Driven(l) && Enabled(cfg, s, l) && InOrder(s, l)
  {
    l :| Driven(l) && Enabled(cfg, s, l);
    if l.SendRequest? {
      l := SendRequest(s.unsent[0]);
    }
  }

  /** While a read is outstanding, some step other than the application's can continue the
      run. */
  lemma OutstandingReadCanMove(cfg: Config, states: seq<State>, labels: seq<Label>)
    requires IsRun(cfg, states, labels) && ServableRun(cfg, labels)
    requires states[|labels|].rs.queue != [] && |states[|labels|].registered| >= |states[|labels|].issued|
    ensures exists l :: Driven(l) && Enabled(cfg, states[|labels|], l) && InOrder(states[|labels|], l)
  {
    if Quiet(cfg, states[|labels|]) {
      RestIsCompletionIffServable(cfg, states, labels);
    } else {
      var l := SomeStep(cfg, states[|labels|]);
    }
  }

  /** Runs exist for every valid configuration and any contents of the memories. */
  lemma EveryConfigurationStarts(cfg: Config, src: seq<Byte>, dst: seq<Byte>, send: seq<seq<Byte>>,
                        recv: seq<seq<Byte>>)
    requires cfg.Valid() && |send| == |recv| == cfg.bufferNum
    requires forall i :: 0 <= i < cfg.bufferNum ==> |send[i]| == |recv[i]| == cfg.bufferBytes
    ensures exists s :: IsRun(cfg, [s], []) && s.src == src && s.rs.dst == dst && s.ws.send == send && s.rs.recv == recv
  {
    var s := State(src, Writer.Initial(cfg, send), false, false, None, [], [], [],
                   Reader.ReadSide([], dst, recv, [], [], Reader.Idle), [], [], cfg.recvRequests, []);
    assert InitialState(cfg, s);
    assert IsRun(cfg, [s], []);
  }
}
