/** Runs that show what the conditions of the theorems are for. */
module Witnesses {
  import opened Config
  import opened Messages
  import opened Options
  import opened System
  import opened Stream
  import opened Ledger
  import opened Books
  import opened Ownership
  import opened Delivery
  import opened Integrity
  import opened Liveness
  import opened Theorems
  import opened Continuations
  import opened Exceptions
  import Sanity
  import Writer
  import Reader

  function Start(cfg: Config, src: seq<Byte>, dst: seq<Byte>): State
    requires cfg.Valid()
  {
    var buffers := seq(cfg.bufferNum, _ => seq(cfg.bufferBytes, _ => 0));
    State(src, Writer.Initial(cfg, buffers), false, false, None, [], [], [],
          Reader.ReadSide([], dst, buffers, [], [], Reader.Idle), [], [], cfg.recvRequests, [])
  }

  /** The application registers `n` read-done callbacks and issues the reads. */
  function Registered(s: State, n: nat): State {
    s.(cbs := Zeros(n), registered := Zeros(n))
  }

  function Zeros(n: nat): seq<nat> { seq(n, _ => 0) }

  lemma StartIsRun(cfg: Config, src: seq<Byte>, dst: seq<Byte>)
    requires cfg.Valid()
    ensures IsRun(cfg, [Start(cfg, src, dst)], [])
  {
    assert InitialState(cfg, Start(cfg, src, dst));
  }

  /** A run in which nothing but callbacks has been registered. */
  lemma {:induction false} RegisterRun(cfg: Config, src: seq<Byte>, dst: seq<Byte>, n: nat)
      returns (states: seq<State>, labels: seq<Label>)
    requires cfg.Valid()
    ensures IsRun(cfg, states, labels) && |labels| == n && states[n] == Registered(Start(cfg, src, dst), n)
    ensures forall i :: 0 <= i < n ==> labels[i] == RegisterReadDoneCb(0)
  {
    if n == 0 {
      StartIsRun(cfg, src, dst);
      states, labels := [Start(cfg, src, dst)], [];
    } else {
      states, labels := RegisterRun(cfg, src, dst, n - 1);
      RunExtends(cfg, states, labels, RegisterReadDoneCb(0));
      assert Zeros(n - 1) + [0] == Zeros(n);
      states, labels := states + [Next(cfg, states[n - 1], RegisterReadDoneCb(0))], labels + [RegisterReadDoneCb(0)];
    }
  }

  /** The run with one more read. */
  lemma ReadRun(cfg: Config, states: seq<State>, labels: seq<Label>, a: nat, d: nat, n: nat)
      returns (longer: seq<State>, more: seq<Label>)
    requires IsRun(cfg, states, labels) && Enabled(cfg, states[|labels|], DoRead(a, d, n, None))
    ensures a + n <= |states[|labels|].src| && d + n <= |states[|labels|].rs.dst|
    ensures IsRun(cfg, longer, more) && more == labels + [DoRead(a, d, n, None)]
    ensures longer[|more|] == DoDoRead(states[|labels|], a, d, n, None)
  {
    RunExtends(cfg, states, labels, DoRead(a, d, n, None));
    longer := states + [Next(cfg, states[|labels|], DoRead(a, d, n, None))];
    more := labels + [DoRead(a, d, n, None)];
  }

  // ---------------------------------------------------------------- sizes that do not fit

  /** Whenever the sizes do not fit, there is a run in which the read callback is called
      over a destination that is not the source: with SizesFitIsExact and
      ReadCallbackMeansDelivered, sizes fit if and only if every run delivers every byte. */
  lemma MisfitLosesBytes(cfg: Config, n: nat) returns (states: seq<State>, labels: seq<Label>, i: nat)
    requires cfg.Valid() && n < U64 && !SizesFit(cfg, n)
    ensures IsRun(cfg, states, labels) && i < |labels| && labels[i].PopStep?
    ensures CalledBack(states[i]) == 0 && |states[i].issued| == 1 && states[i].issued[0].bytes == n
    ensures var s, r := states[i], states[i].issued[0];
            r.dst + n <= |s.rs.dst| && s.rs.dst[r.dst..r.dst + n] != r.data
  {
    var ones: seq<Byte>, zeros: seq<Byte> := seq(n, _ => 1), seq(n, _ => 0);
    SgeSpan(cfg);
    states, labels := LoneReadRun(cfg, ones, zeros, n);
    states, labels, i := LoneCallback(cfg, states, labels, Read(0, 0, n, None, ones, zeros));
    MisfitShows(cfg, states[i].rs.dst, states[i].issued[0]);
  }

  predicate NoPops(labels: seq<Label>) {
    forall i :: 0 <= i < |labels| ==> !labels[i].PopStep?
  }

  lemma LoneReadRun(cfg: Config, src: seq<Byte>, dst: seq<Byte>, n: nat)
      returns (states: seq<State>, labels: seq<Label>)
    requires cfg.Valid() && |src| == |dst| == n < U64
    ensures IsRun(cfg, states, labels) && NoPops(labels)
    ensures states[|labels|].issued == [Read(0, 0, n, None, src, dst)] && |states[|labels|].registered| == 1
  {
    states, labels := RegisterRun(cfg, src, dst, 1);
    states, labels := ReadRun(cfg, states, labels, 0, 0, n);
    assert src[0..n] == src && dst[0..n] == dst;
  }

  /** The step at which a lone read is called back, and what it delivered. */
  lemma LoneCallback(cfg: Config, states: seq<State>, labels: seq<Label>, r: Read)
      returns (all: seq<State>, done: seq<Label>, i: nat)
    requires IsRun(cfg, states, labels) && NoPops(labels) && states[|labels|].issued == [r] && r.bytes > 0
    requires |states[|labels|].registered| >= 1
    ensures IsRun(cfg, all, done) && i < |done| && done[i].PopStep?
    ensures CalledBack(all[i]) == 0 && all[i].issued == [r] && cfg.Valid() && DestinationIs(cfg, all[i].rs.dst, r)
  {
    all, done := LoneRead(cfg, states, labels);
    i := CallbackHappened(cfg, all, done, 0);
    PopsLater(labels, done, i);
    ReadCallbackMeansDelivered(cfg, all, done, i);
  }

  lemma MisfitShows(cfg: Config, dst: seq<Byte>, r: Read)
    requires cfg.Valid() && DestinationIs(cfg, dst, r) && !SizesFit(cfg, r.bytes)
    requires forall p :: 0 <= p < r.bytes ==> r.before[p] != r.data[p]
    ensures dst[r.dst..r.dst + r.bytes] != r.data
  {
    var p :| 0 <= p < r.bytes && !Covered(cfg, p) && dst[r.dst + p] == r.before[p];
    assert dst[r.dst..r.dst + r.bytes][p] == r.before[p];
  }

  /** A run in which one servable read has been issued, continued to its callback. */
  lemma LoneRead(cfg: Config, states: seq<State>, labels: seq<Label>) returns (all: seq<State>, done: seq<Label>)
    requires IsRun(cfg, states, labels) && |states[|labels|].issued| == 1 && states[|labels|].issued[0].bytes > 0
    requires |states[|labels|].registered| >= 1
    ensures IsRun(cfg, all, done) && states <= all && labels <= done && 0 < CalledBack(all[|done|])
    ensures forall i :: |labels| <= i < |all| ==> all[i].issued == states[|labels|].issued
  {
    LoneIsServable(cfg, states, labels);
    var more, steps, last := EveryRunCanComplete(cfg, states, labels);
    all, done := LoneContinued(cfg, states, labels, more, steps, last);
  }

  lemma LoneIsServable(cfg: Config, states: seq<State>, labels: seq<Label>)
    requires IsRun(cfg, states, labels) && |states[|labels|].issued| == 1 && states[|labels|].issued[0].bytes > 0
    ensures cfg.Valid() && ServableRun(cfg, labels)
  {
    IssuedInRun(cfg, states, labels, |labels|);
    assert labels[..|labels|] == labels;
  }

  lemma LoneContinued(cfg: Config, states: seq<State>, labels: seq<Label>, more: seq<State>, steps: seq<Label>,
                      last: State)
      returns (all: seq<State>, done: seq<Label>)
    requires Continues(cfg, states, labels, more, steps, last) && cfg.Valid() && Complete(cfg, last)
    requires |states[|labels|].issued| == 1
    ensures IsRun(cfg, all, done) && states <= all && labels <= done && 0 < CalledBack(all[|done|])
    ensures forall i :: |labels| <= i < |all| ==> all[i].issued == states[|labels|].issued
  {
    all, done := states + more, labels + steps;
    assert last.issued == states[|labels|].issued;
  }

  lemma PopsLater(labels: seq<Label>, done: seq<Label>, i: nat)
    requires NoPops(labels) && labels <= done && i < |done| && done[i].PopStep?
    ensures i >= |labels|
  {
    assert forall j :: 0 <= j < |labels| ==> done[j] == labels[j];
  }

  // ---------------------------------------------------------------- an empty read

  function Three(x: Byte, y: Byte): seq<Read> {
    [Read(0, 0, 0, None, [], []), Read(0, 0, 1, None, [x], [0]), Read(1, 1, 1, None, [y], [0])]
  }

  lemma ThreeChunks(cfg: Config, x: Byte, y: Byte)
    requires cfg.Valid() && !cfg.Servable(0)
    ensures All(cfg, Three(x, y)) == [Chunk(0, 0, 0), Chunk(1, 0, 1), Chunk(2, 0, 1)]
    ensures Served(cfg, All(cfg, Three(x, y))) == [Chunk(1, 0, 1), Chunk(2, 0, 1)]
    ensures Slot(cfg, Three(x, y), 1) == 1
  {
    var issued := Three(x, y);
    ChunksStep(cfg, issued, 0, 0);
    ChunksStep(cfg, issued, 1, 0);
    ChunksStep(cfg, issued, 2, 0);
    assert Chunks(cfg, issued, 3, 0) == [];
    assert All(cfg, issued) == [Chunk(0, 0, 0)] + [Chunk(1, 0, 1)] + [Chunk(2, 0, 1)];
    ServedThree(cfg, Chunk(0, 0, 0), Chunk(1, 0, 1), Chunk(2, 0, 1));
  }

  lemma ServedThree(cfg: Config, a: Chunk, b: Chunk, c: Chunk)
    requires cfg.Valid() && !cfg.Servable(0) && a.len == 0 && b.len == 1 && c.len == 1
    ensures Served(cfg, [a] + [b] + [c]) == [b, c]
  {
    SgeCountOfChunk(cfg, 1);
    ServedOne(cfg, a);
    ServedOne(cfg, b);
    ServedOne(cfg, c);
    ServedAppend(cfg, [a], [b]);
    ServedAppend(cfg, [a] + [b], [c]);
  }

  lemma ThreeBad(cfg: Config, x: Byte, y: Byte, n: nat)
    requires cfg.Valid() && n <= 3
    ensures Bad(cfg, Three(x, y)[..n]) <= 1
  {
    var issued := Three(x, y);
    assert issued[..0] == [];
    BadNext(cfg, issued, 0);
    BadNext(cfg, issued, 1);
    BadNext(cfg, issued, 2);
    assert n == 0 || n == 1 || n == 2 || n == 3;
  }

  /** What a further read does to a run. */
  lemma AddRead(cfg: Config, states: seq<State>, labels: seq<Label>, a: nat, d: nat, n: nat)
      returns (longer: seq<State>, more: seq<Label>)
    requires IsRun(cfg, states, labels) && NoPops(labels)
    requires var s := states[|labels|];
             && a + n <= |s.src| && d + n <= |s.rs.dst| && n < U64
             && forall i :: 0 <= i < |s.issued| ==> Disjoint(s.issued[i].dst, s.issued[i].bytes, d, n)
    ensures IsRun(cfg, longer, more) && NoPops(more) && |more| == |labels| + 1
    ensures longer[|more|] == DoDoRead(states[|labels|], a, d, n, None)
  {
    longer, more := ReadRun(cfg, states, labels, a, d, n);
  }

  lemma Registrations(cfg: Config, src: seq<Byte>, dst: seq<Byte>, n: nat)
      returns (states: seq<State>, labels: seq<Label>)
    requires cfg.Valid()
    ensures IsRun(cfg, states, labels) && NoPops(labels)
    ensures states[|labels|] == Registered(Start(cfg, src, dst), n)
  {
    states, labels := RegisterRun(cfg, src, dst, n);
  }

  lemma ThreeReads(cfg: Config, x: Byte, y: Byte) returns (states: seq<State>, labels: seq<Label>)
    requires cfg.Valid()
    ensures IsRun(cfg, states, labels) && NoPops(labels)
    ensures states[|labels|].issued == Three(x, y) && |states[|labels|].registered| == 3
  {
    states, labels := TwoReads(cfg, x, y);
    var s := states[|labels|];
    assert s.src[1..2] == [y] && s.rs.dst[1..2] == [0];
    states, labels := AddRead(cfg, states, labels, 1, 1, 1);
  }

  lemma TwoReads(cfg: Config, x: Byte, y: Byte) returns (states: seq<State>, labels: seq<Label>)
    requires cfg.Valid()
    ensures IsRun(cfg, states, labels) && NoPops(labels)
    ensures var s := states[|labels|];
            s.issued == Three(x, y)[..2] && |s.registered| == 3 && s.src == [x, y] && s.rs.dst == [0, 0]
  {
    states, labels := Registrations(cfg, [x, y], [0, 0], 3);
    states, labels := AddRead(cfg, states, labels, 0, 0, 0);
    var s := states[|labels|];
    assert s.issued == [Read(0, 0, 0, None, [], [])];
    assert s.src[0..1] == [x] && s.rs.dst[0..1] == [0];
    states, labels := AddRead(cfg, states, labels, 0, 0, 1);
  }

  lemma EmptyNeverThrows(cfg: Config, s: State)
    requires Sane(cfg, s) && WriterBooks(cfg, View(s)) && cfg.SgeCount(0) >= 0
    ensures s.thrown.None?
  {
    if Writer.Throws(cfg, s.ws) {
      ThrowsOnEmpty(cfg, s);
    }
  }

  /** At rest the first two reads have been called back and the third one has not. */
  lemma ThreeAtRest(cfg: Config, s: State, x: Byte, y: Byte)
    requires Core(cfg, s) && Quiet(cfg, s) && s.issued == Three(x, y) && |s.registered| == 3
    requires cfg.SgeCount(0) == 0 && cfg.bufferNum >= 2
    ensures CalledBack(s) == 2
  {
    EmptyNeverThrows(cfg, s);
    ThreeBad(cfg, x, y, Written(s));
    QuietIsDrained(cfg, s);
    ThreeChunks(cfg, x, y);
    StreamsStand(cfg, View(s));
    assert Expected(cfg, View(s)) == [Chunk(2, 0, 1)];
    FrontExpected(cfg, View(s));
  }

  /** An empty read without entries corrupts the next one: with at least two buffers there
      is a run in which a read of one byte is called back over the byte of the read after
      it. */
  lemma EmptyReadCorruptsTheNext(cfg: Config, x: Byte, y: Byte) returns (states: seq<State>, labels: seq<Label>, i: nat)
    requires cfg.Valid() && cfg.SgeCount(0) == 0 && cfg.bufferNum >= 2
    ensures IsRun(cfg, states, labels) && i < |labels| && labels[i].PopStep? && CalledBack(states[i]) == 1
    ensures states[i].issued == Three(x, y)
    ensures states[i].rs.dst != [] && states[i].rs.dst[states[i].issued[1].dst] == y
  {
    states, labels := ThreeReads(cfg, x, y);
    var more, steps, last := RunToRest(cfg, states, labels);
    var all, done := states + more, labels + steps;
    RunCore(cfg, all, done, |done|);
    ThreeAtRest(cfg, last, x, y);
    i := CallbackHappened(cfg, all, done, 1);
    PopsLater(labels, done, i);
    RunPop(cfg, all, done, i);
    SecondGetsThird(cfg, all[i].rs.dst, x, y);
    states, labels := all, done;
  }

  lemma SecondGetsThird(cfg: Config, dst: seq<Byte>, x: Byte, y: Byte)
    requires cfg.Valid() && !cfg.Servable(0) && Arrived(cfg, Three(x, y), dst, 1)
    ensures dst != [] && dst[0] == y
  {
    ThreeChunks(cfg, x, y);
    SgeSpan(cfg);
    Small(0, cfg.bufferBytes);
    DivUnique(0, cfg.bufferBytes, 0);
    assert FilledAt(cfg, Three(x, y), Served(cfg, All(cfg, Three(x, y))), 1, dst, Three(x, y)[1], 0, 1);
  }

  // ---------------------------------------------------------------- an empty read, negative

  /** One empty read ends the writing process, for all sizes with a negative count. */
  lemma EmptyReadThrows(cfg: Config) returns (states: seq<State>, labels: seq<Label>, steps: seq<Label>)
    requires cfg.Valid() && cfg.SgeCount(0) < 0
    ensures labels == [RegisterReadDoneCb(0), DoRead(0, 0, 0, None)] + steps
    ensures forall i :: 0 <= i < |steps| ==> Driven(steps[i])
    ensures IsRun(cfg, states, labels) && states[|labels|].thrown.Some?
  {
    states, labels := OneEmptyRead(cfg);
    var more, last;
    more, steps, last := EmptyReadEndsTheProcess(cfg, states, labels);
    states, labels := states + more, labels + steps;
  }

  lemma OneEmptyRead(cfg: Config) returns (states: seq<State>, labels: seq<Label>)
    requires cfg.Valid() && !cfg.Servable(0)
    ensures IsRun(cfg, states, labels) && !ServableRun(cfg, labels)
    ensures labels == [RegisterReadDoneCb(0), DoRead(0, 0, 0, None)]
    ensures |states[|labels|].registered| == |states[|labels|].issued|
  {
    var run, first := RegisterRun(cfg, [], [], 1);
    assert first == [RegisterReadDoneCb(0)];
    states, labels := ReadRun(cfg, run, first, 0, 0, 0);
    assert labels[1] == DoRead(0, 0, 0, None);
  }

  /** Buffers of 1 MiB with 40 entries are sizes the code can have. */
  lemma FortyEntriesThrow() returns (states: seq<State>, labels: seq<Label>)
    ensures IsRun(Config(1024 * 1024, 40, 2, 1), states, labels) && states[|labels|].thrown.Some?
  {
    ZeroByteReadNegative();
    var steps;
    states, labels, steps := EmptyReadThrows(Config(1024 * 1024, 40, 2, 1));
  }

  // ---------------------------------------------------------------- requests out of order

  /** Apart from the record of what was issued, which no step of the system looks at. */
  function Reissued(s: State, issued: seq<Read>): State {
    s.(issued := issued)
  }

  lemma ReissuedEnabled(cfg: Config, s: State, l: Label, issued: seq<Read>)
    requires Sane(cfg, s) && Enabled(cfg, s, l) && Driven(l)
    ensures Sane(cfg, Reissued(s, issued)) && Enabled(cfg, Reissued(s, issued), l)
  {
  }

  lemma ReissuedStep(cfg: Config, s: State, l: Label, issued: seq<Read>)
    requires Sane(cfg, s) && Enabled(cfg, s, l) && Driven(l)
    ensures Sane(cfg, Reissued(s, issued)) && Enabled(cfg, Reissued(s, issued), l)
    ensures Next(cfg, Reissued(s, issued), l) == Reissued(Next(cfg, s, l), issued)
  {
    ReissuedEnabled(cfg, s, l, issued);
    match l {
      case LandStray => assert Reissued(DoLandStray(cfg, s), issued) == DoLandStray(cfg, Reissued(s, issued));
      case Land => assert Reissued(DoLand(cfg, s), issued) == DoLand(cfg, Reissued(s, issued));
      case _ =>
    }
  }

  function Blank(n: nat): seq<Byte> { seq(n, _ => 0) }

  /** Two reads of `n` bytes each, from the given sources to destinations 0 and n. */
  function Both(src: seq<Byte>, a: nat, b: nat, n: nat): seq<Read>
    requires a + n <= |src| && b + n <= |src|
  {
    [Read(a, 0, n, None, src[a..a + n], Blank(n)), Read(b, n, n, None, src[b..b + n], Blank(n))]
  }

  /** The state in which the two reads have been issued and nothing has been posted. */
  function Queued(cfg: Config, src: seq<Byte>, a: nat, b: nat, n: nat): State
    requires cfg.Valid() && a + n <= |src| && b + n <= |src|
  {
    var s := Registered(Start(cfg, src, Blank(2 * n)), 2);
    s.(issued := Both(src, a, b, n),
       rs := s.rs.(queue := [WorkRecord(0, n, 0, None), WorkRecord(n, n, 0, None)]),
       unsent := [PleaseWrite(a, n), PleaseWrite(b, n)])
  }

  /** The state in which both requests have been posted, the one for source `b` first,
      with a record of what was issued. */
  function Crossed(cfg: Config, src: seq<Byte>, a: nat, b: nat, n: nat, issued: seq<Read>): State
    requires cfg.Valid()
  {
    var s := Registered(Start(cfg, src, Blank(2 * n)), 2);
    s.(issued := issued,
       rs := s.rs.(queue := [WorkRecord(0, n, 0, None), WorkRecord(n, n, 0, None)],
                   sent := [PleaseWrite(b, n), PleaseWrite(a, n)]))
  }

  lemma PostRun(cfg: Config, states: seq<State>, labels: seq<Label>) returns (longer: seq<State>, more: seq<Label>)
    requires IsRun(cfg, states, labels) && states[|labels|].unsent != []
    ensures IsRun(cfg, longer, more) && more == labels + [SendRequest(states[|labels|].unsent[0])]
    ensures var s := states[|labels|];
            longer[|more|] == s.(rs := s.rs.(sent := s.rs.sent + [s.unsent[0]]), unsent := s.unsent[1..])
  {
    var l := SendRequest(states[|labels|].unsent[0]);
    RunExtends(cfg, states, labels, l);
    longer, more := states + [Next(cfg, states[|labels|], l)], labels + [l];
  }

  lemma QueuedRun(cfg: Config, src: seq<Byte>, a: nat, b: nat, n: nat) returns (states: seq<State>, labels: seq<Label>)
    requires cfg.Valid() && a + n <= |src| && b + n <= |src| && n < U64
    ensures IsRun(cfg, states, labels) && NoPops(labels)
    ensures states[|labels|] == Queued(cfg, src, a, b, n)
  {
    states, labels := Registrations(cfg, src, Blank(2 * n), 2);
    assert states[|labels|].issued == [];
    states, labels := AddRead(cfg, states, labels, a, 0, n);
    states, labels := AddRead(cfg, states, labels, b, n, n);
    assert Blank(2 * n)[0..n] == Blank(n) && Blank(2 * n)[n..n + n] == Blank(n);
    assert states[|labels|] == Queued(cfg, src, a, b, n);
  }

  /** In order, the crossed state belongs to reads with crossed sources. */
  lemma CrossedRun(cfg: Config, src: seq<Byte>, a: nat, b: nat, n: nat)
      returns (states: seq<State>, labels: seq<Label>)
    requires cfg.Valid() && a + n <= |src| && b + n <= |src| && n < U64
    ensures IsRun(cfg, states, labels) && NoPops(labels)
    ensures states[|labels|] == Crossed(cfg, src, a, b, n, Both(src, b, a, n))
  {
    states, labels := QueuedRun(cfg, src, b, a, n);
    states, labels := PostRun(cfg, states, labels);
    states, labels := PostRun(cfg, states, labels);
    assert states[|labels|] == Crossed(cfg, src, a, b, n, Both(src, b, a, n));
  }

  lemma AnyExtends(cfg: Config, states: seq<State>, labels: seq<Label>, l: Label)
    requires IsRunInAnyOrder(cfg, states, labels) && Sane(cfg, states[|labels|]) && Enabled(cfg, states[|labels|], l)
    ensures IsRunInAnyOrder(cfg, states + [Next(cfg, states[|labels|], l)], labels + [l])
  {
    var longer := states + [Next(cfg, states[|labels|], l)];
    assert longer[0] == states[0];
    forall i | 0 <= i < |labels + [l]|
      ensures Sane(cfg, longer[i]) && Enabled(cfg, longer[i], (labels + [l])[i])
      ensures longer[i + 1] == Next(cfg, longer[i], (labels + [l])[i])
    {
      if i < |labels| {
        assert longer[i] == states[i] && longer[i + 1] == states[i + 1] && (labels + [l])[i] == labels[i];
      }
    }
  }

  /** The second request is posted first. */
  lemma OvertakenRun(cfg: Config, src: seq<Byte>, a: nat, b: nat, n: nat)
      returns (states: seq<State>, labels: seq<Label>)
    requires cfg.Valid() && a + n <= |src| && b + n <= |src| && a != b && n < U64
    ensures IsRunInAnyOrder(cfg, states, labels)
    ensures states[|labels|] == Crossed(cfg, src, a, b, n, Both(src, a, b, n)) && Sane(cfg, states[|labels|])
  {
    states, labels := QueuedRun(cfg, src, a, b, n);
    RunIsRun(cfg, states, labels);
    RunSane(cfg, states, labels);
    var first, second := PleaseWrite(a, n), PleaseWrite(b, n);
    var s := states[|labels|];
    var t := s.(rs := s.rs.(sent := [second]), unsent := [first]);
    Overtakes(cfg, s, t, first, second);
    AnyExtends(cfg, states, labels, SendRequest(second));
    states, labels := states + [t], labels + [SendRequest(second)];
    Sanity.EveryStepIsSane(cfg, s, SendRequest(second));
    var u := Follows(cfg, t, first, second);
    AnyExtends(cfg, states, labels, SendRequest(first));
    Sanity.EveryStepIsSane(cfg, t, SendRequest(first));
    assert u == Crossed(cfg, src, a, b, n, Both(src, a, b, n));
    states, labels := states + [u], labels + [SendRequest(first)];
  }

  lemma Overtakes(cfg: Config, s: State, t: State, first: CtrlMsg, second: CtrlMsg)
    requires Sane(cfg, s) && s.unsent == [first, second] && s.rs.sent == [] && first != second
    requires t == s.(rs := s.rs.(sent := [second]), unsent := [first])
    ensures Enabled(cfg, s, SendRequest(second)) && Next(cfg, s, SendRequest(second)) == t
  {
    assert s.unsent[1] == second && s.unsent[1..] == [second];
    assert Without([second], second) == [];
  }

  lemma Follows(cfg: Config, t: State, first: CtrlMsg, second: CtrlMsg) returns (u: State)
    requires Sane(cfg, t) && t.unsent == [first] && t.rs.sent == [second]
    ensures Enabled(cfg, t, SendRequest(first)) && Next(cfg, t, SendRequest(first)) == u
    ensures u == t.(rs := t.rs.(sent := [second, first]), unsent := [])
  {
    u := t.(rs := t.rs.(sent := [second, first]), unsent := []);
  }

  function AllReissued(states: seq<State>, issued: seq<Read>): (r: seq<State>)
    ensures |r| == |states| && forall i :: 0 <= i < |r| ==> r[i] == Reissued(states[i], issued)
  {
    seq(|states|, i requires 0 <= i < |states| => Reissued(states[i], issued))
  }

  ghost predicate StepsFrom(cfg: Config, states: seq<State>, steps: seq<Label>) {
    && |states| == |steps| + 1
    && forall i :: 0 <= i < |steps| ==>
         Sane(cfg, states[i]) && Enabled(cfg, states[i], steps[i]) && states[i + 1] == Next(cfg, states[i], steps[i])
  }

  lemma TailOfRun(cfg: Config, states: seq<State>, labels: seq<Label>, n: nat)
    requires IsRun(cfg, states, labels) && n <= |labels|
    ensures StepsFrom(cfg, states[n..], labels[n..])
  {
    forall i | 0 <= i < |labels[n..]|
      ensures Sane(cfg, states[n..][i]) && Enabled(cfg, states[n..][i], labels[n..][i])
      ensures states[n..][i + 1] == Next(cfg, states[n..][i], labels[n..][i])
    {
      assert states[n..][i] == states[n + i] && labels[n..][i] == labels[n + i];
      assert states[n..][i + 1] == states[n + i + 1];
    }
  }

  lemma ReissuedSteps(cfg: Config, states: seq<State>, steps: seq<Label>, issued: seq<Read>)
    requires StepsFrom(cfg, states, steps) && forall i :: 0 <= i < |steps| ==> Driven(steps[i])
    ensures StepsFrom(cfg, AllReissued(states, issued), steps)
  {
    forall i | 0 <= i < |steps|
      ensures Sane(cfg, AllReissued(states, issued)[i]) && Enabled(cfg, AllReissued(states, issued)[i], steps[i])
      ensures AllReissued(states, issued)[i + 1] == Next(cfg, AllReissued(states, issued)[i], steps[i])
    {
      ReissuedStep(cfg, states[i], steps[i], issued);
    }
  }

  lemma JoinAny(cfg: Config, states: seq<State>, labels: seq<Label>, tail: seq<State>, steps: seq<Label>)
    requires IsRunInAnyOrder(cfg, states, labels) && StepsFrom(cfg, tail, steps) && tail[0] == states[|labels|]
    ensures IsRunInAnyOrder(cfg, states + tail[1..], labels + steps)
    ensures forall i :: 0 <= i <= |steps| ==> (states + tail[1..])[|labels| + i] == tail[i]
  {
    var all, done := states + tail[1..], labels + steps;
    assert forall i :: 0 <= i <= |steps| ==> all[|labels| + i] == tail[i];
    forall i | 0 <= i < |done|
      ensures Sane(cfg, all[i]) && Enabled(cfg, all[i], done[i]) && all[i + 1] == Next(cfg, all[i], done[i])
    {
      if i < |labels| {
        assert all[i] == states[i] && all[i + 1] == states[i + 1] && done[i] == labels[i];
      } else {
        assert all[i] == tail[i - |labels|] && all[i + 1] == tail[i - |labels| + 1] && done[i] == steps[i - |labels|];
      }
    }
  }

  /** The crossed run, completed: the first read gets the bytes at source `b`. */
  lemma CrossedCompletes(cfg: Config, src: seq<Byte>, a: nat, b: nat, n: nat)
      returns (tail: seq<State>, steps: seq<Label>, i: nat)
    requires cfg.Valid() && a + n <= |src| && b + n <= |src| && 0 < n < U64
    ensures StepsFrom(cfg, tail, steps) && tail[0] == Crossed(cfg, src, a, b, n, Both(src, b, a, n))
    ensures forall j :: 0 <= j < |steps| ==> Driven(steps[j])
    ensures i < |steps| && steps[i].PopStep? && CalledBack(tail[i]) == 0 && |tail[i].issued| == 2
    ensures HoldsSource(cfg, tail[i].rs.dst, src, b, n)
  {
    var states, labels := CrossedRun(cfg, src, a, b, n);
    BothServable(cfg, states, labels);
    var more, last;
    more, steps, last := EveryRunCanComplete(cfg, states, labels);
    tail, i := CrossedTail(cfg, states, labels, more, steps, last);
    FirstGetsItsOwn(cfg, tail[i].rs.dst, src, a, b, n);
  }

  lemma BothServable(cfg: Config, states: seq<State>, labels: seq<Label>)
    requires IsRun(cfg, states, labels)
    requires var issued := states[|labels|].issued;
             |issued| == 2 && issued[0].bytes > 0 && issued[1].bytes > 0
    ensures cfg.Valid() && ServableRun(cfg, labels)
  {
    IssuedInRun(cfg, states, labels, |labels|);
    assert labels[..|labels|] == labels;
  }

  lemma CrossedTail(cfg: Config, states: seq<State>, labels: seq<Label>, more: seq<State>, steps: seq<Label>,
                    last: State)
      returns (tail: seq<State>, i: nat)
    requires Continues(cfg, states, labels, more, steps, last) && cfg.Valid() && Complete(cfg, last) && NoPops(labels)
    requires |states[|labels|].issued| == 2
    ensures StepsFrom(cfg, tail, steps) && tail[0] == states[|labels|]
    ensures i < |steps| && steps[i].PopStep? && CalledBack(tail[i]) == 0
    ensures tail[i].issued == states[|labels|].issued && Arrived(cfg, tail[i].issued, tail[i].rs.dst, 0)
  {
    var all, done := states + more, labels + steps;
    assert last.issued == states[|labels|].issued;
    var at := CallbackHappened(cfg, all, done, 0);
    PopsLater(labels, done, at);
    RunPop(cfg, all, done, at);
    TailOfRun(cfg, all, done, |labels|);
    tail, i := TailFrom(states, labels, more, steps, at);
  }

  lemma TailFrom(states: seq<State>, labels: seq<Label>, more: seq<State>, steps: seq<Label>, at: nat)
      returns (tail: seq<State>, i: nat)
    requires |states| == |labels| + 1 && |more| == |steps| && |labels| <= at < |labels| + |steps|
    ensures tail == (states + more)[|labels|..] && steps == (labels + steps)[|labels|..] && tail[0] == states[|labels|]
    ensures i < |steps| && i + |labels| == at && tail[i] == (states + more)[at] && steps[i] == (labels + steps)[at]
  {
    tail, i := (states + more)[|labels|..], at - |labels|;
    assert (labels + steps)[|labels|..] == steps;
  }

  /** Every byte that the entries cover is one of source `b`. */
  ghost predicate HoldsSource(cfg: Config, dst: seq<Byte>, src: seq<Byte>, b: nat, n: nat)
    requires cfg.Valid() && b + n <= |src|
  {
    n <= |dst| && forall p :: 0 <= p < n && Covered(cfg, p) ==> dst[p] == src[b + p]
  }

  lemma FirstGetsItsOwn(cfg: Config, dst: seq<Byte>, src: seq<Byte>, a: nat, b: nat, n: nat)
    requires cfg.Valid() && a + n <= |src| && b + n <= |src| && n > 0 && Arrived(cfg, Both(src, b, a, n), dst, 0)
    ensures HoldsSource(cfg, dst, src, b, n)
  {
    var issued := Both(src, b, a, n);
    FilledIsWanted(cfg, issued, 0, dst);
    forall p | 0 <= p < n && Covered(cfg, p)
      ensures dst[p] == src[b + p]
    {
      assert dst[issued[0].dst + p] == Want(cfg, issued[0], p);
    }
  }

  /** Why requests must be posted in order: if the second of two requests for `n` bytes
      each may be posted first, there is a run in which the first read is called back over
      the second one's bytes - all of those that the entries cover. */
  lemma OvertakingMisdelivers(cfg: Config, src: seq<Byte>, a: nat, b: nat, n: nat)
      returns (states: seq<State>, labels: seq<Label>, i: nat)
    requires cfg.Valid() && a + n <= |src| && b + n <= |src| && a != b && 0 < n < U64
    ensures IsRunInAnyOrder(cfg, states, labels) && i < |labels| && labels[i].PopStep? && CalledBack(states[i]) == 0
    ensures states[i].issued == Both(src, a, b, n) && states[i].issued[0].data == src[a..a + n]
    ensures states[i].issued[0].dst == 0 && HoldsSource(cfg, states[i].rs.dst, src, b, n)
  {
    states, labels := OvertakenRun(cfg, src, a, b, n);
    var tail, steps, at := CrossedCompletes(cfg, src, a, b, n);
    states, labels, i := Rejoined(cfg, states, labels, tail, steps, at, Both(src, a, b, n));
  }

  /** A run in any order, continued by steps taken with another record of what was
      issued. */
  lemma Rejoined(cfg: Config, states: seq<State>, labels: seq<Label>, tail: seq<State>, steps: seq<Label>, at: nat,
                 issued: seq<Read>) returns (all: seq<State>, done: seq<Label>, i: nat)
    requires IsRunInAnyOrder(cfg, states, labels) && StepsFrom(cfg, tail, steps)
    requires states[|labels|] == Reissued(tail[0], issued) && |tail[0].issued| == |issued|
    requires at < |steps| && (forall j :: 0 <= j < |steps| ==> Driven(steps[j]))
    requires |tail[at].issued| == |issued|
    ensures IsRunInAnyOrder(cfg, all, done) && i < |done| && done[i] == steps[at]
    ensures all[i] == Reissued(tail[at], issued) && CalledBack(all[i]) == CalledBack(tail[at])
  {
    var again := AllReissued(tail, issued);
    ReissuedSteps(cfg, tail, steps, issued);
    JoinAny(cfg, states, labels, again, steps);
    SameCalls(tail[at], issued);
    all, done, i := Joined(states, labels, again, steps, at);
  }

  lemma SameCalls(s: State, issued: seq<Read>)
    requires |s.issued| == |issued|
    ensures CalledBack(Reissued(s, issued)) == CalledBack(s)
  {
  }

  lemma Joined(states: seq<State>, labels: seq<Label>, tail: seq<State>, steps: seq<Label>, at: nat)
      returns (all: seq<State>, done: seq<Label>, i: nat)
    requires |states| == |labels| + 1 && |tail| == |steps| + 1 && at < |steps| && tail[0] == states[|labels|]
    ensures all == states + tail[1..] && done == labels + steps
    ensures i < |done| && done[i] == steps[at] && all[i] == tail[at]
  {
    all, done, i := states + tail[1..], labels + steps, |labels| + at;
  }
}
