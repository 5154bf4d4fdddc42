/**
 Empty reads for which the entry count is negative: the writing process ends with an
 exception, exactly then, and nothing wrong is delivered before or after.
 */
module Exceptions {
  import opened Config
  import opened Options
  import opened System
  import opened Stream
  import opened Ledger
  import opened Books
  import opened Invariant
  import opened Ownership
  import opened Liveness
  import opened Theorems
  import opened Continuations
  import opened Integrity
  import Writer

  // ---------------------------------------------------------------- nothing is lost

  lemma NothingLostBy(cfg: Config, s: State, l: Label)
    requires Sane(cfg, s) && Enabled(cfg, s, l) && cfg.SgeCount(0) < 0
    ensures LostBy(cfg, s, l) == multiset{}
  {
    if l.WriterStep? && s.ws.handle == Writer.DoCurWrite && cfg.SgeCount(Writer.NextLen(cfg, s.ws.rec)) == 0 {
      FewEntriesMeansEmpty(cfg, Writer.NextLen(cfg, s.ws.rec));
    }
  }

  lemma RunKeepsPlaces(cfg: Config, states: seq<State>, labels: seq<Label>, i: nat)
    requires IsRun(cfg, states, labels) && i < |labels| && cfg.Valid() && cfg.SgeCount(0) < 0
    ensures Places(states[i + 1]) == Places(states[i])
  {
    StepPlaces(cfg, states[i], labels[i]);
    NothingLostBy(cfg, states[i], labels[i]);
  }

  lemma InitialPlaces(cfg: Config, s: State)
    requires InitialState(cfg, s)
    ensures cfg.Valid() && Places(s) == multiset(Ids(cfg.bufferNum))
  {
    assert s.ws.idle == Ids(cfg.bufferNum);
    assert Flying(s.cq, s.ws.wire) == [];
  }

  function PlacesIn(states: seq<State>): (r: seq<multiset<int>>)
    ensures |r| == |states| && forall k :: 0 <= k < |states| ==> r[k] == Places(states[k])
  {
    seq(|states|, k requires 0 <= k < |states| => Places(states[k]))
  }

  lemma {:induction false} Constant(s: seq<multiset<int>>, i: nat)
    requires i < |s| && forall k :: 0 <= k < |s| - 1 ==> s[k + 1] == s[k]
    ensures s[i] == s[0]
  {
    if i > 0 {
      Constant(s, i - 1);
      assert s[i - 1 + 1] == s[i - 1];
    }
  }

  /** Where empty reads end the process no buffer is ever lost: the writer has written
      servable reads only. */
  lemma NothingLost(cfg: Config, states: seq<State>, labels: seq<Label>, i: nat)
    requires IsRun(cfg, states, labels) && i <= |labels| && cfg.Valid() && cfg.SgeCount(0) < 0
    ensures Places(states[i]) == multiset(Ids(cfg.bufferNum))
    ensures 0 <= Written(states[i]) <= |states[i].issued|
    ensures AllServable(cfg, states[i].issued[..Written(states[i])])
  {
    var there := PlacesIn(states);
    forall k | 0 <= k < |there| - 1
      ensures there[k + 1] == there[k]
    {
      RunKeepsPlaces(cfg, states, labels, k);
    }
    Constant(there, i);
    InitialPlaces(cfg, states[0]);
    RunCore(cfg, states, labels, i);
    AllThereIffNoneLost(cfg, states[i]);
  }

  // ---------------------------------------------------------------- when it throws

  /** In every run, a writer that throws or has thrown is on an empty read, the first one
      issued that has no entries, and the count for it is negative. */
  lemma ThrowsOnFirstEmptyRead(cfg: Config, states: seq<State>, labels: seq<Label>, i: nat)
    requires IsRun(cfg, states, labels) && i <= |labels|
    requires Writer.Throws(cfg, states[i].ws) || states[i].thrown.Some?
    ensures cfg.Valid() && cfg.SgeCount(0) < 0
    ensures var s := states[i];
            && 0 <= Written(s) < |s.issued| && s.issued[Written(s)].bytes == 0
            && AllServable(cfg, s.issued[..Written(s)])
  {
    RunKept(cfg, states, labels, i);
    ThrowsOnEmpty(cfg, states[i]);
    NothingLost(cfg, states, labels, i);
  }

  /** At rest without an exception everything has been written. */
  lemma QuietIsWritten(cfg: Config, s: State)
    requires Core(cfg, s) && Quiet(cfg, s) && |s.registered| >= |s.issued| && s.thrown.None?
    requires 0 <= Written(s) <= |s.issued| && AllServable(cfg, s.issued[..Written(s)])
    ensures AllServable(cfg, s.issued)
  {
    BadIsZero(cfg, s.issued[..Written(s)]);
    QuietIsDrained(cfg, s);
    WholeServable(cfg, s.issued, Written(s));
  }

  lemma WholeServable(cfg: Config, issued: seq<Read>, w: nat)
    requires cfg.Valid() && w == |issued| && AllServable(cfg, issued[..w])
    ensures AllServable(cfg, issued)
  {
    assert issued[..w] == issued;
  }

  /** ... and for every run it comes to that: where the count for empty reads is negative,
      the system rests with the writing process ended if and only if an empty read was
      issued. */
  lemma RestIsThrowIffEmptyRead(cfg: Config, states: seq<State>, labels: seq<Label>)
    requires IsRun(cfg, states, labels) && cfg.Valid() && cfg.SgeCount(0) < 0
    requires Quiet(cfg, states[|labels|]) && |states[|labels|].registered| >= |states[|labels|].issued|
    ensures states[|labels|].thrown.Some? <==> !ServableRun(cfg, labels)
  {
    EndIssued(cfg, states, labels);
    if states[|labels|].thrown.None? {
      NothingLost(cfg, states, labels, |labels|);
      RunCore(cfg, states, labels, |labels|);
      QuietIsWritten(cfg, states[|labels|]);
    } else {
      ThrownIsUnservable(cfg, states, labels);
    }
  }

  lemma EndIssued(cfg: Config, states: seq<State>, labels: seq<Label>)
    requires IsRun(cfg, states, labels)
    ensures cfg.Valid() && (AllServable(cfg, states[|labels|].issued) <==> ServableRun(cfg, labels))
  {
    IssuedInRun(cfg, states, labels, |labels|);
    assert labels[..|labels|] == labels;
  }

  lemma ThrownIsUnservable(cfg: Config, states: seq<State>, labels: seq<Label>)
    requires IsRun(cfg, states, labels) && states[|labels|].thrown.Some?
    ensures cfg.Valid() && !AllServable(cfg, states[|labels|].issued)
  {
    RunKept(cfg, states, labels, |labels|);
    ThrowsOnEmpty(cfg, states[|labels|]);
  }

  /** So any run in which an empty read has been issued can be continued, by the system
      alone and within the measure, to the end of the writing process. */
  lemma EmptyReadEndsTheProcess(cfg: Config, states: seq<State>, labels: seq<Label>)
      returns (more: seq<State>, steps: seq<Label>, last: State)
    requires IsRun(cfg, states, labels) && cfg.Valid() && cfg.SgeCount(0) < 0 && !ServableRun(cfg, labels)
    requires |states[|labels|].registered| >= |states[|labels|].issued|
    ensures Continues(cfg, states, labels, more, steps, last) && |steps| <= Left(cfg, states[|labels|])
    ensures last.thrown.Some?
  {
    more, steps, last := RunToRest(cfg, states, labels);
    var all, done := states + more, labels + steps;
    RestIsThrowIffEmptyRead(cfg, all, done);
    LabelsStay(cfg, labels, steps);
  }

  lemma LabelsStay(cfg: Config, labels: seq<Label>, steps: seq<Label>)
    requires cfg.Valid() && !ServableRun(cfg, labels)
    ensures !ServableRun(cfg, labels + steps)
  {
    var i :| 0 <= i < |labels| && labels[i].DoRead? && !cfg.Servable(labels[i].bytes);
    assert (labels + steps)[i] == labels[i];
  }

  // ---------------------------------------------------------------- nothing wrong is delivered

  /** Where empty reads end the process, no read callback is ever called over wrong bytes:
      every read called back is servable, and so is every read before it. */
  lemma ThrowingPreventsCorruption(cfg: Config, states: seq<State>, labels: seq<Label>, i: nat)
    requires IsRun(cfg, states, labels) && i < |labels| && labels[i].PopStep?
    requires cfg.Valid() && cfg.SgeCount(0) < 0
    ensures var k := CalledBack(states[i]);
            && 0 <= k < |states[i].issued| && AllServable(cfg, states[i].issued[..k + 1])
            && DestinationIs(cfg, states[i].rs.dst, states[i].issued[k])
  {
    PoppedIsServable(cfg, states, labels, i);
    ReadCallbackMeansDelivered(cfg, states, labels, i);
  }

  lemma PoppedIsServable(cfg: Config, states: seq<State>, labels: seq<Label>, i: nat)
    requires IsRun(cfg, states, labels) && i < |labels| && labels[i].PopStep?
    requires cfg.Valid() && cfg.SgeCount(0) < 0
    ensures var k := CalledBack(states[i]);
            0 <= k < |states[i].issued| && AllServable(cfg, states[i].issued[..k + 1])
  {
    NothingLost(cfg, states, labels, i);
    AtPop(cfg, states, labels, i);
    PoppedIsWritten(cfg, states[i]);
    PrefixServable(cfg, states[i].issued, CalledBack(states[i]) + 1, Written(states[i]));
  }

  lemma AtPop(cfg: Config, states: seq<State>, labels: seq<Label>, i: nat)
    requires IsRun(cfg, states, labels) && i < |labels| && labels[i].PopStep?
    ensures Sound(cfg, View(states[i])) && states[i].rs.phase.Noted? && states[i].rs.phase.last
  {
    RunKept(cfg, states, labels, i);
    PopEnabled(cfg, states[i]);
  }

  lemma PopEnabled(cfg: Config, s: State)
    requires Kept(cfg, s) && Enabled(cfg, s, PopStep)
    ensures Sound(cfg, View(s)) && s.rs.phase.Noted? && s.rs.phase.last
  {
  }

  lemma PoppedIsWritten(cfg: Config, s: State)
    requires Sound(cfg, View(s)) && s.rs.phase.Noted? && s.rs.phase.last
    ensures 0 <= CalledBack(s) && CalledBack(s) + 1 <= Written(s)
  {
    WriterIsNotBehind(cfg, View(s));
  }

  lemma PrefixServable(cfg: Config, issued: seq<Read>, k: nat, w: nat)
    requires cfg.Valid() && k <= w <= |issued| && AllServable(cfg, issued[..w])
    ensures AllServable(cfg, issued[..k])
  {
    assert forall i :: 0 <= i < k ==> issued[..k][i] == issued[..w][i];
  }

  /** What is left when the writing process has ended and the rest has come to rest: the
      reads before the first empty one have all been called back, and no others. */
  lemma RestAfterThrow(cfg: Config, states: seq<State>, labels: seq<Label>)
    requires IsRun(cfg, states, labels) && Quiet(cfg, states[|labels|]) && states[|labels|].thrown.Some?
    ensures var s := states[|labels|];
            && 0 <= CalledBack(s) < |s.issued| && s.issued[CalledBack(s)].bytes == 0
            && cfg.Valid() && AllServable(cfg, s.issued[..CalledBack(s)])
            && s.rs.fired == CallbacksOf(s.issued[..CalledBack(s)])
  {
    var s := states[|labels|];
    RunKept(cfg, states, labels, |labels|);
    ThrowsOnFirstEmptyRead(cfg, states, labels, |labels|);
    QuietAfterThrow(cfg, s);
    DrainedToThrow(cfg, View(s));
  }

  lemma QuietAfterThrow(cfg: Config, s: State)
    requires Kept(cfg, s) && Quiet(cfg, s)
    ensures Claims(s) == [] && s.rs.phase.Idle?
  {
    if s.rs.phase.Idle? && s.cq != [] && s.cq[0] != INT_MAX {
      TaggedFindsRecord(cfg, s);
    }
    QuietReader(cfg, s);
    StillHasNoClaims(s);
  }

  /** With no buffer claimed, the reader has caught up with a writer that has written
      servable reads only, and is at the start of another one. */
  lemma DrainedToThrow(cfg: Config, l: Ledger)
    requires Sound(cfg, l) && l.claims == [] && !FrontDone(l) && l.handle == Writer.DoCurWrite && l.rec.offset == 0
    requires 0 <= WriterAt(l).0 < |l.issued| && AllServable(cfg, l.issued[..WriterAt(l).0])
    ensures Popped(l) == WriterAt(l).0
  {
    StreamsStand(cfg, l);
    WriterOwes(cfg, l);
    CaughtUp(cfg, l);
    assert Expected(cfg, l)[0] == ToPost(cfg, l)[0];
    FrontExpected(cfg, l);
  }

  lemma CaughtUp(cfg: Config, l: Ledger)
    requires Sound(cfg, l) && l.claims == [] && |ToPost(cfg, l)| >= 1
    requires var c := ToPost(cfg, l)[0];
             0 <= c.read <= |l.issued| && c.offset == 0 && AllServable(cfg, l.issued[..c.read])
    ensures Consumed(cfg, l) == Dealt(cfg, l)
  {
    StreamsStand(cfg, l);
    var all, n, w := All(cfg, l.issued), Consumed(cfg, l), Dealt(cfg, l);
    Small(0, cfg.bufferBytes);
    ChunksIncrease(cfg, l.issued, 0, 0);
    if n < w {
      EarlierIsServed(cfg, l.issued, n, w);
      var at := ServedStandsLater(cfg, ToPost(cfg, l), 0);
      NeverTwice(all, n, w + at);
    }
  }

  /** Up to the start of read `all[w].read`, with all before it servable, the served chunks
      are the chunks. */
  lemma EarlierIsServed(cfg: Config, issued: seq<Read>, n: nat, w: nat)
    requires cfg.Valid() && n < w < |All(cfg, issued)|
    requires var c := All(cfg, issued)[w];
             0 <= c.read <= |issued| && c.offset == 0 && AllServable(cfg, issued[..c.read])
    ensures n < |Served(cfg, All(cfg, issued))| && Served(cfg, All(cfg, issued))[n] == All(cfg, issued)[n]
  {
    var all := All(cfg, issued);
    Small(0, cfg.bufferBytes);
    ChunksOk(cfg, issued, 0, 0);
    ChunksIncrease(cfg, issued, 0, 0);
    assert Before(all[n], all[w]) && ChunkOk(cfg, issued, all[n]);
    PrefixServable(cfg, issued, all[n].read + 1, all[w].read);
    PrefixServed(cfg, issued, n);
  }

  lemma NeverTwice(cs: seq<Chunk>, i: nat, j: nat)
    requires Increasing(cs) && i < j < |cs|
    ensures cs[i] != cs[j]
  {
    assert Before(cs[i], cs[j]);
  }
}
