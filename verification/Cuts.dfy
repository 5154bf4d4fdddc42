/** The part of a ledger that concerns the first `k` reads. */
module Cuts {
  import opened Config
  import opened Messages
  import opened Options
  import opened System
  import opened Stream
  import opened Ledger
  import Writer
  import Reader

  function First<T>(s: seq<T>, n: int): (r: seq<T>)
    ensures r <= s && |r| == if n <= 0 then 0 else if n < |s| then n else |s|
  {
    if n <= 0 then [] else if n < |s| then s[..n] else s
  }

  const NOBODY := WorkRecord(0, 0, 0, None)

  /** The writer is done with the first `k` reads. */
  predicate Past(l: Ledger, k: nat) {
    Started(l) > k || (Started(l) == k && l.handle == Writer.InitWriteHandle)
  }

  /** The ledger without the reads from number `k` on; `c` buffers are claimed by the first
      `k`. */
  function Cut(l: Ledger, k: nat, c: nat): Ledger
    requires c <= |l.claims|
  {
    Ledger(First(l.issued, k), First(l.queue, k - Popped(l)), l.phase, First(l.backlog, k - Started(l)),
           if Past(l, k) then Writer.InitWriteHandle else l.handle, if Past(l, k) then NOBODY else l.rec,
           l.claims[..c])
  }

  /** The counts a cut goes by. */
  ghost predicate Counted(l: Ledger, k: nat, c: nat) {
    && |l.backlog| <= |l.issued| && |l.queue| <= |l.issued| && Popped(l) < k && c <= |l.claims|
    && (!Past(l, k) ==> c == |l.claims|)
  }

  lemma CutCounts(l: Ledger, k: nat, c: nat)
    requires Counted(l, k, c)
    ensures Popped(Cut(l, k, c)) == Popped(l)
    ensures Started(Cut(l, k, c)) == if Started(l) <= k then Started(l) else k
    ensures l.queue != [] ==> Cut(l, k, c).queue != [] && Cut(l, k, c).queue[0] == l.queue[0]
    ensures l.queue == [] ==> Cut(l, k, c).queue == []
  {
  }

  // ---------------------------------------------------------------- steps on cuts

  lemma CutIssue(l: Ledger, x: Read, k: nat, c: nat)
    requires Counted(l, k, c)
    ensures Counted(Issue(l, x), k, c)
    ensures Cut(Issue(l, x), k, c) == if |l.issued| < k then Issue(Cut(l, k, c), x) else Cut(l, k, c)
  {
  }

  lemma CutTake(l: Ledger, k: nat, c: nat)
    requires Counted(l, k, c) && l.handle == Writer.InitWriteHandle && l.backlog != []
    ensures Counted(Take(l), k, c)
    ensures Cut(Take(l), k, c) == if Started(l) < k then Take(Cut(l, k, c)) else Cut(l, k, c)
    ensures Started(l) < k ==> Cut(l, k, c).backlog != [] && Cut(l, k, c).handle == Writer.InitWriteHandle
  {
  }

  lemma CutHandle(l: Ledger, k: nat, c: nat)
    requires Counted(l, k, c) && l.handle == Writer.RequestBuffer
    ensures Counted(l.(handle := Writer.DoCurWrite), k, c)
    ensures Cut(l.(handle := Writer.DoCurWrite), k, c)
         == if Past(l, k) then Cut(l, k, c) else Cut(l, k, c).(handle := Writer.DoCurWrite)
  {
  }

  lemma CutPost(cfg: Config, l: Ledger, buf: int, k: nat, c: nat)
    requires Counted(l, k, c) && cfg.Valid() && l.handle == Writer.DoCurWrite && l.rec.offset <= l.rec.bytes
    ensures Past(l, k) ==> Counted(Post(cfg, l, buf), k, c) && Cut(Post(cfg, l, buf), k, c) == Cut(l, k, c)
    ensures !Past(l, k) ==>
              var r, d := Post(cfg, l, buf), |Post(cfg, l, buf).claims|;
              && Counted(r, k, d)
              && Cut(r, k, d) == Post(cfg, Cut(l, k, c), buf).(rec := Cut(r, k, d).rec)
              && (r.handle == Writer.InitWriteHandle || Cut(r, k, d).rec == Post(cfg, Cut(l, k, c), buf).rec)
  {
  }

  /** Between two reads the current record does not matter. */
  lemma AnyRecord(cfg: Config, l: Ledger, rec: WorkRecord)
    requires Sound(cfg, l) && l.handle == Writer.InitWriteHandle
    ensures Sound(cfg, l.(rec := rec))
  {
    ReaderUnchanged(cfg, l, l.(rec := rec));
  }

  lemma CutNote(cfg: Config, l: Ledger, k: nat, c: nat)
    requires Counted(l, k, c) && c >= 1 && cfg.Valid() && l.phase.Gathered? && l.queue != []
    requires l.queue[0].offset <= l.queue[0].bytes
    ensures Cut(l, k, c).queue != [] && Cut(l, k, c).queue[0] == l.queue[0]
    ensures Counted(Note(cfg, l), k, c - 1) && Cut(Note(cfg, l), k, c - 1) == Note(cfg, Cut(l, k, c))
  {
    CutCounts(l, k, c);
    assert l.claims[..c][1..] == l.claims[1..][..c - 1];
  }

  lemma CutPop(l: Ledger, k: nat, c: nat)
    requires Counted(l, k, c) && FrontDone(l) && l.queue != [] && Popped(l) + 1 < k
    ensures Cut(l, k, c).queue != []
    ensures Counted(Pop(l), k, c) && Cut(Pop(l), k, c) == Pop(Cut(l, k, c))
  {
  }

  lemma CutPhase(l: Ledger, phase: Reader.Phase, k: nat, c: nat)
    requires Counted(l, k, c)
    ensures Counted(l.(phase := phase), k, c) && Cut(l.(phase := phase), k, c) == Cut(l, k, c).(phase := phase)
  {
  }

  /** While the reader is at a chunk of the first `k` reads, all servable, it has a buffer
      of theirs. */
  lemma FrontIsClaimed(cfg: Config, l: Ledger, k: nat, c: nat)
    requires Counted(l, k, c) && Sound(cfg, Cut(l, k, c)) && AllServable(cfg, First(l.issued, k))
    requires (l.phase.Got? || l.phase.Gathered?) && l.queue != [] && l.claims != []
    ensures c >= 1
  {
    if Past(l, k) {
      CutCounts(l, k, c);
      FrontExpected(cfg, Cut(l, k, c));
      BadIsZero(cfg, First(l.issued, k));
      AllStarted(cfg, Cut(l, k, c), k);
    }
  }

  lemma AllStarted(cfg: Config, l: Ledger, k: nat)
    requires cfg.Valid() && WriterBooks(cfg, l) && l.handle == Writer.InitWriteHandle && l.backlog == []
    ensures ToPost(cfg, l) == []
  {
  }
}
