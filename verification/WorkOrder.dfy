/** The order in which work requests complete and send buffers are used again. */
module WorkOrder {
  import opened Options
  import opened WorkRequests
  import opened WorkAccounts

  // ---------------------------------------------------------------- how many buffers are made

  function Sends(live: map<nat, WorkRequestId>, ids: seq<nat>): nat {
    if ids == [] then 0
    else (if ids[0] in live && live[ids[0]].msg.Some? then 1 else 0) + Sends(live, ids[1..])
  }

  /** Send buffers out of the pool: with a thread, posted, or being returned. */
  function Out(q: Queues): nat {
    |q.taken| + Sends(q.live, q.sendQ) + if q.hand.Sent? then 1 else 0
  }

  lemma {:induction false} SendsAppend(live: map<nat, WorkRequestId>, a: seq<nat>, b: seq<nat>)
    ensures Sends(live, a + b) == Sends(live, a) + Sends(live, b)
  {
    if a == [] {
      assert a + b == b;
    } else {
      SendsAppend(live, a[1..], b);
      assert (a + b)[1..] == a[1..] + b;
    }
  }

  lemma {:induction false} SendsSame(live: map<nat, WorkRequestId>, later: map<nat, WorkRequestId>, ids: seq<nat>,
                                     id: nat)
    requires forall x :: x != id ==> (x in live && live[x].msg.Some? <==> x in later && later[x].msg.Some?)
    requires Count(ids, id) == 0
    ensures Sends(later, ids) == Sends(live, ids)
  {
    if ids != [] {
      SendsSame(live, later, ids[1..], id);
    }
  }

  lemma {:induction false} SendsAgree(live: map<nat, WorkRequestId>, later: map<nat, WorkRequestId>, ids: seq<nat>)
    requires forall x :: x in live && live[x].msg.Some? <==> x in later && later[x].msg.Some?
    ensures Sends(later, ids) == Sends(live, ids)
  {
    if ids != [] {
      SendsAgree(live, later, ids[1..]);
    }
  }

  lemma {:induction false} SendsOfWrite(live: map<nat, WorkRequestId>, id: nat, n: nat)
    requires id in live ==> live[id].msg == None
    ensures Sends(live, Repeat(id, n)) == 0
  {
    if n > 0 {
      assert Repeat(id, n)[1..] == Repeat(id, n - 1);
      SendsOfWrite(live, id, n - 1);
    }
  }

  /** Every buffer ever made is in the pool or out of it. */
  ghost predicate Conserved(q: Queues) {
    Out(q) + |q.pool| == q.made
  }

  lemma PostingConserves(q: Queues, l: Label)
    requires Around(q) && Conserved(q) && Enabled(q, l) && l.PostWriteRequest?
    ensures Conserved(Next(q, l))
  {
    var r := Next(q, l);
    SendsSame(q.live, r.live, q.sendQ, q.next);
    if !Ends(l.count, l.blocks) {
      SendsAppend(r.live, q.sendQ, Repeat(q.next, l.blocks));
      SendsOfWrite(r.live, q.next, l.blocks);
    }
  }

  lemma EntryConserves(q: Queues)
    requires Around(q) && Conserved(q) && Enabled(q, PostNextEntry)
    ensures Conserved(Next(q, PostNextEntry))
  {
    SendsAppend(q.live, q.sendQ, [q.writing.id]);
    assert [q.writing.id] == Repeat(q.writing.id, 1);
    SendsOfWrite(q.live, q.writing.id, 1);
  }

  lemma SendingConserves(q: Queues, i: nat)
    requires Around(q) && Conserved(q) && Enabled(q, PostSendRequest(i))
    ensures Conserved(Next(q, PostSendRequest(i)))
  {
    var r := Next(q, PostSendRequest(i));
    SendsSame(q.live, r.live, q.sendQ, q.next);
    SendsAppend(r.live, q.sendQ, [q.next]);
    assert Sends(r.live, [q.next]) == 1 + Sends(r.live, [q.next][1..]);
  }

  lemma PollConserves(q: Queues)
    requires Around(q) && Conserved(q) && Enabled(q, PollSend)
    ensures Conserved(Next(q, PollSend))
  {
    if q.live[q.sendQ[0]].msg == None {
      SendsAgree(q.live, Next(q, PollSend).live, q.sendQ[1..]);
    }
  }

  lemma FinishConserves(q: Queues, l: Label)
    requires Around(q) && Conserved(q) && Enabled(q, l) && (l.FinishSend? || l.FinishRecv?)
    ensures Conserved(Next(q, l))
  {
    var r := Next(q, l);
    CountOne(q.hand.id, q.hand.id);
    if l.FinishSend? {
      SendsSame(q.live, r.live, q.sendQ, q.hand.id);
    } else {
      var mid := PostRecv(q, q.live[q.hand.id].msg.value);
      SendsSame(q.live, mid.live, q.sendQ, q.next);
      SendsSame(mid.live, r.live, q.sendQ, q.hand.id);
    }
  }

  lemma StepConserves(q: Queues, l: Label)
    requires Around(q) && Conserved(q) && Enabled(q, l)
    ensures Conserved(Next(q, l))
  {
    match l {
      case PostWriteRequest(_, _) => PostingConserves(q, l);
      case PostNextEntry => EntryConserves(q);
      case GetOneSendMsgMRFromBuf =>
      case PostSendRequest(i) => SendingConserves(q, i);
      case PollSend => PollConserves(q);
      case PollRecv =>
      case _ => FinishConserves(q, l);
    }
  }

  /** The largest number of send buffers out of the pool at once, up to state `i`. */
  function Peak(states: seq<Queues>, i: nat): nat
    requires i < |states|
  {
    if i == 0 then Out(states[0])
    else if Peak(states, i - 1) < Out(states[i]) then Out(states[i])
    else Peak(states, i - 1)
  }

  /** A buffer is made only when all buffers made before are out of the pool. */
  lemma MakesOnlyWhenEmpty(q: Queues, l: Label)
    requires Around(q) && Conserved(q) && Enabled(q, l)
    ensures Next(q, l).made == q.made || (q.pool == [] && Out(Next(q, l)) == Next(q, l).made == q.made + 1)
  {
    StepConserves(q, l);
  }

  lemma {:induction false} SetUpConserves(n: nat)
    ensures var q := PostAll(EMPTY, n);
            Conserved(q) && q.made == 0 && q.sendQ == [] && q.taken == [] && q.hand == Nothing
  {
    if n > 0 {
      SetUpConserves(n - 1);
    }
  }

  /** Pooled send buffers are used again, in every run: no more of them are ever made than
      have been out of the pool at once. */
  lemma {:induction false} MadeIsPeak(receives: nat, states: seq<Queues>, labels: seq<Label>, i: nat)
    requires IsRun(receives, states, labels) && i <= |labels|
    ensures Conserved(states[i]) && states[i].made == Peak(states, i)
  {
    if i == 0 {
      SetUpConserves(receives);
    } else {
      MadeIsPeak(receives, states, labels, i - 1);
      RunAround(receives, states, labels, i - 1);
      StepConserves(states[i - 1], labels[i - 1]);
      MakesOnlyWhenEmpty(states[i - 1], labels[i - 1]);
    }
  }

  lemma RunAround(receives: nat, states: seq<Queues>, labels: seq<Label>, i: nat)
    requires IsRun(receives, states, labels) && i <= |labels|
    ensures Around(states[i])
  {
    RunKeepsAccounts(receives, states, labels, i);
    assert Tracked(states[i], states[i].next);
  }

  // ---------------------------------------------------------------- first in, first out

  /** The pooled buffer a step gives to a thread. */
  function ReusedBy(q: Queues, l: Label, r: Queues): seq<nat> {
    if l.GetOneSendMsgMRFromBuf? && r.made == q.made && |r.taken| > 0 then [r.taken[|r.taken| - 1]] else []
  }

  /** The buffer a step returns to the pool: that of the completed send. */
  function ReturnedBy(q: Queues, l: Label): seq<nat> {
    if l.FinishSend? && q.hand.Sent? && q.hand.id in q.live && q.live[q.hand.id].msg.Some?
    then [q.live[q.hand.id].msg.value] else []
  }

  function Reused(states: seq<Queues>, labels: seq<Label>, i: nat): seq<nat>
    requires i <= |labels| < |states|
  {
    if i == 0 then [] else Reused(states, labels, i - 1) + ReusedBy(states[i - 1], labels[i - 1], states[i])
  }

  function Returned(states: seq<Queues>, labels: seq<Label>, i: nat): seq<nat>
    requires i <= |labels| < |states|
  {
    if i == 0 then [] else Returned(states, labels, i - 1) + ReturnedBy(states[i - 1], labels[i - 1])
  }

  lemma StepPools(q: Queues, l: Label)
    requires Around(q) && Conserved(q) && Enabled(q, l)
    ensures ReusedBy(q, l, Next(q, l)) + Next(q, l).pool == q.pool + ReturnedBy(q, l)
  {
    var r := Next(q, l);
    if l.GetOneSendMsgMRFromBuf? && q.pool != [] {
      assert [q.pool[0]] + q.pool[1..] == q.pool + [];
    } else if l.FinishSend? {
      assert [] + r.pool == q.pool + ReturnedBy(q, l);
    } else {
      assert [] + r.pool == q.pool + [];
    }
  }

  /** The ids a step puts on the send queue, in order: one for each entry posted, by the
      request they belong to. */
  function PostedBy(q: Queues, l: Label): seq<nat> {
    match l
    case PostWriteRequest(count, blocks) => if Ends(count, blocks) then [] else Repeat(q.next, blocks)
    case PostNextEntry => if q.writing.NotWriting? then [] else [q.writing.id]
    case PostSendRequest(_) => [q.next]
    case _ => []
  }

  /** The id whose completion a step handles. */
  function CompletedBy(q: Queues, l: Label, r: Queues): seq<nat> {
    if !l.PollSend? then []
    else if r.hand.Sent? then [r.hand.id]
    else if q.sendQ != [] then [q.sendQ[0]]
    else []
  }

  function Posted(states: seq<Queues>, labels: seq<Label>, i: nat): seq<nat>
    requires i <= |labels| < |states|
  {
    if i == 0 then [] else Posted(states, labels, i - 1) + PostedBy(states[i - 1], labels[i - 1])
  }

  function Completed(states: seq<Queues>, labels: seq<Label>, i: nat): seq<nat>
    requires i <= |labels| < |states|
  {
    if i == 0 then [] else Completed(states, labels, i - 1) + CompletedBy(states[i - 1], labels[i - 1], states[i])
  }

  lemma StepQueues(q: Queues, l: Label)
    requires Around(q) && Enabled(q, l)
    ensures CompletedBy(q, l, Next(q, l)) + Next(q, l).sendQ == q.sendQ + PostedBy(q, l)
  {
    var r := Next(q, l);
    if l.PollSend? {
      assert [q.sendQ[0]] + q.sendQ[1..] == q.sendQ + [];
    } else {
      assert [] + r.sendQ == q.sendQ + PostedBy(q, l);
    }
  }

  /** The receive requests a step posts and the one whose completion it handles. */
  function AwaitedBy(q: Queues, l: Label): seq<nat> {
    if l.FinishRecv? then [q.next] else []
  }

  function ReceivedBy(l: Label, r: Queues): seq<nat> {
    if l.PollRecv? && r.hand.Received? then [r.hand.id] else []
  }

  function Waited(receives: nat, states: seq<Queues>, labels: seq<Label>, i: nat): seq<nat>
    requires i <= |labels| < |states|
  {
    if i == 0 then seq(receives, k => k)
    else Waited(receives, states, labels, i - 1) + AwaitedBy(states[i - 1], labels[i - 1])
  }

  function Received(states: seq<Queues>, labels: seq<Label>, i: nat): seq<nat>
    requires i <= |labels| < |states|
  {
    if i == 0 then [] else Received(states, labels, i - 1) + ReceivedBy(labels[i - 1], states[i])
  }

  lemma StepReceives(q: Queues, l: Label)
    requires Around(q) && Enabled(q, l)
    ensures ReceivedBy(l, Next(q, l)) + Next(q, l).recvQ == q.recvQ + AwaitedBy(q, l)
  {
    var r := Next(q, l);
    if l.PollRecv? {
      assert [q.recvQ[0]] + q.recvQ[1..] == q.recvQ + [];
    } else {
      assert [] + r.recvQ == q.recvQ + AwaitedBy(q, l);
    }
  }

  lemma {:induction false} SetUpOrder(n: nat)
    ensures var q := PostAll(EMPTY, n);
            && q.pool == [] && q.sendQ == [] && q.next == n && q.recvQ == seq(n, k => k)
            && forall k :: 0 <= k < n ==> k in q.live && q.live[k].msg == Some(k)
  {
    if n > 0 {
      SetUpOrder(n - 1);
      assert seq(n, k => k) == seq(n - 1, k => k) + [n - 1];
    }
  }

  lemma Shift(gone: seq<nat>, queue: seq<nat>, came: seq<nat>, g: seq<nat>, later: seq<nat>, c: seq<nat>)
    requires gone + queue == came && g + later == queue + c
    ensures (gone + g) + later == came + c
  {
    assert (gone + g) + later == gone + (g + later);
    assert gone + (queue + c) == (gone + queue) + c;
  }

  /** First in, first out, in every run: send buffers leave the pool in the order in which
      they came back to it; send completions are handled in the order in which the writes
      and sends were posted; receives in the order in which they were posted, set-up
      included. */
  lemma {:induction false} QueuesAreInOrder(receives: nat, states: seq<Queues>, labels: seq<Label>, i: nat)
    requires IsRun(receives, states, labels) && i <= |labels|
    ensures Reused(states, labels, i) + states[i].pool == Returned(states, labels, i)
    ensures Completed(states, labels, i) + states[i].sendQ == Posted(states, labels, i)
    ensures Received(states, labels, i) + states[i].recvQ == Waited(receives, states, labels, i)
  {
    if i == 0 {
      SetUpOrder(receives);
    } else {
      var q, l, r := states[i - 1], labels[i - 1], states[i];
      QueuesAreInOrder(receives, states, labels, i - 1);
      MadeIsPeak(receives, states, labels, i - 1);
      RunAround(receives, states, labels, i - 1);
      StepPools(q, l);
      Shift(Reused(states, labels, i - 1), q.pool, Returned(states, labels, i - 1), ReusedBy(q, l, r), r.pool,
            ReturnedBy(q, l));
      StepQueues(q, l);
      Shift(Completed(states, labels, i - 1), q.sendQ, Posted(states, labels, i - 1), CompletedBy(q, l, r), r.sendQ,
            PostedBy(q, l));
      StepReceives(q, l);
      Shift(Received(states, labels, i - 1), q.recvQ, Waited(receives, states, labels, i - 1), ReceivedBy(l, r),
            r.recvQ, AwaitedBy(q, l));
    }
  }
}
