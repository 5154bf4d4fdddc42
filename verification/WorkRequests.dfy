/**
 Work requests and message buffers of a queue pair: which WorkRequestIds are alive,
 how many completions each still waits for, and where every message buffer is.
 */
module WorkRequests {
  import opened Config
  import opened Options

  /** `outstanding_sge_cnt` and `msg_mr`; only sends and receives have a buffer. */
  datatype WorkRequestId = WorkRequestId(outstanding: int, msg: Option<nat>)

  /** The completion the poller thread is handling. */
  datatype Hand = Nothing | Sent(id: nat) | Received(id: nat)

  /** The write request whose entries the poller thread is posting, one by one; or the one
      whose posting loop has thrown, which ends the process. */
  datatype Writing = NotWriting | Writing(id: nat, left: nat) | Thrown(id: nat)

  /** `live` are the allocated WorkRequestIds, `next` a new one; `sendQ` and `recvQ` the
      ids on the work requests posted and not yet completed; `pool` is `send_msg_buf_`,
      `taken` the buffers that threads fill for their next send, `made` the number of
      send buffers ever created. */
  datatype Queues = Queues(
    live: map<nat, WorkRequestId>, next: nat, sendQ: seq<nat>, recvQ: seq<nat>, hand: Hand, writing: Writing,
    pool: seq<nat>, taken: seq<nat>, made: nat)

  function Repeat(id: nat, n: nat): (r: seq<nat>)
    ensures |r| == n && forall i :: 0 <= i < n ==> r[i] == id
  {
    seq(n, _ => id)
  }

  function Post(q: Queues, w: WorkRequestId): Queues {
    q.(live := q.live[q.next := w], next := q.next + 1)
  }

  function StillWriting(id: nat, left: nat): Writing {
    if left == 0 then NotWriting else Writing(id, left)
  }

  /** A new write request, with its count set and no entry posted yet. */
  function BeginWrite(q: Queues, count: nat): Queues {
    Post(q, WorkRequestId(count, None)).(writing := StillWriting(q.next, count))
  }

  /** One turn of the posting loop. */
  function PostEntry(q: Queues): Queues
    requires q.writing.Writing? && q.writing.left > 0
  {
    q.(sendQ := q.sendQ + [q.writing.id], writing := StillWriting(q.writing.id, q.writing.left - 1))
  }

  /** A write request posted without interruption. */
  function PostWrite(q: Queues, count: nat): Queues {
    Post(q, WorkRequestId(count, None)).(sendQ := q.sendQ + Repeat(q.next, count))
  }

  /** The posting loop ends by itself if it asks only for blocks that exist; a negative
      count is a bound near 2^64. */
  predicate Ends(count: int, blocks: nat) {
    0 <= count <= blocks
  }

  /** A write request whose posting loop throws: the count is set and one entry posted for
      every block there is. */
  function ThrowWrite(q: Queues, count: int, blocks: nat): Queues {
    Post(q, WorkRequestId(count, None)).(sendQ := q.sendQ + Repeat(q.next, blocks), writing := Thrown(q.next))
  }

  function PostEntries(q: Queues, id: nat, n: nat): Queues
    requires q.writing == StillWriting(id, n)
    decreases n
  {
    if n == 0 then q else PostEntries(PostEntry(q), id, n - 1)
  }

  lemma {:induction false} EntriesPost(q: Queues, id: nat, n: nat)
    requires q.writing == StillWriting(id, n)
    ensures PostEntries(q, id, n) == q.(sendQ := q.sendQ + Repeat(id, n), writing := NotWriting)
    decreases n
  {
    if n > 0 {
      EntriesPost(PostEntry(q), id, n - 1);
      assert q.sendQ + [id] + Repeat(id, n - 1) == q.sendQ + Repeat(id, n);
    } else {
      assert q.sendQ + Repeat(id, 0) == q.sendQ;
    }
  }

  /** Undisturbed, the steps of a write request are the loop. */
  lemma PostWriteIsSteps(q: Queues, count: nat)
    requires q.writing == NotWriting
    ensures PostEntries(BeginWrite(q, count), q.next, count) == PostWrite(q, count)
  {
    EntriesPost(BeginWrite(q, count), q.next, count);
  }

  function Take(q: Queues): Queues {
    if q.pool == [] then q.(taken := q.taken + [q.made], made := q.made + 1)
    else q.(taken := q.taken + [q.pool[0]], pool := q.pool[1..])
  }

  function PostSend(q: Queues, i: nat): Queues
    requires i < |q.taken|
  {
    Post(q, WorkRequestId(0, Some(q.taken[i]))).(sendQ := q.sendQ + [q.next], taken := q.taken[..i] + q.taken[i + 1..])
  }

  function PostRecv(q: Queues, msg: nat): Queues {
    Post(q, WorkRequestId(0, Some(msg))).(recvQ := q.recvQ + [q.next])
  }

  /** Every id on a queue or in the poller's hand is allocated; dereferencing it is
      defined. */
  ghost predicate Alive(q: Queues) {
    && (forall i :: 0 <= i < |q.sendQ| ==> q.sendQ[i] in q.live)
    && (forall i :: 0 <= i < |q.recvQ| ==> q.recvQ[i] in q.live && q.live[q.recvQ[i]].msg.Some?)
    && (q.hand != Nothing ==> q.hand.id in q.live && q.live[q.hand.id].msg.Some?)
  }

  /** RDMAWriteDone for the oldest posted request. */
  function WriteDone(q: Queues): Queues
    requires q.sendQ != [] && q.sendQ[0] in q.live
  {
    var id := q.sendQ[0];
    var cnt := q.live[id].outstanding - 1;
    q.(sendQ := q.sendQ[1..],
       live := if cnt == 0 then q.live - {id} else q.live[id := q.live[id].(outstanding := cnt)])
  }

  /** The end of SendDone: the buffer goes back to the pool, the id is deleted. */
  function SendFinished(q: Queues): Queues
    requires q.hand.Sent? && q.hand.id in q.live && q.live[q.hand.id].msg.Some?
  {
    q.(pool := q.pool + [q.live[q.hand.id].msg.value], live := q.live - {q.hand.id}, hand := Nothing)
  }

  /** The end of RDMARecvDone and RecvDone: the buffer is posted again under a new id,
      the old id is deleted. */
  function RecvFinished(q: Queues): Queues
    requires q.hand.Received? && q.hand.id in q.live && q.live[q.hand.id].msg.Some?
  {
    var r := PostRecv(q, q.live[q.hand.id].msg.value);
    r.(live := r.live - {q.hand.id}, hand := Nothing)
  }

  datatype Label =
    | PostWriteRequest(count: int, blocks: nat) | PostNextEntry
    | GetOneSendMsgMRFromBuf | PostSendRequest(i: nat)
    | PollSend | FinishSend | PollRecv | FinishRecv

  predicate Enabled(q: Queues, l: Label) {
    !q.writing.Thrown? &&
    match l
    case PostWriteRequest(_, _) => q.writing.NotWriting?
    case PostNextEntry => q.writing.Writing? && q.writing.left > 0
    case GetOneSendMsgMRFromBuf => true
    case PostSendRequest(i) => i < |q.taken|
    case PollSend => q.hand.Nothing? && q.sendQ != []
    case FinishSend => q.hand.Sent?
    case PollRecv => q.hand.Nothing? && q.recvQ != []
    case FinishRecv => q.hand.Received?
  }

  /** Steps of several threads in any order.  Between polling a completion and
      finishing it, and between two entries of a write request, callbacks and other
      threads can post and completions can be handled.  Writes are posted by the poller
      thread alone, so one request at a time.  After an exception there are no steps. */
  function Next(q: Queues, l: Label): Queues
    requires Alive(q) && Enabled(q, l)
  {
    match l
    case PostWriteRequest(count, blocks) =>
      if Ends(count, blocks) then BeginWrite(q, count) else ThrowWrite(q, count, blocks)
    case PostNextEntry => PostEntry(q)
    case GetOneSendMsgMRFromBuf => Take(q)
    case PostSendRequest(i) => PostSend(q, i)
    case PollSend =>
      if q.live[q.sendQ[0]].msg == None then WriteDone(q)
      else q.(sendQ := q.sendQ[1..], hand := Sent(q.sendQ[0]))
    case FinishSend => SendFinished(q)
    case PollRecv => q.(recvQ := q.recvQ[1..], hand := Received(q.recvQ[0]))
    case FinishRecv => RecvFinished(q)
  }

  const EMPTY := Queues(map[], 0, [], [], Nothing, NotWriting, [], [], 0)

  /** PostAllRecvRequest for receive buffers 0, 1, ..., n - 1. */
  function PostAll(q: Queues, n: nat): (r: Queues)
    ensures r.writing == q.writing
  {
    if n == 0 then q else PostRecv(PostAll(q, n - 1), n - 1)
  }

  // ---------------------------------------------------------------- the object

  /** The part of IBVerbsQP that owns work requests and message buffers. */
  class WorkQueues {
    var live: map<nat, WorkRequestId>
    var next: nat
    var sendQ: seq<nat>
    var recvQ: seq<nat>
    var hand: Hand
    var sendMsgBuf: seq<nat>
    var taken: seq<nat>
    var made: nat

    function View(): Queues
      reads this
    {
      Queues(live, next, sendQ, recvQ, hand, NotWriting, sendMsgBuf, taken, made)
    }

    constructor ()
      ensures View() == EMPTY
    {
      live, next, sendQ, recvQ, hand := map[], 0, [], [], Nothing;
      sendMsgBuf, taken, made := [], [], 0;
    }

    method NewWorkRequestId() returns (id: nat)
      modifies this`live, this`next
      ensures id == old(next) && next == id + 1
      ensures live == old(live)[id := WorkRequestId(0, None)]
    {
      id := next;
      next := next + 1;
      live := live[id := WorkRequestId(0, None)];
    }

    method DeleteWorkRequestId(id: nat)
      requires id in live
      modifies this`live
      ensures live == old(live) - {id}
    {
      live := live - {id};
    }

    method PostWriteRequest(sgeNum: int, blocks: nat) returns (thrown: bool)
      requires -INT_MAX - 1 <= sgeNum <= INT_MAX && blocks <= INT_MAX
      modifies this
      ensures thrown == !Ends(sgeNum, blocks)
      ensures if thrown then View().(writing := Thrown(old(next))) == ThrowWrite(old(View()), sgeNum, blocks)
              else View() == PostWrite(old(View()), sgeNum)
      ensures live == old(live)[old(next) := WorkRequestId(sgeNum, None)]
      ensures sendQ == old(sendQ) + Repeat(old(next), if thrown then blocks else sgeNum)
    {
      var id := NewWorkRequestId();
      live := live[id := live[id].(outstanding := sgeNum)];
      var bound := if sgeNum < 0 then U64 + sgeNum else sgeNum;
      var i := 0;
      while i < bound
        invariant 0 <= i <= bound && i <= blocks
        invariant View() == Post(old(View()), WorkRequestId(sgeNum, None)).(sendQ := old(sendQ) + Repeat(id, i))
      {
        if i >= blocks {
          return true;
        }
        sendQ := sendQ + [id];
        assert Repeat(id, i) + [id] == Repeat(id, i + 1);
        i := i + 1;
      }
      return false;
    }

    method GetOneSendMsgMRFromBuf() returns (m: nat)
      modifies this
      ensures View() == Take(old(View()))
      ensures taken == old(taken) + [m]
      ensures if old(sendMsgBuf) == [] then m == old(made) && made == m + 1 && sendMsgBuf == []
              else m == old(sendMsgBuf)[0] && made == old(made) && sendMsgBuf == old(sendMsgBuf)[1..]
    {
      if sendMsgBuf == [] {
        sendMsgBuf := sendMsgBuf + [made];
        made := made + 1;
      }
      m := sendMsgBuf[0];
      sendMsgBuf := sendMsgBuf[1..];
      taken := taken + [m];
    }

    method PostSendRequest(i: nat)
      requires i < |taken|
      modifies this
      ensures View() == PostSend(old(View()), i)
      ensures old(next) in live && live[old(next)].msg == Some(old(taken)[i]) && sendQ == old(sendQ) + [old(next)]
    {
      var m := taken[i];
      var id := NewWorkRequestId();
      live := live[id := live[id].(msg := Some(m))];
      sendQ := sendQ + [id];
      taken := taken[..i] + taken[i + 1..];
    }

    method PostRecvRequest(m: nat)
      modifies this
      ensures View() == PostRecv(old(View()), m)
      ensures old(next) in live && live[old(next)].msg == Some(m) && recvQ == old(recvQ) + [old(next)]
    {
      var id := NewWorkRequestId();
      live := live[id := live[id].(msg := Some(m))];
      recvQ := recvQ + [id];
    }

    method PostAllRecvRequest(n: nat)
      modifies this
      ensures View() == PostAll(old(View()), n)
    {
      for i := 0 to n
        invariant View() == PostAll(old(View()), i)
      {
        PostRecvRequest(i);
      }
    }

    method RDMAWriteDone()
      requires Alive(View()) && sendQ != []
      modifies this
      ensures View() == WriteDone(old(View()))
    {
      var id := sendQ[0];
      sendQ := sendQ[1..];
      live := live[id := live[id].(outstanding := live[id].outstanding - 1)];
      if live[id].outstanding == 0 {
        DeleteWorkRequestId(id);
        assert live == old(live) - {id};
      }
    }

    method SendDone()
      requires Alive(View()) && hand.Sent?
      modifies this
      ensures View() == SendFinished(old(View()))
      ensures sendMsgBuf == old(sendMsgBuf) + [old(live[hand.id]).msg.value] && old(hand).id !in live
    {
      sendMsgBuf := sendMsgBuf + [live[hand.id].msg.value];
      DeleteWorkRequestId(hand.id);
      hand := Nothing;
    }

    method RecvDone()
      requires Alive(View()) && hand.Received?
      modifies this
      ensures View() == RecvFinished(old(View()))
      ensures recvQ == old(recvQ) + [old(next)] && old(hand).id !in live
      ensures old(hand).id != old(next) ==> old(next) in live && live[old(next)].msg == old(live[hand.id]).msg
    {
      PostRecvRequest(live[hand.id].msg.value);
      DeleteWorkRequestId(hand.id);
      hand := Nothing;
    }
  }
}
