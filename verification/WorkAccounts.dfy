/** The accounts of work requests and message buffers balance in every run. */
module WorkAccounts {
  import opened Options
  import opened WorkRequests

  // ---------------------------------------------------------------- what always holds

  function Count(s: seq<nat>, x: nat): nat {
    if s == [] then 0 else (if s[0] == x then 1 else 0) + Count(s[1..], x)
  }

  predicate Holds(live: map<nat, WorkRequestId>, id: nat, m: nat) {
    id in live && live[id].msg == Some(m)
  }

  /** How many requests on a queue have buffer m. */
  function Holding(live: map<nat, WorkRequestId>, ids: seq<nat>, m: nat): nat {
    if ids == [] then 0 else (if Holds(live, ids[0], m) then 1 else 0) + Holding(live, ids[1..], m)
  }

  function InHand(h: Hand): seq<nat> { if h.Nothing? then [] else [h.id] }

  function SentIds(h: Hand): seq<nat> { if h.Sent? then [h.id] else [] }

  function ReceivedIds(h: Hand): seq<nat> { if h.Received? then [h.id] else [] }

  /** Entries of a write request not posted yet. */
  function Unposted(w: Writing, id: nat): nat {
    if w.Writing? && w.id == id then w.left else 0
  }

  /** Completions still to come for an id. */
  function Awaited(q: Queues, id: nat): nat {
    Count(q.sendQ, id) + Count(q.recvQ, id) + Count(InHand(q.hand), id) + Unposted(q.writing, id)
  }

  /** A write request waits for as many completions as it has writes that are not
      completed, posted or still to be posted, any other for one; a request that is not
      allocated for none.  Of one whose posting loop has thrown, only the writes are
      counted: its count was no number of writes. */
  ghost predicate Tracked(q: Queues, id: nat) {
    if id !in q.live then Awaited(q, id) == 0
    else
      && id < q.next
      && if q.writing == Thrown(id) then
           q.live[id].msg == None && Awaited(q, id) == Count(q.sendQ, id)
         else if q.live[id].msg == None then
           Awaited(q, id) == Count(q.sendQ, id) + Unposted(q.writing, id) == q.live[id].outstanding
         else Awaited(q, id) == 1 && Unposted(q.writing, id) == 0
  }

  /** Places of send buffer m: in the pool, with a thread, posted, or being returned. */
  function SendPlaces(q: Queues, m: nat): nat {
    Count(q.pool, m) + Count(q.taken, m) + Holding(q.live, q.sendQ, m) + Holding(q.live, SentIds(q.hand), m)
  }

  /** Places of receive buffer m: posted, or with the poller. */
  function RecvPlaces(q: Queues, m: nat): nat {
    Holding(q.live, q.recvQ, m) + Holding(q.live, ReceivedIds(q.hand), m)
  }

  ghost predicate Placed(q: Queues, receives: nat, m: nat) {
    && SendPlaces(q, m) == (if m < q.made then 1 else 0)
    && RecvPlaces(q, m) == (if m < receives then 1 else 0)
  }

  ghost predicate Inv(q: Queues, receives: nat) {
    && Alive(q)
    && (forall id: nat :: Tracked(q, id))
    && (forall m: nat :: Placed(q, receives, m))
  }

  lemma {:induction false} CountAppend(a: seq<nat>, b: seq<nat>, x: nat)
    ensures Count(a + b, x) == Count(a, x) + Count(b, x)
  {
    if a == [] {
      assert a + b == b;
    } else {
      CountAppend(a[1..], b, x);
      assert (a + b)[1..] == a[1..] + b;
    }
  }

  lemma CountOne(y: nat, x: nat)
    ensures Count([y], x) == if y == x then 1 else 0
  {
    assert [y][1..] == [];
  }

  lemma CountWithout(s: seq<nat>, i: nat, x: nat)
    requires i < |s|
    ensures Count(s, x) == Count(s[..i] + s[i + 1..], x) + if s[i] == x then 1 else 0
  {
    assert s == s[..i] + ([s[i]] + s[i + 1..]);
    CountAppend(s[..i], [s[i]] + s[i + 1..], x);
    CountAppend([s[i]], s[i + 1..], x);
    CountAppend(s[..i], s[i + 1..], x);
    CountOne(s[i], x);
  }

  lemma {:induction false} CountIn(s: seq<nat>, i: nat)
    requires i < |s|
    ensures Count(s, s[i]) >= 1
  {
    if i > 0 {
      CountIn(s[1..], i - 1);
    }
  }

  lemma {:induction false} HoldingAppend(live: map<nat, WorkRequestId>, a: seq<nat>, b: seq<nat>, m: nat)
    ensures Holding(live, a + b, m) == Holding(live, a, m) + Holding(live, b, m)
  {
    if a == [] {
      assert a + b == b;
    } else {
      HoldingAppend(live, a[1..], b, m);
      assert (a + b)[1..] == a[1..] + b;
    }
  }

  lemma HoldingOne(live: map<nat, WorkRequestId>, id: nat, m: nat)
    ensures Holding(live, [id], m) == if Holds(live, id, m) then 1 else 0
  {
    assert [id][1..] == [];
  }

  /** Only the requests on the queue matter. */
  lemma {:induction false} HoldingSame(live: map<nat, WorkRequestId>, later: map<nat, WorkRequestId>, ids: seq<nat>,
                        id: nat, m: nat)
    requires forall x :: x != id ==> (Holds(live, x, m) <==> Holds(later, x, m))
    requires Count(ids, id) == 0
    ensures Holding(later, ids, m) == Holding(live, ids, m)
  {
    if ids != [] {
      HoldingSame(live, later, ids[1..], id, m);
    }
  }

  /** A change of a request that is on no queue changes no buffer's place. */
  lemma AllHoldingSame(q: Queues, later: map<nat, WorkRequestId>, id: nat, m: nat)
    requires forall x :: x != id ==> (Holds(q.live, x, m) <==> Holds(later, x, m))
    requires Awaited(q, id) == 0
    ensures Holding(later, q.sendQ, m) == Holding(q.live, q.sendQ, m)
    ensures Holding(later, q.recvQ, m) == Holding(q.live, q.recvQ, m)
    ensures Holding(later, SentIds(q.hand), m) == Holding(q.live, SentIds(q.hand), m)
    ensures Holding(later, ReceivedIds(q.hand), m) == Holding(q.live, ReceivedIds(q.hand), m)
  {
    HoldingSame(q.live, later, q.sendQ, id, m);
    HoldingSame(q.live, later, q.recvQ, id, m);
    HoldingSame(q.live, later, SentIds(q.hand), id, m);
    HoldingSame(q.live, later, ReceivedIds(q.hand), id, m);
  }

  // ---------------------------------------------------------------- posting

  lemma BeginTracked(q: Queues, count: nat, id: nat)
    requires Tracked(q, id) && Tracked(q, q.next) && q.writing.NotWriting?
    ensures q.next !in q.live && Tracked(BeginWrite(q, count), id)
  {
  }

  lemma BeginPlaced(q: Queues, receives: nat, count: nat, m: nat)
    requires Tracked(q, q.next) && Placed(q, receives, m)
    ensures Placed(BeginWrite(q, count), receives, m)
  {
    AllHoldingSame(q, BeginWrite(q, count).live, q.next, m);
  }

  lemma {:induction false} CountRepeat(y: nat, n: nat, x: nat)
    ensures Count(Repeat(y, n), x) == if y == x then n else 0
  {
    if n > 0 {
      assert Repeat(y, n)[1..] == Repeat(y, n - 1);
      CountRepeat(y, n - 1, x);
    }
  }

  lemma ThrowTracked(q: Queues, count: int, blocks: nat, id: nat)
    requires Tracked(q, id) && Tracked(q, q.next) && q.writing.NotWriting?
    ensures q.next !in q.live && Tracked(ThrowWrite(q, count, blocks), id)
  {
    CountAppend(q.sendQ, Repeat(q.next, blocks), id);
    CountRepeat(q.next, blocks, id);
  }

  lemma {:induction false} HoldingRepeat(live: map<nat, WorkRequestId>, id: nat, n: nat, m: nat)
    requires !Holds(live, id, m)
    ensures Holding(live, Repeat(id, n), m) == 0
  {
    if n > 0 {
      assert Repeat(id, n)[1..] == Repeat(id, n - 1);
      HoldingRepeat(live, id, n - 1, m);
    }
  }

  lemma ThrowPlaced(q: Queues, receives: nat, count: int, blocks: nat, m: nat)
    requires Tracked(q, q.next) && Placed(q, receives, m) && q.writing.NotWriting?
    ensures Placed(ThrowWrite(q, count, blocks), receives, m)
  {
    var r := ThrowWrite(q, count, blocks);
    AllHoldingSame(q, r.live, q.next, m);
    HoldingAppend(r.live, q.sendQ, Repeat(q.next, blocks), m);
    HoldingRepeat(r.live, q.next, blocks, m);
  }

  lemma EntryTracked(q: Queues, id: nat)
    requires Tracked(q, id) && q.writing.Writing? && q.writing.left > 0
    ensures Tracked(PostEntry(q), id)
  {
    CountAppend(q.sendQ, [q.writing.id], id);
    CountOne(q.writing.id, id);
  }

  lemma EntryPlaced(q: Queues, receives: nat, m: nat)
    requires Placed(q, receives, m) && q.writing.Writing? && q.writing.left > 0 && Tracked(q, q.writing.id)
    ensures Placed(PostEntry(q), receives, m)
  {
    HoldingAppend(q.live, q.sendQ, [q.writing.id], m);
    HoldingOne(q.live, q.writing.id, m);
  }

  lemma PostSendTracked(q: Queues, i: nat, id: nat)
    requires Tracked(q, id) && Tracked(q, q.next) && i < |q.taken| && !q.writing.Thrown?
    ensures q.next !in q.live && Tracked(PostSend(q, i), id)
  {
    CountAppend(q.sendQ, [q.next], id);
    CountOne(q.next, id);
  }

  lemma PostSendPlaced(q: Queues, receives: nat, i: nat, m: nat)
    requires Tracked(q, q.next) && Placed(q, receives, m) && i < |q.taken|
    ensures Placed(PostSend(q, i), receives, m)
  {
    var r := PostSend(q, i);
    AllHoldingSame(q, r.live, q.next, m);
    HoldingAppend(r.live, q.sendQ, [q.next], m);
    HoldingOne(r.live, q.next, m);
    CountWithout(q.taken, i, m);
  }

  lemma PostRecvTracked(q: Queues, msg: nat, id: nat)
    requires Tracked(q, id) && Tracked(q, q.next) && !q.writing.Thrown?
    ensures q.next !in q.live && Tracked(PostRecv(q, msg), id)
  {
    CountAppend(q.recvQ, [q.next], id);
    CountOne(q.next, id);
  }

  lemma PostRecvPlaces(q: Queues, msg: nat, m: nat)
    requires Tracked(q, q.next)
    ensures SendPlaces(PostRecv(q, msg), m) == SendPlaces(q, m)
    ensures RecvPlaces(PostRecv(q, msg), m) == RecvPlaces(q, m) + if m == msg then 1 else 0
  {
    var r := PostRecv(q, msg);
    AllHoldingSame(q, r.live, q.next, m);
    HoldingAppend(r.live, q.recvQ, [q.next], m);
    HoldingOne(r.live, q.next, m);
  }

  lemma TakePlaced(q: Queues, receives: nat, m: nat)
    requires Placed(q, receives, m)
    ensures Placed(Take(q), receives, m)
  {
    if q.pool == [] {
      CountAppend(q.taken, [q.made], m);
      CountOne(q.made, m);
    } else {
      CountAppend(q.taken, [q.pool[0]], m);
      CountOne(q.pool[0], m);
    }
  }

  // ---------------------------------------------------------------- completions

  lemma WriteDoneTracked(q: Queues, id: nat)
    requires q.sendQ != [] && q.sendQ[0] in q.live && q.live[q.sendQ[0]].msg == None && !q.writing.Thrown?
    requires Tracked(q, id) && Tracked(q, q.sendQ[0])
    ensures Tracked(WriteDone(q), id)
  {
  }

  lemma WriteDonePlaced(q: Queues, receives: nat, m: nat)
    requires q.sendQ != [] && q.sendQ[0] in q.live && q.live[q.sendQ[0]].msg == None
    requires Placed(q, receives, m)
    ensures Placed(WriteDone(q), receives, m)
  {
    var r := WriteDone(q);
    HoldingAgree(q.live, r.live, q.sendQ, m);
    HoldingAgree(q.live, r.live, q.recvQ, m);
    HoldingAgree(q.live, r.live, SentIds(q.hand), m);
    HoldingAgree(q.live, r.live, ReceivedIds(q.hand), m);
  }

  lemma {:induction false} HoldingAgree(live: map<nat, WorkRequestId>, later: map<nat, WorkRequestId>, ids: seq<nat>,
                        m: nat)
    requires forall x :: Holds(live, x, m) <==> Holds(later, x, m)
    ensures Holding(later, ids, m) == Holding(live, ids, m)
  {
    if ids != [] {
      HoldingAgree(live, later, ids[1..], m);
    }
  }

  lemma PollTracked(q: Queues, id: nat)
    requires Tracked(q, id) && q.hand.Nothing?
    ensures q.sendQ != [] && q.sendQ[0] in q.live && q.live[q.sendQ[0]].msg.Some? ==>
              Tracked(q.(sendQ := q.sendQ[1..], hand := Sent(q.sendQ[0])), id)
    ensures q.recvQ != [] && q.recvQ[0] in q.live && q.live[q.recvQ[0]].msg.Some? ==>
              Tracked(q.(recvQ := q.recvQ[1..], hand := Received(q.recvQ[0])), id)
  {
    if q.sendQ != [] {
      CountOne(q.sendQ[0], id);
    }
    if q.recvQ != [] {
      CountOne(q.recvQ[0], id);
    }
  }

  lemma PollPlaced(q: Queues, receives: nat, m: nat)
    requires Placed(q, receives, m) && q.hand.Nothing?
    ensures q.sendQ != [] ==> Placed(q.(sendQ := q.sendQ[1..], hand := Sent(q.sendQ[0])), receives, m)
    ensures q.recvQ != [] ==> Placed(q.(recvQ := q.recvQ[1..], hand := Received(q.recvQ[0])), receives, m)
  {
    if q.sendQ != [] {
      HoldingOne(q.live, q.sendQ[0], m);
    }
    if q.recvQ != [] {
      HoldingOne(q.live, q.recvQ[0], m);
    }
  }

  /** Deleting the request in the poller's hand. */
  function Drop(q: Queues): Queues
    requires !q.hand.Nothing?
  {
    q.(live := q.live - {q.hand.id}, hand := Nothing)
  }

  lemma DropTracked(q: Queues, id: nat)
    requires !q.hand.Nothing? && q.hand.id in q.live && q.live[q.hand.id].msg.Some?
    requires Tracked(q, id) && Tracked(q, q.hand.id)
    ensures Tracked(Drop(q), id) && Awaited(Drop(q), q.hand.id) == 0
  {
    CountOne(q.hand.id, id);
    CountOne(q.hand.id, q.hand.id);
  }

  lemma DropPlaces(q: Queues, m: nat)
    requires !q.hand.Nothing? && q.hand.id in q.live && q.live[q.hand.id].msg.Some? && Tracked(q, q.hand.id)
    ensures var mine := if q.live[q.hand.id].msg.value == m then 1 else 0;
            && SendPlaces(q, m) == SendPlaces(Drop(q), m) + (if q.hand.Sent? then mine else 0)
            && RecvPlaces(q, m) == RecvPlaces(Drop(q), m) + (if q.hand.Received? then mine else 0)
  {
    DropTracked(q, q.hand.id);
    HoldingOne(q.live, q.hand.id, m);
    HoldingSame(q.live, Drop(q).live, q.sendQ, q.hand.id, m);
    HoldingSame(q.live, Drop(q).live, q.recvQ, q.hand.id, m);
  }

  lemma SendDoneTracked(q: Queues, id: nat)
    requires q.hand.Sent? && q.hand.id in q.live && q.live[q.hand.id].msg.Some?
    requires Tracked(q, id) && Tracked(q, q.hand.id)
    ensures Tracked(SendFinished(q), id)
  {
    DropTracked(q, id);
  }

  lemma SendDonePlaced(q: Queues, receives: nat, m: nat)
    requires q.hand.Sent? && q.hand.id in q.live && q.live[q.hand.id].msg.Some?
    requires Tracked(q, q.hand.id) && Placed(q, receives, m)
    ensures Placed(SendFinished(q), receives, m)
  {
    DropPlaces(q, m);
    CountAppend(q.pool, [q.live[q.hand.id].msg.value], m);
    CountOne(q.live[q.hand.id].msg.value, m);
  }

  lemma RecvDoneTracked(q: Queues, id: nat)
    requires q.hand.Received? && q.hand.id in q.live && q.live[q.hand.id].msg.Some? && !q.writing.Thrown?
    requires Tracked(q, id) && Tracked(q, q.hand.id) && Tracked(q, q.next)
    ensures Tracked(RecvFinished(q), id)
  {
    var msg := q.live[q.hand.id].msg.value;
    PostRecvTracked(q, msg, id);
    PostRecvTracked(q, msg, q.hand.id);
    DropTracked(PostRecv(q, msg), id);
  }

  lemma RecvDonePlaced(q: Queues, receives: nat, m: nat)
    requires q.hand.Received? && q.hand.id in q.live && q.live[q.hand.id].msg.Some? && !q.writing.Thrown?
    requires Tracked(q, q.hand.id) && Tracked(q, q.next) && Placed(q, receives, m)
    ensures Placed(RecvFinished(q), receives, m)
  {
    var msg := q.live[q.hand.id].msg.value;
    PostRecvPlaces(q, msg, m);
    PostRecvTracked(q, msg, q.hand.id);
    DropPlaces(PostRecv(q, msg), m);
  }

  // ---------------------------------------------------------------- every step

  /** What the proof needs about the ids a step looks at. */
  ghost predicate Around(q: Queues) {
    && Alive(q)
    && Tracked(q, q.next)
    && (q.sendQ != [] ==> Tracked(q, q.sendQ[0]))
    && (!q.hand.Nothing? ==> Tracked(q, q.hand.id))
    && (q.writing.Writing? ==> Tracked(q, q.writing.id))
  }

  lemma StepTracked(q: Queues, l: Label, id: nat)
    requires Around(q) && Tracked(q, id) && Enabled(q, l)
    ensures Tracked(Next(q, l), id)
  {
    match l {
      case PostWriteRequest(count, blocks) =>
        if Ends(count, blocks) {
          BeginTracked(q, count, id);
        } else {
          ThrowTracked(q, count, blocks, id);
        }
      case PostNextEntry => EntryTracked(q, id);
      case GetOneSendMsgMRFromBuf =>
      case PostSendRequest(i) => PostSendTracked(q, i, id);
      case PollSend =>
        if q.live[q.sendQ[0]].msg == None {
          WriteDoneTracked(q, id);
        } else {
          PollTracked(q, id);
        }
      case FinishSend => SendDoneTracked(q, id);
      case PollRecv => PollTracked(q, id);
      case FinishRecv => RecvDoneTracked(q, id);
    }
  }

  lemma StepPlaced(q: Queues, receives: nat, l: Label, m: nat)
    requires Around(q) && Placed(q, receives, m) && Enabled(q, l)
    ensures Placed(Next(q, l), receives, m)
  {
    match l {
      case PostWriteRequest(count, blocks) =>
        if Ends(count, blocks) {
          BeginPlaced(q, receives, count, m);
        } else {
          ThrowPlaced(q, receives, count, blocks, m);
        }
      case PostNextEntry => EntryPlaced(q, receives, m);
      case GetOneSendMsgMRFromBuf => TakePlaced(q, receives, m);
      case PostSendRequest(i) => PostSendPlaced(q, receives, i, m);
      case PollSend =>
        if q.live[q.sendQ[0]].msg == None {
          WriteDonePlaced(q, receives, m);
        } else {
          PollPlaced(q, receives, m);
        }
      case FinishSend => SendDonePlaced(q, receives, m);
      case PollRecv => PollPlaced(q, receives, m);
      case FinishRecv => RecvDonePlaced(q, receives, m);
    }
  }

  /** A queue of awaited requests is a queue of allocated ones. */
  lemma AwaitedIsAlive(q: Queues)
    requires forall id: nat :: Tracked(q, id)
    ensures forall i :: 0 <= i < |q.sendQ| ==> q.sendQ[i] in q.live
    ensures forall i :: 0 <= i < |q.recvQ| ==> q.recvQ[i] in q.live && q.live[q.recvQ[i]].msg.Some?
    ensures q.hand != Nothing ==> q.hand.id in q.live && q.live[q.hand.id].msg.Some?
  {
    forall i | 0 <= i < |q.sendQ|
      ensures q.sendQ[i] in q.live
    {
      CountIn(q.sendQ, i);
      assert Tracked(q, q.sendQ[i]);
    }
    forall i | 0 <= i < |q.recvQ|
      ensures q.recvQ[i] in q.live && q.live[q.recvQ[i]].msg.Some?
    {
      CountIn(q.recvQ, i);
      assert Tracked(q, q.recvQ[i]);
    }
    if !q.hand.Nothing? {
      CountOne(q.hand.id, q.hand.id);
      assert Tracked(q, q.hand.id);
    }
  }

  /** Every step keeps the accounts: no step touches a deleted request, a write request
      is deleted on exactly its last completion, and every message buffer is in exactly
      one place. */
  lemma EveryStepKeepsAccounts(q: Queues, receives: nat, l: Label)
    requires Inv(q, receives) && Enabled(q, l)
    ensures Inv(Next(q, l), receives)
  {
    var r := Next(q, l);
    assert Around(q);
    forall id: nat ensures Tracked(r, id) {
      assert Tracked(q, id);
      StepTracked(q, l, id);
    }
    forall m: nat ensures Placed(r, receives, m) {
      assert Placed(q, receives, m);
      StepPlaced(q, receives, l, m);
    }
    AwaitedIsAlive(r);
  }

  // ---------------------------------------------------------------- runs

  lemma {:induction false} SetUpInv(n: nat)
    ensures Inv(PostAll(EMPTY, n), n)
  {
    if n > 0 {
      var q := PostAll(EMPTY, n - 1);
      var r := PostRecv(q, n - 1);
      SetUpInv(n - 1);
      assert Tracked(q, q.next);
      forall id: nat ensures Tracked(r, id) {
        assert Tracked(q, id);
        PostRecvTracked(q, n - 1, id);
      }
      forall m: nat ensures Placed(r, n, m) {
        assert Placed(q, n - 1, m);
        PostRecvPlaces(q, n - 1, m);
      }
      AwaitedIsAlive(r);
    }
  }

  ghost predicate IsRun(receives: nat, states: seq<Queues>, labels: seq<Label>) {
    && |states| == |labels| + 1
    && states[0] == PostAll(EMPTY, receives)
    && forall i :: 0 <= i < |labels| ==>
         Alive(states[i]) && Enabled(states[i], labels[i]) && states[i + 1] == Next(states[i], labels[i])
  }

  /** The accounts balance in every state of every run. */
  lemma {:induction false} RunKeepsAccounts(receives: nat, states: seq<Queues>, labels: seq<Label>, i: nat)
    requires IsRun(receives, states, labels) && i <= |labels|
    ensures Inv(states[i], receives)
  {
    if i == 0 {
      SetUpInv(receives);
    } else {
      RunKeepsAccounts(receives, states, labels, i - 1);
      EveryStepKeepsAccounts(states[i - 1], receives, labels[i - 1]);
    }
  }

  /** A write request is deleted when, and only when, its last write completes: none of
      its writes is posted and none is still to be posted. */
  lemma DeletedOnLastCompletion(q: Queues, receives: nat)
    requires Inv(q, receives) && !q.writing.Thrown?
    requires q.hand.Nothing? && q.sendQ != [] && q.live[q.sendQ[0]].msg == None
    ensures var r := Next(q, PollSend);
            && (q.sendQ[0] !in r.live <==> q.sendQ[0] !in q.sendQ[1..] && Unposted(q.writing, q.sendQ[0]) == 0)
            && forall id :: id in q.live && id != q.sendQ[0] ==> id in r.live
  {
    var id := q.sendQ[0];
    assert Tracked(q, id);
    CountZero(q.sendQ[1..], id);
  }

  lemma {:induction false} CountZero(s: seq<nat>, x: nat)
    ensures Count(s, x) == 0 <==> x !in s
  {
    if s != [] {
      CountZero(s[1..], x);
    }
  }

  /** Nothing is deleted twice: a deleted id is never allocated, posted or polled again. */
  lemma DeletedForever(q: Queues, receives: nat, l: Label, id: nat)
    requires Inv(q, receives) && Enabled(q, l) && id < q.next && id !in q.live
    ensures var r := Next(q, l);
            id < r.next && id !in r.live && id !in r.sendQ && id !in r.recvQ && id !in InHand(r.hand)
  {
    EveryStepKeepsAccounts(q, receives, l);
    var r := Next(q, l);
    assert Tracked(r, id);
    CountZero(r.sendQ, id);
    CountZero(r.recvQ, id);
    CountZero(InHand(r.hand), id);
  }

  /** A buffer given to a thread is not in flight, not being returned, not in the pool
      and with no other thread. */
  lemma TakenBufferIsFree(q: Queues, receives: nat, m: nat)
    requires Inv(q, receives) && m == Take(q).taken[|q.taken|]
    ensures m !in q.taken && m !in Take(q).pool
    ensures forall i :: 0 <= i < |q.sendQ| ==> !Holds(q.live, q.sendQ[i], m)
    ensures q.hand.Sent? ==> !Holds(q.live, q.hand.id, m)
  {
    TakeInv(q, receives);
    var r := Take(q);
    assert Placed(r, receives, m);
    CountAppend(q.taken, [m], m);
    CountOne(m, m);
    assert r.taken == q.taken + [m];
    CountZero(q.taken, m);
    CountZero(r.pool, m);
    HoldingZero(q.live, q.sendQ, m);
    HoldingZero(q.live, SentIds(q.hand), m);
  }

  lemma TakeInv(q: Queues, receives: nat)
    requires Inv(q, receives)
    ensures Inv(Take(q), receives)
  {
    forall id: nat ensures Tracked(Take(q), id) {
      assert Tracked(q, id);
    }
    forall m: nat ensures Placed(Take(q), receives, m) {
      assert Placed(q, receives, m);
      TakePlaced(q, receives, m);
    }
  }

  lemma {:induction false} HoldingZero(live: map<nat, WorkRequestId>, ids: seq<nat>, m: nat)
    requires Holding(live, ids, m) == 0
    ensures forall i :: 0 <= i < |ids| ==> !Holds(live, ids[i], m)
  {
    if ids != [] {
      HoldingZero(live, ids[1..], m);
    }
  }

  // ---------------------------------------------------------------- requests that are never deleted

  /** Write requests for which no completion will come. */
  function Lost(q: Queues): set<nat> {
    set id | id in q.live && q.live[id] == WorkRequestId(0, None)
  }

  predicate IsEmptyWrite(l: Label) {
    l.PostWriteRequest? && l.count == 0
  }

  function EmptyWrites(labels: seq<Label>): nat {
    if labels == [] then 0
    else EmptyWrites(labels[..|labels| - 1]) + if IsEmptyWrite(labels[|labels| - 1]) then 1 else 0
  }

  lemma StepLoses(q: Queues, l: Label)
    requires Around(q) && Enabled(q, l)
    ensures Lost(Next(q, l)) == Lost(q) + if IsEmptyWrite(l) then {q.next} else {}
    ensures q.next !in Lost(q)
  {
  }

  lemma StepLosesOne(q: Queues, receives: nat, l: Label)
    requires Inv(q, receives) && Enabled(q, l)
    ensures |Lost(Next(q, l))| == |Lost(q)| + if IsEmptyWrite(l) then 1 else 0
  {
    assert Tracked(q, q.next);
    assert Around(q);
    StepLoses(q, l);
  }

  lemma {:induction false} RunLoses(receives: nat, states: seq<Queues>, labels: seq<Label>, i: nat)
    requires IsRun(receives, states, labels) && i <= |labels|
    ensures |Lost(states[i])| == EmptyWrites(labels[..i])
  {
    if i == 0 {
      NothingLost(receives);
    } else {
      RunLoses(receives, states, labels, i - 1);
      RunKeepsAccounts(receives, states, labels, i - 1);
      StepLosesOne(states[i - 1], receives, labels[i - 1]);
      assert labels[..i][..i - 1] == labels[..i - 1];
    }
  }

  lemma {:induction false} NothingLost(n: nat)
    ensures Lost(PostAll(EMPTY, n)) == {}
  {
    if n > 0 {
      NothingLost(n - 1);
    }
  }

  /** At rest - nothing posted on the send queue and the poller idle - the allocated
      requests are those of the posted receives and those of writes without entries; so
      nothing else is left exactly if no write without entries was posted. */
  lemma NothingLeftIffNoEmptyWrite(receives: nat, states: seq<Queues>, labels: seq<Label>)
    requires IsRun(receives, states, labels)
    requires states[|labels|].sendQ == [] && states[|labels|].hand.Nothing? && states[|labels|].writing.NotWriting?
    ensures var q := states[|labels|];
            (forall id :: id in q.live ==> id in q.recvQ) <==> EmptyWrites(labels) == 0
  {
    var q := states[|labels|];
    RunKeepsAccounts(receives, states, labels, |labels|);
    RunLoses(receives, states, labels, |labels|);
    assert labels[..|labels|] == labels;
    forall id: nat | id in q.live
      ensures id in q.recvQ <==> id !in Lost(q)
    {
      assert Tracked(q, id);
      CountZero(q.recvQ, id);
    }
    if EmptyWrites(labels) == 0 {
      assert Lost(q) == {};
    } else {
      var id :| id in Lost(q);
      assert id in q.live && id !in q.recvQ;
    }
  }
}
