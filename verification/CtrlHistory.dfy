/** The control server against the history of requests it has had. */
module CtrlHistory {
  import opened Options
  import opened CtrlServer

  // ---------------------------------------------------------------- answers in arrival order

  /** Calls that can wait for each other: those about one key, and those at one barrier. */
  datatype Topic = OfKey(key: string) | OfBarrier(name: string)

  function TopicOf(r: Request): Topic {
    match r
    case Barrier(name, _) => OfBarrier(name)
    case PushKV(key, _) => OfKey(key)
    case ClearKV(key) => OfKey(key)
    case PullKV(key) => OfKey(key)
  }

  ghost predicate OfRequests(out: seq<Response>, reqs: seq<Request>) {
    forall i :: 0 <= i < |out| ==> out[i].call < |reqs|
  }

  /** The answers about one key, and those at one barrier, are in arrival order. */
  ghost predicate InArrivalOrder(out: seq<Response>, reqs: seq<Request>)
    requires OfRequests(out, reqs)
  {
    forall i, j :: 0 <= i < j < |out| && TopicOf(reqs[out[i].call]) == TopicOf(reqs[out[j].call]) ==>
      out[i].call < out[j].call
  }

  /** Whoever waits came after everybody answered on the same topic. */
  ghost predicate WaitersAreLater(s: Server, out: seq<Response>, reqs: seq<Request>)
    requires OfRequests(out, reqs)
  {
    forall i, c: nat ::
      0 <= i < |out| && c < |reqs| && Waits(s, reqs, c) && TopicOf(reqs[out[i].call]) == TopicOf(reqs[c]) ==>
        out[i].call < c
  }

  ghost predicate Ordered(s: Server, out: seq<Response>, reqs: seq<Request>) {
    OfRequests(out, reqs) && InArrivalOrder(out, reqs) && WaitersAreLater(s, out, reqs)
  }

  /** What one request answers: calls of its own topic, in arrival order, and then nobody
      waits there any more. */
  ghost predicate Answering(t: Server, sent: seq<Response>, reqs: seq<Request>, r: Request) {
    && OfRequests(sent, reqs + [r])
    && (forall i, j :: 0 <= i < j < |sent| ==> sent[i].call < sent[j].call)
    && (forall i :: 0 <= i < |sent| ==> TopicOf((reqs + [r])[sent[i].call]) == TopicOf(r))
    && (sent != [] ==>
          forall c: nat :: c < |reqs + [r]| && Waits(t, reqs + [r], c) ==> TopicOf((reqs + [r])[c]) != TopicOf(r))
  }

  lemma BarrierAnswers(s: Server, reqs: seq<Request>, name: string, num: int)
    requires ListsOk(s, reqs) && OnBarrier(s, |reqs|, name, num).Done?
    ensures var o := OnBarrier(s, |reqs|, name, num); Answering(o.server, o.sent, reqs, Barrier(name, num))
  {
    var calls := Waiting(s, name);
    assert forall i :: 0 <= i < |calls| ==> calls[i] < |reqs| && reqs[calls[i]].Barrier? && reqs[calls[i]].name == name;
  }

  lemma PushAnswers(s: Server, reqs: seq<Request>, key: string, val: string)
    requires ListsOk(s, reqs) && OnPush(s, |reqs|, key, val).Done?
    ensures var o := OnPush(s, |reqs|, key, val); Answering(o.server, o.sent, reqs, PushKV(key, val))
  {
    var calls := Pending(s, key);
    assert forall i :: 0 <= i < |calls| ==> calls[i] < |reqs| && reqs[calls[i]] == PullKV(key);
  }

  lemma HandleAnswers(s: Server, reqs: seq<Request>, r: Request)
    requires ListsOk(s, reqs) && StoreDisjoint(s) && Handle(s, |reqs|, r).Done?
    ensures var o := Handle(s, |reqs|, r); Answering(o.server, o.sent, reqs, r)
  {
    match r {
      case Barrier(name, num) => BarrierAnswers(s, reqs, name, num);
      case PushKV(key, val) => PushAnswers(s, reqs, key, val);
      case ClearKV(key) =>
      case PullKV(key) =>
    }
  }

  lemma StepOrdered(s: Server, out: seq<Response>, t: Server, sent: seq<Response>, reqs: seq<Request>, r: Request)
    requires Ordered(s, out, reqs) && Answering(t, sent, reqs, r) && Moves(s, t, sent, reqs, r)
    ensures Ordered(t, out + sent, reqs + [r])
  {
    var all, more := out + sent, reqs + [r];
    assert forall i :: 0 <= i < |out| ==> all[i] == out[i] && more[out[i].call] == reqs[out[i].call];
    assert forall i :: |out| <= i < |all| ==> all[i] == sent[i - |out|];
    forall i, j | 0 <= i < j < |all| && TopicOf(more[all[i].call]) == TopicOf(more[all[j].call])
      ensures all[i].call < all[j].call
    {
      if i < |out| <= j {
        NewIsLater(s, out, t, sent, reqs, r, i, j - |out|);
      }
    }
    forall i, c: nat |
      0 <= i < |all| && c < |more| && Waits(t, more, c) && TopicOf(more[all[i].call]) == TopicOf(more[c])
      ensures all[i].call < c
    {
      if i < |out| && c < |reqs| {
        assert Waits(s, reqs, c);
      }
    }
  }

  /** A call answered now came after those answered before on its topic. */
  lemma NewIsLater(s: Server, out: seq<Response>, t: Server, sent: seq<Response>, reqs: seq<Request>, r: Request,
                   i: nat, j: nat)
    requires Ordered(s, out, reqs) && Answering(t, sent, reqs, r) && Moves(s, t, sent, reqs, r)
    requires i < |out| && j < |sent|
    requires TopicOf((reqs + [r])[out[i].call]) == TopicOf((reqs + [r])[sent[j].call])
    ensures out[i].call < sent[j].call
  {
    var c := sent[j].call;
    if c < |reqs| {
      assert Answered(sent, c);
      assert Waits(s, reqs, c);
    }
  }

  /** Over any sequence of requests, the answers to all calls about one key are sent in the
      order in which the calls arrived - the pulls that waited for a push among each other,
      and all of them before the push itself - and so are those to all calls at one
      barrier. */
  lemma {:induction false} AnsweredInArrivalOrder(reqs: seq<Request>)
    requires Run(reqs).Done?
    ensures Ordered(Run(reqs).server, Run(reqs).sent, reqs)
  {
    if reqs != [] {
      var n := |reqs| - 1;
      var before := reqs[..n];
      AnsweredInArrivalOrder(before);
      RunAccountsForEveryCall(before);
      RunKeepsStoreDisjoint(before);
      var s := Run(before).server;
      var o := Handle(s, n, reqs[n]);
      HandleMoves(s, before, reqs[n]);
      HandleAnswers(s, before, reqs[n]);
      StepOrdered(s, Run(before).sent, o.server, o.sent, before, reqs[n]);
      assert before + [reqs[n]] == reqs;
    }
  }

  // ---------------------------------------------------------------- the store is the history

  predicate About(r: Request, key: string) {
    (r.PushKV? || r.ClearKV?) && r.key == key
  }

  /** The last push or clear of the key was a push. */
  predicate Held(reqs: seq<Request>, key: string) {
    if reqs == [] then false
    else if About(reqs[|reqs| - 1], key) then reqs[|reqs| - 1].PushKV?
    else Held(reqs[..|reqs| - 1], key)
  }

  /** What the last push of the key pushed. */
  function LastPushed(reqs: seq<Request>, key: string): string
    requires Held(reqs, key)
  {
    if About(reqs[|reqs| - 1], key) then reqs[|reqs| - 1].val else LastPushed(reqs[..|reqs| - 1], key)
  }

  ghost predicate StoreIs(kv: map<string, string>, reqs: seq<Request>) {
    forall key: string :: (key in kv <==> Held(reqs, key)) && (Held(reqs, key) ==> kv[key] == LastPushed(reqs, key))
  }

  /** After any sequence of requests the store holds exactly the keys pushed and not cleared
      since, each with the value of its last push. */
  lemma {:induction false} StoreIsHistory(reqs: seq<Request>)
    requires Run(reqs).Done?
    ensures StoreIs(Run(reqs).server.kv, reqs)
  {
    if reqs != [] {
      var n := |reqs| - 1;
      StoreIsHistory(reqs[..n]);
      StoreStep(Run(reqs[..n]).server, reqs[..n], reqs[n]);
      assert reqs[..n] + [reqs[n]] == reqs;
    }
  }

  lemma StoreStep(s: Server, reqs: seq<Request>, r: Request)
    requires StoreIs(s.kv, reqs) && Handle(s, |reqs|, r).Done?
    ensures StoreIs(Handle(s, |reqs|, r).server.kv, reqs + [r])
  {
    assert (reqs + [r])[..|reqs|] == reqs;
  }

  /** When a CHECK of a handler fails, by the history alone and by who waits. */
  ghost predicate Fails(s: Server, reqs: seq<Request>, r: Request) {
    match r
    case PushKV(key, _) => Held(reqs, key)
    case ClearKV(key) => !Held(reqs, key)
    case PullKV(_) => false
    case Barrier(name, num) =>
      exists c: nat :: c < |reqs| && Waits(s, reqs, c) && reqs[c].Barrier? && reqs[c].name == name && reqs[c].num != num
  }

  /** After any sequence of requests a further one fails a CHECK exactly if it pushes a key
      that is held, clears one that is not, or comes to a barrier at which somebody waits
      with another count; a pull never fails. */
  lemma FailsExactly(reqs: seq<Request>, r: Request)
    requires Run(reqs).Done?
    ensures Handle(Run(reqs).server, |reqs|, r).Abort? <==> Fails(Run(reqs).server, reqs, r)
  {
    StoreIsHistory(reqs);
    RunKeepsStoreDisjoint(reqs);
    RunAccountsForEveryCall(reqs);
    match r {
      case Barrier(name, num) => BarrierFails(Run(reqs).server, reqs, name, num);
      case _ =>
    }
  }

  lemma BarrierFails(s: Server, reqs: seq<Request>, name: string, num: int)
    requires ListsOk(s, reqs)
    ensures OnBarrier(s, |reqs|, name, num).Abort? <==> Fails(s, reqs, Barrier(name, num))
  {
    if name in s.barriers && s.barriers[name].1 != num {
      var c := s.barriers[name].0[0];
      assert reqs[c] == Barrier(name, s.barriers[name].1) && Waits(s, reqs, c);
    }
    if Fails(s, reqs, Barrier(name, num)) {
      var c: nat :| c < |reqs| && Waits(s, reqs, c) && reqs[c].Barrier? && reqs[c].name == name && reqs[c].num != num;
      var i :| 0 <= i < |s.barriers[name].0| && s.barriers[name].0[i] == c;
      assert reqs[s.barriers[name].0[i]] == Barrier(name, s.barriers[name].1);
    }
  }

  /** An answered pull carries what the last push of its key pushed. */
  lemma PullsGetTheLastPush(reqs: seq<Request>, r: Request, i: nat)
    requires Run(reqs + [r]).Done?
    requires Run(reqs).Done? && Handle(Run(reqs).server, |reqs|, r).Done?
    requires i < |Handle(Run(reqs).server, |reqs|, r).sent|
    ensures var x := Handle(Run(reqs).server, |reqs|, r).sent[i];
            && x.call <= |reqs|
            && match (reqs + [r])[x.call]
               case PullKV(key) => Held(reqs + [r], key) && x.val == Some(LastPushed(reqs + [r], key))
               case _ => x.val == None
  {
    RunSnoc(reqs, r, "");
    StoreIsHistory(reqs + [r]);
    PullsGetTheHeldValue(Run(reqs).server, reqs, r, i);
  }
}
