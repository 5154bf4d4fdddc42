/** The control server: barriers and a blocking key/value store, one request at a time. */
module CtrlServer {
  import Config
  import opened Options

  datatype Request =
    | Barrier(name: string, num: int)
    | PushKV(key: string, val: string)
    | ClearKV(key: string)
    | PullKV(key: string)

  /** An answered call; pulls carry the value. */
  datatype Response = Response(call: nat, val: Option<string>)

  /** `barrier_calls_`, `kv_` and `pending_kv_calls_`. */
  datatype Server = Server(
    barriers: map<string, (seq<nat>, int)>,
    kv: map<string, string>,
    pending: map<string, seq<nat>>)

  const EMPTY := Server(map[], map[], map[])

  /** A handler either fails a CHECK, which ends the process, or changes the state and
      answers some calls. */
  datatype Outcome = Abort | Done(server: Server, sent: seq<Response>)

  function Answers(calls: seq<nat>, val: Option<string>): (r: seq<Response>)
    ensures |r| == |calls| && forall i :: 0 <= i < |r| ==> r[i] == Response(calls[i], val)
  {
    seq(|calls|, i requires 0 <= i < |calls| => Response(calls[i], val))
  }

  function Waiting(s: Server, name: string): seq<nat> {
    if name in s.barriers then s.barriers[name].0 else []
  }

  function Pending(s: Server, key: string): seq<nat> {
    if key in s.pending then s.pending[key] else []
  }

  function OnBarrier(s: Server, call: nat, name: string, num: int): Outcome {
    if name in s.barriers && s.barriers[name].1 != num then Abort
    else
      var calls := Waiting(s, name) + [call];
      if |calls| == num then Done(s.(barriers := s.barriers - {name}), Answers(calls, None))
      else Done(s.(barriers := s.barriers[name := (calls, num)]), [])
  }

  function OnPush(s: Server, call: nat, key: string, val: string): Outcome {
    if key in s.kv then Abort
    else Done(s.(kv := s.kv[key := val], pending := s.pending - {key}),
              Answers(Pending(s, key), Some(val)) + [Response(call, None)])
  }

  function OnClear(s: Server, call: nat, key: string): Outcome {
    if key !in s.kv || key in s.pending then Abort
    else Done(s.(kv := s.kv - {key}), [Response(call, None)])
  }

  function OnPull(s: Server, call: nat, key: string): Outcome {
    if key in s.kv then Done(s, [Response(call, Some(s.kv[key]))])
    else Done(s.(pending := s.pending[key := Pending(s, key) + [call]]), [])
  }

  function Handle(s: Server, call: nat, req: Request): Outcome {
    match req
    case Barrier(name, num) => OnBarrier(s, call, name, num)
    case PushKV(key, val) => OnPush(s, call, key, val)
    case ClearKV(key) => OnClear(s, call, key)
    case PullKV(key) => OnPull(s, call, key)
  }

  // ---------------------------------------------------------------- the object

  /** The handlers as they run, with the responses they have sent.  `ok` is false when
      a CHECK fails. */
  class Handlers {
    var barrierCalls: map<string, (seq<nat>, int)>
    var kv: map<string, string>
    var pendingKvCalls: map<string, seq<nat>>
    var responses: seq<Response>

    function View(): Server
      reads this
    {
      Server(barrierCalls, kv, pendingKvCalls)
    }

    constructor ()
      ensures View() == EMPTY && responses == []
    {
      barrierCalls, kv, pendingKvCalls, responses := map[], map[], map[], [];
    }

    method SendAll(calls: seq<nat>, val: Option<string>)
      modifies this`responses
      ensures responses == old(responses) + Answers(calls, val)
    {
      for i := 0 to |calls|
        invariant responses == old(responses) + Answers(calls, val)[..i]
      {
        responses := responses + [Response(calls[i], val)];
      }
      assert Answers(calls, val)[..|calls|] == Answers(calls, val);
    }

    method HandleBarrier(call: nat, name: string, num: int) returns (ok: bool)
      modifies this
      ensures match OnBarrier(old(View()), call, name, num)
              case Abort => !ok
              case Done(s, sent) => ok && View() == s && responses == old(responses) + sent
      ensures ok <==> name !in old(barrierCalls) || old(barrierCalls)[name].1 == num
      ensures kv == old(kv) && pendingKvCalls == old(pendingKvCalls)
    {
      if name !in barrierCalls {
        barrierCalls := barrierCalls[name := ([], num)];
      }
      if num != barrierCalls[name].1 {
        return false;
      }
      barrierCalls := barrierCalls[name := (barrierCalls[name].0 + [call], num)];
      if |barrierCalls[name].0| == num {
        SendAll(barrierCalls[name].0, None);
        barrierCalls := barrierCalls - {name};
      }
      return true;
    }

    method HandlePushKV(call: nat, key: string, val: string) returns (ok: bool)
      modifies this
      ensures match OnPush(old(View()), call, key, val)
              case Abort => !ok
              case Done(s, sent) => ok && View() == s && responses == old(responses) + sent
      ensures ok <==> key !in old(kv)
      ensures ok ==> key in kv && kv[key] == val && key !in pendingKvCalls && barrierCalls == old(barrierCalls)
    {
      if key in kv {
        return false;
      }
      kv := kv[key := val];
      if key in pendingKvCalls {
        SendAll(pendingKvCalls[key], Some(val));
        pendingKvCalls := pendingKvCalls - {key};
      }
      responses := responses + [Response(call, None)];
      return true;
    }

    method HandleClearKV(call: nat, key: string) returns (ok: bool)
      modifies this
      ensures match OnClear(old(View()), call, key)
              case Abort => !ok
              case Done(s, sent) => ok && View() == s && responses == old(responses) + sent
      ensures ok <==> key in old(kv) && key !in old(pendingKvCalls)
      ensures ok ==> kv == old(kv) - {key} && pendingKvCalls == old(pendingKvCalls) && barrierCalls == old(barrierCalls)
    {
      if key !in kv {
        return false;
      }
      kv := kv - {key};
      if key in pendingKvCalls {
        return false;
      }
      responses := responses + [Response(call, None)];
      return true;
    }

    method HandlePullKV(call: nat, key: string) returns (ok: bool)
      modifies this
      ensures match OnPull(old(View()), call, key)
              case Abort => !ok
              case Done(s, sent) => ok && View() == s && responses == old(responses) + sent
      ensures ok && kv == old(kv) && barrierCalls == old(barrierCalls)
    {
      if key in kv {
        responses := responses + [Response(call, Some(kv[key]))];
      } else {
        pendingKvCalls := pendingKvCalls[key := (if key in pendingKvCalls then pendingKvCalls[key] else []) + [call]];
      }
      return true;
    }
  }

  // ---------------------------------------------------------------- request sequences

  /** The server after a sequence of requests; the i-th request is call i. */
  function Run(reqs: seq<Request>): Outcome {
    if reqs == [] then Done(EMPTY, [])
    else
      var n := |reqs| - 1;
      match Run(reqs[..n])
      case Abort => Abort
      case Done(s, out) =>
        match Handle(s, n, reqs[n])
        case Abort => Abort
        case Done(t, sent) => Done(t, out + sent)
  }

  ghost predicate StoreDisjoint(s: Server) {
    s.kv.Keys !! s.pending.Keys
  }

  /** A key is never both held and waited for, whatever is asked in whatever order, so
      the second CHECK of ClearKV cannot fail: a clear fails exactly when the key is
      missing. */
  lemma {:induction false} RunKeepsStoreDisjoint(reqs: seq<Request>)
    ensures Run(reqs).Done? ==> StoreDisjoint(Run(reqs).server)
    ensures Run(reqs).Done? ==> forall call: nat, key: string ::
              OnClear(Run(reqs).server, call, key).Abort? <==> key !in Run(reqs).server.kv
  {
    if reqs != [] {
      RunKeepsStoreDisjoint(reqs[..|reqs| - 1]);
    }
  }

  // ---------------------------------------------------------------- every call is in one place

  ghost predicate Increasing(calls: seq<nat>, n: nat) {
    && (forall i :: 0 <= i < |calls| ==> calls[i] < n)
    && (forall i, j :: 0 <= i < j < |calls| ==> calls[i] < calls[j])
  }

  ghost predicate Answered(out: seq<Response>, call: nat) {
    exists i :: 0 <= i < |out| && out[i].call == call
  }

  ghost predicate Waits(s: Server, reqs: seq<Request>, call: nat)
    requires call < |reqs|
  {
    match reqs[call]
    case Barrier(name, _) => call in Waiting(s, name)
    case PullKV(key) => call in Pending(s, key)
    case _ => false
  }

  /** Each list of waiting calls is in arrival order and holds only calls of its kind. */
  ghost predicate ListsOk(s: Server, reqs: seq<Request>) {
    && (forall name :: name in s.barriers ==>
          && Increasing(s.barriers[name].0, |reqs|)
          && s.barriers[name].0 != []
          && forall i :: 0 <= i < |s.barriers[name].0| ==>
                   reqs[s.barriers[name].0[i]] == Barrier(name, s.barriers[name].1))
    && (forall key :: key in s.pending ==>
          && Increasing(s.pending[key], |reqs|)
          && s.pending[key] != []
          && forall i :: 0 <= i < |s.pending[key]| ==> reqs[s.pending[key][i]] == PullKV(key))
  }

  ghost predicate Accounted(s: Server, out: seq<Response>, reqs: seq<Request>) {
    && ListsOk(s, reqs)
    && (forall i :: 0 <= i < |out| ==> out[i].call < |reqs|)
    && (forall i, j :: 0 <= i < j < |out| ==> out[i].call != out[j].call)
    && (forall c :: 0 <= c < |reqs| ==> (Answered(out, c) <==> !Waits(s, reqs, c)))
  }

  /** What one handled request does to the calls: those it answers were waiting (or are
      the new one) and wait no longer, and nobody else's waiting changes. */
  ghost predicate Moves(s: Server, t: Server, sent: seq<Response>, reqs: seq<Request>, r: Request) {
    var n := |reqs|;
    && ListsOk(t, reqs + [r])
    && (forall i :: 0 <= i < |sent| ==> sent[i].call <= n)
    && (forall i, j :: 0 <= i < j < |sent| ==> sent[i].call != sent[j].call)
    && (forall c :: 0 <= c < n ==> (Waits(t, reqs + [r], c) <==> Waits(s, reqs, c) && !Answered(sent, c)))
    && (forall c :: 0 <= c < n && Answered(sent, c) ==> Waits(s, reqs, c))
    && (Waits(t, reqs + [r], n) <==> !Answered(sent, n))
  }

  lemma MovesAccount(s: Server, out: seq<Response>, t: Server, sent: seq<Response>, reqs: seq<Request>, r: Request)
    requires Accounted(s, out, reqs) && Moves(s, t, sent, reqs, r)
    ensures Accounted(t, out + sent, reqs + [r])
  {
    var all := out + sent;
    var n := |reqs|;
    forall c | 0 <= c <= n
      ensures Answered(all, c) <==> Answered(out, c) || Answered(sent, c)
    {
      AnsweredConcat(out, sent, c);
    }
    assert !Answered(out, n);
    forall i | 0 <= i < |out|
      ensures !Answered(sent, out[i].call)
    {
      assert Answered(out, out[i].call);
    }
    ApartConcat(out, sent);
  }

  lemma ApartConcat(a: seq<Response>, b: seq<Response>)
    requires forall i, j :: 0 <= i < j < |a| ==> a[i].call != a[j].call
    requires forall i, j :: 0 <= i < j < |b| ==> b[i].call != b[j].call
    requires forall i :: 0 <= i < |a| ==> !Answered(b, a[i].call)
    ensures forall i, j :: 0 <= i < j < |a + b| ==> (a + b)[i].call != (a + b)[j].call
  {
    var all := a + b;
    forall i, j | 0 <= i < j < |all|
      ensures all[i].call != all[j].call
    {
      if i < |a| <= j {
        assert b[j - |a|] == all[j];
      }
    }
  }

  lemma AnsweredConcat(a: seq<Response>, b: seq<Response>, c: nat)
    ensures Answered(a + b, c) <==> Answered(a, c) || Answered(b, c)
  {
    if Answered(a, c) {
      var i :| 0 <= i < |a| && a[i].call == c;
      assert (a + b)[i] == a[i];
    }
    if Answered(b, c) {
      var i :| 0 <= i < |b| && b[i].call == c;
      assert (a + b)[|a| + i] == b[i];
    }
  }

  lemma AnsweredOne(x: Response, c: nat)
    ensures Answered([x], c) <==> c == x.call
  {
    assert [x][0] == x;
  }

  lemma AnsweredAll(calls: seq<nat>, val: Option<string>, c: nat)
    ensures Answered(Answers(calls, val), c) <==> c in calls
  {
    if c in calls {
      var i :| 0 <= i < |calls| && calls[i] == c;
      assert Answers(calls, val)[i].call == c;
    }
  }

  /** A key that is not touched, and a list that is only read, keep their calls. */
  lemma ListsGrow(s: Server, reqs: seq<Request>, r: Request)
    requires ListsOk(s, reqs)
    ensures ListsOk(s, reqs + [r])
    ensures forall c :: 0 <= c < |reqs| ==> (Waits(s, reqs + [r], c) <==> Waits(s, reqs, c))
  {
  }

  lemma ClearMoves(s: Server, reqs: seq<Request>, key: string)
    requires ListsOk(s, reqs) && OnClear(s, |reqs|, key).Done?
    ensures var o := OnClear(s, |reqs|, key); Moves(s, o.server, o.sent, reqs, ClearKV(key))
  {
    var o := OnClear(s, |reqs|, key);
    ListsGrow(s, reqs, ClearKV(key));
    forall c: nat ensures Answered(o.sent, c) <==> c == |reqs| { AnsweredOne(o.sent[0], c); }
  }

  lemma SnocIncreasing(calls: seq<nat>, n: nat)
    requires Increasing(calls, n)
    ensures Increasing(calls + [n], n + 1)
    ensures n !in calls
    ensures forall c :: 0 <= c < n ==> (c in calls + [n] <==> c in calls)
  {
  }

  lemma PullLists(s: Server, reqs: seq<Request>, key: string)
    requires ListsOk(s, reqs) && key !in s.kv
    ensures ListsOk(OnPull(s, |reqs|, key).server, reqs + [PullKV(key)])
  {
    var calls := Pending(s, key);
    SnocIncreasing(calls, |reqs|);
    ListsGrow(s, reqs, PullKV(key));
    assert forall i :: 0 <= i < |calls| ==> reqs[calls[i]] == PullKV(key);
  }

  lemma PullWaits(s: Server, reqs: seq<Request>, key: string)
    requires ListsOk(s, reqs) && key !in s.kv
    ensures var t := OnPull(s, |reqs|, key).server;
            && (forall c :: 0 <= c < |reqs| ==> (Waits(t, reqs + [PullKV(key)], c) <==> Waits(s, reqs, c)))
            && Waits(t, reqs + [PullKV(key)], |reqs|)
  {
    var t := OnPull(s, |reqs|, key).server;
    SnocIncreasing(Pending(s, key), |reqs|);
    assert Pending(t, key) == Pending(s, key) + [|reqs|];
    assert Pending(t, key)[|Pending(s, key)|] == |reqs|;
    assert forall k :: k != key ==> Pending(t, k) == Pending(s, k);
  }

  lemma PullMoves(s: Server, reqs: seq<Request>, key: string)
    requires ListsOk(s, reqs)
    ensures var o := OnPull(s, |reqs|, key); Moves(s, o.server, o.sent, reqs, PullKV(key))
  {
    var n := |reqs|;
    var o := OnPull(s, n, key);
    if key in s.kv {
      ListsGrow(s, reqs, PullKV(key));
      forall c: nat ensures Answered(o.sent, c) <==> c == n { AnsweredOne(o.sent[0], c); }
      assert n !in Pending(s, key);
    } else {
      PullLists(s, reqs, key);
      PullWaits(s, reqs, key);
    }
  }

  lemma PushWaits(s: Server, reqs: seq<Request>, key: string, val: string)
    requires ListsOk(s, reqs) && OnPush(s, |reqs|, key, val).Done?
    ensures var t := OnPush(s, |reqs|, key, val).server;
            var calls := Pending(s, key);
            && ListsOk(t, reqs + [PushKV(key, val)])
            && Increasing(calls, |reqs|)
            && (forall c :: 0 <= c < |reqs| ==>
                  (Waits(t, reqs + [PushKV(key, val)], c) <==> Waits(s, reqs, c) && c !in calls))
            && (forall c :: c in calls ==> 0 <= c < |reqs| && Waits(s, reqs, c))
  {
    ListsGrow(s, reqs, PushKV(key, val));
    var calls := Pending(s, key);
    assert forall i :: 0 <= i < |calls| ==> reqs[calls[i]] == PullKV(key);
  }

  lemma PushMoves(s: Server, reqs: seq<Request>, key: string, val: string)
    requires ListsOk(s, reqs) && OnPush(s, |reqs|, key, val).Done?
    ensures var o := OnPush(s, |reqs|, key, val); Moves(s, o.server, o.sent, reqs, PushKV(key, val))
  {
    var n := |reqs|;
    var o := OnPush(s, n, key, val);
    var calls := Pending(s, key);
    PushWaits(s, reqs, key, val);
    forall c: nat ensures Answered(o.sent, c) <==> c in calls || c == n {
      AnsweredAll(calls, Some(val), c);
      AnsweredOne(Response(n, None), c);
      AnsweredConcat(Answers(calls, Some(val)), [Response(n, None)], c);
    }
  }

  lemma BarrierLists(s: Server, reqs: seq<Request>, name: string, num: int)
    requires ListsOk(s, reqs) && OnBarrier(s, |reqs|, name, num).Done?
    ensures ListsOk(OnBarrier(s, |reqs|, name, num).server, reqs + [Barrier(name, num)])
  {
    var calls := Waiting(s, name);
    SnocIncreasing(calls, |reqs|);
    ListsGrow(s, reqs, Barrier(name, num));
    assert forall i :: 0 <= i < |calls| ==> reqs[calls[i]] == Barrier(name, num);
  }

  lemma BarrierWaits(s: Server, reqs: seq<Request>, name: string, num: int)
    requires ListsOk(s, reqs) && OnBarrier(s, |reqs|, name, num).Done?
    ensures var o := OnBarrier(s, |reqs|, name, num);
            var calls := Waiting(s, name) + [|reqs|];
            && (forall c :: 0 <= c < |reqs| ==>
                  (Waits(o.server, reqs + [Barrier(name, num)], c) <==>
                   Waits(s, reqs, c) && (|calls| == num ==> c !in calls)))
            && (forall c :: 0 <= c < |reqs| && c in calls ==> Waits(s, reqs, c))
            && (Waits(o.server, reqs + [Barrier(name, num)], |reqs|) <==> |calls| != num)
  {
    var t := OnBarrier(s, |reqs|, name, num).server;
    var before := Waiting(s, name);
    var calls := before + [|reqs|];
    SnocIncreasing(before, |reqs|);
    assert calls[|before|] == |reqs|;
    assert Waiting(t, name) == if |calls| == num then [] else calls;
    assert forall k :: k != name ==> Waiting(t, k) == Waiting(s, k);
    forall c | 0 <= c < |reqs| && c in calls
      ensures Waits(s, reqs, c)
    {
      assert c in before;
      var i :| 0 <= i < |before| && before[i] == c;
      assert reqs[before[i]] == Barrier(name, num);
    }
  }

  lemma AnswersMove(s: Server, t: Server, calls: seq<nat>, reqs: seq<Request>, r: Request)
    requires ListsOk(t, reqs + [r]) && Increasing(calls, |reqs| + 1)
    requires forall c :: 0 <= c < |reqs| ==> (Waits(t, reqs + [r], c) <==> Waits(s, reqs, c) && c !in calls)
    requires forall c :: 0 <= c < |reqs| && c in calls ==> Waits(s, reqs, c)
    requires Waits(t, reqs + [r], |reqs|) <==> |reqs| !in calls
    ensures Moves(s, t, Answers(calls, None), reqs, r)
  {
    forall c: nat ensures Answered(Answers(calls, None), c) <==> c in calls {
      AnsweredAll(calls, None, c);
    }
  }

  lemma BarrierMoves(s: Server, reqs: seq<Request>, name: string, num: int)
    requires ListsOk(s, reqs) && OnBarrier(s, |reqs|, name, num).Done?
    ensures var o := OnBarrier(s, |reqs|, name, num); Moves(s, o.server, o.sent, reqs, Barrier(name, num))
  {
    var o := OnBarrier(s, |reqs|, name, num);
    var calls := Waiting(s, name) + [|reqs|];
    BarrierLists(s, reqs, name, num);
    BarrierWaits(s, reqs, name, num);
    SnocIncreasing(Waiting(s, name), |reqs|);
    assert calls[|calls| - 1] == |reqs|;
    AnswersMove(s, o.server, if |calls| == num then calls else [], reqs, Barrier(name, num));
    assert Answers([], None) == [];
  }

  lemma HandleMoves(s: Server, reqs: seq<Request>, r: Request)
    requires ListsOk(s, reqs) && Handle(s, |reqs|, r).Done?
    ensures var o := Handle(s, |reqs|, r); Moves(s, o.server, o.sent, reqs, r)
  {
    match r {
      case Barrier(name, num) => BarrierMoves(s, reqs, name, num);
      case PushKV(key, val) => PushMoves(s, reqs, key, val);
      case ClearKV(key) => ClearMoves(s, reqs, key);
      case PullKV(key) => PullMoves(s, reqs, key);
    }
  }

  /** Over any sequence of requests, each call is answered at most once, and is still
      waiting - at its barrier or for its key - exactly when it has not been answered. */
  lemma {:induction false} RunAccountsForEveryCall(reqs: seq<Request>)
    ensures Run(reqs).Done? ==> Accounted(Run(reqs).server, Run(reqs).sent, reqs)
  {
    if reqs != [] && Run(reqs).Done? {
      var n := |reqs| - 1;
      var before := reqs[..n];
      RunAccountsForEveryCall(before);
      var s := Run(before).server;
      HandleMoves(s, before, reqs[n]);
      var o := Handle(s, n, reqs[n]);
      MovesAccount(s, Run(before).sent, o.server, o.sent, before, reqs[n]);
      assert before + [reqs[n]] == reqs;
    }
  }

  /** A pull is answered with the value its key holds at that moment. */
  lemma PullsGetTheHeldValue(s: Server, reqs: seq<Request>, r: Request, i: nat)
    requires ListsOk(s, reqs) && Handle(s, |reqs|, r).Done? && i < |Handle(s, |reqs|, r).sent|
    ensures var o := Handle(s, |reqs|, r);
            var c := o.sent[i].call;
            && c <= |reqs|
            && var q := if c < |reqs| then reqs[c] else r;
            match q
            case PullKV(key) => key in o.server.kv && o.sent[i].val == Some(o.server.kv[key])
            case _ => o.sent[i].val == None
  {
    match r {
      case PushKV(key, val) =>
        var calls := Pending(s, key);
        assert forall k :: 0 <= k < |calls| ==> reqs[calls[k]] == PullKV(key);
      case Barrier(name, num) =>
        var calls := Waiting(s, name);
        assert forall k :: 0 <= k < |calls| ==> reqs[calls[k]].Barrier?;
      case _ =>
    }
  }

  // ---------------------------------------------------------------- barriers

  function Arrivals(reqs: seq<Request>, name: string): nat {
    if reqs == [] then 0
    else Arrivals(reqs[..|reqs| - 1], name)
         + if reqs[|reqs| - 1].Barrier? && reqs[|reqs| - 1].name == name then 1 else 0
  }

  /** Answered calls of a barrier. */
  function Released(reqs: seq<Request>, out: seq<Response>, name: string): nat {
    if out == [] then 0
    else var c := out[|out| - 1].call;
         Released(reqs, out[..|out| - 1], name)
         + if c < |reqs| && reqs[c].Barrier? && reqs[c].name == name then 1 else 0
  }

  /** Rounds of `num` calls; a barrier for fewer than one call is never released. */
  function WaitingAfter(num: int, arrivals: nat): nat {
    if num >= 1 then arrivals % num else arrivals
  }

  ghost predicate UsedWith(reqs: seq<Request>, name: string, num: int) {
    forall i :: 0 <= i < |reqs| && reqs[i].Barrier? && reqs[i].name == name ==> reqs[i].num == num
  }

  lemma {:induction false} ReleasedConcat(reqs: seq<Request>, a: seq<Response>, b: seq<Response>, name: string)
    ensures Released(reqs, a + b, name) == Released(reqs, a, name) + Released(reqs, b, name)
  {
    if b == [] {
      assert a + b == a;
    } else {
      assert (a + b)[..|a + b| - 1] == a + b[..|b| - 1];
      ReleasedConcat(reqs, a, b[..|b| - 1], name);
    }
  }

  lemma {:induction false} ReleasedGrow(reqs: seq<Request>, r: Request, out: seq<Response>, name: string)
    requires forall i :: 0 <= i < |out| ==> out[i].call < |reqs|
    ensures Released(reqs + [r], out, name) == Released(reqs, out, name)
  {
    if out != [] {
      ReleasedGrow(reqs, r, out[..|out| - 1], name);
    }
  }

  /** Calls that are all of one barrier, or all of something else. */
  lemma {:induction false} ReleasedUniform(reqs: seq<Request>, out: seq<Response>, name: string, mine: bool)
    requires forall i :: 0 <= i < |out| ==>
               out[i].call < |reqs| && (mine <==> reqs[out[i].call].Barrier? && reqs[out[i].call].name == name)
    ensures Released(reqs, out, name) == if mine then |out| else 0
  {
    if out != [] {
      ReleasedUniform(reqs, out[..|out| - 1], name, mine);
    }
  }

  lemma NextRound(num: int, arrivals: nat)
    requires num >= 1
    ensures (arrivals + 1) % num == if arrivals % num + 1 == num then 0 else arrivals % num + 1
  {
    var q, m := arrivals / num, arrivals % num;
    Config.DivBounds(arrivals, num);
    assert arrivals == q * num + m;
    assert (q + 1) * num == q * num + num;
    Config.DivUnique(arrivals + 1, num, if m + 1 == num then q + 1 else q);
  }

  /** `waiting` callers of a barrier, and all other arrivals answered. */
  ghost predicate Counted(s: Server, out: seq<Response>, reqs: seq<Request>, name: string, num: int, arrivals: nat,
                        waiting: nat) {
    && |Waiting(s, name)| == waiting
    && (name in s.barriers ==> s.barriers[name].1 == num)
    && Released(reqs, out, name) == arrivals - waiting
  }

  /** Callers left when one more has arrived. */
  function Joined(num: int, waiting: nat): nat {
    if waiting + 1 == num then 0 else waiting + 1
  }

  function JoinedOneByOne(num: int, arrivals: nat): nat {
    if arrivals == 0 then 0 else Joined(num, JoinedOneByOne(num, arrivals - 1))
  }

  lemma {:induction false} JoinedIsWaitingAfter(num: int, arrivals: nat)
    ensures JoinedOneByOne(num, arrivals) == WaitingAfter(num, arrivals)
  {
    if arrivals > 0 {
      JoinedIsWaitingAfter(num, arrivals - 1);
      if num >= 1 {
        NextRound(num, arrivals - 1);
      }
    } else if num >= 1 {
      Config.Small(0, num);
    }
  }

  lemma RunSnoc(reqs: seq<Request>, r: Request, name: string)
    ensures Arrivals(reqs + [r], name) == Arrivals(reqs, name) + if r.Barrier? && r.name == name then 1 else 0
    ensures Run(reqs + [r]).Done? ==>
              && Run(reqs).Done? && Handle(Run(reqs).server, |reqs|, r).Done?
              && ListsOk(Run(reqs).server, reqs)
              && (forall i :: 0 <= i < |Run(reqs).sent| ==> Run(reqs).sent[i].call < |reqs|)
              && var o := Handle(Run(reqs).server, |reqs|, r);
                 Run(reqs + [r]) == Done(o.server, Run(reqs).sent + o.sent)
  {
    assert (reqs + [r])[..|reqs|] == reqs;
    RunAccountsForEveryCall(reqs);
  }

  lemma {:induction false} RunCounts(reqs: seq<Request>, name: string, num: int)
    requires Run(reqs).Done? && UsedWith(reqs, name, num)
    ensures Counted(Run(reqs).server, Run(reqs).sent, reqs, name, num,
                    Arrivals(reqs, name), JoinedOneByOne(num, Arrivals(reqs, name)))
  {
    if reqs != [] {
      var before, r := reqs[..|reqs| - 1], reqs[|reqs| - 1];
      assert before + [r] == reqs;
      RunSnoc(before, r, name);
      RunCounts(before, name, num);
      CountsStep(Run(before).server, Run(before).sent, before, r, name, num,
                 Arrivals(before, name), JoinedOneByOne(num, Arrivals(before, name)));
    }
  }

  /** Barrier counting over whole runs: with a fixed count, the number of waiting calls
      is the number of arrivals since the last full round, and every other arrival has
      been answered; so answers come in full rounds only and the name can be used again.
      With a count below one nobody is ever answered. */
  lemma BarrierCounts(reqs: seq<Request>, name: string, num: int)
    requires Run(reqs).Done? && UsedWith(reqs, name, num)
    ensures var s := Run(reqs).server;
            && |Waiting(s, name)| == WaitingAfter(num, Arrivals(reqs, name))
            && (name in s.barriers ==> s.barriers[name].1 == num)
            && Released(reqs, Run(reqs).sent, name) == Arrivals(reqs, name) - WaitingAfter(num, Arrivals(reqs, name))
  {
    RunCounts(reqs, name, num);
    JoinedIsWaitingAfter(num, Arrivals(reqs, name));
  }

  lemma CountsStep(s: Server, out: seq<Response>, reqs: seq<Request>, r: Request, name: string, num: int,
                   arrivals: nat, waiting: nat)
    requires ListsOk(s, reqs) && (forall i :: 0 <= i < |out| ==> out[i].call < |reqs|)
    requires Handle(s, |reqs|, r).Done?
    requires r.Barrier? && r.name == name ==> r.num == num
    requires Counted(s, out, reqs, name, num, arrivals, waiting)
    ensures var o := Handle(s, |reqs|, r);
            if r.Barrier? && r.name == name then
              Counted(o.server, out + o.sent, reqs + [r], name, num, arrivals + 1, Joined(num, waiting))
            else Counted(o.server, out + o.sent, reqs + [r], name, num, arrivals, waiting)
  {
    var o := Handle(s, |reqs|, r);
    ReleasedConcat(reqs + [r], out, o.sent, name);
    ReleasedGrow(reqs, r, out, name);
    BarrierStep(s, reqs, r, name, num);
  }

  /** What one request does to the callers of one barrier. */
  lemma BarrierStep(s: Server, reqs: seq<Request>, r: Request, name: string, num: int)
    requires ListsOk(s, reqs) && Handle(s, |reqs|, r).Done?
    requires name in s.barriers ==> s.barriers[name].1 == num
    requires r.Barrier? && r.name == name ==> r.num == num
    ensures var o := Handle(s, |reqs|, r);
            var waiting := |Waiting(s, name)|;
            && (name in o.server.barriers ==> o.server.barriers[name].1 == num)
            && if r.Barrier? && r.name == name then
                 if waiting + 1 == num then |Waiting(o.server, name)| == 0 && Released(reqs + [r], o.sent, name) == num
                 else |Waiting(o.server, name)| == waiting + 1 && Released(reqs + [r], o.sent, name) == 0
               else |Waiting(o.server, name)| == waiting && Released(reqs + [r], o.sent, name) == 0
  {
    AnswersAlike(s, reqs, r, name);
    ReleasedUniform(reqs + [r], Handle(s, |reqs|, r).sent, name, r.Barrier? && r.name == name);
  }

  /** The calls a barrier arrival answers are of that barrier, those answered by any other
      request are not. */
  lemma AnswersAlike(s: Server, reqs: seq<Request>, r: Request, name: string)
    requires ListsOk(s, reqs) && Handle(s, |reqs|, r).Done?
    ensures var sent := Handle(s, |reqs|, r).sent;
            forall i :: 0 <= i < |sent| ==>
              && sent[i].call < |reqs + [r]|
              && (r.Barrier? && r.name == name <==>
                  (reqs + [r])[sent[i].call].Barrier? && (reqs + [r])[sent[i].call].name == name)
  {
    match r {
      case Barrier(b, m) =>
        var calls := Waiting(s, b);
        assert forall k :: 0 <= k < |calls| ==> reqs[calls[k]] == Barrier(b, m);
      case PushKV(key, val) =>
        var calls := Pending(s, key);
        assert forall k :: 0 <= k < |calls| ==> reqs[calls[k]] == PullKV(key);
      case _ =>
    }
  }
}
